# CricTurf Manager, modelled in Dafny

CricTurf Manager is a single-page booking app for a cricket ground. It has two
grounds (the main stadium pitch and the practice nets) and eight one-hour daily
slots grouped into Morning, Evening and Night. A visitor follows these steps:

- pick a ground, a date and a free slot;
- fill in name, phone and email in a two-step dialog;
- choose a payment method (UPI app, QR scan, card or cash);
- watch three simulated payment phases, after which the booking is added to the ledger.

A logged-in admin sees a dashboard with the total revenue of confirmed bookings,
the booking count and one row per booking, each with a cancel button. A
stand-alone month calendar component offers day buttons in a 7-column grid.
Days before today are disabled in that grid.

The model has one Dafny module per source file:

| module | source file | form |
|---|---|---|
| `Types` | `src/types.ts` | datatypes |
| `Constants`, `CatalogFacts` | `src/constants.ts` | constants, and lemmas about them |
| `Calendar` | `src/components/Calendar.tsx` | proleptic Gregorian date arithmetic and the day grid as functions; the grid loop as `BuildGrid`; the month shown as class `CalendarState` |
| `Modal` | `src/components/BookingModal.tsx` | class `BookingModal`: a state machine whose timers are explicit `Tick` steps |
| `BookingView` | `src/views/Booking.tsx` | functions: turf cards, the seven offered dates, the slot grid by period, slot buttons |
| `Admin` | `src/views/Admin.tsx` | functions: revenue fold, rows, empty state |
| `App` | `src/App.tsx` | class `AppState` with the handlers; the ledger operations as functions |

`Text` holds decimal rendering and parsing (`String(n)`, `padStart(2, '0')`).
`Wrappers` holds `Option`.

Dates are `(year, month, day)` with a 1-based month. Day numbers count from
0001-01-01, and the weekday is `(DayNumber + 1) % 7` with Sunday as 0, as
`getDay()` returns it.

Notes on what the code does:

- the UPI tab does not require an app to be chosen; the payment is then
  recorded as "UPI ID" (`src/components/BookingModal.tsx:59`);
- cancelling removes every booking with that id from the ledger by a filter
  (`src/App.tsx:100-105`); no booking is ever marked cancelled;
- nothing in `handleConfirmBooking` checks that the slot is free
  (`src/App.tsx:77-98`). The only guard is the disabled slot button, so
  freedom from double bookings is stated conditionally: it is preserved when
  `checkBooked` said the slot was free;
- there is no booking cut-off time and no live change feed in these files; the
  ledger changes only through the confirm and cancel handlers.

## Model

| member | source | states |
|---|---|---|
| Text.NatToString | src/components/Calendar.tsx:32-33 | `String(n)` of a natural is a non-empty digit string with no leading zero; it has one digit exactly when n < 10 |
| Text.ParseNatToString | src/components/Calendar.tsx:31-34 | reading back the decimal rendering of a natural gives the same natural |
| Text.ParseIntToString | src/components/Calendar.tsx:31 | reading back the rendering of any integer, with its sign, gives the same integer (the `${y}` year field) |
| Text.PadStart2 | src/components/Calendar.tsx:32-33 | `padStart(2, '0')` yields only digits, and exactly two of them below 100 |
| Text.ParsePadStart2 | src/components/Calendar.tsx:32-33 | zero padding loses nothing: the padded string reads back as the same number |
| CatalogFacts.TurfKeysMatchIds | src/constants.ts:3-18 | every key of `TURFS` is the `id` of the ground stored under it |
| CatalogFacts.TurfValuesListedOnce | src/constants.ts:3-18 | `Object.values(TURFS)` lists each ground once: as many values as keys, each value stored under its own id, ids distinct |
| CatalogFacts.TurfPricesPositive | src/constants.ts:8-15 | every ground has a positive hourly price |
| CatalogFacts.SlotIdsDistinct | src/constants.ts:20-29 | no two slots share an id, so `SLOTS.find` by id is unambiguous |
| CatalogFacts.PeriodsCoverSlots | src/constants.ts:20-31 | the three periods are distinct, every period value is among them, and every slot's period is one of them |
| CatalogFacts.Slot0607WellFormed | src/constants.ts:21 | slot 06-07's label reads 06:00 AM to 07:00 AM and its id names hours 6 and 7 |
| CatalogFacts.Slot0708WellFormed | src/constants.ts:22 | slot 07-08's label and id agree on hours 7 to 8 |
| CatalogFacts.Slot0809WellFormed | src/constants.ts:23 | slot 08-09's label and id agree on hours 8 to 9 |
| CatalogFacts.Slot1617WellFormed | src/constants.ts:24 | slot 16-17's 12-hour PM label and its 24-hour id agree on hours 16 to 17 |
| CatalogFacts.Slot1718WellFormed | src/constants.ts:25 | slot 17-18's label and id agree on hours 17 to 18 |
| CatalogFacts.Slot1819WellFormed | src/constants.ts:26 | slot 18-19's label and id agree on hours 18 to 19 |
| CatalogFacts.Slot1920WellFormed | src/constants.ts:27 | slot 19-20's label and id agree on hours 19 to 20 |
| CatalogFacts.Slot2021WellFormed | src/constants.ts:28 | slot 20-21's label and id agree on hours 20 to 21 |
| CatalogFacts.SlotIdsMatchLabels | src/constants.ts:20-29 | every catalog slot is one hour long, and its id and label name the same hours |
| CatalogFacts.SlotsInHourOrder | src/constants.ts:20-29 | the catalog lists slots in strictly increasing start hour |
| Calendar.DaysInMonth | src/components/Calendar.tsx:12 | `new Date(y, m + 1, 0).getDate()` is between 28 and 31 |
| Calendar.DaysBeforeYearFormula | src/components/Calendar.tsx:12-13 | counting days year by year agrees with the Gregorian leap-year formula (every 4th, not every 100th, every 400th), in both directions from year 1 |
| Calendar.MonthsFillYear | src/components/Calendar.tsx:12 | the month lengths of a year add up to its length (365 or 366) |
| Calendar.DayNumberWithinYear | src/components/Calendar.tsx:12-13 | a valid date's day number lies within its year's range |
| Calendar.DayNumberOrder | src/components/Calendar.tsx:44 | comparing `Date` objects (`currentIterDate < todayNoTime`) agrees with calendar order, and equal day numbers mean equal dates |
| Calendar.Weekday | src/components/Calendar.tsx:13 | `getDay()` is between 0 and 6 |
| Calendar.KnownWeekday | src/components/Calendar.tsx:13 | 2026-10-16 falls on a Friday (5) |
| Calendar.FirstDayOfMonth | src/components/Calendar.tsx:13 | the weekday of the first of the month is between 0 and 6 |
| Calendar.DayColumnIsWeekday | src/components/Calendar.tsx:24-28 | after `startDay` padding cells, day d sits in the weekday column (Su..Sa) of its own date |
| Calendar.NextDay | src/components/Calendar.tsx:37-38 | the next calendar day is a valid date one day number later |
| Calendar.AddDays | src/views/Booking.tsx:26-27 | `d.setDate(d.getDate() + i)` gives a valid date exactly i days later, across month and year ends |
| Calendar.LastDayPrecedesNextMonth | src/components/Calendar.tsx:12 | the last day of a month is followed directly by the first of the next |
| Calendar.MonthStart | src/components/Calendar.tsx:21-22 | `new Date(year, month ± 1, 1)` is a valid first-of-month, shifted by exactly that many months |
| Calendar.MonthStartWraps | src/components/Calendar.tsx:21-22 | stepping past December wraps to January of the next year, and before January to December of the previous |
| Calendar.MonthStartInverse | src/components/Calendar.tsx:21-22 | going forward and back by the same number of months returns to the first of the month |
| Calendar.ParseLocalDateString | src/components/Calendar.tsx:30-35 | the `YYYY-MM-DD` string of a valid date parses back to that date |
| Calendar.LocalDateStringInjective | src/components/Calendar.tsx:30-35 | two valid dates have the same date string exactly when they are equal |
| Calendar.DayCell | src/components/Calendar.tsx:46-63 | the cell for day d is a day button showing d |
| Calendar.DayCellMeaning | src/components/Calendar.tsx:39-44 | a button's date string is its date; it is selected only when `selectedDate` is that date; it is "today" exactly on today; it is past exactly before today; today is never past |
| Calendar.Click | src/components/Calendar.tsx:49-50 | a cell fires a date exactly when it is a day button that is not past |
| Calendar.ClickPicksThatDay | src/components/Calendar.tsx:49-50 | a click does nothing exactly on days before today, otherwise it hands `onSetDate` that day's own string; today is always clickable |
| Calendar.AtMostOneSelected | src/components/Calendar.tsx:40 | at most one day of the month is highlighted as selected |
| Calendar.DayCells | src/components/Calendar.tsx:37-64 | the day cells of a month, one per day |
| Calendar.DayCellsAt | src/components/Calendar.tsx:37-64 | the (d-1)-th day cell is the button for day d |
| Calendar.GridLayout | src/components/Calendar.tsx:24-64 | the grid has `startDay + totalDays` cells: padding first, then day d at position `startDay + d - 1` |
| Calendar.BuildGrid | src/components/Calendar.tsx:24-64 | the two push loops build exactly that grid |
| Calendar.CalendarState.constructor | src/components/Calendar.tsx:10 | the calendar starts on the selected date |
| Calendar.CalendarState.PrevMonth | src/components/Calendar.tsx:21 | goes to the first of the previous month: month index minus one |
| Calendar.CalendarState.NextMonth | src/components/Calendar.tsx:22 | goes to the first of the next month: month index plus one |
| BookingView.TurfCards | src/views/Booking.tsx:45-63 | one card per ground of the catalog |
| BookingView.TurfCardsShowCatalog | src/views/Booking.tsx:45-48 | every ground has a card, and clicking a card names that very ground |
| BookingView.TurfCardsHighlightSelection | src/views/Booking.tsx:49-56 | a card is highlighted exactly when it is the selected ground; a known selection highlights one card, an unknown one none, and never two |
| BookingView.OfferedDates | src/views/Booking.tsx:25-33 | seven valid dates, the i-th being today plus i days |
| BookingView.DateChoices | src/views/Booking.tsx:25-33 | seven date buttons |
| BookingView.DateChoicesShowOfferedDates | src/views/Booking.tsx:25-33 | the i-th button's date key parses back to the i-th offered date, and it shows that date's day of the month |
| BookingView.OfferedWeekConsecutive | src/views/Booking.tsx:25-27 | the offered week starts today and runs day after day |
| BookingView.OfferedWeekDistinct | src/views/Booking.tsx:72-75 | the offered dates go strictly forward, so the date keys handed to `onSetDate` are all different |
| BookingView.SlotsInPeriod | src/views/Booking.tsx:113 | the filter keeps exactly the slots of that period |
| BookingView.GroupByPeriods | src/views/Booking.tsx:106-113 | one group per period |
| BookingView.GroupsHoldSlotsAmong | src/views/Booking.tsx:106-113 | grouping by distinct periods shows, all groups together, exactly the slots whose period is among them |
| BookingView.SlotsAmongAll | src/views/Booking.tsx:106-113 | when every slot's period is listed, no slot is dropped |
| BookingView.EverySlotShownOnce | src/views/Booking.tsx:106-145 | the grouped grid shows every slot exactly once (as a multiset), each under its own period's heading |
| BookingView.GroupsArePeriods | src/views/Booking.tsx:109-113 | every slot under a period's heading has that period |
| BookingView.CatalogGridShowsEverySlot | src/views/Booking.tsx:106-145 | for the real catalog, the eight slots each appear exactly once |
| BookingView.SlotButtonMeaning | src/views/Booking.tsx:114-131 | a slot button is disabled and says "Already Booked" exactly when `checkBooked` holds, "Available Now" otherwise, and a click opens the modal on that slot exactly when it is free |
| Admin.ConfirmedOnly | src/views/Admin.tsx:13 | the filter keeps exactly the confirmed bookings |
| Admin.ConfirmedOnlyAppend | src/views/Admin.tsx:13 | filtering distributes over concatenation of booking lists |
| Admin.SumAmountsAppend | src/views/Admin.tsx:14 | the fold is additive over concatenation |
| Admin.RevenueAppend | src/views/Admin.tsx:12-14 | total revenue is additive over concatenation |
| Admin.RevenueOfOne | src/views/Admin.tsx:12-14 | a single booking brings its amount when confirmed and nothing when cancelled |
| Admin.RevenueIsSumOfContributions | src/views/Admin.tsx:12-14 | filter-then-fold equals summing each booking's contribution |
| Admin.CancelledAddNothing | src/views/Admin.tsx:12-14 | no bookings means zero revenue, and a cancelled booking anywhere adds nothing |
| Admin.RevenueBounds | src/views/Admin.tsx:12-14 | with non-negative amounts, revenue is between 0 and the sum of all amounts |
| Admin.Rows | src/views/Admin.tsx:74-78 | one row per booking |
| Admin.DashboardShows | src/views/Admin.tsx:24-25 | rows list the bookings in order with each cancel button carrying its own booking's id; "Active Bookings" is the count of all bookings, cancelled ones included; the empty-state row appears exactly when there are no rows, and then revenue is 0 |
| Modal.PaymentLabelTable | src/components/BookingModal.tsx:56-59 | cash is "Cash at Venue", QR is "QR Scan", card is "Card", UPI is the chosen app or "UPI ID" when none; no label is empty |
| Modal.ResolvePaymentLabel | src/components/BookingModal.tsx:56-59 | the reassignment chain computes that label |
| Modal.BookingModal.constructor | src/components/BookingModal.tsx:23-32 | a fresh dialog: step 1, empty form, UPI preselected, no app, not submitting, no status |
| Modal.BookingModal.EditName | src/components/BookingModal.tsx:118-122 | typing a name replaces only the name |
| Modal.BookingModal.EditPhone | src/components/BookingModal.tsx:133-137 | typing a phone number replaces only the phone number |
| Modal.BookingModal.EditEmail | src/components/BookingModal.tsx:148-152 | typing an email replaces only the email |
| Modal.BookingModal.SubmitDetails | src/components/BookingModal.tsx:36-39 | continue moves to step 2 exactly when all three required fields are filled, keeping the form |
| Modal.BookingModal.BackToDetails | src/components/BookingModal.tsx:264-266 | back returns to step 1 keeping what was typed; it also works mid-payment and leaves the payment in progress untouched |
| Modal.BookingModal.ChoosePaymentMethod | src/components/BookingModal.tsx:176-179 | a tab selects that method and keeps the chosen app; mid-payment it leaves the payment in progress untouched |
| Modal.BookingModal.ChooseUpiApp | src/components/BookingModal.tsx:197-200 | an app under the UPI tab becomes the chosen app; mid-payment it leaves the payment in progress untouched |
| Modal.BookingModal.SubmitPayment | src/components/BookingModal.tsx:41-44 | submitting starts the first phase with "Connecting to secure gateway..." and fixes the form, method and app the timers will confirm; a second submit while busy (the button is disabled while loading) changes nothing |
| Modal.BookingModal.Tick | src/components/BookingModal.tsx:47-76 | each timer moves to the next status line ("Verifying transaction details...", then "Finalizing booking..." for cash or "Processing secure payment...", by the method submitted); the last hands `onConfirm` the details submitted with their payment label, the turf's price and status Confirmed, then resets to step 1 with an empty form and asks to close |
| Modal.BookingModal.Pay | src/components/BookingModal.tsx:41-76 | a whole payment shows the three status lines in order, confirms exactly once with those details, and ends reset and closing |
| Modal.BookingModal.RetypeNameDuringPayment | src/components/BookingModal.tsx:47-67 | going back and retyping the name while the payment runs does not change what is confirmed: the timers confirm the details as submitted |
| App.IsBooked | src/App.tsx:64-71 | `bookings.some(…)` holds exactly when some booking is a confirmed one for that turf, date and slot |
| App.GuardedAppendKeepsUnique | src/App.tsx:77-91 | appending a confirmed booking to a ledger without double bookings keeps it so exactly when its slot was not booked |
| App.RemoveByIdMembers | src/App.tsx:102 | the filter keeps exactly the bookings with another id |
| App.RemoveByIdAppend | src/App.tsx:102 | the filter distributes over concatenation |
| App.RemoveByIdUnmatched | src/App.tsx:102 | cancelling an id that no booking carries changes nothing |
| App.RemoveByIdIdempotent | src/App.tsx:100-104 | cancelling the same id twice is cancelling it once |
| App.RemoveSoleMatch | src/App.tsx:102 | removing the id of the one booking that carries it leaves the others in order |
| App.CancelDropsOneRow | src/App.tsx:100-104 | cancelling a booking with a unique id removes exactly that row, keeping the order of the rest |
| App.CancelTakesOffRevenue | src/App.tsx:100-104 | the dashboard's revenue then drops by exactly that booking's contribution |
| App.RevenueWithout | src/views/Admin.tsx:12-14 | dropping one booking from a list takes its contribution off the total revenue |
| App.NoDoubleBookingUncons | src/App.tsx:64-71 | a ledger without double bookings has a tail without them, and its head conflicts with nothing in the tail |
| App.NoDoubleBookingCons | src/App.tsx:64-71 | adding a booking that conflicts with nothing to a ledger without double bookings keeps it so |
| App.RemoveByIdKeepsUnique | src/App.tsx:100-104 | cancelling never creates a double booking |
| App.BookedSlotButtonDisabled | src/App.tsx:64-71 | once a slot's confirmed booking is appended, the booking page shows that slot disabled as "Already Booked" and clicking it opens nothing |
| App.FindSlot | src/App.tsx:120 | `SLOTS.find` gives nothing exactly when no slot has that id, otherwise the first slot that has it |
| App.CatalogSlotsFound | src/App.tsx:120 | every catalog slot is found by its own id |
| App.SeedLedger | src/App.tsx:19-32 | the seed ledger has no double booking, books the main turf's 18-19 slot today, and brings 1200 revenue |
| App.DashboardNeedsLogin | src/App.tsx:145-154 | the admin view shows the dashboard exactly for a logged-in admin and the login form otherwise |
| App.AppState.CheckBooked | src/App.tsx:64-71 | `checkBooked` holds exactly when a confirmed booking of the selected turf and date holds that slot |
| App.AppState.constructor | src/App.tsx:13-43 | start-up: the saved ledger or else the seed booking; admin exactly when the stored flag is "true"; home view, main turf, today, modal closed |
| App.AppState.Navigate | src/App.tsx:59-62 | navigation changes the view only |
| App.AppState.SetTurf | src/views/Booking.tsx:48 | choosing a catalog ground selects it and changes nothing else |
| App.AppState.SetDate | src/views/Booking.tsx:75 | choosing a date selects it and changes nothing else |
| App.AppState.InitBooking | src/App.tsx:73-75 | opens the modal on that slot; for a catalog slot the modal is then shown |
| App.AppState.CloseModal | src/App.tsx:163 | closes the modal and changes nothing else |
| App.AppState.ConfirmBooking | src/App.tsx:77-98 | appends one confirmed booking for the selected turf, date and slot with the dialog's details, after which that slot is booked; the ledger stays free of double bookings when the slot was free; goes to the dashboard for an admin, home otherwise |
| App.AppState.CancelBooking | src/App.tsx:100-105 | after an accepted dialog every booking with that id is gone and all others stay; a declined dialog changes nothing; no double booking appears |
| App.AppState.AdminLogin | src/App.tsx:107-111 | logs the admin in, so the admin view shows the dashboard |
| App.AppState.AdminLogout | src/App.tsx:113-118 | logs out and returns home |
| App.AppState.Checkout | src/App.tsx:77-98 | a whole payment in the shown dialog: three status lines in order, one new booking with the typed details, the ground's price and the payment label, view routed, modal closed |

## Left out

- Storage: `localStorage`, JSON parsing and the persisting effect are left out. The constructor takes the saved ledger, already parsed, and the saved admin flag as parameters.
- Clocks: "today" is a parameter wherever the source calls `new Date()`. `Date.now()` ids are the `freshId` parameter.
- The three `setTimeout` delays (1200 ms, 1500 ms, 1500 ms) are not modelled; only their order is, as one `Tick` per timer.
- The browser `confirm` dialog of the cancel handler is the `accepted` parameter.
- Notifications, toasts and their timers are left out, because they change no modelled state.
- `window.scrollTo` is left out.
- Email format validation by `type="email"` is left out. `DetailsComplete` models only the `required` attribute.
- BookingView.DateChoices: the source keys the offered dates with `toISOString()`, a UTC date. That date can differ from the local date near midnight. The model uses the local `YYYY-MM-DD` string for both.
- The weekday names (`toLocaleDateString`) and the month-name header are left out. So are the full-date heading and the `toDateString` summary line, which are locale formatting.
- Calendar.CalendarState.constructor: `new Date(selectedDate)` parsing of the string is not modelled; the constructor receives the date already parsed.
- Years 0 to 99, which JavaScript `Date` maps to 1900 to 1999, are not modelled. Dates are proleptic Gregorian for every year.
- Admin rows show the ground's name and the slot's label looked up by id. The model keeps only the booking and the id its cancel button passes.
- App.AppState.Checkout: it runs a payment with the dialog open from submit to the last timer. The overlay stops only the pointer, so the step-1 Cancel and header close buttons can still be reached from the keyboard mid-payment. The source's pending timers then still confirm a booking after the dialog has closed; the model does not capture a confirmation arriving after the close.
- Booking amounts and turf prices are Dafny integers. The source's `number` is floating point, and the revenue total (`src/views/Admin.tsx:12-14`) is a floating-point sum. The catalog prices are whole numbers far below 2^53, so the sums agree, but rounding of non-integer amounts is not modelled.
- The modal's header close button and step-1 Cancel button are `App.AppState.CloseModal`. Closing unmounts the dialog, so a reopened dialog is a fresh `Modal.BookingModal`.
- App.AppState.SetTurf: it requires a catalog id. The only caller, the turf cards, passes one; `TurfCardsShowCatalog` proves that.
- The admin login form (`AdminLogin.tsx`), the navigation bar, home page, footer, button component and the Supabase client are not part of this model.

