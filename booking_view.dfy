/**
 * The booking page of src/views/Booking.tsx: the turf list with the selected
 * card highlighted, the seven dates from today on, and the slot grid grouped
 * by period, where a booked slot's button is disabled.
 */
module BookingView {

  import opened Wrappers
  import opened Types
  import opened Constants
  import CatalogFacts
  import opened Calendar

  // ---------------------------------------------------------------------
  // Turf list

  /** One card of the turf list and whether it carries the selection highlight. */
  datatype TurfCard = TurfCard(turf: Turf, highlighted: bool)

  /** `Object.values(TURFS).map(t => …)`, highlighting the card whose id is `selectedTurf`. */
  function TurfCards(selectedTurf: string): (cards: seq<TurfCard>)
    ensures |cards| == |TURF_VALUES|
  {
    seq(|TURF_VALUES|, i requires 0 <= i < |TURF_VALUES| => TurfCard(TURF_VALUES[i], TURF_VALUES[i].id == selectedTurf))
  }

  /** A card's `onClick`: the id handed to `onSetTurf`. */
  function CardClick(card: TurfCard): string {
    card.turf.id
  }

  /** Every ground of the catalog has a card, and a card's click names that very ground. */
  lemma TurfCardsShowCatalog(selectedTurf: string)
    ensures forall k :: k in TURFS ==> exists i :: 0 <= i < |TurfCards(selectedTurf)| && TurfCards(selectedTurf)[i].turf == TURFS[k]
    ensures forall i :: 0 <= i < |TurfCards(selectedTurf)| ==>
              CardClick(TurfCards(selectedTurf)[i]) in TURFS && TURFS[CardClick(TurfCards(selectedTurf)[i])] == TurfCards(selectedTurf)[i].turf
  {
    CatalogFacts.TurfValuesListedOnce();
    var cards := TurfCards(selectedTurf);
    forall k | k in TURFS
      ensures exists i :: 0 <= i < |cards| && cards[i].turf == TURFS[k]
    {
      var i :| 0 <= i < |TURF_VALUES| && TURF_VALUES[i] == TURFS[k];
      assert cards[i].turf == TURFS[k];
    }
  }

  /** The highlight falls on exactly the selected ground, or on none when the id is unknown. */
  lemma TurfCardsHighlightSelection(selectedTurf: string)
    ensures forall i :: 0 <= i < |TurfCards(selectedTurf)| ==>
              (TurfCards(selectedTurf)[i].highlighted <==> CardClick(TurfCards(selectedTurf)[i]) == selectedTurf)
    ensures selectedTurf in TURFS ==>
              exists i :: 0 <= i < |TurfCards(selectedTurf)| && TurfCards(selectedTurf)[i].highlighted
    ensures forall i, j :: 0 <= i < j < |TurfCards(selectedTurf)| ==>
              !(TurfCards(selectedTurf)[i].highlighted && TurfCards(selectedTurf)[j].highlighted)
    ensures selectedTurf !in TURFS ==>
              forall i :: 0 <= i < |TurfCards(selectedTurf)| ==> !TurfCards(selectedTurf)[i].highlighted
  {
    CatalogFacts.TurfValuesListedOnce();
    var cards := TurfCards(selectedTurf);
    if selectedTurf in TURFS {
      var i :| 0 <= i < |TURF_VALUES| && TURF_VALUES[i] == TURFS[selectedTurf];
      CatalogFacts.TurfKeysMatchIds();
      assert cards[i].highlighted;
    }
  }

  // ---------------------------------------------------------------------
  // Dates

  /** `Array.from({ length: 7 }, (_, i) => today + i days)`. */
  function OfferedDates(today: Date): (ds: seq<Date>)
    requires ValidDate(today)
    ensures |ds| == 7
    ensures forall i :: 0 <= i < 7 ==> ValidDate(ds[i]) && DayNumber(ds[i]) == DayNumber(today) + i
  {
    seq(7, i requires 0 <= i < 7 => AddDays(today, i))
  }

  /** A date button: the `YYYY-MM-DD` key handed to `onSetDate` and the day of the month shown. */
  datatype DateChoice = DateChoice(fullDate: string, dayNum: int)

  function DateChoices(today: Date): (cs: seq<DateChoice>)
    requires ValidDate(today)
    ensures |cs| == 7
  {
    var ds := OfferedDates(today);
    seq(7, i requires 0 <= i < 7 => DateChoice(LocalDateString(ds[i]), ds[i].day))
  }

  /** Each button carries the key of its offered date, which parses back to that date,
      and shows that date's day of the month. */
  lemma DateChoicesShowOfferedDates(today: Date)
    requires ValidDate(today)
    ensures forall i :: 0 <= i < 7 ==>
              && ParseDateString(DateChoices(today)[i].fullDate) == Some(OfferedDates(today)[i])
              && DateChoices(today)[i].dayNum == OfferedDates(today)[i].day
  {
    forall i | 0 <= i < 7
      ensures ParseDateString(DateChoices(today)[i].fullDate) == Some(OfferedDates(today)[i])
    {
      ParseLocalDateString(OfferedDates(today)[i]);
    }
  }

  /** The week starts today and runs day after day. */
  lemma OfferedWeekConsecutive(today: Date)
    requires ValidDate(today)
    ensures OfferedDates(today)[0] == today
    ensures forall i :: 0 <= i < 6 ==> OfferedDates(today)[i + 1] == NextDay(OfferedDates(today)[i])
  {
    var ds := OfferedDates(today);
    DayNumberOrder(ds[0], today);
    forall i | 0 <= i < 6
      ensures ds[i + 1] == NextDay(ds[i])
    {
      DayNumberOrder(ds[i + 1], NextDay(ds[i]));
    }
  }

  /** The offered dates go forward, so no date, and no date key, is offered twice. */
  lemma OfferedWeekDistinct(today: Date)
    requires ValidDate(today)
    ensures forall i, j :: 0 <= i < j < 7 ==> Before(OfferedDates(today)[i], OfferedDates(today)[j])
    ensures forall i, j :: 0 <= i < j < 7 ==> DateChoices(today)[i].fullDate != DateChoices(today)[j].fullDate
  {
    var ds := OfferedDates(today);
    var cs := DateChoices(today);
    forall i, j | 0 <= i < j < 7
      ensures Before(ds[i], ds[j])
      ensures cs[i].fullDate != cs[j].fullDate
    {
      DayNumberOrder(ds[i], ds[j]);
      LocalDateStringInjective(ds[i], ds[j]);
    }
  }

  // ---------------------------------------------------------------------
  // Slot grid

  /** `SLOTS.filter(s => s.period === period)`. */
  function SlotsInPeriod(slots: seq<BookingSlot>, p: Period): (r: seq<BookingSlot>)
    ensures |r| <= |slots|
    ensures forall s :: s in r <==> s in slots && s.period == p
    decreases |slots|
  {
    if slots == [] then []
    else (if slots[0].period == p then [slots[0]] else []) + SlotsInPeriod(slots[1..], p)
  }

  /** `PERIODS.map(period => …)`: one section per period, in order. */
  function GroupByPeriods(periods: seq<Period>, slots: seq<BookingSlot>): (groups: seq<seq<BookingSlot>>)
    ensures |groups| == |periods|
    decreases |periods|
  {
    if periods == [] then []
    else [SlotsInPeriod(slots, periods[0])] + GroupByPeriods(periods[1..], slots)
  }

  /** The slots of all sections, read top to bottom. */
  function Concat(groups: seq<seq<BookingSlot>>): seq<BookingSlot>
    decreases |groups|
  {
    if groups == [] then [] else groups[0] + Concat(groups[1..])
  }

  /** The slots whose period is one of `periods`, in their original order. */
  function SlotsAmong(slots: seq<BookingSlot>, periods: seq<Period>): seq<BookingSlot>
    decreases |slots|
  {
    if slots == [] then []
    else (if slots[0].period in periods then [slots[0]] else []) + SlotsAmong(slots[1..], periods)
  }

  lemma {:induction false} SlotsAmongSplit(slots: seq<BookingSlot>, periods: seq<Period>)
    requires periods != [] && periods[0] !in periods[1..]
    ensures multiset(SlotsAmong(slots, periods))
         == multiset(SlotsInPeriod(slots, periods[0])) + multiset(SlotsAmong(slots, periods[1..]))
    decreases |slots|
  {
    if slots != [] {
      SlotsAmongSplit(slots[1..], periods);
      var s := slots[0];
      assert s.period in periods <==> s.period == periods[0] || s.period in periods[1..];
    }
  }

  lemma {:induction false} GroupsHoldSlotsAmong(periods: seq<Period>, slots: seq<BookingSlot>)
    requires forall i, j :: 0 <= i < j < |periods| ==> periods[i] != periods[j]
    ensures multiset(Concat(GroupByPeriods(periods, slots))) == multiset(SlotsAmong(slots, periods))
    decreases |periods|
  {
    if periods == [] {
      assert SlotsAmong(slots, []) == [] by {
        SlotsAmongNone(slots);
      }
    } else {
      GroupsHoldSlotsAmong(periods[1..], slots);
      assert periods[0] !in periods[1..] by {
        forall k | 0 <= k < |periods[1..]|
          ensures periods[1..][k] != periods[0]
        {
          assert periods[1..][k] == periods[k + 1];
        }
      }
      SlotsAmongSplit(slots, periods);
    }
  }

  lemma {:induction false} SlotsAmongNone(slots: seq<BookingSlot>)
    ensures SlotsAmong(slots, []) == []
    decreases |slots|
  {
    if slots != [] {
      SlotsAmongNone(slots[1..]);
    }
  }

  lemma {:induction false} SlotsAmongAll(slots: seq<BookingSlot>, periods: seq<Period>)
    requires forall s :: s in slots ==> s.period in periods
    ensures SlotsAmong(slots, periods) == slots
    decreases |slots|
  {
    if slots != [] {
      SlotsAmongAll(slots[1..], periods);
      assert slots == [slots[0]] + slots[1..];
    }
  }

  /** Listing the slots period by period shows each slot exactly as often as the list has
      it, provided the periods are distinct and cover every slot's period. */
  lemma EverySlotShownOnce(periods: seq<Period>, slots: seq<BookingSlot>)
    requires forall i, j :: 0 <= i < j < |periods| ==> periods[i] != periods[j]
    requires forall s :: s in slots ==> s.period in periods
    ensures multiset(Concat(GroupByPeriods(periods, slots))) == multiset(slots)
    ensures forall i :: 0 <= i < |periods| ==>
              forall s :: s in GroupByPeriods(periods, slots)[i] ==> s.period == periods[i]
  {
    GroupsHoldSlotsAmong(periods, slots);
    SlotsAmongAll(slots, periods);
    GroupsArePeriods(periods, slots);
  }

  lemma {:induction false} GroupsArePeriods(periods: seq<Period>, slots: seq<BookingSlot>)
    ensures forall i :: 0 <= i < |periods| ==>
              GroupByPeriods(periods, slots)[i] == SlotsInPeriod(slots, periods[i])
    decreases |periods|
  {
    if periods != [] {
      GroupsArePeriods(periods[1..], slots);
    }
  }

  /** The catalog's slot grid shows every slot of the day exactly once. */
  lemma CatalogGridShowsEverySlot()
    ensures multiset(Concat(GroupByPeriods(PERIODS, SLOTS))) == multiset(SLOTS)
  {
    CatalogFacts.PeriodsCoverSlots();
    EverySlotShownOnce(PERIODS, SLOTS);
  }

  /** A slot button: disabled when booked, with the caption that says so. */
  datatype SlotButton = SlotButton(slotId: string, timeLabel: string, disabled: bool, caption: string)

  const BOOKED_CAPTION := "Already Booked"
  const AVAILABLE_CAPTION := "Available Now"

  /** The button for `slot`, given the page's `checkBooked`. */
  function SlotButtonFor(slot: BookingSlot, checkBooked: string -> bool): SlotButton {
    var isBooked := checkBooked(slot.id);
    SlotButton(slot.id, slot.timeLabel, isBooked, if isBooked then BOOKED_CAPTION else AVAILABLE_CAPTION)
  }

  /** The `onClick` of a slot button: a disabled button fires nothing; otherwise
      `onInitBooking` receives the slot id. */
  function Activate(b: SlotButton): Option<string> {
    if b.disabled then None else Some(b.slotId)
  }

  /** A slot is disabled and captioned "Already Booked" exactly when `checkBooked` holds
      for it, and "Available Now" otherwise; activating it books that slot exactly when it is free. */
  lemma SlotButtonMeaning(slot: BookingSlot, checkBooked: string -> bool)
    ensures SlotButtonFor(slot, checkBooked).disabled <==> checkBooked(slot.id)
    ensures SlotButtonFor(slot, checkBooked).caption == BOOKED_CAPTION <==> checkBooked(slot.id)
    ensures SlotButtonFor(slot, checkBooked).caption == AVAILABLE_CAPTION <==> !checkBooked(slot.id)
    ensures Activate(SlotButtonFor(slot, checkBooked)) == Some(slot.id) <==> !checkBooked(slot.id)
    ensures Activate(SlotButtonFor(slot, checkBooked)) == None <==> checkBooked(slot.id)
  {
  }
}
