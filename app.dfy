/**
 * The application shell of src/App.tsx: the booking ledger, the current
 * view, the admin flag, the selected turf and date, the modal state, and
 * the handlers that change them.
 *
 * The ledger's storage and the admin flag are read once, as constructor
 * parameters; `Date.now()` is the `freshId` parameter of the confirm handler,
 * and the browser's `confirm` dialog is the `accepted` parameter of the cancel
 * handler.
 */
module App {

  import opened Wrappers
  import opened Types
  import opened Constants
  import CatalogFacts
  import Admin
  import BookingView
  import opened Modal

  // ---------------------------------------------------------------------
  // The ledger

  /** `checkBooked`'s test for one booking: a confirmed booking of that turf, date and slot. */
  predicate Blocks(b: Booking, turf: string, date: string, slotId: string) {
    b.turfId == turf && b.date == date && b.timeSlotId == slotId && b.status == Confirmed
  }

  /** `bookings.some(…)`, scanning from the front. */
  function IsBooked(bs: seq<Booking>, turf: string, date: string, slotId: string): (r: bool)
    ensures r <==> exists i :: 0 <= i < |bs| && Blocks(bs[i], turf, date, slotId)
    decreases |bs|
  {
    if bs == [] then false
    else if Blocks(bs[0], turf, date, slotId) then true
    else
      var rest := IsBooked(bs[1..], turf, date, slotId);
      assert forall i :: 1 <= i < |bs| ==> bs[i] == bs[1..][i - 1];
      rest
  }

  /** Two confirmed bookings of the same turf, date and slot: `Blocks` read as a relation
      between two ledger rows, the form in which no-double-booking is stated. */
  predicate Conflict(a: Booking, b: Booking) {
    a.status == Confirmed && Blocks(b, a.turfId, a.date, a.timeSlotId)
  }

  /** No slot is held by two confirmed bookings. The source never checks this; the
      disabled slot buttons are what keep it. */
  predicate NoDoubleBooking(bs: seq<Booking>) {
    forall i, j :: 0 <= i < |bs| && 0 <= j < |bs| && i != j ==> !Conflict(bs[i], bs[j])
  }

  /** Appending a confirmed booking keeps the ledger free of double bookings exactly when
      `checkBooked` says its slot is free. */
  lemma GuardedAppendKeepsUnique(bs: seq<Booking>, nb: Booking)
    requires NoDoubleBooking(bs) && nb.status == Confirmed
    ensures NoDoubleBooking(bs + [nb]) <==> !IsBooked(bs, nb.turfId, nb.date, nb.timeSlotId)
  {
    var ext := bs + [nb];
    if IsBooked(bs, nb.turfId, nb.date, nb.timeSlotId) {
      var i :| 0 <= i < |bs| && Blocks(bs[i], nb.turfId, nb.date, nb.timeSlotId);
      assert ext[|bs|] == nb && ext[i] == bs[i];
      assert Conflict(ext[|bs|], ext[i]);
    } else {
      forall i, j | 0 <= i < |ext| && 0 <= j < |ext| && i != j
        ensures !Conflict(ext[i], ext[j])
      {
        if i < |bs| && j < |bs| {
          assert ext[i] == bs[i] && ext[j] == bs[j];
        } else if i == |bs| {
          assert ext[j] == bs[j] && !Blocks(bs[j], nb.turfId, nb.date, nb.timeSlotId);
        } else {
          assert ext[i] == bs[i] && !Blocks(bs[i], nb.turfId, nb.date, nb.timeSlotId);
        }
      }
    }
  }

  /** `bookings.filter(b => b.id !== id)`. */
  function RemoveById(bs: seq<Booking>, id: int): (r: seq<Booking>)
    ensures |r| <= |bs|
    decreases |bs|
  {
    if bs == [] then []
    else (if bs[0].id != id then [bs[0]] else []) + RemoveById(bs[1..], id)
  }

  /** What survives a cancel: exactly the bookings with another id. */
  lemma {:induction false} RemoveByIdMembers(bs: seq<Booking>, id: int)
    ensures forall b :: b in RemoveById(bs, id) <==> b in bs && b.id != id
    decreases |bs|
  {
    if bs != [] {
      RemoveByIdMembers(bs[1..], id);
      assert bs == [bs[0]] + bs[1..];
    }
  }

  lemma {:induction false} RemoveByIdAppend(a: seq<Booking>, b: seq<Booking>, id: int)
    ensures RemoveById(a + b, id) == RemoveById(a, id) + RemoveById(b, id)
    decreases |a|
  {
    if a == [] {
      assert a + b == b;
    } else {
      assert (a + b)[1..] == a[1..] + b;
      RemoveByIdAppend(a[1..], b, id);
    }
  }

  /** Removing an id that no booking carries leaves the ledger as it was. */
  lemma {:induction false} RemoveByIdUnmatched(bs: seq<Booking>, id: int)
    requires forall i :: 0 <= i < |bs| ==> bs[i].id != id
    ensures RemoveById(bs, id) == bs
    decreases |bs|
  {
    if bs != [] {
      RemoveByIdUnmatched(bs[1..], id);
      assert bs == [bs[0]] + bs[1..];
    }
  }

  /** Cancelling twice is cancelling once. */
  lemma RemoveByIdIdempotent(bs: seq<Booking>, id: int)
    ensures RemoveById(RemoveById(bs, id), id) == RemoveById(bs, id)
  {
    var r := RemoveById(bs, id);
    RemoveByIdMembers(bs, id);
    forall i | 0 <= i < |r|
      ensures r[i].id != id
    {
      assert r[i] in r;
    }
    RemoveByIdUnmatched(r, id);
  }

  /** Removing the id of the one booking that carries it: the others stay, in order. */
  lemma RemoveSoleMatch(before: seq<Booking>, x: Booking, after: seq<Booking>)
    requires forall i :: 0 <= i < |before| ==> before[i].id != x.id
    requires forall i :: 0 <= i < |after| ==> after[i].id != x.id
    ensures RemoveById(before + [x] + after, x.id) == before + after
  {
    var id := x.id;
    assert [x][1..] == [];
    assert RemoveById([x], id) == [] + RemoveById([], id);
    RemoveByIdAppend(before, [x], id);
    RemoveByIdUnmatched(before, id);
    assert RemoveById(before + [x], id) == before;
    RemoveByIdAppend(before + [x], after, id);
    RemoveByIdUnmatched(after, id);
  }

  /** Cancelling the one booking with a given id drops exactly that row and keeps the others
      in order. */
  lemma CancelDropsOneRow(bs: seq<Booking>, k: int)
    requires 0 <= k < |bs|
    requires forall i :: 0 <= i < |bs| && i != k ==> bs[i].id != bs[k].id
    ensures RemoveById(bs, bs[k].id) == bs[..k] + bs[k + 1..]
  {
    var x, before, after := bs[k], bs[..k], bs[k + 1..];
    forall i | 0 <= i < |before|
      ensures before[i].id != x.id
    {
      assert before[i] == bs[i];
    }
    forall i | 0 <= i < |after|
      ensures after[i].id != x.id
    {
      assert after[i] == bs[k + 1 + i];
    }
    RemoveSoleMatch(before, x, after);
    assert bs == before + [x] + after;
  }

  /** ... and takes that booking's contribution off the dashboard's revenue. */
  lemma CancelTakesOffRevenue(bs: seq<Booking>, k: int)
    requires 0 <= k < |bs|
    requires forall i :: 0 <= i < |bs| && i != k ==> bs[i].id != bs[k].id
    ensures Admin.TotalRevenue(RemoveById(bs, bs[k].id)) == Admin.TotalRevenue(bs) - Admin.Contribution(bs[k])
  {
    var before, after := bs[..k], bs[k + 1..];
    CancelDropsOneRow(bs, k);
    assert bs == before + [bs[k]] + after;
    RevenueWithout(before, bs[k], after);
  }

  lemma RevenueWithout(before: seq<Booking>, x: Booking, after: seq<Booking>)
    ensures Admin.TotalRevenue(before + after) == Admin.TotalRevenue(before + [x] + after) - Admin.Contribution(x)
  {
    Admin.RevenueAppend(before + [x], after);
    Admin.RevenueAppend(before, [x]);
    Admin.RevenueAppend(before, after);
    Admin.RevenueOfOne(x);
  }

  /** A ledger free of double bookings: its tail is too, and its head conflicts with nothing in it. */
  lemma NoDoubleBookingUncons(bs: seq<Booking>)
    requires bs != [] && NoDoubleBooking(bs)
    ensures NoDoubleBooking(bs[1..])
    ensures forall e :: e in bs[1..] ==> !Conflict(bs[0], e) && !Conflict(e, bs[0])
  {
    var rest := bs[1..];
    forall i, j | 0 <= i < |rest| && 0 <= j < |rest| && i != j
      ensures !Conflict(rest[i], rest[j])
    {
      assert rest[i] == bs[i + 1] && rest[j] == bs[j + 1];
    }
    forall e | e in rest
      ensures !Conflict(bs[0], e) && !Conflict(e, bs[0])
    {
      var m :| 0 <= m < |rest| && rest[m] == e;
      assert bs[m + 1] == e;
    }
  }

  lemma NoDoubleBookingCons(x: Booking, rest: seq<Booking>)
    requires NoDoubleBooking(rest)
    requires forall e :: e in rest ==> !Conflict(x, e) && !Conflict(e, x)
    ensures NoDoubleBooking([x] + rest)
  {
    var r := [x] + rest;
    forall i, j | 0 <= i < |r| && 0 <= j < |r| && i != j
      ensures !Conflict(r[i], r[j])
    {
      if i == 0 {
        assert r[j] == rest[j - 1] && r[j] in rest;
      } else if j == 0 {
        assert r[i] == rest[i - 1] && r[i] in rest;
      } else {
        assert r[i] == rest[i - 1] && r[j] == rest[j - 1];
      }
    }
  }

  /** Cancelling never creates a double booking. */
  lemma {:induction false} RemoveByIdKeepsUnique(bs: seq<Booking>, id: int)
    requires NoDoubleBooking(bs)
    ensures NoDoubleBooking(RemoveById(bs, id))
    decreases |bs|
  {
    if bs != [] {
      NoDoubleBookingUncons(bs);
      RemoveByIdKeepsUnique(bs[1..], id);
      RemoveByIdMembers(bs[1..], id);
      if bs[0].id != id {
        NoDoubleBookingCons(bs[0], RemoveById(bs[1..], id));
      }
    }
  }

  /** The booking `handleConfirmBooking` appends: turf, date and slot from the app, the
      rest from the modal's details, always confirmed. */
  function NewBooking(freshId: int, turf: string, date: string, slotId: string, details: ConfirmDetails): Booking {
    Booking(freshId, turf, date, slotId, details.customerName, details.phone, details.email,
            Confirmed, details.amount, details.paymentMethod)
  }

  /** Once a slot is booked, the booking page shows its button disabled as "Already Booked",
      and clicking it opens nothing. */
  lemma BookedSlotButtonDisabled(bs: seq<Booking>, nb: Booking, slot: BookingSlot)
    requires nb.status == Confirmed && slot.id == nb.timeSlotId
    ensures BookingView.SlotButtonFor(slot, s => IsBooked(bs + [nb], nb.turfId, nb.date, s))
            == BookingView.SlotButton(slot.id, slot.timeLabel, true, BookingView.BOOKED_CAPTION)
    ensures BookingView.Activate(BookingView.SlotButtonFor(slot, s => IsBooked(bs + [nb], nb.turfId, nb.date, s))) == None
  {
    assert (bs + [nb])[|bs|] == nb;
    assert IsBooked(bs + [nb], nb.turfId, nb.date, slot.id);
  }

  /** `SLOTS.find(s => s.id === slotId)`: the first slot with that id, if any. */
  function FindSlot(slots: seq<BookingSlot>, slotId: string): (r: Option<BookingSlot>)
    ensures r.None? <==> forall i :: 0 <= i < |slots| ==> slots[i].id != slotId
    ensures r.Some? ==> exists k :: 0 <= k < |slots| && slots[k] == r.value && r.value.id == slotId
                                    && forall j :: 0 <= j < k ==> slots[j].id != slotId
    decreases |slots|
  {
    if slots == [] then None
    else if slots[0].id == slotId then Some(slots[0])
    else
      var r := FindSlot(slots[1..], slotId);
      assert forall i :: 1 <= i < |slots| ==> slots[i] == slots[1..][i - 1];
      if r.Some? then
        var k :| 0 <= k < |slots[1..]| && slots[1..][k] == r.value && r.value.id == slotId
                 && forall j :: 0 <= j < k ==> slots[1..][j].id != slotId;
        assert slots[k + 1] == r.value && forall j :: 0 <= j < k + 1 ==> slots[j].id != slotId;
        r
      else r
  }

  /** Every slot id of the catalog opens its own slot in the modal. */
  lemma CatalogSlotsFound(slot: BookingSlot)
    requires slot in SLOTS
    ensures FindSlot(SLOTS, slot.id) == Some(slot)
  {
    CatalogFacts.SlotIdsDistinct();
    var r := FindSlot(SLOTS, slot.id);
    var k :| 0 <= k < |SLOTS| && SLOTS[k] == slot;
    assert r.Some?;
    var m :| 0 <= m < |SLOTS| && SLOTS[m] == r.value && r.value.id == slot.id;
  }

  /** The first booking of a fresh install: a confirmed evening slot on the main turf today. */
  function SeedBooking(today: string): Booking {
    Booking(1698745, "main", today, "18-19", "Rahul Dravid", "9876543210", "thewall@india.com",
            Confirmed, 1200, "UPI")
  }

  /** The seed ledger is free of double bookings and makes today's 18-19 slot on the main
      turf show as booked. */
  lemma SeedLedger(today: string)
    ensures NoDoubleBooking([SeedBooking(today)])
    ensures IsBooked([SeedBooking(today)], "main", today, "18-19")
    ensures Admin.TotalRevenue([SeedBooking(today)]) == 1200
  {
    assert Blocks([SeedBooking(today)][0], "main", today, "18-19");
    Admin.RevenueOfOne(SeedBooking(today));
  }

  // ---------------------------------------------------------------------
  // The shell

  /** `{ isOpen, slotId }`. */
  datatype ModalState = ModalState(isOpen: bool, slotId: Option<string>)

  const CLOSED_MODAL := ModalState(false, None)

  /** What `<main>` shows: the admin view is the dashboard only for a logged-in admin. */
  datatype Screen = HomeScreen | BookingScreen | DashboardScreen | LoginScreen

  function ScreenFor(view: View, isAdminLoggedIn: bool): (s: Screen) {
    match view
    case HomePage => HomeScreen
    case BookingPage => BookingScreen
    case AdminPage => if isAdminLoggedIn then DashboardScreen else LoginScreen
  }

  /** The dashboard (and its cancel buttons) is reachable only when logged in, and the
      admin view always shows one of dashboard and login form. */
  lemma DashboardNeedsLogin(view: View, isAdminLoggedIn: bool)
    ensures ScreenFor(view, isAdminLoggedIn) == DashboardScreen <==> view == AdminPage && isAdminLoggedIn
    ensures ScreenFor(view, isAdminLoggedIn) == LoginScreen <==> view == AdminPage && !isAdminLoggedIn
  {
  }

  class AppState {
    var view: View
    var isAdminLoggedIn: bool
    var bookings: seq<Booking>
    var selectedTurf: string
    var selectedDate: string
    var modal: ModalState

    /** The selected turf is one of the catalog's (so `TURFS[selectedTurf]` is defined), and
        the modal holds a slot id exactly while it is open. */
    predicate Valid()
      reads this
    {
      selectedTurf in TURFS && (modal.isOpen <==> modal.slotId.Some?)
    }

    /** `checkBooked` as the booking page receives it: `IsBooked` applied to this object's
        ledger and selection. The ensures carries `IsBooked`'s meaning over to the object so
        that the methods' contracts can use it without unfolding the call. */
    function CheckBooked(slotId: string): (r: bool)
      reads this
      ensures r <==> exists i :: 0 <= i < |bookings| && Blocks(bookings[i], selectedTurf, selectedDate, slotId)
    {
      IsBooked(bookings, selectedTurf, selectedDate, slotId)
    }

    /** `currentSlot`. */
    function CurrentSlot(): Option<BookingSlot>
      reads this
    {
      if modal.slotId.Some? then FindSlot(SLOTS, modal.slotId.value) else None
    }

    /** The modal is on screen when it is open and its slot id names a catalog slot. */
    predicate ModalShown()
      reads this
    {
      modal.isOpen && CurrentSlot().Some?
    }

    function Screen(): Screen
      reads this
    {
      ScreenFor(view, isAdminLoggedIn)
    }

    /** Start-up: the saved ledger if storage holds one, else the seed booking; the admin flag
        only when storage holds the string "true"; home view, main turf, today, modal closed. */
    constructor(today: string, savedBookings: Option<seq<Booking>>, savedAdminFlag: Option<string>)
      ensures Valid()
      ensures bookings == (if savedBookings.Some? then savedBookings.value else [SeedBooking(today)])
      ensures isAdminLoggedIn <==> savedAdminFlag == Some("true")
      ensures view == HomePage && selectedTurf == "main" && selectedDate == today && modal == CLOSED_MODAL
    {
      view := HomePage;
      isAdminLoggedIn := savedAdminFlag == Some("true");
      bookings := if savedBookings.Some? then savedBookings.value else [SeedBooking(today)];
      selectedTurf := "main";
      selectedDate := today;
      modal := CLOSED_MODAL;
    }

    /** `handleNavigate`. */
    method Navigate(newView: View)
      requires Valid()
      modifies this
      ensures Valid() && view == newView
      ensures isAdminLoggedIn == old(isAdminLoggedIn) && bookings == old(bookings)
      ensures selectedTurf == old(selectedTurf) && selectedDate == old(selectedDate) && modal == old(modal)
    {
      view := newView;
    }

    /** `onSetTurf`, called by the turf cards with a catalog id. */
    method SetTurf(turfId: string)
      requires Valid() && turfId in TURFS
      modifies this
      ensures Valid() && selectedTurf == turfId
      ensures view == old(view) && isAdminLoggedIn == old(isAdminLoggedIn) && bookings == old(bookings)
      ensures selectedDate == old(selectedDate) && modal == old(modal)
    {
      selectedTurf := turfId;
    }

    /** `onSetDate`. */
    method SetDate(date: string)
      requires Valid()
      modifies this
      ensures Valid() && selectedDate == date
      ensures view == old(view) && isAdminLoggedIn == old(isAdminLoggedIn) && bookings == old(bookings)
      ensures selectedTurf == old(selectedTurf) && modal == old(modal)
    {
      selectedDate := date;
    }

    /** `handleInitBooking`: opens the modal on that slot; a catalog slot is then shown. */
    method InitBooking(slotId: string)
      requires Valid()
      modifies this
      ensures Valid() && modal == ModalState(true, Some(slotId))
      ensures (exists i :: 0 <= i < |SLOTS| && SLOTS[i].id == slotId) ==> ModalShown()
      ensures view == old(view) && isAdminLoggedIn == old(isAdminLoggedIn) && bookings == old(bookings)
      ensures selectedTurf == old(selectedTurf) && selectedDate == old(selectedDate)
    {
      modal := ModalState(true, Some(slotId));
    }

    /** The modal's `onClose`. */
    method CloseModal()
      requires Valid()
      modifies this
      ensures Valid() && modal == CLOSED_MODAL && !ModalShown()
      ensures view == old(view) && isAdminLoggedIn == old(isAdminLoggedIn) && bookings == old(bookings)
      ensures selectedTurf == old(selectedTurf) && selectedDate == old(selectedDate)
    {
      modal := CLOSED_MODAL;
    }

    /** `handleConfirmBooking`: appends the new booking, after which its slot shows as booked,
        and returns to the dashboard for an admin, home otherwise. The ledger stays free of
        double bookings when the slot was free. */
    method ConfirmBooking(details: ConfirmDetails, freshId: int)
      requires Valid() && modal.slotId.Some?
      modifies this
      ensures Valid()
      ensures bookings == old(bookings) + [NewBooking(freshId, selectedTurf, selectedDate, old(modal.slotId.value), details)]
      ensures CheckBooked(old(modal.slotId.value))
      ensures old(NoDoubleBooking(bookings) && !CheckBooked(modal.slotId.value)) ==> NoDoubleBooking(bookings)
      ensures view == (if isAdminLoggedIn then AdminPage else HomePage)
      ensures isAdminLoggedIn == old(isAdminLoggedIn) && modal == old(modal)
      ensures selectedTurf == old(selectedTurf) && selectedDate == old(selectedDate)
    {
      var nb := NewBooking(freshId, selectedTurf, selectedDate, modal.slotId.value, details);
      if NoDoubleBooking(bookings) {
        GuardedAppendKeepsUnique(bookings, nb);
      }
      assert (bookings + [nb])[|bookings|] == nb;
      bookings := bookings + [nb];
      if isAdminLoggedIn {
        view := AdminPage;
      } else {
        view := HomePage;
      }
    }

    /** `handleCancelBooking`: when the dialog is accepted, every booking with that id is
        deleted (not marked cancelled); otherwise nothing changes. */
    method CancelBooking(id: int, accepted: bool)
      requires Valid()
      modifies this
      ensures Valid()
      ensures bookings == (if accepted then RemoveById(old(bookings), id) else old(bookings))
      ensures forall b :: b in bookings <==> b in old(bookings) && (accepted ==> b.id != id)
      ensures old(NoDoubleBooking(bookings)) ==> NoDoubleBooking(bookings)
      ensures view == old(view) && isAdminLoggedIn == old(isAdminLoggedIn)
      ensures selectedTurf == old(selectedTurf) && selectedDate == old(selectedDate) && modal == old(modal)
    {
      if accepted {
        if NoDoubleBooking(bookings) {
          RemoveByIdKeepsUnique(bookings, id);
        }
        RemoveByIdMembers(bookings, id);
        bookings := RemoveById(bookings, id);
      }
    }

    /** `handleAdminLogin`: the admin view now shows the dashboard. */
    method AdminLogin()
      requires Valid()
      modifies this
      ensures Valid() && isAdminLoggedIn
      ensures view == AdminPage ==> Screen() == DashboardScreen
      ensures view == old(view) && bookings == old(bookings)
      ensures selectedTurf == old(selectedTurf) && selectedDate == old(selectedDate) && modal == old(modal)
    {
      isAdminLoggedIn := true;
    }

    /** `handleAdminLogout`: logged out and back home. */
    method AdminLogout()
      requires Valid()
      modifies this
      ensures Valid() && !isAdminLoggedIn && view == HomePage && Screen() == HomeScreen
      ensures bookings == old(bookings)
      ensures selectedTurf == old(selectedTurf) && selectedDate == old(selectedDate) && modal == old(modal)
    {
      isAdminLoggedIn := false;
      view := HomePage;
    }

    /** A whole payment in the shown modal: the three status lines in order, one new booking
        for the selected turf, date and slot with the typed details, the turf's price and the
        payment label, then the modal closes. */
    method Checkout(m: BookingModal, freshId: int) returns (statuses: seq<string>)
      requires Valid() && ModalShown()
      requires m.Valid() && m.step == 2 && !m.isSubmitting && m.turf == TURFS[selectedTurf]
      modifies this, m
      ensures Valid() && modal == CLOSED_MODAL
      ensures statuses == [CONNECTING_STATUS, VERIFYING_STATUS,
                           if old(m.paymentMethod) == Cash then FINALIZING_CASH_STATUS else PROCESSING_STATUS]
      ensures bookings == old(bookings) + [Booking(
                freshId, selectedTurf, selectedDate, old(modal.slotId.value),
                old(m.formData.name), old(m.formData.phone), old(m.formData.email), Confirmed,
                TURFS[selectedTurf].price, PaymentLabel(old(m.paymentMethod), old(m.selectedUpiApp)))]
      ensures old(NoDoubleBooking(bookings) && !CheckBooked(modal.slotId.value)) ==> NoDoubleBooking(bookings)
      ensures view == (if isAdminLoggedIn then AdminPage else HomePage)
      ensures isAdminLoggedIn == old(isAdminLoggedIn)
      ensures selectedTurf == old(selectedTurf) && selectedDate == old(selectedDate)
      ensures m.Valid() && m.step == 1 && m.formData == EMPTY_FORM && !m.isSubmitting
    {
      var confirmations, close;
      statuses, confirmations, close := m.Pay();
      ConfirmBooking(confirmations[0], freshId);
      if close {
        CloseModal();
      }
    }
  }
}
