/**
 * The dashboard of src/views/Admin.tsx: total revenue over the confirmed
 * bookings, the booking count, one row per booking whose cancel button
 * passes that booking's id, and the empty-state row.
 */
module Admin {

  import opened Types

  /** `bookings.filter(b => b.status === 'Confirmed')`. */
  function ConfirmedOnly(bs: seq<Booking>): (r: seq<Booking>)
    ensures |r| <= |bs|
    ensures forall b :: b in r <==> b in bs && b.status == Confirmed
    decreases |bs|
  {
    if bs == [] then []
    else (if bs[0].status == Confirmed then [bs[0]] else []) + ConfirmedOnly(bs[1..])
  }

  /** `.reduce((sum, b) => sum + b.amount, 0)`: a left fold over the list. */
  function SumAmounts(bs: seq<Booking>): int
    decreases |bs|
  {
    if bs == [] then 0 else SumAmounts(bs[..|bs| - 1]) + bs[|bs| - 1].amount
  }

  /** `totalRevenue`. */
  function TotalRevenue(bs: seq<Booking>): int {
    SumAmounts(ConfirmedOnly(bs))
  }

  /** What a booking brings in: its amount while confirmed, nothing once cancelled. */
  function Contribution(b: Booking): int {
    if b.status == Confirmed then b.amount else 0
  }

  /** Revenue counted booking by booking, front to back: the reference for TotalRevenue. */
  function RevenueByBooking(bs: seq<Booking>): int
    decreases |bs|
  {
    if bs == [] then 0 else Contribution(bs[0]) + RevenueByBooking(bs[1..])
  }

  lemma {:induction false} ConfirmedOnlyAppend(a: seq<Booking>, b: seq<Booking>)
    ensures ConfirmedOnly(a + b) == ConfirmedOnly(a) + ConfirmedOnly(b)
    decreases |a|
  {
    if a != [] {
      assert (a + b)[1..] == a[1..] + b;
      ConfirmedOnlyAppend(a[1..], b);
    } else {
      assert a + b == b;
    }
  }

  lemma {:induction false} SumAmountsAppend(a: seq<Booking>, b: seq<Booking>)
    ensures SumAmounts(a + b) == SumAmounts(a) + SumAmounts(b)
    decreases |b|
  {
    if b != [] {
      assert (a + b)[..|a + b| - 1] == a + b[..|b| - 1];
      SumAmountsAppend(a, b[..|b| - 1]);
    } else {
      assert a + b == a;
    }
  }

  /** Revenue is additive over concatenation of booking lists. */
  lemma RevenueAppend(a: seq<Booking>, b: seq<Booking>)
    ensures TotalRevenue(a + b) == TotalRevenue(a) + TotalRevenue(b)
  {
    ConfirmedOnlyAppend(a, b);
    SumAmountsAppend(ConfirmedOnly(a), ConfirmedOnly(b));
  }

  lemma RevenueOfOne(b: Booking)
    ensures TotalRevenue([b]) == Contribution(b)
  {
    assert [b][1..] == [] && [b][..0] == [];
    if b.status == Confirmed {
      assert ConfirmedOnly([b]) == [b];
      assert SumAmounts([b]) == SumAmounts([]) + b.amount;
    } else {
      assert ConfirmedOnly([b]) == [];
    }
  }

  /** The filter-then-fold of the dashboard equals the per-booking count. */
  lemma {:induction false} RevenueIsSumOfContributions(bs: seq<Booking>)
    ensures TotalRevenue(bs) == RevenueByBooking(bs)
    decreases |bs|
  {
    if bs != [] {
      assert bs == [bs[0]] + bs[1..];
      RevenueAppend([bs[0]], bs[1..]);
      RevenueIsSumOfContributions(bs[1..]);
      RevenueOfOne(bs[0]);
    }
  }

  /** No bookings, no revenue; a cancelled booking adds nothing wherever it sits. */
  lemma CancelledAddNothing(a: seq<Booking>, b: Booking, c: seq<Booking>)
    requires b.status == Cancelled
    ensures TotalRevenue([]) == 0
    ensures TotalRevenue(a + [b] + c) == TotalRevenue(a + c)
  {
    RevenueAppend(a + [b], c);
    RevenueAppend(a, [b]);
    RevenueAppend(a, c);
    RevenueOfOne(b);
  }

  /** With no negative amounts, revenue is never negative and never exceeds the sum of all amounts. */
  lemma {:induction false} RevenueBounds(bs: seq<Booking>)
    requires forall i :: 0 <= i < |bs| ==> bs[i].amount >= 0
    ensures 0 <= TotalRevenue(bs) <= SumAmounts(bs)
    decreases |bs|
  {
    if bs != [] {
      var init := bs[..|bs| - 1];
      var last := bs[|bs| - 1];
      assert bs == init + [last];
      RevenueBounds(init);
      RevenueAppend(init, [last]);
      RevenueOfOne(last);
      assert SumAmounts(bs) == SumAmounts(init) + last.amount;
    }
  }

  /** One table row: the booking shown and the id its cancel button hands to `onCancelBooking`. */
  datatype Row = Row(booking: Booking, cancelId: int)

  /** What the dashboard shows for a booking list. */
  datatype Dashboard = Dashboard(totalRevenue: int, activeBookings: nat, rows: seq<Row>, showsEmptyState: bool)

  function RowFor(b: Booking): Row {
    Row(b, b.id)
  }

  /** `bookings.map(b => <tr>…</tr>)`. */
  function Rows(bs: seq<Booking>): (rs: seq<Row>)
    ensures |rs| == |bs|
  {
    seq(|bs|, i requires 0 <= i < |bs| => RowFor(bs[i]))
  }

  function ShowDashboard(bs: seq<Booking>): Dashboard {
    Dashboard(TotalRevenue(bs), |bs|, Rows(bs), |bs| == 0)
  }

  /** The rows list the bookings in order, each row's cancel button carries its own
      booking's id, "Active Bookings" counts cancelled bookings too, and the
      empty-state row appears exactly when there are no rows. */
  lemma DashboardShows(bs: seq<Booking>)
    ensures forall i :: 0 <= i < |bs| ==>
              ShowDashboard(bs).rows[i].booking == bs[i] && ShowDashboard(bs).rows[i].cancelId == bs[i].id
    ensures ShowDashboard(bs).activeBookings == |bs| >= |ConfirmedOnly(bs)|
    ensures ShowDashboard(bs).showsEmptyState <==> ShowDashboard(bs).rows == []
    ensures ShowDashboard(bs).showsEmptyState ==> ShowDashboard(bs).totalRevenue == 0
  {
  }
}
