/**
  The admin console: the overview figures computed from the bookings table,
  and the tab and ledger-filter switching that leads from them to the ride
  ledger.
*/
module AdminDashboard {
  import opened Common
  import opened Clock
  import opened Records
  import opened AdminBookings

  /** The overview figures. */
  datatype Stats = Stats(
    totalBookings: nat,
    activeRides: nat,
    pendingPayments: nat,
    totalRevenue: int,
    totalUsers: int,
    overdueRides: nat)

  predicate IsActive(b: Booking)
  {
    b.status == Ongoing
  }

  predicate IsAwaitingCheck(b: Booking)
  {
    b.status == VerifyingPayment
  }

  /** The date part of `created_at` lies between the range's ends, both included. */
  predicate CreatedWithin(b: Booking, start: int, end: int)
  {
    start <= DayOf(b.createdAt) <= end
  }

  /** Revenue of the bookings created within the range. */
  function RangeRevenue(all: seq<Booking>, start: int, end: int): int
  {
    Sum(Filter(all, (b: Booking) => CreatedWithin(b, start, end)), NetAmount)
  }

  /** `fetchStats`, with the profile count (`null` when the count is unavailable) and the clock as inputs. */
  function StatsOf(all: seq<Booking>, usersCount: Option<int>, start: int, end: int, now: int): (r: Stats)
    ensures r.totalBookings == |all|
    ensures r.overdueRides <= r.activeRides
    ensures r.activeRides + r.pendingPayments <= r.totalBookings
    ensures r.totalUsers == OrZero(usersCount)
    ensures r.totalRevenue == RangeRevenue(all, start, end)
  {
    var overdue := (b: Booking) => IsOverdue(b, now);
    CountMono(all, overdue, IsActive);
    CountDisjoint(all, IsActive, IsAwaitingCheck);
    Stats(
      totalBookings := |all|,
      activeRides := Count(all, IsActive),
      pendingPayments := Count(all, IsAwaitingCheck),
      totalRevenue := RangeRevenue(all, start, end),
      totalUsers := OrZero(usersCount),
      overdueRides := Count(all, overdue))
  }

  /** Each figure is the length of the ledger list its tile leads to. */
  lemma FiguresMatchLedger(all: seq<Booking>, usersCount: Option<int>, start: int, end: int, now: int)
    ensures var r := StatsOf(all, usersCount, start, end, now);
            && r.totalBookings == |Shown(all, All, now)|
            && r.activeRides == |Shown(all, RunningRides, now)|
            && r.pendingPayments == |Shown(all, Pending, now)|
            && r.overdueRides == |Shown(all, OverdueRides, now)|
  {
    ShownAll(all, now);
    var running, pending, overdue :=
      (b: Booking) => Keeps(RunningRides, b, now), (b: Booking) => Keeps(Pending, b, now), (b: Booking) => Keeps(OverdueRides, b, now);
    FilterLength(all, running);
    FilterLength(all, pending);
    FilterLength(all, overdue);
    CountMono(all, running, IsActive);
    CountMono(all, IsActive, running);
    CountMono(all, pending, IsAwaitingCheck);
    CountMono(all, IsAwaitingCheck, pending);
    CountMono(all, overdue, (b: Booking) => IsOverdue(b, now));
    CountMono(all, (b: Booking) => IsOverdue(b, now), overdue);
  }

  /** Splitting the date range at a day splits its revenue. */
  lemma RangeRevenueSplits(all: seq<Booking>, start: int, mid: int, end: int)
    requires start <= mid < end
    ensures RangeRevenue(all, start, end) == RangeRevenue(all, start, mid) + RangeRevenue(all, mid + 1, end)
  {
    SumFilterUnion(all, NetAmount,
      (b: Booking) => CreatedWithin(b, start, mid), (b: Booking) => CreatedWithin(b, mid + 1, end),
      (b: Booking) => CreatedWithin(b, start, end));
  }

  /** A range that ends before it starts holds no revenue. */
  lemma EmptyRangeRevenue(all: seq<Booking>, start: int, end: int)
    requires end < start
    ensures RangeRevenue(all, start, end) == 0
  {
    var p := (b: Booking) => CreatedWithin(b, start, end);
    FilterLength(all, p);
    CountMono(all, p, (b: Booking) => false);
    assert Count(all, (b: Booking) => false) == 0 by {
      CountFalse(all);
    }
  }

  lemma {:induction false} CountFalse(s: seq<Booking>)
    ensures Count(s, (b: Booking) => false) == 0
  {
    if s != [] {
      CountFalse(s[1..]);
    }
  }

  datatype AdminTab = Overview | Bookings | Fleet | Users | Reports

  class Console {
    var activeTab: AdminTab
    var bookingFilter: LedgerFilter

    constructor()
      ensures activeTab == Overview && bookingFilter == All
    {
      activeTab := Overview;
      bookingFilter := All;
    }

    /** A sidebar tab; opening the rides tab from there resets the dashboard's ledger filter to 'all'. */
    method SelectTab(t: AdminTab)
      modifies this
      ensures activeTab == t
      ensures bookingFilter == if t == Bookings then All else old(bookingFilter)
    {
      activeTab := t;
      if t == Bookings {
        bookingFilter := All;
      }
    }

    /** "Return Watch": the rides tab on the overdue list. */
    method HandleReturnWatch()
      modifies this
      ensures activeTab == Bookings && bookingFilter == OverdueRides
    {
      bookingFilter := OverdueRides;
      activeTab := Bookings;
    }

    /** "Verify Payments": the rides tab on the payments awaiting a check. */
    method ReviewPayments()
      modifies this
      ensures activeTab == Bookings && bookingFilter == Pending
    {
      activeTab := Bookings;
      bookingFilter := Pending;
    }
  }
}
