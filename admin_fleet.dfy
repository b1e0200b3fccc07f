/**
  The admin fleet view: per-machine statistics built from the bookings and
  the maintenance log, the search / category / status filter, the sort
  orders, and the utilization figure.
*/
module AdminFleet {
  import opened Common
  import opened Records

  /** ALIVE, DEAD or MAINTENANCE. */
  datatype FleetStatus = Alive | Dead | Maintenance

  /** One machine with its statistics. */
  datatype FleetRow = FleetRow(
    bike: Bike,
    status: FleetStatus,
    rideCount: nat,
    revenue: int,
    maintCost: int,
    netRevenue: int,
    distance: int,
    futureRides: seq<Booking>)

  // ---------------------------------------------------------------------------
  // Per-machine statistics

  predicate ForBike(id: int, b: Booking)
  {
    b.bikeId == id
  }

  /** The distance of one ride, counted only when both odometer readings are truthy. */
  function Leg(b: Booking): int
  {
    if TruthyNumber(b.startOdometer) && TruthyNumber(b.endOdometer)
    then b.endOdometer.value - b.startOdometer.value else 0
  }

  /** A confirmed ride whose pickup day starts no earlier than `now`. */
  predicate IsFutureRide(b: Booking, now: int)
  {
    b.status == BookingConfirmed && b.pickupDay * 1440 >= now
  }

  function LogCost(m: MaintenanceLog): int
  {
    m.cost
  }

  predicate LogForBike(id: int, m: MaintenanceLog)
  {
    m.bikeId == id
  }

  /** Both odometer readings are truthy (present and not zero). */
  predicate HasReadings(b: Booking)
  {
    TruthyNumber(b.startOdometer) && TruthyNumber(b.endOdometer)
  }

  /** The odometer difference of a ride, end minus start. */
  function Travelled(b: Booking): int
  {
    OrZero(b.endOdometer) - OrZero(b.startOdometer)
  }

  /**
    Summing `Leg` over the rides is summing the odometer difference over just
    the rides that have both readings.
  */
  lemma {:induction false} DistanceOverReadings(rides: seq<Booking>)
    ensures Sum(rides, Leg) == Sum(Filter(rides, HasReadings), Travelled)
  {
    if rides != [] {
      DistanceOverReadings(rides[1..]);
      SumAppend(if HasReadings(rides[0]) then [rides[0]] else [], Filter(rides[1..], HasReadings), Travelled);
    }
  }

  /** The classification: running if any of its rides is on the road, else by the catalog. */
  function Classify(bike: Bike, rides: seq<Booking>): (s: FleetStatus)
    ensures s == Alive <==> exists i :: 0 <= i < |rides| && rides[i].status == Ongoing
    ensures s == Maintenance <==> !(exists i :: 0 <= i < |rides| && rides[i].status == Ongoing)
                                  && bike.status == UnderMaintenance
  {
    AnyIff(rides, (b: Booking) => b.status == Ongoing);
    if Any(rides, (b: Booking) => b.status == Ongoing) then Alive
    else if bike.status == UnderMaintenance then Maintenance
    else Dead
  }

  /** The statistics of one machine. */
  function StatsFor(bike: Bike, bookings: seq<Booking>, logs: seq<MaintenanceLog>, now: int): (r: FleetRow)
    ensures r.bike == bike
    ensures r.netRevenue == r.revenue - r.maintCost
    ensures forall b :: b in r.futureRides ==> b in bookings && b.bikeId == bike.id && IsFutureRide(b, now)
  {
    var rides := Filter(bookings, (b: Booking) => ForBike(bike.id, b));
    var costs := Filter(logs, (m: MaintenanceLog) => LogForBike(bike.id, m));
    var revenue := Sum(rides, NetAmount);
    var maintCost := Sum(costs, LogCost);
    FleetRow(
      bike := bike,
      status := Classify(bike, rides),
      rideCount := |rides|,
      revenue := revenue,
      maintCost := maintCost,
      netRevenue := revenue - maintCost,
      distance := Sum(rides, Leg),
      futureRides := Filter(rides, (b: Booking) => IsFutureRide(b, now)))
  }

  /** `fetchFleetData`: one row per catalog machine, in catalog order. */
  function FleetStats(catalog: seq<Bike>, bookings: seq<Booking>, logs: seq<MaintenanceLog>, now: int): (r: seq<FleetRow>)
    ensures |r| == |catalog|
    ensures forall i :: 0 <= i < |catalog| ==> r[i] == StatsFor(catalog[i], bookings, logs, now)
  {
    seq(|catalog|, i requires 0 <= i < |catalog| => StatsFor(catalog[i], bookings, logs, now))
  }

  /**
    What a machine's row counts: its rides, its revenue split into rent and
    adjustments, its status from whether one of its rides is on the road, and
    a future ride for every confirmed ride from `now` on.
  */
  lemma StatsFacts(bike: Bike, bookings: seq<Booking>, logs: seq<MaintenanceLog>, now: int)
    ensures var r := StatsFor(bike, bookings, logs, now);
            var rides := Filter(bookings, (b: Booking) => ForBike(bike.id, b));
            && r.rideCount == Count(bookings, (b: Booking) => ForBike(bike.id, b))
            && r.revenue == Sum(rides, (b: Booking) => OrZero(b.totalRent)) + Sum(rides, (b: Booking) => OrZero(b.adjustmentAmount))
            && (r.status == Alive <==> exists b :: b in bookings && b.bikeId == bike.id && b.status == Ongoing)
            && (forall b :: b in bookings && b.bikeId == bike.id && IsFutureRide(b, now) ==> b in r.futureRides)
            && r.maintCost == Sum(Filter(logs, (m: MaintenanceLog) => LogForBike(bike.id, m)), LogCost)
            && r.distance == Sum(Filter(rides, HasReadings), Travelled)
  {
    var p := (b: Booking) => ForBike(bike.id, b);
    var rides := Filter(bookings, p);
    FilterLength(bookings, p);
    SumSplit(rides, (b: Booking) => OrZero(b.totalRent), (b: Booking) => OrZero(b.adjustmentAmount), NetAmount);
    DistanceOverReadings(rides);
    forall b | b in bookings && b.bikeId == bike.id
      ensures b in rides
    {
      FilterKeeps(bookings, p, b);
    }
    if exists b :: b in bookings && b.bikeId == bike.id && b.status == Ongoing {
      var b :| b in bookings && b.bikeId == bike.id && b.status == Ongoing;
      var i :| 0 <= i < |rides| && rides[i] == b;
    }
    if Classify(bike, rides) == Alive {
      var i :| 0 <= i < |rides| && rides[i].status == Ongoing;
      FilterIff(bookings, p, rides[i]);
    }
    forall b | b in bookings && b.bikeId == bike.id && IsFutureRide(b, now)
      ensures b in StatsFor(bike, bookings, logs, now).futureRides
    {
      FilterKeeps(rides, (b: Booking) => IsFutureRide(b, now), b);
    }
  }

  // ---------------------------------------------------------------------------
  // Filter

  /** The control bar: a search text, a category (`None` is 'All') and a status (`None` is 'ALL'). */
  datatype FleetQuery = FleetQuery(search: string, category: Option<Category>, status: Option<FleetStatus>)

  predicate Matches(q: FleetQuery, r: FleetRow)
  {
    && Includes(Lower(r.bike.name), Lower(q.search))
    && (q.category.None? || r.bike.category == q.category.value)
    && (q.status.None? || r.status == q.status.value)
  }

  function Filtered(rows: seq<FleetRow>, q: FleetQuery): (r: seq<FleetRow>)
    ensures |r| <= |rows|
  {
    Filter(rows, (x: FleetRow) => Matches(q, x))
  }

  /** A row is kept exactly when its name contains the search text case-insensitively and both selectors admit it. */
  lemma FilteredIff(rows: seq<FleetRow>, q: FleetQuery, x: FleetRow)
    ensures x in Filtered(rows, q) <==>
              && x in rows
              && (exists i :: OccursAt(Lower(x.bike.name), Lower(q.search), i))
              && (q.category.None? || x.bike.category == q.category.value)
              && (q.status.None? || x.status == q.status.value)
  {
    FilterIff(rows, (x: FleetRow) => Matches(q, x), x);
    IncludesIff(Lower(x.bike.name), Lower(q.search));
  }

  /** With an empty search and both selectors on 'All', every machine is listed. */
  lemma FilteredEverything(rows: seq<FleetRow>)
    ensures Filtered(rows, FleetQuery("", None, None)) == rows
  {
    forall i | 0 <= i < |rows|
      ensures Matches(FleetQuery("", None, None), rows[i])
    {
      assert Lower("") == "";
      assert Lower(rows[i].bike.name)[..0] == "";
    }
    FilterAll(rows, (x: FleetRow) => Matches(FleetQuery("", None, None), x));
  }

  // ---------------------------------------------------------------------------
  // Sort

  datatype SortKey = ByName | ByRevenue | ByNetProfit | ByRideCount | ByDistance

  function KeyValue(k: SortKey, r: FleetRow): int
  {
    match k
    case ByName => 0
    case ByRevenue => r.revenue
    case ByNetProfit => r.netRevenue
    case ByRideCount => r.rideCount
    case ByDistance => r.distance
  }

  /** `a` may precede `b`: names ascending, every figure descending. */
  predicate Before(k: SortKey, a: FleetRow, b: FleetRow)
  {
    if k == ByName then LexLe(a.bike.name, b.bike.name) else KeyValue(k, a) >= KeyValue(k, b)
  }

  lemma BeforeTotal(k: SortKey, a: FleetRow, b: FleetRow)
    ensures Before(k, a, b) || Before(k, b, a)
  {
    if k == ByName {
      LexTotal(a.bike.name, b.bike.name);
    }
  }

  predicate SortedBy(k: SortKey, s: seq<FleetRow>)
  {
    forall i :: 0 <= i < |s| - 1 ==> Before(k, s[i], s[i + 1])
  }

  /** Puts `x` in front of the first row it may precede. */
  function Insert(k: SortKey, x: FleetRow, s: seq<FleetRow>): (r: seq<FleetRow>)
    ensures |r| == |s| + 1 && r[0] in {x, if s == [] then x else s[0]}
  {
    if s == [] then [x]
    else if Before(k, x, s[0]) then [x] + s
    else [s[0]] + Insert(k, x, s[1..])
  }

  /** `.sort(...)` on the filtered rows. */
  function SortRows(k: SortKey, s: seq<FleetRow>): seq<FleetRow>
  {
    if s == [] then [] else Insert(k, s[0], SortRows(k, s[1..]))
  }

  lemma {:induction false} InsertSorted(k: SortKey, x: FleetRow, s: seq<FleetRow>)
    requires SortedBy(k, s)
    ensures SortedBy(k, Insert(k, x, s))
    ensures multiset(Insert(k, x, s)) == multiset(s) + multiset{x}
  {
    if s != [] && !Before(k, x, s[0]) {
      BeforeTotal(k, x, s[0]);
      InsertSorted(k, x, s[1..]);
      var t := Insert(k, x, s[1..]);
      assert t[0] == x || t[0] == s[1];
      assert s == [s[0]] + s[1..];
    }
  }

  /** The sorted rows are in the key's order and are the same rows. */
  lemma {:induction false} SortRowsCorrect(k: SortKey, s: seq<FleetRow>)
    ensures SortedBy(k, SortRows(k, s))
    ensures multiset(SortRows(k, s)) == multiset(s)
  {
    if s != [] {
      SortRowsCorrect(k, s[1..]);
      InsertSorted(k, s[0], SortRows(k, s[1..]));
      assert s == [s[0]] + s[1..];
    }
  }

  /** `filteredAndSortedFleet`. */
  function Listed(rows: seq<FleetRow>, q: FleetQuery, k: SortKey): (r: seq<FleetRow>)
    ensures SortedBy(k, r)
    ensures forall x :: x in r <==> x in rows && Matches(q, x)
    ensures |r| <= |rows|
  {
    var kept := Filtered(rows, q);
    SortRowsCorrect(k, kept);
    forall x
      ensures x in SortRows(k, kept) <==> x in rows && Matches(q, x)
    {
      assert x in SortRows(k, kept) <==> x in multiset(SortRows(k, kept));
      FilterIff(rows, (x: FleetRow) => Matches(q, x), x);
    }
    assert |SortRows(k, kept)| == |multiset(SortRows(k, kept))|;
    SortRows(k, kept)
  }

  // ---------------------------------------------------------------------------
  // Utilization

  predicate IsAlive(r: FleetRow)
  {
    r.status == Alive
  }

  lemma DivBounds(n: int, d: int)
    requires d > 0
    ensures d * (n / d) <= n < d * (n / d) + d
  {
  }

  lemma MulLess(c: int, a: int, b: int)
    requires c > 0 && c * a < c * b
    ensures a < b
  {
    assert c * b - c * a == c * (b - a);
  }

  /** The rounded percentage bounds, proved from the division's own bounds. */
  lemma ShareBounds(part: int, total: int)
    requires 0 <= part <= total && total > 0
    ensures var u := (200 * part + total) / (2 * total);
            && 0 <= u <= 100
            && 2 * total * u <= 200 * part + total < 2 * total * u + 2 * total
            && (part == total ==> u == 100)
            && (part == 0 ==> u == 0)
  {
    var n, d := 200 * part + total, 2 * total;
    var u := n / d;
    DivBounds(n, d);
    MulLess(d, -1, u + 1);
    MulLess(d, u, 101);
    if part == total {
      MulLess(d, 99, u + 1);
    }
    if part == 0 {
      MulLess(d, u, 1);
    }
  }

  /** `Math.round(part / total * 100)`, rounding halves up. */
  function RoundedShare(part: int, total: int): (u: int)
    requires 0 <= part <= total && total > 0
    ensures 0 <= u <= 100
    ensures 2 * total * u <= 200 * part + total < 2 * total * u + 2 * total
    ensures part == total ==> u == 100
    ensures part == 0 ==> u == 0
  {
    ShareBounds(part, total);
    (200 * part + total) / (2 * total)
  }

  /** `Math.round(alive / total * 100) || 0`: the share of machines on the road, in percent. */
  function Utilization(rows: seq<FleetRow>): (u: int)
    ensures 0 <= u <= 100
    ensures rows == [] ==> u == 0
    ensures rows != [] ==> 2 * |rows| * u <= 200 * Count(rows, IsAlive) + |rows| < 2 * |rows| * u + 2 * |rows|
    ensures rows != [] && Count(rows, IsAlive) == |rows| ==> u == 100
  {
    if rows == [] then 0 else RoundedShare(Count(rows, IsAlive), |rows|)
  }
}
