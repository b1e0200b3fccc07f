/**
  The records the components share: the fleet catalog, the booking form's
  fields, the persisted booking and profile rows, and the tariff constants.
*/
module Records {
  import opened Common
  import opened Clock

  // ---------------------------------------------------------------------------
  // Tariff constants (rupees)

  const SecurityDepositAmount: int := 1000
  const EarlyLateFee: int := 99
  const OutstationDailySurcharge: int := 99
  const DeliveryPickupFee: int := 199

  // ---------------------------------------------------------------------------
  // Fleet catalog

  datatype Category = Bikes | Sports | Scooter | RoyalEnfield

  datatype CatalogStatus = Available | Booked | Running | UnderMaintenance

  datatype Bike = Bike(id: int, name: string, category: Category, dailyRate: nat, status: CatalogStatus)

  /** The fleet as the catalog lists it. */
  const Fleet: seq<Bike> := [
    Bike(15, "Suzuki Burgman", Scooter, 700, Available),
    Bike(16, "Honda Activa 125", Scooter, 700, Available),
    Bike(17, "TVS Jupiter 125", Scooter, 700, Available),
    Bike(18, "Honda Dio 125", Scooter, 700, Available),
    Bike(19, "Ather 450X", Scooter, 900, Available),
    Bike(1, "Hero Xtreme 125r", Bikes, 700, Available),
    Bike(3, "Honda Shine 125", Bikes, 700, Available),
    Bike(5, "Bajaj Pulsar 150", Bikes, 700, Available),
    Bike(6, "TVS Apache RTR 160 4V", Bikes, 900, Available),
    Bike(8, "RE Hunter 350", RoyalEnfield, 1500, Available),
    Bike(12, "RE Classic 350", RoyalEnfield, 1600, Available),
    Bike(9, "Bajaj Pulsar NS200", Sports, 1200, Available),
    Bike(10, "Yamaha R15 V4", Sports, 1800, Available),
    Bike(11, "KTM Duke 390", Sports, 2200, Available)
  ]

  /** `bikes.find(b => b.id === id)`: the first catalog entry with that id. */
  function FindBike(bikes: seq<Bike>, id: int): (r: Option<Bike>)
    ensures r.Some? ==> r.value in bikes && r.value.id == id
    ensures r.None? ==> forall i :: 0 <= i < |bikes| ==> bikes[i].id != id
  {
    Find(bikes, (b: Bike) => b.id == id)
  }

  // ---------------------------------------------------------------------------
  // The booking form

  datatype HandoverMethod = Garage | Home

  /**
    The booking form's fields. `bikeId` is `None` while no machine is chosen
    (the empty string); dates are day indices and times minutes since midnight.
  */
  datatype BookingDetails = BookingDetails(
    bikeId: Option<int>,
    fromDay: int, fromTime: TimeOfDay,
    toDay: int, toTime: TimeOfDay,
    outstation: bool,
    address: string,
    name: string, phone: string, email: string, whatsapp: string,
    pickupMethod: HandoverMethod, dropMethod: HandoverMethod)

  // ---------------------------------------------------------------------------
  // Persisted rows

  datatype BookingStatus =
    | PendingPayment
    | VerifyingPayment
    | BookingConfirmed
    | Ongoing
    | Completed
    | Cancelled

  /** A row of the bookings table; money in whole rupees, times in minutes. */
  datatype Booking = Booking(
    id: string,
    readableId: string,
    userId: Option<string>,
    bikeId: int,
    status: BookingStatus,
    pickupDay: int, pickupTime: TimeOfDay,
    returnDay: int, returnTime: TimeOfDay,
    totalRent: Option<int>,
    advanceAmount: Option<int>,
    adjustmentAmount: Option<int>,
    adjustmentReason: Option<string>,
    adminNotes: Option<string>,
    paymentMethod: Option<string>,
    paymentScreenshotUrl: Option<string>,
    startTimestamp: Option<int>,
    endTimestamp: Option<int>,
    startOdometer: Option<int>,
    endOdometer: Option<int>,
    createdAt: int)

  /** A row of the profiles table. */
  datatype Profile = Profile(
    id: string,
    fullName: Option<string>,
    email: Option<string>,
    phone: Option<string>,
    whatsapp: Option<string>,
    dlUrl: Option<string>,
    aadhaarUrl: Option<string>,
    dlNumber: Option<string>,
    aadhaarNumber: Option<string>,
    isVerified: bool,
    isBlocked: bool)

  /** A row of the maintenance log. */
  datatype MaintenanceLog = MaintenanceLog(bikeId: int, description: string, cost: int)

  /** The moment a booking is due back: `new Date(`${return_date}T${return_time}`)`. */
  function ReturnAt(b: Booking): int
  {
    At(b.returnDay, b.returnTime)
  }

  /** A ride still out whose return time has passed. */
  predicate IsOverdue(b: Booking, now: int)
  {
    b.status == Ongoing && ReturnAt(b) < now
  }

  /** `(total_rent || 0) + (adjustment_amount || 0)`: what a booking finally earned. */
  function NetAmount(b: Booking): int
  {
    OrZero(b.totalRent) + OrZero(b.adjustmentAmount)
  }

  /**
    `update(...).eq(column, value)`: rewrites with `f` every row `sel` picks and
    leaves the others as they are, in place.
  */
  function UpdateWhere<T>(s: seq<T>, sel: T -> bool, f: T -> T): (r: seq<T>)
    ensures |r| == |s|
    ensures forall i :: 0 <= i < |s| && sel(s[i]) ==> r[i] == f(s[i])
    ensures forall i :: 0 <= i < |s| && !sel(s[i]) ==> r[i] == s[i]
  {
    seq(|s|, i requires 0 <= i < |s| => if sel(s[i]) then f(s[i]) else s[i])
  }

  /** `select('*').eq('id', id).single()`: the first row with that id, if any. */
  function RowWithId(s: seq<Booking>, id: string): (r: Option<Booking>)
    ensures r.Some? ==> r.value in s && r.value.id == id
    ensures r.None? ==> forall i :: 0 <= i < |s| ==> s[i].id != id
  {
    Find(s, (b: Booking) => b.id == id)
  }
}
