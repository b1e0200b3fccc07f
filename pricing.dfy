/**
  The booking form's price breakdown (`charges`): the effective daily rate,
  the flat-day reference price, the tiered base price with its block walk
  beyond the first 24 hours, the early/late and delivery fees, the discount
  choice, the final payable amount and the advance.

  Money is exact. The base price is counted in tenths of the effective rate
  (0.8 is 8, 1.4 is 14, a day block 4, a night block 2, their halves 2 and 1);
  rupee amounts ten times over ("deci-rupees") are integers, and every floor
  the form takes is an integer division by 10.
*/
module Pricing {
  import opened Common
  import opened Clock
  import opened Records

  /** Everything `charges` reads once the bike has been found. */
  datatype QuoteInput = QuoteInput(
    dailyRate: nat,
    fromDay: int, fromTime: TimeOfDay,
    toDay: int, toTime: TimeOfDay,
    outstation: bool,
    pickupMethod: HandoverMethod, dropMethod: HandoverMethod,
    applyDiscount: bool)

  /** The price breakdown the form shows and submits. */
  datatype Quote = Quote(
    referencePrice: int,
    basePrice: int,
    discountAmount: int,
    discountPercent: int,
    hasDiscount: bool,
    earlyLatePickupFee: int,
    earlyLateDropFee: int,
    isEarlyPickup: bool,
    isLatePickup: bool,
    isEarlyDrop: bool,
    isLateDrop: bool,
    deliveryFee: int,
    homePickupFee: int,
    finalPayable: int,
    advance: int,
    security: int)

  function PickupAt(q: QuoteInput): int
  {
    At(q.fromDay, q.fromTime)
  }

  function DropAt(q: QuoteInput): int
  {
    At(q.toDay, q.toTime)
  }

  function Min(a: int, b: int): int
  {
    if a < b then a else b
  }

  // ---------------------------------------------------------------------------
  // Reference price

  /** `rEff`: the daily rate plus the outstation surcharge when it applies. */
  function EffectiveRate(q: QuoteInput): nat
  {
    q.dailyRate + (if q.outstation then OutstationDailySurcharge else 0)
  }

  /** Whole days from the pickup date to the drop date, never negative. */
  function DayDiff(fromDay: int, toDay: int): nat
  {
    if toDay > fromDay then toDay - fromDay else 0
  }

  /** The flat-day price: every calendar day touched, the last one included. */
  function ReferencePrice(q: QuoteInput): int
  {
    EffectiveRate(q) * (DayDiff(q.fromDay, q.toDay) + 1)
  }

  /** The reference price is at least one day's effective rate and counts every day. */
  lemma ReferencePriceFacts(q: QuoteInput)
    ensures EffectiveRate(q) == q.dailyRate + (if q.outstation then 99 else 0)
    ensures ReferencePrice(q) >= EffectiveRate(q)
    ensures q.toDay <= q.fromDay ==> ReferencePrice(q) == EffectiveRate(q)
    ensures q.toDay >= q.fromDay ==> ReferencePrice(q) == EffectiveRate(q) * (q.toDay - q.fromDay + 1)
  {
    var r, d := EffectiveRate(q), DayDiff(q.fromDay, q.toDay);
    assert r * (d + 1) == r * d + r;
  }

  // ---------------------------------------------------------------------------
  // Blocks beyond the first 24 hours

  /** The fixed time-of-day blocks: 08-14, 14-20 and 20-08. */
  datatype Block = Morning | Afternoon | Night

  /** The block a moment falls into, by its hour. */
  function BlockAt(t: int): Block
  {
    var h := HourOf(t);
    if 8 <= h < 14 then Morning else if 14 <= h < 20 then Afternoon else Night
  }

  /** A block's full price, in tenths of the effective rate. */
  function BlockPrice(b: Block): nat
  {
    match b
    case Morning => 4
    case Afternoon => 4
    case Night => 2
  }

  /** A block's nominal length in minutes. */
  function BlockMinutes(b: Block): nat
  {
    match b
    case Morning => 6 * 60
    case Afternoon => 6 * 60
    case Night => 12 * 60
  }

  /** The unclipped end of the block a moment falls into. */
  function BlockEnd(t: int): (e: int)
    ensures t < e
  {
    match BlockAt(t)
    case Morning => SetHours(t, 14)
    case Afternoon => SetHours(t, 20)
    case Night => if HourOf(t) >= 20 then SetHours(t + MinutesPerDay, 8) else SetHours(t, 8)
  }

  /** What one block costs when `used` of its minutes are used. */
  function BlockCharge(b: Block, used: int): (r: nat)
    ensures r == BlockPrice(b) || 2 * r == BlockPrice(b)
    ensures 2 * r == BlockPrice(b) <==> used < BlockMinutes(b) / 2
  {
    if used < BlockMinutes(b) then
      (if used < BlockMinutes(b) / 2 then BlockPrice(b) / 2 else BlockPrice(b))
    else BlockPrice(b)
  }

  /** The charges of the block walk from `cursor` until the drop. */
  function BlockCharges(cursor: int, dropAt: int): nat
    decreases dropAt - cursor
  {
    if cursor >= dropAt then 0
    else
      var e := BlockEnd(cursor);
      BlockCharge(BlockAt(cursor), Min(dropAt, e) - cursor) + BlockCharges(e, dropAt)
  }

  /** 08:00, 14:00 and 20:00 on any day. */
  predicate IsBoundary(t: int)
  {
    var m := MinuteOfDay(t);
    m == 8 * 60 || m == 14 * 60 || m == 20 * 60
  }

  lemma MinuteShift(s: int, k: int)
    requires MinuteOfDay(s) == 0 && 0 <= k < 2 * MinutesPerDay
    ensures MinuteOfDay(s + k) == if k < MinutesPerDay then k else k - MinutesPerDay
  {
    Decompose(s);
  }

  /** The walk's cursor jumps to the very next 08:00, 14:00 or 20:00. */
  lemma BlockEndIsNextBoundary(t: int)
    ensures t < BlockEnd(t) && IsBoundary(BlockEnd(t))
    ensures forall u :: t < u < BlockEnd(t) ==> !IsBoundary(u)
  {
    var s, e := DayStart(t), BlockEnd(t);
    if BlockAt(t) == Night && HourOf(t) >= 20 {
      MinuteShift(s, MinutesPerDay + 8 * 60);
      assert e == s + MinutesPerDay + 8 * 60;
    }
    forall u | t < u < e
      ensures !IsBoundary(u)
    {
      MinuteShift(s, u - s);
    }
  }

  // ---------------------------------------------------------------------------
  // Tiered base price

  /** The tiered base price in tenths of the effective rate. */
  function BaseTenths(pickupAt: int, dropAt: int): nat
  {
    var minutes := dropAt - pickupAt;
    if minutes <= 6 * 60 then 8
    else if minutes <= 12 * 60 then 10
    else if minutes <= 24 * 60 then (if DayOf(pickupAt) == DayOf(dropAt) then 10 else 14)
    else 14 + BlockCharges(pickupAt + MinutesPerDay, dropAt)
  }

  /** The tier table at its edges: exactly 6h, 12h and 24h, and just past 24h. */
  lemma TierBoundaries(p: int)
    ensures BaseTenths(p, p + 6 * 60) == 8
    ensures BaseTenths(p, p + 12 * 60) == 10
    ensures BaseTenths(p, p + 24 * 60) == 14
    ensures BaseTenths(p, p + 24 * 60 + 1) == 14 + BlockPrice(BlockAt(p)) / 2
  {
    DayOfMono(p, p + 24 * 60);
    assert DayOf(p + 24 * 60) == DayOf(p) + 1;
    var e := BlockEnd(p + MinutesPerDay);
    assert BlockCharges(e, p + 24 * 60 + 1) == 0;
    assert BlockAt(p + MinutesPerDay) == BlockAt(p) by {
      MinuteShift(DayStart(p), MinuteOfDay(p) + MinutesPerDay);
    }
  }

  /** A later block charge is never cheaper than an earlier, more clipped one. */
  lemma BlockChargeMono(b: Block, u1: int, u2: int)
    requires u1 <= u2
    ensures BlockCharge(b, u1) <= BlockCharge(b, u2)
  {
  }

  /** Moving the drop later never lowers the block walk's total. */
  lemma {:induction false} BlockChargesMono(cursor: int, d1: int, d2: int)
    requires d1 <= d2
    ensures BlockCharges(cursor, d1) <= BlockCharges(cursor, d2)
    decreases d1 - cursor
  {
    if cursor < d1 {
      var e := BlockEnd(cursor);
      BlockChargeMono(BlockAt(cursor), Min(d1, e) - cursor, Min(d2, e) - cursor);
      BlockChargesMono(e, d1, d2);
    }
  }

  /** For a fixed pickup, the base price never decreases as the drop moves later. */
  lemma BaseTenthsMono(pickupAt: int, d1: int, d2: int)
    requires d1 <= d2
    ensures BaseTenths(pickupAt, d1) <= BaseTenths(pickupAt, d2)
  {
    DayOfMono(d1, d2);
    if d1 - pickupAt > 24 * 60 {
      BlockChargesMono(pickupAt + MinutesPerDay, d1, d2);
    }
  }

  /** The block walk of the form, step by step: `basePrice`, `temp` and `blockEnd`. */
  method BasePrice(pickupAt: int, dropAt: int) returns (tenths: nat)
    ensures tenths == BaseTenths(pickupAt, dropAt)
  {
    var totalMinutes := dropAt - pickupAt;
    if totalMinutes <= 6 * 60 {
      tenths := 8;
    } else if totalMinutes <= 12 * 60 {
      tenths := 10;
    } else if totalMinutes <= 24 * 60 {
      tenths := if DayOf(pickupAt) == DayOf(dropAt) then 10 else 14;
    } else {
      tenths := 14;
      var temp := pickupAt + MinutesPerDay;
      while temp < dropAt
        invariant tenths + BlockCharges(temp, dropAt) == BaseTenths(pickupAt, dropAt)
        decreases dropAt - temp
      {
        var h := HourOf(temp);
        var price, minutes, blockEnd;
        if 8 <= h < 14 {
          price, minutes, blockEnd := 4, 6 * 60, SetHours(temp, 14);
        } else if 14 <= h < 20 {
          price, minutes, blockEnd := 4, 6 * 60, SetHours(temp, 20);
        } else {
          price, minutes := 2, 12 * 60;
          if h >= 20 {
            blockEnd := SetHours(temp + MinutesPerDay, 8);
          } else {
            blockEnd := SetHours(temp, 8);
          }
        }
        var actualEnd := if dropAt < blockEnd then dropAt else blockEnd;
        var used := actualEnd - temp;
        if used < minutes {
          tenths := tenths + (if used < minutes / 2 then price / 2 else price);
        } else {
          tenths := tenths + price;
        }
        temp := blockEnd;
      }
    }
  }

  // ---------------------------------------------------------------------------
  // Fees

  /** Pickup or drop before 08:00. */
  predicate IsEarly(t: int)
  {
    HourOf(t) < 8
  }

  /** Pickup or drop after 20:00 (20:00 itself is on time). */
  predicate IsLate(t: int)
  {
    HourOf(t) > 20 || (HourOf(t) == 20 && MinuteOfHour(t) > 0)
  }

  /** One side's early/late fee: charged once, exactly outside 08:00-20:00. */
  function SideFee(t: int): (fee: int)
    ensures fee == 0 || fee == EarlyLateFee
    ensures fee == EarlyLateFee <==> MinuteOfDay(t) < 8 * 60 || MinuteOfDay(t) > 20 * 60
  {
    if IsEarly(t) || IsLate(t) then EarlyLateFee else 0
  }

  /** Delivery to, or pickup from, the customer's home. */
  function HandoverFee(m: HandoverMethod): (fee: int)
    ensures fee == (if m == Home then 199 else 0)
  {
    if m == Home then DeliveryPickupFee else 0
  }

  /** The four fees added on top of the rent. */
  function FeesTotal(q: QuoteInput): (total: int)
    ensures 0 <= total <= 2 * 99 + 2 * 199
  {
    SideFee(PickupAt(q)) + SideFee(DropAt(q)) + HandoverFee(q.pickupMethod) + HandoverFee(q.dropMethod)
  }

  // ---------------------------------------------------------------------------
  // Discount and payable

  /** Ten times the base price in rupees. */
  function BaseDeci(q: QuoteInput, baseTenths: nat): int
  {
    EffectiveRate(q) * baseTenths
  }

  /** Ten times the reference price in rupees. */
  function ReferenceDeci(q: QuoteInput): int
  {
    10 * ReferencePrice(q)
  }

  /** `hasDiscount`: the tiered price undercuts the flat-day price. */
  predicate HasDiscount(q: QuoteInput, baseTenths: nat)
  {
    BaseDeci(q, baseTenths) < ReferenceDeci(q)
  }

  /** Ten times the rent charged: the base price only if the discount is wanted and real. */
  function ChosenRentDeci(q: QuoteInput, baseTenths: nat): int
  {
    if q.applyDiscount && HasDiscount(q, baseTenths) then BaseDeci(q, baseTenths) else ReferenceDeci(q)
  }

  /** The rent charged is the cheaper of the two prices with the discount, the reference price without. */
  lemma ChosenRentIsMin(q: QuoteInput, baseTenths: nat)
    ensures ChosenRentDeci(q, baseTenths) <= ReferenceDeci(q)
    ensures !q.applyDiscount ==> ChosenRentDeci(q, baseTenths) == ReferenceDeci(q)
    ensures q.applyDiscount ==> ChosenRentDeci(q, baseTenths) == Min(BaseDeci(q, baseTenths), ReferenceDeci(q))
  {
  }

  /** `Math.round(x / d * 100)` for `d > 0`, rounding halves up. */
  function RoundedPercent(x: int, d: int): int
    requires d > 0
  {
    (200 * x + d) / (2 * d)
  }

  /** The breakdown, given the tiered base price in tenths of the effective rate. */
  function Assemble(q: QuoteInput, baseTenths: nat): (r: Quote)
    ensures r.security == SecurityDepositAmount
    ensures r.referencePrice == ReferencePrice(q) && r.basePrice == BaseDeci(q, baseTenths) / 10
    ensures r.hasDiscount == HasDiscount(q, baseTenths)
    ensures r.hasDiscount <==> r.discountAmount >= 0 && 10 * r.referencePrice > BaseDeci(q, baseTenths)
    ensures r.discountPercent
            == if ReferencePrice(q) == 0 then 0 else RoundedPercent(ReferenceDeci(q) - BaseDeci(q, baseTenths), ReferenceDeci(q))
    ensures r.earlyLatePickupFee == SideFee(PickupAt(q)) && r.earlyLateDropFee == SideFee(DropAt(q))
    ensures r.deliveryFee == HandoverFee(q.pickupMethod) && r.homePickupFee == HandoverFee(q.dropMethod)
    ensures r.isEarlyPickup == IsEarly(PickupAt(q)) && r.isLatePickup == IsLate(PickupAt(q))
    ensures r.isEarlyDrop == IsEarly(DropAt(q)) && r.isLateDrop == IsLate(DropAt(q))
    ensures 0 <= r.advance <= r.finalPayable
    ensures r.finalPayable <= r.referencePrice + FeesTotal(q)
    ensures !q.applyDiscount ==> r.finalPayable == r.referencePrice + FeesTotal(q)
    ensures r.finalPayable == (ChosenRentDeci(q, baseTenths) + 10 * FeesTotal(q)) / 10
    ensures r.advance == r.finalPayable * 4 / 10
    ensures r.discountAmount == (ReferenceDeci(q) - BaseDeci(q, baseTenths)) / 10
    ensures r.earlyLatePickupFee + r.earlyLateDropFee + r.deliveryFee + r.homePickupFee == FeesTotal(q)
  {
    var base := BaseDeci(q, baseTenths);
    var reference := ReferenceDeci(q);
    var pickupAt, dropAt := PickupAt(q), DropAt(q);
    var finalPayable := (ChosenRentDeci(q, baseTenths) + 10 * FeesTotal(q)) / 10;
    Quote(
      referencePrice := ReferencePrice(q),
      basePrice := base / 10,
      discountAmount := (reference - base) / 10,
      discountPercent := if ReferencePrice(q) == 0 then 0 else RoundedPercent(reference - base, reference),
      hasDiscount := HasDiscount(q, baseTenths),
      earlyLatePickupFee := SideFee(pickupAt),
      earlyLateDropFee := SideFee(dropAt),
      isEarlyPickup := IsEarly(pickupAt),
      isLatePickup := IsLate(pickupAt),
      isEarlyDrop := IsEarly(dropAt),
      isLateDrop := IsLate(dropAt),
      deliveryFee := HandoverFee(q.pickupMethod),
      homePickupFee := HandoverFee(q.dropMethod),
      finalPayable := finalPayable,
      advance := finalPayable * 4 / 10,
      security := SecurityDepositAmount)
  }

  /** The full breakdown for one input. */
  function QuoteFor(q: QuoteInput): Quote
  {
    Assemble(q, BaseTenths(PickupAt(q), DropAt(q)))
  }

  /** The quote input for a catalog bike and the form's fields. */
  function InputFor(bike: Bike, form: BookingDetails, applyDiscount: bool): QuoteInput
  {
    QuoteInput(bike.dailyRate, form.fromDay, form.fromTime, form.toDay, form.toTime,
               form.outstation, form.pickupMethod, form.dropMethod, applyDiscount)
  }

  /** `charges`: nothing until the form names a bike of the catalog. */
  function Charges(bikes: seq<Bike>, form: BookingDetails, applyDiscount: bool): (r: Option<Quote>)
    ensures r.None? <==> form.bikeId.None? || forall i :: 0 <= i < |bikes| ==> bikes[i].id != form.bikeId.value
  {
    if form.bikeId.None? then None
    else match FindBike(bikes, form.bikeId.value)
      case None => None
      case Some(bike) => Some(QuoteFor(InputFor(bike, form, applyDiscount)))
  }

  /** `charges` as the form computes it, block walk included. */
  method ComputeCharges(bikes: seq<Bike>, form: BookingDetails, applyDiscount: bool) returns (r: Option<Quote>)
    ensures r == Charges(bikes, form, applyDiscount)
  {
    if form.bikeId.None? {
      return None;
    }
    var found := FindBike(bikes, form.bikeId.value);
    if found.None? {
      return None;
    }
    var q := InputFor(found.value, form, applyDiscount);
    var tenths := BasePrice(PickupAt(q), DropAt(q));
    r := Some(Assemble(q, tenths));
  }

  // ---------------------------------------------------------------------------
  // Properties across inputs

  /** The displayed base price is the floor of the tiered price in rupees. */
  lemma BasePriceOf(q: QuoteInput)
    ensures QuoteFor(q).basePrice == EffectiveRate(q) * BaseTenths(PickupAt(q), DropAt(q)) / 10
  {
  }

  /** For a fixed pickup and rate, the displayed base price never drops as the drop moves later. */
  lemma BasePriceMonotone(q: QuoteInput, toDay: int, toTime: TimeOfDay)
    requires DropAt(q) <= At(toDay, toTime)
    ensures QuoteFor(q).basePrice <= QuoteFor(q.(toDay := toDay, toTime := toTime)).basePrice
  {
    var q' := q.(toDay := toDay, toTime := toTime);
    var t1, t2 := BaseTenths(PickupAt(q), DropAt(q)), BaseTenths(PickupAt(q'), DropAt(q'));
    BaseTenthsMono(PickupAt(q), DropAt(q), DropAt(q'));
    ScaledFloorMono(EffectiveRate(q), t1, t2);
    BasePriceOf(q);
    BasePriceOf(q');
  }

  lemma ScaledFloorMono(r: nat, t1: nat, t2: nat)
    requires t1 <= t2
    ensures r * t1 / 10 <= r * t2 / 10
  {
    ScaleMono(r, t1, t2);
    FloorTenthMono(r * t1, r * t2);
  }

  lemma ScaleMono(r: nat, t1: nat, t2: nat)
    requires t1 <= t2
    ensures r * t1 <= r * t2
  {
    assert r * t2 - r * t1 == r * (t2 - t1);
  }

  lemma FloorTenthMono(a: int, b: int)
    requires a <= b
    ensures a / 10 <= b / 10
  {
  }

  /**
    The tiered price can exceed the flat-day price: pickup at 10:00, drop the
    next day at 20:00 costs 2.2 days against a reference of 2. The discount
    guard then charges the reference price even with the discount applied.
  */
  lemma BaseMayExceedReference(rate: nat)
    requires rate > 0
    ensures var q := QuoteInput(rate, 1, 10 * 60, 2, 20 * 60, false, Garage, Garage, true);
            && BaseTenths(PickupAt(q), DropAt(q)) == 22
            && BaseDeci(q, 22) > ReferenceDeci(q)
            && !QuoteFor(q).hasDiscount
            && QuoteFor(q).finalPayable == QuoteFor(q).referencePrice
  {
    var q := QuoteInput(rate, 1, 10 * 60, 2, 20 * 60, false, Garage, Garage, true);
    var p, d := PickupAt(q), DropAt(q);
    assert p == 1440 + 600 && d == 2880 + 1200;
    assert BlockEnd(2880 + 600) == 2880 + 840;
    assert BlockEnd(2880 + 840) == 2880 + 1200;
    assert BlockCharges(2880 + 1200, d) == 0;
    assert BlockCharges(2880 + 840, d) == 4;
    assert BlockCharges(2880 + 600, d) == 8;
    assert FeesTotal(q) == 0;
  }

  /** Four hours (10:00-14:00) at 1000 a day fall in the first tier: 800. */
  lemma ScenarioFourHours()
    ensures QuoteFor(QuoteInput(1000, 0, 10 * 60, 0, 14 * 60, false, Garage, Garage, true)).basePrice == 800
  {
    var q := QuoteInput(1000, 0, 10 * 60, 0, 14 * 60, false, Garage, Garage, true);
    assert BaseTenths(PickupAt(q), DropAt(q)) == 8;
    BasePriceOf(q);
  }

  /** Ten hours on one day (10:00-20:00) fall in the second tier: 1000. */
  lemma ScenarioSameDayTenHours()
    ensures QuoteFor(QuoteInput(1000, 0, 10 * 60, 0, 20 * 60, false, Garage, Garage, true)).basePrice == 1000
  {
    var q := QuoteInput(1000, 0, 10 * 60, 0, 20 * 60, false, Garage, Garage, true);
    assert BaseTenths(PickupAt(q), DropAt(q)) == 10;
    BasePriceOf(q);
  }

  /** Twenty-four hours across midnight are charged 1.4 days: 1400. */
  lemma ScenarioOvernightDay()
    ensures QuoteFor(QuoteInput(1000, 0, 10 * 60, 1, 10 * 60, false, Garage, Garage, true)).basePrice == 1400
  {
    var q := QuoteInput(1000, 0, 10 * 60, 1, 10 * 60, false, Garage, Garage, true);
    assert BaseTenths(PickupAt(q), DropAt(q)) == 14;
    BasePriceOf(q);
  }

  /** A pickup at 06:00 carries the early fee. */
  lemma ScenarioEarlyPickup()
    ensures QuoteFor(QuoteInput(1000, 0, 6 * 60, 0, 20 * 60, false, Garage, Garage, true)).earlyLatePickupFee == 99
  {
  }

  /**
    Thirty hours (day 0 10:00 to day 1 16:00): the first day is 1.4, the
    morning block 10:00-14:00 is used 240 of 360 minutes and costs 0.4, the
    afternoon block 14:00-16:00 is used 120 minutes, under half, and costs 0.2.
  */
  lemma ScenarioThirtyHours()
    ensures QuoteFor(QuoteInput(1000, 0, 10 * 60, 1, 16 * 60, false, Garage, Garage, true)).basePrice == 2000
  {
    var q := QuoteInput(1000, 0, 10 * 60, 1, 16 * 60, false, Garage, Garage, true);
    assert BlockEnd(1440 + 600) == 1440 + 840;
    assert BlockCharges(1440 + 840, 1440 + 960) == 2;
    assert BlockCharges(1440 + 600, 1440 + 960) == 6;
    assert BaseTenths(PickupAt(q), DropAt(q)) == 20;
    BasePriceOf(q);
  }
}
