/**
  The booking form's state: the step it shows, the form's fields, the terms
  and discount toggles, and what it has stored in the bookings table, keyed by
  the readable booking id (`upsert(..., { onConflict: 'readable_id' })`).
*/
module BookingForm {
  import opened Common
  import opened Clock
  import opened Records
  import opened Pricing

  datatype Step = Selection | Details | Payment

  /** The row the form upserts into the bookings table. */
  datatype Payload = Payload(
    readableId: string,
    userId: Option<string>,
    bikeId: Option<int>,
    customerName: string,
    customerPhone: string,
    customerEmail: string,
    pickupDay: int, pickupTime: TimeOfDay,
    returnDay: int, returnTime: TimeOfDay,
    totalRent: Option<int>,
    advanceAmount: Option<int>,
    securityDeposit: Option<int>,
    address: string,
    status: BookingStatus)

  /** Why `handleSubmitRequest` stopped, or that it stored the booking. */
  datatype Outcome =
    | TermsNotAccepted
    | OutsideHours
    | DropNotAfterPickup
    | AddressMissing
    | StoreFailed
    | Submitted

  /** The shop's hours, 06:00 to 22:00 inclusive ("HH:MM" strings compare like minutes). */
  predicate WithinHours(t: TimeOfDay)
  {
    6 * 60 <= t <= 22 * 60
  }

  predicate NeedsAddress(f: BookingDetails)
  {
    f.pickupMethod == Home || f.dropMethod == Home
  }

  /** The submission guards, in the order the form checks them; `None` when all pass. */
  function SubmitGuard(f: BookingDetails, acceptedTerms: bool): (r: Option<Outcome>)
    ensures r.None? <==>
      acceptedTerms && WithinHours(f.fromTime) && WithinHours(f.toTime)
      && At(f.fromDay, f.fromTime) < At(f.toDay, f.toTime)
      && !(NeedsAddress(f) && IsBlank(f.address))
    ensures r.Some? ==> r.value in {TermsNotAccepted, OutsideHours, DropNotAfterPickup, AddressMissing}
    ensures r == Some(TermsNotAccepted) <==> !acceptedTerms
    ensures r == Some(AddressMissing) ==> At(f.fromDay, f.fromTime) < At(f.toDay, f.toTime)
  {
    if !acceptedTerms then Some(TermsNotAccepted)
    else if f.fromTime < 6 * 60 || f.fromTime > 22 * 60 || f.toTime < 6 * 60 || f.toTime > 22 * 60 then Some(OutsideHours)
    else if At(f.toDay, f.toTime) <= At(f.fromDay, f.fromTime) then Some(DropNotAfterPickup)
    else if NeedsAddress(f) && IsBlank(f.address) then Some(AddressMissing)
    else None
  }

  /** The payload built from the form and its current charges. */
  function PayloadFor(f: BookingDetails, bookingId: string, userId: Option<string>, charges: Option<Quote>): Payload
  {
    Payload(
      readableId := bookingId,
      userId := userId,
      bikeId := f.bikeId,
      customerName := f.name,
      customerPhone := f.whatsapp,
      customerEmail := f.email,
      pickupDay := f.fromDay, pickupTime := f.fromTime,
      returnDay := f.toDay, returnTime := f.toTime,
      totalRent := if charges.Some? then Some(charges.value.finalPayable) else None,
      advanceAmount := if charges.Some? then Some(charges.value.advance) else None,
      securityDeposit := if charges.Some? then Some(charges.value.security) else None,
      address := f.address,
      status := PendingPayment)
  }

  /** What every stored submission satisfies. */
  predicate WellFormed(p: Payload)
  {
    && WithinHours(p.pickupTime) && WithinHours(p.returnTime)
    && At(p.pickupDay, p.pickupTime) < At(p.returnDay, p.returnTime)
    && p.status == PendingPayment
    && (p.totalRent.Some? <==> p.advanceAmount.Some?)
    && (p.advanceAmount.Some? ==> 0 <= p.advanceAmount.value <= p.totalRent.value)
    && (p.securityDeposit.Some? ==> p.securityDeposit.value == SecurityDepositAmount)
  }

  /**
    A payload that passed the guards is well formed, and it carries the
    quote's payable amount as the rent and its advance.
  */
  lemma SubmittedPayloadFacts(bikes: seq<Bike>, f: BookingDetails, applyDiscount: bool, acceptedTerms: bool,
                              bookingId: string, userId: Option<string>)
    requires SubmitGuard(f, acceptedTerms).None?
    ensures var c := Charges(bikes, f, applyDiscount);
            var p := PayloadFor(f, bookingId, userId, c);
            && WellFormed(p)
            && p.readableId == bookingId
            && (c.Some? ==> p.totalRent == Some(c.value.finalPayable) && p.advanceAmount == Some(c.value.advance))
            && (c.None? ==> p.totalRent.None?)
  {
  }

  class Form {
    const catalog: seq<Bike>
    var step: Step
    var form: BookingDetails
    var acceptedTerms: bool
    var applyDiscount: bool
    var bookingId: string
    var userId: Option<string>
    /** The bookings table as far as this form writes it, by readable id. */
    var submissions: map<string, Payload>

    /** Past the machine step a machine has been chosen; every stored row is well formed. */
    predicate Valid()
      reads this
    {
      && (step != Selection ==> form.bikeId.Some?)
      && (forall k :: k in submissions ==> WellFormed(submissions[k]))
    }

    /** The breakdown shown for the current form. */
    function CurrentCharges(): (r: Option<Quote>)
      reads this
      ensures r.Some? ==> form.bikeId.Some?
    {
      Charges(catalog, form, applyDiscount)
    }

    /**
      A fresh form: the machine step, or the details step when the link names
      a machine; 10:00 to 20:00 on `today`, garage handover, discount on.
    */
    constructor(catalog: seq<Bike>, bookingId: string, today: int, linkedBike: Option<int>)
      ensures Valid()
      ensures this.catalog == catalog && this.bookingId == bookingId
      ensures step == (if linkedBike.Some? then Details else Selection)
      ensures form == BookingDetails(linkedBike, today, 10 * 60, today, 20 * 60, false, "", "", "", "", "",
                                     Garage, Garage)
      ensures applyDiscount && !acceptedTerms && userId.None? && submissions == map[]
    {
      this.catalog := catalog;
      this.bookingId := bookingId;
      step := if linkedBike.Some? then Details else Selection;
      form := BookingDetails(linkedBike, today, 10 * 60, today, 20 * 60, false, "", "", "", "", "",
                             Garage, Garage);
      acceptedTerms := false;
      applyDiscount := true;
      userId := None;
      submissions := map[];
    }

    /** `handleBikeSelection`: a booked machine is refused; any other id is taken. */
    method HandleBikeSelection(id: int)
      requires Valid()
      modifies this
      ensures Valid()
      ensures var found := FindBike(catalog, id);
              if found.Some? && found.value.status == Booked then
                step == old(step) && form == old(form)
              else
                step == Details && form == old(form).(bikeId := Some(id))
      ensures acceptedTerms == old(acceptedTerms) && applyDiscount == old(applyDiscount)
      ensures bookingId == old(bookingId) && userId == old(userId) && submissions == old(submissions)
    {
      var found := FindBike(catalog, id);
      if found.Some? && found.value.status == Booked {
        return;
      }
      form := form.(bikeId := Some(id));
      step := Details;
    }

    /** `handleStepClick`: details and payment need a chosen machine. */
    method HandleStepClick(newStep: Step)
      requires Valid()
      modifies this
      ensures Valid()
      ensures step == (if newStep != Selection && form.bikeId.None? then old(step) else newStep)
      ensures form == old(form) && acceptedTerms == old(acceptedTerms) && applyDiscount == old(applyDiscount)
      ensures bookingId == old(bookingId) && userId == old(userId) && submissions == old(submissions)
    {
      if newStep != Selection && form.bikeId.None? {
        return;
      }
      step := newStep;
    }

    /** `handlePreviousStep`: one step back; the machine step stays where it is. */
    method HandlePreviousStep()
      requires Valid()
      modifies this
      ensures Valid()
      ensures step == match old(step) case Details => Selection case Payment => Details case Selection => Selection
      ensures form == old(form) && acceptedTerms == old(acceptedTerms) && applyDiscount == old(applyDiscount)
      ensures bookingId == old(bookingId) && userId == old(userId) && submissions == old(submissions)
    {
      if step == Details {
        step := Selection;
      } else if step == Payment {
        step := Details;
      }
    }

    /** `handleBookNewRide`: back to the machine step with no machine, garage handover, in town. */
    method HandleBookNewRide()
      requires Valid()
      modifies this
      ensures Valid()
      ensures step == Selection
      ensures form == old(form).(bikeId := None, pickupMethod := Garage, dropMethod := Garage, outstation := false)
      ensures acceptedTerms == old(acceptedTerms) && applyDiscount == old(applyDiscount)
      ensures bookingId == old(bookingId) && userId == old(userId) && submissions == old(submissions)
    {
      step := Selection;
      form := form.(bikeId := None, pickupMethod := Garage, dropMethod := Garage, outstation := false);
    }

    /** The inputs of the details step: every field but the machine. */
    method EditDetails(d: BookingDetails)
      requires Valid()
      modifies this
      ensures Valid()
      ensures form == d.(bikeId := old(form).bikeId) && step == old(step)
      ensures acceptedTerms == old(acceptedTerms) && applyDiscount == old(applyDiscount)
      ensures bookingId == old(bookingId) && userId == old(userId) && submissions == old(submissions)
    {
      form := d.(bikeId := form.bikeId);
    }

    /** The discount switch. */
    method ToggleDiscount()
      requires Valid()
      modifies this
      ensures Valid()
      ensures applyDiscount == !old(applyDiscount)
      ensures step == old(step) && form == old(form) && acceptedTerms == old(acceptedTerms)
      ensures bookingId == old(bookingId) && userId == old(userId) && submissions == old(submissions)
    {
      applyDiscount := !applyDiscount;
    }

    /** The terms checkbox. */
    method SetAcceptedTerms(accepted: bool)
      requires Valid()
      modifies this
      ensures Valid()
      ensures acceptedTerms == accepted
      ensures step == old(step) && form == old(form) && applyDiscount == old(applyDiscount)
      ensures bookingId == old(bookingId) && userId == old(userId) && submissions == old(submissions)
    {
      acceptedTerms := accepted;
    }

    /**
      `handleSubmitRequest`, bound to the details step's form. Refused without
      any change unless every guard passes; then the payload is upserted under
      the readable id and, if the store accepts it, the form moves to payment.
    */
    method HandleSubmitRequest(writeOk: bool) returns (outcome: Outcome)
      requires Valid() && step == Details
      modifies this
      ensures Valid()
      ensures SubmitGuard(old(form), old(acceptedTerms)).Some? ==>
                outcome == SubmitGuard(old(form), old(acceptedTerms)).value
                && step == old(step) && submissions == old(submissions)
      ensures SubmitGuard(old(form), old(acceptedTerms)).None? && !writeOk ==>
                outcome == StoreFailed && step == old(step) && submissions == old(submissions)
      ensures SubmitGuard(old(form), old(acceptedTerms)).None? && writeOk ==>
                outcome == Submitted && step == Payment
                && submissions == old(submissions)[bookingId := PayloadFor(form, bookingId, userId, CurrentCharges())]
      ensures form == old(form) && acceptedTerms == old(acceptedTerms) && applyDiscount == old(applyDiscount)
      ensures bookingId == old(bookingId) && userId == old(userId)
    {
      var refusal := SubmitGuard(form, acceptedTerms);
      if refusal.Some? {
        return refusal.value;
      }
      if !writeOk {
        return StoreFailed;
      }
      SubmittedPayloadFacts(catalog, form, applyDiscount, acceptedTerms, bookingId, userId);
      submissions := submissions[bookingId := PayloadFor(form, bookingId, userId, CurrentCharges())];
      step := Payment;
      return Submitted;
    }
  }

  /** A home-handover address made only of no-break spaces is blank, as `trim` sees it, and is refused. */
  lemma NoBreakSpaceAddressRefused(f: BookingDetails)
    requires NeedsAddress(f) && f.address == "\U{00A0}\U{00A0}"
    requires WithinHours(f.fromTime) && WithinHours(f.toTime) && At(f.fromDay, f.fromTime) < At(f.toDay, f.toTime)
    ensures SubmitGuard(f, true) == Some(AddressMissing)
  {
  }

  /**
    Which refusal is reported depends on the order of the checks: the hours are
    checked only once the terms are accepted, and the drop-after-pickup check
    only once the hours are within the day.
  */
  lemma SubmitGuardOrder(f: BookingDetails, acceptedTerms: bool)
    ensures SubmitGuard(f, acceptedTerms) == Some(OutsideHours) <==>
              acceptedTerms && !(WithinHours(f.fromTime) && WithinHours(f.toTime))
    ensures SubmitGuard(f, acceptedTerms) == Some(DropNotAfterPickup) <==>
              acceptedTerms && WithinHours(f.fromTime) && WithinHours(f.toTime)
              && At(f.toDay, f.toTime) <= At(f.fromDay, f.fromTime)
  {
  }
}
