/**
  The admin ride ledger: the bookings table seen through a status filter,
  the booking being operated on, its status buttons, and the running
  adjustment an admin settles on it.
*/
module AdminBookings {
  import opened Common
  import opened Records

  datatype LedgerFilter = All | Pending | RunningRides | OverdueRides | CompletedRides

  datatype AdjustmentKind = Fee | Damage | Refund | Discount | Revenue | Expenditure

  /**
    The adjustment form: an amount, a reason and what kind of settlement it is.
    The amount is `None` when the field has been emptied (`parseFloat("")` is NaN).
  */
  datatype AdjustmentForm = AdjustmentForm(amount: Option<int>, reason: string, kind: AdjustmentKind)

  const EmptyAdjustment: AdjustmentForm := AdjustmentForm(Some(0), "", Fee)

  // ---------------------------------------------------------------------------
  // What the ledger lists

  /** Whether a row passes the filter at time `now` (the query's `eq` and the overdue check). */
  predicate Keeps(f: LedgerFilter, b: Booking, now: int)
  {
    match f
    case All => true
    case Pending => b.status == VerifyingPayment
    case RunningRides => b.status == Ongoing
    case OverdueRides => IsOverdue(b, now)
    case CompletedRides => b.status == Completed
  }

  /** `fetchBookings`: the rows of the table the filter keeps, in table order. */
  function Shown(store: seq<Booking>, f: LedgerFilter, now: int): (r: seq<Booking>)
    ensures |r| <= |store|
    ensures forall b :: b in r ==> b in store && Keeps(f, b, now)
  {
    Filter(store, (b: Booking) => Keeps(f, b, now))
  }

  /** A row is listed exactly when it is in the table and passes the filter. */
  lemma ShownIff(store: seq<Booking>, f: LedgerFilter, now: int, b: Booking)
    ensures b in Shown(store, f, now) <==> b in store && Keeps(f, b, now)
  {
    FilterIff(store, (b: Booking) => Keeps(f, b, now), b);
  }

  /** 'all' lists the whole table. */
  lemma ShownAll(store: seq<Booking>, now: int)
    ensures Shown(store, All, now) == store
  {
    FilterAll(store, (b: Booking) => Keeps(All, b, now));
  }

  /** The overdue list never holds more rows than the running list. */
  lemma OverdueWithinRunning(store: seq<Booking>, now: int)
    ensures |Shown(store, OverdueRides, now)| <= |Shown(store, RunningRides, now)|
  {
    var over, run := (b: Booking) => Keeps(OverdueRides, b, now), (b: Booking) => Keeps(RunningRides, b, now);
    FilterLength(store, over);
    FilterLength(store, run);
    CountMono(store, over, run);
  }

  /**
    The net shown for a booking, `total_rent + (adjustment_amount || 0)`:
    JavaScript's `+` counts a `null` rent as 0, so it is the booking's net amount.
  */
  function NetDisplay(b: Booking): (r: int)
    ensures b.adjustmentAmount.None? ==> r == OrZero(b.totalRent)
    ensures b.totalRent.None? ==> r == OrZero(b.adjustmentAmount)
  {
    NetAmount(b)
  }

  // ---------------------------------------------------------------------------
  // Adjustments and status updates

  /** Kinds that add to what the rider owes; the others take the amount off. */
  predicate Charges(k: AdjustmentKind)
  {
    k == Fee || k == Damage || k == Revenue
  }

  /**
    The running adjustment after one more settlement (a missing adjustment
    counts as 0). An emptied amount makes the sum NaN, which the JSON update
    sends as `null`.
  */
  function Adjusted(current: Option<int>, a: AdjustmentForm): (r: Option<int>)
    ensures r.None? <==> a.amount.None?
    ensures a.amount.Some? && Charges(a.kind) ==> r.value - OrZero(current) == a.amount.value
    ensures a.amount.Some? && !Charges(a.kind) ==> OrZero(current) - r.value == a.amount.value
  {
    match a.amount
    case None => None
    case Some(amount) =>
      if a.kind == Fee || a.kind == Damage || a.kind == Revenue then Some(OrZero(current) + amount)
      else Some(OrZero(current) - amount)
  }

  /** A refund, discount or expenditure undoes a fee, damage or revenue entry of the same amount. */
  lemma AdjustmentsCancel(current: Option<int>, amount: int, reason: string, up: AdjustmentKind, down: AdjustmentKind)
    requires Charges(up) && !Charges(down)
    ensures Adjusted(Adjusted(current, AdjustmentForm(Some(amount), reason, up)), AdjustmentForm(Some(amount), reason, down))
            == Some(OrZero(current))
  {
  }

  /**
    The net of a booking moves by exactly the signed settlement amount; an
    emptied amount erases the running adjustment, leaving the rent alone.
  */
  lemma AdjustmentMovesNet(b: Booking, a: AdjustmentForm)
    ensures var b' := b.(adjustmentAmount := Adjusted(b.adjustmentAmount, a));
            && (a.amount.Some? ==> NetAmount(b') == NetAmount(b) + (if Charges(a.kind) then a.amount.value else -a.amount.value))
            && (a.amount.None? ==> NetAmount(b') == OrZero(b.totalRent))
  {
  }

  /** The row updates `updateStatus` writes: the status, and the note only when a reason is given. */
  function WithStatus(b: Booking, status: BookingStatus, reason: Option<string>): (r: Booking)
    ensures r.status == status
    ensures r.adminNotes == if Present(reason) then reason else b.adminNotes
    ensures r.(status := b.status, adminNotes := b.adminNotes) == b
  {
    if Present(reason) then b.(status := status, adminNotes := reason) else b.(status := status)
  }

  /** The row updates `handleAdjustment` writes. */
  function WithAdjustment(b: Booking, amount: Option<int>, reason: string): (r: Booking)
    ensures r.adjustmentAmount == amount && r.adjustmentReason == Some(reason)
    ensures r.(adjustmentAmount := b.adjustmentAmount, adjustmentReason := b.adjustmentReason) == b
  {
    b.(adjustmentAmount := amount, adjustmentReason := Some(reason))
  }

  /** `update(...).eq('id', id)` with the status change. */
  function StatusRows(s: seq<Booking>, id: string, status: BookingStatus, reason: Option<string>): (r: seq<Booking>)
    ensures |r| == |s|
    ensures forall i :: 0 <= i < |s| ==> r[i] == if s[i].id == id then WithStatus(s[i], status, reason) else s[i]
  {
    UpdateWhere(s, (b: Booking) => b.id == id, (b: Booking) => WithStatus(b, status, reason))
  }

  /** `update(...).eq('id', id)` with the settled adjustment. */
  function AdjustmentRows(s: seq<Booking>, id: string, amount: Option<int>, reason: string): (r: seq<Booking>)
    ensures |r| == |s|
    ensures forall i :: 0 <= i < |s| ==> r[i] == if s[i].id == id then WithAdjustment(s[i], amount, reason) else s[i]
  {
    UpdateWhere(s, (b: Booking) => b.id == id, (b: Booking) => WithAdjustment(b, amount, reason))
  }

  /** After a status update every row with that id carries the new status, and the others are untouched. */
  lemma StatusRowsFound(s: seq<Booking>, id: string, status: BookingStatus, reason: Option<string>)
    ensures var r := StatusRows(s, id, status, reason);
            && (RowWithId(r, id).Some? <==> RowWithId(s, id).Some?)
            && (RowWithId(r, id).Some? ==> RowWithId(r, id).value.status == status)
  {
    var r := StatusRows(s, id, status, reason);
    if RowWithId(s, id).Some? {
      var i :| 0 <= i < |s| && s[i] == RowWithId(s, id).value;
      assert r[i].id == id;
    }
    if RowWithId(r, id).Some? {
      var i :| 0 <= i < |r| && r[i] == RowWithId(r, id).value;
      assert s[i].id == id;
    }
  }

  class Ledger {
    /** The bookings table. */
    var store: seq<Booking>
    var filter: LedgerFilter
    var selected: Option<Booking>
    var adjustment: AdjustmentForm

    constructor(store: seq<Booking>, initialFilter: LedgerFilter)
      ensures this.store == store && filter == initialFilter
      ensures selected.None? && adjustment == EmptyAdjustment
    {
      this.store := store;
      filter := initialFilter;
      selected := None;
      adjustment := EmptyAdjustment;
    }

    /** The rows listed at time `now`. */
    function Listed(now: int): seq<Booking>
      reads this
    {
      Shown(store, filter, now)
    }

    method SetFilter(f: LedgerFilter)
      modifies this
      ensures filter == f
      ensures store == old(store) && selected == old(selected) && adjustment == old(adjustment)
    {
      filter := f;
    }

    /** "Operate": open a listed booking. */
    method Select(b: Booking)
      modifies this
      ensures selected == Some(b)
      ensures store == old(store) && filter == old(filter) && adjustment == old(adjustment)
    {
      selected := Some(b);
    }

    /** The amount, reason and kind inputs. */
    method EditAdjustment(a: AdjustmentForm)
      modifies this
      ensures adjustment == a
      ensures store == old(store) && filter == old(filter) && selected == old(selected)
    {
      adjustment := a;
    }

    /**
      `updateStatus`: the rows with that id take the status (and the reason as
      the admin note when one is given); an open booking with that id is
      reread from the table.
    */
    method UpdateStatus(id: string, status: BookingStatus, reason: Option<string>, writeOk: bool)
      modifies this
      ensures !writeOk ==> store == old(store) && selected == old(selected)
      ensures writeOk ==>
                && store == StatusRows(old(store), id, status, reason)
                && selected == (if old(selected).Some? && old(selected).value.id == id
                                then RowWithId(store, id) else old(selected))
      ensures filter == old(filter) && adjustment == old(adjustment)
    {
      if !writeOk {
        return;
      }
      store := StatusRows(store, id, status, reason);
      if selected.Some? && selected.value.id == id {
        selected := RowWithId(store, id);
      }
    }

    /** "Confirm Payment" (disabled once confirmed). */
    method ConfirmPayment(writeOk: bool)
      requires selected.Some? && selected.value.status != BookingConfirmed
      modifies this
      ensures writeOk && RowWithId(old(store), old(selected).value.id).Some? ==>
                selected.Some? && selected.value.status == BookingConfirmed
      ensures writeOk ==> store == StatusRows(old(store), old(selected).value.id, BookingConfirmed, None)
      ensures !writeOk ==> store == old(store) && selected == old(selected)
      ensures filter == old(filter) && adjustment == old(adjustment)
    {
      UpdateStatus(selected.value.id, BookingConfirmed, None, writeOk);
    }

    /** "Reject Verification": back to awaiting payment, noted as rejected. */
    method RejectPayment(writeOk: bool)
      requires selected.Some?
      modifies this
      ensures writeOk && RowWithId(old(store), old(selected).value.id).Some? ==>
                selected.Some? && selected.value.status == PendingPayment
                && selected.value.adminNotes == Some("Rejected")
      ensures writeOk ==> store == StatusRows(old(store), old(selected).value.id, PendingPayment, Some("Rejected"))
      ensures !writeOk ==> store == old(store) && selected == old(selected)
      ensures filter == old(filter) && adjustment == old(adjustment)
    {
      UpdateStatus(selected.value.id, PendingPayment, Some("Rejected"), writeOk);
    }

    /** "Dispatch / Start". */
    method Dispatch(writeOk: bool)
      requires selected.Some?
      modifies this
      ensures writeOk && RowWithId(old(store), old(selected).value.id).Some? ==>
                selected.Some? && selected.value.status == Ongoing
      ensures writeOk ==> store == StatusRows(old(store), old(selected).value.id, Ongoing, None)
      ensures !writeOk ==> store == old(store) && selected == old(selected)
      ensures filter == old(filter) && adjustment == old(adjustment)
    {
      UpdateStatus(selected.value.id, Ongoing, None, writeOk);
    }

    /** "Receive / Finish". */
    method ReceiveBack(writeOk: bool)
      requires selected.Some?
      modifies this
      ensures writeOk && RowWithId(old(store), old(selected).value.id).Some? ==>
                selected.Some? && selected.value.status == Completed
      ensures writeOk ==> store == StatusRows(old(store), old(selected).value.id, Completed, None)
      ensures !writeOk ==> store == old(store) && selected == old(selected)
      ensures filter == old(filter) && adjustment == old(adjustment)
    {
      UpdateStatus(selected.value.id, Completed, None, writeOk);
    }

    /**
      `handleAdjustment`: refused without an open booking or a reason. Otherwise
      the open booking's adjustment (as last read) moves by the signed amount
      and the reason is recorded; on success the booking is reread and the form
      is cleared.
    */
    method HandleAdjustment(writeOk: bool) returns (applied: bool)
      modifies this
      ensures applied <==> old(selected).Some? && old(adjustment).reason != "" && writeOk
      ensures !applied ==> store == old(store) && selected == old(selected) && adjustment == old(adjustment)
      ensures applied ==>
                var id := old(selected).value.id;
                var amount := Adjusted(old(selected).value.adjustmentAmount, old(adjustment));
                && store == AdjustmentRows(old(store), id, amount, old(adjustment).reason)
                && selected == RowWithId(store, id)
                && adjustment == EmptyAdjustment
      ensures filter == old(filter)
    {
      if selected.None? || adjustment.reason == "" {
        return false;
      }
      if !writeOk {
        return false;
      }
      var id := selected.value.id;
      var amount := Adjusted(selected.value.adjustmentAmount, adjustment);
      store := AdjustmentRows(store, id, amount, adjustment.reason);
      selected := RowWithId(store, id);
      adjustment := EmptyAdjustment;
      return true;
    }
  }
}
