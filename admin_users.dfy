/**
  The admin rider registry: the search over profiles, the audit of one
  rider's bookings, and the block and whitelist switches.
*/
module AdminUsers {
  import opened Common
  import opened Records

  // ---------------------------------------------------------------------------
  // Search

  /** `field?.toLowerCase().includes(search)`: a missing field never matches. */
  predicate FieldMatches(field: Option<string>, search: string)
  {
    field.Some? && Includes(Lower(field.value), Lower(search))
  }

  /** `filteredUsers`' predicate: the name, email, WhatsApp number or phone contains the search text. */
  predicate UserMatches(u: Profile, search: string)
  {
    FieldMatches(u.fullName, search) || FieldMatches(u.email, search)
    || FieldMatches(u.whatsapp, search) || FieldMatches(u.phone, search)
  }

  function FilteredUsers(users: seq<Profile>, search: string): (r: seq<Profile>)
    ensures |r| <= |users|
  {
    Filter(users, (u: Profile) => UserMatches(u, search))
  }

  /** A rider is listed exactly when one of the four fields holds the search text, case-insensitively. */
  lemma FilteredUsersIff(users: seq<Profile>, search: string, u: Profile)
    ensures u in FilteredUsers(users, search) <==>
              u in users &&
              exists f :: f in [u.fullName, u.email, u.whatsapp, u.phone] && f.Some?
                          && exists i :: OccursAt(Lower(f.value), Lower(search), i)
  {
    FilterIff(users, (u: Profile) => UserMatches(u, search), u);
    var fields := [u.fullName, u.email, u.whatsapp, u.phone];
    forall f | f in fields && f.Some?
      ensures FieldMatches(f, search) <==> exists i :: OccursAt(Lower(f.value), Lower(search), i)
    {
      IncludesIff(Lower(f.value), Lower(search));
    }
    if UserMatches(u, search) {
      var f :| f in fields && FieldMatches(f, search);
    }
  }

  /** With an empty search a rider is listed exactly when one of the four fields is not null. */
  lemma EmptySearchKeepsNonNull(users: seq<Profile>, u: Profile)
    ensures u in FilteredUsers(users, "") <==>
              u in users && (u.fullName.Some? || u.email.Some? || u.whatsapp.Some? || u.phone.Some?)
  {
    FilterIff(users, (u: Profile) => UserMatches(u, ""), u);
    assert Lower("") == "";
    forall f: Option<string> | f.Some?
      ensures FieldMatches(f, "")
    {
      assert Lower(f.value)[..0] == "";
    }
  }

  // ---------------------------------------------------------------------------
  // Audit

  /** The audit card: rides, penalties, total spent and the most recent booking time. */
  datatype Audit = Audit(rideCount: nat, penalties: nat, totalSpent: int, lastRide: Option<int>)

  /** `adjustment_amount > 0` (`null > 0` is false). */
  predicate IsPenalty(b: Booking)
  {
    b.adjustmentAmount.Some? && b.adjustmentAmount.value > 0
  }

  /** The rider's bookings, as the audit's query selects them. */
  function RidesOf(store: seq<Booking>, userId: string): (r: seq<Booking>)
    ensures forall b :: b in r <==> b in store && b.userId == Some(userId)
  {
    var p := (b: Booking) => b.userId == Some(userId);
    assert forall b :: b in Filter(store, p) <==> b in store && p(b) by {
      forall b {
        FilterIff(store, p, b);
      }
    }
    Filter(store, p)
  }

  /** `fetchUserAudit`'s figures over the rides in the order they were fetched. */
  function AuditOf(rides: seq<Booking>): (a: Audit)
    ensures a.rideCount == |rides| && a.penalties <= a.rideCount
    ensures a.penalties == Count(rides, IsPenalty)
    ensures a.lastRide.None? <==> rides == []
    ensures rides != [] ==> a.lastRide == Some(rides[0].createdAt)
  {
    Audit(|rides|, Count(rides, IsPenalty), Sum(rides, NetAmount),
          if rides == [] then None else Some(rides[0].createdAt))
  }

  /** Total spent is the rent taken plus every adjustment. */
  lemma TotalSpentSplits(rides: seq<Booking>)
    ensures AuditOf(rides).totalSpent
            == Sum(rides, (b: Booking) => OrZero(b.totalRent)) + Sum(rides, (b: Booking) => OrZero(b.adjustmentAmount))
  {
    SumSplit(rides, (b: Booking) => OrZero(b.totalRent), (b: Booking) => OrZero(b.adjustmentAmount), NetAmount);
  }

  /** Fetched newest first, the last ride shown is the most recent booking. */
  lemma LastRideIsLatest(rides: seq<Booking>)
    requires forall i, j :: 0 <= i < j < |rides| ==> rides[i].createdAt >= rides[j].createdAt
    ensures forall b :: b in rides ==> b.createdAt <= AuditOf(rides).lastRide.value
    ensures rides != [] ==> exists b :: b in rides && AuditOf(rides).lastRide == Some(b.createdAt)
  {
    if rides != [] {
      assert rides[0] in rides;
    }
    forall b | b in rides
      ensures b.createdAt <= rides[0].createdAt
    {
      var j :| 0 <= j < |rides| && rides[j] == b;
      if j > 0 {
        assert rides[0].createdAt >= rides[j].createdAt;
      }
    }
  }

  // ---------------------------------------------------------------------------
  // Block and whitelist switches

  /** The list of profiles and the rider open in the audit card. */
  datatype RegistryView = RegistryView(users: seq<Profile>, selected: Option<Profile>)

  /** The audit card shows the stored flags of the rider it is open on. */
  predicate Consistent(v: RegistryView)
  {
    v.selected.Some? ==>
      forall i :: 0 <= i < |v.users| && v.users[i].id == v.selected.value.id ==>
        v.users[i].isBlocked == v.selected.value.isBlocked && v.users[i].isVerified == v.selected.value.isVerified
  }

  /** `toggleBlock(userId, isBlocked)`: stores the negation and updates the open card. */
  function BlockStep(v: RegistryView, userId: string, isBlocked: bool): (r: RegistryView)
    ensures |r.users| == |v.users|
    ensures forall i :: 0 <= i < |v.users| ==>
              r.users[i] == if v.users[i].id == userId then v.users[i].(isBlocked := !isBlocked) else v.users[i]
  {
    RegistryView(
      UpdateWhere(v.users, (u: Profile) => u.id == userId, (u: Profile) => u.(isBlocked := !isBlocked)),
      if v.selected.Some? && v.selected.value.id == userId then Some(v.selected.value.(isBlocked := !isBlocked))
      else v.selected)
  }

  /** `toggleVerify(userId, isVerified)` as written: stores the negation, leaves the open card as it was. */
  function VerifyStep(v: RegistryView, userId: string, isVerified: bool): (r: RegistryView)
    ensures r.selected == v.selected && |r.users| == |v.users|
    ensures forall i :: 0 <= i < |v.users| ==>
              r.users[i] == if v.users[i].id == userId then v.users[i].(isVerified := !isVerified) else v.users[i]
  {
    RegistryView(
      UpdateWhere(v.users, (u: Profile) => u.id == userId, (u: Profile) => u.(isVerified := !isVerified)),
      v.selected)
  }

  /** `toggleVerify` updating the open card the way `toggleBlock` does. */
  function VerifyStepCorrected(v: RegistryView, userId: string, isVerified: bool): (r: RegistryView)
    ensures |r.users| == |v.users|
    ensures forall i :: 0 <= i < |v.users| ==>
              r.users[i] == if v.users[i].id == userId then v.users[i].(isVerified := !isVerified) else v.users[i]
  {
    RegistryView(
      VerifyStep(v, userId, isVerified).users,
      if v.selected.Some? && v.selected.value.id == userId then Some(v.selected.value.(isVerified := !isVerified))
      else v.selected)
  }

  /** Pressing the card's block button keeps the card in step with the list, and twice restores every flag. */
  lemma BlockFromCard(v: RegistryView)
    requires Consistent(v) && v.selected.Some?
    ensures var id := v.selected.value.id;
            var v1 := BlockStep(v, id, v.selected.value.isBlocked);
            && Consistent(v1)
            && (forall i :: 0 <= i < |v.users| && v.users[i].id == id ==>
                  v1.users[i].isBlocked == !v.users[i].isBlocked)
            && BlockStep(v1, id, v1.selected.value.isBlocked) == v
  {
    var id := v.selected.value.id;
    var v1 := BlockStep(v, id, v.selected.value.isBlocked);
    var v2 := BlockStep(v1, id, v1.selected.value.isBlocked);
    assert v2.users == v.users by {
      forall i | 0 <= i < |v.users|
        ensures v2.users[i] == v.users[i]
      {
      }
    }
  }

  /**
    As written, the card's whitelist button goes stale: after whitelisting
    an unverified rider the card still shows the rider unverified, so a
    second press whitelists the rider again instead of revoking.
  */
  lemma VerifyFromCardGoesStale()
    ensures var p := Profile("rider", None, None, None, None, None, None, None, None, false, false);
            var v := RegistryView([p], Some(p));
            var v1 := VerifyStep(v, "rider", v.selected.value.isVerified);
            var v2 := VerifyStep(v1, "rider", v1.selected.value.isVerified);
            && Consistent(v) && !Consistent(v1)
            && v1.users[0].isVerified && v2.users[0].isVerified
  {
    var p := Profile("rider", None, None, None, None, None, None, None, None, false, false);
    var v := RegistryView([p], Some(p));
    var v1 := VerifyStep(v, "rider", false);
    assert v1.users[0] == p.(isVerified := true);
    var v2 := VerifyStep(v1, "rider", false);
    assert v2.users[0] == p.(isVerified := true);
  }

  /** Corrected, the whitelist button behaves like the block button. */
  lemma VerifyFromCardCorrected(v: RegistryView)
    requires Consistent(v) && v.selected.Some?
    ensures var id := v.selected.value.id;
            var v1 := VerifyStepCorrected(v, id, v.selected.value.isVerified);
            && Consistent(v1)
            && (forall i :: 0 <= i < |v.users| && v.users[i].id == id ==>
                  v1.users[i].isVerified == !v.users[i].isVerified)
            && VerifyStepCorrected(v1, id, v1.selected.value.isVerified) == v
  {
    var id := v.selected.value.id;
    var v1 := VerifyStepCorrected(v, id, v.selected.value.isVerified);
    var v2 := VerifyStepCorrected(v1, id, v1.selected.value.isVerified);
    assert v2.users == v.users by {
      forall i | 0 <= i < |v.users|
        ensures v2.users[i] == v.users[i]
      {
      }
    }
  }

  class Registry {
    var users: seq<Profile>
    var selected: Option<Profile>
    var audit: Option<Audit>

    function View(): RegistryView
      reads this
    {
      RegistryView(users, selected)
    }

    constructor(users: seq<Profile>)
      ensures this.users == users && selected.None? && audit.None?
    {
      this.users := users;
      selected := None;
      audit := None;
    }

    /** `fetchUserAudit`: opens the card on a rider with the figures of that rider's bookings in the table. */
    method FetchUserAudit(u: Profile, bookings: seq<Booking>)
      modifies this
      ensures selected == Some(u) && audit == Some(AuditOf(RidesOf(bookings, u.id))) && users == old(users)
    {
      selected := Some(u);
      audit := Some(AuditOf(RidesOf(bookings, u.id)));
    }

    method CloseAudit()
      modifies this
      ensures selected.None? && users == old(users) && audit == old(audit)
    {
      selected := None;
    }

    /** `toggleBlock`: on a successful write the flag is negated in the list and on the open card. */
    method ToggleBlock(userId: string, isBlocked: bool, writeOk: bool)
      modifies this
      ensures View() == if writeOk then BlockStep(old(View()), userId, isBlocked) else old(View())
      ensures audit == old(audit)
    {
      if writeOk {
        var v := BlockStep(View(), userId, isBlocked);
        users, selected := v.users, v.selected;
      }
    }

    /** `toggleVerify`: on a successful write the flag is negated in the list only. */
    method ToggleVerify(userId: string, isVerified: bool, writeOk: bool)
      modifies this
      ensures View() == if writeOk then VerifyStep(old(View()), userId, isVerified) else old(View())
      ensures audit == old(audit)
    {
      if writeOk {
        users := VerifyStep(View(), userId, isVerified).users;
      }
    }
  }
}
