/**
  The rider's dashboard: their bookings and profile, the set of bookings whose
  rental agreement was signed in this session, and the handlers that move a
  booking through payment, signing, the start and the end of the ride.
*/
module MyBookings {
  import opened Common
  import opened Records

  datatype Tab = Rides | Identity | ProfileTab

  datatype DocKind = DrivingLicence | Aadhaar | PaymentProof

  /** What the rides list offers for one booking. */
  datatype Action = UploadScreenshot | PaidCash | SignAgreement | StartRide | FinishRide | Documents

  // ---------------------------------------------------------------------------
  // Guards and what the list offers

  /** "Identity Verified": both document photos and both document numbers are present. */
  predicate IdentityVerified(p: Option<Profile>)
  {
    p.Some? && Present(p.value.dlUrl) && Present(p.value.aadhaarUrl)
    && Present(p.value.dlNumber) && Present(p.value.aadhaarNumber)
  }

  /** Signing needs the two document numbers, not the photos. */
  predicate CanSign(p: Option<Profile>)
  {
    p.Some? && Present(p.value.dlNumber) && Present(p.value.aadhaarNumber)
  }

  /** `isSigned`: signed in this session, or already on the road or back. */
  predicate IsSigned(signed: set<string>, b: Booking)
  {
    b.id in signed || b.status == Ongoing || b.status == Completed
  }

  /** The buttons shown for a booking with the given status and signed flag. */
  function Actions(status: BookingStatus, isSigned: bool): (r: set<Action>)
    ensures UploadScreenshot in r <==> status == PendingPayment
    ensures PaidCash in r <==> status == PendingPayment
    ensures SignAgreement in r <==> status == BookingConfirmed && !isSigned
    ensures StartRide in r <==> status == BookingConfirmed && isSigned
    ensures FinishRide in r <==> status == Ongoing
    ensures Documents in r <==> status == Completed || status == Ongoing || isSigned
  {
    (if status == PendingPayment then {UploadScreenshot, PaidCash} else {})
    + (if status == BookingConfirmed && !isSigned then {SignAgreement} else {})
    + (if status == BookingConfirmed && isSigned then {StartRide} else {})
    + (if status == Ongoing then {FinishRide} else {})
    + (if status == Completed || status == Ongoing || isSigned then {Documents} else {})
  }

  /** Payment, signing, starting and finishing are each offered in exactly one status, never two at once. */
  lemma ActionsExclusive(signed: set<string>, b: Booking)
    ensures var r := Actions(b.status, IsSigned(signed, b));
            && !(PaidCash in r && (SignAgreement in r || StartRide in r || FinishRide in r))
            && !(SignAgreement in r && StartRide in r)
            && !(StartRide in r && FinishRide in r)
            && (StartRide in r ==> b.id in signed)
            && (FinishRide in r ==> Documents in r)
  {
  }

  // ---------------------------------------------------------------------------
  // Row updates the handlers write

  /** "Paid cash": every row with that readable id awaits verification of a cash payment. */
  function MarkPaidCash(s: seq<Booking>, readableId: string): (r: seq<Booking>)
    ensures |r| == |s|
    ensures forall i :: 0 <= i < |s| ==>
              r[i] == if s[i].readableId == readableId
                      then s[i].(status := VerifyingPayment, paymentMethod := Some("cash"))
                      else s[i]
  {
    UpdateWhere(s, (b: Booking) => b.readableId == readableId,
                (b: Booking) => b.(status := VerifyingPayment, paymentMethod := Some("cash")))
  }

  /** A payment screenshot: every row with that readable id stores it and awaits verification. */
  function MarkScreenshot(s: seq<Booking>, readableId: string, url: string): (r: seq<Booking>)
    ensures |r| == |s|
    ensures forall i :: 0 <= i < |s| ==>
              r[i] == if s[i].readableId == readableId
                      then s[i].(status := VerifyingPayment, paymentScreenshotUrl := Some(url))
                      else s[i]
  {
    UpdateWhere(s, (b: Booking) => b.readableId == readableId,
                (b: Booking) => b.(status := VerifyingPayment, paymentScreenshotUrl := Some(url)))
  }

  /** Starting a ride: the row with that id is on the road from `now`. */
  function MarkStarted(s: seq<Booking>, id: string, now: int): (r: seq<Booking>)
    ensures |r| == |s|
    ensures forall i :: 0 <= i < |s| ==>
              r[i] == if s[i].id == id then s[i].(status := Ongoing, startTimestamp := Some(now)) else s[i]
  {
    UpdateWhere(s, (b: Booking) => b.id == id, (b: Booking) => b.(status := Ongoing, startTimestamp := Some(now)))
  }

  /** Finishing a ride: the row with that id is completed at `now`. */
  function MarkFinished(s: seq<Booking>, id: string, now: int): (r: seq<Booking>)
    ensures |r| == |s|
    ensures forall i :: 0 <= i < |s| ==>
              r[i] == if s[i].id == id then s[i].(status := Completed, endTimestamp := Some(now)) else s[i]
  {
    UpdateWhere(s, (b: Booking) => b.id == id, (b: Booking) => b.(status := Completed, endTimestamp := Some(now)))
  }

  /** A booking signed, started or finished stays signed, whatever the other handlers do to the signed set. */
  lemma SignedIsKept(signed: set<string>, signed': set<string>, b: Booking, now: int)
    requires signed <= signed' && IsSigned(signed, b)
    ensures IsSigned(signed', b)
    ensures IsSigned(signed', b.(status := Ongoing, startTimestamp := Some(now)))
    ensures IsSigned(signed', b.(status := Completed, endTimestamp := Some(now)))
  {
  }

  // ---------------------------------------------------------------------------
  // The dashboard

  class Dashboard {
    var userId: Option<string>
    var profile: Option<Profile>
    /** The bookings table as this page reads and writes it. */
    var bookings: seq<Booking>
    var activeTab: Tab
    var signed: set<string>
    var cashConfirmationShown: bool
    /** Ids of the rides started from this page. */
    ghost var started: set<string>

    /** No ride was started here without a signed agreement. */
    ghost predicate Valid()
      reads this
    {
      started <= signed
    }

    constructor(userId: Option<string>, profile: Option<Profile>, bookings: seq<Booking>)
      ensures Valid()
      ensures this.userId == userId && this.profile == profile && this.bookings == bookings
      ensures activeTab == Rides && signed == {} && !cashConfirmationShown && started == {}
    {
      this.userId := userId;
      this.profile := profile;
      this.bookings := bookings;
      activeTab := Rides;
      signed := {};
      cashConfirmationShown := false;
      started := {};
    }

    method SelectTab(t: Tab)
      requires Valid()
      modifies this
      ensures Valid()
      ensures activeTab == t
      ensures userId == old(userId) && profile == old(profile) && bookings == old(bookings)
      ensures signed == old(signed) && cashConfirmationShown == old(cashConfirmationShown) && started == old(started)
    {
      activeTab := t;
    }

    /**
      `generateRentalAgreement`'s guard and its effect: without both document
      numbers the identity tab opens and nothing is signed; otherwise the
      booking id joins the signed set. The set only ever grows.
    */
    method SignAgreement(b: Booking) returns (ok: bool)
      requires Valid()
      modifies this
      ensures Valid()
      ensures ok == CanSign(profile)
      ensures ok ==> signed == old(signed) + {b.id} && activeTab == old(activeTab)
      ensures !ok ==> signed == old(signed) && activeTab == Identity
      ensures old(signed) <= signed
      ensures userId == old(userId) && profile == old(profile) && bookings == old(bookings)
      ensures cashConfirmationShown == old(cashConfirmationShown) && started == old(started)
    {
      if profile.None? || !Present(profile.value.dlNumber) || !Present(profile.value.aadhaarNumber) {
        activeTab := Identity;
        return false;
      }
      signed := signed + {b.id};
      return true;
    }

    /** `handlePaidCash`: on a successful write the rows await verification and the confirmation shows. */
    method HandlePaidCash(readableId: string, writeOk: bool)
      requires Valid()
      modifies this
      ensures Valid()
      ensures bookings == (if writeOk then MarkPaidCash(old(bookings), readableId) else old(bookings))
      ensures cashConfirmationShown == (writeOk || old(cashConfirmationShown))
      ensures userId == old(userId) && profile == old(profile) && activeTab == old(activeTab)
      ensures signed == old(signed) && started == old(started)
    {
      if writeOk {
        bookings := MarkPaidCash(bookings, readableId);
        cashConfirmationShown := true;
      }
    }

    /**
      `handleFileUpload`: nothing without a signed-in rider or when the upload
      fails. A payment proof with a booking id updates that booking; any other
      upload stores the URL on the profile, as the driving licence photo for a
      licence and as the Aadhaar photo otherwise.
    */
    method HandleFileUpload(kind: DocKind, bookingId: Option<string>, uploadOk: bool, url: string, writeOk: bool)
      requires Valid()
      modifies this
      ensures Valid()
      ensures var acts := userId.Some? && uploadOk && writeOk;
              var toBooking := kind == PaymentProof && Present(bookingId);
              && bookings == (if acts && toBooking then MarkScreenshot(old(bookings), bookingId.value, url)
                              else old(bookings))
              && profile == (if acts && !toBooking && old(profile).Some? then
                               Some(if kind == DrivingLicence then old(profile).value.(dlUrl := Some(url))
                                    else old(profile).value.(aadhaarUrl := Some(url)))
                             else old(profile))
      ensures userId == old(userId) && activeTab == old(activeTab)
      ensures signed == old(signed) && cashConfirmationShown == old(cashConfirmationShown) && started == old(started)
    {
      if userId.None? || !uploadOk || !writeOk {
        return;
      }
      if kind == PaymentProof && Present(bookingId) {
        bookings := MarkScreenshot(bookings, bookingId.value, url);
      } else if profile.Some? {
        if kind == DrivingLicence {
          profile := Some(profile.value.(dlUrl := Some(url)));
        } else {
          profile := Some(profile.value.(aadhaarUrl := Some(url)));
        }
      }
    }

    /** `handleUpdateProfile`: the edited names, numbers and document numbers replace the profile's. */
    method HandleUpdateProfile(fullName: string, phone: string, whatsapp: string, dlNumber: string,
                               aadhaarNumber: string, writeOk: bool)
      requires Valid()
      modifies this
      ensures Valid()
      ensures profile == (if userId.Some? && writeOk && old(profile).Some? then
                            Some(old(profile).value.(fullName := Some(fullName), phone := Some(phone),
                                 whatsapp := Some(whatsapp), dlNumber := Some(dlNumber),
                                 aadhaarNumber := Some(aadhaarNumber)))
                          else old(profile))
      ensures userId == old(userId) && bookings == old(bookings) && activeTab == old(activeTab)
      ensures signed == old(signed) && cashConfirmationShown == old(cashConfirmationShown) && started == old(started)
    {
      if userId.None? || !writeOk || profile.None? {
        return;
      }
      profile := Some(profile.value.(fullName := Some(fullName), phone := Some(phone), whatsapp := Some(whatsapp),
                                     dlNumber := Some(dlNumber), aadhaarNumber := Some(aadhaarNumber)));
    }

    /**
      `handleStartRide`: refused, opening the identity tab, unless the identity
      is complete; refused unless the agreement was signed here; otherwise the
      booking is on the road from `now`.
    */
    method HandleStartRide(b: Booking, now: int, writeOk: bool) returns (ok: bool)
      requires Valid()
      modifies this
      ensures Valid()
      ensures ok <==> IdentityVerified(profile) && b.id in signed && writeOk
      ensures bookings == (if ok then MarkStarted(old(bookings), b.id, now) else old(bookings))
      ensures activeTab == (if IdentityVerified(profile) then old(activeTab) else Identity)
      ensures userId == old(userId) && profile == old(profile) && signed == old(signed)
      ensures cashConfirmationShown == old(cashConfirmationShown)
      ensures started == (if ok then old(started) + {b.id} else old(started))
    {
      if !IdentityVerified(profile) {
        activeTab := Identity;
        return false;
      }
      if b.id !in signed || !writeOk {
        return false;
      }
      bookings := MarkStarted(bookings, b.id, now);
      started := started + {b.id};
      return true;
    }

    /** `handleFinishRide`: the booking is completed at `now`. */
    method HandleFinishRide(b: Booking, now: int, writeOk: bool)
      requires Valid()
      modifies this
      ensures Valid()
      ensures bookings == (if writeOk then MarkFinished(old(bookings), b.id, now) else old(bookings))
      ensures userId == old(userId) && profile == old(profile) && activeTab == old(activeTab)
      ensures signed == old(signed) && cashConfirmationShown == old(cashConfirmationShown) && started == old(started)
    {
      if writeOk {
        bookings := MarkFinished(bookings, b.id, now);
      }
    }
  }

  /** A complete identity is enough to sign. */
  lemma VerifiedCanSign(p: Option<Profile>)
    requires IdentityVerified(p)
    ensures CanSign(p)
  {
  }
}
