/** The OTP-gated organizer registration of the donation-camp controller.

    The three document collections the handlers touch (OTP records, blood
    banks, donation camps) are sequences in insertion order; a `findOne` is
    the first record its query accepts.  Each handler is written twice:

    - as a pure transition on a `Store` value (`IssueOtp`, `ConfirmOtp`,
      `RegisterCamp`), whose contract and the lemmas beside it state what the
      handler promises; and
    - as a method of the `Database` class (`SendEmailVerifyOtp`, `VerifyOtp`,
      `RegisterDonationCamp`), which runs the guards one by one, looks records
      up, updates its collections in place, and is proved to agree with its
      transition.

    A thrown `ApiError(status, message)` is a `Failure` reply; the response
    envelope, cookies options and mail delivery are not modelled. */
module CampController {
  import opened Wrappers
  import opened Seqs
  import opened Text
  import opened Patterns

  // ---------------------------------------------------------------------
  // Documents
  // ---------------------------------------------------------------------

  /** The only OTP type the controller creates or looks for. */
  const Verification: string := "verification"

  datatype OtpStatus = Pending | Verified

  /** An OTP document; `expiry` is a timestamp on the same clock as the
      handlers' `now`. */
  datatype Otp = Otp(email: string, otp: string, kind: string, status: OtpStatus, expiry: int)

  datatype BloodBank = BloodBank(email: string, emailVerified: bool)

  /** The `address` object of a registration request. */
  datatype AddressInput = AddressInput(
    addressLine1: string, addressLine2: string, state: string, city: string, pincode: string)

  /** The address stored with a camp. */
  datatype CampAddress = CampAddress(
    addressLine1: string, addressLine2: string, state: string, city: string, pincode: string,
    addressType: string)

  datatype DonationCamp = DonationCamp(
    organizationName: string, organizationType: string, organizerName: string,
    organizerMobileNumber: string, organizerEmail: string, coOrganizerName: string,
    coOrganizerMobileNumber: string, campName: string, address: CampAddress, bloodbank: string,
    campDate: string, campStartTime: string, campEndTime: string, estimatedParticipants: string,
    supporter: string, remarks: string, password: string)

  /** The body of a registration request.  An absent text field is the empty
      string: both are falsy, which is all the guards look at.  `address` is
      an object, so only its absence is falsy. */
  datatype CampRequest = CampRequest(
    organizationName: string, organizationType: string, organizerName: string,
    organizerMobileNumber: string, organizerEmail: string, coOrganizerName: string,
    coOrganizerMobileNumber: string, campName: string, address: Option<AddressInput>,
    bloodbank: string, campDate: string, campStartTime: string, campEndTime: string,
    estimatedParticipants: string, supporter: string, remarks: string, password: string,
    confirmPassword: string)

  /** The JSON values a reply carries. */
  datatype Json = JStr(s: string) | JObj(fields: map<string, Json>)

  /** What a handler answers: a success status with its payload and the
      cookies it sets, or the status and message of the `ApiError` it
      throws. */
  datatype Reply =
    | Success(status: nat, message: string, data: Json, cookies: map<string, string>)
    | Failure(status: nat, message: string)

  /** The three collections. */
  datatype Store = Store(otps: seq<Otp>, bloodBanks: seq<BloodBank>, camps: seq<DonationCamp>)

  // ---------------------------------------------------------------------
  // Queries
  // ---------------------------------------------------------------------

  /** `BloodBank.findOne({ email, emailVerified: true })` accepts `b`. */
  predicate IsVerifiedBankFor(b: BloodBank, email: string) {
    b.email == email && b.emailVerified
  }

  /** `Otp.findOne({ email, status: "pending", expiry: { $gt: now },
      type: "verification" })` accepts `o`. */
  predicate IsLivePendingFor(o: Otp, email: string, now: int) {
    o.email == email && o.status == Pending && o.expiry > now && o.kind == Verification
  }

  /** `Otp.findOne({ email, otp, status: "pending" })` accepts `o`: neither
      the type nor the expiry is part of the query. */
  predicate IsPendingMatch(o: Otp, email: string, code: string) {
    o.email == email && o.otp == code && o.status == Pending
  }

  /** `Otp.findOne({ email, status: "verified" })` accepts `o`. */
  predicate IsVerifiedOtpFor(o: Otp, email: string) {
    o.email == email && o.status == Verified
  }

  predicate HasVerifiedBank(banks: seq<BloodBank>, email: string) {
    exists i | 0 <= i < |banks| :: IsVerifiedBankFor(banks[i], email)
  }

  predicate HasLivePendingOtp(otps: seq<Otp>, email: string, now: int) {
    exists i | 0 <= i < |otps| :: IsLivePendingFor(otps[i], email, now)
  }

  predicate HasVerifiedOtp(otps: seq<Otp>, email: string) {
    exists i | 0 <= i < |otps| :: IsVerifiedOtpFor(otps[i], email)
  }

  /** `DonationCamp.findOne({ organizerEmail })` finds something. */
  predicate HasCampFor(camps: seq<DonationCamp>, email: string) {
    exists i | 0 <= i < |camps| :: camps[i].organizerEmail == email
  }

  /** The record `verifyOTP` updates: the first pending match. */
  function FirstPendingMatch(otps: seq<Otp>, email: string, code: string): (r: Option<nat>)
    ensures r.Some? ==> r.value < |otps| && IsPendingMatch(otps[r.value], email, code)
    ensures r.None? <==> forall i | 0 <= i < |otps| :: !IsPendingMatch(otps[i], email, code)
  {
    FindFirst(otps, (o: Otp) => IsPendingMatch(o, email, code))
  }

  // ---------------------------------------------------------------------
  // sendEmailVerifyOTP
  // ---------------------------------------------------------------------

  /** The OTP document `Otp.create({ email, type: "verification" })` adds;
      the code and the expiry are generated by the OTP model and are inputs
      here. */
  function NewOtp(email: string, code: string, expiry: int): (o: Otp)
    ensures o.email == email && o.kind == Verification && o.status == Pending
  {
    Otp(email, code, Verification, Pending, expiry)
  }

  /** `sendEmailVerifyOTP` on store `s` at time `now`.  It succeeds exactly
      when the email is present and well formed, no verified blood bank uses
      it and no unexpired pending verification OTP exists for it; then it
      appends one pending verification OTP for that email and changes nothing
      else.  Every failure leaves the store as it was. */
  function IssueOtp(s: Store, email: string, now: int, code: string, expiry: int): (out: (Reply, Store))
    ensures out.0.Failure? ==> out.1 == s
    ensures out.0.Success? <==>
      email != "" && IsCampEmail(email)
      && !HasVerifiedBank(s.bloodBanks, email) && !HasLivePendingOtp(s.otps, email, now)
    ensures out.0.Success? ==> out.1 == s.(otps := s.otps + [NewOtp(email, code, expiry)])
  {
    if email == "" then
      (Failure(400, "Please provide a email "), s)
    else if !IsCampEmail(email) then
      (Failure(400, "Please provide a valid email "), s)
    else if HasVerifiedBank(s.bloodBanks, email) then
      (Failure(409, "Email already registered"), s)
    else if HasLivePendingOtp(s.otps, email, now) then
      (Failure(409, "OTP already sent to " + email + ", please check your email"), s)
    else
      (Success(200, "OTP sent successfully to " + email, JObj(map[]), map[]),
       s.(otps := s.otps + [NewOtp(email, code, expiry)]))
  }

  /** The status and message of each failure, in the order the guards run. */
  lemma IssueOtpFailures(s: Store, email: string, now: int, code: string, expiry: int)
    ensures email == "" ==>
      IssueOtp(s, email, now, code, expiry).0 == Failure(400, "Please provide a email ")
    ensures email != "" && !IsCampEmail(email) ==>
      IssueOtp(s, email, now, code, expiry).0 == Failure(400, "Please provide a valid email ")
    ensures email != "" && IsCampEmail(email) && HasVerifiedBank(s.bloodBanks, email) ==>
      IssueOtp(s, email, now, code, expiry).0 == Failure(409, "Email already registered")
    ensures email != "" && IsCampEmail(email) && !HasVerifiedBank(s.bloodBanks, email)
            && HasLivePendingOtp(s.otps, email, now) ==>
      IssueOtp(s, email, now, code, expiry).0
        == Failure(409, "OTP already sent to " + email + ", please check your email")
  {
  }

  // ---------------------------------------------------------------------
  // verifyOTP
  // ---------------------------------------------------------------------

  /** `after` is `before` with one pending record matching `email` and
      `code` switched to verified, every other record and field as it was. */
  predicate MarksOneVerified(before: seq<Otp>, after: seq<Otp>, email: string, code: string) {
    exists i | 0 <= i < |before| ::
      IsPendingMatch(before[i], email, code) && after == before[i := before[i].(status := Verified)]
  }

  /** `verifyOTP` on store `s`.  It succeeds exactly when both fields are
      present and some pending record matches email and code, whatever its
      type and expiry; then that one record becomes verified.  Every failure
      leaves the store as it was. */
  function ConfirmOtp(s: Store, email: string, code: string): (out: (Reply, Store))
    ensures out.0.Failure? ==> out.1 == s
    ensures out.0.Success? <==>
      email != "" && code != "" && exists i | 0 <= i < |s.otps| :: IsPendingMatch(s.otps[i], email, code)
    ensures out.0.Success? ==>
      out.1.bloodBanks == s.bloodBanks && out.1.camps == s.camps
      && MarksOneVerified(s.otps, out.1.otps, email, code)
  {
    if email == "" || code == "" then
      (Failure(400, "Please provide all the required fields"), s)
    else
      match FirstPendingMatch(s.otps, email, code)
      case None => (Failure(400, "Invalid OTP"), s)
      case Some(i) =>
        (Success(200, "OTP verified successfully", JObj(map[]), map[]),
         s.(otps := s.otps[i := s.otps[i].(status := Verified)]))
  }

  /** The status and message of each failure. */
  lemma ConfirmOtpFailures(s: Store, email: string, code: string)
    ensures email == "" || code == "" ==>
      ConfirmOtp(s, email, code).0 == Failure(400, "Please provide all the required fields")
    ensures email != "" && code != ""
            && (forall i | 0 <= i < |s.otps| :: !IsPendingMatch(s.otps[i], email, code)) ==>
      ConfirmOtp(s, email, code) == (Failure(400, "Invalid OTP"), s)
  {
  }

  /** Expiry is not consulted: a pending OTP verifies at any time after it
      has expired, even though `IssueOtp` already treats it as gone. */
  lemma ExpiredOtpStillVerifies(s: Store, i: nat, now: int)
    requires i < |s.otps| && s.otps[i].status == Pending && s.otps[i].expiry <= now
    requires s.otps[i].email != "" && s.otps[i].otp != ""
    ensures !IsLivePendingFor(s.otps[i], s.otps[i].email, now)
    ensures ConfirmOtp(s, s.otps[i].email, s.otps[i].otp).0.Success?
  {
  }

  // ---------------------------------------------------------------------
  // registerDonationCamp
  // ---------------------------------------------------------------------

  /** The first guard: every required body field is truthy. */
  predicate RequiredFieldsPresent(req: CampRequest) {
    && req.organizationName != "" && req.organizationType != "" && req.organizerName != ""
    && req.organizerMobileNumber != "" && req.organizerEmail != "" && req.campName != ""
    && req.campDate != "" && req.campStartTime != "" && req.address.Some?
    && req.campEndTime != "" && req.estimatedParticipants != "" && req.password != ""
    && req.confirmPassword != ""
  }

  /** The third guard: the address and its four mandatory sub-fields. */
  predicate AddressComplete(address: Option<AddressInput>) {
    && address.Some?
    && address.value.addressLine1 != "" && address.value.state != ""
    && address.value.city != "" && address.value.pincode != ""
  }

  /** All five guards of `registerDonationCamp` pass on `s`. */
  predicate RegistrationAdmitted(s: Store, req: CampRequest) {
    && RequiredFieldsPresent(req)
    && req.password == req.confirmPassword
    && AddressComplete(req.address)
    && HasVerifiedOtp(s.otps, req.organizerEmail)
    && !HasCampFor(s.camps, req.organizerEmail)
  }

  /** The camp document `DonationCamp.create` is given: the request's
      fields, the address re-built with its type forced to "Camp". */
  function NewCamp(req: CampRequest): (c: DonationCamp)
    requires req.address.Some?
    ensures c.organizerEmail == req.organizerEmail && c.password == req.password
    ensures c.address.addressType == "Camp"
    ensures c.address.addressLine1 == req.address.value.addressLine1
    ensures c.address.addressLine2 == req.address.value.addressLine2
    ensures c.address.state == req.address.value.state && c.address.city == req.address.value.city
    ensures c.address.pincode == req.address.value.pincode
  {
    var a := req.address.value;
    DonationCamp(
      req.organizationName, req.organizationType, req.organizerName, req.organizerMobileNumber,
      req.organizerEmail, req.coOrganizerName, req.coOrganizerMobileNumber, req.campName,
      CampAddress(a.addressLine1, a.addressLine2, a.state, a.city, a.pincode, "Camp"),
      req.bloodbank, req.campDate, req.campStartTime, req.campEndTime, req.estimatedParticipants,
      req.supporter, req.remarks, req.password)
  }

  /** The paths of `donationCamp.toObject()` that come from the request;
      `_id`, `__v` and any paths the camp schema adds are not modelled. */
  function CampObject(c: DonationCamp): map<string, Json> {
    map[
      "organizationName" := JStr(c.organizationName),
      "organizationType" := JStr(c.organizationType),
      "organizerName" := JStr(c.organizerName),
      "organizerMobileNumber" := JStr(c.organizerMobileNumber),
      "organizerEmail" := JStr(c.organizerEmail),
      "coOrganizerName" := JStr(c.coOrganizerName),
      "coOrganizerMobileNumber" := JStr(c.coOrganizerMobileNumber),
      "campName" := JStr(c.campName),
      "address" := JObj(map[
        "addressLine1" := JStr(c.address.addressLine1),
        "addressLine2" := JStr(c.address.addressLine2),
        "state" := JStr(c.address.state),
        "city" := JStr(c.address.city),
        "pincode" := JStr(c.address.pincode),
        "addressType" := JStr(c.address.addressType)]),
      "bloodbank" := JStr(c.bloodbank),
      "campDate" := JStr(c.campDate),
      "campStartTime" := JStr(c.campStartTime),
      "campEndTime" := JStr(c.campEndTime),
      "estimatedParticipants" := JStr(c.estimatedParticipants),
      "supporter" := JStr(c.supporter),
      "remarks" := JStr(c.remarks),
      "password" := JStr(c.password)]
  }

  /** The object returned to the caller: `toObject()` with `password`
      deleted.  It has no password and keeps every other field. */
  function PublicCampObject(c: DonationCamp): (o: map<string, Json>)
    ensures "password" !in o
    ensures o.Keys == CampObject(c).Keys - {"password"}
    ensures forall k | k in o :: o[k] == CampObject(c)[k]
  {
    CampObject(c) - {"password"}
  }

  const RegisteredMessage: string :=
    "Donation Camp registered successfully , Awaiting blood bank approval"

  /** `registerDonationCamp` on store `s`; `accessToken` and `refreshToken`
      are what the camp's token methods return (empty when signing failed).
      The OTP and blood-bank collections never change: the verified OTP is
      not consumed.  When a guard fails nothing changes and the status is
      400.  When all guards pass exactly one camp is appended; a missing token
      then turns the reply into a 500 without removing that camp. */
  function RegisterCamp(s: Store, req: CampRequest, accessToken: string, refreshToken: string)
    : (out: (Reply, Store))
    ensures out.1.otps == s.otps && out.1.bloodBanks == s.bloodBanks
    ensures !RegistrationAdmitted(s, req) ==> out.1 == s && out.0.Failure? && out.0.status == 400
    ensures RegistrationAdmitted(s, req) ==> out.1.camps == s.camps + [NewCamp(req)]
    ensures out.0.Success? <==> RegistrationAdmitted(s, req) && accessToken != "" && refreshToken != ""
    ensures out.0.Success? ==>
      out.0.status == 201
      && out.0.data == JObj(map["donationCampObject" := JObj(PublicCampObject(NewCamp(req)))])
      && out.0.cookies == map["accessToken" := accessToken, "refreshToken" := refreshToken]
  {
    if !RequiredFieldsPresent(req) then
      (Failure(400, "All fields are required"), s)
    else if req.password != req.confirmPassword then
      (Failure(400, "Passwords do not match"), s)
    else if !AddressComplete(req.address) then
      (Failure(400, "All address fields are required"), s)
    else if !HasVerifiedOtp(s.otps, req.organizerEmail) then
      (Failure(400, "Please verify your email first"), s)
    else if HasCampFor(s.camps, req.organizerEmail) then
      (Failure(400, "User already exists"), s)
    else
      var camp := NewCamp(req);
      var s' := s.(camps := s.camps + [camp]);
      if accessToken == "" || refreshToken == "" then
        (Failure(500, "Token generation failed"), s')
      else
        (Success(201, RegisteredMessage, JObj(map["donationCampObject" := JObj(PublicCampObject(camp))]),
                 map["accessToken" := accessToken, "refreshToken" := refreshToken]),
         s')
  }

  /** The guards run in a fixed order and the first that fails decides the
      message. */
  lemma RegisterGuardOrder(s: Store, req: CampRequest, accessToken: string, refreshToken: string)
    ensures !RequiredFieldsPresent(req) ==>
      RegisterCamp(s, req, accessToken, refreshToken).0 == Failure(400, "All fields are required")
    ensures RequiredFieldsPresent(req) && req.password != req.confirmPassword ==>
      RegisterCamp(s, req, accessToken, refreshToken).0 == Failure(400, "Passwords do not match")
    ensures RequiredFieldsPresent(req) && req.password == req.confirmPassword
            && !AddressComplete(req.address) ==>
      RegisterCamp(s, req, accessToken, refreshToken).0
        == Failure(400, "All address fields are required")
    ensures RequiredFieldsPresent(req) && req.password == req.confirmPassword
            && AddressComplete(req.address) && !HasVerifiedOtp(s.otps, req.organizerEmail) ==>
      RegisterCamp(s, req, accessToken, refreshToken).0
        == Failure(400, "Please verify your email first")
    ensures RequiredFieldsPresent(req) && req.password == req.confirmPassword
            && AddressComplete(req.address) && HasVerifiedOtp(s.otps, req.organizerEmail)
            && HasCampFor(s.camps, req.organizerEmail) ==>
      RegisterCamp(s, req, accessToken, refreshToken).0 == Failure(400, "User already exists")
    ensures RegistrationAdmitted(s, req) && (accessToken == "" || refreshToken == "") ==>
      RegisterCamp(s, req, accessToken, refreshToken).0 == Failure(500, "Token generation failed")
  {
  }

  /** Once a registration for an email has gone through, every later
      registration for that email that gets past the body checks is refused
      with "User already exists" -- it is the camp check that refuses it,
      because the OTP that admitted the first one is still verified. */
  lemma SecondRegistrationRefused(
    s: Store, req: CampRequest, a: string, r: string, req2: CampRequest, a2: string, r2: string)
    requires RegistrationAdmitted(s, req)
    requires req2.organizerEmail == req.organizerEmail
    requires RequiredFieldsPresent(req2) && req2.password == req2.confirmPassword
    requires AddressComplete(req2.address)
    ensures var s' := RegisterCamp(s, req, a, r).1;
      HasVerifiedOtp(s'.otps, req2.organizerEmail)
      && RegisterCamp(s', req2, a2, r2) == (Failure(400, "User already exists"), s')
  {
    var s' := RegisterCamp(s, req, a, r).1;
    assert s'.camps[|s.camps|].organizerEmail == req2.organizerEmail;
  }

  /** The camp sent back on success carries no password. */
  lemma RegisteredCampHidesPassword(s: Store, req: CampRequest, a: string, r: string)
    requires RegisterCamp(s, req, a, r).0.Success?
    ensures match RegisterCamp(s, req, a, r).0.data
      case JObj(body) =>
        "donationCampObject" in body && body["donationCampObject"].JObj?
        && "password" !in body["donationCampObject"].fields
        && body["donationCampObject"].fields["organizerEmail"] == JStr(req.organizerEmail)
      case JStr(_) => false
  {
  }

  // ---------------------------------------------------------------------
  // Invariants of the collections
  // ---------------------------------------------------------------------

  /** At time `now`, no email has two unexpired pending verification OTPs:
      the rule `sendEmailVerifyOTP` enforces by looking before it inserts. */
  predicate OneLiveOtpPerEmail(otps: seq<Otp>, now: int) {
    forall i, j | 0 <= i < j < |otps| ::
      !(IsLivePendingFor(otps[i], otps[i].email, now) && IsLivePendingFor(otps[j], otps[i].email, now))
  }

  /** No two camps share an organizer email. */
  predicate OneCampPerEmail(camps: seq<DonationCamp>) {
    forall i, j | 0 <= i < j < |camps| :: camps[i].organizerEmail != camps[j].organizerEmail
  }

  /** Every camp's organizer email has a verified OTP. */
  predicate CampsAreVerified(s: Store) {
    forall i | 0 <= i < |s.camps| :: HasVerifiedOtp(s.otps, s.camps[i].organizerEmail)
  }

  predicate StoreInvariant(s: Store, now: int) {
    OneLiveOtpPerEmail(s.otps, now) && OneCampPerEmail(s.camps) && CampsAreVerified(s)
  }

  /** Records only expire as time passes, so the OTP rule that holds now
      holds later. */
  lemma {:induction false} OneLiveOtpPerEmailLater(otps: seq<Otp>, now: int, later: int)
    requires OneLiveOtpPerEmail(otps, now) && now <= later
    ensures OneLiveOtpPerEmail(otps, later)
  {
    forall i, j | 0 <= i < j < |otps|
      ensures !(IsLivePendingFor(otps[i], otps[i].email, later)
                && IsLivePendingFor(otps[j], otps[i].email, later))
    {
      assert IsLivePendingFor(otps[i], otps[i].email, later) ==> IsLivePendingFor(otps[i], otps[i].email, now);
      assert IsLivePendingFor(otps[j], otps[i].email, later) ==> IsLivePendingFor(otps[j], otps[i].email, now);
    }
  }

  lemma {:induction false} IssueOtpPreservesInvariant(
    s: Store, email: string, now: int, code: string, expiry: int)
    requires StoreInvariant(s, now)
    ensures StoreInvariant(IssueOtp(s, email, now, code, expiry).1, now)
  {
    var s' := IssueOtp(s, email, now, code, expiry).1;
    if s' != s {
      var n := |s.otps|;
      forall i, j | 0 <= i < j < |s'.otps|
        ensures !(IsLivePendingFor(s'.otps[i], s'.otps[i].email, now)
                  && IsLivePendingFor(s'.otps[j], s'.otps[i].email, now))
      {
        if j == n {
          assert s'.otps[i] == s.otps[i];
        }
      }
      forall i | 0 <= i < |s'.camps|
        ensures HasVerifiedOtp(s'.otps, s'.camps[i].organizerEmail)
      {
        var k :| 0 <= k < n && IsVerifiedOtpFor(s.otps[k], s.camps[i].organizerEmail);
        assert s'.otps[k] == s.otps[k];
      }
    }
  }

  lemma {:induction false} ConfirmOtpPreservesInvariant(s: Store, email: string, code: string, now: int)
    requires StoreInvariant(s, now)
    ensures StoreInvariant(ConfirmOtp(s, email, code).1, now)
  {
    var s' := ConfirmOtp(s, email, code).1;
    if s' != s {
      var m :| 0 <= m < |s.otps| && IsPendingMatch(s.otps[m], email, code)
               && s'.otps == s.otps[m := s.otps[m].(status := Verified)];
      forall i, j | 0 <= i < j < |s'.otps|
        ensures !(IsLivePendingFor(s'.otps[i], s'.otps[i].email, now)
                  && IsLivePendingFor(s'.otps[j], s'.otps[i].email, now))
      {
        assert IsLivePendingFor(s'.otps[i], s'.otps[i].email, now) ==> s'.otps[i] == s.otps[i];
      }
      forall i | 0 <= i < |s'.camps|
        ensures HasVerifiedOtp(s'.otps, s'.camps[i].organizerEmail)
      {
        var k :| 0 <= k < |s.otps| && IsVerifiedOtpFor(s.otps[k], s.camps[i].organizerEmail);
        assert k != m;
        assert s'.otps[k] == s.otps[k];
      }
    }
  }

  lemma {:induction false} RegisterCampPreservesInvariant(
    s: Store, req: CampRequest, a: string, r: string, now: int)
    requires StoreInvariant(s, now)
    ensures StoreInvariant(RegisterCamp(s, req, a, r).1, now)
  {
    var s' := RegisterCamp(s, req, a, r).1;
    if RegistrationAdmitted(s, req) {
      var n := |s.camps|;
      assert s'.camps[n] == NewCamp(req);
      forall i, j | 0 <= i < j < |s'.camps|
        ensures s'.camps[i].organizerEmail != s'.camps[j].organizerEmail
      {
        if j == n {
          assert s'.camps[i] == s.camps[i];
        }
      }
      forall i | 0 <= i < |s'.camps|
        ensures HasVerifiedOtp(s'.otps, s'.camps[i].organizerEmail)
      {
        if i < n {
          assert s'.camps[i] == s.camps[i];
        }
      }
    }
  }

  // ---------------------------------------------------------------------
  // A run of the workflow
  // ---------------------------------------------------------------------

  lemma SampleEmailWellFormed()
    ensures IsCampEmail("a@b.com")
  {
    var email := "a@b.com";
    assert email[0] == 'a' && email[1] == '@' && email[2] == 'b' && email[3] == '.';
    assert email[4] == 'c' && email[5] == 'o' && email[6] == 'm';
    assert IndexOf(email, '@') == Some(1);
    assert LastIndexOf(email, '.') == Some(3);
    assert CampEmailSplit(email, 1, 3);
  }

  /** Issue an OTP for "a@b.com", try a wrong code, verify with the right
      one, then register with mismatched passwords: the wrong code is
      refused as "Invalid OTP", the right one verifies, and the registration
      is refused as "Passwords do not match" without adding a camp. */
  lemma VerificationWalkthrough(s: Store, now: int, code: string, expiry: int, req: CampRequest)
    requires forall i | 0 <= i < |s.otps| :: s.otps[i].email != "a@b.com"
    requires !HasVerifiedBank(s.bloodBanks, "a@b.com")
    requires code != "" && code != "000000"
    requires RequiredFieldsPresent(req) && req.organizerEmail == "a@b.com"
    requires req.password == "p1" && req.confirmPassword == "p2"
    ensures var (r1, s1) := IssueOtp(s, "a@b.com", now, code, expiry);
      && r1.Success?
      && var (r2, s2) := ConfirmOtp(s1, "a@b.com", "000000");
      && r2 == Failure(400, "Invalid OTP") && s2 == s1
      && var (r3, s3) := ConfirmOtp(s2, "a@b.com", code);
      && r3.Success?
      && HasVerifiedOtp(s3.otps, "a@b.com")
      && RegisterCamp(s3, req, "access", "refresh") == (Failure(400, "Passwords do not match"), s3)
  {
    var email := "a@b.com";
    SampleEmailWellFormed();
    assert !HasLivePendingOtp(s.otps, email, now);
    var (r1, s1) := IssueOtp(s, email, now, code, expiry);
    assert r1.Success?;
    var n := |s.otps|;
    assert s1.otps == s.otps + [NewOtp(email, code, expiry)];
    assert forall i | 0 <= i < |s1.otps| :: !IsPendingMatch(s1.otps[i], email, "000000");
    var (r2, s2) := ConfirmOtp(s1, email, "000000");
    assert r2 == Failure(400, "Invalid OTP") && s2 == s1;
    assert IsPendingMatch(s2.otps[n], email, code);
    var (r3, s3) := ConfirmOtp(s2, email, code);
    assert r3.Success?;
    var m :| 0 <= m < |s2.otps| && IsPendingMatch(s2.otps[m], email, code)
             && s3.otps == s2.otps[m := s2.otps[m].(status := Verified)];
    assert IsVerifiedOtpFor(s3.otps[m], email);
    assert RegisterCamp(s3, req, "access", "refresh") == (Failure(400, "Passwords do not match"), s3);
  }

  // ---------------------------------------------------------------------
  // The handlers, on a store updated in place
  // ---------------------------------------------------------------------

  class Database {
    var otps: seq<Otp>
    var bloodBanks: seq<BloodBank>
    var camps: seq<DonationCamp>

    function State(): Store
      reads this
    {
      Store(otps, bloodBanks, camps)
    }

    constructor (initial: Store)
      ensures State() == initial
    {
      otps, bloodBanks, camps := initial.otps, initial.bloodBanks, initial.camps;
    }

    /** `sendEmailVerifyOTP`: `code` and `expiry` are what the OTP model
        generates for the new record. */
    method SendEmailVerifyOtp(email: string, now: int, code: string, expiry: int)
      returns (reply: Reply)
      modifies this
      ensures (reply, State()) == IssueOtp(old(State()), email, now, code, expiry)
    {
      if email == "" {
        return Failure(400, "Please provide a email ");
      } else if !IsCampEmail(email) {
        return Failure(400, "Please provide a valid email ");
      }
      var existingUser := FindFirst(bloodBanks, (b: BloodBank) => IsVerifiedBankFor(b, email));
      if existingUser.Some? {
        return Failure(409, "Email already registered");
      }
      var existingOtp := FindFirst(otps, (o: Otp) => IsLivePendingFor(o, email, now));
      if existingOtp.Some? {
        return Failure(409, "OTP already sent to " + email + ", please check your email");
      }
      otps := otps + [NewOtp(email, code, expiry)];
      reply := Success(200, "OTP sent successfully to " + email, JObj(map[]), map[]);
    }

    /** `verifyOTP`: the found record's status is set and the record saved
        in place. */
    method VerifyOtp(email: string, code: string) returns (reply: Reply)
      modifies this
      ensures (reply, State()) == ConfirmOtp(old(State()), email, code)
    {
      if email == "" || code == "" {
        return Failure(400, "Please provide all the required fields");
      }
      var existingOtp := FirstPendingMatch(otps, email, code);
      if existingOtp.None? {
        return Failure(400, "Invalid OTP");
      }
      var i := existingOtp.value;
      otps := otps[i := otps[i].(status := Verified)];
      reply := Success(200, "OTP verified successfully", JObj(map[]), map[]);
    }

    /** `registerDonationCamp`: `accessToken` and `refreshToken` are what the
        new camp's token methods return. */
    method RegisterDonationCamp(req: CampRequest, accessToken: string, refreshToken: string)
      returns (reply: Reply)
      modifies this
      ensures (reply, State()) == RegisterCamp(old(State()), req, accessToken, refreshToken)
    {
      if !RequiredFieldsPresent(req) {
        return Failure(400, "All fields are required");
      }
      if req.password != req.confirmPassword {
        return Failure(400, "Passwords do not match");
      }
      if !AddressComplete(req.address) {
        return Failure(400, "All address fields are required");
      }
      var verifiedEmail := FindFirst(otps, (o: Otp) => IsVerifiedOtpFor(o, req.organizerEmail));
      if verifiedEmail.None? {
        return Failure(400, "Please verify your email first");
      }
      var existingUser := FindFirst(camps, (c: DonationCamp) => c.organizerEmail == req.organizerEmail);
      if existingUser.Some? {
        return Failure(400, "User already exists");
      }
      var donationCamp := NewCamp(req);
      camps := camps + [donationCamp];
      if accessToken == "" || refreshToken == "" {
        return Failure(500, "Token generation failed");
      }
      var donationCampObject := PublicCampObject(donationCamp);
      reply := Success(201, RegisteredMessage, JObj(map["donationCampObject" := JObj(donationCampObject)]),
                       map["accessToken" := accessToken, "refreshToken" := refreshToken]);
    }
  }
}
