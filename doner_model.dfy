/** The donor document: the schema's setters and validators, the two
    pre-save hooks, and the payloads signed into the access and refresh tokens.

    Password hashing, the calendar conversion behind `getUTCFullYear` and
    token signing are foreign code: the first two are function parameters,
    and a token is modelled by the payload it is signed over. */
module DonerModel {
  import opened Wrappers
  import opened Seqs
  import opened Text
  import opened Patterns

  const BloodGroups: seq<string> := ["A+", "A-", "B+", "B-", "AB+", "AB-", "O+", "O-"]

  /** `min: 45` on `weight`. */
  const MinWeight: real := 45.0

  /** `minlength: 3` on `fullName`. */
  const MinFullNameLength: nat := 3

  /** The profile paths of a donor document; `None` is a path that was
      never set.  `dob` is a timestamp in milliseconds. */
  datatype DonorProfile = DonorProfile(
    fullName: Option<string>, dob: Option<int>, weight: Option<real>,
    bloogGroup: Option<string>, email: Option<string>, phone: Option<string>,
    whatsapp: Option<string>, state: Option<string>)

  // ---------------------------------------------------------------------
  // Setters
  // ---------------------------------------------------------------------

  function TrimPath(v: Option<string>): (r: Option<string>)
    ensures r.Some? <==> v.Some?
    ensures r.Some? ==> r.value == Trim(v.value)
  {
    match v
    case None => None
    case Some(s) => Some(Trim(s))
  }

  /** `trim: true, lowercase: true` on `email`: the input with the
      whitespace around it removed and lower-cased, neither starting nor
      ending with whitespace and holding no upper-case ASCII letter. */
  function NormalizeEmail(s: string): (r: string)
    ensures exists i :: LowerTrimmedAt(s, r, i)
    ensures r == [] || (!IsJsWhitespace(r[0]) && !IsJsWhitespace(r[|r| - 1]))
    ensures forall i | 0 <= i < |r| :: !('A' <= r[i] <= 'Z')
  {
    var t := Trim(s);
    LowerCharKeepsWhitespaceAll(t);
    var i :| TrimmedAt(s, t, i);
    LowerOfTrimmed(s, t, i);
    Lower(t)
  }

  /** What the schema's setters store when the paths are assigned: every
      string path trimmed, the email lower-cased as well; `weight`'s
      `trim` does nothing to a number. */
  function ApplySetters(p: DonorProfile): (q: DonorProfile)
    ensures q.dob == p.dob && q.weight == p.weight
    ensures q.fullName == TrimPath(p.fullName) && q.bloogGroup == TrimPath(p.bloogGroup)
    ensures q.phone == TrimPath(p.phone) && q.whatsapp == TrimPath(p.whatsapp)
    ensures q.state == TrimPath(p.state)
    ensures q.email.Some? <==> p.email.Some?
    ensures q.email.Some? ==> q.email.value == NormalizeEmail(p.email.value)
  {
    DonorProfile(
      TrimPath(p.fullName), p.dob, p.weight, TrimPath(p.bloogGroup),
      match p.email case None => None case Some(e) => Some(NormalizeEmail(e)),
      TrimPath(p.phone), TrimPath(p.whatsapp), TrimPath(p.state))
  }

  lemma TrimPathIdempotent(v: Option<string>)
    ensures TrimPath(TrimPath(v)) == TrimPath(v)
  {
    if v.Some? {
      TrimIdempotent(v.value);
    }
  }

  /** Normalising a normalised email changes nothing. */
  lemma NormalizeEmailIdempotent(s: string)
    ensures NormalizeEmail(NormalizeEmail(s)) == NormalizeEmail(s)
  {
    var t := Trim(s);
    TrimLowerCommute(t);
    TrimIdempotent(s);
    LowerIdempotent(t);
  }

  /** Assigning a stored value again stores the same value: the setters are
      idempotent. */
  lemma SettersIdempotent(p: DonorProfile)
    ensures ApplySetters(ApplySetters(p)) == ApplySetters(p)
  {
    TrimPathIdempotent(p.fullName);
    TrimPathIdempotent(p.bloogGroup);
    TrimPathIdempotent(p.phone);
    TrimPathIdempotent(p.whatsapp);
    TrimPathIdempotent(p.state);
    if p.email.Some? {
      NormalizeEmailIdempotent(p.email.value);
    }
  }

  // ---------------------------------------------------------------------
  // Validators
  // ---------------------------------------------------------------------

  /** `required: true, minlength: 3` (a required string must be non-empty,
      which the minimum length already implies). */
  predicate FullNameValid(name: Option<string>) {
    name.Some? && |name.value| >= MinFullNameLength
  }

  /** `required: true, min: 45`. */
  predicate WeightValid(weight: Option<real>) {
    weight.Some? && weight.value >= MinWeight
  }

  /** `required: true, enum: [...]`. */
  predicate BloodGroupValid(group: Option<string>) {
    group.Some? && group.value != "" && group.value in BloodGroups
  }

  /** The optional email: a custom validator does not run on an unset path. */
  predicate EmailValid(email: Option<string>) {
    email.None? || IsDonorEmail(email.value)
  }

  /** `required: true` and `/^[0-9]{10}$/`. */
  predicate PhoneValid(phone: Option<string>) {
    phone.Some? && phone.value != "" && IsTenDigits(phone.value)
  }

  /** The optional whatsapp number, `/^[0-9]{10}$/` when set. */
  predicate WhatsappValid(whatsapp: Option<string>) {
    whatsapp.None? || IsTenDigits(whatsapp.value)
  }

  /** The schema's validation of a stored profile. */
  predicate ProfileValid(p: DonorProfile) {
    && FullNameValid(p.fullName)
    && p.dob.Some?
    && WeightValid(p.weight)
    && BloodGroupValid(p.bloogGroup)
    && EmailValid(p.email)
    && PhoneValid(p.phone)
    && WhatsappValid(p.whatsapp)
    && p.state.Some? && p.state.value != ""
  }

  /** What a valid profile guarantees: every required path is set, the name
      has at least three characters, the weight is at least 45, the blood
      group is one of the eight, the phone (and whatsapp, if any) is ten
      ASCII digits, and the email, if any, is in the language of
      `^([\w-\.]+@([\w-]+\.)+[\w-]{2,4})?$`. */
  lemma ValidProfileMeans(p: DonorProfile)
    requires ProfileValid(p)
    ensures p.fullName.Some? && p.dob.Some? && p.weight.Some? && p.bloogGroup.Some?
            && p.phone.Some? && p.state.Some?
    ensures |p.fullName.value| >= 3 && p.weight.value >= 45.0
    ensures p.bloogGroup.value in {"A+", "A-", "B+", "B-", "AB+", "AB-", "O+", "O-"}
    ensures |p.phone.value| == 10 && forall i | 0 <= i < 10 :: '0' <= p.phone.value[i] <= '9'
    ensures p.whatsapp.Some? ==>
      |p.whatsapp.value| == 10 && forall i | 0 <= i < 10 :: '0' <= p.whatsapp.value[i] <= '9'
    ensures p.email.Some? ==> DonorEmailRegex(p.email.value)
  {
    if p.email.Some? {
      DonorEmailCheckerIsRegex(p.email.value);
    }
  }

  /** The empty email passes: the whole pattern is optional. */
  lemma EmptyEmailAccepted(p: DonorProfile)
    requires p.email == Some("")
    ensures EmailValid(p.email) && DonorEmailRegex(p.email.value)
  {
  }

  // ---------------------------------------------------------------------
  // Hooks and tokens
  // ---------------------------------------------------------------------

  /** The first hook's formula: the years elapsed between `dob` and `now`,
      read off as `|getUTCFullYear(now - dob) - 1970|`; `utcYear` is the
      calendar year of a millisecond timestamp. */
  function AgeOf(dob: int, now: int, utcYear: int -> int): nat {
    var years := utcYear(now - dob) - 1970;
    if years < 0 then -years else years
  }

  /** A donor document.  The pre-save hooks write `age` and `password`;
      `passwordModified` is mongoose's `isModified("password")`. */
  class DonorDocument {
    const id: string
    var profile: DonorProfile
    var age: Option<int>
    var username: Option<string>
    var password: Option<string>
    var passwordModified: bool

    /** A modified password path always holds a value. */
    ghost predicate Valid()
      reads this
    {
      passwordModified ==> password.Some?
    }

    /** A new document: paths pass through their setters, and a password
        given at creation counts as modified. */
    constructor (id: string, input: DonorProfile, username: Option<string>, password: Option<string>)
      ensures Valid()
      ensures this.id == id && profile == ApplySetters(input) && age == None
      ensures this.username == username && this.password == password
      ensures passwordModified == password.Some?
    {
      this.id := id;
      profile := ApplySetters(input);
      age := None;
      this.username := username;
      this.password := password;
      passwordModified := password.Some?;
    }

    /** Assigning the password path.  Mongoose marks the path modified
        only when the new value differs from the current one (a path that was
        already modified stays so). */
    method SetPassword(p: string)
      requires Valid()
      modifies this
      ensures Valid()
      ensures password == Some(p)
      ensures passwordModified == (old(passwordModified) || old(password) != Some(p))
      ensures profile == old(profile) && age == old(age) && username == old(username)
    {
      passwordModified := passwordModified || password != Some(p);
      password := Some(p);
    }

    /** `save()`: validation first, and an invalid document is not saved
        and not touched; then the age hook, which writes `age` only, and the
        password hook, which hashes the password only when it was modified.
        A saved document has no modified paths. */
    method Save(now: int, utcYear: int -> int, hash: string -> string) returns (saved: bool)
      requires Valid()
      modifies this
      ensures Valid()
      ensures saved == ProfileValid(old(profile))
      ensures !saved ==> unchanged(this)
      ensures saved ==> profile == old(profile) && username == old(username)
      ensures saved ==> age == Some(AgeOf(profile.dob.value, now, utcYear))
      ensures saved ==> password == if old(passwordModified) then Some(hash(old(password).value))
                                    else old(password)
      ensures saved ==> !passwordModified
    {
      if !ProfileValid(profile) {
        return false;
      }
      age := Some(AgeOf(profile.dob.value, now, utcYear));
      if passwordModified {
        password := Some(hash(password.value));
      }
      passwordModified := false;
      saved := true;
    }

    /** The payload `generateAuthToken` passes to `jwt.sign` (which adds
        `iat` and `exp` of its own, not modelled here): `_id`, `username`, `fullName` and `email`, each only when it has a
        value (an undefined claim is dropped when the payload is
        serialised). */
    function AccessTokenClaims(): (claims: map<string, string>)
      reads this
      ensures "_id" in claims && claims["_id"] == id
      ensures claims.Keys <= {"_id", "username", "fullName", "email"}
      ensures "username" in claims <==> username.Some?
      ensures "fullName" in claims <==> profile.fullName.Some?
      ensures "email" in claims <==> profile.email.Some?
      ensures "username" in claims ==> claims["username"] == username.value
      ensures "fullName" in claims ==> claims["fullName"] == profile.fullName.value
      ensures "email" in claims ==> claims["email"] == profile.email.value
    {
      map["_id" := id]
      + (if username.Some? then map["username" := username.value] else map[])
      + (if profile.fullName.Some? then map["fullName" := profile.fullName.value] else map[])
      + (if profile.email.Some? then map["email" := profile.email.value] else map[])
    }

    /** The payload `generateRefreshToken` passes to `jwt.sign`: the id alone. */
    function RefreshTokenClaims(): (claims: map<string, string>)
      reads this
      ensures claims.Keys == {"_id"} && claims["_id"] == id
    {
      map["_id" := id]
    }
  }

  /** The refresh payload is a part of the access payload, and neither
      names the password. */
  lemma RefreshClaimsWithinAccess(d: DonorDocument)
    ensures var a, r := d.AccessTokenClaims(), d.RefreshTokenClaims();
      r.Keys <= a.Keys && (forall k | k in r :: r[k] == a[k])
      && "password" !in a && "password" !in r
  {
  }

  /** Saving twice hashes once: after one save the password is no longer
      modified, so a second save keeps the stored hash. */
  method SaveTwice(d: DonorDocument, now: int, later: int, utcYear: int -> int, hash: string -> string)
    requires d.Valid() && ProfileValid(d.profile) && d.passwordModified
    modifies d
    ensures d.profile == old(d.profile)
    ensures d.password == Some(hash(old(d.password).value))
    ensures d.age == Some(AgeOf(d.profile.dob.value, later, utcYear))
  {
    var first := d.Save(now, utcYear, hash);
    var second := d.Save(later, utcYear, hash);
  }

  /** Assigning a saved document the password it already holds and saving
      it again keeps the stored hash: the path is not modified, so the hook
      does not hash the hash. */
  method ReassignAndSave(d: DonorDocument, now: int, utcYear: int -> int, hash: string -> string)
    requires d.Valid() && ProfileValid(d.profile) && !d.passwordModified && d.password.Some?
    modifies d
    ensures d.password == old(d.password)
    ensures !d.passwordModified
  {
    var stored := d.password.value;
    d.SetPassword(stored);
    var saved := d.Save(now, utcYear, hash);
  }
}
