# Blood-donation backend: OTP-gated camp registration and the donor document

This project models, in Dafny, the two pieces of the blood-donation backend
that hold logic of their own:

- **The donation-camp controller** (`src/controllers/camp.controller.js`).
  Three request handlers run fail-fast guard sequences over the OTP,
  blood-bank and donation-camp collections. `sendEmailVerifyOTP` issues a
  pending verification OTP for an email, `verifyOTP` flips a matching
  pending OTP to verified, and `registerDonationCamp` validates the request
  and, given a verified OTP and no existing camp for the organizer email,
  inserts one camp. The collections are sequences in insertion order, and a
  `findOne` is the first record its query accepts. Each handler is a
  pure transition on a `Store` value (`IssueOtp`, `ConfirmOtp`,
  `RegisterCamp`), whose contract and lemmas state what the handler
  promises. It is also a method of the `Database` class, which runs the
  guards one by one, updates its collections in place and is proved to
  agree with its transition. Two quirks of the code are kept: verification
  ignores expiry, and registration never consumes the OTP.
- **The donor document** (`src/models/doner.model.js`): the schema's
  setters (`trim`, `lowercase`) and validators (name length, minimum weight,
  blood-group enum, the phone, whatsapp and email patterns). It also covers
  the two pre-save hooks (age from date of birth; hashing a modified
  password) and the payloads signed into the access and refresh tokens. The two email
  patterns are written twice: as the concatenation each pattern denotes,
  and as a scanning checker. Lemmas prove the two accept the same strings.
  The ten-digit pattern is a single predicate.

Files: `wrappers.dfy` (`Option`), `seqs.dfy` (`FindFirst`/`FindLast`, the
model of `findOne`), `text.dfy` (JavaScript character classes, `trim`,
lower-casing), `patterns.dfy` (the regular expressions),
`camp_controller.dfy`, `doner_model.dfy`.

Two behaviours of the code are worth knowing, and the model keeps both:

- Registration is not atomic. `DonationCamp.create` (camp.controller.js:138)
  runs before the token check (168-170), so a 500 "Token generation failed"
  leaves the camp inserted (`RegisterCamp`, `RegisterGuardOrder`).
- Only a blood bank with `emailVerified: true` blocks a new OTP
  (camp.controller.js:18-22). An email that already owns a donation camp can
  still be sent one.

## Model

| member | source | states |
|---|---|---|
| `Seqs.FindFirst` | src/controllers/camp.controller.js:53-57 | `findOne` over a collection: the result, if any, is accepted by the query and nothing before it is; none means no record is accepted |
| `Text.Trim` | src/models/doner.model.js:10 | the `trim` setter: the result is the input with only whitespace removed before and after it, starts and ends with non-whitespace, and is empty exactly when the input is all whitespace |
| `Text.TrimLowerCommute` | src/models/doner.model.js:42-43 | trimming and lower-casing commute, so the order of the email's two setters does not matter |
| `Patterns.CampEmailCheckerIsRegex` | src/controllers/camp.controller.js:14 | the email checker accepts exactly the strings matched by `^[a-zA-Z0-9._-]+@[a-zA-Z0-9.-]+\.[a-zA-Z]{2,4}$` |
| `Patterns.DomainCheckerIsRegex` | src/models/doner.model.js:46 | the domain checker accepts exactly the strings of `([\w-]+\.)+[\w-]{2,4}` |
| `Patterns.DonorEmailCheckerIsRegex` | src/models/doner.model.js:46 | the donor email checker accepts exactly the strings matched by `^([\w-\.]+@([\w-]+\.)+[\w-]{2,4})?$`, the empty string included |
| `CampController.FirstPendingMatch` | src/controllers/camp.controller.js:53-57 | the record `verifyOTP` finds is pending and matches email and code; none is found exactly when no record does |
| `CampController.NewOtp` | src/controllers/camp.controller.js:38 | the created OTP has the requested email, type `verification` and status pending |
| `CampController.IssueOtp` | src/controllers/camp.controller.js:10-43 | succeeds iff the email is present and well formed, no verified blood bank has it and no unexpired pending verification OTP exists for it; then exactly one pending OTP for it is appended and nothing else changes; every failure leaves the store unchanged |
| `CampController.IssueOtpFailures` | src/controllers/camp.controller.js:12-36 | missing email gives 400, malformed email gives 400, a verified blood bank gives 409 "Email already registered", a live pending OTP gives 409 "OTP already sent…", in that order |
| `CampController.ConfirmOtp` | src/controllers/camp.controller.js:46-67 | succeeds iff email and code are present and some pending record matches both; then exactly that one record becomes verified and every other record and collection is unchanged; every failure leaves the store unchanged |
| `CampController.ConfirmOtpFailures` | src/controllers/camp.controller.js:49-61 | a missing field gives 400 "Please provide all the required fields"; no pending match gives 400 "Invalid OTP" and no change |
| `CampController.ExpiredOtpStillVerifies` | src/controllers/camp.controller.js:53-59 | a pending OTP that has expired, and that issuing would ignore, still verifies |
| `CampController.NewCamp` | src/controllers/camp.controller.js:138-163 | the inserted camp carries the organizer email, password and all five address fields of the request, with address type "Camp" |
| `CampController.PublicCampObject` | src/controllers/camp.controller.js:172-173 | the returned camp object has no `password` key and keeps every other field of the stored camp |
| `CampController.RegisterCamp` | src/controllers/camp.controller.js:70-186 | the OTP and blood-bank collections never change; a failed guard changes nothing with status 400; when all guards pass exactly one camp is appended; success (201, both tokens as cookies, camp without password) iff all guards pass and both tokens are non-empty |
| `CampController.RegisterGuardOrder` | src/controllers/camp.controller.js:92-170 | the guards run in the order required fields, password match, address fields, verified OTP, existing camp, and the first failure decides the message; a missing token after insertion gives 500 "Token generation failed" |
| `CampController.SecondRegistrationRefused` | src/controllers/camp.controller.js:124-136 | after a registration for an email, the OTP is still verified and a later registration for it fails with "User already exists" and changes nothing |
| `CampController.RegisteredCampHidesPassword` | src/controllers/camp.controller.js:172-185 | the camp in a successful reply has no password and the requested organizer email |
| `CampController.OneLiveOtpPerEmailLater` | src/controllers/camp.controller.js:24-29 | if no email has two unexpired pending OTPs now, none has later |
| `CampController.IssueOtpPreservesInvariant` | src/controllers/camp.controller.js:24-38 | issuing keeps: at most one unexpired pending OTP per email, one camp per organizer email, every camp backed by a verified OTP |
| `CampController.ConfirmOtpPreservesInvariant` | src/controllers/camp.controller.js:53-65 | verifying keeps the same three collection invariants |
| `CampController.RegisterCampPreservesInvariant` | src/controllers/camp.controller.js:124-163 | registering keeps the same three collection invariants |
| `CampController.VerificationWalkthrough` | src/controllers/camp.controller.js:10-112 | issue for "a@b.com" succeeds, a wrong code gives "Invalid OTP" with no change, the right code verifies, and a registration with mismatched passwords gives "Passwords do not match" with no camp added |
| `CampController.Database.SendEmailVerifyOtp` | src/controllers/camp.controller.js:10-43 | the handler's reply and new collections are those of `IssueOtp` |
| `CampController.Database.VerifyOtp` | src/controllers/camp.controller.js:46-67 | the handler's reply and new collections, after updating the found record in place, are those of `ConfirmOtp` |
| `CampController.Database.RegisterDonationCamp` | src/controllers/camp.controller.js:70-186 | the handler's reply and new collections are those of `RegisterCamp` |
| `DonerModel.NormalizeEmail` | src/models/doner.model.js:42-43 | a stored email is the input with the whitespace around it removed and then lower-cased; it has no whitespace at either end and no upper-case ASCII letter |
| `DonerModel.ApplySetters` | src/models/doner.model.js:7-91 | the stored profile: string paths trimmed, email trimmed and lower-cased, date and weight as given |
| `DonerModel.SettersIdempotent` | src/models/doner.model.js:7-91 | assigning stored values again stores the same values |
| `DonerModel.ValidProfileMeans` | src/models/doner.model.js:7-91 | a valid profile has every required path, a name of at least 3 characters, weight at least 45, one of the 8 blood groups, a 10-digit phone, a 10-digit whatsapp if any, and an email in the pattern's language if any |
| `DonerModel.EmptyEmailAccepted` | src/models/doner.model.js:46 | the empty email passes the validator, the whole pattern being optional |
| `DonerModel.DonorDocument.constructor` | src/models/doner.model.js:5-110 | a new document stores its paths through the setters, has no age yet, and counts a given password as modified |
| `DonerModel.DonorDocument.SetPassword` | src/models/doner.model.js:122-123 | assigning the password stores it and leaves the path modified exactly when it already was or the new value differs from the stored one; nothing else changes |
| `DonerModel.DonorDocument.Save` | src/models/doner.model.js:112-127 | an invalid document is not saved and not changed; otherwise age is recomputed from `dob` and `now` as the absolute difference between 1970 and the UTC year of `now - dob`, the password is hashed iff it was modified, no other modelled path changes, and nothing is left modified |
| `DonerModel.SaveTwice` | src/models/doner.model.js:122-127 | saving twice hashes the password once and recomputes the age from the later time |
| `DonerModel.ReassignAndSave` | src/models/doner.model.js:122-127 | giving a saved document the password it already holds and saving again keeps the stored hash: it is not hashed a second time |
| `DonerModel.DonorDocument.AccessTokenClaims` | src/models/doner.model.js:135-147 | the payload `generateAuthToken` passes to `jwt.sign` holds `_id` with the id and, when set, `username`, `fullName` and `email` each with its own field's value, and nothing else |
| `DonerModel.DonorDocument.RefreshTokenClaims` | src/models/doner.model.js:150-159 | the payload `generateRefreshToken` passes to `jwt.sign` holds `_id` only |
| `DonerModel.RefreshClaimsWithinAccess` | src/models/doner.model.js:135-159 | the refresh payload is part of the access payload, and neither carries a password |

## Left out

- Request bodies: every text field is a string, and an absent field is the empty string; the guards' `!x` treats both alike. Numbers, arrays and other JSON values in a body are not modelled, so a numeric `estimatedParticipants` of 0 is not distinguished.
- The OTP, blood-bank and donation-camp models are not part of this model. The OTP code and expiry that `Otp.create` generates are inputs of `SendEmailVerifyOtp`, and the new record's status is taken to default to pending. Any setter of theirs (such as lower-casing emails) is absent, so emails compare exactly. The camp's password is stored as given, and any hashing hook of the camp model is not modelled.
- Token signing (`jwt.sign`) is foreign code. A donor token is modelled by the payload it is signed over. `jwt.sign` adds the registered claims `iat` and `exp` (from `expiresIn`) to both payloads; they are not modelled. A camp's tokens are inputs of `RegisterDonationCamp`, and an empty string stands for a failed signing.
- Password hashing (`bcrypt.hash`) is a function parameter of `Save`. `ispasswordCorrect` (`bcrypt.compare`) is foreign code and is not modelled.
- The calendar conversion `getUTCFullYear` is a function parameter of `Save` (`utcYear`); only the formula around it is modelled.
- `findOne` returns the first match in insertion order; the database's natural order is not modelled. Unique indexes (donor `email`, `phone`, `whatsapp`) are not modelled. `validateBeforeSave: false` is irrelevant because OTP validation is not modelled. Mongoose casting (for instance a string weight) is not modelled.
- The donor schema declares no `password` and no `username` path. Under mongoose's default strict mode such values are not persisted. The model keeps both as document fields, so the hook and the claim are modelled as the code writes them.
- `DonerModel.NormalizeEmail`: lower-cases ASCII letters only, whereas `toLowerCase` maps all of Unicode; a non-ASCII letter that lower-cases to an ASCII one (such as the Kelvin sign) is therefore not accepted by the model as it would be by the code.
- `DonerModel.ValidProfileMeans`: the name length is counted in Unicode scalar values, while `minlength` counts UTF-16 code units, so names with characters outside the Basic Multilingual Plane are measured shorter than the code measures them. A `NaN` weight is not modelled.
- The schema's `timestamps: true` (doner.model.js:107-109) makes mongoose write `updatedAt` on every save and `createdAt` on the first. These paths are not modelled, so `Save` says nothing about them.
- Concurrency: handlers run one at a time. The read-then-write races between concurrent OTP requests or registrations are not modelled.
- HTTP plumbing: the response envelope, cookie options, `asyncHandler` and the imported but unused `sendMail` are not modelled.
- `loginBloodBank`, `getBloodBank` and `logoutBloodBank` are not exported and depend on the blood-bank model; they are not modelled. `src/routes/doner.routes.js` is route wiring with rate limits only, and is not modelled.
