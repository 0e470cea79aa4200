# second-serve: a Dafny model of its authentication, authorisation and status logic

second-serve is an Express application that connects food donors with
orphanages. This project models its core over an in-memory store. The store
holds three tables, each a map from a MongoDB ObjectId to a record: donors
(admins included), orphanages and donations.

The model covers:

- the passport LocalStrategy callback. It checks the donor table first and
  the orphanage table second.
- the `{id, model}` session reference, produced by `serializeUser` and read
  by `deserializeUser`.
- the role-to-landing-path mapping. The root route and a successful login
  share it.
- donor and orphanage signup: the `$and` duplicate query, then
  `register`, then `req.login`.
- the partial `$set` updates of the donor profile, the orphanage profile and
  the verification submission.
- the three donation status routes and the three admin status routes.
- the delete routes.
- donation creation.
- the `setCurrentUser` and `isLoggedIn` middleware.
- the field rules of the three Mongoose schemas: enums, defaults, the image
  setter, the ten-digit phone pattern, and the required and unique fields.

Files:

- `Base.dfy`: identifiers, `Option`, form-string truthiness, the
  conditional spread and the keep-or-replace of a `$set` field, flash
  notices and replies.
- `Donors.dfy`, `Orphanages.dfy`, `Donations.dfy`: the three schemas as
  datatypes. Each has the functions `register`/`save` and
  `findByIdAndUpdate` compute on its table, and the lemmas about them.
- `Session.dfy`: the logged-in principal, donor-first resolution, the
  session codec and the landing paths.
- `Middleware.dfy`: the `Exchange` class stands for one request/response
  pair. Its fields are the session reference, `req.user`,
  `res.locals.currUser`, the flash queue and the reply. It holds the two
  middleware functions.
- `App.dfy`: the `Server` class holds the three tables and the ObjectId
  counter. It has one method per route handler, and each method keeps the
  store invariant `Valid()`: the unique indexes hold, every orphanage has
  its default role, and every stored id was handed out.

Password hashing and checking are outside the model:

- Signup receives the stored credential as a parameter.
- Login receives a `Verifier` function that stands for passport-local-mongoose's
  `authenticate`.
- ObjectId generation is a counter shared by the three collections.

Three behaviours of the code shape the model:

- The signup duplicate check is `$and`: a signup is turned away only when one
  stored record has both the username and the email. Its message says "email
  or username".
- The orphanage role string is `'orphanage'`, and the landing map tests for
  that string.
- Every status change is an unconditional overwrite, with no state machine
  and no ownership check.

Unique indexes and validators:

- The unique indexes live in the schemas: passport-local-mongoose's
  `username`, plus `email`, and for donors also `phone`.
- `register` therefore fails when the new record shares any one of those
  fields with a stored record, even though the route's `$and` query finds
  no duplicate.
- `findByIdAndUpdate` runs no validators. An update can therefore store a
  phone that breaks the pattern, or a negative children count.
- An update that breaks a unique index rejects the handler's promise.
  Nothing is stored, flashed or sent.
- The `min: 0` validator on the children count never decides anything.
  Signup sends no count, so the default 0 is saved. The edits skip
  validators, as `Orphanages.EditSkipsMinimum` shows.
- The image setter's placeholder branch is never reached through a route.
  Signup sends no image, and the edits put an image in `$set` only when it is
  non-empty.

## Model

| member | source | states |
|---|---|---|
| Donors.CastRole | models/donors.js:11-15 | an absent role becomes `donor`; a submitted role is stored exactly when it is `donor` or `admin`, and under that name |
| Donors.MatchesDigitsIff | models/donors.js:19 | reading `^\d{k}$` left to right accepts exactly the strings of length k made only of decimal digits |
| Donors.PhonePatternAgrees | models/donors.js:16-21 | the phone pattern accepts a string iff it is exactly ten decimal digits |
| Donors.InsertKeepsUnique | models/donors.js:6-10 | storing a donor under a fresh id that clashes with no donor keeps the username, email and phone indexes unique |
| Donors.ReplaceKeepsUnique | models/donors.js:16-21 | replacing a donor by a record that clashes with no other donor keeps the indexes unique |
| Donors.Register | app.js:161-162 | registration stores a record iff the role casts, the username, the password and the email are non-empty, the phone is ten digits, and no stored donor shares the username, the email or the phone; the record has the submitted fields, the given credential and the defaulted or submitted role |
| Donors.RegisterRefusesAnySharedField | models/donors.js:20 | a signup that shares any one uniquely indexed field with a stored donor is refused by `register` |
| Donors.SelfRegisteredAdmin | app.js:151 | a client that submits role `admin` and registers gets an admin account |
| Donors.ApplySet | app.js:284-290 | a `$set` on a donor never changes its role or its credential |
| Donors.UpdateFieldwise | app.js:284-290 | a profile update replaces username, email and phone exactly where the submitted value is non-empty and keeps everything else |
| Donors.UpdateById | app.js:283-290 | `findByIdAndUpdate` fails iff the updated donor would clash with another; otherwise only the record with that id changes, to the `$set` applied to it, and an unknown id changes nothing |
| Donors.UpdateByIdKeepsUnique | app.js:283-290 | whenever the update is stored, the donor indexes stay unique |
| Donors.UpdateSkipsPhonePattern | app.js:283-290 | an update stores a phone that breaks the pattern, because no validator runs |
| Orphanages.SetImage | models/orphanages.js:9-13 | the empty string becomes the placeholder URL, every other value is kept, so the stored image is never empty |
| Orphanages.SetImageIdempotent | models/orphanages.js:11-12 | applying the setter twice equals applying it once |
| Orphanages.InsertKeepsUnique | models/orphanages.js:14-18 | storing an orphanage under a fresh id that clashes with no orphanage keeps the username and email indexes unique |
| Orphanages.ReplaceKeepsUnique | models/orphanages.js:14-18 | replacing an orphanage by a record that clashes with no other keeps the indexes unique |
| Orphanages.Register | app.js:197-198 | registration stores a record iff the phone is a number and the username, the password and the email are non-empty and differ from every stored orphanage's; the record has the submitted fields, role `orphanage`, location `Ballari`, children count 0, status `incomplete` (by name), and no image, description or address |
| Orphanages.ApplySet | app.js:473-483 | a `$set` on an orphanage never changes its role, location or credential, keeps the status when the document has none, and stores an image through the setter |
| Orphanages.EditFieldwise | app.js:473-483 | a profile edit replaces each of the seven fields exactly where the submitted value is non-empty, leaves the status untouched, and stores a non-empty image as submitted |
| Orphanages.VerificationIsEditThenPending | app.js:445-456 | a verification submission equals the profile edit followed by status `pending`, whatever the prior status, and the stored status is named `pending` |
| Orphanages.UpdateById | app.js:472-483 | `findByIdAndUpdate` fails iff the updated orphanage would clash with another; otherwise only the record with that id changes, and an unknown id changes nothing |
| Orphanages.UpdateByIdKeepsInvariants | models/orphanages.js:19-22 | a stored update keeps the indexes unique and every role at its default |
| Orphanages.EditSkipsMinimum | app.js:472-483 | an edit stores a negative children count, because no validator runs |
| Orphanages.SetStatus | app.js:506-508 | the admin setter overwrites one orphanage's status and keeps every other field and record and the key set |
| Orphanages.SetStatusLastWins | app.js:502-533 | a second status write undoes the first whatever either value is, so the setter is idempotent and no status is terminal |
| Orphanages.SetStatusKeepsInvariants | app.js:502-533 | a status write keeps the unique indexes and the default roles |
| Donations.Create | models/donation.js:7-41 | `save` stores a donation iff all seven required fields are present; it has the submitted values and the status named `pending` |
| Donations.SetStatus | app.js:349-351 | the donation setter overwrites one donation's status and keeps every other field and record and the key set |
| Donations.SetStatusLastWins | app.js:345-376 | a second status write undoes the first whatever either value is, so the setter is idempotent and no status is terminal |
| Donations.ReceivedIsNotTerminal | app.js:345-365 | a received donation can still be accepted or rejected |
| Session.ResolutionIsUnique | app.js:68-94 | with unique usernames at most one principal satisfies the strategy, and when the donor table accepts, that principal is the donor |
| Session.Serialize | app.js:95-101 | the reference keeps the id, and its tag is `Donor` exactly for roles `donor` and `admin` and `Org` otherwise |
| Session.Deserialize | app.js:102-114 | a `Donor` tag is looked up only in the donor table and any other tag only in the orphanage table; a user comes back iff the id is in that table |
| Session.RoundTrip | app.js:95-110 | deserializing the reference of a principal stored in the table of its role gives back that principal |
| Session.DeletedPrincipalYieldsNone | app.js:295-311 | once the principal's id is deleted from its table, its reference yields no user |
| Session.StoredRecordsRoundTrip | app.js:95-110 | when every orphanage has its default role, every record stored in either table comes back from its own reference |
| Session.RoleOutsideItsTableIsLost | app.js:96-99 | an orphanage whose role read `admin` would be looked up in the donor table and not be found; the store never holds one |
| Session.Landing | app.js:128-135 | the landing path is `/admin/dashboard` iff the role is `admin`, `/orphanage/dashboard` iff it is `orphanage`, and `/donor/index` otherwise |
| Session.LandingByKind | app.js:227-233 | an admin donor lands on the admin dashboard, any other donor on the donor index, and an orphanage with its default role on the orphanage dashboard |
| Middleware.Admit | middleware.js:7-13 | the guard continues iff the request is authenticated, and otherwise carries the login notice and the login path |
| Middleware.Exchange.SetCurrentUser | middleware.js:1-4 | `currUser` becomes the request's user, possibly none, and the chain continues |
| Middleware.Exchange.IsLoggedIn | middleware.js:7-13 | authenticated: it continues with nothing queued or sent; otherwise exactly one error notice is queued, the reply redirects to `/login` and the chain stops; user and session are untouched |
| Middleware.GuardTwice | middleware.js:7-13 | running the guard twice gives the same decision both times and changes neither user nor session |
| App.Guard | app.js:127 | the `setCurrentUser, isLoggedIn` chain admits iff a user is attached; otherwise one login notice is queued and the reply is `/login` |
| App.Root | app.js:125-137 | a logged-in user is sent to the landing path of their role with no notice |
| App.Logout | app.js:237-245 | the user and the session reference are dropped, one success notice is queued, and the reply is `/login` |
| App.Server.RestoreUser | app.js:102-115 | the request's user is what the stored reference deserializes to; a reference that yields no user is dropped from the session |
| App.Server.FindDonorByUsername | app.js:72 | the lookup finds the one donor with that username, or none iff no donor has it |
| App.Server.FindOrgByUsername | app.js:81 | the lookup finds the one orphanage with that username, or none iff no orphanage has it |
| App.Server.Authenticate | app.js:68-94 | authentication succeeds iff the donor table or the orphanage table accepts the credentials; the user is the donor whenever the donor table accepts; a failure carries `Invalid username or password` |
| App.Server.Login | app.js:222-234 | on failure: back to `/login` with no notice and nothing changed; on success: the resolved user is attached, its reference is stored, a welcome notice with the username is queued, and the reply is the role's landing path |
| App.Server.SignupDonor | app.js:148-175 | a record matching both username and email sends the client to `/login` with the table unchanged; otherwise a failed `register` leads back to `/signup-donor` with the table unchanged, and a stored donor gets a fresh id, is logged in, and is sent to `/donor/index` |
| App.Server.SignupOrg | app.js:185-212 | the same three outcomes over the orphanage table, with the orphanage messages and `/signup-org` and `/orphanage/dashboard` |
| App.Server.UpdateDonor | app.js:279-293 | past the guard, the donor with the route's id gets the truthy fields; when the update is stored one success notice is queued and the reply is `/donor/index`; a clash changes nothing |
| App.Server.DeleteDonor | app.js:295-302 | past the guard, the donor with the route's id is removed and the reply is `/donor/index` |
| App.Server.DeleteOwnDonor | app.js:304-311 | past the guard, the logged-in user's id is removed from the donor table and the reply is `/login` |
| App.Server.CreateDonation | app.js:323-343 | with no guard, a donation that passes the schema is stored under a fresh id with status `pending` and the reply is `/donor/index`; otherwise nothing is stored, an error notice is queued and the reply is status 400 |
| App.Server.SetDonationStatus | app.js:345-376 | past the guard, the donation's status is overwritten and the route's notice and path are answered |
| App.Server.AcceptDonation | app.js:345-354 | past the guard, status `accepted`, notice `Donation accepted successfully`, reply `/orphanage/donations-request` |
| App.Server.RejectDonation | app.js:356-365 | past the guard, status `rejected`, an error notice, reply `/orphanage/donations-request` |
| App.Server.MarkReceived | app.js:367-376 | past the guard, status `received`, reply `/orphanage/pending-donation` |
| App.Server.WriteOrg | app.js:445-458 | an uncastable Number field or an index clash changes nothing and sends nothing; otherwise the document is applied and the reply is `/orphanage/dashboard` |
| App.Server.SubmitVerification | app.js:438-459 | past the guard, the logged-in user's orphanage record gets the truthy fields and status `pending` |
| App.Server.EditOrg | app.js:468-486 | past the guard, the orphanage with the route's id gets the truthy fields and keeps its status |
| App.Server.DeleteOwnOrg | app.js:549-556 | past the guard, the logged-in user's id is removed from the orphanage table and the reply is `/login` |
| App.Server.SetOrgStatus | app.js:502-533 | past the guard, the orphanage's status is overwritten, whoever is logged in |
| App.Server.VerifyOrg | app.js:502-511 | past the guard, status `verified`, reply `/admin/pending-org` |
| App.Server.RejectOrg | app.js:513-522 | past the guard, status `rejected`, an error notice, reply `/admin/pending-org` |
| App.Server.RejectVerifiedOrg | app.js:524-533 | past the guard, status `rejected`, an error notice, reply `/admin/verified-org` |

Every enum (the donor role, the orphanage status, the donation status) is a
Dafny datatype. A stored value is therefore always one of the listed members.

## Left out

- Password hashing, salting and checking inside passport-local-mongoose are
  foreign library code. They become a credential parameter and a `Verifier`
  function.
- passport-local refuses an empty username or password before the
  callback runs. That check is library code and is not modelled.
- Session regeneration at login, the session store and the cookie
  configuration (app.js:31-62) are not modelled. The session is one
  optional `{id, model}` reference.
- The database connection, `init/index.js` and its seed data are I/O and
  are not part of this model.
- The rendering routes are not modelled: EJS views, `populate`, the
  `find({})` listings, the GET signup and login pages, and the flash
  variables copied into `res.locals` (app.js:117-122).
- Errors thrown while a promise is pending are not modelled beyond
  "nothing stored, flashed or sent": no error handler and no exact
  ValidationError text. `next` is undefined inside the `req.login`
  callbacks, so those error branches are left out too.
- Route ids are modelled as already-cast ObjectIds. A malformed id string
  makes a CastError, and that is not modelled.
- JavaScript's Number cast of a form field is modelled as the three cases
  of `NumInput`: empty, a number, or not a number. Decimal and exponent
  forms are not distinguished, and `"0"` counts as truthy the way a
  non-empty string does.
- The pickup date is an integer timestamp. Date parsing is not modelled.
- Donations.Create: its `ref` fields are not checked against the donor or
  orphanage tables, because Mongoose does not check them.
- The commented-out role guards (middleware.js:16-39) are not live code.
- Concurrency between requests and its races are outside a sequential
  model.
