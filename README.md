# Medtrack expiry alerts, inventory routes and registration, in Dafny

Medtrack is an Express/Mongoose back end for a personal medicine inventory.
This project models three parts of it and proves properties of the models.

- **The daily expiry-alert pass** (`scripts/sendExpiryEmails.js`). For each
  user it sends one mail per medicine expiring today, then one consolidated
  mail for the medicines expiring within the next seven days. Medicines
  already alerted today are skipped, and each medicine that got a mail is
  stamped with `lastAlertSent = today`. The pass is written twice: once as
  functions over a `Pass` value (medicines, mails attempted, aborted flag),
  and once as imperative methods over an `Inventory.Store` and a `Mailer`
  object. `SendExpiryEmails` is proved to compute exactly what `Run` does.
  The properties are proved as lemmas about `Run`: only stamps are written,
  a medicine alerted today is skipped, no medicine appears in two mails of
  one run, a stamp follows a successful send, a failed send ends the run, a
  completed run leaves every due medicine alerted, and a second run on the
  same day sends nothing.
- **The medicine routes** (`routes/medicine.js`). `Inventory.Store` holds the
  medicines and the inventory log. Its methods are the five handlers. All
  lookups are scoped to the calling user. PATCH checks the field whitelist,
  logs a quantity change as "Stock Added" or "Stock Used" with the absolute
  difference, and then applies the fields. Create and delete each write
  exactly one log entry.
- **The registration slice** (`routes/auth.js`). This covers e-mail
  normalisation (`toLowerCase().trim()`), the OTP store behind
  `/request-otp`, and the guard order of `/register`. It also covers the
  password guard of `/reset-password/:token`.

Time is integer milliseconds. A calendar day is `t / MsPerDay`, and
"midnight" is a multiple of `MsPerDay` (`Calendar`). The mail transport is a
`Mailer` object: it records every attempt, and attempt number `n` fails
exactly when `n` is in its `failing` set. Password hashing is a function
parameter `hash`. The random OTP draw is the integer parameter `k`, and the
code is `100000 + k`.

Modules: `Records` holds the shared documents, `Calendar` the day
abstraction, `Inventory` the medicine routes, `ExpiryAlerts` the daily pass
and `Accounts` the registration slice.

Two behaviours of the code are worth stating plainly:

- A single `try` wraps the whole loop over users
  (`scripts/sendExpiryEmails.js:29-123`). So the first failed send ends the
  pass, and the users after it get no mail in that run. `RunStopsAtFailure`
  states this, and `FailureForOneUserSkipsTheRest` shows a second user whose
  due medicine gets no mail.
- `/register` looks up the OTP by the e-mail exactly as sent
  (`routes/auth.js:57`), while `/request-otp` stores it under the normalised
  e-mail (`routes/auth.js:28-37`). `models/OtpVerification.js` is not part of
  this model. Provided that schema declares no lowercase or trim setter on
  `email`, registration only succeeds for an address that is already
  normalised (`OtpLookupNeedsNormalizedEmail`,
  `UnnormalizedEmailNeverMatches`).

## Model

| member | source | states |
|---|---|---|
| Calendar.StartOfDay | scripts/sendExpiryEmails.js:31-32 | `today.setHours(0,0,0,0)` gives a midnight on the same day, at or before the time, less than a day earlier |
| Calendar.SameDayIsEquivalence | scripts/sendExpiryEmails.js:16-22 | `isSameDay` is reflexive, symmetric and transitive |
| Calendar.SameDayAsMidnight | scripts/sendExpiryEmails.js:16-22 | for a midnight `today`, being on the same day as `today` is exactly lying in `[today, today + 24h)` |
| Inventory.ProtectedFieldsRejected | routes/medicine.js:63-68 | a body naming `user`, `lastAlertSent`, `manufacturer` or `_id` is rejected |
| Inventory.QuantityLog | routes/medicine.js:78-84 | no log iff the quantity is unchanged; otherwise a positive amount, "Stock Added" exactly when the new quantity is larger and "Stock Used" exactly when it is smaller |
| Inventory.QuantityLogReplays | routes/medicine.js:79-84 | applying the logged action and amount to the old quantity gives the new quantity |
| Inventory.PatchLog | routes/medicine.js:77-88 | PATCH writes at most one log entry, exactly when the body holds a numeric quantity different from the stored one, naming the medicine, caller and time, and replaying to the new quantity |
| Inventory.ApplyFields | routes/medicine.js:90 | the loop assigning each body key leaves the medicine as `Patched` says, and reports a failed cast exactly when some value does not cast to its field's type |
| Inventory.PatchedFields | routes/medicine.js:90 | each field in the body takes the body's value; every field not in the body, and the id, owner, manufacturer and stamp, keep theirs |
| Inventory.FindOwned | routes/medicine.js:49 | a medicine is found exactly when one with that id belongs to the caller, and the one found does |
| Inventory.SortByExpiry | routes/medicine.js:38 | the result is sorted by expiry date and is a permutation of the input |
| Inventory.Build | routes/medicine.js:10-15 | a new document exists exactly when a non-empty name, a quantity and an expiry date are given; its owner is the caller whatever the body says, every supplied field (name, quantity, expiry date, description, price, manufacturer, stamp) is taken from the body, and absent optional fields take the schema defaults |
| Inventory.WithoutRemovesOnlyTarget | routes/medicine.js:103 | deleting one document removes exactly it (multiset), keeps all others and keeps ids unique |
| Inventory.Store.Create | routes/medicine.js:8-32 | 500 and nothing stored when the document is invalid; otherwise the medicine is appended with one "Added" log entry carrying its quantity |
| Inventory.Store.List | routes/medicine.js:35-44 | exactly the caller's medicines (as a multiset), sorted by expiry date |
| Inventory.Store.Get | routes/medicine.js:47-58 | found exactly when a medicine with that id belongs to the caller, else 404 |
| Inventory.Store.Patch | routes/medicine.js:61-98 | 400 for a non-whitelisted key and 404 for a missing or foreign medicine, with nothing changed; otherwise the quantity log is written, then the patched medicine is stored, or 400 with only the log written when a value does not cast |
| Inventory.Store.Delete | routes/medicine.js:101-124 | 404 and nothing changed when not found; otherwise the medicine is removed and one "Deleted" entry with amount 0 is logged |
| Inventory.Store.SaveAlertStamp | scripts/sendExpiryEmails.js:65-66 | `med.save()` after stamping writes `lastAlertSent` of that medicine and leaves every other modelled field and medicine, and the log, as they were |
| ExpiryAlerts.Mailer.Send | scripts/sendExpiryEmails.js:50-63 | every send is recorded as an attempt, and it fails exactly when its attempt number is scripted to fail |
| ExpiryAlerts.ExpiredTodayIsSameDay | scripts/sendExpiryEmails.js:37-43 | the expired-today query selects the owner's medicines expiring on the same calendar day as today |
| ExpiryAlerts.WindowsOverlapOnlyToday | scripts/sendExpiryEmails.js:37-77 | a medicine that expired before today is in neither window; one is in both windows exactly when it expires later today |
| ExpiryAlerts.Query | scripts/sendExpiryEmails.js:37-43 | the query returns, in store order, exactly the owner's medicines in the window |
| ExpiryAlerts.QueryIgnoresStamps | scripts/sendExpiryEmails.js:71-77 | stamps written by the first loop do not change what the second query returns |
| ExpiryAlerts.Pending | scripts/sendExpiryEmails.js:80-82 | the filter keeps exactly the queried medicines not alerted today, in order |
| ExpiryAlerts.MarkAll | scripts/sendExpiryEmails.js:111-114 | every listed medicine gets `lastAlertSent = today` and every other one is unchanged |
| ExpiryAlerts.RunSound | scripts/sendExpiryEmails.js:35-118 | the pass writes only stamps, its mails stay within their windows, it stamps only after a successful send, stamps everything it sent, and lists no medicine twice |
| ExpiryAlerts.RunOnlyStamps | scripts/sendExpiryEmails.js:65-112 | every medicine ends unchanged or stamped today, and only if it was not alerted today before |
| ExpiryAlerts.RunMailsInWindow | scripts/sendExpiryEmails.js:37-108 | every mail goes to a user and lists, without repeats, that user's medicines in the mail's window that were not alerted today |
| ExpiryAlerts.RunSkipsAlertedToday | scripts/sendExpiryEmails.js:45-82 | a medicine alerted earlier today is in no mail and keeps its record |
| ExpiryAlerts.RunStampsAfterSend | scripts/sendExpiryEmails.js:50-114 | a medicine is stamped only if a successful mail of this run listed it |
| ExpiryAlerts.RunAtMostOnce | scripts/sendExpiryEmails.js:45-114 | no medicine is listed in two mails of one run |
| ExpiryAlerts.RunStopsAtFailure | scripts/sendExpiryEmails.js:29-123 | the run is cut short exactly when an attempt failed, and that attempt is its last |
| ExpiryAlerts.RunCovers | scripts/sendExpiryEmails.js:35-118 | after a run that was not cut short, every due medicine of the listed users is alerted today |
| ExpiryAlerts.RunExpiredGetsOwnMail | scripts/sendExpiryEmails.js:45-66 | after a run that was not cut short, a medicine of a user that expires today and was not alerted today was listed in exactly one successful mail of the run, its own expired-today mail to a user with that id |
| ExpiryAlerts.RunSoonSkipsExpired | scripts/sendExpiryEmails.js:45-108 | no consolidated mail lists a medicine of its recipient that expires today: the expired-today loop stamped it first |
| ExpiryAlerts.RunQuiet | scripts/sendExpiryEmails.js:45-84 | when everything due is already alerted today, the run sends nothing and changes nothing |
| ExpiryAlerts.SecondRunSendsNothing | scripts/sendExpiryEmails.js:24-124 | after a completed run, a second run the same day sends nothing and changes nothing, whatever its mailer does |
| ExpiryAlerts.SendExpiredMails | scripts/sendExpiryEmails.js:45-68 | the first loop sends only per-medicine expired-today mails, all to the user being processed |
| ExpiryAlerts.AlertUserMails | scripts/sendExpiryEmails.js:35-117 | each user's mails go to that user, and a consolidated mail, if any, is the last of them |
| ExpiryAlerts.AlertExpired | scripts/sendExpiryEmails.js:45-68 | the loop over expired-today medicines computes exactly `SendExpired` |
| ExpiryAlerts.StampAll | scripts/sendExpiryEmails.js:111-114 | the stamping loop leaves the store as `MarkAll` says |
| ExpiryAlerts.AlertSoon | scripts/sendExpiryEmails.js:71-117 | the second query, filter, consolidated send and stamping compute exactly `SendSoon` |
| ExpiryAlerts.AlertOwner | scripts/sendExpiryEmails.js:35-118 | one iteration of the user loop computes exactly `AlertUser` |
| ExpiryAlerts.SendExpiryEmails | scripts/sendExpiryEmails.js:24-124 | the whole pass, from midnight of the run's day, leaves store and mailer exactly as `Run` says, and reports completion exactly when it was not cut short |
| ExpiryAlerts.ScenarioExpiredToday | scripts/sendExpiryEmails.js:37-68 | a medicine expiring today gets one mail and a stamp; one expiring in ten days gets neither |
| ExpiryAlerts.ScenarioExpiringSoon | scripts/sendExpiryEmails.js:71-114 | two medicines expiring in three days get one consolidated mail listing both, and both are stamped |
| ExpiryAlerts.FailureForOneUserSkipsTheRest | scripts/sendExpiryEmails.js:29-123 | when the first user's send fails, the second user's due medicine gets no mail and no stamp |
| Accounts.Trim | routes/auth.js:28 | the result is the slice of the input left after dropping the white space at its start and at its end: everything before and after it is white space and its own ends are not; it is empty exactly when the input is all white space |
| Accounts.Normalize | routes/auth.js:28 | the normalised e-mail is the lower-cased form of the input slice left after dropping leading and trailing white space; it has no upper-case ASCII letter and no surrounding white space |
| Accounts.TrimUnique | routes/auth.js:28 | any slice whose outside is all white space and whose ends are not white space is the trimmed string: trimming has exactly one answer |
| Accounts.NormalizeIdempotent | routes/auth.js:28 | normalising twice equals normalising once, and an e-mail is normalised exactly when it is its own normal form |
| Accounts.DecimalLength | routes/auth.js:32 | a number of `d` digits prints as `d` characters with no leading zero |
| Accounts.DecimalRoundTrip | routes/auth.js:32 | reading back the digits that `toString` prints gives the number |
| Accounts.OtpCode | routes/auth.js:32 | the code is six decimal digits with no leading zero, and reads back as the number `100000 + k` |
| Accounts.RemoveOtps | routes/auth.js:35 | `deleteMany` keeps exactly the records for other e-mails |
| Accounts.FindOtp | routes/auth.js:57 | a record is found exactly when one matches both e-mail and code, and the one found does |
| Accounts.FindUser | routes/auth.js:29 | a user is found exactly when one is stored under the normalised e-mail, and the one found is |
| Accounts.FindUserIgnoresSpelling | routes/auth.js:84-85 | an address typed with different letter case and with white space around it finds the same user as the plain address |
| Accounts.NormalizeIgnoresSurroundingSpace | routes/auth.js:28 | white space typed around an address does not change its normal form |
| Accounts.NormalizeIgnoresCase | routes/auth.js:28 | spellings that differ only in ASCII letter case have one normal form |
| Accounts.ResetPasswordAccepted | routes/auth.js:155-157 | the password passes exactly when it is present and holds a non-white-space character |
| Accounts.ReplaceKeepsOtpsValid | routes/auth.js:35-37 | delete-then-create leaves exactly one record for the e-mail and keeps records under distinct normalised e-mails |
| Accounts.RegisterOutcome | routes/auth.js:52-64 | the guards answer in the code's order: a missing field gives "All fields are required" whatever the stores hold; then no unexpired record for the e-mail as sent and the code gives "Invalid or expired OTP.", even when a user holds the address; then a user stored under the normal form gives "User already exists"; registration happens exactly when all three pass |
| Accounts.OtpLookupNeedsNormalizedEmail | routes/auth.js:57-62 | a record is only ever found for an e-mail that is already normalised |
| Accounts.UnnormalizedEmailNeverMatches | routes/auth.js:28-57 | an address typed with a capital or surrounding white space never finds the code stored for it |
| Accounts.Store.RequestOtp | routes/auth.js:23-48 | 400 with the OTP store unchanged for a missing e-mail or an existing user; otherwise the old records for the normalised e-mail are replaced by one with a six-digit code expiring ten minutes later |
| Accounts.Store.ReplaceOtp | routes/auth.js:35-37 | the old records for the new record's e-mail are deleted and the new record appended, keeping the store invariant |
| Accounts.Store.Register | routes/auth.js:51-78 | the answer is the guard `RegisterOutcome` picks, with status 400 for each refusal and nothing changed; on 201, one user is added under the (already normalised) e-mail with the next id, and no OTP record for it remains |
| Accounts.Store.AddUser | routes/auth.js:68-75 | the new user is appended, the OTPs keyed by the e-mail as sent are deleted, and the store invariant holds |

## Left out

- Save failures in the pass are not modelled. `med.save()` always succeeds in `SaveAlertStamp`, so a failing stamp write cannot end the pass.
- Inventory.Store.SaveAlertStamp: the `createdAt` and `updatedAt` fields that `timestamps: true` (`models/Medicine.js:38`) makes every save write are not modelled. The same holds for `Create` and `Patch`.
- Query failures in the pass are not modelled. `User.find` and `Medicine.find` (`scripts/sendExpiryEmails.js:30, 37, 71`) always answer, although a throw there would also end the pass through the `catch` at line 121.
- The mail transport, sender addresses, subjects and HTML bodies are left out (nodemailer; `scripts/sendExpiryEmails.js:8-14`, `routes/auth.js:14-20, 40-45, 113-142`). A mail is its recipient and the medicines it lists.
- The sending of the OTP mail in `/request-otp` is left out. Its failure, after the record was stored, is not modelled.
- bcrypt and JWT are foreign libraries. The hash is a function parameter, and the token checks of `/reset-password/:token`, `/login` and `middleware/auth.js` are not modelled. Only the password-presence guard is.
- `/login`, `/forgot-password` and `/me` are not modelled beyond the normalised user lookup (`FindUser`, `FindUserIgnoresSpelling`).
- `Math.random` is left out. The OTP is `100000 + k` for an integer parameter `k < 900000`.
- The database connection, the cron wiring in `scripts/expiryAlert.js`, `scripts/cleanupInventoryLogs.js`, `utils/mailer.js` and `models/Log.js` are left out. They hold no logic of their own.
- Time zones are abstracted. A day is `t / MsPerDay`, so local-time `setHours` and `isSameDay` are day numbers in one fixed offset.
- JavaScript coercion is not modelled. A request value is either text or an integer.
- Inventory.PatchLog: a quantity sent as text (such as `"5"`) writes no log in the model, whereas JavaScript's `-` would coerce it.
- Prices and quantities are integers. Floating-point numbers are not modelled.
- `category` is on the PATCH whitelist but is not a schema field. Strict mode drops it, so in the model it changes nothing.
- The routes write the log amount as `quantityChanged`, but `models/InventoryLog.js:11` names the field `quantity`. Under strict mode the stored document would lose the amount. The model keeps the amount the routes compute.
- Accounts.Lower: only ASCII letters are lower-cased. `toLowerCase` also folds other Unicode letters.
- Concurrent requests, overlapping runs and the Mongo `_id` format are left out. The model hands out ids from a counter (but see `Inventory.Build` below).
- Inventory.Build: an `_id` sent in the POST body is not modelled. `new Medicine({ ...req.body, user })` (`routes/medicine.js:10-13`) would keep it, and a duplicate would make the save fail with 500; the model always takes the next counter value.
- Inventory.FieldCasts: Mongoose casting is not modelled. Numeric text for a number field, a number for a text field, or a date string for `expiryDate` is a cast error (400, nothing but the log written) in the model, while the code stores the cast value and answers 200.
- Mongoose errors other than cast and validation errors (the 500 answers of the routes' `catch` blocks) are left out.
