# Mindful Haven booking back end, modelled in Dafny

Mindful Haven is a yoga-studio web application. Its server side is a set of
route handlers over one relational database. This project models those
handlers as a sequential state machine over an in-memory database, and
proves what each route answers and what it writes.

The modelled routes are:
- signup and login;
- the bearer-token check `authenticate` with the role test `isAuthorized`, and the `withAuth` middleware;
- class creation and the class list;
- booking creation and the member's booking list;
- the payment-gateway order;
- payment verification, which confirms a booking.

Modules, one per source file plus shared ones:

| module | file | what it holds |
|---|---|---|
| `Wrappers`, `Http` | wrappers.dfy, http.dfy | `Option`; the JSON values a body field can hold, JavaScript truthiness, and replies (status plus value, error, or validation issues) |
| `Text` | text.dfy | `split` on one character and `split(" ")[1]`, with the split/join round trips |
| `Sorting` | sorting.dfy | the `orderBy` on an integer key, as an insertion sort |
| `Externals` | externals.dfy | the libraries and the configuration, as fields of `Env` |
| `Database` | database.dfy | the tables as rows in sequences, the lookups, and the constraints `Wf`. Also the `Store` class that the imperative handlers update in place |
| `AuthUtils` | auth_utils.dfy | `authenticate`, `isAuthorized` |
| `Authorise` | authorise.dfy | `withAuth` |
| `Login`, `Signup` | login.dfy, signup.dfy | the two auth routes |
| `Classes`, `Bookings` | classes.dfy, bookings.dfy | the class and booking routes |
| `RazorpayOrder`, `RazorpayVerify` | payment_order.dfy, payment_verify.dfy | the two payment routes |
| `Flows` | flows.dfy | properties across routes: book, then order, then pay; login tokens against the two token readers |

## How the model is built

- **Writing routes.** The routes that write (signup, class POST, booking POST, payment verify) each have two parts:
  - A spec function such as `PostSpec(env, db, …)` returns the reply and the database the route leaves. The lemmas are stated about it.
  - A method on `Store` implements the same guard chain step by step, and writes only the tables named in its `modifies` clause. Its `ensures` ties the reply and the new state to the spec function and keeps `Store.Valid()`.
- **Read-only routes.** `authenticate`, `withAuth`, login, the payment order and both GET lists are functions over the database.
- **Libraries and configuration.** These are fields of `Env`, and a lemma assumes about them only what its `requires` says:
  - JWT sign and verify;
  - bcrypt;
  - zod's e-mail check;
  - `new Date(text)`;
  - HMAC-SHA256;
  - the gateway's `orders.create`;
  - `String(number)`;
  - `JWT_SECRET` and the two Razorpay keys.
- **Thrown errors.** A library or database call that throws ends in the handler's catch, which answers 500. The model writes each such case as its own branch:
  - `req.json()` fails;
  - a non-string id reaches a lookup or an insert;
  - `new Date` gives an Invalid Date;
  - a booking's class is missing when it is read through the relation;
  - the gateway call fails;
  - the Razorpay client is built with an unset or empty key id;
  - HMAC is keyed with an unset secret.
- **Ids.** A new row gets the id `NewKey(nextKey)`, and `nextKey` then grows. `Wf` keeps every id non-empty and no longer than `nextKey`, while `NewKey(nextKey)` is one character longer, so a new id is always unused.

Behaviour of the code worth knowing:
- Nothing checks that a class starts before it ends.
- A USER who creates a class gets 401, not 403.
- The verify route answers with the id of the payment row it created, not the gateway's payment id.
- The verify route checks neither who owns the booking nor whether it is already confirmed.
- Tokens from login and signup carry `userId` but no `sub`, so `withAuth` refuses every one of them.
- With `JWT_SECRET` unset, signup creates the user (and trainer profile) and then answers 500, because signing throws after the writes.

## Model

| member | source | states |
|---|---|---|
| Text.Split | src/middleware/authorise.ts:23 | at least one part comes back, and no part contains the separator |
| Text.SecondField | src/middleware/authorise.ts:23 | `split(" ")[1]` exists exactly when the header holds a space, and it holds no space itself |
| Text.JoinSplit | src/lib/auth-utils.ts:23 | joining the parts of a split on the same separator gives back the original string |
| Text.SplitJoin | src/lib/auth-utils.ts:23 | splitting a join of separator-free parts gives back the parts |
| Text.SplitWithoutSeparator | src/lib/auth-utils.ts:23 | a string without the separator splits into itself alone |
| Text.SplitAfterFirst | src/lib/auth-utils.ts:19-23 | after a separator-free first field, the rest splits independently |
| Text.FirstPartIsPrefix | src/lib/auth-utils.ts:23 | the first part is a prefix of the string, followed by the separator when it stops early |
| Text.BarJoinedPairIsInjective | src/app/api/payments/razorpay/verify/route.ts:24 | "a\|b" determines a and b when a holds no bar |
| Sorting.InsertAddsOne | src/app/api/classes/route.ts:34-36 | insertion adds exactly the one element (multiset) |
| Sorting.InsertKeepsSorted | src/app/api/classes/route.ts:34-36 | inserting into a sorted sequence keeps it sorted by the key |
| Sorting.SortBy | src/app/api/bookings/route.ts:78 | the result is sorted by the key and is a permutation of the input |
| Database.FindFirst | src/app/api/bookings/route.ts:30-38 | the index found satisfies the condition and no earlier row does; None only when no row satisfies it |
| Database.UserById | src/lib/auth-utils.ts:38-47 | the user found has the id; None exactly when no user has it |
| Database.UserByEmail | src/app/api/auth/login/route.ts:27 | the user found has the e-mail; None exactly when no user has it |
| Database.TrainerOfUser | src/lib/auth-utils.ts:40-46 | the profile found belongs to the user; None exactly when the user has no profile |
| Database.TrainerById | src/app/api/classes/route.ts:80 | the trainer found has the id; None exactly when no trainer has it |
| Database.ClassById | src/app/api/bookings/route.ts:21-23 | the class found has the id; None exactly when no class has it |
| Database.BookingIndex | src/app/api/payments/razorpay/verify/route.ts:34-37 | the index found holds a booking with the id; None exactly when no booking has it |
| Database.BookingById | src/app/api/payments/razorpay/order/route.ts:20-23 | the booking found has the id; None exactly when no booking has it |
| Database.BookingFor | src/app/api/bookings/route.ts:30-38 | the booking found is the user's for that class; None exactly when the user holds none for it |
| Database.BookingLookup | src/app/api/payments/razorpay/order/route.ts:20-27 | in a consistent database, every booking is found by its id at its own index, and its class is there |
| Database.BookingForIsTheOnlyOne | src/app/api/bookings/route.ts:30-46 | under one booking per user and class, the lookup finds exactly the booking the user holds |
| Database.UserByEmailFindsTheUser | src/app/api/auth/login/route.ts:27 | under unique e-mails, looking up a stored user's e-mail finds that user |
| Database.NewKeyUnused | src/app/api/auth/signup/route.ts:51-68 | a fresh key is no user's id, no trainer's id and no trainer's user id |
| Database.AddUserKeepsWf | src/app/api/auth/signup/route.ts:51-58 | adding a user with a fresh id and an unused e-mail keeps every constraint |
| Database.AddTrainerKeepsWf | src/app/api/auth/signup/route.ts:61-68 | adding a profile with a fresh id, for an existing user without one, keeps every constraint |
| Database.AddClassKeepsWf | src/app/api/classes/route.ts:87-98 | adding a class with a fresh id and an existing trainer keeps every constraint |
| Database.AddBookingKeepsWf | src/app/api/bookings/route.ts:49-58 | adding an unpaid booking with a fresh id, for an existing user and class, keeps every constraint |
| Database.AddPaymentAndLinkKeepsWf | src/app/api/payments/razorpay/verify/route.ts:44-71 | adding a payment and linking a booking to it keeps every constraint |
| Database.Store.FreshKey | src/app/api/bookings/route.ts:49-54 | returns the fresh key and advances the counter |
| AuthUtils.BearerToken | src/lib/auth-utils.ts:19-23 | the token is the second space-separated field, a space-free prefix of what follows "Bearer " |
| AuthUtils.BearerTokenRoundTrip | src/lib/auth-utils.ts:23 | "Bearer " followed by a space-free token gives back that token |
| AuthUtils.Authenticate | src/lib/auth-utils.ts:16-53 | a result needs a "Bearer " header, a set secret, and a verified non-empty `userId` naming a stored user; the trainer id is present exactly when that user has a profile, and it names that profile |
| AuthUtils.AuthenticatesClaimedUser | src/lib/auth-utils.ts:38-49 | a verified token whose `userId` names a stored user authenticates as exactly that user |
| AuthUtils.AuthenticateReadsOnlyIdentities | src/lib/auth-utils.ts:38-47 | the result depends only on the user and trainer tables |
| AuthUtils.IsAuthorized | src/lib/auth-utils.ts:56-58 | the user's role is one of the allowed roles |
| Authorise.WithAuth | src/middleware/authorise.ts:15-50 | a missing or empty header gives 401 "Not authenticated"; every rejection is 401 or 403; 403 only for a verified `sub` naming a stored user whose role is not allowed; the handler runs only for such a user whose role is allowed, and gets that user. The converse is `StoredSubjectIsServedByRole` |
| Authorise.StoredSubjectIsServedByRole | src/middleware/authorise.ts:28-45 | a verified non-empty `sub` naming a stored user reaches `handler(user)` when the role is allowed (or no roles are given), and gets 403 "Forbidden" when it is not |
| Authorise.EmptyRoleListRejectsEveryone | src/middleware/authorise.ts:39-41 | an empty role list lets nobody through |
| Authorise.PayloadWithoutSubIsRefused | src/middleware/authorise.ts:30-32 | a verified payload without `sub` gives 401 "Invalid token payload" |
| Authorise.SchemeIsNotChecked | src/middleware/authorise.ts:23 | any one-word scheme in front of the token is treated the same as "Bearer" |
| Login.Login | src/app/api/auth/login/route.ts:16-46 | a bad body is 500; 404 only when no user has the e-mail; 401 only when the stored user's hash does not match; 200 only for a matching user, with the token over their id for one hour; never a validation reply. The converse directions are `UnknownEmailIsNotFound`, `WrongPasswordIsRefused` and `LoginSignsForTheStoredUser` |
| Login.LoginSchema | src/app/api/auth/login/route.ts:9-12 | `loginSchema`: a string e-mail that the e-mail check accepts and a string password of at least six characters |
| Login.LoginNeverAnswers400 | src/app/api/auth/login/route.ts:21-25 | when the e-mail check rejects "", the 400 guard is unreachable |
| Login.LoginSignsForTheStoredUser | src/app/api/auth/login/route.ts:27-41 | the right password for a stored e-mail yields the token over that user's id |
| Login.UnknownEmailIsNotFound | src/app/api/auth/login/route.ts:27-31 | a well-formed body whose e-mail no user has gets 404 "User not found" |
| Login.WrongPasswordIsRefused | src/app/api/auth/login/route.ts:27-36 | under unique e-mails, a password that does not match the stored user's hash gets 401 "Invalid password" |
| Signup.SignupIssues | src/app/api/auth/signup/route.ts:10-15 | no issues exactly when name, e-mail, password and role all pass the schema; each failing field is named |
| Signup.StoredRole | src/app/api/auth/signup/route.ts:56 | the stored role is TRAINER exactly when "TRAINER" was asked for, and never ADMIN |
| Signup.NewAccount | src/app/api/auth/signup/route.ts:48-58 | the new user's id names no stored user, and its role is TRAINER exactly when "TRAINER" was asked for, never ADMIN |
| Signup.SignupSpec | src/app/api/auth/signup/route.ts:19-99 | the route's reply and new database, following its guard chain; it answers only 201, 400, 409 or 500, and a success is 201 |
| Signup.SignupRefusalsWriteNothing | src/app/api/auth/signup/route.ts:24-45 | a validation failure is 400 with the issues; a registered e-mail is 409; neither writes |
| Signup.SignupCreatesAccount | src/app/api/auth/signup/route.ts:48-68 | an admissible request adds one user with the hashed password and mapped role, plus a profile with no specialties exactly for TRAINER; nothing else changes |
| Signup.SignupReply | src/app/api/auth/signup/route.ts:71-90 | 201 with the 7-day token over {userId, email, role} and the user without its password; 500 after the writes when the secret is unset |
| Signup.SignupKeepsWf | src/app/api/auth/signup/route.ts:36-68 | signup keeps every database constraint |
| Signup.Signup | src/app/api/auth/signup/route.ts:19-99 | the handler's reply and new state are those of `SignupSpec`, and the store stays valid |
| Signup.CreateAccount | src/app/api/auth/signup/route.ts:51-68 | the user row, then the profile row, written in place as `SignupSpec` describes |
| Classes.ClassIssues | src/app/api/classes/route.ts:10-19 | no issues exactly when the body meets the schema; a bad title is named first |
| Classes.ClassSchema | src/app/api/classes/route.ts:10-19 | `createClassSchema`: a non-empty string title, string start and end, a positive integer capacity, a non-negative integer price, and optional strings for description, location and trainer id |
| Classes.ResolveTrainer | src/app/api/classes/route.ts:66-84 | a TRAINER gets their own profile id, or 400 without one; an ADMIN gets 400 without a trainer id, 404 for an unknown one, else exactly the id sent |
| Classes.Resolve | src/app/api/classes/route.ts:66-84 | the reassigned `trainerId` ends as `ResolveTrainer` says |
| Classes.NewClass | src/app/api/classes/route.ts:87-98 | the new class's id names no stored class; capacity and price are the validated integers, positive and non-negative |
| Classes.CreateClassSpec | src/app/api/classes/route.ts:46-106 | the route's reply and new database, following its guard chain; it answers only 201, 400, 401, 404 or 500, and a success is 201 |
| Classes.OnlyStaffMayCreate | src/app/api/classes/route.ts:48-51 | no caller, or a USER, gets 401 whatever the body, and nothing is written |
| Classes.InvalidClassIsRefused | src/app/api/classes/route.ts:56-64 | a body that fails the schema gets 400 with the issues, and nothing is written |
| Classes.TrainerCreatesForOwnProfile | src/app/api/classes/route.ts:68-73 | for a TRAINER, the trainer id sent changes nothing, and a created class is theirs |
| Classes.AdminMustNameTrainer | src/app/api/classes/route.ts:74-83 | an ADMIN without a trainer id gets 400, and with an unknown one 404; neither writes |
| Classes.CreateClassInserts | src/app/api/classes/route.ts:87-100 | on success exactly one class is appended, with the validated title, description, location, capacity and price, the parsed dates and the resolved trainer, under a fresh id; 201; no start-before-end check |
| Classes.CreateClassKeepsWf | src/app/api/classes/route.ts:87-98 | class creation keeps every database constraint |
| Classes.CreateClass | src/app/api/classes/route.ts:46-106 | the handler's reply and new state are those of `CreateClassSpec`, and the store stays valid |
| Classes.ListClasses | src/app/api/classes/route.ts:22-43 | 200 with every class, as a permutation of the table, in ascending order of start |
| Bookings.PostSpec | src/app/api/bookings/route.ts:6-66 | the route's reply and new database, following its guard chain; it answers only 200, 201, 400, 401, 404, 409 or 500, and a success is 200 or 201 |
| Bookings.PostRefusals | src/app/api/bookings/route.ts:8-27 | no caller is 401 whatever the body; a missing class id is 400; an unknown class is 404; none writes |
| Bookings.PostWritesOnlyOnCreate | src/app/api/bookings/route.ts:49-60 | only a 201 writes, appending one PENDING unpaid booking for the caller and the class, under a fresh id, stamped now, for a pair that had none |
| Bookings.FreeClassIsBooked | src/app/api/bookings/route.ts:49-60 | a caller without a booking for an existing class gets 201 |
| Bookings.PostKeepsInvariants | src/app/api/bookings/route.ts:30-58 | POST keeps the constraints and at most one booking per user and class |
| Bookings.RepeatedPostReturnsPendingBooking | src/app/api/bookings/route.ts:40-45 | repeating a successful request returns the same booking with 200 and writes nothing |
| Bookings.ConfirmedBookingConflicts | src/app/api/bookings/route.ts:40-44 | the holder of a CONFIRMED booking gets 409 for that class, and nothing is written |
| Bookings.PendingBookingIsReturned | src/app/api/bookings/route.ts:30-46 | the holder of a PENDING booking gets that booking back with 200 for its class, and nothing is written |
| Bookings.Post | src/app/api/bookings/route.ts:6-66 | the handler's reply and new state are those of `PostSpec`, and the store stays valid |
| Bookings.Mine | src/app/api/bookings/route.ts:75-77 | exactly the bookings of that user, a sub-multiset of the table |
| Bookings.ListBookings | src/app/api/bookings/route.ts:68-86 | 401 exactly when there is no caller; every signed-in caller gets 200 with exactly the caller's bookings, newest first |
| RazorpayOrder.Receipt | src/app/api/payments/razorpay/order/route.ts:46 | the receipt is "receipt_" followed by the booking id |
| RazorpayOrder.CreateOrder | src/app/api/payments/razorpay/order/route.ts:6-62 | 401 exactly when there is no caller; a 200 is only for the caller's own booking whose class is there, with the gateway's order at the class price in INR with the receipt, and the key id |
| RazorpayOrder.OrderRefusals | src/app/api/payments/razorpay/order/route.ts:16-31 | a missing booking id is 400, an unknown booking 404, and 403 only for an existing booking of someone else |
| RazorpayOrder.OrderForFoundBooking | src/app/api/payments/razorpay/order/route.ts:42-56 | the owner of a found booking gets the order at its class price |
| RazorpayOrder.OwnerGetsOrderAtClassPrice | src/app/api/payments/razorpay/order/route.ts:42-56 | in a consistent database, the owner of any booking gets the order at its class price |
| RazorpayOrder.OrderForOthersBooking | src/app/api/payments/razorpay/order/route.ts:29-31 | someone else's found booking is 403 |
| RazorpayOrder.OthersBookingIsForbidden | src/app/api/payments/razorpay/order/route.ts:29-31 | in a consistent database, any booking of someone else is 403 |
| RazorpayVerify.Shown | src/app/api/payments/razorpay/verify/route.ts:24 | a string field is rendered as itself in the signed text |
| RazorpayVerify.SignedText | src/app/api/payments/razorpay/verify/route.ts:24 | for string ids the signed text is the order id, a bar, and the payment id |
| RazorpayVerify.SignedTextIdentifiesPair | src/app/api/payments/razorpay/verify/route.ts:22-25 | two id pairs give the same signed text exactly when they are the same pair |
| RazorpayVerify.Complete | src/app/api/payments/razorpay/verify/route.ts:17-19 | all four body fields are present and truthy |
| RazorpayVerify.Digest | src/app/api/payments/razorpay/verify/route.ts:21-25 | for string ids the digest is the hex HMAC-SHA256, under the key secret, of "orderId\|paymentId" |
| RazorpayVerify.NewPayment | src/app/api/payments/razorpay/verify/route.ts:46-59 | the new payment's id names no stored payment; it is SUCCEEDED, in INR, by the payer, for the given amount |
| RazorpayVerify.Confirmed | src/app/api/payments/razorpay/verify/route.ts:62-68 | the booking keeps its id, user, class and time, and becomes CONFIRMED, linked to the payment |
| RazorpayVerify.VerifySpec | src/app/api/payments/razorpay/verify/route.ts:7-79 | the route's reply and new database, following its guard chain; it answers only 200, 400, 401, 404 or 500, and a success is 200 |
| RazorpayVerify.VerifyRefusals | src/app/api/payments/razorpay/verify/route.ts:9-41 | no caller is 401 first; a missing field is 400; a correctly signed request for no booking is 404; none writes |
| RazorpayVerify.ForgedSignatureIsRefused | src/app/api/payments/razorpay/verify/route.ts:27-29 | a signature other than the digest is 400 and writes nothing, whether or not the booking exists |
| RazorpayVerify.VerifyIsAtomic | src/app/api/payments/razorpay/verify/route.ts:44-73 | every reply but 200 writes nothing; a 200 adds one SUCCEEDED INR payment by the caller at the class price, with the order id and digest, and confirms exactly the named booking; it answers with the new payment's id |
| RazorpayVerify.SignedRequestConfirmsAnyBooking | src/app/api/payments/razorpay/verify/route.ts:34-68 | a correctly signed request confirms any booking, whoever owns it and whatever its status, and charges the caller |
| RazorpayVerify.VerifyKeepsInvariants | src/app/api/payments/razorpay/verify/route.ts:44-71 | verifying keeps the constraints and one booking per user and class |
| RazorpayVerify.Verify | src/app/api/payments/razorpay/verify/route.ts:7-79 | the handler's reply and new state are those of `VerifySpec`, and the store stays valid |
| RazorpayVerify.RecordPayment | src/app/api/payments/razorpay/verify/route.ts:44-71 | the payment insert and the booking update, done together in place |
| Flows.LoginTokenOnlyServesAuthenticate | src/app/api/auth/login/route.ts:38-41 | a login token authenticates its user through `authenticate`, but `withAuth` refuses it with 401 |
| Flows.FirstBookingIsPending | src/app/api/bookings/route.ts:49-60 | a first booking is 201 and PENDING, appended last, and the database stays consistent |
| Flows.PaymentConfirmsBooking | src/app/api/payments/razorpay/verify/route.ts:44-73 | a signed payment for the caller's booking confirms it with a payment at the class price, after which rebooking is 409 |
| Flows.BookOrderPayConfirms | src/app/api/payments/razorpay/order/route.ts:42-56 | book, order, pay: the order is for the class price, the payment has the same amount, the booking ends CONFIRMED and linked, and rebooking is 409 |

## Left out

- Cryptography, tokens and the gateway are not modelled beyond their signatures: JWT signing and verification, bcrypt, HMAC-SHA256 and `orders.create` are fields of `Env`. Token expiry is passed to `jwtSign` but nothing is proved about it.
- Signup.SignupCreatesAccount: it states that the stored password is the library hash of the input. It does not state that the hash differs from the plaintext, because nothing is known about an opaque hash.
- Zod's e-mail format and `new Date` parsing are `Env` fields. Dates are integer timestamps, and `createdAt` is the `now` argument, standing in for the clock.
- Prisma and the HTTP layer: `src/lib/prisma.ts` is not part of this model. The ORM is replaced by the in-memory tables, and a reply is a status with a body. Database failures other than the listed throws are not modelled.
- Relations that replies include are not modelled. Replies carry only the row itself:
  - the trainer and user shown on the class list;
  - the class on a new booking;
  - the class and payment on the booking list.
- The constraints in `Wf` are those the data model declares:
  - ids are keys, and each is non-empty;
  - e-mails are unique;
  - a user has at most one trainer profile;
  - foreign keys hold.
  The schema file itself is not part of this model.
- Bodies are either unparsable (500) or an object whose named fields are JSON values. A body that parses to a non-object is not modelled.
- Validation failures carry the names of the failing fields, not zod's issue objects. The classes route's "Invalid request body" branch is left out: the schema only throws zod errors, so that branch is unreachable.
- Authorise.WithAuth: the wrapped handler is a total function of the user. A handler that throws is not modelled. The middleware returns `handler(req, res)` without awaiting it, so only a synchronous throw would become 401; an async handler's rejection escapes the `try`.
- AuthUtils.Authenticate: token claims are a map from names to strings. A payload whose `userId` is not a string is not modelled.
- AuthUtils.IsAuthorized: a plain predicate (the role is in the list) with no contract of its own. What it decides for the class route is stated through `Classes.OnlyStaffMayCreate`.
- Bookings.ListBookings: the order of bookings with equal `createdAt` is left open, as the database leaves it.
- Classes.ListClasses: the order of classes with equal start times is left open, as the database leaves it.
- Lengths are counted in Dafny characters (Unicode scalar values). Zod's `.min(n)` counts UTF-16 code units, so `Signup.SignupIssues`, `Classes.ClassIssues` and `Login.LoginSchema` can disagree with the source on text outside the Basic Multilingual Plane: a name made of one emoji is two code units and passes zod's `min(2)`, but is one character in the model and fails.
- JSON numbers are exact reals (`Json.Num`). The source sees IEEE-754 doubles after parsing, so a capacity written `1.00000000000000001` parses to 1 and passes zod's `.int()`, while the model rejects it. Rounding, infinities and the safe-integer range are not modelled.
- Signup.SignupCreatesAccount: `bcryptHash` is a function, so the model's hash of a password is one fixed value. bcrypt's `hash(password, 10)` draws a fresh salt on every call. Nothing proved compares two hashes of the same password.
- Concurrency is not modelled: every request runs alone, start to finish. The race between two simultaneous booking requests for the same class is therefore not modelled.
- `src/app/api/classes/[id]/route.ts` (class update and delete) and `src/app/api/auth/me/route.ts` are not part of this model. Neither are the pages, components, contexts and browser-storage helpers.
