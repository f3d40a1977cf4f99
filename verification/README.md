# Home-repair booking backend — a verified model of its core

The system is an Express + Prisma backend for a home-repair business:

- Customers register and log in, and can reset a forgotten password with an emailed one-time password (OTP).
- Customers book repair services as reservations and pay for them in two Stripe payments through orders.
- Managers run the service catalogue, the reservations and the users; employees update the work status.

Every request goes through a module router, mounted under `/auth`, `/users`, `/services`, `/reservations` or `/orders`. The router chains the `auth(...roles)` gate, a body schema and a controller. List endpoints share one pagination helper and one search/filter query builder. Every response goes out in the same envelope.

The model has one Dafny module per area:

| module | what it holds |
|---|---|
| `Common` | results, the error kinds the services throw, delete by id, JavaScript truthiness and case-insensitive `contains` |
| `Enums` | the enumerations with their wire names |
| `Pagination` | the pagination helpers |
| `Response` | the response envelope |
| `Validation` | the request-body schemas, as parsers of a JSON value |
| `Query` | the `where` builder, `findMany` and `count` |
| `AuthGate` | the `auth` middleware |
| `Routes` | the five route tables and the dispatch of a request through them, matching literals whatever their case and ignoring one trailing slash |
| `Catalog`, `Reservations`, `Orders`, `Accounts` | the service layers over the service, reservation, order and user tables |

Each Prisma table is a class holding a map from id to record. Each service operation that writes is a method on those tables. The method's postcondition ties its result and the new table to a pure step function. The step functions carry the error paths and the "nothing else changes" facts, and the lemmas relating several calls are stated over them: single-use OTPs, idempotent confirmations, the two-payment flow.

Several inputs come from code outside the model and are parameters:

- token verification and signing;
- the bcrypt comparison and the hash it produces;
- the Stripe intent a call creates or retrieves;
- new ids, the current time and the email-format check.

Three behaviours of the code are worth stating, because a reader might expect otherwise. The model keeps them and adds none of the missing checks:

- `updateReservation` checks only that work has started before it is completed. It does not check the caller, an assigned employee or installment flags.
- `confirmSecondPayment` does not check that the first payment was made.
- The role list a route names is checked against the stored role. The token's role is not used.

## Model

| member | source | states |
|---|---|---|
| Pagination.CalculatePagination | src/app/utils/calculatePagination.ts:18-32 | page and limit default to 1 and 10 when absent or 0, else are kept; skip is a multiple of the limit and is 0 on page 1; page·limit = skip+limit for positive page and limit; sortBy/sortOrder default to createdAt/desc when falsy (user.service.ts:17-24 repeats the page/limit/skip part) |
| Pagination.TotalPage | src/app/utils/calculatePagination.ts:37 | `Math.ceil(total/limit)`: undefined exactly for limit 0; for positive limit the least n with n·limit ≥ total, and for negative limit the matching ceiling |
| Pagination.TotalPageIsLeastCover | src/app/utils/paginationHelper.ts:6 | with a positive limit the page count is at most any n covering total, and is 0 exactly when there are no rows |
| Pagination.PaginationHelper | src/app/utils/paginationHelper.ts:3-14 | meta echoes total, defaults page/limit, and its totalPage covers total with the fewest pages (calculatePagination.ts:34-45 holds an identical copy) |
| Pagination.PaginationHelperMatchesWindow | src/app/utils/calculatePagination.ts:18-45 | the helper and calculatePagination default page and limit identically, and the page count is computed from that limit |
| Response.SendResponse | src/app/utils/sendResponse.ts:18-33 | status, success, message and data pass through; meta is present iff given, keeps page/limit/total, and its totalPage is recomputed as the ceiling (undefined only for limit 0) |
| Response.CallerTotalPageIgnored | src/app/utils/sendResponse.ts:23-28 | the envelope is the same whatever totalPage the caller passed |
| Response.EnvelopeAgreesWithHelper | src/app/utils/sendResponse.ts:27 | the envelope's totalPage equals paginationHelper's for the same page, limit and total |
| Common.DeleteRow | src/app/modules/reservation/reservation.service.ts:151-163 | delete by id, as the service and reservation deletes do: a missing id fails with record-not-found and writes nothing; otherwise the deleted record is returned and only it is removed |
| Common.DeleteTwiceFails | src/app/modules/service/service.service.ts:92-99 | deleting the same record twice fails the second time |
| Enums.ParseServiceStatus | src/app/modules/reservation/reservation.validation.ts:25 | a parsed status names back to the input string |
| Enums.EnumNamesRoundTrip | src/app/modules/reservation/reservation.validation.ts:22-29 | parsing the wire name of every status, payment status and order payment status gives it back |
| Enums.RoleNamesDistinct | src/app/middlewares/auth.ts:47-52 | distinct roles have distinct wire names, so membership in a role list is decided by the name |
| Validation.Strings | src/app/modules/reservation/reservation.validation.ts:12 | `z.array(z.string())` on the items of an array: accepted iff every item is a string, and then the strings in order |
| Validation.StringsRoundTrip | src/app/modules/reservation/reservation.validation.ts:12 | a list of strings written as a JSON array reads back unchanged |
| Validation.ParseReservationCreate | src/app/modules/reservation/reservation.validation.ts:4-20 | accepted iff serviceId, scheduledDate are strings, providePaint a boolean, amount a number and beforeImages a non-empty string array; fields read back as given |
| Validation.ReservationCreateRoundTrip | src/app/modules/reservation/reservation.validation.ts:4-20 | every well-formed create body written to JSON parses back to itself |
| Validation.ReservationCreateNeedsAnImage | src/app/modules/reservation/reservation.validation.ts:12 | an empty beforeImages array is refused |
| Validation.ParseReservationUpdate | src/app/modules/reservation/reservation.validation.ts:22-29 | all fields optional, the empty object accepted; each present enum field is the parsed wire name |
| Validation.ReservationUpdateRoundTrip | src/app/modules/reservation/reservation.validation.ts:22-29 | every update body, any subset of fields, round-trips through JSON |
| Validation.ParseOrderCreate | src/app/modules/order/order.validation.ts:4-14 | reservationId a string, totalAmount a number, currency an optional string defaulting to USD |
| Validation.OrderCreateAnyAmount | src/app/modules/order/order.validation.ts:9-12 | any amount, zero and negative included, is accepted, and a missing currency becomes USD |
| Validation.OrderCreateRoundTrip | src/app/modules/order/order.validation.ts:4-14 | every order create body round-trips through JSON |
| Validation.ParseOrderUpdate | src/app/modules/order/order.validation.ts:16-21 | both fields optional; a present paymentStatus is one of the order statuses |
| Validation.OrderUpdateRoundTrip | src/app/modules/order/order.validation.ts:16-21 | every order update body round-trips through JSON |
| Validation.ParseLogin | src/app/modules/auth/auth.validation.ts:3-16 | accepted iff email is a string the email check accepts and password is a string |
| Validation.LoginRoundTrip | src/app/modules/auth/auth.validation.ts:3-16 | a login body with a valid email round-trips |
| Validation.ParseForgotPassword | src/app/modules/auth/auth.validation.ts:18-22 | accepted iff email is a valid email string |
| Validation.ParseResetPassword | src/app/modules/auth/auth.validation.ts:24-30 | accepted iff email is valid, otp has exactly 6 characters and newPassword at least 6 |
| Validation.ResetRoundTrip | src/app/modules/auth/auth.validation.ts:24-30 | every reset body meeting those bounds round-trips |
| Validation.ParseServiceCreate | src/app/modules/service/service.validation.ts:3-15 | accepted iff name, description and image are strings; they read back as given |
| Validation.ParseServiceUpdate | src/app/modules/service/service.validation.ts:17-23 | all three fields optional; present ones read back as given |
| Validation.ServiceUpdateRoundTrip | src/app/modules/service/service.validation.ts:17-23 | any subset of the fields, the empty one included, round-trips |
| Query.SearchCond | src/app/modules/reservation/reservation.service.ts:42-51 | the OR of case-insensitive contains holds on a row iff some searchable field of the row contains the term |
| Query.FilterCond | src/app/modules/reservation/reservation.service.ts:53-61 | the AND of equalities holds on a row iff every filter key is present with that value |
| Query.WhereFor | src/app/modules/reservation/reservation.service.ts:40-64 | the condition is `{}` when there is neither term nor filter, an AND otherwise, and selects exactly the rows that hit the search and meet all filters |
| Query.BuildWhere | src/app/modules/reservation/reservation.service.ts:40-64 | the imperative builder (pushes onto andConditions) produces that condition |
| Query.Select | src/app/modules/reservation/reservation.service.ts:66-67 | the result is a subsequence of the table in table order; a row appears exactly as often as in the table when the condition holds on it, and not at all otherwise |
| Query.SelectEmpty | src/app/modules/service/service.service.ts:15-68 | with the empty condition every row is selected, so the count is the table size |
| Query.Page | src/app/modules/reservation/reservation.service.ts:68-69 | skip/take returns at most take rows, the k-th being match skip+k, exactly take when enough rows remain, otherwise exactly the rows after skip; a negative skip is refused |
| Query.FindMany | src/app/modules/reservation/reservation.service.ts:66-90 | data is exactly the skip/take window of the selected rows; meta.total counts all selected rows, with the same condition |
| AuthGate.StripBearer | src/app/middlewares/auth.ts:22-24 | a "Bearer " prefix is removed and anything else is kept |
| AuthGate.StripBearerRoundTrip | src/app/middlewares/auth.ts:22-24 | a token sent with the prefix is recovered exactly |
| AuthGate.Claims | src/app/middlewares/auth.ts:13-30 | no claims without a truthy header |
| AuthGate.Identity | src/app/middlewares/auth.ts:33-44 | the identity is the stored user the verified token names, and absent when the token fails or names no user |
| AuthGate.Decide | src/app/middlewares/auth.ts:9-61 | 401 without header, token error when verification fails, 401 when the user is gone, 403 "Only … can access this resource" for a role outside a non-empty list; admitted iff a stored user is named and the list is empty or holds the stored role |
| AuthGate.StoredRoleDecides | src/app/middlewares/auth.ts:33-52 | a token claiming another role for the same user gets the same decision |
| AuthGate.EmptyRoleListAdmitsEveryUser | src/app/middlewares/auth.ts:47 | `auth()` admits exactly the requests naming a stored user |
| AuthGate.WiderListAdmitsMore | src/app/middlewares/auth.ts:47-52 | adding roles to a non-empty list never turns an admission into a refusal |
| AuthGate.Request.constructor | src/app/middlewares/auth.ts:13-19 | a request starts with its header and no user |
| AuthGate.Authenticate | src/app/middlewares/auth.ts:9-61 | proceeds and sets req.user to the verified claims exactly when Decide admits; otherwise fails with Decide's error and leaves req.user as it was |
| Routes.Mounted | src/app/routes/index.ts:12-42 | exactly the five module prefixes have a router, matched whatever their ASCII case |
| Common.EqualsIgnoringCase | src/app/routes/index.ts:12 | two path pieces match exactly when their ASCII lower-casings are equal, the comparison default routers make |
| Routes.DispatchFrom | src/app/routes/index.ts:42 | the route found from position k is the first from k matching verb and path |
| Routes.Dispatch | src/app/routes/index.ts:42 | a request is handled by the first route of its router matching verb and path, none matching means not found |
| Routes.DispatchIsFirst | src/app/modules/user/user.routes.ts:16-28 | the first matching route is the one dispatched, which is why `/my-profile` never reaches `/:id` |
| Routes.CheckBody | src/app/modules/reservation/reservation.routes.ts:31-56 | `validateRequest`: a body is accepted exactly when its schema's parser accepts it (the user-module schemas are an oracle); only the undefined assignEmployee schema gives a runtime error |
| Routes.Run | src/app/modules/reservation/reservation.routes.ts:31-36 | the middleware chain in order: a controller that is reached is one of the route's own stages |
| Routes.Serve | src/app/routes/index.ts:12-42 | only a prefix mounted up to case, with a route matching up to case, answers after one trailing slash is dropped; every other request is not found |
| Routes.TrailingSlashIgnored | src/app/routes/index.ts:12 | a path with one trailing slash is served exactly as the path without it |
| Routes.RunReachedIff | src/app/routes/index.ts:42 | a stage chain reaches its controller iff every stage before it passes, and reaches that controller |
| Routes.GateFirst | src/app/middlewares/auth.ts:9-61 | a chain starting with a refusing gate stops with the gate's error |
| Routes.GateSetsUser | src/app/middlewares/auth.ts:55-59 | a controller right after an admitting gate sees the verified claims as req.user |
| Routes.TablesGateFirst | src/app/modules/order/order.routes.ts:10-45 | every reservation and order route starts with the gate, and every chain of every router ends with its controller |
| Routes.Served | src/app/routes/index.ts:19-42 | a dispatched request reaches the route's controller iff its stages pass |
| Routes.ReservationCreateRoute | src/app/modules/reservation/reservation.routes.ts:10-15 | POST /reservations reaches createReservation iff a user-role caller sends a valid body; others get the gate's error |
| Routes.ReservationListRoute | src/app/modules/reservation/reservation.routes.ts:17-27 | the list is reached exactly by user, employee, manager, super admin and property manager callers |
| Routes.ReservationReadRoute | src/app/modules/reservation/reservation.routes.ts:29 | a single reservation is reached exactly by user, employee and manager callers |
| Routes.ReservationUpdateRoute | src/app/modules/reservation/reservation.routes.ts:31-36 | PATCH /reservations/:id needs a manager or employee and a valid update body |
| Routes.FirstInstallmentRoute | src/app/modules/reservation/reservation.routes.ts:38-42 | the first-installment route admits exactly user-role callers |
| Routes.SecondInstallmentRoute | src/app/modules/reservation/reservation.routes.ts:44-48 | the second-installment route admits exactly user-role callers |
| Routes.ReservationManagerRoutes | src/app/modules/reservation/reservation.routes.ts:50-56 | assign-employee never reaches its controller: a manager's request stops at the undefined schema, anyone else's at the gate |
| Routes.ReservationDeleteRoute | src/app/modules/reservation/reservation.routes.ts:58-62 | deleting a reservation admits exactly managers |
| Routes.GuardedModulesNeedIdentity | src/app/modules/reservation/reservation.routes.ts:10-62 | no reservation or order controller is reached without a stored user |
| Routes.OrderCreateRoute | src/app/modules/order/order.routes.ts:10-15 | POST /orders needs a user-role caller and a valid body |
| Routes.ConfirmPaymentRoute | src/app/modules/order/order.routes.ts:17-21 | the first payment confirmation admits exactly user-role callers |
| Routes.ConfirmSecondPaymentRoute | src/app/modules/order/order.routes.ts:29-33 | the second payment confirmation admits exactly user-role callers, and is not taken by the same-length process route before it |
| Routes.ProcessSecondPaymentRoute | src/app/modules/order/order.routes.ts:23-27 | opening the second payment admits exactly user-role callers |
| Routes.OrderReadRoutes | src/app/modules/order/order.routes.ts:35-45 | order reads admit exactly user and manager callers |
| Routes.RegisterRoute | src/app/modules/user/user.routes.ts:10-14 | registration is open: it is reached iff the body validates, with no user set |
| Routes.MyProfileReadRoute | src/app/modules/user/user.routes.ts:16-22 | GET /users/my-profile, with prefix and segment in any ASCII case, reaches getMyProfile iff a stored user calls, and never reaches the details route registered after it |
| Routes.MyProfileUpdateRoute | src/app/modules/user/user.routes.ts:30-35 | PATCH /users/my-profile admits any stored user whose body passes the profile schema |
| Routes.ChangePasswordRoute | src/app/modules/user/user.routes.ts:43-48 | POST /users/change-password admits any stored user whose body passes the password schema |
| Routes.UserManagerRoutes | src/app/modules/user/user.routes.ts:18-29 | user details, for any id other than a case variant of `my-profile`, and the user list admit exactly managers |
| Routes.PromoteRoute | src/app/modules/user/user.routes.ts:37-41 | promotion admits exactly managers |
| Routes.ServicePublicRoutes | src/app/modules/service/service.routes.ts:17-18 | listing and reading services is reached by anyone, with no user |
| Routes.ServiceCreateRoute | src/app/modules/service/service.routes.ts:10-15 | creating a service is reached exactly by managers whose body the create schema accepts |
| Routes.ServiceUpdateRoute | src/app/modules/service/service.routes.ts:20-25 | updating a service is reached exactly by managers whose body the update schema accepts |
| Routes.ServiceDeleteRoute | src/app/modules/service/service.routes.ts:27-31 | deleting a service admits exactly managers |
| Routes.IssuedOtpPassesResetSchema | src/app/modules/auth/auth.service.ts:32-34 | every OTP the generator issues passes the reset schema's six-character rule |
| Catalog.CreateStep | src/app/modules/service/service.service.ts:8-13 | the new service is the payload under the new id, added to the table |
| Catalog.CreateService | src/app/modules/service/service.service.ts:8-13 | performs CreateStep on the service table |
| Catalog.ApplyPatch | src/app/modules/service/service.service.ts:79-90 | present fields replace the stored ones, absent fields and the id are kept |
| Catalog.ApplyPatchLaws | src/app/modules/service/service.service.ts:79-90 | the empty patch changes nothing, and a patch applied twice equals it applied once |
| Catalog.UpdateStep | src/app/modules/service/service.service.ts:79-90 | missing id is a record-not-found error with nothing written; otherwise only that row is patched |
| Catalog.UpdateService | src/app/modules/service/service.service.ts:79-90 | performs UpdateStep on the service table |
| Catalog.DeleteService | src/app/modules/service/service.service.ts:92-99 | performs Common.DeleteRow on the service table |
| Catalog.GetAllServices | src/app/modules/service/service.service.ts:15-68 | refused iff skip or limit is negative; data is exactly the skip/limit window of the stored services, in the given order, that meet the search and filters; total counts all of them, and is the number of services with neither |
| Reservations.NewReservation | src/app/modules/reservation/reservation.service.ts:19-24 | the payload spread under the new id with the caller as owner and status pending; images after default to [] and payment status to pending |
| Reservations.CreateStep | src/app/modules/reservation/reservation.service.ts:10-31 | 404 "Service not found" with nothing written when the service is missing; otherwise that record is added |
| Reservations.CreateOverridesOwnerAndStatus | src/app/modules/reservation/reservation.service.ts:21-23 | a payload naming another owner or status creates the same reservation: owned by the caller, pending |
| Reservations.CreateReservation | src/app/modules/reservation/reservation.service.ts:10-31 | performs CreateStep on the reservation table |
| Reservations.Apply | src/app/modules/reservation/reservation.service.ts:138-140 | the update writes the payload's fields over the stored ones and keeps everything else |
| Reservations.Stamped | src/app/modules/reservation/reservation.service.ts:119-136 | moving to in_progress stamps workStartTime, moving to completed stamps workEndTime, other payloads are unchanged |
| Reservations.UpdateStep | src/app/modules/reservation/reservation.service.ts:107-149 | 404 when missing, 400 when completing unstarted work, otherwise succeeds and writes only that row, stamped |
| Reservations.UpdateReservation | src/app/modules/reservation/reservation.service.ts:107-149 | performs UpdateStep (the payload rebound as in the source) on the reservation table |
| Reservations.UpdateKeepsStartBeforeEnd | src/app/modules/reservation/reservation.service.ts:119-136 | an update that does not set workEndTime directly keeps the start no later than the end |
| Reservations.RestartRestamps | src/app/modules/reservation/reservation.service.ts:120-125 | moving to in_progress again overwrites an earlier start time |
| Reservations.StartThenComplete | src/app/modules/reservation/reservation.service.ts:119-136 | starting at t1 then completing at t2 succeeds and records both times; completing first fails |
| Reservations.DeleteReservation | src/app/modules/reservation/reservation.service.ts:151-163 | performs Common.DeleteRow on the reservation table |
| Reservations.ReservationRow | src/app/modules/reservation/reservation.constant.ts:1-6 | the row the query sees has employeeId exactly when one is assigned |
| Reservations.GetAllReservations | src/app/modules/reservation/reservation.service.ts:33-91 | refused iff skip or limit is negative; data is exactly the skip/limit window of the stored reservations, in the given order, meeting the search over id, userId, serviceId and employeeId and the filters; total counts them all, and is the number of reservations with neither |
| Reservations.SearchFindsOwnId | src/app/modules/reservation/reservation.constant.ts:1-6 | searching for a reservation's own id finds it |
| Reservations.StatusFilterSelects | src/app/modules/reservation/reservation.service.ts:53-61 | a status filter selects exactly the reservations in that status |
| Orders.Received | src/app/modules/order/order.service.ts:15-28 | the order fields as the body carries them: reservationId and totalAmount as sent, currency present exactly when the body has one |
| Orders.SchemaDefaultNotForwarded | src/app/modules/order/order.validation.ts:12 | every body the schema accepts reaches the service with the same fields; a missing currency stays missing instead of taking the schema's USD default |
| Orders.NewOrder | src/app/modules/order/order.service.ts:35-41 | the payload as received with the caller, the new intent and status failed |
| Orders.CreateStep | src/app/modules/order/order.service.ts:15-53 | 404 "Reservation not found", then a gateway failure, with nothing written; succeeds iff the reservation exists and the intent was created |
| Orders.CreateOrder | src/app/modules/order/order.service.ts:15-53 | performs CreateStep on the order table |
| Orders.ConfirmStep | src/app/modules/order/order.service.ts:55-94 | 404 for a missing order, a gateway failure, 400 "Payment not successful" unless the retrieved intent succeeded; on success the order becomes success and its reservation takes the target status, both or neither |
| Orders.Confirm | src/app/modules/order/order.service.ts:55-94 | performs ConfirmStep on both tables |
| Orders.ConfirmPayment | src/app/modules/order/order.service.ts:55-94 | ConfirmStep with target partially_paid |
| Orders.ConfirmSecondPayment | src/app/modules/order/order.service.ts:138-177 | ConfirmStep with target total_paid |
| Orders.ConfirmIdempotent | src/app/modules/order/order.service.ts:55-94 | repeating a successful confirmation returns the same order and changes nothing |
| Orders.StoredIntentIgnored | src/app/modules/order/order.service.ts:55-70 | the intent stored on the order plays no part in a confirmation |
| Orders.SecondConfirmSkipsPhaseCheck | src/app/modules/order/order.service.ts:138-177 | the second confirmation marks a reservation total_paid even if it was still pending |
| Orders.FirstAfterSecondRegresses | src/app/modules/order/order.service.ts:55-94 | confirming the first payment after the second moves the reservation back to partially_paid |
| Orders.SecondStep | src/app/modules/order/order.service.ts:96-136 | 404 for a missing order, 400 unless the reservation is partially_paid, a gateway failure; on success only the order's intent is replaced |
| Orders.ProcessSecondPayment | src/app/modules/order/order.service.ts:96-136 | performs SecondStep on the order table |
| Orders.TwoPhaseFlow | src/app/modules/order/order.service.ts:15-177 | create, confirm, open the second payment, confirm again: every step succeeds, the order ends success with the second intent and the reservation total_paid |
| Orders.OrderRow | src/app/modules/order/order.service.ts:186-210 | the row the query sees has paymentIntent exactly when the order has one |
| Orders.GetAllOrders | src/app/modules/order/order.service.ts:179-239 | refused iff skip or limit is negative; data is exactly the skip/limit window of the stored orders, in the given order, meeting the search and filters; total counts them all, and is the number of orders with neither |
| Accounts.Public | src/app/modules/user/user.service.ts:58-61 | the returned user keeps id, name, email and role and has no password |
| Accounts.FindByEmail | src/app/modules/auth/auth.service.ts:39-43 | finds a row with that email exactly when one exists |
| Accounts.FindByEmailUnique | src/app/modules/auth/auth.service.ts:39-43 | with unique emails the row found is the one holding the email |
| Accounts.Login | src/app/modules/auth/auth.service.ts:36-75 | 404 "User does not exist" without the email, 401 "Password is incorrect" on mismatch; success returns the stored user's id, email and role after the password matched |
| Accounts.LoginReturnsStoredUser | src/app/modules/auth/auth.service.ts:36-75 | a stored user's login succeeds iff the password matches, and then returns that user's id and role |
| Accounts.IsGeneratedOtp | src/app/modules/auth/auth.service.ts:32-34 | `generateOTP`'s range: a generated OTP is exactly the printed form of a number from 100000 to 999999 |
| Accounts.DecimalString | src/app/modules/auth/auth.service.ts:33 | `toString()` of a whole number: a non-empty digit string that starts with 0 only for 0 |
| Accounts.ForgotStep | src/app/modules/auth/auth.service.ts:77-111 | 404 "User not found" with nothing written; otherwise that user's OTP and expiry now+5 minutes are stored, nothing else changes, and the result reports whether the mail went out |
| Accounts.ForgotPassword | src/app/modules/auth/auth.service.ts:77-111 | performs ForgotStep on the user table |
| Accounts.ResetMatch | src/app/modules/auth/auth.service.ts:118-130 | the `findFirst` filter: a row matches iff it has the email, the same stored OTP and an expiry strictly after now; a cleared OTP never matches |
| Accounts.ResetStep | src/app/modules/auth/auth.service.ts:113-155 | 400 "Invalid or expired OTP" with nothing written unless a row has that email, that OTP and an unexpired expiry; then only that row's password is replaced and its OTP cleared |
| Accounts.ResetPassword | src/app/modules/auth/auth.service.ts:113-155 | performs ResetStep on the user table |
| Accounts.ResetIsSingleUse | src/app/modules/auth/auth.service.ts:143-150 | after a successful reset the same email and OTP fail at any later time |
| Accounts.IssuedOtpResetsUntilExpiry | src/app/modules/auth/auth.service.ts:77-155 | an OTP just issued resets the password exactly while fewer than five minutes have passed |
| Accounts.NewUser | src/app/modules/user/user.service.ts:26-62 | a new user has the hashed password, role user, name "first last", no OTP, and a profile with bio only when truthy |
| Accounts.RegisterStep | src/app/modules/user/user.service.ts:26-62 | 400 "User already exists" with nothing written for a taken email; otherwise the new user is added and emails stay unique |
| Accounts.RegisterTwiceFails | src/app/modules/user/user.service.ts:26-62 | registering the same email again fails |
| Accounts.RegisterUser | src/app/modules/user/user.service.ts:26-62 | performs RegisterStep on the user table |
| Accounts.ApplyProfile | src/app/modules/user/user.service.ts:177-186 | name and email are replaced when given; id, role, password, OTP and profile are kept |
| Accounts.UpdateProfileStep | src/app/modules/user/user.service.ts:177-198 | record-not-found unless the row exists with role user; otherwise it succeeds iff the new email is not another user's, and then only that row is patched |
| Accounts.UpdateMyProfile | src/app/modules/user/user.service.ts:177-198 | performs UpdateProfileStep on the user table |
| Accounts.PromoteStep | src/app/modules/user/user.service.ts:200-219 | record-not-found for a missing user; otherwise that user's role becomes employee and nothing else changes |
| Accounts.PromoteIdempotent | src/app/modules/user/user.service.ts:200-219 | promoting twice is promoting once |
| Accounts.UpdateUserStatus | src/app/modules/user/user.service.ts:200-219 | performs PromoteStep on the user table |
| Accounts.ChangePasswordStep | src/app/modules/user/user.service.ts:221-256 | record-not-found, then "Current and new passwords are required", then "Current password is incorrect", all writing nothing; for a stored caller with both passwords given it succeeds iff the current password matches the stored hash, and fails with "Current password is incorrect" otherwise; success only replaces the caller's password |
| Accounts.ChangePassword | src/app/modules/user/user.service.ts:221-256 | performs ChangePasswordStep on the user table |
| Accounts.Summaries | src/app/modules/user/user.service.ts:112-121 | each user is projected to the modelled selected columns, id, name, email and role, in order |
| Accounts.UsersMeta | src/app/modules/user/user.service.ts:128-140 | page and limit from the window, the total as given, and a page count that exists iff the limit is nonzero and, for a positive limit, is the least n with n·limit ≥ total |
| Accounts.GetAllUsers | src/app/modules/user/user.service.ts:64-142 | refused iff skip or limit is negative; data is exactly the skip/limit window of the user summaries, in the given order, meeting the search over email and name and the filters; its meta is UsersMeta of the window and the number of matches, which is the number of users with neither |

## Left out

- Stripe is not modelled. The intent a call creates or retrieves is an input, `None` standing for a thrown gateway error. The amount sent to Stripe, `Math.round(total * 0.5 * 100)`, is floating-point arithmetic whose result only Stripe reads.
- Tokens, hashing and email validity are oracle parameters. This covers signing and verifying JWTs, bcrypt hashing and comparison, and the email regex.
- `generateOTP` draws a random number, so the OTP is an input constrained by `IsGeneratedOtp`. The clock is an integer input in milliseconds.
- Sending the OTP email is reduced to a success flag. The HTML template and the SMTP transport in email.util.ts are not modelled.
- Controllers are not modelled: they only pick request fields and call `sendResponse`. The route model stops at the controller's name.
- The reservation installment and assign-employee service functions are not modelled because they are not part of the service file. The undefined `assignEmployee` schema is modelled as a runtime error.
- The single-record reads are not modelled: `getSingleReservation`, `getSingleService`, `getSingleOrder`, `getTotalOrders`, `getMyProfile` and `getUserDetails`. They are plain `findUnique`/`count` calls with `include` joins.
- Prisma `include`/`select` joins are not modelled. Results are the table records themselves.
- Sort order is not modelled. `orderBy` is delegated to the database, so list methods take the table already ordered as the parameter `ordered`.
- Query.Page: a negative `take` is modelled as a refusal. Prisma would instead read backwards.
- Type-mismatched filter values are not modelled: every filter value is a string compared for equality. The database's type errors on non-string columns are not modelled.
- The searchable-field constants for services and orders live in files outside the model, so those lists are parameters. The reservation and user lists are constants.
- The request-validation middleware is not part of this model. It is taken to reject a body its schema refuses and to pass the original body on unchanged. So an order's currency reaches Stripe and the new row as sent. When it is absent, the Stripe outcome is the intent input, and the database column default is not part of this model.
- The user-module schemas (register, update profile, change password) are not part of this model. Their verdict is an oracle in `Routes.Call`.
- Prisma's column defaults are not part of this model. A new reservation is taken to default `afterImages` to `[]` and `paymentStatus` to pending.
- Accounts.UpdateProfileStep: `updateMyProfile` writes every column the request body carries; only name and email are modelled. The user schemas are not part of this model. If they let `role` or `password` through, a customer could promote themselves or store a password unhashed, and the model does not show this.
- Reservations.Apply: the update writes the whole request body (reservation.service.ts:138-140, with the body taken whole in reservation.controller.ts:62-64). Only employeeId, status, afterImages, paymentStatus and the stamped work times are modelled. A body that also carries userId, serviceId, amount, providePaint, scheduledDate, beforeImages or id passes the update schema and rewrites those columns in the source, so `Apply`'s promise that they are kept holds only for bodies without them.
- Reservations.NewReservation: the create spreads the whole body into the new row (reservation.service.ts:19-24). The record type allows an `id`, and a body `id` would become the row's id; the model always uses the fresh id it is given. Columns outside the record type are not modelled either.
- Catalog.CreateStep: the create writes the body as sent (service.service.ts:8-13). A body `id` would become the row's id, and other extra columns would be written; the model stores name, description and image under the fresh id.
- Catalog.ApplyPatch: the update writes the whole payload (service.service.ts:79-90). A payload carrying `id` would rename the row, and the model's "the id is kept" holds only for payloads without one.
- Orders.NewOrder: the create spreads the body into the new row (order.service.ts:35-41). A body `id` would become the row's id, and other extra columns would be written; the model keeps reservationId, totalAmount and currency under the fresh id.
- Accounts.ApplyProfile: only name and email are applied. Its promise that id, role, password, OTP and profile are kept holds only for bodies without those columns; see the UpdateProfileStep line below.
- Null values inside patches (an explicit `null` clearing a column) are not modelled. An absent field keeps the stored value.
- The role enumeration file is not part of this model. Its values are taken to equal the stored role strings user, employee, manager, property_manager and super_admin.
- Schema string lengths count Dafny characters. JavaScript counts UTF-16 code units, so the two differ for characters outside the Basic Multilingual Plane.
- Pagination.CalculatePagination: the options are whole numbers, as the reservation and user controllers pass them after `Number` (reservation.controller.ts:22-25, user.controller.ts:22-25). The service and order controllers pass the raw query strings (service.controller.ts:21, order.controller.ts:55). The string "0" is truthy, so `?page=0` gives page 0 and a negative skip that the database refuses, and `?limit=0` gives take 0; for orders, `paginationHelper` then builds a meta with limit 0. Catalog.GetAllServices and Orders.GetAllOrders are modelled with whole-number options, where 0 falls back to page 1 and limit 10, so they do not show this. Non-numeric strings (`NaN`) are not modelled.
- Accounts.Summaries: the user list also selects resetToken, resetTokenExpiry, createdAt and updatedAt (user.service.ts:117-120). The timestamps are not modelled. The reset state is kept in `otp`/`otpExpiry` (auth.service.ts:91-94), so the two reset-token columns are either extra columns handed to managers or a query the database refuses; neither is modelled.
- Pagination.TotalPage: JavaScript gives `Infinity` or `NaN` for a zero limit, and this is modelled as `None`.
- Concurrency between requests and database transactions other than the two payment confirmations are not modelled. Each operation is atomic here.
- The `/upload` route is not modelled. It forwards a file to a storage service outside the model.
- Routes.Serve: a request path arrives already split into segments. Percent-encoded literals, repeated slashes and case folding beyond ASCII letters are not modelled; every route literal and prefix is ASCII.
