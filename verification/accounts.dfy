/** User accounts: login, the one-time-password reset cycle, registration,
    profile update, promotion to employee, password change and the user list.
    Password hashing is an oracle: `matches(plain, hash)` stands for the hash
    library's compare, and a freshly computed hash is passed in as `hashed`.
    Each state change is specified by a `*Step` function of the old table, and
    the method that performs it is proved to produce exactly that step. */
module Accounts {
  import opened Common
  import opened Enums
  import opened Pagination
  import opened Query

  datatype Profile = Profile(firstName: string, lastName: string, bio: Option<string>)

  datatype User = User(
    id: string, name: string, email: string, password: string, role: Role,
    otp: Option<string>, otpExpiry: Option<int>, profile: Option<Profile>)

  /** A user with the password column removed. */
  datatype PublicUser = PublicUser(
    id: string, name: string, email: string, role: Role,
    otp: Option<string>, otpExpiry: Option<int>, profile: Option<Profile>)

  function Public(u: User): (p: PublicUser)
    ensures p.id == u.id && p.email == u.email && p.role == u.role && p.name == u.name
  {
    PublicUser(u.id, u.name, u.email, u.role, u.otp, u.otpExpiry, u.profile)
  }

  /** The columns the user queries select, as far as the model keeps them: id,
      name, email and role. Timestamps and the list's reset-token columns are not
      kept. */
  datatype UserSummary = UserSummary(id: string, name: string, email: string, role: Role)

  function Summary(u: User): UserSummary {
    UserSummary(u.id, u.name, u.email, u.role)
  }

  type Users = map<string, User>

  /** The table's constraints: rows are keyed by id and emails are unique. */
  ghost predicate WellFormed(rows: Users) {
    && (forall id | id in rows :: rows[id].id == id)
    && (forall a, b | a in rows && b in rows && rows[a].email == rows[b].email :: a == b)
  }

  class UserTable {
    var rows: Users

    ghost predicate Valid()
      reads this
    {
      WellFormed(rows)
    }
  }

  ghost predicate HasEmail(rows: Users, email: string) {
    exists id | id in rows :: rows[id].email == email
  }

  /** `findUnique({ where: { email } })` */
  ghost function FindByEmail(rows: Users, email: string): (r: Option<string>)
    ensures r.Some? ==> r.value in rows && rows[r.value].email == email
    ensures r.None? <==> !HasEmail(rows, email)
  {
    if HasEmail(rows, email) then Some(var id :| id in rows && rows[id].email == email; id) else None
  }

  lemma FindByEmailUnique(rows: Users, email: string, id: string)
    requires WellFormed(rows) && id in rows && rows[id].email == email
    ensures FindByEmail(rows, email) == Some(id)
  {
  }

  // ---------------------------------------------------------------------------
  // Login

  datatype TokenUser = TokenUser(id: string, firstName: string, lastName: string, email: string, role: Role)

  datatype LoginResponse = LoginResponse(id: string, name: string, email: string, role: Role, accessToken: string)

  /** `a || ''` on an optional profile field. */
  function OrEmpty(p: Option<Profile>, first: bool): string {
    if p.None? then "" else if first then p.value.firstName else p.value.lastName
  }

  /** String interpolation of an optional profile field: a missing profile reads as "undefined". */
  function Interpolated(p: Option<Profile>, first: bool): string {
    if p.None? then "undefined" else if first then p.value.firstName else p.value.lastName
  }

  /** `loginUser`: look the email up, compare the password, sign a token. */
  ghost function Login(rows: Users, email: string, password: string,
                       matches: (string, string) -> bool, sign: TokenUser -> string): (r: Result<LoginResponse>)
    requires WellFormed(rows)
    ensures !HasEmail(rows, email) ==> r == Err(AppError(NOT_FOUND, "User does not exist"))
    ensures r.Err? && HasEmail(rows, email) ==> r == Err(AppError(UNAUTHORIZED, "Password is incorrect"))
    ensures r.Ok? ==>
      var id := r.value.id;
      id in rows && rows[id].email == email && r.value.email == email &&
      r.value.role == rows[id].role && matches(password, rows[id].password)
  {
    match FindByEmail(rows, email)
    case None => Err(AppError(NOT_FOUND, "User does not exist"))
    case Some(id) =>
      var u := rows[id];
      if !matches(password, u.password) then Err(AppError(UNAUTHORIZED, "Password is incorrect"))
      else
        var token := sign(TokenUser(u.id, OrEmpty(u.profile, true), OrEmpty(u.profile, false), u.email, u.role));
        Ok(LoginResponse(u.id, Interpolated(u.profile, true) + " " + Interpolated(u.profile, false), u.email, u.role, token))
  }

  /** With unique emails, a login that succeeds returns that user's own id and role. */
  lemma LoginReturnsStoredUser(rows: Users, id: string, password: string,
                               matches: (string, string) -> bool, sign: TokenUser -> string)
    requires WellFormed(rows) && id in rows
    ensures matches(password, rows[id].password) <==> Login(rows, rows[id].email, password, matches, sign).Ok?
    ensures Login(rows, rows[id].email, password, matches, sign).Ok? ==>
      Login(rows, rows[id].email, password, matches, sign).value.id == id &&
      Login(rows, rows[id].email, password, matches, sign).value.role == rows[id].role
  {
    FindByEmailUnique(rows, rows[id].email, id);
  }

  // ---------------------------------------------------------------------------
  // One-time password reset

  /** Lifetime of an OTP in milliseconds (five minutes). */
  const OTP_TTL := 300000

  /** What the OTP generator produces: six decimal digits, the first not zero,
      which are exactly the printed numbers from 100000 to 999999. */
  predicate IsGeneratedOtp(otp: string)
    ensures IsGeneratedOtp(otp) <==> exists n: nat | 100000 <= n < 1000000 :: otp == DecimalString(n)
  {
    SixDigitsArePrinted(otp);
    |otp| == 6 && '1' <= otp[0] <= '9' && AllDigits(otp)
  }

  predicate AllDigits(s: string) {
    forall i | 0 <= i < |s| :: '0' <= s[i] <= '9'
  }

  function DigitChar(d: nat): char
    requires d < 10
  {
    ('0' as int + d) as char
  }

  /** `n.toString()` for a whole number. */
  function DecimalString(n: nat): (s: string)
    ensures |s| > 0 && AllDigits(s)
    ensures s[0] == '0' <==> n == 0
  {
    if n < 10 then [DigitChar(n)] else DecimalString(n / 10) + [DigitChar(n % 10)]
  }

  /** The number a string of decimal digits spells. */
  function DigitsValue(s: string): nat
    requires AllDigits(s)
  {
    if |s| == 0 then 0 else DigitsValue(s[..|s| - 1]) * 10 + (s[|s| - 1] as int - '0' as int)
  }

  function Pow10(k: nat): nat {
    if k == 0 then 1 else 10 * Pow10(k - 1)
  }

  /** A positive number prints with k+1 digits exactly when it lies in [10^k, 10^(k+1)). */
  lemma {:induction false} DecimalLength(n: nat, k: nat)
    requires n > 0
    ensures |DecimalString(n)| == k + 1 <==> Pow10(k) <= n < Pow10(k + 1)
    decreases n
  {
    if n >= 10 {
      if k == 0 {
        assert |DecimalString(n)| == |DecimalString(n / 10)| + 1;
      } else {
        DecimalLength(n / 10, k - 1);
        assert Pow10(k + 1) == 10 * Pow10(k);
      }
    }
  }

  /** A digit string without a leading zero is the printed form of its value. */
  lemma {:induction false} PrintedValue(s: string)
    requires |s| > 0 && AllDigits(s) && s[0] != '0'
    ensures DecimalString(DigitsValue(s)) == s
    decreases |s|
  {
    var d := s[|s| - 1] as int - '0' as int;
    assert DigitChar(d) == s[|s| - 1];
    if |s| > 1 {
      var init := s[..|s| - 1];
      PrintedValue(init);
      assert DigitsValue(init) > 0;
      assert s == init + [s[|s| - 1]];
    }
  }

  lemma SixDigitsArePrinted(otp: string)
    ensures (|otp| == 6 && '1' <= otp[0] <= '9' && AllDigits(otp)) <==>
      (exists n: nat | 100000 <= n < 1000000 :: otp == DecimalString(n))
  {
    if |otp| == 6 && '1' <= otp[0] <= '9' && AllDigits(otp) {
      var n := DigitsValue(otp);
      PrintedValue(otp);
      DecimalLength(n, 5);
    }
    if exists n: nat | 100000 <= n < 1000000 :: otp == DecimalString(n) {
      var n: nat :| 100000 <= n < 1000000 && otp == DecimalString(n);
      DecimalLength(n, 5);
    }
  }

  /** `forgotPassword`: store a new OTP and its expiry on the user with that email,
      replacing any earlier one. A failed email delivery is reported after the write. */
  ghost function ForgotStep(rows: Users, email: string, otp: string, now: int, mailOk: bool): (r: (Result<string>, Users))
    ensures !HasEmail(rows, email) ==> r == (Err(AppError(NOT_FOUND, "User not found")), rows)
    ensures HasEmail(rows, email) ==>
      var id := FindByEmail(rows, email).value;
      r.1.Keys == rows.Keys &&
      r.1[id] == rows[id].(otp := Some(otp), otpExpiry := Some(now + OTP_TTL)) &&
      (forall other | other in rows && other != id :: r.1[other] == rows[other]) &&
      (r.0.Ok? <==> mailOk)
  {
    match FindByEmail(rows, email)
    case None => (Err(AppError(NOT_FOUND, "User not found")), rows)
    case Some(id) =>
      var rows' := rows[id := rows[id].(otp := Some(otp), otpExpiry := Some(now + OTP_TTL))];
      (if mailOk then Ok("OTP has been sent to your email") else Err(RuntimeError("email delivery failed")), rows')
  }

  /** The row a reset request matches: same email, same OTP, expiry strictly after now. */
  predicate ResetMatch(u: User, email: string, otp: string, now: int)
    ensures ResetMatch(u, email, otp, now) ==> u.email == email && u.otp == Some(otp)
    ensures u.otp.None? || u.otpExpiry.None? ==> !ResetMatch(u, email, otp, now)
    ensures u.otpExpiry.Some? && u.otpExpiry.value <= now ==> !ResetMatch(u, email, otp, now)
    ensures u.email == email && u.otp == Some(otp) && u.otpExpiry.Some? && u.otpExpiry.value > now ==>
      ResetMatch(u, email, otp, now)
  {
    u.email == email && u.otp == Some(otp) && u.otpExpiry.Some? && u.otpExpiry.value > now
  }

  ghost predicate HasResetMatch(rows: Users, email: string, otp: string, now: int) {
    exists id | id in rows :: ResetMatch(rows[id], email, otp, now)
  }

  /** `resetPassword`: only a matching unexpired OTP lets the password change, and
      the change clears the OTP and its expiry. */
  ghost function ResetStep(rows: Users, email: string, otp: string, hashed: string, now: int): (r: (Result<string>, Users))
    ensures !HasResetMatch(rows, email, otp, now) ==> r == (Err(AppError(BAD_REQUEST, "Invalid or expired OTP")), rows)
    ensures HasResetMatch(rows, email, otp, now) ==>
      r.0 == Ok("Password reset successful") && r.1.Keys == rows.Keys &&
      exists id | id in rows && ResetMatch(rows[id], email, otp, now) ::
        r.1[id] == rows[id].(password := hashed, otp := None, otpExpiry := None) &&
        forall other | other in rows && other != id :: r.1[other] == rows[other]
  {
    if HasResetMatch(rows, email, otp, now) then
      var id :| id in rows && ResetMatch(rows[id], email, otp, now);
      (Ok("Password reset successful"), rows[id := rows[id].(password := hashed, otp := None, otpExpiry := None)])
    else (Err(AppError(BAD_REQUEST, "Invalid or expired OTP")), rows)
  }

  /** An OTP works once: after a successful reset the same request fails, at any time. */
  lemma ResetIsSingleUse(rows: Users, email: string, otp: string, hashed: string, now: int, hashed2: string, later: int)
    requires WellFormed(rows)
    requires ResetStep(rows, email, otp, hashed, now).0.Ok?
    ensures ResetStep(ResetStep(rows, email, otp, hashed, now).1, email, otp, hashed2, later).0.Err?
  {
    var rows' := ResetStep(rows, email, otp, hashed, now).1;
    var id :| id in rows && ResetMatch(rows[id], email, otp, now) &&
      rows'[id] == rows[id].(password := hashed, otp := None, otpExpiry := None) &&
      forall other | other in rows && other != id :: rows'[other] == rows[other];
    if HasResetMatch(rows', email, otp, later) {
      assert false;
    }
  }

  /** An OTP just issued resets the password exactly while it is younger than five minutes. */
  lemma IssuedOtpResetsUntilExpiry(rows: Users, id: string, otp: string, now: int, mailOk: bool, hashed: string, at: int)
    requires WellFormed(rows) && id in rows
    ensures
      var rows' := ForgotStep(rows, rows[id].email, otp, now, mailOk).1;
      ResetStep(rows', rows[id].email, otp, hashed, at).0.Ok? <==> at < now + OTP_TTL
  {
    var email := rows[id].email;
    FindByEmailUnique(rows, email, id);
    var rows' := ForgotStep(rows, email, otp, now, mailOk).1;
    if at < now + OTP_TTL {
      assert ResetMatch(rows'[id], email, otp, at);
    } else if HasResetMatch(rows', email, otp, at) {
      assert false;
    }
  }

  method ForgotPassword(users: UserTable, email: string, otp: string, now: int, mailOk: bool)
    returns (r: Result<string>)
    requires users.Valid() && IsGeneratedOtp(otp)
    modifies users
    ensures users.Valid()
    ensures (r, users.rows) == ForgotStep(old(users.rows), email, otp, now, mailOk)
  {
    if !(exists id | id in users.rows :: users.rows[id].email == email) {
      return Err(AppError(NOT_FOUND, "User not found"));
    }
    var id :| id in users.rows && users.rows[id].email == email;
    FindByEmailUnique(users.rows, email, id);
    var otpExpiry := now + OTP_TTL;
    users.rows := users.rows[id := users.rows[id].(otp := Some(otp), otpExpiry := Some(otpExpiry))];
    if !mailOk {
      return Err(RuntimeError("email delivery failed"));
    }
    r := Ok("OTP has been sent to your email");
  }

  method ResetPassword(users: UserTable, email: string, otp: string, hashed: string, now: int)
    returns (r: Result<string>)
    requires users.Valid()
    modifies users
    ensures users.Valid()
    ensures (r, users.rows) == ResetStep(old(users.rows), email, otp, hashed, now)
  {
    var currentDate := now;
    if !(exists id | id in users.rows :: ResetMatch(users.rows[id], email, otp, currentDate)) {
      return Err(AppError(BAD_REQUEST, "Invalid or expired OTP"));
    }
    var id :| id in users.rows && ResetMatch(users.rows[id], email, otp, currentDate);
    ghost var rows := users.rows;
    forall j | j in rows && ResetMatch(rows[j], email, otp, now) ensures j == id { }
    users.rows := users.rows[id := users.rows[id].(password := hashed, otp := None, otpExpiry := None)];
    r := Ok("Password reset successful");
  }

  // ---------------------------------------------------------------------------
  // Registration

  datatype RegisterInput = RegisterInput(firstName: string, lastName: string, email: string, password: string, bio: Option<string>)

  /** The record registration creates; `bio || null` drops an empty bio. */
  function NewUser(id: string, p: RegisterInput, hashed: string): (u: User)
    ensures u.id == id && u.email == p.email && u.password == hashed && u.role == Role.User
    ensures u.name == p.firstName + " " + p.lastName
    ensures u.otp.None? && u.otpExpiry.None?
    ensures u.profile == Some(Profile(p.firstName, p.lastName, if Truthy(p.bio) then p.bio else None))
  {
    User.User(id, p.firstName + " " + p.lastName, p.email, hashed, Role.User, None, None,
         Some(Profile(p.firstName, p.lastName, if Truthy(p.bio) then p.bio else None)))
  }

  ghost function RegisterStep(rows: Users, p: RegisterInput, hashed: string, freshId: string): (r: (Result<PublicUser>, Users))
    requires freshId !in rows
    ensures HasEmail(rows, p.email) ==> r == (Err(AppError(BAD_REQUEST, "User already exists")), rows)
    ensures !HasEmail(rows, p.email) ==>
      r.1 == rows[freshId := NewUser(freshId, p, hashed)] && r.0 == Ok(Public(NewUser(freshId, p, hashed)))
    ensures WellFormed(rows) ==> WellFormed(r.1)
  {
    if HasEmail(rows, p.email) then (Err(AppError(BAD_REQUEST, "User already exists")), rows)
    else (Ok(Public(NewUser(freshId, p, hashed))), rows[freshId := NewUser(freshId, p, hashed)])
  }

  /** Registering the same email twice fails the second time and adds nothing. */
  lemma RegisterTwiceFails(rows: Users, p: RegisterInput, q: RegisterInput, h1: string, h2: string, id1: string, id2: string)
    requires id1 !in rows && id2 !in rows && id1 != id2 && q.email == p.email
    requires RegisterStep(rows, p, h1, id1).0.Ok?
    ensures var rows' := RegisterStep(rows, p, h1, id1).1;
      RegisterStep(rows', q, h2, id2) == (Err(AppError(BAD_REQUEST, "User already exists")), rows')
  {
    var rows' := RegisterStep(rows, p, h1, id1).1;
    assert rows'[id1].email == q.email;
  }

  method RegisterUser(users: UserTable, p: RegisterInput, hashed: string, freshId: string)
    returns (r: Result<PublicUser>)
    requires users.Valid() && freshId !in users.rows
    modifies users
    ensures users.Valid()
    ensures (r, users.rows) == RegisterStep(old(users.rows), p, hashed, freshId)
  {
    var userData := NewUser(freshId, p, hashed);
    var isUserExists := exists id | id in users.rows :: users.rows[id].email == p.email;
    if isUserExists {
      return Err(AppError(BAD_REQUEST, "User already exists"));
    }
    users.rows := users.rows[freshId := userData];
    r := Ok(Public(userData));
  }

  // ---------------------------------------------------------------------------
  // Profile update, promotion, password change

  /** The columns a profile update writes. */
  datatype ProfilePatch = ProfilePatch(name: Option<string>, email: Option<string>)

  function ApplyProfile(u: User, p: ProfilePatch): (v: User)
    ensures v.id == u.id && v.role == u.role && v.password == u.password && v.otp == u.otp && v.profile == u.profile
    ensures v.name == (if p.name.Some? then p.name.value else u.name)
    ensures v.email == (if p.email.Some? then p.email.value else u.email)
  {
    u.(name := if p.name.Some? then p.name.value else u.name,
       email := if p.email.Some? then p.email.value else u.email)
  }

  /** `update({ where: { id, role: 'user' } })`: a row that is missing or whose
      stored role is not `user` is not found; an email taken by another user
      violates the unique constraint. */
  ghost function UpdateProfileStep(rows: Users, id: string, p: ProfilePatch): (r: (Result<UserSummary>, Users))
    ensures r.0.Err? ==> r.1 == rows
    ensures (id !in rows || rows[id].role != Role.User) ==> r == (Err(RecordNotFound), rows)
    ensures r.0.Ok? ==> id in rows && rows[id].role == Role.User && r.1 == rows[id := ApplyProfile(rows[id], p)]
    ensures r.0.Ok? ==> r.0.value == Summary(ApplyProfile(rows[id], p))
    ensures id in rows && rows[id].role == Role.User ==>
      (r.0.Ok? <==> !(p.email.Some? && exists other | other in rows && other != id :: rows[other].email == p.email.value))
    ensures WellFormed(rows) ==> WellFormed(r.1)
  {
    if id !in rows || rows[id].role != Role.User then (Err(RecordNotFound), rows)
    else if p.email.Some? && exists other | other in rows && other != id :: rows[other].email == p.email.value then
      (Err(StoreError("unique constraint failed on email")), rows)
    else
      var u := ApplyProfile(rows[id], p);
      (Ok(Summary(u)), rows[id := u])
  }

  method UpdateMyProfile(users: UserTable, id: string, p: ProfilePatch) returns (r: Result<UserSummary>)
    requires users.Valid()
    modifies users
    ensures users.Valid()
    ensures (r, users.rows) == UpdateProfileStep(old(users.rows), id, p)
  {
    if id !in users.rows || users.rows[id].role != Role.User {
      return Err(RecordNotFound);
    }
    if p.email.Some? && exists other | other in users.rows && other != id :: users.rows[other].email == p.email.value {
      return Err(StoreError("unique constraint failed on email"));
    }
    var result := ApplyProfile(users.rows[id], p);
    users.rows := users.rows[id := result];
    r := Ok(Summary(result));
  }

  /** `updateUserStatusIntoDB`: promote to employee; nothing else changes. */
  ghost function PromoteStep(rows: Users, id: string): (r: (Result<UserSummary>, Users))
    ensures id !in rows ==> r == (Err(RecordNotFound), rows)
    ensures id in rows ==>
      r.1 == rows[id := rows[id].(role := Employee)] && r.0 == Ok(Summary(rows[id]).(role := Employee))
    ensures WellFormed(rows) ==> WellFormed(r.1)
  {
    if id !in rows then (Err(RecordNotFound), rows)
    else (Ok(Summary(rows[id].(role := Employee))), rows[id := rows[id].(role := Employee)])
  }

  /** Promotion is idempotent. */
  lemma PromoteIdempotent(rows: Users, id: string)
    ensures PromoteStep(PromoteStep(rows, id).1, id).1 == PromoteStep(rows, id).1
  {
  }

  method UpdateUserStatus(users: UserTable, id: string) returns (r: Result<UserSummary>)
    requires users.Valid()
    modifies users
    ensures users.Valid()
    ensures (r, users.rows) == PromoteStep(old(users.rows), id)
  {
    if id !in users.rows {
      return Err(RecordNotFound);
    }
    users.rows := users.rows[id := users.rows[id].(role := Employee)];
    r := Ok(Summary(users.rows[id]));
  }

  datatype ChangePasswordInput = ChangePasswordInput(currentPassword: Option<string>, newPassword: Option<string>)

  /** `changePassword`: the caller's row is looked up by email first; then both
      passwords must be non-empty and the current one must match the stored hash. */
  ghost function ChangePasswordStep(rows: Users, email: string, p: ChangePasswordInput,
                                    matches: (string, string) -> bool, hashed: string): (r: (Result<string>, Users))
    ensures r.0.Err? ==> r.1 == rows
    ensures !HasEmail(rows, email) ==> r.0 == Err(RecordNotFound)
    ensures HasEmail(rows, email) && (!Truthy(p.currentPassword) || !Truthy(p.newPassword)) ==>
      r.0 == Err(PlainError("Current and new passwords are required"))
    ensures HasEmail(rows, email) && Truthy(p.currentPassword) && Truthy(p.newPassword) ==>
      var stored := rows[FindByEmail(rows, email).value].password;
      (r.0.Ok? <==> matches(p.currentPassword.value, stored)) &&
      (!matches(p.currentPassword.value, stored) ==> r.0 == Err(PlainError("Current password is incorrect")))
    ensures r.0.Ok? ==>
      var id := FindByEmail(rows, email).value;
      Truthy(p.currentPassword) && Truthy(p.newPassword) &&
      matches(p.currentPassword.value, rows[id].password) &&
      r.1 == rows[id := rows[id].(password := hashed)]
    ensures WellFormed(rows) ==> WellFormed(r.1)
  {
    match FindByEmail(rows, email)
    case None => (Err(RecordNotFound), rows)
    case Some(id) =>
      if !Truthy(p.currentPassword) || !Truthy(p.newPassword) then
        (Err(PlainError("Current and new passwords are required")), rows)
      else if !matches(p.currentPassword.value, rows[id].password) then
        (Err(PlainError("Current password is incorrect")), rows)
      else
        (Ok("Password changed successfully!"), rows[id := rows[id].(password := hashed)])
  }

  method ChangePassword(users: UserTable, email: string, p: ChangePasswordInput,
                        matches: (string, string) -> bool, hashed: string) returns (r: Result<string>)
    requires users.Valid()
    modifies users
    ensures users.Valid()
    ensures (r, users.rows) == ChangePasswordStep(old(users.rows), email, p, matches, hashed)
  {
    if !(exists id | id in users.rows :: users.rows[id].email == email) {
      return Err(RecordNotFound);
    }
    var id :| id in users.rows && users.rows[id].email == email;
    FindByEmailUnique(users.rows, email, id);
    if !Truthy(p.currentPassword) || !Truthy(p.newPassword) {
      return Err(PlainError("Current and new passwords are required"));
    }
    var isCorrectPassword := matches(p.currentPassword.value, users.rows[id].password);
    if !isCorrectPassword {
      return Err(PlainError("Current password is incorrect"));
    }
    users.rows := users.rows[id := users.rows[id].(password := hashed)];
    r := Ok("Password changed successfully!");
  }

  // ---------------------------------------------------------------------------
  // User list

  const UserSearchableFields := ["email", "name"]

  function SummaryRow(s: UserSummary): Row {
    map["id" := s.id, "name" := s.name, "email" := s.email, "role" := RoleName(s.role)]
  }

  function Summaries(us: seq<User>): (r: seq<UserSummary>)
    ensures |r| == |us| && forall i | 0 <= i < |us| :: r[i] == Summary(us[i])
  {
    seq(|us|, i requires 0 <= i < |us| => Summary(us[i]))
  }

  /** The meta `getAllUsersFromDB` builds: the window's page and limit, the total,
      and `Math.ceil(total / limit)` as the page count. */
  function UsersMeta(w: Window, total: nat): (m: Meta)
    ensures m.page == w.page && m.limit == w.limit && m.total == total
    ensures m.totalPage.Some? <==> w.limit != 0
    ensures w.limit > 0 ==> m.totalPage.value * m.limit >= total && (m.totalPage.value - 1) * m.limit < total
  {
    Meta(w.page, w.limit, total, TotalPage(total, w.limit))
  }

  datatype UserList = UserList(success: bool, statusCode: int, message: string, meta: Meta, data: seq<UserSummary>)

  /** `getAllUsersFromDB`: the shared where-builder over email and name, a page of
      the matches in the store's order, and a meta whose page count covers the total. */
  method GetAllUsers(users: UserTable, ordered: seq<User>, searchTerm: Option<string>,
                     filters: seq<(string, string)>, options: Options) returns (r: Result<UserList>)
    requires forall u :: u in ordered <==> u in users.rows.Values
    requires |ordered| == |users.rows|
    ensures r.Err? <==> CalculatePagination(options).skip < 0 || CalculatePagination(options).limit < 0
    ensures r.Ok? ==> r.value.meta == UsersMeta(CalculatePagination(options),
      |Select(Summaries(ordered), SummaryRow, WhereFor(searchTerm, UserSearchableFields, filters))|)
    ensures r.Ok? && !Truthy(searchTerm) && |filters| == 0 ==> r.value.meta.total == |users.rows|
    ensures r.Ok? ==> Page(Select(Summaries(ordered), SummaryRow, WhereFor(searchTerm, UserSearchableFields, filters)),
      CalculatePagination(options).skip, CalculatePagination(options).limit) == Ok(r.value.data)
    ensures r.Ok? ==> |r.value.data| <= r.value.meta.limit
    ensures r.Ok? ==> forall s | s in r.value.data ::
      s in Summaries(ordered) && Selected(searchTerm, UserSearchableFields, filters, SummaryRow(s))
  {
    var w := CalculatePagination(options);
    var whereConditions := BuildWhere(searchTerm, UserSearchableFields, filters);
    var summaries := Summaries(ordered);
    if !Truthy(searchTerm) && |filters| == 0 {
      SelectEmpty(summaries, SummaryRow);
    }
    var found := FindMany(summaries, SummaryRow, whereConditions, w);
    if found.Err? {
      return Err(found.error);
    }
    r := Ok(UserList(true, 200, "Users retrieved successfully", UsersMeta(w, found.value.meta.total), found.value.data));
  }
}
