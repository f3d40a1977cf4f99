/** The route tables: each module router lists its routes in registration
    order, each route a verb, a path and a chain of stages (the auth gate with
    its role list, a body schema, the controller). A request goes to the first
    route of its module whose verb and path match, and its stages run in order
    until one fails or the controller is reached. */
module Routes {
  import opened Common
  import opened Enums
  import opened Accounts
  import opened AuthGate
  import opened Validation

  datatype Verb = GET | POST | PATCH | DELETE

  /** A path segment: a literal, or a `:param` that matches any non-empty segment. */
  datatype Segment = Lit(text: string) | Param

  /** The body schemas the routes name. `AssignEmployee` is referenced by the
      reservation router but not defined by its validation module. The three
      user schemas live in a validation file that is not part of this model. */
  datatype Schema =
    | ReservationCreate | ReservationUpdate | AssignEmployee
    | OrderCreate | ServiceCreate | ServiceUpdate
    | LoginSchema | ForgotPasswordSchema | ResetPasswordSchema
    | RegisterUser | UpdateProfile | ChangePassword

  datatype Stage = Authenticate(roles: seq<Role>) | Validate(schema: Schema) | Handle(handler: string)

  datatype Route = Route(verb: Verb, path: seq<Segment>, stages: seq<Stage>)

  /** Everything a request brings: credentials for the gate, a body for the
      schemas, the email pattern, and the verdict of the user schemas. */
  datatype Call = Call(cred: Credentials, body: Json, isEmail: string -> bool, userSchemas: (Schema, Json) -> bool)

  datatype Check = Accepted | Rejected | Undefined

  datatype Outcome = Reached(handler: string, user: Option<TokenUser>) | Stopped(error: Error) | NotFound

  // ---------------------------------------------------------------------------
  // Tables

  const ReservationRoutes: seq<Route> := [
    Route(POST, [], [Authenticate([Role.User]), Validate(ReservationCreate), Handle("createReservation")]),
    Route(GET, [], [Authenticate([Role.User, Employee, Manager, SuperAdmin, PropertyManager]), Handle("getAllReservations")]),
    Route(GET, [Param], [Authenticate([Role.User, Employee, Manager]), Handle("getSingleReservation")]),
    Route(PATCH, [Param], [Authenticate([Manager, Employee]), Validate(ReservationUpdate), Handle("updateReservation")]),
    Route(PATCH, [Param, Lit("first-installment")], [Authenticate([Role.User]), Handle("confirmFirstInstallment")]),
    Route(PATCH, [Param, Lit("second-installment")], [Authenticate([Role.User]), Handle("confirmSecondInstallment")]),
    Route(PATCH, [Param, Lit("assign-employee")], [Authenticate([Manager]), Validate(AssignEmployee), Handle("assignEmployee")]),
    Route(DELETE, [Param], [Authenticate([Manager]), Handle("deleteReservation")])
  ]

  const OrderRoutes: seq<Route> := [
    Route(POST, [], [Authenticate([Role.User]), Validate(OrderCreate), Handle("createOrder")]),
    Route(POST, [Lit("confirm-payment")], [Authenticate([Role.User]), Handle("confirmPayment")]),
    Route(POST, [Lit("process-second-payment")], [Authenticate([Role.User]), Handle("processSecondPayment")]),
    Route(POST, [Lit("confirm-second-payment")], [Authenticate([Role.User]), Handle("confirmSecondPayment")]),
    Route(GET, [], [Authenticate([Role.User, Manager]), Handle("getAllOrders")]),
    Route(GET, [Param], [Authenticate([Role.User, Manager]), Handle("getSingleOrder")])
  ]

  const UserRoutes: seq<Route> := [
    Route(POST, [Lit("register")], [Validate(RegisterUser), Handle("registerUser")]),
    Route(GET, [Lit("my-profile")], [Authenticate([]), Handle("getMyProfile")]),
    Route(GET, [Param], [Authenticate([Manager]), Handle("getUserDetails")]),
    Route(GET, [], [Authenticate([Manager]), Handle("getAllUsers")]),
    Route(PATCH, [Lit("my-profile")], [Authenticate([]), Validate(UpdateProfile), Handle("updateMyProfile")]),
    Route(PATCH, [Param, Lit("role")], [Authenticate([Manager]), Handle("updateUserStatus")]),
    Route(POST, [Lit("change-password")], [Authenticate([]), Validate(ChangePassword), Handle("changePassword")])
  ]

  const ServiceRoutes: seq<Route> := [
    Route(POST, [], [Authenticate([Manager]), Validate(ServiceCreate), Handle("createService")]),
    Route(GET, [], [Handle("getAllServices")]),
    Route(GET, [Param], [Handle("getSingleService")]),
    Route(PATCH, [Param], [Authenticate([Manager]), Validate(ServiceUpdate), Handle("updateService")]),
    Route(DELETE, [Param], [Authenticate([Manager]), Handle("deleteService")])
  ]

  const AuthRoutes: seq<Route> := [
    Route(POST, [Lit("login")], [Validate(LoginSchema), Handle("loginUser")]),
    Route(POST, [Lit("forgot-password")], [Validate(ForgotPasswordSchema), Handle("forgotPassword")]),
    Route(POST, [Lit("reset-password")], [Validate(ResetPasswordSchema), Handle("resetPassword")])
  ]

  /** The module routers and the path each is mounted under. Routers are made
      with the default options, so a prefix matches whatever its case. */
  function Mounted(prefix: string): (r: Option<seq<Route>>)
    ensures r.Some? <==> Lower(prefix) in {"auth", "users", "services", "reservations", "orders"}
  {
    LowerCaseFixed("auth");
    LowerCaseFixed("users");
    LowerCaseFixed("services");
    LowerCaseFixed("reservations");
    LowerCaseFixed("orders");
    if EqualsIgnoringCase(prefix, "auth") then Some(AuthRoutes)
    else if EqualsIgnoringCase(prefix, "users") then Some(UserRoutes)
    else if EqualsIgnoringCase(prefix, "services") then Some(ServiceRoutes)
    else if EqualsIgnoringCase(prefix, "reservations") then Some(ReservationRoutes)
    else if EqualsIgnoringCase(prefix, "orders") then Some(OrderRoutes)
    else None
  }

  // ---------------------------------------------------------------------------
  // Matching and dispatch

  /** A literal matches whatever its case; a parameter any non-empty segment. */
  predicate SegmentMatches(s: Segment, part: string) {
    match s
    case Lit(t) => EqualsIgnoringCase(part, t)
    case Param => part != ""
  }

  /** Segment by segment, with no segment left over on either side. */
  predicate PathMatches(path: seq<Segment>, url: seq<string>)
    decreases |path|
  {
    if |path| == 0 then |url| == 0
    else |url| > 0 && SegmentMatches(path[0], url[0]) && PathMatches(path[1..], url[1..])
  }

  predicate Handles(r: Route, verb: Verb, url: seq<string>) {
    r.verb == verb && PathMatches(r.path, url)
  }

  /** The first route at or after `k` that handles the request. */
  function DispatchFrom(routes: seq<Route>, verb: Verb, url: seq<string>, k: nat): (r: Option<nat>)
    requires k <= |routes|
    decreases |routes| - k
    ensures r.Some? ==> k <= r.value < |routes| && Handles(routes[r.value], verb, url)
    ensures r.Some? ==> forall j | k <= j < r.value :: !Handles(routes[j], verb, url)
    ensures r.None? ==> forall j | k <= j < |routes| :: !Handles(routes[j], verb, url)
  {
    if k == |routes| then None
    else if Handles(routes[k], verb, url) then Some(k)
    else DispatchFrom(routes, verb, url, k + 1)
  }

  function Dispatch(routes: seq<Route>, verb: Verb, url: seq<string>): (r: Option<nat>)
    ensures r.Some? ==> r.value < |routes| && Handles(routes[r.value], verb, url)
    ensures r.Some? ==> forall j | 0 <= j < r.value :: !Handles(routes[j], verb, url)
    ensures r.None? ==> forall j | 0 <= j < |routes| :: !Handles(routes[j], verb, url)
  {
    DispatchFrom(routes, verb, url, 0)
  }

  /** The route dispatch picks is the first one that handles the request. */
  lemma DispatchIsFirst(routes: seq<Route>, verb: Verb, url: seq<string>, i: nat)
    requires i < |routes| && Handles(routes[i], verb, url)
    requires forall j | 0 <= j < i :: !Handles(routes[j], verb, url)
    ensures Dispatch(routes, verb, url) == Some(i)
  {
  }

  // ---------------------------------------------------------------------------
  // Running the stages

  /** `validateRequest(schema)` on the request body. */
  function CheckBody(s: Schema, c: Call): (r: Check)
    ensures r == Undefined <==> s == AssignEmployee
    ensures s == ReservationCreate ==> (r == Accepted <==> ParseReservationCreate(c.body).Some?)
    ensures s == ReservationUpdate ==> (r == Accepted <==> ParseReservationUpdate(c.body).Some?)
    ensures s == OrderCreate ==> (r == Accepted <==> ParseOrderCreate(c.body).Some?)
    ensures s == ServiceCreate ==> (r == Accepted <==> ParseServiceCreate(c.body).Some?)
    ensures s == ServiceUpdate ==> (r == Accepted <==> ParseServiceUpdate(c.body).Some?)
    ensures s == LoginSchema ==> (r == Accepted <==> ParseLogin(c.body, c.isEmail).Some?)
    ensures s == ForgotPasswordSchema ==> (r == Accepted <==> ParseForgotPassword(c.body, c.isEmail).Some?)
    ensures s == ResetPasswordSchema ==> (r == Accepted <==> ParseResetPassword(c.body, c.isEmail).Some?)
    ensures s in {RegisterUser, UpdateProfile, ChangePassword} ==> (r == Accepted <==> c.userSchemas(s, c.body))
  {
    match s
    case ReservationCreate => if ParseReservationCreate(c.body).Some? then Accepted else Rejected
    case ReservationUpdate => if ParseReservationUpdate(c.body).Some? then Accepted else Rejected
    case AssignEmployee => Undefined
    case OrderCreate => if ParseOrderCreate(c.body).Some? then Accepted else Rejected
    case ServiceCreate => if ParseServiceCreate(c.body).Some? then Accepted else Rejected
    case ServiceUpdate => if ParseServiceUpdate(c.body).Some? then Accepted else Rejected
    case LoginSchema => if ParseLogin(c.body, c.isEmail).Some? then Accepted else Rejected
    case ForgotPasswordSchema => if ParseForgotPassword(c.body, c.isEmail).Some? then Accepted else Rejected
    case ResetPasswordSchema => if ParseResetPassword(c.body, c.isEmail).Some? then Accepted else Rejected
    case RegisterUser => if c.userSchemas(s, c.body) then Accepted else Rejected
    case UpdateProfile => if c.userSchemas(s, c.body) then Accepted else Rejected
    case ChangePassword => if c.userSchemas(s, c.body) then Accepted else Rejected
  }

  /** The stages of one route, in order, with the identity the gate has set so far. */
  function Run(stages: seq<Stage>, c: Call, user: Option<TokenUser>): (o: Outcome)
    decreases |stages|
    ensures o.Reached? ==> Handle(o.handler) in stages
  {
    if |stages| == 0 then NotFound
    else match stages[0]
      case Handle(h) => Reached(h, user)
      case Authenticate(roles) =>
        (match Decide(c.cred, roles)
         case Err(e) => Stopped(e)
         case Ok(claims) => Run(stages[1..], c, Some(claims)))
      case Validate(s) =>
        (match CheckBody(s, c)
         case Accepted => Run(stages[1..], c, user)
         case Rejected => Stopped(ValidationError)
         case Undefined => Stopped(RuntimeError("validation schema is undefined")))
  }

  /** The path the routers see: one trailing slash, an empty last segment, is
      ignored, as routers that are not strict do. */
  function Trimmed(url: seq<string>): (p: seq<string>)
    ensures |url| > 0 && url[|url| - 1] == "" ==> p + [""] == url
    ensures !(|url| > 0 && url[|url| - 1] == "") ==> p == url
  {
    if |url| > 0 && url[|url| - 1] == "" then url[..|url| - 1] else url
  }

  /** A request to `/<prefix>/<rest>`. */
  function Serve(c: Call, verb: Verb, url: seq<string>): (o: Outcome)
    ensures var p := Trimmed(url);
      !o.NotFound? ==> |p| > 0 && Mounted(p[0]).Some? && Dispatch(Mounted(p[0]).value, verb, p[1..]).Some?
  {
    var p := Trimmed(url);
    if |p| == 0 then NotFound
    else match Mounted(p[0])
      case None => NotFound
      case Some(routes) =>
        match Dispatch(routes, verb, p[1..])
        case None => NotFound
        case Some(i) => Run(routes[i].stages, c, None)
  }

  /** The request reaches the named controller. */
  predicate Reaches(c: Call, verb: Verb, url: seq<string>, handler: string) {
    Serve(c, verb, url).Reached? && Serve(c, verb, url).handler == handler
  }

  /** The gate admits the caller for this role list. */
  predicate Admits(c: Call, roles: seq<Role>) {
    Identity(c.cred).Some? && (|roles| == 0 || Identity(c.cred).value.role in roles)
  }

  predicate Accepts(c: Call, s: Schema) {
    CheckBody(s, c) == Accepted
  }

  // ---------------------------------------------------------------------------
  // What the stages guarantee

  /** A stage lets the request through. */
  predicate Passes(st: Stage, c: Call) {
    match st
    case Authenticate(roles) => Admits(c, roles)
    case Validate(s) => Accepts(c, s)
    case Handle(_) => true
  }

  /** Stages run strictly in order: the controller is reached exactly when every
      stage before the first controller passes, and a route without a controller
      never reaches one. */
  lemma {:induction false} RunReachedIff(stages: seq<Stage>, c: Call, user: Option<TokenUser>, n: nat)
    requires n < |stages| && stages[n].Handle?
    requires forall j | 0 <= j < n :: !stages[j].Handle?
    ensures Run(stages, c, user).Reached? <==> forall j | 0 <= j < n :: Passes(stages[j], c)
    ensures Run(stages, c, user).Reached? ==> Run(stages, c, user).handler == stages[n].handler
    decreases n
  {
    if n > 0 {
      assert forall j | 1 <= j < n :: stages[1..][j - 1] == stages[j];
      match stages[0]
      case Authenticate(roles) =>
        if Admits(c, roles) {
          RunReachedIff(stages[1..], c, Some(Decide(c.cred, roles).value), n - 1);
        }
      case Validate(s) =>
        if Accepts(c, s) {
          RunReachedIff(stages[1..], c, user, n - 1);
        }
    }
  }

  /** When a route's first stage is the gate, a caller it refuses gets the gate's
      error, whatever the body says: the role check comes before validation. */
  lemma GateFirst(stages: seq<Stage>, c: Call, user: Option<TokenUser>)
    requires |stages| > 0 && stages[0].Authenticate? && !Admits(c, stages[0].roles)
    ensures Run(stages, c, user) == Stopped(Decide(c.cred, stages[0].roles).error)
  {
  }

  /** A controller behind the gate sees the verified claims as `req.user`. */
  lemma GateSetsUser(stages: seq<Stage>, c: Call, user: Option<TokenUser>)
    requires |stages| >= 2 && stages[0].Authenticate? && stages[1].Handle? && Admits(c, stages[0].roles)
    ensures Run(stages, c, user) == Reached(stages[1].handler, Claims(c.cred))
  {
  }

  /** Every reservation route and every order route starts with the gate, and no
      route anywhere validates a body before the gate has run. */
  lemma TablesGateFirst()
    ensures forall i | 0 <= i < |ReservationRoutes| :: ReservationRoutes[i].stages[0].Authenticate?
    ensures forall i | 0 <= i < |OrderRoutes| :: OrderRoutes[i].stages[0].Authenticate?
    ensures forall p, i, j | Mounted(p).Some? && 0 <= i < |Mounted(p).value| && 0 <= j < |Mounted(p).value[i].stages| ::
      Mounted(p).value[i].stages[j].Authenticate? ==> forall k | 0 <= k < j :: !Mounted(p).value[i].stages[k].Validate?
  {
  }

  /** The controller a dispatched request reaches is the first controller stage
      of its route, reached exactly when every earlier stage passes. */
  lemma Served(c: Call, verb: Verb, url: seq<string>, i: nat, n: nat)
    requires |url| > 0 && url[|url| - 1] != "" && Mounted(url[0]).Some?
    requires Dispatch(Mounted(url[0]).value, verb, url[1..]) == Some(i)
    requires var st := Mounted(url[0]).value[i].stages;
      n < |st| && st[n].Handle? && forall j | 0 <= j < n :: !st[j].Handle?
    ensures var st := Mounted(url[0]).value[i].stages;
      (Reaches(c, verb, url, st[n].handler) <==> forall j | 0 <= j < n :: Passes(st[j], c)) &&
      (Serve(c, verb, url).Reached? ==> Serve(c, verb, url).handler == st[n].handler)
  {
    RunReachedIff(Mounted(url[0]).value[i].stages, c, None, n);
  }

  // ---------------------------------------------------------------------------
  // The authorisation matrix, route by route

  /** Only users create reservations, and the role check comes before the body check. */
  lemma ReservationCreateRoute(c: Call)
    ensures Reaches(c, POST, ["reservations"], "createReservation") <==> Admits(c, [Role.User]) && Accepts(c, ReservationCreate)
    ensures !Admits(c, [Role.User]) ==> Serve(c, POST, ["reservations"]) == Stopped(Decide(c.cred, [Role.User]).error)
  {
    DispatchIsFirst(ReservationRoutes, POST, [], 0);
    Served(c, POST, ["reservations"], 0, 2);
  }

  /** Listing reservations is open to every role. */
  lemma ReservationListRoute(c: Call)
    ensures Reaches(c, GET, ["reservations"], "getAllReservations") <==>
      Admits(c, [Role.User, Employee, Manager, SuperAdmin, PropertyManager])
  {
    DispatchIsFirst(ReservationRoutes, GET, [], 1);
    Served(c, GET, ["reservations"], 1, 1);
  }

  /** A single reservation is for users, employees and managers only. */
  lemma ReservationReadRoute(c: Call, id: string)
    requires id != ""
    ensures Reaches(c, GET, ["reservations", id], "getSingleReservation") <==> Admits(c, [Role.User, Employee, Manager])
  {
    assert PathMatches([Param], [id]);
    DispatchIsFirst(ReservationRoutes, GET, [id], 2);
    Served(c, GET, ["reservations", id], 2, 1);
  }

  /** Managers and employees update reservations; the role check precedes validation. */
  lemma ReservationUpdateRoute(c: Call, id: string)
    requires id != ""
    ensures Reaches(c, PATCH, ["reservations", id], "updateReservation") <==>
      Admits(c, [Manager, Employee]) && Accepts(c, ReservationUpdate)
    ensures !Admits(c, [Manager, Employee]) ==>
      Serve(c, PATCH, ["reservations", id]) == Stopped(Decide(c.cred, [Manager, Employee]).error)
  {
    assert PathMatches([Param], [id]);
    DispatchIsFirst(ReservationRoutes, PATCH, [id], 3);
    Served(c, PATCH, ["reservations", id], 3, 2);
  }

  /** Confirming the first installment is for users only. */
  lemma FirstInstallmentRoute(c: Call, id: string)
    requires id != ""
    ensures Reaches(c, PATCH, ["reservations", id, "first-installment"], "confirmFirstInstallment") <==> Admits(c, [Role.User])
  {
    assert PathMatches([Param, Lit("first-installment")], [id, "first-installment"]);
    DispatchIsFirst(ReservationRoutes, PATCH, [id, "first-installment"], 4);
    Served(c, PATCH, ["reservations", id, "first-installment"], 4, 1);
  }

  /** Confirming the second installment is for users only. */
  lemma SecondInstallmentRoute(c: Call, id: string)
    requires id != ""
    ensures Reaches(c, PATCH, ["reservations", id, "second-installment"], "confirmSecondInstallment") <==> Admits(c, [Role.User])
  {
    assert PathMatches([Param, Lit("second-installment")], [id, "second-installment"]);
    DispatchIsFirst(ReservationRoutes, PATCH, [id, "second-installment"], 5);
    Served(c, PATCH, ["reservations", id, "second-installment"], 5, 1);
  }

  /** Assigning an employee is for managers, and even a manager's request stops at
      the undefined schema. */
  lemma ReservationManagerRoutes(c: Call, id: string)
    requires id != ""
    ensures !Serve(c, PATCH, ["reservations", id, "assign-employee"]).Reached?
    ensures Serve(c, PATCH, ["reservations", id, "assign-employee"]) ==
      if Admits(c, [Manager]) then Stopped(RuntimeError("validation schema is undefined"))
      else Stopped(Decide(c.cred, [Manager]).error)
  {
    assert PathMatches([Param, Lit("assign-employee")], [id, "assign-employee"]);
    DispatchIsFirst(ReservationRoutes, PATCH, [id, "assign-employee"], 6);
  }

  /** Deleting a reservation is for managers. */
  lemma ReservationDeleteRoute(c: Call, id: string)
    requires id != ""
    ensures Reaches(c, DELETE, ["reservations", id], "deleteReservation") <==> Admits(c, [Manager])
  {
    assert PathMatches([Param], [id]);
    DispatchIsFirst(ReservationRoutes, DELETE, [id], 7);
    Served(c, DELETE, ["reservations", id], 7, 1);
  }

  /** No reservation or order controller is reached without a stored user behind the token. */
  lemma GuardedModulesNeedIdentity(c: Call, verb: Verb, url: seq<string>)
    requires |url| > 0 && Lower(url[0]) in {"reservations", "orders"}
    ensures Serve(c, verb, url).Reached? ==> Identity(c.cred).Some?
  {
    var p := Trimmed(url);
    assert p[0] == url[0];
    var routes := if Lower(url[0]) == "reservations" then ReservationRoutes else OrderRoutes;
    assert Mounted(url[0]) == Some(routes);
    TablesGateFirst();
    match Dispatch(routes, verb, p[1..])
    case None =>
    case Some(i) =>
      var st := routes[i].stages;
      if Run(st, c, None).Reached? {
        assert st[0].Authenticate?;
        assert Decide(c.cred, st[0].roles).Ok?;
      }
  }

  /** Order creation is for users, gated before the body is checked. */
  lemma OrderCreateRoute(c: Call)
    ensures Reaches(c, POST, ["orders"], "createOrder") <==> Admits(c, [Role.User]) && Accepts(c, OrderCreate)
    ensures !Admits(c, [Role.User]) ==> Serve(c, POST, ["orders"]) == Stopped(Decide(c.cred, [Role.User]).error)
  {
    DispatchIsFirst(OrderRoutes, POST, [], 0);
    Served(c, POST, ["orders"], 0, 2);
  }

  /** Confirming the first payment is for users only. */
  lemma ConfirmPaymentRoute(c: Call)
    ensures Reaches(c, POST, ["orders", "confirm-payment"], "confirmPayment") <==> Admits(c, [Role.User])
  {
    DispatchIsFirst(OrderRoutes, POST, ["confirm-payment"], 1);
    Served(c, POST, ["orders", "confirm-payment"], 1, 1);
  }

  /** Confirming the second payment is for users only; its path has the same
      length as the route before it, which differs in its first letter. */
  lemma ConfirmSecondPaymentRoute(c: Call)
    ensures Reaches(c, POST, ["orders", "confirm-second-payment"], "confirmSecondPayment") <==> Admits(c, [Role.User])
  {
    assert LowerChar("confirm-second-payment"[0]) != LowerChar("process-second-payment"[0]);
    DispatchIsFirst(OrderRoutes, POST, ["confirm-second-payment"], 3);
    Served(c, POST, ["orders", "confirm-second-payment"], 3, 1);
  }

  /** Opening the second payment admits exactly user-role callers. */
  lemma ProcessSecondPaymentRoute(c: Call)
    ensures Reaches(c, POST, ["orders", "process-second-payment"], "processSecondPayment") <==> Admits(c, [Role.User])
  {
    DispatchIsFirst(OrderRoutes, POST, ["process-second-payment"], 2);
    Served(c, POST, ["orders", "process-second-payment"], 2, 1);
  }

  /** Users and managers read orders. */
  lemma OrderReadRoutes(c: Call, id: string)
    requires id != ""
    ensures Reaches(c, GET, ["orders"], "getAllOrders") <==> Admits(c, [Role.User, Manager])
    ensures Reaches(c, GET, ["orders", id], "getSingleOrder") <==> Admits(c, [Role.User, Manager])
  {
    DispatchIsFirst(OrderRoutes, GET, [], 4);
    Served(c, GET, ["orders"], 4, 1);
    assert PathMatches([Param], [id]);
    DispatchIsFirst(OrderRoutes, GET, [id], 5);
    Served(c, GET, ["orders", id], 5, 1);
  }

  /** Registration passes no gate: only the body schema decides, and no identity is set. */
  lemma RegisterRoute(c: Call)
    ensures Reaches(c, POST, ["users", "register"], "registerUser") <==> c.userSchemas(RegisterUser, c.body)
    ensures Serve(c, POST, ["users", "register"]).Reached? ==> Serve(c, POST, ["users", "register"]).user.None?
  {
    DispatchIsFirst(UserRoutes, POST, ["register"], 0);
    Served(c, POST, ["users", "register"], 0, 1);
  }

  /** `GET /my-profile`, in any case, admits any stored user. It is registered
      before `GET /:id`, so it never reaches the manager-only details. */
  lemma MyProfileReadRoute(c: Call, prefix: string, name: string)
    requires Lower(prefix) == "users" && Lower(name) == "my-profile"
    ensures Reaches(c, GET, [prefix, name], "getMyProfile") <==> Identity(c.cred).Some?
    ensures !Reaches(c, GET, [prefix, name], "getUserDetails")
  {
    LowerCaseFixed("users");
    LowerCaseFixed("my-profile");
    DispatchIsFirst(UserRoutes, GET, [name], 1);
    Served(c, GET, [prefix, name], 1, 1);
  }

  /** A trailing slash is served as the path without it. */
  lemma TrailingSlashIgnored(c: Call, verb: Verb, url: seq<string>)
    requires |url| > 0 && url[|url| - 1] != ""
    ensures Serve(c, verb, url + [""]) == Serve(c, verb, url)
  {
    assert Trimmed(url + [""]) == url;
  }

  /** Any stored user may update their own profile, body permitting. */
  lemma MyProfileUpdateRoute(c: Call)
    ensures Reaches(c, PATCH, ["users", "my-profile"], "updateMyProfile") <==>
      Identity(c.cred).Some? && Accepts(c, UpdateProfile)
  {
    DispatchIsFirst(UserRoutes, PATCH, ["my-profile"], 4);
    Served(c, PATCH, ["users", "my-profile"], 4, 2);
  }

  /** Any stored user may change their own password, body permitting. */
  lemma ChangePasswordRoute(c: Call)
    ensures Reaches(c, POST, ["users", "change-password"], "changePassword") <==>
      Identity(c.cred).Some? && Accepts(c, ChangePassword)
  {
    DispatchIsFirst(UserRoutes, POST, ["change-password"], 6);
    Served(c, POST, ["users", "change-password"], 6, 2);
  }

  /** User details and the user list are for managers. */
  lemma UserManagerRoutes(c: Call, id: string)
    requires id != "" && Lower(id) != "my-profile"
    ensures Reaches(c, GET, ["users", id], "getUserDetails") <==> Admits(c, [Manager])
    ensures Reaches(c, GET, ["users"], "getAllUsers") <==> Admits(c, [Manager])
  {
    assert PathMatches([Param], [id]);
    DispatchIsFirst(UserRoutes, GET, [id], 2);
    Served(c, GET, ["users", id], 2, 1);
    DispatchIsFirst(UserRoutes, GET, [], 3);
    Served(c, GET, ["users"], 3, 1);
  }

  /** A manager promotes a user to employee; no one else can. */
  lemma PromoteRoute(c: Call, id: string)
    requires id != ""
    ensures Reaches(c, PATCH, ["users", id, "role"], "updateUserStatus") <==> Admits(c, [Manager])
  {
    assert PathMatches([Param, Lit("role")], [id, "role"]);
    DispatchIsFirst(UserRoutes, PATCH, [id, "role"], 5);
    Served(c, PATCH, ["users", id, "role"], 5, 1);
  }

  /** Reading services is public: every request reaches the controller, without an identity. */
  lemma ServicePublicRoutes(c: Call, id: string)
    requires id != ""
    ensures Serve(c, GET, ["services"]) == Reached("getAllServices", None)
    ensures Serve(c, GET, ["services", id]) == Reached("getSingleService", None)
  {
    DispatchIsFirst(ServiceRoutes, GET, [], 1);
    assert PathMatches([Param], [id]);
    DispatchIsFirst(ServiceRoutes, GET, [id], 2);
  }

  /** Creating a service is for managers with a valid body. */
  lemma ServiceCreateRoute(c: Call)
    ensures Reaches(c, POST, ["services"], "createService") <==> Admits(c, [Manager]) && Accepts(c, ServiceCreate)
  {
    DispatchIsFirst(ServiceRoutes, POST, [], 0);
    Served(c, POST, ["services"], 0, 2);
  }

  /** Updating a service is for managers with a valid body. */
  lemma ServiceUpdateRoute(c: Call, id: string)
    requires id != ""
    ensures Reaches(c, PATCH, ["services", id], "updateService") <==> Admits(c, [Manager]) && Accepts(c, ServiceUpdate)
  {
    assert PathMatches([Param], [id]);
    DispatchIsFirst(ServiceRoutes, PATCH, [id], 3);
    Served(c, PATCH, ["services", id], 3, 2);
  }

  /** Deleting a service is for managers. */
  lemma ServiceDeleteRoute(c: Call, id: string)
    requires id != ""
    ensures Reaches(c, DELETE, ["services", id], "deleteService") <==> Admits(c, [Manager])
  {
    assert PathMatches([Param], [id]);
    DispatchIsFirst(ServiceRoutes, DELETE, [id], 4);
    Served(c, DELETE, ["services", id], 4, 1);
  }

  /** A freshly issued OTP, sent back with a valid email and a long enough
      password, passes the reset-password schema unchanged. */
  lemma IssuedOtpPassesResetSchema(email: string, otp: string, newPassword: string, isEmail: string -> bool)
    requires IsGeneratedOtp(otp) && isEmail(email) && |newPassword| >= MIN_PASSWORD_LENGTH
    ensures ParseResetPassword(JObj(map["email" := JStr(email), "otp" := JStr(otp), "newPassword" := JStr(newPassword)]), isEmail)
      == Some(ResetBody(email, otp, newPassword))
  {
    ResetRoundTrip(ResetBody(email, otp, newPassword), isEmail);
  }
}
