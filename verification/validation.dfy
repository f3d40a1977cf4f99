/** The request-body schemas, read as parsers from a JSON body to a typed record.
    A schema accepts a body exactly when its parser returns `Some`; the parsed
    record is what the schema yields (with defaults applied). Keys a schema does
    not name are ignored. Email syntax is decided by `isEmail`, which stands for
    the schema library's email pattern. */
module Validation {
  import opened Common
  import opened Enums

  datatype Json =
    | JNull
    | JBool(b: bool)
    | JNum(n: real)
    | JStr(s: string)
    | JArr(items: seq<Json>)
    | JObj(fields: map<string, Json>)

  // ---------------------------------------------------------------------------
  // Field readers. `Opt*` readers return `None` when the field is present with
  // the wrong type, `Some(None)` when it is absent and `Some(Some(v))` otherwise.

  function Field(body: Json, key: string): Option<Json> {
    if body.JObj? && key in body.fields then Some(body.fields[key]) else None
  }

  function Str(body: Json, key: string): Option<string> {
    match Field(body, key)
    case Some(JStr(s)) => Some(s)
    case _ => None
  }

  function Num(body: Json, key: string): Option<real> {
    match Field(body, key)
    case Some(JNum(n)) => Some(n)
    case _ => None
  }

  function Bool(body: Json, key: string): Option<bool> {
    match Field(body, key)
    case Some(JBool(b)) => Some(b)
    case _ => None
  }

  /** `z.array(z.string())` over the items of an array. */
  function Strings(items: seq<Json>): (r: Option<seq<string>>)
    ensures r.Some? ==> |r.value| == |items|
    ensures r.Some? ==> forall i :: 0 <= i < |items| ==> items[i] == JStr(r.value[i])
    ensures r.None? <==> exists i :: 0 <= i < |items| && !items[i].JStr?
  {
    if |items| == 0 then Some([])
    else match (items[0], Strings(items[1..]))
      case (JStr(s), Some(rest)) => Some([s] + rest)
      case _ => None
  }

  function StrArray(body: Json, key: string): Option<seq<string>> {
    match Field(body, key)
    case Some(JArr(items)) => Strings(items)
    case _ => None
  }

  function OptStr(body: Json, key: string): Option<Option<string>> {
    if Field(body, key).None? then Some(None)
    else if Str(body, key).Some? then Some(Str(body, key))
    else None
  }

  function OptStrArray(body: Json, key: string): Option<Option<seq<string>>> {
    if Field(body, key).None? then Some(None)
    else if StrArray(body, key).Some? then Some(StrArray(body, key))
    else None
  }

  /** An optional enumeration field: absent, or a string the enumeration parses. */
  function OptEnum<E>(body: Json, key: string, parse: string -> Option<E>): Option<Option<E>> {
    if Field(body, key).None? then Some(None)
    else if Str(body, key).Some? && parse(Str(body, key).value).Some? then Some(parse(Str(body, key).value))
    else None
  }

  function StringsJson(ss: seq<string>): (items: seq<Json>)
    ensures |items| == |ss|
  {
    seq(|ss|, i requires 0 <= i < |ss| => JStr(ss[i]))
  }

  lemma {:induction false} StringsRoundTrip(ss: seq<string>)
    ensures Strings(StringsJson(ss)) == Some(ss)
  {
    if |ss| > 0 {
      assert StringsJson(ss)[1..] == StringsJson(ss[1..]);
      StringsRoundTrip(ss[1..]);
      assert [ss[0]] + ss[1..] == ss;
    }
  }

  // ---------------------------------------------------------------------------
  // Reservation bodies

  datatype ReservationCreateBody = ReservationCreateBody(
    serviceId: string, providePaint: bool, beforeImages: seq<string>, scheduledDate: string, amount: real)

  function ParseReservationCreate(body: Json): (r: Option<ReservationCreateBody>)
    ensures r.Some? <==> (
      Str(body, "serviceId").Some? && Bool(body, "providePaint").Some? && Str(body, "scheduledDate").Some? &&
      Num(body, "amount").Some? && StrArray(body, "beforeImages").Some? && |StrArray(body, "beforeImages").value| >= 1)
    ensures r.Some? ==> |r.value.beforeImages| >= 1
    ensures r.Some? ==>
      Field(body, "serviceId") == Some(JStr(r.value.serviceId)) &&
      Field(body, "providePaint") == Some(JBool(r.value.providePaint)) &&
      Field(body, "scheduledDate") == Some(JStr(r.value.scheduledDate)) &&
      Field(body, "amount") == Some(JNum(r.value.amount))
    ensures r.Some? ==> Field(body, "beforeImages") == Some(JArr(StringsJson(r.value.beforeImages)))
  {
    match (Str(body, "serviceId"), Bool(body, "providePaint"), StrArray(body, "beforeImages"),
           Str(body, "scheduledDate"), Num(body, "amount"))
    case (Some(sid), Some(paint), Some(images), Some(date), Some(amount)) =>
      if |images| >= 1 then
        assert Field(body, "beforeImages").value.items == StringsJson(images);
        Some(ReservationCreateBody(sid, paint, images, date, amount))
      else None
    case _ => None
  }

  function ReservationCreateJson(b: ReservationCreateBody): Json {
    JObj(map["serviceId" := JStr(b.serviceId), "providePaint" := JBool(b.providePaint),
             "beforeImages" := JArr(StringsJson(b.beforeImages)), "scheduledDate" := JStr(b.scheduledDate),
             "amount" := JNum(b.amount)])
  }

  /** Every body with at least one before-image is accepted and read back unchanged. */
  lemma ReservationCreateRoundTrip(b: ReservationCreateBody)
    requires |b.beforeImages| >= 1
    ensures ParseReservationCreate(ReservationCreateJson(b)) == Some(b)
  {
    StringsRoundTrip(b.beforeImages);
  }

  /** An empty image list is refused whatever else the body holds. */
  lemma ReservationCreateNeedsAnImage(body: Json)
    requires Field(body, "beforeImages") == Some(JArr([]))
    ensures ParseReservationCreate(body).None?
  {
  }

  datatype ReservationUpdateBody = ReservationUpdateBody(
    employeeId: Option<string>, status: Option<ServiceStatus>, afterImages: Option<seq<string>>,
    paymentStatus: Option<PaymentStatus>)

  function ParseReservationUpdate(body: Json): (r: Option<ReservationUpdateBody>)
    ensures body == JObj(map[]) ==> r == Some(ReservationUpdateBody(None, None, None, None))
    ensures r.Some? && r.value.status.Some? ==> Field(body, "status") == Some(JStr(ServiceStatusName(r.value.status.value)))
    ensures r.Some? && r.value.paymentStatus.Some? ==>
      Field(body, "paymentStatus") == Some(JStr(PaymentStatusName(r.value.paymentStatus.value)))
    ensures r.Some? && r.value.employeeId.Some? ==> Field(body, "employeeId") == Some(JStr(r.value.employeeId.value))
    ensures r.Some? <==> (body.JObj? && OptStr(body, "employeeId").Some? && OptStrArray(body, "afterImages").Some? &&
      OptEnum(body, "status", ParseServiceStatus).Some? && OptEnum(body, "paymentStatus", ParsePaymentStatus).Some?)
  {
    if !body.JObj? then None
    else match (OptStr(body, "employeeId"), OptEnum(body, "status", ParseServiceStatus),
                OptStrArray(body, "afterImages"), OptEnum(body, "paymentStatus", ParsePaymentStatus))
      case (Some(e), Some(s), Some(a), Some(p)) => Some(ReservationUpdateBody(e, s, a, p))
      case _ => None
  }

  function OptJson<T>(key: string, v: Option<T>, enc: T -> Json): map<string, Json> {
    if v.Some? then map[key := enc(v.value)] else map[]
  }

  function ReservationUpdateJson(b: ReservationUpdateBody): Json {
    JObj(OptJson("employeeId", b.employeeId, s => JStr(s))
      + OptJson("status", b.status, s => JStr(ServiceStatusName(s)))
      + OptJson("afterImages", b.afterImages, ss => JArr(StringsJson(ss)))
      + OptJson("paymentStatus", b.paymentStatus, p => JStr(PaymentStatusName(p))))
  }

  lemma ReservationUpdateRoundTrip(b: ReservationUpdateBody)
    ensures ParseReservationUpdate(ReservationUpdateJson(b)) == Some(b)
  {
    var j := ReservationUpdateJson(b);
    assert Field(j, "employeeId") == if b.employeeId.Some? then Some(JStr(b.employeeId.value)) else None;
    assert Field(j, "status") == if b.status.Some? then Some(JStr(ServiceStatusName(b.status.value))) else None;
    assert Field(j, "afterImages") == if b.afterImages.Some? then Some(JArr(StringsJson(b.afterImages.value))) else None;
    assert Field(j, "paymentStatus") == if b.paymentStatus.Some? then Some(JStr(PaymentStatusName(b.paymentStatus.value))) else None;
    assert OptStr(j, "employeeId") == Some(b.employeeId);
    if b.afterImages.Some? { StringsRoundTrip(b.afterImages.value); }
    assert OptStrArray(j, "afterImages") == Some(b.afterImages);
    if b.status.Some? { EnumNamesRoundTrip(b.status.value, PaymentPending, Failed); }
    assert OptEnum(j, "status", ParseServiceStatus) == Some(b.status);
    if b.paymentStatus.Some? { EnumNamesRoundTrip(Pending, b.paymentStatus.value, Failed); }
    assert OptEnum(j, "paymentStatus", ParsePaymentStatus) == Some(b.paymentStatus);
  }

  // ---------------------------------------------------------------------------
  // Order bodies

  const DEFAULT_CURRENCY := "USD"

  datatype OrderCreateBody = OrderCreateBody(reservationId: string, totalAmount: real, currency: string)

  function ParseOrderCreate(body: Json): (r: Option<OrderCreateBody>)
    ensures r.Some? ==> Field(body, "reservationId") == Some(JStr(r.value.reservationId))
    ensures r.Some? ==> Field(body, "totalAmount") == Some(JNum(r.value.totalAmount))
    ensures r.Some? && Field(body, "currency").None? ==> r.value.currency == DEFAULT_CURRENCY
    ensures r.Some? && Field(body, "currency").Some? ==> Field(body, "currency") == Some(JStr(r.value.currency))
    ensures r.Some? <==> Str(body, "reservationId").Some? && Num(body, "totalAmount").Some? && OptStr(body, "currency").Some?
  {
    match (Str(body, "reservationId"), Num(body, "totalAmount"), OptStr(body, "currency"))
    case (Some(rid), Some(amount), Some(cur)) =>
      Some(OrderCreateBody(rid, amount, if cur.Some? then cur.value else DEFAULT_CURRENCY))
    case _ => None
  }

  /** Any amount is accepted, negative or zero included, and a missing currency becomes USD. */
  lemma OrderCreateAnyAmount(rid: string, amount: real)
    ensures ParseOrderCreate(JObj(map["reservationId" := JStr(rid), "totalAmount" := JNum(amount)]))
         == Some(OrderCreateBody(rid, amount, DEFAULT_CURRENCY))
  {
  }

  function OrderCreateJson(b: OrderCreateBody): Json {
    JObj(map["reservationId" := JStr(b.reservationId), "totalAmount" := JNum(b.totalAmount), "currency" := JStr(b.currency)])
  }

  lemma OrderCreateRoundTrip(b: OrderCreateBody)
    ensures ParseOrderCreate(OrderCreateJson(b)) == Some(b)
  {
  }

  datatype OrderUpdateBody = OrderUpdateBody(paymentStatus: Option<OrderPaymentStatus>, paymentIntent: Option<string>)

  function ParseOrderUpdate(body: Json): (r: Option<OrderUpdateBody>)
    ensures body == JObj(map[]) ==> r == Some(OrderUpdateBody(None, None))
    ensures r.Some? && r.value.paymentStatus.Some? ==>
      Field(body, "paymentStatus") == Some(JStr(OrderPaymentStatusName(r.value.paymentStatus.value)))
    ensures r.Some? <==> (body.JObj? && OptEnum(body, "paymentStatus", ParseOrderPaymentStatus).Some? &&
      OptStr(body, "paymentIntent").Some?)
  {
    if !body.JObj? then None
    else match (OptEnum(body, "paymentStatus", ParseOrderPaymentStatus), OptStr(body, "paymentIntent"))
      case (Some(p), Some(i)) => Some(OrderUpdateBody(p, i))
      case _ => None
  }

  function OrderUpdateJson(b: OrderUpdateBody): Json {
    JObj(OptJson("paymentStatus", b.paymentStatus, p => JStr(OrderPaymentStatusName(p)))
      + OptJson("paymentIntent", b.paymentIntent, s => JStr(s)))
  }

  lemma OrderUpdateRoundTrip(b: OrderUpdateBody)
    ensures ParseOrderUpdate(OrderUpdateJson(b)) == Some(b)
  {
    if b.paymentStatus.Some? { EnumNamesRoundTrip(Pending, PaymentPending, b.paymentStatus.value); }
  }

  // ---------------------------------------------------------------------------
  // Authentication bodies

  datatype LoginBody = LoginBody(email: string, password: string)

  function ParseLogin(body: Json, isEmail: string -> bool): (r: Option<LoginBody>)
    ensures r.Some? <==> Str(body, "email").Some? && Str(body, "password").Some? && isEmail(Str(body, "email").value)
    ensures r.Some? ==> Field(body, "email") == Some(JStr(r.value.email))
    ensures r.Some? ==> Field(body, "password") == Some(JStr(r.value.password))
  {
    match (Str(body, "email"), Str(body, "password"))
    case (Some(e), Some(p)) => if isEmail(e) then Some(LoginBody(e, p)) else None
    case _ => None
  }

  lemma LoginRoundTrip(b: LoginBody, isEmail: string -> bool)
    requires isEmail(b.email)
    ensures ParseLogin(JObj(map["email" := JStr(b.email), "password" := JStr(b.password)]), isEmail) == Some(b)
  {
  }

  function ParseForgotPassword(body: Json, isEmail: string -> bool): (r: Option<string>)
    ensures r.Some? ==> isEmail(r.value) && Field(body, "email") == Some(JStr(r.value))
    ensures Str(body, "email").Some? && isEmail(Str(body, "email").value) ==> r.Some?
  {
    match Str(body, "email")
    case Some(e) => if isEmail(e) then Some(e) else None
    case None => None
  }

  datatype ResetBody = ResetBody(email: string, otp: string, newPassword: string)

  const OTP_LENGTH := 6
  const MIN_PASSWORD_LENGTH := 6

  function ParseResetPassword(body: Json, isEmail: string -> bool): (r: Option<ResetBody>)
    ensures r.Some? ==> isEmail(r.value.email) && |r.value.otp| == OTP_LENGTH && |r.value.newPassword| >= MIN_PASSWORD_LENGTH
    ensures r.Some? <==> (Str(body, "email").Some? && Str(body, "otp").Some? && Str(body, "newPassword").Some? &&
      isEmail(Str(body, "email").value) && |Str(body, "otp").value| == OTP_LENGTH &&
      |Str(body, "newPassword").value| >= MIN_PASSWORD_LENGTH)
    ensures r.Some? ==> Field(body, "otp") == Some(JStr(r.value.otp))
    ensures r.Some? ==> Field(body, "newPassword") == Some(JStr(r.value.newPassword))
    ensures r.Some? ==> Field(body, "email") == Some(JStr(r.value.email))
  {
    match (Str(body, "email"), Str(body, "otp"), Str(body, "newPassword"))
    case (Some(e), Some(o), Some(p)) =>
      if isEmail(e) && |o| == OTP_LENGTH && |p| >= MIN_PASSWORD_LENGTH then Some(ResetBody(e, o, p)) else None
    case _ => None
  }

  lemma ResetRoundTrip(b: ResetBody, isEmail: string -> bool)
    requires isEmail(b.email) && |b.otp| == OTP_LENGTH && |b.newPassword| >= MIN_PASSWORD_LENGTH
    ensures ParseResetPassword(JObj(map["email" := JStr(b.email), "otp" := JStr(b.otp), "newPassword" := JStr(b.newPassword)]), isEmail) == Some(b)
  {
  }

  // ---------------------------------------------------------------------------
  // Service bodies

  datatype ServiceCreateBody = ServiceCreateBody(name: string, description: string, image: string)

  function ParseServiceCreate(body: Json): (r: Option<ServiceCreateBody>)
    ensures r.Some? <==> Str(body, "name").Some? && Str(body, "description").Some? && Str(body, "image").Some?
    ensures r.Some? ==> Field(body, "name") == Some(JStr(r.value.name))
    ensures r.Some? ==> Field(body, "description") == Some(JStr(r.value.description))
    ensures r.Some? ==> Field(body, "image") == Some(JStr(r.value.image))
  {
    match (Str(body, "name"), Str(body, "description"), Str(body, "image"))
    case (Some(n), Some(d), Some(i)) => Some(ServiceCreateBody(n, d, i))
    case _ => None
  }

  datatype ServiceUpdateBody = ServiceUpdateBody(name: Option<string>, description: Option<string>, image: Option<string>)

  function ParseServiceUpdate(body: Json): (r: Option<ServiceUpdateBody>)
    ensures r.Some? <==> (body.JObj? && OptStr(body, "name").Some? && OptStr(body, "description").Some? &&
      OptStr(body, "image").Some?)
    ensures r.Some? && r.value.name.Some? ==> Field(body, "name") == Some(JStr(r.value.name.value))
    ensures r.Some? && r.value.description.Some? ==> Field(body, "description") == Some(JStr(r.value.description.value))
    ensures r.Some? && r.value.image.Some? ==> Field(body, "image") == Some(JStr(r.value.image.value))
  {
    if !body.JObj? then None
    else match (OptStr(body, "name"), OptStr(body, "description"), OptStr(body, "image"))
      case (Some(n), Some(d), Some(i)) => Some(ServiceUpdateBody(n, d, i))
      case _ => None
  }

  function ServiceUpdateJson(b: ServiceUpdateBody): Json {
    JObj(OptJson("name", b.name, s => JStr(s)) + OptJson("description", b.description, s => JStr(s))
      + OptJson("image", b.image, s => JStr(s)))
  }

  /** Any subset of the three fields, the empty one included, is accepted and read back. */
  lemma ServiceUpdateRoundTrip(b: ServiceUpdateBody)
    ensures ParseServiceUpdate(ServiceUpdateJson(b)) == Some(b)
  {
  }
}
