/** The database enumerations the core uses, with their wire names.
    A request body or a query string carries them as strings; `Parse*` reads a
    string back and the lemmas below say that naming and parsing are inverse. */
module Enums {
  import opened Common

  /** Work status of a reservation. */
  datatype ServiceStatus = Pending | InProgress | Completed

  /** Aggregate payment status of a reservation. */
  datatype PaymentStatus = PaymentPending | PartiallyPaid | TotalPaid

  /** Payment status of an order. */
  datatype OrderPaymentStatus = Failed | Success

  /** Roles a stored user can have. */
  datatype Role = User | Employee | Manager | PropertyManager | SuperAdmin

  function ServiceStatusName(s: ServiceStatus): string {
    match s
    case Pending => "pending"
    case InProgress => "in_progress"
    case Completed => "completed"
  }

  function ParseServiceStatus(s: string): (r: Option<ServiceStatus>)
    ensures r.Some? ==> ServiceStatusName(r.value) == s
  {
    if s == "pending" then Some(Pending)
    else if s == "in_progress" then Some(InProgress)
    else if s == "completed" then Some(Completed)
    else None
  }

  function PaymentStatusName(p: PaymentStatus): string {
    match p
    case PaymentPending => "pending"
    case PartiallyPaid => "partially_paid"
    case TotalPaid => "total_paid"
  }

  function ParsePaymentStatus(s: string): (r: Option<PaymentStatus>)
    ensures r.Some? ==> PaymentStatusName(r.value) == s
  {
    if s == "pending" then Some(PaymentPending)
    else if s == "partially_paid" then Some(PartiallyPaid)
    else if s == "total_paid" then Some(TotalPaid)
    else None
  }

  function OrderPaymentStatusName(p: OrderPaymentStatus): string {
    match p
    case Failed => "failed"
    case Success => "success"
  }

  function ParseOrderPaymentStatus(s: string): (r: Option<OrderPaymentStatus>)
    ensures r.Some? ==> OrderPaymentStatusName(r.value) == s
  {
    if s == "failed" then Some(Failed)
    else if s == "success" then Some(Success)
    else None
  }

  function RoleName(r: Role): string {
    match r
    case User => "user"
    case Employee => "employee"
    case Manager => "manager"
    case PropertyManager => "property_manager"
    case SuperAdmin => "super_admin"
  }

  lemma EnumNamesRoundTrip(s: ServiceStatus, p: PaymentStatus, o: OrderPaymentStatus)
    ensures ParseServiceStatus(ServiceStatusName(s)) == Some(s)
    ensures ParsePaymentStatus(PaymentStatusName(p)) == Some(p)
    ensures ParseOrderPaymentStatus(OrderPaymentStatusName(o)) == Some(o)
  {
  }

  lemma RoleNamesDistinct(a: Role, b: Role)
    ensures RoleName(a) == RoleName(b) <==> a == b
  {
  }
}
