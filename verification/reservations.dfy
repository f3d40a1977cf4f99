/** Reservations: booking a service, listing, the work-status update with its
    start/end time stamps, and deletion. Times are integers supplied by the
    caller (`now`); ids for new records are supplied as `freshId`. */
module Reservations {
  import opened Common
  import opened Enums
  import opened Pagination
  import opened Query
  import Catalog

  datatype Reservation = Reservation(
    id: string, userId: string, serviceId: string, employeeId: Option<string>,
    providePaint: bool, status: ServiceStatus, beforeImages: seq<string>, afterImages: seq<string>,
    scheduledDate: string, amount: real, paymentStatus: PaymentStatus,
    workStartTime: Option<int>, workEndTime: Option<int>)

  type Reservations = map<string, Reservation>

  ghost predicate KeyedById(rows: Reservations) {
    forall id | id in rows :: rows[id].id == id
  }

  class ReservationTable {
    var rows: Reservations

    ghost predicate Valid()
      reads this
    {
      KeyedById(rows)
    }
  }

  /** The body of a booking: the fields the create schema demands, plus the
      optional columns a body may also carry. Its own `userId` and `status`, when
      present, are overridden. */
  datatype Booking = Booking(
    serviceId: string, providePaint: bool, beforeImages: seq<string>, scheduledDate: string, amount: real,
    userId: Option<string>, status: Option<ServiceStatus>, employeeId: Option<string>,
    afterImages: Option<seq<string>>, paymentStatus: Option<PaymentStatus>,
    workStartTime: Option<int>, workEndTime: Option<int>)

  /** `{ ...data, userId, status: pending }`, with the table's defaults for
      columns the body leaves out (no after-images, payment pending). */
  function NewReservation(id: string, userId: string, b: Booking): (r: Reservation)
    ensures r.id == id && r.userId == userId && r.status == Pending
    ensures r.serviceId == b.serviceId && r.beforeImages == b.beforeImages && r.amount == b.amount
    ensures r.scheduledDate == b.scheduledDate && r.providePaint == b.providePaint && r.employeeId == b.employeeId
    ensures r.afterImages == (if b.afterImages.Some? then b.afterImages.value else [])
    ensures r.paymentStatus == (if b.paymentStatus.Some? then b.paymentStatus.value else PaymentPending)
    ensures r.workStartTime == b.workStartTime && r.workEndTime == b.workEndTime
  {
    Reservation(id, userId, b.serviceId, b.employeeId, b.providePaint, Pending, b.beforeImages,
                if b.afterImages.Some? then b.afterImages.value else [], b.scheduledDate, b.amount,
                if b.paymentStatus.Some? then b.paymentStatus.value else PaymentPending,
                b.workStartTime, b.workEndTime)
  }

  /** `createReservation`: refused with 404 unless the service exists. */
  ghost function CreateStep(rows: Reservations, services: Catalog.Services, userId: string, b: Booking, freshId: string)
    : (r: (Result<Reservation>, Reservations))
    requires freshId !in rows
    ensures b.serviceId !in services ==> r == (Err(AppError(NOT_FOUND, "Service not found")), rows)
    ensures b.serviceId in services ==>
      r.0 == Ok(NewReservation(freshId, userId, b)) && r.1 == rows[freshId := NewReservation(freshId, userId, b)]
    ensures KeyedById(rows) ==> KeyedById(r.1)
  {
    if b.serviceId !in services then (Err(AppError(NOT_FOUND, "Service not found")), rows)
    else (Ok(NewReservation(freshId, userId, b)), rows[freshId := NewReservation(freshId, userId, b)])
  }

  /** Whatever `userId` and `status` the body carries, the booking belongs to the
      caller and starts pending. */
  lemma CreateOverridesOwnerAndStatus(rows: Reservations, services: Catalog.Services, userId: string, b: Booking,
                                      freshId: string, forgedOwner: Option<string>, forgedStatus: Option<ServiceStatus>)
    requires freshId !in rows && b.serviceId in services
    ensures CreateStep(rows, services, userId, b.(userId := forgedOwner, status := forgedStatus), freshId)
         == CreateStep(rows, services, userId, b, freshId)
    ensures var r := CreateStep(rows, services, userId, b, freshId).0.value; r.userId == userId && r.status == Pending
  {
  }

  method CreateReservation(reservations: ReservationTable, services: Catalog.ServiceTable, userId: string, b: Booking, freshId: string)
    returns (result: Result<Reservation>)
    requires reservations.Valid() && freshId !in reservations.rows
    modifies reservations
    ensures reservations.Valid()
    ensures (result, reservations.rows) == CreateStep(old(reservations.rows), services.rows, userId, b, freshId)
  {
    if b.serviceId !in services.rows {
      return Err(AppError(NOT_FOUND, "Service not found"));
    }
    var created := NewReservation(freshId, userId, b);
    reservations.rows := reservations.rows[freshId := created];
    result := Ok(created);
  }

  // ---------------------------------------------------------------------------
  // Update

  /** The columns an update may carry; `None` means absent from the payload. */
  datatype Patch = Patch(
    employeeId: Option<string>, status: Option<ServiceStatus>, afterImages: Option<seq<string>>,
    paymentStatus: Option<PaymentStatus>, workStartTime: Option<int>, workEndTime: Option<int>)

  /** `update({ data: payload })`: present fields replace stored ones. */
  function Apply(r: Reservation, p: Patch): (s: Reservation)
    ensures s.id == r.id && s.userId == r.userId && s.serviceId == r.serviceId && s.providePaint == r.providePaint
    ensures s.beforeImages == r.beforeImages && s.scheduledDate == r.scheduledDate && s.amount == r.amount
    ensures s.employeeId == (if p.employeeId.Some? then p.employeeId else r.employeeId)
    ensures s.status == (if p.status.Some? then p.status.value else r.status)
    ensures s.afterImages == (if p.afterImages.Some? then p.afterImages.value else r.afterImages)
    ensures s.paymentStatus == (if p.paymentStatus.Some? then p.paymentStatus.value else r.paymentStatus)
    ensures s.workStartTime == (if p.workStartTime.Some? then p.workStartTime else r.workStartTime)
    ensures s.workEndTime == (if p.workEndTime.Some? then p.workEndTime else r.workEndTime)
  {
    r.(employeeId := if p.employeeId.Some? then p.employeeId else r.employeeId,
       status := if p.status.Some? then p.status.value else r.status,
       afterImages := if p.afterImages.Some? then p.afterImages.value else r.afterImages,
       paymentStatus := if p.paymentStatus.Some? then p.paymentStatus.value else r.paymentStatus,
       workStartTime := if p.workStartTime.Some? then p.workStartTime else r.workStartTime,
       workEndTime := if p.workEndTime.Some? then p.workEndTime else r.workEndTime)
  }

  /** The payload after the status rules: `in_progress` stamps the start time,
      `completed` stamps the end time. */
  function Stamped(p: Patch, now: int): (q: Patch)
    ensures p.status == Some(InProgress) ==> q == p.(workStartTime := Some(now))
    ensures p.status == Some(Completed) ==> q == p.(workEndTime := Some(now))
    ensures p.status != Some(InProgress) && p.status != Some(Completed) ==> q == p
  {
    if p.status == Some(InProgress) then p.(workStartTime := Some(now))
    else if p.status == Some(Completed) then p.(workEndTime := Some(now))
    else p
  }

  const NotStarted := AppError(BAD_REQUEST, "Cannot complete work that has not been started")

  /** `updateReservation`. */
  ghost function UpdateStep(rows: Reservations, id: string, p: Patch, now: int): (r: (Result<Reservation>, Reservations))
    ensures r.0.Err? ==> r.1 == rows
    ensures id !in rows ==> r.0 == Err(AppError(NOT_FOUND, "Reservation not found"))
    ensures id in rows && p.status == Some(Completed) && rows[id].workStartTime.None? ==> r.0 == Err(NotStarted)
    ensures r.0.Ok? ==> id in rows && r.1 == rows[id := r.0.value]
    ensures r.0.Ok? ==> r.0.value == Apply(rows[id], Stamped(p, now))
    ensures r.0.Ok? && p.status == Some(InProgress) ==> r.0.value.workStartTime == Some(now)
    ensures r.0.Ok? && p.status == Some(Completed) ==>
      r.0.value.workEndTime == Some(now) && rows[id].workStartTime.Some?
    ensures id in rows && (p.status != Some(Completed) || rows[id].workStartTime.Some?) ==> r.0.Ok?
    ensures KeyedById(rows) ==> KeyedById(r.1)
  {
    if id !in rows then (Err(AppError(NOT_FOUND, "Reservation not found")), rows)
    else if p.status == Some(Completed) && rows[id].workStartTime.None? then (Err(NotStarted), rows)
    else
      var updated := Apply(rows[id], Stamped(p, now));
      (Ok(updated), rows[id := updated])
  }

  method UpdateReservation(reservations: ReservationTable, id: string, payload: Patch, now: int)
    returns (result: Result<Reservation>)
    requires reservations.Valid()
    modifies reservations
    ensures reservations.Valid()
    ensures (result, reservations.rows) == UpdateStep(old(reservations.rows), id, payload, now)
  {
    if id !in reservations.rows {
      return Err(AppError(NOT_FOUND, "Reservation not found"));
    }
    var existingReservation := reservations.rows[id];
    var p := payload;
    if p.status == Some(InProgress) {
      p := p.(workStartTime := Some(now));
    }
    if p.status == Some(Completed) {
      if existingReservation.workStartTime.None? {
        return Err(NotStarted);
      }
      p := p.(workEndTime := Some(now));
    }
    var updated := Apply(existingReservation, p);
    reservations.rows := reservations.rows[id := updated];
    result := Ok(updated);
  }

  /** A reservation never carries an end time without a start time. */
  predicate StartBeforeEnd(r: Reservation) {
    r.workEndTime.Some? ==> r.workStartTime.Some?
  }

  /** The status rules keep that invariant for payloads that do not set the end
      time themselves: an end time is only stamped on a started reservation. */
  lemma UpdateKeepsStartBeforeEnd(rows: Reservations, id: string, p: Patch, now: int)
    requires id in rows && StartBeforeEnd(rows[id]) && p.workEndTime.None?
    ensures var r := UpdateStep(rows, id, p, now).1; id in r && StartBeforeEnd(r[id])
  {
  }

  /** Moving to `in_progress` restamps the start time even when one was recorded. */
  lemma RestartRestamps(rows: Reservations, id: string, now: int)
    requires id in rows && rows[id].workStartTime.Some?
    ensures UpdateStep(rows, id, Patch(None, Some(InProgress), None, None, None, None), now).1[id].workStartTime == Some(now)
  {
  }

  /** Starting and then completing the work always succeeds, and the recorded
      times are the two update times. */
  lemma StartThenComplete(rows: Reservations, id: string, t1: int, t2: int)
    requires id in rows
    ensures
      var start := Patch(None, Some(InProgress), None, None, None, None);
      var finish := Patch(None, Some(Completed), None, None, None, None);
      var s1 := UpdateStep(rows, id, start, t1);
      var s2 := UpdateStep(s1.1, id, finish, t2);
      s1.0.Ok? && s2.0.Ok? && s2.1[id].status == Completed &&
      s2.1[id].workStartTime == Some(t1) && s2.1[id].workEndTime == Some(t2)
  {
  }

  // ---------------------------------------------------------------------------
  // Delete

  method DeleteReservation(reservations: ReservationTable, id: string) returns (result: Result<Reservation>)
    requires reservations.Valid()
    modifies reservations
    ensures reservations.Valid()
    ensures (result, reservations.rows) == DeleteRow(old(reservations.rows), id)
  {
    if id !in reservations.rows {
      return Err(RecordNotFound);
    }
    result := Ok(reservations.rows[id]);
    reservations.rows := reservations.rows - {id};
  }

  // ---------------------------------------------------------------------------
  // List

  const ReservationSearchableFields := ["id", "userId", "serviceId", "employeeId"]

  /** The columns the list query can search and filter on; an unassigned
      employee is a null column. */
  function ReservationRow(r: Reservation): (row: Row)
    ensures "employeeId" in row <==> r.employeeId.Some?
  {
    var base := map["id" := r.id, "userId" := r.userId, "serviceId" := r.serviceId,
                     "status" := ServiceStatusName(r.status), "paymentStatus" := PaymentStatusName(r.paymentStatus)];
    if r.employeeId.Some? then base["employeeId" := r.employeeId.value] else base
  }

  /** `getAllReservations`. */
  method GetAllReservations(reservations: ReservationTable, ordered: seq<Reservation>,
                            searchTerm: Option<string>, filters: seq<(string, string)>, options: Options)
    returns (r: Result<Listing<Reservation>>)
    requires forall x :: x in ordered <==> x in reservations.rows.Values
    requires |ordered| == |reservations.rows|
    ensures r.Err? <==> CalculatePagination(options).skip < 0 || CalculatePagination(options).limit < 0
    ensures r.Ok? ==> r.value.meta == ListMeta(CalculatePagination(options).page, CalculatePagination(options).limit,
      |Select(ordered, ReservationRow, WhereFor(searchTerm, ReservationSearchableFields, filters))|)
    ensures r.Ok? && !Truthy(searchTerm) && |filters| == 0 ==> r.value.meta.total == |reservations.rows|
    ensures r.Ok? ==> |r.value.data| <= r.value.meta.limit
    ensures r.Ok? ==> Page(Select(ordered, ReservationRow, WhereFor(searchTerm, ReservationSearchableFields, filters)),
      CalculatePagination(options).skip, CalculatePagination(options).limit) == Ok(r.value.data)
    ensures r.Ok? ==> forall x | x in r.value.data ::
      x in reservations.rows.Values && Selected(searchTerm, ReservationSearchableFields, filters, ReservationRow(x))
  {
    var w := CalculatePagination(options);
    var whereConditions := BuildWhere(searchTerm, ReservationSearchableFields, filters);
    if !Truthy(searchTerm) && |filters| == 0 {
      SelectEmpty(ordered, ReservationRow);
    }
    r := FindMany(ordered, ReservationRow, whereConditions, w);
  }

  /** Searching for a reservation's own id finds it. */
  lemma SearchFindsOwnId(r: Reservation)
    ensures Selected(Some(r.id), ReservationSearchableFields, [], ReservationRow(r)) || r.id == ""
  {
    var row := ReservationRow(r);
    assert ReservationSearchableFields[0] == "id" && row["id"] == r.id;
    assert OccursAt(Lower(r.id), Lower(r.id), 0);
  }

  /** Filtering on a status selects exactly the reservations in that status. */
  lemma StatusFilterSelects(r: Reservation, s: ServiceStatus)
    ensures Selected(None, ReservationSearchableFields, [("status", ServiceStatusName(s))], ReservationRow(r)) <==> r.status == s
  {
    var row := ReservationRow(r);
    assert "status" in row && row["status"] == ServiceStatusName(r.status);
    var f := [("status", ServiceStatusName(s))];
    assert |f| == 1 && f[0].0 == "status" && f[0].1 == ServiceStatusName(s);
    assert FiltersHold(f, row) ==> row[f[0].0] == f[0].1;
    EnumNamesRoundTrip(r.status, PaymentPending, Failed);
    EnumNamesRoundTrip(s, PaymentPending, Failed);
  }
}
