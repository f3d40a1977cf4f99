/** Orders and the two-phase payment of a reservation. The payment gateway is
    an oracle: creating an intent yields its id (`None` when the gateway call
    throws), and retrieving an intent yields its status (`None` when it throws).
    A confirmation updates the order and its reservation in one transaction:
    both change or neither does. */
module Orders {
  import opened Common
  import opened Enums
  import opened Pagination
  import opened Query
  import opened Validation
  import Reservations

  datatype Order = Order(
    id: string, reservationId: string, userId: string, totalAmount: real,
    paymentIntent: Option<string>, paymentStatus: OrderPaymentStatus, currency: Option<string>)

  type Orders = map<string, Order>
  type Bookings = Reservations.Reservations

  ghost predicate KeyedById(rows: Orders) {
    forall id | id in rows :: rows[id].id == id
  }

  class OrderTable {
    var rows: Orders

    ghost predicate Valid()
      reads this
    {
      KeyedById(rows)
    }
  }

  const SUCCEEDED := "succeeded"

  // ---------------------------------------------------------------------------
  // Creating an order

  /** The body `createOrder` receives: the schema has checked it, but the
      request body is forwarded as sent, so the schema's currency default is not
      applied and an absent currency stays absent. */
  datatype OrderInput = OrderInput(reservationId: string, totalAmount: real, currency: Option<string>)

  /** The fields of a request body as the service reads them. */
  function Received(body: Json): (d: Option<OrderInput>)
    ensures d.Some? ==> Field(body, "reservationId") == Some(JStr(d.value.reservationId))
    ensures d.Some? ==> Field(body, "totalAmount") == Some(JNum(d.value.totalAmount))
    ensures d.Some? ==> (d.value.currency.None? <==> Field(body, "currency").None?)
  {
    match (Str(body, "reservationId"), Num(body, "totalAmount"), OptStr(body, "currency"))
    case (Some(rid), Some(amount), Some(cur)) => Some(OrderInput(rid, amount, cur))
    case _ => None
  }

  /** A body the schema accepts reaches the service with the same reservation and
      amount; its currency is the schema's only where one was sent, since the
      "USD" default exists only in the schema's parsed copy. */
  lemma SchemaDefaultNotForwarded(body: Json)
    requires ParseOrderCreate(body).Some?
    ensures Received(body).Some?
    ensures Received(body).value.reservationId == ParseOrderCreate(body).value.reservationId
    ensures Received(body).value.totalAmount == ParseOrderCreate(body).value.totalAmount
    ensures Received(body).value.currency.Some? ==> Received(body).value.currency.value == ParseOrderCreate(body).value.currency
    ensures Received(body).value.currency.None? ==> ParseOrderCreate(body).value.currency == DEFAULT_CURRENCY
  {
  }

  /** `{ ...data, userId, paymentIntent: intent.id, paymentStatus: failed }` */
  function NewOrder(id: string, userId: string, data: OrderInput, intent: string): (o: Order)
    ensures o.id == id && o.userId == userId && o.paymentIntent == Some(intent) && o.paymentStatus == Failed
    ensures o.reservationId == data.reservationId && o.totalAmount == data.totalAmount && o.currency == data.currency
  {
    Order(id, data.reservationId, userId, data.totalAmount, Some(intent), Failed, data.currency)
  }

  /** `createOrder`: the reservation must exist before the gateway is asked for an intent. */
  ghost function CreateStep(orders: Orders, bookings: Bookings, userId: string, data: OrderInput,
                            intent: Option<string>, freshId: string): (r: (Result<Order>, Orders))
    requires freshId !in orders
    ensures data.reservationId !in bookings ==> r == (Err(AppError(NOT_FOUND, "Reservation not found")), orders)
    ensures data.reservationId in bookings && intent.None? ==> r == (Err(GatewayError), orders)
    ensures r.0.Ok? <==> data.reservationId in bookings && intent.Some?
    ensures r.0.Ok? ==> r.0.value == NewOrder(freshId, userId, data, intent.value) && r.1 == orders[freshId := r.0.value]
    ensures KeyedById(orders) ==> KeyedById(r.1)
  {
    if data.reservationId !in bookings then (Err(AppError(NOT_FOUND, "Reservation not found")), orders)
    else if intent.None? then (Err(GatewayError), orders)
    else (Ok(NewOrder(freshId, userId, data, intent.value)), orders[freshId := NewOrder(freshId, userId, data, intent.value)])
  }

  method CreateOrder(orders: OrderTable, reservations: Reservations.ReservationTable, userId: string,
                     data: OrderInput, createIntent: Option<string>, freshId: string)
    returns (result: Result<Order>)
    requires orders.Valid() && freshId !in orders.rows
    modifies orders
    ensures orders.Valid()
    ensures (result, orders.rows) == CreateStep(old(orders.rows), reservations.rows, userId, data, createIntent, freshId)
  {
    if data.reservationId !in reservations.rows {
      return Err(AppError(NOT_FOUND, "Reservation not found"));
    }
    var paymentIntent := createIntent;
    if paymentIntent.None? {
      return Err(GatewayError);
    }
    var created := NewOrder(freshId, userId, data, paymentIntent.value);
    orders.rows := orders.rows[freshId := created];
    result := Ok(created);
  }

  // ---------------------------------------------------------------------------
  // Confirming a payment

  /** `confirmPayment` (target `partially_paid`) and `confirmSecondPayment`
      (target `total_paid`): the order must exist and the retrieved intent must
      have succeeded; then the order becomes `success` and its reservation takes
      the target status, together. */
  ghost function ConfirmStep(orders: Orders, bookings: Bookings, orderId: string, retrieved: Option<string>,
                             target: PaymentStatus): (r: (Result<Order>, Orders, Bookings))
    ensures r.0.Err? ==> r.1 == orders && r.2 == bookings
    ensures orderId !in orders ==> r.0 == Err(AppError(NOT_FOUND, "Order not found"))
    ensures orderId in orders && retrieved.None? ==> r.0 == Err(GatewayError)
    ensures orderId in orders && retrieved.Some? && retrieved != Some(SUCCEEDED) ==>
      r.0 == Err(AppError(BAD_REQUEST, "Payment not successful"))
    ensures r.0.Ok? <==> orderId in orders && retrieved == Some(SUCCEEDED) && orders[orderId].reservationId in bookings
    ensures r.0.Ok? ==>
      var o := orders[orderId];
      r.0.value == o.(paymentStatus := Success) &&
      r.1 == orders[orderId := o.(paymentStatus := Success)] &&
      r.2 == bookings[o.reservationId := bookings[o.reservationId].(paymentStatus := target)]
    ensures Reservations.KeyedById(bookings) ==> Reservations.KeyedById(r.2)
    ensures KeyedById(orders) ==> KeyedById(r.1)
  {
    if orderId !in orders then (Err(AppError(NOT_FOUND, "Order not found")), orders, bookings)
    else if retrieved.None? then (Err(GatewayError), orders, bookings)
    else if retrieved.value != SUCCEEDED then (Err(AppError(BAD_REQUEST, "Payment not successful")), orders, bookings)
    else
      var o := orders[orderId];
      if o.reservationId !in bookings then (Err(RecordNotFound), orders, bookings)
      else
        (Ok(o.(paymentStatus := Success)),
         orders[orderId := o.(paymentStatus := Success)],
         bookings[o.reservationId := bookings[o.reservationId].(paymentStatus := target)])
  }

  /** The shared body of the two confirmations. */
  method Confirm(orders: OrderTable, reservations: Reservations.ReservationTable, orderId: string,
                 paymentIntentId: string, retrieve: string -> Option<string>, target: PaymentStatus)
    returns (result: Result<Order>)
    requires orders.Valid() && reservations.Valid()
    modifies orders, reservations
    ensures orders.Valid() && reservations.Valid()
    ensures (result, orders.rows, reservations.rows) ==
      ConfirmStep(old(orders.rows), old(reservations.rows), orderId, retrieve(paymentIntentId), target)
  {
    if orderId !in orders.rows {
      return Err(AppError(NOT_FOUND, "Order not found"));
    }
    var paymentIntent := retrieve(paymentIntentId);
    if paymentIntent.None? {
      return Err(GatewayError);
    }
    if paymentIntent.value != SUCCEEDED {
      return Err(AppError(BAD_REQUEST, "Payment not successful"));
    }
    var order := orders.rows[orderId].(paymentStatus := Success);
    if order.reservationId !in reservations.rows {
      return Err(RecordNotFound);
    }
    orders.rows := orders.rows[orderId := order];
    var rid := order.reservationId;
    reservations.rows := reservations.rows[rid := reservations.rows[rid].(paymentStatus := target)];
    result := Ok(order);
  }

  method ConfirmPayment(orders: OrderTable, reservations: Reservations.ReservationTable, orderId: string,
                        paymentIntentId: string, retrieve: string -> Option<string>)
    returns (result: Result<Order>)
    requires orders.Valid() && reservations.Valid()
    modifies orders, reservations
    ensures orders.Valid() && reservations.Valid()
    ensures (result, orders.rows, reservations.rows) ==
      ConfirmStep(old(orders.rows), old(reservations.rows), orderId, retrieve(paymentIntentId), PartiallyPaid)
  {
    result := Confirm(orders, reservations, orderId, paymentIntentId, retrieve, PartiallyPaid);
  }

  method ConfirmSecondPayment(orders: OrderTable, reservations: Reservations.ReservationTable, orderId: string,
                              paymentIntentId: string, retrieve: string -> Option<string>)
    returns (result: Result<Order>)
    requires orders.Valid() && reservations.Valid()
    modifies orders, reservations
    ensures orders.Valid() && reservations.Valid()
    ensures (result, orders.rows, reservations.rows) ==
      ConfirmStep(old(orders.rows), old(reservations.rows), orderId, retrieve(paymentIntentId), TotalPaid)
  {
    result := Confirm(orders, reservations, orderId, paymentIntentId, retrieve, TotalPaid);
  }

  /** A confirmation writes constants only, so repeating it changes nothing more. */
  lemma ConfirmIdempotent(orders: Orders, bookings: Bookings, orderId: string, target: PaymentStatus)
    requires ConfirmStep(orders, bookings, orderId, Some(SUCCEEDED), target).0.Ok?
    ensures var s := ConfirmStep(orders, bookings, orderId, Some(SUCCEEDED), target);
      var t := ConfirmStep(s.1, s.2, orderId, Some(SUCCEEDED), target);
      t.0 == s.0 && t.1 == s.1 && t.2 == s.2
  {
    var s := ConfirmStep(orders, bookings, orderId, Some(SUCCEEDED), target);
    var o := orders[orderId];
    assert s.1[orderId] == o.(paymentStatus := Success);
    assert s.1[orderId := o.(paymentStatus := Success)] == s.1;
    assert s.2[o.reservationId := s.2[o.reservationId].(paymentStatus := target)] == s.2;
  }

  /** The intent that decides is the one the caller names: the intent stored on
      the order plays no part in a confirmation's outcome. */
  lemma StoredIntentIgnored(orders: Orders, bookings: Bookings, orderId: string, retrieved: Option<string>,
                            target: PaymentStatus, stored: Option<string>)
    requires orderId in orders
    ensures var forged := orders[orderId := orders[orderId].(paymentIntent := stored)];
      ConfirmStep(forged, bookings, orderId, retrieved, target).0.Ok? <==> ConfirmStep(orders, bookings, orderId, retrieved, target).0.Ok?
    ensures var forged := orders[orderId := orders[orderId].(paymentIntent := stored)];
      ConfirmStep(forged, bookings, orderId, retrieved, target).2 == ConfirmStep(orders, bookings, orderId, retrieved, target).2
  {
  }

  /** The second confirmation does not look at the reservation's status: it
      marks a reservation fully paid even when the first phase was never paid. */
  lemma SecondConfirmSkipsPhaseCheck(orders: Orders, bookings: Bookings, orderId: string)
    requires orderId in orders && orders[orderId].reservationId in bookings
    requires bookings[orders[orderId].reservationId].paymentStatus == PaymentPending
    ensures var s := ConfirmStep(orders, bookings, orderId, Some(SUCCEEDED), TotalPaid);
      s.0.Ok? && s.2[orders[orderId].reservationId].paymentStatus == TotalPaid
  {
  }

  /** Confirming the first payment again after the second moves the reservation
      back from `total_paid` to `partially_paid`. */
  lemma FirstAfterSecondRegresses(orders: Orders, bookings: Bookings, orderId: string)
    requires ConfirmStep(orders, bookings, orderId, Some(SUCCEEDED), TotalPaid).0.Ok?
    ensures var s := ConfirmStep(orders, bookings, orderId, Some(SUCCEEDED), TotalPaid);
      var t := ConfirmStep(s.1, s.2, orderId, Some(SUCCEEDED), PartiallyPaid);
      var rid := orders[orderId].reservationId;
      s.2[rid].paymentStatus == TotalPaid && t.0.Ok? && t.2[rid].paymentStatus == PartiallyPaid
  {
  }

  // ---------------------------------------------------------------------------
  // Opening the second payment

  /** `processSecondPayment`: only for an order whose reservation is partially
      paid; it replaces the order's intent and nothing else. A reservation
      missing behind the order is a runtime error (its status is read off null). */
  ghost function SecondStep(orders: Orders, bookings: Bookings, orderId: string, intent: Option<string>)
    : (r: (Result<Order>, Orders))
    ensures r.0.Err? ==> r.1 == orders
    ensures orderId !in orders ==> r.0 == Err(AppError(NOT_FOUND, "Order not found"))
    ensures orderId in orders && orders[orderId].reservationId in bookings &&
            bookings[orders[orderId].reservationId].paymentStatus != PartiallyPaid ==>
      r.0 == Err(AppError(BAD_REQUEST, "Invalid payment status for second payment"))
    ensures r.0.Ok? <==> (orderId in orders && orders[orderId].reservationId in bookings &&
                          bookings[orders[orderId].reservationId].paymentStatus == PartiallyPaid && intent.Some?)
    ensures r.0.Ok? ==> r.0.value == orders[orderId].(paymentIntent := intent) && r.1 == orders[orderId := r.0.value]
    ensures KeyedById(orders) ==> KeyedById(r.1)
  {
    if orderId !in orders then (Err(AppError(NOT_FOUND, "Order not found")), orders)
    else
      var o := orders[orderId];
      if o.reservationId !in bookings then (Err(RuntimeError("order has no reservation")), orders)
      else if bookings[o.reservationId].paymentStatus != PartiallyPaid then
        (Err(AppError(BAD_REQUEST, "Invalid payment status for second payment")), orders)
      else if intent.None? then (Err(GatewayError), orders)
      else (Ok(o.(paymentIntent := intent)), orders[orderId := o.(paymentIntent := intent)])
  }

  method ProcessSecondPayment(orders: OrderTable, reservations: Reservations.ReservationTable, orderId: string,
                              createIntent: Option<string>)
    returns (result: Result<Order>)
    requires orders.Valid()
    modifies orders
    ensures orders.Valid()
    ensures (result, orders.rows) == SecondStep(old(orders.rows), reservations.rows, orderId, createIntent)
  {
    if orderId !in orders.rows {
      return Err(AppError(NOT_FOUND, "Order not found"));
    }
    var order := orders.rows[orderId];
    if order.reservationId !in reservations.rows {
      return Err(RuntimeError("order has no reservation"));
    }
    if reservations.rows[order.reservationId].paymentStatus != PartiallyPaid {
      return Err(AppError(BAD_REQUEST, "Invalid payment status for second payment"));
    }
    var paymentIntent := createIntent;
    if paymentIntent.None? {
      return Err(GatewayError);
    }
    var updated := order.(paymentIntent := paymentIntent);
    orders.rows := orders.rows[orderId := updated];
    result := Ok(updated);
  }

  /** The intended flow: an order created for a reservation, its first payment
      confirmed, the second opened and confirmed, leaves the order `success` and
      the reservation `total_paid`. */
  lemma TwoPhaseFlow(orders: Orders, bookings: Bookings, userId: string, data: OrderInput,
                     intent1: string, intent2: string, orderId: string)
    requires orderId !in orders && data.reservationId in bookings
    ensures
      var c := CreateStep(orders, bookings, userId, data, Some(intent1), orderId);
      var p1 := ConfirmStep(c.1, bookings, orderId, Some(SUCCEEDED), PartiallyPaid);
      var s := SecondStep(p1.1, p1.2, orderId, Some(intent2));
      var p2 := ConfirmStep(s.1, p1.2, orderId, Some(SUCCEEDED), TotalPaid);
      c.0.Ok? && p1.0.Ok? && s.0.Ok? && p2.0.Ok? &&
      p2.1[orderId].paymentStatus == Success && p2.1[orderId].paymentIntent == Some(intent2) &&
      p2.2[data.reservationId].paymentStatus == TotalPaid
  {
    var c := CreateStep(orders, bookings, userId, data, Some(intent1), orderId);
    assert c.1[orderId].reservationId == data.reservationId;
    var p1 := ConfirmStep(c.1, bookings, orderId, Some(SUCCEEDED), PartiallyPaid);
    assert p1.2[data.reservationId].paymentStatus == PartiallyPaid;
    var s := SecondStep(p1.1, p1.2, orderId, Some(intent2));
    assert s.0.Ok?;
  }

  // ---------------------------------------------------------------------------
  // List

  function OrderRow(o: Order): (row: Row)
    ensures "paymentIntent" in row <==> o.paymentIntent.Some?
    ensures "currency" in row <==> o.currency.Some?
  {
    var base := map["id" := o.id, "reservationId" := o.reservationId, "userId" := o.userId,
                     "paymentStatus" := OrderPaymentStatusName(o.paymentStatus)];
    var withCurrency := if o.currency.Some? then base["currency" := o.currency.value] else base;
    if o.paymentIntent.Some? then withCurrency["paymentIntent" := o.paymentIntent.value] else withCurrency
  }

  /** `getAllOrders`. The searchable columns are defined in a constants file that
      is not part of this model, so they are a parameter. */
  method GetAllOrders(orders: OrderTable, ordered: seq<Order>, searchable: seq<string>,
                      searchTerm: Option<string>, filters: seq<(string, string)>, options: Options)
    returns (r: Result<Listing<Order>>)
    requires forall x :: x in ordered <==> x in orders.rows.Values
    requires |ordered| == |orders.rows|
    ensures r.Err? <==> CalculatePagination(options).skip < 0 || CalculatePagination(options).limit < 0
    ensures r.Ok? ==> r.value.meta == ListMeta(CalculatePagination(options).page, CalculatePagination(options).limit,
      |Select(ordered, OrderRow, WhereFor(searchTerm, searchable, filters))|)
    ensures r.Ok? && !Truthy(searchTerm) && |filters| == 0 ==> r.value.meta.total == |orders.rows|
    ensures r.Ok? ==> |r.value.data| <= r.value.meta.limit
    ensures r.Ok? ==> Page(Select(ordered, OrderRow, WhereFor(searchTerm, searchable, filters)),
      CalculatePagination(options).skip, CalculatePagination(options).limit) == Ok(r.value.data)
    ensures r.Ok? ==> forall x | x in r.value.data ::
      x in orders.rows.Values && Selected(searchTerm, searchable, filters, OrderRow(x))
  {
    var w := CalculatePagination(options);
    var whereConditions := BuildWhere(searchTerm, searchable, filters);
    if !Truthy(searchTerm) && |filters| == 0 {
      SelectEmpty(ordered, OrderRow);
    }
    r := FindMany(ordered, OrderRow, whereConditions, w);
  }
}
