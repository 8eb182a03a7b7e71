/** The Order record as the order routes use it, the snapshot taken when an
    order is placed, and the four lifecycle transitions. Each transition sets
    its own fields and leaves everything else as it was. */
module OrderModel {
  import opened Js
  import opened Http
  import opened Lookup
  import UserModel
  import ProductModel

  type OrderId = nat
  /** Milliseconds since the epoch, as `Date.now()` returns. */
  type Time = int

  /** An order line. `id` is the `_id` the client sent; `product` is the
      reference the create handler derives from it. Amounts are in centavos. */
  datatype OrderItem = OrderItem(
    id: Option<ProductModel.ProductId>,
    name: string,
    quantity: int,
    price: int,
    product: Option<ProductModel.ProductId>)

  datatype ShippingAddress = ShippingAddress(fullName: string, address: string, city: string, postalCode: string)

  datatype Order = Order(
    id: OrderId,
    user: UserModel.UserId,
    orderItems: seq<OrderItem>,
    returnItems: seq<OrderItem>,
    purchaseOrder: Field<string>,
    shippingAddress: ShippingAddress,
    subtotal: int,
    ieps: int,
    totalPrice: int,
    orderEmailSent: bool,
    estimatedDelivery: Field<Time>,
    isReady: bool,
    readyAt: Option<Time>,
    isDelivered: bool,
    deliveredAt: Option<Time>,
    createdAt: Time)

  /** The body of `POST /api/orders`. The item lists are absent when the client omits them. */
  datatype OrderRequest = OrderRequest(
    orderItems: Option<seq<OrderItem>>,
    returnItems: Option<seq<OrderItem>>,
    purchaseOrder: Field<string>,
    shippingAddress: ShippingAddress,
    subtotal: int,
    ieps: int,
    totalPrice: int)

  /** `{ ...x, product: x._id }` applied to every line. */
  function Snapshot(items: seq<OrderItem>): (r: seq<OrderItem>)
    ensures |r| == |items|
    ensures forall i :: 0 <= i < |items| ==> r[i].product == items[i].id
    ensures forall i :: 0 <= i < |items| ==> r[i].(product := items[i].product) == items[i]
  {
    if items == [] then []
    else [items[0].(product := items[0].id)] + Snapshot(items[1..])
  }

  /** The part of an order fixed at creation: owner, lines and amounts. */
  predicate SameCreationData(a: Order, b: Order)
  {
    && a.id == b.id && a.user == b.user && a.createdAt == b.createdAt
    && a.orderItems == b.orderItems && a.returnItems == b.returnItems
    && a.purchaseOrder == b.purchaseOrder && a.shippingAddress == b.shippingAddress
    && a.subtotal == b.subtotal && a.ieps == b.ieps && a.totalPrice == b.totalPrice
  }

  /** The order a create stores: request amounts copied, never recomputed;
      owner is the caller; lifecycle flags at their initial values. */
  function NewOrder(id: OrderId, caller: UserModel.UserId, req: OrderRequest, now: Time): (o: Order)
    requires req.orderItems.Some? && req.returnItems.Some?
    ensures o.id == id && o.user == caller && o.createdAt == now
    ensures o.orderItems == Snapshot(req.orderItems.value) && o.returnItems == Snapshot(req.returnItems.value)
    ensures o.subtotal == req.subtotal && o.ieps == req.ieps && o.totalPrice == req.totalPrice
    ensures o.purchaseOrder == req.purchaseOrder && o.shippingAddress == req.shippingAddress
    ensures !o.orderEmailSent && o.estimatedDelivery.Undefined?
    ensures !o.isReady && o.readyAt.None? && !o.isDelivered && o.deliveredAt.None?
  {
    Order(id, caller, Snapshot(req.orderItems.value), Snapshot(req.returnItems.value),
          req.purchaseOrder, req.shippingAddress, req.subtotal, req.ieps, req.totalPrice,
          false, Undefined, false, None, false, None, now)
  }

  /** The server trusts the client's total: a stored order satisfies
      total == subtotal + ieps exactly when the request did. */
  lemma NewOrderTrustsTotals(id: OrderId, caller: UserModel.UserId, req: OrderRequest, now: Time)
    requires req.orderItems.Some? && req.returnItems.Some?
    ensures var o := NewOrder(id, caller, req, now);
      (o.totalPrice == o.subtotal + o.ieps) <==> (req.totalPrice == req.subtotal + req.ieps)
  {
  }

  /** `PUT /:id/order-processed`. */
  function MarkProcessed(o: Order): (r: Order)
    ensures r.orderEmailSent
    ensures r.(orderEmailSent := o.orderEmailSent) == o
  {
    o.(orderEmailSent := true)
  }

  /** `PUT /:id/estimatedDelivery`: the request value is stored as sent, even when undefined. */
  function SetEstimatedDelivery(o: Order, date: Field<Time>): (r: Order)
    ensures r.estimatedDelivery == date
    ensures r.(estimatedDelivery := o.estimatedDelivery) == o
  {
    o.(estimatedDelivery := date)
  }

  /** `PUT /:id/ready`. */
  function MarkReady(o: Order, now: Time): (r: Order)
    ensures r.isReady && r.readyAt == Some(now)
    ensures r.(isReady := o.isReady, readyAt := o.readyAt) == o
  {
    o.(isReady := true, readyAt := Some(now))
  }

  /** `PUT /:id/deliver`. */
  function MarkDelivered(o: Order, now: Time): (r: Order)
    ensures r.isDelivered && r.deliveredAt == Some(now)
    ensures r.(isDelivered := o.isDelivered, deliveredAt := o.deliveredAt) == o
  {
    o.(isDelivered := true, deliveredAt := Some(now))
  }

  /** The transitions of an order, as the four handlers apply them. */
  datatype Transition = Processed | EstimatedDelivery(date: Field<Time>) | Ready | Delivered

  function Apply(o: Order, t: Transition, now: Time): Order
  {
    match t
    case Processed => MarkProcessed(o)
    case EstimatedDelivery(d) => SetEstimatedDelivery(o, d)
    case Ready => MarkReady(o, now)
    case Delivered => MarkDelivered(o, now)
  }

  /** Applies a run of transitions, the i-th at time `times[i]`. */
  function ApplyAll(o: Order, ts: seq<Transition>, times: seq<Time>): Order
    requires |ts| == |times|
    decreases ts
  {
    if ts == [] then o else ApplyAll(Apply(o, ts[0], times[0]), ts[1..], times[1..])
  }

  /** No sequence of transitions touches owner, lines or amounts, so the
      totals relation a created order had is never changed afterwards. */
  lemma {:induction false} TransitionsKeepCreationData(o: Order, ts: seq<Transition>, times: seq<Time>)
    requires |ts| == |times|
    ensures SameCreationData(o, ApplyAll(o, ts, times))
    ensures (ApplyAll(o, ts, times).totalPrice == ApplyAll(o, ts, times).subtotal + ApplyAll(o, ts, times).ieps)
            <==> (o.totalPrice == o.subtotal + o.ieps)
    decreases ts
  {
    if ts != [] {
      TransitionsKeepCreationData(Apply(o, ts[0], times[0]), ts[1..], times[1..]);
    }
  }

  /** Repeating ready leaves the flag set and keeps only the later time. */
  lemma ReadyTwice(o: Order, t1: Time, t2: Time)
    ensures MarkReady(MarkReady(o, t1), t2) == MarkReady(o, t2)
  {
  }

  /** Repeating deliver leaves the flag set and keeps only the later time. */
  lemma DeliveredTwice(o: Order, t1: Time, t2: Time)
    ensures MarkDelivered(MarkDelivered(o, t1), t2) == MarkDelivered(o, t2)
  {
  }

  /** With a clock that does not run backwards, ready-then-deliver gives readyAt <= deliveredAt. */
  lemma ReadyThenDelivered(o: Order, t1: Time, t2: Time)
    requires t1 <= t2
    ensures var r := MarkDelivered(MarkReady(o, t1), t2);
      r.readyAt.Some? && r.deliveredAt.Some? && r.readyAt.value <= r.deliveredAt.value
  {
  }

  /** Nothing orders the stages: an order can be delivered without ever being ready. */
  lemma DeliverSkipsReady(o: Order, now: Time)
    requires !o.isReady
    ensures MarkDelivered(o, now).isDelivered && !MarkDelivered(o, now).isReady
  {
  }

  /** `Order.findById`: the position of the order with that id. */
  function FindOrder(orders: seq<Order>, id: OrderId): (r: Option<nat>)
    ensures r.Some? ==> r.value < |orders| && orders[r.value].id == id
    ensures r.None? ==> forall j :: 0 <= j < |orders| ==> orders[j].id != id
  {
    FindFirst(orders, IdOf, id)
  }

  function IdOf(o: Order): OrderId { o.id }

  predicate UniqueOrderIds(orders: seq<Order>)
  {
    forall i, j :: 0 <= i < j < |orders| ==> orders[i].id != orders[j].id
  }

  /** `GET /:id`: any authenticated caller gets the order; there is no owner check. */
  function GetOrder(orders: seq<Order>, id: OrderId): (r: Result<Order>)
    ensures r.Success? <==> exists j :: 0 <= j < |orders| && orders[j].id == id
    ensures r.Success? ==> r.value in orders && r.value.id == id
    ensures r.Failure? ==> r.error == ORDER_NOT_FOUND
  {
    match FindOrder(orders, id)
    case None => Failure(ORDER_NOT_FOUND)
    case Some(i) => Success(orders[i])
  }
}
