/** The order collection as the write handlers change it: `POST /` and the
    four `PUT /:id/...` transitions. Each transition loads the order by id,
    answers 404 when there is none, and otherwise assigns its fields, saves,
    and asks the mail service for a notice. No handler looks at who the
    caller is beyond being authenticated. */
module OrderStore {
  import opened Js
  import opened Http
  import opened OrderModel
  import UserModel

  /** The four customer notices the transitions send. */
  datatype MailKind = ProcessedMail | EstimatedDeliveryMail | ReadyMail | DeliveredMail

  /** A request to the mail service, carrying the order as saved. */
  datatype Notice = Notice(kind: MailKind, order: Order)

  /** Every id in the collection is below `bound`, the next id to hand out. */
  predicate IdsBelow(orders: seq<Order>, bound: OrderId)
  {
    forall j :: 0 <= j < |orders| ==> orders[j].id < bound
  }

  /** Replacing an order by one with the same id keeps the ids unique and bounded. */
  lemma ReplaceKeepsIds(orders: seq<Order>, i: nat, o: Order, bound: OrderId)
    requires i < |orders| && o.id == orders[i].id
    requires UniqueOrderIds(orders) && IdsBelow(orders, bound)
    ensures UniqueOrderIds(orders[i := o]) && IdsBelow(orders[i := o], bound)
  {
  }

  class Orders {
    var orders: seq<Order>
    /** The id the next created order receives. */
    var nextId: OrderId
    /** Every notice requested so far, oldest first. */
    ghost var outbox: seq<Notice>

    ghost predicate Valid()
      reads this
    {
      UniqueOrderIds(orders) && IdsBelow(orders, nextId)
    }

    constructor ()
      ensures Valid() && orders == [] && outbox == []
    {
      orders := [];
      nextId := 0;
      outbox := [];
    }

    /** `POST /`: the request lines are snapshotted and the amounts copied;
        `req.body.orderItems.map` throws when a list is missing. */
    method Create(caller: UserModel.UserId, req: OrderRequest, now: Time) returns (r: Result<Order>)
      requires Valid()
      modifies this
      ensures Valid() && outbox == old(outbox)
      ensures (req.orderItems.None? || req.returnItems.None?) ==>
        r == Failure(ServerError(TypeError)) && orders == old(orders) && nextId == old(nextId)
      ensures req.orderItems.Some? && req.returnItems.Some? ==>
        && r == Success(NewOrder(old(nextId), caller, req, now))
        && orders == old(orders) + [r.value] && nextId == old(nextId) + 1
    {
      if req.orderItems.None? || req.returnItems.None? {
        return Failure(ServerError(TypeError));
      }
      var order := NewOrder(nextId, caller, req, now);
      orders := orders + [order];
      nextId := nextId + 1;
      r := Success(order);
    }

    /** `PUT /:id/order-processed`. */
    method Processed(id: OrderId) returns (r: Result<Order>)
      requires Valid()
      modifies this
      ensures Valid() && nextId == old(nextId)
      ensures FindOrder(old(orders), id).None? ==>
        r == Failure(ORDER_NOT_FOUND) && orders == old(orders) && outbox == old(outbox)
      ensures FindOrder(old(orders), id).Some? ==>
        var i := FindOrder(old(orders), id).value;
        && r == Success(MarkProcessed(old(orders)[i]))
        && orders == old(orders)[i := r.value]
        && outbox == old(outbox) + [Notice(ProcessedMail, r.value)]
    {
      var found := FindOrder(orders, id);
      if found.None? {
        return Failure(ORDER_NOT_FOUND);
      }
      var i := found.value;
      var order := orders[i];
      order := order.(orderEmailSent := true);
      ReplaceKeepsIds(orders, i, order, nextId);
      orders := orders[i := order];
      outbox := outbox + [Notice(ProcessedMail, order)];
      r := Success(order);
    }

    /** `PUT /:id/estimatedDelivery`: `date` is `req.body.estimatedDelivery` as sent. */
    method EstimatedDelivery(id: OrderId, date: Field<Time>) returns (r: Result<Order>)
      requires Valid()
      modifies this
      ensures Valid() && nextId == old(nextId)
      ensures FindOrder(old(orders), id).None? ==>
        r == Failure(ORDER_NOT_FOUND) && orders == old(orders) && outbox == old(outbox)
      ensures FindOrder(old(orders), id).Some? ==>
        var i := FindOrder(old(orders), id).value;
        && r == Success(SetEstimatedDelivery(old(orders)[i], date))
        && orders == old(orders)[i := r.value]
        && outbox == old(outbox) + [Notice(EstimatedDeliveryMail, r.value)]
    {
      var found := FindOrder(orders, id);
      if found.None? {
        return Failure(ORDER_NOT_FOUND);
      }
      var i := found.value;
      var order := orders[i];
      order := order.(estimatedDelivery := date);
      ReplaceKeepsIds(orders, i, order, nextId);
      orders := orders[i := order];
      outbox := outbox + [Notice(EstimatedDeliveryMail, order)];
      r := Success(order);
    }

    /** `PUT /:id/ready`: `now` is `Date.now()`. */
    method Ready(id: OrderId, now: Time) returns (r: Result<Order>)
      requires Valid()
      modifies this
      ensures Valid() && nextId == old(nextId)
      ensures FindOrder(old(orders), id).None? ==>
        r == Failure(ORDER_NOT_FOUND) && orders == old(orders) && outbox == old(outbox)
      ensures FindOrder(old(orders), id).Some? ==>
        var i := FindOrder(old(orders), id).value;
        && r == Success(MarkReady(old(orders)[i], now))
        && orders == old(orders)[i := r.value]
        && outbox == old(outbox) + [Notice(ReadyMail, r.value)]
    {
      var found := FindOrder(orders, id);
      if found.None? {
        return Failure(ORDER_NOT_FOUND);
      }
      var i := found.value;
      var order := orders[i];
      order := order.(isReady := true);
      order := order.(readyAt := Some(now));
      ReplaceKeepsIds(orders, i, order, nextId);
      orders := orders[i := order];
      outbox := outbox + [Notice(ReadyMail, order)];
      r := Success(order);
    }

    /** `PUT /:id/deliver`: `now` is `Date.now()`. */
    method Deliver(id: OrderId, now: Time) returns (r: Result<Order>)
      requires Valid()
      modifies this
      ensures Valid() && nextId == old(nextId)
      ensures FindOrder(old(orders), id).None? ==>
        r == Failure(ORDER_NOT_FOUND) && orders == old(orders) && outbox == old(outbox)
      ensures FindOrder(old(orders), id).Some? ==>
        var i := FindOrder(old(orders), id).value;
        && r == Success(MarkDelivered(old(orders)[i], now))
        && orders == old(orders)[i := r.value]
        && outbox == old(outbox) + [Notice(DeliveredMail, r.value)]
    {
      var found := FindOrder(orders, id);
      if found.None? {
        return Failure(ORDER_NOT_FOUND);
      }
      var i := found.value;
      var order := orders[i];
      order := order.(deliveredAt := Some(now));
      order := order.(isDelivered := true);
      ReplaceKeepsIds(orders, i, order, nextId);
      orders := orders[i := order];
      outbox := outbox + [Notice(DeliveredMail, order)];
      r := Success(order);
    }
  }

  /** A transition changes only the order it names, and only its own fields. */
  lemma TransitionTouchesOneOrder(orders: seq<Order>, id: OrderId, t: Transition, now: Time, j: nat)
    requires UniqueOrderIds(orders) && FindOrder(orders, id).Some?
    requires j < |orders| && orders[j].id != id
    ensures orders[FindOrder(orders, id).value := Apply(orders[FindOrder(orders, id).value], t, now)][j] == orders[j]
    ensures SameCreationData(orders[FindOrder(orders, id).value], Apply(orders[FindOrder(orders, id).value], t, now))
  {
  }
}
