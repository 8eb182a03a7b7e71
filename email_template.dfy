/** The item table of the order-processed notice: `order.orderItems.map(...)
    .join('')`, one row per line of the order. The HTML around the rows and
    the money formatting are not modelled. */
module EmailTemplate {
  import opened OrderModel

  /** The three cells of an item row: name, quantity and price. */
  datatype Row = Row(name: string, quantity: int, price: int)

  function RowOf(item: OrderItem): Row
  {
    Row(item.name, item.quantity, item.price)
  }

  /** `map` then `join('')`: exactly one row per order line, in line order,
      showing that line's name, quantity and price. */
  function ItemRows(items: seq<OrderItem>): (rows: seq<Row>)
    ensures |rows| == |items|
    ensures forall i :: 0 <= i < |items| ==>
      rows[i].name == items[i].name && rows[i].quantity == items[i].quantity && rows[i].price == items[i].price
  {
    if items == [] then [] else [RowOf(items[0])] + ItemRows(items[1..])
  }

  /** Joining is concatenation: the rows of two runs of lines are the rows of each, one after the other. */
  lemma {:induction false} ItemRowsAppend(a: seq<OrderItem>, b: seq<OrderItem>)
    ensures ItemRows(a + b) == ItemRows(a) + ItemRows(b)
  {
    if a != [] {
      assert (a + b)[1..] == a[1..] + b;
      ItemRowsAppend(a[1..], b);
    } else {
      assert a + b == b;
    }
  }

  /** The rows of the notice for a created order show the request lines as sent. */
  lemma CreatedOrderRows(id: OrderId, caller: nat, req: OrderRequest, now: Time)
    requires req.orderItems.Some? && req.returnItems.Some?
    ensures ItemRows(NewOrder(id, caller, req, now).orderItems) == ItemRows(req.orderItems.value)
  {
    var items := req.orderItems.value;
    var snap := NewOrder(id, caller, req, now).orderItems;
    assert forall i :: 0 <= i < |items| ==> ItemRows(snap)[i] == ItemRows(items)[i];
  }

  /** A transition does not change the lines, so its notice shows the rows the order had before. */
  lemma NoticeRowsStable(o: Order, t: Transition, now: Time)
    ensures ItemRows(Apply(o, t, now).orderItems) == ItemRows(o.orderItems)
  {
  }

  /** After any run of transitions, a notice shows the rows of the request
      lines the order was created from. */
  lemma NoticeRowsAfterTransitions(id: OrderId, caller: nat, req: OrderRequest, now: Time,
                                   ts: seq<Transition>, times: seq<Time>)
    requires req.orderItems.Some? && req.returnItems.Some?
    requires |ts| == |times|
    ensures ItemRows(ApplyAll(NewOrder(id, caller, req, now), ts, times).orderItems) == ItemRows(req.orderItems.value)
  {
    TransitionsKeepCreationData(NewOrder(id, caller, req, now), ts, times);
    CreatedOrderRows(id, caller, req, now);
  }
}
