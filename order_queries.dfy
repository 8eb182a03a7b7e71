/** The read side of the order routes: the `/summary` report and the
    caller's own order lists and counts. Every query is a pure function of
    the stored collections; calendar arithmetic is supplied by the caller. */
module OrderQueries {
  import opened Http
  import opened OrderModel
  import opened Aggregation
  import UserModel
  import ProductModel

  // ------------------------------------------------------------ totals

  function TotalSales(orders: seq<Order>): int
  {
    if orders == [] then 0 else TotalSales(orders[..|orders| - 1]) + orders[|orders| - 1].totalPrice
  }

  /** The `$group` on `_id: null`: one document `{numOrders, totalSales}`,
      and no document at all when the collection is empty. */
  datatype OrderTotals = OrderTotals(numOrders: nat, totalSales: int)

  function Totals(orders: seq<Order>): (r: Option<OrderTotals>)
    ensures r.None? <==> orders == []
    ensures r.Some? ==> r.value.numOrders == |orders| && r.value.totalSales == TotalSales(orders)
  {
    if orders == [] then None else Some(OrderTotals(|orders|, TotalSales(orders)))
  }

  /** `numUsers`, with the same empty-collection behaviour. */
  function UserCount(users: seq<UserModel.User>): (r: Option<nat>)
    ensures r.None? <==> users == []
    ensures r.Some? ==> r.value == |users|
  {
    if users == [] then None else Some(|users|)
  }

  /** Reference definition: the distinct ids of the stored users. */
  function IdsOf(users: seq<UserModel.User>): set<UserModel.UserId>
  {
    set u | u in users :: u.id
  }

  /** On a collection whose ids are unique, `numUsers` is the number of distinct ids. */
  lemma {:induction false} UserCountCountsIds(users: seq<UserModel.User>)
    requires UserModel.UniqueIds(users)
    ensures users != [] ==> UserCount(users) == Some(|IdsOf(users)|)
    ensures |IdsOf(users)| == |users|
  {
    if users != [] {
      var n := |users| - 1;
      var init := users[..n];
      assert UserModel.UniqueIds(init) by {
        forall i, j | 0 <= i < j < |init| ensures init[i].id != init[j].id {
          assert init[i] == users[i] && init[j] == users[j];
        }
      }
      UserCountCountsIds(init);
      IdsOfLast(users);
      forall u | u in init ensures u.id != users[n].id {
        var k :| 0 <= k < n && init[k] == u;
        assert users[k] == u;
      }
      assert users[n].id !in IdsOf(init);
    }
  }

  lemma IdsOfLast(users: seq<UserModel.User>)
    requires users != []
    ensures IdsOf(users) == IdsOf(users[..|users| - 1]) + {users[|users| - 1].id}
  {
  }

  /** A successful insert raises `numUsers` by one; a successful save in place keeps it. */
  lemma UserCountAfterSave(users: seq<UserModel.User>, u: UserModel.User, i: nat, v: UserModel.User)
    requires UserModel.ValidUsers(users)
    requires forall j :: 0 <= j < |users| ==> users[j].id != u.id
    requires i < |users| && v.id == users[i].id
    ensures UserModel.Insert(users, u).Success? ==>
      UserCount(UserModel.Insert(users, u).value) == Some(|users| + 1)
    ensures UserModel.SaveAt(users, i, v).Success? ==>
      UserCount(UserModel.SaveAt(users, i, v).value) == UserCount(users)
  {
  }

  // ------------------------------------------------------------ calendar buckets

  /** The `$dateToString` keys, as numbers that order like the strings
      `%Y-%m-%d` and `%Y-%m` do. */
  datatype Calendar = Calendar(dayKey: Time -> int, monthKey: Time -> int)

  /** One `(key of createdAt, totalPrice)` entry per order. */
  function SaleEntries(orders: seq<Order>, key: Time -> int): (es: seq<(int, int)>)
    ensures |es| == |orders|
    ensures forall i :: 0 <= i < |orders| ==> es[i] == (key(orders[i].createdAt), orders[i].totalPrice)
  {
    seq(|orders|, i requires 0 <= i < |orders| => (key(orders[i].createdAt), orders[i].totalPrice))
  }

  function BucketKey(g: Group<int>): int { g.key }


  /** Reference definitions: the orders whose calendar key is `k`, and their sales. */
  function OrdersIn(orders: seq<Order>, key: Time -> int, k: int): nat
  {
    if orders == [] then 0
    else OrdersIn(orders[..|orders| - 1], key, k) + (if key(orders[|orders| - 1].createdAt) == k then 1 else 0)
  }

  function SalesIn(orders: seq<Order>, key: Time -> int, k: int): int
  {
    if orders == [] then 0
    else SalesIn(orders[..|orders| - 1], key, k)
         + (if key(orders[|orders| - 1].createdAt) == k then orders[|orders| - 1].totalPrice else 0)
  }

  /** What a bucket list must be: keys strictly ascending, each bucket the
      count and sales of exactly its orders, every order in some bucket, and
      the buckets together adding up to the totals. */
  predicate BucketsOf(bs: seq<Group<int>>, orders: seq<Order>, key: Time -> int)
  {
    && (forall i, j :: 0 <= i < j < |bs| ==> bs[i].key < bs[j].key)
    && (forall i :: 0 <= i < |bs| ==>
          bs[i].count == OrdersIn(orders, key, bs[i].key) && bs[i].total == SalesIn(orders, key, bs[i].key)
          && bs[i].count > 0)
    && (forall o :: o in orders ==> exists i :: 0 <= i < |bs| && bs[i].key == key(o.createdAt))
    && SumCounts(bs) == |orders|
    && SumTotals(bs) == TotalSales(orders)
  }

  lemma {:induction false} SaleEntriesMatch(orders: seq<Order>, key: Time -> int, k: int)
    ensures CountOf(SaleEntries(orders, key), k) == OrdersIn(orders, key, k)
    ensures SumOf(SaleEntries(orders, key), k) == SalesIn(orders, key, k)
    ensures SumValues(SaleEntries(orders, key)) == TotalSales(orders)
  {
    if orders != [] {
      var init := orders[..|orders| - 1];
      assert SaleEntries(orders, key)[..|orders| - 1] == SaleEntries(init, key);
      SaleEntriesMatch(init, key, k);
    }
  }

  lemma {:induction false} OrdersInPositive(orders: seq<Order>, key: Time -> int, o: Order)
    requires o in orders
    ensures OrdersIn(orders, key, key(o.createdAt)) > 0
  {
    var init := orders[..|orders| - 1];
    if o != orders[|orders| - 1] {
      assert o in init by {
        var m :| 0 <= m < |orders| && orders[m] == o;
        assert init[m] == o;
      }
      OrdersInPositive(init, key, o);
    }
  }

  /** `$group` by a calendar key with `$sum: 1` and `$sum: '$totalPrice'`, then `$sort: {_id: 1}`. */
  function Buckets(orders: seq<Order>, key: Time -> int): (bs: seq<Group<int>>)
    ensures BucketsOf(bs, orders, key)
  {
    BucketsCorrect(orders, key);
    SortBy(GroupSum(SaleEntries(orders, key)), BucketKey)
  }

  /** The grouping and the sort together meet `BucketsOf`. */
  lemma BucketsCorrect(orders: seq<Order>, key: Time -> int)
    ensures BucketsOf(SortBy(GroupSum(SaleEntries(orders, key)), BucketKey), orders, key)
  {
    var es := SaleEntries(orders, key);
    var gs := GroupSum(es);
    var bs := SortBy(gs, BucketKey);
    GroupSumCorrect(es);
    SortByCorrect(gs, BucketKey);
    SortKeepsDistinct(gs, BucketKey, BucketKey);
    SortSums(gs, BucketKey);
    SaleEntriesMatch(orders, key, 0);
    forall i, j | 0 <= i < j < |bs| ensures bs[i].key < bs[j].key {
      assert BucketKey(bs[i]) <= BucketKey(bs[j]) && BucketKey(bs[i]) != BucketKey(bs[j]);
    }
    forall i | 0 <= i < |bs|
      ensures bs[i].count == OrdersIn(orders, key, bs[i].key) && bs[i].total == SalesIn(orders, key, bs[i].key)
      ensures bs[i].count > 0
    {
      SortByMembers(gs, BucketKey, bs[i]);
      var m :| 0 <= m < |gs| && gs[m] == bs[i];
      GroupAt(es, m);
      SaleEntriesMatch(orders, key, bs[i].key);
    }
    forall o | o in orders ensures exists i :: 0 <= i < |bs| && bs[i].key == key(o.createdAt) {
      OrdersInPositive(orders, key, o);
      SaleEntriesMatch(orders, key, key(o.createdAt));
      assert HasKey(gs, key(o.createdAt));
      var m :| 0 <= m < |gs| && gs[m].key == key(o.createdAt);
      SortByMembers(gs, BucketKey, gs[m]);
      var i :| 0 <= i < |bs| && bs[i] == gs[m];
    }
  }

  // ------------------------------------------------------------ categories

  function CategoryKey(p: ProductModel.Product): string { p.category }

  /** One `(category, 1)` entry per product. */
  function CategoryEntries(products: seq<ProductModel.Product>): (es: seq<(string, int)>)
    ensures |es| == |products|
    ensures forall i :: 0 <= i < |products| ==> es[i] == (products[i].category, 1)
  {
    seq(|products|, i requires 0 <= i < |products| => (products[i].category, 1))
  }

  /** Reference definition: the number of products in category `c`. */
  function ProductsIn(products: seq<ProductModel.Product>, c: string): nat
  {
    if products == [] then 0
    else ProductsIn(products[..|products| - 1], c) + (if products[|products| - 1].category == c then 1 else 0)
  }

  /** What a category list must be: each category once, with the number of
      its products, exactly the categories present, adding up to the catalogue. */
  ghost predicate CategoriesOf(gs: seq<Group<string>>, products: seq<ProductModel.Product>)
  {
    && DistinctKeys(gs)
    && (forall i :: 0 <= i < |gs| ==> gs[i].count == ProductsIn(products, gs[i].key))
    && (forall c :: HasKey(gs, c) <==> ProductsIn(products, c) > 0)
    && SumCounts(gs) == |products|
  }

  lemma {:induction false} CategoryEntriesMatch(products: seq<ProductModel.Product>, c: string)
    ensures CountOf(CategoryEntries(products), c) == ProductsIn(products, c)
  {
    if products != [] {
      var init := products[..|products| - 1];
      assert CategoryEntries(products)[..|products| - 1] == CategoryEntries(init);
      CategoryEntriesMatch(init, c);
    }
  }

  /** `$group: {_id: '$category', count: {$sum: 1}}`. The pipeline has no `$sort`,
      so MongoDB leaves the order of the groups unspecified; the model lists
      them in first-appearance order, its own choice. */
  function Categories(products: seq<ProductModel.Product>): (gs: seq<Group<string>>)
    ensures CategoriesOf(gs, products)
  {
    CategoriesCorrect(products);
    GroupSum(CategoryEntries(products))
  }

  /** The grouping meets `CategoriesOf`. */
  lemma CategoriesCorrect(products: seq<ProductModel.Product>)
    ensures CategoriesOf(GroupSum(CategoryEntries(products)), products)
  {
    var es := CategoryEntries(products);
    var gs := GroupSum(es);
    GroupSumCorrect(es);
    forall i | 0 <= i < |gs| ensures gs[i].count == ProductsIn(products, gs[i].key) {
      GroupAt(es, i);
      CategoryEntriesMatch(products, gs[i].key);
    }
    forall c ensures HasKey(gs, c) <==> ProductsIn(products, c) > 0 {
      CategoryEntriesMatch(products, c);
    }
  }

  // ------------------------------------------------------------ items sold by product

  datatype ItemSold = ItemSold(productId: ProductModel.ProductId, productName: string, totalQuantity: int)

  /** `$unwind: '$orderItems'`, projected to `(product, quantity)`. */
  function LineEntries(items: seq<OrderItem>): seq<(Option<ProductModel.ProductId>, int)>
  {
    seq(|items|, i requires 0 <= i < |items| => (items[i].product, items[i].quantity))
  }

  function Unwound(orders: seq<Order>): seq<(Option<ProductModel.ProductId>, int)>
  {
    if orders == [] then [] else Unwound(orders[..|orders| - 1]) + LineEntries(orders[|orders| - 1].orderItems)
  }

  /** Reference definitions: the order lines naming product `pid`, and their quantity. */
  function LineCount(items: seq<OrderItem>, pid: ProductModel.ProductId): nat
  {
    if items == [] then 0
    else LineCount(items[..|items| - 1], pid) + (if items[|items| - 1].product == Some(pid) then 1 else 0)
  }

  function LineQuantity(items: seq<OrderItem>, pid: ProductModel.ProductId): int
  {
    if items == [] then 0
    else LineQuantity(items[..|items| - 1], pid)
         + (if items[|items| - 1].product == Some(pid) then items[|items| - 1].quantity else 0)
  }

  function LinesSold(orders: seq<Order>, pid: ProductModel.ProductId): nat
  {
    if orders == [] then 0 else LinesSold(orders[..|orders| - 1], pid) + LineCount(orders[|orders| - 1].orderItems, pid)
  }

  function QuantitySold(orders: seq<Order>, pid: ProductModel.ProductId): int
  {
    if orders == [] then 0
    else QuantitySold(orders[..|orders| - 1], pid) + LineQuantity(orders[|orders| - 1].orderItems, pid)
  }

  /** `$lookup` into products and `$unwind`: groups whose id names no product are dropped. */
  function Join(gs: seq<Group<Option<ProductModel.ProductId>>>, catalogue: seq<ProductModel.Product>): seq<ItemSold>
  {
    if gs == [] then []
    else
      var head :=
        if gs[0].key.Some? && ProductModel.FindProduct(catalogue, gs[0].key.value).Some?
        then [ItemSold(gs[0].key.value, catalogue[ProductModel.FindProduct(catalogue, gs[0].key.value).value].name, gs[0].total)]
        else [];
      head + Join(gs[1..], catalogue)
  }

  function QuantityDesc(r: ItemSold): int { -r.totalQuantity }

  function ProductIdOf(r: ItemSold): ProductModel.ProductId { r.productId }

  /** Unwind, group, join and project, before the final sort. */
  function SoldRows(orders: seq<Order>, catalogue: seq<ProductModel.Product>): seq<ItemSold>
  {
    Join(GroupSum(Unwound(orders)), catalogue)
  }

  /** The catalogue has a product with this id and this name. */
  predicate InCatalogue(catalogue: seq<ProductModel.Product>, pid: ProductModel.ProductId, name: string)
  {
    exists j :: 0 <= j < |catalogue| && catalogue[j].id == pid && catalogue[j].name == name
  }

  /** What the report must be: sorted by quantity, largest first; one row per
      product; each row the total quantity of that product over every order
      line and the product's catalogue name; every sold product that is in
      the catalogue has its row. */
  ghost predicate ItemsSoldOf(rows: seq<ItemSold>, orders: seq<Order>, catalogue: seq<ProductModel.Product>)
  {
    && (forall i, j :: 0 <= i < j < |rows| ==> rows[i].totalQuantity >= rows[j].totalQuantity)
    && DistinctBy(rows, ProductIdOf)
    && (forall i :: 0 <= i < |rows| ==>
          rows[i].totalQuantity == QuantitySold(orders, rows[i].productId)
          && LinesSold(orders, rows[i].productId) > 0
          && InCatalogue(catalogue, rows[i].productId, rows[i].productName))
    && (forall pid :: LinesSold(orders, pid) > 0 && ProductModel.FindProduct(catalogue, pid).Some? ==>
          exists i :: 0 <= i < |rows| && rows[i].productId == pid)
  }

  lemma {:induction false} LineEntriesMatch(items: seq<OrderItem>, pid: ProductModel.ProductId)
    ensures CountOf(LineEntries(items), Some(pid)) == LineCount(items, pid)
    ensures SumOf(LineEntries(items), Some(pid)) == LineQuantity(items, pid)
  {
    if items != [] {
      var init := items[..|items| - 1];
      assert LineEntries(items)[..|items| - 1] == LineEntries(init);
      LineEntriesMatch(init, pid);
    }
  }

  lemma {:induction false} UnwoundMatch(orders: seq<Order>, pid: ProductModel.ProductId)
    ensures CountOf(Unwound(orders), Some(pid)) == LinesSold(orders, pid)
    ensures SumOf(Unwound(orders), Some(pid)) == QuantitySold(orders, pid)
  {
    if orders != [] {
      var init := orders[..|orders| - 1];
      var items := orders[|orders| - 1].orderItems;
      UnwoundMatch(init, pid);
      CountOfAppend(Unwound(init), LineEntries(items), Some(pid));
      LineEntriesMatch(items, pid);
    }
  }

  /** A joined row comes from one group, carries its total and the name of its product. */
  lemma {:induction false} JoinRows(gs: seq<Group<Option<ProductModel.ProductId>>>, catalogue: seq<ProductModel.Product>, m: nat)
    requires m < |Join(gs, catalogue)|
    ensures exists i :: 0 <= i < |gs| && gs[i].key == Some(Join(gs, catalogue)[m].productId)
                        && gs[i].total == Join(gs, catalogue)[m].totalQuantity
    ensures InCatalogue(catalogue, Join(gs, catalogue)[m].productId, Join(gs, catalogue)[m].productName)
  {
    var j := Join(gs, catalogue);
    var tail := Join(gs[1..], catalogue);
    var headLen := |j| - |tail|;
    assert j[headLen..] == tail;
    if m < headLen {
      var k := ProductModel.FindProduct(catalogue, gs[0].key.value).value;
      assert j[m] == ItemSold(gs[0].key.value, catalogue[k].name, gs[0].total);
      assert InCatalogue(catalogue, j[m].productId, j[m].productName);
    } else {
      assert j[m] == tail[m - headLen];
      JoinRows(gs[1..], catalogue, m - headLen);
      var i :| 0 <= i < |gs[1..]| && gs[1..][i].key == Some(tail[m - headLen].productId)
                                  && gs[1..][i].total == tail[m - headLen].totalQuantity;
      assert gs[i + 1] == gs[1..][i];
    }
  }

  /** Every group that names a catalogued product has a joined row. */
  lemma {:induction false} JoinComplete(gs: seq<Group<Option<ProductModel.ProductId>>>, catalogue: seq<ProductModel.Product>, i: nat)
    requires i < |gs| && gs[i].key.Some? && ProductModel.FindProduct(catalogue, gs[i].key.value).Some?
    ensures exists m :: 0 <= m < |Join(gs, catalogue)| && Join(gs, catalogue)[m].productId == gs[i].key.value
  {
    var j := Join(gs, catalogue);
    var tail := Join(gs[1..], catalogue);
    var headLen := |j| - |tail|;
    assert j[headLen..] == tail;
    if i == 0 {
      assert j[0].productId == gs[0].key.value;
    } else {
      assert gs[1..][i - 1] == gs[i];
      JoinComplete(gs[1..], catalogue, i - 1);
      var m :| 0 <= m < |tail| && tail[m].productId == gs[i].key.value;
      assert j[m + headLen] == tail[m];
    }
  }

  /** Distinct groups give distinct rows. */
  lemma {:induction false} JoinDistinct(gs: seq<Group<Option<ProductModel.ProductId>>>, catalogue: seq<ProductModel.Product>)
    requires DistinctKeys(gs)
    ensures DistinctBy(Join(gs, catalogue), ProductIdOf)
  {
    if gs != [] {
      var j := Join(gs, catalogue);
      var tail := Join(gs[1..], catalogue);
      var headLen := |j| - |tail|;
      assert j[headLen..] == tail;
      assert DistinctKeys(gs[1..]) by {
        forall a, b | 0 <= a < b < |gs[1..]| ensures gs[1..][a].key != gs[1..][b].key {
          assert gs[1..][a] == gs[a + 1] && gs[1..][b] == gs[b + 1];
        }
      }
      JoinDistinct(gs[1..], catalogue);
      forall a, b | 0 <= a < b < |j| ensures ProductIdOf(j[a]) != ProductIdOf(j[b]) {
        if a < headLen {
          assert b >= headLen;
          assert j[b] == tail[b - headLen];
          JoinRows(gs[1..], catalogue, b - headLen);
          var i :| 0 <= i < |gs[1..]| && gs[1..][i].key == Some(tail[b - headLen].productId)
                                      && gs[1..][i].total == tail[b - headLen].totalQuantity;
          assert gs[1..][i] == gs[i + 1];
          assert gs[0].key == Some(j[a].productId);
        } else {
          assert j[a] == tail[a - headLen] && j[b] == tail[b - headLen];
        }
      }
    }
  }

  /** Each row reports a product that was sold and is in the catalogue, with its total quantity. */
  lemma ItemsSoldRows(orders: seq<Order>, catalogue: seq<ProductModel.Product>, a: nat)
    requires a < |SortBy(SoldRows(orders, catalogue), QuantityDesc)|
    ensures var row := SortBy(SoldRows(orders, catalogue), QuantityDesc)[a];
      && row.totalQuantity == QuantitySold(orders, row.productId)
      && LinesSold(orders, row.productId) > 0
      && InCatalogue(catalogue, row.productId, row.productName)
  {
    var es := Unwound(orders);
    var gs := GroupSum(es);
    var j := Join(gs, catalogue);
    var row := SortBy(SoldRows(orders, catalogue), QuantityDesc)[a];
    SortByMembers(j, QuantityDesc, row);
    var m :| 0 <= m < |j| && j[m] == row;
    JoinRows(gs, catalogue, m);
    var i :| 0 <= i < |gs| && gs[i].key == Some(j[m].productId) && gs[i].total == j[m].totalQuantity;
    GroupAt(es, i);
    UnwoundMatch(orders, row.productId);
  }

  /** Every catalogued product that was sold has a row. */
  lemma ItemsSoldComplete(orders: seq<Order>, catalogue: seq<ProductModel.Product>, pid: ProductModel.ProductId)
    requires LinesSold(orders, pid) > 0 && ProductModel.FindProduct(catalogue, pid).Some?
    ensures exists a :: 0 <= a < |SortBy(SoldRows(orders, catalogue), QuantityDesc)|
                        && SortBy(SoldRows(orders, catalogue), QuantityDesc)[a].productId == pid
  {
    var es := Unwound(orders);
    var gs := GroupSum(es);
    var j := Join(gs, catalogue);
    var rows := SortBy(SoldRows(orders, catalogue), QuantityDesc);
    GroupSumCorrect(es);
    UnwoundMatch(orders, pid);
    assert HasKey(gs, Some(pid));
    var i :| 0 <= i < |gs| && gs[i].key == Some(pid);
    JoinComplete(gs, catalogue, i);
    var m :| 0 <= m < |j| && j[m].productId == pid;
    SortByMembers(j, QuantityDesc, j[m]);
    var a :| 0 <= a < |rows| && rows[a] == j[m];
  }

  /** The `itemsSoldByProduct` pipeline: unwind, group, join, project, `$sort: {totalQuantity: -1}`. */
  function ItemsSoldByProduct(orders: seq<Order>, catalogue: seq<ProductModel.Product>): (rows: seq<ItemSold>)
    ensures ItemsSoldOf(rows, orders, catalogue)
  {
    ItemsSoldCorrect(orders, catalogue);
    SortBy(SoldRows(orders, catalogue), QuantityDesc)
  }

  /** The pipeline meets `ItemsSoldOf`. */
  lemma ItemsSoldCorrect(orders: seq<Order>, catalogue: seq<ProductModel.Product>)
    ensures ItemsSoldOf(SortBy(SoldRows(orders, catalogue), QuantityDesc), orders, catalogue)
  {
    var gs := GroupSum(Unwound(orders));
    var j := Join(gs, catalogue);
    var rows := SortBy(SoldRows(orders, catalogue), QuantityDesc);
    GroupSumCorrect(Unwound(orders));
    SortByCorrect(j, QuantityDesc);
    JoinDistinct(gs, catalogue);
    SortKeepsDistinct(j, QuantityDesc, ProductIdOf);
    forall a, b | 0 <= a < b < |rows| ensures rows[a].totalQuantity >= rows[b].totalQuantity {
      assert QuantityDesc(rows[a]) <= QuantityDesc(rows[b]);
    }
    forall a | 0 <= a < |rows|
      ensures rows[a].totalQuantity == QuantitySold(orders, rows[a].productId)
      ensures LinesSold(orders, rows[a].productId) > 0
      ensures InCatalogue(catalogue, rows[a].productId, rows[a].productName)
    {
      ItemsSoldRows(orders, catalogue, a);
    }
    forall pid | LinesSold(orders, pid) > 0 && ProductModel.FindProduct(catalogue, pid).Some?
      ensures exists a :: 0 <= a < |rows| && rows[a].productId == pid
    {
      ItemsSoldComplete(orders, catalogue, pid);
    }
  }

  // ------------------------------------------------------------ the whole report

  datatype Summary = Summary(
    users: Option<nat>,
    orders: Option<OrderTotals>,
    dailyOrders: seq<Group<int>>,
    monthlyOrders: seq<Group<int>>,
    productCategories: seq<Group<string>>,
    itemsSoldByProduct: seq<ItemSold>)

  /** `GET /api/orders/summary`. The report agrees with itself: both bucket
      lists add up to `numOrders` and `totalSales`, and each part meets its own
      description. */
  function GetSummary(orders: seq<Order>, users: seq<UserModel.User>, products: seq<ProductModel.Product>,
                      cal: Calendar): (r: Summary)
    ensures r.users.None? <==> users == []
    ensures r.users.Some? ==> r.users.value == |users|
    ensures r.orders.None? <==> orders == []
    ensures r.orders.Some? ==>
      && r.orders.value.numOrders == |orders|
      && SumCounts(r.dailyOrders) == r.orders.value.numOrders
      && SumCounts(r.monthlyOrders) == r.orders.value.numOrders
      && SumTotals(r.dailyOrders) == r.orders.value.totalSales
      && SumTotals(r.monthlyOrders) == r.orders.value.totalSales
    ensures BucketsOf(r.dailyOrders, orders, cal.dayKey) && BucketsOf(r.monthlyOrders, orders, cal.monthKey)
    ensures CategoriesOf(r.productCategories, products)
    ensures ItemsSoldOf(r.itemsSoldByProduct, orders, products)
  {
    Summary(UserCount(users), Totals(orders), Buckets(orders, cal.dayKey), Buckets(orders, cal.monthKey),
            Categories(products), ItemsSoldByProduct(orders, products))
  }

  // ------------------------------------------------------------ the caller's orders

  function NewestFirst(o: Order): int { -o.createdAt }

  /** `Order.find({user})`, in collection order. */
  function OwnedBy(orders: seq<Order>, uid: UserModel.UserId): seq<Order>
  {
    if orders == [] then []
    else (if orders[0].user == uid then [orders[0]] else []) + OwnedBy(orders[1..], uid)
  }

  /** `GET /mine`: the caller's orders, `.sort({createdAt: -1})`. It holds
      exactly the caller's orders, each as often as stored, newest first. */
  function Mine(orders: seq<Order>, uid: UserModel.UserId): (r: seq<Order>)
    ensures forall o :: o in r <==> o in orders && o.user == uid
    ensures multiset(r) == multiset(OwnedBy(orders, uid))
    ensures forall i, j :: 0 <= i < j < |r| ==> r[i].createdAt >= r[j].createdAt
  {
    MineCorrect(orders, uid);
    SortBy(OwnedBy(orders, uid), NewestFirst)
  }

  /** `GET /` (admin): every stored order once, newest first. */
  function AllOrders(orders: seq<Order>): (r: seq<Order>)
    ensures multiset(r) == multiset(orders)
    ensures forall i, j :: 0 <= i < j < |r| ==> r[i].createdAt >= r[j].createdAt
  {
    AllOrdersCorrect(orders);
    SortBy(orders, NewestFirst)
  }

  const RECENT_LIMIT: nat := 10

  /** `GET /mine/recent-orders`: `.limit(10)` after the same sort. */
  function RecentOrders(orders: seq<Order>, uid: UserModel.UserId): (r: seq<Order>)
    ensures |r| == if |Mine(orders, uid)| < RECENT_LIMIT then |Mine(orders, uid)| else RECENT_LIMIT
    ensures r == Mine(orders, uid)[..|r|]
  {
    var m := Mine(orders, uid);
    if |m| <= RECENT_LIMIT then m else m[..RECENT_LIMIT]
  }

  lemma {:induction false} OwnedByCorrect(orders: seq<Order>, uid: UserModel.UserId)
    ensures forall o :: o in OwnedBy(orders, uid) <==> o in orders && o.user == uid
  {
    if orders != [] {
      OwnedByCorrect(orders[1..], uid);
      assert orders == [orders[0]] + orders[1..];
    }
  }

  /** Sorting the caller's orders keeps exactly them, newest first. */
  lemma MineCorrect(orders: seq<Order>, uid: UserModel.UserId)
    ensures forall o :: o in SortBy(OwnedBy(orders, uid), NewestFirst) <==> o in orders && o.user == uid
    ensures multiset(SortBy(OwnedBy(orders, uid), NewestFirst)) == multiset(OwnedBy(orders, uid))
    ensures forall i, j :: 0 <= i < j < |SortBy(OwnedBy(orders, uid), NewestFirst)| ==>
      SortBy(OwnedBy(orders, uid), NewestFirst)[i].createdAt >= SortBy(OwnedBy(orders, uid), NewestFirst)[j].createdAt
  {
    OwnedByCorrect(orders, uid);
    SortByCorrect(OwnedBy(orders, uid), NewestFirst);
    var m := SortBy(OwnedBy(orders, uid), NewestFirst);
    forall o ensures o in m <==> o in orders && o.user == uid {
      SortByMembers(OwnedBy(orders, uid), NewestFirst, o);
    }
    forall i, j | 0 <= i < j < |m| ensures m[i].createdAt >= m[j].createdAt {
      assert NewestFirst(m[i]) <= NewestFirst(m[j]);
    }
  }

  /** Sorting all orders newest first keeps each of them once. */
  lemma AllOrdersCorrect(orders: seq<Order>)
    ensures multiset(SortBy(orders, NewestFirst)) == multiset(orders)
    ensures forall i, j :: 0 <= i < j < |SortBy(orders, NewestFirst)| ==>
      SortBy(orders, NewestFirst)[i].createdAt >= SortBy(orders, NewestFirst)[j].createdAt
  {
    SortByCorrect(orders, NewestFirst);
    var a := SortBy(orders, NewestFirst);
    forall i, j | 0 <= i < j < |a| ensures a[i].createdAt >= a[j].createdAt {
      assert NewestFirst(a[i]) <= NewestFirst(a[j]);
    }
  }

  /** Every recent order is one of the caller's. */
  lemma RecentAreMine(orders: seq<Order>, uid: UserModel.UserId)
    ensures forall o :: o in RecentOrders(orders, uid) ==> o in orders && o.user == uid
  {
    var m := Mine(orders, uid);
    var r := RecentOrders(orders, uid);
    forall o | o in r ensures o in m {
      var i :| 0 <= i < |r| && r[i] == o;
      assert m[i] == o;
    }
  }

  // ------------------------------------------------------------ /mine/stats

  /** `moment().startOf('day')` and `moment().startOf('month')`, in server time.
      The handler reads the clock once for each. */
  datatype Clock = Clock(startOfDay: Time, startOfMonth: Time)

  /** The caller's orders created at or after `since` (`createdAt: {$gte: since}`). */
  function CountSince(orders: seq<Order>, uid: UserModel.UserId, since: Time): nat
  {
    if orders == [] then 0
    else CountSince(orders[..|orders| - 1], uid, since)
         + (if orders[|orders| - 1].user == uid && orders[|orders| - 1].createdAt >= since then 1 else 0)
  }

  datatype Stats = Stats(todayOrdersCount: nat, monthOrdersCount: nat)

  /** Reference definition: the positions of the caller's orders created at or after `since`. */
  function PositionsSince(orders: seq<Order>, uid: UserModel.UserId, since: Time): set<nat>
  {
    set j: nat | j < |orders| && orders[j].user == uid && orders[j].createdAt >= since
  }

  /** The count is the number of the caller's stored orders in the window. */
  lemma {:induction false} CountSinceCorrect(orders: seq<Order>, uid: UserModel.UserId, since: Time)
    ensures CountSince(orders, uid, since) == |PositionsSince(orders, uid, since)|
  {
    var b := PositionsSince(orders, uid, since);
    if orders == [] {
      assert b == {};
    } else {
      var n := |orders| - 1;
      var init := orders[..n];
      CountSinceCorrect(init, uid, since);
      var a := PositionsSince(init, uid, since);
      if orders[n].user == uid && orders[n].createdAt >= since {
        assert b == a + {n};
        assert n !in a;
      } else {
        assert b == a;
      }
    }
  }

  /** `GET /mine/stats`: each count is the number of the caller's orders
      created since the start of the day or of the month; when the month does
      not start after the day, today's count is at most this month's. */
  function MineStats(orders: seq<Order>, uid: UserModel.UserId, c: Clock): (r: Stats)
    ensures r.todayOrdersCount == |PositionsSince(orders, uid, c.startOfDay)|
    ensures r.monthOrdersCount == |PositionsSince(orders, uid, c.startOfMonth)|
    ensures c.startOfMonth <= c.startOfDay ==> r.todayOrdersCount <= r.monthOrdersCount
    ensures r.todayOrdersCount <= |orders| && r.monthOrdersCount <= |orders|
    ensures (forall o :: o in orders ==> o.user != uid) ==> r == Stats(0, 0)
  {
    CountSinceCorrect(orders, uid, c.startOfDay);
    CountSinceCorrect(orders, uid, c.startOfMonth);
    CountSinceAntitone(orders, uid, c.startOfDay, c.startOfDay);
    CountSinceAntitone(orders, uid, c.startOfMonth, c.startOfMonth);
    if c.startOfMonth <= c.startOfDay then
      CountSinceAntitone(orders, uid, c.startOfMonth, c.startOfDay);
      Stats(CountSince(orders, uid, c.startOfDay), CountSince(orders, uid, c.startOfMonth))
    else
      Stats(CountSince(orders, uid, c.startOfDay), CountSince(orders, uid, c.startOfMonth))
  }

  lemma {:induction false} CountSinceAntitone(orders: seq<Order>, uid: UserModel.UserId, early: Time, late: Time)
    requires early <= late
    ensures CountSince(orders, uid, late) <= CountSince(orders, uid, early)
    ensures CountSince(orders, uid, early) <= |orders|
    ensures (forall o :: o in orders ==> o.user != uid) ==> CountSince(orders, uid, early) == 0
  {
    if orders != [] {
      var init := orders[..|orders| - 1];
      assert forall o :: o in init ==> o in orders;
      CountSinceAntitone(init, uid, early, late);
    }
  }
}
