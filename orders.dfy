/** The order-history page (app/orders/page.tsx): fetching the user's orders,
    collecting the product ids their items mention, indexing the fetched
    products by id, giving every item a display name with a two-level
    fallback, and the per-order view: short id, status badge and the
    four-step progress stepper. */
module Orders {
  import opened Wrappers
  import opened Auth
  import JsString

  /** An order item as the orders query returns it. */
  datatype RawItem = RawItem(id: string, quantity: int, price: real, productId: Option<string>)

  /** An order as the orders query returns it, with its embedded items. */
  datatype RawOrder = RawOrder(id: string, createdAt: string, status: string,
                               totalAmount: real, items: Option<seq<RawItem>>)

  /** A product as the products query and the static catalogue give it. */
  datatype ProductRow = ProductRow(id: string, name: string, image: Option<string>)

  /** The `product` part an item gets for display. */
  datatype ShownProduct = ShownProduct(name: string, image: Option<string>)

  datatype ShapedItem = ShapedItem(id: string, quantity: int, price: real,
                                   productId: Option<string>, product: ShownProduct)

  datatype ShapedOrder = ShapedOrder(id: string, createdAt: string, status: string,
                                     totalAmount: real, items: Option<seq<ShapedItem>>)

  /** The gateway's answer to the orders query. */
  datatype OrdersAnswer = OrdersOk(data: Option<seq<RawOrder>>) | OrdersFailed

  const UnknownProduct := "Unknown Product"
  const Steps := ["pending", "processing", "shipped", "delivered"]

  /** The page's auth effect: once auth has loaded without a user it sends
      the visitor to `/login`; whenever there is a user it fetches that
      user's orders. */
  function AuthEffect(authLoading: bool, user: Option<User>): (r: (Option<string>, Option<string>))
    ensures r.0.Some? <==> !authLoading && user.None?
    ensures r.0.Some? ==> r.0.value == "/login"
    ensures r.1 == (if user.Some? then Some(user.value.id) else None)
  {
    (if !authLoading && user.None? then Some("/login") else None,
     if user.Some? then Some(user.value.id) else None)
  }

  // ---- product ids -------------------------------------------------------

  /** The id an item contributes: its `product_id` when that is truthy. */
  function ItemId(item: RawItem): set<string>
  {
    if item.productId.Some? && item.productId.value != "" then {item.productId.value} else {}
  }

  function ItemIds(items: seq<RawItem>): set<string>
  {
    if items == [] then {} else ItemIds(items[..|items| - 1]) + ItemId(items[|items| - 1])
  }

  function OrderIds(order: RawOrder): set<string>
  {
    if order.items.Some? then ItemIds(order.items.value) else {}
  }

  /** The set `productIds` that the page fills. */
  function ProductIds(data: seq<RawOrder>): set<string>
  {
    if data == [] then {} else ProductIds(data[..|data| - 1]) + OrderIds(data[|data| - 1])
  }

  /** Item `j` of order `i` carries the truthy product id `pid`. */
  predicate Mentions(data: seq<RawOrder>, i: int, j: int, pid: string)
  {
    && 0 <= i < |data| && data[i].items.Some? && 0 <= j < |data[i].items.value|
    && data[i].items.value[j].productId == Some(pid) && pid != ""
  }

  lemma {:induction false} ItemIdsExact(items: seq<RawItem>, pid: string)
    ensures pid in ItemIds(items) <==>
      exists j :: 0 <= j < |items| && items[j].productId == Some(pid) && pid != ""
  {
    if items != [] {
      var init := items[..|items| - 1];
      ItemIdsExact(init, pid);
      if pid in ItemIds(init) {
        var j :| 0 <= j < |init| && init[j].productId == Some(pid) && pid != "";
        assert items[j] == init[j];
      }
      if exists j :: 0 <= j < |items| && items[j].productId == Some(pid) && pid != "" {
        var j :| 0 <= j < |items| && items[j].productId == Some(pid) && pid != "";
        if j < |items| - 1 {
          assert init[j] == items[j];
        }
      }
    }
  }

  /** `productIds` holds the truthy `product_id` of every item of every
      order, and nothing else. */
  lemma {:induction false} ProductIdsExact(data: seq<RawOrder>, pid: string)
    ensures pid in ProductIds(data) <==> exists i, j :: Mentions(data, i, j, pid)
  {
    if data != [] {
      var init := data[..|data| - 1];
      var last := data[|data| - 1];
      ProductIdsExact(init, pid);
      if last.items.Some? {
        ItemIdsExact(last.items.value, pid);
      }
      if pid in ProductIds(init) {
        var i, j :| Mentions(init, i, j, pid);
        assert Mentions(data, i, j, pid);
      }
      if pid in OrderIds(last) {
        var j :| 0 <= j < |last.items.value| && last.items.value[j].productId == Some(pid) && pid != "";
        assert Mentions(data, |data| - 1, j, pid);
      }
      if exists i, j :: Mentions(data, i, j, pid) {
        var i, j :| Mentions(data, i, j, pid);
        if i < |data| - 1 {
          assert Mentions(init, i, j, pid);
        }
      }
    }
  }

  /** The two nested `forEach` loops that fill `productIds`. */
  method CollectProductIds(data: seq<RawOrder>) returns (ids: set<string>)
    ensures ids == ProductIds(data)
  {
    ids := {};
    var i := 0;
    while i < |data|
      invariant 0 <= i <= |data|
      invariant ids == ProductIds(data[..i])
    {
      assert data[..i + 1][..i] == data[..i];
      if data[i].items.Some? {
        var items := data[i].items.value;
        var j := 0;
        while j < |items|
          invariant 0 <= j <= |items|
          invariant ids == ProductIds(data[..i]) + ItemIds(items[..j])
        {
          assert items[..j + 1][..j] == items[..j];
          if items[j].productId.Some? && items[j].productId.value != "" {
            ids := ids + {items[j].productId.value};
          }
          j := j + 1;
        }
        assert items[..j] == items;
      }
      i := i + 1;
    }
    assert data[..i] == data;
  }

  // ---- products map --------------------------------------------------------

  /** `productsMap` after `productsData.forEach(p => productsMap[p.id] = p)`. */
  function IndexById(rows: seq<ProductRow>): map<string, ProductRow>
  {
    if rows == [] then map[]
    else IndexById(rows[..|rows| - 1])[rows[|rows| - 1].id := rows[|rows| - 1]]
  }

  /** Row `i` is the last row with id `k`. */
  predicate LastWithId(rows: seq<ProductRow>, k: string, i: int)
  {
    0 <= i < |rows| && rows[i].id == k && forall l :: i < l < |rows| ==> rows[l].id != k
  }

  /** The map has exactly the ids of the rows as keys, and for an id that
      several rows share, the last of them wins. */
  lemma {:induction false} IndexByIdLastWins(rows: seq<ProductRow>, k: string)
    ensures k in IndexById(rows) <==> exists i :: 0 <= i < |rows| && rows[i].id == k
    ensures forall i :: LastWithId(rows, k, i) ==> IndexById(rows)[k] == rows[i]
  {
    if rows != [] {
      var init := rows[..|rows| - 1];
      IndexByIdLastWins(init, k);
      forall i | LastWithId(rows, k, i) ensures IndexById(rows)[k] == rows[i] {
        if i < |rows| - 1 {
          assert LastWithId(init, k, i);
        }
      }
      if exists i :: 0 <= i < |init| && init[i].id == k {
        var i :| 0 <= i < |init| && init[i].id == k;
        assert rows[i].id == k;
      }
      if exists i :: 0 <= i < |rows| && rows[i].id == k {
        var i :| 0 <= i < |rows| && rows[i].id == k;
        if i < |rows| - 1 {
          assert init[i].id == k;
        }
      }
    }
  }

  /** The `forEach` loop that fills `productsMap`. */
  method BuildProductsMap(rows: seq<ProductRow>) returns (m: map<string, ProductRow>)
    ensures m == IndexById(rows)
  {
    m := map[];
    var i := 0;
    while i < |rows|
      invariant 0 <= i <= |rows|
      invariant m == IndexById(rows[..i])
    {
      assert rows[..i + 1][..i] == rows[..i];
      m := m[rows[i].id := rows[i]];
      i := i + 1;
    }
    assert rows[..i] == rows;
  }

  // ---- names -----------------------------------------------------------------

  /** Entry `k` is the first catalogue entry with id `pid`. */
  predicate FirstWithId(catalogue: seq<ProductRow>, pid: string, k: int)
  {
    0 <= k < |catalogue| && catalogue[k].id == pid && forall l :: 0 <= l < k ==> catalogue[l].id != pid
  }

  /** `staticProducts.find(p => p.id === pid)`: the first entry with that id. */
  function FindById(catalogue: seq<ProductRow>, pid: string): (r: Option<ProductRow>)
    ensures r.None? <==> forall k :: 0 <= k < |catalogue| ==> catalogue[k].id != pid
    ensures r.Some? ==> exists k :: FirstWithId(catalogue, pid, k) && catalogue[k] == r.value
  {
    if catalogue == [] then None
    else if catalogue[0].id == pid then
      assert FirstWithId(catalogue, pid, 0);
      Some(catalogue[0])
    else
      var r := FindById(catalogue[1..], pid);
      assert r.Some? ==> exists k :: FirstWithId(catalogue, pid, k) && catalogue[k] == r.value by {
        if r.Some? {
          var k :| FirstWithId(catalogue[1..], pid, k) && catalogue[1..][k] == r.value;
          assert FirstWithId(catalogue, pid, k + 1);
        }
      }
      assert r.None? ==> forall k :: 0 <= k < |catalogue| ==> catalogue[k].id != pid by {
        if r.None? {
          forall k | 0 <= k < |catalogue| ensures catalogue[k].id != pid {
            if k > 0 { assert catalogue[k] == catalogue[1..][k - 1]; }
          }
        }
      }
      r
  }

  /** `{ name: product?.name || 'Unknown Product', image: product?.image }`. */
  function Shown(product: ProductRow): ShownProduct
  {
    ShownProduct(if product.name != "" then product.name else UnknownProduct, product.image)
  }

  /** The product an item is displayed with: the fetched row for its id
      first, then the first static catalogue entry with that id, otherwise
      `Unknown Product` with no image. */
  function ShownProductOf(pid: Option<string>, productsMap: map<string, ProductRow>,
                          catalogue: seq<ProductRow>): (r: ShownProduct)
    ensures pid.Some? && pid.value in productsMap ==> r == Shown(productsMap[pid.value])
    ensures pid.Some? && pid.value !in productsMap && (exists k :: FirstWithId(catalogue, pid.value, k)) ==>
      exists k :: FirstWithId(catalogue, pid.value, k) && r == Shown(catalogue[k])
    ensures pid.None? || (pid.value !in productsMap &&
                          forall k :: 0 <= k < |catalogue| ==> catalogue[k].id != pid.value) ==>
      r == ShownProduct(UnknownProduct, None)
    ensures r.name != ""
  {
    if pid.None? then ShownProduct(UnknownProduct, None)
    else if pid.value in productsMap then Shown(productsMap[pid.value])
    else
      var found := FindById(catalogue, pid.value);
      assert (exists k :: FirstWithId(catalogue, pid.value, k)) ==> found.Some? by {
        if exists k :: FirstWithId(catalogue, pid.value, k) {
          var k :| FirstWithId(catalogue, pid.value, k);
          assert catalogue[k].id == pid.value;
        }
      }
      assert found.Some? ==> exists k :: FirstWithId(catalogue, pid.value, k) && Shown(found.value) == Shown(catalogue[k]);
      if found.Some? then Shown(found.value) else ShownProduct(UnknownProduct, None)
  }

  // ---- mapping ------------------------------------------------------------------

  function ShapeItem(item: RawItem, productsMap: map<string, ProductRow>,
                     catalogue: seq<ProductRow>): ShapedItem
  {
    ShapedItem(item.id, item.quantity, item.price, item.productId,
               ShownProductOf(item.productId, productsMap, catalogue))
  }

  /** `order.items?.map(...)`: one shaped item per item, in order, each
      keeping its own fields and gaining its display product. */
  function ShapeItems(items: seq<RawItem>, productsMap: map<string, ProductRow>,
                      catalogue: seq<ProductRow>): (r: seq<ShapedItem>)
    ensures |r| == |items|
    ensures forall j :: 0 <= j < |items| ==>
      && r[j].id == items[j].id && r[j].quantity == items[j].quantity
      && r[j].price == items[j].price && r[j].productId == items[j].productId
      && r[j].product == ShownProductOf(items[j].productId, productsMap, catalogue)
  {
    if items == [] then []
    else [ShapeItem(items[0], productsMap, catalogue)] + ShapeItems(items[1..], productsMap, catalogue)
  }

  /** `data?.map(...)`: one shaped order per order, in order, keeping its
      id, date, status and stored total; an order without items stays
      without items and every other keeps its number of items. */
  function MapOrders(data: seq<RawOrder>, productsMap: map<string, ProductRow>,
                     catalogue: seq<ProductRow>): (r: seq<ShapedOrder>)
    ensures |r| == |data|
    ensures forall i :: 0 <= i < |data| ==>
      && r[i].id == data[i].id && r[i].createdAt == data[i].createdAt
      && r[i].status == data[i].status && r[i].totalAmount == data[i].totalAmount
      && r[i].items.Some? == data[i].items.Some?
      && (data[i].items.Some? ==>
            r[i].items.value == ShapeItems(data[i].items.value, productsMap, catalogue))
  {
    if data == [] then []
    else
      var o := data[0];
      var items := if o.items.Some? then Some(ShapeItems(o.items.value, productsMap, catalogue)) else None;
      [ShapedOrder(o.id, o.createdAt, o.status, o.totalAmount, items)]
      + MapOrders(data[1..], productsMap, catalogue)
  }

  // ---- stepper and badge --------------------------------------------------------

  /** `steps.indexOf(s)`: the first position of `s`, or -1 when absent. */
  function IndexOf(steps: seq<string>, s: string): (r: int)
    ensures -1 <= r < |steps|
    ensures r == -1 <==> s !in steps
    ensures r >= 0 ==> steps[r] == s && forall k :: 0 <= k < r ==> steps[k] != s
  {
    if steps == [] then -1
    else if steps[0] == s then 0
    else
      var r := IndexOf(steps[1..], s);
      assert s in steps ==> s in steps[1..] by {
        if s in steps {
          var k :| 0 <= k < |steps| && steps[k] == s;
          assert steps[1..][k - 1] == s;
        }
      }
      if r == -1 then -1 else r + 1
  }

  /** `currentStepIndex`: where the lower-cased status stands among the
      four steps, or -1 when it is none of them. */
  function CurrentStepIndex(status: string): (r: int)
    ensures -1 <= r < |Steps|
    ensures r == -1 <==> JsString.ToLower(status) !in Steps
    ensures r >= 0 ==> Steps[r] == JsString.ToLower(status)
  {
    IndexOf(Steps, JsString.ToLower(status))
  }

  datatype StepState = StepState(completed: bool, current: bool)

  /** The four steps: a step is current exactly when it is the lower-cased
      status, and completed exactly when the status is that step or a later
      one. */
  function Stepper(status: string): (r: seq<StepState>)
    ensures |r| == |Steps|
    ensures forall i :: 0 <= i < |Steps| ==> (r[i].current <==> Steps[i] == JsString.ToLower(status))
    ensures forall i :: 0 <= i < |Steps| ==>
      (r[i].completed <==> exists k :: i <= k < |Steps| && Steps[k] == JsString.ToLower(status))
  {
    var idx := CurrentStepIndex(status);
    seq(|Steps|, i => StepState(i <= idx, i == idx))
  }

  /** Completed steps form a prefix, at most one step is current and it is
      the last completed one; a status that is none of the four steps, in
      any letter case, completes nothing. */
  lemma StepperShape(status: string)
    ensures var r := Stepper(status);
      && (forall i, j :: 0 <= i < j < |r| && r[j].completed ==> r[i].completed)
      && (forall i, j :: 0 <= i < |r| && 0 <= j < |r| && r[i].current && r[j].current ==> i == j)
      && (forall i :: 0 <= i < |r| && r[i].current ==>
            r[i].completed && (forall j :: i < j < |r| ==> !r[j].completed))
      && (JsString.ToLower(status) !in Steps ==> forall i :: 0 <= i < |r| ==> !r[i].completed)
      && (JsString.ToLower(status) in Steps ==> exists i :: 0 <= i < |r| && r[i].current)
      && (forall i :: 0 <= i < |Steps| ==> (r[i].current <==> Steps[i] == JsString.ToLower(status)))
      && (forall i :: 0 <= i < |Steps| ==>
            (r[i].completed <==> exists k :: i <= k < |Steps| && Steps[k] == JsString.ToLower(status)))
  {
    var idx := CurrentStepIndex(status);
    var r := Stepper(status);
    if JsString.ToLower(status) in Steps {
      assert r[idx].current;
    }
  }

  /** The stepper is shown unless the status is exactly `cancelled`, that
      is, exactly when the badge is not red. */
  predicate StepperShown(status: string): (b: bool)
    ensures b <==> BadgeOf(status) != Red
  {
    status != "cancelled"
  }

  /** The comparison is case-sensitive: `CANCELLED` still shows the
      stepper, with no step completed. */
  lemma CancelledUpperCaseShowsEmptyStepper()
    ensures StepperShown("CANCELLED")
    ensures forall i :: 0 <= i < |Stepper("CANCELLED")| ==> !Stepper("CANCELLED")[i].completed
  {
    var lower := JsString.ToLower("CANCELLED");
    assert forall i :: 0 <= i < 9 ==> lower[i] == "cancelled"[i];
    assert lower == "cancelled";
    assert lower !in Steps by {
      assert forall k :: 0 <= k < |Steps| ==> Steps[k][0] != 'c';
    }
    StepperShape("CANCELLED");
  }

  datatype Badge = Green | Red | Blue

  /** The status badge: green for `delivered`, red for `cancelled`, blue otherwise. */
  function BadgeOf(status: string): (b: Badge)
    ensures b == Green <==> status == "delivered"
    ensures b == Red <==> status == "cancelled"
  {
    if status == "delivered" then Green else if status == "cancelled" then Red else Blue
  }

  // ---- the order card ---------------------------------------------------------------

  /** One item line: its name, its quantity and price × quantity. */
  datatype LineView = LineView(name: string, quantity: int, lineTotal: real)

  datatype OrderCard = OrderCard(shortId: string, badge: Badge, stepper: Option<seq<StepState>>,
                                 lines: seq<LineView>, total: real)

  function LineViews(items: seq<ShapedItem>): (r: seq<LineView>)
    ensures |r| == |items|
    ensures forall j :: 0 <= j < |items| ==>
      r[j] == LineView(items[j].product.name, items[j].quantity, items[j].price * items[j].quantity as real)
  {
    if items == [] then []
    else [LineView(items[0].product.name, items[0].quantity, items[0].price * items[0].quantity as real)]
         + LineViews(items[1..])
  }

  /** How one order is rendered; an order without items has no card (the
      render would fail on `order.items.map`). The id shown is the first
      eight characters of the order id (all of it when shorter), the total
      shown is the stored `total_amount`, not a sum over the items, and the
      stepper is there exactly when the status is not `cancelled`. */
  function Card(order: ShapedOrder): (c: Option<OrderCard>)
    ensures c.Some? <==> order.items.Some?
    ensures c.Some? ==>
      && |c.value.shortId| == (if |order.id| < 8 then |order.id| else 8)
      && c.value.shortId == order.id[..|c.value.shortId|]
      && c.value.total == order.totalAmount
      && c.value.badge == BadgeOf(order.status)
      && (c.value.stepper.Some? <==> order.status != "cancelled")
      && (c.value.stepper.Some? ==> c.value.stepper.value == Stepper(order.status))
      && c.value.lines == LineViews(order.items.value)
      && |c.value.lines| == |order.items.value|
  {
    if order.items.None? then None
    else
      var shortId := if |order.id| < 8 then order.id else order.id[..8];
      Some(OrderCard(shortId, BadgeOf(order.status),
                     if StepperShown(order.status) then Some(Stepper(order.status)) else None,
                     LineViews(order.items.value), order.totalAmount))
  }

  // ---- the page ------------------------------------------------------------------

  class OrdersPage {
    var orders: seq<ShapedOrder>
    var loadingOrders: bool

    constructor ()
      ensures orders == [] && loadingOrders
    {
      orders, loadingOrders := [], true;
    }

    /** `fetchOrders`. A failed orders query leaves `orders` as it was. A
        successful one collects the product ids, queries the products only
        when there is at least one id (a missing answer gives an empty map),
        and replaces `orders` with the shaped orders (none when the data is
        missing). `loadingOrders` is false either way. The result says
        whether the products were queried. */
    method FetchOrders(answer: OrdersAnswer, productsData: Option<seq<ProductRow>>,
                       catalogue: seq<ProductRow>) returns (productsQueried: bool)
      modifies this
      ensures !loadingOrders
      ensures answer.OrdersFailed? ==> orders == old(orders) && !productsQueried
      ensures answer.OrdersOk? ==>
        var data := answer.data.GetOr([]);
        && productsQueried == (ProductIds(data) != {})
        && orders == MapOrders(data, if productsQueried then IndexById(productsData.GetOr([])) else map[],
                               catalogue)
    {
      productsQueried := false;
      if answer.OrdersOk? {
        var data := answer.data.GetOr([]);
        var ids := CollectProductIds(data);
        var productsMap: map<string, ProductRow> := map[];
        if ids != {} {
          productsQueried := true;
          productsMap := BuildProductsMap(productsData.GetOr([]));
        }
        orders := MapOrders(data, productsMap, catalogue);
      }
      loadingOrders := false;
    }
  }
}
