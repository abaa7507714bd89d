/**
 The view data the controller derives from an order: the list-row summary
 (`enrichOrderSummary`) and the detail page (`detail`), each computed by a
 loop over the lines as the controller does, and each proved to agree with
 the recursive sums of the Pricing module.
 */
module OrderViews {
  import opened Wrappers
  import opened OrderStatus
  import opened Pricing
  import opened OrderModel

  /** An order enriched for a list row. */
  datatype OrderSummary = OrderSummary(
    order: Order,
    totalQuantity: int,
    totalPrice: int,
    code: string,
    statusMeta: StatusOption)

  /** The summary of an order, stated with the reference sums. */
  function Summarize(o: Order): (s: OrderSummary)
    ensures s.order == o
    ensures LinesOf(o) == [] ==> s.totalQuantity == 0 && s.totalPrice == 0
    ensures s.statusMeta in Options
  {
    OrderSummary(o, SumQuantity(LinesOf(o)), SumPrice(LinesOf(o)), OrderCode(o.id), GetStatusMeta(o.status))
  }

  /** The order-level figures, accumulated line by line as the controller does. */
  method AccumulateTotals(lines: seq<LineItem>) returns (totalQuantity: int, totalPrice: int)
    ensures totalQuantity == SumQuantity(lines)
    ensures totalPrice == SumPrice(lines)
  {
    totalQuantity, totalPrice := 0, 0;
    var i := 0;
    while i < |lines|
      invariant 0 <= i <= |lines|
      invariant totalQuantity == SumQuantity(lines[..i])
      invariant totalPrice == SumPrice(lines[..i])
    {
      var product := lines[i];
      var discount := Coerce(product.discountPercentage);
      var basePrice := Coerce(product.price);
      var quantity := Coerce(product.quantity);
      var priceAfterDiscount := MathRound((basePrice * (100 - discount)) as real / 100.0);
      var productTotal := priceAfterDiscount * quantity;

      SumOfAppend(lines[..i], product, Quantity);
      SumOfAppend(lines[..i], product, LineTotal);
      assert lines[..i + 1] == lines[..i] + [product];

      totalQuantity := totalQuantity + quantity;
      totalPrice := totalPrice + productTotal;
      i := i + 1;
    }
    assert lines[..i] == lines;
  }

  /** `enrichOrderSummary`: totals, code and status metadata for a list row. */
  method EnrichOrderSummary(o: Order) returns (s: OrderSummary)
    ensures s.order == o
    ensures s.totalQuantity == SumQuantity(LinesOf(o))
    ensures s.totalPrice == SumPrice(LinesOf(o))
    ensures s.code == OrderCode(o.id)
    ensures s.statusMeta == GetStatusMeta(o.status)
    ensures s == Summarize(o)
  {
    var totalQuantity, totalPrice := 0, 0;
    if o.products.Some? {
      totalQuantity, totalPrice := AccumulateTotals(o.products.value);
    }
    s := OrderSummary(o, totalQuantity, totalPrice, OrderCode(o.id), GetStatusMeta(o.status));
  }

  /** The title and thumbnail of a product, as the detail page selects them. */
  datatype ProductInfo = ProductInfo(title: string, thumbnail: string)

  /** A line of the detail page: the stored line plus product data and computed prices. */
  datatype DetailLine = DetailLine(
    item: LineItem,
    productInfor: Option<ProductInfo>,
    finalPrice: int,
    totalPrice: int)

  /** The line total a detail line shows. */
  function ShownTotal(l: DetailLine): int {
    l.totalPrice
  }

  /** The detail page's order: the stored order, its detail lines beside it, and order-level figures. */
  datatype OrderDetail = OrderDetail(
    order: Order,
    lines: seq<DetailLine>,
    totalQuantity: int,
    totalPrice: int,
    code: string,
    statusMeta: StatusOption)

  datatype DetailResult = DetailDenied | DetailNotFound | DetailFound(detail: OrderDetail)

  /** The detail line the controller builds for the i-th stored line. */
  ghost predicate DescribesLine(l: DetailLine, item: LineItem, catalog: map<string, ProductInfo>) {
    && l.item == item
    && l.productInfor == Lookup(catalog, item.productId)
    && l.finalPrice == FinalUnitPrice(item)
    && l.totalPrice == LineTotal(item)
  }

  /**
   The loop of `detail`: one detail line per stored line, in order, with the
   order-level figures accumulated alongside.
   */
  method DetailLines(lines: seq<LineItem>, catalog: map<string, ProductInfo>)
    returns (products: seq<DetailLine>, totalQuantity: int, totalPrice: int)
    ensures |products| == |lines|
    ensures forall i :: 0 <= i < |lines| ==> DescribesLine(products[i], lines[i], catalog)
    ensures totalQuantity == SumQuantity(lines)
    ensures totalPrice == SumPrice(lines)
    ensures SumOf(products, ShownTotal) == totalPrice
  {
    totalQuantity, totalPrice := 0, 0;
    products := [];
    var i := 0;
    while i < |lines|
      invariant 0 <= i <= |lines|
      invariant |products| == i
      invariant forall k :: 0 <= k < i ==> DescribesLine(products[k], lines[k], catalog)
      invariant totalQuantity == SumQuantity(lines[..i])
      invariant totalPrice == SumPrice(lines[..i])
    {
      var item := lines[i];
      var discount := Coerce(item.discountPercentage);
      var basePrice := Coerce(item.price);
      var quantity := Coerce(item.quantity);
      var priceAfterDiscount := MathRound((basePrice * (100 - discount)) as real / 100.0);
      var totalItemPrice := priceAfterDiscount * quantity;
      var productInfor := Lookup(catalog, item.productId);

      SumOfAppend(lines[..i], item, Quantity);
      SumOfAppend(lines[..i], item, LineTotal);
      assert lines[..i + 1] == lines[..i] + [item];

      products := products + [DetailLine(item, productInfor, priceAfterDiscount, totalItemPrice)];
      totalQuantity := totalQuantity + quantity;
      totalPrice := totalPrice + totalItemPrice;
      i := i + 1;
    }
    assert lines[..i] == lines;
    SumOfPointwise(products, ShownTotal, lines, LineTotal);
  }

  /**
   `detail`: behind the permission gate, find the non-deleted order with the
   given id in the store and build its detail page; each line's product is
   looked up in the catalog, which stands for the product collection.
   */
  method Detail(role: Role, store: map<string, Order>, id: string, catalog: map<string, ProductInfo>)
    returns (r: DetailResult)
    ensures !HasOrderPermission(role) ==> r == DetailDenied
    ensures HasOrderPermission(role) && (id !in store || store[id].deleted) ==> r == DetailNotFound
    ensures HasOrderPermission(role) && id in store && !store[id].deleted ==>
      r.DetailFound? && r.detail.order == store[id]
    ensures r.DetailFound? ==>
      var d := r.detail;
      var lines := LinesOf(d.order);
      && |d.lines| == |lines|
      && (forall i :: 0 <= i < |lines| ==> DescribesLine(d.lines[i], lines[i], catalog))
      && d.totalQuantity == Summarize(d.order).totalQuantity
      && d.totalPrice == Summarize(d.order).totalPrice
      && d.code == Summarize(d.order).code
      && d.statusMeta == Summarize(d.order).statusMeta
      && SumOf(d.lines, ShownTotal) == d.totalPrice
    ensures WellKeyed(store) && r.DetailFound? ==>
      r.detail.order.id == Some(id) && |r.detail.code| == Min(6, |id|)
  {
    if !HasOrderPermission(role) {
      return DetailDenied;
    }
    if id !in store || store[id].deleted {
      return DetailNotFound;
    }
    var order := store[id];
    var products, totalQuantity, totalPrice := DetailLines(LinesOf(order), catalog);
    r := DetailFound(OrderDetail(order, products, totalQuantity, totalPrice, OrderCode(order.id), GetStatusMeta(order.status)));
  }
}
