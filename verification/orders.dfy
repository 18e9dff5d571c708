/**
 * `create_order` (backend/app/api/orders.py): find or create the customer by
 * name, total the items' price and cost, apply VAT, work out the estimated
 * profit and the balance, then store the order header with status
 * "production" and one stored row per item. The database is a `Store`
 * object whose three tables are sequences; a row's id is its position.
 */
module Orders {
  import opened Wrappers
  import opened Text
  import opened Sizes
  import opened Money
  import opened Vat

  /** One `OrderItemCreate`. */
  datatype ItemIn = ItemIn(productName: string, fabricType: string, neckType: string, sleeveType: string,
                           quantityMatrix: QuantityMatrix, basePrice: real, costPerUnit: real)

  /** The fields of `OrderCreate` that `create_order` reads. */
  datatype OrderIn = OrderIn(
    customerName: string, phone: Option<string>, channel: Option<string>, address: Option<string>,
    deadlineDate: Option<string>, urgencyLevel: Option<string>,
    isVatIncluded: bool, shippingCost: real, addOnCost: real, discountAmount: real, depositAmount: real,
    items: seq<ItemIn>)

  datatype Customer = Customer(id: nat, name: string, phone: Option<string>, channel: Option<string>, address: Option<string>)

  /** A stored `Order` header. */
  datatype OrderRow = OrderRow(
    orderNo: string, customerId: nat, deadlineDate: Option<string>, urgencyLevel: Option<string>,
    isVatIncluded: bool, shippingCost: real, addOnCost: real, discountAmount: real,
    vatAmount: real, grandTotal: real, depositAmount: real, balanceAmount: real,
    totalCost: real, estimatedProfit: real, status: string)

  /** A stored `OrderItem`. */
  datatype ItemRow = ItemRow(
    orderId: nat, productName: string, fabricType: string, neckType: string, sleeveType: string,
    quantityMatrix: QuantityMatrix, totalQty: int, pricePerUnit: real, totalPrice: real,
    costPerUnit: real, totalCost: real)

  /** The response body. */
  datatype Receipt = Receipt(orderNo: string, total: real, profit: real)

  /** `Σ qty × base_price` over the items. */
  function ItemsPrice(items: seq<ItemIn>): real
    decreases |items|
  {
    if items == [] then 0.0
    else ItemsPrice(items[..|items| - 1]) + Times(items[|items| - 1].basePrice, TotalQty(items[|items| - 1].quantityMatrix))
  }

  /** `Σ qty × cost_per_unit` over the items. */
  function ItemsCost(items: seq<ItemIn>): real
    decreases |items|
  {
    if items == [] then 0.0
    else ItemsCost(items[..|items| - 1]) + Times(items[|items| - 1].costPerUnit, TotalQty(items[|items| - 1].quantityMatrix))
  }

  /** The first accumulation loop of `create_order`. */
  method AccumulateItems(items: seq<ItemIn>) returns (price: real, cost: real)
    ensures price == ItemsPrice(items) && cost == ItemsCost(items)
  {
    price, cost := 0.0, 0.0;
    for i := 0 to |items|
      invariant price == ItemsPrice(items[..i]) && cost == ItemsCost(items[..i])
    {
      assert items[..i + 1][..i] == items[..i];
      var qty := TotalQty(items[i].quantityMatrix);
      price := price + Times(items[i].basePrice, qty);
      cost := cost + Times(items[i].costPerUnit, qty);
    }
    assert items[..|items|] == items;
  }

  /** The money figures `create_order` stores on the order. */
  datatype Totals = Totals(totalBeforeVat: real, vatAmount: real, grandTotal: real, totalCost: real, estimatedProfit: real, balance: real)

  /**
   * The straight-line part of `create_order`: the amount before VAT is the
   * items' price plus add-ons and shipping less the discount; the VAT split
   * follows the order's mode; profit is revenue net of VAT less the items'
   * cost; the balance is what remains after the deposit.
   */
  function TotalsFor(o: OrderIn, itemsPrice: real, itemsCost: real): (t: Totals)
    ensures t.totalBeforeVat == itemsPrice + o.addOnCost + o.shippingCost - o.discountAmount
    ensures VatSplit(t.vatAmount, t.grandTotal) == Split(t.totalBeforeVat, o.isVatIncluded)
    ensures t.vatAmount * 100.0 == (t.grandTotal - t.vatAmount) * 7.0
    ensures t.totalCost == itemsCost
    ensures t.estimatedProfit + t.totalCost + t.vatAmount == t.grandTotal
    ensures t.balance + o.depositAmount == t.grandTotal
  {
    var totalBeforeVat := itemsPrice + o.addOnCost + o.shippingCost - o.discountAmount;
    var split := Split(totalBeforeVat, o.isVatIncluded);
    VatIsSevenPercentOfNet(totalBeforeVat, o.isVatIncluded);
    Totals(totalBeforeVat, split.vat, split.grand, itemsCost, (split.grand - split.vat) - itemsCost, split.grand - o.depositAmount)
  }

  /** With VAT added on top the profit is simply the amount before VAT less the items' cost. */
  lemma ProfitWhenVatExcluded(o: OrderIn, itemsPrice: real, itemsCost: real)
    requires !o.isVatIncluded
    ensures TotalsFor(o, itemsPrice, itemsCost).estimatedProfit == TotalsFor(o, itemsPrice, itemsCost).totalBeforeVat - itemsCost
  {
  }

  /** With VAT inside the amount, the profit is 100/107 of the amount before VAT less the items' cost. */
  lemma ProfitWhenVatIncluded(o: OrderIn, itemsPrice: real, itemsCost: real)
    requires o.isVatIncluded
    ensures (TotalsFor(o, itemsPrice, itemsCost).estimatedProfit + itemsCost) * 107.0
      == TotalsFor(o, itemsPrice, itemsCost).totalBeforeVat * 100.0
  {
    NetRevenue(TotalsFor(o, itemsPrice, itemsCost).totalBeforeVat, true);
  }

  /** The stored row of one item: its quantity, its line price and its line cost. */
  function ItemRowFor(orderId: nat, item: ItemIn): (r: ItemRow)
    ensures r.orderId == orderId && r.quantityMatrix == item.quantityMatrix && r.totalQty == TotalQty(item.quantityMatrix)
    ensures r.pricePerUnit == item.basePrice && r.totalPrice == Times(item.basePrice, r.totalQty)
    ensures r.costPerUnit == item.costPerUnit && r.totalCost == Times(item.costPerUnit, r.totalQty)
  {
    var qty := TotalQty(item.quantityMatrix);
    ItemRow(orderId, item.productName, item.fabricType, item.neckType, item.sleeveType, item.quantityMatrix,
            qty, item.basePrice, Times(item.basePrice, qty), item.costPerUnit, Times(item.costPerUnit, qty))
  }

  function ItemRowsFor(orderId: nat, items: seq<ItemIn>): (r: seq<ItemRow>)
    ensures |r| == |items| && forall i :: 0 <= i < |items| ==> r[i] == ItemRowFor(orderId, items[i])
  {
    seq(|items|, i requires 0 <= i < |items| => ItemRowFor(orderId, items[i]))
  }

  function RowsPrice(rows: seq<ItemRow>): real
    decreases |rows|
  {
    if rows == [] then 0.0 else RowsPrice(rows[..|rows| - 1]) + rows[|rows| - 1].totalPrice
  }

  function RowsCost(rows: seq<ItemRow>): real
    decreases |rows|
  {
    if rows == [] then 0.0 else RowsCost(rows[..|rows| - 1]) + rows[|rows| - 1].totalCost
  }

  /** The stored items add up to the order: their prices to the items' price, their costs to the order's total cost. */
  lemma {:induction false} StoredItemsAddUp(orderId: nat, items: seq<ItemIn>)
    ensures RowsPrice(ItemRowsFor(orderId, items)) == ItemsPrice(items)
    ensures RowsCost(ItemRowsFor(orderId, items)) == ItemsCost(items)
    decreases |items|
  {
    if items != [] {
      var n := |items| - 1;
      StoredItemsAddUp(orderId, items[..n]);
      assert ItemRowsFor(orderId, items)[..n] == ItemRowsFor(orderId, items[..n]);
    }
  }

  /** `.filter(Customer.name == name).first()`: the first customer with exactly this name. */
  function FirstNamed(customers: seq<Customer>, name: string): (r: Option<nat>)
    ensures r.Some? ==> r.value < |customers| && customers[r.value].name == name
    ensures r.Some? ==> forall j :: 0 <= j < r.value ==> customers[j].name != name
    ensures r.None? ==> forall j :: 0 <= j < |customers| ==> customers[j].name != name
    decreases |customers|
  {
    if customers == [] then None
    else if customers[0].name == name then Some(0)
    else match FirstNamed(customers[1..], name)
      case None => None
      case Some(k) => Some(k + 1)
  }

  /** Python's `s[:n]`, which never fails on a short string. */
  function Prefix(s: string, n: nat): (r: string)
    ensures |r| <= n && StartsWith(s, r) && (|s| >= n ==> |r| == n)
  {
    if |s| <= n then s else s[..n]
  }

  /** `f"PO-{hex[:6].upper()}"`, from the random hex string that the model takes as an input. */
  function OrderNo(hex: string): (r: string)
    ensures |r| <= 9 && StartsWith(r, "PO-")
    ensures |r| == 3 + |Prefix(hex, 6)| && forall i :: 0 <= i < |Prefix(hex, 6)| ==> r[3 + i] == UpperChar(hex[i])
    ensures |hex| >= 6 ==> |r| == 9
  {
    "PO-" + Upper(Prefix(hex, 6))
  }

  const Production: string := "production"

  /** The order header `create_order` stores. */
  function OrderRowFor(o: OrderIn, orderNo: string, customerId: nat, t: Totals): (r: OrderRow)
    ensures r.status == Production && r.customerId == customerId && r.orderNo == orderNo
    ensures r.vatAmount == t.vatAmount && r.grandTotal == t.grandTotal && r.balanceAmount == t.balance
    ensures r.totalCost == t.totalCost && r.estimatedProfit == t.estimatedProfit
  {
    OrderRow(orderNo, customerId, o.deadlineDate, o.urgencyLevel,
             o.isVatIncluded, o.shippingCost, o.addOnCost, o.discountAmount,
             t.vatAmount, t.grandTotal, o.depositAmount, t.balance, t.totalCost, t.estimatedProfit, Production)
  }

  /** The three tables `create_order` touches. */
  class Store {
    var customers: seq<Customer>
    var orders: seq<OrderRow>
    var orderItems: seq<ItemRow>

    /** Ids are positions, and every reference points at an existing row. */
    predicate Valid()
      reads this
    {
      && (forall i :: 0 <= i < |customers| ==> customers[i].id == i)
      && (forall i :: 0 <= i < |orders| ==> orders[i].customerId < |customers|)
      && (forall i :: 0 <= i < |orderItems| ==> orderItems[i].orderId < |orders|)
    }

    constructor ()
      ensures Valid() && customers == [] && orders == [] && orderItems == []
    {
      customers, orders, orderItems := [], [], [];
    }

    /**
     * The customer with exactly this name, else a new one built from the
     * order's contact fields. An existing customer is left as it is.
     */
    method FindOrCreateCustomer(name: string, phone: Option<string>, channel: Option<string>, address: Option<string>)
      returns (id: nat)
      requires Valid()
      modifies this`customers
      ensures Valid()
      ensures id < |customers| && customers[id].name == name
      ensures old(FirstNamed(customers, name)).Some? ==>
        customers == old(customers) && id == old(FirstNamed(customers, name)).value
      ensures old(FirstNamed(customers, name)).None? ==>
        customers == old(customers) + [Customer(id, name, phone, channel, address)] && id == old(|customers|)
    {
      var found := FirstNamed(customers, name);
      if found.Some? {
        id := found.value;
      } else {
        id := |customers|;
        customers := customers + [Customer(id, name, phone, channel, address)];
      }
    }

    /** The second loop of `create_order`: one stored row per item, in item order. */
    method StoreItems(orderId: nat, items: seq<ItemIn>)
      requires Valid() && orderId < |orders|
      modifies this`orderItems
      ensures Valid()
      ensures orderItems == old(orderItems) + ItemRowsFor(orderId, items)
    {
      ghost var before := orderItems;
      for i := 0 to |items|
        invariant orderItems == before + ItemRowsFor(orderId, items[..i])
        invariant forall k :: 0 <= k < |orderItems| ==> orderItems[k].orderId < |orders|
      {
        assert ItemRowsFor(orderId, items[..i + 1]) == ItemRowsFor(orderId, items[..i]) + [ItemRowFor(orderId, items[i])];
        orderItems := orderItems + [ItemRowFor(orderId, items[i])];
      }
      assert items[..|items|] == items;
    }

    /** `create_order`, with the random hex of `uuid4` as an input. */
    method CreateOrder(o: OrderIn, hex: string) returns (receipt: Receipt)
      requires Valid()
      modifies this
      ensures Valid()
      ensures var t := TotalsFor(o, ItemsPrice(o.items), ItemsCost(o.items));
        && |orders| == old(|orders|) + 1 && orders[..old(|orders|)] == old(orders)
        && orders[old(|orders|)] == OrderRowFor(o, OrderNo(hex), orders[old(|orders|)].customerId, t)
        && customers[orders[old(|orders|)].customerId].name == o.customerName
        && orderItems == old(orderItems) + ItemRowsFor(old(|orders|), o.items)
        && receipt == Receipt(OrderNo(hex), t.grandTotal, t.estimatedProfit)
      ensures old(FirstNamed(customers, o.customerName)).Some? ==>
        customers == old(customers) && orders[old(|orders|)].customerId == old(FirstNamed(customers, o.customerName)).value
      ensures old(FirstNamed(customers, o.customerName)).None? ==>
        && customers == old(customers) + [Customer(old(|customers|), o.customerName, o.phone, o.channel, o.address)]
        && orders[old(|orders|)].customerId == old(|customers|)
    {
      var customerId := FindOrCreateCustomer(o.customerName, o.phone, o.channel, o.address);
      var itemsPrice, itemsCost := AccumulateItems(o.items);
      var t := TotalsFor(o, itemsPrice, itemsCost);
      var orderId := |orders|;
      var row := OrderRowFor(o, OrderNo(hex), customerId, t);
      orders := orders + [row];
      StoreItems(orderId, o.items);
      receipt := Receipt(row.orderNo, row.grandTotal, row.estimatedProfit);
    }
  }
}
