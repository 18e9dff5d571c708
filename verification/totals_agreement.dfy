/**
 * The three copies of the order totals agree: `create_order`
 * (backend/app/api/orders.py), `calculate_order_total`
 * (backend/app/services/pricing.py) and the order form's live figures
 * (frontend/src/App.jsx).
 */
module TotalsAgreement {
  import opened Wrappers
  import opened Sizes
  import opened Money
  import opened Vat
  import opened Orders
  import opened PricingService
  import opened OrderForm

  /** What the pricing service reads of the order's items. */
  function ServiceView(items: seq<ItemIn>): (r: seq<ServiceItem>)
    ensures |r| == |items|
    ensures forall i :: 0 <= i < |items| ==>
      r[i].quantityMatrix == items[i].quantityMatrix && r[i].basePrice == items[i].basePrice
  {
    seq(|items|, i requires 0 <= i < |items| => ServiceItem(items[i].quantityMatrix, items[i].basePrice))
  }

  /** The service's subtotal is the order's item total. */
  lemma {:induction false} ServiceSubtotalIsItemsPrice(items: seq<ItemIn>)
    ensures Subtotal(ServiceView(items)) == ItemsPrice(items)
    decreases |items|
  {
    if items != [] {
      var init := items[..|items| - 1];
      ServiceSubtotalIsItemsPrice(init);
      assert ServiceView(items)[..|items| - 1] == ServiceView(init);
    }
  }

  /**
   * The service leaves shipping and the manual add-on cost out, so its
   * total before VAT is the order's less those two charges, and its grand
   * total equals the order's exactly when they add up to nothing.
   */
  lemma ServiceAgreesWithCreateOrder(o: OrderIn)
    ensures var t := TotalsFor(o, ItemsPrice(o.items), ItemsCost(o.items));
      && Subtotal(ServiceView(o.items)) - o.discountAmount == t.totalBeforeVat - o.addOnCost - o.shippingCost
      && (Split(Subtotal(ServiceView(o.items)) - o.discountAmount, o.isVatIncluded) == VatSplit(t.vatAmount, t.grandTotal)
          <==> o.addOnCost + o.shippingCost == 0.0)
  {
    ServiceSubtotalIsItemsPrice(o.items);
    var t := TotalsFor(o, ItemsPrice(o.items), ItemsCost(o.items));
    SplitInjective(Subtotal(ServiceView(o.items)) - o.discountAmount, t.totalBeforeVat, o.isVatIncluded);
  }

  /** Different amounts before VAT give different totals, in both modes. */
  lemma SplitInjective(a: real, b: real, included: bool)
    ensures Split(a, included) == Split(b, included) <==> a == b
  {
    if Split(a, included).grand == Split(b, included).grand {
      assert a == b;
    }
  }

  /** The single order item the form describes. */
  function FormItem(f: FormInput): ItemIn {
    ItemIn("", "", "", "", f.quantities, f.basePrice, f.costPerUnit)
  }

  /** The order the form would submit, with its one item. */
  function FormOrder(f: FormInput, customerName: string): OrderIn {
    OrderIn(customerName, None, None, None, None, None, f.isVatIncluded, f.shippingCost, f.addOnCost,
            f.discount, f.deposit, [FormItem(f)])
  }

  /** The form shows the figures `create_order` stores for the same one-item order. */
  lemma FormAgreesWithCreateOrder(f: FormInput, customerName: string)
    ensures var o := FormOrder(f, customerName);
      var t := TotalsFor(o, ItemsPrice(o.items), ItemsCost(o.items));
      var r := LiveTotals(f);
      && r.totalBeforeVat == t.totalBeforeVat && r.vatAmount == t.vatAmount && r.grandTotal == t.grandTotal
      && r.balance == t.balance && r.totalCost == t.totalCost && r.estimatedProfit == t.estimatedProfit
  {
    var o := FormOrder(f, customerName);
    assert o.items[..0] == [];
    assert ItemsPrice(o.items) == Times(f.basePrice, TotalQty(f.quantities));
    assert ItemsCost(o.items) == Times(f.costPerUnit, TotalQty(f.quantities));
  }
}
