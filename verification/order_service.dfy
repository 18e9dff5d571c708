/**
 * `PricingService.calculate_order_total` (backend/app/services/pricing.py):
 * subtotal and piece count over the items, then the discount and the VAT
 * branch. Shipping and add-on costs play no part here.
 */
module PricingService {
  import opened Sizes
  import opened Money
  import opened Vat

  /** What the service reads of an item. */
  datatype ServiceItem = ServiceItem(quantityMatrix: QuantityMatrix, basePrice: real)

  datatype ServiceTotals = ServiceTotals(subtotal: real, vatAmount: real, grandTotal: real, totalQty: int)

  /** `Σ qty × base_price`. */
  function Subtotal(items: seq<ServiceItem>): real
    decreases |items|
  {
    if items == [] then 0.0
    else Subtotal(items[..|items| - 1]) + Times(items[|items| - 1].basePrice, TotalQty(items[|items| - 1].quantityMatrix))
  }

  /** `Σ qty`, every quantity-matrix value of every item. */
  function PieceCount(items: seq<ServiceItem>): int
    decreases |items|
  {
    if items == [] then 0 else PieceCount(items[..|items| - 1]) + TotalQty(items[|items| - 1].quantityMatrix)
  }

  /**
   * The loop and the VAT branch. The discount is taken off before VAT; the
   * tax and total follow the shared VAT rule; with no items and no discount
   * every figure is 0.
   */
  method CalculateOrderTotal(items: seq<ServiceItem>, isVatIncluded: bool, discount: real) returns (r: ServiceTotals)
    ensures r.subtotal == Subtotal(items) && r.totalQty == PieceCount(items)
    ensures VatSplit(r.vatAmount, r.grandTotal) == Split(r.subtotal - discount, isVatIncluded)
    ensures items == [] && discount == 0.0 ==> r == ServiceTotals(0.0, 0.0, 0.0, 0)
  {
    var subtotal := 0.0;
    var totalQty := 0;
    for i := 0 to |items|
      invariant subtotal == Subtotal(items[..i]) && totalQty == PieceCount(items[..i])
    {
      assert items[..i + 1][..i] == items[..i];
      var qty := TotalQty(items[i].quantityMatrix);
      subtotal := subtotal + Times(items[i].basePrice, qty);
      totalQty := totalQty + qty;
    }
    assert items[..|items|] == items;
    var grandTotal := subtotal - discount;
    var vatAmount := 0.0;
    if !isVatIncluded {
      vatAmount := grandTotal * 0.07;
      grandTotal := grandTotal + vatAmount;
    } else {
      vatAmount := (grandTotal * 7.0) / 107.0;
    }
    r := ServiceTotals(subtotal, vatAmount, grandTotal, totalQty);
  }

  /** The discount lowers the amount due one for one when VAT is inside, and by 1.07 times when it is added. */
  lemma DiscountEffect(subtotal: real, discount: real, isVatIncluded: bool)
    ensures Split(subtotal, isVatIncluded).grand - Split(subtotal - discount, isVatIncluded).grand
      == discount * (if isVatIncluded then 1.0 else 1.07)
  {
  }
}
