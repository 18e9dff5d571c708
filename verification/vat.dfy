/**
 * The 7% Thai VAT rule shared by the order totals (backend/app/api/orders.py,
 * backend/app/services/pricing.py and the order form of frontend/src/App.jsx).
 * In "VAT included" mode the amount already holds the tax, which is taken
 * out as 7/107 of it; in "VAT excluded" mode 7% is added on top. Either way
 * the tax is 7% of the amount net of tax.
 */
module Vat {

  /** The tax and the total a customer pays. */
  datatype VatSplit = VatSplit(vat: real, grand: real)

  /** The VAT branch of the three totals computations, on the amount before VAT. */
  function Split(totalBeforeVat: real, included: bool): (r: VatSplit)
    ensures included ==> r.grand == totalBeforeVat && r.vat * 107.0 == totalBeforeVat * 7.0
    ensures !included ==> r.vat * 100.0 == totalBeforeVat * 7.0 && r.grand == totalBeforeVat + r.vat
  {
    if included then VatSplit(totalBeforeVat * 7.0 / 107.0, totalBeforeVat)
    else VatSplit(totalBeforeVat * 0.07, totalBeforeVat + totalBeforeVat * 0.07)
  }

  /** In both modes the tax is 7% of what remains once the tax is taken away. */
  lemma VatIsSevenPercentOfNet(totalBeforeVat: real, included: bool)
    ensures var r := Split(totalBeforeVat, included); r.vat * 100.0 == (r.grand - r.vat) * 7.0
  {
  }

  /** The net revenue: the whole amount when VAT is added on top, 100/107 of it when VAT is inside. */
  lemma NetRevenue(totalBeforeVat: real, included: bool)
    ensures var r := Split(totalBeforeVat, included);
      (r.grand - r.vat) * (if included then 107.0 else 1.0) == totalBeforeVat * (if included then 100.0 else 1.0)
  {
  }

  /** On a positive amount, adding VAT on top costs the customer more than VAT included. */
  lemma ExcludedChargesMore(totalBeforeVat: real)
    requires totalBeforeVat > 0.0
    ensures Split(totalBeforeVat, false).grand > Split(totalBeforeVat, true).grand
    ensures Split(totalBeforeVat, false).vat > Split(totalBeforeVat, true).vat
  {
  }

  /** Nothing before VAT gives no tax and nothing to pay, in either mode. */
  lemma ZeroAmount(included: bool)
    ensures Split(0.0, included) == VatSplit(0.0, 0.0)
  {
  }
}
