/**
 * The live figures of the order-creation form (frontend/src/App.jsx): the
 * totals shown while the order is typed in, and the urgency class of the
 * deadline. The clock and the date parser are inputs: a deadline is either
 * absent, unparsable (JavaScript's invalid date), or a signed distance in
 * milliseconds from now.
 */
module OrderForm {
  import opened Wrappers
  import opened Sizes
  import opened Money
  import opened Vat

  datatype FormInput = FormInput(quantities: QuantityMatrix, basePrice: real, addOnCost: real, shippingCost: real,
                                 discount: real, isVatIncluded: bool, deposit: real, costPerUnit: real)

  datatype FormTotals = FormTotals(totalQty: int, productSubtotal: real, totalBeforeVat: real, vatAmount: real,
                                   grandTotal: real, balance: real, totalCost: real, estimatedProfit: real)

  /**
   * The form's calculations: the pieces over every size, add-on and
   * shipping on top of the products, the discount off, VAT by the shared
   * rule, the balance after the deposit and the profit net of VAT.
   */
  function LiveTotals(f: FormInput): (r: FormTotals)
    ensures r.totalQty == TotalQty(f.quantities)
    ensures r.totalBeforeVat == r.productSubtotal + f.addOnCost + f.shippingCost - f.discount
    ensures VatSplit(r.vatAmount, r.grandTotal) == Split(r.totalBeforeVat, f.isVatIncluded)
    ensures r.vatAmount * 100.0 == (r.grandTotal - r.vatAmount) * 7.0
    ensures r.balance + f.deposit == r.grandTotal
    ensures r.estimatedProfit + r.totalCost + r.vatAmount == r.grandTotal
  {
    var totalQty := TotalQty(f.quantities);
    var productSubtotal := Times(f.basePrice, totalQty);
    var totalBeforeCalc := productSubtotal + f.addOnCost + f.shippingCost - f.discount;
    var split := Split(totalBeforeCalc, f.isVatIncluded);
    VatIsSevenPercentOfNet(totalBeforeCalc, f.isVatIncluded);
    var totalCost := Times(f.costPerUnit, totalQty);
    FormTotals(totalQty, productSubtotal, totalBeforeCalc, split.vat, split.grand,
               split.grand - f.deposit, totalCost, (split.grand - split.vat) - totalCost)
  }

  /** The products subtotal and the cost are the per-piece figures times the pieces. */
  lemma FormProductsAndCost(f: FormInput)
    ensures LiveTotals(f).productSubtotal == f.basePrice * TotalQty(f.quantities) as real
    ensures LiveTotals(f).totalCost == f.costPerUnit * TotalQty(f.quantities) as real
  {
    TimesIsProduct(f.basePrice, TotalQty(f.quantities));
    TimesIsProduct(f.costPerUnit, TotalQty(f.quantities));
  }

  /** Milliseconds in a day, `1000 * 60 * 60 * 24`. */
  const DayMs: int := 1000 * 60 * 60 * 24

  /** The deadline as the form sees it. */
  datatype Deadline = NoDeadline | Unparsable | At(diffMs: int)

  /** The form's deadline field, the date parser's reading of it and the current time. */
  function DeadlineOf(deadline: string, parsedMs: Option<int>, nowMs: int): Deadline {
    if deadline == "" then NoDeadline
    else match parsedMs
      case None => Unparsable
      case Some(t) => At(t - nowMs)
  }

  datatype Urgency = Critical | Warning | Normal

  function Abs(x: int): nat {
    if x < 0 then -x else x
  }

  /** `Math.ceil(Math.abs(diff) / day)`: the whole days needed to cover the distance. */
  function DiffDays(ms: int): (d: nat)
    ensures Abs(ms) <= d * DayMs
    ensures d > 0 ==> (d - 1) * DayMs < Abs(ms)
  {
    (Abs(ms) + DayMs - 1) / DayMs
  }

  /** The effect on `urgencyStatus`. An unparsable date compares false with everything and is normal. */
  function UrgencyFor(d: Deadline): Urgency {
    match d
    case NoDeadline => Normal
    case Unparsable => Normal
    case At(ms) =>
      var days := DiffDays(ms);
      if days <= 5 then Critical else if days <= 10 then Warning else Normal
  }

  /** The classes by distance: within five days critical, within ten warning, beyond that normal. */
  lemma UrgencyByDistance(ms: int)
    ensures UrgencyFor(At(ms)) == Critical <==> Abs(ms) <= 5 * DayMs
    ensures UrgencyFor(At(ms)) == Warning <==> 5 * DayMs < Abs(ms) <= 10 * DayMs
    ensures UrgencyFor(At(ms)) == Normal <==> 10 * DayMs < Abs(ms)
  {
    var d := DiffDays(ms);
    if d <= 5 {
      assert d * DayMs <= 5 * DayMs;
    } else {
      assert (d - 1) * DayMs >= 5 * DayMs;
      if d <= 10 {
        assert d * DayMs <= 10 * DayMs;
      } else {
        assert (d - 1) * DayMs >= 10 * DayMs;
      }
    }
  }

  /** How pressing a class is: critical 2, warning 1, normal 0. */
  function Rank(u: Urgency): nat {
    match u
    case Critical => 2
    case Warning => 1
    case Normal => 0
  }

  /** A deadline further away, in either direction, is never more urgent. */
  lemma UrgencyMonotone(ms1: int, ms2: int)
    requires Abs(ms1) <= Abs(ms2)
    ensures Rank(UrgencyFor(At(ms1))) >= Rank(UrgencyFor(At(ms2)))
  {
    UrgencyByDistance(ms1);
    UrgencyByDistance(ms2);
  }

  /** A deadline already past is classified by its distance just as one still ahead. */
  lemma PastAndFutureAlike(ms: int)
    ensures UrgencyFor(At(ms)) == UrgencyFor(At(-ms))
  {
  }

  /** A blank deadline field is normal whatever the parser and the clock say. */
  lemma BlankDeadlineIsNormal(parsedMs: Option<int>, nowMs: int)
    ensures UrgencyFor(DeadlineOf("", parsedMs, nowMs)) == Normal
  {
  }
}
