/**
 * `calculate_price` of the quote engine (backend/app/api/pricing.py): for
 * every item with a positive quantity it matches the neck against the
 * catalog, looks up the tier price, resolves the add-ons and adds the line
 * to the running totals; the shipping fee is computed on the total quantity
 * but is not part of the total price.
 */
module Quote {
  import opened Wrappers
  import opened Text
  import opened Sizes
  import opened Catalog
  import opened Rates
  import opened Addons
  import opened Money

  /** `quantity_matrix`: a JSON object, or a string or null, which the engine treats as empty. */
  datatype MatrixField = Dict(entries: QuantityMatrix) | NotDict

  /** One `PricingRequestItem`; its `product_type` is accepted but never read. */
  datatype QuoteItem = QuoteItem(neckType: string, quantityMatrix: MatrixField, selectedAddOns: seq<string>, isOversize: bool)

  /** One entry of `details`. */
  datatype Line = Line(neck: string, qty: int, unitPrice: real, addonUnitPrice: real, addons: set<string>, lineTotal: real)

  /** The response of `/calc`. */
  datatype Quote = Quote(pricePerUnit: real, itemAddonTotal: real, shippingCost: int, totalQty: int, totalPrice: real, details: seq<Line>)

  datatype QuoteError = NoItemsProvided

  /** The quantity of an item: the sum of its matrix, 0 when the matrix is not an object. */
  function ItemQty(item: QuoteItem): int {
    match item.quantityMatrix
    case Dict(m) => TotalQty(m)
    case NotDict => 0
  }

  /** A line of `details`: a positive quantity, and `line_total = unit×qty + addon_unit×qty`. */
  predicate LineOk(l: Line) {
    l.qty > 0 && l.lineTotal == Times(l.unitPrice, l.qty) + Times(l.addonUnitPrice, l.qty)
  }

  /** The line an item yields, or None when it is skipped. */
  function PriceLine(item: QuoteItem, catalog: seq<NeckRow>): (r: Option<Line>)
    ensures r.None? <==> ItemQty(item) <= 0
    ensures r.Some? ==> LineOk(r.value) && r.value.qty == ItemQty(item) && r.value.neck == Strip(item.neckType)
  {
    var qty := ItemQty(item);
    if qty <= 0 then None
    else
      var raw := Strip(item.neckType);
      var row := Match(catalog, raw);
      var unit := UnitPrice(IsRoundV(raw), qty) as real;
      var addons := FinalAddons(item.selectedAddOns, raw, item.isOversize, row);
      var addonUnit := AddonUnitTotal(addons, SlopeCost(row));
      Some(Line(raw, qty, unit, addonUnit, addons, Times(unit, qty) + Times(addonUnit, qty)))
  }

  /** Pricing against one catalog, as a function of the item. */
  function PriceWith(catalog: seq<NeckRow>): QuoteItem -> Option<Line> {
    item => PriceLine(item, catalog)
  }

  /** The lines `price` yields for the items that are not skipped, in item order. */
  function Lines(items: seq<QuoteItem>, price: QuoteItem -> Option<Line>): seq<Line>
    decreases |items|
  {
    if items == [] then []
    else Lines(items[..|items| - 1], price) + match price(items[|items| - 1]) case None => [] case Some(l) => [l]
  }

  /** The `details` list of a request priced against `catalog`. */
  function Details(items: seq<QuoteItem>, catalog: seq<NeckRow>): seq<Line> {
    Lines(items, PriceWith(catalog))
  }

  function SumQty(lines: seq<Line>): int
    decreases |lines|
  {
    if lines == [] then 0 else SumQty(lines[..|lines| - 1]) + lines[|lines| - 1].qty
  }

  function SumTotal(lines: seq<Line>): real
    decreases |lines|
  {
    if lines == [] then 0.0 else SumTotal(lines[..|lines| - 1]) + lines[|lines| - 1].lineTotal
  }

  /** Sum of `addon_unit × qty`. */
  function SumAddon(lines: seq<Line>): real
    decreases |lines|
  {
    if lines == [] then 0.0
    else SumAddon(lines[..|lines| - 1]) + Times(lines[|lines| - 1].addonUnitPrice, lines[|lines| - 1].qty)
  }

  /** Sum of `unit × qty`. */
  function SumBase(lines: seq<Line>): real
    decreases |lines|
  {
    if lines == [] then 0.0
    else SumBase(lines[..|lines| - 1]) + Times(lines[|lines| - 1].unitPrice, lines[|lines| - 1].qty)
  }

  /** The loop of `calculate_price`, with its accumulators. */
  method CalculatePrice(items: seq<QuoteItem>, catalog: seq<NeckRow>) returns (r: Result<Quote, QuoteError>)
    ensures r.Failure? <==> items == []
    ensures r.Success? ==>
      && r.value.details == Details(items, catalog)
      && r.value.totalQty == SumQty(r.value.details)
      && r.value.totalPrice == SumTotal(r.value.details)
      && r.value.itemAddonTotal == SumAddon(r.value.details)
      && r.value.shippingCost == Shipping(r.value.totalQty)
      && (ItemQty(items[0]) > 0 ==> |r.value.details| > 0 && r.value.pricePerUnit == r.value.details[0].unitPrice)
      && (ItemQty(items[0]) <= 0 ==> r.value.pricePerUnit == 0.0)
  {
    if items == [] {
      return Failure(NoItemsProvided);
    }
    var totalQtyAll := 0;
    var grandTotal := 0.0;
    var addonTotalAcc := 0.0;
    var details: seq<Line> := [];
    var firstUnitPrice := 0.0;
    for idx := 0 to |items|
      invariant details == Details(items[..idx], catalog)
      invariant totalQtyAll == SumQty(details)
      invariant grandTotal == SumTotal(details)
      invariant addonTotalAcc == SumAddon(details)
      invariant idx > 0 && ItemQty(items[0]) > 0 ==> |details| > 0 && firstUnitPrice == details[0].unitPrice
      invariant !(idx > 0 && ItemQty(items[0]) > 0) ==> firstUnitPrice == 0.0
    {
      var it := items[idx];
      LinesStep(items, idx, PriceWith(catalog));
      assert PriceWith(catalog)(it) == PriceLine(it, catalog);
      var qty := ItemQty(it);
      if qty <= 0 {
        continue;
      }
      var line := PriceItem(it, qty, catalog);
      if idx == 0 {
        firstUnitPrice := line.unitPrice;
      }
      details, totalQtyAll, grandTotal, addonTotalAcc := AddLine(line, details, totalQtyAll, grandTotal, addonTotalAcc);
    }
    assert items[..|items|] == items;
    var shipping := Shipping(totalQtyAll);
    r := Success(Quote(firstUnitPrice, addonTotalAcc, shipping, totalQtyAll, grandTotal, details));
  }

  /** The accumulator updates for one counted item: its pieces, its add-on part and its total are added and its line appended. */
  method AddLine(line: Line, details: seq<Line>, totalQtyAll: int, grandTotal: real, addonTotalAcc: real)
    returns (details': seq<Line>, totalQtyAll': int, grandTotal': real, addonTotalAcc': real)
    requires totalQtyAll == SumQty(details) && grandTotal == SumTotal(details) && addonTotalAcc == SumAddon(details)
    ensures details' == details + [line]
    ensures totalQtyAll' == SumQty(details') && grandTotal' == SumTotal(details') && addonTotalAcc' == SumAddon(details')
  {
    totalQtyAll' := totalQtyAll + line.qty;
    addonTotalAcc' := addonTotalAcc + Times(line.addonUnitPrice, line.qty);
    grandTotal' := grandTotal + line.lineTotal;
    SumsSnoc(details, line);
    details' := details + [line];
  }

  /** The body of the loop for one counted item: match the neck, look up the unit price, resolve and sum the add-ons. */
  method PriceItem(it: QuoteItem, qty: int, catalog: seq<NeckRow>) returns (line: Line)
    requires qty == ItemQty(it) > 0
    ensures PriceLine(it, catalog) == Some(line)
  {
    var raw := Strip(it.neckType);
    var row := Match(catalog, raw);
    var unit := UnitPrice(IsRoundV(raw), qty) as real;
    var addons := ResolveAddons(it.selectedAddOns, raw, it.isOversize, row);
    var addonUnit := SumAddonPrices(addons, SlopeCost(row));
    var addonTotal := Times(addonUnit, qty);
    var lineTotal := Times(unit, qty) + addonTotal;
    line := Line(raw, qty, unit, addonUnit, addons, lineTotal);
    LineIs(it, catalog, line);
  }

  /** A line whose every field is the one `PriceLine` computes is the item's line. */
  lemma LineIs(it: QuoteItem, catalog: seq<NeckRow>, l: Line)
    requires ItemQty(it) > 0 && l.neck == Strip(it.neckType) && l.qty == ItemQty(it)
    requires l.unitPrice == UnitPrice(IsRoundV(l.neck), l.qty) as real
    requires l.addons == FinalAddons(it.selectedAddOns, l.neck, it.isOversize, Match(catalog, l.neck))
    requires l.addonUnitPrice == AddonUnitTotal(l.addons, SlopeCost(Match(catalog, l.neck)))
    requires l.lineTotal == Times(l.unitPrice, l.qty) + Times(l.addonUnitPrice, l.qty)
    ensures PriceLine(it, catalog) == Some(l)
  {
    var e := PriceLine(it, catalog).value;
    assert e.neck == l.neck && e.qty == l.qty && e.unitPrice == l.unitPrice;
    assert e.addons == l.addons && e.addonUnitPrice == l.addonUnitPrice;
    assert e.lineTotal == l.lineTotal;
  }

  /** One more item adds its line, if any, to the lines of the items before it. */
  lemma LinesStep(items: seq<QuoteItem>, idx: nat, price: QuoteItem -> Option<Line>)
    requires idx < |items|
    ensures Lines(items[..idx + 1], price)
      == Lines(items[..idx], price) + match price(items[idx]) case None => [] case Some(l) => [l]
  {
    assert items[..idx + 1][..idx] == items[..idx];
  }

  /** When the first item has a line, that line heads the list. */
  lemma FirstLine(items: seq<QuoteItem>, price: QuoteItem -> Option<Line>)
    requires items != [] && price(items[0]).Some?
    ensures |Lines(items, price)| > 0 && Lines(items, price)[0] == price(items[0]).value
  {
    LinesAppend([items[0]], items[1..], price);
    assert [items[0]] + items[1..] == items;
    assert [items[0]][..0] == [];
  }

  /**
   * `price_per_unit` is set on the first pass only: when the first item is
   * counted, the first detail line is that item's, so the quote's unit price
   * is the first item's unit price.
   */
  lemma FirstDetailIsFirstItem(items: seq<QuoteItem>, catalog: seq<NeckRow>)
    requires items != [] && ItemQty(items[0]) > 0
    ensures |Details(items, catalog)| > 0
    ensures Details(items, catalog)[0] == PriceLine(items[0], catalog).value
  {
    assert PriceWith(catalog)(items[0]) == PriceLine(items[0], catalog);
    FirstLine(items, PriceWith(catalog));
  }

  /** Appending a line adds its quantity, its total and its add-on part to the sums. */
  lemma SumsSnoc(lines: seq<Line>, l: Line)
    ensures SumQty(lines + [l]) == SumQty(lines) + l.qty
    ensures SumTotal(lines + [l]) == SumTotal(lines) + l.lineTotal
    ensures SumAddon(lines + [l]) == SumAddon(lines) + Times(l.addonUnitPrice, l.qty)
    ensures SumBase(lines + [l]) == SumBase(lines) + Times(l.unitPrice, l.qty)
  {
    assert (lines + [l])[..|lines|] == lines;
  }

  /** The lines of two item lists are the lines of each, one after the other. */
  lemma {:induction false} LinesAppend(a: seq<QuoteItem>, b: seq<QuoteItem>, price: QuoteItem -> Option<Line>)
    ensures Lines(a + b, price) == Lines(a, price) + Lines(b, price)
    decreases |b|
  {
    if b == [] {
      assert a + b == a;
    } else {
      assert (a + b)[..|a + b| - 1] == a + b[..|b| - 1];
      LinesAppend(a, b[..|b| - 1], price);
    }
  }

  /** An item that yields no line can be dropped from anywhere without changing any line. */
  lemma SkippedItemChangesNothing(a: seq<QuoteItem>, item: QuoteItem, b: seq<QuoteItem>, price: QuoteItem -> Option<Line>)
    requires price(item).None?
    ensures Lines(a + [item] + b, price) == Lines(a + b, price)
  {
    LinesAppend(a + [item], b, price);
    LinesAppend(a, [item], price);
    LinesAppend(a, b, price);
    assert [item][..0] == [];
  }

  /** So an item whose quantity is not positive can be dropped from a request without changing `details`. */
  lemma NonPositiveItemChangesNothing(a: seq<QuoteItem>, item: QuoteItem, b: seq<QuoteItem>, catalog: seq<NeckRow>)
    requires ItemQty(item) <= 0
    ensures Details(a + [item] + b, catalog) == Details(a + b, catalog)
  {
    assert PriceWith(catalog)(item) == PriceLine(item, catalog);
    SkippedItemChangesNothing(a, item, b, PriceWith(catalog));
  }

  /** The quantity of an item as it counts toward `total_qty`: nothing when it is skipped. */
  function CountedQty(items: seq<QuoteItem>): int
    decreases |items|
  {
    if items == [] then 0
    else CountedQty(items[..|items| - 1]) + (if ItemQty(items[|items| - 1]) > 0 then ItemQty(items[|items| - 1]) else 0)
  }

  /** `price` prices an item exactly when its quantity is positive, with that quantity, as a well-formed line. */
  predicate QtyFaithful(items: seq<QuoteItem>, price: QuoteItem -> Option<Line>) {
    forall i :: 0 <= i < |items| ==>
      && (price(items[i]).None? <==> ItemQty(items[i]) <= 0)
      && (price(items[i]).Some? ==> price(items[i]).value.qty == ItemQty(items[i]) && LineOk(price(items[i]).value))
  }

  /** The catalog pricing is such a pricing. */
  lemma PriceWithFaithful(items: seq<QuoteItem>, catalog: seq<NeckRow>)
    ensures QtyFaithful(items, PriceWith(catalog))
  {
    forall i | 0 <= i < |items| ensures PriceWith(catalog)(items[i]) == PriceLine(items[i], catalog) {
    }
  }

  /** The summed quantity of the lines is the quantity of the items that were not skipped, so never negative. */
  lemma {:induction false} LinesQty(items: seq<QuoteItem>, price: QuoteItem -> Option<Line>)
    requires QtyFaithful(items, price)
    ensures SumQty(Lines(items, price)) == CountedQty(items) >= 0
    decreases |items|
  {
    if items != [] {
      var n := |items| - 1;
      assert QtyFaithful(items[..n], price) by {
        forall i | 0 <= i < n ensures items[..n][i] == items[i] {
        }
      }
      LinesQty(items[..n], price);
      assert items[n] == items[|items| - 1];
      match price(items[n])
      case None =>
        assert Lines(items, price) == Lines(items[..n], price);
        assert ItemQty(items[n]) <= 0;
        assert CountedQty(items) == CountedQty(items[..n]);
      case Some(l) =>
        assert Lines(items, price) == Lines(items[..n], price) + [l];
        SumsSnoc(Lines(items[..n], price), l);
    }
  }

  /** `total_qty` counts exactly the pieces of the items with a positive quantity. */
  lemma TotalQtyOfDetails(items: seq<QuoteItem>, catalog: seq<NeckRow>)
    ensures SumQty(Details(items, catalog)) == CountedQty(items) >= 0
  {
    PriceWithFaithful(items, catalog);
    LinesQty(items, PriceWith(catalog));
  }

  /** Every line is well-formed when the pricing yields only well-formed lines. */
  lemma {:induction false} LinesAllOk(items: seq<QuoteItem>, price: QuoteItem -> Option<Line>)
    requires QtyFaithful(items, price)
    ensures forall i :: 0 <= i < |Lines(items, price)| ==> LineOk(Lines(items, price)[i])
    decreases |items|
  {
    if items != [] {
      var n := |items| - 1;
      assert QtyFaithful(items[..n], price) by {
        forall i | 0 <= i < n ensures items[..n][i] == items[i] {
        }
      }
      LinesAllOk(items[..n], price);
    }
  }

  /** Every line of `details` has a positive quantity and satisfies the line formula. */
  lemma DetailsLineFormula(items: seq<QuoteItem>, catalog: seq<NeckRow>)
    ensures forall i :: 0 <= i < |Details(items, catalog)| ==> LineOk(Details(items, catalog)[i])
  {
    PriceWithFaithful(items, catalog);
    LinesAllOk(items, PriceWith(catalog));
  }

  /** `total_price` is the base part plus `item_addon_total` over lines that satisfy the line formula. */
  lemma {:induction false} TotalIsBasePlusAddons(lines: seq<Line>)
    requires forall i :: 0 <= i < |lines| ==> LineOk(lines[i])
    ensures SumTotal(lines) == SumBase(lines) + SumAddon(lines)
    decreases |lines|
  {
    if lines != [] {
      TotalIsBasePlusAddons(lines[..|lines| - 1]);
    }
  }

  /** So the quote's total price is the base part plus its add-on total, and shipping is in neither. */
  lemma QuoteTotalSplits(items: seq<QuoteItem>, catalog: seq<NeckRow>)
    ensures SumTotal(Details(items, catalog)) == SumBase(Details(items, catalog)) + SumAddon(Details(items, catalog))
  {
    DetailsLineFormula(items, catalog);
    TotalIsBasePlusAddons(Details(items, catalog));
  }

  /** 20 pieces at 300 plus 20 pieces of a 40 add-on. */
  lemma TwentyPieces()
    ensures Times(300.0, 20) + Times(40.0, 20) == 6800.0
  {
    TimesIsProduct(300.0, 20);
    TimesIsProduct(40.0, 20);
  }

  /** The forced-slope trapezoid collar with a tongue in its name, as a catalog-less request would name it. */
  const TrapezoidCollarName: string :=
    "\U{0E04}\U{0E2D}\U{0E1B}\U{0E01}\U{0E04}\U{0E32}\U{0E07}\U{0E2B}\U{0E21}\U{0E39} (\U{0E21}\U{0E35}\U{0E25}\U{0E34}\U{0E49}\U{0E19}) "
    + "(\U{0E1A}\U{0E31}\U{0E07}\U{0E04}\U{0E31}\U{0E1A}\U{0E44}\U{0E2B}\U{0E25}\U{0E48}\U{0E2A}\U{0E42}\U{0E25}\U{0E1B}+40 \U{0E1A}\U{0E32}\U{0E17}/\U{0E15}\U{0E31}\U{0E27})"

  /**
   * Twenty of them with no catalog row: the collared price 300, the forced
   * plain slope at its default 40, and no tongue because the neck is one of
   * the special shapes; so the line is 6800.
   */
  lemma TrapezoidCollarLine()
    ensures PriceLine(QuoteItem(TrapezoidCollarName, Dict([("M", 20)]), [], false), []) ==
      Some(Line(TrapezoidCollarName, 20, 300.0, 40.0, {SlopeShoulder}, 6800.0))
  {
    var raw := TrapezoidCollarName;
    var item := QuoteItem(raw, Dict([("M", 20)]), [], false);
    assert ItemQty(item) == 20 by {
      assert [("M", 20)][..0] == [];
    }
    TrapezoidCollarNameFacts();
    TrapezoidCollarAddons();
    UnitPriceIsBandPrice(false, 20);
    TwentyPieces();
    var line := PriceLine(item, []).value;
    assert line.neck == raw && line.qty == 20 && line.unitPrice == 300.0;
    assert line.addons == {SlopeShoulder} && line.addonUnitPrice == 40.0;
    assert LineOk(line);
  }

  /** The name has no surrounding whitespace, names no round or V neck, and no row of an empty catalog matches it. */
  lemma TrapezoidCollarNameFacts()
    ensures Strip(TrapezoidCollarName) == TrapezoidCollarName
    ensures Match([], TrapezoidCollarName) == None
    ensures !IsRoundV(TrapezoidCollarName)
  {
    var raw := TrapezoidCollarName;
    assert SkipSpaces(raw, 0) == 0;
    assert BackSpaces(raw, |raw|) == |raw|;
    assert Norms([]) == [];
    assert |CollarMarker| == 2 && raw[2] == CollarMarker[0] && raw[3] == CollarMarker[1];
    assert raw[2..4] == CollarMarker;
    ContainsAt(raw, CollarMarker, 2);
  }

  /** It is a special neck, so the tongue is not added, and its annotation forces the plain slope. */
  lemma TrapezoidCollarAddons()
    ensures FinalAddons([], TrapezoidCollarName, false, None) == {SlopeShoulder}
    ensures AddonUnitTotal({SlopeShoulder}, SlopeCost(None)) == 40.0
  {
    var raw := TrapezoidCollarName;
    assert raw[..10] == SpecialNecks[0];
    ContainsAt(raw, SpecialNecks[0], 0);
    assert IsSpecialNeck(raw);
    assert raw[20..20 + |ForcedSlopeMarker|] == ForcedSlopeMarker;
    ContainsAt(raw, ForcedSlopeMarker, 20);
  }
}
