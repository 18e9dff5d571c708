/**
 * The constant rate tables of the quote engine (backend/app/api/pricing.py):
 * the banded shipping fee and the two quantity-banded unit-price tables,
 * one for round/V necks and one for collared and other necks.
 */
module Rates {
  import opened Wrappers
  import opened Text

  /** `calculate_shipping`. */
  function Shipping(totalQty: int): int {
    if totalQty < 10 then 0
    else if totalQty <= 15 then 60
    else if totalQty <= 20 then 80
    else if totalQty <= 30 then 100
    else if totalQty <= 40 then 120
    else if totalQty <= 50 then 180
    else if totalQty <= 70 then 200
    else if totalQty <= 100 then 230
    else 230 + (totalQty - 100) * 50
  }

  /** A larger quantity never ships for less. */
  lemma ShippingMonotone(q1: int, q2: int)
    requires q1 <= q2
    ensures 0 <= Shipping(q1) <= Shipping(q2)
  {
  }

  /** Above 100 pieces every further piece adds exactly 50 to the fee. */
  lemma ShippingPerPieceAbove100(q: int)
    requires q >= 100
    ensures Shipping(q + 1) == Shipping(q) + 50
  {
  }

  /** One row of a tier table: an inclusive quantity range and its unit price. */
  datatype Band = Band(min: int, max: int, price: int)

  const RoundVNeck: seq<Band> := [
    Band(10, 30, 240), Band(31, 50, 220), Band(51, 100, 190), Band(101, 300, 180), Band(301, 99999, 170)
  ]

  const CollarOthers: seq<Band> := [
    Band(10, 30, 300), Band(31, 50, 260), Band(51, 100, 240), Band(101, 300, 220), Band(301, 99999, 200)
  ]

  /** "ปก" (collar). */
  const CollarMarker: string := "\U{0E1B}\U{0E01}"
  /** "คอกลม", "คอวี", "คอวีตัด", "คอวีชน", "คอวีไขว้": the round/V markers. */
  const RoundNeck: string := "\U{0E04}\U{0E2D}\U{0E01}\U{0E25}\U{0E21}"
  const VNeck: string := "\U{0E04}\U{0E2D}\U{0E27}\U{0E35}"
  const VNeckCut: string := "\U{0E04}\U{0E2D}\U{0E27}\U{0E35}\U{0E15}\U{0E31}\U{0E14}"
  const VNeckMeet: string := "\U{0E04}\U{0E2D}\U{0E27}\U{0E35}\U{0E0A}\U{0E19}"
  const VNeckCross: string := "\U{0E04}\U{0E2D}\U{0E27}\U{0E35}\U{0E44}\U{0E02}\U{0E27}\U{0E49}"

  /** `is_round_v`, on the raw (stripped, not normalized) neck name. */
  predicate IsRoundV(raw: string) {
    !Contains(raw, CollarMarker) &&
    (Contains(raw, RoundNeck) || Contains(raw, VNeck) || Contains(raw, VNeckCut)
     || Contains(raw, VNeckMeet) || Contains(raw, VNeckCross))
  }

  /**
   * The three longer V markers all start with "คอวี", so the table choice
   * depends on two markers only: no "ปก", and "คอกลม" or "คอวี".
   */
  lemma RoundVByTwoMarkers(raw: string)
    ensures IsRoundV(raw) <==> !Contains(raw, CollarMarker) && (Contains(raw, RoundNeck) || Contains(raw, VNeck))
  {
    assert Contains(VNeckCut, VNeck) && Contains(VNeckMeet, VNeck) && Contains(VNeckCross, VNeck) by {
      assert StartsWith(VNeckCut, VNeck) && StartsWith(VNeckMeet, VNeck) && StartsWith(VNeckCross, VNeck);
    }
    if Contains(raw, VNeckCut) { ContainsTrans(raw, VNeckCut, VNeck); }
    if Contains(raw, VNeckMeet) { ContainsTrans(raw, VNeckMeet, VNeck); }
    if Contains(raw, VNeckCross) { ContainsTrans(raw, VNeckCross, VNeck); }
  }

  function Table(roundV: bool): seq<Band> {
    if roundV then RoundVNeck else CollarOthers
  }

  /** `next((t for t in table if qty >= t["min"] and qty <= t["max"]), None)`. */
  function FirstBand(table: seq<Band>, qty: int): (r: Option<Band>)
    ensures r.Some? ==> r.value in table && r.value.min <= qty <= r.value.max
    ensures r.None? ==> forall b :: b in table ==> !(b.min <= qty <= b.max)
  {
    if table == [] then None
    else if table[0].min <= qty <= table[0].max then Some(table[0])
    else FirstBand(table[1..], qty)
  }

  /**
   * The base unit price for a line of `qty` pieces: below 10 pieces the
   * first band's price, otherwise the band containing `qty`, and the last
   * band's price beyond every band.
   */
  function UnitPrice(roundV: bool, qty: int): (r: int)
    ensures qty < 10 ==> r == Table(roundV)[0].price
    ensures forall b :: b in Table(roundV) && b.min <= qty <= b.max ==> r == b.price
    ensures qty > 99999 ==> r == Table(roundV)[|Table(roundV)| - 1].price
  {
    var table := Table(roundV);
    if qty < 10 then table[0].price
    else match FirstBand(table, qty)
      case Some(b) => b.price
      case None => table[|table| - 1].price
  }

  /** The bands written out as one piecewise rule. */
  function BandPrice(roundV: bool, qty: int): int {
    if roundV then
      if qty <= 30 then 240 else if qty <= 50 then 220 else if qty <= 100 then 190 else if qty <= 300 then 180 else 170
    else
      if qty <= 30 then 300 else if qty <= 50 then 260 else if qty <= 100 then 240 else if qty <= 300 then 220 else 200
  }

  /** The table lookup agrees with the piecewise rule at every quantity, band edges included. */
  lemma UnitPriceIsBandPrice(roundV: bool, qty: int)
    ensures UnitPrice(roundV, qty) == BandPrice(roundV, qty)
  {
    var table := Table(roundV);
    if 10 <= qty <= 99999 {
      assert table[0] in table && table[1] in table && table[2] in table && table[3] in table && table[4] in table;
    }
  }

  /** Ordering more pieces never raises the unit price. */
  lemma UnitPriceNonIncreasing(roundV: bool, q1: int, q2: int)
    requires q1 <= q2
    ensures UnitPrice(roundV, q2) <= UnitPrice(roundV, q1)
  {
    UnitPriceIsBandPrice(roundV, q1);
    UnitPriceIsBandPrice(roundV, q2);
  }

  /** At every quantity the collared table charges more than the round/V table. */
  lemma CollarCostsMore(qty: int)
    ensures UnitPrice(true, qty) < UnitPrice(false, qty)
  {
    UnitPriceIsBandPrice(true, qty);
    UnitPriceIsBandPrice(false, qty);
  }
}
