/**
 * Add-on resolution of the quote engine (backend/app/api/pricing.py): the
 * requested add-ons plus the ones forced by the neck name or the matched
 * catalog row, and their per-piece price.
 */
module Addons {
  import opened Wrappers
  import opened Text
  import opened Catalog

  const LongSleeve: string := "longSleeve"
  const Pocket: string := "pocket"
  const NumberName: string := "numberName"
  const SlopeShoulder: string := "slopeShoulder"
  const CollarTongue: string := "collarTongue"
  const ShortSleeveAlt: string := "shortSleeveAlt"
  const OversizeSlopeShoulder: string := "oversizeSlopeShoulder"

  /** `ADDON_PRICES`. */
  const AddonPrices: map<string, real> := map[
    LongSleeve := 40.0, Pocket := 20.0, NumberName := 20.0, SlopeShoulder := 40.0,
    CollarTongue := 10.0, ShortSleeveAlt := 20.0, OversizeSlopeShoulder := 60.0
  ]

  /** Default slope price when the matched row gives none. */
  const DefaultSlopeCost: real := 40.0

  /** "มีลิ้น" (has a tongue). */
  const TongueMarker: string := "\U{0E21}\U{0E35}\U{0E25}\U{0E34}\U{0E49}\U{0E19}"
  /** "(บังคับไหล่สโลป" (forced slope shoulder). */
  const ForcedSlopeMarker: string :=
    "(\U{0E1A}\U{0E31}\U{0E07}\U{0E04}\U{0E31}\U{0E1A}\U{0E44}\U{0E2B}\U{0E25}\U{0E48}\U{0E2A}\U{0E42}\U{0E25}\U{0E1B}"

  /** `SPECIAL_NECKS_FORCE_340_UI`: "คอปกคางหมู", "คอหยดน้ำ", "คอห้าเหลี่ยมคางหมู". */
  const SpecialNecks: seq<string> := [
    "\U{0E04}\U{0E2D}\U{0E1B}\U{0E01}\U{0E04}\U{0E32}\U{0E07}\U{0E2B}\U{0E21}\U{0E39}",
    "\U{0E04}\U{0E2D}\U{0E2B}\U{0E22}\U{0E14}\U{0E19}\U{0E49}\U{0E33}",
    "\U{0E04}\U{0E2D}\U{0E2B}\U{0E49}\U{0E32}\U{0E40}\U{0E2B}\U{0E25}\U{0E35}\U{0E48}\U{0E22}\U{0E21}\U{0E04}\U{0E32}\U{0E07}\U{0E2B}\U{0E21}\U{0E39}"
  ]

  /** `is_special_340`, on the raw neck name. */
  predicate IsSpecialNeck(raw: string) {
    exists k :: 0 <= k < |SpecialNecks| && Contains(raw, SpecialNecks[k])
  }

  /** The tongue is forced by "มีลิ้น" in the name, except on the special necks. */
  predicate TongueForced(raw: string) {
    Contains(raw, TongueMarker) && !IsSpecialNeck(raw)
  }

  /** The plain slope is forced by the name's annotation or by the matched row's flag. */
  predicate SlopeForced(raw: string, row: Option<NeckRow>) {
    Contains(raw, ForcedSlopeMarker) || (row.Some? && row.value.forceSlope)
  }

  /** `slope_cost`: the matched row's `additional_cost` when it is not None (0 included), else 40. */
  function SlopeCost(row: Option<NeckRow>): real {
    if row.Some? && row.value.additionalCost.Some? then row.value.additionalCost.value else DefaultSlopeCost
  }

  function SetOf(ids: seq<string>): (r: set<string>)
    ensures forall a :: a in r <==> a in ids
  {
    set a | a in ids
  }

  /** The final add-on set, with the rules applied in the order the code applies them. */
  function FinalAddons(requested: seq<string>, raw: string, oversize: bool, row: Option<NeckRow>): set<string> {
    var withTongue := if TongueForced(raw) then SetOf(requested) + {CollarTongue} else SetOf(requested);
    var sized := if oversize then withTongue - {SlopeShoulder} + {OversizeSlopeShoulder} else withTongue;
    if SlopeForced(raw, row) then sized + {SlopeShoulder} else sized
  }

  /** `addons.add` / `addons.discard` on a working set, step by step. */
  method ResolveAddons(requested: seq<string>, raw: string, oversize: bool, row: Option<NeckRow>)
    returns (addons: set<string>)
    ensures addons == FinalAddons(requested, raw, oversize, row)
  {
    addons := SetOf(requested);
    if Contains(raw, TongueMarker) && !IsSpecialNeck(raw) {
      addons := addons + {CollarTongue};
    }
    if oversize {
      if SlopeShoulder in addons {
        addons := addons - {SlopeShoulder};
      }
      addons := addons + {OversizeSlopeShoulder};
    }
    if Contains(raw, ForcedSlopeMarker) || (row.Some? && row.value.forceSlope) {
      addons := addons + {SlopeShoulder};
    }
  }

  /**
   * What ends up in the set: a requested add-on stays unless it is the plain
   * slope on an oversize line; the tongue, the oversize slope and the plain
   * slope are added exactly when their rule fires; nothing else appears.
   */
  lemma FinalAddonsMembers(requested: seq<string>, raw: string, oversize: bool, row: Option<NeckRow>, a: string)
    ensures a in FinalAddons(requested, raw, oversize, row) <==>
      || (a in requested && !(oversize && a == SlopeShoulder))
      || (a == CollarTongue && TongueForced(raw))
      || (a == OversizeSlopeShoulder && oversize)
      || (a == SlopeShoulder && SlopeForced(raw, row))
  {
  }

  /** A forced slope on an oversize line yields both slope add-ons. */
  lemma ForcedOversizeHasBothSlopes(requested: seq<string>, raw: string, row: Option<NeckRow>)
    requires SlopeForced(raw, row)
    ensures SlopeShoulder in FinalAddons(requested, raw, true, row)
    ensures OversizeSlopeShoulder in FinalAddons(requested, raw, true, row)
  {
  }

  /** On an oversize line the plain slope survives only when it is forced. */
  lemma OversizeReplacesRequestedSlope(requested: seq<string>, raw: string, row: Option<NeckRow>)
    ensures SlopeShoulder in FinalAddons(requested, raw, true, row) <==> SlopeForced(raw, row)
  {
  }

  /** The price of one add-on id: the table price, the slope cost for the plain slope, 0 for an unknown id. */
  function AddonPrice(a: string, slopeCost: real): real {
    if a == SlopeShoulder then slopeCost
    else if a in AddonPrices then AddonPrices[a]
    else 0.0
  }

  /** The per-piece add-on price of a set, written out over the seven known ids. */
  function AddonUnitTotal(addons: set<string>, slopeCost: real): real {
    (if LongSleeve in addons then 40.0 else 0.0)
    + (if Pocket in addons then 20.0 else 0.0)
    + (if NumberName in addons then 20.0 else 0.0)
    + (if SlopeShoulder in addons then slopeCost else 0.0)
    + (if CollarTongue in addons then 10.0 else 0.0)
    + (if ShortSleeveAlt in addons then 20.0 else 0.0)
    + (if OversizeSlopeShoulder in addons then 60.0 else 0.0)
  }

  /** Adding one more id to the set adds its price. */
  lemma AddonUnitTotalInsert(s: set<string>, a: string, slopeCost: real)
    requires a !in s
    ensures AddonUnitTotal(s + {a}, slopeCost) == AddonUnitTotal(s, slopeCost) + AddonPrice(a, slopeCost)
  {
    if a == LongSleeve {
    } else if a == Pocket {
    } else if a == NumberName {
    } else if a == SlopeShoulder {
    } else if a == CollarTongue {
    } else if a == ShortSleeveAlt {
    } else if a == OversizeSlopeShoulder {
    }
  }

  /** `for a in addons: addon_unit += price`, in whatever order the set yields its ids. */
  method SumAddonPrices(addons: set<string>, slopeCost: real) returns (total: real)
    ensures total == AddonUnitTotal(addons, slopeCost)
  {
    total := 0.0;
    var rest := addons;
    while rest != {}
      invariant rest <= addons
      invariant total == AddonUnitTotal(addons - rest, slopeCost)
      decreases |rest|
    {
      var a :| a in rest;
      AddonUnitTotalInsert(addons - rest, a, slopeCost);
      assert addons - (rest - {a}) == (addons - rest) + {a};
      total := total + AddonPrice(a, slopeCost);
      rest := rest - {a};
    }
    assert addons - rest == addons;
  }
}
