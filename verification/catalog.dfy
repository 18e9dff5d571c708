/**
 * Tolerant neck-catalog matching of the quote engine
 * (backend/app/api/pricing.py): a requested neck name is compared, after
 * normalization, with every catalog row that has a non-empty normalized
 * name. An exact match wins (the first one); otherwise the longest row name
 * contained in the request; otherwise the longest row name containing the
 * request. Ties go to the earliest row, as Python's `max` keeps the first
 * maximal element.
 */
module Catalog {
  import opened Wrappers
  import opened Text
  import Names

  /** One `NeckType` row: its name, its optional slope price and its forced-slope flag. */
  datatype NeckRow = NeckRow(name: string, additionalCost: Option<real>, forceSlope: bool)

  /** The three matching passes, tried in this order. */
  datatype Stage = Exact | Contained | Containing

  /** Row name `cand` is a candidate of `stage` for the normalized request `need`. */
  predicate Fits(stage: Stage, cand: string, need: string) {
    cand != [] &&
    match stage
    case Exact => cand == need
    case Contained => Contains(need, cand)
    case Containing => Contains(cand, need)
  }

  predicate AnyFits(norms: seq<string>, need: string, stage: Stage) {
    exists k :: 0 <= k < |norms| && Fits(stage, norms[k], need)
  }

  /** Row `k` is what `max(matches, key=len)` picks: a longest candidate, and the earliest of those. */
  predicate BestAt(norms: seq<string>, need: string, stage: Stage, k: nat) {
    && k < |norms| && Fits(stage, norms[k], need)
    && (forall j :: 0 <= j < |norms| && Fits(stage, norms[j], need) ==> |norms[j]| <= |norms[k]|)
    && (forall j :: 0 <= j < k && Fits(stage, norms[j], need) ==> |norms[j]| < |norms[k]|)
  }

  /** Scan of the first `n` rows keeping the first longest candidate. */
  function Longest(norms: seq<string>, need: string, stage: Stage, n: nat): (r: Option<nat>)
    requires n <= |norms|
    ensures r.Some? ==> r.value < n && Fits(stage, norms[r.value], need)
    ensures r.Some? ==> forall j :: 0 <= j < n && Fits(stage, norms[j], need) ==> |norms[j]| <= |norms[r.value]|
    ensures r.Some? ==> forall j :: 0 <= j < r.value && Fits(stage, norms[j], need) ==> |norms[j]| < |norms[r.value]|
    ensures r.None? <==> forall j :: 0 <= j < n ==> !Fits(stage, norms[j], need)
  {
    if n == 0 then None
    else
      var prev := Longest(norms, need, stage, n - 1);
      if Fits(stage, norms[n - 1], need) && (prev.None? || |norms[prev.value]| < |norms[n - 1]|)
      then Some(n - 1)
      else prev
  }

  /** The normalized names of the catalog rows. */
  function Norms(catalog: seq<NeckRow>): (r: seq<string>)
    ensures |r| == |catalog| && forall i :: 0 <= i < |catalog| ==> r[i] == Names.NormalizeName(catalog[i].name)
  {
    seq(|catalog|, i requires 0 <= i < |catalog| => Names.NormalizeName(catalog[i].name))
  }

  /** The three passes over the normalized row names `norms` for the normalized request `need`. */
  function MatchIn(norms: seq<string>, need: string): (r: Option<nat>)
    ensures r.Some? ==> r.value < |norms| && norms[r.value] != []
    ensures AnyFits(norms, need, Exact) ==> r.Some? && BestAt(norms, need, Exact, r.value)
    ensures !AnyFits(norms, need, Exact) && AnyFits(norms, need, Contained) ==>
              r.Some? && BestAt(norms, need, Contained, r.value)
    ensures !AnyFits(norms, need, Exact) && !AnyFits(norms, need, Contained) && AnyFits(norms, need, Containing) ==>
              r.Some? && BestAt(norms, need, Containing, r.value)
    ensures r.None? <==> !AnyFits(norms, need, Exact) && !AnyFits(norms, need, Contained) && !AnyFits(norms, need, Containing)
  {
    var exact := Longest(norms, need, Exact, |norms|);
    if exact.Some? then exact
    else
      var contained := Longest(norms, need, Contained, |norms|);
      if contained.Some? then contained
      else Longest(norms, need, Containing, |norms|)
  }

  /** The index of the row matched for the (stripped) raw neck name, if any. */
  function MatchIndex(catalog: seq<NeckRow>, raw: string): (r: Option<nat>)
    ensures r.Some? ==> r.value < |catalog| && Names.NormalizeName(catalog[r.value].name) != []
  {
    MatchIn(Norms(catalog), Names.NormalizeName(raw))
  }

  /** The matched row itself (`db_neck`), or None. */
  function Match(catalog: seq<NeckRow>, raw: string): (r: Option<NeckRow>)
    ensures r.Some? <==> MatchIndex(catalog, raw).Some?
    ensures r.Some? ==> r.value == catalog[MatchIndex(catalog, raw).value]
  {
    match MatchIndex(catalog, raw)
    case None => None
    case Some(k) => Some(catalog[k])
  }

  /**
   * A row whose normalized name equals the request's is always found: the
   * matched row is the first row with that normalized name.
   */
  lemma MatchPrefersExactName(catalog: seq<NeckRow>, raw: string, k: nat)
    requires k < |catalog| && Names.NormalizeName(catalog[k].name) == Names.NormalizeName(raw) != []
    ensures Match(catalog, raw).Some? && MatchIndex(catalog, raw).value <= k
    ensures Names.NormalizeName(Match(catalog, raw).value.name) == Names.NormalizeName(raw)
    ensures forall j :: 0 <= j < MatchIndex(catalog, raw).value ==>
      Names.NormalizeName(catalog[j].name) != Names.NormalizeName(raw)
  {
    var norms, need := Norms(catalog), Names.NormalizeName(raw);
    assert Fits(Exact, norms[k], need);
    var m := MatchIndex(catalog, raw).value;
    ExactMatchIsFirst(norms, need, m);
  }

  /** Among exact matches the earliest row wins: every earlier row has another normalized name. */
  lemma ExactMatchIsFirst(norms: seq<string>, need: string, k: nat)
    requires BestAt(norms, need, Exact, k)
    ensures norms[k] == need
    ensures forall j :: 0 <= j < k ==> norms[j] != need
  {
  }

  /** The pick of each pass is unique: ties never leave a choice. */
  lemma BestAtUnique(norms: seq<string>, need: string, stage: Stage, k1: nat, k2: nat)
    requires BestAt(norms, need, stage, k1) && BestAt(norms, need, stage, k2)
    ensures k1 == k2
  {
  }

  /**
   * A request whose name normalizes to "" matches no row in the first two
   * passes but is contained in every row in the third, so it takes the
   * longest (earliest longest) row of the catalog.
   */
  lemma EmptyNameTakesLongestRow(catalog: seq<NeckRow>, raw: string, k: nat)
    requires Names.NormalizeName(raw) == []
    requires k < |catalog| && Norms(catalog)[k] != []
    ensures MatchIndex(catalog, raw).Some?
    ensures BestAt(Norms(catalog), [], Containing, MatchIndex(catalog, raw).value)
  {
    var norms := Norms(catalog);
    assert MatchIndex(catalog, raw) == MatchIn(norms, []);
    assert Fits(Containing, norms[k], []) by {
      assert StartsWith(norms[k], []);
    }
    assert !AnyFits(norms, [], Exact);
    assert !AnyFits(norms, [], Contained) by {
      forall j | 0 <= j < |norms| ensures !Fits(Contained, norms[j], []) {
        if norms[j] != [] {
          assert !StartsWith([], norms[j]);
        }
      }
    }
  }
}
