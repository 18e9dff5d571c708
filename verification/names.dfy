/**
 * `_normalize_name` of the quote engine (backend/app/api/pricing.py):
 * re-encode the alternate spelling of "น้ำ", delete `(...)` annotations
 * that do not cross a line break, collapse whitespace runs to one space and
 * trim both ends. Each stage is a function with its own property.
 */
module Names {
  import opened Wrappers
  import opened Text

  /** "นํ้า": NIKHAHIT (U+0E4D) then MAI THO (U+0E49) then SARA AA. */
  const AltNam: string := "\U{0E19}\U{0E4D}\U{0E49}\U{0E32}"
  /** "น้ำ": MAI THO (U+0E49) then SARA AM (U+0E33). */
  const CanonNam: string := "\U{0E19}\U{0E49}\U{0E33}"

  /** Python's `str.replace(pat, rep)`: left to right, non-overlapping. */
  function ReplaceAll(s: string, pat: string, rep: string): string
    requires pat != []
    decreases |s|
  {
    if s == [] then []
    else if StartsWith(s, pat) then rep + ReplaceAll(s[|pat|..], pat, rep)
    else [s[0]] + ReplaceAll(s[1..], pat, rep)
  }

  /** A string without the pattern is left as it is. */
  lemma {:induction false} ReplaceAllClean(s: string, pat: string, rep: string)
    requires pat != [] && !Contains(s, pat)
    ensures ReplaceAll(s, pat, rep) == s
    decreases |s|
  {
    if s != [] {
      ReplaceAllClean(s[1..], pat, rep);
    }
  }

  /** Text before the first occurrence of the pattern is copied unchanged. */
  lemma {:induction false} ReplaceAllKeepsPrefix(a: string, b: string, pat: string, rep: string)
    requires pat != []
    requires forall i :: 0 <= i < |a| ==> !StartsWith((a + b)[i..], pat)
    ensures ReplaceAll(a + b, pat, rep) == a + ReplaceAll(b, pat, rep)
    decreases |a|
  {
    if a == [] {
      assert a + b == b;
    } else {
      assert !StartsWith((a + b)[0..], pat);
      assert (a + b)[0..] == a + b;
      forall i | 0 <= i < |a[1..]| ensures !StartsWith((a[1..] + b)[i..], pat) {
        assert (a[1..] + b)[i..] == (a + b)[i + 1..];
      }
      ReplaceAllKeepsPrefix(a[1..], b, pat, rep);
      assert (a + b)[1..] == a[1..] + b;
    }
  }

  /** A replaced string that does not start with "น" starts with the input's first character. */
  lemma ReplacedHead(t: string)
    ensures |ReplaceAll(t, AltNam, CanonNam)| > 0 && ReplaceAll(t, AltNam, CanonNam)[0] != '\U{0E19}' ==>
              && |t| > 0 && t[0] == ReplaceAll(t, AltNam, CanonNam)[0]
              && ReplaceAll(t[1..], AltNam, CanonNam) == ReplaceAll(t, AltNam, CanonNam)[1..]
  {
  }

  /** A replaced tail cannot complete the alternate spelling unless the tail itself spelled it. */
  lemma HeadAlt(c: char, u: string)
    ensures StartsWith([c] + ReplaceAll(u, AltNam, CanonNam), AltNam) ==> StartsWith([c] + u, AltNam)
  {
    var r := [c] + ReplaceAll(u, AltNam, CanonNam);
    if StartsWith(r, AltNam) {
      var v := ReplaceAll(u, AltNam, CanonNam);
      assert r[1..] == v;
      assert v[0] == AltNam[1] && v[1] == AltNam[2] && v[2] == AltNam[3];
      ReplacedHead(u);
      var v1 := ReplaceAll(u[1..], AltNam, CanonNam);
      assert v1 == v[1..] && v1[0] == AltNam[2] && v1[1] == AltNam[3];
      ReplacedHead(u[1..]);
      var v2 := ReplaceAll(u[1..][1..], AltNam, CanonNam);
      assert v2 == v1[1..] && v2[0] == AltNam[3];
      ReplacedHead(u[1..][1..]);
      assert u[0] == AltNam[1] && u[1] == AltNam[2] && u[2] == AltNam[3];
      assert ([c] + u)[..4] == AltNam;
    }
  }

  /** Whatever follows the canonical spelling, the alternate one cannot start inside it. */
  lemma CanonThenClean(t: string)
    requires !Contains(t, AltNam)
    ensures !Contains(CanonNam + t, AltNam)
  {
    var r := CanonNam + t;
    var r2 := [CanonNam[2]] + t;
    assert r2[1..] == t;
    assert !Contains(r2, AltNam) by { assert r2[0] != AltNam[0]; }
    var r1 := CanonNam[1..] + t;
    assert r1[1..] == r2;
    assert !Contains(r1, AltNam) by { assert r1[0] != AltNam[0]; }
    assert r[1..] == r1;
    assert !StartsWith(r, AltNam) by { if |r| >= 4 { assert r[1] != AltNam[1]; } }
  }

  /** After the re-encoding no alternate spelling is left, not even one formed across a replacement. */
  lemma {:induction false} NoAltSpellingLeft(s: string)
    ensures !Contains(ReplaceAll(s, AltNam, CanonNam), AltNam)
    decreases |s|
  {
    if s == [] {
    } else if StartsWith(s, AltNam) {
      NoAltSpellingLeft(s[4..]);
      CanonThenClean(ReplaceAll(s[4..], AltNam, CanonNam));
    } else {
      var r := ReplaceAll(s, AltNam, CanonNam);
      NoAltSpellingLeft(s[1..]);
      assert r[1..] == ReplaceAll(s[1..], AltNam, CanonNam);
      HeadAlt(s[0], s[1..]);
      assert [s[0]] + s[1..] == s;
    }
  }

  /**
   * Where the first ')' of `s` lies, provided no '\n' comes before it: the
   * lazy `.*?` of `\(.*?\)` stops at the first ')', and `.` never matches '\n'.
   */
  function CloseIndex(s: string): (r: Option<nat>)
    ensures r.Some? ==> r.value < |s| && s[r.value] == ')'
    ensures r.Some? ==> forall k :: 0 <= k < r.value ==> s[k] != ')' && s[k] != '\n'
    decreases |s|
  {
    if s == [] then None
    else if s[0] == ')' then Some(0)
    else if s[0] == '\n' then None
    else match CloseIndex(s[1..])
      case None => None
      case Some(j) => Some(j + 1)
  }

  /** `re.sub(r"\(.*?\)", "", s)`. */
  function StripParens(s: string): string
    decreases |s|
  {
    if s == [] then []
    else if s[0] == '(' && CloseIndex(s[1..]).Some? then StripParens(s[CloseIndex(s[1..]).value + 2..])
    else [s[0]] + StripParens(s[1..])
  }

  /** No '(' of `s` is followed by a ')' before a line break. */
  predicate NoParenSpan(s: string) {
    forall i :: 0 <= i < |s| && s[i] == '(' ==> CloseIndex(s[i + 1..]).None?
  }

  /** Stripping cannot bring a ')' before the first line break. */
  lemma {:induction false} StripParensNoClose(t: string)
    requires CloseIndex(t).None?
    ensures CloseIndex(StripParens(t)).None?
    decreases |t|
  {
    if t != [] {
      assert t[0] != ')';
      if t[0] != '\n' {
        assert CloseIndex(t[1..]).None?;
        StripParensNoClose(t[1..]);
        assert StripParens(t) == [t[0]] + StripParens(t[1..]);
      }
    }
  }

  /** After stripping, no `(...)` span without a line break is left. */
  lemma {:induction false} StripParensComplete(s: string)
    ensures NoParenSpan(StripParens(s))
    decreases |s|
  {
    if s == [] {
    } else if s[0] == '(' && CloseIndex(s[1..]).Some? {
      StripParensComplete(s[CloseIndex(s[1..]).value + 2..]);
    } else {
      var t := StripParens(s[1..]);
      var r := [s[0]] + t;
      StripParensComplete(s[1..]);
      if s[0] == '(' {
        StripParensNoClose(s[1..]);
      }
      forall i | 0 <= i < |r| && r[i] == '('
        ensures CloseIndex(r[i + 1..]).None?
      {
        if i > 0 {
          assert r[i + 1..] == t[i..];
          assert t[i - 1] == '(';
        } else {
          assert r[1..] == t;
        }
      }
    }
  }

  /** A name without '(' is left as it is. */
  lemma {:induction false} StripParensNoOpen(s: string)
    requires '(' !in s
    ensures StripParens(s) == s
    decreases |s|
  {
    if s != [] {
      assert s[0] in s;
      StripParensNoOpen(s[1..]);
    }
  }

  predicate NoDoubleSpace(s: string) {
    forall i :: 0 <= i < |s| - 1 ==> !(IsSpace(s[i]) && IsSpace(s[i + 1]))
  }

  predicate OnlyPlainSpaces(s: string) {
    forall i :: 0 <= i < |s| && IsSpace(s[i]) ==> s[i] == ' '
  }

  /** `re.sub(r"\s+", " ", s)`: every maximal whitespace run becomes one space. */
  function CollapseSpaces(s: string): string
    decreases |s|
  {
    if s == [] then []
    else if IsSpace(s[0]) then [' '] + CollapseSpaces(s[SkipSpaces(s, 0)..])
    else [s[0]] + CollapseSpaces(s[1..])
  }

  /** The collapsed string has no whitespace pair and no whitespace but ' ', and keeps a visible first character. */
  lemma {:induction false} CollapsedShape(s: string)
    ensures NoDoubleSpace(CollapseSpaces(s)) && OnlyPlainSpaces(CollapseSpaces(s))
    ensures s != [] && !IsSpace(s[0]) ==> CollapseSpaces(s) != [] && CollapseSpaces(s)[0] == s[0]
    decreases |s|
  {
    if s != [] {
      var t := if IsSpace(s[0]) then s[SkipSpaces(s, 0)..] else s[1..];
      CollapsedShape(t);
      var c := CollapseSpaces(t);
      var r := CollapseSpaces(s);
      assert r == [r[0]] + c;
      forall i | 0 <= i < |r| - 1 ensures !(IsSpace(r[i]) && IsSpace(r[i + 1])) {
        if i > 0 {
          assert r[i] == c[i - 1] && r[i + 1] == c[i];
        }
      }
    }
  }

  /** Collapsing whitespace never removes a visible character. */
  lemma {:induction false} CollapseKeepsNonSpace(s: string)
    ensures NonSpace(CollapseSpaces(s)) == NonSpace(s)
    decreases |s|
  {
    if s != [] {
      var n := if IsSpace(s[0]) then SkipSpaces(s, 0) else 1;
      var t := s[n..];
      CollapseKeepsNonSpace(t);
      var head := if IsSpace(s[0]) then [' '] else [s[0]];
      assert CollapseSpaces(s) == head + CollapseSpaces(t);
      NonSpaceAppend(head, CollapseSpaces(t));
      assert s == s[..n] + t;
      NonSpaceAppend(s[..n], t);
      if IsSpace(s[0]) {
        NonSpaceOfSpaces(head);
        NonSpaceOfSpaces(s[..n]);
      } else {
        assert s[..n] == head;
      }
    }
  }

  /** Trimming a collapsed string keeps it collapsed. */
  lemma StripKeepsCollapsed(s: string)
    requires NoDoubleSpace(s) && OnlyPlainSpaces(s)
    ensures NoDoubleSpace(Strip(s)) && OnlyPlainSpaces(Strip(s))
  {
    var r := Strip(s);
    var i := SkipSpaces(s, 0);
    forall k | 0 <= k < |r| - 1 ensures !(IsSpace(r[k]) && IsSpace(r[k + 1])) {
      assert r[k] == s[i + k] && r[k + 1] == s[i + k + 1];
    }
    forall k | 0 <= k < |r| && IsSpace(r[k]) ensures r[k] == ' ' {
      assert r[k] == s[i + k];
    }
  }

  /** No character of `w` is whitespace. */
  predicate NoSpaceIn(w: string) {
    forall k :: 0 <= k < |w| ==> !IsSpace(w[k])
  }

  /** The first index at or after `i` that holds whitespace (or `|s|`): where the word at `i` ends. */
  function SkipWord(s: string, i: nat): (n: nat)
    requires i <= |s|
    ensures i <= n <= |s| && (n == |s| || IsSpace(s[n]))
    ensures forall k :: i <= k < n ==> !IsSpace(s[k])
    decreases |s| - i
  {
    if i < |s| && !IsSpace(s[i]) then SkipWord(s, i + 1) else i
  }

  /** The words of `s`: its maximal runs of non-whitespace characters, in order. */
  function Words(s: string): (ws: seq<string>)
    ensures forall k :: 0 <= k < |ws| ==> ws[k] != [] && NoSpaceIn(ws[k])
    decreases |s|
  {
    if s == [] then []
    else if IsSpace(s[0]) then Words(s[SkipSpaces(s, 0)..])
    else
      var n := SkipWord(s, 0);
      assert NoSpaceIn(s[..n]) by {
        forall k | 0 <= k < n ensures !IsSpace(s[..n][k]) { assert s[..n][k] == s[k]; }
      }
      [s[..n]] + Words(s[n..])
  }

  /** Words joined by single spaces. */
  function Join(ws: seq<string>): string
    decreases |ws|
  {
    if ws == [] then []
    else if |ws| == 1 then ws[0]
    else ws[0] + " " + Join(ws[1..])
  }

  /** Non-empty words without whitespace join into a trimmed string, empty only when there are no words. */
  lemma {:induction false} JoinTrimmed(ws: seq<string>)
    requires forall k :: 0 <= k < |ws| ==> ws[k] != [] && NoSpaceIn(ws[k])
    ensures Trimmed(Join(ws)) && (Join(ws) == [] <==> ws == [])
    decreases |ws|
  {
    if |ws| > 1 {
      JoinTrimmed(ws[1..]);
      var j := Join(ws[1..]);
      assert Join(ws) == ws[0] + " " + j;
      assert Join(ws)[0] == ws[0][0];
      assert Join(ws)[|Join(ws)| - 1] == j[|j| - 1];
    } else if |ws| == 1 {
      assert ws[0][0] == ws[0][0] && !IsSpace(ws[0][|ws[0]| - 1]);
    }
  }

  /** A word at the front passes through the collapsing unchanged. */
  lemma {:induction false} CollapseWord(w: string, rest: string)
    requires NoSpaceIn(w)
    ensures CollapseSpaces(w + rest) == w + CollapseSpaces(rest)
    decreases |w|
  {
    if w == [] {
      assert w + rest == rest;
    } else {
      CollapseWord(w[1..], rest);
      assert (w + rest)[1..] == w[1..] + rest;
      assert (w + rest)[0] == w[0];
    }
  }

  /**
   * Collapsing whitespace yields the words joined by single spaces, with at
   * most one space before (exactly when `t` starts with whitespace) and only
   * whitespace after.
   */
  lemma {:induction false} CollapseIsJoin(t: string) returns (a: string, b: string)
    ensures a == (if t != [] && IsSpace(t[0]) then " " else [])
    ensures AllSpace(b)
    ensures CollapseSpaces(t) == a + Join(Words(t)) + b
    decreases |t|
  {
    if t == [] {
      a, b := [], [];
    } else if IsSpace(t[0]) {
      var rest := t[SkipSpaces(t, 0)..];
      var a', b' := CollapseIsJoin(rest);
      assert a' == [];
      assert CollapseSpaces(t) == " " + CollapseSpaces(rest);
      assert Words(t) == Words(rest);
      a, b := " ", b';
      assert CollapseSpaces(rest) == Join(Words(rest)) + b';
    } else {
      var n := SkipWord(t, 0);
      var a', b' := CollapseIsJoin(t[n..]);
      b := CollapseWordThenJoin(t, n, a', b');
      a := [];
    }
  }

  /** The step of `CollapseIsJoin` for a string that starts with the word `t[..n]`. */
  lemma CollapseWordThenJoin(t: string, n: nat, a': string, b': string) returns (b: string)
    requires t != [] && !IsSpace(t[0]) && n == SkipWord(t, 0)
    requires a' == (if t[n..] != [] && IsSpace(t[n..][0]) then " " else [])
    requires AllSpace(b') && CollapseSpaces(t[n..]) == a' + Join(Words(t[n..])) + b'
    ensures AllSpace(b) && CollapseSpaces(t) == Join(Words(t)) + b
  {
    var w, rest := t[..n], t[n..];
    assert t == w + rest;
    assert NoSpaceIn(w) by {
      forall k | 0 <= k < |w| ensures !IsSpace(w[k]) { assert w[k] == t[k]; }
    }
    CollapseWord(w, rest);
    var ws := Words(rest);
    assert Words(t) == [w] + ws;
    if ws == [] {
      assert Join(Words(t)) == w;
      b := a' + b';
      assert CollapseSpaces(rest) == a' + b';
    } else {
      assert rest != [] && IsSpace(rest[0]);
      assert ([w] + ws)[1..] == ws;
      assert Join(Words(t)) == w + " " + Join(ws);
      b := b';
    }
  }

  /** Collapsing then trimming leaves the words of `t` joined by single spaces. */
  lemma StripCollapsedIsJoin(t: string)
    ensures Strip(CollapseSpaces(t)) == Join(Words(t))
  {
    var a, b := CollapseIsJoin(t);
    JoinTrimmed(Words(t));
    StripAround(a, Join(Words(t)), b);
  }

  /**
   * `_normalize_name`. An empty name gives ""; otherwise the result has no
   * leading, trailing or doubled whitespace, its only whitespace is ' ', and
   * it keeps every visible character that the first two stages left.
   */
  function NormalizeName(s: string): (r: string)
    ensures s == [] ==> r == []
    ensures Trimmed(r) && NoDoubleSpace(r) && OnlyPlainSpaces(r)
    ensures NonSpace(r) == NonSpace(StripParens(ReplaceAll(s, AltNam, CanonNam)))
    ensures r == Join(Words(StripParens(ReplaceAll(s, AltNam, CanonNam))))
  {
    if s == [] then []
    else
      var t := StripParens(ReplaceAll(s, AltNam, CanonNam));
      var collapsed := CollapseSpaces(t);
      CollapsedShape(t);
      CollapseKeepsNonSpace(t);
      StripKeepsCollapsed(collapsed);
      StripKeepsNonSpace(collapsed);
      StripCollapsedIsJoin(t);
      Strip(collapsed)
  }
}
