/**
 * Hand-written leftmost matchers for the regular expressions the preference
 * extractor runs (`re.findall` / `re.search`), and the decimal values of the
 * groups they capture.  Each matcher scans start positions from left to right,
 * exactly as Python's engine does; the lemmas at the end show that the greedy
 * scan captures the only group the regular expression admits.
 */
module Patterns {
  import opened Wrappers
  import opened Text

  predicate AllDigits(t: string) {
    forall k :: 0 <= k < |t| ==> IsDigit(t[k])
  }

  predicate AllSpace(t: string) {
    forall k :: 0 <= k < |t| ==> IsSpace(t[k])
  }

  /** The whole of `t` matches `\d+\.?\d*`. */
  predicate IsNumberToken(t: string) {
    && |t| > 0
    && IsDigit(t[0])
    && (AllDigits(t) || exists d :: 0 < d < |t| && t[d] == '.' && AllDigits(t[..d]) && AllDigits(t[d + 1..]))
  }

  /** End of the run of digits that starts at `i` (greedy `\d*`). */
  function DigitRunEnd(s: string, i: nat): (e: nat)
    requires i <= |s|
    ensures i <= e <= |s|
    ensures forall k :: i <= k < e ==> IsDigit(s[k])
    ensures e == |s| || !IsDigit(s[e])
    decreases |s| - i
  {
    if i < |s| && IsDigit(s[i]) then DigitRunEnd(s, i + 1) else i
  }

  /** End of the run of white space that starts at `i` (greedy `\s*`). */
  function SpaceRunEnd(s: string, i: nat): (e: nat)
    requires i <= |s|
    ensures i <= e <= |s|
    ensures forall k :: i <= k < e ==> IsSpace(s[k])
    ensures e == |s| || !IsSpace(s[e])
    decreases |s| - i
  {
    if i < |s| && IsSpace(s[i]) then SpaceRunEnd(s, i + 1) else i
  }

  /** End of the greedy `\d+\.?\d*` that starts at the digit `s[i]`. */
  function NumberEnd(s: string, i: nat): (e: nat)
    requires i < |s| && IsDigit(s[i])
    ensures i < e <= |s|
    ensures IsNumberToken(s[i..e])
  {
    var d := DigitRunEnd(s, i);
    if d < |s| && s[d] == '.' then
      var e := DigitRunEnd(s, d + 1);
      assert s[i..e][d - i] == '.' && s[i..e][..d - i] == s[i..d] && s[i..e][d - i + 1..] == s[d + 1..e];
      e
    else
      d
  }

  /** `(?:mil|k)` at position `k`. */
  predicate UnitAt(s: string, k: nat) {
    OccursAt(s, k, "mil") || OccursAt(s, k, "k")
  }

  /** `(?:w1|w2|...)` at position `k`. */
  predicate AnyWordAt(s: string, k: nat, words: seq<string>) {
    exists j | 0 <= j < |words| :: OccursAt(s, k, words[j])
  }

  /** The regular expressions of the extractor. */
  datatype Pattern =
    | AmountWithUnit            // (\d+\.?\d*)\s*(?:mil|k)\s*(?:bs|bolivianos)?
    | LongAmount                // (\d{4,})\s*(?:bs|bolivianos)?
    | Between                   // entre\s*(\d+\.?\d*)\s*y\s*(\d+\.?\d*)
    | CountBefore(words: seq<string>)  // (\d+)\s*(?:w1|w2|...)

  /** Where the first number of `entre N y M` starts, for a match at `i`. */
  function BetweenFirst(s: string, i: nat): nat
    requires i + 5 <= |s|
  {
    SpaceRunEnd(s, i + 5)
  }

  /** Where the `y` of `entre N y M` stands, once the first number is known. */
  function BetweenConnective(s: string, a: nat): nat
    requires a < |s| && IsDigit(s[a])
  {
    SpaceRunEnd(s, NumberEnd(s, a))
  }

  /** Where the second number of `entre N y M` starts, once the `y` is known. */
  function BetweenSecond(s: string, y: nat): nat
    requires y < |s|
  {
    SpaceRunEnd(s, y + 1)
  }

  /** The pattern matches with its match starting at position `i`. */
  predicate MatchesAt(p: Pattern, s: string, i: nat)
    requires i <= |s|
  {
    match p
    case AmountWithUnit =>
      i < |s| && IsDigit(s[i]) && UnitAt(s, SpaceRunEnd(s, NumberEnd(s, i)))
    case LongAmount =>
      DigitRunEnd(s, i) >= i + 4
    case Between =>
      && OccursAt(s, i, "entre")
      && var a := BetweenFirst(s, i);
      && a < |s| && IsDigit(s[a])
      && var y := BetweenConnective(s, a);
      && y < |s| && s[y] == 'y'
      && var b := BetweenSecond(s, y);
      && b < |s| && IsDigit(s[b])
    case CountBefore(words) =>
      i < |s| && IsDigit(s[i]) && AnyWordAt(s, SpaceRunEnd(s, DigitRunEnd(s, i)), words)
  }

  /** Whether `p` matches at each start position `0..|s|` of `s`. */
  function Hits(p: Pattern, s: string): (r: seq<bool>)
    ensures |r| == |s| + 1
  {
    seq(|s| + 1, j requires 0 <= j <= |s| => MatchesAt(p, s, j))
  }

  /** The first start position at or after `from` that is a hit. */
  function FirstHit(hits: seq<bool>, from: nat): (r: Option<nat>)
    requires from <= |hits|
    ensures r.Some? ==> from <= r.value < |hits| && hits[r.value]
    decreases |hits| - from
  {
    if from == |hits| then None
    else if hits[from] then Some(from)
    else FirstHit(hits, from + 1)
  }

  lemma {:induction false} FirstHitNone(hits: seq<bool>, from: nat)
    requires from <= |hits|
    ensures FirstHit(hits, from).None? <==> forall j :: from <= j < |hits| ==> !hits[j]
    decreases |hits| - from
  {
    if from < |hits| && !hits[from] {
      FirstHitNone(hits, from + 1);
    }
  }

  lemma {:induction false} FirstHitEarliest(hits: seq<bool>, from: nat, i: nat)
    requires from <= |hits| && FirstHit(hits, from) == Some(i)
    ensures forall j :: from <= j < i ==> !hits[j]
    decreases |hits| - from
  {
    if !hits[from] {
      FirstHitEarliest(hits, from + 1, i);
    }
  }

  /** The leftmost match of `p` at or after `from`, as `re.search` finds it: start positions
      are tried from left to right. */
  function Leftmost(p: Pattern, s: string, from: nat): (r: Option<nat>)
    requires from <= |s|
    ensures r.Some? ==> from <= r.value <= |s| && MatchesAt(p, s, r.value)
  {
    FirstHit(Hits(p, s), from)
  }

  /** The search finds nothing exactly when no position matches, and otherwise it finds the
      leftmost position that matches. */
  lemma LeftmostSpec(p: Pattern, s: string, from: nat)
    requires from <= |s|
    ensures Leftmost(p, s, from).None? <==> forall j :: from <= j <= |s| ==> !MatchesAt(p, s, j)
    ensures Leftmost(p, s, from).Some? ==> forall j :: from <= j < Leftmost(p, s, from).value ==> !MatchesAt(p, s, j)
  {
    var hits := Hits(p, s);
    assert forall j :: 0 <= j <= |s| ==> (hits[j] <==> MatchesAt(p, s, j));
    FirstHitNone(hits, from);
    if FirstHit(hits, from).Some? {
      FirstHitEarliest(hits, from, FirstHit(hits, from).value);
    }
  }

  /** The leftmost match of `p` anywhere in `s`. */
  function Search(p: Pattern, s: string): (r: Option<nat>)
    ensures r.Some? ==> r.value <= |s| && MatchesAt(p, s, r.value)
  {
    Leftmost(p, s, 0)
  }

  lemma {:induction false} FirstHitAt(hits: seq<bool>, from: nat, i: nat)
    requires from <= i < |hits| && hits[i]
    requires forall j :: from <= j < i ==> !hits[j]
    ensures FirstHit(hits, from) == Some(i)
    decreases i - from
  {
    if from < i {
      FirstHitAt(hits, from + 1, i);
    }
  }

  /** A position that matches, with no match before it, is what the search returns. */
  lemma SearchFinds(p: Pattern, q: string, i: nat)
    requires i <= |q| && MatchesAt(p, q, i)
    requires forall j :: 0 <= j < i ==> !MatchesAt(p, q, j)
    ensures Search(p, q) == Some(i)
  {
    var hits := Hits(p, q);
    assert forall j :: 0 <= j <= |q| ==> (hits[j] <==> MatchesAt(p, q, j));
    FirstHitAt(hits, 0, i);
  }

  function Pow10(n: nat): (r: nat)
    ensures r >= 1
  {
    if n == 0 then 1 else 10 * Pow10(n - 1)
  }

  /** `int(t)` for a string of decimal digits. */
  function DigitsValue(t: string): (v: nat)
    requires AllDigits(t)
    ensures v < Pow10(|t|)
  {
    if |t| == 0 then 0
    else DigitsValue(t[..|t| - 1]) * 10 + (t[|t| - 1] as int - '0' as int)
  }

  /** `int(...)` of the digit run starting at `i`. */
  function IntegerAt(s: string, i: nat): nat
    requires i <= |s|
  {
    var e := DigitRunEnd(s, i);
    assert AllDigits(s[i..e]);
    DigitsValue(s[i..e])
  }

  /** `float(...)` of the `\d+\.?\d*` token starting at the digit `s[i]`, in exact arithmetic. */
  function NumberValue(s: string, i: nat): (v: real)
    requires i < |s| && IsDigit(s[i])
    ensures v >= IntegerAt(s, i) as real >= 0.0
  {
    var d := DigitRunEnd(s, i);
    if d < |s| && s[d] == '.' then
      IntegerAt(s, i) as real + IntegerAt(s, d + 1) as real / Pow10(DigitRunEnd(s, d + 1) - d - 1) as real
    else
      IntegerAt(s, i) as real
  }

  // ---------------------------------------------------------------------------
  // The greedy scan captures what the regular expressions capture.
  // ---------------------------------------------------------------------------

  /** A `\d+\.?\d*` token from `i` to `j` never ends past the greedy end, and ends exactly
      there when the next character can neither extend it nor be a decimal point. */
  lemma {:induction false} NumberTokenEnd(s: string, i: nat, j: nat)
    requires i < j <= |s| && IsNumberToken(s[i..j])
    ensures IsDigit(s[i])
    ensures j <= NumberEnd(s, i)
    ensures j == |s| || (!IsDigit(s[j]) && s[j] != '.') ==> j == NumberEnd(s, i)
  {
    assert s[i..j][0] == s[i];
    if AllDigits(s[i..j]) {
      DigitsTo(s, i, j);
    } else {
      var t := s[i..j];
      var dd :| 0 < dd < |t| && t[dd] == '.' && AllDigits(t[..dd]) && AllDigits(t[dd + 1..]);
      assert t[..dd] == s[i..i + dd] && t[dd + 1..] == s[i + dd + 1..j];
      NumberTokenWithPoint(s, i, i + dd, j);
    }
  }

  /** A run of digits from `i` to `j` is no longer than the greedy run, and ends where it ends
      when the next character is not a digit. */
  lemma DigitsTo(s: string, i: nat, j: nat)
    requires i <= j <= |s| && AllDigits(s[i..j])
    ensures j <= DigitRunEnd(s, i)
    ensures j == |s| || !IsDigit(s[j]) ==> DigitRunEnd(s, i) == j
  {
    assert forall p :: i <= p < j ==> IsDigit(s[p]) by {
      forall p | i <= p < j ensures IsDigit(s[p]) { assert s[i..j][p - i] == s[p]; }
    }
  }

  /** The token case with a decimal point at `d`. */
  lemma NumberTokenWithPoint(s: string, i: nat, d: nat, j: nat)
    requires i < d < j <= |s| && s[d] == '.' && AllDigits(s[i..d]) && AllDigits(s[d + 1..j])
    ensures j <= NumberEnd(s, i)
    ensures j == |s| || (!IsDigit(s[j]) && s[j] != '.') ==> j == NumberEnd(s, i)
  {
    DigitsTo(s, i, d);
    DigitsTo(s, d + 1, j);
  }

  /** A run of white space from `j` to `k` followed by a non-space ends where the greedy `\s*` ends. */
  lemma SpaceRunTo(s: string, j: nat, k: nat)
    requires j <= k <= |s| && AllSpace(s[j..k])
    requires k == |s| || !IsSpace(s[k])
    ensures SpaceRunEnd(s, j) == k
  {
    assert forall p :: j <= p < k ==> IsSpace(s[p]) by {
      forall p | j <= p < k ensures IsSpace(s[p]) { assert s[j..k][p - j] == s[p]; }
    }
  }

  lemma FirstLetter(s: string, k: nat, w: string)
    requires OccursAt(s, k, w) && |w| > 0
    ensures s[k] == w[0]
  {
    assert s[k..k + |w|][0] == s[k];
  }

  /** `(\d{4,})` can match from `i` to `j`: four or more digits. */
  ghost predicate LongAmountSpan(s: string, i: nat, j: nat) {
    i + 4 <= j <= |s| && AllDigits(s[i..j])
  }

  /** The scan matches at `i` exactly when `(\d{4,})` does, and the group it captures is the
      longest span the expression admits there, which the greedy engine takes (the optional
      unit after it never makes the engine give digits back). */
  lemma LongAmountExact(s: string, i: nat, j: nat)
    requires i <= |s|
    ensures MatchesAt(LongAmount, s, i) ==> LongAmountSpan(s, i, DigitRunEnd(s, i))
    ensures LongAmountSpan(s, i, j) ==> MatchesAt(LongAmount, s, i) && j <= DigitRunEnd(s, i)
  {
    var e := DigitRunEnd(s, i);
    if MatchesAt(LongAmount, s, i) {
      forall p | 0 <= p < e - i ensures IsDigit(s[i..e][p]) { assert s[i..e][p] == s[i + p]; }
    }
    if LongAmountSpan(s, i, j) {
      DigitsTo(s, i, j);
    }
  }

  /** Python's engine finds `(\d+\.?\d*)\s*(?:mil|k)` starting at `i`, its group ending at `j`
      and the unit starting at `k`. */
  ghost predicate AmountWithUnitSpan(s: string, i: nat, j: nat, k: nat) {
    i < j <= k <= |s| && IsNumberToken(s[i..j]) && AllSpace(s[j..k]) && UnitAt(s, k)
  }

  /** The scan matches at `i` exactly when the regular expression does, and the group it
      captures is the only one the regular expression admits there. */
  lemma AmountWithUnitExact(s: string, i: nat, j: nat, k: nat)
    requires i <= |s|
    ensures MatchesAt(AmountWithUnit, s, i) ==>
              AmountWithUnitSpan(s, i, NumberEnd(s, i), SpaceRunEnd(s, NumberEnd(s, i)))
    ensures AmountWithUnitSpan(s, i, j, k) ==>
              MatchesAt(AmountWithUnit, s, i) && j == NumberEnd(s, i) && k == SpaceRunEnd(s, j)
  {
    if MatchesAt(AmountWithUnit, s, i) {
      var e := NumberEnd(s, i);
      var m := SpaceRunEnd(s, e);
      assert AllSpace(s[e..m]) by {
        forall p | 0 <= p < m - e ensures IsSpace(s[e..m][p]) { assert s[e..m][p] == s[e + p]; }
      }
    }
    if AmountWithUnitSpan(s, i, j, k) {
      if OccursAt(s, k, "mil") { FirstLetter(s, k, "mil"); } else { FirstLetter(s, k, "k"); }
      if j < k { assert s[j..k][0] == s[j]; }
      NumberTokenEnd(s, i, j);
      SpaceRunTo(s, j, k);
    }
  }

  /** Python's engine finds `(\d+)\s*(?:w1|w2|...)` starting at `i`, its group ending at `j`
      and the word starting at `k`. */
  ghost predicate CountSpan(s: string, words: seq<string>, i: nat, j: nat, k: nat) {
    i < j <= k <= |s| && AllDigits(s[i..j]) && AllSpace(s[j..k]) && AnyWordAt(s, k, words)
  }

  /** Words that begin with a letter that is neither a digit nor white space. */
  predicate Keywords(words: seq<string>) {
    forall j :: 0 <= j < |words| ==> |words[j]| > 0 && !IsDigit(words[j][0]) && !IsSpace(words[j][0])
  }

  /** The scan matches at `i` exactly when the regular expression does, and the digits it
      captures are the only group the regular expression admits there. */
  lemma CountBeforeExact(s: string, words: seq<string>, i: nat, j: nat, k: nat)
    requires i <= |s| && Keywords(words)
    ensures MatchesAt(CountBefore(words), s, i) ==>
              CountSpan(s, words, i, DigitRunEnd(s, i), SpaceRunEnd(s, DigitRunEnd(s, i)))
    ensures CountSpan(s, words, i, j, k) ==>
              MatchesAt(CountBefore(words), s, i) && j == DigitRunEnd(s, i) && k == SpaceRunEnd(s, j)
  {
    if MatchesAt(CountBefore(words), s, i) {
      var e := DigitRunEnd(s, i);
      var m := SpaceRunEnd(s, e);
      assert AllDigits(s[i..e]) by {
        forall p | 0 <= p < e - i ensures IsDigit(s[i..e][p]) { assert s[i..e][p] == s[i + p]; }
      }
      assert AllSpace(s[e..m]) by {
        forall p | 0 <= p < m - e ensures IsSpace(s[e..m][p]) { assert s[e..m][p] == s[e + p]; }
      }
    }
    if CountSpan(s, words, i, j, k) {
      var w :| 0 <= w < |words| && OccursAt(s, k, words[w]);
      FirstLetter(s, k, words[w]);
      if j < k { assert s[j..k][0] == s[j]; }
      assert forall p :: i <= p < j ==> IsDigit(s[p]) by {
        forall p | i <= p < j ensures IsDigit(s[p]) { assert s[i..j][p - i] == s[p]; }
      }
      assert s[i..j][0] == s[i];
      SpaceRunTo(s, j, k);
    }
  }

  /** Python's engine finds `entre\s*(\d+\.?\d*)\s*y\s*(\d+\.?\d*)` starting at `i`: the first
      group spans `a..e1`, the `y` stands at `y`, the second group spans `b..e2`. */
  ghost predicate BetweenSpan(s: string, i: nat, a: nat, e1: nat, y: nat, b: nat, e2: nat) {
    && OccursAt(s, i, "entre")
    && i + 5 <= a < e1 <= y < b < e2 <= |s|
    && AllSpace(s[i + 5..a]) && IsNumberToken(s[a..e1])
    && AllSpace(s[e1..y]) && s[y] == 'y'
    && AllSpace(s[y + 1..b]) && IsNumberToken(s[b..e2])
  }

  lemma AllSpaceRun(s: string, j: nat)
    requires j <= |s|
    ensures AllSpace(s[j..SpaceRunEnd(s, j)])
  {
    var m := SpaceRunEnd(s, j);
    forall p | 0 <= p < m - j ensures IsSpace(s[j..m][p]) { assert s[j..m][p] == s[j + p]; }
  }

  /** Where the scan matches, the regular expression matches with the scanned spans. */
  lemma BetweenFound(s: string, i: nat)
    requires i <= |s| && MatchesAt(Between, s, i)
    ensures var a := BetweenFirst(s, i);
            var y := BetweenConnective(s, a);
            var b := BetweenSecond(s, y);
            BetweenSpan(s, i, a, NumberEnd(s, a), y, b, NumberEnd(s, b))
  {
    var a := BetweenFirst(s, i);
    var y := BetweenConnective(s, a);
    AllSpaceRun(s, i + 5);
    AllSpaceRun(s, NumberEnd(s, a));
    AllSpaceRun(s, y + 1);
  }

  /** Wherever the regular expression matches, the scan matches too: the first number, the
      `y` and the start of the second number are forced, and the second group is at most the
      longest token there, which is the one the greedy engine takes. */
  lemma BetweenForced(s: string, i: nat, a: nat, e1: nat, y: nat, b: nat, e2: nat)
    requires BetweenSpan(s, i, a, e1, y, b, e2)
    ensures MatchesAt(Between, s, i)
    ensures a == BetweenFirst(s, i) && e1 == NumberEnd(s, a)
    ensures y == BetweenConnective(s, a) && b == BetweenSecond(s, y)
    ensures e2 <= NumberEnd(s, b)
  {
    SpaceRunTo(s, i + 5, a);
    FirstNumberForced(s, a, e1, y);
    SpaceRunTo(s, e1, y);
    SpaceRunTo(s, y + 1, b);
    NumberTokenEnd(s, b, e2);
    assert BetweenConnective(s, a) == y;
  }

  /** The first number of a range ends at white space or at the `y`, so the greedy scan ends
      there too. */
  lemma FirstNumberForced(s: string, a: nat, e1: nat, y: nat)
    requires a < e1 <= y < |s| && IsNumberToken(s[a..e1]) && AllSpace(s[e1..y]) && s[y] == 'y'
    ensures e1 == NumberEnd(s, a)
  {
    NumberTokenEnd(s, a, e1);
    if e1 < y { assert s[e1..y][0] == s[e1]; }
  }
}
