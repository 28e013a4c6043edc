/** Character classes and string operations that the router and the extractor rely on. */
module Text {

  /** `\d`, restricted to ASCII digits. */
  predicate IsDigit(c: char) {
    '0' <= c <= '9'
  }

  /** `\s` and `str.isspace()`: the characters Python counts as white space. */
  predicate IsSpace(c: char) {
    || c == ' '
    || '\t' <= c <= '\r'
    || '\U{1C}' <= c <= '\U{1F}'
    || c == '\U{85}' || c == '\U{A0}' || c == '\U{1680}'
    || '\U{2000}' <= c <= '\U{200A}'
    || c == '\U{2028}' || c == '\U{2029}' || c == '\U{202F}' || c == '\U{205F}' || c == '\U{3000}'
  }

  /** `w` occurs in `s` at position `k`. */
  predicate OccursAt(s: string, k: int, w: string) {
    0 <= k && k + |w| <= |s| && s[k..k + |w|] == w
  }

  /** Python's substring test `w in s`. */
  predicate Contains(s: string, w: string) {
    exists k | 0 <= k <= |s| - |w| :: OccursAt(s, k, w)
  }

  /** Python's `any(w in s for w in words)`. */
  predicate ContainsAny(s: string, words: seq<string>) {
    exists j | 0 <= j < |words| :: Contains(s, words[j])
  }

  lemma ContainsWitness(s: string, k: int, w: string)
    requires OccursAt(s, k, w)
    ensures Contains(s, w)
  {
  }

  /** Both halves of a piece of a concatenation are found in it. */
  lemma ContainsPieces(before: string, v: string, w: string, after: string)
    ensures Contains(before + (v + w) + after, v)
    ensures Contains(before + (v + w) + after, w)
  {
    var s := before + (v + w) + after;
    assert s[|before|..|before| + |v|] == v;
    assert s[|before| + |v|..|before| + |v| + |w|] == w;
    ContainsWitness(s, |before|, v);
    ContainsWitness(s, |before| + |v|, w);
  }

  /** A word found inside a found word is found too, so substring tests fire on parts of words. */
  lemma ContainsInside(s: string, outer: string, inner: string, d: nat)
    requires Contains(s, outer) && OccursAt(outer, d, inner)
    ensures Contains(s, inner)
  {
    var k :| 0 <= k <= |s| - |outer| && OccursAt(s, k, outer);
    assert s[k..k + |outer|] == outer;
    forall p | 0 <= p < |inner| ensures s[k + d + p] == inner[p] {
      assert s[k..k + |outer|][d + p] == outer[d + p];
      assert outer[d..d + |inner|][p] == outer[d + p];
    }
    assert s[k + d..k + d + |inner|] == inner;
    ContainsWitness(s, k + d, inner);
  }

  /** A word whose first letter never appears in `s` does not occur in `s`. */
  lemma AbsentFirstLetter(s: string, w: string)
    requires |w| > 0 && w[0] !in s
    ensures !Contains(s, w)
  {
  }

  /** `str.lower()` on one character: ASCII and Latin-1 capitals move to their small letters. */
  function LowerChar(c: char): (r: char)
    ensures 'A' <= c <= 'Z' ==> 'a' <= r <= 'z'
    ensures !('A' <= c <= 'Z') && !('\U{C0}' <= c <= '\U{DE}') ==> r == c
  {
    if 'A' <= c <= 'Z' || ('\U{C0}' <= c <= '\U{DE}' && c != '\U{D7}') then
      (c as int + 32) as char
    else
      c
  }

  /** `str.lower()`, character by character. */
  function Lower(s: string): (r: string)
    ensures |r| == |s|
  {
    seq(|s|, i requires 0 <= i < |s| => LowerChar(s[i]))
  }

  /** Lower-casing twice is lower-casing once. */
  lemma LowerIdempotent(s: string)
    ensures Lower(Lower(s)) == Lower(s)
  {
    assert forall i :: 0 <= i < |s| ==> Lower(Lower(s))[i] == LowerChar(LowerChar(s[i])) == Lower(s)[i];
  }

  /** `sep.join(lines)`. */
  function Join(lines: seq<string>, sep: char): string
  {
    if |lines| == 0 then ""
    else if |lines| == 1 then lines[0]
    else lines[0] + [sep] + Join(lines[1..], sep)
  }

  /** `s.split(sep)`: always at least one piece, empty pieces kept. */
  function Split(s: string, sep: char): (r: seq<string>)
    ensures |r| >= 1
  {
    if |s| == 0 then [""]
    else
      var rest := Split(s[1..], sep);
      if s[0] == sep then [""] + rest
      else [[s[0]] + rest[0]] + rest[1..]
  }

  /** A piece without the separator splits to itself. */
  lemma {:induction false} SplitPlain(x: string, sep: char)
    requires sep !in x
    ensures Split(x, sep) == [x]
  {
    if |x| > 0 {
      SplitPlain(x[1..], sep);
      assert [x[0]] + x[1..] == x;
    }
  }

  /** Splitting `x + sep + rest` peels off `x` when `x` holds no separator. */
  lemma {:induction false} SplitAfterPiece(x: string, sep: char, rest: string)
    requires sep !in x
    ensures Split(x + [sep] + rest, sep) == [x] + Split(rest, sep)
  {
    if |x| == 0 {
      assert x + [sep] + rest == [sep] + rest;
      assert ([sep] + rest)[1..] == rest;
    } else {
      SplitAfterPiece(x[1..], sep, rest);
      assert (x + [sep] + rest)[1..] == x[1..] + [sep] + rest;
      assert [x[0]] + x[1..] == x;
    }
  }

  /** `split` undoes `join` when no line holds the separator. */
  lemma {:induction false} SplitJoin(lines: seq<string>, sep: char)
    requires |lines| >= 1
    requires forall j :: 0 <= j < |lines| ==> sep !in lines[j]
    ensures Split(Join(lines, sep), sep) == lines
  {
    if |lines| == 1 {
      SplitPlain(lines[0], sep);
    } else {
      SplitJoin(lines[1..], sep);
      SplitAfterPiece(lines[0], sep, Join(lines[1..], sep));
      assert [lines[0]] + lines[1..] == lines;
    }
  }
}
