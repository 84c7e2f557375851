/**
  The string operations of Python that the program relies on, written out:
  `str.strip`, `str.replace`, `str.join`, `str.lower` as far as it matters,
  and the ordering `<` on strings.
*/
module Text {

  /**
    Python's `str.isspace`, which is also what `\s` matches in a `re` pattern
    over `str`: the ASCII whitespace characters 9-13 and space, the separators
    0x1C-0x1F, and the Unicode spaces and line/paragraph separators.
  */
  predicate IsSpace(c: char) {
    c == ' ' || ('\t' <= c <= '\r') || ('\U{1C}' <= c <= '\U{1F}')
    || c == '\U{85}' || c == '\U{A0}' || c == '\U{1680}'
    || ('\U{2000}' <= c <= '\U{200A}') || c == '\U{2028}' || c == '\U{2029}'
    || c == '\U{202F}' || c == '\U{205F}' || c == '\U{3000}'
  }

  predicate AllSpace(s: string) {
    forall k :: 0 <= k < |s| ==> IsSpace(s[k])
  }

  /** Length of the run of whitespace that starts `s`. */
  function LeadingSpace(s: string): (n: nat)
    ensures n <= |s|
    ensures AllSpace(s[..n])
    ensures n < |s| ==> !IsSpace(s[n])
  {
    if s == [] || !IsSpace(s[0]) then 0
    else
      var n := LeadingSpace(s[1..]);
      assert s[..n + 1] == [s[0]] + s[1..][..n];
      n + 1
  }

  /** Length of the run of whitespace that ends `s`. */
  function TrailingSpace(s: string): (n: nat)
    ensures n <= |s|
    ensures AllSpace(s[|s| - n..])
    ensures n < |s| ==> !IsSpace(s[|s| - n - 1])
  {
    if s == [] || !IsSpace(s[|s| - 1]) then 0
    else
      var t := s[..|s| - 1];
      var n := TrailingSpace(t);
      assert s[|s| - (n + 1)..] == t[|t| - n..] + [s[|s| - 1]];
      n + 1
  }

  /**
    `s.strip()`: the longest slice of `s` that neither starts nor ends with
    whitespace, once only whitespace has been cut from either end.
  */
  function Strip(s: string): (r: string)
    ensures exists i, j :: 0 <= i <= j <= |s| && r == s[i..j]
                           && AllSpace(s[..i]) && AllSpace(s[j..])
    ensures r != [] ==> !IsSpace(r[0]) && !IsSpace(r[|r| - 1])
  {
    var i := LeadingSpace(s);
    var t := s[i..];
    var n := TrailingSpace(t);
    var j := |s| - n;
    assert t[..|t| - n] == s[i..j];
    assert t[|t| - n..] == s[j..];
    s[i..j]
  }

  /** `not s.strip()`: the string holds nothing but whitespace. */
  predicate IsBlank(s: string) {
    Strip(s) == []
  }

  lemma BlankIsAllSpace(s: string)
    requires IsBlank(s)
    ensures AllSpace(s)
  {
    var i, j :| 0 <= i <= j <= |s| && Strip(s) == s[i..j] && AllSpace(s[..i]) && AllSpace(s[j..]);
    forall k | 0 <= k < |s| ensures IsSpace(s[k]) {
      if k < i { assert s[k] == s[..i][k]; } else { assert s[k] == s[j..][k - j]; }
    }
  }

  lemma NonBlankHasNonSpace(s: string)
    requires !IsBlank(s)
    ensures !AllSpace(s)
  {
    var r := Strip(s);
    var i, j :| 0 <= i <= j <= |s| && r == s[i..j] && AllSpace(s[..i]) && AllSpace(s[j..]);
    assert r[0] == s[i];
    assert !IsSpace(s[i]);
  }

  lemma BlankIffAllSpace(s: string)
    ensures IsBlank(s) <==> AllSpace(s)
  {
    if IsBlank(s) { BlankIsAllSpace(s); } else { NonBlankHasNonSpace(s); }
  }

  /** `pat` occurs in `s` (Python's `pat in s`). */
  predicate Occurs(s: string, pat: string) {
    exists i :: 0 <= i <= |s| && OccursAt(s, pat, i)
  }

  predicate OccursAt(s: string, pat: string, i: nat) {
    i + |pat| <= |s| && s[i..i + |pat|] == pat
  }

  /**
    `s.replace(pat, rep)` for a non-empty `pat`: scanning from the left, each
    occurrence of `pat` is replaced and the scan resumes after it.
  */
  function ReplaceAll(s: string, pat: string, rep: string): (r: string)
    requires pat != []
    ensures !Occurs(s, pat) ==> r == s
    decreases |s|
  {
    if |pat| <= |s| && s[..|pat|] == pat then
      assert OccursAt(s, pat, 0);
      rep + ReplaceAll(s[|pat|..], pat, rep)
    else if s == [] then []
    else
      assert !Occurs(s, pat) ==> !Occurs(s[1..], pat) by {
        if Occurs(s[1..], pat) {
          var t := s[1..];
          var i: nat :| i <= |t| && OccursAt(t, pat, i);
          assert i + |pat| <= |t| && t[i..i + |pat|] == pat;
          assert s[i + 1..i + 1 + |pat|] == t[i..i + |pat|];
          assert OccursAt(s, pat, i + 1);
        }
      }
      [s[0]] + ReplaceAll(s[1..], pat, rep)
  }

  /** `sep.join(xs)`. */
  function Join(sep: string, xs: seq<string>): string {
    if xs == [] then ""
    else if |xs| == 1 then xs[0]
    else xs[0] + sep + Join(sep, xs[1..])
  }

  /** Regrouping a concatenation: what lets an appended piece join the text appended so far. */
  lemma ConcatAssoc(a: string, b: string, c: string)
    ensures a + b + c == a + (b + c)
  {
  }

  /** Appending three pieces one by one appends their concatenation. */
  lemma AppendThree(a: string, x: string, y: string, z: string)
    ensures a + x + y + z == a + (x + y + z)
  {
  }

  /** A slice of `b` is the same slice of `a + b`, moved right by `|a|`. */
  lemma SliceShift(a: string, b: string, i: nat, j: nat)
    requires i <= j <= |b|
    ensures (a + b)[|a| + i..|a| + j] == b[i..j]
  {
  }

  /** A slice inside a known prefix of `s` is the same slice of that prefix. */
  lemma SliceWithinPrefix(s: string, p: string, i: nat, j: nat)
    requires |p| <= |s| && s[..|p|] == p && i <= j <= |p|
    ensures s[i..j] == p[i..j]
  {
    forall x | 0 <= x < j - i
      ensures s[i..j][x] == p[i..j][x]
    {
      assert s[i + x] == s[..|p|][i + x];
    }
  }

  /** The concatenation of `f(x)` for every `x` of `xs`, in order. */
  function ConcatMap<T>(xs: seq<T>, f: T -> string): string {
    if xs == [] then "" else ConcatMap(xs[..|xs| - 1], f) + f(xs[|xs| - 1])
  }

  lemma ConcatMapSnoc<T>(xs: seq<T>, i: nat, f: T -> string)
    requires i < |xs|
    ensures ConcatMap(xs[..i + 1], f) == ConcatMap(xs[..i], f) + f(xs[i])
  {
    assert xs[..i + 1][..i] == xs[..i];
  }

  /** All of `ts` concatenated, in order. */
  function Concat(ts: seq<string>): string {
    if ts == [] then "" else Concat(ts[..|ts| - 1]) + ts[|ts| - 1]
  }

  lemma ConcatSnoc(ts: seq<string>, i: nat)
    requires i < |ts|
    ensures Concat(ts[..i + 1]) == Concat(ts[..i]) + ts[i]
  {
    assert ts[..i + 1][..i] == ts[..i];
  }

  /** Concatenating the first `n` pieces gives a prefix of concatenating all of them. */
  lemma {:induction false} ConcatPrefix(ts: seq<string>, n: nat)
    requires n <= |ts|
    ensures |Concat(ts[..n])| <= |Concat(ts)|
    ensures Concat(ts)[..|Concat(ts[..n])|] == Concat(ts[..n])
    decreases |ts|
  {
    if n < |ts| {
      var init := ts[..|ts| - 1];
      ConcatPrefix(init, n);
      assert init[..n] == ts[..n];
      var whole := Concat(init) + ts[|ts| - 1];
      assert whole[..|Concat(init)|] == Concat(init);
    } else {
      assert ts[..n] == ts;
    }
  }

  /** Piece `n` stands in the concatenation right after the pieces before it. */
  lemma PieceAt(ts: seq<string>, n: nat, k: nat)
    requires n < |ts| && k <= |ts[n]|
    ensures var o := |Concat(ts[..n])|;
            o + k <= |Concat(ts)| && Concat(ts)[o..o + k] == ts[n][..k]
  {
    var before := Concat(ts[..n]);
    ConcatPrefix(ts, n + 1);
    ConcatSnoc(ts, n);
    SliceShift(before, ts[n], 0, k);
    SliceWithinPrefix(Concat(ts), before + ts[n], |before|, |before| + k);
  }

  /** Behind a fixed head `h`, piece `n` stands right after the pieces before it. */
  lemma PieceBehindHead(h: string, ts: seq<string>, n: nat)
    requires n < |ts|
    ensures var o := |h| + |Concat(ts[..n])|;
            o + |ts[n]| <= |h + Concat(ts)| && (h + Concat(ts))[o..o + |ts[n]|] == ts[n]
  {
    PieceAt(ts, n, |ts[n]|);
    var o := |Concat(ts[..n])|;
    assert ts[n][..|ts[n]|] == ts[n];
    SliceShift(h, Concat(ts), o, o + |ts[n]|);
  }

  /** Behind a fixed head `h`, a prefix `p` of piece `n` stands at that piece's offset. */
  lemma PrefixBehindHead(h: string, ts: seq<string>, n: nat, p: string)
    requires n < |ts| && |p| <= |ts[n]| && ts[n][..|p|] == p
    ensures var o := |h| + |Concat(ts[..n])|;
            o + |p| <= |h + Concat(ts)| && (h + Concat(ts))[o..o + |p|] == p
  {
    PieceAt(ts, n, |p|);
    var o := |Concat(ts[..n])|;
    SliceShift(h, Concat(ts), o, o + |p|);
  }

  /** Behind a head, piece `n` is found at its offset, after the end of piece `m`. */
  lemma LaterPieceBehindHead(h: string, ts: seq<string>, m: nat, n: nat)
    requires m < n < |ts|
    ensures var o := |h| + |Concat(ts[..n])|;
            && o + |ts[n]| <= |h + Concat(ts)| && (h + Concat(ts))[o..o + |ts[n]|] == ts[n]
            && |h| + |Concat(ts[..m])| + |ts[m]| <= o
  {
    PieceBehindHead(h, ts, n);
    PiecesInOrder(ts, m, n);
  }

  /** A later piece starts no earlier than an earlier piece ends. */
  lemma {:induction false} PiecesInOrder(ts: seq<string>, m: nat, n: nat)
    requires m < n <= |ts|
    ensures |Concat(ts[..m])| + |ts[m]| <= |Concat(ts[..n])|
    decreases n
  {
    ConcatSnoc(ts, n - 1);
    if m < n - 1 {
      PiecesInOrder(ts, m, n - 1);
    }
  }

  /**
    Lower-casing of one character, for the letters A-Z. `s.lower()` is only
    ever compared with the ASCII word "present", and no character outside
    A-Z lower-cases to one of its letters, so nothing else matters here.
  */
  function LowerChar(c: char): char {
    if 'A' <= c <= 'Z' then (c as int + 32) as char else c
  }

  function Lower(s: string): (r: string)
    ensures |r| == |s|
  {
    seq(|s|, i requires 0 <= i < |s| => LowerChar(s[i]))
  }

  /** Python's `a < b` on strings: lexicographic by code point, a proper prefix first. */
  predicate Below(a: string, b: string) {
    if a == [] then b != []
    else if b == [] then false
    else if a[0] != b[0] then a[0] < b[0]
    else Below(a[1..], b[1..])
  }

  lemma {:induction false} BelowIrreflexive(a: string)
    ensures !Below(a, a)
  {
    if a != [] { BelowIrreflexive(a[1..]); }
  }

  lemma {:induction false} BelowTransitive(a: string, b: string, c: string)
    requires Below(a, b) && Below(b, c)
    ensures Below(a, c)
  {
    if a != [] && b != [] && c != [] && a[0] == b[0] == c[0] {
      BelowTransitive(a[1..], b[1..], c[1..]);
    }
  }

  lemma {:induction false} BelowTotal(a: string, b: string)
    ensures a == b || Below(a, b) || Below(b, a)
  {
    if a != [] && b != [] && a[0] == b[0] {
      BelowTotal(a[1..], b[1..]);
      if a[1..] == b[1..] {
        assert a == [a[0]] + a[1..] && b == [b[0]] + b[1..];
      }
    }
  }

  /** `a >= b` is transitive: the ordering the newest-first sort relies on. */
  lemma NotBelowTransitive(a: string, b: string, c: string)
    requires !Below(a, b) && !Below(b, c)
    ensures !Below(a, c)
  {
    BelowTotal(a, b);
    if Below(a, c) {
      if a == b { } else { BelowTransitive(b, a, c); }
    }
  }

  lemma BelowAsymmetric(a: string, b: string)
    requires Below(a, b)
    ensures !Below(b, a)
  {
    if Below(b, a) {
      BelowTransitive(a, b, a);
      BelowIrreflexive(a);
    }
  }
}
