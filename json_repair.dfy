/**
  The repair that `parse_resume_with_gpt` applies to the language model's
  reply before `json.loads` (main.py:346-387): remove Markdown code fences,
  trim, keep the span from the first `{` to the last `}`, delete trailing
  commas; on a decoding error, delete trailing commas once more, apply a
  quote "escape" pair and decode again.
*/
module JsonRepair {
  import opened Wrappers
  import opened Text

  const JsonFence := "```json"
  const Fence := "```"

  /** No three backticks in a row. */
  predicate FenceFree(s: string) {
    forall i :: 0 <= i < |s| - 2 ==> !(s[i] == '`' && s[i + 1] == '`' && s[i + 2] == '`')
  }

  lemma FenceFreeMeansNoFence(s: string)
    requires FenceFree(s)
    ensures !Occurs(s, Fence)
  {
    forall i: nat | i <= |s| ensures !OccursAt(s, Fence, i) {
      if i + 3 <= |s| {
        assert s[i..i + 3] == [s[i], s[i + 1], s[i + 2]];
      }
    }
  }

  /** Deleting every "```" never leaves the result starting with two backticks unless the input did. */
  lemma {:induction false} DeletionKeepsDoubleTickOut(t: string)
    requires !(|t| >= 2 && t[0] == '`' && t[1] == '`')
    ensures var r := ReplaceAll(t, Fence, ""); !(|r| >= 2 && r[0] == '`' && r[1] == '`')
  {
    if t != [] && t[0] == '`' && |t| >= 2 {
      var u := t[1..];
      assert !(|u| >= 3 && u[..3] == Fence);
      assert ReplaceAll(u, Fence, "") == [u[0]] + ReplaceAll(u[1..], Fence, "");
    }
  }

  /** Deleting every "```" from left to right leaves no "```" behind. */
  lemma {:induction false} DeletionLeavesNoFence(s: string)
    ensures FenceFree(ReplaceAll(s, Fence, ""))
    decreases |s|
  {
    if |s| >= 3 && s[..3] == Fence {
      DeletionLeavesNoFence(s[3..]);
    } else if s != [] {
      var t := s[1..];
      var rt := ReplaceAll(t, Fence, "");
      DeletionLeavesNoFence(t);
      var r := [s[0]] + rt;
      assert ReplaceAll(s, Fence, "") == r;
      if s[0] == '`' {
        assert !(|t| >= 2 && t[0] == '`' && t[1] == '`') by {
          if |t| >= 2 { assert s[..3] == [s[0], t[0], t[1]]; }
        }
        DeletionKeepsDoubleTickOut(t);
      }
      forall i | 0 <= i < |r| - 2 ensures !(r[i] == '`' && r[i + 1] == '`' && r[i + 2] == '`') {
        if i > 0 { assert r[i] == rt[i - 1] && r[i + 1] == rt[i] && r[i + 2] == rt[i + 1]; }
      }
    }
  }

  /** `s.replace("```json", "").replace("```", "")` (main.py:348): no fence is left. */
  function RemoveFences(s: string): (r: string)
    ensures !Occurs(r, Fence)
  {
    var r := ReplaceAll(ReplaceAll(s, JsonFence, ""), Fence, "");
    DeletionLeavesNoFence(ReplaceAll(s, JsonFence, ""));
    FenceFreeMeansNoFence(r);
    r
  }

  /** Position of the first `c` in `s`, or |s|. */
  function FirstIndex(s: string, c: char): (i: nat)
    ensures i <= |s|
    ensures i < |s| ==> s[i] == c
    ensures forall k :: 0 <= k < i ==> s[k] != c
  {
    if s == [] then 0
    else if s[0] == c then 0
    else 1 + FirstIndex(s[1..], c)
  }

  /** Position of the last `c` in `s`, or -1. */
  function LastIndex(s: string, c: char): (i: int)
    ensures -1 <= i < |s|
    ensures 0 <= i ==> s[i] == c
    ensures forall k :: i < k < |s| ==> s[k] != c
  {
    if s == [] then -1
    else if s[|s| - 1] == c then |s| - 1
    else LastIndex(s[..|s| - 1], c)
  }

  /** Some `{` comes before some `}`: the pattern `\{[\s\S]*\}` matches. */
  predicate HasBracedSpan(s: string) {
    exists i, j :: 0 <= i < j < |s| && s[i] == '{' && s[j] == '}'
  }

  /**
    `re.search(r'\{[\s\S]*\}', s)` and its `group(0)` when it matches
    (main.py:351-353): the match starts at the first `{` and, the star being
    greedy, ends at the last `}`; without a match the text is kept.
  */
  function ExtractObject(s: string): (r: string)
    ensures HasBracedSpan(s) <==> FirstIndex(s, '{') < LastIndex(s, '}')
    ensures HasBracedSpan(s) ==> r == s[FirstIndex(s, '{')..LastIndex(s, '}') + 1]
    ensures !HasBracedSpan(s) ==> r == s
  {
    var i := FirstIndex(s, '{');
    var j := LastIndex(s, '}');
    if i < j then
      assert s[i] == '{' && s[j] == '}';
      s[i..j + 1]
    else
      assert forall a, b :: 0 <= a < b < |s| && s[a] == '{' ==> s[b] != '}';
      s
  }

  /** `s` starts with a match of `\s*[}\]]`: whitespace, then a closing bracket. */
  predicate ClosesAfterSpace(s: string) {
    var n := LeadingSpace(s);
    n < |s| && (s[n] == '}' || s[n] == ']')
  }

  /**
    `re.sub(r',(\s*[}\]])', r'\1', s)` (main.py:356 and 375), as the regex
    engine runs it: at a comma that starts a match, emit the group (the
    whitespace and the bracket) and resume after the match; anywhere else
    copy one character and move on.
  */
  function DropTrailingCommas(s: string): string
    decreases |s|
  {
    if s == [] then []
    else if s[0] == ',' && ClosesAfterSpace(s[1..]) then
      var n := LeadingSpace(s[1..]) + 1;
      s[1..1 + n] + DropTrailingCommas(s[1 + n..])
    else [s[0]] + DropTrailingCommas(s[1..])
  }

  /**
    The same pass stated character by character: a comma is deleted exactly
    when whitespace and then `}` or `]` follow it; every other character,
    the whitespace and the bracket included, stays where it was.
  */
  function KeepUnlessTrailingComma(s: string): string {
    if s == [] then []
    else (if s[0] == ',' && ClosesAfterSpace(s[1..]) then [] else [s[0]])
         + KeepUnlessTrailingComma(s[1..])
  }

  lemma {:induction false} CommaFreePrefixKept(t: string, m: nat)
    requires m <= |t| && ',' !in t[..m]
    ensures KeepUnlessTrailingComma(t) == t[..m] + KeepUnlessTrailingComma(t[m..])
  {
    if m > 0 {
      assert t[0] == t[..m][0];
      assert KeepUnlessTrailingComma(t) == [t[0]] + KeepUnlessTrailingComma(t[1..]);
      assert t[1..][..m - 1] == t[..m][1..];
      CommaFreePrefixKept(t[1..], m - 1);
      assert t[1..][m - 1..] == t[m..];
      assert t[..m] == [t[0]] + t[1..][..m - 1];
    }
  }

  /** The whitespace before the bracket holds no comma. */
  lemma SpaceRunHasNoComma(t: string)
    ensures ',' !in t[..LeadingSpace(t)]
  {
    var p := t[..LeadingSpace(t)];
    forall k | 0 <= k < |p| ensures p[k] != ',' {
      assert IsSpace(p[k]);
    }
  }

  /** At a trailing comma the character-wise pass drops the comma and keeps the run behind it. */
  lemma KeepAtTrailingComma(s: string)
    requires s != [] && s[0] == ',' && ClosesAfterSpace(s[1..])
    ensures var n := LeadingSpace(s[1..]) + 1;
            KeepUnlessTrailingComma(s) == s[1..1 + n] + KeepUnlessTrailingComma(s[1 + n..])
  {
    var t := s[1..];
    var n := LeadingSpace(t) + 1;
    SpaceRunHasNoComma(t);
    assert t[..n] == t[..n - 1] + [t[n - 1]];
    CommaFreePrefixKept(t, n);
    assert t[n..] == s[1 + n..];
    assert t[..n] == s[1..1 + n];
  }

  /** The scanner deletes exactly the commas the character-wise statement names. */
  lemma {:induction false} DropTrailingCommasDeletesExactly(s: string)
    ensures DropTrailingCommas(s) == KeepUnlessTrailingComma(s)
    decreases |s|
  {
    if s == [] {
    } else if s[0] == ',' && ClosesAfterSpace(s[1..]) {
      KeepAtTrailingComma(s);
      DropTrailingCommasDeletesExactly(s[LeadingSpace(s[1..]) + 2..]);
    } else {
      DropTrailingCommasDeletesExactly(s[1..]);
    }
  }

  /** Lines 348-356: the text handed to the first `json.loads`. */
  function CleanReply(reply: string): string {
    DropTrailingCommas(ExtractObject(Strip(RemoveFences(reply))))
  }

  /** `s.replace('"', '\\"')` (main.py:377, first half). */
  function EscapeQuotes(s: string): string {
    ReplaceAll(s, "\"", "\\\"")
  }

  /** `s.replace('\\"', '"')` (main.py:377, second half). */
  function UnescapeQuotes(s: string): string {
    ReplaceAll(s, "\\\"", "\"")
  }

  lemma {:induction false} EscapedNeverStartsWithQuote(s: string)
    ensures var e := EscapeQuotes(s); e == [] || e[0] != '"'
  {
    if s != [] && s[0] == '"' {
      assert s[..1] == "\"";
    }
  }

  /** The escape pair of main.py:377 gives back every string unchanged. */
  lemma {:induction false} EscapePairIsIdentity(s: string)
    ensures UnescapeQuotes(EscapeQuotes(s)) == s
    decreases |s|
  {
    if s != [] {
      var t := s[1..];
      var et := EscapeQuotes(t);
      EscapePairIsIdentity(t);
      EscapedNeverStartsWithQuote(t);
      if s[0] == '"' {
        assert s[..1] == "\"";
        assert EscapeQuotes(s) == "\\\"" + et;
        var w := "\\\"" + et;
        assert w[..2] == "\\\"" && w[2..] == et;
        assert UnescapeQuotes(w) == "\"" + UnescapeQuotes(et);
        assert s == "\"" + t;
      } else {
        assert s[..1] != "\"";
        assert EscapeQuotes(s) == [s[0]] + et;
        var w := [s[0]] + et;
        assert !(|w| >= 2 && w[..2] == "\\\"") by {
          if |w| >= 2 { assert w[1] == et[0]; }
        }
        assert w[1..] == et;
        assert UnescapeQuotes(w) == [s[0]] + UnescapeQuotes(et);
      }
    }
  }

  /**
    `parse_resume_with_gpt` from the reply text on (main.py:346-387):
    `loads` stands for `json.loads`, None for a JSONDecodeError.
  */
  function ParseReply<T>(reply: string, loads: string -> Option<T>): Option<T> {
    var cleaned := CleanReply(reply);
    var first := loads(cleaned);
    if first.Some? then first
    else loads(UnescapeQuotes(EscapeQuotes(DropTrailingCommas(cleaned))))
  }

  /**
    The retry differs from the first attempt only by a second comma pass:
    the quote "escape" changes nothing.
  */
  lemma RetryIsSecondCommaPass<T>(reply: string, loads: string -> Option<T>)
    ensures var cleaned := CleanReply(reply);
            ParseReply(reply, loads)
            == if loads(cleaned).Some? then loads(cleaned) else loads(DropTrailingCommas(cleaned))
  {
    EscapePairIsIdentity(DropTrailingCommas(CleanReply(reply)));
  }

  /**
    The second comma pass is not redundant: deleting one trailing comma can
    expose another, as in `[1,,]`.
  */
  lemma SecondCommaPassCanChangeText()
    ensures DropTrailingCommas("[1,,]") == "[1,]"
    ensures DropTrailingCommas(DropTrailingCommas("[1,,]")) == "[1]"
  {
    assert LeadingSpace(",]") == 0;
    assert !ClosesAfterSpace(",]");
    assert LeadingSpace("]") == 0;
    assert ClosesAfterSpace("]");
    assert ClosesAfterSpace("]") && LeadingSpace("]") + 1 == 1;
    assert DropTrailingCommas(",]") == "]";
    assert DropTrailingCommas(",,]") == ",]";
    assert DropTrailingCommas("1,,]") == "1,]";
    assert DropTrailingCommas("1,]") == "1]";
  }
}
