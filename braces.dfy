/**
 * The brace-depth scan of `get_json_from_html` (scrape_builders.py): a
 * stack of `{` that every `}` pops, remembering one past the last `}` that
 * empties it. Every brace counts, inside JSON string literals too; a `}`
 * with nothing open pops an empty list and raises `IndexError`.
 */
module Braces {

  /** The number of `{` in `s`. */
  function Opens(s: string): nat
    decreases |s|
  {
    if s == [] then 0 else Opens(s[..|s| - 1]) + (if s[|s| - 1] == '{' then 1 else 0)
  }

  /** The number of `}` in `s`. */
  function Closes(s: string): nat
    decreases |s|
  {
    if s == [] then 0 else Closes(s[..|s| - 1]) + (if s[|s| - 1] == '}' then 1 else 0)
  }

  /** Open braces minus closed ones. */
  function Depth(s: string): int {
    Opens(s) - Closes(s)
  }

  /** No prefix of `s` closes more braces than it opens. */
  predicate Nested(s: string) {
    forall k :: 0 <= k <= |s| ==> Depth(s[..k]) >= 0
  }

  /** One past the last `}` of `s` that brings the depth back to zero; 0 if there is none. */
  function LastClose(s: string): (n: nat)
    ensures n <= |s|
    ensures n == 0 || (s[n - 1] == '}' && Depth(s[..n]) == 0)
    decreases |s|
  {
    if s == [] then 0
    else if s[|s| - 1] == '}' && Depth(s) == 0 then
      assert s[..|s|] == s;
      |s|
    else
      var n := LastClose(s[..|s| - 1]);
      assert s[..|s| - 1][..n] == s[..n];
      n
  }

  /** No `}` after the cut returns the depth to zero. */
  lemma {:induction false} LastCloseIsLast(s: string, k: nat)
    requires LastClose(s) < k <= |s|
    ensures !(s[k - 1] == '}' && Depth(s[..k]) == 0)
    decreases |s|
  {
    if k < |s| {
      assert s[..|s| - 1][..k] == s[..k];
      LastCloseIsLast(s[..|s| - 1], k);
    } else {
      assert s[..k] == s;
    }
  }

  datatype ScanResult =
    | Cut(end: nat)     // the scan ran through; `json_end`
    | Underflow(at: nat)  // `stack.pop()` on an empty list at this index

  /** The scan of `json_string_raw` (lines 35-46). */
  method ScanBraces(s: string) returns (r: ScanResult)
    ensures r.Cut? <==> Nested(s)
    ensures r.Cut? ==> r.end == LastClose(s)
    ensures r.Underflow? ==> r.at < |s| && s[r.at] == '}' && Depth(s[..r.at]) == 0 && Nested(s[..r.at])
  {
    var stack: seq<char> := [];
    var jsonEnd := 0;
    for i := 0 to |s|
      invariant |stack| == Depth(s[..i])
      invariant forall k :: 0 <= k < |stack| ==> stack[k] == '{'
      invariant Nested(s[..i])
      invariant jsonEnd == LastClose(s[..i])
    {
      var ch := s[i];
      DepthStep(s, i);
      LastCloseStep(s, i);
      if ch == '{' {
        stack := stack + [ch];
      } else if ch == '}' {
        if stack == [] {
          assert Depth(s[..i + 1]) < 0;
          NotNested(s, i + 1);
          return Underflow(i);
        }
        stack := stack[..|stack| - 1];
        if stack == [] {
          jsonEnd := i + 1;
        }
      }
      NestedStep(s, i);
    }
    assert s[..|s|] == s;
    return Cut(jsonEnd);
  }

  /** The depth after one more character. */
  lemma DepthStep(s: string, i: nat)
    requires i < |s|
    ensures Depth(s[..i + 1]) == Depth(s[..i]) + (if s[i] == '{' then 1 else if s[i] == '}' then -1 else 0)
  {
    assert s[..i + 1][..i] == s[..i];
  }

  /** The cut after one more character. */
  lemma LastCloseStep(s: string, i: nat)
    requires i < |s|
    ensures LastClose(s[..i + 1]) == if s[i] == '}' && Depth(s[..i + 1]) == 0 then i + 1 else LastClose(s[..i])
  {
    assert s[..i + 1][..i] == s[..i];
  }

  /** A prefix stays nested when the character added does not underflow. */
  lemma NestedStep(s: string, i: nat)
    requires i < |s| && Nested(s[..i]) && Depth(s[..i + 1]) >= 0
    ensures Nested(s[..i + 1])
  {
    var t := s[..i + 1];
    forall k | 0 <= k <= i + 1 ensures Depth(t[..k]) >= 0 {
      if k <= i {
        assert t[..k] == s[..i][..k];
      } else {
        assert t[..k] == t;
      }
    }
  }

  /** A prefix that closes too much spoils every longer prefix. */
  lemma NotNested(s: string, k: nat)
    requires k <= |s| && Depth(s[..k]) < 0
    ensures !Nested(s)
  {
    assert s[..k] == s[..k];
  }

  /** The text kept by the cut is balanced: as many `{` as `}`, and no prefix with more `}` than `{`. */
  lemma KeptIsBalanced(s: string)
    requires Nested(s)
    ensures Depth(s[..LastClose(s)]) == 0 && Nested(s[..LastClose(s)])
  {
    var n := LastClose(s);
    forall k | 0 <= k <= n ensures Depth(s[..n][..k]) >= 0 {
      assert s[..n][..k] == s[..k];
    }
  }
}
