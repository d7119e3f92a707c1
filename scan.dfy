/**
 * Building blocks of the regular expressions the checks use: greedy runs of
 * digits and whitespace, the dotted number `\d+(\.\d+)*`, and literals
 * matched with or without IGNORECASE.
 *
 * The scanning functions only promise their bounds; what they scan is
 * stated by the lemma beside each, so that callers pay for those facts
 * only where they use them.
 */
module Scan {
  import opened Text

  /** Length of the run of digits starting at `i` (`\d*`, greedy). */
  function DigitRun(s: string, i: nat): (n: nat)
    requires i <= |s|
    decreases |s| - i
    ensures i + n <= |s|
  {
    if i < |s| && IsDigit(s[i]) then 1 + DigitRun(s, i + 1) else 0
  }

  lemma {:induction false} DigitRunFacts(s: string, i: nat)
    requires i <= |s|
    decreases |s| - i
    ensures AllDigits(s[i..i + DigitRun(s, i)])
    ensures i + DigitRun(s, i) == |s| || !IsDigit(s[i + DigitRun(s, i)])
  {
    if i < |s| && IsDigit(s[i]) {
      DigitRunFacts(s, i + 1);
      var n := DigitRun(s, i);
      assert n == 1 + DigitRun(s, i + 1);
      var t := s[i..i + n];
      var u := s[i + 1..i + n];
      assert forall k :: 1 <= k < n ==> t[k] == u[k - 1];
      assert t[0] == s[i];
    }
  }

  /** A run of `m` digits from `i` that nothing extends is the run `DigitRun` measures. */
  lemma {:induction false} DigitRunIs(s: string, i: nat, m: nat)
    requires i + m <= |s| && AllDigits(s[i..i + m])
    requires i + m == |s| || !IsDigit(s[i + m])
    decreases m
    ensures DigitRun(s, i) == m
  {
    if m > 0 {
      assert s[i..i + m][0] == s[i];
      assert s[i + 1..i + m] == s[i..i + m][1..];
      DigitRunIs(s, i + 1, m - 1);
    }
  }

  /** Length of the run of whitespace starting at `i` (`\s*`, greedy). */
  function SpaceRun(s: string, i: nat): (n: nat)
    requires i <= |s|
    decreases |s| - i
    ensures i + n <= |s|
  {
    if i < |s| && IsSpace(s[i]) then 1 + SpaceRun(s, i + 1) else 0
  }

  lemma {:induction false} SpaceRunFacts(s: string, i: nat)
    requires i <= |s|
    decreases |s| - i
    ensures AllSpace(s[i..i + SpaceRun(s, i)])
    ensures i + SpaceRun(s, i) == |s| || !IsSpace(s[i + SpaceRun(s, i)])
  {
    if i < |s| && IsSpace(s[i]) {
      SpaceRunFacts(s, i + 1);
      var n := SpaceRun(s, i);
      assert n == 1 + SpaceRun(s, i + 1);
      var t := s[i..i + n];
      var u := s[i + 1..i + n];
      assert forall k :: 1 <= k < n ==> t[k] == u[k - 1];
      assert t[0] == s[i];
    }
  }

  /** `t` is exactly a match of `\d+(\.\d+)*`: digits, each dot between two digits. */
  ghost predicate DottedNumber(t: string) {
    |t| > 0 && IsDigit(t[0]) && IsDigit(t[|t| - 1])
    && (forall k :: 0 <= k < |t| ==> IsDigit(t[k]) || t[k] == '.')
    && (forall a, b :: 0 <= a < b < |t| && b == a + 1 ==> IsDigit(t[a]) || IsDigit(t[b]))
  }

  /** No further `.digits` group and no further digit can extend a match ending at `e`. */
  predicate EndsNumber(s: string, e: nat)
    requires e <= |s|
  {
    e == |s| || (!IsDigit(s[e]) && !(s[e] == '.' && e + 1 < |s| && IsDigit(s[e + 1])))
  }

  /** Extends a number ending at `j` by as many `.digits` groups as follow. */
  function GroupsEnd(s: string, j: nat): (e: nat)
    requires j <= |s|
    decreases |s| - j
    ensures j <= e <= |s|
  {
    if j < |s| && s[j] == '.' && j + 1 < |s| && IsDigit(s[j + 1]) then
      GroupsEnd(s, j + 1 + DigitRun(s, j + 1))
    else
      j
  }

  /** Appending `.digits` to a dotted number gives a dotted number. */
  lemma DottedExtend(s: string, i: nat, j: nat, j': nat)
    requires i < j < j' <= |s| && DottedNumber(s[i..j])
    requires s[j] == '.' && AllDigits(s[j + 1..j'])
    requires j + 1 < j'
    ensures DottedNumber(s[i..j'])
  {
    var t := s[i..j'];
    var u := s[i..j];
    var g := s[j + 1..j'];
    assert forall k :: 0 <= k < |u| ==> t[k] == u[k];
    assert forall k :: j - i < k < |t| ==> t[k] == g[k - (j - i) - 1];
    assert t[|t| - 1] == g[|g| - 1];
    forall a, b | 0 <= a < b < |t| && b == a + 1 ensures IsDigit(t[a]) || IsDigit(t[b]) {
      if b < |u| {
        assert t[a] == u[a] && t[b] == u[b];
      } else if a == |u| - 1 {
        assert t[a] == u[|u| - 1];
      } else {
        assert t[b] == g[b - |u| - 1];
      }
    }
  }

  lemma {:induction false} GroupsEndFacts(s: string, i: nat, j: nat)
    requires i < j <= |s| && DottedNumber(s[i..j])
    requires j == |s| || !IsDigit(s[j])
    decreases |s| - j
    ensures DottedNumber(s[i..GroupsEnd(s, j)]) && EndsNumber(s, GroupsEnd(s, j))
  {
    if j < |s| && s[j] == '.' && j + 1 < |s| && IsDigit(s[j + 1]) {
      var d := DigitRun(s, j + 1);
      DigitRunFacts(s, j + 1);
      DottedExtend(s, i, j, j + 1 + d);
      GroupsEndFacts(s, i, j + 1 + d);
    }
  }

  /**
   * End of the greedy match of `\d+(\.\d+)*` at `i`; equal to `i` when no
   * digit stands at `i`.
   */
  function NumberEnd(s: string, i: nat): (e: nat)
    requires i <= |s|
    ensures i <= e <= |s|
    ensures e == i <==> (i == |s| || !IsDigit(s[i]))
  {
    var d := DigitRun(s, i);
    if d == 0 then i else GroupsEnd(s, i + d)
  }

  lemma NumberEndFacts(s: string, i: nat)
    requires i <= |s|
    ensures NumberEnd(s, i) > i ==> DottedNumber(s[i..NumberEnd(s, i)]) && EndsNumber(s, NumberEnd(s, i))
  {
    var d := DigitRun(s, i);
    DigitRunFacts(s, i);
    if d > 0 {
      var t := s[i..i + d];
      assert AllDigits(t);
      GroupsEndFacts(s, i, i + d);
    }
  }

  /** A prefix of a dotted number that ends on a digit is a dotted number. */
  lemma DottedPrefix(t: string, n: nat)
    requires DottedNumber(t) && 0 < n <= |t| && IsDigit(t[n - 1])
    ensures DottedNumber(t[..n])
  {
    var p := t[..n];
    assert forall k :: 0 <= k < n ==> p[k] == t[k];
  }

  /** The greedy `.digits` extension cannot overshoot a longer match that ends at `e`. */
  lemma {:induction false} GroupsEndReaches(s: string, i: nat, j: nat, e: nat)
    requires i < j <= e <= |s|
    requires j == |s| || !IsDigit(s[j])
    requires DottedNumber(s[i..e]) && EndsNumber(s, e)
    requires j == e || s[j] == '.'
    decreases e - j
    ensures GroupsEnd(s, j) == e
  {
    if j < e {
      var t := s[i..e];
      assert s[j] == t[j - i];
      assert s[j + 1] == t[j - i + 1];
      assert j - i > 0 ==> t[j - i - 1] == s[j - 1];
      var d := DigitRun(s, j + 1);
      DigitRunFacts(s, j + 1);
      var j' := j + 1 + d;
      if j' < e {
        assert s[j'] == t[j' - i];
      }
      GroupsEndReaches(s, i, j', e);
    }
  }

  /** The greedy match is the only match of `\d+(\.\d+)*` at `i` that cannot be extended. */
  lemma NumberEndUnique(s: string, i: nat, e: nat)
    requires i < e <= |s| && DottedNumber(s[i..e]) && EndsNumber(s, e)
    ensures NumberEnd(s, i) == e
  {
    var t := s[i..e];
    assert s[i] == t[0];
    var d := DigitRun(s, i);
    DigitRunFacts(s, i);
    if i + d < e {
      assert s[i + d] == t[d];
    }
    GroupsEndReaches(s, i, i + d, e);
  }

  /** The literal `p` stands at `i` of `s`, compared case-insensitively (IGNORECASE). */
  predicate CiOccursAt(s: string, p: string, i: nat) {
    i + |p| <= |s| && LowerStr(s[i..i + |p|]) == LowerStr(p)
  }
}
