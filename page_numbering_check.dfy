/**
 * Page numbering: page numbers are gathered from three kinds of page
 * reference in the raw text; a reference to one of the first two pages is
 * reported, and so is every gap or repeat in the sorted list of numbers.
 */
module PageNumbering {
  import opened Wrappers
  import opened Text
  import opened Config
  import opened Models
  import opened Base
  import opened Scan

  const Gost: string := "ГОСТ 2.105, раздел 6.1"
  const PageWord: string := "страниц"
  const PageAbbrev: string := "стр."
  const FirstPagesText: string := " (первые 2 страницы не должны нумероваться)"
  const FirstPagesAdvice: string := "Уберите нумерацию с титульного листа и содержания"
  const BreakAdvice: string := "Убедитесь в сквозной последовательной нумерации"

  /** The three page-reference patterns, in the order they are searched. */
  datatype Pattern =
    | Word    // страниц[ауе]\s+(\d+)
    | Abbrev  // стр\.\s*(\d+)
    | Dash    // —\s*(\d+)\s*—

  /** A match: the number its digit group reads as, and where the match ends. */
  datatype Hit = Hit(number: nat, end: nat)

  // ---------------------------------------------------------------------
  // Matching one pattern at one position

  predicate IsCaseLetter(c: char) { c == 'а' || c == 'у' || c == 'е' }

  /** The value of the digit run that starts at `i`, as `int(match.group(1))` reads it. */
  function RunValue(s: string, i: nat): nat
    requires i <= |s|
  {
    DigitRunFacts(s, i);
    DigitsValue(s[i..i + DigitRun(s, i)])
  }

  /**
   * The match of `pat` that starts exactly at `p`, if any. `\s` and `\d`
   * are greedy here, which is what the backtracking matcher settles on:
   * no shorter run could be followed by what the pattern needs next.
   */
  function MatchAt(s: string, p: nat, pat: Pattern): (h: Option<Hit>)
    ensures h.Some? ==> p < h.value.end <= |s|
  {
    if p >= |s| then None
    else match pat
      case Word =>
        if OccursAt(s, PageWord, p) && p + 7 < |s| && IsCaseLetter(s[p + 7]) then
          var sp := SpaceRun(s, p + 8);
          var d := DigitRun(s, p + 8 + sp);
          if sp > 0 && d > 0 then Some(Hit(RunValue(s, p + 8 + sp), p + 8 + sp + d)) else None
        else None
      case Abbrev =>
        if OccursAt(s, PageAbbrev, p) then
          var sp := SpaceRun(s, p + 4);
          var d := DigitRun(s, p + 4 + sp);
          if d > 0 then Some(Hit(RunValue(s, p + 4 + sp), p + 4 + sp + d)) else None
        else None
      case Dash =>
        if s[p] == '—' then
          var sp := SpaceRun(s, p + 1);
          var d := DigitRun(s, p + 1 + sp);
          var q := p + 1 + sp + d;
          var sp' := SpaceRun(s, q);
          if d > 0 && q + sp' < |s| && s[q + sp'] == '—' then
            Some(Hit(RunValue(s, p + 1 + sp), q + sp' + 1))
          else None
        else None
  }

  /**
   * `re.finditer`: the numbers of the matches of `pat` from `p` on, left to
   * right; after a match the search resumes where that match ended.
   */
  function FindAll(s: string, pat: Pattern, p: nat): (r: seq<nat>)
    decreases |s| - p
  {
    if p >= |s| then []
    else match MatchAt(s, p, pat)
      case Some(h) => [h.number] + FindAll(s, pat, h.end)
      case None => FindAll(s, pat, p + 1)
  }

  /** `page_numbers`: the numbers of the three patterns, pattern by pattern. */
  function Collect(s: string): seq<nat> {
    FindAll(s, Word, 0) + FindAll(s, Abbrev, 0) + FindAll(s, Dash, 0)
  }

  /** The scan finds nothing exactly when the pattern matches nowhere from `p` on. */
  lemma {:induction false} FindAllEmptyIff(s: string, pat: Pattern, p: nat)
    decreases |s| - p
    ensures FindAll(s, pat, p) == [] <==> forall q :: p <= q < |s| ==> MatchAt(s, q, pat).None?
  {
    if p < |s| && MatchAt(s, p, pat).None? {
      FindAllEmptyIff(s, pat, p + 1);
    }
  }

  /** Every number found is the number of a match that starts at or after `p`. */
  lemma {:induction false} FindAllSound(s: string, pat: Pattern, p: nat, k: nat)
    requires k < |FindAll(s, pat, p)|
    decreases |s| - p
    ensures exists q :: p <= q < |s| && MatchAt(s, q, pat).Some? && MatchAt(s, q, pat).value.number == FindAll(s, pat, p)[k]
  {
    var h := MatchAt(s, p, pat);
    if h.Some? {
      var rest := FindAll(s, pat, h.value.end);
      assert FindAll(s, pat, p) == [h.value.number] + rest;
      if k > 0 {
        FindAllSound(s, pat, h.value.end, k - 1);
        var q :| h.value.end <= q < |s| && MatchAt(s, q, pat).Some? && MatchAt(s, q, pat).value.number == rest[k - 1];
        assert p <= q;
      }
    } else {
      assert FindAll(s, pat, p) == FindAll(s, pat, p + 1);
      FindAllSound(s, pat, p + 1, k);
    }
  }

  // ---------------------------------------------------------------------
  // Sorting the numbers

  predicate Ascending(xs: seq<nat>) {
    forall a, b :: 0 <= a < b < |xs| ==> xs[a] <= xs[b]
  }

  function InsertNat(x: nat, xs: seq<nat>): (r: seq<nat>)
    ensures multiset(r) == multiset(xs) + multiset{x} && |r| == |xs| + 1
  {
    if xs == [] || x <= xs[0] then [x] + xs
    else
      assert xs == [xs[0]] + xs[1..];
      [xs[0]] + InsertNat(x, xs[1..])
  }

  lemma {:induction false} InsertNatAscending(x: nat, xs: seq<nat>)
    requires Ascending(xs)
    ensures Ascending(InsertNat(x, xs))
  {
    if xs != [] && x > xs[0] {
      var rest := InsertNat(x, xs[1..]);
      InsertNatAscending(x, xs[1..]);
      forall j | 0 <= j < |rest| ensures xs[0] <= rest[j] {
        assert rest[j] in multiset(rest);
        if rest[j] != x {
          assert rest[j] in multiset(xs[1..]);
          var m :| 0 <= m < |xs[1..]| && xs[1..][m] == rest[j];
          assert xs[m + 1] == rest[j];
        }
      }
    }
  }

  /** `sorted(nums)`: the ascending permutation of the numbers. */
  function Sorted(xs: seq<nat>): (r: seq<nat>)
    ensures multiset(r) == multiset(xs) && |r| == |xs|
    ensures Ascending(r)
  {
    if xs == [] then []
    else
      assert xs == [xs[0]] + xs[1..];
      InsertNatAscending(xs[0], Sorted(xs[1..]));
      InsertNat(xs[0], Sorted(xs[1..]))
  }

  // ---------------------------------------------------------------------
  // The diagnostics

  /** Among the first `n` numbers, each is its predecessor plus one. */
  ghost predicate StepsOfOne(xs: seq<nat>, n: nat)
    requires n <= |xs|
  {
    forall a, b :: 0 <= a < b < n && b == a + 1 ==> xs[b] == xs[a] + 1
  }

  function FirstPageError(name: string, n: nat): ValidationError {
    ValidationError(name, "Упоминание страницы " + NatToString(n) + FirstPagesText,
      recommendation := FirstPagesAdvice, gostReference := Gost)
  }

  function BreakError(name: string, prev: nat, next: nat): ValidationError {
    ValidationError(name, "Нарушена сквозная нумерация: " + NatToString(prev) + " → " + NatToString(next),
      recommendation := BreakAdvice, gostReference := Gost)
  }

  /** One error per number of at most 2, in collection order. */
  function FirstPageErrors(nums: seq<nat>, name: string): seq<ValidationError> {
    if nums == [] then []
    else
      var last := nums[|nums| - 1];
      FirstPageErrors(nums[..|nums| - 1], name) + (if last <= 2 then [FirstPageError(name, last)] else [])
  }

  /** One error per adjacent pair among the first `n` sorted numbers whose second is not the first plus one. */
  function BreakErrors(sorted: seq<nat>, n: nat, name: string): seq<ValidationError>
    requires n <= |sorted|
  {
    if n <= 1 then []
    else
      BreakErrors(sorted, n - 1, name)
      + (if sorted[n - 1] != sorted[n - 2] + 1 then [BreakError(name, sorted[n - 2], sorted[n - 1])] else [])
  }

  function SequenceErrors(nums: seq<nat>, name: string): seq<ValidationError> {
    if |nums| > 1 then BreakErrors(Sorted(nums), |nums|, name) else []
  }

  /** The diagnostics for the collected numbers: first-pages errors, then sequence errors. */
  function NumberErrors(nums: seq<nat>, name: string): seq<ValidationError> {
    FirstPageErrors(nums, name) + SequenceErrors(nums, name)
  }

  /**
   * The errors of a text: none exactly when every collected number exceeds 2
   * and, with two or more, the sorted numbers step by one.
   */
  function Errors(text: string, name: string): (r: seq<ValidationError>)
    ensures var nums := Collect(text);
      r == [] <==> (forall k :: 0 <= k < |nums| ==> nums[k] > 2) && (|nums| > 1 ==> StepsOfOne(Sorted(nums), |nums|))
  {
    NoErrorIff(Collect(text), name);
    NumberErrors(Collect(text), name)
  }

  // ---------------------------------------------------------------------
  // What the diagnostics say

  /** The numbers of at most 2, in order: the ones the first-pages rule reports. */
  function Small(nums: seq<nat>): (r: seq<nat>)
    ensures forall k :: 0 <= k < |r| ==> r[k] <= 2
  {
    if nums == [] then []
    else
      var last := nums[|nums| - 1];
      Small(nums[..|nums| - 1]) + (if last <= 2 then [last] else [])
  }

  /**
   * Every number of at most 2 gets its own error, duplicates included: the
   * first-pages errors are exactly the small numbers, each described.
   */
  lemma {:induction false} FirstPageErrorsAreSmall(nums: seq<nat>, name: string)
    ensures |FirstPageErrors(nums, name)| == |Small(nums)|
    ensures forall k :: 0 <= k < |Small(nums)| ==> FirstPageErrors(nums, name)[k] == FirstPageError(name, Small(nums)[k])
  {
    if nums != [] {
      FirstPageErrorsAreSmall(nums[..|nums| - 1], name);
    }
  }

  /** A number appearing `m` times among the small ones is reported `m` times. */
  lemma {:induction false} SmallCounts(nums: seq<nat>, x: nat)
    requires x <= 2
    ensures multiset(Small(nums))[x] == multiset(nums)[x]
  {
    if nums != [] {
      var init := nums[..|nums| - 1];
      SmallCounts(init, x);
      assert nums == init + [nums[|nums| - 1]];
    }
  }

  /** No first-pages error exactly when every number exceeds 2. */
  lemma {:induction false} FirstPageErrorsEmptyIff(nums: seq<nat>, name: string)
    ensures FirstPageErrors(nums, name) == [] <==> forall k :: 0 <= k < |nums| ==> nums[k] > 2
  {
    if nums != [] {
      var init := nums[..|nums| - 1];
      FirstPageErrorsEmptyIff(init, name);
      assert forall k :: 0 <= k < |init| ==> init[k] == nums[k];
    }
  }

  /** At most one sequence error per adjacent pair: at most n - 1 for n numbers. */
  lemma {:induction false} BreakErrorsBound(sorted: seq<nat>, n: nat, name: string)
    requires n <= |sorted|
    ensures |BreakErrors(sorted, n, name)| <= if n == 0 then 0 else n - 1
  {
    if n > 1 {
      BreakErrorsBound(sorted, n - 1, name);
    }
  }

  /** No sequence error exactly when each sorted number is its predecessor plus one. */
  lemma {:induction false} BreakErrorsEmptyIff(sorted: seq<nat>, n: nat, name: string)
    requires n <= |sorted|
    ensures BreakErrors(sorted, n, name) == [] <==> StepsOfOne(sorted, n)
  {
    if n > 1 {
      BreakErrorsEmptyIff(sorted, n - 1, name);
    }
  }

  /** A page number that occurs twice is a break: "5 → 5" is reported. */
  lemma RepeatIsBreak(nums: seq<nat>, a: nat, b: nat, name: string)
    requires a < b < |nums| && nums[a] == nums[b]
    ensures SequenceErrors(nums, name) != []
  {
    var sorted := Sorted(nums);
    BreakErrorsEmptyIff(sorted, |nums|, name);
    RepeatCount(nums, a, b);
    if StepsOfOne(sorted, |sorted|) {
      StrictlyIncreasing(sorted);
      DistinctCount(sorted, nums[a]);
    }
  }

  lemma RepeatCount(nums: seq<nat>, a: nat, b: nat)
    requires a < b < |nums| && nums[a] == nums[b]
    ensures multiset(nums)[nums[a]] >= 2
  {
    assert nums == nums[..a] + [nums[a]] + nums[a + 1..b] + [nums[b]] + nums[b + 1..];
  }

  /** A list whose each element is its predecessor plus one increases strictly. */
  lemma {:induction false} StrictlyIncreasing(xs: seq<nat>)
    requires StepsOfOne(xs, |xs|)
    ensures forall a, b :: 0 <= a < b < |xs| ==> xs[a] + (b - a) == xs[b]
  {
    if |xs| > 1 {
      var init := xs[..|xs| - 1];
      StrictlyIncreasing(init);
      forall a, b | 0 <= a < b < |xs| ensures xs[a] + (b - a) == xs[b] {
        if b < |xs| - 1 {
          assert init[a] + (b - a) == init[b];
        } else if a < b - 1 {
          assert init[a] + (b - 1 - a) == init[b - 1];
        }
      }
    }
  }

  /** In a list of pairwise different elements, each value occurs at most once. */
  lemma {:induction false} DistinctCount(xs: seq<nat>, c: nat)
    requires forall a, b :: 0 <= a < b < |xs| ==> xs[a] + (b - a) == xs[b]
    ensures multiset(xs)[c] <= 1
  {
    if xs != [] {
      var rest := xs[1..];
      assert xs == [xs[0]] + rest;
      forall a, b | 0 <= a < b < |rest| ensures rest[a] + (b - a) == rest[b] {
        assert rest[a] == xs[a + 1] && rest[b] == xs[b + 1];
      }
      DistinctCount(rest, c);
      if xs[0] == c {
        forall k | 0 <= k < |rest| ensures rest[k] != c {
          assert xs[0] + (k + 1) == xs[k + 1];
        }
        assert c !in multiset(rest);
      }
    }
  }

  /** A lone reference to page 1 or 2 gives exactly one error, a first-pages one. */
  lemma LoneSmallReference(nums: seq<nat>, name: string)
    requires |nums| == 1 && nums[0] <= 2
    ensures NumberErrors(nums, name) == [FirstPageError(name, nums[0])]
  {
    assert nums[..0] == [];
    assert FirstPageErrors(nums, name) == FirstPageErrors([], name) + [FirstPageError(name, nums[0])];
  }

  /** "странице 1" is found by the first pattern and by neither of the others. */
  lemma PageOneCollected()
    ensures Collect("странице 1") == [1]
  {
    var s := "странице 1";
    assert OccursAt(s, PageWord, 0);
    assert SpaceRun(s, 8) == 1 && SpaceRun(s, 9) == 0;
    assert DigitRun(s, 9) == 1 && DigitRun(s, 10) == 0;
    assert s[9..10] == "1";
    assert MatchAt(s, 0, Word) == Some(Hit(1, 10));
    assert FindAll(s, Word, 0) == [1];
    forall q | 0 <= q < |s| ensures MatchAt(s, q, Abbrev).None? && MatchAt(s, q, Dash).None? {
      if q + 4 <= |s| {
        assert s[q..q + 4][3] == s[q + 3] != '.';
      }
    }
    FindAllEmptyIff(s, Abbrev, 0);
    FindAllEmptyIff(s, Dash, 0);
  }

  /** Text whose only page reference is "странице 1" yields one error and no sequence error. */
  lemma PageOneOneError(name: string)
    ensures Errors("странице 1", name) == [FirstPageError(name, 1)]
  {
    PageOneCollected();
    LoneSmallReference([1], name);
  }

  /** The status is FAILED exactly when some rule fired. */
  lemma NoErrorIff(nums: seq<nat>, name: string)
    ensures NumberErrors(nums, name) == []
      <==> ((forall k :: 0 <= k < |nums| ==> nums[k] > 2)
        && (|nums| > 1 ==> StepsOfOne(Sorted(nums), |nums|)))
  {
    var first := FirstPageErrors(nums, name);
    var breaks := SequenceErrors(nums, name);
    assert NumberErrors(nums, name) == first + breaks;
    assert first + breaks == [] <==> first == [] && breaks == [];
    FirstPageErrorsEmptyIff(nums, name);
    if |nums| > 1 {
      var sorted := Sorted(nums);
      BreakErrorsEmptyIff(sorted, |nums|, name);
      assert breaks == BreakErrors(sorted, |nums|, name);
    }
  }

  // ---------------------------------------------------------------------
  // The steps of `run`

  /** The loop over `re.finditer(pattern, text)`, appending each number. */
  method ScanPattern(text: string, pat: Pattern) returns (nums: seq<nat>)
    ensures nums == FindAll(text, pat, 0)
  {
    nums := [];
    var p := 0;
    while p < |text|
      invariant 0 <= p
      invariant nums + FindAll(text, pat, p) == FindAll(text, pat, 0)
      decreases |text| - p
    {
      var h := MatchAt(text, p, pat);
      if h.Some? {
        nums := nums + [h.value.number];
        p := h.value.end;
      } else {
        p := p + 1;
      }
    }
  }

  /** One first-pages error per small number, in order. */
  method ReportFirstPages(nums: seq<nat>, name: string) returns (errors: seq<ValidationError>)
    ensures errors == FirstPageErrors(nums, name)
  {
    errors := [];
    var i := 0;
    while i < |nums|
      invariant 0 <= i <= |nums|
      invariant errors == FirstPageErrors(nums[..i], name)
    {
      assert nums[..i + 1][..i] == nums[..i];
      if nums[i] <= 2 {
        errors := errors + [FirstPageError(name, nums[i])];
      }
      i := i + 1;
    }
    assert nums[..|nums|] == nums;
  }

  /** One error per gap or repeat between neighbours of the sorted list. */
  method ReportBreaks(sorted: seq<nat>, name: string) returns (errors: seq<ValidationError>)
    ensures errors == BreakErrors(sorted, |sorted|, name)
  {
    errors := [];
    var i := 1;
    while i < |sorted|
      invariant 1 <= i
      invariant i <= |sorted| || |sorted| == 0
      invariant errors == BreakErrors(sorted, if |sorted| == 0 then 0 else i, name)
    {
      if sorted[i] != sorted[i - 1] + 1 {
        errors := errors + [BreakError(name, sorted[i - 1], sorted[i])];
      }
      i := i + 1;
    }
  }

  class PageNumberingCheck {
    const base: BaseCheck

    constructor()
      ensures fresh(base) && base.rules == Null
      ensures base.checkId == "page_numbering" && base.checkName == "Нумерация страниц"
    {
      base := new BaseCheck("page_numbering", "Нумерация страниц");
    }

    /** The result `run` returns: FAILED exactly when some diagnostic was produced. */
    function Outcome(doc: Document): (r: CheckResult)
      ensures r.checkId == base.checkId && r.checkName == base.checkName
      ensures r.errors == Errors(doc.rawText, base.checkName)
      ensures r.status != Error && (r.status == Passed <==> r.errors == [])
    {
      var errors := Errors(doc.rawText, base.checkName);
      base.CreateResult(if errors == [] then Passed else Failed, Some(errors))
    }

    method Run(doc: Document) returns (r: CheckResult)
      ensures r == Outcome(doc)
    {
      var text := doc.rawText;
      var word := ScanPattern(text, Word);
      var abbrev := ScanPattern(text, Abbrev);
      var dash := ScanPattern(text, Dash);
      var nums := word + abbrev + dash;
      var errors := ReportFirstPages(nums, base.checkName);
      if |nums| > 1 {
        var sorted := Sorted(nums);
        var breaks := ReportBreaks(sorted, base.checkName);
        errors := errors + breaks;
      }
      r := base.CreateResult(if errors == [] then Passed else Failed, Some(errors));
    }
  }
}
