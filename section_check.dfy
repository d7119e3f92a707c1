/**
 * Required sections: every configured title must occur somewhere in the
 * text (case-insensitively), and when all of them occur the lines they are
 * first found on must follow the configured order.
 */
module SectionPresence {
  import opened Wrappers
  import opened Text
  import opened Config
  import opened Models
  import opened Base

  const DefaultRequired: seq<string> := ["Введение", "Назначение", "Технические характеристики"]
  const RequiredPath: string := "gost_2_105.required_sections"
  const Gost: string := "ГОСТ 2.105, раздел 4.1"

  /** An entry of the `found_sections` mapping: a title and the line it was found on. */
  datatype Entry = Entry(title: string, line: nat)

  // ---------------------------------------------------------------------
  // Where a title is found

  /** The first line, from index `from` on, whose lower-cased form contains `key`. */
  function FirstLineFrom(lines: seq<string>, key: string, from: nat): (r: Option<nat>)
    decreases |lines| - from
    ensures r.Some? ==> from <= r.value < |lines| && Contains(LowerStr(lines[r.value]), key)
    ensures forall j :: from <= j < |lines| && (r.None? || j < r.value) ==> !Contains(LowerStr(lines[j]), key)
  {
    if from >= |lines| then None
    else if Contains(LowerStr(lines[from]), key) then Some(from)
    else FirstLineFrom(lines, key, from + 1)
  }

  /**
   * The line recorded for `title`: none unless the lower-cased text contains
   * the lower-cased title, otherwise the first line that contains it.
   */
  function Position(title: string, text: string): Option<nat> {
    var key := LowerStr(title);
    if Contains(LowerStr(text), key) then FirstLineFrom(Split(text, '\n'), key, 0) else None
  }

  predicate AllFound(req: seq<string>, text: string) {
    forall k :: 0 <= k < |req| ==> Position(req[k], text).Some?
  }

  predicate Distinct(req: seq<string>) {
    forall a, b :: 0 <= a < b < |req| ==> req[a] != req[b]
  }

  /** The titles are found on non-decreasing lines, in the configured order. */
  predicate InOrder(req: seq<string>, text: string)
    requires AllFound(req, text)
  {
    forall a, b :: 0 <= a < b < |req| ==> Position(req[a], text).value <= Position(req[b], text).value
  }

  // ---------------------------------------------------------------------
  // The `found_sections` mapping, kept in insertion order

  function Titles(d: seq<Entry>): (t: seq<string>)
    ensures |t| == |d| && forall j :: 0 <= j < |d| ==> t[j] == d[j].title
  {
    if d == [] then [] else [d[0].title] + Titles(d[1..])
  }

  predicate HasKey(d: seq<Entry>, k: string) {
    k in Titles(d)
  }

  /** `d[k] = v`: a present key keeps its place, a new key goes last. */
  function Put(d: seq<Entry>, k: string, v: nat): (r: seq<Entry>)
    ensures !HasKey(d, k) ==> r == d + [Entry(k, v)]
    ensures HasKey(d, k) ==> Titles(r) == Titles(d)
    ensures forall j :: 0 <= j < |r| ==> r[j] == Entry(k, v) || r[j] in d
  {
    if d == [] then [Entry(k, v)]
    else if d[0].title == k then
      assert ([Entry(k, v)] + d[1..])[1..] == d[1..];
      [Entry(k, v)] + d[1..]
    else
      var rest := Put(d[1..], k, v);
      assert ([d[0]] + rest)[1..] == rest;
      assert d == [d[0]] + d[1..];
      [d[0]] + rest
  }

  /** `found_sections` after the first `|req|` required titles are looked up. */
  function Found(req: seq<string>, text: string): seq<Entry> {
    if req == [] then []
    else
      var f := Found(req[..|req| - 1], text);
      var s := req[|req| - 1];
      match Position(s, text)
      case Some(p) => Put(f, s, p)
      case None => f
  }

  // ---------------------------------------------------------------------
  // Sorting by line: Python's `sorted` is stable

  predicate SortedByLine(xs: seq<Entry>) {
    forall a, b :: 0 <= a < b < |xs| ==> xs[a].line <= xs[b].line
  }

  function Insert(e: Entry, xs: seq<Entry>): (r: seq<Entry>)
    ensures multiset(r) == multiset(xs) + multiset{e} && |r| == |xs| + 1
  {
    if xs == [] || e.line <= xs[0].line then [e] + xs
    else
      assert xs == [xs[0]] + xs[1..];
      [xs[0]] + Insert(e, xs[1..])
  }

  lemma {:induction false} InsertSorted(e: Entry, xs: seq<Entry>)
    requires SortedByLine(xs)
    ensures SortedByLine(Insert(e, xs))
  {
    if xs != [] && e.line > xs[0].line {
      var rest := Insert(e, xs[1..]);
      InsertSorted(e, xs[1..]);
      forall j | 0 <= j < |rest| ensures xs[0].line <= rest[j].line {
        assert rest[j] in multiset(rest);
        if rest[j] != e {
          assert rest[j] in multiset(xs[1..]);
          var m :| 0 <= m < |xs[1..]| && xs[1..][m] == rest[j];
          assert xs[m + 1] == rest[j];
        }
      }
    }
  }

  /** `sorted(found, key=line)`: ordered by line, a permutation of the entries. */
  function SortByLine(xs: seq<Entry>): (r: seq<Entry>)
    ensures multiset(r) == multiset(xs) && |r| == |xs|
    ensures SortedByLine(r)
  {
    if xs == [] then []
    else
      assert xs == [xs[0]] + xs[1..];
      InsertSorted(xs[0], SortByLine(xs[1..]));
      Insert(xs[0], SortByLine(xs[1..]))
  }

  /** A list already ordered by line comes back unchanged. */
  lemma {:induction false} SortOfSorted(xs: seq<Entry>)
    requires SortedByLine(xs)
    ensures SortByLine(xs) == xs
  {
    if xs != [] {
      var rest := xs[1..];
      assert SortedByLine(rest) by {
        forall a, b | 0 <= a < b < |rest| ensures rest[a].line <= rest[b].line {
          assert rest[a] == xs[a + 1] && rest[b] == xs[b + 1];
        }
      }
      SortOfSorted(rest);
      assert SortByLine(xs) == Insert(xs[0], rest);
      assert rest != [] ==> xs[0].line <= rest[0].line;
      assert Insert(xs[0], rest) == [xs[0]] + rest;
      assert [xs[0]] + rest == xs;
    }
  }

  // ---------------------------------------------------------------------
  // The diagnostics

  function MissingError(name: string, title: string): ValidationError {
    ValidationError(name, "Отсутствует обязательный раздел: '" + title + "'",
      recommendation := "Добавьте раздел '" + title + "' в документ",
      gostReference := Gost)
  }

  function OrderError(name: string, foundTitle: string, expected: string, req: seq<string>): ValidationError {
    ValidationError(name, "Нарушен порядок разделов. '" + foundTitle + "' найден до '" + expected + "'",
      recommendation := "Расположите разделы в порядке: " + Join(req, ", "),
      gostReference := Gost)
  }

  /** One error per required title that is not a key of `found`, in list order. */
  function MissingErrors(req: seq<string>, found: seq<Entry>, name: string): seq<ValidationError> {
    if req == [] then []
    else
      var last := req[|req| - 1];
      MissingErrors(req[..|req| - 1], found, name) + (if HasKey(found, last) then [] else [MissingError(name, last)])
  }

  /** The first index, from `from` on, where the sorted titles and the required list differ. */
  function FirstMismatch(sorted: seq<Entry>, req: seq<string>, from: nat): (r: Option<nat>)
    decreases |sorted| - from
    ensures r.Some? ==> from <= r.value < |sorted| && r.value < |req| && sorted[r.value].title != req[r.value]
    ensures forall k :: from <= k < |sorted| && k < |req| && (r.None? || k < r.value) ==> sorted[k].title == req[k]
  {
    if from >= |sorted| || from >= |req| then None
    else if sorted[from].title != req[from] then Some(from)
    else FirstMismatch(sorted, req, from + 1)
  }

  /** The ordering error, compared only when every required title was found once. */
  function OrderErrors(found: seq<Entry>, req: seq<string>, name: string): seq<ValidationError> {
    if |found| != |req| then []
    else
      var sorted := SortByLine(found);
      match FirstMismatch(sorted, req, 0)
      case None => []
      case Some(k) => [OrderError(name, sorted[k].title, req[k], req)]
  }

  /**
   * The errors for a text: one per required title that is not found, in
   * list order, then at most one more, the ordering error, which arises only
   * when every title is found and no title repeats.
   */
  function Errors(req: seq<string>, text: string, name: string): (r: seq<ValidationError>)
    ensures var missing := MissingTitles(req, text);
      |missing| <= |r| <= |missing| + 1
      && r[..|missing|] == MissingErrorsFor(missing, name)
      && (|r| > |missing| ==> AllFound(req, text) && Distinct(req))
  {
    var found := Found(req, text);
    MissingReported(req, text, name);
    OrderErrorOnlyWhenAllFound(req, text, name);
    var missing := MissingErrors(req, found, name);
    assert (missing + OrderErrors(found, req, name))[..|missing|] == missing;
    missing + OrderErrors(found, req, name)
  }

  // ---------------------------------------------------------------------
  // What the diagnostics say

  /** The required titles that are not found, in list order (duplicates repeat). */
  function MissingTitles(req: seq<string>, text: string): seq<string> {
    if req == [] then []
    else
      var last := req[|req| - 1];
      MissingTitles(req[..|req| - 1], text) + (if Position(last, text).None? then [last] else [])
  }

  function MissingErrorsFor(titles: seq<string>, name: string): (r: seq<ValidationError>)
    ensures |r| == |titles| && forall k :: 0 <= k < |titles| ==> r[k] == MissingError(name, titles[k])
  {
    seq(|titles|, k requires 0 <= k < |titles| => MissingError(name, titles[k]))
  }

  /** The recorded mapping holds exactly the found titles, each with its own line. */
  lemma {:induction false} FoundFacts(req: seq<string>, text: string)
    ensures forall x :: HasKey(Found(req, text), x) <==> x in req && Position(x, text).Some?
    ensures forall j :: 0 <= j < |Found(req, text)| ==>
      Position(Found(req, text)[j].title, text) == Some(Found(req, text)[j].line)
  {
    if req != [] {
      var p := req[..|req| - 1];
      var s := req[|req| - 1];
      FoundFacts(p, text);
      assert req == p + [s];
      var f := Found(p, text);
      match Position(s, text)
      case None =>
      case Some(v) =>
        if !HasKey(f, s) {
          assert Titles(f + [Entry(s, v)]) == Titles(f) + [s];
        }
    }
  }

  lemma DistinctSnoc(p: seq<string>, s: string)
    ensures Distinct(p + [s]) <==> Distinct(p) && s !in p
  {
    var req := p + [s];
    if Distinct(req) {
      forall k | 0 <= k < |p| ensures p[k] != s { assert req[k] != req[|req| - 1]; }
      forall a, b | 0 <= a < b < |p| ensures p[a] != p[b] { assert req[a] != req[b]; }
    }
    if Distinct(p) && s !in p {
      forall a, b | 0 <= a < b < |req| ensures req[a] != req[b] {
        if b < |p| { assert req[a] == p[a] && req[b] == p[b]; } else { assert req[a] == p[a] && p[a] in p; }
      }
    }
  }

  lemma AllFoundSnoc(p: seq<string>, s: string, text: string)
    ensures AllFound(p + [s], text) <==> AllFound(p, text) && Position(s, text).Some?
  {
    var req := p + [s];
    if AllFound(p, text) && Position(s, text).Some? {
      forall k | 0 <= k < |req| ensures Position(req[k], text).Some? {
        if k < |p| { assert req[k] == p[k]; }
      }
    }
    if AllFound(req, text) {
      assert Position(req[|p|], text).Some?;
      forall k | 0 <= k < |p| ensures Position(p[k], text).Some? { assert req[k] == p[k]; }
    }
  }

  /** The mapping has one entry per required title exactly when all are found and none repeats. */
  lemma {:induction false} FoundSize(req: seq<string>, text: string)
    ensures |Found(req, text)| <= |req|
    ensures |Found(req, text)| == |req| <==> AllFound(req, text) && Distinct(req)
  {
    if req != [] {
      var p := req[..|req| - 1];
      var s := req[|req| - 1];
      FoundSize(p, text);
      FoundFacts(p, text);
      assert req == p + [s];
      AllFoundSnoc(p, s, text);
      DistinctSnoc(p, s);
      var f := Found(p, text);
      match Position(s, text)
      case None =>
        assert Found(req, text) == f;
      case Some(v) =>
        if HasKey(f, s) {
          assert |Found(req, text)| == |Titles(Put(f, s, v))| == |f|;
        } else {
          assert Found(req, text) == f + [Entry(s, v)];
        }
    }
  }

  /** Titles on record, in the order the configuration lists them. */
  function Canonical(req: seq<string>, text: string): (c: seq<Entry>)
    requires AllFound(req, text)
    ensures |c| == |req| && forall k :: 0 <= k < |req| ==> c[k] == Entry(req[k], Position(req[k], text).value)
  {
    seq(|req|, k requires 0 <= k < |req| => Entry(req[k], Position(req[k], text).value))
  }

  /** The canonical entries of all titles but the last, then the last. */
  lemma CanonicalSnoc(req: seq<string>, text: string)
    requires req != [] && AllFound(req, text)
    ensures AllFound(req[..|req| - 1], text)
    ensures Canonical(req, text)
      == Canonical(req[..|req| - 1], text) + [Entry(req[|req| - 1], Position(req[|req| - 1], text).value)]
  {
    assert forall k :: 0 <= k < |req| - 1 ==> req[..|req| - 1][k] == req[k];
  }

  /** Without repeats, the last title is not among the others, which have no repeats either. */
  lemma DistinctInit(req: seq<string>)
    requires req != [] && Distinct(req)
    ensures Distinct(req[..|req| - 1]) && req[|req| - 1] !in req[..|req| - 1]
  {
    var p := req[..|req| - 1];
    forall k | 0 <= k < |p| ensures p[k] != req[|req| - 1] {
      assert p[k] == req[k];
    }
  }

  /** The keys of the canonical entries are the titles themselves. */
  lemma TitlesCanonical(req: seq<string>, text: string)
    requires AllFound(req, text)
    ensures Titles(Canonical(req, text)) == req
  {
  }

  /** A last title found on some line and not yet a key is recorded last. */
  lemma FoundSnoc(req: seq<string>, text: string)
    requires req != [] && Position(req[|req| - 1], text).Some?
    requires !HasKey(Found(req[..|req| - 1], text), req[|req| - 1])
    ensures Found(req, text)
      == Found(req[..|req| - 1], text) + [Entry(req[|req| - 1], Position(req[|req| - 1], text).value)]
  {
  }

  lemma {:induction false} FoundCanonical(req: seq<string>, text: string)
    requires AllFound(req, text) && Distinct(req)
    ensures Found(req, text) == Canonical(req, text)
  {
    if req != [] {
      var p := req[..|req| - 1];
      DistinctInit(req);
      CanonicalSnoc(req, text);
      FoundCanonical(p, text);
      TitlesCanonical(p, text);
      FoundSnoc(req, text);
    }
  }

  /** The missing-section errors are one per title not found, naming it, in list order. */
  lemma {:induction false} MissingByKeys(q: seq<string>, found: seq<Entry>, text: string, name: string)
    requires forall x :: x in q ==> (HasKey(found, x) <==> Position(x, text).Some?)
    ensures MissingErrors(q, found, name) == MissingErrorsFor(MissingTitles(q, text), name)
  {
    if q != [] {
      var p := q[..|q| - 1];
      var s := q[|q| - 1];
      assert q == p + [s];
      MissingByKeys(p, found, text, name);
    }
  }

  lemma MissingReported(req: seq<string>, text: string, name: string)
    ensures MissingErrors(req, Found(req, text), name) == MissingErrorsFor(MissingTitles(req, text), name)
  {
    FoundFacts(req, text);
    MissingByKeys(req, Found(req, text), text, name);
  }

  /** Only the title at index `km` is absent, so it is the only one reported. */
  lemma {:induction false} MissingTitlesOne(req: seq<string>, text: string, km: int)
    requires forall k :: 0 <= k < |req| ==> (Position(req[k], text).None? <==> k == km)
    ensures MissingTitles(req, text) == if 0 <= km < |req| then [req[km]] else []
  {
    if req != [] {
      var p := req[..|req| - 1];
      MissingTitlesOne(p, text, km);
    }
  }

  /** All required titles on non-decreasing lines: no diagnostic at all. */
  lemma InOrderPasses(req: seq<string>, text: string, name: string)
    requires AllFound(req, text) && InOrder(req, text)
    ensures Errors(req, text, name) == []
  {
    NoneMissing(req, text, name);
    FoundSize(req, text);
    var found := Found(req, text);
    if |found| == |req| {
      FoundCanonical(req, text);
      assert SortedByLine(found);
      SortOfSorted(found);
      assert FirstMismatch(found, req, 0).None?;
    }
  }

  /** Titles on non-decreasing lines, in configured order, are in order. */
  lemma CanonicalSortedInOrder(req: seq<string>, text: string)
    requires AllFound(req, text) && SortedByLine(Canonical(req, text))
    ensures InOrder(req, text)
  {
    var c := Canonical(req, text);
    forall a, b | 0 <= a < b < |req| ensures Position(req[a], text).value <= Position(req[b], text).value {
      assert c[a].line <= c[b].line;
    }
  }

  /** A rearrangement of distinct titles that lists them in the same order is no rearrangement. */
  lemma SameTitlesSame(sorted: seq<Entry>, c: seq<Entry>, req: seq<string>)
    requires multiset(sorted) == multiset(c) && |sorted| == |c| == |req| && Distinct(req)
    requires forall k :: 0 <= k < |req| ==> c[k].title == req[k] && sorted[k].title == req[k]
    ensures sorted == c
  {
    forall k | 0 <= k < |req| ensures sorted[k] == c[k] {
      assert sorted[k] in multiset(c);
      var m :| 0 <= m < |c| && c[m] == sorted[k];
      assert req[m] == req[k];
    }
  }

  /** With every title found, no title is reported missing. */
  lemma NoneMissing(req: seq<string>, text: string, name: string)
    requires AllFound(req, text)
    ensures MissingErrors(req, Found(req, text), name) == []
  {
    MissingReported(req, text, name);
    MissingTitlesOne(req, text, -1);
  }

  /** Distinct titles found out of order: the ordering comparison reports once. */
  lemma PermutedOrderError(req: seq<string>, text: string, name: string)
    requires AllFound(req, text) && Distinct(req) && !InOrder(req, text)
    ensures |OrderErrors(Canonical(req, text), req, name)| == 1
    ensures OrderErrors(Canonical(req, text), req, name)[0].recommendation
      == "Расположите разделы в порядке: " + Join(req, ", ")
  {
    var c := Canonical(req, text);
    var sorted := SortByLine(c);
    var mismatch := FirstMismatch(sorted, req, 0);
    if mismatch.None? {
      SameTitlesSame(sorted, c, req);
      CanonicalSortedInOrder(req, text);
      assert false;
    }
  }

  /** All required titles present once each but out of order: exactly one, ordering, error. */
  lemma PermutedFailsOnce(req: seq<string>, text: string, name: string)
    requires AllFound(req, text) && Distinct(req) && !InOrder(req, text)
    ensures |Errors(req, text, name)| == 1
    ensures Errors(req, text, name)[0].recommendation == "Расположите разделы в порядке: " + Join(req, ", ")
  {
    NoneMissing(req, text, name);
    FoundCanonical(req, text);
    PermutedOrderError(req, text, name);
  }

  /** Exactly one title absent: exactly one error, the missing-section error naming it. */
  lemma OneMissingOneError(req: seq<string>, text: string, name: string, km: nat)
    requires km < |req|
    requires forall k :: 0 <= k < |req| ==> (Position(req[k], text).None? <==> k == km)
    ensures Errors(req, text, name) == [MissingError(name, req[km])]
  {
    MissingReported(req, text, name);
    MissingTitlesOne(req, text, km);
    FoundSize(req, text);
  }

  /** The ordering comparison can only speak when every title was found, and says at most one thing. */
  lemma OrderErrorOnlyWhenAllFound(req: seq<string>, text: string, name: string)
    ensures |OrderErrors(Found(req, text), req, name)| <= 1
    ensures OrderErrors(Found(req, text), req, name) != [] ==> AllFound(req, text) && Distinct(req)
  {
    FoundSize(req, text);
  }

  // ---------------------------------------------------------------------
  // The check

  // ---------------------------------------------------------------------
  // The steps of `run`

  /** Scans the lines for the first one whose lower-cased form contains `key`. */
  method FirstLine(lines: seq<string>, key: string) returns (r: Option<nat>)
    ensures r == FirstLineFrom(lines, key, 0)
  {
    var j := 0;
    while j < |lines|
      invariant 0 <= j <= |lines|
      invariant FirstLineFrom(lines, key, j) == FirstLineFrom(lines, key, 0)
    {
      if Contains(LowerStr(lines[j]), key) {
        return Some(j);
      }
      j := j + 1;
    }
    return None;
  }

  /** Builds `found_sections`, looking each required title up in turn. */
  method FindSections(required: seq<string>, rawText: string) returns (found: seq<Entry>)
    ensures found == Found(required, rawText)
  {
    var text := LowerStr(rawText);
    var lines := Split(rawText, '\n');
    found := [];
    var i := 0;
    while i < |required|
      invariant 0 <= i <= |required|
      invariant found == Found(required[..i], rawText)
    {
      var section := required[i];
      var key := LowerStr(section);
      assert required[..i + 1][..i] == required[..i];
      if Contains(text, key) {
        var line := FirstLine(lines, key);
        if line.Some? {
          found := Put(found, section, line.value);
        }
      }
      i := i + 1;
    }
    assert required[..|required|] == required;
  }

  /** One diagnostic per required title that was not found, in list order. */
  method ReportMissing(required: seq<string>, found: seq<Entry>, name: string) returns (errors: seq<ValidationError>)
    ensures errors == MissingErrors(required, found, name)
  {
    errors := [];
    var i := 0;
    while i < |required|
      invariant 0 <= i <= |required|
      invariant errors == MissingErrors(required[..i], found, name)
    {
      assert required[..i + 1][..i] == required[..i];
      if !HasKey(found, required[i]) {
        errors := errors + [MissingError(name, required[i])];
      }
      i := i + 1;
    }
    assert required[..|required|] == required;
  }

  /** The ordering diagnostic: the first place where the sorted titles leave the required order. */
  method ReportOrder(found: seq<Entry>, required: seq<string>, name: string) returns (errors: seq<ValidationError>)
    ensures errors == OrderErrors(found, required, name)
  {
    errors := [];
    if |found| == |required| {
      var sorted := SortByLine(found);
      var k := 0;
      while k < |sorted| && k < |required|
        invariant 0 <= k <= |sorted|
        invariant FirstMismatch(sorted, required, k) == FirstMismatch(sorted, required, 0)
      {
        if sorted[k].title != required[k] {
          return [OrderError(name, sorted[k].title, required[k], required)];
        }
        k := k + 1;
      }
    }
  }

  class SectionCheck {
    const base: BaseCheck
    var requiredSections: Value

    constructor()
      ensures fresh(base) && base.rules == Null
      ensures base.checkId == "required_sections" && base.checkName == "Наличие и порядок разделов"
      ensures requiredSections == StrList(DefaultRequired)
    {
      base := new BaseCheck("required_sections", "Наличие и порядок разделов");
      requiredSections := StrList(DefaultRequired);
    }

    /** Keeps the current list unless the configuration holds one under the path. */
    method SetRules(rules: Value)
      modifies this, base
      ensures base.rules == rules
      ensures requiredSections == RuleAt(rules, RequiredPath, old(requiredSections))
    {
      base.SetRules(rules);
      requiredSections := base.SafeGetRule(RequiredPath, requiredSections);
    }

    /** The configured value is a list of strings, as iterating and lower-casing it demand. */
    predicate Runnable()
      reads this
    {
      IsStrList(requiredSections)
    }

    /** The result `run` returns: FAILED exactly when some diagnostic was produced. */
    function Outcome(doc: Document): (r: CheckResult)
      reads this, base
      requires Runnable()
      ensures r.checkId == base.checkId && r.checkName == base.checkName
      ensures r.errors == Errors(Strings(requiredSections), doc.rawText, base.checkName)
      ensures r.status != Error && (r.status == Passed <==> r.errors == [])
    {
      var errors := Errors(Strings(requiredSections), doc.rawText, base.checkName);
      base.CreateResult(if errors == [] then Passed else Failed, Some(errors))
    }

    method Run(doc: Document) returns (r: CheckResult)
      requires Runnable()
      ensures r == Outcome(doc)
    {
      var required := Strings(requiredSections);
      var found := FindSections(required, doc.rawText);
      var missing := ReportMissing(required, found, base.checkName);
      var order := ReportOrder(found, required, base.checkName);
      var errors := missing + order;
      r := base.CreateResult(if errors == [] then Passed else Failed, Some(errors));
    }
  }
}
