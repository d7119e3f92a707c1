/**
 * Tables: every mention "Таблица N…" in the raw text must read "Таблица N"
 * or "Таблица N.M", and a line that starts with "Таблица" must be long
 * enough to carry a caption after the number.
 */
module Tables {
  import opened Wrappers
  import opened Text
  import opened Config
  import opened Models
  import opened Base
  import opened Scan

  /** The word every table mention starts with; `table_pattern` is `Таблица\s+\d+[\.\d+]*`. */
  const TablePrefix: string := "Таблица"
  /** `len('Таблица 1.1') + 3`: a stripped line this short has no caption. */
  const CaptionLimit: nat := 14
  const GostKey: string := "gost_2_105"
  const Gost: string := "ГОСТ 2.105, раздел 5.3"
  const FormatAdvice: string := "Используйте формат: 'Таблица X.Y' или 'Таблица X'"
  const CaptionAdvice: string := "Добавьте наименование после номера таблицы"

  /** Where a match starts and ends in the text. */
  datatype Span = Span(start: nat, end: nat)

  // ---------------------------------------------------------------------
  // Finding the mentions

  /** The character class `[\.\d+]`: a dot, a digit or a plus sign. */
  predicate IsNumberChar(c: char) { c == '.' || IsDigit(c) || c == '+' }

  /** Length of the run of `[\.\d+]` characters starting at `i` (greedy). */
  function NumberCharRun(s: string, i: nat): (n: nat)
    requires i <= |s|
    decreases |s| - i
    ensures i + n <= |s|
    ensures forall k :: i <= k < i + n ==> IsNumberChar(s[k])
    ensures i + n == |s| || !IsNumberChar(s[i + n])
  {
    if i < |s| && IsNumberChar(s[i]) then 1 + NumberCharRun(s, i + 1) else 0
  }

  /** The end of the table mention that starts exactly at `p`, if one does. */
  function MatchAt(s: string, p: nat): (e: Option<nat>)
    ensures e.Some? ==> p < e.value <= |s|
  {
    if OccursAt(s, TablePrefix, p) then
      var sp := SpaceRun(s, p + 7);
      var q := p + 7 + sp;
      if sp > 0 && q < |s| && IsDigit(s[q]) then Some(q + 1 + NumberCharRun(s, q + 1)) else None
    else None
  }

  /** `re.finditer(table_pattern, text)` from `p` on: the spans, left to right, without overlap. */
  function FindAll(s: string, p: nat): (r: seq<Span>)
    decreases |s| - p
    ensures forall k :: 0 <= k < |r| ==> p <= r[k].start < r[k].end <= |s|
  {
    if p >= |s| then []
    else match MatchAt(s, p)
      case Some(e) => [Span(p, e)] + FindAll(s, e)
      case None => FindAll(s, p + 1)
  }

  /**
   * A mention is the prefix, at least one whitespace character, a digit and
   * then the longest run of dots, digits and plus signs.
   */
  lemma MatchShape(s: string, p: nat)
    requires MatchAt(s, p).Some?
    ensures var e := MatchAt(s, p).value;
      var q := p + 7 + SpaceRun(s, p + 7);
      StartsWith(s[p..e], TablePrefix) && p + 7 < q < e && AllSpace(s[p + 7..q]) && IsDigit(s[q])
      && (forall k :: q < k < e ==> IsNumberChar(s[k]))
      && (e == |s| || !IsNumberChar(s[e]))
  {
    SpaceRunFacts(s, p + 7);
    var e := MatchAt(s, p).value;
    assert s[p..e][..7] == s[p..p + 7];
  }

  /** Every span found is a mention that starts where the span starts. */
  lemma {:induction false} FindAllSound(s: string, p: nat)
    decreases |s| - p
    ensures forall k :: 0 <= k < |FindAll(s, p)| ==> MatchAt(s, FindAll(s, p)[k].start) == Some(FindAll(s, p)[k].end)
  {
    if p < |s| {
      match MatchAt(s, p)
      case Some(e) => FindAllSound(s, e);
      case None => FindAllSound(s, p + 1);
    }
  }

  /** Nothing is found exactly when no mention starts anywhere from `p` on. */
  lemma {:induction false} FindAllEmptyIff(s: string, p: nat)
    decreases |s| - p
    ensures FindAll(s, p) == [] <==> forall q :: p <= q < |s| ==> MatchAt(s, q).None?
  {
    if p < |s| && MatchAt(s, p).None? {
      FindAllEmptyIff(s, p + 1);
    }
  }

  // ---------------------------------------------------------------------
  // The format of a mention

  /** `N` or `N.M`: digits, optionally followed by one dot and more digits. */
  predicate PlainOrDotted(r: string) {
    var d := DigitRun(r, 0);
    d > 0 && (d == |r| || (r[d] == '.' && var e := DigitRun(r, d + 1); e > 0 && d + 1 + e == |r|))
  }

  /** `re.match(r'Таблица\s+\d+(\.\d+)?$', table_text)` on the text of a mention. */
  predicate FormatOk(t: string) {
    StartsWith(t, TablePrefix) && var sp := SpaceRun(t, 7); sp > 0 && PlainOrDotted(t[7 + sp..])
  }

  /** The designations the format admits, stated without the scanner. */
  ghost predicate Designator(r: string) {
    |r| > 0 && (AllDigits(r) || exists k :: 0 < k < |r| - 1 && r[k] == '.' && AllDigits(r[..k]) && AllDigits(r[k + 1..]))
  }

  lemma PlainOrDottedIff(r: string)
    ensures PlainOrDotted(r) <==> Designator(r)
  {
    if PlainOrDotted(r) {
      PlainOrDottedIsDesignator(r);
    }
    if Designator(r) {
      DesignatorIsPlainOrDotted(r);
    }
  }

  lemma PlainOrDottedIsDesignator(r: string)
    requires PlainOrDotted(r)
    ensures Designator(r)
  {
    var d := DigitRun(r, 0);
    DigitRunFacts(r, 0);
    assert r[0..d] == r[..d];
    if d == |r| {
      assert r[..d] == r;
    } else {
      var e := DigitRun(r, d + 1);
      DigitRunFacts(r, d + 1);
      assert r[d + 1..d + 1 + e] == r[d + 1..];
      assert 0 < d < |r| - 1 && r[d] == '.' && AllDigits(r[..d]) && AllDigits(r[d + 1..]);
    }
  }

  lemma DesignatorIsPlainOrDotted(r: string)
    requires Designator(r)
    ensures PlainOrDotted(r)
  {
    if AllDigits(r) {
      assert r[0..|r|] == r;
      DigitRunIs(r, 0, |r|);
    } else {
      var k :| 0 < k < |r| - 1 && r[k] == '.' && AllDigits(r[..k]) && AllDigits(r[k + 1..]);
      assert r[0..k] == r[..k];
      DigitRunIs(r, 0, k);
      assert r[k + 1..k + 1 + (|r| - k - 1)] == r[k + 1..];
      DigitRunIs(r, k + 1, |r| - k - 1);
    }
  }

  /** "Таблица", whitespace, then a designation: the format holds exactly for `N` and `N.M`. */
  lemma FormatOkIff(w: string, r: string)
    requires |w| > 0 && AllSpace(w) && |r| > 0 && IsDigit(r[0])
    ensures FormatOk(TablePrefix + w + r) <==> Designator(r)
  {
    var t := TablePrefix + w + r;
    assert t[..7] == TablePrefix;
    var sp := SpaceRun(t, 7);
    SpaceRunFacts(t, 7);
    assert t[7 + |w|] == r[0];
    assert sp == |w|;
    assert t[7 + sp..] == r;
    PlainOrDottedIff(r);
  }

  /** "Таблица 1.2.3", "Таблица 1." and "Таблица 1+2" all break the format. */
  lemma ExamplesRejected(w: string)
    requires |w| > 0 && AllSpace(w)
    ensures !FormatOk(TablePrefix + w + "1.2.3")
    ensures !FormatOk(TablePrefix + w + "1.")
    ensures !FormatOk(TablePrefix + w + "1+2")
  {
    FormatOkIff(w, "1.2.3");
    FormatOkIff(w, "1.");
    FormatOkIff(w, "1+2");
    var a := "1.2.3";
    assert !AllDigits(a[..3]) by { assert a[..3][1] == '.'; }
    assert !AllDigits(a[2..]) by { assert a[2..][1] == '.'; }
    assert !AllDigits(a) by { assert a[1] == '.'; }
    assert !AllDigits("1+2") by { assert "1+2"[1] == '+'; }
    assert !AllDigits("1.") by { assert "1."[1] == '.'; }
  }

  // ---------------------------------------------------------------------
  // The diagnostics

  function FormatError(name: string, t: string): ValidationError {
    ValidationError(name, "Некорректный формат подписи таблицы: '" + t + "'",
      element := Some(t), recommendation := FormatAdvice, gostReference := Gost)
  }

  function CaptionError(name: string, st: string): ValidationError {
    ValidationError(name, "Таблица без наименования: '" + st + "'",
      element := Some(st), recommendation := CaptionAdvice, gostReference := Gost)
  }

  predicate InText(s: string, spans: seq<Span>) {
    forall k :: 0 <= k < |spans| ==> spans[k].start <= spans[k].end <= |s|
  }

  /** One format error per mention, in match order, whose text breaks the format. */
  function FormatErrors(s: string, spans: seq<Span>, name: string): seq<ValidationError>
    requires InText(s, spans)
  {
    if spans == [] then []
    else
      var last := spans[|spans| - 1];
      var t := s[last.start..last.end];
      FormatErrors(s, spans[..|spans| - 1], name) + (if FormatOk(t) then [] else [FormatError(name, t)])
  }

  /** A stripped line that starts with "Таблица" and is shorter than the limit. */
  predicate ShortCaption(st: string) {
    StartsWith(st, TablePrefix) && |st| < CaptionLimit
  }

  /** `line.strip()` of every line. */
  function StripLines(lines: seq<string>): (r: seq<string>)
    ensures |r| == |lines| && forall k :: 0 <= k < |lines| ==> r[k] == Strip(lines[k])
  {
    seq(|lines|, k requires 0 <= k < |lines| => Strip(lines[k]))
  }

  /** One caption error per short "Таблица" line, in line order; `stripped` holds the stripped lines. */
  function CaptionErrors(stripped: seq<string>, name: string): seq<ValidationError> {
    if stripped == [] then []
    else
      var last := stripped[|stripped| - 1];
      CaptionErrors(stripped[..|stripped| - 1], name) + (if ShortCaption(last) then [CaptionError(name, last)] else [])
  }

  // ---------------------------------------------------------------------
  // What the diagnostics say

  /** No format error exactly when every mention has the format. */
  lemma {:induction false} FormatErrorsEmptyIff(s: string, spans: seq<Span>, name: string)
    requires InText(s, spans)
    ensures FormatErrors(s, spans, name) == []
      <==> forall k :: 0 <= k < |spans| ==> FormatOk(s[spans[k].start..spans[k].end])
  {
    if spans != [] {
      var init := spans[..|spans| - 1];
      FormatErrorsEmptyIff(s, init, name);
      assert forall k :: 0 <= k < |init| ==> init[k] == spans[k];
    }
  }

  /** Each format error carries, as its element, the text of a mention that breaks the format. */
  lemma {:induction false} FormatErrorsElements(s: string, spans: seq<Span>, name: string)
    requires InText(s, spans)
    ensures |FormatErrors(s, spans, name)| <= |spans|
    ensures forall e :: e in FormatErrors(s, spans, name) ==>
      exists k :: 0 <= k < |spans| && e == FormatError(name, s[spans[k].start..spans[k].end])
        && !FormatOk(s[spans[k].start..spans[k].end])
  {
    if spans != [] {
      var init := spans[..|spans| - 1];
      FormatErrorsElements(s, init, name);
      assert forall k :: 0 <= k < |init| ==> init[k] == spans[k];
    }
  }

  /** No caption error exactly when no stripped line is a short "Таблица" line. */
  lemma {:induction false} CaptionErrorsEmptyIff(stripped: seq<string>, name: string)
    ensures CaptionErrors(stripped, name) == [] <==> forall k :: 0 <= k < |stripped| ==> !ShortCaption(stripped[k])
  {
    if stripped != [] {
      var init := stripped[..|stripped| - 1];
      CaptionErrorsEmptyIff(init, name);
      assert forall k :: 0 <= k < |init| ==> init[k] == stripped[k];
    }
  }

  /** Each caption error names a stripped line that starts with "Таблица" and is shorter than the limit. */
  lemma {:induction false} CaptionErrorsElements(stripped: seq<string>, name: string)
    ensures |CaptionErrors(stripped, name)| <= |stripped|
    ensures forall e :: e in CaptionErrors(stripped, name) ==>
      e.element.Some? && e.element.value in stripped && ShortCaption(e.element.value)
  {
    if stripped != [] {
      var init := stripped[..|stripped| - 1];
      CaptionErrorsElements(init, name);
      assert forall x :: x in init ==> x in stripped;
    }
  }

  /**
   * The errors of a text. Without a mention nothing is reported, whatever
   * the lines look like; otherwise there is none exactly when every mention
   * has the format and no stripped line is a short "Таблица" line.
   */
  function Errors(text: string, name: string): (r: seq<ValidationError>)
    ensures var spans := FindAll(text, 0);
      r == [] <==> (spans == [] || (AllFormatted(text, spans) && NoShortCaption(Split(text, '\n'))))
  {
    var spans := FindAll(text, 0);
    if spans == [] then []
    else
      var lines := Split(text, '\n');
      FormatErrorsEmptyIff(text, spans, name);
      CaptionErrorsOfLines(lines, name);
      FormatErrors(text, spans, name) + CaptionErrors(StripLines(lines), name)
  }

  predicate AllFormatted(s: string, spans: seq<Span>)
    requires InText(s, spans)
  {
    forall k :: 0 <= k < |spans| ==> FormatOk(s[spans[k].start..spans[k].end])
  }

  predicate NoShortCaption(lines: seq<string>) {
    forall k :: 0 <= k < |lines| ==> !ShortCaption(Strip(lines[k]))
  }

  /** The caption rule over the lines before stripping. */
  lemma CaptionErrorsOfLines(lines: seq<string>, name: string)
    ensures CaptionErrors(StripLines(lines), name) == [] <==> NoShortCaption(lines)
  {
    var stripped := StripLines(lines);
    CaptionErrorsEmptyIff(stripped, name);
    assert forall k :: 0 <= k < |lines| ==> stripped[k] == Strip(lines[k]);
  }

  // ---------------------------------------------------------------------
  // The steps of `run`

  /** `list(re.finditer(self.table_pattern, text))` */
  method ScanMentions(text: string) returns (spans: seq<Span>)
    ensures spans == FindAll(text, 0)
  {
    spans := [];
    var p := 0;
    while p < |text|
      invariant 0 <= p
      invariant spans + FindAll(text, p) == FindAll(text, 0)
      decreases |text| - p
    {
      var e := MatchAt(text, p);
      if e.Some? {
        spans := spans + [Span(p, e.value)];
        p := e.value;
      } else {
        p := p + 1;
      }
    }
  }

  method ReportFormats(text: string, spans: seq<Span>, name: string) returns (errors: seq<ValidationError>)
    requires InText(text, spans)
    ensures errors == FormatErrors(text, spans, name)
  {
    errors := [];
    var i := 0;
    while i < |spans|
      invariant 0 <= i <= |spans|
      invariant errors == FormatErrors(text, spans[..i], name)
    {
      assert spans[..i + 1][..i] == spans[..i];
      var t := text[spans[i].start..spans[i].end];
      if !FormatOk(t) {
        errors := errors + [FormatError(name, t)];
      }
      i := i + 1;
    }
    assert spans[..|spans|] == spans;
  }

  method ReportCaptions(lines: seq<string>, name: string) returns (errors: seq<ValidationError>)
    ensures errors == CaptionErrors(StripLines(lines), name)
  {
    ghost var stripped := StripLines(lines);
    errors := [];
    var i := 0;
    while i < |lines|
      invariant 0 <= i <= |lines|
      invariant errors == CaptionErrors(stripped[..i], name)
    {
      CaptionErrorsStep(stripped, i, name);
      var st := Strip(lines[i]);
      assert st == stripped[i];
      if ShortCaption(st) {
        errors := errors + [CaptionError(name, st)];
      }
      i := i + 1;
    }
    assert stripped[..|lines|] == stripped;
  }

  /** One more stripped line adds its caption error, if any, at the end. */
  lemma CaptionErrorsStep(stripped: seq<string>, i: nat, name: string)
    requires i < |stripped|
    ensures CaptionErrors(stripped[..i + 1], name)
      == CaptionErrors(stripped[..i], name) + (if ShortCaption(stripped[i]) then [CaptionError(name, stripped[i])] else [])
  {
    assert stripped[..i + 1][..i] == stripped[..i];
  }

  // ---------------------------------------------------------------------
  // The configuration

  /** `rules and 'gost_2_105' in rules` */
  predicate ConfiguresTables(rules: Value)
    requires !Truthy(rules) || rules.Dict? || rules.List? || rules.Str?
  {
    Truthy(rules) && In(GostKey, rules)
  }

  /**
   * The rules `set_rules` can read without raising: a truthy value must
   * support `in`, and when it holds the key it is a mapping whose entry and
   * whose `tables` entry (or the empty default) are mappings too.
   */
  predicate AcceptsRules(rules: Value) {
    !Truthy(rules)
    || ((rules.Dict? || rules.List? || rules.Str?)
        && (In(GostKey, rules) ==>
              rules.Dict? && rules.entries[GostKey].Dict?
              && Get(rules.entries[GostKey], "tables", Dict(map[])).Dict?))
  }

  function TableRules(rules: Value): (t: Value)
    requires AcceptsRules(rules) && ConfiguresTables(rules)
    ensures t.Dict?
  {
    Get(rules.entries[GostKey], "tables", Dict(map[]))
  }

  class TableCheck {
    const base: BaseCheck
    var captionPrefix: Value
    var mustBeReferenced: Value

    constructor()
      ensures fresh(base) && base.rules == Null
      ensures base.checkId == "table_format" && base.checkName == "Проверка оформления таблиц"
      ensures captionPrefix == Str("") && mustBeReferenced == Bool(true)
    {
      base := new BaseCheck("table_format", "Проверка оформления таблиц");
      captionPrefix := Str("");
      mustBeReferenced := Bool(true);
    }

    /** The caption settings change only when the rules hold a `gost_2_105` entry. */
    method SetRules(rules: Value)
      requires AcceptsRules(rules)
      modifies this, base
      ensures base.rules == rules
      ensures !ConfiguresTables(rules) ==> captionPrefix == old(captionPrefix) && mustBeReferenced == old(mustBeReferenced)
      ensures ConfiguresTables(rules) ==>
        captionPrefix == Get(TableRules(rules), "caption_prefix", Str(TablePrefix))
        && mustBeReferenced == Get(TableRules(rules), "must_be_referenced", Bool(true))
    {
      base.SetRules(rules);
      if Truthy(rules) && In(GostKey, rules) {
        var gostRules := rules.entries[GostKey];
        var tableRules := Get(gostRules, "tables", Dict(map[]));
        captionPrefix := Get(tableRules, "caption_prefix", Str(TablePrefix));
        mustBeReferenced := Get(tableRules, "must_be_referenced", Bool(true));
      }
    }

    /**
     * The result `run` returns. It reads neither `captionPrefix` nor
     * `mustBeReferenced`: no reference check takes place.
     */
    function Outcome(doc: Document): (r: CheckResult)
      ensures r.checkId == base.checkId && r.checkName == base.checkName
      ensures FindAll(doc.rawText, 0) == [] ==> r.status == Passed && r.errors == []
      ensures FindAll(doc.rawText, 0) != [] ==>
        r.errors == FormatErrors(doc.rawText, FindAll(doc.rawText, 0), base.checkName)
          + CaptionErrors(StripLines(Split(doc.rawText, '\n')), base.checkName)
      ensures r.status != Error && (r.status == Passed <==> r.errors == [])
    {
      var errors := Errors(doc.rawText, base.checkName);
      base.CreateResult(if errors == [] then Passed else Failed, Some(errors))
    }

    method Run(doc: Document) returns (r: CheckResult)
      ensures r == Outcome(doc)
    {
      var spans := ScanMentions(doc.rawText);
      if spans == [] {
        return base.CreateResult(Passed, None);
      }
      var formats := ReportFormats(doc.rawText, spans, base.checkName);
      var lines := Split(doc.rawText, '\n');
      var captions := ReportCaptions(lines, base.checkName);
      var errors := formats + captions;
      r := base.CreateResult(if errors == [] then Passed else Failed, Some(errors));
    }
  }
}
