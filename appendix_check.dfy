/**
 * Appendices: every line that reads "ПРИЛОЖЕНИЕ X" (in any case) is a
 * heading; its designation X is classified and measured, the heading's
 * spelling is checked, and the text is searched for a reference to X.
 */
module Appendices {
  import opened Wrappers
  import opened Text
  import opened Config
  import opened Models
  import opened Base

  const Keyword: string := "ПРИЛОЖЕНИЕ"
  const AppendixPath: string := "gost_2_105.appendices"
  /** The constructor's `appendix_pattern`. */
  const StrictPattern: string := "^ПРИЛОЖЕНИЕ\\s+[А-Я]$"
  /** The `appendix_pattern` `set_rules` falls back to. */
  const RelaxedPattern: string := "^ПРИЛОЖЕНИЕ\\s+[А-ЯA-Z\\d]"
  const DefaultTypes: seq<string> := ["cyrillic", "latin", "numeric"]
  const DefaultMaxLength: int := 2
  /** The guessed number of lines on a page. */
  const LinesPerPage: nat := 50
  const Gost: string := "ГОСТ 2.105, раздел 6"
  const ReferenceGost: string := "ГОСТ 2.105, раздел 6.2"
  const SpaceMessage: string := "Отсутствует или лишний пробел после 'ПРИЛОЖЕНИЕ'"
  const CaseMessage: string := "Используйте заглавные буквы для 'ПРИЛОЖЕНИЕ'"

  // ---------------------------------------------------------------------
  // `_extract_appendix_designation`

  /** The class `[А-ЯA-Z\d]`. */
  predicate IsDesignationChar(c: char) {
    IsCyrillicUpper(c) || IsLatinUpper(c) || IsDigit(c)
  }

  /** Length of the greedy run of `[А-ЯA-Z\d]` starting at `i`. */
  function DesignationRun(s: string, i: nat): (n: nat)
    requires i <= |s|
    decreases |s| - i
    ensures i + n <= |s|
    ensures forall k :: i <= k < i + n ==> IsDesignationChar(s[k])
    ensures i + n == |s| || !IsDesignationChar(s[i + n])
  {
    if i < |s| && IsDesignationChar(s[i]) then 1 + DesignationRun(s, i + 1) else 0
  }

  /** `re.match(r'^([А-ЯA-Z\d]+[.\-]?)', after)`, with a final '.' dropped; "" without a match. */
  function Designation(after: string): string {
    var r := DesignationRun(after, 0);
    if r == 0 then ""
    else
      var m := if r < |after| && (after[r] == '.' || after[r] == '-') then r + 1 else r;
      if after[m - 1] == '.' then after[..m - 1] else after[..m]
  }

  /**
   * The upper-cased text after the first "ПРИЛОЖЕНИЕ", stripped, cut down to
   * its designation: a run of `[А-ЯA-Z\d]` that may end in '-', or "".
   */
  function Extract(line: string): (r: string)
    ensures r != "" ==>
      (forall k :: 0 <= k < |r| - 1 ==> IsDesignationChar(r[k]))
      && (IsDesignationChar(r[|r| - 1]) || r[|r| - 1] == '-')
  {
    var u := UpperStr(line);
    match Find(u, Keyword)
    case None => ""
    case Some(k) =>
      var after := Strip(u[k + |Keyword|..]);
      DesignationShape(after);
      Designation(after)
  }

  /**
   * A designation is the longest leading run of `[А-ЯA-Z\d]`, possibly
   * followed by '-'; a '.' after the run is dropped; there is one exactly
   * when the text starts with such a character.
   */
  lemma DesignationShape(after: string)
    ensures var d := Designation(after);
      (d != "" <==> |after| > 0 && IsDesignationChar(after[0]))
      && (d != "" ==>
        StartsWith(after, d)
        && (forall k :: 0 <= k < |d| - 1 ==> IsDesignationChar(d[k]))
        && (IsDesignationChar(d[|d| - 1]) || d[|d| - 1] == '-')
        && (IsDesignationChar(d[|d| - 1]) ==> |d| == |after| || !IsDesignationChar(after[|d|])))
  {
    var d := Designation(after);
    if d != "" {
      assert after[..|d|] == d;
    }
  }

  /** Stripping one leading space off a word. */
  lemma StripOneSpace(x: string)
    requires |x| > 0 && !IsSpace(x[0]) && !IsSpace(x[|x| - 1])
    ensures Strip([' '] + x) == x
  {
    assert ([' '] + x)[1..] == x;
  }

  /** Upper-casing leaves a line of capitals, digits, spaces and dots as it is. */
  lemma UpperHeading(tail: string)
    requires forall k :: 0 <= k < |tail| ==> IsDesignationChar(tail[k]) || tail[k] == '.'
    ensures UpperStr(Keyword + " " + tail) == Keyword + " " + tail
  {
    var line := Keyword + " " + tail;
    forall k | 0 <= k < |line| ensures Upper(line[k]) == line[k] {
      if k < |Keyword| {
        assert line[k] == Keyword[k];
      } else if k > |Keyword| {
        assert line[k] == tail[k - |Keyword| - 1];
      }
    }
  }

  lemma DesignationOfWord(d: string, dot: bool)
    requires |d| > 0 && forall k :: 0 <= k < |d| ==> IsDesignationChar(d[k])
    ensures Designation(d + (if dot then "." else "")) == d
  {
    var tail := d + (if dot then "." else "");
    assert forall k :: 0 <= k < |d| ==> tail[k] == d[k];
    assert |tail| == |d| || !IsDesignationChar(tail[|d|]);
    assert DesignationRun(tail, 0) == |d|;
    assert tail[..|d|] == d;
  }

  /** "ПРИЛОЖЕНИЕ X" and "ПРИЛОЖЕНИЕ X." both yield the designation X. */
  lemma ExtractHeading(d: string, dot: bool)
    requires |d| > 0 && forall k :: 0 <= k < |d| ==> IsDesignationChar(d[k])
    ensures Extract(Keyword + " " + d + (if dot then "." else "")) == d
  {
    var tail := d + (if dot then "." else "");
    assert Keyword + " " + tail == Keyword + " " + d + (if dot then "." else "");
    ExtractKeywordLine(tail);
    StripDesignation(d, dot);
    DesignationOfWord(d, dot);
  }

  /** The space after the keyword is all that stripping removes from a designation. */
  lemma StripDesignation(d: string, dot: bool)
    requires |d| > 0 && forall k :: 0 <= k < |d| ==> IsDesignationChar(d[k])
    ensures var tail := d + (if dot then "." else "");
      (forall k :: 0 <= k < |tail| ==> IsDesignationChar(tail[k]) || tail[k] == '.')
      && Strip([' '] + tail) == tail
  {
    var tail := d + (if dot then "." else "");
    assert forall k :: 0 <= k < |d| ==> tail[k] == d[k];
    assert tail[|tail| - 1] == d[|d| - 1] || tail[|tail| - 1] == '.';
    StripOneSpace(tail);
  }

  /** On a line of capitals that starts with the keyword, the designation is read from what follows it. */
  lemma ExtractKeywordLine(tail: string)
    requires forall k :: 0 <= k < |tail| ==> IsDesignationChar(tail[k]) || tail[k] == '.'
    ensures Extract(Keyword + " " + tail) == Designation(Strip([' '] + tail))
  {
    var line := Keyword + " " + tail;
    UpperHeading(tail);
    KeywordFirst(tail);
    assert line[|Keyword|..] == [' '] + tail;
  }

  /** The keyword is found at the start of a line that begins with it. */
  lemma KeywordFirst(tail: string)
    ensures Find(Keyword + " " + tail, Keyword) == Some(0)
  {
    var line := Keyword + " " + tail;
    assert line[..|Keyword|] == Keyword;
    assert OccursAt(line, Keyword, 0);
  }

  /** The designation does not depend on the case the line is written in. */
  lemma ExtractIgnoresCase(line: string)
    ensures Extract(line) == Extract(UpperStr(line))
  {
    assert UpperStr(UpperStr(line)) == UpperStr(line);
  }

  // ---------------------------------------------------------------------
  // `_get_designation_type`

  datatype Kind = Unknown | Numeric | Cyrillic | Latin | Mixed

  function KindName(k: Kind): string {
    match k
    case Unknown => "unknown"
    case Numeric => "numeric"
    case Cyrillic => "cyrillic"
    case Latin => "latin"
    case Mixed => "mixed"
  }

  predicate HasCyrillic(d: string) { exists i :: 0 <= i < |d| && IsCyrillicUpper(d[i]) }
  predicate HasLatin(d: string) { exists i :: 0 <= i < |d| && IsLatinUpper(d[i]) }

  function KindOf(d: string): Kind {
    if d == "" then Unknown
    else if AllDigits(d) then Numeric
    else if HasCyrillic(d) then Cyrillic
    else if HasLatin(d) then Latin
    else Mixed
  }

  /** Any Cyrillic letter makes a designation Cyrillic; Latin letters alone make it Latin. */
  lemma KindExamples()
    ensures KindOf("1А") == Cyrillic && KindOf("AB") == Latin && KindOf("12") == Numeric
  {
    assert IsCyrillicUpper("1А"[1]);
    assert IsLatinUpper("AB"[0]);
  }

  /** An extracted designation is "mixed" exactly when it is digits followed by '-'. */
  lemma MixedIsDigitsAndDash(after: string)
    ensures var d := Designation(after);
      KindOf(d) == Mixed <==> |d| >= 2 && d[|d| - 1] == '-' && AllDigits(d[..|d| - 1])
  {
    var d := Designation(after);
    DesignationShape(after);
    if d != "" {
      var n := |d|;
      if IsDesignationChar(d[n - 1]) && !AllDigits(d) {
        var i :| 0 <= i < n && !IsDigit(d[i]);
        assert IsCyrillicUpper(d[i]) || IsLatinUpper(d[i]);
      }
      if d[n - 1] == '-' && !AllDigits(d[..n - 1]) {
        var i :| 0 <= i < n - 1 && !IsDigit(d[..n - 1][i]);
        assert d[..n - 1][i] == d[i];
        assert IsCyrillicUpper(d[i]) || IsLatinUpper(d[i]);
      }
      if d[n - 1] == '-' && AllDigits(d[..n - 1]) {
        assert !AllDigits(d) by { assert !IsDigit(d[n - 1]); }
        forall i | 0 <= i < n ensures !IsCyrillicUpper(d[i]) && !IsLatinUpper(d[i]) {
          if i < n - 1 {
            assert d[..n - 1][i] == d[i];
          }
        }
      }
    }
  }

  // ---------------------------------------------------------------------
  // Headings

  datatype Heading = Heading(lineNum: nat, original: string, designation: string)

  /** The heading on line `i`, if the line is one: its stripped form, upper-cased, starts with the keyword and yields a designation. */
  function HeadingOf(i: nat, line: string): (h: Option<Heading>)
    ensures h.Some? ==> h.value.lineNum == i && h.value.designation != ""
  {
    var st := Strip(line);
    if StartsWith(UpperStr(st), Keyword) then
      var d := Extract(st);
      if d != "" then Some(Heading(i, st, d)) else None
    else None
  }

  /** What each line holds: `HeadingOf` line by line. */
  function LineHeadings(lines: seq<string>): seq<Option<Heading>> {
    seq(|lines|, i requires 0 <= i < |lines| => HeadingOf(i, lines[i]))
  }

  /** Each entry present carries its own index as line number. */
  predicate Numbered(opts: seq<Option<Heading>>) {
    forall i :: 0 <= i < |opts| && opts[i].Some? ==> opts[i].value.lineNum == i
  }

  /** The entries present, in order. */
  function Present(opts: seq<Option<Heading>>): seq<Heading> {
    if opts == [] then []
    else
      Present(opts[..|opts| - 1])
      + (match opts[|opts| - 1] case Some(h) => [h] case None => [])
  }

  /** `found_appendix_lines`: the headings of the text, one per heading line, in line order. */
  function Headings(lines: seq<string>): seq<Heading> {
    Present(LineHeadings(lines))
  }

  /** Every heading found comes from its own line, in line order, and every heading line is found. */
  lemma {:induction false} PresentIff(opts: seq<Option<Heading>>)
    requires Numbered(opts)
    ensures forall k :: 0 <= k < |Present(opts)| ==>
      Present(opts)[k].lineNum < |opts| && opts[Present(opts)[k].lineNum] == Some(Present(opts)[k])
    ensures forall a, b :: 0 <= a < b < |Present(opts)| ==> Present(opts)[a].lineNum < Present(opts)[b].lineNum
    ensures forall i :: 0 <= i < |opts| && opts[i].Some? ==> opts[i].value in Present(opts)
  {
    if opts != [] {
      var init := opts[..|opts| - 1];
      assert forall i :: 0 <= i < |init| ==> init[i] == opts[i];
      PresentIff(init);
    }
  }

  /** The headings of a text are exactly what its heading lines hold, in line order. */
  lemma HeadingsIff(lines: seq<string>)
    ensures forall k :: 0 <= k < |Headings(lines)| ==>
      Headings(lines)[k].lineNum < |lines| && LineHeadings(lines)[Headings(lines)[k].lineNum] == Some(Headings(lines)[k])
    ensures forall a, b :: 0 <= a < b < |Headings(lines)| ==> Headings(lines)[a].lineNum < Headings(lines)[b].lineNum
    ensures forall i :: 0 <= i < |lines| && LineHeadings(lines)[i].Some? ==> LineHeadings(lines)[i].value in Headings(lines)
  {
    PresentIff(LineHeadings(lines));
  }

  /** `_estimate_page_number`: fifty lines to a page, counted from 1. */
  function PageOf(lineNum: nat): (p: nat)
    ensures p >= 1 && (p - 1) * LinesPerPage <= lineNum < p * LinesPerPage
  {
    lineNum / LinesPerPage + 1
  }

  // ---------------------------------------------------------------------
  // The per-heading diagnostic

  /** `re.match(r'^ПРИЛОЖЕНИЕ\s+', line.upper())` */
  predicate SpacedKeyword(line: string) {
    var u := UpperStr(line);
    StartsWith(u, Keyword) && |Keyword| < |u| && IsSpace(u[|Keyword|])
  }

  /** `has_space_issue` */
  predicate SpaceIssue(line: string, requireSpace: Value) {
    Truthy(requireSpace) && !SpacedKeyword(line)
  }

  /** `has_case_issue`: the original line must start with the keyword in capitals. */
  predicate CaseIssue(line: string, requireUppercase: Value) {
    Truthy(requireUppercase) && !StartsWith(line, Keyword)
  }

  /** The two settings a heading is judged by and that Python needs of the right type. */
  predicate Configured(allowed: Value, maxLength: Value) {
    IsStrList(allowed) && IsNumber(maxLength)
  }

  /**
   * The type, length, space and case messages for one heading, in that
   * order: at most four, and none exactly when the heading passes.
   */
  function Issues(h: Heading, allowed: Value, maxLength: Value, requireSpace: Value, requireUppercase: Value): (r: seq<string>)
    requires Configured(allowed, maxLength)
    ensures |r| <= 4
    ensures r == [] <==> Passes(h, allowed, maxLength, requireSpace, requireUppercase)
  {
    var kind := KindName(KindOf(h.designation));
    (if !In(kind, allowed)
     then ["Тип обозначения '" + kind + "' не разрешён. Допустимые типы: " + Join(Strings(allowed), ", ")]
     else [])
    + (if |h.designation| > AsInt(maxLength)
       then ["Обозначение '" + h.designation + "' слишком длинное. Максимум: " + NumberText(maxLength) + " символов"]
       else [])
    + (if SpaceIssue(h.original, requireSpace) then [SpaceMessage] else [])
    + (if CaseIssue(h.original, requireUppercase) then [CaseMessage] else [])
  }

  /** The heading's type is allowed, it is short enough, and neither spelling issue applies. */
  predicate Passes(h: Heading, allowed: Value, maxLength: Value, requireSpace: Value, requireUppercase: Value)
    requires Configured(allowed, maxLength)
  {
    Str(KindName(KindOf(h.designation))) in allowed.items && |h.designation| <= AsInt(maxLength)
    && !SpaceIssue(h.original, requireSpace) && !CaseIssue(h.original, requireUppercase)
  }

  /** Under the defaults "ПРИЛОЖЕНИЕ А" passes, while "Приложение А" draws the case message alone. */
  lemma DefaultHeadingExamples()
    ensures Issues(Heading(0, "ПРИЛОЖЕНИЕ А", "А"), StrList(DefaultTypes), Int(2), Bool(true), Bool(true)) == []
    ensures Issues(Heading(0, "Приложение А", "А"), StrList(DefaultTypes), Int(2), Bool(true), Bool(true)) == [CaseMessage]
  {
    var types := StrList(DefaultTypes);
    assert KindOf("А") == Cyrillic by { assert IsCyrillicUpper("А"[0]); }
    assert types.items[0] == Str("cyrillic");
    assert UpperStr("ПРИЛОЖЕНИЕ А") == "ПРИЛОЖЕНИЕ А";
    assert UpperStr("Приложение А") == "ПРИЛОЖЕНИЕ А";
    assert "Приложение А"[..10] != Keyword by { assert "Приложение А"[1] != Keyword[1]; }
  }

  function HeadingError(name: string, h: Heading, issues: seq<string>): ValidationError {
    ValidationError(name, "Проблемы с оформлением приложения: '" + h.original + "'",
      page := Some(PageOf(h.lineNum)), element := Some(h.original),
      recommendation := Join(issues, "; "), gostReference := Gost)
  }

  /** One error per heading with at least one issue, in line order. */
  function HeadingErrors(hs: seq<Heading>, allowed: Value, maxLength: Value, requireSpace: Value, requireUppercase: Value, name: string): seq<ValidationError>
    requires hs == [] || Configured(allowed, maxLength)
  {
    if hs == [] then []
    else
      var last := hs[|hs| - 1];
      var issues := Issues(last, allowed, maxLength, requireSpace, requireUppercase);
      HeadingErrors(hs[..|hs| - 1], allowed, maxLength, requireSpace, requireUppercase, name)
      + (if issues != [] then [HeadingError(name, last, issues)] else [])
  }

  /** One more heading appends its own error, if it has issues. */
  lemma HeadingErrorsStep(hs: seq<Heading>, i: nat, allowed: Value, maxLength: Value, requireSpace: Value, requireUppercase: Value, name: string)
    requires i < |hs| && Configured(allowed, maxLength)
    ensures var issues := Issues(hs[i], allowed, maxLength, requireSpace, requireUppercase);
      HeadingErrors(hs[..i + 1], allowed, maxLength, requireSpace, requireUppercase, name)
      == HeadingErrors(hs[..i], allowed, maxLength, requireSpace, requireUppercase, name)
        + (if issues != [] then [HeadingError(name, hs[i], issues)] else [])
  {
    assert hs[..i + 1][..i] == hs[..i];
  }

  /** At most one error per heading, and none exactly when every heading passes. */
  lemma {:induction false} HeadingErrorsBound(hs: seq<Heading>, allowed: Value, maxLength: Value, requireSpace: Value, requireUppercase: Value, name: string)
    requires hs == [] || Configured(allowed, maxLength)
    ensures |HeadingErrors(hs, allowed, maxLength, requireSpace, requireUppercase, name)| <= |hs|
    ensures HeadingErrors(hs, allowed, maxLength, requireSpace, requireUppercase, name) == [] <==>
      forall k :: 0 <= k < |hs| ==> Passes(hs[k], allowed, maxLength, requireSpace, requireUppercase)
  {
    if hs != [] {
      var init, last := hs[..|hs| - 1], hs[|hs| - 1];
      HeadingErrorsBound(init, allowed, maxLength, requireSpace, requireUppercase, name);
      assert forall k :: 0 <= k < |init| ==> init[k] == hs[k];
    }
  }

  // ---------------------------------------------------------------------
  // `_check_appendix_references`

  /**
   * The six forms tried with plain substring search; the first two keep
   * their bracket text literally, since no regular expression is involved.
   */
  function ExplicitForms(dl: string): seq<string> {
    ["приложени[еия] " + dl, "приложени[еия]." + dl, "приложение " + dl,
     "приложении " + dl, "прилож. " + dl, "прил. " + dl]
  }

  predicate Explicit(tl: string, dl: string) {
    exists k :: 0 <= k < 6 && Contains(tl, ExplicitForms(dl)[k])
  }

  predicate WordBefore(t: string, i: nat) { 0 < i <= |t| && IsWordChar(t[i - 1]) }
  predicate WordAfter(t: string, i: nat) { i < |t| && IsWordChar(t[i]) }

  /** `\b` at `i` */
  predicate Boundary(t: string, i: nat) { WordBefore(t, i) != WordAfter(t, i) }

  /** `d` is one of the words `re.findall(r'\b\w+\b', t)` returns, the one starting at `i`. */
  predicate WordAt(t: string, d: string, i: nat) {
    OccursAt(t, d, i) && |d| > 0 && (forall k :: 0 <= k < |d| ==> IsWordChar(d[k]))
    && !WordBefore(t, i) && !WordAfter(t, i + |d|)
  }

  /** `re.search(rf'\b{re.escape(d)}\b', t)` matches at `i`. */
  predicate BoundedAt(t: string, d: string, i: nat) {
    OccursAt(t, d, i) && Boundary(t, i) && Boundary(t, i + |d|)
  }

  predicate InWords(t: string, d: string) { exists i :: 0 <= i <= |t| && WordAt(t, d, i) }
  predicate BoundedIn(t: string, d: string) { exists i :: 0 <= i <= |t| && BoundedAt(t, d, i) }

  /** A whole word is also a match between word boundaries, so the word test decides nothing on its own. */
  lemma WordIsBounded(t: string, d: string, i: nat)
    requires WordAt(t, d, i)
    ensures BoundedAt(t, d, i)
  {
    assert t[i] == d[0] && t[i + |d| - 1] == d[|d| - 1];
  }

  /** No explicit reference, and the designation stands nowhere between word boundaries. */
  predicate Unreferenced(tl: string, d: string) {
    var dl := LowerStr(d);
    !Explicit(tl, dl) && !InWords(tl, dl) && !BoundedIn(tl, dl)
  }

  lemma UnreferencedIff(tl: string, d: string)
    ensures Unreferenced(tl, d) <==> !Explicit(tl, LowerStr(d)) && !BoundedIn(tl, LowerStr(d))
  {
    var dl := LowerStr(d);
    if InWords(tl, dl) {
      var i :| 0 <= i <= |tl| && WordAt(tl, dl, i);
      WordIsBounded(tl, dl, i);
    }
  }

  /** A heading "ПРИЛОЖЕНИЕ X" written with one space refers to itself: the whole text contains "приложение x". */
  lemma HeadingRefersToItself(text: string, d: string, i: nat)
    requires OccursAt(text, Keyword + " " + d, i)
    ensures !Unreferenced(LowerStr(text), d)
  {
    var tl := LowerStr(text);
    var form := ExplicitForms(LowerStr(d))[2];
    var n := |Keyword| + 1 + |d|;
    forall k | 0 <= k < n ensures tl[i..i + n][k] == form[k] {
      assert tl[i + k] == Lower(text[i + k]);
      assert text[i + k] == (Keyword + " " + d)[k];
    }
    assert OccursAt(tl, form, i);
  }

  function ReferenceError(name: string, d: string): ValidationError {
    ValidationError(name, "Отсутствует ссылка на Приложение " + d,
      element := Some("Приложение " + d),
      recommendation := "Добавьте ссылку в текст: '... в Приложении " + d + " ...'",
      gostReference := ReferenceGost)
  }

  /** One error, without a page, per heading whose designation is never referred to. */
  function ReferenceErrors(tl: string, hs: seq<Heading>, name: string): seq<ValidationError> {
    if hs == [] then []
    else
      var last := hs[|hs| - 1];
      ReferenceErrors(tl, hs[..|hs| - 1], name)
      + (if Unreferenced(tl, last.designation) then [ReferenceError(name, last.designation)] else [])
  }

  lemma {:induction false} ReferenceErrorsBound(tl: string, hs: seq<Heading>, name: string)
    ensures |ReferenceErrors(tl, hs, name)| <= |hs|
    ensures ReferenceErrors(tl, hs, name) == [] <==> forall k :: 0 <= k < |hs| ==> !Unreferenced(tl, hs[k].designation)
    ensures forall k :: 0 <= k < |ReferenceErrors(tl, hs, name)| ==> ReferenceErrors(tl, hs, name)[k].page.None?
  {
    if hs != [] {
      var init := hs[..|hs| - 1];
      ReferenceErrorsBound(tl, init, name);
      assert forall k :: 0 <= k < |init| ==> init[k] == hs[k];
    }
  }

  // ---------------------------------------------------------------------
  // Configuration

  function AppendixRules(rules: Value): Value {
    RuleAt(rules, AppendixPath, Dict(map[]))
  }

  /** `set_rules` calls `.get` on the section and on its two groups, so each must be a mapping. */
  predicate AcceptsRules(rules: Value) {
    var c := AppendixRules(rules);
    c.Dict? && Get(c, "allowed_designations", Dict(map[])).Dict? && Get(c, "validation", Dict(map[])).Dict?
  }

  function Designations(rules: Value): (r: Value)
    requires AcceptsRules(rules)
    ensures r.Dict?
  {
    Get(AppendixRules(rules), "allowed_designations", Dict(map[]))
  }

  function Validation(rules: Value): (r: Value)
    requires AcceptsRules(rules)
    ensures r.Dict?
  {
    Get(AppendixRules(rules), "validation", Dict(map[]))
  }

  /** Without an appendix section the defaults apply, and they configure the check. */
  lemma MissingSectionDefaults(rules: Value)
    requires AppendixRules(rules) == Dict(map[])
    ensures AcceptsRules(rules)
    ensures Get(Designations(rules), "types", StrList(DefaultTypes)) == StrList(DefaultTypes)
    ensures Get(Designations(rules), "max_length", Int(DefaultMaxLength)) == Int(DefaultMaxLength)
    ensures Get(Validation(rules), "require_uppercase", Bool(true)) == Bool(true)
    ensures Get(Validation(rules), "require_space", Bool(true)) == Bool(true)
    ensures Get(AppendixRules(rules), "require_reference", Bool(true)) == Bool(true)
    ensures Configured(StrList(DefaultTypes), Int(DefaultMaxLength))
  {
  }

  // ---------------------------------------------------------------------
  // The whole rule

  /** The headings of a text, found line by line. */
  function TextHeadings(text: string): seq<Heading> {
    Headings(Split(text, '\n'))
  }

  /** Heading errors in line order, then, when references are required and headings exist, reference errors. */
  /**
   * The errors of a text: at most two per heading (its format, then its
   * reference), none without headings whatever the settings, and none
   * exactly when every heading passes and, when references are required,
   * every designation is referred to.
   */
  function Errors(text: string, allowed: Value, maxLength: Value, requireSpace: Value, requireUppercase: Value, requireReference: Value, name: string): (r: seq<ValidationError>)
    requires TextHeadings(text) == [] || Configured(allowed, maxLength)
    ensures var hs := TextHeadings(text);
      |r| <= 2 * |hs|
      && (r == [] <==>
        (forall k :: 0 <= k < |hs| ==> Passes(hs[k], allowed, maxLength, requireSpace, requireUppercase))
        && (Truthy(requireReference) ==> forall k :: 0 <= k < |hs| ==> !Unreferenced(LowerStr(text), hs[k].designation)))
  {
    var hs := TextHeadings(text);
    HeadingErrorsBound(hs, allowed, maxLength, requireSpace, requireUppercase, name);
    ReferenceErrorsBound(LowerStr(text), hs, name);
    HeadingErrors(hs, allowed, maxLength, requireSpace, requireUppercase, name)
    + (if Truthy(requireReference) && hs != [] then ReferenceErrors(LowerStr(text), hs, name) else [])
  }

  // ---------------------------------------------------------------------
  // The steps of `run`

  /** The body of the line loop: strip, test the keyword, extract the designation. */
  method ExamineLine(i: nat, line: string) returns (h: Option<Heading>)
    ensures h == HeadingOf(i, line)
  {
    var st := Strip(line);
    h := None;
    if StartsWith(UpperStr(st), Keyword) {
      var d := Extract(st);
      if d != "" {
        h := Some(Heading(i, st, d));
      }
    }
  }

  method CollectHeadings(lines: seq<string>) returns (hs: seq<Heading>)
    ensures hs == Headings(lines)
  {
    ghost var opts := LineHeadings(lines);
    hs := [];
    var i := 0;
    while i < |lines|
      invariant 0 <= i <= |lines|
      invariant hs == Present(opts[..i])
    {
      assert opts[..i + 1][..i] == opts[..i];
      var h := ExamineLine(i, lines[i]);
      assert h == opts[i];
      if h.Some? {
        hs := hs + [h.value];
      }
      i := i + 1;
    }
    assert opts[..|lines|] == opts;
  }

  /** The `explicit_ref_found` loop: tries the forms in order and stops at the first one present. */
  method FindExplicit(tl: string, dl: string) returns (found: bool)
    ensures found == Explicit(tl, dl)
  {
    var forms := ExplicitForms(dl);
    var k := 0;
    while k < |forms|
      invariant 0 <= k <= |forms|
      invariant forall j :: 0 <= j < k ==> !Contains(tl, forms[j])
    {
      if Contains(tl, forms[k]) {
        return true;
      }
      k := k + 1;
    }
    return false;
  }

  method CheckReferences(text: string, hs: seq<Heading>, name: string) returns (errors: seq<ValidationError>)
    ensures errors == ReferenceErrors(LowerStr(text), hs, name)
  {
    var tl := LowerStr(text);
    errors := [];
    var i := 0;
    while i < |hs|
      invariant 0 <= i <= |hs|
      invariant errors == ReferenceErrors(tl, hs[..i], name)
    {
      assert hs[..i + 1][..i] == hs[..i];
      var d := hs[i].designation;
      var dl := LowerStr(d);
      var explicit := FindExplicit(tl, dl);
      if !explicit && !InWords(tl, dl) && !BoundedIn(tl, dl) {
        errors := errors + [ReferenceError(name, d)];
      }
      i := i + 1;
    }
    assert hs[..|hs|] == hs;
  }

  class AppendixCheck {
    const base: BaseCheck
    var appendixPattern: Value
    var requireReference: Value
    var allowedTypes: Value
    var maxDesignationLength: Value
    var requireUppercase: Value
    var requireSpace: Value
    var allowDotAfter: Value
    var allowParentheses: Value

    /** Leaves the allowed types and the maximum length unset: `run` needs `set_rules` first. */
    constructor()
      ensures fresh(base) && base.rules == Null
      ensures base.checkId == "appendices" && base.checkName == "Оформление приложений"
      ensures appendixPattern == Str(StrictPattern) && requireReference == Bool(true)
      ensures allowedTypes == Null && maxDesignationLength == Null
      ensures requireUppercase == Bool(true) && requireSpace == Bool(true)
      ensures allowDotAfter == Bool(true) && allowParentheses == Bool(true)
    {
      base := new BaseCheck("appendices", "Оформление приложений");
      appendixPattern := Str(StrictPattern);
      requireReference := Bool(true);
      allowedTypes := Null;
      maxDesignationLength := Null;
      requireUppercase := Bool(true);
      requireSpace := Bool(true);
      allowDotAfter := Bool(true);
      allowParentheses := Bool(true);
    }

    /** Every field is read from the appendix section, each with its own default; the old values do not survive. */
    method SetRules(rules: Value)
      requires AcceptsRules(rules)
      modifies this, base
      ensures base.rules == rules
      ensures appendixPattern == Get(AppendixRules(rules), "pattern", Str(RelaxedPattern))
      ensures allowedTypes == Get(Designations(rules), "types", StrList(DefaultTypes))
      ensures maxDesignationLength == Get(Designations(rules), "max_length", Int(DefaultMaxLength))
      ensures requireUppercase == Get(Validation(rules), "require_uppercase", Bool(true))
      ensures requireSpace == Get(Validation(rules), "require_space", Bool(true))
      ensures allowDotAfter == Get(Validation(rules), "allow_dot_after", Bool(true))
      ensures allowParentheses == Get(Validation(rules), "allow_parentheses", Bool(true))
      ensures requireReference == Get(AppendixRules(rules), "require_reference", Bool(true))
    {
      base.SetRules(rules);
      var config := base.SafeGetRule(AppendixPath, Dict(map[]));
      appendixPattern := Get(config, "pattern", Str(RelaxedPattern));
      var designations := Get(config, "allowed_designations", Dict(map[]));
      allowedTypes := Get(designations, "types", StrList(DefaultTypes));
      maxDesignationLength := Get(designations, "max_length", Int(DefaultMaxLength));
      var validation := Get(config, "validation", Dict(map[]));
      requireUppercase := Get(validation, "require_uppercase", Bool(true));
      requireSpace := Get(validation, "require_space", Bool(true));
      allowDotAfter := Get(validation, "allow_dot_after", Bool(true));
      allowParentheses := Get(validation, "allow_parentheses", Bool(true));
      requireReference := Get(config, "require_reference", Bool(true));
    }

    /** `run` raises on the first heading unless the types are a list of strings and the maximum length a number. */
    predicate Runnable(doc: Document)
      reads this
    {
      TextHeadings(doc.rawText) == [] || Configured(allowedTypes, maxDesignationLength)
    }

    function Outcome(doc: Document): (r: CheckResult)
      reads this
      requires Runnable(doc)
      ensures r.checkId == base.checkId && r.checkName == base.checkName
      ensures r.errors == Errors(doc.rawText, allowedTypes, maxDesignationLength, requireSpace, requireUppercase, requireReference, base.checkName)
      ensures r.status != Error && (r.status == Passed <==> r.errors == [])
    {
      var errors := Errors(doc.rawText, allowedTypes, maxDesignationLength, requireSpace, requireUppercase, requireReference, base.checkName);
      base.CreateResult(if errors == [] then Passed else Failed, Some(errors))
    }

    /** `_validate_appendix_format`: the space and case flags for one heading line. */
    method ValidateFormat(line: string) returns (spaceIssue: bool, caseIssue: bool)
      ensures spaceIssue == SpaceIssue(line, requireSpace)
      ensures caseIssue == CaseIssue(line, requireUppercase)
    {
      spaceIssue := false;
      caseIssue := false;
      var upper := UpperStr(line);
      if Truthy(requireSpace) {
        if !(StartsWith(upper, Keyword) && |Keyword| < |upper| && IsSpace(upper[|Keyword|])) {
          spaceIssue := true;
        }
      }
      if Truthy(requireUppercase) {
        if !StartsWith(line, Keyword) {
          caseIssue := true;
        }
      }
    }

    /** The messages for one heading, gathered in order. */
    method DescribeIssues(h: Heading) returns (issues: seq<string>)
      requires Configured(allowedTypes, maxDesignationLength)
      ensures issues == Issues(h, allowedTypes, maxDesignationLength, requireSpace, requireUppercase)
    {
      issues := [];
      var kind := KindName(KindOf(h.designation));
      if !In(kind, allowedTypes) {
        issues := issues + ["Тип обозначения '" + kind + "' не разрешён. Допустимые типы: " + Join(Strings(allowedTypes), ", ")];
      }
      if |h.designation| > AsInt(maxDesignationLength) {
        issues := issues + ["Обозначение '" + h.designation + "' слишком длинное. Максимум: " + NumberText(maxDesignationLength) + " символов"];
      }
      var spaceIssue, caseIssue := ValidateFormat(h.original);
      if spaceIssue {
        issues := issues + [SpaceMessage];
      }
      if caseIssue {
        issues := issues + [CaseMessage];
      }
    }

    method ReportHeadings(hs: seq<Heading>) returns (errors: seq<ValidationError>)
      requires hs == [] || Configured(allowedTypes, maxDesignationLength)
      ensures errors == HeadingErrors(hs, allowedTypes, maxDesignationLength, requireSpace, requireUppercase, base.checkName)
    {
      errors := [];
      var i := 0;
      while i < |hs|
        invariant 0 <= i <= |hs|
        invariant errors == HeadingErrors(hs[..i], allowedTypes, maxDesignationLength, requireSpace, requireUppercase, base.checkName)
      {
        HeadingErrorsStep(hs, i, allowedTypes, maxDesignationLength, requireSpace, requireUppercase, base.checkName);
        var issues := DescribeIssues(hs[i]);
        if issues != [] {
          errors := errors + [HeadingError(base.checkName, hs[i], issues)];
        }
        i := i + 1;
      }
      assert hs[..|hs|] == hs;
    }

    method Run(doc: Document) returns (r: CheckResult)
      requires Runnable(doc)
      ensures r == Outcome(doc)
    {
      var text := doc.rawText;
      var lines := Split(text, '\n');
      var hs := CollectHeadings(lines);
      var errors := ReportHeadings(hs);
      if Truthy(requireReference) && hs != [] {
        var missing := CheckReferences(text, hs, base.checkName);
        errors := errors + missing;
      }
      r := base.CreateResult(if errors == [] then Passed else Failed, Some(errors));
    }
  }
}
