/**
 * Section numbering: every section whose title starts with a digit must
 * match the configured numbering pattern and must not be nested deeper
 * than the configured maximum level.
 */
module SectionNumbering {
  import opened Wrappers
  import opened Text
  import opened Config
  import opened Models
  import opened Base
  import opened Scan

  const DefaultPattern: string := @"^\d+(\.\d+)*\s+.+$"
  const DefaultMaxLevel: int := 3
  const PatternPath: string := "gost_2_105.section_numbering.pattern"
  const MaxLevelPath: string := "gost_2_105.section_numbering.max_level"
  const Gost: string := "ГОСТ 2.105, раздел 4.2"

  // ---------------------------------------------------------------------
  // The default pattern `^\d+(\.\d+)*\s+.+$`, matched with `re.match`

  predicate NoNewline(s: string) { forall i :: 0 <= i < |s| ==> s[i] != '\n' }

  /**
   * Where `.+$` must stop: `.` never matches '\n', and `$` matches at the
   * end or just before a final '\n'.
   */
  function LineEnd(t: string): (l: nat)
    ensures l <= |t| && (l == |t| || (l == |t| - 1 && t[l] == '\n'))
  {
    if |t| > 0 && t[|t| - 1] == '\n' then |t| - 1 else |t|
  }

  /**
   * One way the pattern can match `t`: the number is `t[..e]`, the `\s+`
   * part is `t[e..e + k]` and the `.+` part runs from there to the end of
   * the line.
   */
  ghost predicate DefaultMatchAt(t: string, e: nat, k: nat) {
    0 < e && 1 <= k && e + k < LineEnd(t)
    && DottedNumber(t[..e]) && AllSpace(t[e..e + k]) && NoNewline(t[e + k..LineEnd(t)])
  }

  /** Index just after the last '\n' of `t[lo..hi]`, or `lo` when there is none. */
  function AfterLastNewline(t: string, lo: nat, hi: nat): (r: nat)
    requires lo <= hi <= |t|
    decreases hi
    ensures lo <= r <= hi
  {
    if hi == lo then lo
    else if t[hi - 1] == '\n' then hi
    else AfterLastNewline(t, lo, hi - 1)
  }

  lemma {:induction false} AfterLastNewlineFacts(t: string, lo: nat, hi: nat)
    requires lo <= hi <= |t|
    decreases hi
    ensures NoNewline(t[AfterLastNewline(t, lo, hi)..hi])
    ensures AfterLastNewline(t, lo, hi) > lo ==> t[AfterLastNewline(t, lo, hi) - 1] == '\n'
  {
    if hi > lo && t[hi - 1] != '\n' {
      AfterLastNewlineFacts(t, lo, hi - 1);
      var r := AfterLastNewline(t, lo, hi - 1);
      assert t[r..hi] == t[r..hi - 1] + [t[hi - 1]];
    }
  }

  /**
   * The match decided directly: the greedy number, then the shortest run
   * of whitespace that gets past every line break before the end.
   */
  predicate MatchesDefault(t: string) {
    var e := NumberEnd(t, 0);
    var k := MinSpace(t);
    0 < e && e + k < LineEnd(t) && AllSpace(t[e..e + k])
  }

  /** The fewest whitespace characters after the number that get past every line break. */
  function MinSpace(t: string): (k: nat)
    ensures k >= 1
  {
    var e := NumberEnd(t, 0);
    var l := LineEnd(t);
    if e >= l then 1
    else
      var a := AfterLastNewline(t, e, l);
      if a - e > 1 then a - e else 1
  }

  /** The direct decision is a match: its number, its whitespace and its line. */
  lemma MatchesDefaultSound(t: string)
    requires MatchesDefault(t)
    ensures DefaultMatchAt(t, NumberEnd(t, 0), MinSpace(t))
  {
    var e := NumberEnd(t, 0);
    var l := LineEnd(t);
    var a := AfterLastNewline(t, e, l);
    var k := MinSpace(t);
    NumberEndFacts(t, 0);
    AfterLastNewlineFacts(t, e, l);
    assert t[0..e] == t[..e];
    var tail := t[e + k..l];
    var after := t[a..l];
    forall i | 0 <= i < |tail| ensures tail[i] != '\n' {
      assert tail[i] == after[i + (e + k - a)];
    }
  }

  /** Any match of the pattern is found by the direct decision. */
  lemma MatchesDefaultComplete(t: string, e': nat, k': nat)
    requires DefaultMatchAt(t, e', k')
    ensures MatchesDefault(t)
  {
    var spaces := t[e'..e' + k'];
    assert IsSpace(t[e']) by { assert t[e'] == spaces[0]; }
    assert t[..e'] == t[0..e'];
    NumberEndUnique(t, 0, e');
    var l := LineEnd(t);
    var a := AfterLastNewline(t, e', l);
    AfterLastNewlineFacts(t, e', l);
    if a > e' + k' {
      var rest := t[e' + k'..l];
      assert t[a - 1] == rest[a - 1 - (e' + k')];
    }
    var k := MinSpace(t);
    var shorter := t[e'..e' + k];
    forall i | 0 <= i < k ensures IsSpace(shorter[i]) {
      assert shorter[i] == spaces[i];
    }
  }

  /** The direct decision agrees with the regex's own semantics, in both directions. */
  lemma MatchesDefaultIff(t: string)
    ensures MatchesDefault(t) <==> exists e: nat, k: nat :: DefaultMatchAt(t, e, k)
  {
    if MatchesDefault(t) {
      MatchesDefaultSound(t);
    }
    if exists e: nat, k: nat :: DefaultMatchAt(t, e, k) {
      var e: nat, k: nat :| DefaultMatchAt(t, e, k);
      MatchesDefaultComplete(t, e, k);
    }
  }

  // ---------------------------------------------------------------------
  // Per-section diagnostics

  /** `section.get('title', '')` */
  function Title(s: Section): string { s.title.GetOr("") }

  /** `re.match(r'^\d', title)` */
  predicate StartsWithDigit(title: string) { |title| > 0 && IsDigit(title[0]) }

  /** Nesting depth: one more than the number of dots anywhere in the title. */
  function Level(title: string): (n: nat)
    ensures n == Count(title, '.') + 1
  {
    if '.' in title then Count(title, '.') + 1
    else
      CountAbsent(title, '.');
      1
  }

  function PatternTypeError(name: string): ValidationError {
    ValidationError(name, "Паттерн для проверки нумерации не является строкой",
      recommendation := "Проверьте конфигурационный файл",
      gostReference := "ГОСТ 2.105")
  }

  function PatternError(name: string, title: string): ValidationError {
    ValidationError(name, "Некорректный формат нумерации раздела: '" + title + "'",
      recommendation := "Используйте формат: '1. Название', '1.1. Подраздел' (арабские цифры)",
      gostReference := Gost)
  }

  function DepthError(name: string, title: string, maxLevel: Value): ValidationError
    requires IsNumber(maxLevel)
  {
    ValidationError(name,
      "Превышена максимальная глубина вложенности (" + NatToString(Level(title)) + " > "
        + NumberText(maxLevel) + "): '" + title + "'",
      recommendation := "Упростите структуру, максимальный уровень: " + NumberText(maxLevel),
      gostReference := Gost)
  }

  /**
   * The diagnostics for one title: none when it does not start with a
   * digit, otherwise the pattern error and then the depth error, each
   * present exactly when its own rule is broken.
   */
  function SectionErrors(title: string, maxLevel: Value, name: string): (r: seq<ValidationError>)
    requires IsNumber(maxLevel)
    ensures !StartsWithDigit(title) ==> r == []
    ensures StartsWithDigit(title) ==>
      |r| == (if MatchesDefault(title) then 0 else 1) + (if Level(title) > AsInt(maxLevel) then 1 else 0)
    ensures StartsWithDigit(title) && !MatchesDefault(title) ==> r[0] == PatternError(name, title)
    ensures StartsWithDigit(title) && Level(title) > AsInt(maxLevel) ==> r[|r| - 1] == DepthError(name, title, maxLevel)
  {
    if !StartsWithDigit(title) then []
    else
      (if MatchesDefault(title) then [] else [PatternError(name, title)])
      + (if Level(title) > AsInt(maxLevel) then [DepthError(name, title, maxLevel)] else [])
  }

  /** The diagnostics for the sections in order, at most two per section. */
  function Errors(sections: seq<Section>, maxLevel: Value, name: string): (r: seq<ValidationError>)
    requires IsNumber(maxLevel)
    ensures |r| <= 2 * |sections|
  {
    if sections == [] then []
    else
      Errors(sections[..|sections| - 1], maxLevel, name)
      + SectionErrors(Title(sections[|sections| - 1]), maxLevel, name)
  }

  /** One more section appends its own diagnostics. */
  lemma ErrorsStep(sections: seq<Section>, i: nat, maxLevel: Value, name: string)
    requires IsNumber(maxLevel) && i < |sections|
    ensures Errors(sections[..i + 1], maxLevel, name)
      == Errors(sections[..i], maxLevel, name) + SectionErrors(Title(sections[i]), maxLevel, name)
  {
    assert sections[..i + 1][..i] == sections[..i];
  }

  /** A title that passes both rules, or is skipped. */
  predicate SectionOk(title: string, maxLevel: Value)
    requires IsNumber(maxLevel)
  {
    !StartsWithDigit(title) || (MatchesDefault(title) && Level(title) <= AsInt(maxLevel))
  }

  /** No diagnostic exactly when every section is skipped or passes both rules. */
  lemma {:induction false} ErrorsEmptyIff(sections: seq<Section>, maxLevel: Value, name: string)
    requires IsNumber(maxLevel)
    ensures Errors(sections, maxLevel, name) == []
      <==> forall i :: 0 <= i < |sections| ==> SectionOk(Title(sections[i]), maxLevel)
  {
    if sections != [] {
      var p := sections[..|sections| - 1];
      ErrorsEmptyIff(p, maxLevel, name);
      assert forall i :: 0 <= i < |p| ==> sections[i] == p[i];
    }
  }

  /** A run of digits is a dotted number with no dot. */
  lemma DigitsDotted(x: string)
    requires |x| > 0 && AllDigits(x)
    ensures DottedNumber(x)
  {
  }

  lemma SubsectionMatches(x: string, y: string, h: string)
    requires |x| > 0 && |y| > 0 && AllDigits(x) && AllDigits(y)
    requires |h| > 0 && '\n' !in h
    ensures MatchesDefault(x + "." + y + " " + h)
  {
    var n := x + "." + y;
    var t := n + " " + h;
    var e := |n|;
    assert t[..e] == n && t[e] == ' ';
    assert DottedNumber(n) by {
      forall a, b | 0 <= a < b < |n| && b == a + 1 ensures IsDigit(n[a]) || IsDigit(n[b]) {
        if a < |x| { assert n[a] == x[a]; } else { assert n[b] == y[b - |x| - 1]; }
      }
      assert n[|n| - 1] == y[|y| - 1];
      assert forall k :: 0 <= k < |n| ==> IsDigit(n[k]) || n[k] == '.' by {
        forall k | 0 <= k < |n| ensures IsDigit(n[k]) || n[k] == '.' {
          if k < |x| { assert n[k] == x[k]; } else if k > |x| { assert n[k] == y[k - |x| - 1]; }
        }
      }
    }
    NumberEndUnique(t, 0, e);
    assert t[|t| - 1] == h[|h| - 1];
    var a := AfterLastNewline(t, e, |t|);
    AfterLastNewlineFacts(t, e, |t|);
    assert t[e..e + 1] == " ";
  }

  lemma SubsectionLevel(x: string, y: string, h: string)
    requires AllDigits(x) && AllDigits(y) && '.' !in h
    ensures Level(x + "." + y + " " + h) == 2
  {
    CountAppend(x + "." + y + " ", h, '.');
    CountAppend(x + "." + y, " ", '.');
    CountAppend(x + ".", y, '.');
    CountAppend(x, ".", '.');
    CountAbsent(x, '.');
    CountAbsent(y, '.');
    CountAbsent(h, '.');
  }

  /** "N.M Heading" (say "1.1 Назначение") is well formed under the defaults. */
  lemma SubsectionAccepted(x: string, y: string, h: string, name: string)
    requires |x| > 0 && |y| > 0 && AllDigits(x) && AllDigits(y)
    requires |h| > 0 && '.' !in h && '\n' !in h
    ensures SectionErrors(x + "." + y + " " + h, Int(DefaultMaxLevel), name) == []
  {
    SubsectionMatches(x, y, h);
    SubsectionLevel(x, y, h);
  }

  /**
   * "N. Heading" (say "1. Название"), the form the pattern error itself
   * recommends, breaks the default pattern: whitespace must follow the
   * last digit group directly.
   */
  lemma RecommendedFormRejected(x: string, h: string, name: string)
    requires |x| > 0 && AllDigits(x) && '.' !in h
    ensures SectionErrors(x + ". " + h, Int(DefaultMaxLevel), name) == [PatternError(name, x + ". " + h)]
  {
    RecommendedFormMismatch(x, h);
    RecommendedFormLevel(x, h);
  }

  lemma RecommendedFormMismatch(x: string, h: string)
    requires |x| > 0 && AllDigits(x)
    ensures !MatchesDefault(x + ". " + h)
  {
    var t := x + ". " + h;
    var e := |x|;
    assert t[..e] == x && t[e] == '.' && t[e + 1] == ' ';
    DigitsDotted(x);
    NumberEndUnique(t, 0, e);
    var k := MinSpace(t);
    assert e + k <= |t| ==> t[e..e + k][0] == '.';
  }

  lemma RecommendedFormLevel(x: string, h: string)
    requires AllDigits(x) && '.' !in h
    ensures Level(x + ". " + h) == 2
  {
    assert x + ". " + h == x + "." + " " + h;
    CountAppend(x + "." + " ", h, '.');
    CountAppend(x + ".", " ", '.');
    CountAppend(x, ".", '.');
    CountAbsent(x, '.');
    CountAbsent(h, '.');
  }

  // ---------------------------------------------------------------------
  // The check

  class SectionNumberingCheck {
    const base: BaseCheck
    var numberingPattern: Value
    var maxLevel: Value

    constructor()
      ensures fresh(base) && base.rules == Null
      ensures base.checkId == "section_numbering" && base.checkName == "Нумерация разделов и подразделов"
      ensures numberingPattern == Str(DefaultPattern) && maxLevel == Int(DefaultMaxLevel)
    {
      base := new BaseCheck("section_numbering", "Нумерация разделов и подразделов");
      numberingPattern := Str(DefaultPattern);
      maxLevel := Int(DefaultMaxLevel);
    }

    /** Each field keeps its value unless the configuration holds one under its path. */
    method SetRules(rules: Value)
      modifies this, base
      ensures base.rules == rules
      ensures numberingPattern == RuleAt(rules, PatternPath, old(numberingPattern))
      ensures maxLevel == RuleAt(rules, MaxLevelPath, old(maxLevel))
    {
      base.SetRules(rules);
      numberingPattern := base.SafeGetRule(PatternPath, numberingPattern);
      maxLevel := base.SafeGetRule(MaxLevelPath, maxLevel);
    }

    /**
     * A non-string pattern is reported; otherwise the pattern is the
     * default one and the maximum level a number `>` can compare with.
     */
    predicate Runnable()
      reads this
    {
      !numberingPattern.Str? || (numberingPattern == Str(DefaultPattern) && IsNumber(maxLevel))
    }

    function Outcome(doc: Document): (r: CheckResult)
      reads this
      requires Runnable()
      ensures r.checkId == base.checkId && r.checkName == base.checkName
      ensures !numberingPattern.Str? ==> r.status == Error && r.errors == [PatternTypeError(base.checkName)]
      ensures numberingPattern.Str? ==> r.errors == Errors(doc.sections, maxLevel, base.checkName)
      ensures numberingPattern.Str? ==> r.status != Error && (r.status == Passed <==> r.errors == [])
    {
      if !numberingPattern.Str? then
        base.CreateResult(Error, Some([PatternTypeError(base.checkName)]))
      else
        var errors := Errors(doc.sections, maxLevel, base.checkName);
        base.CreateResult(if errors == [] then Passed else Failed, Some(errors))
    }

    /** The body of the loop over sections: the diagnostics for one title. */
    method CheckTitle(title: string, name: string) returns (errors: seq<ValidationError>)
      requires numberingPattern.Str? && Runnable()
      ensures errors == SectionErrors(title, maxLevel, name)
    {
      errors := [];
      if !StartsWithDigit(title) {
        return;
      }
      if !MatchesDefault(title) {
        errors := errors + [PatternError(name, title)];
      }
      var level := Level(title);
      if level > AsInt(maxLevel) {
        errors := errors + [DepthError(name, title, maxLevel)];
      }
    }

    method Run(doc: Document) returns (r: CheckResult)
      requires Runnable()
      ensures r == Outcome(doc)
    {
      var name := base.checkName;
      if !numberingPattern.Str? {
        r := base.CreateResult(Error, Some([PatternTypeError(name)]));
        return;
      }
      var errors: seq<ValidationError> := [];
      var i := 0;
      while i < |doc.sections|
        invariant 0 <= i <= |doc.sections|
        invariant errors == Errors(doc.sections[..i], maxLevel, name)
      {
        var title := Title(doc.sections[i]);
        ErrorsStep(doc.sections, i, maxLevel, name);
        var sectionErrors := CheckTitle(title, name);
        errors := errors + sectionErrors;
        i := i + 1;
      }
      assert doc.sections[..|doc.sections|] == doc.sections;
      r := base.CreateResult(if errors == [] then Passed else Failed, Some(errors));
    }
  }
}
