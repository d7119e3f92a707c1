/**
 * Formulas: numbered tokens "(N)" are classified as formulas by the words and
 * symbols around them; "[N]" and "{N}" near the word "формула" are reported
 * as wrong brackets; a formula nobody refers to is reported as unreferenced.
 */
module Formulas {
  import opened Wrappers
  import opened Text
  import opened Config
  import opened Models
  import opened Base
  import opened Scan

  const Gost: string := "ГОСТ 2.105, раздел 5.6"
  const PatternPath: string := "gost_2_105.formulas.numbering_pattern"
  const ReferencePath: string := "gost_2_105.formulas.require_reference"
  /** The constructor's `numbering_pattern`, `^\((\d+(\.\d+)*)\)$`. */
  const DefaultPattern: string := "^\\((\\d+(\\.\\d+)*)\\)$"
  /** How far around a "(N)" token the classifier looks. */
  const FormulaReach: nat := 30
  /** How far around a "[N]" or "{N}" token the bracket rule looks. */
  const BracketReach: nat := 20

  datatype Bracket = Round | Square | Curly

  function Open(b: Bracket): char {
    match b
    case Round => '('
    case Square => '['
    case Curly => '{'
  }

  function Close(b: Bracket): char {
    match b
    case Round => ')'
    case Square => ']'
    case Curly => '}'
  }

  /** A match of `\((\d+(\.\d+)*)\)` (or its `[]`/`{}` form): the token is `s[start..end]`. */
  datatype Token = Token(start: nat, end: nat)

  /** The end of the bracketed number that starts exactly at `p`, if one does. */
  function MatchAt(s: string, p: nat, b: Bracket): (e: Option<nat>)
    ensures e.Some? ==> p + 3 <= e.value <= |s|
  {
    if p < |s| && s[p] == Open(b) then
      var e := NumberEnd(s, p + 1);
      if e > p + 1 && e < |s| && s[e] == Close(b) then Some(e + 1) else None
    else None
  }

  /** `re.finditer` of the bracketed-number pattern from `p` on. */
  function FindAll(s: string, p: nat, b: Bracket): (r: seq<Token>)
    decreases |s| - p
    ensures InText(s, r)
    ensures forall k :: 0 <= k < |r| ==> p <= r[k].start
  {
    if p >= |s| then []
    else match MatchAt(s, p, b)
      case Some(e) => [Token(p, e)] + FindAll(s, e, b)
      case None => FindAll(s, p + 1, b)
  }

  /** Tokens lie in the text and hold at least one character between their brackets. */
  predicate InText(s: string, toks: seq<Token>) {
    forall k :: 0 <= k < |toks| ==> toks[k].start + 3 <= toks[k].end <= |s|
  }

  /** `match.group(1)`: the number inside the brackets. */
  function Number(s: string, t: Token): string
    requires t.start + 3 <= t.end <= |s|
  {
    s[t.start + 1..t.end - 1]
  }

  /** `match.group(0)`: the whole token. */
  function Whole(s: string, t: Token): string
    requires t.start + 3 <= t.end <= |s|
  {
    s[t.start..t.end]
  }

  /** A token is its two brackets around a dotted number that no digit or `.digits` group could extend. */
  lemma MatchShape(s: string, p: nat, b: Bracket)
    requires MatchAt(s, p, b).Some?
    ensures var e := MatchAt(s, p, b).value;
      s[p] == Open(b) && s[e - 1] == Close(b) && DottedNumber(s[p + 1..e - 1]) && EndsNumber(s, e - 1)
  {
    NumberEndFacts(s, p + 1);
  }

  /** Every token found is a match that starts where the token starts. */
  lemma {:induction false} FindAllSound(s: string, p: nat, b: Bracket)
    decreases |s| - p
    ensures forall k :: 0 <= k < |FindAll(s, p, b)| ==> MatchAt(s, FindAll(s, p, b)[k].start, b) == Some(FindAll(s, p, b)[k].end)
  {
    if p < |s| {
      match MatchAt(s, p, b)
      case Some(e) => FindAllSound(s, e, b);
      case None => FindAllSound(s, p + 1, b);
    }
  }

  /** Nothing is found exactly when no position from `p` on starts a match. */
  lemma {:induction false} FindAllEmptyIff(s: string, p: nat, b: Bracket)
    decreases |s| - p
    ensures FindAll(s, p, b) == [] <==> forall q :: p <= q < |s| ==> MatchAt(s, q, b).None?
  {
    if p < |s| && MatchAt(s, p, b).None? {
      FindAllEmptyIff(s, p + 1, b);
    }
  }

  // ---------------------------------------------------------------------
  // Which "(N)" tokens are formulas

  /** `text[max(0, a - r):min(len(text), b + r)]` */
  function Around(s: string, a: nat, b: nat, r: nat): (w: string)
    requires a <= b <= |s|
  {
    s[(if a >= r then a - r else 0)..(if b + r <= |s| then b + r else |s|)]
  }

  predicate HasMathChar(ctx: string) {
    '=' in ctx || '+' in ctx || '-' in ctx || '*' in ctx || '/' in ctx || '^' in ctx
  }

  /** `is_likely_formula` */
  predicate LikelyFormula(ctx: string) {
    Contains(ctx, "формул") || HasMathChar(ctx)
  }

  /** `is_likely_false_positive` */
  predicate LikelyFalse(ctx: string) {
    Contains(ctx, "год") || Contains(ctx, "рис") || Contains(ctx, "стр")
    || Contains(ctx, "пункт") || Contains(ctx, "см.")
  }

  /** The token starting at `p` counts as a formula, judged on the lower-cased text within 30 characters of its start. */
  predicate Genuine(s: string, p: nat)
    requires p <= |s|
  {
    var ctx := LowerStr(Around(s, p, p, FormulaReach));
    LikelyFormula(ctx) && !LikelyFalse(ctx)
  }

  /** `real_formulas`: the tokens that count as formulas, in text order. */
  function RealFormulas(s: string, toks: seq<Token>): (r: seq<Token>)
    requires InText(s, toks)
    ensures InText(s, r)
  {
    if toks == [] then []
    else
      var last := toks[|toks| - 1];
      RealFormulas(s, toks[..|toks| - 1]) + (if Genuine(s, last.start) then [last] else [])
  }

  /** A token is kept exactly when it was found and counts as a formula. */
  lemma {:induction false} RealFormulasIff(s: string, toks: seq<Token>, t: Token)
    requires InText(s, toks)
    ensures t in RealFormulas(s, toks) <==> t in toks && Genuine(s, t.start)
  {
    if toks != [] {
      var init := toks[..|toks| - 1];
      RealFormulasIff(s, init, t);
      assert toks == init + [toks[|toks| - 1]];
    }
  }

  /** No more formulas than tokens. */
  lemma {:induction false} RealFormulasBound(s: string, toks: seq<Token>)
    requires InText(s, toks)
    ensures |RealFormulas(s, toks)| <= |toks|
  {
    if toks != [] {
      RealFormulasBound(s, toks[..|toks| - 1]);
    }
  }

  /** "в 2023 году (5)" is no formula: the word "году" lies within reach of the token. */
  lemma YearIsNoFormula()
    ensures !Genuine("в 2023 году (5)", 12)
  {
    var s := "в 2023 году (5)";
    assert |s| == 15 && Around(s, 12, 12, FormulaReach) == s;
    var ctx := LowerStr(s);
    assert ctx[7] == 'г' && ctx[8] == 'о' && ctx[9] == 'д';
    assert ctx[7..10] == "год";
    assert OccursAt(ctx, "год", 7);
  }

  // ---------------------------------------------------------------------
  // Wrong brackets

  function BracketWord(b: Bracket): string {
    match b
    case Round => "круглых"
    case Square => "квадратных"
    case Curly => "фигурных"
  }

  function BracketError(name: string, b: Bracket, whole: string, number: string): ValidationError {
    ValidationError(name, "Формула " + whole + " в " + BracketWord(b) + " скобках",
      recommendation := "Исправьте на круглые скобки: (" + number + ")",
      gostReference := Gost)
  }

  /** The lower-cased text within 20 characters of either end of the token mentions a formula or an equation. */
  predicate NearEquation(s: string, t: Token)
    requires t.start <= t.end <= |s|
  {
    var ctx := LowerStr(Around(s, t.start, t.end, BracketReach));
    Contains(ctx, "формул") || Contains(ctx, "уравнен")
  }

  /** One error per `[N]`/`{N}` token that stands near the word "формула" or "уравнение", in match order. */
  function BracketErrors(s: string, toks: seq<Token>, b: Bracket, name: string): seq<ValidationError>
    requires InText(s, toks)
  {
    if toks == [] then []
    else
      var last := toks[|toks| - 1];
      BracketErrors(s, toks[..|toks| - 1], b, name)
      + (if NearEquation(s, last) then [BracketError(name, b, Whole(s, last), Number(s, last))] else [])
  }

  /** At most one error per token. */
  lemma {:induction false} BracketErrorsBound(s: string, toks: seq<Token>, b: Bracket, name: string)
    requires InText(s, toks)
    ensures |BracketErrors(s, toks, b, name)| <= |toks|
  {
    if toks != [] {
      BracketErrorsBound(s, toks[..|toks| - 1], b, name);
    }
  }

  /** No error exactly when no token stands near the word "формула" or "уравнение". */
  lemma {:induction false} BracketErrorsEmptyIff(s: string, toks: seq<Token>, b: Bracket, name: string)
    requires InText(s, toks)
    ensures BracketErrors(s, toks, b, name) == [] <==> forall k :: 0 <= k < |toks| ==> !NearEquation(s, toks[k])
  {
    if toks != [] {
      var init := toks[..|toks| - 1];
      BracketErrorsEmptyIff(s, init, b, name);
      assert forall k :: 0 <= k < |init| ==> init[k] == toks[k];
    }
  }

  // ---------------------------------------------------------------------
  // References

  /**
   * The number is spliced into the reference patterns without escaping, so
   * each '.' of it is a regex wildcard: any character but a line break.
   */
  predicate CharFits(pc: char, c: char) {
    if pc == '.' then c != '\n' else c == pc
  }

  /** `\(N\)` with the number `num` spliced in stands at `i`. */
  predicate ParenAt(s: string, i: nat, num: string) {
    i + |num| + 2 <= |s| && s[i] == '(' && s[i + |num| + 1] == ')'
    && forall k :: 0 <= k < |num| ==> CharFits(num[k], s[i + 1 + k])
  }

  /** The five phrasings that count as a reference, in the order they are tried. */
  datatype Phrasing = FormulaWord | ByFormula | FormulaAbbrev | FormulaDot | DoubleParen

  const Phrasings: seq<Phrasing> := [FormulaWord, ByFormula, FormulaAbbrev, FormulaDot, DoubleParen]

  /**
   * One phrasing, matched case-insensitively, starts at `i`:
   * `формул[аеуы]\s*\(N\)`, `по формуле\s*\(N\)`, `ф-ла\s*\(N\)`,
   * `ф\.\s*\(N\)` or `\(\(N\)\)`.
   */
  predicate PhraseAt(s: string, i: nat, num: string, ph: Phrasing) {
    match ph
    case FormulaWord =>
      CiOccursAt(s, "формул", i) && i + 6 < |s| && Lower(s[i + 6]) in "аеуы"
      && ParenAt(s, i + 7 + SpaceRun(s, i + 7), num)
    case ByFormula =>
      CiOccursAt(s, "по формуле", i) && ParenAt(s, i + 10 + SpaceRun(s, i + 10), num)
    case FormulaAbbrev =>
      CiOccursAt(s, "ф-ла", i) && ParenAt(s, i + 4 + SpaceRun(s, i + 4), num)
    case FormulaDot =>
      CiOccursAt(s, "ф.", i) && ParenAt(s, i + 2 + SpaceRun(s, i + 2), num)
    case DoubleParen =>
      i + |num| + 4 <= |s| && s[i] == '(' && ParenAt(s, i + 1, num) && s[i + |num| + 3] == ')'
  }

  /** `re.search(pattern, text, re.IGNORECASE)` for one phrasing, from `i` on. */
  function Search(s: string, num: string, ph: Phrasing, i: nat): bool
    decreases |s| - i
  {
    i < |s| && (PhraseAt(s, i, num, ph) || Search(s, num, ph, i + 1))
  }

  lemma {:induction false} SearchIff(s: string, num: string, ph: Phrasing, i: nat)
    decreases |s| - i
    ensures Search(s, num, ph, i) <==> exists j :: i <= j < |s| && PhraseAt(s, j, num, ph)
  {
    if i < |s| {
      SearchIff(s, num, ph, i + 1);
    }
  }

  /** `ref_found` */
  predicate Referenced(s: string, num: string) {
    exists k :: 0 <= k < |Phrasings| && Search(s, num, Phrasings[k], 0)
  }

  /** `re.search(rf'\({num}\)', text)`: the first place the bare token stands, from `i` on. */
  function FirstParen(s: string, num: string, i: nat): (r: Option<nat>)
    decreases |s| - i
    ensures r.Some? ==> i <= r.value && ParenAt(s, r.value, num)
    ensures forall j :: i <= j && (r.None? || j < r.value) ==> !ParenAt(s, j, num)
  {
    if i >= |s| then None
    else if ParenAt(s, i, num) then Some(i)
    else FirstParen(s, num, i + 1)
  }

  /** No phrasing matches, and no earlier bare "(N)" exists that could be a reference. */
  predicate Unreferenced(s: string, t: Token)
    requires t.start + 3 <= t.end <= |s|
  {
    var num := Number(s, t);
    !Referenced(s, num) && (FirstParen(s, num, 0).None? || FirstParen(s, num, 0).value == t.start)
  }

  function ReferenceError(name: string, whole: string): ValidationError {
    ValidationError(name, "Не найдена ссылка на формулу " + whole,
      recommendation := "Добавьте в текст: '... по формуле " + whole + " ...'",
      gostReference := Gost)
  }

  /** One error per unreferenced formula, in text order. */
  function ReferenceErrors(s: string, formulas: seq<Token>, name: string): seq<ValidationError>
    requires InText(s, formulas)
  {
    if formulas == [] then []
    else
      var last := formulas[|formulas| - 1];
      ReferenceErrors(s, formulas[..|formulas| - 1], name)
      + (if Unreferenced(s, last) then [ReferenceError(name, Whole(s, last))] else [])
  }

  /** A round token matches its own bare form. */
  lemma TokenMatchesItself(s: string, t: Token)
    requires MatchAt(s, t.start, Round) == Some(t.end)
    ensures ParenAt(s, t.start, Number(s, t))
  {
    var num := Number(s, t);
    forall k | 0 <= k < |num| ensures CharFits(num[k], s[t.start + 1 + k]) {
      assert num[k] == s[t.start + 1 + k];
    }
  }

  /** A formula is reported exactly when no phrasing matches and no bare "(N)" precedes it. */
  lemma UnreferencedIff(s: string, t: Token)
    requires MatchAt(s, t.start, Round) == Some(t.end)
    ensures Unreferenced(s, t) <==> !Referenced(s, Number(s, t)) && forall j :: 0 <= j < t.start ==> !ParenAt(s, j, Number(s, t))
  {
    TokenMatchesItself(s, t);
  }

  /** `по формуле\s*\(N\)` is also a match of `формул[аеуы]\s*\(N\)`, three characters later. */
  lemma ByFormulaIsFormulaWord(s: string, i: nat, num: string)
    requires PhraseAt(s, i, num, ByFormula)
    ensures PhraseAt(s, i + 3, num, FormulaWord)
  {
    var w := LowerStr(s[i..i + 10]);
    assert LowerStr(s[i + 3..i + 9]) == w[3..9];
    assert Lower(s[i + 9]) == w[9];
  }

  /** "по формуле (N)" written right before the formula refers to it, so it is not reported. */
  lemma ByFormulaRefersToItself(s: string, i: nat, t: Token)
    requires MatchAt(s, t.start, Round) == Some(t.end)
    requires CiOccursAt(s, "по формуле", i) && i + 10 + SpaceRun(s, i + 10) == t.start
    ensures Referenced(s, Number(s, t)) && !Unreferenced(s, t)
  {
    var num := Number(s, t);
    TokenMatchesItself(s, t);
    assert PhraseAt(s, i, num, ByFormula);
    SearchIff(s, num, ByFormula, 0);
    assert Phrasings[1] == ByFormula;
  }

  /** The number "1.2" spliced into a pattern also matches "(1x2)". */
  lemma DotIsWildcard()
    ensures ParenAt("(1x2)", 0, "1.2")
  {
    var s := "(1x2)";
    assert CharFits('1', s[1]) && CharFits('.', s[2]) && CharFits('2', s[3]);
  }

  /** At most one error per formula. */
  lemma {:induction false} ReferenceErrorsBound(s: string, formulas: seq<Token>, name: string)
    requires InText(s, formulas)
    ensures |ReferenceErrors(s, formulas, name)| <= |formulas|
  {
    if formulas != [] {
      ReferenceErrorsBound(s, formulas[..|formulas| - 1], name);
    }
  }

  /** No error exactly when every formula is referenced or preceded by its bare number. */
  lemma {:induction false} ReferenceErrorsEmptyIff(s: string, formulas: seq<Token>, name: string)
    requires InText(s, formulas)
    ensures ReferenceErrors(s, formulas, name) == [] <==> forall k :: 0 <= k < |formulas| ==> !Unreferenced(s, formulas[k])
  {
    if formulas != [] {
      var init := formulas[..|formulas| - 1];
      ReferenceErrorsEmptyIff(s, init, name);
      assert forall k :: 0 <= k < |init| ==> init[k] == formulas[k];
    }
  }

  /** Square-bracket errors, then curly-bracket errors, then reference errors. */
  /**
   * The errors of a text: none exactly when no square- or curly-bracketed
   * number stands near "формул" or "уравнен" and every formula is referred to.
   */
  function Errors(s: string, name: string): (r: seq<ValidationError>)
    ensures var sq, cu, fs := FindAll(s, 0, Square), FindAll(s, 0, Curly), RealFormulas(s, FindAll(s, 0, Round));
      r == [] <==>
        (forall k :: 0 <= k < |sq| ==> !NearEquation(s, sq[k]))
        && (forall k :: 0 <= k < |cu| ==> !NearEquation(s, cu[k]))
        && (forall k :: 0 <= k < |fs| ==> !Unreferenced(s, fs[k]))
  {
    var sq, cu, fs := FindAll(s, 0, Square), FindAll(s, 0, Curly), RealFormulas(s, FindAll(s, 0, Round));
    BracketErrorsEmptyIff(s, sq, Square, name);
    BracketErrorsEmptyIff(s, cu, Curly, name);
    ReferenceErrorsEmptyIff(s, fs, name);
    BracketErrors(s, sq, Square, name) + BracketErrors(s, cu, Curly, name) + ReferenceErrors(s, fs, name)
  }

  /** A text without any bracketed number passes. */
  lemma NoTokensNoErrors(s: string, name: string)
    requires forall q :: 0 <= q < |s| ==> MatchAt(s, q, Round).None? && MatchAt(s, q, Square).None? && MatchAt(s, q, Curly).None?
    ensures Errors(s, name) == []
  {
    FindAllEmptyIff(s, 0, Round);
    FindAllEmptyIff(s, 0, Square);
    FindAllEmptyIff(s, 0, Curly);
  }

  // ---------------------------------------------------------------------
  // The steps of `run`

  method ScanTokens(text: string, b: Bracket) returns (toks: seq<Token>)
    ensures toks == FindAll(text, 0, b)
  {
    toks := [];
    var p := 0;
    while p < |text|
      invariant 0 <= p
      invariant toks + FindAll(text, p, b) == FindAll(text, 0, b)
      decreases |text| - p
    {
      var e := MatchAt(text, p, b);
      if e.Some? {
        toks := toks + [Token(p, e.value)];
        p := e.value;
      } else {
        p := p + 1;
      }
    }
  }

  method SelectFormulas(text: string, toks: seq<Token>) returns (formulas: seq<Token>)
    requires InText(text, toks)
    ensures formulas == RealFormulas(text, toks)
  {
    formulas := [];
    var i := 0;
    while i < |toks|
      invariant 0 <= i <= |toks|
      invariant formulas == RealFormulas(text, toks[..i])
    {
      assert toks[..i + 1][..i] == toks[..i];
      var ctx := LowerStr(Around(text, toks[i].start, toks[i].start, FormulaReach));
      if LikelyFormula(ctx) && !LikelyFalse(ctx) {
        formulas := formulas + [toks[i]];
      }
      i := i + 1;
    }
    assert toks[..|toks|] == toks;
  }

  method ReportBrackets(text: string, toks: seq<Token>, b: Bracket, name: string) returns (errors: seq<ValidationError>)
    requires InText(text, toks)
    ensures errors == BracketErrors(text, toks, b, name)
  {
    errors := [];
    var i := 0;
    while i < |toks|
      invariant 0 <= i <= |toks|
      invariant errors == BracketErrors(text, toks[..i], b, name)
    {
      assert toks[..i + 1][..i] == toks[..i];
      if NearEquation(text, toks[i]) {
        errors := errors + [BracketError(name, b, Whole(text, toks[i]), Number(text, toks[i]))];
      }
      i := i + 1;
    }
    assert toks[..|toks|] == toks;
  }

  /** The `ref_found` loop: tries the phrasings in order and stops at the first that matches. */
  method HasReference(text: string, num: string) returns (found: bool)
    ensures found == Referenced(text, num)
  {
    var k := 0;
    while k < |Phrasings|
      invariant 0 <= k <= |Phrasings|
      invariant forall j :: 0 <= j < k ==> !Search(text, num, Phrasings[j], 0)
    {
      if Search(text, num, Phrasings[k], 0) {
        return true;
      }
      k := k + 1;
    }
    return false;
  }

  method ReportReferences(text: string, formulas: seq<Token>, name: string) returns (errors: seq<ValidationError>)
    requires InText(text, formulas)
    ensures errors == ReferenceErrors(text, formulas, name)
  {
    errors := [];
    var i := 0;
    while i < |formulas|
      invariant 0 <= i <= |formulas|
      invariant errors == ReferenceErrors(text, formulas[..i], name)
    {
      assert formulas[..i + 1][..i] == formulas[..i];
      var num := Number(text, formulas[i]);
      var found := HasReference(text, num);
      if !found {
        var simple := FirstParen(text, num, 0);
        if simple.None? || simple.value == formulas[i].start {
          errors := errors + [ReferenceError(name, Whole(text, formulas[i]))];
        }
      }
      i := i + 1;
    }
    assert formulas[..|formulas|] == formulas;
  }

  class FormulaCheck {
    const base: BaseCheck
    var numberingPattern: Value
    var requireReference: Value

    constructor()
      ensures fresh(base) && base.rules == Null
      ensures base.checkId == "formulas" && base.checkName == "Оформление формул"
      ensures numberingPattern == Str(DefaultPattern) && requireReference == Bool(true)
    {
      base := new BaseCheck("formulas", "Оформление формул");
      numberingPattern := Str(DefaultPattern);
      requireReference := Bool(true);
    }

    /** Each field keeps its value unless the configuration holds one under its path. */
    method SetRules(rules: Value)
      modifies this, base
      ensures base.rules == rules
      ensures numberingPattern == RuleAt(rules, PatternPath, old(numberingPattern))
      ensures requireReference == RuleAt(rules, ReferencePath, old(requireReference))
    {
      base.SetRules(rules);
      numberingPattern := base.SafeGetRule(PatternPath, numberingPattern);
      requireReference := base.SafeGetRule(ReferencePath, requireReference);
    }

    /**
     * The result `run` returns. It reads neither configured field: the
     * numbering pattern and the reference switch have no effect.
     */
    function Outcome(doc: Document): (r: CheckResult)
      ensures r.checkId == base.checkId && r.checkName == base.checkName
      ensures r.errors == Errors(doc.rawText, base.checkName)
      ensures r.status != Error && (r.status == Passed <==> r.errors == [])
    {
      var errors := Errors(doc.rawText, base.checkName);
      base.CreateResult(if errors == [] then Passed else Failed, Some(errors))
    }

    method Run(doc: Document) returns (r: CheckResult)
      ensures r == Outcome(doc)
    {
      var text := doc.rawText;
      var round := ScanTokens(text, Round);
      var formulas := SelectFormulas(text, round);
      var square := ScanTokens(text, Square);
      var errors := ReportBrackets(text, square, Square, base.checkName);
      var curly := ScanTokens(text, Curly);
      var more := ReportBrackets(text, curly, Curly, base.checkName);
      errors := errors + more;
      var missing := ReportReferences(text, formulas, base.checkName);
      errors := errors + missing;
      r := base.CreateResult(if errors == [] then Passed else Failed, Some(errors));
    }
  }
}
