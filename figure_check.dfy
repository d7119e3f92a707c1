/**
 * Figures: a mention "Рисунок N" (any case, N a dotted number) that is
 * followed by nothing but whitespace for twenty characters has no caption.
 */
module Figures {
  import opened Wrappers
  import opened Text
  import opened Config
  import opened Models
  import opened Base
  import opened Scan

  /** The word of `(?i)рисунок\s+(\d+(\.\d+)*)`, matched in any case. */
  const FigureWord: string := "рисунок"
  /** How many characters after a mention must hold the caption. */
  const Window: nat := 20
  const Gost: string := "ГОСТ 2.105, раздел 5.4"
  const CaptionAdvice: string := "Добавьте наименование после номера рисунка"

  datatype Span = Span(start: nat, end: nat)

  /** The end of the figure mention that starts exactly at `p`, if one does. */
  function MatchAt(s: string, p: nat): (e: Option<nat>)
    ensures e.Some? ==> p < e.value <= |s|
  {
    if CiOccursAt(s, FigureWord, p) then
      var sp := SpaceRun(s, p + 7);
      var e := NumberEnd(s, p + 7 + sp);
      if sp > 0 && e > p + 7 + sp then Some(e) else None
    else None
  }

  /** `re.finditer(figure_pattern, text)` from `p` on. */
  function FindAll(s: string, p: nat): (r: seq<Span>)
    decreases |s| - p
    ensures forall k :: 0 <= k < |r| ==> p <= r[k].start < r[k].end <= |s|
  {
    if p >= |s| then []
    else match MatchAt(s, p)
      case Some(e) => [Span(p, e)] + FindAll(s, e)
      case None => FindAll(s, p + 1)
  }

  /**
   * A mention is the word in any case, whitespace, and a dotted number that
   * no further digit or `.digits` group could extend.
   */
  lemma MatchShape(s: string, p: nat)
    requires MatchAt(s, p).Some?
    ensures var e := MatchAt(s, p).value;
      var q := p + 7 + SpaceRun(s, p + 7);
      LowerStr(s[p..p + 7]) == FigureWord && p + 7 < q < e
      && AllSpace(s[p + 7..q]) && DottedNumber(s[q..e]) && EndsNumber(s, e)
  {
    SpaceRunFacts(s, p + 7);
    NumberEndFacts(s, p + 7 + SpaceRun(s, p + 7));
  }

  /** Every span found is a mention that starts where the span starts. */
  lemma {:induction false} FindAllSound(s: string, p: nat)
    decreases |s| - p
    ensures forall k :: 0 <= k < |FindAll(s, p)| ==> MatchAt(s, FindAll(s, p)[k].start) == Some(FindAll(s, p)[k].end)
  {
    if p < |s| {
      match MatchAt(s, p)
      case Some(e) => FindAllSound(s, e);
      case None => FindAllSound(s, p + 1);
    }
  }

  // ---------------------------------------------------------------------
  // The caption rule

  /** The text after a mention ending at `e`: up to twenty characters. */
  function After(s: string, e: nat): (w: string)
    requires e <= |s|
    ensures |w| == if e + Window <= |s| then Window else |s| - e
  {
    if e + Window <= |s| then s[e..e + Window] else s[e..]
  }

  /** `end_pos < len(text) and text[end_pos:end_pos + 20].strip() == ""` */
  predicate Uncaptioned(s: string, e: nat)
    requires e <= |s|
  {
    e < |s| && AllSpace(After(s, e))
  }

  /** Flagged exactly when the mention does not end the text and every character of the window is whitespace. */
  lemma UncaptionedIff(s: string, e: nat)
    requires e <= |s|
    ensures Uncaptioned(s, e) <==> e < |s| && forall j :: e <= j < |s| && j < e + Window ==> IsSpace(s[j])
  {
    var w := After(s, e);
    assert forall j :: e <= j < |s| && j < e + Window ==> s[j] == w[j - e];
  }

  /** A non-whitespace character, ':' or '.' say, within the window suppresses the error. */
  lemma VisibleCharSuppresses(s: string, e: nat, j: nat)
    requires e <= j < |s| && j < e + Window && !IsSpace(s[j])
    ensures !Uncaptioned(s, e)
  {
    UncaptionedIff(s, e);
  }

  /** A figure number at the very end of the text is never flagged. */
  lemma EndOfTextNotFlagged(s: string, spans: seq<Span>, name: string)
    requires InText(s, spans) && |spans| > 0 && spans[|spans| - 1].end == |s|
    ensures FigureErrors(s, spans, name) == FigureErrors(s, spans[..|spans| - 1], name)
  {
  }

  // ---------------------------------------------------------------------
  // The diagnostics

  function CaptionError(name: string, t: string): ValidationError {
    ValidationError(name, "Рисунок без наименования: '" + t + "'",
      recommendation := CaptionAdvice, gostReference := Gost)
  }

  predicate InText(s: string, spans: seq<Span>) {
    forall k :: 0 <= k < |spans| ==> spans[k].start <= spans[k].end <= |s|
  }

  /** One error per mention without a caption, in match order. */
  function FigureErrors(s: string, spans: seq<Span>, name: string): seq<ValidationError>
    requires InText(s, spans)
  {
    if spans == [] then []
    else
      var last := spans[|spans| - 1];
      FigureErrors(s, spans[..|spans| - 1], name)
      + (if Uncaptioned(s, last.end) then [CaptionError(name, s[last.start..last.end])] else [])
  }

  /** The errors of a text: at most one per mention, none exactly when no mention is left without a caption. */
  function Errors(text: string, name: string): (r: seq<ValidationError>)
    ensures var spans := FindAll(text, 0);
      |r| <= |spans| && (r == [] <==> forall k :: 0 <= k < |spans| ==> !Uncaptioned(text, spans[k].end))
  {
    var spans := FindAll(text, 0);
    FigureErrorsBound(text, spans, name);
    FigureErrorsEmptyIff(text, spans, name);
    FigureErrors(text, spans, name)
  }

  /** At most one error per mention. */
  lemma {:induction false} FigureErrorsBound(s: string, spans: seq<Span>, name: string)
    requires InText(s, spans)
    ensures |FigureErrors(s, spans, name)| <= |spans|
  {
    if spans != [] {
      FigureErrorsBound(s, spans[..|spans| - 1], name);
    }
  }

  /** No error exactly when every mention is followed, within the window, by something visible or ends the text. */
  lemma FigureErrorsEmptyIff(s: string, spans: seq<Span>, name: string)
    requires InText(s, spans)
    ensures FigureErrors(s, spans, name) == [] <==> forall k :: 0 <= k < |spans| ==> !Uncaptioned(s, spans[k].end)
  {
    if forall k :: 0 <= k < |spans| ==> !Uncaptioned(s, spans[k].end) {
      CaptionedNotReported(s, spans, name);
    } else {
      var k :| 0 <= k < |spans| && Uncaptioned(s, spans[k].end);
      UncaptionedReported(s, spans, name, k);
    }
  }

  lemma {:induction false} CaptionedNotReported(s: string, spans: seq<Span>, name: string)
    requires InText(s, spans) && forall k :: 0 <= k < |spans| ==> !Uncaptioned(s, spans[k].end)
    ensures FigureErrors(s, spans, name) == []
  {
    if spans != [] {
      var init := spans[..|spans| - 1];
      assert forall k :: 0 <= k < |init| ==> init[k] == spans[k];
      CaptionedNotReported(s, init, name);
      FigureErrorsLast(s, spans, name);
    }
  }

  lemma {:induction false} UncaptionedReported(s: string, spans: seq<Span>, name: string, k: nat)
    requires InText(s, spans) && k < |spans| && Uncaptioned(s, spans[k].end)
    ensures FigureErrors(s, spans, name) != []
  {
    FigureErrorsLast(s, spans, name);
    if k < |spans| - 1 {
      var init := spans[..|spans| - 1];
      assert init[k] == spans[k];
      UncaptionedReported(s, init, name, k);
    }
  }

  /** The last mention adds an error exactly when it is left without a caption. */
  lemma FigureErrorsLast(s: string, spans: seq<Span>, name: string)
    requires InText(s, spans) && spans != []
    ensures var init, last := spans[..|spans| - 1], spans[|spans| - 1];
      InText(s, init)
      && (FigureErrors(s, spans, name) == [] <==> FigureErrors(s, init, name) == [] && !Uncaptioned(s, last.end))
  {
  }

  // ---------------------------------------------------------------------
  // The steps of `run`

  method ScanMentions(text: string) returns (spans: seq<Span>)
    ensures spans == FindAll(text, 0)
  {
    spans := [];
    var p := 0;
    while p < |text|
      invariant 0 <= p
      invariant spans + FindAll(text, p) == FindAll(text, 0)
      decreases |text| - p
    {
      var e := MatchAt(text, p);
      if e.Some? {
        spans := spans + [Span(p, e.value)];
        p := e.value;
      } else {
        p := p + 1;
      }
    }
  }

  method ReportUncaptioned(text: string, spans: seq<Span>, name: string) returns (errors: seq<ValidationError>)
    requires InText(text, spans)
    ensures errors == FigureErrors(text, spans, name)
  {
    errors := [];
    var i := 0;
    while i < |spans|
      invariant 0 <= i <= |spans|
      invariant errors == FigureErrors(text, spans[..i], name)
    {
      assert spans[..i + 1][..i] == spans[..i];
      var endPos := spans[i].end;
      if endPos < |text| && AllSpace(After(text, endPos)) {
        errors := errors + [CaptionError(name, text[spans[i].start..endPos])];
      }
      i := i + 1;
    }
    assert spans[..|spans|] == spans;
  }

  class FigureCheck {
    const base: BaseCheck

    constructor()
      ensures fresh(base) && base.rules == Null
      ensures base.checkId == "figure_format" && base.checkName == "Проверка оформления рисунков"
    {
      base := new BaseCheck("figure_format", "Проверка оформления рисунков");
    }

    /** The result `run` returns: FAILED exactly when some mention lacks a caption. */
    function Outcome(doc: Document): (r: CheckResult)
      ensures r.checkId == base.checkId && r.checkName == base.checkName
      ensures r.errors == FigureErrors(doc.rawText, FindAll(doc.rawText, 0), base.checkName)
      ensures r.status != Error && (r.status == Passed <==> r.errors == [])
    {
      var errors := Errors(doc.rawText, base.checkName);
      base.CreateResult(if errors == [] then Passed else Failed, Some(errors))
    }

    method Run(doc: Document) returns (r: CheckResult)
      ensures r == Outcome(doc)
    {
      var spans := ScanMentions(doc.rawText);
      var errors := ReportUncaptioned(doc.rawText, spans, base.checkName);
      r := base.CreateResult(if errors == [] then Passed else Failed, Some(errors));
    }
  }
}
