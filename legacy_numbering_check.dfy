/**
 * The earlier page-numbering check: a single substring rule that reports a
 * numbered title page when the lower-cased text mentions "страница 1".
 */
module LegacyNumbering {
  import opened Wrappers
  import opened Text
  import opened Config
  import opened Models
  import opened Base

  const Marker: string := "страница 1"
  const Gost: string := "ГОСТ 2.105, раздел 6.1"

  function TitlePageError(name: string): ValidationError {
    ValidationError(name, "Номер '1' обнаружен в основном тексте. Титульный лист не должен нумероваться",
      recommendation := "Убедитесь, что титульный лист не содержит номера страницы",
      gostReference := Gost)
  }

  class PageNumberingCheck {
    const base: BaseCheck

    constructor()
      ensures fresh(base) && base.rules == Null
      ensures base.checkId == "page_numbering" && base.checkName == "Проверка нумерации страниц"
    {
      base := new BaseCheck("page_numbering", "Проверка нумерации страниц");
    }

    /** At most one error, present exactly when the lower-cased text contains the marker. */
    function Run(doc: Document): (r: CheckResult)
      ensures r.checkId == base.checkId && r.checkName == base.checkName
      ensures |r.errors| <= 1
      ensures r.errors != [] <==> Contains(LowerStr(doc.rawText), Marker)
      ensures r.errors != [] ==> r.errors == [TitlePageError(base.checkName)]
      ensures r.status != Error && (r.status == Failed <==> r.errors != [])
    {
      var errors := if Contains(LowerStr(doc.rawText), Marker) then [TitlePageError(base.checkName)] else [];
      base.CreateResult(if errors != [] then Failed else Passed, Some(errors))
    }
  }

  /** Lower-casing leaves the marker as it is, so any mention in any case form is found. */
  lemma LowerMarker()
    ensures LowerStr(Marker) == Marker
  {
  }

  /** Any text that starts with the marker, "страница 10" and "страница 15" among them, is reported. */
  lemma MarkerPrefixReported(rest: string)
    ensures Contains(LowerStr(Marker + rest), Marker)
  {
    var t := LowerStr(Marker + rest);
    LowerMarker();
    assert t[..|Marker|] == LowerStr(Marker);
    assert OccursAt(t, Marker, 0);
  }

  /** Upper-case spelling is reported too: the rule lower-cases before it compares. */
  lemma UpperCaseReported()
    ensures Contains(LowerStr("СТРАНИЦА 1"), Marker)
  {
    assert LowerStr("СТРАНИЦА 1") == Marker;
    assert OccursAt(LowerStr("СТРАНИЦА 1"), Marker, 0);
  }

  /** Another case form of the noun, "странице 1", is not reported. */
  lemma OtherCaseFormNotReported()
    ensures !Contains(LowerStr("странице 1"), Marker)
  {
    var t := LowerStr("странице 1");
    assert t[7] == 'е';
    forall i | 0 <= i <= |t| - |Marker| ensures !OccursAt(t, Marker, i) {
      assert t[i..i + |Marker|][7] == t[7];
    }
  }
}
