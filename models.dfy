/** The records every check produces and consumes. */
module Models {
  import opened Wrappers
  import opened Config

  /** The outcome of one check; `Error` is kept for configuration defects. */
  datatype CheckStatus = Passed | Failed | Error {
    /** The enum member's `.value`. */
    function Value(): (v: string)
      ensures v == "PASSED" || v == "FAILED" || v == "ERROR"
    {
      match this
      case Passed => "PASSED"
      case Failed => "FAILED"
      case Error => "ERROR"
    }
  }

  /** One diagnostic; every field after the description has a default. */
  datatype ValidationError = ValidationError(
    checkName: string,
    description: string,
    page: Option<int> := None,
    element: Option<string> := None,
    recommendation: string := "",
    gostReference: string := "")

  datatype CheckResult = CheckResult(
    checkId: string,
    checkName: string,
    status: CheckStatus,
    errors: seq<ValidationError> := [])

  /** An entry of `Document.sections`: only its optional `title` is ever read. */
  datatype Section = Section(title: Option<string>)

  datatype Document = Document(
    filePath: string,
    pages: seq<Value> := [],
    sections: seq<Section> := [],
    tables: seq<Value> := [],
    figures: seq<Value> := [],
    rawText: string := "")

  /** The three statuses have three different values. */
  lemma StatusValuesDistinct(s: CheckStatus, t: CheckStatus)
    ensures s.Value() == t.Value() <==> s == t
  {
  }

  /** Defaults of the records when only the leading fields are given. */
  lemma RecordDefaults(checkName: string, description: string, id: string, status: CheckStatus, path: string)
    ensures var e := ValidationError(checkName, description);
      e.page == None && e.element == None && e.recommendation == "" && e.gostReference == ""
    ensures CheckResult(id, checkName, status).errors == []
    ensures var d := Document(path);
      d.pages == [] && d.sections == [] && d.tables == [] && d.figures == [] && d.rawText == ""
  {
  }
}
