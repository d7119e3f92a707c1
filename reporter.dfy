/**
 * The report: summary counts over the results and one entry per check,
 * each error reduced to its description, recommendation and standard
 * reference. The validation date and the file write are not modelled.
 */
module Reporting {
  import opened Models

  /** An error as the report shows it: page and element are dropped. */
  datatype ErrorEntry = ErrorEntry(description: string, recommendation: string, gostReference: string)

  datatype CheckEntry = CheckEntry(id: string, name: string, status: string, errorsCount: nat, errors: seq<ErrorEntry>)

  /** `success_rate`: the text "0%" without results, otherwise the share the percentage is formatted from. */
  datatype SuccessRate = NoChecks | Share(passed: nat, total: nat)

  datatype Summary = Summary(totalChecks: nat, passed: nat, failed: int, successRate: SuccessRate)

  datatype Report = Report(document: string, summary: Summary, checks: seq<CheckEntry>)

  /** `sum(1 for r in results if r.status.value == "PASSED")` */
  function PassedCount(results: seq<CheckResult>): (n: nat)
    ensures n <= |results|
  {
    if results == [] then 0
    else PassedCount(results[..|results| - 1]) + (if results[|results| - 1].status.Value() == "PASSED" then 1 else 0)
  }

  /** How many results have status `s`. */
  function CountOf(results: seq<CheckResult>, s: CheckStatus): nat {
    if results == [] then 0
    else CountOf(results[..|results| - 1], s) + (if results[|results| - 1].status == s then 1 else 0)
  }

  /** Comparing the value text counts exactly the PASSED results. */
  lemma {:induction false} PassedCountIsPassed(results: seq<CheckResult>)
    ensures PassedCount(results) == CountOf(results, Passed)
  {
    if results != [] {
      PassedCountIsPassed(results[..|results| - 1]);
      StatusValuesDistinct(results[|results| - 1].status, Passed);
    }
  }

  /** `failed` counts both FAILED and ERROR results. */
  lemma {:induction false} FailedIncludesErrors(results: seq<CheckResult>)
    ensures |results| - PassedCount(results) == CountOf(results, Failed) + CountOf(results, Error)
  {
    if results != [] {
      FailedIncludesErrors(results[..|results| - 1]);
      StatusValuesDistinct(results[|results| - 1].status, Passed);
    }
  }

  /** Every check passed exactly when `passed` equals the number of results. */
  lemma {:induction false} AllPassedIff(results: seq<CheckResult>)
    ensures PassedCount(results) == |results| <==> forall i :: 0 <= i < |results| ==> results[i].status == Passed
  {
    if results != [] {
      var init := results[..|results| - 1];
      AllPassedIff(init);
      StatusValuesDistinct(results[|results| - 1].status, Passed);
      assert forall i :: 0 <= i < |init| ==> init[i] == results[i];
    }
  }

  /** The report's view of one error. */
  function Project(e: ValidationError): ErrorEntry {
    ErrorEntry(e.description, e.recommendation, e.gostReference)
  }

  /** `check_info["errors"]`, built by the inner loop. */
  method ProjectErrors(errors: seq<ValidationError>) returns (entries: seq<ErrorEntry>)
    ensures |entries| == |errors|
    ensures forall j :: 0 <= j < |errors| ==> entries[j] == Project(errors[j])
  {
    entries := [];
    for j := 0 to |errors|
      invariant |entries| == j
      invariant forall m :: 0 <= m < j ==> entries[m] == Project(errors[m])
    {
      entries := entries + [Project(errors[j])];
    }
  }

  /**
   * `Reporter.generate_report`: the document path, the counts over the
   * results, and one entry per result in result order, whose error count
   * is the length of its error list.
   */
  method GenerateReport(doc: Document, results: seq<CheckResult>) returns (report: Report)
    ensures report.document == doc.filePath
    ensures report.summary.totalChecks == |results|
    ensures report.summary.passed == CountOf(results, Passed)
    ensures report.summary.failed == CountOf(results, Failed) + CountOf(results, Error)
    ensures report.summary.successRate == if results == [] then NoChecks else Share(CountOf(results, Passed), |results|)
    ensures |report.checks| == |results|
    ensures forall i :: 0 <= i < |results| ==>
      var e := report.checks[i];
      e.id == results[i].checkId && e.name == results[i].checkName && e.status == results[i].status.Value()
      && e.errorsCount == |e.errors| == |results[i].errors|
      && forall j :: 0 <= j < |e.errors| ==> e.errors[j] == Project(results[i].errors[j])
  {
    var total := |results|;
    var passed := PassedCount(results);
    PassedCountIsPassed(results);
    FailedIncludesErrors(results);
    var rate := if total > 0 then Share(passed, total) else NoChecks;
    var entries: seq<CheckEntry> := [];
    for i := 0 to |results|
      invariant |entries| == i
      invariant forall k :: 0 <= k < i ==>
        var e := entries[k];
        e.id == results[k].checkId && e.name == results[k].checkName && e.status == results[k].status.Value()
        && e.errorsCount == |e.errors| == |results[k].errors|
        && forall j :: 0 <= j < |e.errors| ==> e.errors[j] == Project(results[k].errors[j])
    {
      var result := results[i];
      var errors := ProjectErrors(result.errors);
      entries := entries + [CheckEntry(result.checkId, result.checkName, result.status.Value(), |result.errors|, errors)];
    }
    report := Report(doc.filePath, Summary(total, passed, total - passed, rate), entries);
  }
}
