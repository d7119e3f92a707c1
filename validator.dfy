/**
 * The validator: an ordered list of registered checks, each run in turn on
 * one document. The validator only calls `run` on what it holds, so it is
 * modelled over any check type `C` with `run` given as a function; a check
 * that raises is outside the model, and `Validate` demands that `run` is
 * defined on every registered check and the document.
 */
module Validation {
  import opened Models

  /** The results of running `cs` on `doc` one after the other. */
  function Outcomes<C>(cs: seq<C>, doc: Document, run: (C, Document) ~> CheckResult): (rs: seq<CheckResult>)
    reads set k, o | 0 <= k < |cs| && o in run.reads(cs[k], doc) :: o
    requires forall k :: 0 <= k < |cs| ==> run.requires(cs[k], doc)
    ensures |rs| == |cs|
  {
    if cs == [] then [] else Outcomes(cs[..|cs| - 1], doc, run) + [run(cs[|cs| - 1], doc)]
  }

  /** The `k`-th result is the result of the `k`-th check. */
  lemma {:induction false} OutcomesPointwise<C>(cs: seq<C>, doc: Document, run: (C, Document) ~> CheckResult, k: int)
    requires forall k :: 0 <= k < |cs| ==> run.requires(cs[k], doc)
    requires 0 <= k < |cs|
    ensures Outcomes(cs, doc, run)[k] == run(cs[k], doc)
  {
    if k < |cs| - 1 {
      OutcomesPointwise(cs[..|cs| - 1], doc, run, k);
    }
  }

  /** Registering one more check appends its result and keeps the earlier ones. */
  lemma RegisteringAppendsResult<C>(cs: seq<C>, c: C, doc: Document, run: (C, Document) ~> CheckResult)
    requires forall k :: 0 <= k < |cs| ==> run.requires(cs[k], doc)
    requires run.requires(c, doc)
    ensures Outcomes(cs + [c], doc, run) == Outcomes(cs, doc, run) + [run(c, doc)]
  {
    assert (cs + [c])[..|cs|] == cs;
  }

  class Validator<C> {
    var checks: seq<C>

    constructor()
      ensures checks == []
    {
      checks := [];
    }

    /** Appends at the end; earlier registrations stay where they were. */
    method RegisterCheck(check: C)
      modifies this
      ensures checks == old(checks) + [check]
    {
      checks := checks + [check];
    }

    /**
     * One result per registered check, in registration order, each the
     * result of that check's `run`; the registered list is unchanged.
     */
    method Validate(doc: Document, run: (C, Document) ~> CheckResult) returns (results: seq<CheckResult>)
      requires forall k :: 0 <= k < |checks| ==> run.requires(checks[k], doc)
      ensures results == Outcomes(checks, doc, run)
    {
      results := [];
      for i := 0 to |checks|
        invariant results == Outcomes(checks[..i], doc, run)
      {
        assert checks[..i + 1][..i] == checks[..i];
        results := results + [run(checks[i], doc)];
      }
      assert checks[..|checks|] == checks;
    }
  }
}
