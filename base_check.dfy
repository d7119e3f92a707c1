/**
 * The state every check shares: its id, its display name and the rules it
 * was configured with, with the helpers that build a result and look a rule
 * up by a dotted path.
 */
module Base {
  import opened Wrappers
  import opened Text
  import opened Config
  import opened Models

  class BaseCheck {
    const checkId: string
    const checkName: string
    var rules: Value

    constructor(checkId: string, checkName: string)
      ensures this.checkId == checkId && this.checkName == checkName
      ensures rules == Null
    {
      this.checkId := checkId;
      this.checkName := checkName;
      rules := Null;
    }

    /** Stores the configuration as given. */
    method SetRules(rules: Value)
      modifies this
      ensures this.rules == rules
    {
      this.rules := rules;
    }

    /** The result for this check; a missing or empty error list becomes []. */
    function CreateResult(status: CheckStatus, errors: Option<seq<ValidationError>>): (r: CheckResult)
      ensures r.checkId == checkId && r.checkName == checkName && r.status == status
      ensures r.errors == errors.GetOr([])
    {
      CheckResult(checkId, checkName, status,
        if errors.Some? && errors.value != [] then errors.value else [])
    }

    /**
     * The value stored under the dotted `path` of the rules, or `default`
     * when there are no rules or some step of the path is missing.
     */
    method SafeGetRule(path: string, default: Value) returns (r: Value)
      ensures r == RuleAt(rules, path, default)
    {
      if !Truthy(rules) {
        return default;
      }
      var keys := Split(path, '.');
      var value := rules;
      var i := 0;
      while i < |keys|
        invariant 0 <= i <= |keys|
        invariant Walk(value, keys[i..], default) == Walk(rules, keys, default)
      {
        assert keys[i..][1..] == keys[i + 1..];
        if value.Dict? && keys[i] in value.entries {
          value := value.entries[keys[i]];
        } else {
          return default;
        }
        i := i + 1;
      }
      return value;
    }
  }
}
