/**
 * The rule configuration: the tree a YAML loader hands over (mappings,
 * lists, strings, integers, booleans and None), Python's truthiness of
 * such values, and the dotted-path lookup `_safe_get_rule` relies on.
 */
module Config {
  import opened Text

  datatype Value =
    | Null
    | Bool(b: bool)
    | Int(i: int)
    | Str(s: string)
    | List(items: seq<Value>)
    | Dict(entries: map<string, Value>)

  /** `bool(v)` */
  predicate Truthy(v: Value) {
    match v
    case Null => false
    case Bool(b) => b
    case Int(i) => i != 0
    case Str(s) => s != ""
    case List(xs) => xs != []
    case Dict(m) => m != map[]
  }

  /** `d.get(key, default)` on a mapping. */
  function Get(d: Value, key: string, default: Value): (r: Value)
    requires d.Dict?
    ensures key in d.entries ==> r == d.entries[key]
    ensures key !in d.entries ==> r == default
  {
    if key in d.entries then d.entries[key] else default
  }

  /** `key in v` for a mapping (keys), a list (elements) or a string (substring). */
  predicate In(key: string, v: Value)
    requires v.Dict? || v.List? || v.Str?
  {
    match v
    case Dict(m) => key in m
    case List(xs) => Str(key) in xs
    case Str(s) => Contains(s, key)
  }

  /** A list whose every element is a string. */
  predicate IsStrList(v: Value) {
    v.List? && forall k :: 0 <= k < |v.items| ==> v.items[k].Str?
  }

  function Strings(v: Value): (r: seq<string>)
    requires IsStrList(v)
    ensures |r| == |v.items| && forall k :: 0 <= k < |r| ==> v.items[k] == Str(r[k])
  {
    seq(|v.items|, k requires 0 <= k < |v.items| => v.items[k].s)
  }

  function StrList(xs: seq<string>): (r: Value)
    ensures IsStrList(r) && Strings(r) == xs
  {
    List(seq(|xs|, k requires 0 <= k < |xs| => Str(xs[k])))
  }

  /** Python compares a bool or an int with `<`, `<=`, `>`. */
  predicate IsNumber(v: Value) { v.Int? || v.Bool? }

  function AsInt(v: Value): int
    requires IsNumber(v)
  {
    if v.Int? then v.i else if v.b then 1 else 0
  }

  /** `str(v)` for a number, as an f-string prints it. */
  function NumberText(v: Value): string
    requires IsNumber(v)
  {
    if v.Int? then IntToString(v.i) else if v.b then "True" else "False"
  }

  /**
   * Walks `keys` through nested mappings; a step that meets something
   * other than a mapping, or a mapping without the key, yields `default`.
   */
  function Walk(v: Value, keys: seq<string>, default: Value): Value
  {
    if keys == [] then v
    else if v.Dict? && keys[0] in v.entries then Walk(v.entries[keys[0]], keys[1..], default)
    else default
  }

  /** What `_safe_get_rule(path, default)` returns when the check holds `rules`. */
  function RuleAt(rules: Value, path: string, default: Value): Value {
    if !Truthy(rules) then default else Walk(rules, Split(path, '.'), default)
  }

  /** The configuration that holds `leaf` under the path `keys` and nothing else. */
  function Nest(keys: seq<string>, leaf: Value): Value {
    if keys == [] then leaf else Dict(map[keys[0] := Nest(keys[1..], leaf)])
  }

  /** A stored value is returned as it is, even None or another falsy value. */
  lemma {:induction false} WalkNest(keys: seq<string>, leaf: Value, default: Value)
    ensures Walk(Nest(keys, leaf), keys, default) == leaf
  {
    if keys != [] {
      WalkNest(keys[1..], leaf, default);
    }
  }

  /** The lookup finds what was stored under its path, whatever that is. */
  lemma RuleAtNest(path: string, leaf: Value, default: Value)
    ensures RuleAt(Nest(Split(path, '.'), leaf), path, default) == leaf
  {
    WalkNest(Split(path, '.'), leaf, default);
  }

  /**
   * The lookup is total: it yields either the default or a value stored
   * somewhere inside the configuration.
   */
  lemma {:induction false} WalkStoredOrDefault(v: Value, keys: seq<string>, default: Value)
    ensures Walk(v, keys, default) == default || Walk(v, keys, default) == v || Reaches(v, Walk(v, keys, default))
  {
    if keys != [] && v.Dict? && keys[0] in v.entries {
      var child := v.entries[keys[0]];
      WalkStoredOrDefault(child, keys[1..], default);
    }
  }

  /** `w` is stored, at some depth, inside the mappings of `v`. */
  predicate Reaches(v: Value, w: Value)
    decreases v
  {
    v.Dict? && exists k :: k in v.entries && (v.entries[k] == w || Reaches(v.entries[k], w))
  }

  /** A missing key anywhere along the path gives the default. */
  lemma {:induction false} WalkMissing(v: Value, keys: seq<string>, default: Value, n: nat)
    requires n < |keys|
    requires forall j :: 0 <= j < n ==> Walk(v, keys[..j], default).Dict?
    requires !Walk(v, keys[..n], default).Dict? || keys[n] !in Walk(v, keys[..n], default).entries
    ensures Walk(v, keys, default) == default
  {
    if n == 0 {
    } else {
      assert Walk(v, keys[..0], default) == v;
      assert keys[..0] == [];
      assert v.Dict?;
      if keys[0] in v.entries {
        var child := v.entries[keys[0]];
        forall j | 0 <= j < n - 1 ensures Walk(child, keys[1..][..j], default).Dict? {
          assert keys[..j + 1][1..] == keys[1..][..j];
          assert Walk(v, keys[..j + 1], default).Dict?;
        }
        assert keys[..n][1..] == keys[1..][..n - 1];
        WalkMissing(child, keys[1..], default, n - 1);
      }
    }
  }
}
