/**
 * The few pieces of PHP's own semantics that the two clients rely on:
 * truthiness, the short ternary `?:`, `getenv` and `rtrim`.
 */
module Php {

  /** A PHP scalar as the clients see one: `null`, a boolean (the `false` of `getenv`) or a string. */
  datatype Value = Null | Bool(b: bool) | Str(s: string)

  /** Conversion to bool: `null`, `false`, `""` and `"0"` are falsy, every other string is truthy. */
  predicate Truthy(v: Value) {
    match v
    case Null => false
    case Bool(b) => b
    case Str(s) => s != "" && s != "0"
  }

  /** The short ternary `a ?: b`. */
  function Elvis(a: Value, b: Value): Value {
    if Truthy(a) then a else b
  }

  /** `getenv($key)`: the variable's value, or `false` when it is not set. */
  function GetEnv(env: map<string, string>, key: string): Value {
    if key in env then Str(env[key]) else Bool(false)
  }

  /**
   * `rtrim($s, $c)` with a one-character mask: the longest prefix of `s`
   * that does not end in `c`, everything cut off being `c`.
   */
  function RTrim(s: string, c: char): (r: string)
    ensures r <= s
    ensures r == [] || r[|r| - 1] != c
    ensures forall i :: |r| <= i < |s| ==> s[i] == c
    decreases |s|
  {
    if |s| > 0 && s[|s| - 1] == c then RTrim(s[..|s| - 1], c) else s
  }

  /** The three properties of `RTrim` determine its result: any prefix that has them is it. */
  lemma RTrimCharacterised(s: string, c: char, p: string)
    requires p <= s
    requires p == [] || p[|p| - 1] != c
    requires forall i :: |p| <= i < |s| ==> s[i] == c
    ensures RTrim(s, c) == p
  {
  }
}
