/**
 * JavaScript value conventions shared by the billing glue: nullable values,
 * truthiness of strings and ids, the `||` default idiom and `startsWith`.
 */
module Base {

  /** A JavaScript value that may be `null` or `undefined`. */
  datatype Option<+T> = None | Some(value: T)

  /** Payload document ids (serial numbers); `0` is the only falsy id. */
  type DocId = nat

  /** The `operation` argument Payload passes to collection hooks. */
  datatype Operation = Create | Update

  /** A nullable string is truthy when it is present and not empty. */
  predicate Truthy(s: Option<string>)
  {
    s.Some? && s.value != ""
  }

  predicate TruthyId(id: DocId)
  {
    id != 0
  }

  /** `a || b` on nullable strings. */
  function Or(a: Option<string>, b: Option<string>): Option<string>
  {
    if Truthy(a) then a else b
  }

  /** `s || undefined`: a falsy string is not sent at all. */
  function OrUndefined(s: Option<string>): Option<string>
  {
    Or(s, None)
  }

  /** `${x}` in a template literal: an unset value prints as "undefined". */
  function Interpolate(s: Option<string>): string
  {
    if s.Some? then s.value else "undefined"
  }

  predicate StartsWith(s: string, prefix: string)
  {
    |prefix| <= |s| && s[..|prefix|] == prefix
  }

  predicate EndsWith(s: string, suffix: string)
  {
    |suffix| <= |s| && s[|s| - |suffix|..] == suffix
  }

  /** `s?.startsWith(prefix)` used as a condition: false when `s` is missing. */
  predicate HasPrefix(s: Option<string>, prefix: string)
  {
    s.Some? && StartsWith(s.value, prefix)
  }

  /** `Array.prototype.find` from position `from`: the index of the first element satisfying `p`. */
  function Find<T>(s: seq<T>, p: T -> bool, from: nat := 0): (k: Option<nat>)
    requires from <= |s|
    decreases |s| - from
    ensures k.Some? ==> from <= k.value < |s| && p(s[k.value])
    ensures k.Some? ==> forall j :: from <= j < k.value ==> !p(s[j])
    ensures k.None? ==> forall j :: from <= j < |s| ==> !p(s[j])
  {
    if from == |s| then None
    else if p(s[from]) then Some(from)
    else Find(s, p, from + 1)
  }
}
