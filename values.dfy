/** A present-or-absent value, standing for a JavaScript argument or property
    that may be left undefined. */
module Wrappers {
  datatype Option<+T> = None | Some(value: T)
}

/** The JavaScript values the adapter inspects, with the two defaulting
    rules it applies to them: `||` and `getOrDefault`. */
module JsValues {

  /** A JavaScript value as far as the adapter looks at it.
      Numbers are integers here: NaN, -0 and fractions are not modelled. */
  datatype Value = Undefined | Null | Bool(b: bool) | Num(n: int) | Str(s: string)

  /** JavaScript truthiness: `if (v)` takes its then-branch exactly when Truthy(v). */
  predicate Truthy(v: Value) {
    match v
    case Undefined => false
    case Null => false
    case Bool(b) => b
    case Num(n) => n != 0
    case Str(s) => s != ""
  }

  /** `v || fallback`: the supplied value survives only when it is truthy. */
  function Or(v: Value, fallback: Value): (r: Value)
    ensures Truthy(v) ==> r == v
    ensures !Truthy(v) ==> r == fallback
    ensures Truthy(r) <==> Truthy(v) || Truthy(fallback)
  {
    if Truthy(v) then v else fallback
  }

  /** `getOrDefault(v, fallback)`: the supplied value survives unless it is
      undefined, so false, 0, null and "" are kept. */
  function GetOrDefault(v: Value, fallback: Value): (r: Value)
    ensures v != Undefined ==> r == v
    ensures v == Undefined ==> r == fallback
  {
    if v != Undefined then v else fallback
  }

  /** The two rules disagree exactly on a supplied value that is defined,
      falsy and different from the fallback. */
  lemma OrDiffersFromGetOrDefault(v: Value, fallback: Value)
    ensures Or(v, fallback) != GetOrDefault(v, fallback)
            <==> v != Undefined && !Truthy(v) && v != fallback
  {
  }
}
