/**
 * The few JavaScript value rules the mailer relies on, for values that are
 * either a string or `undefined` (`None`).
 */
module Js {
  import opened Wrappers

  /** JavaScript truthiness of a string or `undefined`. */
  predicate Truthy(v: Option<string>)
    ensures Truthy(v) <==> v != None && v != Some("")
  {
    v.Some? && v.value != ""
  }

  /** The expression `a || b`: the left operand when it is truthy, else the right one. */
  function Or(a: Option<string>, b: Option<string>): (r: Option<string>)
    ensures r == a || r == b
    ensures Truthy(r) <==> Truthy(a) || Truthy(b)
    ensures Truthy(a) ==> r == a
    ensures !Truthy(a) ==> r == b
  {
    if Truthy(a) then a else b
  }

  /**
   * Template-literal interpolation `${v}`. A string renders as itself and
   * `undefined` as the text "undefined", so that text alone does not tell an
   * absent field from one that holds the word.
   */
  function Interpolate(v: Option<string>): (r: string)
    ensures v.Some? ==> r == v.value
    ensures r == "undefined" <==> v == None || v == Some("undefined")
  {
    match v
    case None => "undefined"
    case Some(s) => s
  }

  /** `${v || fallback}` with a literal fallback never renders "undefined" for an absent value. */
  lemma InterpolateOrFallback(v: Option<string>, fallback: string)
    ensures Interpolate(Or(v, Some(fallback))) == (if Truthy(v) then v.value else fallback)
    ensures Truthy(v) ==> Interpolate(Or(v, Some(fallback))) != ""
  {
  }
}
