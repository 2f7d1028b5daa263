/**
 * The JavaScript values a connector setting can hold, with JavaScript's
 * truthiness and its value-returning `||` operator. The connector picks every
 * setting as "first truthy value, else a default", so this is all of
 * JavaScript the model needs.
 */
module JsValues {

  /** A primitive JavaScript value; numbers are integers in this model. */
  datatype Value = Undefined | Null | Bool(b: bool) | Num(n: int) | Str(s: string)

  /** JavaScript truthiness: `undefined`, `null`, `false`, `0` and `''` are falsy. */
  predicate Truthy(v: Value) {
    match v
    case Undefined => false
    case Null => false
    case Bool(b) => b
    case Num(n) => n != 0
    case Str(s) => s != ""
  }

  /** `a || b`: yields `a` when it is truthy and `b` otherwise, never a boolean of its own. */
  function Or(a: Value, b: Value): (r: Value)
    ensures r == a || r == b
    ensures Truthy(r) <==> Truthy(a) || Truthy(b)
    ensures Truthy(a) ==> r == a
    ensures !Truthy(a) ==> r == b
  {
    if Truthy(a) then a else b
  }

  /** `a || b || c` picks the first truthy operand, falling back to the last one. */
  lemma OrChain(a: Value, b: Value, c: Value)
    ensures Or(Or(a, b), c) == if Truthy(a) then a else if Truthy(b) then b else c
    ensures Or(Or(a, b), c) == Or(a, Or(b, c))
  {
  }
}
