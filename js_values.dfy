/**
 * The few JavaScript runtime values the components inspect: the values a
 * parsed JSON body can hold, their truthiness, the `||` operator, and the
 * numbers produced by `Math.min`, `Math.max` and `+` (integers and NaN).
 */
module JsValues {

  datatype Option<+T> = None | Some(value: T)

  /**
   * A JavaScript value as read from a parsed JSON body. `Compound` stands for
   * any object or array (always truthy); numbers are integers in this model.
   */
  datatype JsValue = Undefined | Null | Bool(b: bool) | Num(n: int) | Str(s: string) | Compound

  /** JavaScript truthiness (ToBoolean). */
  predicate Truthy(v: JsValue) {
    match v
    case Undefined => false
    case Null => false
    case Bool(b) => b
    case Num(n) => n != 0
    case Str(s) => s != ""
    case Compound => true
  }

  /**
   * `vs[0] || vs[1] || ... || last`: the first truthy operand, or the last
   * operand when none of the others is truthy.
   */
  function OrChain(vs: seq<JsValue>, last: JsValue): (r: JsValue)
    ensures (forall j :: 0 <= j < |vs| ==> !Truthy(vs[j])) ==> r == last
    ensures forall k :: 0 <= k < |vs| && Truthy(vs[k]) && (forall j :: 0 <= j < k ==> !Truthy(vs[j])) ==> r == vs[k]
    ensures r == last || (r in vs && Truthy(r))
  {
    if vs == [] then last
    else if Truthy(vs[0]) then vs[0]
    else
      var r := OrChain(vs[1..], last);
      assert forall j :: 1 <= j < |vs| ==> vs[j] == vs[1..][j - 1];
      r
  }

  /** A JavaScript number restricted to integers, plus NaN. */
  datatype Number = Finite(n: int) | NaN

  /** `Math.min(a, b)`: NaN if either argument is NaN. */
  function MathMin(a: Number, b: Number): (r: Number)
    ensures r.NaN? <==> a.NaN? || b.NaN?
    ensures r.Finite? ==> r.n <= a.n && r.n <= b.n && (r.n == a.n || r.n == b.n)
  {
    if a.NaN? || b.NaN? then NaN
    else if a.n <= b.n then a else b
  }

  /** `Math.max(a, b)`: NaN if either argument is NaN. */
  function MathMax(a: Number, b: Number): (r: Number)
    ensures r.NaN? <==> a.NaN? || b.NaN?
    ensures r.Finite? ==> r.n >= a.n && r.n >= b.n && (r.n == a.n || r.n == b.n)
  {
    if a.NaN? || b.NaN? then NaN
    else if a.n >= b.n then a else b
  }

  /** Numeric `a + b`: NaN absorbs. */
  function Plus(a: Number, b: Number): (r: Number)
    ensures r.NaN? <==> a.NaN? || b.NaN?
    ensures r.Finite? ==> r.n == a.n + b.n
  {
    if a.NaN? || b.NaN? then NaN else Finite(a.n + b.n)
  }

  /**
   * The `%` operator on integers: the remainder takes the sign of the
   * dividend (truncating division), unlike Dafny's Euclidean `%`.
   */
  function JsRem(a: int, b: int): (r: int)
    requires b > 0
    ensures a >= 0 ==> r == a % b
    ensures a < 0 ==> -b < r <= 0
    ensures -b < a < 0 ==> r == a
    ensures a < 0 ==> r == -((-a) % b)
  {
    if a >= 0 then a % b else -((-a) % b)
  }
}
