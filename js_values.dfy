/** The JavaScript values the server's handlers branch on, and the helper
    datatypes shared by the other modules. */
module JsValues {

  datatype Option<+T> = None | Some(value: T)

  datatype Result<+T, +E> = Success(value: T) | Failure(error: E)

  /** A primitive JavaScript value as it appears in a document field or a
      request parameter. Numbers are integers here; a missing key reads as
      `Undefined`. */
  datatype Value = Undefined | Null | Bool(b: bool) | Num(n: int) | Str(s: string)

  /** JavaScript truthiness: `undefined`, `null`, `false`, `0` and `""` are
      falsy, everything else is truthy. */
  predicate Truthy(v: Value) {
    match v
    case Undefined => false
    case Null => false
    case Bool(b) => b
    case Num(n) => n != 0
    case Str(s) => s != ""
  }

  /** JavaScript `v + 1` on a truthy primitive: numeric addition, except that
      a string concatenates the digit. */
  function PlusOne(v: Value): (r: Value)
    requires Truthy(v)
    ensures v.Num? ==> r == Num(v.n + 1)
    ensures v.Bool? ==> r == Num(2)
    ensures v.Str? ==> r.Str? && |r.s| == |v.s| + 1 && r.s[..|v.s|] == v.s && r.s[|v.s|] == '1'
  {
    match v
    case Bool(_) => Num(2)
    case Num(n) => Num(n + 1)
    case Str(s) => Str(s + "1")
  }

  /** One result of `Math.random()`: the exact rational `num / den`, which
      lies in [0, 1). */
  datatype Draw = Draw(num: nat, den: nat)
  type Fraction = d: Draw | d.num < d.den witness Draw(0, 1)

  /** For 0 <= a < k * b, the quotient a / b is below k. */
  lemma QuotientBelow(a: nat, b: nat, k: nat)
    requires b > 0 && a < k * b
    ensures a / b < k
  {
    var q := a / b;
    assert q * b <= a;
  }
}
