/** The fragment of JavaScript value semantics that the client code relies on:
    truthiness (`!!v`, `if (v)`), the `||` and `??` operators, property reads,
    object spread, and `Math.ceil(a / b)`. Numbers are integers here; NaN and
    the two infinities are separate constructors because a division can
    produce them. */
module Js {

  datatype JsValue =
    | Undefined
    | Null
    | Bool(b: bool)
    | Num(n: int)
    | NaN
    | Infinity(negative: bool)
    | Str(s: string)
    | Arr(elems: seq<JsValue>)
    | Obj(props: map<string, JsValue>)

  /** JavaScript truthiness: `undefined`, `null`, `false`, `0`, `NaN` and `""`
      are the falsy values; every array and object is truthy. */
  predicate Truthy(v: JsValue) {
    match v
    case Undefined => false
    case Null => false
    case Bool(b) => b
    case Num(n) => n != 0
    case NaN => false
    case Infinity(_) => true
    case Str(s) => s != ""
    case Arr(_) => true
    case Obj(_) => true
  }

  /** The values `??` replaces and whose property reads throw. */
  predicate Nullish(v: JsValue) {
    v.Undefined? || v.Null?
  }

  /** `a || b` */
  function Or(a: JsValue, b: JsValue): JsValue {
    if Truthy(a) then a else b
  }

  /** `v[key]` on a value that is not nullish. Only own properties of plain
      objects are modelled; the keys this client reads are not inherited
      properties of strings or arrays. */
  function Get(v: JsValue, key: string): JsValue {
    if v.Obj? && key in v.props then v.props[key] else Undefined
  }

  /** The own enumerable properties `{...v}` copies. */
  function Spread(v: JsValue): map<string, JsValue> {
    if v.Obj? then v.props else map[]
  }

  /** The numeric conversion applied by `/`. */
  function ToNumber(v: JsValue): (r: JsValue)
    ensures r.Num? || r.NaN? || r.Infinity?
    ensures Truthy(v) && v.Num? ==> r == v
  {
    match v
    case Undefined => NaN
    case Null => Num(0)
    case Bool(b) => Num(if b then 1 else 0)
    case Num(_) => v
    case NaN => NaN
    case Infinity(_) => v
    case Str(_) => NaN
    case Arr(_) => NaN
    case Obj(_) => NaN
  }

  /** The ceiling of the rational `p / q`: the least `r` with `p <= r * q`
      when `q` is positive, and the mirror image when it is negative. */
  function CeilDiv(p: int, q: int): (r: int)
    requires q != 0
    ensures q > 0 ==> (r - 1) * q < p <= r * q
    ensures q < 0 ==> r * q <= p < (r - 1) * q
  {
    if q > 0 then
      CeilDivPositive(p, q);
      (p + q - 1) / q
    else
      CeilDivPositive(-p, -q);
      (-p - q - 1) / (-q)
  }

  lemma CeilDivPositive(p: int, q: int)
    requires q > 0
    ensures ((p + q - 1) / q - 1) * q < p <= ((p + q - 1) / q) * q
  {
    var d := (p + q - 1) / q;
    var m := (p + q - 1) % q;
    assert p + q - 1 == d * q + m && 0 <= m < q;
    assert (d - 1) * q == d * q - q;
  }

  lemma MulMonotone(a: int, b: int, q: int)
    requires a <= b && q > 0
    ensures a * q <= b * q
  {
    assert b * q - a * q == (b - a) * q;
  }

  /** The bounds of `CeilDiv` determine it: for a positive divisor there is
      exactly one integer between them. */
  lemma CeilDivUnique(p: int, q: int, k: int)
    requires q > 0
    requires (k - 1) * q < p <= k * q
    ensures k == CeilDiv(p, q)
  {
    var r := CeilDiv(p, q);
    if k < r {
      MulMonotone(k, r - 1, q);
    } else if k > r {
      MulMonotone(r, k - 1, q);
    }
  }

  /** `Math.ceil(a / b)`. A zero or infinite operand gives what IEEE division
      gives (`Infinity`, `NaN`, or zero); anything `ToNumber` cannot turn into
      a number gives `NaN`. */
  function CeilOfQuotient(a: JsValue, b: JsValue): (r: JsValue)
    ensures ToNumber(a).Num? && ToNumber(b).Num? && ToNumber(b).n > 0 ==>
              r.Num? && (r.n - 1) * ToNumber(b).n < ToNumber(a).n <= r.n * ToNumber(b).n
    ensures ToNumber(a).Num? && ToNumber(a).n > 0 && ToNumber(b) == Num(0) ==> r == Infinity(false)
    ensures ToNumber(a).NaN? || ToNumber(b).NaN? ==> r.NaN?
  {
    match (ToNumber(a), ToNumber(b))
    case (Num(p), Num(q)) =>
      if q != 0 then Num(CeilDiv(p, q))
      else if p == 0 then NaN
      else Infinity(p < 0)
    case (Num(_), Infinity(_)) => Num(0)
    case (Infinity(neg), Num(q)) => Infinity(if q < 0 then !neg else neg)
    case (_, _) => NaN
  }
}
