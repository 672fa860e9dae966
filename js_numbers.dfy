/**
 * The pieces of JavaScript number semantics the pose path relies on:
 * number values, truncation toward zero, ToInt16 (what an Int16Array
 * element keeps of the number stored into it, section 7.1.7 of ECMA-262
 * 6th edition) and ToIndex (how a typed-array constructor reads a length).
 */
module JsNumbers {
  import opened Wrappers

  newtype int16 = x: int | -0x8000 <= x < 0x8000

  newtype byte = x: int | 0 <= x < 0x100

  /** A JavaScript number as the core sees it. `Undefined` is what an
      out-of-range typed-array read yields; arithmetic turns it into NaN.
      Infinities are not modelled. */
  datatype Num = Finite(value: real) | NaN | Undefined

  /** The error a typed-array constructor throws. */
  datatype JsError = RangeError

  /** Rounding toward zero. */
  function Trunc(r: real): (t: int)
    ensures 0.0 <= r ==> t as real <= r < t as real + 1.0
    ensures r < 0.0 ==> t as real - 1.0 < r <= t as real
  {
    if r >= 0.0 then r.Floor else -((-r).Floor)
  }

  /** Reduction of an integer modulo 2^16 into the signed 16-bit range. */
  function Wrap16(t: int): (w: int16)
    ensures (w as int - t) % 0x10000 == 0
  {
    var m := t % 0x10000;
    if m >= 0x8000 then (m - 0x10000) as int16 else m as int16
  }

  /** `10000 * n`: the scaling applied to a confidence before it is stored. */
  function Scale(n: Num): (r: Num)
    ensures r.Finite? <==> n.Finite?
    ensures n.Finite? ==> r.value == 10000.0 * n.value
  {
    match n
    case Finite(v) => Finite(10000.0 * v)
    case _ => NaN
  }

  /** `n / 10000`: the scaling applied to a confidence read back. */
  function Unscale(n: Num): (r: Num)
    ensures r.Finite? <==> n.Finite?
    ensures n.Finite? ==> 10000.0 * r.value == n.value
  {
    match n
    case Finite(v) => Finite(v / 10000.0)
    case _ => NaN
  }

  /** ToInt16: NaN and undefined become 0; a finite value is truncated
      toward zero and then wrapped modulo 2^16. Nothing is rounded or clamped. */
  function ToInt16(n: Num): (r: int16)
    ensures n.Finite? ==> (r as int - Trunc(n.value)) % 0x10000 == 0
    ensures !n.Finite? ==> r == 0
  {
    match n
    case Finite(v) => Wrap16(Trunc(v))
    case _ => 0
  }

  /** A real that an Int16Array element can hold exactly. */
  predicate Int16Valued(r: real)
  {
    r == r.Floor as real && -0x8000 <= r.Floor < 0x8000
  }

  /** Storing a value an int16 can hold keeps it exactly. */
  lemma ToInt16Exact(r: real)
    requires Int16Valued(r)
    ensures ToInt16(Finite(r)) as real == r
  {
    assert Trunc(r) == r.Floor;
  }

  /** Storing reads back through the real line unchanged: ToInt16 of an
      int16 value seen as a number is that value. */
  lemma ToInt16OfInt16(x: int16)
    ensures ToInt16(Finite(x as real)) == x
  {
    assert (x as real).Floor == x as int;
    assert Trunc(x as real) == x as int;
  }

  /** The conversion truncates toward zero and wraps; it neither rounds nor saturates. */
  lemma ToInt16TruncatesAndWraps()
    ensures ToInt16(Finite(2.75)) == 2
    ensures ToInt16(Finite(-2.75)) == -2
    ensures ToInt16(Finite(32768.0)) == -32768
    ensures ToInt16(Finite(-32769.0)) == 32767
    ensures ToInt16(Finite(65536.5)) == 0
    ensures ToInt16(NaN) == 0 && ToInt16(Undefined) == 0
  {
    assert Trunc(2.75) == 2;
    assert Trunc(-2.75) == -2;
    assert Trunc(32768.0) == 32768;
    assert Trunc(-32769.0) == -32769;
    assert Trunc(65536.5) == 65536;
  }

  /** ToIndex, as a typed-array constructor applies it to a number
      argument: NaN counts as 0, a finite value is truncated toward zero,
      and a negative result throws a RangeError. The upper bound of
      2^53 - 1 is not modelled. */
  function ToIndex(n: Num): (r: Result<nat, JsError>)
    ensures r.Err? <==> n.Finite? && Trunc(n.value) < 0
    ensures r.Ok? && n.Finite? ==> r.value == Trunc(n.value)
    ensures r.Ok? && !n.Finite? ==> r.value == 0
  {
    match n
    case Finite(v) => if Trunc(v) < 0 then Err(RangeError) else Ok(Trunc(v))
    case _ => Ok(0)
  }
}
