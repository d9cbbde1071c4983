/** Values of Rust's `f64` as the efficiency code computes them.

    A finite value is an exact `real`: rounding and overflow are not modelled.
    The special values are kept, because the code really produces them: a
    detector line whose gamma line has not been chosen yet has intensity 0 and
    its efficiency is 0/0, a source whose half-life is still 0 has an infinite
    decay constant. Operations on the special values follow IEEE 754, except
    that zero carries no sign (every zero behaves as +0).

    `exp` and `sqrt` of finite arguments are not computed here: they are the
    fields of a `MathLib` passed in by the caller, of which only a few laws are
    assumed (`Lawful`). */
module Float {

  datatype F64 = Finite(r: real) | PosInf | NegInf | NaN

  /** The floating-point library: `f64::exp` and `f64::sqrt` on finite arguments. */
  datatype MathLib = MathLib(exp: real -> real, sqrt: real -> real)

  /** The only facts about `exp` and `sqrt` the proofs rely on. */
  ghost predicate Lawful(m: MathLib)
  {
    && m.exp(0.0) == 1.0
    && (forall r :: 0.0 < m.exp(r))
    && (forall r :: 0.0 <= r ==> 0.0 <= m.sqrt(r))
  }

  /** +1 or -1; zero counts as positive. Not defined for NaN. */
  function SignOf(a: F64): int
    requires !a.NaN?
  {
    match a
    case Finite(x) => if x < 0.0 then -1 else 1
    case PosInf => 1
    case NegInf => -1
  }

  function InfWithSign(s: int): F64
  {
    if s < 0 then NegInf else PosInf
  }

  function Neg(a: F64): F64
  {
    match a
    case Finite(x) => Finite(-x)
    case PosInf => NegInf
    case NegInf => PosInf
    case NaN => NaN
  }

  function Add(a: F64, b: F64): F64
  {
    if a.NaN? || b.NaN? then NaN
    else if (a.PosInf? && b.NegInf?) || (a.NegInf? && b.PosInf?) then NaN
    else if a.PosInf? || b.PosInf? then PosInf
    else if a.NegInf? || b.NegInf? then NegInf
    else Finite(a.r + b.r)
  }

  function Sub(a: F64, b: F64): F64
  {
    Add(a, Neg(b))
  }

  function Mul(a: F64, b: F64): F64
  {
    if a.NaN? || b.NaN? then NaN
    else if a.Finite? && b.Finite? then Finite(a.r * b.r)
    else if a == Finite(0.0) || b == Finite(0.0) then NaN
    else InfWithSign(SignOf(a) * SignOf(b))
  }

  function Div(a: F64, b: F64): F64
  {
    if a.NaN? || b.NaN? then NaN
    else if !a.Finite? && !b.Finite? then NaN
    else if !a.Finite? then InfWithSign(SignOf(a) * SignOf(b))
    else if !b.Finite? then Finite(0.0)
    else if b.r != 0.0 then Finite(a.r / b.r)
    else if a.r == 0.0 then NaN
    else InfWithSign(SignOf(a))
  }

  /** `f64::powi(2)`. */
  function Square(a: F64): F64
  {
    Mul(a, a)
  }

  function Exp(m: MathLib, a: F64): F64
  {
    match a
    case Finite(x) => Finite(m.exp(x))
    case PosInf => PosInf
    case NegInf => Finite(0.0)
    case NaN => NaN
  }

  function Sqrt(m: MathLib, a: F64): F64
  {
    match a
    case Finite(x) => if x < 0.0 then NaN else Finite(m.sqrt(x))
    case PosInf => PosInf
    case NegInf => NaN
    case NaN => NaN
  }

  /** `f64::max`: a NaN operand is ignored. */
  function Max(a: F64, b: F64): F64
  {
    if a.NaN? then b
    else if b.NaN? then a
    else if a.NegInf? || b.PosInf? then b
    else if b.NegInf? || a.PosInf? then a
    else if a.r < b.r then b else a
  }

  /** `iter().sum()`: additions from the left, starting at zero. */
  function Sum(xs: seq<F64>): F64
  {
    if xs == [] then Finite(0.0) else Add(Sum(xs[..|xs| - 1]), xs[|xs| - 1])
  }

  /** A sum of finite values is finite. */
  lemma {:induction false} SumOfFinite(xs: seq<F64>)
    requires forall k :: 0 <= k < |xs| ==> xs[k].Finite?
    ensures Sum(xs).Finite?
  {
    if xs != [] {
      SumOfFinite(xs[..|xs| - 1]);
    }
  }

  /** A sum of finite non-negative values is a finite non-negative value. */
  lemma {:induction false} SumOfNonNegative(xs: seq<F64>)
    requires forall k :: 0 <= k < |xs| ==> xs[k].Finite? && 0.0 <= xs[k].r
    ensures Sum(xs).Finite? && 0.0 <= Sum(xs).r
  {
    if xs != [] {
      SumOfNonNegative(xs[..|xs| - 1]);
    }
  }

  /** Multiplication is associative on these values, special values included
      (the order in which the source groups a product does not matter). */
  lemma MulAssociative(a: F64, b: F64, c: F64)
    ensures Mul(Mul(a, b), c) == Mul(a, Mul(b, c))
  {
    if a.Finite? && b.Finite? && c.Finite? {
      MulAssociativeFinite(a.r, b.r, c.r);
    } else if a.NaN? || b.NaN? || c.NaN? {
    } else if a == Finite(0.0) || b == Finite(0.0) || c == Finite(0.0) {
      MulZeroTimesInfinite(a, b, c);
    } else {
      MulAssociativeInfinite(a, b, c);
    }
  }

  lemma MulAssociativeFinite(x: real, y: real, z: real)
    ensures Mul(Mul(Finite(x), Finite(y)), Finite(z)) == Mul(Finite(x), Mul(Finite(y), Finite(z)))
  {
    assert (x * y) * z == x * (y * z);
  }

  /** Without zeros and NaN, a product with an infinite factor is the infinity
      of the product of the signs, however it is grouped. */
  lemma MulAssociativeInfinite(a: F64, b: F64, c: F64)
    requires !a.NaN? && !b.NaN? && !c.NaN?
    requires a != Finite(0.0) && b != Finite(0.0) && c != Finite(0.0)
    ensures Mul(Mul(a, b), c) == Mul(a, Mul(b, c))
  {
    SignOfProduct(a, b);
    SignOfProduct(b, c);
    SignOfProduct(Mul(a, b), c);
    SignOfProduct(a, Mul(b, c));
    if a.Finite? && b.Finite? && c.Finite? {
      MulAssociativeFinite(a.r, b.r, c.r);
    } else {
      assert !Mul(Mul(a, b), c).Finite? && !Mul(a, Mul(b, c)).Finite?;
    }
  }

  /** A product with a zero factor and an infinite one is NaN, however it is
      grouped. */
  lemma MulZeroTimesInfinite(a: F64, b: F64, c: F64)
    requires !a.NaN? && !b.NaN? && !c.NaN?
    requires !(a.Finite? && b.Finite? && c.Finite?)
    requires a == Finite(0.0) || b == Finite(0.0) || c == Finite(0.0)
    ensures Mul(Mul(a, b), c).NaN? && Mul(a, Mul(b, c)).NaN?
  {
  }

  /** The sign of a product of non-zero values is the product of the signs. */
  lemma SignOfProduct(a: F64, b: F64)
    requires !a.NaN? && !b.NaN? && a != Finite(0.0) && b != Finite(0.0)
    ensures !Mul(a, b).NaN? && Mul(a, b) != Finite(0.0)
    ensures SignOf(Mul(a, b)) == SignOf(a) * SignOf(b)
  {
    if a.Finite? && b.Finite? {
      if a.r < 0.0 && b.r < 0.0 {
        assert 0.0 < a.r * b.r;
      } else if a.r < 0.0 {
        assert a.r * b.r < 0.0;
      } else if b.r < 0.0 {
        assert a.r * b.r < 0.0;
      } else {
        assert 0.0 < a.r * b.r;
      }
    }
  }

  /** One is the identity of multiplication, special values included: a
      band scaled by the fixed factor 1 is the unscaled band. */
  lemma MulOneLeft(a: F64)
    ensures Mul(Finite(1.0), a) == a
  {
  }

  /** A product of finite non-negative values is a finite non-negative value. */
  lemma MulNonNegative(a: F64, b: F64)
    requires a.Finite? && b.Finite? && 0.0 <= a.r && 0.0 <= b.r
    ensures Mul(a, b).Finite? && 0.0 <= Mul(a, b).r
  {
  }
}
