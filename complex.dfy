/**
 * Complex numbers over exact reals: `ComplexNumber<double>`. The arithmetic
 * operators are pure and work on the value `Cx`; the compound assignments
 * `+=` and `-=` update an object's two fields in place.
 */
module Complex {

  /** The value of a complex number: its real and imaginary parts. */
  datatype Cx = Cx(re: real, im: real)

  /** `operator+`: componentwise sum. */
  function Add(a: Cx, b: Cx): Cx
  {
    Cx(a.re + b.re, a.im + b.im)
  }

  /** `operator-`: componentwise difference. */
  function Sub(a: Cx, b: Cx): Cx
  {
    Cx(a.re - b.re, a.im - b.im)
  }

  /** `operator*(ComplexNumber)`: (ac - bd) + (ad + bc)i. */
  function Mul(a: Cx, b: Cx): Cx
  {
    Cx(a.re * b.re - a.im * b.im, a.re * b.im + a.im * b.re)
  }

  /** `operator*(T)`: both parts scaled. */
  function Scale(a: Cx, s: real): Cx
  {
    Cx(a.re * s, a.im * s)
  }

  /** `(a + b) - b == a`. */
  lemma SubUndoesAdd(a: Cx, b: Cx)
    ensures Sub(Add(a, b), b) == a
  {
  }

  lemma AddCommutes(a: Cx, b: Cx)
    ensures Add(a, b) == Add(b, a)
  {
  }

  lemma MulCommutes(a: Cx, b: Cx)
    ensures Mul(a, b) == Mul(b, a)
  {
  }

  /** (1, 0) is the identity of `*` on both sides. */
  lemma MulIdentity(a: Cx)
    ensures Mul(a, Cx(1.0, 0.0)) == a && Mul(Cx(1.0, 0.0), a) == a
  {
  }

  /** Scaling by s is multiplying by the complex number (s, 0). */
  lemma ScaleIsMulByReal(a: Cx, s: real)
    ensures Scale(a, s) == Mul(a, Cx(s, 0.0))
  {
  }

  /** i * i == -1. */
  lemma ImaginaryUnitSquared()
    ensures Mul(Cx(0.0, 1.0), Cx(0.0, 1.0)) == Cx(-1.0, 0.0)
  {
  }

  /** A `ComplexNumber` object, whose two fields `+=` and `-=` overwrite. */
  class ComplexNumber {
    var re: real
    var im: real

    function Value(): Cx
      reads this
    {
      Cx(re, im)
    }

    /** `ComplexNumber(r, i)`; with no arguments the source gives (0, 0). */
    constructor (r: real, i: real)
      ensures GetReal() == r && GetImag() == i
    {
      re, im := r, i;
    }

    /** `ComplexNumber()`: zero. */
    constructor Zero()
      ensures GetReal() == 0.0 && GetImag() == 0.0
    {
      re, im := 0.0, 0.0;
    }

    function GetReal(): real
      reads this
    {
      re
    }

    function GetImag(): real
      reads this
    {
      im
    }

    /** `operator+=`: adds other to this and returns a copy of the new value. */
    method AddAssign(other: Cx) returns (copy: Cx)
      modifies this
      ensures Value() == Add(old(Value()), other)
      ensures copy == Value()
    {
      re := re + other.re;
      im := im + other.im;
      copy := Cx(re, im);
    }

    /** `operator-=`: subtracts other from this and returns a copy of the new value. */
    method SubAssign(other: Cx) returns (copy: Cx)
      modifies this
      ensures Value() == Sub(old(Value()), other)
      ensures copy == Value()
    {
      re := re - other.re;
      im := im - other.im;
      copy := Cx(re, im);
    }
  }
}
