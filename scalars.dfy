/**
 * Exact scalar arithmetic shared by the whole model: complex numbers over
 * unbounded reals (numpy's complex128 without rounding), an Option type and
 * a Result type for code that raises.  A value that numpy would turn into
 * NaN is modelled as `None`.
 */
module Scalars {

  datatype Option<T> = None | Some(value: T)

  /** The Python exceptions the modelled code raises. */
  datatype PyError = ValueError | TypeError | KeyError | IndexError | AssertionError | NameError

  datatype Result<T> = Ok(value: T) | Err(error: PyError)

  datatype Complex = Complex(re: real, im: real)

  const Zero: Complex := Complex(0.0, 0.0)
  const One: Complex := Complex(1.0, 0.0)

  /** A real number seen as a complex number (numpy's implicit upcast). */
  function FromReal(x: real): Complex { Complex(x, 0.0) }

  function Add(a: Complex, b: Complex): Complex { Complex(a.re + b.re, a.im + b.im) }

  function Sub(a: Complex, b: Complex): Complex { Complex(a.re - b.re, a.im - b.im) }

  function Neg(a: Complex): Complex { Complex(-a.re, -a.im) }

  function Mul(a: Complex, b: Complex): Complex {
    Complex(a.re * b.re - a.im * b.im, a.re * b.im + a.im * b.re)
  }

  /** Multiplication by a real number (a float times a complex in numpy). */
  function Scale(a: Complex, k: real): Complex { Complex(a.re * k, a.im * k) }

  function Norm2(a: Complex): real { a.re * a.re + a.im * a.im }

  /** The reciprocal `1./z`, defined for every nonzero z. */
  function Inv(z: Complex): (r: Complex)
    requires z != Zero
    ensures Mul(z, r) == One
  {
    NormNonzero(z);
    var k := 1.0 / Norm2(z);
    ReciprocalProduct(z.re, z.im, k);
    Complex(z.re * k, -z.im * k)
  }

  lemma ReciprocalProduct(x: real, y: real, k: real)
    requires (x * x + y * y) * k == 1.0
    ensures Mul(Complex(x, y), Complex(x * k, -y * k)) == One
  {}

  /** Only zero has a zero squared modulus. */
  lemma NormNonzero(z: Complex)
    ensures z != Zero <==> Norm2(z) != 0.0
  {
    if Norm2(z) == 0.0 {
      SumOfSquaresZero(z.re, z.im);
      SquareZero(z.re);
      SquareZero(z.im);
    }
  }

  lemma SumOfSquaresZero(x: real, y: real)
    requires x * x + y * y == 0.0
    ensures x * x == 0.0 && y * y == 0.0
  {}

  /** `1/x` as a total function, zero at zero. */
  function RealRecip(x: real): real { if x == 0.0 then 0.0 else 1.0 / x }

  lemma SquareZero(x: real)
    requires x * x == 0.0
    ensures x == 0.0
  {
    // Mentioning 1/x lets the solver derive x * (1/x) == 1, which
    // contradicts x * x == 0 unless x == 0.
    var k := RealRecip(x);
  }

  /** Sum of four terms, associated to the left as the kernels write it. */
  function Sum4(a: Complex, b: Complex, c: Complex, d: Complex): Complex {
    Add(Add(Add(a, b), c), d)
  }

  // Ring laws used by the matrix proofs.

  lemma MulComm(a: Complex, b: Complex)
    ensures Mul(a, b) == Mul(b, a)
  {}

  lemma MulAssoc(a: Complex, b: Complex, c: Complex)
    ensures Mul(Mul(a, b), c) == Mul(a, Mul(b, c))
  {}

  lemma MulAddLeft(a: Complex, b: Complex, c: Complex)
    ensures Mul(Add(a, b), c) == Add(Mul(a, c), Mul(b, c))
  {}

  lemma MulAddRight(a: Complex, b: Complex, c: Complex)
    ensures Mul(a, Add(b, c)) == Add(Mul(a, b), Mul(a, c))
  {}

  lemma MulOneRight(a: Complex)
    ensures Mul(a, One) == a && Mul(One, a) == a
  {}

  lemma MulZero(a: Complex)
    ensures Mul(a, Zero) == Zero && Mul(Zero, a) == Zero
  {}
}
