/**
 * The numeric-domain adapter of rep/MathExpr.hpp: the engine is a template over
 * a scalar type T that is either `long double` or `std::complex<long double>`.
 * Here T is a type parameter and everything the engine asks of it travels in a
 * `Domain<T>` record.  The floating-point library (pow, sin, cos, exp, log and
 * number formatting) is not modelled: it enters as function-valued fields.
 */
module Scalar {
  import opened Outcomes

  /** The library functions of the scalar type, taken as given. */
  datatype Library<!T> = Library(
    pow: (T, T) -> T,
    sin: T -> T,
    cos: T -> T,
    exp: T -> T,
    log: T -> T)

  /** Everything the generic engine uses of its scalar type T. */
  datatype Domain<!T> = Domain(
    ofReal: real -> T,            // static_cast<T>, and T(0), T(1), T(-1), T(2)
    add: (T, T) -> T,
    sub: (T, T) -> T,
    mul: (T, T) -> T,
    div: (T, T) -> T,             // only ever applied to a nonzero divisor
    lib: Library<T>,
    lnUndefined: T -> bool,       // real instantiation: argument <= 0; complex: never
    imaginaryUnit: Option<T>,     // complex instantiation: the value of Variable "i"
    format: T -> string)          // std::to_string / complexToString
  {
    function Zero(): T { ofReal(0.0) }
    function One(): T { ofReal(1.0) }
    function MinusOne(): T { ofReal(-1.0) }
    function Two(): T { ofReal(2.0) }
  }

  /**
   * The algebraic facts the simplifier's rewrite rules rely on: exact
   * arithmetic, with pow(x, 1) = x and pow(x, 0) = 1 taken as axioms.
   */
  ghost predicate Lawful<T(!new)>(d: Domain<T>) {
    && d.Zero() != d.One()
    && (forall x :: d.add(x, d.Zero()) == x)
    && (forall x :: d.add(d.Zero(), x) == x)
    && (forall x :: d.mul(x, d.One()) == x)
    && (forall x :: d.mul(d.One(), x) == x)
    && (forall x :: d.mul(x, d.Zero()) == d.Zero())
    && (forall x :: d.mul(d.Zero(), x) == d.Zero())
    && (forall x :: d.div(x, d.One()) == x)
    && (forall x :: x != d.Zero() ==> d.div(d.Zero(), x) == d.Zero())
    && (forall x :: d.lib.pow(x, d.One()) == x)
    && (forall x :: d.lib.pow(x, d.Zero()) == d.One())
    && (forall x, y :: d.add(x, d.mul(d.MinusOne(), y)) == d.sub(x, y))
  }

  /** What the library's pow must satisfy for the rewrite x^1 -> x, x^0 -> 1. */
  ghost predicate PowIdentities<T(!new)>(lib: Library<T>, zero: T, one: T) {
    && (forall x :: lib.pow(x, one) == x)
    && (forall x :: lib.pow(x, zero) == one)
  }

  /** The `long double` instantiation, with exact real arithmetic. */
  function RealDomain(lib: Library<real>, show: real -> string): (d: Domain<real>)
    ensures d.imaginaryUnit == None
    ensures forall x :: d.lnUndefined(x) <==> x <= 0.0
  {
    Domain(
      (x: real) => x,
      (x: real, y: real) => x + y,
      (x: real, y: real) => x - y,
      (x: real, y: real) => x * y,
      (x: real, y: real) => if y == 0.0 then 0.0 else x / y,
      lib,
      (x: real) => x <= 0.0,
      None,
      show)
  }

  lemma RealDomainLawful(lib: Library<real>, show: real -> string)
    requires PowIdentities(lib, 0.0, 1.0)
    ensures Lawful(RealDomain(lib, show))
  {
  }

  /** std::complex<long double>, as a pair of exact reals. */
  datatype Complex = Complex(re: real, im: real)

  function ComplexAdd(x: Complex, y: Complex): Complex {
    Complex(x.re + y.re, x.im + y.im)
  }

  function ComplexSub(x: Complex, y: Complex): Complex {
    Complex(x.re - y.re, x.im - y.im)
  }

  function ComplexMul(x: Complex, y: Complex): Complex {
    Complex(x.re * y.re - x.im * y.im, x.re * y.im + x.im * y.re)
  }

  function ComplexDiv(x: Complex, y: Complex): Complex {
    var n := y.re * y.re + y.im * y.im;
    if n == 0.0 then Complex(0.0, 0.0)
    else Complex((x.re * y.re + x.im * y.im) / n, (x.im * y.re - x.re * y.im) / n)
  }

  /** complexToString: "(" re "," im ")" with std::to_string for each part. */
  function ComplexToString(show: real -> string, c: Complex): (s: string)
    ensures |s| == |show(c.re)| + |show(c.im)| + 3
    ensures s[0] == '(' && s[1..1 + |show(c.re)|] == show(c.re) && s[1 + |show(c.re)|] == ','
    ensures s[2 + |show(c.re)|..|s| - 1] == show(c.im) && s[|s| - 1] == ')'
  {
    "(" + show(c.re) + "," + show(c.im) + ")"
  }

  /** The std::complex instantiation: Variable "i" is (0,1) and ln never raises. */
  function ComplexDomain(lib: Library<Complex>, show: real -> string): (d: Domain<Complex>)
    ensures d.imaginaryUnit == Some(Complex(0.0, 1.0))
    ensures forall x :: !d.lnUndefined(x)
  {
    Domain(
      (x: real) => Complex(x, 0.0),
      ComplexAdd,
      ComplexSub,
      ComplexMul,
      ComplexDiv,
      lib,
      (x: Complex) => false,
      Some(Complex(0.0, 1.0)),
      (c: Complex) => ComplexToString(show, c))
  }

  lemma ComplexDomainLawful(lib: Library<Complex>, show: real -> string)
    requires PowIdentities(lib, Complex(0.0, 0.0), Complex(1.0, 0.0))
    ensures Lawful(ComplexDomain(lib, show))
  {
  }
}
