/**
 * The constructor-level rewrite rules of rep/MathExpr.hpp (simplifyAdd,
 * simplifyMultiply, simplifyDivide, simplifyPower, isOne, isZero) and their
 * soundness: whenever the unsimplified node evaluates, the simplified one
 * evaluates to the same value.
 */
module Simplify {
  import opened Outcomes
  import opened Scalar
  import opened Tree

  /** isZero: the node is a ConstantNode whose value equals T(0). */
  predicate IsZero<T(==)>(d: Domain<T>, n: Node<T>): (b: bool)
    ensures b <==> n == Constant(d.Zero())
  {
    n.Constant? && n.value == d.Zero()
  }

  /** isOne: the node is a ConstantNode whose value equals T(1). */
  predicate IsOne<T(==)>(d: Domain<T>, n: Node<T>): (b: bool)
    ensures b <==> n == Constant(d.One())
  {
    n.Constant? && n.value == d.One()
  }

  /** simplifyAdd: a literal 0 on either side gives the other side; two constants fold into one. */
  function SimplifyAdd<T(==)>(d: Domain<T>, l: Node<T>, r: Node<T>): (s: Node<T>)
    ensures IsZero(d, l) ==> s == r
    ensures IsZero(d, r) ==> s == l
    ensures !IsZero(d, l) && !IsZero(d, r) && l.Constant? && r.Constant? ==> s == Constant(d.add(l.value, r.value))
    ensures !(l.Constant? && r.Constant?) && !IsZero(d, l) && !IsZero(d, r) ==> s == Binary(Add, l, r)
  {
    if IsZero(d, l) then r
    else if IsZero(d, r) then l
    else if l.Constant? && r.Constant? then Constant(d.add(l.value, r.value))
    else Binary(Add, l, r)
  }

  /**
   * simplifyMultiply: a literal 1 on either side gives the other side, a
   * literal 0 gives Constant 0 (the ones are checked first); two constants fold.
   */
  function SimplifyMultiply<T(==)>(d: Domain<T>, l: Node<T>, r: Node<T>): (s: Node<T>)
    ensures IsOne(d, l) ==> s == r
    ensures IsOne(d, r) ==> s == l
    ensures !IsOne(d, l) && !IsOne(d, r) && (IsZero(d, l) || IsZero(d, r)) ==> s == Constant(d.Zero())
    ensures l.Constant? && r.Constant? && !IsOne(d, l) && !IsOne(d, r) && !IsZero(d, l) && !IsZero(d, r) ==> s == Constant(d.mul(l.value, r.value))
    ensures !(l.Constant? && r.Constant?) && !IsOne(d, l) && !IsOne(d, r) && !IsZero(d, l) && !IsZero(d, r) ==> s == Binary(Multiply, l, r)
  {
    if IsOne(d, l) then r
    else if IsOne(d, r) then l
    else if IsZero(d, l) || IsZero(d, r) then Constant(d.Zero())
    else if l.Constant? && r.Constant? then Constant(d.mul(l.value, r.value))
    else Binary(Multiply, l, r)
  }

  /** The only rewrite that can throw: folding two constants by a zero divisor. */
  function SimplifyDivide<T(==)>(d: Domain<T>, l: Node<T>, r: Node<T>): (s: Result<Node<T>, Error>)
    ensures s.Err? <==> !IsOne(d, r) && !IsZero(d, l) && l.Constant? && r.Constant? && r.value == d.Zero()
    ensures s.Err? ==> s.error == DivisionByZero
    ensures IsOne(d, r) ==> s == Ok(l)
    ensures !IsOne(d, r) && IsZero(d, l) ==> s == Ok(Constant(d.Zero()))
    ensures !IsOne(d, r) && !IsZero(d, l) && l.Constant? && r.Constant? && r.value != d.Zero() ==>
      s == Ok(Constant(d.div(l.value, r.value)))
    ensures !(l.Constant? && r.Constant?) && !IsOne(d, r) && !IsZero(d, l) ==> s == Ok(Binary(Divide, l, r))
  {
    if IsOne(d, r) then Ok(l)
    else if IsZero(d, l) then Ok(Constant(d.Zero()))
    else if l.Constant? && r.Constant? then
      if r.value == d.Zero() then Err(DivisionByZero)
      else Ok(Constant(d.div(l.value, r.value)))
    else Ok(Binary(Divide, l, r))
  }

  /** simplifyPower: x^1 is x and x^0 is Constant 1; two constants fold through pow. */
  function SimplifyPower<T(==)>(d: Domain<T>, base: Node<T>, exponent: Node<T>): (s: Node<T>)
    ensures IsOne(d, exponent) ==> s == base
    ensures !IsOne(d, exponent) && IsZero(d, exponent) ==> s == Constant(d.One())
    ensures !IsOne(d, exponent) && !IsZero(d, exponent) && base.Constant? && exponent.Constant? ==> s == Constant(d.lib.pow(base.value, exponent.value))
    ensures !(base.Constant? && exponent.Constant?) && !IsOne(d, exponent) && !IsZero(d, exponent) ==> s == Binary(Power, base, exponent)
  {
    if IsOne(d, exponent) then base
    else if IsZero(d, exponent) then Constant(d.One())
    else if base.Constant? && exponent.Constant? then Constant(d.lib.pow(base.value, exponent.value))
    else Binary(Power, base, exponent)
  }

  /** The number of nodes of a tree. */
  function Size<T>(n: Node<T>): (k: nat)
    ensures k >= 1
  {
    match n
    case Constant(_) => 1
    case Variable(_) => 1
    case Binary(_, l, r) => 1 + Size(l) + Size(r)
    case Function(_, a) => 1 + Size(a)
  }

  /** No rewrite builds a tree larger than the operator node it stands for. */
  lemma SimplifyNeverGrows<T>(d: Domain<T>, l: Node<T>, r: Node<T>)
    ensures Size(SimplifyAdd(d, l, r)) <= Size(Binary(Add, l, r))
    ensures Size(SimplifyMultiply(d, l, r)) <= Size(Binary(Multiply, l, r))
    ensures SimplifyDivide(d, l, r).Ok? ==> Size(SimplifyDivide(d, l, r).value) <= Size(Binary(Divide, l, r))
    ensures Size(SimplifyPower(d, l, r)) <= Size(Binary(Power, l, r))
  {
  }

  /** 0 / 0 folds to 0: the zero-numerator rule is checked before the constant fold. */
  lemma SimplifyDivideZeroByZero<T>(d: Domain<T>)
    requires d.Zero() != d.One()
    ensures SimplifyDivide(d, Constant(d.Zero()), Constant(d.Zero())) == Ok(Constant(d.Zero()))
  {
  }

  /**
   * A literal zero on either side gives Constant 0, a literal one gives the
   * other side back; the other side is never evaluated, so 0 * x is 0 even
   * where x fails to evaluate.
   */
  lemma SimplifyMultiplyZeroWins<T>(d: Domain<T>, l: Node<T>, r: Node<T>, vars: map<string, T>)
    requires d.Zero() != d.One()
    requires IsZero(d, l) || IsZero(d, r)
    ensures SimplifyMultiply(d, l, r) == Constant(d.Zero())
    ensures Eval(d, SimplifyMultiply(d, l, r), vars) == Ok(d.Zero())
  {
  }

  /** Soundness of simplifyAdd. */
  lemma SimplifyAddSound<T(!new)>(d: Domain<T>, l: Node<T>, r: Node<T>, vars: map<string, T>)
    requires Lawful(d)
    requires Eval(d, Binary(Add, l, r), vars).Ok?
    ensures Eval(d, SimplifyAdd(d, l, r), vars) == Eval(d, Binary(Add, l, r), vars)
  {
  }

  /** Soundness of simplifyMultiply. */
  lemma SimplifyMultiplySound<T(!new)>(d: Domain<T>, l: Node<T>, r: Node<T>, vars: map<string, T>)
    requires Lawful(d)
    requires Eval(d, Binary(Multiply, l, r), vars).Ok?
    ensures Eval(d, SimplifyMultiply(d, l, r), vars) == Eval(d, Binary(Multiply, l, r), vars)
  {
  }

  /** Soundness of simplifyDivide: where x / y evaluates, the rewrite does not throw and agrees. */
  lemma SimplifyDivideSound<T(!new)>(d: Domain<T>, l: Node<T>, r: Node<T>, vars: map<string, T>)
    requires Lawful(d)
    requires Eval(d, Binary(Divide, l, r), vars).Ok?
    ensures SimplifyDivide(d, l, r).Ok?
    ensures Eval(d, SimplifyDivide(d, l, r).value, vars) == Eval(d, Binary(Divide, l, r), vars)
  {
  }

  /** Soundness of simplifyPower. */
  lemma SimplifyPowerSound<T(!new)>(d: Domain<T>, base: Node<T>, exponent: Node<T>, vars: map<string, T>)
    requires Lawful(d)
    requires Eval(d, Binary(Power, base, exponent), vars).Ok?
    ensures Eval(d, SimplifyPower(d, base, exponent), vars) == Eval(d, Binary(Power, base, exponent), vars)
  {
  }
}
