/**
 * The structural derivative of rep/MathExpr.hpp (BinaryOperationNode::diff and
 * FunctionNode::diff): sum, product, quotient, generalised power and chain
 * rules, every intermediate node built through the simplifier.  A reciprocal
 * or quotient fold by a literal zero throws, so the result is a Result.
 */
module Derivative {
  import opened Outcomes
  import opened Scalar
  import opened Tree
  import opened Simplify

  /** Node::diff(var).  The only error it can raise is the simplifier's division by zero. */
  function Diff<T(==)>(d: Domain<T>, n: Node<T>, v: string): (r: Result<Node<T>, Error>)
    ensures r.Err? ==> r.error == DivisionByZero
  {
    match n
    case Constant(_) => Ok(Constant(d.Zero()))
    case Variable(name) => Ok(Constant(if name == v then d.One() else d.Zero()))
    case Binary(op, l, r) =>
      var dl :- Diff(d, l, v);
      var dr :- Diff(d, r, v);
      (match op
      case Add => Ok(SimplifyAdd(d, dl, dr))
      case Subtract => Ok(SimplifyAdd(d, dl, SimplifyMultiply(d, Constant(d.MinusOne()), dr)))
      case Multiply => Ok(SimplifyAdd(d, SimplifyMultiply(d, dl, r), SimplifyMultiply(d, l, dr)))
      case Divide =>
        var numerator := SimplifyAdd(d, SimplifyMultiply(d, dl, r),
                                     SimplifyMultiply(d, Constant(d.MinusOne()), SimplifyMultiply(d, l, dr)));
        var denominator := SimplifyPower(d, r, Constant(d.Two()));
        SimplifyDivide(d, numerator, denominator)
      case Power =>
        var term1 := SimplifyPower(d, l, r);
        match SimplifyDivide(d, dl, l)
        case Err(e) => Err(e)
        case Ok(quotient) =>
          var term2 := SimplifyAdd(d, SimplifyMultiply(d, dr, Function(Ln, l)), SimplifyMultiply(d, r, quotient));
          Ok(SimplifyMultiply(d, term1, term2)))
    case Function(f, a) =>
      var da :- Diff(d, a, v);
      match f
      case Sin => Ok(SimplifyMultiply(d, Function(Cos, a), da))
      case Cos => Ok(SimplifyMultiply(d, SimplifyMultiply(d, Constant(d.MinusOne()), Function(Sin, a)), da))
      case Exp => Ok(SimplifyMultiply(d, Function(Exp, a), da))
      case Ln =>
        var reciprocal :- SimplifyDivide(d, Constant(d.One()), a);
        Ok(SimplifyMultiply(d, reciprocal, da))
  }

  /** The tree holds ln(c) for a literal constant c equal to zero. */
  predicate HasLnOfZero<T(==)>(d: Domain<T>, n: Node<T>) {
    match n
    case Constant(_) => false
    case Variable(_) => false
    case Binary(_, l, r) => HasLnOfZero(d, l) || HasLnOfZero(d, r)
    case Function(f, a) => (f == Ln && IsZero(d, a)) || HasLnOfZero(d, a)
  }

  /**
   * Differentiating by a variable the tree does not mention gives literally
   * Constant 0, unless the tree holds ln(0), whose reciprocal fold throws.
   */
  lemma {:induction false} DiffAbsentVariable<T>(d: Domain<T>, n: Node<T>, v: string)
    requires d.Zero() != d.One()
    requires v !in Vars(n)
    requires !HasLnOfZero(d, n)
    ensures Diff(d, n, v) == Ok(Constant(d.Zero()))
  {
    match n
    case Constant(_) =>
    case Variable(_) =>
    case Binary(_, l, r) =>
      DiffAbsentVariable(d, l, v);
      DiffAbsentVariable(d, r, v);
    case Function(_, a) =>
      DiffAbsentVariable(d, a, v);
  }

  /** A subtree ln(0) makes the whole differentiation throw "Division by zero". */
  lemma {:induction false} DiffLnOfZeroFails<T>(d: Domain<T>, n: Node<T>, v: string)
    requires d.Zero() != d.One()
    requires HasLnOfZero(d, n)
    ensures Diff(d, n, v) == Err(DivisionByZero)
  {
    match n
    case Binary(_, l, r) =>
      if HasLnOfZero(d, l) {
        DiffLnOfZeroFails(d, l, v);
      } else {
        DiffLnOfZeroFails(d, r, v);
      }
    case Function(f, a) =>
      if HasLnOfZero(d, a) {
        DiffLnOfZeroFails(d, a, v);
      }
  }

  /** Sum rule (linearity): d(a + b) evaluates like da + db. */
  lemma DiffSumRule<T(!new)>(d: Domain<T>, a: Node<T>, b: Node<T>, v: string, da: Node<T>, db: Node<T>, vars: map<string, T>)
    requires Lawful(d)
    requires Diff(d, a, v) == Ok(da) && Diff(d, b, v) == Ok(db)
    requires Eval(d, Binary(Add, da, db), vars).Ok?
    ensures Diff(d, Binary(Add, a, b), v).Ok?
    ensures Eval(d, Diff(d, Binary(Add, a, b), v).value, vars) == Eval(d, Binary(Add, da, db), vars)
  {
    SimplifyAddSound(d, da, db, vars);
  }

  /** Difference rule: d(a - b), built as da + (-1) * db, evaluates like da - db. */
  lemma DiffDifferenceRule<T(!new)>(d: Domain<T>, a: Node<T>, b: Node<T>, v: string, da: Node<T>, db: Node<T>, vars: map<string, T>)
    requires Lawful(d)
    requires Diff(d, a, v) == Ok(da) && Diff(d, b, v) == Ok(db)
    requires Eval(d, Binary(Subtract, da, db), vars).Ok?
    ensures Diff(d, Binary(Subtract, a, b), v).Ok?
    ensures Eval(d, Diff(d, Binary(Subtract, a, b), v).value, vars) == Eval(d, Binary(Subtract, da, db), vars)
  {
    var m := SimplifyMultiply(d, Constant(d.MinusOne()), db);
    SimplifyMultiplySound(d, Constant(d.MinusOne()), db, vars);
    SimplifyAddSound(d, da, m, vars);
  }

  /** Product rule: d(l * r) evaluates like dl * r + l * dr. */
  lemma DiffProductRule<T(!new)>(d: Domain<T>, l: Node<T>, r: Node<T>, v: string, dl: Node<T>, dr: Node<T>, vars: map<string, T>)
    requires Lawful(d)
    requires Diff(d, l, v) == Ok(dl) && Diff(d, r, v) == Ok(dr)
    requires Eval(d, Binary(Add, Binary(Multiply, dl, r), Binary(Multiply, l, dr)), vars).Ok?
    ensures Diff(d, Binary(Multiply, l, r), v).Ok?
    ensures Eval(d, Diff(d, Binary(Multiply, l, r), v).value, vars)
         == Eval(d, Binary(Add, Binary(Multiply, dl, r), Binary(Multiply, l, dr)), vars)
  {
    SimplifyMultiplySound(d, dl, r, vars);
    SimplifyMultiplySound(d, l, dr, vars);
    SimplifyAddSound(d, SimplifyMultiply(d, dl, r), SimplifyMultiply(d, l, dr), vars);
  }

  /** Quotient rule: d(l / r) evaluates like (dl * r - l * dr) / r^2. */
  lemma DiffQuotientRule<T(!new)>(d: Domain<T>, l: Node<T>, r: Node<T>, v: string, dl: Node<T>, dr: Node<T>, vars: map<string, T>)
    requires Lawful(d)
    requires Diff(d, l, v) == Ok(dl) && Diff(d, r, v) == Ok(dr)
    requires Eval(d, Binary(Divide, Binary(Subtract, Binary(Multiply, dl, r), Binary(Multiply, l, dr)),
                              Binary(Power, r, Constant(d.Two()))), vars).Ok?
    ensures Diff(d, Binary(Divide, l, r), v).Ok?
    ensures Eval(d, Diff(d, Binary(Divide, l, r), v).value, vars)
         == Eval(d, Binary(Divide, Binary(Subtract, Binary(Multiply, dl, r), Binary(Multiply, l, dr)),
                              Binary(Power, r, Constant(d.Two()))), vars)
  {
    var t1 := SimplifyMultiply(d, dl, r);
    var t0 := SimplifyMultiply(d, l, dr);
    var t2 := SimplifyMultiply(d, Constant(d.MinusOne()), t0);
    var numerator := SimplifyAdd(d, t1, t2);
    var denominator := SimplifyPower(d, r, Constant(d.Two()));
    SimplifyMultiplySound(d, dl, r, vars);
    SimplifyMultiplySound(d, l, dr, vars);
    SimplifyMultiplySound(d, Constant(d.MinusOne()), t0, vars);
    SimplifyAddSound(d, t1, t2, vars);
    SimplifyPowerSound(d, r, Constant(d.Two()), vars);
    SimplifyDivideSound(d, numerator, denominator, vars);
  }

  /** Generalised power rule: d(l ^ r) evaluates like l^r * (dr * ln(l) + r * (dl / l)). */
  lemma DiffPowerRule<T(!new)>(d: Domain<T>, l: Node<T>, r: Node<T>, v: string, dl: Node<T>, dr: Node<T>, vars: map<string, T>)
    requires Lawful(d)
    requires Diff(d, l, v) == Ok(dl) && Diff(d, r, v) == Ok(dr)
    requires Eval(d, Binary(Multiply, Binary(Power, l, r),
                       Binary(Add, Binary(Multiply, dr, Function(Ln, l)),
                                   Binary(Multiply, r, Binary(Divide, dl, l)))), vars).Ok?
    ensures Diff(d, Binary(Power, l, r), v).Ok?
    ensures Eval(d, Diff(d, Binary(Power, l, r), v).value, vars)
         == Eval(d, Binary(Multiply, Binary(Power, l, r),
                       Binary(Add, Binary(Multiply, dr, Function(Ln, l)),
                                   Binary(Multiply, r, Binary(Divide, dl, l)))), vars)
  {
    var term1 := SimplifyPower(d, l, r);
    var sum := Binary(Add, Binary(Multiply, dr, Function(Ln, l)), Binary(Multiply, r, Binary(Divide, dl, l)));
    assert Eval(d, Binary(Power, l, r), vars).Ok? && Eval(d, sum, vars).Ok?;
    assert Eval(d, Binary(Multiply, r, Binary(Divide, dl, l)), vars).Ok?;
    SimplifyPowerSound(d, l, r, vars);
    SimplifyDivideSound(d, dl, l, vars);
    var quotient := SimplifyDivide(d, dl, l).value;
    var u := SimplifyMultiply(d, dr, Function(Ln, l));
    var w := SimplifyMultiply(d, r, quotient);
    SimplifyMultiplySound(d, dr, Function(Ln, l), vars);
    SimplifyMultiplySound(d, r, quotient, vars);
    SimplifyAddSound(d, u, w, vars);
    SimplifyMultiplySound(d, term1, SimplifyAdd(d, u, w), vars);
  }

  /** Chain rule for sin, cos, exp and ln: f(a) differentiates to f'(a) * da. */
  lemma DiffChainRule<T(!new)>(d: Domain<T>, f: Func, a: Node<T>, v: string, da: Node<T>, vars: map<string, T>)
    requires Lawful(d)
    requires Diff(d, a, v) == Ok(da)
    requires Eval(d, Binary(Multiply, OuterDerivative(d, f, a), da), vars).Ok?
    ensures Diff(d, Function(f, a), v).Ok?
    ensures Eval(d, Diff(d, Function(f, a), v).value, vars) == Eval(d, Binary(Multiply, OuterDerivative(d, f, a), da), vars)
  {
    match f
    case Sin =>
      SimplifyMultiplySound(d, Function(Cos, a), da, vars);
    case Cos =>
      var neg := SimplifyMultiply(d, Constant(d.MinusOne()), Function(Sin, a));
      SimplifyMultiplySound(d, Constant(d.MinusOne()), Function(Sin, a), vars);
      SimplifyMultiplySound(d, neg, da, vars);
    case Exp =>
      SimplifyMultiplySound(d, Function(Exp, a), da, vars);
    case Ln =>
      SimplifyDivideSound(d, Constant(d.One()), a, vars);
      SimplifyMultiplySound(d, SimplifyDivide(d, Constant(d.One()), a).value, da, vars);
  }

  /** The derivative of the outer function, unsimplified: cos(a), -1 * sin(a), exp(a), 1 / a. */
  function OuterDerivative<T>(d: Domain<T>, f: Func, a: Node<T>): Node<T> {
    match f
    case Sin => Function(Cos, a)
    case Cos => Binary(Multiply, Constant(d.MinusOne()), Function(Sin, a))
    case Exp => Function(Exp, a)
    case Ln => Binary(Divide, Constant(d.One()), a)
  }
}
