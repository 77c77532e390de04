/**
 * The node model of rep/MathExpr.hpp: ConstantNode, VariableNode,
 * BinaryOperationNode and FunctionNode, with their eval, toString and copy.
 * Shared pointers with exclusive ownership become an immutable datatype.
 */
module Tree {
  import opened Outcomes
  import opened Scalar

  datatype BinOp = Add | Subtract | Multiply | Divide | Power

  datatype Func = Sin | Cos | Ln | Exp

  datatype Node<T> =
    | Constant(value: T)
    | Variable(name: string)
    | Binary(op: BinOp, left: Node<T>, right: Node<T>)
    | Function(func: Func, arg: Node<T>)

  /** The exceptions the engine throws, one constructor per message. */
  datatype Error =
    | UnboundVariable(name: string)     // "Variable '<name>' not found"
    | DivisionByZero                    // "Division by zero"
    | LnDomainError                     // "Ln domain error"
    | InvalidCharacter(c: char, pos: nat)  // "Invalid character in input"
    | InvalidNumber(token: string)      // std::stold's std::invalid_argument
    | StackUnderflow                    // an unchecked pop of an empty std::stack
    | InvalidOperator(op: char)         // "Invalid operator"
    | InvalidExpression                 // "Invalid expression"

  /** The names of the variables the tree mentions. */
  function Vars<T>(n: Node<T>): set<string> {
    match n
    case Constant(_) => {}
    case Variable(name) => {name}
    case Binary(_, l, r) => Vars(l) + Vars(r)
    case Function(_, a) => Vars(a)
  }

  predicate HasDivide<T>(n: Node<T>) {
    match n
    case Constant(_) => false
    case Variable(_) => false
    case Binary(op, l, r) => op == Divide || HasDivide(l) || HasDivide(r)
    case Function(_, a) => HasDivide(a)
  }

  predicate HasLn<T>(n: Node<T>) {
    match n
    case Constant(_) => false
    case Variable(_) => false
    case Binary(_, l, r) => HasLn(l) || HasLn(r)
    case Function(f, a) => f == Ln || HasLn(a)
  }

  /** The value of a variable: "i" is the imaginary unit in the complex instantiation. */
  function Lookup<T>(d: Domain<T>, name: string, vars: map<string, T>): (r: Result<T, Error>)
    ensures r.Err? <==> name !in vars && !(d.imaginaryUnit.Some? && name == "i")
    ensures r.Err? ==> r.error == UnboundVariable(name)
    ensures r.Ok? && d.imaginaryUnit.Some? && name == "i" ==> r.value == d.imaginaryUnit.value
    ensures r.Ok? && !(d.imaginaryUnit.Some? && name == "i") ==> r.value == vars[name]
  {
    if d.imaginaryUnit.Some? && name == "i" then Ok(d.imaginaryUnit.value)
    else if name in vars then Ok(vars[name])
    else Err(UnboundVariable(name))
  }

  /** BinaryOperationNode::eval once both operands have values. */
  function ApplyBinary<T(==)>(d: Domain<T>, op: BinOp, x: T, y: T): (r: Result<T, Error>)
    ensures r.Err? <==> op == Divide && y == d.Zero()
    ensures r.Err? ==> r.error == DivisionByZero
  {
    match op
    case Add => Ok(d.add(x, y))
    case Subtract => Ok(d.sub(x, y))
    case Multiply => Ok(d.mul(x, y))
    case Divide => if y == d.Zero() then Err(DivisionByZero) else Ok(d.div(x, y))
    case Power => Ok(d.lib.pow(x, y))
  }

  /** FunctionNode::eval once the argument has a value. */
  function ApplyFunction<T>(d: Domain<T>, f: Func, x: T): (r: Result<T, Error>)
    ensures r.Err? <==> f == Ln && d.lnUndefined(x)
    ensures r.Err? ==> r.error == LnDomainError
  {
    match f
    case Sin => Ok(d.lib.sin(x))
    case Cos => Ok(d.lib.cos(x))
    case Exp => Ok(d.lib.exp(x))
    case Ln => if d.lnUndefined(x) then Err(LnDomainError) else Ok(d.lib.log(x))
  }

  /**
   * Node::eval: children first (left before right), then the operator.  Each
   * error can only come from a part of the tree that can raise it.
   */
  function Eval<T(==)>(d: Domain<T>, n: Node<T>, vars: map<string, T>): (r: Result<T, Error>)
    ensures r.Err? ==> (r.error.UnboundVariable? || r.error.DivisionByZero? || r.error.LnDomainError?)
    ensures r.Err? && r.error.UnboundVariable? ==>
      r.error.name in Vars(n) && r.error.name !in vars && !(d.imaginaryUnit.Some? && r.error.name == "i")
    ensures r.Err? && r.error.DivisionByZero? ==> HasDivide(n)
    ensures r.Err? && r.error.LnDomainError? ==> HasLn(n)
    ensures Vars(n) <= vars.Keys && !HasDivide(n) && !HasLn(n) ==> r.Ok?
  {
    match n
    case Constant(v) => Ok(v)
    case Variable(name) => Lookup(d, name, vars)
    case Binary(op, l, r) =>
      var x :- Eval(d, l, vars);
      var y :- Eval(d, r, vars);
      ApplyBinary(d, op, x, y)
    case Function(f, a) =>
      var x :- Eval(d, a, vars);
      ApplyFunction(d, f, x)
  }

  /** The text of an operator, as nodeTypeToString gives it. */
  function OpSymbol(op: BinOp): char {
    match op
    case Add => '+'
    case Subtract => '-'
    case Multiply => '*'
    case Divide => '/'
    case Power => '^'
  }

  function FuncName(f: Func): string {
    match f
    case Sin => "sin"
    case Cos => "cos"
    case Ln => "ln"
    case Exp => "exp"
  }

  /** Node::toString: binary operations fully parenthesised, functions as name(arg). */
  function ToString<T>(d: Domain<T>, n: Node<T>): (s: string)
    ensures n.Binary? ==> |s| >= 3 && s[0] == '(' && s[|s| - 1] == ')'
  {
    match n
    case Constant(v) => d.format(v)
    case Variable(name) => name
    case Binary(op, l, r) => "(" + ToString(d, l) + [OpSymbol(op)] + ToString(d, r) + ")"
    case Function(f, a) => FuncName(f) + "(" + ToString(d, a) + ")"
  }

  /** Node::copy: a deep copy, equal to the original. */
  function Copy<T>(n: Node<T>): (c: Node<T>)
    ensures c == n
  {
    match n
    case Constant(v) => Constant(v)
    case Variable(name) => Variable(name)
    case Binary(op, l, r) => Binary(op, Copy(l), Copy(r))
    case Function(f, a) => Function(f, Copy(a))
  }

  /** In the complex instantiation ln never raises its domain error. */
  lemma {:induction false} ComplexEvalNoLnError(lib: Library<Complex>, show: real -> string, n: Node<Complex>, vars: map<string, Complex>)
    ensures !(Eval(ComplexDomain(lib, show), n, vars) == Err(LnDomainError))
  {
    var d := ComplexDomain(lib, show);
    match n
    case Constant(_) =>
    case Variable(_) =>
    case Binary(_, l, r) =>
      ComplexEvalNoLnError(lib, show, l, vars);
      ComplexEvalNoLnError(lib, show, r, vars);
    case Function(f, a) =>
      ComplexEvalNoLnError(lib, show, a, vars);
  }

  /** In the complex instantiation Variable "i" is (0,1) whatever the bindings say. */
  lemma ComplexImaginaryUnit(lib: Library<Complex>, show: real -> string, vars: map<string, Complex>)
    ensures Eval(ComplexDomain(lib, show), Variable("i"), vars) == Ok(Complex(0.0, 1.0))
  {
  }
}
