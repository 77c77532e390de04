/**
 * The older real-only expression tree of Expression.cpp: NumberNode,
 * SymbolNode, BinaryOpNode and FunctionNode with evaluate, toString and clone,
 * the loop-based `power`, and the MathExpression handle whose root the
 * constructors, assignments and operators set.  Values are `long double`,
 * modelled as exact reals; division without a zero check, the library
 * functions and std::to_string are parameters.
 */
module Legacy {
  import opened Outcomes

  /** OperationType of MathExpr.hpp. */
  datatype OperationType = Number | Symbol | Add | Subtract | Multiply | Divide | Power | Sine | Cosine | Log | Exp

  /** The node classes; a shared_ptr<MathNode> child is the subtree it points to. */
  datatype MathNode =
    | NumberNode(value: real)
    | SymbolNode(symbol: string)
    | BinaryOpNode(op: OperationType, left: MathNode, right: MathNode)
    | FunctionNode(func: OperationType, arg: MathNode)

  /** The runtime_errors evaluate throws. */
  datatype EvalError =
    | SymbolNotFound(name: string)   // "Symbol not found: " + name
    | UnknownBinaryOperation
    | UnknownFunction

  /**
   * What the tree takes from the floating-point library: `/` on long double
   * (IEEE, so a zero divisor gives an infinity or NaN rather than an error),
   * std::sin, std::cos, std::exp, std::log and std::to_string.
   */
  datatype Numerics = Numerics(
    quotient: (real, real) -> real,
    sin: real -> real,
    cos: real -> real,
    exp: real -> real,
    log: real -> real,
    show: real -> string)

  /** base raised to a natural power by repeated multiplication. */
  function IntPow(base: real, n: nat): real {
    if n == 0 then 1.0 else base * IntPow(base, n - 1)
  }

  /** The least integer at or above e. */
  function Ceiling(e: real): int {
    -((-e).Floor)
  }

  lemma CeilingBounds(e: real)
    ensures (Ceiling(e) - 1) as real < e <= Ceiling(e) as real
  {
  }

  /** How many factors of base `power` multiplies together for a nonzero exponent e. */
  function Factors(e: real): (n: nat)
    ensures n >= 1
  {
    if e <= 1.0 then 1 else Ceiling(e)
  }

  /** What `power(base, exponent)` returns. */
  function PowerValue(base: real, exponent: real): real {
    if exponent == 0.0 then 1.0 else IntPow(base, Factors(exponent))
  }

  /**
   * power: 1 for a zero exponent, otherwise start from base and multiply by
   * base while the long double counter, starting at 1, stays below the exponent.
   */
  method PowerOf(base: real, exponent: real) returns (result: real)
    ensures result == PowerValue(base, exponent)
  {
    if exponent == 0.0 {
      return 1.0;
    }
    result := base;
    var i := 1.0;
    ghost var k: nat := 1;
    while i < exponent
      invariant i == k as real && k >= 1
      invariant result == IntPow(base, k)
      invariant k == 1 || i - 1.0 < exponent
      decreases (exponent - i).Floor
    {
      result := result * base;
      i := i + 1.0;
      k := k + 1;
    }
    CeilingBounds(exponent);
  }

  /** For a natural exponent n, `power` is base^n. */
  lemma PowerOfNatural(base: real, n: nat)
    ensures PowerValue(base, n as real) == IntPow(base, n)
  {
    if n == 0 {
    } else if n == 1 {
      assert Factors(n as real) == 1;
    } else {
      CeilingBounds(n as real);
      assert Ceiling(n as real) == n;
      assert Factors(n as real) == n;
    }
  }

  /** A fractional exponent above 1 is rounded up: the loop runs once more than its integer part. */
  lemma PowerRoundsUp(base: real, e: real)
    requires e > 1.0
    ensures PowerValue(base, e) == IntPow(base, Ceiling(e))
    ensures (Ceiling(e) - 1) as real < e <= Ceiling(e) as real
  {
    CeilingBounds(e);
  }

  /** Any nonzero exponent up to 1, negatives and fractions included, returns base unchanged. */
  lemma PowerBelowOne(base: real, e: real)
    requires e != 0.0 && e <= 1.0
    ensures PowerValue(base, e) == base
  {
    assert IntPow(base, 1) == base * IntPow(base, 0);
  }

  /** operationTypeToString; the "Unknown" default is unreachable with a closed enumeration. */
  function OperationTypeToString(t: OperationType): (s: string)
    ensures |s| == 1 <==> t in {Add, Subtract, Multiply, Divide, Power}
  {
    match t
    case Number => "Num"
    case Symbol => "Sym"
    case Add => "+"
    case Subtract => "-"
    case Multiply => "*"
    case Divide => "/"
    case Power => "^"
    case Sine => "sin"
    case Cosine => "cos"
    case Log => "log"
    case Exp => "exp"
  }

  /** evaluate: a symbol is looked up in vars, both operands are evaluated (left first) before they are combined. */
  function EvaluateNode(lib: Numerics, n: MathNode, vars: map<string, real>): (r: Result<real, EvalError>)
    ensures r.Err? && r.error.SymbolNotFound? ==> r.error.name in Symbols(n) && r.error.name !in vars
  {
    match n
    case NumberNode(v) => Ok(v)
    case SymbolNode(s) => if s in vars then Ok(vars[s]) else Err(SymbolNotFound(s))
    case BinaryOpNode(op, l, r) =>
      var lv :- EvaluateNode(lib, l, vars);
      var rv :- EvaluateNode(lib, r, vars);
      (match op
       case Add => Ok(lv + rv)
       case Subtract => Ok(lv - rv)
       case Multiply => Ok(lv * rv)
       case Divide => Ok(lib.quotient(lv, rv))
       case Power => Ok(PowerValue(lv, rv))
       case _ => Err(UnknownBinaryOperation))
    case FunctionNode(f, a) =>
      var av :- EvaluateNode(lib, a, vars);
      (match f
       case Sine => Ok(lib.sin(av))
       case Cosine => Ok(lib.cos(av))
       case Exp => Ok(lib.exp(av))
       case Log => Ok(lib.log(av))
       case _ => Err(UnknownFunction))
  }

  /** toString: infix with no parentheses around operands; a function renders as name(arg). */
  function NodeToString(lib: Numerics, n: MathNode): (s: string)
    ensures n.BinaryOpNode? ==> NodeToString(lib, n.left) <= s
    ensures n.FunctionNode? ==> OperationTypeToString(n.func) + "(" <= s && s[|s| - 1] == ')'
  {
    match n
    case NumberNode(v) => lib.show(v)
    case SymbolNode(s) => s
    case BinaryOpNode(op, l, r) => NodeToString(lib, l) + OperationTypeToString(op) + NodeToString(lib, r)
    case FunctionNode(f, a) => OperationTypeToString(f) + "(" + NodeToString(lib, a) + ")"
  }

  /** clone: a fresh copy of every node, structurally equal to the original. */
  function CloneNode(n: MathNode): (c: MathNode)
    ensures c == n
  {
    match n
    case NumberNode(v) => NumberNode(v)
    case SymbolNode(s) => SymbolNode(s)
    case BinaryOpNode(op, l, r) => BinaryOpNode(op, CloneNode(l), CloneNode(r))
    case FunctionNode(f, a) => FunctionNode(f, CloneNode(a))
  }

  /** The trees MathExpression's operators and functions build: binary nodes hold an arithmetic operation, function nodes a function. */
  predicate Built(n: MathNode) {
    match n
    case NumberNode(_) => true
    case SymbolNode(_) => true
    case BinaryOpNode(op, l, r) => op in {Add, Subtract, Multiply, Divide, Power} && Built(l) && Built(r)
    case FunctionNode(f, a) => f in {Sine, Cosine, Exp, Log} && Built(a)
  }

  /** The symbols a tree mentions. */
  function Symbols(n: MathNode): set<string> {
    match n
    case NumberNode(_) => {}
    case SymbolNode(s) => {s}
    case BinaryOpNode(_, l, r) => Symbols(l) + Symbols(r)
    case FunctionNode(_, a) => Symbols(a)
  }

  /**
   * On a built tree the only evaluation error is an unbound symbol: evaluate
   * succeeds exactly when every symbol is bound, and otherwise names one
   * that is not.  In particular a zero divisor is not an error.
   */
  lemma {:induction false} EvaluateFailsOnlyOnUnboundSymbol(lib: Numerics, n: MathNode, vars: map<string, real>)
    requires Built(n)
    ensures EvaluateNode(lib, n, vars).Ok? <==> Symbols(n) <= vars.Keys
    ensures EvaluateNode(lib, n, vars).Err? ==>
      EvaluateNode(lib, n, vars).error.SymbolNotFound?
      && EvaluateNode(lib, n, vars).error.name in Symbols(n)
      && EvaluateNode(lib, n, vars).error.name !in vars
  {
    match n
    case NumberNode(_) =>
    case SymbolNode(_) =>
    case BinaryOpNode(op, l, r) =>
      EvaluateFailsOnlyOnUnboundSymbol(lib, l, vars);
      EvaluateFailsOnlyOnUnboundSymbol(lib, r, vars);
    case FunctionNode(f, a) =>
      EvaluateFailsOnlyOnUnboundSymbol(lib, a, vars);
  }

  /** When both operands fail, the error reported is the left operand's: it is evaluated first. */
  lemma EvaluateReportsLeftFirst(lib: Numerics, op: OperationType, l: MathNode, r: MathNode, vars: map<string, real>)
    requires EvaluateNode(lib, l, vars).Err?
    ensures EvaluateNode(lib, BinaryOpNode(op, l, r), vars) == Err(EvaluateNode(lib, l, vars).error)
  {
  }

  /** No two operation types print alike. */
  lemma OperationNamesDistinct(t1: OperationType, t2: OperationType)
    requires OperationTypeToString(t1) == OperationTypeToString(t2)
    ensures t1 == t2
  {
  }

  /** Without parentheses the printed form forgets the grouping: `(a o1 b) o2 c` and `a o1 (b o2 c)` print alike. */
  lemma ToStringForgetsGrouping(lib: Numerics, o1: OperationType, o2: OperationType, a: MathNode, b: MathNode, c: MathNode)
    ensures NodeToString(lib, BinaryOpNode(o2, BinaryOpNode(o1, a, b), c))
         == NodeToString(lib, BinaryOpNode(o1, a, BinaryOpNode(o2, b, c)))
  {
    var A, B, C := NodeToString(lib, a), NodeToString(lib, b), NodeToString(lib, c);
    var s1, s2 := OperationTypeToString(o1), OperationTypeToString(o2);
    assert A + s1 + B + s2 + C == A + s1 + (B + s2 + C);
  }

  /** So `(1+2)*3` and `1+(2*3)` print alike although they evaluate to 9 and 7. */
  lemma ToStringIsAmbiguous(lib: Numerics)
    ensures NodeToString(lib, BinaryOpNode(Multiply, BinaryOpNode(Add, NumberNode(1.0), NumberNode(2.0)), NumberNode(3.0)))
         == NodeToString(lib, BinaryOpNode(Add, NumberNode(1.0), BinaryOpNode(Multiply, NumberNode(2.0), NumberNode(3.0))))
    ensures EvaluateNode(lib, BinaryOpNode(Multiply, BinaryOpNode(Add, NumberNode(1.0), NumberNode(2.0)), NumberNode(3.0)), map[]) == Ok(9.0)
    ensures EvaluateNode(lib, BinaryOpNode(Add, NumberNode(1.0), BinaryOpNode(Multiply, NumberNode(2.0), NumberNode(3.0))), map[]) == Ok(7.0)
  {
    assert EvaluateNode(lib, BinaryOpNode(Add, NumberNode(1.0), NumberNode(2.0)), map[]) == Ok(3.0);
    assert EvaluateNode(lib, BinaryOpNode(Multiply, NumberNode(2.0), NumberNode(3.0)), map[]) == Ok(6.0);
    ToStringForgetsGrouping(lib, Add, Multiply, NumberNode(1.0), NumberNode(2.0), NumberNode(3.0));
  }

  /**
   * The MathExpression handle.  `root` is the shared_ptr: None is the null
   * pointer a moved-from expression holds; every other member dereferences
   * it, so it demands a non-null root.
   */
  class MathExpression {
    var root: Option<MathNode>

    /** MathExpression(ValueType): a single number leaf. */
    constructor FromValue(val: real)
      ensures root == Some(NumberNode(val))
    {
      root := Some(NumberNode(val));
    }

    /** MathExpression(const std::string&): a single symbol leaf. */
    constructor FromSymbol(sym: string)
      ensures root == Some(SymbolNode(sym))
    {
      root := Some(SymbolNode(sym));
    }

    /** MathExpression(shared_ptr<MathNode>): adopts the given tree as it is. */
    constructor FromNode(node: MathNode)
      ensures root == Some(node)
    {
      root := Some(node);
    }

    /** The copy constructor: a clone of the other's tree; the other is untouched. */
    constructor Copy(other: MathExpression)
      requires other.root.Some?
      ensures root == other.root
    {
      root := Some(CloneNode(other.root.value));
    }

    /** The move constructor: takes the other's tree and leaves it null. */
    constructor Move(other: MathExpression)
      modifies other
      ensures root == old(other.root)
      ensures other.root == None
    {
      root := other.root;
      other.root := None;
    }

    /** Copy assignment: root becomes a clone of the other's tree. */
    method AssignCopy(other: MathExpression)
      requires other.root.Some?
      modifies this
      ensures root == old(other.root)
    {
      root := Some(CloneNode(other.root.value));
    }

    /**
     * Move assignment: root takes the other's tree and the other is left
     * null; moving an expression into itself keeps its tree (shared_ptr's
     * move assignment goes through a temporary).
     */
    method AssignMove(other: MathExpression)
      modifies this, other
      ensures root == old(other.root)
      ensures other != this ==> other.root == None
    {
      var taken := other.root;
      other.root := None;
      root := taken;
    }

    /** evaluate of the root. */
    function Evaluate(lib: Numerics, vars: map<string, real>): Result<real, EvalError>
      reads this
      requires root.Some?
    {
      EvaluateNode(lib, root.value, vars)
    }

    /** toString of the root. */
    function ToString(lib: Numerics): string
      reads this
      requires root.Some?
    {
      NodeToString(lib, root.value)
    }

    /** cloneRoot. */
    function CloneRoot(): (c: MathNode)
      reads this
      requires root.Some?
      ensures c == root.value
    {
      CloneNode(root.value)
    }

    /** What the operators share: a fresh expression over a binary node holding clones of both roots. */
    method Combine(op: OperationType, other: MathExpression) returns (e: MathExpression)
      requires root.Some? && other.root.Some?
      ensures fresh(e)
      ensures e.root == Some(BinaryOpNode(op, root.value, other.root.value))
    {
      e := new MathExpression.FromNode(BinaryOpNode(op, CloneRoot(), other.CloneRoot()));
    }

    /** operator+ */
    method Plus(other: MathExpression) returns (e: MathExpression)
      requires root.Some? && other.root.Some?
      ensures fresh(e)
      ensures e.root == Some(BinaryOpNode(Add, root.value, other.root.value))
    {
      e := Combine(Add, other);
    }

    /** operator- */
    method Minus(other: MathExpression) returns (e: MathExpression)
      requires root.Some? && other.root.Some?
      ensures fresh(e)
      ensures e.root == Some(BinaryOpNode(Subtract, root.value, other.root.value))
    {
      e := Combine(Subtract, other);
    }

    /** operator* */
    method Times(other: MathExpression) returns (e: MathExpression)
      requires root.Some? && other.root.Some?
      ensures fresh(e)
      ensures e.root == Some(BinaryOpNode(Multiply, root.value, other.root.value))
    {
      e := Combine(Multiply, other);
    }

    /** operator/ */
    method Over(other: MathExpression) returns (e: MathExpression)
      requires root.Some? && other.root.Some?
      ensures fresh(e)
      ensures e.root == Some(BinaryOpNode(Divide, root.value, other.root.value))
    {
      e := Combine(Divide, other);
    }

    /** pow(): a Power node over clones of this and the exponent's roots. */
    method Pow(exponent: MathExpression) returns (e: MathExpression)
      requires root.Some? && exponent.root.Some?
      ensures fresh(e)
      ensures e.root == Some(BinaryOpNode(Power, root.value, exponent.root.value))
    {
      e := new MathExpression.FromNode(BinaryOpNode(Power, CloneRoot(), exponent.CloneRoot()));
    }

    /** operator^: the same Power node as pow(). */
    method Raise(exponent: MathExpression) returns (e: MathExpression)
      requires root.Some? && exponent.root.Some?
      ensures fresh(e)
      ensures e.root == Some(BinaryOpNode(Power, root.value, exponent.root.value))
    {
      e := Combine(Power, exponent);
    }
  }

  /** sin, cos, exp and log on MathExpression: a fresh expression over a function node holding a clone of the argument's root. */
  method Apply(func: OperationType, expr: MathExpression) returns (e: MathExpression)
    requires expr.root.Some?
    ensures fresh(e)
    ensures e.root == Some(FunctionNode(func, expr.root.value))
  {
    e := new MathExpression.FromNode(FunctionNode(func, expr.CloneRoot()));
  }

  /** sin(const MathExpression&) */
  method Sin(expr: MathExpression) returns (e: MathExpression)
    requires expr.root.Some?
    ensures fresh(e)
    ensures e.root == Some(FunctionNode(Sine, expr.root.value))
  {
    e := Apply(Sine, expr);
  }

  /** cos(const MathExpression&) */
  method Cos(expr: MathExpression) returns (e: MathExpression)
    requires expr.root.Some?
    ensures fresh(e)
    ensures e.root == Some(FunctionNode(Cosine, expr.root.value))
  {
    e := Apply(Cosine, expr);
  }

  /** exp(const MathExpression&) */
  method ExpOf(expr: MathExpression) returns (e: MathExpression)
    requires expr.root.Some?
    ensures fresh(e)
    ensures e.root == Some(FunctionNode(Exp, expr.root.value))
  {
    e := Apply(Exp, expr);
  }

  /** log(const MathExpression&): the natural logarithm, printed as "log". */
  method LogOf(expr: MathExpression) returns (e: MathExpression)
    requires expr.root.Some?
    ensures fresh(e)
    ensures e.root == Some(FunctionNode(Log, expr.root.value))
  {
    e := Apply(Log, expr);
  }
}
