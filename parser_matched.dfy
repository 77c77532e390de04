/**
 * parseExpression with its ')' corrected.  The source applies the latest
 * pending function at EVERY ')', so in `sin(((x+y)*z))` the ')' that closes
 * `(x+y)` already applies sin.  Here each pending function remembers the
 * operator-stack depth of the '(' that follows its name, and a ')' applies it
 * only when the '(' it pops is that one.  Everything else is the source's
 * scan (`Parser.Step`) unchanged; with this change every printed tree of
 * read-back leaves parses back as itself.
 */
module ParserMatched {
  import opened Outcomes
  import opened Scalar
  import opened Text
  import opened Tree
  import opened Parser
  import opened ParserLaws

  /** A function waiting for its argument, and the operator-stack depth its own '(' will sit at. */
  datatype Pending = Pending(func: Func, depth: nat)

  /** The three stacks of the scan, the function stack holding depths. */
  datatype State<T> = State(values: seq<Node<T>>, operators: seq<char>, pending: seq<Pending>)

  /** The state after one token, and how many characters the token spans. */
  datatype Advance<T> = Advance(state: State<T>, width: nat)

  /**
   * The corrected ')': apply operators down to '(', pop it, and apply the
   * latest pending function only if that '(' was the one after its name.
   */
  function CloseMatched<T>(m: State<T>): (r: Result<State<T>, Error>)
    ensures r.Ok? ==> |r.value.operators| < |m.operators|
    ensures r.Ok? && r.value.pending != m.pending ==>
      m.pending != [] && Top(m.pending).depth == |r.value.operators| && r.value.pending == Pop(m.pending)
      && r.value.values != [] && Top(r.value.values).Function? && Top(r.value.values).func == Top(m.pending).func
  {
    var inner :- ApplyToParen(Stacks(m.values, m.operators, []));
    if inner.operators == [] then Err(StackUnderflow)
    else
      var rest := Pop(inner.operators);
      if m.pending != [] && Top(m.pending).depth == |rest| then
        if inner.values == [] then Err(StackUnderflow)
        else Ok(State(Pop(inner.values) + [Function(Top(m.pending).func, Top(inner.values))], rest, Pop(m.pending)))
      else Ok(State(inner.values, rest, m.pending))
  }

  /**
   * One pass of the corrected scan: ')' is CloseMatched; any other token is
   * the source's Step, a function name being recorded with the current
   * operator-stack depth.
   */
  function MatchedStep<T>(d: Domain<T>, input: string, i: nat, m: State<T>): (r: Result<Advance<T>, Error>)
    requires i < |input|
    ensures r.Ok? ==> 1 <= r.value.width <= |input| - i
  {
    if input[i] == ')' then
      var next :- CloseMatched(m);
      Ok(Advance(next, 1))
    else
      var scanned :- Step(d, input, i, Stacks(m.values, m.operators, []));
      var named := scanned.stacks.functions;
      var pending := if named == [] then m.pending else m.pending + [Pending(Top(named), |m.operators|)];
      Ok(Advance(State(scanned.stacks.values, scanned.stacks.operators, pending), scanned.width))
  }

  /** The corrected scanning loop from index i to the end of the input. */
  function MatchedRun<T>(d: Domain<T>, input: string, i: nat, m: State<T>): (r: Result<State<T>, Error>)
    requires i <= |input|
    ensures i == |input| ==> r == Ok(m)
    decreases |input| - i
  {
    if i == |input| then Ok(m)
    else
      match MatchedStep(d, input, i, m)
      case Err(e) => Err(e)
      case Ok(next) => MatchedRun(d, input, i + next.width, next.state)
  }

  /** parseExpression with the corrected ')'; the end of input is handled as in the source. */
  function MatchedParse<T>(d: Domain<T>, input: string): (r: Result<Node<T>, Error>)
    ensures input == [] ==> r == Err(InvalidExpression)
  {
    var end :- MatchedRun(d, input, 0, State([], [], []));
    Finish(Stacks(end.values, end.operators, []))
  }

  /** Trees of read-back leaves under any nesting of operations and functions. */
  predicate Legible<T(==)>(d: Domain<T>, t: Node<T>) {
    match t
    case Constant(v) => ReadsBack(d, v)
    case Variable(name) => IsVariableName(name)
    case Binary(_, l, r) => Legible(d, l) && Legible(d, r)
    case Function(_, a) => Legible(d, a)
  }

  /** The latest pending function's '(' lies below the top of the operator stack. */
  predicate Beneath(pending: seq<Pending>, ops: seq<char>) {
    pending == [] || Top(pending).depth < |ops|
  }

  /** A step that succeeds moves the scan on by its width. */
  lemma MatchedPassTo<T>(d: Domain<T>, s: string, i: nat, m: State<T>, next: State<T>, width: nat, e: nat)
    requires i < |s| && MatchedStep(d, s, i, m) == Ok(Advance(next, width)) && e == i + width
    ensures MatchedRun(d, s, i, m) == MatchedRun(d, s, e, next)
  {
  }

  /** A read-back leaf followed by a delimiter is pushed, whatever functions are pending. */
  lemma MatchedLeafStep<T>(d: Domain<T>, t: Node<T>, s: string, i: nat, j: nat,
                           vs: seq<Node<T>>, ops: seq<char>, pend: seq<Pending>)
    requires (t.Constant? && ReadsBack(d, t.value)) || (t.Variable? && IsVariableName(t.name))
    requires j == i + |ToString(d, t)| && Occurs(s, i, ToString(d, t)) && DelimitedAt(s, j)
    ensures MatchedRun(d, s, i, State(vs, ops, pend)) == MatchedRun(d, s, j, State(vs + [t], ops, pend))
  {
    var st := Stacks(vs, ops, []);
    if t.Constant? {
      NumeralToken(d, s, i, j, t, st);
      assert s[i + 0] == d.format(t.value)[0];
    } else {
      WordToken(d, s, i, j, t, st);
      assert s[i + 0] == t.name[0];
    }
    assert st.(values := st.values + [t]) == Stacks(vs + [t], ops, []);
    assert MatchedStep(d, s, i, State(vs, ops, pend)) == Ok(Advance(State(vs + [t], ops, pend), j - i));
    MatchedPassTo(d, s, i, State(vs, ops, pend), State(vs + [t], ops, pend), j - i, j);
  }

  /** A function name ended by '(' is recorded with the current operator-stack depth. */
  lemma MatchedNameStep<T>(d: Domain<T>, f: Func, s: string, i: nat, k0: nat,
                           vs: seq<Node<T>>, ops: seq<char>, pend: seq<Pending>, named: seq<Pending>)
    requires Occurs(s, i, FuncName(f)) && k0 == i + |FuncName(f)| && k0 < |s| && s[k0] == '('
    requires named == pend + [Pending(f, |ops|)]
    ensures MatchedRun(d, s, i, State(vs, ops, pend)) == MatchedRun(d, s, k0, State(vs, ops, named))
  {
    var st := Stacks(vs, ops, []);
    FunctionNameToken(d, f, s, i, st);
    assert s[i + 0] == FuncName(f)[0];
    assert st.(functions := st.functions + [f]) == Stacks(vs, ops, [f]);
    assert MatchedStep(d, s, i, State(vs, ops, pend)) == Ok(Advance(State(vs, ops, named), |FuncName(f)|));
    MatchedPassTo(d, s, i, State(vs, ops, pend), State(vs, ops, named), |FuncName(f)|, k0);
  }

  /** A '(' is pushed on the operator stack. */
  lemma MatchedOpen<T>(d: Domain<T>, s: string, i: nat, e: nat, vs: seq<Node<T>>, ops: seq<char>, pend: seq<Pending>)
    requires i < |s| && s[i] == '(' && e == i + 1
    ensures MatchedRun(d, s, i, State(vs, ops, pend)) == MatchedRun(d, s, e, State(vs, ops + ['('], pend))
  {
    assert !IsSpace(s[i]) && !IsNumeralChar(s[i]) && !IsAlpha(s[i]);
    assert Step(d, s, i, Stacks(vs, ops, [])) == Ok(Scanned(Stacks(vs, ops + ['('], []), 1));
    MatchedPassTo(d, s, i, State(vs, ops, pend), State(vs, ops + ['('], pend), 1, e);
  }

  /** An operator just after a '(' is pushed and applies nothing. */
  lemma MatchedOperator<T>(d: Domain<T>, s: string, i: nat, e: nat, c: char,
                           vs: seq<Node<T>>, ops: seq<char>, pend: seq<Pending>)
    requires i < |s| && s[i] == c && IsOperator(c) && e == i + 1
    ensures MatchedRun(d, s, i, State(vs, ops + ['('], pend)) == MatchedRun(d, s, e, State(vs, ops + ['('] + [c], pend))
  {
    assert !IsSpace(c) && !IsNumeralChar(c) && !IsAlpha(c) && c != '(' && c != ')';
    PushOverOpenParen(Stacks(vs, ops + ['('], []), c);
    assert Step(d, s, i, Stacks(vs, ops + ['('], [])) == Ok(Scanned(Stacks(vs, ops + ['('] + [c], []), 1));
    MatchedPassTo(d, s, i, State(vs, ops + ['('], pend), State(vs, ops + ['('] + [c], pend), 1, e);
  }

  /** A ')' whose corrected close succeeds moves on with the closed state. */
  lemma MatchedCloseStep<T>(d: Domain<T>, s: string, i: nat, e: nat, m: State<T>, next: State<T>)
    requires i < |s| && s[i] == ')' && CloseMatched(m) == Ok(next) && e == i + 1
    ensures MatchedRun(d, s, i, m) == MatchedRun(d, s, e, next)
  {
    MatchedPassTo(d, s, i, m, next, 1, e);
  }

  /** ')' after `( l op r` builds the operation and leaves an outer pending function pending. */
  lemma MatchedCloseBinary<T>(vs: seq<Node<T>>, ops: seq<char>, pend: seq<Pending>, op: BinOp, l: Node<T>, r: Node<T>)
    requires Beneath(pend, ops)
    ensures CloseMatched(State(vs + [l] + [r], ops + ['('] + [OpSymbol(op)], pend))
         == Ok(State(vs + [Binary(op, l, r)], ops, pend))
  {
    var st := Stacks(vs + [l] + [r], ops + ['('] + [OpSymbol(op)], []);
    assert OperatorOf(OpSymbol(op)) == Some(op);
    assert (vs + [l] + [r])[..|vs| + 2 - 2] == vs;
    assert Pop(ops + ['('] + [OpSymbol(op)]) == ops + ['('];
    var inner := Stacks(vs + [Binary(op, l, r)], ops + ['('], []);
    assert ApplyOperation(st) == Ok(inner);
    assert ApplyToParen(inner) == Ok(inner);
    assert Pop(inner.operators) == ops;
  }

  /** ')' after `f( a`, at the depth recorded for f, applies f to a. */
  lemma MatchedCloseFunction<T>(vs: seq<Node<T>>, ops: seq<char>, pend: seq<Pending>, f: Func, a: Node<T>,
                                named: seq<Pending>)
    requires named == pend + [Pending(f, |ops|)]
    ensures CloseMatched(State(vs + [a], ops + ['('], named)) == Ok(State(vs + [Function(f, a)], ops, pend))
  {
    var st := Stacks(vs + [a], ops + ['('], []);
    assert ApplyToParen(st) == Ok(st);
    assert Pop(st.operators) == ops;
    assert Pop(vs + [a]) == vs && Top(vs + [a]) == a && Pop(named) == pend && Top(named) == Pending(f, |ops|);
  }

  /** Where the parts of `(l op r)` stand: '(' at i, the operator at k1, ')' at k3, just before j. */
  lemma BinaryText<T>(d: Domain<T>, op: BinOp, l: Node<T>, r: Node<T>, s: string,
                      i: nat, k0: nat, k1: nat, k2: nat, k3: nat, j: nat)
    requires Occurs(s, i, ToString(d, Binary(op, l, r))) && j == i + |ToString(d, Binary(op, l, r))|
    requires k0 == i + 1 && k1 == k0 + |ToString(d, l)| && k2 == k1 + 1 && k3 == k2 + |ToString(d, r)|
    ensures i < |s| && s[i] == '(' && Occurs(s, k0, ToString(d, l)) && DelimitedAt(s, k1)
    ensures k1 < |s| && s[k1] == OpSymbol(op) && IsOperator(OpSymbol(op))
    ensures Occurs(s, k2, ToString(d, r)) && DelimitedAt(s, k3)
    ensures k3 < |s| && s[k3] == ')' && j == k3 + 1
  {
    ParenthesizedAt(s, i, ToString(d, l), OpSymbol(op), ToString(d, r), k0, k1, k2, k3);
  }

  /**
   * The printed form of a Legible tree, from index i to index j and followed
   * by a delimiter, pushes exactly that tree and leaves the operators and the
   * pending functions as they were.
   */
  lemma {:induction false} MatchedTermStep<T>(d: Domain<T>, t: Node<T>, s: string, i: nat, j: nat,
                                              vs: seq<Node<T>>, ops: seq<char>, pend: seq<Pending>)
    requires j == i + |ToString(d, t)|
    requires Legible(d, t) && Occurs(s, i, ToString(d, t)) && DelimitedAt(s, j)
    requires Beneath(pend, ops)
    ensures MatchedRun(d, s, i, State(vs, ops, pend)) == MatchedRun(d, s, j, State(vs + [t], ops, pend))
    decreases t, 1
  {
    match t
    case Constant(_) =>
      MatchedLeafStep(d, t, s, i, j, vs, ops, pend);
    case Variable(_) =>
      MatchedLeafStep(d, t, s, i, j, vs, ops, pend);
    case Binary(op, l, r) =>
      MatchedBinaryStep(d, op, l, r, s, i, j, vs, ops, pend);
    case Function(f, a) =>
      MatchedFunctionStep(d, f, a, s, i, j, vs, ops, pend);
  }

  /** MatchedTermStep for `(l op r)`: its ')' builds the operation and applies no function. */
  lemma {:induction false} MatchedBinaryStep<T>(d: Domain<T>, op: BinOp, l: Node<T>, r: Node<T>, s: string,
                                                i: nat, j: nat, vs: seq<Node<T>>, ops: seq<char>, pend: seq<Pending>)
    requires j == i + |ToString(d, Binary(op, l, r))|
    requires Legible(d, l) && Legible(d, r)
    requires Occurs(s, i, ToString(d, Binary(op, l, r))) && DelimitedAt(s, j)
    requires Beneath(pend, ops)
    ensures MatchedRun(d, s, i, State(vs, ops, pend)) == MatchedRun(d, s, j, State(vs + [Binary(op, l, r)], ops, pend))
    decreases Binary(op, l, r), 0
  {
    var c := OpSymbol(op);
    var k0 := i + 1;
    var k1 := k0 + |ToString(d, l)|;
    var k2 := k1 + 1;
    var k3 := k2 + |ToString(d, r)|;
    BinaryText(d, op, l, r, s, i, k0, k1, k2, k3, j);
    MatchedOpen(d, s, i, k0, vs, ops, pend);
    MatchedTermStep(d, l, s, k0, k1, vs, ops + ['('], pend);
    MatchedOperator(d, s, k1, k2, c, vs + [l], ops, pend);
    MatchedTermStep(d, r, s, k2, k3, vs + [l], ops + ['('] + [c], pend);
    MatchedCloseBinary(vs, ops, pend, op, l, r);
    MatchedCloseStep(d, s, k3, j, State(vs + [l] + [r], ops + ['('] + [c], pend), State(vs + [Binary(op, l, r)], ops, pend));
  }

  /** MatchedTermStep for `f(a)`: only the ')' of f applies f, whatever a holds. */
  lemma {:induction false} MatchedFunctionStep<T>(d: Domain<T>, f: Func, a: Node<T>, s: string,
                                                  i: nat, j: nat, vs: seq<Node<T>>, ops: seq<char>, pend: seq<Pending>)
    requires j == i + |ToString(d, Function(f, a))|
    requires Legible(d, a) && Occurs(s, i, ToString(d, Function(f, a))) && DelimitedAt(s, j)
    requires Beneath(pend, ops)
    ensures MatchedRun(d, s, i, State(vs, ops, pend)) == MatchedRun(d, s, j, State(vs + [Function(f, a)], ops, pend))
    decreases Function(f, a), 0
  {
    var k0 := i + |FuncName(f)|;
    var k1 := k0 + 1;
    var k2 := k1 + |ToString(d, a)|;
    var named := pend + [Pending(f, |ops|)];
    FunctionText(d, f, a, s, i, k0, k2, j);
    MatchedNameStep(d, f, s, i, k0, vs, ops, pend, named);
    MatchedOpen(d, s, k0, k1, vs, ops, named);
    MatchedTermStep(d, a, s, k1, k2, vs, ops + ['('], named);
    MatchedCloseFunction(vs, ops, pend, f, a, named);
    MatchedCloseStep(d, s, k2, j, State(vs + [a], ops + ['('], named), State(vs + [Function(f, a)], ops, pend));
  }

  /** Round trip: with the corrected ')', Node::toString's output of any Legible tree parses back as that tree. */
  lemma MatchedRoundTrip<T>(d: Domain<T>, t: Node<T>)
    requires Legible(d, t)
    ensures MatchedParse(d, ToString(d, t)) == Ok(t)
  {
    var s := ToString(d, t);
    assert s[0..|s|] == s;
    MatchedTermStep(d, t, s, 0, |s|, [], [], []);
  }

  /** The tree parseExpression misreads, `f((a o1 b) o2 c)`, is read back by the corrected parser. */
  lemma MatchedNestedArgument<T>(d: Domain<T>, f: Func, o1: BinOp, o2: BinOp, a: Node<T>, b: Node<T>, c: Node<T>)
    requires Legible(d, a) && Legible(d, b) && Legible(d, c)
    ensures MatchedParse(d, ToString(d, Function(f, Binary(o2, Binary(o1, a, b), c))))
         == Ok(Function(f, Binary(o2, Binary(o1, a, b), c)))
  {
    MatchedRoundTrip(d, Function(f, Binary(o2, Binary(o1, a, b), c)));
  }

  /** Every Printable tree, the trees the source's proved round trip covers, is Legible. */
  lemma {:induction false} PrintableIsLegible<T>(d: Domain<T>, t: Node<T>)
    requires Printable(d, t)
    ensures Legible(d, t)
    decreases t, 1
  {
    match t
    case Constant(_) =>
    case Variable(_) =>
    case Binary(_, l, r) =>
      PrintableIsLegible(d, l);
      PrintableIsLegible(d, r);
    case Function(_, a) =>
      if Closed(d, a) {
        ClosedIsLegible(d, a);
      } else {
        ClosedIsLegible(d, a.left);
        ClosedIsLegible(d, a.right);
      }
  }

  lemma {:induction false} ClosedIsLegible<T>(d: Domain<T>, t: Node<T>)
    requires Closed(d, t)
    ensures Legible(d, t)
    decreases t, 0
  {
    if t.Function? {
      ClosedIsLegible(d, t.arg);
    }
  }

  /** On the printed text of a Printable tree, the corrected parser returns the same tree as the source parser. */
  lemma MatchedAgreesOnPrintable<T>(d: Domain<T>, t: Node<T>)
    requires Printable(d, t)
    ensures MatchedParse(d, ToString(d, t)) == ParseSpec(d, ToString(d, t)) == Ok(t)
  {
    PrintableIsLegible(d, t);
    MatchedRoundTrip(d, t);
    ParseToStringRoundTrip(d, t);
  }
}
