/**
 * What parseExpression guarantees: where its errors come from, the grouping
 * its precedence table and left associativity give, and that it reads back
 * the fully parenthesised text Node::toString prints.
 */
module ParserLaws {
  import opened Outcomes
  import opened Scalar
  import opened Text
  import opened Tree
  import opened Parser

  /** A name the scanner reads back as a Variable: letters only, and not a function name. */
  predicate IsVariableName(w: string) {
    w != [] && (forall j :: 0 <= j < |w| ==> IsAlpha(w[j])) && FunctionNamed(w).None?
  }

  /** A constant whose printed form is a numeral the scanner reads back as the same constant. */
  predicate ReadsBack<T(==)>(d: Domain<T>, v: T) {
    var text := d.format(v);
    text != []
    && (forall j :: 0 <= j < |text| ==> IsNumeralChar(text[j]))
    && ReadDecimal(text).Some?
    && d.ofReal(ReadDecimal(text).value) == v
  }

  /**
   * Trees whose toString is proved to parse back: read-back constants,
   * variables, binary operations of such trees, and functions whose argument
   * is Closed or is one binary operation of Closed operands.  Every ')'
   * applies the latest pending function, so a deeper binary operation inside
   * an argument can close the function early.
   */
  predicate Printable<T(==)>(d: Domain<T>, t: Node<T>) {
    match t
    case Constant(v) => ReadsBack(d, v)
    case Variable(name) => IsVariableName(name)
    case Binary(_, l, r) => Printable(d, l) && Printable(d, r)
    case Function(_, a) => Closed(d, a) || (a.Binary? && Closed(d, a.left) && Closed(d, a.right))
  }

  /** Trees that parse back whatever functions are pending: leaves and functions of them, no parenthesised operation. */
  predicate Closed<T(==)>(d: Domain<T>, t: Node<T>) {
    match t
    case Constant(v) => ReadsBack(d, v)
    case Variable(name) => IsVariableName(name)
    case Binary(_, _, _) => false
    case Function(_, a) => Closed(d, a)
  }

  /** The text w stands in s from index i on. */
  predicate Occurs(s: string, i: nat, w: string) {
    i + |w| <= |s| && forall j :: 0 <= j < |w| ==> s[i + j] == w[j]
  }

  /** What may follow a printed operand at index k without merging into its token. */
  predicate DelimitedAt(s: string, k: nat) {
    k <= |s| && (k == |s| || s[k] == ')' || IsOperator(s[k]))
  }

  /** A run of n letters ended by a non-letter ends n places on. */
  lemma {:induction false} LetterEndAt(s: string, i: nat, n: nat)
    requires i + n <= |s|
    requires forall j :: i <= j < i + n ==> IsAlpha(s[j])
    requires i + n == |s| || !IsAlpha(s[i + n])
    ensures LetterEnd(s, i) == i + n
    decreases n
  {
    if n > 0 {
      LetterEndAt(s, i + 1, n - 1);
    }
  }

  /** A run of n digits and points ended by anything else ends n places on. */
  lemma {:induction false} NumeralEndAt(s: string, i: nat, n: nat)
    requires i + n <= |s|
    requires forall j :: i <= j < i + n ==> IsNumeralChar(s[j])
    requires i + n == |s| || !IsNumeralChar(s[i + n])
    ensures NumeralEnd(s, i) == i + n
    decreases n
  {
    if n > 0 {
      NumeralEndAt(s, i + 1, n - 1);
    }
  }

  /** One pass of the scanning loop, seen from the whole scan. */
  lemma RunAfterStep<T>(d: Domain<T>, s: string, i: nat, st: Stacks<T>)
    requires i < |s|
    ensures Step(d, s, i, st).Err? ==> Run(d, s, i, st) == Err(Step(d, s, i, st).error)
    ensures Step(d, s, i, st).Ok? ==>
      Run(d, s, i, st) == Run(d, s, i + Step(d, s, i, st).value.width, Step(d, s, i, st).value.stacks)
  {
  }

  /** A pass that succeeds hands the rest of the scan its stacks. */
  lemma PassTo<T>(d: Domain<T>, s: string, i: nat, st: Stacks<T>, next: Stacks<T>, width: nat, e: nat)
    requires i < |s| && Step(d, s, i, st) == Ok(Scanned(next, width)) && e == i + width
    ensures Run(d, s, i, st) == Run(d, s, e, next)
  {
  }

  /** A variable name followed by a delimiter pushes one Variable. */
  lemma WordStep<T>(d: Domain<T>, s: string, i: nat, j: nat, t: Node<T>, st: Stacks<T>)
    requires t.Variable? && IsVariableName(t.name)
    requires j == i + |ToString(d, t)| && Occurs(s, i, ToString(d, t)) && DelimitedAt(s, j)
    ensures Run(d, s, i, st) == Run(d, s, j, st.(values := st.values + [t]))
  {
    WordToken(d, s, i, j, t, st);
    PassTo(d, s, i, st, st.(values := st.values + [t]), j - i, j);
  }

  lemma WordToken<T>(d: Domain<T>, s: string, i: nat, j: nat, t: Node<T>, st: Stacks<T>)
    requires t.Variable? && IsVariableName(t.name)
    requires j == i + |ToString(d, t)| && Occurs(s, i, ToString(d, t)) && DelimitedAt(s, j)
    ensures i < |s| && Step(d, s, i, st) == Ok(Scanned(st.(values := st.values + [t]), j - i))
  {
    var w := t.name;
    assert ToString(d, t) == w;
    forall q | i <= q < i + |w|
      ensures IsAlpha(s[q])
    {
      assert s[i + (q - i)] == w[q - i];
    }
    LetterEndAt(s, i, |w|);
    assert s[i..j] == w;
    assert s[i] == w[0];
    assert PushWord(st, w) == st.(values := st.values + [t]);
  }

  /** A read-back constant followed by a delimiter pushes that constant. */
  lemma NumeralStep<T>(d: Domain<T>, s: string, i: nat, j: nat, t: Node<T>, st: Stacks<T>)
    requires t.Constant? && ReadsBack(d, t.value)
    requires j == i + |ToString(d, t)| && Occurs(s, i, ToString(d, t)) && DelimitedAt(s, j)
    ensures Run(d, s, i, st) == Run(d, s, j, st.(values := st.values + [t]))
  {
    NumeralToken(d, s, i, j, t, st);
    PassTo(d, s, i, st, st.(values := st.values + [t]), j - i, j);
  }

  lemma NumeralToken<T>(d: Domain<T>, s: string, i: nat, j: nat, t: Node<T>, st: Stacks<T>)
    requires t.Constant? && ReadsBack(d, t.value)
    requires j == i + |ToString(d, t)| && Occurs(s, i, ToString(d, t)) && DelimitedAt(s, j)
    ensures i < |s| && Step(d, s, i, st) == Ok(Scanned(st.(values := st.values + [t]), j - i))
  {
    var w := d.format(t.value);
    assert ToString(d, t) == w;
    forall q | i <= q < i + |w|
      ensures IsNumeralChar(s[q])
    {
      assert s[i + (q - i)] == w[q - i];
    }
    NumeralEndAt(s, i, |w|);
    assert s[i..j] == w;
    assert s[i] == w[0];
  }

  /** A '(' is pushed on the operator stack. */
  lemma OpenStep<T>(d: Domain<T>, s: string, i: nat, st: Stacks<T>)
    requires i < |s| && s[i] == '('
    ensures Run(d, s, i, st) == Run(d, s, i + 1, st.(operators := st.operators + ['(']))
  {
    assert !IsSpace(s[i]) && !IsNumeralChar(s[i]) && !IsAlpha(s[i]);
    PassTo(d, s, i, st, st.(operators := st.operators + ['(']), 1, i + 1);
  }

  /** A ')' closes the innermost parenthesis. */
  lemma CloseStep<T>(d: Domain<T>, s: string, i: nat, st: Stacks<T>)
    requires i < |s| && s[i] == ')'
    ensures Run(d, s, i, st) == (match CloseParen(st)
                                 case Err(e) => Err(e)
                                 case Ok(next) => Run(d, s, i + 1, next))
  {
    assert !IsSpace(s[i]) && !IsNumeralChar(s[i]) && !IsAlpha(s[i]) && s[i] != '(';
    match CloseParen(st)
    case Err(e) =>
      assert Step(d, s, i, st) == Err(e);
    case Ok(next) =>
      assert Step(d, s, i, st) == Ok(Scanned(next, 1));
  }

  /** One operator character. */
  lemma OperatorStep<T>(d: Domain<T>, s: string, i: nat, st: Stacks<T>)
    requires i < |s| && IsOperator(s[i])
    ensures Run(d, s, i, st) == (match PushOperator(st, s[i])
                                 case Err(e) => Err(e)
                                 case Ok(next) => Run(d, s, i + 1, next))
  {
    var c := s[i];
    assert !IsSpace(c) && !IsNumeralChar(c) && !IsAlpha(c) && c != '(' && c != ')';
    match PushOperator(st, c)
    case Err(e) =>
      assert Step(d, s, i, st) == Err(e);
    case Ok(next) =>
      assert Step(d, s, i, st) == Ok(Scanned(next, 1));
  }

  /** An operator character whose push succeeds moves on with the pushed stacks. */
  lemma OperatorPush<T>(d: Domain<T>, s: string, i: nat, e: nat, st: Stacks<T>, next: Stacks<T>)
    requires i < |s| && IsOperator(s[i]) && PushOperator(st, s[i]) == Ok(next) && e == i + 1
    ensures Run(d, s, i, st) == Run(d, s, e, next)
  {
    OperatorStep(d, s, i, st);
  }

  /** One blank. */
  lemma SpaceStep<T>(d: Domain<T>, s: string, i: nat, st: Stacks<T>)
    requires i < |s| && IsSpace(s[i])
    ensures Run(d, s, i, st) == Run(d, s, i + 1, st)
  {
    PassTo(d, s, i, st, st, 1, i + 1);
  }

  /** Where the parts of `(l op r)` stand when the whole stands at index i. */
  lemma BinaryTextAt<T>(d: Domain<T>, op: BinOp, l: Node<T>, r: Node<T>, s: string, i: nat)
    requires Occurs(s, i, ToString(d, Binary(op, l, r)))
    ensures |ToString(d, Binary(op, l, r))| == |ToString(d, l)| + |ToString(d, r)| + 3
    ensures s[i] == '('
    ensures Occurs(s, i + 1, ToString(d, l))
    ensures s[i + 1 + |ToString(d, l)|] == OpSymbol(op)
    ensures Occurs(s, i + 2 + |ToString(d, l)|, ToString(d, r))
    ensures s[i + 2 + |ToString(d, l)| + |ToString(d, r)|] == ')'
  {
    ParenthesizedAt(s, i, ToString(d, l), OpSymbol(op), ToString(d, r), i + 1,
                    i + 1 + |ToString(d, l)|, i + 2 + |ToString(d, l)|, i + 2 + |ToString(d, l)| + |ToString(d, r)|);
  }

  /** The parts of `(L c R)` standing at index i. */
  lemma ParenthesizedAt(s: string, i: nat, L: string, c: char, R: string, q1: nat, q2: nat, q3: nat, q4: nat)
    requires Occurs(s, i, "(" + L + [c] + R + ")")
    requires q1 == i + 1 && q2 == i + 1 + |L| && q3 == i + 2 + |L| && q4 == i + 2 + |L| + |R|
    ensures s[i] == '(' && Occurs(s, q1, L) && s[q2] == c && Occurs(s, q3, R) && s[q4] == ')' && q4 < |s|
  {
    var w := "(" + L + [c] + R + ")";
    assert s[i + 0] == w[0];
    forall j | 0 <= j < |L| ensures s[q1 + j] == L[j] {
      assert s[i + (1 + j)] == w[1 + j];
    }
    assert s[i + (1 + |L|)] == w[1 + |L|];
    forall j | 0 <= j < |R| ensures s[q3 + j] == R[j] {
      assert s[i + (2 + |L| + j)] == w[2 + |L| + j];
    }
    assert s[i + (2 + |L| + |R|)] == w[2 + |L| + |R|];
  }

  /** An operator arriving just after a '(' applies nothing: '(' has precedence 0. */
  lemma PushOverOpenParen<T>(st: Stacks<T>, c: char)
    requires IsOperator(c) && st.operators != [] && Top(st.operators) == '('
    ensures PushOperator(st, c) == Ok(st.(operators := st.operators + [c]))
  {
  }

  /** ')' after `( l op r` builds the binary node and discards the '('. */
  lemma CloseBinary<T>(values: seq<Node<T>>, operators: seq<char>, op: BinOp, l: Node<T>, r: Node<T>)
    ensures CloseParen(Stacks(values + [l] + [r], operators + ['('] + [OpSymbol(op)], []))
         == Ok(Stacks(values + [Binary(op, l, r)], operators, []))
  {
    var st := Stacks(values + [l] + [r], operators + ['('] + [OpSymbol(op)], []);
    assert OperatorOf(OpSymbol(op)) == Some(op);
    assert (values + [l] + [r])[..|values| + 2 - 2] == values;
    assert Pop(operators + ['('] + [OpSymbol(op)]) == operators + ['('];
    var inner := Stacks(values + [Binary(op, l, r)], operators + ['('], []);
    assert ApplyOperation(st) == Ok(inner);
    assert ApplyToParen(inner) == Ok(inner);
    assert Pop(inner.operators) == operators;
  }

  /**
   * The printed form of a Printable tree, from index i to index j and
   * followed by a delimiter, pushes exactly that tree and leaves the
   * operator stack as it was.
   */
  lemma {:induction false} TermStep<T>(d: Domain<T>, t: Node<T>, s: string, i: nat, j: nat, vs: seq<Node<T>>, ops: seq<char>)
    requires j == i + |ToString(d, t)|
    requires Printable(d, t) && Occurs(s, i, ToString(d, t)) && DelimitedAt(s, j)
    ensures Run(d, s, i, Stacks(vs, ops, [])) == Run(d, s, j, Stacks(vs + [t], ops, []))
    decreases t, 2
  {
    match t
    case Constant(_) =>
      NumeralStep(d, s, i, j, t, Stacks(vs, ops, []));
    case Variable(_) =>
      WordStep(d, s, i, j, t, Stacks(vs, ops, []));
    case Binary(op, l, r) =>
      BinaryTermStep(d, op, l, r, s, i, j, vs, ops);
    case Function(f, a) =>
      if Closed(d, a) {
        FunctionTermStep(d, f, a, s, i, j, vs, ops, []);
      } else {
        ParenArgTermStep(d, f, a.op, a.left, a.right, s, i, j, vs, ops);
      }
  }

  /** TermStep for `(l op r)`: '(' is pushed, both operands are read, and ')' builds the node. */
  lemma {:induction false} BinaryTermStep<T>(d: Domain<T>, op: BinOp, l: Node<T>, r: Node<T>, s: string, i: nat, j: nat,
                                             vs: seq<Node<T>>, ops: seq<char>)
    requires j == i + |ToString(d, Binary(op, l, r))|
    requires Printable(d, l) && Printable(d, r)
    requires Occurs(s, i, ToString(d, Binary(op, l, r))) && DelimitedAt(s, j)
    ensures Run(d, s, i, Stacks(vs, ops, [])) == Run(d, s, j, Stacks(vs + [Binary(op, l, r)], ops, []))
    decreases Binary(op, l, r), 1
  {
    var c := OpSymbol(op);
    BinaryLength(d, op, l, r);
    var k0 := i + 1;
    var k1 := k0 + |ToString(d, l)|;
    var k2 := k1 + 1;
    var k3 := k2 + |ToString(d, r)|;
    BinaryOpenStep(d, op, l, r, s, i, k0, vs, ops);
    BinaryLeftStep(d, op, l, r, s, i, k0, k1, vs, ops);
    BinaryOperatorStep(d, op, l, r, s, i, k1, k2, vs, ops);
    BinaryRightStep(d, op, l, r, s, i, k2, k3, vs, ops);
    BinaryCloseStep(d, op, l, r, s, i, k3, j, vs, ops);
  }

  lemma BinaryOpenStep<T>(d: Domain<T>, op: BinOp, l: Node<T>, r: Node<T>, s: string, i: nat,
                          k0: nat, vs: seq<Node<T>>, ops: seq<char>)
    requires k0 == i + 1
    requires Occurs(s, i, ToString(d, Binary(op, l, r)))
    ensures Run(d, s, i, Stacks(vs, ops, [])) == Run(d, s, k0, Stacks(vs, ops + ['('], []))
  {
    BinaryTextAt(d, op, l, r, s, i);
    OpenAt(d, s, i, vs, ops);
  }

  lemma BinaryLength<T>(d: Domain<T>, op: BinOp, l: Node<T>, r: Node<T>)
    ensures |ToString(d, Binary(op, l, r))| == |ToString(d, l)| + |ToString(d, r)| + 3
  {
  }

  lemma {:induction false} BinaryLeftStep<T>(d: Domain<T>, op: BinOp, l: Node<T>, r: Node<T>, s: string, i: nat,
                                             k0: nat, k1: nat, vs: seq<Node<T>>, ops: seq<char>)
    requires k0 == i + 1 && k1 == k0 + |ToString(d, l)|
    requires Printable(d, l)
    requires Occurs(s, i, ToString(d, Binary(op, l, r)))
    ensures Run(d, s, k0, Stacks(vs, ops + ['('], [])) == Run(d, s, k1, Stacks(vs + [l], ops + ['('], []))
    decreases Binary(op, l, r), 0
  {
    BinaryTextAt(d, op, l, r, s, i);
    TermStep(d, l, s, k0, k1, vs, ops + ['(']);
  }

  lemma BinaryOperatorStep<T>(d: Domain<T>, op: BinOp, l: Node<T>, r: Node<T>, s: string, i: nat,
                              k1: nat, k2: nat, vs: seq<Node<T>>, ops: seq<char>)
    requires k1 == i + 1 + |ToString(d, l)| && k2 == k1 + 1
    requires Occurs(s, i, ToString(d, Binary(op, l, r)))
    ensures Run(d, s, k1, Stacks(vs + [l], ops + ['('], []))
         == Run(d, s, k2, Stacks(vs + [l], ops + ['('] + [OpSymbol(op)], []))
  {
    BinaryTextAt(d, op, l, r, s, i);
    OperatorAfterOpen(d, s, k1, vs + [l], ops, OpSymbol(op));
  }

  lemma {:induction false} BinaryRightStep<T>(d: Domain<T>, op: BinOp, l: Node<T>, r: Node<T>, s: string, i: nat,
                                              k2: nat, k3: nat, vs: seq<Node<T>>, ops: seq<char>)
    requires k2 == i + 2 + |ToString(d, l)| && k3 == k2 + |ToString(d, r)|
    requires Printable(d, r)
    requires Occurs(s, i, ToString(d, Binary(op, l, r)))
    ensures Run(d, s, k2, Stacks(vs + [l], ops + ['('] + [OpSymbol(op)], []))
         == Run(d, s, k3, Stacks(vs + [l] + [r], ops + ['('] + [OpSymbol(op)], []))
    decreases Binary(op, l, r), 0
  {
    BinaryTextAt(d, op, l, r, s, i);
    TermStep(d, r, s, k2, k3, vs + [l], ops + ['('] + [OpSymbol(op)]);
  }

  lemma BinaryCloseStep<T>(d: Domain<T>, op: BinOp, l: Node<T>, r: Node<T>, s: string, i: nat,
                           k3: nat, j: nat, vs: seq<Node<T>>, ops: seq<char>)
    requires k3 == i + 2 + |ToString(d, l)| + |ToString(d, r)| && j == k3 + 1
    requires Occurs(s, i, ToString(d, Binary(op, l, r)))
    ensures Run(d, s, k3, Stacks(vs + [l] + [r], ops + ['('] + [OpSymbol(op)], []))
         == Run(d, s, j, Stacks(vs + [Binary(op, l, r)], ops, []))
  {
    BinaryTextAt(d, op, l, r, s, i);
    CloseAt(d, s, k3, vs, ops, op, l, r);
  }

  lemma OpenAt<T>(d: Domain<T>, s: string, i: nat, vs: seq<Node<T>>, ops: seq<char>)
    requires i < |s| && s[i] == '('
    ensures Run(d, s, i, Stacks(vs, ops, [])) == Run(d, s, i + 1, Stacks(vs, ops + ['('], []))
  {
    OpenStep(d, s, i, Stacks(vs, ops, []));
  }

  lemma OperatorAfterOpen<T>(d: Domain<T>, s: string, k: nat, vs: seq<Node<T>>, ops: seq<char>, c: char)
    requires k < |s| && s[k] == c && IsOperator(c)
    ensures Run(d, s, k, Stacks(vs, ops + ['('], [])) == Run(d, s, k + 1, Stacks(vs, ops + ['('] + [c], []))
  {
    PushOverOpenParen(Stacks(vs, ops + ['('], []), c);
    OperatorStep(d, s, k, Stacks(vs, ops + ['('], []));
  }

  lemma CloseAt<T>(d: Domain<T>, s: string, k: nat, vs: seq<Node<T>>, ops: seq<char>, op: BinOp, l: Node<T>, r: Node<T>)
    requires k < |s| && s[k] == ')'
    ensures Run(d, s, k, Stacks(vs + [l] + [r], ops + ['('] + [OpSymbol(op)], []))
         == Run(d, s, k + 1, Stacks(vs + [Binary(op, l, r)], ops, []))
  {
    CloseBinary(vs, ops, op, l, r);
    CloseStep(d, s, k, Stacks(vs + [l] + [r], ops + ['('] + [OpSymbol(op)], []));
  }

  /** Where the parts of `f(a)` stand when the whole stands at index i. */
  lemma FunctionTextAt<T>(d: Domain<T>, f: Func, a: Node<T>, s: string, i: nat)
    requires Occurs(s, i, ToString(d, Function(f, a)))
    ensures |ToString(d, Function(f, a))| == |FuncName(f)| + |ToString(d, a)| + 2
    ensures Occurs(s, i, FuncName(f))
    ensures s[i + |FuncName(f)|] == '('
    ensures Occurs(s, i + |FuncName(f)| + 1, ToString(d, a))
    ensures s[i + |FuncName(f)| + 1 + |ToString(d, a)|] == ')'
  {
    AppliedAt(s, i, FuncName(f), ToString(d, a), i + |FuncName(f)|, i + |FuncName(f)| + 1,
              i + |FuncName(f)| + 1 + |ToString(d, a)|);
  }

  /** The parts of `N(A)` standing at index i. */
  lemma AppliedAt(s: string, i: nat, N: string, A: string, q1: nat, q2: nat, q3: nat)
    requires Occurs(s, i, N + "(" + A + ")")
    requires q1 == i + |N| && q2 == i + |N| + 1 && q3 == i + |N| + 1 + |A|
    ensures Occurs(s, i, N) && s[q1] == '(' && Occurs(s, q2, A) && s[q3] == ')'
  {
    var w := N + "(" + A + ")";
    forall j | 0 <= j < |N| ensures s[i + j] == N[j] {
      assert w[j] == N[j];
    }
    assert s[i + |N|] == w[|N|];
    forall j | 0 <= j < |A| ensures s[q2 + j] == A[j] {
      assert s[i + (|N| + 1 + j)] == w[|N| + 1 + j];
    }
    assert s[i + (|N| + 1 + |A|)] == w[|N| + 1 + |A|];
  }

  /** A function name ended by a non-letter goes on the function stack. */
  lemma FunctionNameStep<T>(d: Domain<T>, f: Func, s: string, i: nat, st: Stacks<T>)
    requires Occurs(s, i, FuncName(f)) && i + |FuncName(f)| < |s| && !IsAlpha(s[i + |FuncName(f)|])
    ensures Run(d, s, i, st) == Run(d, s, i + |FuncName(f)|, st.(functions := st.functions + [f]))
  {
    FunctionNameToken(d, f, s, i, st);
    PassTo(d, s, i, st, st.(functions := st.functions + [f]), |FuncName(f)|, i + |FuncName(f)|);
  }

  lemma FunctionNameToken<T>(d: Domain<T>, f: Func, s: string, i: nat, st: Stacks<T>)
    requires Occurs(s, i, FuncName(f)) && i + |FuncName(f)| < |s| && !IsAlpha(s[i + |FuncName(f)|])
    ensures i < |s| && Step(d, s, i, st) == Ok(Scanned(st.(functions := st.functions + [f]), |FuncName(f)|))
  {
    var name := FuncName(f);
    assert forall q :: 0 <= q < |name| ==> IsAlpha(name[q]);
    forall q | i <= q < i + |name|
      ensures IsAlpha(s[q])
    {
      assert s[i + (q - i)] == name[q - i];
    }
    LetterEndAt(s, i, |name|);
    assert s[i..i + |name|] == name;
    assert s[i] == name[0];
    assert PushWord(st, name) == st.(functions := st.functions + [f]);
  }

  /** `f(` pushes f on the function stack and '(' on the operator stack. */
  lemma FunctionOpenSteps<T>(d: Domain<T>, f: Func, s: string, i: nat, k0: nat, k1: nat,
                             vs: seq<Node<T>>, ops: seq<char>, fs: seq<Func>, pending: seq<Func>)
    requires k0 == i + |FuncName(f)| && k0 < |s| && s[k0] == '(' && Occurs(s, i, FuncName(f)) && k1 == k0 + 1
    requires pending == fs + [f]
    ensures Run(d, s, i, Stacks(vs, ops, fs)) == Run(d, s, k1, Stacks(vs, ops + ['('], pending))
  {
    FunctionNameStep(d, f, s, i, Stacks(vs, ops, fs));
    OpenStep(d, s, k0, Stacks(vs, ops, fs + [f]));
  }

  /** ')' after `f( a` discards the '(' and applies f to a. */
  lemma CloseFunction<T>(vs: seq<Node<T>>, ops: seq<char>, fs: seq<Func>, f: Func, a: Node<T>)
    ensures CloseParen(Stacks(vs + [a], ops + ['('], fs + [f])) == Ok(Stacks(vs + [Function(f, a)], ops, fs))
  {
    var st := Stacks(vs + [a], ops + ['('], fs + [f]);
    assert ApplyToParen(st) == Ok(st);
    assert Pop(st.operators) == ops;
    assert Pop(vs + [a]) == vs && Top(vs + [a]) == a && Pop(fs + [f]) == fs && Top(fs + [f]) == f;
    assert Parser.ApplyFunction(st.(operators := ops)) == Ok(Stacks(vs + [Function(f, a)], ops, fs));
  }

  lemma FunctionCloseStep<T>(d: Domain<T>, f: Func, a: Node<T>, s: string, k: nat, e: nat,
                             vs: seq<Node<T>>, ops: seq<char>, fs: seq<Func>)
    requires k < |s| && s[k] == ')' && e == k + 1
    ensures Run(d, s, k, Stacks(vs + [a], ops + ['('], fs + [f])) == Run(d, s, e, Stacks(vs + [Function(f, a)], ops, fs))
  {
    CloseFunction(vs, ops, fs, f, a);
    CloseStep(d, s, k, Stacks(vs + [a], ops + ['('], fs + [f]));
  }

  /** The printed form of a Closed tree pushes exactly that tree, whatever functions are pending. */
  lemma {:induction false} ClosedTermStep<T>(d: Domain<T>, t: Node<T>, s: string, i: nat, j: nat,
                                             vs: seq<Node<T>>, ops: seq<char>, fs: seq<Func>)
    requires j == i + |ToString(d, t)|
    requires Closed(d, t) && Occurs(s, i, ToString(d, t)) && DelimitedAt(s, j)
    ensures Run(d, s, i, Stacks(vs, ops, fs)) == Run(d, s, j, Stacks(vs + [t], ops, fs))
    decreases t, 1
  {
    if t.Constant? {
      NumeralStep(d, s, i, j, t, Stacks(vs, ops, fs));
    } else if t.Variable? {
      WordStep(d, s, i, j, t, Stacks(vs, ops, fs));
    } else {
      FunctionTermStep(d, t.func, t.arg, s, i, j, vs, ops, fs);
    }
  }

  /** TermStep for `f(a)` with a Closed argument: the ')' of f applies f and restores the pending functions. */
  lemma {:induction false} FunctionTermStep<T>(d: Domain<T>, f: Func, a: Node<T>, s: string, i: nat, j: nat,
                                               vs: seq<Node<T>>, ops: seq<char>, fs: seq<Func>)
    requires j == i + |ToString(d, Function(f, a))|
    requires Closed(d, a) && Occurs(s, i, ToString(d, Function(f, a))) && DelimitedAt(s, j)
    ensures Run(d, s, i, Stacks(vs, ops, fs)) == Run(d, s, j, Stacks(vs + [Function(f, a)], ops, fs))
    decreases Function(f, a), 0
  {
    var k0 := i + |FuncName(f)|;
    var k2 := k0 + 1 + |ToString(d, a)|;
    var k1 := k0 + 1;
    FunctionText(d, f, a, s, i, k0, k2, j);
    FunctionOpenSteps(d, f, s, i, k0, k1, vs, ops, fs, fs + [f]);
    ClosedTermStep(d, a, s, k1, k2, vs, ops + ['('], fs + [f]);
    FunctionCloseStep(d, f, a, s, k2, j, vs, ops, fs);
  }

  /** Where the parts of `f(a)` stand: the '(' at k0 and the ')' at k2, just before j. */
  lemma FunctionText<T>(d: Domain<T>, f: Func, a: Node<T>, s: string, i: nat, k0: nat, k2: nat, j: nat)
    requires Occurs(s, i, ToString(d, Function(f, a)))
    requires j == i + |ToString(d, Function(f, a))|
    requires k0 == i + |FuncName(f)| && k2 == k0 + 1 + |ToString(d, a)|
    ensures k0 < |s| && s[k0] == '(' && Occurs(s, i, FuncName(f))
    ensures Occurs(s, k0 + 1, ToString(d, a)) && DelimitedAt(s, k2)
    ensures k2 < |s| && s[k2] == ')' && j == k2 + 1
  {
    FunctionTextAt(d, f, a, s, i);
  }

  /**
   * TermStep for `f((l op r))` with no function pending: the ')' of the
   * operation applies f, and the ')' of f only discards its '('.
   */
  lemma ParenArgTermStep<T>(d: Domain<T>, f: Func, op: BinOp, l: Node<T>, r: Node<T>, s: string, i: nat, j: nat,
                            vs: seq<Node<T>>, ops: seq<char>)
    requires j == i + |ToString(d, Function(f, Binary(op, l, r)))|
    requires Closed(d, l) && Closed(d, r)
    requires Occurs(s, i, ToString(d, Function(f, Binary(op, l, r)))) && DelimitedAt(s, j)
    ensures Run(d, s, i, Stacks(vs, ops, [])) == Run(d, s, j, Stacks(vs + [Function(f, Binary(op, l, r))], ops, []))
  {
    var k0 := i + |FuncName(f)|;
    var k1 := k0 + 1;
    var m1 := k1 + 1 + |ToString(d, l)|;
    var m2 := m1 + 1 + |ToString(d, r)|;
    ParenArgText(d, f, op, l, r, s, i, k0, k1, m1, m2, j);
    FunctionOpenSteps(d, f, s, i, k0, k1, vs, ops, [], [f]);
    ParenArgLeft(d, f, l, s, k1, m1, vs, ops);
    ParenArgRight(d, f, l, op, r, s, m1, m2, vs, ops);
    ParenArgClose(d, f, op, l, r, s, m2, j, vs, ops);
  }

  /** Where the parts of `f((l op r))` stand: f's '(' at k0, the operator at m1, the two ')' at m2 and m2 + 1. */
  lemma ParenArgText<T>(d: Domain<T>, f: Func, op: BinOp, l: Node<T>, r: Node<T>, s: string,
                        i: nat, k0: nat, k1: nat, m1: nat, m2: nat, j: nat)
    requires Occurs(s, i, ToString(d, Function(f, Binary(op, l, r)))) && DelimitedAt(s, j)
    requires j == i + |ToString(d, Function(f, Binary(op, l, r)))|
    requires k0 == i + |FuncName(f)| && k1 == k0 + 1
    requires m1 == k1 + 1 + |ToString(d, l)| && m2 == m1 + 1 + |ToString(d, r)|
    ensures k0 < |s| && s[k0] == '(' && Occurs(s, i, FuncName(f))
    ensures k1 < |s| && s[k1] == '(' && Occurs(s, k1 + 1, ToString(d, l)) && m1 < |s| && IsOperator(s[m1])
    ensures s[m1] == OpSymbol(op) && Occurs(s, m1 + 1, ToString(d, r)) && m2 + 1 < |s| && s[m2] == ')' && s[m2 + 1] == ')'
    ensures j == m2 + 2
  {
    var b := Binary(op, l, r);
    FunctionTextAt(d, f, b, s, i);
    BinaryLength(d, op, l, r);
    InnerText(d, op, l, r, s, k1, k1 + 1, m1, m2);
    assert m2 + 1 == i + |FuncName(f)| + 1 + |ToString(d, b)|;
    assert OperatorOf(OpSymbol(op)).Some?;
  }

  lemma ParenArgLeft<T>(d: Domain<T>, f: Func, l: Node<T>, s: string, k1: nat, m1: nat,
                        vs: seq<Node<T>>, ops: seq<char>)
    requires k1 < |s| && s[k1] == '(' && m1 == k1 + 1 + |ToString(d, l)|
    requires Closed(d, l) && Occurs(s, k1 + 1, ToString(d, l)) && m1 < |s| && IsOperator(s[m1])
    ensures Run(d, s, k1, Stacks(vs, ops + ['('], [f])) == Run(d, s, m1, Stacks(vs + [l], ops + ['('] + ['('], [f]))
  {
    OpenStep(d, s, k1, Stacks(vs, ops + ['('], [f]));
    ClosedTermStep(d, l, s, k1 + 1, m1, vs, ops + ['('] + ['('], [f]);
  }

  lemma ParenArgRight<T>(d: Domain<T>, f: Func, l: Node<T>, op: BinOp, r: Node<T>, s: string, m1: nat, m2: nat,
                         vs: seq<Node<T>>, ops: seq<char>)
    requires m1 < |s| && s[m1] == OpSymbol(op) && m2 == m1 + 1 + |ToString(d, r)|
    requires Closed(d, r) && Occurs(s, m1 + 1, ToString(d, r)) && m2 < |s| && s[m2] == ')'
    ensures Run(d, s, m1, Stacks(vs + [l], ops + ['('] + ['('], [f]))
         == Run(d, s, m2, Stacks(vs + [l] + [r], ops + ['('] + ['('] + [OpSymbol(op)], [f]))
  {
    assert OperatorOf(OpSymbol(op)).Some?;
    PushOverOpenParen(Stacks(vs + [l], ops + ['('] + ['('], [f]), OpSymbol(op));
    OperatorStep(d, s, m1, Stacks(vs + [l], ops + ['('] + ['('], [f]));
    ClosedTermStep(d, r, s, m1 + 1, m2, vs + [l], ops + ['('] + ['('] + [OpSymbol(op)], [f]);
  }

  lemma ParenArgClose<T>(d: Domain<T>, f: Func, op: BinOp, l: Node<T>, r: Node<T>, s: string, m2: nat, j: nat,
                         vs: seq<Node<T>>, ops: seq<char>)
    requires m2 + 1 < |s| && s[m2] == ')' && s[m2 + 1] == ')' && j == m2 + 2
    ensures Run(d, s, m2, Stacks(vs + [l] + [r], ops + ['('] + ['('] + [OpSymbol(op)], [f]))
         == Run(d, s, j, Stacks(vs + [Function(f, Binary(op, l, r))], ops, []))
  {
    var x := Function(f, Binary(op, l, r));
    CloseOperationArgument(vs, ops, f, op, l, r);
    CloseStep(d, s, m2, Stacks(vs + [l] + [r], ops + ['('] + ['('] + [OpSymbol(op)], [f]));
    CloseBareParen(vs + [x], ops);
    CloseStep(d, s, m2 + 1, Stacks(vs + [x], ops + ['('], []));
  }

  /** ')' after `f(( l op r` builds the operation and applies f to it. */
  lemma CloseOperationArgument<T>(vs: seq<Node<T>>, ops: seq<char>, f: Func, op: BinOp, l: Node<T>, r: Node<T>)
    ensures CloseParen(Stacks(vs + [l] + [r], ops + ['('] + ['('] + [OpSymbol(op)], [f]))
         == Ok(Stacks(vs + [Function(f, Binary(op, l, r))], ops + ['('], []))
  {
    var st := Stacks(vs + [l] + [r], ops + ['('] + ['('] + [OpSymbol(op)], [f]);
    assert OperatorOf(OpSymbol(op)) == Some(op);
    assert (vs + [l] + [r])[..|vs| + 2 - 2] == vs;
    assert Pop(ops + ['('] + ['('] + [OpSymbol(op)]) == ops + ['('] + ['('];
    var inner := Stacks(vs + [Binary(op, l, r)], ops + ['('] + ['('], [f]);
    assert ApplyOperation(st) == Ok(inner);
    assert ApplyToParen(inner) == Ok(inner);
    assert Pop(inner.operators) == ops + ['('];
    assert [f] == [] + [f];
    CloseFunction(vs, ops + ['('], [], f, Binary(op, l, r));
  }

  /** ')' with nothing pending only discards its '('. */
  lemma CloseBareParen<T>(vs: seq<Node<T>>, ops: seq<char>)
    ensures CloseParen(Stacks(vs, ops + ['('], [])) == Ok(Stacks(vs, ops, []))
  {
    var st := Stacks(vs, ops + ['('], []);
    assert ApplyToParen(st) == Ok(st);
    assert Pop(st.operators) == ops;
  }

  /** Round trip: parseExpression reads Node::toString's output back as the same tree. */
  lemma ParseToStringRoundTrip<T>(d: Domain<T>, t: Node<T>)
    requires Printable(d, t)
    ensures ParseSpec(d, ToString(d, t)) == Ok(t)
  {
    var s := ToString(d, t);
    assert s[0..|s|] == s;
    TermStep(d, t, s, 0, |s|, [], []);
  }

  /** Where the five parts of `a o1 b o2 c` stand. */
  lemma ChainTextAt(A: string, o1: char, B: string, o2: char, C: string, s: string, k1: nat, k2: nat, k3: nat, k4: nat)
    requires s == A + [o1] + B + [o2] + C
    requires k1 == |A| && k2 == k1 + 1 && k3 == k2 + |B| && k4 == k3 + 1
    ensures Occurs(s, 0, A) && k1 < |s| && s[k1] == o1
    ensures Occurs(s, k2, B) && k3 < |s| && s[k3] == o2
    ensures Occurs(s, k4, C) && k4 + |C| == |s|
  {
    assert s[0..|A|] == A;
    assert s[k2..k2 + |B|] == B;
    assert s[k4..k4 + |C|] == C;
  }

  /** Parsing ends in t when the scan from the start ends in stacks that finish as t. */
  lemma ParseOfRun<T>(d: Domain<T>, s: string, st: Stacks<T>)
    requires Run(d, s, 0, Stacks([], [], [])) == Ok(st)
    ensures ParseSpec(d, s) == Finish(st)
  {
  }

  /** The first operand of a chain and the operator after it, read from the start. */
  lemma ChainFirstOperand<T>(d: Domain<T>, a: Node<T>, o1: char, s: string, k1: nat, k2: nat)
    requires k1 == |ToString(d, a)| && k2 == k1 + 1
    requires Printable(d, a) && IsOperator(o1)
    requires Occurs(s, 0, ToString(d, a)) && k1 < |s| && s[k1] == o1
    ensures Run(d, s, 0, Stacks([], [], [])) == Run(d, s, k2, Stacks([a], [o1], []))
  {
    TermStep(d, a, s, 0, k1, [], []);
    var st1: Stacks<T> := Stacks([a], [], []);
    assert [] + [a] == [a];
    assert ApplyWhileAtLeast(st1, Precedence(o1)) == Ok(st1);
    assert st1.(operators := st1.operators + [o1]) == Stacks([a], [o1], []);
    assert PushOperator(st1, o1) == Ok(Stacks([a], [o1], []));
    OperatorPush(d, s, k1, k2, st1, Stacks([a], [o1], []));
  }

  /** The second operand of a chain. */
  lemma ChainSecondOperand<T>(d: Domain<T>, a: Node<T>, o1: char, b: Node<T>, s: string, k2: nat, k3: nat)
    requires k3 == k2 + |ToString(d, b)|
    requires Printable(d, b)
    requires Occurs(s, k2, ToString(d, b)) && DelimitedAt(s, k3)
    ensures Run(d, s, k2, Stacks([a], [o1], [])) == Run(d, s, k3, Stacks([a, b], [o1], []))
  {
    TermStep(d, b, s, k2, k3, [a], [o1]);
    assert [a] + [b] == [a, b];
  }

  /** The second operator groups `a o1 b` first when o1 binds at least as tightly. */
  lemma ChainGroupsLeft<T>(d: Domain<T>, a: Node<T>, o1: char, b: Node<T>, o2: char, c: Node<T>, s: string,
                           k3: nat, k4: nat)
    requires k4 == k3 + 1 && k4 + |ToString(d, c)| == |s|
    requires IsOperator(o1) && IsOperator(o2) && Precedence(o1) >= Precedence(o2) && Printable(d, c)
    requires s[k3] == o2 && Occurs(s, k4, ToString(d, c))
    ensures Run(d, s, k3, Stacks([a, b], [o1], []))
         == Ok(Stacks([Binary(OperatorOf(o1).value, a, b), c], [o2], []))
  {
    var x := Binary(OperatorOf(o1).value, a, b);
    PushGroupsLeft(a, o1, b, o2);
    OperatorPush(d, s, k3, k4, Stacks([a, b], [o1], []), Stacks([x], [o2], []));
    assert [x] + [c] == [x, c];
    ChainLastOperand(d, [x], [o2], c, s, k4, [x, c]);
  }

  lemma PushGroupsLeft<T>(a: Node<T>, o1: char, b: Node<T>, o2: char)
    requires IsOperator(o1) && IsOperator(o2) && Precedence(o1) >= Precedence(o2)
    ensures PushOperator(Stacks([a, b], [o1], []), o2) == Ok(Stacks([Binary(OperatorOf(o1).value, a, b)], [o2], []))
  {
    var x := Binary(OperatorOf(o1).value, a, b);
    var st2: Stacks<T> := Stacks([a, b], [o1], []);
    var reduced: Stacks<T> := Stacks([x], [], []);
    TopOperation(a, b, o1);
    assert ApplyWhileAtLeast(reduced, Precedence(o2)) == Ok(reduced);
    assert ApplyWhileAtLeast(st2, Precedence(o2)) == Ok(reduced);
    assert reduced.(operators := reduced.operators + [o2]) == Stacks([x], [o2], []);
  }

  /** The second operator is stacked above o1 when it binds more tightly. */
  lemma ChainGroupsRight<T>(d: Domain<T>, a: Node<T>, o1: char, b: Node<T>, o2: char, c: Node<T>, s: string,
                            k3: nat, k4: nat)
    requires k4 == k3 + 1 && k4 + |ToString(d, c)| == |s|
    requires IsOperator(o1) && IsOperator(o2) && Precedence(o1) < Precedence(o2) && Printable(d, c)
    requires s[k3] == o2 && Occurs(s, k4, ToString(d, c))
    ensures Run(d, s, k3, Stacks([a, b], [o1], [])) == Ok(Stacks([a, b, c], [o1, o2], []))
  {
    PushGroupsRight(a, o1, b, o2);
    OperatorPush(d, s, k3, k4, Stacks([a, b], [o1], []), Stacks([a, b], [o1, o2], []));
    assert [a, b] + [c] == [a, b, c];
    ChainLastOperand(d, [a, b], [o1, o2], c, s, k4, [a, b, c]);
  }

  /** The last operand of a chain runs to the end of the text. */
  lemma ChainLastOperand<T>(d: Domain<T>, vs: seq<Node<T>>, ops: seq<char>, c: Node<T>, s: string, k4: nat,
                            pushed: seq<Node<T>>)
    requires k4 + |ToString(d, c)| == |s| && Printable(d, c) && Occurs(s, k4, ToString(d, c))
    requires pushed == vs + [c]
    ensures Run(d, s, k4, Stacks(vs, ops, [])) == Ok(Stacks(pushed, ops, []))
  {
    TermStep(d, c, s, k4, |s|, vs, ops);
  }

  lemma PushGroupsRight<T>(a: Node<T>, o1: char, b: Node<T>, o2: char)
    requires IsOperator(o1) && IsOperator(o2) && Precedence(o1) < Precedence(o2)
    ensures PushOperator(Stacks([a, b], [o1], []), o2) == Ok(Stacks([a, b], [o1, o2], []))
  {
    var st2: Stacks<T> := Stacks([a, b], [o1], []);
    assert Top(st2.operators) == o1;
    assert ApplyWhileAtLeast(st2, Precedence(o2)) == Ok(st2);
    assert st2.(operators := st2.operators + [o2]) == Stacks([a, b], [o1, o2], []);
  }

  /** Two values under one operator reduce to the binary node. */
  lemma TopOperation<T>(x: Node<T>, y: Node<T>, c: char)
    requires IsOperator(c)
    ensures ApplyOperation(Stacks([x, y], [c], [])) == Ok(Stacks([Binary(OperatorOf(c).value, x, y)], [], []))
  {
    assert OperatorOf(c).Some?;
    assert [x, y][..0] == [] && Pop([c]) == [];
    assert [] + [Binary(OperatorOf(c).value, x, y)] == [Binary(OperatorOf(c).value, x, y)];
  }

  lemma FinishGroupsLeft<T>(x: Node<T>, c: Node<T>, o2: char)
    requires IsOperator(o2)
    ensures Finish(Stacks([x, c], [o2], [])) == Ok(Binary(OperatorOf(o2).value, x, c))
  {
    var st: Stacks<T> := Stacks([x, c], [o2], []);
    TopOperation(x, c, o2);
    assert ApplyAll(Stacks([Binary(OperatorOf(o2).value, x, c)], [], [])) == Ok(Stacks([Binary(OperatorOf(o2).value, x, c)], [], []));
  }

  lemma FinishGroupsRight<T>(a: Node<T>, b: Node<T>, c: Node<T>, o1: char, o2: char)
    requires IsOperator(o1) && IsOperator(o2)
    ensures Finish(Stacks([a, b, c], [o1, o2], []))
         == Ok(Binary(OperatorOf(o1).value, a, Binary(OperatorOf(o2).value, b, c)))
  {
    var st: Stacks<T> := Stacks([a, b, c], [o1, o2], []);
    var inner: Stacks<T> := Stacks([a, Binary(OperatorOf(o2).value, b, c)], [o1], []);
    var done: Stacks<T> := Stacks([Binary(OperatorOf(o1).value, a, Binary(OperatorOf(o2).value, b, c))], [], []);
    assert OperatorOf(o2).Some?;
    assert st.values[..1] == [a] && Pop(st.operators) == [o1];
    assert [a] + [Binary(OperatorOf(o2).value, b, c)] == [a, Binary(OperatorOf(o2).value, b, c)];
    assert ApplyOperation(st) == Ok(inner);
    TopOperation(a, Binary(OperatorOf(o2).value, b, c), o1);
    assert ApplyAll(done) == Ok(done);
    assert ApplyAll(inner) == Ok(done);
    assert ApplyAll(st) == Ok(done);
  }

  /**
   * Precedence and left associativity: in `a o1 b o2 c` the first operator
   * groups first exactly when its precedence is at least the second's, so
   * equal precedences (including '^') associate to the left.
   */
  lemma PrecedenceGrouping<T>(d: Domain<T>, a: Node<T>, o1: char, b: Node<T>, o2: char, c: Node<T>)
    requires Printable(d, a) && Printable(d, b) && Printable(d, c)
    requires IsOperator(o1) && IsOperator(o2)
    ensures ParseSpec(d, ToString(d, a) + [o1] + ToString(d, b) + [o2] + ToString(d, c))
         == Ok(if Precedence(o1) >= Precedence(o2)
               then Binary(OperatorOf(o2).value, Binary(OperatorOf(o1).value, a, b), c)
               else Binary(OperatorOf(o1).value, a, Binary(OperatorOf(o2).value, b, c)))
  {
    var s := ToString(d, a) + [o1] + ToString(d, b) + [o2] + ToString(d, c);
    var k1 := |ToString(d, a)|;
    var k2 := k1 + 1;
    var k3 := k2 + |ToString(d, b)|;
    var k4 := k3 + 1;
    ChainTextAt(ToString(d, a), o1, ToString(d, b), o2, ToString(d, c), s, k1, k2, k3, k4);
    ChainFirstOperand(d, a, o1, s, k1, k2);
    ChainSecondOperand(d, a, o1, b, s, k2, k3);
    if Precedence(o1) >= Precedence(o2) {
      var x := Binary(OperatorOf(o1).value, a, b);
      ChainGroupsLeft(d, a, o1, b, o2, c, s, k3, k4);
      FinishGroupsLeft(x, c, o2);
      ParseOfRun(d, s, Stacks([x, c], [o2], []));
    } else {
      var y := Binary(OperatorOf(o2).value, b, c);
      ChainGroupsRight(d, a, o1, b, o2, c, s, k3, k4);
      FinishGroupsRight(a, b, c, o1, o2);
      ParseOfRun(d, s, Stacks([a, b, c], [o1, o2], []));
    }
  }

  /** One pass of the scanning loop as the whole scan sees it. */
  lemma ScanPass<T>(d: Domain<T>, s: string, i: nat, st: Stacks<T>) returns (r: Result<Scanned<T>, Error>)
    requires i < |s|
    ensures r == Step(d, s, i, st)
    ensures r.Err? ==> Run(d, s, i, st) == Err(r.error)
    ensures r.Err? && r.error.InvalidCharacter? ==> r.error == InvalidCharacter(s[i], i) && Unexpected(s[i])
    ensures r.Ok? ==> 1 <= r.value.width <= |s| - i
    ensures r.Ok? ==> Run(d, s, i, st) == Run(d, s, i + r.value.width, r.value.stacks)
  {
    r := Step(d, s, i, st);
  }

  /** One pass from a well-formed operator stack, with what the well-formedness induction needs. */
  lemma ScanPassWellFormed<T>(d: Domain<T>, s: string, i: nat, st: Stacks<T>) returns (r: Result<Scanned<T>, Error>)
    requires i < |s| && OperatorsWellFormed(st.operators)
    ensures r.Err? ==> Run(d, s, i, st) == Err(r.error) && !r.error.InvalidOperator?
    ensures r.Ok? ==> 1 <= r.value.width <= |s| - i
    ensures r.Ok? ==> Run(d, s, i, st) == Run(d, s, i + r.value.width, r.value.stacks)
    ensures r.Ok? ==> OperatorsWellFormed(r.value.stacks.operators)
  {
    r := ScanPass(d, s, i, st);
    StepKeepsOperatorsWellFormed(d, s, i, st);
  }

  /** Every character of a token the scanner consumes is acceptable, so an unexpected one is always reached. */
  lemma {:induction false} RunRejectsUnexpected<T>(d: Domain<T>, s: string, i: nat, st: Stacks<T>, j: nat)
    requires i <= j < |s| && Unexpected(s[j])
    ensures Run(d, s, i, st).Err?
    decreases |s| - i
  {
    var r := ScanPass(d, s, i, st);
    if r.Ok? {
      if i + r.value.width <= j {
        RunRejectsUnexpected(d, s, i + r.value.width, r.value.stacks, j);
      } else {
        assert false;
      }
    }
  }

  /** Any character outside the scanner's classes makes parseExpression throw. */
  lemma ParseRejectsUnexpected<T>(d: Domain<T>, input: string, j: nat)
    requires j < |input| && Unexpected(input[j])
    ensures ParseSpec(d, input).Err?
  {
    RunRejectsUnexpected(d, input, 0, Stacks([], [], []), j);
  }

  lemma {:induction false} RunInvalidCharacterAt<T>(d: Domain<T>, s: string, i: nat, st: Stacks<T>, c: char, p: nat)
    requires i <= |s| && Run(d, s, i, st) == Err(InvalidCharacter(c, p))
    ensures i <= p < |s| && s[p] == c && Unexpected(c)
    decreases |s| - i
  {
    if i < |s| {
      var r := ScanPass(d, s, i, st);
      if r.Ok? {
        RunInvalidCharacterAt(d, s, i + r.value.width, r.value.stacks, c, p);
      } else {
        assert r.error == InvalidCharacter(c, p);
      }
    }
  }

  /** The reported invalid character is the one at the reported index. */
  lemma ParseInvalidCharacterAt<T>(d: Domain<T>, input: string, c: char, p: nat)
    requires ParseSpec(d, input) == Err(InvalidCharacter(c, p))
    ensures p < |input| && input[p] == c && Unexpected(c)
  {
    var scanned := Run(d, input, 0, Stacks([], [], []));
    if scanned.Err? {
      RunInvalidCharacterAt(d, input, 0, Stacks([], [], []), c, p);
    } else {
      assert false;
    }
  }

  /** A pass of the scanning loop keeps '(' and operators the only entries of the operator stack. */
  lemma StepKeepsOperatorsWellFormed<T>(d: Domain<T>, s: string, i: nat, st: Stacks<T>)
    requires i < |s| && OperatorsWellFormed(st.operators)
    ensures Step(d, s, i, st).Ok? ==> OperatorsWellFormed(Step(d, s, i, st).value.stacks.operators)
    ensures Step(d, s, i, st).Err? ==> !Step(d, s, i, st).error.InvalidOperator?
  {
    var c := s[i];
    if c == ')' {
      match CloseParen(st)
      case Ok(next) => WellFormedPrefix(st.operators, next.operators);
      case Err(_) =>
    } else if IsOperator(c) {
      match PushOperator(st, c)
      case Ok(next) =>
        WellFormedPrefix(st.operators, Pop(next.operators));
        WellFormedPush(Pop(next.operators), c);
        assert Pop(next.operators) + [c] == next.operators;
      case Err(_) =>
    } else if c == '(' {
      WellFormedPush(st.operators, c);
    }
  }

  lemma WellFormedPrefix(ops: seq<char>, sub: seq<char>)
    requires OperatorsWellFormed(ops) && sub <= ops
    ensures OperatorsWellFormed(sub)
  {
    forall j | 0 <= j < |sub| ensures sub[j] == '(' || IsOperator(sub[j]) {
      assert sub[j] == ops[j];
    }
  }

  lemma WellFormedPush(ops: seq<char>, c: char)
    requires OperatorsWellFormed(ops) && (c == '(' || IsOperator(c))
    ensures OperatorsWellFormed(ops + [c])
  {
    forall j | 0 <= j < |ops| + 1 ensures (ops + [c])[j] == '(' || IsOperator((ops + [c])[j]) {
      if j < |ops| {
        assert (ops + [c])[j] == ops[j];
      }
    }
  }

  /** What a run from a well-formed operator stack ends in: a well-formed stack, or an error other than InvalidOperator. */
  predicate KeepsWellFormed<T>(r: Result<Stacks<T>, Error>) {
    match r
    case Ok(st) => OperatorsWellFormed(st.operators)
    case Err(e) => !e.InvalidOperator?
  }

  lemma {:induction false} RunKeepsOperatorsWellFormed<T>(d: Domain<T>, s: string, i: nat, st: Stacks<T>)
    requires i <= |s| && OperatorsWellFormed(st.operators)
    ensures KeepsWellFormed(Run(d, s, i, st))
    decreases |s| - i
  {
    if i < |s| {
      var r := ScanPassWellFormed(d, s, i, st);
      if r.Ok? {
        RunKeepsOperatorsWellFormed(d, s, i + r.value.width, r.value.stacks);
      }
    }
  }

  /** "Invalid operator" can only come from a '(' left unclosed at the end of the input. */
  lemma ParseInvalidOperatorIsOpenParen<T>(d: Domain<T>, input: string, c: char)
    requires ParseSpec(d, input) == Err(InvalidOperator(c))
    ensures c == '('
  {
    RunKeepsOperatorsWellFormed(d, input, 0, Stacks([], [], []));
  }

  /** An unclosed '(' before a lone operand: the end-of-input loop pops '(' with one value, an underflow. */
  lemma UnclosedParenthesis<T>(d: Domain<T>, t: Node<T>)
    requires Printable(d, t)
    ensures ParseSpec(d, "(" + ToString(d, t)) == Err(StackUnderflow)
  {
    var s := "(" + ToString(d, t);
    UnclosedRun(d, t, s);
    ParseOfRun(d, s, Stacks([t], ['('], []));
    assert Finish(Stacks([t], ['('], [])) == Err(StackUnderflow);
  }

  lemma UnclosedRun<T>(d: Domain<T>, t: Node<T>, s: string)
    requires Printable(d, t) && s == "(" + ToString(d, t)
    ensures Run(d, s, 0, Stacks([], [], [])) == Ok(Stacks([t], ['('], []))
  {
    var e: Stacks<T> := Stacks([], [], []);
    assert Occurs(s, 1, ToString(d, t));
    OpenStep(d, s, 0, e);
    assert e.(operators := e.operators + ['(']) == Stacks([], ['('], []);
    TermStep(d, t, s, 1, |s|, [], ['(']);
    assert [] + [t] == [t];
  }

  /** An unmatched ')' pops an empty operator stack. */
  lemma UnmatchedClosingParenthesis<T>(d: Domain<T>, t: Node<T>)
    requires Printable(d, t)
    ensures ParseSpec(d, ToString(d, t) + ")") == Err(StackUnderflow)
  {
    var s := ToString(d, t) + ")";
    var k := |ToString(d, t)|;
    assert Occurs(s, 0, ToString(d, t));
    TermStep(d, t, s, 0, k, [], []);
    assert [] + [t] == [t];
    assert CloseParen(Stacks([t], [], [])) == Err(StackUnderflow);
    CloseStep(d, s, k, Stacks([t], [], []));
  }

  /**
   * Functions still pending at the end of the input are never applied:
   * `sin x` reads as the bare variable x.
   */
  lemma PendingFunctionIgnored<T>(d: Domain<T>, f: Func, w: string)
    requires IsVariableName(w)
    ensures ParseSpec(d, FuncName(f) + " " + w) == Ok(Variable(w))
  {
    var v: Node<T> := Variable(w);
    PendingFunctionScan(d, f, w);
    assert ApplyAll(Stacks([v], [], [f])) == Ok(Stacks([v], [], [f]));
  }

  lemma PendingFunctionScan<T>(d: Domain<T>, f: Func, w: string)
    requires IsVariableName(w)
    ensures Run(d, FuncName(f) + " " + w, 0, Stacks([], [], [])) == Ok(Stacks([Variable(w)], [], [f]))
  {
    var s := FuncName(f) + " " + w;
    var k := |FuncName(f)|;
    var v: Node<T> := Variable(w);
    var e: Stacks<T> := Stacks([], [], []);
    var st1: Stacks<T> := Stacks([], [], [f]);
    var st2: Stacks<T> := Stacks([v], [], [f]);
    SpacedText(FuncName(f), w);
    FunctionNameStep(d, f, s, 0, e);
    assert e.(functions := e.functions + [f]) == st1;
    SpaceStep(d, s, k, st1);
    WordStep(d, s, k + 1, |s|, v, st1);
    assert st1.(values := st1.values + [v]) == st2;
    assert Run(d, s, |s|, st2) == Ok(st2);
  }

  /** Where the two words of `name w` stand. */
  lemma SpacedText(name: string, w: string)
    ensures Occurs(name + " " + w, 0, name)
    ensures |name| < |name + " " + w| && (name + " " + w)[|name|] == ' '
    ensures Occurs(name + " " + w, |name| + 1, w) && |name + " " + w| == |name| + 1 + |w|
  {
  }

  /**
   * The ')' of an inner parenthesis applies the pending function: the text
   * Node::toString prints for f((a o1 b) o2 c), such as sin(((x+y)*z)),
   * reads back as (f(a o1 b)) o2 c.
   */
  lemma NestedArgumentMisparsed<T>(d: Domain<T>, f: Func, o1: BinOp, o2: BinOp, a: Node<T>, b: Node<T>, c: Node<T>)
    requires Closed(d, a) && Closed(d, b) && Closed(d, c)
    ensures ParseSpec(d, ToString(d, Function(f, Binary(o2, Binary(o1, a, b), c))))
         == Ok(Binary(o2, Function(f, Binary(o1, a, b)), c))
  {
    var s := ToString(d, Function(f, Binary(o2, Binary(o1, a, b), c)));
    var x := Function(f, Binary(o1, a, b));
    var y := Binary(o2, x, c);
    assert Occurs(s, 0, s);
    var n := |FuncName(f)|;
    var q3 := n + 3;
    var q4 := q3 + |ToString(d, a)|;
    var q6 := q4 + 1 + |ToString(d, b)|;
    var q7 := q6 + 1;
    var q9 := q7 + 1 + |ToString(d, c)|;
    NestedText(d, f, o1, o2, a, b, c, s, n, q3, q4, q6, q7, q9);
    MisparsedOpening(d, f, a, s, n, q3, q4);
    MisparsedInner(d, f, o1, a, b, s, q4, q6, q7);
    MisparsedOuter(d, o2, x, c, s, q7, q9);
    assert ApplyAll(Stacks([y], [], [])) == Ok(Stacks([y], [], []));
  }

  /** Where the parts of `f(((a o1 b) o2 c))` stand. */
  lemma NestedText<T>(d: Domain<T>, f: Func, o1: BinOp, o2: BinOp, a: Node<T>, b: Node<T>, c: Node<T>, s: string,
                      n: nat, q3: nat, q4: nat, q6: nat, q7: nat, q9: nat)
    requires Occurs(s, 0, ToString(d, Function(f, Binary(o2, Binary(o1, a, b), c))))
    requires |s| == |ToString(d, Function(f, Binary(o2, Binary(o1, a, b), c)))|
    requires n == |FuncName(f)| && q3 == n + 3 && q4 == q3 + |ToString(d, a)|
    requires q6 == q4 + 1 + |ToString(d, b)| && q7 == q6 + 1 && q9 == q7 + 1 + |ToString(d, c)|
    ensures q9 + 2 == |s|
    ensures Occurs(s, 0, FuncName(f)) && s[n] == '(' && s[n + 1] == '(' && s[n + 2] == '('
    ensures Occurs(s, q3, ToString(d, a)) && s[q4] == OpSymbol(o1) && Occurs(s, q4 + 1, ToString(d, b))
    ensures s[q6] == ')' && s[q7] == OpSymbol(o2) && Occurs(s, q7 + 1, ToString(d, c))
    ensures s[q9] == ')' && s[q9 + 1] == ')'
  {
    var A, B, C := ToString(d, a), ToString(d, b), ToString(d, c);
    var I := ToString(d, Binary(o1, a, b));
    var O := ToString(d, Binary(o2, Binary(o1, a, b), c));
    assert I == "(" + A + [OpSymbol(o1)] + B + ")";
    assert O == "(" + I + [OpSymbol(o2)] + C + ")";
    AppliedAt(s, 0, FuncName(f), O, n, n + 1, q9 + 1);
    ParenthesizedAt(s, n + 1, I, OpSymbol(o2), C, n + 2, q7, q7 + 1, q9);
    ParenthesizedAt(s, n + 2, A, OpSymbol(o1), B, q3, q4, q4 + 1, q6);
  }

  /** `(a o1 b)` at index p: a from q3 to q4, b after the operator, ')' at q6. */
  lemma InnerText<T>(d: Domain<T>, o1: BinOp, a: Node<T>, b: Node<T>, s: string, p: nat, q3: nat, q4: nat, q6: nat)
    requires Occurs(s, p, ToString(d, Binary(o1, a, b)))
    requires q3 == p + 1 && q4 == q3 + |ToString(d, a)| && q6 == q4 + 1 + |ToString(d, b)|
    ensures s[p] == '(' && Occurs(s, q3, ToString(d, a)) && s[q4] == OpSymbol(o1) && Occurs(s, q4 + 1, ToString(d, b))
    ensures s[q6] == ')' && q6 < |s|
  {
    ParenthesizedAt(s, p, ToString(d, a), OpSymbol(o1), ToString(d, b), q3, q4, q4 + 1, q6);
  }

  /** `f(((a` : f pending, three '(' stacked, a read. */
  lemma MisparsedOpening<T>(d: Domain<T>, f: Func, a: Node<T>, s: string, n: nat, q3: nat, q4: nat)
    requires n == |FuncName(f)| && q3 == n + 3 && q4 == q3 + |ToString(d, a)| && q4 < |s|
    requires Occurs(s, 0, FuncName(f)) && s[n] == '(' && s[n + 1] == '(' && s[n + 2] == '('
    requires Closed(d, a) && Occurs(s, q3, ToString(d, a)) && IsOperator(s[q4])
    ensures Run(d, s, 0, Stacks([], [], [])) == Run(d, s, q4, Stacks([a], ['(', '(', '('], [f]))
  {
    MisparsedFunctionName(d, f, s, n);
    MisparsedFirstOperand(d, f, a, s, n, q3, q4);
  }

  lemma MisparsedFunctionName<T>(d: Domain<T>, f: Func, s: string, n: nat)
    requires n == |FuncName(f)| && n + 2 < |s|
    requires Occurs(s, 0, FuncName(f)) && s[n] == '(' && s[n + 1] == '('
    ensures Run(d, s, 0, Stacks([], [], [])) == Run(d, s, n + 2, Stacks([], ['(', '('], [f]))
  {
    FunctionOpenSteps(d, f, s, 0, n, n + 1, [], [], [], [f]);
    var st1: Stacks<T> := Stacks([], [] + ['('], [] + [f]);
    assert st1 == Stacks([], ['('], [f]);
    OpenStep(d, s, n + 1, st1);
    assert st1.(operators := st1.operators + ['(']) == Stacks([], ['(', '('], [f]);
  }

  lemma MisparsedFirstOperand<T>(d: Domain<T>, f: Func, a: Node<T>, s: string, n: nat, q3: nat, q4: nat)
    requires q3 == n + 3 && q4 == q3 + |ToString(d, a)| && q4 < |s|
    requires s[n + 2] == '(' && Closed(d, a) && Occurs(s, q3, ToString(d, a)) && IsOperator(s[q4])
    ensures Run(d, s, n + 2, Stacks([], ['(', '('], [f])) == Run(d, s, q4, Stacks([a], ['(', '(', '('], [f]))
  {
    OperandAfterOpen(d, a, s, n + 2, q4, ['(', '('], [f]);
    assert ['(', '('] + ['('] == ['(', '(', '('];
  }

  /** `(a` on an empty value stack: '(' is pushed, then a. */
  lemma OperandAfterOpen<T>(d: Domain<T>, a: Node<T>, s: string, k: nat, j: nat, ops: seq<char>, fs: seq<Func>)
    requires j == k + 1 + |ToString(d, a)| && j < |s|
    requires s[k] == '(' && Closed(d, a) && Occurs(s, k + 1, ToString(d, a)) && IsOperator(s[j])
    ensures Run(d, s, k, Stacks([], ops, fs)) == Run(d, s, j, Stacks([a], ops + ['('], fs))
  {
    var st: Stacks<T> := Stacks([], ops, fs);
    var pushed: Stacks<T> := Stacks([], ops + ['('], fs);
    assert st.(operators := st.operators + ['(']) == pushed;
    OpenStep(d, s, k, st);
    ClosedTermStep(d, a, s, k + 1, j, [], ops + ['('], fs);
    assert [] + [a] == [a];
  }

  /** `o1 b)` : the first ')' builds a o1 b and applies the pending f to it. */
  lemma MisparsedInner<T>(d: Domain<T>, f: Func, o1: BinOp, a: Node<T>, b: Node<T>, s: string, q4: nat, q6: nat, q7: nat)
    requires q6 == q4 + 1 + |ToString(d, b)| && q7 == q6 + 1 && q7 <= |s|
    requires s[q4] == OpSymbol(o1) && Closed(d, b) && Occurs(s, q4 + 1, ToString(d, b)) && s[q6] == ')'
    ensures Run(d, s, q4, Stacks([a], ['(', '(', '('], [f]))
         == Run(d, s, q7, Stacks([Function(f, Binary(o1, a, b))], ['(', '('], []))
  {
    MisparsedRight(d, f, o1, a, b, s, q4, q6);
    MisparsedInnerClose(d, f, o1, a, b, s, q6, q7);
  }

  /** `o1 b` after `f(((a` : the operator waits above the innermost '(' and b is pushed. */
  lemma MisparsedRight<T>(d: Domain<T>, f: Func, o1: BinOp, a: Node<T>, b: Node<T>, s: string, q4: nat, q6: nat)
    requires q6 == q4 + 1 + |ToString(d, b)| && q6 < |s|
    requires s[q4] == OpSymbol(o1) && Closed(d, b) && Occurs(s, q4 + 1, ToString(d, b)) && s[q6] == ')'
    ensures Run(d, s, q4, Stacks([a], ['(', '(', '('], [f]))
         == Run(d, s, q6, Stacks([a, b], ['(', '(', '(', OpSymbol(o1)], [f]))
  {
    assert [] + [a] == [a] && ['('] + ['('] + ['('] == ['(', '(', '('];
    assert [] + [a] + [b] == [a, b] && ['('] + ['('] + ['('] + [OpSymbol(o1)] == ['(', '(', '(', OpSymbol(o1)];
    ParenArgRight(d, f, a, o1, b, s, q4, q6, [], ['(']);
  }

  lemma MisparsedInnerClose<T>(d: Domain<T>, f: Func, o1: BinOp, a: Node<T>, b: Node<T>, s: string, q6: nat, q7: nat)
    requires q6 < |s| && s[q6] == ')' && q7 == q6 + 1
    ensures Run(d, s, q6, Stacks([a, b], ['(', '(', '(', OpSymbol(o1)], [f]))
         == Run(d, s, q7, Stacks([Function(f, Binary(o1, a, b))], ['(', '('], []))
  {
    assert [] + [a] + [b] == [a, b] && ['('] + ['('] + ['('] + [OpSymbol(o1)] == ['(', '(', '(', OpSymbol(o1)];
    assert [] + [Function(f, Binary(o1, a, b))] == [Function(f, Binary(o1, a, b))] && ['('] + ['('] == ['(', '('];
    CloseOperationArgument([], ['('], f, o1, a, b);
    CloseStep(d, s, q6, Stacks([a, b], ['(', '(', '(', OpSymbol(o1)], [f]));
  }

  /** `o2 c))` : the remaining parentheses only group and discard their '('. */
  lemma MisparsedOuter<T>(d: Domain<T>, o2: BinOp, x: Node<T>, c: Node<T>, s: string, q7: nat, q9: nat)
    requires q9 == q7 + 1 + |ToString(d, c)| && q9 + 2 == |s|
    requires s[q7] == OpSymbol(o2) && Closed(d, c) && Occurs(s, q7 + 1, ToString(d, c))
    requires s[q9] == ')' && s[q9 + 1] == ')'
    ensures Run(d, s, q7, Stacks([x], ['(', '('], [])) == Ok(Stacks([Binary(o2, x, c)], [], []))
  {
    MisparsedOperand(d, o2, x, c, s, q7, q9);
    MisparsedClose(d, o2, x, c, s, q9);
  }

  lemma MisparsedOperand<T>(d: Domain<T>, o2: BinOp, x: Node<T>, c: Node<T>, s: string, q7: nat, q9: nat)
    requires q9 == q7 + 1 + |ToString(d, c)| && q9 < |s|
    requires s[q7] == OpSymbol(o2) && Closed(d, c) && Occurs(s, q7 + 1, ToString(d, c)) && s[q9] == ')'
    ensures Run(d, s, q7, Stacks([x], ['(', '('], [])) == Run(d, s, q9, Stacks([x, c], ['(', '(', OpSymbol(o2)], []))
  {
    assert OperatorOf(OpSymbol(o2)).Some?;
    PushOverOpenParen(Stacks([x], ['(', '('], []), OpSymbol(o2));
    assert ['(', '('] + [OpSymbol(o2)] == ['(', '(', OpSymbol(o2)];
    OperatorPush(d, s, q7, q7 + 1, Stacks([x], ['(', '('], []), Stacks([x], ['(', '(', OpSymbol(o2)], []));
    assert [x] + [c] == [x, c];
    ClosedTermStep(d, c, s, q7 + 1, q9, [x], ['(', '(', OpSymbol(o2)], []);
  }

  lemma MisparsedClose<T>(d: Domain<T>, o2: BinOp, x: Node<T>, c: Node<T>, s: string, q9: nat)
    requires q9 + 2 == |s| && s[q9] == ')' && s[q9 + 1] == ')'
    ensures Run(d, s, q9, Stacks([x, c], ['(', '(', OpSymbol(o2)], [])) == Ok(Stacks([Binary(o2, x, c)], [], []))
  {
    var y := Binary(o2, x, c);
    CloseBinary([], ['('], o2, x, c);
    assert [] + [x] + [c] == [x, c] && ['('] + ['('] + [OpSymbol(o2)] == ['(', '(', OpSymbol(o2)];
    CloseStep(d, s, q9, Stacks([x, c], ['(', '(', OpSymbol(o2)], []));
    assert [] + [y] == [y];
    CloseBareParen([y], []);
    assert [] + ['('] == ['('];
    CloseStep(d, s, q9 + 1, Stacks([y], ['('], []));
  }
}
