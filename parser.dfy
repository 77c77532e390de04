/**
 * parseExpression of rep/MathExpr.hpp: a shunting-yard scanner over three
 * stacks (values, operators, pending functions).  The functions below give the
 * meaning of each step on the three stacks, over the unread suffix of the
 * input; the method `Parse` is the source's loop, proved to compute `ParseSpec`.
 * Stack pops the source leaves unchecked are an explicit StackUnderflow here.
 */
module Parser {
  import opened Outcomes
  import opened Scalar
  import opened Text
  import opened Tree

  /** isOperator. */
  predicate IsOperator(c: char): (b: bool)
    ensures b ==> !IsSpace(c) && !IsNumeralChar(c) && !IsAlpha(c) && c != '(' && c != ')'
  {
    c == '+' || c == '-' || c == '*' || c == '/' || c == '^'
  }

  /** getPrecedence: '^' 4, '*' and '/' 3, '+' and '-' 2, anything else (such as '(') 0. */
  function Precedence(c: char): (p: nat)
    ensures p > 0 <==> IsOperator(c)
    ensures p <= 4
  {
    if c == '^' then 4
    else if c == '*' || c == '/' then 3
    else if c == '+' || c == '-' then 2
    else 0
  }

  /** isFunction: the letter runs that name a function. */
  function FunctionNamed(token: string): (f: Option<Func>)
    ensures f.Some? <==> token == "sin" || token == "cos" || token == "exp" || token == "ln"
    ensures f.Some? ==> FuncName(f.value) == token
  {
    if token == "sin" then Some(Sin)
    else if token == "cos" then Some(Cos)
    else if token == "exp" then Some(Exp)
    else if token == "ln" then Some(Ln)
    else None
  }

  /** The node kind applyOperation builds for an operator character. */
  function OperatorOf(c: char): (op: Option<BinOp>)
    ensures op.Some? <==> IsOperator(c)
    ensures op.Some? ==> OpSymbol(op.value) == c
  {
    if c == '+' then Some(Add)
    else if c == '-' then Some(Subtract)
    else if c == '*' then Some(Multiply)
    else if c == '/' then Some(Divide)
    else if c == '^' then Some(Power)
    else None
  }

  /** The three std::stacks; the top of each is its last element. */
  datatype Stacks<T> = Stacks(values: seq<Node<T>>, operators: seq<char>, functions: seq<Func>)

  function Top<X>(s: seq<X>): X
    requires s != []
  {
    s[|s| - 1]
  }

  function Pop<X>(s: seq<X>): seq<X>
    requires s != []
  {
    s[..|s| - 1]
  }

  /**
   * The applyOperation lambda: pop an operator and two values, push the raw
   * binary node (Expression's operators build it without simplification).
   */
  function ApplyOperation<T>(st: Stacks<T>): (r: Result<Stacks<T>, Error>)
    requires st.operators != []
    ensures r.Err? <==> |st.values| < 2 || !IsOperator(Top(st.operators))
    ensures r.Err? ==> r.error == (if |st.values| < 2 then StackUnderflow else InvalidOperator(Top(st.operators)))
    ensures r.Ok? ==> r.value.operators == Pop(st.operators) && r.value.functions == st.functions
    ensures r.Ok? ==> |r.value.values| + 1 == |st.values| && Pop(r.value.values) == st.values[..|st.values| - 2]
    ensures r.Ok? ==>
      IsOperator(Top(st.operators)) && |st.values| >= 2 &&
      Top(r.value.values) == Binary(OperatorOf(Top(st.operators)).value, st.values[|st.values| - 2], Top(st.values))
  {
    var op := Top(st.operators);
    if |st.values| < 2 then Err(StackUnderflow)
    else
      var right := st.values[|st.values| - 1];
      var left := st.values[|st.values| - 2];
      match OperatorOf(op)
      case None => Err(InvalidOperator(op))
      case Some(o) =>
        Ok(Stacks(st.values[..|st.values| - 2] + [Binary(o, left, right)], Pop(st.operators), st.functions))
  }

  /** The applyFunction lambda: pop the latest pending function and apply it to the top value. */
  function ApplyFunction<T>(st: Stacks<T>): (r: Result<Stacks<T>, Error>)
    requires st.functions != []
    ensures r.Err? <==> st.values == []
    ensures r.Err? ==> r.error == StackUnderflow
    ensures r.Ok? ==> r.value.operators == st.operators && r.value.functions == Pop(st.functions)
    ensures r.Ok? ==> st.values != [] && r.value.values == Pop(st.values) + [Function(Top(st.functions), Top(st.values))]
  {
    if st.values == [] then Err(StackUnderflow)
    else Ok(Stacks(Pop(st.values) + [Function(Top(st.functions), Top(st.values))], st.operators, Pop(st.functions)))
  }

  /**
   * The loop an incoming operator runs: apply stacked operators while their
   * precedence is at least p.  For an operator (p > 0) this never reaches a
   * '(' (precedence 0), so the only possible error is a value-stack underflow.
   */
  function ApplyWhileAtLeast<T>(st: Stacks<T>, p: nat): (r: Result<Stacks<T>, Error>)
    ensures r.Ok? ==> r.value.functions == st.functions
    ensures r.Ok? ==> r.value.operators <= st.operators
    ensures r.Ok? ==> r.value.operators == [] || Precedence(Top(r.value.operators)) < p
    ensures r.Err? && p > 0 ==> r.error == StackUnderflow
    decreases |st.operators|
  {
    if st.operators != [] && Precedence(Top(st.operators)) >= p then
      var next :- ApplyOperation(st);
      ApplyWhileAtLeast(next, p)
    else Ok(st)
  }

  /** The operator stack only ever holds '(' and operator characters. */
  predicate OperatorsWellFormed(ops: seq<char>) {
    forall j :: 0 <= j < |ops| ==> ops[j] == '(' || IsOperator(ops[j])
  }

  /** The loop a ')' runs: apply stacked operators down to the nearest '('. */
  function ApplyToParen<T>(st: Stacks<T>): (r: Result<Stacks<T>, Error>)
    ensures r.Ok? ==> r.value.functions == st.functions
    ensures r.Err? ==> r.error == StackUnderflow || r.error.InvalidOperator?
    ensures r.Err? && OperatorsWellFormed(st.operators) ==> r.error == StackUnderflow
    ensures r.Ok? ==> r.value.operators <= st.operators
    ensures r.Ok? ==> r.value.operators == [] || Top(r.value.operators) == '('
    decreases |st.operators|
  {
    if st.operators != [] && Top(st.operators) != '(' then
      var next :- ApplyOperation(st);
      ApplyToParen(next)
    else Ok(st)
  }

  /** The loop at the end of the input: apply every stacked operator. */
  function ApplyAll<T>(st: Stacks<T>): (r: Result<Stacks<T>, Error>)
    ensures r.Ok? ==> r.value.operators == [] && r.value.functions == st.functions
    ensures r.Err? ==> r.error == StackUnderflow || r.error.InvalidOperator?
    ensures r.Err? && OperatorsWellFormed(st.operators) ==> r.error == StackUnderflow || r.error == InvalidOperator('(')
    decreases |st.operators|
  {
    if st.operators != [] then
      var next :- ApplyOperation(st);
      ApplyAll(next)
    else Ok(st)
  }

  /**
   * A ')': apply operators down to '(', discard it (an unchecked pop when
   * there is none), then apply the latest pending function, if there is one,
   * whichever parenthesis was closed.
   */
  function CloseParen<T>(st: Stacks<T>): (r: Result<Stacks<T>, Error>)
    ensures r.Err? ==> r.error == StackUnderflow || r.error.InvalidOperator?
    ensures r.Err? && OperatorsWellFormed(st.operators) ==> r.error == StackUnderflow
    ensures r.Ok? ==> r.value.operators < st.operators
    ensures r.Ok? ==> r.value.functions == (if st.functions == [] then [] else Pop(st.functions))
    ensures r.Ok? && st.functions != [] ==>
      ApplyToParen(st).Ok? && ApplyToParen(st).value.values != [] && r.value.values != [] &&
      Top(r.value.values) == Function(Top(st.functions), Top(ApplyToParen(st).value.values))
  {
    var inner :- ApplyToParen(st);
    if inner.operators == [] then Err(StackUnderflow)
    else
      var popped := inner.(operators := Pop(inner.operators));
      if popped.functions != [] then ApplyFunction(popped) else Ok(popped)
  }

  /** An operator character: apply what binds at least as tightly, then push it. */
  function PushOperator<T>(st: Stacks<T>, c: char): (r: Result<Stacks<T>, Error>)
    ensures r.Ok? ==> r.value.operators != [] && Pop(r.value.operators) <= st.operators && Top(r.value.operators) == c
  {
    var reduced :- ApplyWhileAtLeast(st, Precedence(c));
    Ok(reduced.(operators := reduced.operators + [c]))
  }

  /** A letter run: a function name goes on the function stack, anything else is a Variable. */
  function PushWord<T>(st: Stacks<T>, token: string): Stacks<T> {
    match FunctionNamed(token)
    case Some(f) => st.(functions := st.functions + [f])
    case None => st.(values := st.values + [Variable(token)])
  }

  /** A character no branch of the scanner accepts: "Invalid character in input". */
  predicate Unexpected(c: char) {
    !IsSpace(c) && !IsNumeralChar(c) && !IsAlpha(c) && c != '(' && c != ')' && !IsOperator(c)
  }

  /** The stacks after one token, and how many characters the token spans. */
  datatype Scanned<T> = Scanned(stacks: Stacks<T>, width: nat)

  /**
   * One pass of the scanning loop at index i of the input: blanks are
   * skipped, a run of digits and points is a number, a run of letters a
   * function name or a variable, and anything else that is not a parenthesis
   * or an operator is rejected.
   */
  function Step<T>(d: Domain<T>, input: string, i: nat, st: Stacks<T>): (r: Result<Scanned<T>, Error>)
    requires i < |input|
    ensures r.Ok? ==> 1 <= r.value.width <= |input| - i
    ensures r.Ok? ==> forall j :: i <= j < i + r.value.width ==> !Unexpected(input[j])
    ensures r.Err? && r.error.InvalidCharacter? <==> Unexpected(input[i])
    ensures r.Err? && r.error.InvalidCharacter? ==> r.error == InvalidCharacter(input[i], i)
    ensures r.Err? ==> ParseError(r.error) && !r.error.InvalidExpression?
  {
    var c := input[i];
    if IsSpace(c) then Ok(Scanned(st, 1))
    else if IsNumeralChar(c) then
      var k := NumeralEnd(input, i);
      var number := input[i..k];
      match ReadDecimal(number)
      case None => Err(InvalidNumber(number))
      case Some(x) => Ok(Scanned(st.(values := st.values + [Constant(d.ofReal(x))]), k - i))
    else if IsAlpha(c) then
      var k := LetterEnd(input, i);
      Ok(Scanned(PushWord(st, input[i..k]), k - i))
    else if c == '(' then Ok(Scanned(st.(operators := st.operators + ['(']), 1))
    else if c == ')' then
      var next :- CloseParen(st);
      Ok(Scanned(next, 1))
    else if IsOperator(c) then
      var next :- PushOperator(st, c);
      Ok(Scanned(next, 1))
    else Err(InvalidCharacter(c, i))
  }

  /** The errors scanning can raise; evaluation errors never come from parsing. */
  predicate ParseError(e: Error) {
    e.InvalidCharacter? || e.InvalidNumber? || e.StackUnderflow? || e.InvalidOperator? || e.InvalidExpression?
  }

  /** The scanning loop from index i to the end of the input. */
  function Run<T>(d: Domain<T>, input: string, i: nat, st: Stacks<T>): (r: Result<Stacks<T>, Error>)
    requires i <= |input|
    ensures r.Err? ==> ParseError(r.error) && !r.error.InvalidExpression?
    decreases |input| - i
  {
    if i == |input| then Ok(st)
    else
      var next :- Step(d, input, i, st);
      Run(d, input, i + next.width, next.stacks)
  }

  /** End of input: apply every operator left; exactly one value must remain. */
  function Finish<T>(st: Stacks<T>): (r: Result<Node<T>, Error>)
    ensures r.Ok? <==> ApplyAll(st).Ok? && |ApplyAll(st).value.values| == 1
    ensures r.Ok? ==> ApplyAll(st).value.values == [r.value]
    ensures r.Err? && ApplyAll(st).Err? ==> r.error == ApplyAll(st).error
    ensures r.Err? && ApplyAll(st).Ok? ==> r.error == InvalidExpression
  {
    var done :- ApplyAll(st);
    if |done.values| != 1 then Err(InvalidExpression) else Ok(done.values[0])
  }

  /** The rest of parseExpression from index i of the input on. */
  function ParseFrom<T>(d: Domain<T>, input: string, i: nat, st: Stacks<T>): (r: Result<Node<T>, Error>)
    requires i <= |input|
    ensures r.Err? ==> ParseError(r.error)
  {
    var scanned :- Run(d, input, i, st);
    Finish(scanned)
  }

  /** What parseExpression computes; it never raises an evaluation error. */
  function ParseSpec<T>(d: Domain<T>, input: string): (r: Result<Node<T>, Error>)
    ensures input == [] ==> r == Err(InvalidExpression)
    ensures r.Err? ==> ParseError(r.error)
  {
    ParseFrom(d, input, 0, Stacks([], [], []))
  }

  /** The inner loop over a numeric literal: the index just past the run and its text. */
  method ScanNumeral(input: string, start: nat) returns (number: string, next: nat)
    requires start <= |input|
    ensures next == NumeralEnd(input, start)
    ensures number == input[start..next]
  {
    next := start;
    number := "";
    while next < |input| && (IsDigit(input[next]) || input[next] == '.')
      invariant start <= next <= |input|
      invariant number == input[start..next]
      invariant NumeralEnd(input, start) == NumeralEnd(input, next)
      decreases |input| - next
    {
      number := number + [input[next]];
      next := next + 1;
    }
  }

  /** The inner loop over a word: the index just past the run of letters and its text. */
  method ScanWord(input: string, start: nat) returns (token: string, next: nat)
    requires start <= |input|
    ensures next == LetterEnd(input, start)
    ensures token == input[start..next]
  {
    next := start;
    token := "";
    while next < |input| && IsAlpha(input[next])
      invariant start <= next <= |input|
      invariant token == input[start..next]
      invariant LetterEnd(input, start) == LetterEnd(input, next)
      decreases |input| - next
    {
      token := token + [input[next]];
      next := next + 1;
    }
  }

  /** The ')' case: the loop down to '(', the pop of '(' and the pending-function application. */
  method ClosingParenthesis<T>(st: Stacks<T>) returns (r: Result<Stacks<T>, Error>)
    ensures r == CloseParen(st)
  {
    var values, operators, functions := st.values, st.operators, st.functions;
    while operators != [] && Top(operators) != '('
      invariant ApplyToParen(Stacks(values, operators, functions)) == ApplyToParen(st)
      decreases |operators|
    {
      var applied := ApplyOperation(Stacks(values, operators, functions));
      if applied.Err? {
        return Err(applied.error);
      }
      values, operators, functions := applied.value.values, applied.value.operators, applied.value.functions;
    }
    if operators == [] {
      return Err(StackUnderflow);
    }
    operators := Pop(operators);
    if functions != [] {
      r := ApplyFunction(Stacks(values, operators, functions));
    } else {
      r := Ok(Stacks(values, operators, functions));
    }
  }

  /** The operator case: the loop over operators that bind at least as tightly, then the push. */
  method IncomingOperator<T>(st: Stacks<T>, c: char) returns (r: Result<Stacks<T>, Error>)
    ensures r == PushOperator(st, c)
  {
    var values, operators, functions := st.values, st.operators, st.functions;
    while operators != [] && Precedence(Top(operators)) >= Precedence(c)
      invariant ApplyWhileAtLeast(Stacks(values, operators, functions), Precedence(c))
             == ApplyWhileAtLeast(st, Precedence(c))
      decreases |operators|
    {
      var applied := ApplyOperation(Stacks(values, operators, functions));
      if applied.Err? {
        return Err(applied.error);
      }
      values, operators, functions := applied.value.values, applied.value.operators, applied.value.functions;
    }
    r := Ok(Stacks(values, operators + [c], functions));
  }

  /** The end of parseExpression: the loop that empties the operator stack, then the single-value check. */
  method EndOfInput<T>(st: Stacks<T>) returns (r: Result<Node<T>, Error>)
    ensures r == Finish(st)
  {
    var values, operators, functions := st.values, st.operators, st.functions;
    while operators != []
      invariant ApplyAll(Stacks(values, operators, functions)) == ApplyAll(st)
      decreases |operators|
    {
      var applied := ApplyOperation(Stacks(values, operators, functions));
      if applied.Err? {
        return Err(applied.error);
      }
      values, operators, functions := applied.value.values, applied.value.operators, applied.value.functions;
    }
    if |values| != 1 {
      return Err(InvalidExpression);
    }
    r := Ok(Top(values));
  }

  /** The body of parseExpression's loop for the character at index i. */
  method ScanToken<T>(d: Domain<T>, input: string, i: nat, st: Stacks<T>) returns (r: Result<Scanned<T>, Error>)
    requires i < |input|
    ensures r == Step(d, input, i, st)
  {
    var current := input[i];
    if IsSpace(current) {
      r := Ok(Scanned(st, 1));
    } else if IsDigit(current) || current == '.' {
      var number, next := ScanNumeral(input, i);
      match ReadDecimal(number)
      case None =>
        r := Err(InvalidNumber(number));
      case Some(x) =>
        r := Ok(Scanned(st.(values := st.values + [Constant(d.ofReal(x))]), next - i));
    } else if IsAlpha(current) {
      var token, next := ScanWord(input, i);
      match FunctionNamed(token)
      case Some(f) =>
        r := Ok(Scanned(st.(functions := st.functions + [f]), next - i));
      case None =>
        r := Ok(Scanned(st.(values := st.values + [Variable(token)]), next - i));
    } else if current == '(' {
      r := Ok(Scanned(st.(operators := st.operators + [current]), 1));
    } else if current == ')' {
      var closed := ClosingParenthesis(st);
      if closed.Err? {
        return Err(closed.error);
      }
      r := Ok(Scanned(closed.value, 1));
    } else if IsOperator(current) {
      var pushed := IncomingOperator(st, current);
      if pushed.Err? {
        return Err(pushed.error);
      }
      r := Ok(Scanned(pushed.value, 1));
    } else {
      r := Err(InvalidCharacter(current, i));
    }
  }

  /** parseExpression: one pass over the input, with an index that the literal scans advance. */
  method Parse<T>(d: Domain<T>, input: string) returns (r: Result<Node<T>, Error>)
    ensures r == ParseSpec(d, input)
  {
    var st: Stacks<T> := Stacks([], [], []);
    var i := 0;
    while i < |input|
      invariant 0 <= i <= |input|
      invariant ParseFrom(d, input, i, st) == ParseSpec(d, input)
      decreases |input| - i
    {
      var scanned := ScanToken(d, input, i, st);
      if scanned.Err? {
        return Err(scanned.error);
      }
      st := scanned.value.stacks;
      i := i + scanned.value.width;
    }
    r := EndOfInput(st);
  }
}
