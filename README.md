# Symbolic expressions: a verified model

This project models the symbolic-expression engine of the Expression repository in Dafny, and proves what that engine guarantees.

The repository has two versions of the engine:

- **The generic engine of `rep/MathExpr.hpp`.** It is a template over a scalar that is either `long double` or `std::complex<long double>`.
  - A closed tree of nodes: constant, variable, binary operation, function.
  - Each node has `eval`, `toString`, `copy` and `diff`.
  - Rewrite rules drop identities and fold constants. Every node the differentiator builds goes through them.
  - `parseExpression` is a shunting-yard parser over three stacks.
  - `is_complex` and `ParseComplex` recognise and split complex literals.
- **The older real-only tree of `Expression.cpp`.** It has `NumberNode`, `SymbolNode`, `BinaryOpNode` and `FunctionNode`, with `evaluate`, `toString` and `clone`. It also has a loop-based `power` and a `MathExpression` handle whose `root` pointer is set by constructors, assignments and operators.

The modules follow that structure:

- **`Outcomes`:** `Option` and `Result`. A thrown exception becomes an `Err`.
- **`Scalar`:** the scalar type as a `Domain<T>` record, with the real and complex instantiations.
  - The floating-point library (`pow`, `sin`, `cos`, `exp`, `log`, number formatting) enters as function-valued fields.
  - `Lawful` collects the identities the rewrite rules rely on.
- **`Tree`:** the node datatype, `Eval`, `ToString` and `Copy`, and the errors the engine throws.
- **`Simplify`:**
  - `isZero`, `isOne` and the four `simplify*` rules.
  - Each rule's soundness: where the unsimplified node evaluates, the simplified one gives the same value.
- **`Derivative`:**
  - `diff`.
  - The literal-zero derivative for an absent variable.
  - The `ln(0)` failure.
  - The sum, difference, product, quotient, power and chain rules, stated as evaluation equalities.
- **`Text`:** the C-locale character classes, the literal scans, `std::stold` on a digit run, `find` and `find_last_of`.
- **`Parser`:** `parseExpression`.
  - Each step of the loop is a function on the three stacks, over an index into the input.
  - The method `Parse` is the loop itself, with its inner scans. Where the source's inner scans stop one character past the token, step back with `--i` (rep/MathExpr.hpp:600, 609) and then take the loop's `++i`, `Parse` advances once by the token's width. It is proved to compute `ParseSpec`.
  - A pop the source leaves unchecked becomes an explicit `StackUnderflow` error.
- **`ParserLaws`:** what the parser guarantees.
  - It reads `toString`'s fully parenthesised output back as the same tree.
  - Precedence, and left associativity for every operator including `^`.
  - Where each error comes from.
- **`ParserMatched`:** `parseExpression` with its `)` corrected (see Findings).
  - A pending function remembers the operator-stack depth of the `(` after its name. A `)` applies it only when it pops that `(`.
  - With this change every printed tree of read-back leaves parses back as itself, nested function arguments included.
- **`ComplexLiteral`:**
  - `is_complex` as its `find` loop, proved against a declarative predicate.
  - `ParseComplex` as written, and with the sign search bounded as evidently intended (see Findings).
- **`Legacy`:** the `Expression.cpp` tree.
  - `power` as a loop proved against `PowerValue`.
  - `evaluate`, `toString` and `clone`.
  - `MathExpression` as a class whose `root` field the constructors and assignments set.

`Expression::operator+` and its siblings (rep/MathExpr.hpp:237-256) build raw nodes with no rewrite, and so does the parser's `applyOperation` (rep/MathExpr.hpp:540-568). The model follows them. `ParseToStringRoundTrip` relies on this: it returns exactly the printed tree.

Two other behaviours of the code are kept as they are:

- A `)` applies the most recent pending function whichever parenthesis it closes. `ParserLaws.NestedArgumentMisparsed` shows what this does to `sin(((x+y)*z))`, and `ParserMatched` models the corrected version (see Findings).
- Functions still pending at the end of the input are dropped.

## Model

| member | source | states |
|---|---|---|
| Tree.Lookup | rep/MathExpr.hpp:105-115 | A variable fails exactly when it is unbound and is not the complex imaginary unit, and the error names it. A bound variable other than the complex "i" has its bound value, in both instantiations. In the complex instantiation "i" is (0,1) whatever the bindings say. |
| Tree.ApplyBinary | rep/MathExpr.hpp:140-156 | Combining two operand values fails exactly for a division whose divisor equals T(0), with "Division by zero". |
| Tree.ApplyFunction | rep/MathExpr.hpp:182-199 | Applying a function fails exactly for ln of an argument outside the domain, with "Ln domain error". |
| Tree.Eval | rep/MathExpr.hpp:137-157 | Evaluation raises only three errors. An unbound variable is named, and occurs in the tree. "Division by zero" needs a division in the tree. "Ln domain error" needs an ln in the tree. Conversely, a tree whose variables are all bound and which holds no division and no ln always evaluates. |
| Tree.ToString | rep/MathExpr.hpp:158-160 | A binary node prints as a parenthesised text: at least three characters, opening with "(" and closing with ")". |
| Tree.Copy | rep/MathExpr.hpp:162-165 | copy returns a tree equal to the original. |
| Tree.ComplexEvalNoLnError | rep/MathExpr.hpp:189-196 | In the complex instantiation, evaluation never raises the ln domain error. |
| Tree.ComplexImaginaryUnit | rep/MathExpr.hpp:106-110 | In the complex instantiation, Variable "i" evaluates to (0,1) under any bindings. |
| Scalar.RealDomain | rep/MathExpr.hpp:190-195 | The real instantiation has no imaginary unit, and ln is undefined exactly for arguments at or below 0. |
| Scalar.ComplexDomain | rep/MathExpr.hpp:106-110 | The complex instantiation's imaginary unit is (0,1), and ln is never undefined. |
| Scalar.ComplexToString | rep/MathExpr.hpp:22-25 | complexToString prints "(", the real part's text, ",", the imaginary part's text and ")", each part through std::to_string. |
| Scalar.RealDomainLawful | rep/MathExpr.hpp:16-17 | Exact long double arithmetic satisfies every identity the rewrites rely on, given pow(x,1)=x and pow(x,0)=1. |
| Scalar.ComplexDomainLawful | rep/MathExpr.hpp:17 | Exact complex arithmetic satisfies every identity the rewrites rely on, given the same two pow identities. |
| Simplify.IsZero | rep/MathExpr.hpp:457-461 | isZero holds exactly for a constant node equal to T(0). |
| Simplify.IsOne | rep/MathExpr.hpp:451-455 | isOne holds exactly for a constant node equal to T(1). |
| Simplify.SimplifyAdd | rep/MathExpr.hpp:287-298 | A literal 0 on either side gives the other side. Two other constants fold into their sum. Anything else is the raw Add node. |
| Simplify.SimplifyMultiply | rep/MathExpr.hpp:300-313 | A literal 1 on either side gives the other side. Otherwise a literal 0 on either side gives Constant 0. Two other constants fold into their product. Anything else is the raw Multiply node. |
| Simplify.SimplifyPower | rep/MathExpr.hpp:333-344 | An exponent of literal 1 gives the base. Otherwise an exponent of literal 0 gives Constant 1. Two other constants fold through pow. Anything else is the raw Power node. |
| Simplify.SimplifyDivide | rep/MathExpr.hpp:316-331 | A literal 1 divisor gives the dividend. Otherwise a literal 0 dividend gives Constant 0. Two other constants fold into their quotient when the divisor is not 0, and throw "Division by zero" when it is; that is the only throw. Anything else is the raw Divide node. |
| Simplify.SimplifyNeverGrows | rep/MathExpr.hpp:287-344 | No rewrite returns a tree larger than the operator node it replaces. |
| Simplify.SimplifyDivideZeroByZero | rep/MathExpr.hpp:316-320 | 0/0 simplifies to Constant 0, because the zero-numerator rule comes before the fold. |
| Simplify.SimplifyMultiplyZeroWins | rep/MathExpr.hpp:300-306 | A literal 0 on either side gives Constant 0, even when the other side cannot be evaluated. |
| Simplify.SimplifyAddSound | rep/MathExpr.hpp:287-298 | Where l + r evaluates, simplifyAdd(l, r) evaluates to the same value. |
| Simplify.SimplifyMultiplySound | rep/MathExpr.hpp:300-313 | Where l * r evaluates, simplifyMultiply(l, r) evaluates to the same value. |
| Simplify.SimplifyDivideSound | rep/MathExpr.hpp:316-331 | Where l / r evaluates, simplifyDivide does not throw and evaluates to the same value. |
| Simplify.SimplifyPowerSound | rep/MathExpr.hpp:333-344 | Where l ^ r evaluates, simplifyPower(l, r) evaluates to the same value. |
| Derivative.Diff | rep/MathExpr.hpp:346-443 | diff raises no error other than "Division by zero". |
| Derivative.DiffAbsentVariable | rep/MathExpr.hpp:90-92 | Differentiating by a variable the tree does not mention yields exactly Constant 0, unless the tree holds ln(0). |
| Derivative.DiffLnOfZeroFails | rep/MathExpr.hpp:432-437 | A subtree ln(c) with a literal c equal to 0 makes diff throw "Division by zero". |
| Derivative.DiffSumRule | rep/MathExpr.hpp:352-354 | d(a+b) does not throw and evaluates like da + db. |
| Derivative.DiffDifferenceRule | rep/MathExpr.hpp:355-361 | d(a-b) is built as da + (-1)*db and evaluates like da - db. |
| Derivative.DiffProductRule | rep/MathExpr.hpp:363-366 | d(l*r) evaluates like dl*r + l*dr. |
| Derivative.DiffQuotientRule | rep/MathExpr.hpp:368-380 | d(l/r) evaluates like (dl*r - l*dr) / r^2. |
| Derivative.DiffPowerRule | rep/MathExpr.hpp:383-394 | d(l^r) evaluates like l^r * (dr*ln(l) + r*(dl/l)). |
| Derivative.DiffChainRule | rep/MathExpr.hpp:403-443 | d f(a), for f among sin, cos, exp and ln, evaluates like f'(a) * da. |
| Text.NumeralEnd | rep/MathExpr.hpp:594-600 | The numeral scan stops just past the maximal run of digits and points. |
| Text.LetterEnd | rep/MathExpr.hpp:605-609 | The word scan stops just past the maximal run of letters. |
| Text.ReadDecimal | rep/MathExpr.hpp:601 | std::stold on a digit-and-point token fails exactly when the token does not start with a digit or with '.' followed by a digit, and otherwise gives a value of at least 0. |
| Text.FindFrom | rep/MathExpr.hpp:481 | find returns the first index at or after the start holding the character, or the length (npos). |
| Text.FindLastOf | rep/MathExpr.hpp:518 | find_last_of returns the last index below the bound holding one of the characters, or None when there is none. |
| Parser.Precedence | rep/MathExpr.hpp:463-468 | The precedence is positive exactly for the five operators, and at most 4. |
| Parser.IsOperator | rep/MathExpr.hpp:469-472 | The five operator characters belong to no other class the scanner tests: not blank, digit, point, letter or parenthesis. |
| Parser.FunctionNamed | rep/MathExpr.hpp:474-477 | A token names a function exactly when it is sin, cos, exp or ln, and that function prints as the token. |
| Parser.OperatorOf | rep/MathExpr.hpp:549-567 | An operator character maps to the binary node that prints as that character, and no other character maps to a node. |
| Parser.ApplyOperation | rep/MathExpr.hpp:540-568 | It fails exactly on fewer than two values (underflow) or a non-operator on top ("Invalid operator"). Otherwise it pops one operator and the two top values, and pushes the raw binary node of that operator over them, the deeper value on the left. |
| Parser.ApplyFunction | rep/MathExpr.hpp:570-587 | It fails exactly on an empty value stack. Otherwise it pops the latest pending function and replaces the top value by that function applied to it. |
| Parser.ApplyWhileAtLeast | rep/MathExpr.hpp:634-637 | It leaves a prefix of the operator stack whose top binds less tightly than the incoming operator. For an operator, its only error is underflow. |
| Parser.ApplyToParen | rep/MathExpr.hpp:623-625 | It leaves a prefix of the operator stack that is empty or topped by '('. On a well-formed stack, its only error is underflow. |
| Parser.ApplyAll | rep/MathExpr.hpp:646-648 | It empties the operator stack. On a well-formed stack, it fails only by underflow or on a leftover '('. |
| Parser.CloseParen | rep/MathExpr.hpp:622-631 | A ")" strictly shrinks the operator stack. On a well-formed stack, its only error is underflow. When a function is pending, it pops the latest one and the top value becomes that function applied to the value left by the operators down to "(", whichever "(" was closed. |
| Parser.PushOperator | rep/MathExpr.hpp:633-639 | An operator ends on top of a prefix of the previous operator stack. |
| Parser.Step | rep/MathExpr.hpp:589-644 | One pass consumes between 1 and the remaining characters, all of them acceptable. It reports "Invalid character" exactly when the current character is unexpected; the error carries that character and its index. |
| Parser.ScanNumeral | rep/MathExpr.hpp:594-600 | The inner numeral loop returns the index NumeralEnd gives, and the text between. |
| Parser.ScanWord | rep/MathExpr.hpp:605-609 | The inner word loop returns the index LetterEnd gives, and the text between. |
| Parser.Run | rep/MathExpr.hpp:589-644 | The scanning loop only raises parse errors, and never the final "Invalid expression". |
| Parser.Finish | rep/MathExpr.hpp:646-654 | The end of input succeeds exactly when applying every stacked operator leaves one value, which is the result. Otherwise it fails with that loop's error or "Invalid expression". |
| Parser.ParseSpec | rep/MathExpr.hpp:534-655 | parseExpression raises only parse errors, and the empty text is an invalid expression. |
| Parser.ClosingParenthesis | rep/MathExpr.hpp:622-631 | The ')' branch's loops compute CloseParen. |
| Parser.IncomingOperator | rep/MathExpr.hpp:633-639 | The operator branch's loop computes PushOperator. |
| Parser.EndOfInput | rep/MathExpr.hpp:646-654 | The final loop and the single-value check compute Finish. |
| Parser.ScanToken | rep/MathExpr.hpp:590-643 | One iteration of the main loop computes Step. |
| Parser.Parse | rep/MathExpr.hpp:534-655 | parseExpression computes ParseSpec. |
| ParserLaws.LetterEndAt | rep/MathExpr.hpp:606-609 | A run of n letters, followed by a non-letter or the end, is scanned to exactly n places on. |
| ParserLaws.NumeralEndAt | rep/MathExpr.hpp:596-600 | A run of n digits and points, followed by anything else, is scanned to exactly n places on. |
| ParserLaws.RunAfterStep | rep/MathExpr.hpp:589-644 | The whole scan is one pass followed by the scan from where that pass stopped, or the pass's error. |
| ParserLaws.ScanPass | rep/MathExpr.hpp:589-644 | The same relation as RunAfterStep, for a named pass result. |
| ParserLaws.WordStep | rep/MathExpr.hpp:604-616 | A variable name followed by a delimiter pushes one Variable. |
| ParserLaws.NumeralStep | rep/MathExpr.hpp:594-602 | A printed constant that reads back, followed by a delimiter, pushes that constant. |
| ParserLaws.OpenStep | rep/MathExpr.hpp:618-620 | A '(' is pushed on the operator stack. |
| ParserLaws.CloseStep | rep/MathExpr.hpp:622-631 | A ')' continues the scan with CloseParen's stacks, or fails with its error. |
| ParserLaws.OperatorStep | rep/MathExpr.hpp:633-639 | An operator continues the scan with PushOperator's stacks, or fails with its error. |
| ParserLaws.SpaceStep | rep/MathExpr.hpp:592 | A blank changes nothing. |
| ParserLaws.PushOverOpenParen | rep/MathExpr.hpp:634-638 | An operator right after '(' applies nothing and is pushed. |
| ParserLaws.CloseBinary | rep/MathExpr.hpp:622-631 | ')' after "( l op r" leaves the node l op r and discards the '('. |
| ParserLaws.TermStep | rep/MathExpr.hpp:589-644 | The printed form of a printable tree, followed by a delimiter, pushes exactly that tree and leaves the operator stack as it was. |
| ParserLaws.BinaryTermStep | rep/MathExpr.hpp:618-631 | The same for a fully parenthesised binary node. |
| ParserLaws.ClosedTermStep | rep/MathExpr.hpp:589-644 | The printed form of a leaf, or of functions nested over a leaf, pushes exactly that tree whatever functions are already pending. |
| ParserLaws.FunctionTermStep | rep/MathExpr.hpp:604-631 | For f(a) with such an argument, the ")" of f applies f and leaves the pending functions as they were. |
| ParserLaws.ParenArgTermStep | rep/MathExpr.hpp:604-631 | For f((l op r)) with nothing pending, the inner ")" builds the operation and applies f to it, and the outer ")" only discards its "(". |
| ParserLaws.FunctionOpenSteps | rep/MathExpr.hpp:604-620 | "f(" puts f on the function stack and "(" on the operator stack. |
| ParserLaws.CloseFunction | rep/MathExpr.hpp:622-631 | ")" after "f( a" discards the "(" and applies f to a. |
| ParserLaws.CloseOperationArgument | rep/MathExpr.hpp:622-631 | ")" after "f(( l op r" builds the operation and applies f to it at once. |
| ParserLaws.CloseBareParen | rep/MathExpr.hpp:622-631 | With nothing pending, ")" only discards its "(". |
| ParserLaws.ParseToStringRoundTrip | rep/MathExpr.hpp:158-160 | parseExpression of toString's output returns the same tree, for Printable trees: variables, read-back constants, binary operations of them, and functions whose argument holds at most one binary operation, directly under the function, with no further operation below it. |
| ParserLaws.PushGroupsLeft | rep/MathExpr.hpp:634-638 | An incoming operator first reduces a stacked operator of greater or equal precedence. |
| ParserLaws.PushGroupsRight | rep/MathExpr.hpp:634-638 | An incoming operator that binds more tightly is stacked above the previous one. |
| ParserLaws.TopOperation | rep/MathExpr.hpp:540-568 | Two values under one operator reduce to that binary node. |
| ParserLaws.FinishGroupsLeft | rep/MathExpr.hpp:646-654 | The end of the input reduces the last operator over the two remaining values. |
| ParserLaws.FinishGroupsRight | rep/MathExpr.hpp:646-654 | The end of the input reduces the stacked operators from the top down, so the later operator groups inside. |
| ParserLaws.ChainGroupsLeft | rep/MathExpr.hpp:633-639 | In "a o1 b o2 c", o1 is reduced before c is read when it binds at least as tightly as o2. |
| ParserLaws.ChainGroupsRight | rep/MathExpr.hpp:633-639 | Otherwise both operators are still stacked when the input ends. |
| ParserLaws.PrecedenceGrouping | rep/MathExpr.hpp:463-468 | "a o1 b o2 c" parses as (a o1 b) o2 c exactly when o1's precedence is at least o2's, and as a o1 (b o2 c) otherwise, so equal precedences, '^' included, group to the left. |
| ParserLaws.RunRejectsUnexpected | rep/MathExpr.hpp:641-643 | A scan over an unexpected character always fails. |
| ParserLaws.ParseRejectsUnexpected | rep/MathExpr.hpp:641-643 | Any character outside the scanner's classes makes parseExpression throw. |
| ParserLaws.RunInvalidCharacterAt | rep/MathExpr.hpp:641-643 | A reported invalid character is unexpected, and stands at the index the error carries. |
| ParserLaws.ParseInvalidCharacterAt | rep/MathExpr.hpp:641-643 | The same for parseExpression. |
| ParserLaws.StepKeepsOperatorsWellFormed | rep/MathExpr.hpp:618-639 | A pass keeps '(' and operators as the only entries of the operator stack, and never reports "Invalid operator". |
| ParserLaws.WellFormedPrefix | rep/MathExpr.hpp:623-626 | Popping entries from a well-formed operator stack keeps it well formed. |
| ParserLaws.WellFormedPush | rep/MathExpr.hpp:619 | Pushing '(' or an operator keeps the stack well formed. |
| ParserLaws.RunKeepsOperatorsWellFormed | rep/MathExpr.hpp:589-644 | The whole scan keeps the operator stack well formed, and never reports "Invalid operator". |
| ParserLaws.ParseInvalidOperatorIsOpenParen | rep/MathExpr.hpp:565-566 | "Invalid operator" can only be an unclosed '(' met by the end-of-input loop. |
| ParserLaws.UnclosedParenthesis | rep/MathExpr.hpp:646-648 | "(" followed by one operand fails with a stack underflow. |
| ParserLaws.UnmatchedClosingParenthesis | rep/MathExpr.hpp:626 | An operand followed by ")" pops an empty operator stack: a stack underflow. |
| ParserLaws.FunctionNameStep | rep/MathExpr.hpp:604-613 | A function name ended by a non-letter goes on the function stack, whatever is already stacked. |
| ParserLaws.PendingFunctionIgnored | rep/MathExpr.hpp:650-654 | "sin x" parses as the bare variable x: a function still pending at the end is never applied. |
| ParserLaws.NestedArgumentMisparsed | rep/MathExpr.hpp:627-629 | toString prints f((a o1 b) o2 c) as "f(((a o1 b) o2 c))", and parseExpression reads it back as (f(a o1 b)) o2 c: the ")" of the inner operation applies f. |
| ParserMatched.CloseMatched | rep/MathExpr.hpp:622-631 | The corrected ")" strictly shrinks the operator stack. It applies a pending function only when the "(" it pops is the one recorded for that function, and then pops that function and leaves it applied on top of the values. |
| ParserMatched.MatchedStep | rep/MathExpr.hpp:589-644 | One pass of the corrected scan consumes between 1 and the remaining characters. |
| ParserMatched.MatchedParse | rep/MathExpr.hpp:534-655 | The corrected parser rejects the empty text as an invalid expression. |
| ParserMatched.MatchedTermStep | rep/MathExpr.hpp:589-644 | Under the corrected ")", the printed form of any tree of read-back leaves pushes exactly that tree and leaves the operators and the pending functions as they were. |
| ParserMatched.MatchedBinaryStep | rep/MathExpr.hpp:618-639 | The same for a parenthesised operation: its ")" builds the operation and applies no outer function. |
| ParserMatched.MatchedFunctionStep | rep/MathExpr.hpp:604-631 | The same for f(a), whatever a holds: only the ")" of f applies f. |
| ParserMatched.MatchedCloseBinary | rep/MathExpr.hpp:622-631 | The corrected ")" after "( l op r" builds the operation and leaves an outer pending function pending. |
| ParserMatched.MatchedCloseFunction | rep/MathExpr.hpp:622-631 | The corrected ")" after "f( a", at the depth recorded for f, applies f to a. |
| ParserMatched.MatchedRoundTrip | rep/MathExpr.hpp:158-160 | With the corrected ")", toString's output of every tree of read-back leaves parses back as that tree. |
| ParserMatched.MatchedNestedArgument | rep/MathExpr.hpp:627-629 | With the corrected ")", f((a o1 b) o2 c) parses back as itself. |
| ParserMatched.PrintableIsLegible | rep/MathExpr.hpp:158-160 | Every Printable tree is Legible: each tree the source's proved round trip covers is covered by the corrected one. |
| ParserMatched.MatchedAgreesOnPrintable | rep/MathExpr.hpp:534-655 | On the printed text of a Printable tree, the corrected parser returns the same tree as the source parser. |
| ComplexLiteral.IsComplex | rep/MathExpr.hpp:479-509 | is_complex is true exactly when some 'i' stands alone: no adjacent letter, start, blank, digit, '-' or '.' on its left, and end, blank or digit on its right. |
| ComplexLiteral.WordIsNotComplex | rep/MathExpr.hpp:484-489 | A word of two or more letters, such as "sin" or "pi", is never complex. |
| ComplexLiteral.IsComplexExamples | rep/MathExpr.hpp:479-509 | "2+3i", "i" and "-2.5i" are complex. "3+i", "" and "sin" are not. |
| ComplexLiteral.ParseComplex | rep/MathExpr.hpp:511-532 | Without an 'i', the result has a zero imaginary part. |
| ComplexLiteral.ParseComplexBounded | rep/MathExpr.hpp:518 | The corrected version has the same property. |
| ComplexLiteral.LastSignAt | rep/MathExpr.hpp:518 | find_last_of finds a sign that has no other sign after it below the bound. |
| ComplexLiteral.ParseComplexReal | rep/MathExpr.hpp:512-515 | Without an 'i', the whole text is the real part. The result exists exactly when std::stod accepts the text, and its imaginary part is 0. |
| ComplexLiteral.ParseComplexSplit | rep/MathExpr.hpp:517-531 | "a±b i rest" splits into stod(a), or 0 for an empty a, and the coefficient "±b", where "+" means 1 and "-" means -1. What follows the 'i' is ignored. |
| ComplexLiteral.ParseComplexImaginary | rep/MathExpr.hpp:519-520 | "b i rest" with no sign is 0 + b i. |
| ComplexLiteral.ParseComplexLeadingIWraps | rep/MathExpr.hpp:518 | As written, "i" is 0+1i, but "i-3" fails, because the search bound wraps around past the 'i'. |
| ComplexLiteral.ParseComplexBoundedIgnoresTail | rep/MathExpr.hpp:518 | With the bounded search, nothing after the first 'i' changes the result. |
| Legacy.PowerOf | Expression.cpp:8-15 | power returns PowerValue: 1 for a zero exponent, and otherwise base multiplied Factors(e) times. |
| Legacy.PowerOfNatural | Expression.cpp:8-15 | For a natural exponent n, power is base^n. |
| Legacy.PowerRoundsUp | Expression.cpp:11-13 | A fractional exponent above 1 is rounded up to the next integer. |
| Legacy.PowerBelowOne | Expression.cpp:9-14 | Any nonzero exponent up to 1, negatives and fractions included, returns base unchanged. |
| Legacy.EvaluateFailsOnlyOnUnboundSymbol | Expression.cpp:72-83 | On the trees the operators build, evaluate succeeds exactly when every symbol is bound. Otherwise it throws "Symbol not found" for an unbound symbol of the tree, so a zero divisor is not an error. |
| Legacy.EvaluateReportsLeftFirst | Expression.cpp:72-74 | The left operand is evaluated first, so its error is the one reported. |
| Legacy.EvaluateNode | Expression.cpp:72-83 | A "Symbol not found" error names a symbol of the tree that is not bound. |
| Legacy.OperationTypeToString | Expression.cpp:22-37 | The five binary operations print as one character; every other operation type prints as a longer word. |
| Legacy.OperationNamesDistinct | Expression.cpp:22-37 | No two operation types print alike. |
| Legacy.NodeToString | Expression.cpp:85-87 | A binary node prints with no parenthesis: its text starts directly with its left operand's. A function node prints as its name, "(", and ends with ")". |
| Legacy.ToStringForgetsGrouping | Expression.cpp:85-87 | For all operands and operators, (a o1 b) o2 c and a o1 (b o2 c) print identically: toString drops the grouping. |
| Legacy.ToStringIsAmbiguous | Expression.cpp:85-87 | So (1+2)*3 and 1+(2*3) print identically but evaluate to 9 and 7. |
| Legacy.CloneNode | Expression.cpp:89-91 | clone returns a tree equal to the original. |
| Legacy.MathExpression.FromValue | Expression.cpp:114 | Construction from a value gives a single number leaf. |
| Legacy.MathExpression.FromSymbol | Expression.cpp:116 | Construction from a name gives a single symbol leaf. |
| Legacy.MathExpression.FromNode | Expression.cpp:118 | Construction from a node adopts it. |
| Legacy.MathExpression.Copy | Expression.cpp:120 | The copy constructor's root equals the other's tree. |
| Legacy.MathExpression.Move | Expression.cpp:122 | The move constructor takes the other's tree and leaves the other null. |
| Legacy.MathExpression.AssignCopy | Expression.cpp:124-127 | Copy assignment sets root to a tree equal to the other's. |
| Legacy.MathExpression.AssignMove | Expression.cpp:129-132 | Move assignment takes the other's tree and leaves a distinct other null. |
| Legacy.MathExpression.CloneRoot | Expression.cpp:162-164 | cloneRoot equals the root tree. |
| Legacy.MathExpression.Combine | Expression.cpp:134-152 | A fresh expression over the operator node applied to both roots, with no simplification. |
| Legacy.MathExpression.Plus | Expression.cpp:134-136 | operator+ builds Add(this, other) in a fresh expression. |
| Legacy.MathExpression.Minus | Expression.cpp:138-140 | operator- builds Subtract(this, other). |
| Legacy.MathExpression.Times | Expression.cpp:142-144 | operator* builds Multiply(this, other). |
| Legacy.MathExpression.Over | Expression.cpp:146-148 | operator/ builds Divide(this, other). |
| Legacy.MathExpression.Raise | Expression.cpp:150-152 | operator^ builds Power(this, other). |
| Legacy.MathExpression.Pow | Expression.cpp:4-6 | pow() builds Power(this, exponent) in a fresh expression, like operator^. |
| Legacy.Apply | Expression.cpp:166-180 | A fresh expression over the function node applied to the argument's root. |
| Legacy.Sin | Expression.cpp:166-168 | sin wraps the argument in a Sine node. |
| Legacy.Cos | Expression.cpp:170-172 | cos wraps the argument in a Cosine node. |
| Legacy.ExpOf | Expression.cpp:174-176 | exp wraps the argument in an Exp node. |
| Legacy.LogOf | Expression.cpp:178-180 | log wraps the argument in a Log node. |

## Left out

- Floating point: `long double` and `std::complex<long double>` are exact reals and pairs of reals, so rounding, infinities and NaN are not modelled.
- Library functions are parameters: `std::pow`, `sin`, `cos`, `exp`, `log` and `std::to_string`. Apart from the two `pow` identities the simplifier assumes, nothing is known of them. `complexToString` itself is modelled, over the `std::to_string` parameter.
- Text.ReadDecimal: gives the exact decimal value of the digits `std::stold` reads. It does not model rounding to `long double`, nor the `std::out_of_range` that `std::stold` throws when a long digit run overflows `long double`.
- Characters are Unicode characters, where the source works on `char` bytes. `std::isalpha`, `std::isspace` and `std::isdigit` of a negative `char` are undefined behaviour in the source; the model classifies characters by the C locale's ASCII classes.
- ComplexLiteral.ParseComplex: `std::stod` is a parameter returning the value read, or None where it throws. A `ParseComplex` that throws is None.
- `shared_ptr` ownership and aliasing: trees are immutable values, so `copy` and `clone` are the identity on values. Node identity and sharing are not modelled.
- The `dynamic_pointer_cast` in `isOne` and `isZero` is a constructor test.
- `operator<<` in both files is stream output.
- main.cpp is not part of this model. It is a demo driver.
- MathExpr.hpp (root) is not part of this model. It holds declarations only; its `OperationType` names the Legacy node kinds.
- test/test.cpp is evidence for the properties above. Its concrete cases, such as parsing "5 + 7", are not restated: number formatting is a parameter, so no concrete constant is known to read back.
- The `Expression<T>` wrapper of rep/MathExpr.hpp, with its constructors, assignments, operators and `fromString`, is not modelled as its own class. The parser's values are the node trees its operators build, without simplification.
- `NodeType::Negate` is never constructed. The `default:` throws of `eval` and `diff` cannot be reached with a closed datatype.
- Legacy.MathExpression.Evaluate and Legacy.MathExpression.ToString: these delegate to the root and carry no contract of their own. Their properties are stated on `EvaluateNode` and `NodeToString`.
- Legacy.MathExpression.Copy: requires a non-null root, as do the operators, `Evaluate`, `ToString` and `CloneRoot`. Dereferencing the null root of a moved-from expression is undefined behaviour in the source.
- Parser.Step: the "Invalid character" error carries the character and its index, which the source's message "Invalid character in input" does not. Nothing else depends on them.
- ParserLaws.ParseToStringRoundTrip: Printable leaves out functions whose argument holds an operation below its top operation. For some of those, such as f((a o1 b) o2 c), the source's round trip fails (see Findings and `ParserLaws.NestedArgumentMisparsed`); others, such as sin(cos((x+y))), happen to read back but are not covered by the lemma. The corrected parser's `ParserMatched.MatchedRoundTrip` covers every such tree.
- Stack underflow in parseExpression is undefined behaviour in the source. It is the explicit `StackUnderflow` error here.

## Findings

| source | as written | input that shows it | evidently intended | confidence | as-written member | corrected member |
|---|---|---|---|---|---|---|
| rep/MathExpr.hpp:518 | When the first 'i' is at index 0, `i_pos - 1` wraps to npos. `find_last_of` then searches the whole string, finds a sign after the 'i', and `substr` sends the text before it to `std::stod`. | "i-3": "i" is sent to `std::stod`, which throws, although "i" alone parses as 0+1i | Search for the sign only before the first 'i', so that nothing after it changes the result | not executed | ComplexLiteral.ParseComplexLeadingIWraps | ComplexLiteral.ParseComplexBoundedIgnoresTail |
| rep/MathExpr.hpp:627-629 | After a `)` pops its `(`, the latest pending function is applied whichever parenthesis was closed. | `sin(((x+y)*z))`, which `toString` prints for sin((x+y)*z): the `)` after `x+y` applies sin, so the parse is (sin(x+y))*z | A function is applied only by the `)` that closes the `(` after its name, so that `toString`'s output parses back as the same tree | not executed | ParserLaws.NestedArgumentMisparsed | ParserMatched.MatchedRoundTrip |
