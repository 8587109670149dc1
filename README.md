# Shunting-yard infix-to-RPN conversion and RPN evaluation, in Dafny

This project models the arithmetic core of `ShuntingYardRPNEvaluator.java`.
The core has three parts:

- **The operator table.** `+` and `-` have precedence 2, `*` and `/` have 3, and `^` has 4. Only `^` is right-associative. `compareTokens` returns the difference of two precedences.
- **`convertInfixToRPN`.** This is Dijkstra's shunting-yard algorithm. It uses an operator stack and an output list.
- **`evaluateRPN`.** This is a stack machine over the postfix tokens.

Tokens arrive already classified: `Num(value)`, `Op(operator)`, `LParen` or `RParen`. Values are `real`s. The library power function is a parameter `pow: (real, real) -> real`. Both stacks are sequences whose last element is the top.

Each of the two main operations is an imperative method with the source's loop structure:

- `Converter.ConvertInfixToRPN` follows `convertInfixToRPN`. Its inner loops are `PopWhileBinding`, `PopThroughParen` and `FlushStack`.
- `Evaluator.EvaluateRPN` follows `evaluateRPN`, including its pop-`b`-then-`a` order and each unchecked `pop`.

Each method is proved equal to a step-by-step specification function:

- `Step`, `Run` and `Convert` for the converter;
- `EvalStep`, `EvalRun` and `Evaluate` for the evaluator.

Properties are then proved about those functions:

- token conservation;
- when conversion succeeds, and what it does with parentheses;
- precedence order on the operator stack;
- the evaluator's stack-height accounting and its error cases;
- end-to-end correctness. Every expression tree that is grouped according to the table is printed as infix tokens. Those tokens convert to the tree's postfix form, and the postfix form evaluates to the tree's conventional value (`Expressions.ConvertThenEvaluate`).

The fifteen equations of the source's test list are lemmas in `Examples`.

Errors are explicit results. The code's own behaviour is kept where a stricter evaluator would differ:

- A `)` with no `(` on the stack fails. The source pops an empty stack at line 70, and the model gives `UnmatchedRightParen`.
- An unmatched `(` is not an error during conversion. The final flush emits it into the output. An RPN sequence holding a parenthesis never evaluates successfully (`Evaluator.Evaluate`). The error is `NotANumber` when the loop reaches the `(`, unless an earlier error stops it: `( 1 / 0` ends in `DivideByZero`, and `( +` ends in `StackUnderflow`.
- A right operand exactly equal to 0 is rejected for `^` as well as for `/`, so `x ^ 0` fails with `DivideByZero`.

## Model

| member | source | states |
|---|---|---|
| Operators.Precedence | ShuntingYardRPNEvaluator.java:13-16 | precedences lie between 2 and 4; level 2 is exactly `+`/`-`; level 4 is exactly `^` |
| Operators.Assoc | ShuntingYardRPNEvaluator.java:27-31 | only `^` is right-associative |
| Operators.CompareTokens | ShuntingYardRPNEvaluator.java:34-36 | the result lies in -2..2; it is negative iff the first operator binds less tightly, and zero iff both bind equally |
| Operators.OperatorOf | ShuntingYardRPNEvaluator.java:25-32 | a successful lookup returns the operator stored under that symbol |
| Operators.SymbolLookup | ShuntingYardRPNEvaluator.java:25-32 | looking up an operator's own symbol finds that operator; the table's keys are exactly the five symbols |
| Operators.Pops | ShuntingYardRPNEvaluator.java:51-52 | an incoming operator pops `top` only if `top` binds at least as tightly; it leaves `top` in place iff `top` binds strictly less tightly, or both are `^` |
| Converter.Kept | ShuntingYardRPNEvaluator.java:50-57 | the inner pop loop stops at or below the current stack height |
| Converter.KeptStops | ShuntingYardRPNEvaluator.java:50-57 | the pop loop stops on an empty stack, a `(`, or an operator it does not pop; every token it removed is an operator it pops |
| Converter.PopOperators | ShuntingYardRPNEvaluator.java:50-57 | the operators taken off form the top of the stack, every one of them is popped by the incoming operator, they reach the output in pop order, and what remains halts the loop |
| Converter.TopmostOpen | ShuntingYardRPNEvaluator.java:67-69 | the `)` loop stops at the topmost `(`, and it empties the stack exactly when the stack holds no `(` |
| Converter.PopToParen | ShuntingYardRPNEvaluator.java:66-70 | a `)` fails iff the stack holds no `(`; otherwise it drops the topmost `(`, keeps the stack below it, and moves what lay above it to the output in pop order |
| Converter.PopWhileBinding | ShuntingYardRPNEvaluator.java:50-57 | the loop moves the operators that the incoming operator pops, in pop order, and leaves the rest of the stack |
| Converter.PopThroughParen | ShuntingYardRPNEvaluator.java:66-70 | moves everything above the topmost `(` to the output and drops that `(`; fails with `UnmatchedRightParen` when there is none |
| Converter.FlushStack | ShuntingYardRPNEvaluator.java:79-81 | appends the whole remaining stack to the output, top first |
| Converter.Flush | ShuntingYardRPNEvaluator.java:79-81 | the output keeps its contents, followed by the stack from its top down to its bottom |
| Converter.ConvertInfixToRPN | ShuntingYardRPNEvaluator.java:38-84 | the result equals the conversion specification `Convert`, whose properties are the lemmas below |
| Converter.Step | ShuntingYardRPNEvaluator.java:45-76 | one iteration fails iff the token is a `)` and no `(` is on the stack; a `)` takes itself and one `(` out of output plus stack, and any other token adds one token to them; an operator ends on top of a stack whose top it does not pop |
| Converter.Run | ShuntingYardRPNEvaluator.java:45-76 | the loop as repeated `Step`; it has no contract of its own, and the `Run…` lemmas below state its properties |
| Converter.Convert | ShuntingYardRPNEvaluator.java:38-84 | conversion succeeds iff no prefix of the input has more `)` than `(`; on success the output's numbers are the input's, in the same order |
| Converter.StepShape | ShuntingYardRPNEvaluator.java:45-76 | one loop iteration fails only on a `)` with no `(` on the stack; the stack holds only operators and `(`, and only a `(` or `)` changes its count of `(` |
| Converter.StepMultiset | ShuntingYardRPNEvaluator.java:45-76 | one iteration conserves the tokens of output plus stack, except that a `)` removes itself and one `(` |
| Converter.StepNumbers | ShuntingYardRPNEvaluator.java:72-75 | a number token is appended to the output; no other token adds a number to it |
| Converter.RunShape | ShuntingYardRPNEvaluator.java:45-76 | the operator stack holds only operators and `(` throughout the loop |
| Converter.RunMultiset | ShuntingYardRPNEvaluator.java:45-76 | across the loop, output plus stack holds the input's tokens minus each `)` and the `(` it matched |
| Converter.RunNumbers | ShuntingYardRPNEvaluator.java:72-75 | across the loop, the numbers in the output are those of the input, in order |
| Converter.RunSucceeds | ShuntingYardRPNEvaluator.java:66-70 | the loop succeeds iff no prefix of the input closes more parentheses than the stack and the prefix have opened |
| Converter.MatchedAllCounts | ShuntingYardRPNEvaluator.java:66-70 | the tokens that the `)`s take out are one `(` and one `)` per `)` |
| Converter.MatchedAllSize | ShuntingYardRPNEvaluator.java:66-70 | the tokens that the `)`s take out are twice the number of `)` |
| Converter.ConvertMultiset | ShuntingYardRPNEvaluator.java:45-83 | the output plus the matched parenthesis pairs is exactly the input, as a multiset |
| Converter.ConvertConserves | ShuntingYardRPNEvaluator.java:45-81 | each operator reaches the output exactly once; no `)` does; each unmatched `(` does; the output is two tokens shorter per `)` |
| Converter.ConvertBalanced | ShuntingYardRPNEvaluator.java:62-81 | on balanced input, conversion succeeds and emits no parenthesis, and the output's length is the input's minus its parentheses |
| Converter.StepKeepsOrdered | ShuntingYardRPNEvaluator.java:50-59 | one iteration keeps every paren-free stretch of the stack strictly rising in precedence, with only `^` allowed on `^` |
| Converter.RunKeepsOrdered | ShuntingYardRPNEvaluator.java:45-76 | every operator stack the loop passes through is so ordered |
| Evaluator.Apply | ShuntingYardRPNEvaluator.java:95-123 | an operator fails iff it is `/` or `^` with a right operand exactly 0, and then it fails with `DivideByZero` |
| Evaluator.EvalStep | ShuntingYardRPNEvaluator.java:92-128 | a number is pushed; an operator replaces the two top values by its result, with the value below the top as left operand and the top as right operand, and leaves the rest of the stack alone; the step fails with `StackUnderflow` on fewer than two values, with `DivideByZero` on a zero right operand of `/` or `^`, and always with `NotANumber` on a parenthesis |
| Evaluator.EvalRun | ShuntingYardRPNEvaluator.java:89-129 | a successful loop leaves the stack higher by the number of numbers minus the number of operators |
| Evaluator.Finish | ShuntingYardRPNEvaluator.java:131-135 | the end succeeds, with the one value, iff exactly one value remains; more than one is `TooManyValues`, and none is `EmptyStack` |
| Evaluator.Evaluate | ShuntingYardRPNEvaluator.java:86-136 | evaluation succeeds only if every operator meets two values and there is exactly one more number than operators; an RPN sequence holding a parenthesis never evaluates |
| Evaluator.EvaluateRPN | ShuntingYardRPNEvaluator.java:86-136 | the result equals the evaluation specification `Evaluate`, whose properties are the lemmas below |
| Evaluator.FeasibleCons | ShuntingYardRPNEvaluator.java:92-128 | a run is feasible iff its first token is not a parenthesis, finds two values when it is an operator, and the rest is feasible from the new height |
| Evaluator.EvalRunSucceeds | ShuntingYardRPNEvaluator.java:89-129 | a successful loop saw no parenthesis, and every operator in it met at least two values |
| Evaluator.EvalRunFeasible | ShuntingYardRPNEvaluator.java:89-129 | when every operator meets two values, the loop fails only with `DivideByZero` |
| Evaluator.EvaluateFeasible | ShuntingYardRPNEvaluator.java:131-135 | when every operator meets two values, the outcome is `DivideByZero` or is decided by numbers-minus-operators: 1 succeeds, more than 1 is `TooManyValues`, 0 is `EmptyStack` |
| Expressions.TopOpsAtLeast | ShuntingYardRPNEvaluator.java:50-57 | in a well-grouped tree, no unbracketed operator binds less tightly than the root's |
| Expressions.PendingAreTopOps | ShuntingYardRPNEvaluator.java:50-59 | the operators a tree leaves on the stack are its unbracketed operators |
| Expressions.RightOperandFits | ShuntingYardRPNEvaluator.java:50-59 | a right operand's pending operators never pop the operator just pushed below them |
| Expressions.LeftPendingPopped | ShuntingYardRPNEvaluator.java:50-57 | the operator after a left operand pops every operator that the operand left pending |
| Expressions.PostfixSplits | ShuntingYardRPNEvaluator.java:45-59 | a tree's postfix form is what the loop has emitted after reading it, followed by its pending operators in pop order |
| Expressions.KeptAbove | ShuntingYardRPNEvaluator.java:50-57 | the pop loop removes exactly a segment of operators it pops and stops at what halts it |
| Expressions.TopmostOpenBelow | ShuntingYardRPNEvaluator.java:67-69 | the `)` loop stops at the `(` below a paren-free segment |
| Expressions.RunInfix | ShuntingYardRPNEvaluator.java:45-76 | reading a well-grouped tree's tokens emits its finished part and pushes its pending operators |
| Expressions.RunGroup | ShuntingYardRPNEvaluator.java:62-70 | reading a bracketed tree emits its whole postfix form and restores the stack |
| Expressions.CloseGroup | ShuntingYardRPNEvaluator.java:66-70 | the closing `)` moves the group's pending operators to the output and drops its `(` |
| Expressions.LeftPendingKept | ShuntingYardRPNEvaluator.java:50-57 | the operator after a left operand stops popping at the stack below that operand |
| Expressions.OperatorAfterLeft | ShuntingYardRPNEvaluator.java:50-57 | the operator after a left operand emits the operand's whole postfix form |
| Expressions.LeftThenOperator | ShuntingYardRPNEvaluator.java:48-60 | reading a left operand, then an operator, emits the operand's postfix form and pushes the operator |
| Expressions.RunBin | ShuntingYardRPNEvaluator.java:48-60 | reading `l o r` emits `l`'s postfix form and `r`'s finished part, and pushes `o` and `r`'s pending operators |
| Expressions.ConvertInfix | ShuntingYardRPNEvaluator.java:38-84 | every well-grouped tree's infix tokens convert to its postfix form |
| Expressions.EvalRunPostfix | ShuntingYardRPNEvaluator.java:89-129 | evaluating a tree's postfix form pushes the tree's value, or fails as the tree's value does |
| Expressions.EvaluatePostfix | ShuntingYardRPNEvaluator.java:86-136 | a tree's postfix form evaluates to the tree's conventional value |
| Expressions.ConvertThenEvaluate | ShuntingYardRPNEvaluator.java:38-136 | for every well-grouped tree, evaluating the converted infix tokens gives the tree's conventional value |
| Examples.OnePlusTwo | ShuntingYardRPNEvaluator.java:175 | `1 + 2` converts to `1 2 +` and evaluates to 3 |
| Examples.OneMinusTwo | ShuntingYardRPNEvaluator.java:176 | `1 - 2` converts to `1 2 -` and evaluates to -1 |
| Examples.TwoMinusOne | ShuntingYardRPNEvaluator.java:177 | `2 - 1` converts to `2 1 -` and evaluates to 1 |
| Examples.FourTimesThree | ShuntingYardRPNEvaluator.java:178 | `4 * 3` converts to `4 3 *` and evaluates to 12 |
| Examples.ThreeTimesFour | ShuntingYardRPNEvaluator.java:179 | `3 * 4` converts to `3 4 *` and evaluates to 12 |
| Examples.TenOverFive | ShuntingYardRPNEvaluator.java:180 | `10 / 5` converts to `10 5 /` and evaluates to 2 |
| Examples.FiveOverTen | ShuntingYardRPNEvaluator.java:181 | `5 / 10` converts to `5 10 /` and evaluates to 0.5 |
| Examples.TwoToTheFifth | ShuntingYardRPNEvaluator.java:182 | `2 ^ 5` converts to `2 5 ^` and evaluates to 32 when pow(2, 5) is 32 |
| Examples.TwoToGroupedDifference | ShuntingYardRPNEvaluator.java:183 | `2 ^ ( 5 - 3 )` converts to `2 5 3 - ^` and evaluates to 4 when pow(2, 2) is 4 |
| Examples.PowerBeforeMinus | ShuntingYardRPNEvaluator.java:184 | `2 ^ 5 - 3` converts to `2 5 ^ 3 -` and evaluates to 29 when pow(2, 5) is 32 |
| Examples.MinusAfterPower | ShuntingYardRPNEvaluator.java:185 | `4 - 2 ^ 3` converts to `4 2 3 ^ -` and evaluates to -4 when pow(2, 3) is 8 |
| Examples.GroupedDifferenceCubed | ShuntingYardRPNEvaluator.java:186 | `( 4 - 2 ) ^ 3` converts to `4 2 - 3 ^` and evaluates to 8 when pow(2, 3) is 8 |
| Examples.GroupedNegativeExponent | ShuntingYardRPNEvaluator.java:187 | `( 6 + 2 ) ^ ( 2 - 3 )` converts to `6 2 + 2 3 - ^` and evaluates to 0.125 when pow(8, -1) is 0.125 |
| Examples.MixedPrecedence | ShuntingYardRPNEvaluator.java:188 | `6 + 2 ^ 2 - 3 * 5 / 5` converts to `6 2 2 ^ + 3 5 * 5 / -` and evaluates to 7 when pow(2, 2) is 4 |
| Examples.NestedGroups | ShuntingYardRPNEvaluator.java:189 | `( 6 + 2 ) ^ ( ( 2 - 3 ) * 5 / 5 )` converts and evaluates to 0.125 when pow(8, -1) is 0.125 |
| Examples.DivisionByZero | ShuntingYardRPNEvaluator.java:109-113 | `5 / 0` converts, then fails with `DivideByZero` |
| Examples.ZeroExponent | ShuntingYardRPNEvaluator.java:117-121 | `x ^ 0` fails with `DivideByZero` for every `x` |
| Examples.UnmatchedClose | ShuntingYardRPNEvaluator.java:66-70 | `x )` fails to convert with `UnmatchedRightParen` |
| Examples.ReadOpenThenNumber | ShuntingYardRPNEvaluator.java:62-75 | a `(` is pushed and a number goes straight to the output |
| Examples.ReadPlusAboveOpen | ShuntingYardRPNEvaluator.java:48-59 | a `+` stops popping at a `(` and is pushed on it |
| Examples.UnmatchedOpen | ShuntingYardRPNEvaluator.java:62-81 | `( x + y` converts to `x y + (`: the unmatched `(` is flushed into the output |
| Examples.OpenParenInOutput | ShuntingYardRPNEvaluator.java:127-128 | evaluating that output fails with `NotANumber` at the `(` |
| Examples.StackMisuse | ShuntingYardRPNEvaluator.java:92-135 | `x +` underflows; `x y` leaves too many values; the empty input pops an empty stack |

## Left out

- `main`, the `Scanner` input, the `help`/`examples`/`tests` commands and all printing (lines 138-238) are not modelled. They are console input and output.
- The `Equation` class and the test-runner loop are not modelled. Their fifteen cases are the `Examples` lemmas.
- `String.split(" ")` tokenisation and `Double.parseDouble` (line 128) are not modelled. Tokens arrive classified, and numbers carry their value. The one parse failure the model keeps is a parenthesis reaching the evaluator (`NotANumber`). A malformed number string, such as an empty token from a double space, is outside the model.
- `Math.pow` is the parameter `pow`, with no properties assumed. The examples with `^` state the value of `pow` they need as a precondition.
- IEEE-754 doubles are modelled as exact reals. Rounding, infinities, NaN and `-0.0` (which the source's `b == 0` check also rejects) are not represented.
- The table is a constant pure function, not the mutable static `HashMap` (line 18), so the program's state before `initializeOperators` has run is not represented. In that state every `containsKey` test (lines 48, 50 and 92) is false. Each operator symbol would then be copied to the output as a number (line 74), and evaluation would fail in `Double.parseDouble` (line 128).
- The `String` stack entries of the source are modelled as tokens. `operators.containsKey(operatorStack.peek())` becomes `Op?`, and `peek().equals("(")` becomes `== LParen`.
