# DDE interpreter core in Dafny

This project models the interpreter of the DDE scripting language, which a
VS Code extension runs. It covers three parts:

- **The recursive-descent parser** (`src/parser.js`). It turns a token
  sequence into a list of syntax-tree nodes.
- **The tree-walking evaluator** (`src/evaluator.js`). It runs nodes against
  a name → value environment, with the built-ins `print`, `typeof`, `isFart`
  and `array`.
- **The driver** (`extension.js`):
  - `interpret` runs every top-level statement and reports each failing one
    with its line number;
  - the completion provider lists the names of top-level assignments.

Each part has a pure definition and an imperative version.

*Parser*
- Module `Grammar` defines every parser function as a function of the token
  sequence and a cursor position. It returns the node and the next position,
  or the error that aborts the parse.
- Class `Parsing.Parser` has the source's `tokens` and mutable `pos`. Each of
  its methods is proved to agree with the `Grammar` function of the same
  name: same node, same final cursor, same failure.

*Evaluator*
- Module `Semantics` defines `Eval`, which takes fuel, a node, the
  environment and the world (the store and the output).
- Class `Evaluator.Runtime` updates the store and the output in place.
  Class `Evaluator.Environment` holds a binding map that assignments update.
  Each method is proved to produce exactly the state and outcome that
  `Semantics` gives.

*Driver*
- `Driver.Interpret` and `Driver.DeclaredNames` are loops proved equal to
  `Driver.Run` and `Driver.AssignmentNames`.

How the model represents the source:

- **Arrays and function records.** Arrays and `userFunction` records live in
  an explicit store, and a `Ref(addr)` value points into it. Copying an
  environment copies references, not contents. This is why `push` inside a
  loop body or a function body is visible outside, while assignments there
  are not.
- **Exceptions.** A JavaScript exception is an `Abrupt` outcome:
  - `Thrown(error)` for an error;
  - `ReturnSignal(value)` for the object a `return` throws.

  Changes made before the throw are kept.
- **Non-termination.** Each user-function call and each loop iteration spends
  one unit of fuel, and running out gives the outcome `OutOfFuel`.
- **Numbers.** Numbers are unbounded integers.
- **Strings.** Strings are sequences of characters. Their `length` and
  their `<` work on the UTF-16 code units JavaScript stores (`Values.Utf16`),
  so a character above U+FFFF counts twice.

Quirks of the source that the model keeps as written, with the lemmas that
show them:

- **Indexing.** The index postfix needs `bracket` tokens, while array
  literals use `squarebracket` tokens
  (`GrammarFacts.IndexWithBracketTokens`,
  `GrammarFacts.IndexWithSquareBracketTokens`). The evaluator has no `index`
  case, so an index node fails as an unknown node type.
- **Calls by name.** A call written `name(args)` is parsed into a node that
  carries the name but no callee. The evaluator dispatches only on the
  callee, so every such call fails as an unknown function, even
  `print(...)` (`ProgramFacts.ParsedCallFails`,
  `ProgramFacts.CallProgramIsReported`). Only calls of the form
  `x.prop(args)` reach the dispatch.
- **Bare `for` iterables.** `for (x) in xs {...}` keeps the iterable as the
  bare name `xs`, which the evaluator rejects as an unknown node type
  (`ProgramFacts.BareIterableProgramIsReported`). A parenthesised iterable
  is evaluated normally.
- **Loop length.** The `for` loop reads the array's length again before every
  iteration. A body that pushes onto the array it iterates therefore never
  ends (`EvalFacts.PushingForStatementNeverEnds`).
- **Boolean literals.** A `boolean` token's value is `Boolean(text)`, which is
  true for any non-empty text, `"false"` included.
- **No `return` or `null` statements.** The parser has no case for `return`
  or `null`. Those nodes exist in the evaluator model but no token sequence
  produces them.

## Model

| member | source | states |
|---|---|---|
| Grammar.ConsumeAt | src/parser.js:12-27 | succeeds exactly when a token is present and its type (when given) and value (when given) match; then returns that token and advances by one |
| Parsing.Parser.constructor | src/parser.js:3-6 | the parser holds the given tokens with the cursor at 0 |
| Parsing.Parser.Peek | src/parser.js:8-10 | the token under the cursor, absent exactly when the cursor is at the end |
| Parsing.Parser.Consume | src/parser.js:12-27 | agrees with `ConsumeAt`: on success the cursor moves past the returned token, on failure it does not move |
| Grammar.ProgramOf | src/parser.js:381-394 | a successful parse consumes the whole token sequence |
| Grammar.StatementsFrom | src/parser.js:384-391 | a successful statement loop ends at the end of the input, keeps the statements already read in front of the new ones, and adds at most one statement per token |
| GrammarFacts.StatementsInOrder | src/parser.js:384-391 | for every list of semicolon-terminated sums of products, the statement loop returns their trees in source order, each semicolon skipped |
| GrammarFacts.ProgramInOrder | src/parser.js:381-394 | a program of semicolon-terminated sums of products parses to exactly those trees, in order |
| GrammarFacts.SemicolonsSkipped | src/parser.js:385-388 | a run of semicolons in front of the next statement changes nothing |
| Parsing.Parser.Parse | src/parser.js:381-394 | runs the statement loop over the mutable cursor and returns exactly the nodes (or the error) of `StatementsFrom` |
| Grammar.ExpressionAt | src/parser.js:29-49 | every successful expression consumes at least one token, so parsing terminates |
| Parsing.Parser.ParseExpression | src/parser.js:29-49 | same node, cursor and error as `ExpressionAt`: assignment on `identifier =`, then `if`, `for`, comparison |
| Grammar.AssignmentAt | src/parser.js:51-65 | a successful assignment is named by its first token; when `(` follows `=` its expression is a function literal |
| Parsing.Parser.ParseAssignment | src/parser.js:51-65 | agrees with `AssignmentAt` |
| Grammar.FunctionDefinitionAt | src/parser.js:161-187 | the result is an assignment of a function literal with a block body to the given name |
| Parsing.Parser.ParseFunctionDefinition | src/parser.js:161-187 | agrees with `FunctionDefinitionAt`, including the parameter loop |
| Grammar.ParamListFrom | src/parser.js:165-173 | the parameter loop never moves the cursor backwards |
| GrammarFacts.ParamListRoundTrip | src/parser.js:165-173 | the parameter tokens `x1, ..., xn` give back exactly the names `x1 ... xn`, in order |
| GrammarFacts.DefinitionParams | src/parser.js:161-187 | `name = (x1, ..., xn) {}` is one assignment of a function literal with those parameters and an empty block |
| Grammar.ComparisonAt | src/parser.js:67-82 | a comparison consumes at least one token |
| Grammar.ComparisonRest | src/parser.js:70-79 | the comparator loop only moves forward |
| Parsing.Parser.ParseComparison | src/parser.js:67-82 | agrees with `ComparisonAt`: a left-leaning chain of additive operands |
| Grammar.AdditiveAt | src/parser.js:84-101 | an additive expression consumes at least one token |
| Grammar.AdditiveRest | src/parser.js:86-99 | the additive loop only moves forward |
| Parsing.Parser.ParseAdditive | src/parser.js:84-101 | agrees with `AdditiveAt` |
| Grammar.MultiplicativeAt | src/parser.js:103-120 | a multiplicative expression consumes at least one token |
| Grammar.MultiplicativeRest | src/parser.js:105-118 | the multiplicative loop only moves forward |
| Parsing.Parser.ParseMultiplicative | src/parser.js:103-120 | agrees with `MultiplicativeAt` |
| GrammarFacts.AdditiveChainFrom | src/parser.js:84-101 | after a first operand, `+n1 -n2 ...` nests to the left up to the first token that ends an operand |
| GrammarFacts.MultiplicativeChainFrom | src/parser.js:103-120 | after a first operand, `*n1 /n2 ...` nests to the left up to the first token that ends a product |
| GrammarFacts.ProductAt | src/parser.js:103-120 | a product `n0 op1 n1 ...` of `*` and `/` is one left-nested tree |
| GrammarFacts.SumOfProductsFrom | src/parser.js:84-120 | after a first operand, `± product ± product ...` nests to the left with each product as a single operand, for every mix of the four operators |
| GrammarFacts.SumOfProductsExpression | src/parser.js:29-120 | a whole sum of products is one expression: `*` and `/` bind tighter than `+` and `-`, and each level nests to the left |
| GrammarFacts.AdditiveChainProgram | src/parser.js:84-101 | the program `n0 ±n1 ±n2 ...` is the single left-nested tree `((n0 ± n1) ± n2) ...` |
| GrammarFacts.MultiplicativeChainProgram | src/parser.js:103-120 | the program `n0 op n1 op n2 ...` with `*`/`/` is the single left-nested tree |
| GrammarFacts.ProductBindsTighter | src/parser.js:84-120 | `a + b * c` groups as `a + (b * c)` and `a * b + c` as `(a * b) + c` |
| GrammarFacts.SumBindsTighterThanComparison | src/parser.js:67-101 | `a + b < c` groups as `(a + b) < c` and `a < b + c` as `a < (b + c)`, for every comparator |
| GrammarFacts.NumeralValue | src/parser.js:288-290 | `Number(text)` of a decimal numeral is the number it spells |
| GrammarFacts.NumberPrimary | src/parser.js:288-290 | a number token not followed by `[` or `.` is one number literal |
| GrammarFacts.NumberExpression | src/parser.js:283-290 | a number token followed by an operand end is a whole expression |
| GrammarFacts.Numeral | src/parser.js:288-290 | the decimal numeral of a natural number is non-empty and made of digits |
| Grammar.CallArgsAt | src/parser.js:144-159 | a successful argument list starts with the token `(` and ends with the token `)` |
| Grammar.ArgListFrom | src/parser.js:126-133 | the argument loop only moves forward |
| Parsing.Parser.ParseFunctionCallArgs | src/parser.js:144-159 | agrees with `CallArgsAt` |
| Parsing.Parser.ParseArgList | src/parser.js:312-319 | the comma-separated loop shared by calls and array literals agrees with `ArgListFrom` |
| GrammarFacts.NumberListRoundTrip | src/parser.js:312-319 | the tokens `n1, ..., nk` give back exactly the literals `n1 ... nk`, in order |
| GrammarFacts.ArrayLiteralProgram | src/parser.js:309-320 | `[n1, ..., nk]` is one array literal of those numbers |
| Grammar.FunctionCallAt | src/parser.js:122-142 | `name(args)` builds a call node that carries only the name, with no callee node |
| Parsing.Parser.ParseFunctionCall | src/parser.js:122-142 | agrees with `FunctionCallAt` |
| Grammar.BlockAt | src/parser.js:189-209 | a block runs from `{` to `}`; its value is its last statement, or none when empty |
| Grammar.BlockItemsFrom | src/parser.js:193-200 | the block loop only moves forward, stops at `}` or the end of the input, keeps the statements already read in front, and adds at most one statement per token |
| GrammarFacts.BlockItemsInOrder | src/parser.js:193-200 | for every list of semicolon-terminated sums of products before `}`, the block loop returns their trees in source order |
| GrammarFacts.BlockInOrder | src/parser.js:189-209 | `{ s1; ...; sk; }` is one block of those statements in order, whose value is the last of them |
| Syntax.LastOf | src/parser.js:207 | the last statement of a block, absent exactly when the block is empty |
| Parsing.Parser.ParseBlock | src/parser.js:189-209 | agrees with `BlockAt`, with one optional semicolon after each statement |
| Grammar.IfAt | src/parser.js:211-248 | a successful `if` is an if node whose then-branch is a block |
| Grammar.ElseAt | src/parser.js:218-240 | no else part without `else`/`elseif`; `elseif` gives a nested `if` with no else of its own; `else` gives a block exactly when `{` follows, otherwise a chained `if` |
| Parsing.Parser.ParseIfStatement | src/parser.js:211-248 | agrees with `IfAt` |
| Parsing.Parser.ParseElse | src/parser.js:218-240 | agrees with `ElseAt` |
| Grammar.ForAt | src/parser.js:250-281 | a successful `for` is a for node whose item is the identifier after `(` and whose body is a block |
| Grammar.ForIndexAt | src/parser.js:254-260 | there is an index name exactly when a comma follows the item, and it is the identifier after the comma |
| Grammar.IterableAt | src/parser.js:265-270 | the iterable is kept as a bare name exactly when it starts with an identifier token |
| Parsing.Parser.ParseForLoop | src/parser.js:250-281 | agrees with `ForAt` |
| Parsing.Parser.ParseForIndex | src/parser.js:257-260 | agrees with `ForIndexAt`: `, index` after the item, or nothing |
| Parsing.Parser.ParseIterable | src/parser.js:265-270 | agrees with `IterableAt`: a bare identifier is kept as a name, anything else is parsed as an expression |
| GrammarFacts.ForIterableForms | src/parser.js:265-270 | `for (x) in xs {}` keeps the name `xs`; `for (x) in (xs) {}` keeps an identifier node |
| Grammar.PrimaryAt | src/parser.js:283-379 | a primary consumes at least one token; an identifier followed by `(` is a name call without postfix |
| Grammar.PrimaryHeadAt | src/parser.js:283-324 | every literal, identifier, parenthesised, block and array head consumes at least one token |
| Grammar.PostfixFrom | src/parser.js:326-377 | the postfix loop only moves forward, and returns its node unchanged at any token other than `.` or `[` (and at the end of the input) |
| GrammarFacts.PropertyChain | src/parser.js:348-374 | `.p1.p2 ... .pk` not followed by `(` gives property nodes nested to the left, and the loop stops right after them |
| Parsing.Parser.ParsePrimary | src/parser.js:283-379 | agrees with `PrimaryAt` |
| Parsing.Parser.ParseParenthesized | src/parser.js:303-306 | agrees with `PrimaryHeadAt` on `( expression )` |
| Parsing.Parser.ParseArrayLiteral | src/parser.js:309-320 | agrees with `PrimaryHeadAt` on `[ elements ]` |
| Parsing.Parser.ParsePostfix | src/parser.js:326-377 | agrees with `PostfixFrom`: index, property and method-call postfixes, stopping at `)` or `}` |
| Parsing.Parser.ParseIndexPostfix | src/parser.js:337-347 | one `[index]` postfix: its error is `PostfixFrom`'s, or `PostfixFrom` goes on from the index node past `]` |
| Parsing.Parser.ParsePropertyPostfix | src/parser.js:349-375 | one `.prop` or `.prop(args)` postfix: its error is `PostfixFrom`'s, or `PostfixFrom` goes on from the property or call node |
| GrammarFacts.PropertyForms | src/parser.js:348-374 | `x.prop` is a property node and `x.prop(n)` a call whose callee is that property |
| GrammarFacts.IndexWithBracketTokens | src/parser.js:337-346 | `xs[0]` written with `bracket` tokens is an index node |
| GrammarFacts.IndexWithSquareBracketTokens | src/parser.js:309-320 | `xs[0]` written with `squarebracket` tokens is two statements: the name, then a one-element array |
| Values.ApplyOperator | src/evaluator.js:65-88 | unknown operator exactly outside the ten operators; `==`/`!=` are strict equality; `+` adds numbers and concatenates strings; exactly the comparison operators give booleans |
| Values.Compare | src/evaluator.js:78-85 | ordered comparisons give booleans, and the integer order on numbers |
| Values.Utf16 | src/evaluator.js:218 | a string's UTF-16 code units: at least one per character, each below 2^16 |
| StringFacts.Utf16RoundTrip | src/evaluator.js:218 | the code units decode back to the string, so no information is lost |
| StringFacts.Utf16Append | src/evaluator.js:66-67 | the units of a concatenation are the units of its parts |
| StringFacts.LengthOfConcatenation | src/evaluator.js:218 | the `length` of `s + t` is the sum of the lengths |
| StringFacts.LengthCountsUnits | src/evaluator.js:218 | `length` is the number of characters plus one for each character above U+FFFF; it equals the character count exactly when there is none |
| StringFacts.AstralExample | src/evaluator.js:80-81 | a character above U+FFFF has length 2 and compares below U+FFFF, as UTF-16 units do |
| StringFacts.StrLessIsStrictTotalOrder | src/evaluator.js:78-85 | string `<` is irreflexive, transitive, asymmetric and total on distinct strings |
| Values.Alloc | src/evaluator.js:91 | a new object gets the next address and every existing object is kept |
| Values.Push | src/evaluator.js:121-124 | `push` appends the arguments in order to that array and leaves every other object alone |
| Values.PropertyOf | src/evaluator.js:210-219 | `.length` of an array is its element count and of a string its number of UTF-16 code units; a property of null or undefined fails |
| Values.CallBuiltin | src/evaluator.js:2-42 | `print()` fails; `print(args)` writes one line and returns a fresh array of its arguments; `typeof(null)` is "null"; `isFart`; `array(n, fill)` fails on a non-number, fails as `Array(length)` does for a length outside 0 .. 2^32 - 1, and otherwise stores `n` copies of `fill` |
| Semantics.Caught | src/evaluator.js:148-153 | a `return` signal becomes the call's value; errors pass through unchanged |
| Semantics.CallUser | src/evaluator.js:140-154 | the caller's environment comes back unchanged and the store and output are the body's; the call's outcome is the body's normal value, or the value a `return` carries, or the error the body throws, unchanged; out of fuel, nothing changes |
| EvalFacts.ReturnEndsCall | src/evaluator.js:148-153 | a body that starts with `return e` gives the call the value of `e`, runs nothing after it and leaves the caller's environment unchanged; an error from `e` escapes unchanged |
| Semantics.EvalFor | src/evaluator.js:188-200 | the loop leaves the enclosing environment unchanged |
| EvalFacts.BindParamsFrom | src/evaluator.js:146-147 | parameter binding from a position on: exactly the parameters are added, other bindings are kept, and each parameter gets its positional argument |
| EvalFacts.BindParamsBinds | src/evaluator.js:146-147 | a call's scope is the caller's bindings plus each parameter bound positionally, missing arguments undefined, the last duplicate winning |
| Evaluator.Environment.constructor | extension.js:12 | a scope holding the given bindings |
| Evaluator.Runtime.constructor | extension.js:14 | an empty store and output |
| Evaluator.Runtime.Allocate | src/evaluator.js:91 | stores the object in place exactly as `Alloc` |
| Evaluator.Runtime.Evaluate | src/evaluator.js:44-223 | every node case updates the environment and runtime in place to exactly the state and outcome of `Eval` |
| Evaluator.Runtime.EvaluateEach | src/evaluator.js:114-116 | the argument map, left to right, agrees with `EvalEach` |
| Evaluator.Runtime.EvaluateBlock | src/evaluator.js:160-168 | the block loop agrees with `EvalBlock` |
| Evaluator.Runtime.EvaluateCall | src/evaluator.js:118-158 | the call dispatch agrees with `EvalCall` |
| Evaluator.Runtime.CallBuiltin | src/evaluator.js:2-42 | the built-ins update the runtime exactly as `CallBuiltin` |
| Evaluator.Runtime.CallUser | src/evaluator.js:145-153 | binds the parameters in a fresh copy and runs the body, agreeing with `CallUser` |
| Evaluator.Runtime.EvaluateFor | src/evaluator.js:188-200 | the iteration loop over fresh scopes agrees with `EvalFor` |
| EvalFacts.EvalFrame | src/evaluator.js:44-223 | evaluation keeps every binding and changes only names its own assignments bind; the store only gains objects and grows arrays at their end; output only gains `print` lines |
| EvalFacts.EachFrame | src/evaluator.js:114-116 | the same frame property for evaluating a list |
| EvalFacts.BlockFrame | src/evaluator.js:160-168 | the same frame property for a block |
| EvalFacts.BlockSnoc | src/evaluator.js:160-167 | one more statement at the end of a block runs after the others complete, in the environment and store they left, and gives the block its value |
| EvalFacts.CallFrame | src/evaluator.js:118-158 | the same frame property for the call dispatch |
| EvalFacts.UserFrame | src/evaluator.js:140-154 | a user call only grows the store and output |
| EvalFacts.ForFrame | src/evaluator.js:188-200 | a loop only grows the store and output |
| EvalFacts.GrowsTrans | src/evaluator.js:44-223 | growth of the world composes |
| EvalFacts.EnvFrameTrans | src/evaluator.js:44-223 | environment frames compose, with the union of the names |
| EvalFacts.AllocGrows | src/evaluator.js:91 | allocation only grows the world |
| EvalFacts.BuiltinGrows | src/evaluator.js:2-42 | built-ins only grow the world, and write only `print` lines |
| EvalFacts.PushGrows | src/evaluator.js:121-124 | `push` only grows the world |
| EvalFacts.AssignmentEffect | src/evaluator.js:92-112 | an assignment binds its name to its value and changes no other name except those its right side assigns; a function literal becomes a new record without running its body; assigning one to a built-in name fails and changes nothing |
| EvalFacts.ForYieldsLastItem | src/evaluator.js:188-200 | a loop whose body is the item visits every element in order; its value is the last element and nothing else changes |
| EvalFacts.PushingLoopNeverEnds | src/evaluator.js:190-197 | since the length is read before every iteration, a body that pushes onto the iterated array exhausts any fuel |
| EvalFacts.PushingForStatementNeverEnds | src/evaluator.js:179-201 | `for (x) in (xs) { xs.push(x) }` over a non-empty array never completes |
| ProgramFacts.NestEvaluates | src/evaluator.js:61-73 | a left-nested chain of `+`, `-`, `*` evaluates to the left fold of its terms and has no effect |
| ProgramFacts.ChainProgramValue | extension.js:6-25 | the program `n0 ±n1 ±n2 ...` returns its left-to-right value, with an empty environment and no output |
| ProgramFacts.Nums | src/evaluator.js:50-53 | the values of numerals are the numbers, in order |
| ProgramFacts.EachNumLits | src/evaluator.js:90-91 | numerals evaluate to their numbers in order, with no effect |
| ProgramFacts.ArrayLiteralEvaluates | src/evaluator.js:90-91 | an array literal of numerals stores one new array of those numbers and returns it |
| ProgramFacts.ArrayProgramValue | extension.js:6-25 | the program `[n1, ..., nk]` leaves that one array in the store and returns it |
| ProgramFacts.ForOverArrayLiteral | src/evaluator.js:179-201 | `for (x) in ([...]) { x }` returns the last number, or null for an empty array |
| ProgramFacts.ParsedCallFails | src/evaluator.js:113-158 | a call node built by `parseFunctionCall` never completes; once its arguments are evaluated it fails as an unknown function |
| ProgramFacts.CallProgramIsReported | extension.js:16-22 | the program `name(n)`, `print` included, prints nothing and reports an unknown function at line 1 |
| ProgramFacts.BareIterableProgramIsReported | src/evaluator.js:182 | `for (x) in xs {}` reports an unknown node type at line 1 and runs nothing |
| ProgramFacts.OneStatement | extension.js:16-22 | a one-statement program returns that statement's value, or reports it at line 1 |
| Driver.Interpret | extension.js:6-25 | the statement loop over one shared environment and runtime returns exactly `Run`: a parse failure escapes before any statement runs |
| DriverFacts.RunSnoc | extension.js:16-22 | the statement loop is a left fold of one step per statement |
| DriverFacts.ProgramSnoc | extension.js:11-24 | one more statement at the end of a program is one more step after the shorter program |
| DriverFacts.ReportsInOrder | extension.js:16-22 | reports are appended after earlier output, carry the line of a statement that ran, and come in program order |
| DriverFacts.RunEnvFrame | extension.js:12-18 | the shared environment keeps every binding and changes only names the statements assign |
| DriverFacts.CleanRunBindsAssignments | extension.js:16-22 | when no statement fails, every top-level assignment has bound its name by the end |
| DriverFacts.RunFacts | extension.js:6-25 | every report names a line between 1 and the number of statements, in increasing order; the final environment holds only assigned names |
| DriverFacts.CompletionNamesBoundAfterCleanRun | extension.js:35-45 | after a run in which no statement fails, every name the completion provider offers is bound |
| Driver.AssignmentNames | extension.js:40-44 | a name is listed exactly when some top-level statement assigns it; there are no more names than statements |
| DriverFacts.AssignmentNamesAppend | extension.js:40-44 | the names of two programs in a row are the first one's followed by the second one's: source order is kept and duplicates are not merged |
| DriverFacts.AssignmentNamesOne | extension.js:41-43 | one statement contributes its name exactly when it is an assignment |
| Driver.DeclaredNames | extension.js:35-45 | the collection loop returns exactly `AssignmentNames` of the parsed program (in program order, by `AssignmentNamesAppend`), and nothing when parsing fails |

## Left out

- The tokenizer is not part of this model: its source is not shown, and the
  token sequence is an input.
- The editor integration is left out: activation, completion items, the run
  command, the status bar and the output channel (extension.js:27-111). The
  output channel is modelled only as a list of lines.
- Printed lines are not rendered as text. A `print` line records the
  arguments and the store at that moment. An error report records the line
  number and the error kind, not the message text.
- `random` and `exit` are left out because they are nondeterministic or end
  the host process. A call of either gives the outcome `Unmodelled`.
- Floating-point numbers, fractional numerals and JavaScript's mixed-type
  coercions are left out. Numbers are integers, and `/` is modelled only when
  it divides exactly. Any other operand mix for the arithmetic and ordered
  operators gives `Unmodelled`.
- Reflective property and method lookup is left out, except for an array's
  `length` and `push` and a string's `length`. Any other property or method
  on a value that is not null or undefined gives `Unmodelled`.
- Names inherited from `Object.prototype` (such as `toString`) are left out.
  The source's `name in functions` and `typeof functions[name]` checks
  treat those names as built-ins.
- `Number(text)` is modelled only for decimal digits. Other numerals are read
  digit by digit.
- Unbounded recursion and endless loops are bounded by fuel: each user call
  and each loop iteration costs one unit. The model does not distinguish a
  program that would run forever (or exhaust the stack) from one that needs
  more fuel than it was given.
- Grammar.AssignmentAt: states only that a `(` after `=` gives a function
  literal, not the converse. A function literal can also only come from a
  `(` after `=`, but that would need a proof that the parser never builds one
  anywhere else.
- Semantics.EvalFor: the loop result is tied to the body's evaluation
  through the imperative method and the frame lemmas. The only result
  theorem about a specific loop body is `EvalFacts.ForYieldsLastItem`.
- Values.Utf16: strings are sequences of Unicode scalar values, so a
  JavaScript string holding an unpaired surrogate cannot be represented.
  The tokenizer, which is outside this model, is the only source of string
  literals.
