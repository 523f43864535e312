# yamp expression tokenizer, modelled in Dafny

This project models the tokenizer of the `yamp` arithmetic-expression
package. The tokenizer reads an expression rune by rune. It turns the
expression into a sequence of tokens: numbers (kept as their text),
operators and parentheses. Otherwise it returns the first syntax error it
meets, as a kind, the offending token text and a rune position.

The core is four Go files, and each has its own Dafny module.

- `operator.dfy` (module `Operators`) models `operator.go`. It holds the
  fixed operator table: each operator type's symbol, precedence,
  associativity and arity, and the four role predicates.
- `registry.dfy` (module `Registry`) models `registry.go`.
  - The operator registry maps a rune to an ordered list of operator
    variants.
  - `GetOperator` returns the first variant that passes every filter. This
    is how `+` is told apart as a sign (`Plus`) or as addition, and how `!`
    is recognised as postfix.
  - `OperatorRegistry.Register` appends a variant in place.
  - The token registry classifies runes into digit, decimal point,
    bracket, operator and whitespace.
- `bracket.dfy` (module `Brackets`) models `bracket.go`: the bracket
  values and the append-only bracket-depth log (`bracketStack`), a class
  whose methods append to the log or clear it.
- `tokenizer.dfy` (module `Tokenizer`) models `tokenizer.go`.
  - The pure functions `DigitStep`, `DecimalPointStep`, `LeftParenStep`,
    `RightParenStep`, `OperatorStep` and `Commit` give each handler's
    meaning on a snapshot (`Machine`) of the tokenizer's fields.
  - `Step` is one turn of the loop, and `Run` is the whole loop over the
    input.
  - The class `Tokenizer` has the Go struct's fields. Each of its methods
    updates them in place and is proved to do exactly what the matching
    function says. `Tokenize` is proved to end in the state that `Run`
    describes.
- `tokenizer_props.dfy` (module `TokenizerProps`) proves properties of the
  state machine:
  - how numbers grow, and when an implicit `*` is inserted;
  - the order of the checks on `)` and on operators;
  - that a failure leaves the fields untouched and is the first error;
  - that tokens from earlier calls are carried through;
  - that the bracket depth never goes negative and always matches the
    emitted parentheses.
- `tokenizer_scenarios.dfy` (module `TokenizerScenarios`) works through
  inputs rune by rune. The table-driven tokenizer tests each become a lemma
  about `Tokenized`. A few more lemmas state what `Run` and `Tokenized`
  give for inputs that expose the missing end-of-input check (`"(5"`,
  `"((5)"`, `"."`, `"5+."`).
- `tokenizer_render.dfy` (module `TokenizerRender`) proves the round trip
  under the default registry. The tokens' symbols, read back in order, spell
  the input with its whitespace removed and each implicit `*` written out.
  Tokenizing that text again gives the same tokens. The only exception is a
  lone decimal point at the end of the input, which is dropped.

`token.dfy` (module `Tokens`) holds the token and error types, which the
core uses but does not define. `wrappers.dfy` holds `Option` and `Result`.

The model follows the code as written, including these behaviours a
reader may not expect:

- `Tokenize` never calls `validateFinalState`
  (tokenizer.go:91-95). So `"(5"` is accepted, and so are `"5-"` and
  `"."`. `ValidateFinalState` is modelled as a separate method, and
  `TokenizeOpenParen` states the accepted result for `"(5"`. `Tokenized`
  is what the code returns. `TokenizedValidated` is the same tokenization
  with `FinalCheck` (the meaning of `validateFinalState`) applied before the
  last commit, which is the corrected behaviour.
- `commitCurrentState` clears the pending text but keeps the state.
- `reset` keeps the token list, so a second `Tokenize` on the same
  tokenizer returns the earlier tokens followed by the new ones
  (`TokenizeAppendsToEarlierTokens`).

## Model

| member | source | states |
|---|---|---|
| Operators.Operator.String | operator.go:53-69 | an operator's symbol is one character exactly when its type is known, and `<?>` otherwise |
| Operators.SymbolTable | operator.go:53-69 | the symbol of every known type (`+` for Addition and Plus, `-` for Subtraction and Minus, `*`, `/`, `^`, `!`), and `<?>` for every unknown type |
| Operators.NewOperator | operator.go:49-51 | the operator built from a type reports that type back |
| Operators.Operator.Type | operator.go:72-74 | an operator reports its own type; `NewOperator` states that this is the type it was built from |
| Operators.Operator.Associativity | operator.go:94-102 | Plus, Minus and Power are right-associative and every other type, unknown ones included, is left-associative; `RightAssocTypes` states this |
| Operators.Operator.Arity | operator.go:105-113 | Plus, Minus and Factorial are unary and every other type is binary; `UnaryTypes` states this |
| Operators.IsUnaryOp | operator.go:117-119 | holds exactly for unary operators (Plus, Minus, Factorial); `UnaryTypes` and `ExactlyOneClass` state this |
| Operators.IsBinaryOp | operator.go:123-125 | holds exactly for operators that are not unary; `ExactlyOneClass` states this |
| Operators.IsLeftAssocOp | operator.go:129-131 | holds exactly for operators that are not right-associative; `RightAssocTypes` and `ExactlyOneClass` state this |
| Operators.IsRightAssocOp | operator.go:135-137 | holds exactly for Plus, Minus and Power; `RightAssocTypes` states this |
| Operators.Operator.Precedence | operator.go:77-91 | precedence lies in 0..6 and is 0 exactly for unknown types |
| Operators.PrecedenceOrder | operator.go:77-91 | Addition = Subtraction (2) < Multiplication = Division (3) < Plus = Minus (4) < Power (5) < Factorial (6), and an unknown type ranks below them all |
| Operators.RightAssocTypes | operator.go:94-102 | an operator is right-associative iff its type is Plus, Minus or Power; every other type, unknown ones included, is left-associative |
| Operators.UnaryTypes | operator.go:105-113 | an operator is unary iff its type is Plus, Minus or Factorial; every other type is binary |
| Operators.ExactlyOneClass | operator.go:117-137 | every operator is exactly one of unary or binary, and exactly one of left- or right-associative |
| Operators.PrefixAndPostfix | operator.go:94-113 | the only unary right-associative types are Plus and Minus, and the only unary left-associative type is Factorial |
| Registry.PassesEach | registry.go:107-116 | a variant with only nil filters, or none, always passes; `PassesEachSpec` states the full condition |
| Registry.PassesEachSpec | registry.go:107-116 | the filter loop accepts a variant iff every non-nil filter holds for it |
| Registry.FirstMatch | registry.go:101-121 | a found variant is one of the listed variants, and with no filters the first variant is returned; `FirstMatchSpec` states the full condition |
| Registry.FirstMatchSpec | registry.go:101-121 | the lookup over a variant list finds nothing iff no variant passes all filters; a found variant passes them all, sits in the list, and no earlier variant passes |
| Registry.GetOperator | registry.go:101-121 | a found operator is registered for the rune; `GetOperatorSpec` states the full condition |
| Registry.GetOperatorSpec | registry.go:101-121 | `GetOperator` fails iff no registered variant of the rune passes every filter, an unregistered rune included; a found operator passes every filter and is the earliest such variant |
| Registry.NilFiltersGiveFirst | registry.go:103-111 | with no filters, or only nil ones, the lookup returns the rune's first variant, and fails only when it has none |
| Registry.SwappedFiltersAgree | registry.go:107-116 | filter order does not change the lookup's result |
| Registry.OperatorRegistry.constructor | registry.go:87-91 | a registry starts as the given table |
| Registry.OperatorRegistry.Register | registry.go:94-96 | `Register` appends the operator at the end of the rune's list and leaves every other rune's list unchanged |
| Registry.RegisterLookup | registry.go:94-121 | after `Register`, lookups for other runes are unchanged, and a lookup for the rune finds its earlier match if it had one, else the new operator if that passes the filters |
| Registry.IsOperatorIffRegistered | registry.go:50-53 | a rune is an operator rune iff the registry holds at least one variant for it |
| Registry.SignThenBinary | registry.go:78-85 | with a sign listed before a binary operator, the sign filters pick the sign and the binary filter picks the binary operator |
| Registry.DefaultSignLookups | registry.go:78-85 | in the default registry, `+` and `-` resolve to Plus and Minus as signs, and to Addition and Subtraction as binary operators |
| Registry.DefaultOtherLookups | registry.go:78-85 | in the default registry, `*`, `/` and `^` resolve to Multiplication, Division and Power as binary operators, and `!` to Factorial as postfix |
| Registry.DefaultOperators | registry.go:78-85 | the default table registers exactly `+ - * / ^ !`, each with at least one variant |
| Registry.TokenRegistry.IsDigit | registry.go:45-47 | a digit is one of `0`-`9`; `DefaultClassesDisjoint` shows it is no other class |
| Registry.TokenRegistry.IsOperator | registry.go:50-53 | a lookup with one nil filter succeeds; `IsOperatorIffRegistered` states that this means the rune has a registered variant |
| Registry.TokenRegistry.IsLeftBracket | registry.go:56-59 | only `(` is a left bracket |
| Registry.TokenRegistry.IsRightBracket | registry.go:62-65 | only `)` is a right bracket |
| Registry.TokenRegistry.IsDecimalPoint | registry.go:68-71 | only `.` is a decimal point |
| Registry.TokenRegistry.IsWhitespace | registry.go:74-76 | the Unicode White_Space runes; `DefaultClassesDisjoint` shows none of them is in another class |
| Registry.DefaultOperatorRunes | registry.go:78-85 | under the default registry, the operator runes are exactly `+ - * / ^ !` |
| Registry.DefaultClassesDisjoint | registry.go:45-76 | the default classifiers accept only `(` as left bracket, only `)` as right bracket and only `.` as decimal point, and the rune classes do not overlap |
| Brackets.Bracket.String | bracket.go:22-31 | a bracket prints as `(` iff it is LeftParen, as `)` iff it is RightParen, and as the empty string otherwise |
| Brackets.BracketSides | bracket.go:34-51 | `IsLeft` holds only for LeftParen, `IsRight` only for RightParen, and never both |
| Brackets.Bracket.IsLeft | bracket.go:34-41 | holds only for LeftParen; `BracketSides` states this |
| Brackets.Bracket.IsRight | bracket.go:44-51 | holds only for RightParen; `BracketSides` states this |
| Brackets.LogDepth | bracket.go:79-84 | the depth is 0 for an empty log and otherwise the last entry's depth; `DepthCountsBrackets` relates it to the brackets logged |
| Brackets.BracketStack.Depth | bracket.go:79-84 | the depth of the stack's log, as `LogDepth` gives it |
| Brackets.BracketStack.constructor | bracket.go:59-61 | a new log is empty |
| Brackets.BracketStack.Increment | bracket.go:63-69 | `increment` appends `(idx, depth()+1, b)` and raises the depth by one; an opening bracket keeps a log built by increments of opening brackets and decrements of the others |
| Brackets.BracketStack.Decrement | bracket.go:71-77 | `decrement` appends `(idx, depth()-1, b)` and lowers the depth by one (to -1 from an empty log); a bracket that is not opening keeps a log built by increments of opening brackets and decrements of the others |
| Brackets.BracketStack.Clear | bracket.go:86-88 | `clear` empties the log, and the depth returns to 0 |
| Brackets.OpenCount | bracket.go:63-84 | the number of opening entries in a log: at most its length, all of them when every entry opens, none when no entry does |
| Brackets.DepthCountsBrackets | bracket.go:63-84 | for a log built by increments and decrements, the depth is the number of increments minus the number of decrements |
| Brackets.AdjacentDepths | bracket.go:63-77 | adjacent log entries differ in depth by exactly one, in the direction of the later entry's bracket |
| Brackets.LatestAtDepth | tokenizer.go:315-320 | the backward scan's hit is the latest entry at the wanted depth, and no later entry has that depth |
| Brackets.ScanStopsAtLast | tokenizer.go:309-320 | scanning for the current depth always stops at the last log entry |
| Brackets.ScanReportsClosingBracket | tokenizer.go:309-327 | for `"((5)"` the scan reports entry 2, the `)` at rune index 3 |
| Brackets.InnermostOpen | tokenizer.go:309-327 | the corrected scan's result is a log position, or -1 |
| Brackets.LevelsStillOpen | bracket.go:63-84 | every depth from 1 to the current depth has an opening bracket that was never closed |
| Brackets.InnermostOpenIsUnclosed | tokenizer.go:309-327 | while brackets are open, the corrected scan finds an opening bracket at the current depth that no later entry closes |
| Brackets.InnermostOpenOfExample | tokenizer.go:309-327 | for `"((5)"` the corrected scan reports the first `(`, at index 0 |
| Tokens.NewNumber | number.go:39-43 | a number token prints as the text it was built from |
| Tokenizer.CommitReady | tokenizer.go:226-262 | a pending sign, binary or postfix operator has a variant for its role, because the handler accepts a rune only after that lookup succeeds; so the commit lookups at tokenizer.go:278-288 cannot fail. Every step keeps it |
| Tokenizer.Commit | tokenizer.go:265-289 | committing keeps the earlier tokens and adds at most one; it clears the text and keeps the state, index and log |
| Tokenizer.CommitToken | tokenizer.go:265-289 | committing emits at most one token, and none exactly for the states Nothing and DecimalPoint |
| Tokenizer.DigitStep | tokenizer.go:98-119 | handling a digit keeps a pending operator resolvable |
| Tokenizer.DecimalPointStep | tokenizer.go:121-147 | a successful point keeps a pending operator resolvable; `NumberContinues` and `NumberStarts` state its cases |
| Tokenizer.LeftParenStep | tokenizer.go:149-171 | a successful `(` keeps a pending operator resolvable; `ImplicitMultiplicationBeforeParen` and `LeftParenOpensLevel` state its cases |
| Tokenizer.RightParenStep | tokenizer.go:173-214 | a successful `)` keeps a pending operator resolvable; `RightParenChecks` states its cases |
| Tokenizer.OperatorStep | tokenizer.go:216-263 | a successful operator keeps a pending operator resolvable; `OperatorRoles` states its cases |
| Tokenizer.Handle | tokenizer.go:56-86 | the rune switch keeps a pending operator resolvable |
| Tokenizer.Step | tokenizer.go:56-88 | a successful loop turn keeps a pending operator resolvable and advances the index by exactly one |
| Tokenizer.Run | tokenizer.go:50-89 | the loop's end state, or its state at the failure, holds a resolvable pending operator |
| Tokenizer.StepOfHandle | tokenizer.go:56-88 | a loop turn is the handler's result with the index advanced, or the handler's error |
| Tokenizer.RunAfterHandle | tokenizer.go:50-89 | one loop turn either stops the run at that rune with the handler's error, or continues the run from the handler's state with the index advanced |
| Tokenizer.Tokenized | tokenizer.go:49-96 | what `Tokenize` returns as written: the committed tokens of a run that reads every rune, or the run's first error; `TokenizerRender` proves its round trip |
| Tokenizer.FinalCheck | tokenizer.go:291-330 | the end of input is clean exactly when no lone point, sign or binary operator is pending and no bracket is open; a pending lone point is a LoneDecimal error |
| Tokenizer.TokenizedValidated | tokenizer.go:91-95 | with the end checks applied before the last commit, a tokenization succeeds only where the unchecked one does, with the same tokens, and fails with the same error wherever the unchecked one fails |
| Tokenizer.IndexAtDepth | tokenizer.go:314-320 | the backward loop returns the rune index of the latest log entry at the wanted depth, or 0 when there is none |
| Tokenizer.Tokenizer.constructor | tokenizer.go:39-46 | a new tokenizer has the default registry, no tokens, the Nothing state, empty text, index 0 and an empty log |
| Tokenizer.Tokenizer.Tokenize | tokenizer.go:49-96 | `Tokenize` resets the state and runs the loop. If the run fails, it returns that error and leaves the fields as they were when the rune was read. Otherwise it commits the last lexeme and returns every token, earlier calls' tokens included |
| Tokenizer.Tokenizer.Advance | tokenizer.go:56-88 | one loop turn: on error nothing changes and the run stops here; otherwise the run continues from the next rune |
| Tokenizer.Tokenizer.Consume | tokenizer.go:56-86 | the switch dispatches on the rune's class: whitespace changes nothing, an unknown rune is an error at its index, and an error leaves every field unchanged |
| Tokenizer.Tokenizer.HandleDigit | tokenizer.go:98-119 | `handleDigit` never fails, and the fields end as `DigitStep` says |
| Tokenizer.Tokenizer.HandleDecimalPoint | tokenizer.go:121-147 | `handleDecimalPoint` fails with no field changed, or the fields end as `DecimalPointStep` says |
| Tokenizer.Tokenizer.HandleLeftParen | tokenizer.go:149-171 | `handleLeftParen` fails with no field changed, or the fields and log end as `LeftParenStep` says |
| Tokenizer.Tokenizer.HandleRightParen | tokenizer.go:173-214 | `handleRightParen` fails with no field changed, or the fields and log end as `RightParenStep` says |
| Tokenizer.Tokenizer.HandleOperator | tokenizer.go:216-263 | `handleOperator` fails with no field changed, or the fields end as `OperatorStep` says |
| Tokenizer.Tokenizer.CommitCurrentState | tokenizer.go:265-289 | the fields end as `Commit` says: the pending token is appended and the text cleared |
| Tokenizer.Tokenizer.ValidateFinalState | tokenizer.go:291-330 | returns `FinalCheck` of the fields. The end checks in order: a lone point at index-1; a pending sign or binary operator lacking its right operand at index-1; an open bracket, reported at the scan's hit, which is always the last log entry; otherwise no error |
| Tokenizer.Tokenizer.AppendToken | tokenizer.go:332-334 | the token is appended and nothing else changes |
| Tokenizer.Tokenizer.Reset | tokenizer.go:344-349 | the state returns to the start with an empty log, and the tokens are kept |
| TokenizerProps.CommitEmitsPending | tokenizer.go:265-289 | committing keeps the state, index and log and clears the text. It appends nothing for Nothing or a lone point, the number for Integer or Decimal, the bracket for a bracket state, and a registered variant of the rune for an operator state |
| TokenizerProps.NumberContinues | tokenizer.go:98-109 | a digit or first point extends the pending number with no token emitted; a point makes it decimal; a second point is a MultipleDecimal error |
| TokenizerProps.NumberStarts | tokenizer.go:111-118 | a digit or point that starts a number commits the pending lexeme first and becomes the whole new lexeme |
| TokenizerProps.ImplicitMultiplicationBeforeNumber | tokenizer.go:111-117 | a new number gets a `*` inserted before it iff it follows a `)` or a postfix operator |
| TokenizerProps.ImplicitMultiplicationBeforeParen | tokenizer.go:149-166 | `(` fails iff it follows a lone point; otherwise it gets a `*` inserted before it iff it follows a number, a `)` or a postfix operator |
| TokenizerProps.LeftParenOpensLevel | tokenizer.go:166-170 | `(` becomes the pending lexeme and logs its index one level deeper |
| TokenizerProps.RightParenChecks | tokenizer.go:173-214 | `)` fails, in this order: with nothing open (UnmatchedRightParen at index), after a lone point (LoneDecimal at index-1), after `(` (EmptyParen), or after a sign or binary operator (NoRightOperand at index-1). It succeeds exactly otherwise and closes one level |
| TokenizerProps.OperatorRoles | tokenizer.go:216-263 | an operator rune becomes a sign exactly where no operand precedes and a sign variant exists. Otherwise it becomes postfix if that variant exists, else binary. With neither variant the error is NoRightOperand, and after `(` or an operator it is NoLeftOperand |
| TokenizerProps.OperatorAfterLonePoint | tokenizer.go:218-224 | an operator after a lone point reports LoneDecimal at the point |
| TokenizerProps.DefaultSignOrBinary | tokenizer.go:227-262 | with the default registry, `+` and `-` become signs where no operand precedes and binary operators after one |
| TokenizerProps.DefaultFactorialPostfix | tokenizer.go:255-262 | with the default registry, `!` after an operand is a postfix operator |
| TokenizerProps.WhitespaceSkipped | tokenizer.go:78-79 | whitespace changes nothing but the rune index |
| TokenizerProps.UnknownRejected | tokenizer.go:80-86 | a rune of no class is an UnknownSymbol error at its own index |
| TokenizerProps.StepAdvances | tokenizer.go:88 | a successful loop turn advances the index by one and never drops a token |
| TokenizerProps.HandleExtends | tokenizer.go:98-263 | a successful handler keeps the index and only appends tokens |
| TokenizerProps.FailureIsFirstError | tokenizer.go:50-89 | a failed run reports the first rune whose turn failed; every rune before it succeeded and led to the state reported |
| TokenizerProps.RunIgnoresTokens | tokenizer.go:50-89 | the loop never reads or changes tokens emitted before it started |
| TokenizerProps.TokenizeAppendsToEarlierTokens | tokenizer.go:344-349 | because reset keeps the tokens, a tokenization returns the earlier tokens followed by exactly what a fresh one returns, and fails identically |
| TokenizerProps.CommitAgrees | tokenizer.go:265-289 | after a commit the emitted parentheses alone account for the log's depth |
| TokenizerProps.StepAgrees | tokenizer.go:56-88 | every successful loop turn keeps the bracket invariant: a sound log, and emitted parentheses that never close more than they open and whose balance equals the depth |
| TokenizerProps.RunAgrees | tokenizer.go:50-89 | every run keeps the bracket invariant up to its end or its failure |
| TokenizerProps.TokenizeBracketsBalance | tokenizer.go:173-181 | in a fresh tokenization the depth never goes below zero, and the emitted tokens never close more brackets than they open, and their bracket balance equals the final depth |
| TokenizerProps.LeadingBinaryAccepted | tokenizer.go:246-253 | as written, `*` read first is accepted as a pending binary operator |
| TokenizerProps.LeadingPostfixAccepted | tokenizer.go:246-253 | as written, `!` read first is accepted as a pending postfix operator |
| TokenizerProps.OperatorStepChecked | tokenizer.go:216-263 | the corrected handler keeps a pending operator resolvable |
| TokenizerProps.CheckedOperatorNeedsOperand | tokenizer.go:246-253 | with the corrected check, a binary or postfix operator is accepted only after an operand. Signs and every non-empty state behave as before, and a leading `*` is NoLeftOperand at 0 |
| TokenizerScenarios.Tokenize56 | tokenizer_test.go:26-31 | `"56"` gives the single number `56` |
| TokenizerScenarios.Tokenize5Plus6 | tokenizer_test.go:32-40 | `"5+6"` gives `5`, Addition, `6` |
| TokenizerScenarios.TokenizeSample | tokenizer_test.go:41-61 | `"(10 +- 7.5) / ((-5)7)"` gives the 15 tokens the test lists, with the implicit `*` between `(-5)` and `7` |
| TokenizerScenarios.TokenizeUnknownSymbol | tokenizer_test.go:62-71 | `"5###"` is UnknownSymbol `#` at 1 |
| TokenizerScenarios.TokenizeLonePoint | tokenizer_test.go:72-81 | `".+"` is LoneDecimal at 0 |
| TokenizerScenarios.TokenizeLoneParen | tokenizer_test.go:82-91 | `".("` is LoneDecimal at 0 |
| TokenizerScenarios.TokenizeMissingRightOperand | tokenizer_test.go:92-101 | `"(5*)"` is NoRightOperand `*` at 2 |
| TokenizerScenarios.TokenizeMissingLeftOperand | tokenizer_test.go:102-111 | `"5*/6"` is NoLeftOperand `/` at 2 |
| TokenizerScenarios.TokenizeMultipleDecimal | tokenizer_test.go:112-121 | `"1..5"` is MultipleDecimal at 2 |
| TokenizerScenarios.TokenizeOpenParen | tokenizer.go:91-95 | `"(5"` is accepted as `(`, `5`, because the end checks are never applied; the open bracket is logged at index 0 |
| TokenizerScenarios.TokenizeUnclosedPair | tokenizer.go:91-95 | `"((5)"` is accepted and ends at depth 1, with the `)` at index 3 as the last log entry |
| TokenizerScenarios.TokenizeTrailingPoint | tokenizer.go:91-95 | `"."` ends with the point pending and no token, and is accepted as the empty token list |
| TokenizerScenarios.TokenizeTrailingPointAfterSum | tokenizer.go:91-95 | `"5+."` ends with the point pending and is accepted as `5`, Addition |
| TokenizerRender.NonSpace | tokenizer.go:78-79 | the input with whitespace removed is no longer than the input and holds no whitespace rune |
| TokenizerRender.Spelling | tokenizer.go:111-166 | the text with a `*` written out at each implicit multiplication is never shorter than the text |
| TokenizerRender.HandleSpells | tokenizer.go:56-86 | under the default registry each successful rune switch keeps the spelling invariant, extending the text by the rune unless it is whitespace |
| TokenizerRender.StepSpells | tokenizer.go:56-88 | under the default registry each successful loop turn keeps the spelling invariant: the tokens and the pending text spell the whitespace-free input read so far, and the state matches the last rune |
| TokenizerRender.RunSnoc | tokenizer.go:50-89 | a run over one more rune is the earlier run followed by one more loop turn, and a failed run stays failed |
| TokenizerRender.SpellsAlongRun | tokenizer.go:50-89 | every successful run from the start keeps the spelling invariant over the whole input |
| TokenizerRender.RenderRoundTrip | tokenizer.go:49-96 | the tokens of a successful tokenization spell the input without whitespace and with each implicit `*` written out; when the input ends in a lone point, exactly that point is missing |
| TokenizerRender.TrailingPointDropped | tokenizer.go:91-95 | as written, `"."` gives no tokens and `"5+."` gives `5`, Addition, so their text lacks the point; with the end checks both are LoneDecimal at the point (0 and 2) |
| TokenizerRender.ValidatedRoundTrip | tokenizer.go:291-330 | with the end checks applied, the tokens of every accepted input spell it exactly, without whitespace and with each implicit `*` written out |
| TokenizerRender.StepAlike | tokenizer.go:56-88 | under any registry, a loop turn sees the rune index and the logged indices only through the depth: two machines that agree on the rest accept the same runes and still agree afterwards |
| TokenizerRender.MirroredRun | tokenizer.go:50-89 | when the run over an input succeeds, the run over its spelling succeeds too and ends with the same tokens, state, text and depth |
| TokenizerRender.RetokenizeRendered | tokenizer.go:49-96 | tokenizing the text of a successful tokenization's tokens gives the same tokens, unless the input ends in a lone point |
| TokenizerRender.RetokenizeValidated | tokenizer.go:49-96 | with the end checks applied, tokenizing the text of an accepted input's tokens gives the same tokens, for every input |

## Left out

- `number.go` `Value`, `expr.go` and `parentheses.go` are not part of this model. A number token keeps only its text.
- The earlier copy of the package under `go/` is not part of this model. It is a superseded version that diverges from the root package.
- The scanner plumbing (`bufio.Scanner`, `bytes`, `initialize`) is not modelled. The input is a `string` of runes, read in order. The scanner's own error check (`sc.Err`) cannot fail on an in-memory buffer and is left out.
- `unicode.IsDigit` is modelled as the ASCII digits `0`-`9` only.
- `unicode.IsSpace` is modelled as a fixed list of the Unicode White_Space runes.
- Error message text (`fmt.Sprintf`) is not modelled. An error is its kind, token and position, so the message's index for NoRightOperand at the end of input, which differs from its position, is not captured.
- The nil operator that `commitCurrentState` would append after a failed lookup (`op, _ :=`, tokenizer.go:278-288) is not modelled, because that path cannot be reached. `handleOperator` accepts a rune only after the lookup for its role succeeds (tokenizer.go:226-243). `CommitReady` states this as an invariant: `Start` establishes it, and `Handle`, `Step` and `Run` keep it under every registry.
- The tokenizer's registry is a value here, not connected to `OperatorRegistry`. In Go, `defaultTokenRegistry` shares the `defaultOperators` map, so a `Register` on that map changes later tokenizations. The model does not capture this aliasing; a tokenization uses the table it is given.
- Filters are modelled as total functions `Operator -> bool`, with `None` for a nil filter. A variadic call with no filters is the empty sequence.
- The registry-validation TODO in `NewTokenizer` is not modelled, because it has no code.
- Tokenizer.Tokenizer.constructor: the Go zero value of the state is no flag at all, while the model starts in Nothing. `Tokenize` resets to Nothing before reading, so nothing observable differs.
- The Go interfaces (`Token`, `Operator`, `Bracket`) and nil results are modelled as datatypes and `Option`/`Result`.
- A `bracket` integer other than 1 or 2 is modelled as the single value `Undefined`.
- The main state machine (`Handle`, `Run`, `Tokenized`) follows the code as written, including the findings below. The corrected definitions sit beside it with their properties proved.

## Findings

| source | as written | input that shows it | evidently intended | confidence | as-written member | corrected member |
|---|---|---|---|---|---|---|
| tokenizer.go:309-327 | the backward scan looks for the latest entry whose depth equals the current depth; that is always the last log entry, which may be a `)` | `"((5)"`: the scan reports index 3, the closing bracket | report the innermost opening bracket still unclosed, index 0 for `"((5)"` | not executed | Brackets.ScanReportsClosingBracket | Brackets.InnermostOpenIsUnclosed |
| tokenizer.go:246-253 | the left-operand check lists LeftParen, LeftUnaryOp and BinaryOp but not Nothing, so a binary or postfix operator read first is accepted | `"*5"` or `"!"`: the first rune is accepted as a pending operator (tokenizer_test.go:793-829 expect NoLeftOperand at 0) | a binary or postfix operator with nothing before it is NoLeftOperand at its index | not executed | TokenizerProps.LeadingBinaryAccepted | TokenizerProps.CheckedOperatorNeedsOperand |
| tokenizer.go:91-95 | `Tokenize` commits the last lexeme without calling `validateFinalState` (tokenizer.go:291-330), so a lone point at the end is dropped without an error | `"."` gives no tokens; `"5+."` gives `5`, Addition | apply the end checks before the last commit: LoneDecimal at index 0 for `"."` and at index 2 for `"5+."` | not executed | TokenizerRender.TrailingPointDropped | TokenizerRender.ValidatedRoundTrip |
