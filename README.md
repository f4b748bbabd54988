# Spreadsheet formula engine

This is a Dafny model of the engine of a small Java spreadsheet: `Spreadsheet.java` and the `Cell` objects it stores. The model proves properties about the engine.

The `Cell.java` listing has only the content field and its accessors. `Spreadsheet.java` also calls `getEvaluatedValue` and `setEvaluatedValue` on a cell (lines 99 and 112-113), so the model's `Cell` adds a cached-value field, `Cells.Cell.SetEvaluatedValue` and `Cells.Cell.GetEvaluatedValue`, inferred from those uses.

Cells are addressed by a key made of the column letters followed by the row number, such as `A1`. A cell holds one of three things:

- a number,
- arbitrary text,
- a formula starting with `=`.

A formula is one of two kinds:

- a call of `MAX`, `MIN`, `SUM` or `AVERAGE` over comma-separated arguments. Each argument is a non-negative decimal or a rectangular range `A1:B2`.
- arithmetic over digit strings, cell references and the operators `+ - * /`. It is evaluated with an operand stack and an operator stack.

Evaluation keeps a set of visited keys and fails with a circular-reference error when it re-enters one. Setting a cell's content also maintains an index from each referenced key to the cells that mention it, then re-evaluates the dependents of the changed key.

## Modules

| module | file | what it holds |
|---|---|---|
| `Wrappers` | `wrappers.dfy` | `Option`, `Result` and `Outcome` |
| `Text` | `text.dfy` | the Java string operations the engine uses: `trim`, `split` on one character, the split around operator characters, digit strings |
| `Decimal` | `decimal.dfy` | `Double.parseDouble` on plain decimal text |
| `Format` | `format.dfy` | `String.format("%.1f", v)` and reading its output back |
| `Errors` | `errors.dfy` | one error constructor per exception the engine raises |
| `Formula` | `formula.dfy` | token classes, `createKey`, `precedence`, `applyOperator`, and the two stacks driven one token at a time |
| `Grouping` | `grouping.dfy` | a reference definition of left-associative, two-level precedence (`Expr`), and the proof that the stack algorithm computes it |
| `Evaluation` | `evaluation.dfy` | `evaluateFormula`, `parseMultipleRanges`, `parseRange` and `extractRange` as functions over a snapshot of the cells |
| `EvaluationFacts` | `evaluation_facts.dfy` | properties of those functions: literals, references, arguments, ranges |
| `Dependencies` | `dependencies.dfy` | the dependency index and how `setCellContent` rewires it |
| `SelfReference` | `self_reference.dfy` | a formula that mentions its own key always fails to evaluate |
| `Cells` | `cell.dfy` | class `Cell` |
| `Sheet` | `spreadsheet.dfy` | class `Spreadsheet`, whose methods mirror the Java methods |
| `Scenarios`, `RangeScenarios`, `SheetScenarios` | `scenarios.dfy`, `range_scenarios.dfy`, `sheet_scenarios.dfy` | the JUnit scenarios of `SpreadsheetTest.java`, stated as lemmas and methods |

Class `Spreadsheet` keeps the Java fields:

- `cells` is a `map<string, Cell>` of heap objects updated in place.
- `visitedCells` is a `set<string>`.
- `dependencies` is a `map<string, set<string>>`.

Every evaluation method is proved equal to the matching function of `Evaluation`, over `Snapshot()`. `Snapshot()` is the value view of the cells. Each evaluation method also returns with `visitedCells` as it found it.

Two facts follow from the code as written and are proved:

- **Propagation only reaches the key itself.** `setCellContent` removes the index entry that lists the dependents of the changed key. It then registers every scanned token shaped like a reference. Range arguments and decimals never enter the index. A bare reference inside a call, such as `=SUM(A1)`, does enter it, because the scan also cuts at `(` and `)`; such an argument is then rejected with "Invalid range" (`SelfReference.ReferenceInArguments`). Since the key's own entry was removed first, the only dependent propagation can reach is the key itself, and only when its formula mentions it.
- **An update succeeds exactly when the content does not mention its own key.** When it succeeds it caches no value.

## Model

| member | source | states |
|---|---|---|
| `Cells.Cell.constructor` | Cell.java:5-7 | a new cell has content `""` and no cached value |
| `Cells.Cell.SetContent` | Cell.java:10-12 | replaces the content and may change nothing else; the cached value survives |
| `Cells.Cell.GetContent` | Cell.java:15-17 | returns the current content |
| `Cells.Cell.ToString` | Cell.java:20-23 | the printed form is exactly the content |
| `Cells.ContentRoundTrip` | Cell.java:10-17 | `getContent` after `setContent(s)` returns `s`, and the cached value is unchanged |
| `Cells.Cell.SetEvaluatedValue` | Spreadsheet.java:99 | caches the given value |
| `Cells.Cell.GetEvaluatedValue` | Spreadsheet.java:112 | returns the cached value, if any |
| `Sheet.Spreadsheet.constructor` | Spreadsheet.java:44-45 | a new sheet has no cells, an empty index and nothing under evaluation |
| `Sheet.Spreadsheet.GetCellContent` | Spreadsheet.java:106-116 | the text a reference to the cell reads is `Display` of the snapshot, the same text the `Evaluation` functions read a reference as |
| `Sheet.Spreadsheet.SetCellContent` | Spreadsheet.java:53-79 | <ul><li>the key set grows by exactly the key; the cell already under the key is reused, or a fresh one is made; every other key keeps its object and content</li><li>the index becomes `Rewire` of the old one</li><li>the call succeeds iff the content does not mention its own key</li><li>a successful call changes no cached value</li><li>for a key that names itself, a failure carries the error that evaluating its content gives</li></ul> |
| `Sheet.Spreadsheet.PutContent` | Spreadsheet.java:54-71 | the content goes into the existing cell or a new one under the key; no other cell and no cached value changes |
| `Sheet.Spreadsheet.RewireDependencies` | Spreadsheet.java:58-68 | the loop over the scanned tokens leaves the index equal to `Rewire`: the key's dependents entry removed, then the key added under each reference token |
| `Sheet.Spreadsheet.AddDependency` | Spreadsheet.java:82-85 | the index equals `AddEdge` of the old one |
| `Sheet.Spreadsheet.Propagate` | Spreadsheet.java:73-78 | when the key's only possible dependent is itself: passes iff the content does not mention the key, and then leaves every cell as it was; for a self-naming key, fails with the error evaluation of the content gives |
| `Sheet.Spreadsheet.UpdateDependentCells` | Spreadsheet.java:88-103 | <ul><li>no dependents: passes and changes nothing</li><li>no cached value is ever cleared</li><li>a key that is its own only dependent and holds a formula: fails; with the CircularReference error if the key is under evaluation, otherwise with the error of evaluating its content</li><li>contents, the index and the visited set are never changed</li></ul> |
| `Sheet.Spreadsheet.RefreshDependent` | Spreadsheet.java:92-101 | <ul><li>a visited dependent: fails with CircularReference</li><li>a missing or non-formula dependent: skipped</li><li>a formula whose evaluation fails: fails with that error and changes nothing</li><li>a formula that evaluates: the dependent holds a cached value afterwards</li><li>no cached value is ever cleared</li></ul> |
| `Sheet.Spreadsheet.EvaluateFormula` | Spreadsheet.java:145-218 | the result equals the `Eval` function; `visitedCells` is restored on every path, failures included; no cell changes |
| `Sheet.Spreadsheet.EvaluateBody` | Spreadsheet.java:153-185 | the try block equals `EvalBody`: empty content, literal, the four functions, arithmetic |
| `Sheet.Spreadsheet.EvaluateFunction` | Spreadsheet.java:169-184 | a function branch equals `EvalFunction`: extract the arguments, evaluate them, reduce |
| `Sheet.Spreadsheet.ParseMultipleRanges` | Spreadsheet.java:119-134 | the loop's values equal `EvalArgs` of the comma-separated parts, in order, and stop at the first failing part |
| `Sheet.Spreadsheet.ParseArgument` | Spreadsheet.java:123-130 | one trimmed argument's values equal `EvalArg`: a decimal gives its value, a range its cells' values, anything else fails with "Invalid range" |
| `Sheet.Spreadsheet.ParseRange` | Spreadsheet.java:221-254 | the values equal `EvalRange`: the cells between the corners, column by column, each column top to bottom |
| `Sheet.Spreadsheet.WalkRange` | Spreadsheet.java:237-252 | the outer loop yields `EvalCells` of `RangeKeys`, in column-major order |
| `Sheet.Spreadsheet.WalkColumn` | Spreadsheet.java:238-251 | the inner loop extends the values by one column, or fails with the error of the first failing cell of the whole range |
| `Sheet.Spreadsheet.WalkCell` | Spreadsheet.java:239-250 | one cell of the walk either extends the values walked so far by that cell's value or fails the whole range with that cell's error |
| `Sheet.Spreadsheet.ReadCell` | Spreadsheet.java:240-247 | a cell already under evaluation is a circular reference; any other cell's value is `Eval` of its displayed content |
| `Sheet.Spreadsheet.EvaluateArithmetic` | Spreadsheet.java:187-213 | the token loop, with its inner reduction loop and the final loop, equals `RunTokens` over the split tokens |
| `Sheet.Spreadsheet.ReduceFor` | Spreadsheet.java:196-198 | the inner while loop's stacks equal `Reduce`: operators of at least the incoming operator's precedence are applied, or the first failing application's error |
| `Sheet.Spreadsheet.FinishStacks` | Spreadsheet.java:208-212 | the final while loop and the last pop equal `Finish`: every remaining operator is applied, then the top value is the result |
| `Sheet.Spreadsheet.PopApply` | Spreadsheet.java:197 | one pop-apply-push equals `ApplyTop` |
| `Dependencies.ScannedTokens` | Spreadsheet.java:61-62 | no tokens exactly when the content does not start with `=`; otherwise the split of the rest around `+ * / ( ) -` |
| `Dependencies.Register` | Spreadsheet.java:63-67 | definition: the scan loop, adding the key under each reference-shaped token in turn; `Dependencies.RegisterSpec` states its result |
| `Dependencies.Rewire` | Spreadsheet.java:58-68 | definition: remove the key's own entry, then `Register` the scanned tokens; `Dependencies.OnlySelfDependent` and `Dependencies.RewireElsewhere` state its result |
| `Dependencies.AddEdge` | Spreadsheet.java:82-85 | adds the dependency's entry if it is missing and puts the dependent into it; no other entry changes |
| `Dependencies.RegisterSpec` | Spreadsheet.java:61-68 | after the scan, a key has an entry iff it had one or is a reference token of the formula; the key is added to exactly the entries of those tokens |
| `Dependencies.OnlySelfDependent` | Spreadsheet.java:58-68 | after rewiring, the changed key has an entry iff its own formula mentions it, and that entry is exactly the key |
| `Dependencies.RewireElsewhere` | Spreadsheet.java:58-68 | for every other key, rewiring only ever adds the changed key to its dependents |
| `Formula.CreateKey` | Spreadsheet.java:48-50 | the key starts with the column text and continues with the row's decimal digits, or `-` for a negative row |
| `Formula.ApplyOperator` | Spreadsheet.java:266-274 | fails exactly on `/` with a zero right operand, with DivisionByZero; `Grouping.ApplyIsArith` shows it computes `a op b` |
| `Formula.Precedence` | Spreadsheet.java:257-263 | 1 exactly for `+ -`, 2 exactly for `* /`, -1 for anything else |
| `Formula.ApplyTop` | Spreadsheet.java:197 | fails exactly on a stack of fewer than two values (EmptyStack) or a `/` whose top value is zero (DivisionByZero); otherwise pops the top operator and the two top values and pushes `applyOperator` of them |
| `Formula.Reduce` | Spreadsheet.java:196-198 | after the inner loop, the operator on top of the stack binds strictly less tightly than the incoming operator |
| `Formula.SelfNaming` | Spreadsheet.java:48-50 | a key made from upper-case letters and a non-negative row is a reference token that names itself again |
| `Formula.RefKeyCanonical` | Spreadsheet.java:200-204 | the key a reference resolves to is a reference that resolves to itself |
| `Formula.ReferenceParts` | Spreadsheet.java:201-202 | removing digits from a reference leaves its letters; keeping digits leaves its row digits |
| `Grouping.ApplyIsArith` | Spreadsheet.java:266-274 | `applyOperator(op, b, a)` computes `a op b`: the value popped first is the right operand |
| `Grouping.Arith` | Spreadsheet.java:268-271 | the only arithmetic failure is division by zero |
| `Grouping.ExprZeroDivisor` | Spreadsheet.java:271 | any division by a zero operand makes the whole expression fail |
| `Grouping.StacksFollowPrecedence` | Spreadsheet.java:192-213 | for every alternating chain of numbers and operators, the two-stack algorithm equals `Expr`. `Expr` is the reference definition: `*` and `/` group first, and both levels associate to the left |
| `Grouping.RunFrom` | Spreadsheet.java:192-208 | from any stack state of the expected shape, the remaining tokens finish with the value of `Expr` |
| `Grouping.StepShape` | Spreadsheet.java:195-199 | one operator step keeps the stacks in the shape that `Expr` predicts |
| `Grouping.FinishShape` | Spreadsheet.java:210-213 | the final loop turns a stack state of that shape into `Expr` of the whole chain |
| `Evaluation.Eval` | Spreadsheet.java:145-150 | definition: a key already under evaluation fails with CircularReference; otherwise `EvalBody` with the key marked; `Sheet.Spreadsheet.EvaluateFormula` is proved equal to it |
| `Evaluation.EvalBody` | Spreadsheet.java:153-213 | definition: empty content fails, plain content is `parseDouble`, the four function prefixes go to `EvalFunction`, anything else to `RunTokens`; `EvaluationFacts.LiteralValue` states the literal cases |
| `Evaluation.EvalFunction` | Spreadsheet.java:169-184 | definition: extract the argument text, evaluate the comma-separated arguments, reduce with `Combine` |
| `Evaluation.EvalArgs` | Spreadsheet.java:119-134 | definition: the arguments' values concatenated in order, stopping at the first failing argument; `EvaluationFacts.ArgsStep`, `ArgsPrefixError` and `ArgsAccepted` state its behaviour |
| `Evaluation.EvalRange` | Spreadsheet.java:221-236 | definition: split at `:`, then `EvalCells` of the keys between the corners; `EvaluationFacts.RangeAsCells` states it |
| `Evaluation.EvalCells` | Spreadsheet.java:237-252 | definition: each key's value in order, failing on a visited key or on the first cell that fails; `EvaluationFacts.CellsStep` and `CellsLength` state its behaviour |
| `Evaluation.RunTokens` | Spreadsheet.java:187-213 | definition: classify and push each token, reducing by precedence, then the final loop; `Grouping.StacksFollowPrecedence` and `EvaluationFacts.FormulaFollowsPrecedence` prove it equals `Expr` |
| `Evaluation.Display` | Spreadsheet.java:106-116 | the text read for a cell is never empty, so the emptiness check at line 246 never skips a cell |
| `Evaluation.MaxOf` | Spreadsheet.java:172 | the maximum is one of the values and no value exceeds it |
| `Evaluation.MinOf` | Spreadsheet.java:176 | the minimum is one of the values and no value is below it |
| `Evaluation.Combine` | Spreadsheet.java:169-184 | fails iff there are no values and the function is not SUM, with "Empty range."; SUM of nothing is 0 |
| `Evaluation.CombineValue` | Spreadsheet.java:169-184 | on values, MAX yields a value of the list no smaller than any other, MIN one no larger than any other, SUM the sum and AVERAGE the sum over the count |
| `Evaluation.AverageBetween` | Spreadsheet.java:181-184 | the average lies between the minimum and the maximum |
| `Evaluation.ExtractRange` | Spreadsheet.java:136-141 | succeeds iff the text starts with `NAME(` and ends with `)`; otherwise fails with "Invalid formula" |
| `Evaluation.ExtractRangeOfCall` | Spreadsheet.java:136-141 | on `NAME(inner)` it yields the trimmed `inner` |
| `Evaluation.RangeCorners` | Spreadsheet.java:223-230 | splitting a range argument at `:` gives exactly the two corners |
| `Evaluation.ColumnKeys` | Spreadsheet.java:238-239 | one key per row from the first to the last, in order |
| `Evaluation.RangeKeys` | Spreadsheet.java:237-239 | empty iff the end column or the end row is before the start |
| `Evaluation.EvalArg` | Spreadsheet.java:123-130 | an argument that is neither a decimal nor a range fails with "Invalid range"; a successful one is a decimal or a range |
| `Evaluation.TokenItem` | Spreadsheet.java:192-207 | a token that is not a reference fails only when it is not a digit string or an operator, and then with "Invalid token" |
| `EvaluationFacts.DigitsContent` | Spreadsheet.java:159-161 | digit-only content evaluates to its decimal value |
| `EvaluationFacts.ZeroText` | Spreadsheet.java:110 | the `"0"` read for an unset cell evaluates to 0 |
| `EvaluationFacts.LiteralValue` | Spreadsheet.java:154-165 | non-formula content: empty fails with EmptyCell, unparsable fails with "Invalid value", otherwise its parsed value |
| `EvaluationFacts.ReferenceIsNoNumber` | Spreadsheet.java:193-200 | a reference token is neither a digit string nor an operator |
| `EvaluationFacts.ReferenceToVisited` | Spreadsheet.java:200-204 | a reference to a key under evaluation fails with CircularReference for that key |
| `EvaluationFacts.UnsetReferenceIsZero` | Spreadsheet.java:200-204 | a reference to an absent or empty cell is 0 |
| `EvaluationFacts.NumberReference` | Spreadsheet.java:200-204 | a reference to an uncached digit cell is that number |
| `EvaluationFacts.FormattedIsNoFormula` | Spreadsheet.java:112-113 | a formatted cached value never starts with `=` |
| `EvaluationFacts.FormattedValue` | Spreadsheet.java:112-113 | a formatted cached value evaluates to the value rounded half up to tenths |
| `EvaluationFacts.CachedReferenceIsRounded` | Spreadsheet.java:112-113 | a reference to a cell with a cached value reads that value rounded to tenths |
| `EvaluationFacts.AdmissibleChars` | Spreadsheet.java:192-207 | an accepted token holds only digits, upper-case letters and operators |
| `EvaluationFacts.FailingTokenFails` | Spreadsheet.java:192-207 | one failing token anywhere makes the token loop fail |
| `EvaluationFacts.StrayTokenFails` | Spreadsheet.java:188-207 | a character other than a digit, an upper-case letter or an operator in arithmetic makes it fail, so decimals and spaces are rejected |
| `EvaluationFacts.StrayCharacterFails` | Spreadsheet.java:166-207 | the same for a whole arithmetic formula |
| `EvaluationFacts.TokensAsItems` | Spreadsheet.java:192-208 | when every token classifies successfully, the loop runs on the classified items |
| `EvaluationFacts.FormulaFollowsPrecedence` | Spreadsheet.java:187-213 | tokens that classify as a chain of numbers and operators evaluate to `Expr` of that chain |
| `EvaluationFacts.ArgsStep` | Spreadsheet.java:122-131 | each argument appends its values to those of the arguments before it, or its error ends the loop |
| `EvaluationFacts.ArgCases` | Spreadsheet.java:123-130 | a decimal gives its value, a range gives the range's values, anything else fails with "Invalid range" |
| `EvaluationFacts.ArgsPrefixError` | Spreadsheet.java:122-131 | an error in the first arguments is the error of the whole list |
| `EvaluationFacts.ArgsAccepted` | Spreadsheet.java:122-131 | a successful argument list holds only decimals and ranges |
| `EvaluationFacts.ArgsFirstInvalid` | Spreadsheet.java:128-129 | the first argument that is neither fails the call with "Invalid range" for its trimmed text |
| `EvaluationFacts.NoValues` | Spreadsheet.java:172-184 | with no values, SUM is 0 and MAX, MIN and AVERAGE fail with "Empty range." |
| `EvaluationFacts.CellsStep` | Spreadsheet.java:239-250 | each cell of a range appends its value, or fails with CircularReference when visited, or with its own error |
| `EvaluationFacts.CellsPrefixError` | Spreadsheet.java:237-252 | an error in the first cells of a range is the error of the whole range |
| `EvaluationFacts.CellsLength` | Spreadsheet.java:237-252 | a successful range has exactly one value per cell, unset cells included |
| `EvaluationFacts.UnsetCellIsZero` | Spreadsheet.java:106-110 | an absent cell in a range evaluates to 0 |
| `EvaluationFacts.UnsetCellsAreZero` | Spreadsheet.java:237-252 | a range of absent cells yields one 0 per cell |
| `EvaluationFacts.RangeEmptyIffDescending` | Spreadsheet.java:237-252 | a successful range yields no values iff its end column or end row is before its start |
| `EvaluationFacts.CellsEmptyIff` | Spreadsheet.java:237-252 | the same, stated over corner columns and rows |
| `EvaluationFacts.RangeAsCells` | Spreadsheet.java:229-235 | both corners are references, and the range's values are those of the keys between the corners |
| `EvaluationFacts.RangeKeysCover` | Spreadsheet.java:237-239 | a key is walked iff it is `col + row` for a column and a row within the corners |
| `EvaluationFacts.RangeWalkStart` | Spreadsheet.java:223-235 | the split at `:` has two parts, each with a column letter, and the walk over their letters and rows is the range's value |
| `SelfReference.CallTokens` | Spreadsheet.java:62 | the dependency scan of `NAME(inner)` yields the name, `(`, the tokens of `inner`, and `)` |
| `SelfReference.ReferenceNotAccepted` | Spreadsheet.java:124-126 | a bare reference is neither a decimal nor a range argument |
| `SelfReference.DelimiterRejected` | Spreadsheet.java:124-126 | an argument containing an operator or a parenthesis is neither a decimal nor a range |
| `SelfReference.ReferenceInArguments` | Spreadsheet.java:119-130 | arguments whose scan contains a reference token have an argument that is neither a decimal nor a range |
| `SelfReference.FunctionSelfReference` | Spreadsheet.java:168-185 | a function call whose scan contains a reference token fails |
| `SelfReference.ArithmeticSelfReference` | Spreadsheet.java:188-207 | arithmetic that mentions a self-naming key under evaluation fails |
| `SelfReference.SelfReferenceFails` | Spreadsheet.java:145-218 | content whose dependency scan mentions its own self-naming key fails to evaluate as that key |
| `Decimal.ParseDecimal` | Spreadsheet.java:161 | definition: `Double.parseDouble` on trimmed text with an optional sign, digits, point, exponent and type suffix; `Decimal.ParseDigits`, `ParseNumeral` and `ParseBody` state its values |
| `Decimal.ParseDigits` | Spreadsheet.java:193-194 | a digit string parses to its decimal value |
| `Decimal.ParseNumeral` | Spreadsheet.java:124-125 | every argument matching `\d+(\.\d+)?` parses |
| `Decimal.ParseUnsignedDotted` | Spreadsheet.java:124-125 | `ip.fp` parses to `ip + fp / 10^len(fp)` |
| `Decimal.ParseBody` | Spreadsheet.java:161 | a signed body parses to the signed value of its unsigned part |
| `Format.FormatOneDecimal` | Spreadsheet.java:113 | the text ends in a point and one digit; `Format.FormatParses` proves it reads back as the value rounded to tenths |
| `Format.FormatParses` | Spreadsheet.java:113 | the `%.1f` text of a value parses back to the value rounded half up to tenths |
| `Text.Tokenize` | Spreadsheet.java:62 | never empty, and a single empty token exactly for empty text; `Text.SplitShape` states the split |
| `Text.SplitOn` | Spreadsheet.java:121 | no part contains the separator; `Text.SplitOnCovers` shows no other character is lost |
| `Text.Trim` | Spreadsheet.java:123 | the result neither starts nor ends with a space or control character; `Text.TrimKeeps` shows every other character is kept |
| `Text.SplitShape` | Spreadsheet.java:188 | the split around operators loses and adds nothing; every token is one operator or a run without operators; two runs are never adjacent |
| `Text.SplitOnCovers` | Spreadsheet.java:121 | splitting at a separator keeps every other character in some part |
| `Text.TrimKeeps` | Spreadsheet.java:123 | trimming keeps every non-space character |
| `Text.NatToStringRoundTrip` | Spreadsheet.java:49 | the digits written for a row read back as the same row |
| `Scenarios.LeftAssociative` | Spreadsheet.java:196-213 | `=10-5-2` evaluates to 3 |
| `Scenarios.SumAndProduct` | SpreadsheetTest.java:27-41 | with A1=10 and B1=20, `=A1+B1` is 30 and `=A1*B1` is 200 |
| `Scenarios.BinaryFormula` | SpreadsheetTest.java:36 | with A1=10 and B1=20, `=A1 op B1` is `Expr` of the chain `10 op 20` |
| `Scenarios.SingleReference` | Spreadsheet.java:200-213 | a formula that is one reference evaluates to that reference's value or error |
| `Scenarios.SelfEntry` | Spreadsheet.java:146-149 | a one-letter, one-digit key whose formula is itself fails with CircularReference |
| `Scenarios.CircularPair` | SpreadsheetTest.java:79-100 | with A1=`=B1` and B1=`=A1`, evaluating `=A1` as A1 and `=B1` as B1 both fail with CircularReference |
| `Scenarios.MutualReferences` | SpreadsheetTest.java:84-92 | any two distinct self-naming keys whose formulas name each other fail with CircularReference |
| `Scenarios.CycleThroughOther` | SpreadsheetTest.java:84-92 | with A1=`=B1` and B1=`=A1`, evaluating A1's own display text fails with CircularReference for A1 |
| `RangeScenarios.SquareKeys` | Spreadsheet.java:237-239 | `A1:B2` walks A1, A2, B1, B2 in that order |
| `RangeScenarios.SquareCall` | SpreadsheetTest.java:55-61 | a function over `A1:B2` whose cells hold numbers reduces the values of A1, A2, B1, B2 |
| `RangeScenarios.FunctionsOverSquare` | SpreadsheetTest.java:44-62 | with A1..B2 = 10, 20, 30, 40: SUM is 100, MAX is 40, AVERAGE is 25 |
| `RangeScenarios.SumOverSquare` | SpreadsheetTest.java:64-77 | with A1=5, A2=15, B1=10, B2=20: SUM is 50 |
| `RangeScenarios.SingleArgument` | Spreadsheet.java:169-184 | a function of one argument reduces that argument's values |
| `SheetScenarios.SetThenGet` | SpreadsheetTest.java:13-14 | on a sheet with nothing cached, setting non-empty content under a self-naming key and reading it back returns the content; the update passes iff the content does not mention the key |
| `SheetScenarios.SetAndGet` | SpreadsheetTest.java:8-23 | setting A1, B1 and C1 on a new sheet to "Hello", "42" and "=A1+B1" reads back those texts, and none of the three updates fails |

## Left out

- Console output and tracing are output only and are not modelled. This covers the table and listing methods and the `println` calls at Spreadsheet.java lines 11-41, 76, 152, 216, 248 and 275-279.
- Saving and loading a file (Spreadsheet.java:283-331) are file I/O and are not modelled.
- `Main.java` is an interactive console menu and is not part of this model.
- Numbers are exact `real`s, not IEEE doubles. Rounding of `+ - * /` is not modelled.
- `Formula.ApplyOperator`: division by zero is an explicit `DivisionByZero` error, as in `Grouping.Arith` below.
- `Grouping.Arith`: division by zero is an explicit `DivisionByZero` error. In Java it yields an infinity or NaN and evaluation continues.
- `Decimal.ParseDecimal` accepts an optional sign, digits with an optional point and fraction, an optional exponent, and a trailing `f`/`d` suffix, all around trimmed whitespace. Hexadecimal floats, `NaN` and `Infinity` are treated as unparsable.
- `Format.FormatOneDecimal` assumes a locale whose decimal separator is `.` and rounds half up on exact reals.
- Rows are unbounded integers. The overflow of `Integer.parseInt` on long digit runs, and the wrap-around of `row++`, are not modelled.
- Java's `EmptyStackException` (for example `=5+`) and a pop from an empty stack are one `EmptyStack` error kind.
- The guard at Spreadsheet.java:225-227 cannot fire, because an argument only reaches `parseRange` after matching `[A-Z]+\d+:[A-Z]+\d+`. `Evaluation.RangeCorners` proves the split yields exactly two parts. The model has no branch for it.
- The emptiness check at Spreadsheet.java:246 always passes, because `Evaluation.Display` is never empty. The model evaluates every cell.
- `Sheet.Spreadsheet.UpdateDependentCells` visits the dependents of a key in no fixed order, standing for `HashSet` iteration order.
- `Sheet.Spreadsheet.UpdateDependentCells`: the unbounded recursion is bounded by `MaxDepth`, which stands for the JVM call stack. Running out of it is a `StackOverflow` error. Beyond the self-loop and no-dependent cases, the state it leaves after refreshing a chain of dependents is not stated. The index never holds such a chain after `setCellContent`.
- `Sheet.Spreadsheet.RefreshDependent`: on the successful branch (Spreadsheet.java:97-100) it is proved that the dependent ends up with a cached value, not which one: the recursive `UpdateDependentCells` may re-cache it through a chain of dependents, whose end state is not stated (see above).
- `Sheet.Spreadsheet.SetCellContent`: the link between a failure and the evaluation error, and the promise that a failure caches nothing, are stated only for keys that are not references or that name themselves when read back as one. Column `A0` with row 1 gives the key `A01`, which a formula reads back as `A1`. That cell's formula may then evaluate another cell first.
- `Sheet.Spreadsheet.SetCellContent` puts the cell into `cells` before rewiring the index, whereas Java rewires first (Spreadsheet.java:58-71). The two steps touch disjoint fields, so the resulting state is the same.
- `Sheet.Spreadsheet.SetCellContent` returns a `Fail` outcome where Java throws, and Java's exception type is not kept. The message kind is kept as an `EvalError`.
- Null arguments are not modelled. The content and column are always strings.
- The Java `regex` split corner cases beyond those used here are modelled directly: cut before and after each operator character, an empty text giving one empty token, and trailing empty parts dropped by the one-character split.
