# live-js code instrumentation, modelled in Dafny

live-js is an in-browser JavaScript playground. Before the user's code is
evaluated, three Babel plugins rewrite its syntax tree
(`src/utils/babel/index.js`):

- **log interception** (`customLogTransformPlugin`): every
  `console.log(args…)` call becomes `customLogFunction(line, args…)`, where
  `line` is the call's source line. The plugin compares names only, so a
  computed `console[log]` also matches.
- **loop guarding** (`infiniteLoopSafetyPlugin` with `addLoopCheck`): every
  `while`, `do-while` and counting `for` loop gets a fresh counter declared
  just before it (`let _loopCounter = 0`). Its body becomes
  `_loopCounter++; if (_loopCounter > 10000) { onError(new Error(msg), line); break; }`
  followed by the original statements. `line` is the start line of the loop
  body, or 0 when the body has no location.
- **comment normalisation** (`replaceCommentsPlugin`): every leading and
  trailing `CommentLine` below the program becomes a `CommentBlock` with the
  same text.

Two helpers in `src/utils/index.js` are also modelled:

- `diffLines` turns a line diff's change list into editor `add`/`remove`
  operations, using a running line number.
- `extractLineNumberFromError` reads the line out of the first
  `<anonymous>:<line>:<column>` in an error's stack text.

The project has these modules:

- `Syntax`: a closed, typed syntax tree. Every node has an `Info` holding
  its start line (optional) and its leading, trailing and inner comments.
- `LogInterception`, `LoopGuard` and `CommentNormalization`: the three
  passes, as recursive functions over the tree. Each function states the
  pass's invariant and the pass's identity on subtrees it does not touch.
  Each pass also states what it keeps. The log pass keeps the skeleton, a
  ghost image in which a `console.log(a…)` call starting on line `n` and a
  `customLogFunction(n, a…)` call look the same. The loop pass relates its
  output to its input: taking the added declarations, increments and limit
  checks out of the output (`Unguard`, which keeps only the line each check
  reports) gives the input's plain form (`Plain`, in which every loop body
  is a block that starts with the line its check must report). The comment
  pass keeps the shape, a ghost image with every comment style erased.
  The comment pass's `forEach` over one comment array is also a method that
  updates the array in place.
- `Uid`: Babel's `generateUidIdentifier("loopCounter")`, over a ledger of
  names already known in the scope.
- `GuardedExecution`: what a guarded loop does when executed, with its test
  abstracted as the sequence of values it takes.
- `EditorDiff`: `diffLines`, as a method with the source's loops, proved
  against a specification function. The properties are lemmas about that
  function.
- `ErrorLine` and `Digits`: the regular-expression match and `parseInt`.

Babel's `replaceWith` is modelled as follows. The new node takes over the
replaced node's comments and has no location. A statement that is moved
into the new node keeps its location but loses its comments. `insertBefore`
on a loop inside a statement list puts the declaration just before the
loop. On a loop in a single-statement slot (an `if` branch, a loop body), it
wraps the declaration and the loop in a new block.

## Model

| member | source | states |
|---|---|---|
| LogInterception.InterceptExpr | src/utils/babel/index.js:4-18 | fails exactly when some `console.log` call in the expression has no location; otherwise no `console.log` call is left; an expression with no such call is returned unchanged; a name and the console-log-callee test are preserved; the skeleton is kept, so everything except the rewritten calls stays as it was, and each rewritten call passes its own start line first |
| LogInterception.RewriteLogCall | src/utils/babel/index.js:9-17 | a matched call with a location becomes a `customLogFunction` call whose first argument is the call's own start line, with no `console.log` left in it, and with the same skeleton as the original call, so the other arguments are the original ones, rewritten; without a location it fails |
| LogInterception.InterceptChildren | src/utils/babel/index.js:4-9 | a node that is not a matched call keeps its info and constructor and its skeleton, which fixes everything but the rewritten calls and the line each of them passes; only its children are rewritten, with the same failure, completeness and identity guarantees |
| LogInterception.InterceptNodeChildren | src/utils/babel/index.js:4-9 | same as `InterceptChildren` for identifiers, literals, member accesses, updates and binary operations |
| LogInterception.InterceptNewChildren | src/utils/babel/index.js:4-9 | same as `InterceptChildren` for `new`, which stays a `new` |
| LogInterception.InterceptOtherChildren | src/utils/babel/index.js:4-9 | same as `InterceptChildren` for the other expressions, which keep their tag |
| LogInterception.InterceptCallChildren | src/utils/babel/index.js:4-9 | same as `InterceptChildren` for a call that is not matched; it stays a call, and it is a `customLogFunction` call exactly when it was one |
| LogInterception.InterceptAll | src/utils/babel/index.js:14 | an argument list is rewritten exactly when every matched call in it has a line, keeps its length and skeleton (each rewritten call passing its own line), has no matched call left, and is unchanged when it held none |
| LogInterception.InterceptAllPointwise | src/utils/babel/index.js:14 | each element of a rewritten argument list is the intercepted original at the same position |
| LogInterception.InterceptOpt | src/utils/babel/index.js:4-18 | same guarantees, skeleton with each rewritten call's line included, for an optional expression |
| LogInterception.InterceptDeclarator | src/utils/babel/index.js:4-18 | same guarantees, skeleton with each rewritten call's line included, for a variable declarator, which keeps its own info |
| LogInterception.InterceptDeclarators | src/utils/babel/index.js:4-18 | same guarantees, skeleton with each rewritten call's line included, for a declarator list |
| LogInterception.InterceptHead | src/utils/babel/index.js:4-18 | same guarantees, skeleton with each rewritten call's line included, for a `for` loop head |
| LogInterception.InterceptOptHead | src/utils/babel/index.js:4-18 | same guarantees, skeleton with each rewritten call's line included, for the optional initialiser of a `for` |
| LogInterception.InterceptStmt | src/utils/babel/index.js:4-18 | same guarantees, skeleton with each rewritten call's line included, for a statement |
| LogInterception.InterceptLoop | src/utils/babel/index.js:4-18 | same guarantees, skeleton with each rewritten call's line included, for `while`, `do-while` and `for`; a `do-while` test is visited before its body |
| LogInterception.InterceptEach | src/utils/babel/index.js:4-18 | same guarantees, skeleton with each rewritten call's line included, for `for-in` and `for-of` |
| LogInterception.InterceptOtherStmt | src/utils/babel/index.js:4-18 | same guarantees, skeleton with each rewritten call's line included, for the statements that are not loops |
| LogInterception.InterceptOptStmt | src/utils/babel/index.js:4-18 | same guarantees, skeleton with each rewritten call's line included, for the optional `else` branch of an `if` |
| LogInterception.InterceptStmts | src/utils/babel/index.js:4-18 | same guarantees, skeleton with each rewritten call's line included, for a statement list |
| LogInterception.InterceptLogs | src/utils/babel/index.js:1-22 | the pass over a program: fails exactly when a `console.log` call has no location; otherwise none is left; a program without any is unchanged; the skeleton of the program is kept, so nothing but the matched calls changes and each of them becomes a `customLogFunction` call passing its own start line first |
| LogInterception.LogCallRewritten | src/utils/babel/index.js:10-17 | a matched call at line L becomes `customLogFunction(L, a1', …, an')`: one more argument, the line first, then each original argument intercepted, in order; the comments carry over |
| LogInterception.LogCallArgumentsMoved | src/utils/babel/index.js:12-17 | arguments without logging calls of their own are passed through unchanged after the line |
| LogInterception.SkeletonFixesLine | src/utils/babel/index.js:10-15 | a `customLogFunction` call with the skeleton of a `console.log` call at line L passes exactly L as its first argument |
| LogInterception.OtherCallKeepsShape | src/utils/babel/index.js:5-9 | any other call keeps its info, callee position and number of arguments |
| LogInterception.InterceptLogsIdempotent | src/utils/babel/index.js:5-17 | applying the pass to its own output changes nothing more |
| LogInterception.ExampleLogAtLine7 | src/utils/babel/index.js:10-17 | `console.log("hi", x)` at line 7 becomes `customLogFunction(7, "hi", x)` |
| LogInterception.ExampleComputedAccess | src/utils/babel/index.js:5-7 | `console[log]()` matches because only names are compared; `console["log"]()` does not |
| Uid.Candidate | src/utils/babel/index.js:75 | every candidate starts with `_loopCounter`; only the first has no numeric suffix |
| Uid.CandidateInjective | src/utils/babel/index.js:75 | different indices give different candidate names |
| Uid.FirstFreeIndex | src/utils/babel/index.js:75 | the first suffix index at or after `i` whose candidate name is not in the ledger; all earlier candidates are taken |
| Uid.GenerateUid | src/utils/babel/index.js:75 | the generated counter name is not among the names the scope already knows |
| Uid.GenerateUidIsFirstFree | src/utils/babel/index.js:75 | the generated name is the first free one of `_loopCounter`, `_loopCounter2`, `_loopCounter3`, … |
| Uid.GenerateUidFirstNames | src/utils/babel/index.js:75 | an empty scope gives `_loopCounter`; once that is taken, `_loopCounter2` |
| LoopGuard.ReportedLine | src/utils/babel/index.js:73 | the reported line is the loop body's start line, or 0 when the body has no location |
| LoopGuard.WithBody | src/utils/babel/index.js:119 | replacing a loop's body keeps its kind and its header: a `for`'s init, test and update, another loop's test |
| LoopGuard.AddLoopCheck | src/utils/babel/index.js:69-120 | gives two statements: the declaration of `name`, then the loop with its info and kind, whose new body increments `name` first |
| LoopGuard.GuardStatementsGuarded | src/utils/babel/index.js:77-105 | the declaration, increment and limit check hold no loop, and the check is recognisable as the limit check on the counter |
| LoopGuard.RebodyCounter | src/utils/babel/index.js:111-115 | the new body increments the counter it was built with first |
| LoopGuard.GuardedLoopFacts | src/utils/babel/index.js:107-119 | a rebuilt loop with its declaration contributes its own counter, then its header's, then its body's, and has the guarded shape |
| LoopGuard.GuardedLoopShape | src/utils/babel/index.js:107-119 | the rebuilt loop keeps its kind, its counter is the name it was built with, and its body takes over the old body's comments and starts with the increment and the limit check reporting the body's line |
| LoopGuard.UnguardGuardedLoop | src/utils/babel/index.js:107-119 | a rebuilt loop with its declaration unguards to the plain loop when its header and remaining body statements do |
| LoopGuard.GuardExpr | src/utils/babel/index.js:24-38 | the ledger grows by exactly the counters of the output, one per guarded loop of the input; the output is guarded; an expression without loops is unchanged; `Unguard` of the output is `Plain` of the input, so nothing but the guards changes |
| LoopGuard.GuardExprs | src/utils/babel/index.js:24-38 | same guarantees, `Unguard` of the output being `Plain` of the input, for an expression list |
| LoopGuard.GuardListExpr | src/utils/babel/index.js:24-38 | same guarantees as `GuardExpr` for calls and `new` |
| LoopGuard.GuardOtherExpr | src/utils/babel/index.js:24-38 | same guarantees as `GuardExpr` for the other expressions |
| LoopGuard.GuardOpt | src/utils/babel/index.js:24-38 | same guarantees, `Unguard` of the output being `Plain` of the input, for an optional expression |
| LoopGuard.GuardDeclarator | src/utils/babel/index.js:24-38 | same guarantees, `Unguard` of the output being `Plain` of the input, for a declarator |
| LoopGuard.GuardDeclarators | src/utils/babel/index.js:24-38 | same guarantees, `Unguard` of the output being `Plain` of the input, for a declarator list |
| LoopGuard.GuardHead | src/utils/babel/index.js:24-38 | same guarantees, `Unguard` of the output being `Plain` of the input, for a `for` loop head |
| LoopGuard.GuardOptHead | src/utils/babel/index.js:24-38 | same guarantees, `Unguard` of the output being `Plain` of the input, for an optional `for` loop head |
| LoopGuard.GuardHeader | src/utils/babel/index.js:24-38 | a loop's header is traversed; the kind and body are kept; same ledger, count, shape and identity guarantees; `Unguard` of the new header is `Plain` of the old one |
| LoopGuard.GuardLoop | src/utils/babel/index.js:69-120 | at a loop: the ledger grows by exactly the loop's own fresh counter plus those of the loops inside it; the result is two statements, the declaration of the first free name and the loop with its info and kind; its header is kept when it holds no loop; its body is a block taking over the old body's comments, starting with the increment and the limit check reporting the body's line, followed by the original statements when they hold no loop; `Unguard` of the two statements is the plain loop, so header and body change only by the guards of this loop and of the loops inside it |
| LoopGuard.GuardInList | src/utils/babel/index.js:117 | a statement in a list becomes two statements, the declaration of the counter its body increments and the loop with its info and kind, when it is a `while`, `do-while` or `for` loop; any other statement stays one statement with its info and kind; in both cases `Unguard` of the result is the plain statement |
| LoopGuard.GuardBodyStatements | src/utils/babel/index.js:107-109 | a block body's statements, or the single body statement, are guarded; a body without loops gives exactly the original statements; `Unguard` of the result is `Plain` of the body's statements |
| LoopGuard.GuardChildren | src/utils/babel/index.js:24-37 | a statement that is not a `while`, `do-while` or `for` loop keeps its info and constructor; only its children are guarded, and `Unguard` of the result is the plain statement |
| LoopGuard.GuardOther | src/utils/babel/index.js:24-37 | a statement of the generic kind (functions, `switch`, `try`, labels, …) keeps its info and kind; its expressions and slots are guarded, and `Unguard` of the result is the plain statement |
| LoopGuard.GuardIf | src/utils/babel/index.js:24-37 | an `if` stays an `if` with its info and with or without its `else`; its test and branches are guarded, and `Unguard` of the result is the plain `if` |
| LoopGuard.GuardEach | src/utils/babel/index.js:24-37 | `for-in` and `for-of` stay unguarded and keep their kind; the loops nested in them are guarded, and `Unguard` of the result is the plain statement |
| LoopGuard.GuardEachParts | src/utils/babel/index.js:24-37 | the head, object and body of a `for-in` or `for-of` are traversed in that order, with the same ledger, count, shape and identity guarantees; `Unguard` of each part is `Plain` of the original part |
| LoopGuard.GuardSlot | src/utils/babel/index.js:117 | a loop in a single-statement slot becomes a block, taking over the loop's comments, that holds the declaration of the counter the loop increments and the loop with its kind; any other statement keeps its info and constructor; the slot never holds a bare `while`, `do-while` or `for` loop; `Unguard` of the result is `Plain` of the slot |
| LoopGuard.GuardSlots | src/utils/babel/index.js:24-38 | same guarantees, `Unguard` of the output being `Plain` of the input, for a list of single-statement slots |
| LoopGuard.GuardListItem | src/utils/babel/index.js:117 | one statement of a list, as `GuardInList`: one statement, or two ending with a guarded loop, whose `Unguard` is the plain statement |
| LoopGuard.GuardList | src/utils/babel/index.js:117 | a statement list: every guarded loop is immediately preceded by the declaration of the counter its body increments; `Unguard` of the result is `Plain` of the list, so no statement is added, dropped or reordered besides the guards |
| LoopGuard.GuardLoops | src/utils/babel/index.js:24-38 | the pass over a program: ledger growth, one counter per loop, guarded shape, identity on loop-free programs; `Unguard` of the output is `Plain` of the input: the output is the input with only the declarations, increments and limit checks (each reporting its loop body's line) added and loop bodies turned into blocks |
| LoopGuard.GuardLoopsFreshCounters | src/utils/babel/index.js:75-79 | the counters are pairwise distinct, including nested loops' counters; none was known to the scope before; there is one per loop; the ledger afterwards is the old one plus exactly these |
| LoopGuard.GuardInListIsAddLoopCheck | src/utils/babel/index.js:69-120 | at a loop with no loop inside it, the traversal is exactly `addLoopCheck` with the first free name |
| LoopGuard.AddLoopCheckShape | src/utils/babel/index.js:72-119 | `let name = 0` comes just before the loop; the kind, header and info are kept; the body is the increment, then the check `> 10000` reporting the body's line, then the original block's statements or the single statement |
| LoopGuard.ExampleWhileTrue | src/utils/babel/index.js:69-120 | `while (true) { x++; }` with its body on line 1 becomes `let _loopCounter = 0; while (true) { _loopCounter++; if (_loopCounter > 10000) {…1…} x++; }` |
| LoopGuard.ExampleNestedNames | src/utils/babel/index.js:75 | in `while (a) { while (b) {} }` the outer loop gets `_loopCounter` and the inner one `_loopCounter2` |
| GuardedExecution.RunFrom | src/utils/babel/index.js:81-105 | a guarded loop either ends by itself, after at most 10000 iterations that the original loop also starts, or is cut off with the reported line after 10000 body executions, when the original would start iteration 10001 |
| GuardedExecution.StoppedIffOverLimit | src/utils/babel/index.js:93-105 | the guard fires, reporting the body's line once after 10000 iterations, exactly when the original loop would start more than 10000 iterations |
| GuardedExecution.FinishedIffEndsWithinLimit | src/utils/babel/index.js:70 | a loop ending by itself within 10000 iterations runs exactly as unguarded, and conversely |
| GuardedExecution.InfiniteLoopStopped | src/utils/babel/index.js:93-105 | `while (true)` and `do … while (true)` are cut off after 10000 iterations |
| GuardedExecution.FalseTestIterations | src/utils/babel/index.js:27-35 | `do … while (false)` executes its body once, `while (false)` never |
| CommentNormalization.NormalizeComment | src/utils/babel/index.js:48-51 | the result is a block comment with the same text; a block comment is unchanged |
| CommentNormalization.NormalizeList | src/utils/babel/index.js:47-52 | same length and order, each comment normalised, only block comments remain; a list of block comments is unchanged |
| CommentNormalization.NormalizeInPlace | src/utils/babel/index.js:47-60 | the `forEach` that assigns `type` in place leaves the array equal to the normalised list of its old contents |
| CommentNormalization.NormalizeInfo | src/utils/babel/index.js:46-61 | leading and trailing comments become block comments with the same lengths and texts; the location and inner comments are unchanged, so the shape is kept |
| CommentNormalization.InfoDeterminedByShape | src/utils/babel/index.js:46-61 | two normalised infos with the same shape are equal: keeping the shape and leaving only block comments fixes the result |
| CommentNormalization.NormalizeExpr | src/utils/babel/index.js:44-63 | no line comment remains in any leading or trailing list of the expression; the shape (everything but the comment styles) is kept; an already normalised one is unchanged |
| CommentNormalization.NormalizeExprKind | src/utils/babel/index.js:44-63 | same guarantees for the children of an expression |
| CommentNormalization.NormalizeNodeKind | src/utils/babel/index.js:44-63 | same guarantees for the children of identifiers, literals, member accesses, updates and binary operations |
| CommentNormalization.NormalizeListKind | src/utils/babel/index.js:44-63 | same guarantees for the children of calls, `new` and the other expressions |
| CommentNormalization.NormalizeExprs | src/utils/babel/index.js:44-63 | same guarantees, shape included, for an expression list |
| CommentNormalization.NormalizeOpt | src/utils/babel/index.js:44-63 | same guarantees, shape included, for an optional expression |
| CommentNormalization.NormalizeDeclarator | src/utils/babel/index.js:44-63 | same guarantees, shape included, for a declarator and its own comments |
| CommentNormalization.NormalizeDeclarators | src/utils/babel/index.js:44-63 | same guarantees, shape included, for a declarator list |
| CommentNormalization.NormalizeHead | src/utils/babel/index.js:44-63 | same guarantees, shape included, for a `for` loop head |
| CommentNormalization.NormalizeStmt | src/utils/babel/index.js:44-63 | same guarantees, shape included, for a statement |
| CommentNormalization.NormalizeStmtKind | src/utils/babel/index.js:44-63 | same guarantees for the children of a statement |
| CommentNormalization.NormalizeLoopKind | src/utils/babel/index.js:44-63 | same guarantees for the children of the five loop statements |
| CommentNormalization.NormalizeOtherKind | src/utils/babel/index.js:44-63 | same guarantees for the children of the statements that are not loops |
| CommentNormalization.NormalizeStmts | src/utils/babel/index.js:44-63 | same guarantees, shape included, for a statement list |
| CommentNormalization.NormalizeOptStmt | src/utils/babel/index.js:44-63 | same guarantees, shape included, for the optional `else` branch of an `if` |
| CommentNormalization.NormalizeOptHead | src/utils/babel/index.js:44-63 | same guarantees, shape included, for the optional initialiser of a `for` |
| CommentNormalization.NormalizeComments | src/utils/babel/index.js:40-67 | every node below the program has only block comments in its leading and trailing lists; the shape of the program is kept; a normalised program is unchanged |
| CommentNormalization.NormalizeCommentsIdempotent | src/utils/babel/index.js:46-61 | normalising twice is normalising once |
| EditorDiff.Split | src/utils/index.js:24 | `split('\n')` gives at least one piece, and no piece holds a newline |
| EditorDiff.JoinSplit | src/utils/index.js:24 | joining the pieces of a split with newlines gives back the text |
| EditorDiff.SplitJoin | src/utils/index.js:24 | splitting a join of newline-free pieces gives back the pieces |
| EditorDiff.NonEmpty | src/utils/index.js:24 | `filter(Boolean)` keeps only non-empty strings, drawn from the input, and is no longer than it |
| EditorDiff.Lines | src/utils/index.js:24 | a change's lines are non-empty and newline-free |
| EditorDiff.LinesOfText | src/utils/index.js:24 | the text of non-empty lines, with or without a final newline, has exactly those lines |
| EditorDiff.Utf16Length | src/utils/index.js:51 | `line.length` counts UTF-16 units: between one and two per character |
| EditorDiff.Utf16LengthOfBmp | src/utils/index.js:51 | for characters of the Basic Multilingual Plane it is the number of characters |
| EditorDiff.AppendChangeOps | src/utils/index.js:26-57 | the loop for one change appends exactly that change's operations from the current line number |
| EditorDiff.DiffLines | src/utils/index.js:17-65 | the method returns the operations of the change list from line 1 |
| EditorDiff.AddOpsShape | src/utils/index.js:29-42 | one insertion per line, at line `line + k`, with the line's text |
| EditorDiff.RemoveOpsShape | src/utils/index.js:44-56 | one deletion per line, at line `line + k`, ending one past the line's UTF-16 length |
| EditorDiff.ChangeOpsSpec | src/utils/index.js:28-57 | an unchanged chunk gives no operations; an added or removed one gives one per non-empty line, on consecutive single lines from the running number, from column 1; an insertion carries the text and ends at column 1; a deletion ends at length + 1; a chunk flagged both ways counts as added |
| EditorDiff.OperationsConcat | src/utils/index.js:23-62 | operations follow the change order: those of a later part start where the earlier part left the line number |
| EditorDiff.LineAfterKeptLines | src/utils/index.js:20-61 | the running line number starts at 1 and advances by the count of every chunk that was not removed |
| EditorDiff.OperationCount | src/utils/index.js:23-57 | the number of operations is the number of non-empty lines of the added and removed chunks, whatever their counts say |
| EditorDiff.ExampleReplaceSecondLine | src/utils/index.js:17-65 | replacing line `b` by `c` in `a\nb\n` deletes line 2 (columns 1 to 2) and inserts `c` at line 2 |
| EditorDiff.BlankLineDropped | src/utils/index.js:21-24 | the empty segment between two newlines in `x\n\ny\n` is filtered out, leaving the lines `x` and `y` |
| EditorDiff.ExampleBlankLineSkipped | src/utils/index.js:24-42 | in an added chunk `x`, blank, `y`, the blank line gets no operation and `y` is numbered right after `x` |
| ErrorLine.DigitRun | src/utils/index.js:68 | `\d+` takes the maximal run of ASCII digits |
| ErrorLine.FirstMatch | src/utils/index.js:68-69 | the leftmost position where the pattern matches, or none when it matches nowhere |
| ErrorLine.LineDigits | src/utils/index.js:68-71 | the captured group is a non-empty digit string |
| ErrorLine.ExtractLineNumber | src/utils/index.js:67-76 | a number exactly when `<anonymous>:<digits>:<digit>` occurs; it is the decimal value of the first occurrence's line digits, otherwise null |
| ErrorLine.ExtractPrintedLine | src/utils/index.js:67-72 | `…<anonymous>:<n>:<c>…` after text without `<` yields `n` |
| ErrorLine.NoMarkerNoLine | src/utils/index.js:73-75 | text without `<anonymous>:` yields null |
| ErrorLine.ExampleMissingColumn | src/utils/index.js:68 | `<anonymous>:12` without a column yields null |
| Digits.ParseDecimal | src/utils/index.js:72 | `parseInt(…, 10)` of a digit string of length k is less than 10^k |
| Digits.ParseDecimalOfDecimal | src/utils/index.js:72 | reading back a printed number with `parseInt(…, 10)` gives the number |

## Left out

- `src/utils/ai/index.js` (a network call to a remote text-generation service) and `debounce` (timers) are not part of this model.
- The `diff` library that computes the change list is foreign code; its change list is the input of `EditorDiff.DiffLines`.
- Babel's parser, printer and scope analysis are not modelled. The names a scope already knows are a parameter (the ledger).
- Babel's visitor dispatch is modelled as recursion in a fixed order: a loop is handled on entry, then its header, then its body. Babel re-queues the nodes that `replaceWith` and `insertBefore` create; the model guards each loop once and does not revisit them. For a loop in a single-statement slot this can matter: Babel probably visits the new `{ let _loopCounter = 0; loop }` block again and may guard the loop a second time (with `_loopCounter2` and line 0), so the model's output for such loops may differ from Babel's.
- Syntax outside the modelled node kinds (functions, objects, `switch`, `try`, labels, …) is one generic expression or statement kind. Its statement children are single-statement slots. A loop placed directly in a `switch` case's list is therefore wrapped in a block instead of getting a sibling declaration.
- A labelled loop (`outer: while (…) …`) is the generic statement kind with the loop in a single-statement slot. The model therefore wraps it as `outer: { let _loopCounter = 0; while … }`, where Babel puts the declaration before the label; in the model's output a `continue outer` inside the loop would no longer name a loop.
- `onError` and `customLogFunction` are opaque names.
- Numeric literals are integers; JavaScript's floating point is not modelled.
- `Digits.ParseDecimal`: does not model `parseInt`'s loss of precision above 2^53, because line numbers never get that large.
- `GuardedExecution.RunFrom`: the body's own `break`, `continue`, `return` and exceptions are not modelled. The loop test is abstracted as a sequence of values; the body cannot affect the counter because its name is fresh.
- `LoopGuard.GuardLoops`: states the output up to the counter names. The names are stated fresh, pairwise distinct and one per loop (`LoopGuard.GuardLoopsFreshCounters`). That each is the first free `_loopCounter` name at its point of the traversal is stated by `LoopGuard.GuardLoop` for the loop it handles and not for the whole program, because that would need the ledger at every loop.
- `LogInterception.RewriteLogCall`: the source reads `loc.start.line` without a check, so a node without a location throws. The model returns `Err(MissingLocation)` instead.
- JavaScript's `null` is `None`.
