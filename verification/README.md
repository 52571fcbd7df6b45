# qmake and Qt Concurrent, modelled and proved in Dafny

This project models the hard algorithms of the repository and proves what they are for. It covers

- the qmake language from the tokenizer's events to the effect of a file: the parser's scope layer, which
  writes a flat stream of 16-bit units with block lengths filled in afterwards (`ProTokens`, `TokenDecoding`,
  `ParserScopes`, `ParserCounts`, `ParserStory`, `ParserScopesProofs`, `QMakeParser`), and the evaluator, which
  walks that stream by position (`TokenWalk`, `VarStack`, `ConditionChain`, `ExprValues`, `ProSemantics`,
  `QMakeEvaluator`, `ProSemanticsProofs`, `BudgetProofs`); both together in `ProFile`;
- programs as text, and what they are parsed to and do (`ProgramText`, `ProgramTextProofs`, `TestLines`,
  `TestChains`, `ParsedTests`, `StrayJumps`);
- the reader for values and the quoting of values (`ValueReader`, `QuoteValue`);
- the dependency sort (`DependsSort`);
- the protocols by which threads share an iteration and a reduction, and the block size that a thread claims
  (`IterateKernel`, `FilterKernel`, `ReduceKernel`, `Median`);
- the walk over the files a source depends on, and matching across backslash-newlines (`DependWalk`,
  `LineSplice`);
- shell quoting and the XML writer (`ShellQuote`, `XmlOutput`).

`dafny verify dfyconfig.toml` checks everything.

## How it is built

Code that changes state is written as classes and loops, each proved against a specification function; the
properties are then proved about the specification, and the classes carry them as invariants.

What a text says is a list of notes (`ParserStory`): every operator, line mark, test, assignment and block head,
each with the place of the note that opened the block it stands in. The notes are read off the events and the
scopes open at each event, and they determine a tree (`ParserStory.FlatUnique`). The parser's stream is proved
to be the layout of that tree, and a layout has one tree only, up to where a line mark is taken to belong
(`TokenDecoding.DecodesUniquely`). In the other direction, a structured program written out as events is
accepted, and its stream is the layout of the program's own tree (`ProgramTextProofs.PrintedParses`), whose
definition knows nothing of the parser's scopes.

The evaluator works on positions in that stream; the trees appear in it as ghost values only, and it is proved
to do what `ProSemantics` says the tree means. So the properties of programs are proved once, on trees.

The concurrent code is a transition system: a step is one atomic operation or the user code of one thread, runs
are arbitrary interleavings of any number of threads, and memory is sequentially consistent.

## What was found

- A jump out of place. `finalizeCall` asks whether `break()`, `next()`, `return(x)` or `bypassNesting()` may
  stand here before `flushScopes` closes the one-line blocks of the line before
  (qmake/library/qmakeparser.cpp:1152-1207). On the line after a one-line `for(...):` or function definition
  they are therefore accepted outside of it. `StrayJumps.StrayBreak` and `StrayJumps.StrayReturn` are files that
  are accepted and whose evaluation ends in a break or a return, in all surroundings;
  `StrayJumps.StrayBreakInFunction` is a function whose call ends in a break. The tree of a text is properly
  nested exactly if `ParserScopesProofs.AllPlaced` holds, the same question asked after the one-line blocks are
  closed (`ParserScopesProofs.ParseWellFormed`). Under it no file and no function ends in a jump. Loops never do
  (`ProSemanticsProofs.LoopEndsInNoJump`), and the laws about frames and termination need no such condition.
- `bypassNesting()` leaves one frame, so the limit of 100 frames does not bound recursion through it: a function
  that calls itself inside such a block exhausts every budget (`BudgetProofs.BypassedRecursionIsStuck`). Without
  such blocks the budget that the model has for it is irrelevant (`BudgetProofs.PlainProgramEnds`).
- Control characters. `quoteValue` writes control characters other than carriage return, line feed and tab as
  `\x` and two digits, which `escape_expand()` does not know: such a value does not come back
  (`QuoteValue.RoundTrip`).
- Windows quoting. The regular expression that doubles trailing backslashes also matches in front of a final
  line feed, so an argument that ends in a backslash and a line feed comes back with its backslashes doubled;
  all other arguments come back (`ShellQuote.WinRoundTrip`).
- Repeated dependencies. A node that lists a dependency twice is queued twice when that dependency is the last
  it waits for, and comes out twice (`DependsSort.ListedTwiceReturnsTwice`). `DependsSort.SortDepends` gives the
  exact condition under which each node comes out once: none lists twice the dependency that is taken last
  (`EachLastOnce`), in the order that the priorities determine (`DependsSort.OrderUnique`). It holds if no
  dependency is repeated.
- The cached median. `Median::addValue` overlooks the overwriting of a slot equal to the cached median
  (`RunningMedian.AddKeepsCorrect`, `RunningMedian.StaleRunIsStale`).
- Exported arguments. `export()` moves a name of digits only, too, and an argument of the running function then
  loses its visible value unless that was empty (`VarStack.ExportedArgument`).
- Closing to a tag with no tag open. `closeTo` asks for the last element of an empty list to print its message
  (qmake/generators/xmloutput.cpp:266-273), which is undefined (`XmlOutputModel.CloseToFirst`). A sequence of
  operations is defined exactly if a tag is open whenever one is closed to (`XmlOutputModel.RunValid`).
- A skipped `return()` still replaces the returned value, as in the code; a function whose last test holds then
  returns it (`ProSemantics`, as used by `QMakeEvaluatorObject.QMakeEvaluator.EvaluateFunction`).

## Assumptions

- The scope layer is driven by what the tokenizer recognizes: operators, braces, assignments, calls and line
  ends, each with its finished expression. Messages are not part of the model, only the ok flag that errors
  clear.
- Streams are shorter than 2^32 units, as positions and block lengths are 32 bits wide.
- What the evaluator asks of its surroundings (environment, properties, renamed variables, active configuration,
  number texts, substitution by regular expressions, builtin functions other than defined, export, unset and
  clear) are the functions in `ProSemantics.World`; a builtin function may replace the top frame. The variables
  and paths set before a file is evaluated are parameters. All functions are defined in the file that is
  evaluated. The mode is the one that is not cumulative.
- Regular expressions in the Windows quoting follow the default of a dollar sign that also matches in front of a
  final line feed. The decoders are the rules that the comments at qmake/library/ioutils.cpp:188-207 state.
- Block sizes in the iteration are between 1 and the bound that `BlockSize.BlockSizeManager` is proved to keep.

## Model

| member | source | states |
|---|---|---|
| `ProTokens.EncLen` | qmake/library/proitems.h:382-386 | a stored block length is two units, low unit first, and reads back as the length below 2^32 |
| `ProTokens.EncItemsAppend` | qmake/library/proitems.h:333-403 | the layout of a list of items is the layouts of its parts one after the other |
| `TokenDecoding.NormalSame` | qmake/library/proitems.h:333-403 | a line mark in front of a test may be read as the test's or as an item of its own: the normal form takes it as its own, with the same layout |
| `TokenDecoding.DecodesUniquely` | qmake/library/proitems.h:333-403 | two trees have the same layout if and only if they have the same normal form: a stream is decoded in one way |
| `QMakeParserObject.QMakeParser.FlushScopes` | qmake/library/qmakeparser.cpp:916-928 | the loop that closes one-line blocks on a fresh line, then a branch that waits for its else, against its recursive specification |
| `QMakeParserObject.QMakeParser.Handle` | qmake/library/qmakeparser.cpp:494-854 | one event: the object's stream remains the layout of its tree with the open blocks' lengths still empty, the story grows by what the event says, and the tree stays nested if and only if the event's jump is placed |
| `QMakeParserObject.QMakeParser.Read` | qmake/library/qmakeparser.cpp:839-868 | a whole text: it is accepted or not as the specification says, and the stream of an accepted one is the layout of the one tree that says what the text says, nested if and only if every jump was placed |
| `ParserScopesProofs.LeaveScopeEnds` | qmake/library/qmakeparser.cpp:900-913 | the length filled in turns the unfinished block into an encoded one, and touches nothing else |
| `ParserScopesProofs.FlushScopesInv` | qmake/library/qmakeparser.cpp:916-928 | keeps the invariant that describes the stream with all its open blocks |
| `ParserScopesProofs.FlushCondInv` | qmake/library/qmakeparser.cpp:931-940 | keeps it while a branch is started: what follows stands in a then block of its own |
| `ParserScopesProofs.PutLineMarkerRep` | qmake/library/qmakeparser.cpp:877-884 | the pending line mark becomes an item of the innermost open block, once |
| `ParserScopesProofs.PutOperatorRep` | qmake/library/qmakeparser.cpp:984-996 | the pending operator becomes an item there, but for an and behind the head of a block |
| `ParserScopesProofs.FinalizeTestInv` | qmake/library/qmakeparser.cpp:998-1008 | line mark, operator and negation of a test stand, in this order, in the innermost block that the start of its line leaves open |
| `ParserScopesProofs.FinalizeElseInv` | qmake/library/qmakeparser.cpp:1025-1060 | an accepted else becomes the else block of the test in front of it or of the innermost branch that can still have one, never a second one of the same branch |
| `ParserScopesProofs.FinalizeCondInv` | qmake/library/qmakeparser.cpp:1021-1068 | a pending expression becomes a condition or an else there |
| `ParserScopesProofs.FinalizeForInv` | qmake/library/qmakeparser.cpp:1081-1124 | an accepted for() becomes a loop with the name and list its arguments mean, whose body is open |
| `ParserScopesProofs.FinalizeDefInv` | qmake/library/qmakeparser.cpp:1125-1151 | an accepted definition becomes a function with its name, whose body is open |
| `ParserScopesProofs.FinalizeBypassInv` | qmake/library/qmakeparser.cpp:1152-1170 | an accepted bypassNesting() opens its block; it stays nested if and only if a function is still open once the one-line blocks are closed |
| `ParserScopesProofs.FinalizeReturnInv` | qmake/library/qmakeparser.cpp:1171-1184 | the same for return(), which needs a function only if it has a value |
| `ParserScopesProofs.FinalizeJumpInv` | qmake/library/qmakeparser.cpp:1185-1207 | the same for break() and next(), which need a loop |
| `ParserScopesProofs.FinalizeCallInv` | qmake/library/qmakeparser.cpp:1070-1233 | keeps the invariant for every keyword and for the plain test call |
| `ParserScopesProofs.CloseScopeInv` | qmake/library/qmakeparser.cpp:725-741 | after an accepted closing brace the tree has the same items in the same blocks; exactly the blocks that the parser no longer has open have ended, with their lengths filled in |
| `ParserScopesProofs.OpenScopeInv` | qmake/library/qmakeparser.cpp:711-724 | an opening brace stands in the then block of the test in front of it, or in the block of the head in front of it |
| `ParserScopesProofs.PutAssignmentInv` | qmake/library/qmakeparser.cpp:758-776 | an accepted assignment, with its size hint, stands there, too |
| `ParserScopesProofs.StepInv` | qmake/library/qmakeparser.cpp:494-854 | every event without error keeps the invariant, and the tree says what the story of the event adds |
| `ParserScopesProofs.RunInv` | qmake/library/qmakeparser.cpp:286-862 | it holds in every intermediate state of every run that is still without error |
| `ParserStory.FlatUnique` | qmake/library/qmakeparser.cpp:863-868 | the notes of a tree, each with the place of the block it stands in, determine the tree |
| `ParserScopesProofs.ParseWellFormed` | qmake/library/qmakeparser.cpp:863-868 | an accepted text has a tree that says exactly what its events said, operators and line marks included, each in the block open at its event; the stream is the layout of that tree, each branch with its two blocks and each length skipping exactly its block; and the tree is properly nested if and only if each jump was placed inside once the one-line blocks of the line before are closed |
| `ParserCounts.RunCounts` | qmake/library/qmakeparser.cpp:494-854 | in every run without error the line number, the pending operator and negations and the open braces are what the events say |
| `ParserCounts.BracesBalance` | qmake/library/qmakeparser.cpp:863-868 | in an accepted text braces balance, and none is closed before it is opened |
| `ProgramTextProofs.PrintedParses` | qmake/library/qmakeparser.cpp:494-862 | a structured program, with bodies in braces or on one line, nested in each other, and else behind a brace, on a line of its own, behind tests alone or as a chain of else-ifs, is accepted when written out, and its stream is the layout of the program's own tree: each else belongs to its own branch |
| `StrayJumps.StrayBreak` | qmake/library/qmakeparser.cpp:1185-1207 | a file with break() on the line after a one-line loop is accepted, and its evaluation ends in a break in all surroundings, from every state in which no variable has an empty name |
| `StrayJumps.StrayBreakInFunction` | qmake/library/qmakeparser.cpp:1185-1207 | the same in a function body: a call of the function ends in a break |
| `StrayJumps.StrayReturn` | qmake/library/qmakeparser.cpp:1171-1184 | a file with a returned value on the line after a one-line function is accepted, and its evaluation ends in a return |
| `TokenWalk.ExprHead` | qmake/library/proitems.h:346-371 | the unit at the start of an encoded expression tells its kind |
| `TokenWalk.BodyAt` | qmake/library/qmakeevaluator.cpp:228-233 | a stored length, read at its place, skips exactly its block |
| `TokenWalk.ForAt` | qmake/library/proitems.h:387-391 | where the parts of an encoded loop stand |
| `VarStack.VarMaps.Values` | qmake/library/qmakeevaluator.cpp:1884-1901 | the loop from the top frame down finds what dynamic scoping with tombstones and local arguments says |
| `VarStack.VarMaps.FindValues` | qmake/library/qmakeevaluator.cpp:1838-1856 | finds the frame exactly when the variable is set, in agreement with Values |
| `VarStack.VarMaps.ValuesRef` | qmake/library/qmakeevaluator.cpp:1858-1882 | copies down what the variable meant, and nothing else |
| `VarStack.VarMaps.Unset` | qmake/library/qmakebuiltins.cpp:1688-1701 | removes or buries the variable |
| `VarStack.VarMaps.Clear` | qmake/library/qmakebuiltins.cpp:1676-1687 | empties a variable that is set |
| `VarStack.VarMaps.Export` | qmake/library/qmakebuiltins.cpp:1444-1463 | moves the innermost value to the bottom frame and drops all in between |
| `VarStack.CopyDownMeaning` | qmake/library/qmakeevaluator.cpp:1858-1882 | copying down changes the meaning of no variable and no lower frame |
| `VarStack.DroppedMeaning` | qmake/library/qmakebuiltins.cpp:1688-1701 | unsetting is visible at once, to this variable only, and undone by the function's return |
| `VarStack.ClearedMeaning` | qmake/library/qmakebuiltins.cpp:1676-1687 | clearing is visible at once, to this variable only, and undone by the function's return |
| `VarStack.ExportedMeaning` | qmake/library/qmakebuiltins.cpp:1444-1463 | an exported variable keeps its visible value, now and after any number of returns; others are not touched |
| `VarStack.ExportedArgument` | qmake/library/qmakebuiltins.cpp:1444-1463 | for a name of digits only: exactly when the visible value survives the export |
| `ConditionChain.Walk` | qmake/library/qmakeevaluator.cpp:612-678 | the three flags, token by token |
| `ConditionChain.ChainIsFold` | qmake/library/qmakeevaluator.cpp:612-678 | the flags compute the left-to-right fold of equal precedence, and make exactly the tests that short-circuit evaluation makes |
| `TestChains.ChainIsEvaluation` | qmake/library/qmakeevaluator.cpp:498-713 | a block of line marks, operators, negations, conditions and test calls runs as short-circuit evaluation from left to right: the same outcome and state, a call made exactly when it can still decide, and a stop at the first error or jump |
| `TestChains.PlainChainIsFold` | qmake/library/qmakeevaluator.cpp:498-713 | without calls that is the fold of the tests of plain words, and it changes no variable |
| `ParsedTests.LineOfTests` | qmake/library/qmakeevaluator.cpp:612-678 | from a line of text to that evaluation: a line of conditions and calls joined by operators is accepted, and its stream evaluates in this way |
| `ExprValues.RemoveEmptyHead` | qmake/library/proitems.cpp:368-373 | dropping empty strings from the back or from the front is the same |
| `QMakeEvaluatorObject.QMakeEvaluator.SkipExpression` | qmake/library/qmakeevaluator.cpp:450-488 | ends behind the terminator of the encoded expression, through nested calls, with the line of its last mark |
| `QMakeEvaluatorObject.QMakeEvaluator.EvaluateExpression` | qmake/library/qmakeevaluator.cpp:387-448 | expands as the tree means, and stops at the token that ends the expression or its first part |
| `QMakeEvaluatorObject.QMakeEvaluator.ExpandVariableReferences` | qmake/library/qmakeevaluator.cpp:1640-1663 | all parts, each as one string; unless it fails it ends where skipping ends |
| `QMakeEvaluatorObject.QMakeEvaluator.PrepareFunctionArgs` | qmake/library/qmakeevaluator.cpp:1665-1681 | each argument as a list; unless it fails it ends where skipping ends |
| `QMakeEvaluatorObject.QMakeEvaluator.EvaluateExpandFunction` | qmake/library/qmakeevaluator.cpp:1770-1795 | builtin, defined and unknown replace functions: same end position, and the effect the tree has |
| `QMakeEvaluatorObject.QMakeEvaluator.EvaluateConditionalFunction` | qmake/library/qmakeevaluator.cpp:1743-1768 | builtin, defined and unknown test functions: same end position, and the effect the tree has |
| `QMakeEvaluatorObject.QMakeEvaluator.EvaluateBuiltinConditional` | qmake/library/qmakebuiltins.cpp:1414-1443 | the argument count check, defined in all its forms, export, unset and clear; other builtins are the surroundings' |
| `QMakeEvaluatorObject.QMakeEvaluator.EvaluateBuiltinExpand` | qmake/library/qmakebuiltins.cpp:574-582 | the argument count check of replace functions |
| `QMakeEvaluatorObject.QMakeEvaluator.EvaluateFunction` | qmake/library/qmakeevaluator.cpp:1683-1713 | depth limit, new frame with numbered arguments, returned value, and what is restored |
| `QMakeEvaluatorObject.QMakeEvaluator.EvaluateBoolFunction` | qmake/library/qmakeevaluator.cpp:1715-1741 | what a returned list means as a truth value |
| `QMakeEvaluatorObject.QMakeEvaluator.VisitProVariable` | qmake/library/qmakeevaluator.cpp:836-941 | the five assignment operators, with the check of the left-hand side, and what assigning TEMPLATE, QMAKE_DIR_SEP and QMAKESPEC changes |
| `QMakeEvaluatorObject.QMakeEvaluator.SetTemplate` | qmake/library/qmakeevaluator.cpp:943-960 | TEMPLATE always becomes one word |
| `QMakeEvaluatorObject.QMakeEvaluator.VisitBranch` | qmake/library/qmakeevaluator.cpp:522-556 | runs the then or the else block, and ends behind both |
| `QMakeEvaluatorObject.QMakeEvaluator.VisitForLoop` | qmake/library/qmakeevaluator.cpp:557-575 | a loop that is due or skipped; ends behind its body |
| `QMakeEvaluatorObject.QMakeEvaluator.VisitProLoop` | qmake/library/qmakeevaluator.cpp:726-834 | list, range and endless loop; the loop variable gets its old value back |
| `QMakeEvaluatorObject.QMakeEvaluator.LoopForever` | qmake/library/qmakeevaluator.cpp:792-826 | an endless loop is a loop over the first thousand numbers |
| `QMakeEvaluatorObject.QMakeEvaluator.LoopOver` | qmake/library/qmakeevaluator.cpp:792-826 | rounds over the values that are not empty; break, next and errors |
| `QMakeEvaluatorObject.QMakeEvaluator.VisitBypass` | qmake/library/qmakeevaluator.cpp:576-595 | runs the block in the bottom frame alone and puts the other frames back |
| `QMakeEvaluatorObject.QMakeEvaluator.VisitProFunctionDef` | qmake/library/qmakeevaluator.cpp:596-611 | a definition stores where its body stands |
| `QMakeEvaluatorObject.QMakeEvaluator.VisitTestCall` | qmake/library/qmakeevaluator.cpp:642-678 | a test call that is due, invalid or skipped |
| `QMakeEvaluatorObject.QMakeEvaluator.VisitAction` | qmake/library/qmakeevaluator.cpp:512-521 | what is done with the expanded words |
| `QMakeEvaluatorObject.QMakeEvaluator.VisitProBlock` | qmake/library/qmakeevaluator.cpp:498-713 | walking the encoded block by position does exactly what its tree means, and ends on every input |
| `ProSemanticsProofs.CallFunctionSafe` | qmake/library/qmakeevaluator.cpp:1683-1713 | what a call may do, for what is known of the program: it restores every frame of its callers above the bottom one but for variables exported during the call; the bottom one, too, and without exhausting a budget, if nothing bypasses nesting; and it ends in no jump if every jump is placed |
| `ProSemanticsProofs.CallRestores` | qmake/library/qmakeevaluator.cpp:1683-1713 | the frame law for every function and state: a call restores the frames above the bottom one but for what it exports, and the bottom one, too, if nothing bypasses nesting |
| `ProSemanticsProofs.CallWithoutExport` | qmake/library/qmakeevaluator.cpp:1683-1713 | a call that exports nothing leaves every frame above the bottom one as it was, and the bottom one, too, if nothing bypasses nesting |
| `ProSemanticsProofs.RunBypassedSafe` | qmake/library/qmakeevaluator.cpp:576-595 | a block that bypasses nesting changes no frame but the bottom one, whatever it contains |
| `ProSemanticsProofs.LoopEndsInNoJump` | qmake/library/qmakeevaluator.cpp:726-834 | no loop ends in a jump, whatever its body and the functions it calls are |
| `ProSemanticsProofs.RunItemsSafe` | qmake/library/qmakeevaluator.cpp:684-713 | every block changes no frame below its own but for variables exported in it and the bottom one through bypassed nesting; it exhausts no budget if nothing bypasses nesting; and if all jumps are placed, it ends in a jump only inside a loop |
| `BudgetProofs.AnyBudget` | qmake/library/qmakeevaluator.cpp:576-595 | the model's budget for bypassed nesting does not change the outcome of a run that does not exhaust it |
| `BudgetProofs.PlainProgramEnds` | qmake/library/qmakeevaluator.cpp:498-713 | a program in which nothing bypasses nesting ends, with one outcome, whatever the budget, stray jumps or not |
| `BudgetProofs.BypassedRecursionIsStuck` | qmake/library/qmakeevaluator.cpp:576-595 | a function that calls itself with nesting bypassed exhausts every budget: the depth limit does not stop it |
| `ProFile.VisitProFile` | qmake/library/qmakeevaluator.cpp:1338-1440 | parse, then evaluate: a text with an error is not evaluated; otherwise outcome and final state are those of the one tree that says what the text says, whose layout the stream is; if every jump is placed, the file does not end in a jump; and if no block bypasses nesting, it ends |
| `ValueReader.ReadValue` | qmake/library/qmakeparser.cpp:494-846 | the value grammar's reader as it advances, against its specification on the remaining text, for every text |
| `ValueReader.Expand` | qmake/library/qmakeparser.cpp:501-605 | one expansion: name, terminator, call or variable, and the names the parser itself expands |
| `ValueReader.Argument` | qmake/library/qmakeparser.cpp:632-670 | a character inside the arguments of a call |
| `QuoteValue.QuoteString` | qmake/library/qmakebuiltins.cpp:268-335 | the quoting loop |
| `QuoteValue.ExpandInPlace` | qmake/library/qmakebuiltins.cpp:935-967 | the in-place expansion of escapes equals the recursive one |
| `QuoteValue.ParseQuoted` | qmake/library/qmakeparser.cpp:500-630 | what every quoted value is read as: always accepted, and these pieces |
| `QuoteValue.RoundTrip` | qmake/library/qmakebuiltins.cpp:268-335 | reading back and evaluating a quoted value whose pieces fit their length unit gives one string, and it is the value if and only if its control characters are carriage returns, line feeds and tabs |
| `ProFile.ReadBack` | qmake/project.cpp:103-122 | the same through the quoting method, the reader and the evaluator |
| `DependsSort.DependsSorter.AddNode` | qmake/library/qmakebuiltins.cpp:540-552 | a new node, its dependencies and dependees, however often a dependency is listed |
| `DependsSort.DependsSorter.PopulateDeps` | qmake/library/qmakebuiltins.cpp:534-556 | ends on every graph, cyclic or with repeated dependencies, and finds all that the listed nodes reach |
| `DependsSort.DependsSorter.Release` | qmake/library/qmakebuiltins.cpp:1106-1111 | the loop over the dependees of a taken node, in place, against its specification |
| `DependsSort.ReleasedQueues` | qmake/library/qmakebuiltins.cpp:1106-1111 | a node is queued as often as it lists the dependency that is done, if it waits for nothing else; otherwise not at all |
| `DependsSort.DependsSorter.TakeAll` | qmake/library/qmakebuiltins.cpp:1100-1112 | the main loop ends on every graph; nodes are taken when free, lowest priority first, until all that is left reaches a cycle; none is taken twice if and only if each lists its last dependency once |
| `DependsSort.SettledNoCycle` | qmake/library/qmakebuiltins.cpp:1100-1112 | a node that was taken reaches no cycle |
| `DependsSort.LeftReachesCycle` | qmake/library/qmakebuiltins.cpp:1100-1112 | a node that stays reaches a cycle |
| `DependsSort.KeptFollows` | qmake/library/qmakebuiltins.cpp:1104-1105 | in the result all that a node depends on comes behind it, also if nodes come out repeatedly |
| `DependsSort.KeptOrder` | qmake/library/qmakebuiltins.cpp:1104-1105 | if nodes come out once, each stands in front of all it depends on |
| `DependsSort.OrderUnique` | qmake/library/qmakebuiltins.cpp:1100-1112 | the order in which nodes are first taken is determined by the question if no two priorities are equal |
| `DependsSort.ListedTwiceReturnsTwice` | qmake/library/qmakebuiltins.cpp:1088-1113 | the sort itself, on a graph of two nodes one of which lists the other twice: that one comes out twice |
| `DependsSort.SortDepends` | qmake/library/qmakebuiltins.cpp:1088-1113 | for every graph: resolve_depends() returns exactly the reachable nodes that reach no cycle, with all that each depends on behind it, and sort_depends() that list restricted to the given one; each node comes out once if and only if none lists twice the dependency that is taken last, in particular if no dependency is repeated |
| `ForIteration.StepValid` | src/concurrent/qtconcurrentiteratekernel.h:219-268 | every atomic step of every thread keeps the invariant about claimed blocks |
| `ForIteration.RangesDisjoint` | src/concurrent/qtconcurrentiteratekernel.h:224-252 | in every interleaving the ranges given to user code are in bounds and disjoint, and the index overshoots by less than a block for each thread |
| `ForIteration.AllProcessedOnce` | src/concurrent/qtconcurrentiteratekernel.h:224-267 | when no thread runs and one found no work left, user code was called for each index exactly once, and the reported progress is the number of indexes |
| `WhileIteration.StepValid` | src/concurrent/qtconcurrentiteratekernel.h:270-304 | every atomic step keeps the invariant of the try-lock protocol |
| `WhileIteration.VisitedOnce` | src/concurrent/qtconcurrentiteratekernel.h:278-294 | at most one thread owns the shared iterator; no element is visited twice, and each with its own position as index |
| `WhileIteration.ClosedForever` | src/concurrent/qtconcurrentiteratekernel.h:278-303 | once a thread has found the end, the flag stays taken |
| `WhileIteration.AllVisited` | src/concurrent/qtconcurrentiteratekernel.h:203-209 | when no thread runs, one was started and none was throttled, every element was visited |
| `RunningMedian.SortedMedian` | src/concurrent/qtconcurrentmedian.h:62-74 | the middle of the sorted values is the fourth smallest, by counting |
| `RunningMedian.AddKeepsCorrect` | src/concurrent/qtconcurrentmedian.h:37-55 | adding a value keeps the cached median right if and only if it is not an unnoticed change of a slot equal to it |
| `RunningMedian.RunCorrect` | src/concurrent/qtconcurrentmedian.h:37-74 | over every run without such a change the cache is right whenever it counts as such |
| `RunningMedian.NoneOverwrittenSuffices` | src/concurrent/qtconcurrentmedian.h:37-55 | there is no such change if no value equal to the cached median is overwritten |
| `RunningMedian.UnnoticedGoesStale` | src/concurrent/qtconcurrentmedian.h:37-55 | the first such change makes it wrong |
| `RunningMedian.StaleRunIsStale` | src/concurrent/qtconcurrentmedian.h:37-74 | a concrete run on which the median goes stale |
| `RunningMedian.ValidFromSeventh` | src/concurrent/qtconcurrentmedian.h:29-43 | the median counts as valid exactly from the seventh value after a reset |
| `RunningMedian.Median.AddValue` | src/concurrent/qtconcurrentmedian.h:37-55 | the median counts as valid exactly from the seventh value since a reset; a right cache stays right if and only if the change does not go unnoticed; if none did, it is the median of the last seven values unless marked as old |
| `RunningMedian.Median.Ask` | src/concurrent/qtconcurrentmedian.h:62-74 | the answer is the median of the stored values if and only if the cache was right or marked as old, so always if no change went unnoticed |
| `RunningMedian.Median.Reset` | src/concurrent/qtconcurrentmedian.h:29-35 | back to the start, but for the old median |
| `BlockSize.BlockSizeManager.constructor` | src/concurrent/qtconcurrentiteratekernel.cpp:69-73 | the bound on the block size |
| `BlockSize.BlockSizeManager.TimeBeforeUser` | src/concurrent/qtconcurrentiteratekernel.cpp:76-83 | the time between two blocks is recorded unless the block size has reached its bound; the block size stays in its bounds |
| `BlockSize.BlockSizeManager.TimeAfterUser` | src/concurrent/qtconcurrentiteratekernel.cpp:87-111 | the time of the block is recorded; the block size doubles, up to its bound, exactly if the median between blocks is valid and, times the target ratio, not below the one of the blocks, and then both medians start again; otherwise it stays |
| `FilterKernel.RunIterations` | src/concurrent/qtconcurrentfilterkernel.h:77-95 | the kept items of a block, in order |
| `FilterKernel.Reducer.ReduceResult` | src/concurrent/qtconcurrentreducekernel.h:97-104 | folds a block's items into the result |
| `FilterKernel.UnorderedReduce` | src/concurrent/qtconcurrentfilterkernel.h:169-186 | for every reachable partition into blocks and any order of them the same items are kept, equally often |
| `OrderedReduction.OfferValid` | src/concurrent/qtconcurrentreducekernel.h:127-132 | handing in a block keeps the reducer's invariant |
| `OrderedReduction.DoneValid` | src/concurrent/qtconcurrentreducekernel.h:157-179 | finishing a block and going on with the next stored one keeps it |
| `OrderedReduction.ReducedInOrder` | src/concurrent/qtconcurrentreducekernel.h:123-180 | in every interleaving the blocks are reduced in the order of the sequence, and none is left behind |
| `UnorderedReduction.ReducedOnce` | src/concurrent/qtconcurrentreducekernel.h:134-155 | in every interleaving each block is reduced exactly once, and none is left behind |
| `ParallelFilter.OrderedFilter` | src/concurrent/qtconcurrentfilterkernel.h:117-191 | iteration, filter and ordered reduction together give the sequential filter, and its left fold |
| `ParallelFilter.OrderedFilterWhile` | src/concurrent/qtconcurrentfilterkernel.h:62-75 | the same with the iteration over a shared iterator, each element a block of its own |
| `ParallelFilter.UnorderedFilter` | src/concurrent/qtconcurrentfilterkernel.h:117-191 | with the unordered reduction: the same items |
| `ParallelFilter.UnorderedFilterWhile` | src/concurrent/qtconcurrentfilterkernel.h:62-75 | the same items, with the iteration over a shared iterator |
| `DependWalk.DependTreeWalker` | qmake/generators/makefiledeps.cpp:151-161 | marks and lists what is reachable over existing files; ends on every graph |
| `DependWalk.Dependencies` | qmake/generators/makefiledeps.cpp:174-197 | lists exactly the files reachable by at least one edge over existing files, once each, the file itself if it lies on a cycle; no mark stays |
| `LineSplice.SkipEscapedLineEnds` | qmake/generators/makefiledeps.cpp:334-348 | skips exactly the backslash-newlines, LF, CR or CRLF, two or three characters each, and counts them |
| `LineSplice.MatchWhileUnsplitting` | qmake/generators/makefiledeps.cpp:350-366 | matches if and only if the joined text starts with the needle; the length is the raw span of the needle and of all backslash-newlines in it and behind it, two or three characters each |
| `ShellQuote.WinQuoteTable` | qmake/library/ioutils.cpp:169-176 | the bit table is the set the comment gives |
| `ShellQuote.WinMetaTable` | qmake/library/ioutils.cpp:177-181 | the bit table is the set the comment gives |
| `ShellQuote.UnixQuoteTable` | qmake/library/ioutils.cpp:149-153 | the bit table is the set the comment gives |
| `ShellQuote.LookForSpecialChars` | qmake/library/ioutils.cpp:137-145 | finds a special character if there is one |
| `ShellQuote.QuoteWin` | qmake/library/ioutils.cpp:167-212 | the quoting with its toggling loop |
| `ShellQuote.CmdUndoes` | qmake/library/ioutils.cpp:194-207 | the interpreter removes the circumflexes again, and no meta character acts |
| `ShellQuote.WinRoundTrip` | qmake/library/ioutils.cpp:167-212 | interpreter and process give back exactly one argument, equal to the quoted one if and only if that does not end in a backslash and a line feed |
| `ShellQuote.UnixRoundTrip` | qmake/library/ioutils.cpp:147-165 | the shell gives back exactly one word, the quoted argument |
| `XmlOutputModel.XmlOutput.CloseTag` | qmake/generators/xmloutput.cpp:239-264 | ends the innermost open tag, if there is one, and keeps level, indentation and state in step with the tags |
| `XmlOutputModel.XmlOutput.CloseTo` | qmake/generators/xmloutput.cpp:266-279 | the loop over the stack: closes up to and including the topmost match, nothing without one; called with a name only while a tag is open |
| `XmlOutputModel.XmlOutput.UpdateIndent` | qmake/generators/xmloutput.cpp:56-62 | the indentation is the indent string once for each level |
| `XmlOutputModel.XmlOutput.Stream` | qmake/generators/xmloutput.cpp:133-202 | every defined stream item keeps level, state and marks in step with the open tags; closing all leaves a balanced document |
| `XmlOutputModel.CloseToValid` | qmake/generators/xmloutput.cpp:266-279 | closes up to and including the topmost match, and nothing without one |
| `XmlOutputModel.CloseAllBalances` | qmake/generators/xmloutput.cpp:281-286 | leaves a balanced document |
| `XmlOutputModel.CloseToFirst` | qmake/generators/xmloutput.cpp:266-279 | closing to a tag before any tag was opened has no defined behaviour |
| `XmlOutputModel.RunValid` | qmake/generators/xmloutput.cpp:133-202 | a sequence of operations is defined if and only if a tag is open whenever one is closed to; then level equals open tags, bare exactly when none is open, each end tag names the innermost open tag, and the writer's end balances the document |

## Left out

- The tokenizer of full project files (comments, line continuations, indentation): only the value grammar's reader is modelled character by character.
- Cumulative mode, the debug printer and all messages.
- `eval`, `include`, `load`, `if`, `infile`, `cache` and the check of REQUIRES: they parse text again while evaluating.
- ProFile.VisitProFile: the block of the file itself, with the variables set before it as a parameter; preparing the project, extra commands, configurations and feature files before and after it depend on the file system.
- QMakeEvaluatorObject.QMakeEvaluator.VisitProVariable: does not model the check of REQUIRES, which parses its words again; and the list of feature directories that QMAKE_PLATFORM and QMAKESPEC reset is a cache of the file system.
- Integer widths: block lengths (32 bits), literal lengths (16 bits) and string hashes are modelled; line numbers wrap to 16 bits; loop counters, ranges, indexes of the iteration and priorities are unbounded.
- The position a replace or test function is called at is looked up again after its arguments are expanded, as the code does through its iterator; a table that moved in memory meanwhile is not modelled.
- `discard_from`, which removes variables and functions of a file again.
- ProString sharing, hashes cached in strings, and their offsets.
- QMakeEvaluatorObject.QMakeEvaluator.VisitBypass: ends with the outcome `Stuck` once its budget is used up, where the code would go on.
- ProgramTextProofs.PrintedParses: no functions or bypasses behind tests on their line, blank or comment lines, continuations, or text behind the last line end; `ParserScopesProofs.ParseWellFormed` covers them.
- QuoteValue.RoundTrip: for values whose literals and escape runs are shorter than 65536 units; longer ones are read with a truncated length, in the model as in the code.
- `lookupFile` and `addFile`: the walk starts from a file that has been found.
- Pausing, cancelling in the middle of user code, and the thread pool: a thread may start at any time, and cancelling and throttling are arbitrary choices in each step.
- FilteredEachKernel and the reporting of results through futures.
- The conversion and layout of text in the XML writer: marks are kept instead of characters, and raw text is taken to hold no tags.
- ForIteration.RangesDisjoint: indexes are unbounded, so the overshoot at the end cannot overflow in the model.
- File system, processes, registry, JSON and locale code, makefile text generation: results depend on the outside or are plain text assembly.
