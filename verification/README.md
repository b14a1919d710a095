# LIAF, verified

LIAF is a small compiled language: a checker, Go and C code generators, a loader, two syntaxes and the
runtimes its programs use. This project models the parts whose correctness is hardest to see by reading
and proves what they are for.

- **C backend** (`Liaf`, `CCode`, `CLowering`, `CCorrect`, `CNames`, `CFlat`). The generator flattens expressions
  into numbered temporaries. The text it writes, read back as C, computes what the source computes, with the same
  calls in the same order and the same overflow exit. `Generator` is the generator itself, as a class. `CFlat` runs
  the C with the names it really has, where variables, temporaries and functions are all identifiers.
- **Hoisting of `try`** (`TryLang`, `TryHoisting`, `TryText`, `TryCorrect`, `TryPlaces`). The Go backend moves the `try`
  inside an expression in front of the statement. What user calls answer is an oracle, so the theorem is about
  every world; `TryText` reads the lines written and states it for them. `TryPlaces` says exactly when the places where a `try` is moved or left alone keep the meaning.
- **Pending results** (`PendingFlow`, `PendingSound`, `PendingExact`, `PendingChecker`, `PendingStory`). The checker's
  one-pass flow analysis, against every run of a body by every list of choices; and what goes wrong in a run, told by
  its events instead of the checker's scopes.
- **Database pools** (`DbPool`, `DbPoolSafe`, `DbPoolRuns`, `DbPoolTheorems`, `DbPoolLost`, `DbPoolServes`,
  `DbTransaction`, `DbText`). The pools as a
  state machine whose steps are single lock regions, semaphore operations or driver calls, for any number of
  threads in any interleaving; and the transaction blocks of a function, as source, as generated Go code with
  its scheduled rollbacks, and as the generator that writes it, line by line.
- **Loader** (`Loader`). The depth-first inlining of imports.
- **Parsers and printer** (`LinearSyntax`, `LinearParser`, `LinearText`, `SExpr`, `SExprRoundTrip`, `SExprParser`,
  `SExprText`). What is read and printed, what it says in which order, and how operations nest.
- **Effects** (`Effects`, `EffectText`, `EffectChecker`, `EffectReach`). What is declared, what the checker accepts, and what
  runs perform. In a run every branch, turn, failure and call is decided by a list of choices, so values do not
  matter.
- **Runtime pieces** (`IntMath`, `Utf8`, `RateLimit`, `MySqlWire`, `Resp`, `RespReplies`, `WebSocketFrames`,
  `WebSocket`, `WebSocketCodes`, `WebSocketConn`), with `Bytes`, `Int64` and `Wrappers` below them.

Where the source works step by step, the model has a class or a method with a loop, proved against a function
on values; the theorems are about that function. No proof uses Dafny's automatic induction.

Some promises hold only under a condition, and the condition is proved exact:

- a variable hides the function of its name in the emitted C, which then does not compile; a C compiler finds the
  function at every call if and only if none is called where a variable hides it (`ResolvesExactly`, `HiddenCall`);
- a `try` behind another operand is evaluated before it; the meaning is kept if and only if the order of the two
  cannot be told (`OperandBeforeTry`), and of two calls only if the second repeats the first (`CallBeforeTry`);
- a `try` that is evaluated conditionally has no guard; on a single statement the meaning is kept if and only if it
  is not reached with an error, with one exception for `return` (`InPlaceExactly`, and `WhileExactly` for loop
  conditions); of a whole body, if and only if giving the zero value instead of failing makes no difference to the
  run (`BodyExactly`);
- one pass of the pending analysis is not enough when a loop sets an outer result (`OnePassMisses`,
  `AcceptedSafeExactly`);
- `!` with two operands does not come back from the printer (`BangComesBackAsCall`, `FormattingSettles`);
- a rate-limit window longer than a 64-bit duration in nanoseconds is cut short (`WrappedWindow`, `BoundExactly`);
- the product check of `MulInt` needs its special case (`QuotientTells`);
- a declared effect that is accepted need not be performed in any run (`RecursionAlone`); it is if and only if it
  is reached, a set computed from the program text (`PerformedExactly`, `DeclaredExactly`);
- on bytes that are not valid UTF-8 the two runtimes differ: they take the same slices, and the same runes by
  index, if and only if the string is valid (`SlicesAgreeExactly`, `GetsAgreeExactly`).

## Model

| member | source | states |
|---|---|---|
| CCorrect.BackendCorrect | pkg/codegen/c/codegen.go:52-87 | Whatever function of a module is called, with whatever arguments and fuel, the emitted text read back as C has the source's result (a value, an overflow exit, out of fuel) and the source's ordered trace of calls |
| CCorrect.ExprCorrect | pkg/codegen/c/codegen.go:174-259 | After the code of an expression, its temporary holds the value of the expression; all variables and all older temporaries are as before; traces and stops agree |
| CCorrect.LogicCorrect | pkg/codegen/c/codegen.go:197-209 | `and` and `or`: the guarded block runs, and calls, exactly when the left operand does not decide |
| CCorrect.IfExprCorrect | pkg/codegen/c/codegen.go:247-259 | An if-expression runs one arm only, and its result survives the block of the arm |
| CCorrect.CallCorrect | pkg/codegen/c/codegen.go:334-344 | A call gets its argument values from left to right and leaves the caller's variables and temporaries alone |
| CCorrect.BodyCorrect | pkg/codegen/c/codegen.go:94-98 | A body has the source's exit (normal, break, continue, return, stop), the source's user variables and the source's trace |
| CCorrect.StmtCorrect | pkg/codegen/c/codegen.go:99-156 | The same for each kind of statement |
| CCorrect.MatchCorrect | pkg/codegen/c/codegen.go:142-156 | A result match binds the payload in the arm taken and forgets it after |
| CCorrect.WhileLoopCorrect | pkg/codegen/c/codegen.go:125-141 | The endless C loop with a test inside does what the while loop does, over any number of turns, breaks and continues included |
| CCorrect.RangeLoopCorrect | pkg/codegen/c/codegen.go:132-141 | The C for loop, whose variable the body may set, steps like the source loop |
| CCode.ReadModuleLines | pkg/codegen/c/codegen.go:68-82 | The lines the generator writes determine the structure of the C program: reading them gives it back |
| CLowering.Generate | pkg/codegen/c/codegen.go:52-87 | The generator succeeds if and only if every function called anywhere in the text of the module is defined in it, and then writes the text of the lowered module |
| CLowering.ModuleCallsAlike | pkg/codegen/c/codegen.go:334-344 | The emitted code calls the functions that the text of the module calls, and no others |
| CLowering.Generator.GenExpr | pkg/codegen/c/codegen.go:174-292 | The walk over an expression appends exactly the code of its lowering, moves the serial number with it, and sets the error on what is unsupported |
| CLowering.Generator.GenStmt | pkg/codegen/c/codegen.go:99-173 | The same for statements, brace by brace |
| CNames.NamesNeverMeet | pkg/codegen/c/codegen.go:24-50 | Distinct variables and distinct temporaries get distinct C names, and a variable is never named like a temporary |
| CFlat.FlatBackendCorrect | pkg/codegen/c/codegen.go:24-87 | The theorem of BackendCorrect for the C with its real names: variables, temporaries and functions are strings of bytes, and variables and temporaries share one set of scopes |
| CFlat.RunLike | pkg/codegen/c/codegen.go:94-156 | Any code runs alike over identifiers and over variables and temporaries kept apart: same exit, same trace, same values under their names |
| CFlat.ResolvesExactly | pkg/codegen/c/codegen.go:334-344 | A C compiler finds the function at every call of the emitted module if and only if no function is called in the source where a variable or parameter of its name is in scope |
| CFlat.HiddenCall | pkg/codegen/c/codegen.go:72-78 | A module that the generator accepts and that returns 1 in the source; in its C a parameter hides the function called |
| TryCorrect.BodyCorrect | pkg/codegen/try.go:15-102 | In every world, a body with nothing but quiet operands before the tries that are lifted does after hoisting what it did before: calls in order, variables, exit, and the error of the first try to fail; in every run in which no try fails where evaluation is conditional |
| TryCorrect.HoistCorrect | pkg/codegen/try.go:60-102 | The guards of an expression leave exactly when the source fails in a lifted try, with its error and its trace: by the on-err handler, with its value exactly in a function that returns one, or by the function's own result; otherwise the rewritten expression goes on to the source's value and trace, the tries left in place included |
| TryCorrect.StmtCorrect | pkg/codegen/try.go:22-58 | Each statement with its guards in front, the top-level try of let, set and expression statements included |
| TryCorrect.BodyExactly | pkg/codegen/try.go:15-102 | Every such body, conditional tries that fail included, does after hoisting what it did before if and only if its run in the source is the one in which a conditional `try` that fails gives the zero value of its type |
| TryPlaces.OperandBeforeTry | pkg/codegen/try.go:64-87 | For f(a, try b) and for a operator before try b, in any world and state: hoisting keeps the meaning if and only if the order of the two cannot be told, by what each comes to without asking, or, when both ask, by asking and answering alike in both orders |
| TryPlaces.OrderUnseenExactly | pkg/codegen/try.go:60-87 | That condition holds exactly if evaluating the operands in the two orders has one outcome |
| TryPlaces.SwappedRun | pkg/codegen/try.go:60-87 | The generated code evaluates the try first, then the operand before it, then the call or the operation |
| TryPlaces.FirstQuestion | pkg/codegen/try.go:60-102 | What an expression asks first, and what it comes to if it asks nothing, does not depend on the world |
| TryPlaces.CallBeforeTry | pkg/codegen/try.go:78-87 | For f(g(..), try h(..)) with arguments that ask nothing, in any world: hoisting keeps the meaning if and only if g and h are the same function called with the same values, and the second call has the answer of the first, which is no error, or one of them has none |
| TryPlaces.CallBeforeTryMoves | pkg/codegen/try.go:78-87 | So a call written before a try of another call, or of the same function with other values, moves behind it in every world |
| TryPlaces.InPlaceExactly | pkg/codegen/try.go:15-17 | A let, set, expression or return statement whose tries all stand on the right of `and` and `or` or in the arms of if-expressions, nested in any way, keeps its meaning if and only if none of them is reached with an error, or it is a return, in a function with no handler, of a value that comes out as the error itself |
| TryPlaces.WhileExactly | pkg/codegen/stmt.go:52-59 | A while loop whose condition is decided by tries keeps its meaning if and only if the condition is not reached with an error in any turn: the generated loop ends there as if it were false |
| TryCorrect.InPlaceEval | pkg/codegen/expr.go:31-35 | An expression whose tries have no guards does what the source does, with the zero value of its type for a try that fails |
| TryHoisting.Generator.HoistTries | pkg/codegen/try.go:60-102 | The walk writes the guards of the specification, inner before outer and left before right, and records which tries it guarded |
| TryHoisting.Generator.WriteStmt | pkg/codegen/stmt.go:45-268 | The walk writes exactly the lines of the statement after its guards |
| TryText.GenerateBody | pkg/codegen/try.go:60-102 | What is written for a function body reads, line by line, as Go code that does what the source body does: in every world and every run in which no conditional `try` fails, and otherwise if and only if the zero value makes no difference. Without the failure test behind a lifted call it would not |
| TryText.ReadText | pkg/codegen/stmt.go:24-37 | The lines of any code determine the code: reading them gives it back, failure tests and braces included |
| PendingExact.AcceptedIsSafe | pkg/checker/stmt.go:13-168 | If the checker accepts a body whose loops set no outer result, no run, by any branches and any number of iterations, returns, leaves a scope or overwrites a variable with a result unhandled |
| PendingExact.AcceptedSafeExactly | pkg/checker/stmt.go:69-91 | For bodies in which no statement follows one that returns on every path, no `set` consumes the variable it sets and no loop header consumes anything, whatever loops set: safe on all runs if and only if looking at every loop body a second time finds nothing |
| PendingExact.OnePassMisses | pkg/checker/stmt.go:69-91 | An accepted body that overwrites an unhandled result in its second iteration |
| PendingExact.Complete | pkg/checker/stmt.go:13-168 | A statement within these bounds that the two passes reject goes wrong on an actual run from every state the analysis stands for |
| PendingSound.ActsStmt | pkg/checker/scope.go:47-75 | On each pending bit every statement acts as identity, clear or set, alike on all states |
| PendingSound.StartsStable | pkg/checker/stmt.go:69-91 | The state merged after a loop is above the state at the start of any further iteration |
| PendingSound.CoversLoop | pkg/checker/stmt.go:69-91 | The state merged after a loop is above the state after any number of iterations, even when the body sets outer results |
| PendingSound.Covers | pkg/checker/stmt.go:13-168 | Every run that reaches the end of a statement is below the checker's state there, and what the missing-return analysis calls returning never reaches its end |
| PendingSound.OnePassEnough | pkg/checker/stmt.go:69-91 | When loops set no outer result, a second pass over their bodies finds nothing the first did not |
| PendingChecker.CheckFunction | pkg/checker/stmt.go:13-168 | The imperative walk over scopes, with snapshot, restore and merge, accepts exactly the clean bodies |
| PendingChecker.Checker.Statement | pkg/checker/stmt.go:15-152 | Each statement leaves the scopes of the specification and adds an error exactly when it is not clean |
| PendingChecker.Checker.PopScope | pkg/checker/scope.go:11-25 | Leaving a scope reports a pending variable and restores the scope outside |
| PendingChecker.MergedBit | pkg/checker/scope.go:71-75 | After the merge of two snapshots a variable, looked up by its name, is pending exactly if it was pending in one of them, and nothing else about it changes |
| PendingStory.RunsTold | pkg/checker/scope.go:11-75 | A run goes wrong if and only if its story does: a list of what is declared, read, handled, set and left, in which a name stands for the innermost declaration in a block still open, and a result is unhandled if it was received and not handled since |
| PendingStory.AmissExactly | pkg/checker/scope.go:27-75 | The scopes with their pending bits show a mistake at an event exactly where the events before it make it one |
| PendingStory.SafeTold | pkg/checker/stmt.go:13-168 | All runs of a function are safe if and only if no story of it goes wrong |
| DbPoolTheorems.CapacityHolds | pkg/runtime/db.go:208-253 | In every reachable state idle connections and those handed out or being opened fit the capacity together, and the semaphore counts the tokens out |
| DbPoolTheorems.OneHolder | pkg/runtime/db.go:208-253 | No connection is idle twice, idle and held, or held by two threads |
| DbPoolTheorems.OneOpenPool | pkg/runtime/db.go:71-124 | A closed pool has nothing idle, a key has one open pool, and the table only lists open ones |
| DbPoolTheorems.OneEnd | pkg/runtime/db.go:351-377 | Over every run a transaction that is done reached the driver with one commit or rollback and released its connection once; one that is not done, never |
| DbPoolTheorems.ClosedWhenUnused | pkg/runtime/db.go:149-175 | Once its handles are closed and no db-close of one is at work, a pool is closed |
| DbPoolTheorems.ClosedExactlyOnce | pkg/runtime/db.go:176-187 | Every connection of a closed pool that no thread still holds was closed exactly once |
| DbPoolTheorems.NothingLeaks | pkg/runtime/db.go:149-253 | When nothing runs and every handle is closed, every connection ever opened was closed exactly once |
| DbPoolTheorems.NeverClosedTwice | pkg/runtime/db.go:241-253 | At no time is a connection closed twice, or held or idle after it was closed |
| DbPoolTheorems.NoDeadlock | pkg/runtime/db.go:71-253 | While any thread is under way, some thread under way can take its next step: the semaphore, the dial locks and the table lock never wait for each other in a circle |
| DbPoolLost.LostStaysOut | pkg/runtime/db.go:241-253 | Over every run: a connection whose use or transaction ended with the connection lost is never idle again, and no query or transaction holds it again |
| DbPoolLost.LostIsClosed | pkg/runtime/db.go:241-253 | Once no thread holds it any more, a lost connection was closed, and once |
| DbPoolLost.ReturnedExactly | pkg/runtime/db.go:241-253 | After its use a connection is put back if and only if it was not lost and the pool is open and has room then, whatever other threads did in between |
| DbPoolLost.LastBackFirstOut | pkg/runtime/db.go:208-253 | The connection put back last is the one that the next thread to look gets |
| DbPoolLost.ClosedRefuses | pkg/runtime/db.go:208-215 | A thread that looks at a closed pool gets no connection: its next step gives its place back |
| DbPoolServes.TokenExactly | pkg/runtime/db.go:208-210 | A waiting thread can go on if and only if fewer threads than the capacity hold a place |
| DbPoolServes.IdleServes | pkg/runtime/db.go:216-221 | A thread that looks at an open pool with idle connections gets one of them |
| DbPoolServes.OpenServes | pkg/runtime/db.go:222-230 | With none idle it may open one, whatever others do in between, and then uses that |
| DbPoolServes.ConnectEnds | pkg/runtime/db.go:71-124 | A db-connect that the driver does not refuse ends with a new open handle on the open pool of its key |
| DbPoolRuns.RunInv | pkg/runtime/db.go:71-377 | The invariant of locks, references, capacity, places and transactions holds after every run |
| DbPoolRuns.StepInv | pkg/runtime/db.go:71-377 | Every one of the 21 steps keeps it |
| DbTransaction.CallEndsAll | pkg/codegen/database.go:19-49 | A call of a generated function, however it is left and however its blocks nest, repeat and jump, ends as the source does; every transaction it began has ended once, by a commit exactly if its body ran to the end, and gave its connection back once |
| DbTransaction.BlockFollows | pkg/codegen/database.go:19-49 | The code of one block does what the source block does; an uncommitted transaction waits for its scheduled rollback |
| DbTransaction.BodySettles | pkg/codegen/database.go:9-18 | A run leaves no transaction of its own undecided and those of others alone |
| DbTransaction.UnwindsEach | pkg/runtime/db.go:367-377 | The scheduled rollbacks end each transaction that is not done, and change no other |
| DbTransaction.Generator.GenDBTransaction | pkg/codegen/database.go:19-49 | The generator writes exactly the lines of the block: begin, guard, shadowed name, scheduled rollback, body, commit, guard |
| DbText.GenerateBody | pkg/codegen/database.go:19-49 | What is written for a function body reads, line by line, as code whose every call ends as the source does, with each transaction begun ended once |
| DbText.ReadText | pkg/codegen/database.go:19-49 | The lines of any code determine the code |
| DbTransaction.Transaction.Commit | pkg/runtime/db.go:351-365 | Commit ends the transaction and releases once, as broken if it failed and lost the connection; a second commit only fails |
| DbTransaction.Transaction.Rollback | pkg/runtime/db.go:370-377 | Rollback after an end changes nothing |
| Loader.Load | pkg/loader/loader.go:47-99 | A circular import is reported exactly if the root reaches a cycle; the load succeeds exactly if there is none and every reachable import can be followed; then every declaration of every reachable file is merged exactly once, after all that earlier imports bring |
| Loader.Loader.Expand | pkg/loader/loader.go:104-116 | Expanding a file keeps the invariant of the walk, follows or reports each import, and merges what the file declares |
| Loader.Loader.ResolveImport | pkg/loader/loader.go:118-191 | An import brings only declarations of files not visited before, and is followed to the end or reported |
| Loader.Loader.Enter | pkg/loader/loader.go:205-218 | A file enters if it is neither on the stack (a cycle, reported) nor visited (a diamond, not reported) |
| Loader.EndAcyclic | pkg/loader/loader.go:205-218 | A finished walk without a circular report ranked all reachable files, so no cycle is reachable |
| Loader.BackEdge | pkg/loader/loader.go:205-213 | An import of a file on the stack closes a cycle reachable from the root |
| LinearParser.ParseExactly | pkg/parser/linear.go:1051-1253 | The parser reads a tree up to a point if and only if the tree yields exactly the tokens before it, has the precedence shape, and the next token cannot carry it on |
| LinearParser.UniqueTree | pkg/parser/linear.go:1034-1081 | Two trees of the shape with the same tokens are the same |
| LinearParser.ExprSound | pkg/parser/linear.go:1051-1081 | What is read yields the tokens read, left operands bind at least as tightly, right operands more tightly, and the next token no more tightly than the minimum |
| LinearParser.ExprComplete | pkg/parser/linear.go:1051-1081 | Every tree of the shape is read back, and the loop goes on from it |
| LinearParser.Parser.ParseExpression | pkg/parser/linear.go:1051-1081 | The loop with its cursor builds the syntax tree of the tree read and stops where it stops |
| LinearParser.Parser.ParsePrimaryBase | pkg/parser/linear.go:1126-1253 | The same for primaries: literals, names, dotted names, calls, variants, `new`, groups, try and not |
| LinearParser.Parser.ParsePrimaryExpr | pkg/parser/linear.go:1083-1124 | The same for field access after a primary, by a name or a dotted name |
| LinearParser.ReadInOrder | pkg/parser/linear.go:1051-1253 | The expression read has the names, operators and literals of the tokens read, in their order: operators between their operands, functions before their arguments |
| LinearSyntax.EraseInOrder | pkg/parser/linear.go:1083-1253 | The same for every kind of tree: arguments, dotted names, field access, `new`, variants, `try` and `not` |
| LinearText.WrittenBack | pkg/parser/linear.go:1051-1253 | Every expression has a text that is read back as that expression, whatever follows it |
| LinearText.ThreeOperands | pkg/parser/linear.go:1034-1081 | Of two operators the right one takes the middle operand if and only if its class comes first: product, sum, comparison, and, or |
| SExprRoundTrip.ParseFormat | pkg/ast/printer.go:528-568 | Parsing the tokens of a printed expression, in any context, gives the expression (with a field access without its call, and `!` of two operands as a call of not) and leaves the context |
| SExprRoundTrip.FormatAgain | pkg/ast/printer.go:509-568 | Printing what is read back gives the same tokens: formatting is idempotent |
| SExprRoundTrip.FormattingSettles | pkg/parser/expr.go:54-193 | All of this for whatever parses; and it comes back unchanged if and only if it is canonical |
| SExprRoundTrip.ParsedNamed | pkg/parser/expr.go:54-234 | The parser only makes expressions that print to something it reads |
| SExprRoundTrip.PathOfPath | pkg/parser/expr.go:198-215 | A dotted path expands to the nested field accesses that print as that path |
| SExprRoundTrip.BangComesBackAsCall | pkg/parser/expr.go:121-141 | `!` with two operands parses as an operator, prints as the word not, and is then read as a call |
| SExprText.FormatInOrder | pkg/ast/printer.go:528-568 | What is printed says the words and literals of the expression in order, an operator before its operands, left before right |
| SExprText.ParseInOrder | pkg/parser/expr.go:54-234 | Whatever parses has the words and literals of its tokens, in their order (operators apart, which a chain says once) |
| SExprText.ChainNests | pkg/parser/expr.go:121-141 | `add`, `mul`, `and` and `or` on three operands or more nest to the left; any other operator with more than two is an error |
| SExprParser.Parser.ParseExpression | pkg/parser/expr.go:54-193 | The parser with its cursor reads what the parsing function says and stops where it says |
| SExprParser.Parser.ParseCallArgs | pkg/parser/expr.go:220-234 | The argument loop, with the field-name exception for the second argument of field |
| SExprParser.Parser.ParseIfExpr | pkg/parser/expr.go:12-52 | The same for if with an optional else |
| Effects.FuncSound | pkg/checker/checker.go:395-405 | In an accepted program no run of a function, through calls of any depth, recursion, spawned calls, transactions and handlers, performs an effect the function does not declare |
| EffectReach.PerformedExactly | pkg/checker/checker.go:395-416 | An effect is performed in some run of a function if and only if it is reached from it: a closure over the program text that follows calls, spawns, transactions and handlers, and leaves out what stands behind an exit or behind a call that never returns |
| EffectReach.ReturnsExactly | pkg/checker/stmt.go:13-168 | Some run of a function returns if and only if the function is in the closure of those that can return |
| EffectReach.DeclaredExactly | pkg/checker/checker.go:410-416 | In an accepted program what is reached is declared, and every declared effect is performed in some run if and only if what is declared is what is reached |
| EffectReach.RecursionAlone | pkg/checker/checker.go:410-416 | A declared effect that only a recursive call asks for is accepted, and not reached |
| EffectChecker.Check | pkg/checker/checker.go:176-220 | Of undeclared effects, unused effects and unknown functions nothing is reported if and only if in every function every call resolves and an effect is declared exactly if some call, transaction or spawn in its text charges it by itself; and then every run keeps to the declarations |
| EffectChecker.Checker.CheckFunction | pkg/checker/checker.go:204-215 | The walk over one function reports nothing if and only if its declarations are exact in this sense |
| EffectText.NeedsAreCharged | pkg/checker/checker.go:395-416 | A body needs an effect if and only if some call, transaction or spawn that occurs in it charges that effect by itself: a call what its builtin or its declaration says, a transaction "db", a spawn "spawn" |
| EffectText.KnownResolved | pkg/checker/expr.go:229-279 | No unknown function is reported if and only if every call that occurs in the body has a builtin or a function |
| EffectChecker.Checker.Call | pkg/checker/expr.go:229-279 | A call charges the effects of the builtin, or those the function declares, and those of its arguments |
| EffectChecker.Checker.Statement | pkg/checker/database.go:317-341 | Each statement charges what it needs: a transaction "db" before its body, a spawn "spawn" before its call |
| EffectChecker.Checker.Effect | pkg/checker/checker.go:395-405 | An effect is marked as used if declared, and reported otherwise |
| IntMath.MulInt | pkg/runtime/math.go:29-43 | Stops exactly if the true product leaves 64 bits, and otherwise returns it |
| IntMath.AddInt | pkg/runtime/math.go:13-19 | The same for sums |
| IntMath.SubInt | pkg/runtime/math.go:21-27 | The same for differences |
| IntMath.QuotientTells | pkg/runtime/math.go:36-42 | Dividing the wrapped product back tells overflow exactly, except for the minimum times minus one, which the special case catches |
| IntMath.DivInt | pkg/runtime/math.go:68-77 | Errs exactly on zero, stops exactly on the one overflow, and otherwise leaves a remainder smaller than the divisor with the sign of the dividend |
| IntMath.ModInt | pkg/runtime/math.go:79-87 | The remainder of that division for every divisor but zero |
| IntMath.PowInt | pkg/runtime/math.go:111-127 | Returns the power exactly if it fits 64 bits; no square on the way stops it by itself |
| IntMath.VPow | pkg/codegen/c/runtime.h:366 | The C loop, which squares before it halves, returns and stops alike |
| IntMath.CheckMulOverflow | pkg/codegen/c/runtime.h:322-331 | The portable C check is exact |
| IntMath.SquareTells | pkg/runtime/math.go:121-124 | A square that is still needed and does not fit means the power does not fit: 2^63 is no square |
| Utf8.VSlice | pkg/codegen/c/runtime.h:163-169 | On every valid UTF-8 string the C slice is the encoding of the slice of runes, fails exactly out of bounds, and agrees with the Go runtime; on any bytes it is the range between two offsets |
| Utf8.SlicesAgreeExactly | pkg/runtime/runtime.go:232-239 | On any bytes: the C and the Go runtime take the same slices for all bounds if and only if the string is valid UTF-8 |
| Utf8.GetsAgreeExactly | pkg/runtime/strings.go:63-69 | The same for runes by index |
| Utf8.ValidIsEncoded | pkg/runtime/runtime.go:232-239 | A string survives decoding and encoding exactly if it is the encoding of some runes: what valid UTF-8 means in the two rows above |
| Utf8.CountDecoded | pkg/codegen/c/runtime.h:144-150 | On any bytes the Go runtime counts as many runes as the C runtime, and one more for each continuation byte that it decodes by itself |
| Utf8.OffsetsOrdered | pkg/codegen/c/runtime.h:163-169 | On any bytes the two offsets of a range are ordered, so the length of the slice is not negative |
| Utf8.VStrGet | pkg/codegen/c/runtime.h:170-176 | The same for one rune |
| Utf8.CountRunes | pkg/codegen/c/runtime.h:144-150 | Counting the bytes that are no continuation counts the runes |
| Utf8.OffsetIs | pkg/codegen/c/runtime.h:151-160 | The offset of a rune is where its encoding starts |
| Utf8.DecodeEncode | pkg/runtime/runtime.go:232-239 | Decoding an encoding gives the runes back, so the Go slice is a slice of runes |
| RateLimit.Bound | pkg/web/ratelimit.go:24-47 | With fixed limits and time that does not go back, any closed interval of the length of a window holds at most twice the limit |
| RateLimit.Remembered | pkg/web/ratelimit.go:33-44 | In each window at most the limit is accepted, and the entry counts it |
| RateLimit.RefusedWhenFull | pkg/web/ratelimit.go:41-46 | A call is refused only in a window in which the limit was reached |
| RateLimit.OthersUnaffected | pkg/web/ratelimit.go:32-40 | Calls for other keys change neither the entry nor the outcome of any call for a key |
| RateLimit.WrappedWindow | pkg/web/ratelimit.go:37 | A window too long for a duration wraps to a shorter one, and three calls pass where two may |
| RateLimit.BoundExactly | pkg/web/ratelimit.go:24-47 | The bound holds of every run if and only if the window in nanoseconds fits 64 bits |
| RateLimit.RateLimiter.RateLimit | pkg/web/ratelimit.go:24-47 | One call decides and updates the table as the run semantics says |
| MySqlWire.ReadWritten | pkg/dbdrv/mysql_wire.go:32-74 | Reading what was written gives the payload for every length, multiples of 2^24-1 included, numbers the packets consecutively modulo 256, and leaves what follows |
| MySqlWire.PacketsInjective | pkg/dbdrv/mysql_wire.go:32-54 | Payloads written alike are equal |
| MySqlWire.PacketBytes | pkg/dbdrv/mysql_wire.go:32-54 | The bytes of a packet: its length in three bytes, the lowest first, its number, and at most 2^24-1 bytes of payload; a full packet is followed by more |
| MySqlWire.Conn.Write | pkg/dbdrv/mysql_wire.go:32-54 | The loop appends exactly the packets and moves the sequence number by their count |
| MySqlWire.Conn.Read | pkg/dbdrv/mysql_wire.go:56-74 | The loop reads one payload, or fails when the stream ends before |
| MySqlWire.LenencBack | pkg/dbdrv/mysql_wire.go:76-112 | A length-encoded integer over all of 64 bits decodes to itself and leaves what follows; its first byte is neither the NULL nor the error mark |
| MySqlWire.LenencBytes | pkg/dbdrv/mysql_wire.go:76-91 | The bytes of a length-encoded integer: one byte below 251, and otherwise the mark FC, FD or FE and two, three or eight bytes, the lowest first |
| MySqlWire.LenencStringBack | pkg/dbdrv/mysql_wire.go:114-123 | The same for length-encoded strings |
| Resp.CommandParses | pkg/dbdrv/redis.go:102-165 | A command is read back as its list of arguments, whatever bytes they hold, and nothing after it is read |
| Resp.CommandsParse | pkg/dbdrv/redis.go:142-160 | Commands in a row are read in a row |
| RespReplies.ReplyRead | pkg/dbdrv/redis.go:116-165 | Every reply as the protocol writes it (`+`, `-`, `:`, `$`, `*`, both nulls, nested to any depth) is read as what it means, an error at any depth failing it, and nothing behind it is read |
| Resp.HeaderLine | pkg/dbdrv/redis.go:167-173 | A header line is read up to its line feed and trimmed to its number |
| Resp.Conn.Send | pkg/dbdrv/redis.go:102-109 | The loop appends exactly the command |
| Resp.Conn.ReadReply | pkg/dbdrv/redis.go:116-165 | The recursive reader reads the reply of the grammar or fails, and consumes what it reads |
| Resp.Conn.ReadFull | pkg/dbdrv/redis.go:175-185 | However few bytes each read brings, exactly the asked number is read |
| WebSocket.MessageArrives | pkg/web/websocket.go:243-336 | A valid text message of at most 2^20 bytes, in any masked fragments with any pings and pongs between, comes out as it was; pings are answered in order with their payloads; no byte after the last fragment is read |
| WebSocket.HandedOverValid | pkg/web/websocket.go:243-336 | Whatever a client sends, a message handed over is valid, within the limits, and what is left is the rest of the stream |
| WebSocketCodes.FrameEnds | pkg/web/websocket.go:260-334 | After any fragments, pings and pongs: the close code that answers each violation of the message rules, each close frame, and a ping that finds the send queue full |
| WebSocketCodes.StreamEnds | pkg/web/websocket.go:249-258 | The same for what is refused while a frame is read (1002, 1009), and no code for the end of the stream |
| WebSocketCodes.RawRead | pkg/web/websocket.go:343-399 | A frame with any first byte, masked or not, is a violation, too big, or read as it is, exactly by its reserved bits, its kind, its length and its mask |
| WebSocketCodes.TextHandedOver | pkg/web/websocket.go:273-334 | A whole text message is handed over, refused by the rate limit with 1008, or refused as invalid with 1007 |
| WebSocketCodes.BinarySkipped | pkg/web/websocket.go:273-334 | A whole binary message, in one frame or many, is skipped: what follows it is the next message, and its pings are answered |
| WebSocketConn.Conn.NextMessage | pkg/web/websocket.go:243-336 | The loop has the outcome of the specification: the message, or the end with its close code, and the frames sent |
| WebSocketConn.Conn.OnFrame | pkg/web/websocket.go:260-334 | One frame continues the message being put together, hands one over, or ends the connection |
| WebSocketConn.Conn.ReadNext | pkg/web/websocket.go:343-399 | A frame is read and checked in the order of the source, and consumed exactly |
| WebSocketConn.Conn.Unmask | pkg/web/websocket.go:395-397 | Unmasking in place is the mask by position |
| WebSocketConn.Conn.Made | pkg/web/websocket.go:426-441 | The buffer holds header and payload of the frame |
| WebSocketFrames.ReadSent | pkg/web/websocket.go:343-399 | Every frame a client may send is read back, and nothing after it |
| WebSocketFrames.MadeFrameReads | pkg/web/websocket.go:426-441 | The other side reads opcode and payload of every frame made |
| WebSocketFrames.LengthBytes | pkg/web/websocket.go:426-441 | The bytes of a length: seven bits, or the mark 126 or 127 and two or eight bytes, the highest first |

## Left out

- C lowering: option matches, match-expressions and for-each, `not` and the other builtins, strings other than as values passed around, floats, `_` bindings, send, receive, spawn, structs and lists.
- CCode.ReadModuleLines: lines are records of what is written, not characters, with variables by their source names; CFlat gives them their C names.
- C lowering: the increment of a loop variable at the largest 64-bit integer wraps in both semantics; C leaves it undefined.
- C lowering: a name that is both a builtin and a function. Of what a C compiler may refuse, only a call that a variable hides.
- TryCorrect.BodyCorrect: only with quiet operands before a `try` that is lifted, and for runs in which no conditional `try` fails; BodyExactly drops the second restriction.
- TryCorrect.BodyExactly: only with quiet operands before a `try` that is lifted; OperandBeforeTry is about one operand that is not quiet.
- TryPlaces.OperandBeforeTry: one operand before one `try`; with more of either only the condition of BodyCorrect is proved.
- TryPlaces.InPlaceExactly: the heads of if, match and for-range statements, and conditional tries beside lifted ones, are covered by BodyExactly only.
- TryPlaces.WhileExactly: the body holds no conditional `try`, and a failing `try` gives the value of the whole condition; the general condition is that of BodyExactly.
- Hoisting: match-expressions, enum and option matches, `and` and `or` written as calls, for-each, send and spawn, tabs and indentation. Numbers stand for the identity of `try` nodes; the guard variables are one map of temporaries.
- PendingExact.AcceptedIsSafe: bodies without break, continue, try and case-matches, where the checker does not join states.
- PendingExact.Complete: only for statements in which no statement follows one that returns on every path, no `set` consumes the variable it sets and no loop header consumes anything.
- PendingExact.AcceptedSafeExactly: bodies in which no statement follows one that returns on every path, no `set` consumes the variable it sets and no loop header consumes anything.
- Pending analysis: every operand of an expression is evaluated, so an `unwrap-or` in the arm of an if- or match-expression or on the right of `and` and `or` counts as reached, as it does for the checker.
- Pending analysis: type errors, and snapshots are keyed by scope and name instead of by the identity of a binding.
- Pools: what the driver does, dial addresses and options, deadlines. The step that publishes a pool also gives the dial lock back. `owner`, `closes` and `place` are history: no step chooses by them. Pools are values of a state machine, not objects, because any number of threads step between two lock regions of a call.
- Pools: `txDone` is not guarded by a lock in the source; the model takes its reads and writes as atomic.
- DbPoolTheorems.NoDeadlock: says that some step is possible, not that every thread gets its turn.
- Loader: directory imports, how a path is resolved to a file, symbolic links, parse errors beyond their being one, and collisions of names between files.
- LinearParser.Parser.ParsePrimaryBase: match-expressions.
- Linear syntax: positions, the values of floats. The lexer is not part of this model; whether a number fits and whether a dotted name starts with a keyword are given with the token.
- SExprParser.Parser.ParseExpression: match-expressions.
- Printer: match-expressions, statements, and the text of tokens (escapes of string literals, line breaks).
- EffectChecker.Checker.Call: builtins with their own checks are taken to check their arguments like the others.
- Effects: routes, middleware and tests; the list of known effect names and duplicates; the other errors of the checker. The rollback of a block left early is not listed as performing "db" a second time.
- DbTransaction.CallEndsAll: on-err handlers hold no transactions (their code would call the handler inside itself); panics.
- RateLimit.Bound: the clock is a parameter, and limits are fixed for a key.
- MySQL: a nil slice that is empty counts as an empty slice. Nothing but framing and length-encoded values.
- RESP: lengths so large that a buffer cannot be made; timeouts.
- WebSocket: the handshake, timeouts, the hub, what a full send queue does besides refusing, and how the rate limit counts. Validity of UTF-8 is a parameter.
- Negation, absolute value, minimum, maximum and the other one-line arithmetic of the runtime.
