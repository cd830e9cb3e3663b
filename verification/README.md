# pview: a verified model of the indexer

pview indexes C++ code: it decides for each function whether it may throw, stores
definitions and calls in MySQL, and answers call-path and throw-path queries from
there. This project models the parts of the indexer whose correctness is not
visible in any single function body, and proves what they promise. `dafny verify
dfyconfig.toml` checks all of it.

## What is modelled

**The exception analyzer** (`indexer/ExceptionAnalyzer.cc`, `.h`). `Ast` has the
statements, handlers and functions the analyzer distinguishes. `ExceptionInfos` and
`ExceptionAnalyzers` have its classes, updating their fields in place as the source
does; `ThrowAnalysis` has the function they are proved to compute, with the levels
left before the cut-off as its measure. Independently of it, `RaiseSemantics` says
which exceptions a statement may raise, one exception at a time, under
first-matching-handler dispatch. Exceptions of a type the analyzer cannot know are
foreign; the semantics is a family, in which they come from nowhere, from functions
without a body, or also from the operands, arguments and indirect callees that the
analyzer does not visit. The two are then compared.

- `HandlerDispatch`, `ThrowReports`: the handler loop, which shrinks a set, is first-match
  dispatch, and what each kind of statement reports in closed form.
- `GuardedPrograms`: a program is guarded if, wherever a call in a try block leads back to
  the function it is in, typed handlers raise nothing of their own and a catch(...) lets
  through what it rethrows. Programs without call cycles, and programs without try
  blocks, are guarded.
- `LiveHandlers`: a program is live if every catch(...) can be reached by something its
  try block may raise. Programs without catch(...) are live; otherwise a walk over the
  syntax, following calls to a given depth, is enough, wherever foreign exceptions come
  from. The condition is sharp.
- `ThrowSoundness`, `ThrowPrecision`: a program is tame if a bare `throw;` is directly under
  a catch(...), which comes last, or a handler of a final type. For tame, guarded and
  live programs, and enough levels, the report has exactly the types that may be raised,
  in each semantics of the family; and if no catch(...) rethrows, the unknown flag is set
  exactly if an exception from a function without a body may get out.
- `ExactExample`: a program with recursion through a try block and both kinds of rethrow
  that is tame, guarded and live.
- `CallCycles`: without try blocks, whatever the call cycles, the report is exactly what
  the reachable functions contribute.
- `ThrowLevels`: more levels, or a smaller call stack, only add; `k * (h + 1) + 1` levels are
  enough where simple chains of calls have at most `k` functions, of height `h`.
- `AnalyzerReports`: what the entry points report; the result cache; `func_might_throw`.
- `AnalyzerLimits`, `RethrowLimits`, `LevelLimits`: inputs where the analyzer and the semantics
  part, and exactly which: recursion through try blocks and blocks that nothing reaches;
  a bare `throw;` in typed handlers, in catch(...) and in functions called from handlers;
  results cached at another level, and throws too deep for the indexer's level.

**The queue and the pipeline** (`indexer/IndexQueue.*`, `do_indexing`, `do_parse`,
`do_store`). `IndexQueues` has the critical sections as relations and as methods of a
class; `QueueProtocol` interleaves them with spurious wakeups and the two halves of
`set_stop`; `IndexPipelines` adds the tasks and the main thread. `PipelineResults` proves
exactly-once delivery, the bound on the queue and the absence of stuck states;
`QueueWakeups` says who sleeps and who is woken at which length of the queue, in numbers,
and `PipelineTasks` how many store tasks there are;
`PipelineStall` says exactly which states are stuck and reaches one;
`PipelineTermination` shows that runs end unless spurious wakeups never cease.

**File ids** (`query_or_assign_file_id`, the atomic counter, the filepaths table and its
lock). `FileIds` is the protocol, in which every access to something shared is a step;
locking, inserting and unlocking may fail, a lock or an insertion may be reported that
was not done, and a crash of the compiler front end may leave the lock behind.
`FileIdResults` proves what holds over whole runs; `FileIdRows` follows each location from
the row that uses it to the tables; `FileIdTasks` has the function itself and shows that a
call is a run of the protocol.

**Batching and storing** (`send_indexed_result`, the statement generators, the loop of
`do_store`): `Batching`, `StoreTasks`.

**Path search** (`search_callpath`, `search_throwpath`): `PathSearch`, over a fixed table
that may be cyclic.

**SipHash and name rewriting** (`indexer/siphash.cc`, `simplify_anonymous`): `SipHash`
has the definition of section 2 of "SipHash: a fast short-input PRF" (Aumasson and
Bernstein, 2012) and the code over any type of words, `SipHash64` the 64-bit words and
bytes, `SipHashVectors` the paper's constants and its example; `SimplifyAnonymous` has the loop over a string and the one pass it amounts to.

## Where the code and its documentation disagree

The model follows the code.

- `createNonThrowing()` creates a Throwing value. `AnalyzerReports.FuncReportIsExact`
  and `StmtReportIsExact` show that the entry points mask it.
- A bare `throw;` in a typed handler is reported as throwing the handler's type, not the
  types it caught (`RethrowLimits.TypedRethrowIsExactIff`).
- `catch (...) { throw; }` forgets that something unknown may be raised
  (`RethrowLimits.RethrowForgetsUnknown`).
- A bare `throw;` in a function that a handler calls is reported to throw nothing, though it
  raises what the handler took (`RethrowLimits.CalledRethrowIsExactIff`,
  `RethrowLimits.CalledRethrowIsMissed`).
- The recursion cut-off does lose types where a call in a try block leads back to its
  function and the handlers are not bland (`AnalyzerLimits.RecursionIsExactIff`).
- A catch(...) block is analysed even if nothing can reach it
  (`LiveHandlers.CatchAllIsExactIff`, `AnalyzerLimits.UnreachedBlockIsExactIff`).
- `setMaxTraceLevel` does not invalidate cached results: they are those of a fresh analyzer,
  for all programs, iff as many levels are left (`LevelLimits.CachedIsCurrentIff`,
  `LevelLimits.StaleAfterRaisingTheLevel`).
- `func_might_throw` misses a throw with 19 statements around it
  (`LevelLimits.LevelBindsIff`).
- A printed call path leaves out the direct caller of its target
  (`PathSearch.PrintedCallpath`).
- `query_or_assign_file_id` says the path is the primary key of the filepaths table; in
  `indexer/SQL.cc` the key is the id, and one path can have several
  (`FileIdResults.IndexingAgainAddsAnId`).
- `query_or_assign_file_id` is documented as atomic by the table lock; a lock that is
  reported without being taken breaks that (`FileIdTasks.FalseLockInsertsTwice`).
- A translation unit's statements are said to be stored in one transaction; they are
  issued one by one, and a prefix may stay behind
  (`StoreTasks.FilepathIffAllRowsReported`).
- A batch size of zero makes `send_indexed_result` loop for ever, a negative one means no
  limit (`Batching.NextRows`).
- If no store task connects, `do_indexing` may never return
  (`PipelineStall.StallIsReachable`).
- The ignored exception names are described as separated by `;` but split at `,`; with
  the one name in use this makes no difference.

## Model

| member | source | states |
|---|---|---|
| ExceptionInfos.OperationsKeepConsistent | indexer/ExceptionAnalyzer.cc:30-120 | every operation keeps the invariant that a state other than Throwing is the one the types and the unknown flag stand for |
| ExceptionInfos.ExceptionInfo.Default | indexer/ExceptionAnalyzer.h:46-48 | the default value knows of nothing |
| ExceptionInfos.ExceptionInfo.WithState | indexer/ExceptionAnalyzer.h:49-50 | a value made from a state, with the unknown flag for Unknown |
| ExceptionInfos.ExceptionInfo.RegisterException | indexer/ExceptionAnalyzer.cc:30-35 | the type is added and the state is Throwing |
| ExceptionInfos.ExceptionInfo.RegisterExceptions | indexer/ExceptionAnalyzer.cc:37-42 | nothing changes for no types; otherwise all are added and the state is Throwing |
| ExceptionInfos.ExceptionInfo.Merge | indexer/ExceptionAnalyzer.cc:44-61 | types and unknown flags are joined; Throwing wins over Unknown, Unknown over NotThrowing |
| ExceptionInfos.ExceptionInfo.ReevaluateBehaviour | indexer/ExceptionAnalyzer.cc:112-120 | the state is Throwing iff a type is left, else Unknown iff the flag is set |
| ExceptionInfos.ExceptionInfo.Erase | indexer/ExceptionAnalyzer.cc:78-80 | exactly the listed types go and the state follows |
| ExceptionInfos.ExceptionInfo.FilterByCatch | indexer/ExceptionAnalyzer.cc:72-82 | exactly the types equal to the caught one, or derived from it by the inheritance relation, go; true iff there were any |
| ExceptionInfos.ExceptionInfo.FilterIgnoredExceptions | indexer/ExceptionAnalyzer.cc:84-104 | exactly the types whose name is among the ignored ones, and if asked the bad_alloc in std, go; a type without a name stays |
| ExceptionInfos.ExceptionInfo.Clear | indexer/ExceptionAnalyzer.cc:106-110 | nothing is left |
| ExceptionAnalyzers.ExceptionAnalyzer.constructor | indexer/ExceptionAnalyzer.h:119-149 | the default level is -1, bad_alloc is ignored, nothing is cached |
| ExceptionAnalyzers.ExceptionAnalyzer.SetMaxTraceLevel | indexer/ExceptionAnalyzer.h:121 | the level changes and the cache does not |
| ExceptionAnalyzers.ExceptionAnalyzer.IgnoreBadAlloc | indexer/ExceptionAnalyzer.h:122 | the setting changes and the cache stays valid |
| ExceptionAnalyzers.ExceptionAnalyzer.IgnoreExceptions | indexer/ExceptionAnalyzer.h:123-125 | the names change and the cache stays valid |
| ExceptionAnalyzers.ExceptionAnalyzer.ThrowsExceptionFunc | indexer/ExceptionAnalyzer.cc:122-157 | the walk over a function computes the analysis function and restores the shared call stack |
| ExceptionAnalyzers.ExceptionAnalyzer.ThrowsExceptionStmt | indexer/ExceptionAnalyzer.cc:161-242 | the walk over a statement computes the analysis function and restores the shared call stack |
| ExceptionAnalyzers.ExceptionAnalyzer.AnalyzeImplFunc | indexer/ExceptionAnalyzer.cc:244-262 | the unfiltered result at the level in force when the function was first analysed; the cache stays valid |
| ExceptionAnalyzers.ExceptionAnalyzer.AnalyzeFunc | indexer/ExceptionAnalyzer.cc:271-290 | the filtered report; while the level has not changed, the same with any cache as with an empty one, even if the ignore settings changed |
| ExceptionAnalyzers.ExceptionAnalyzer.AnalyzeStmt | indexer/ExceptionAnalyzer.cc:264-294 | the filtered report for a statement |
| ThrowLevels.FuncMonotone | indexer/ExceptionAnalyzer.cc:122-157 | a deeper walk with a smaller call stack sees at least as much of a function; a walk with enough levels sees at least what any walk sees |
| ThrowLevels.StmtMonotone | indexer/ExceptionAnalyzer.cc:161-242 | the same of a statement, through try and catch, rethrow and calls, and in the caught types |
| ThrowLevels.HandlerLoopMonotone | indexer/ExceptionAnalyzer.cc:184-220 | the same of what the handler loop leaves uncaught and of what it gathers |
| ThrowLevels.BudgetClosedForm | indexer/ExceptionAnalyzer.cc:126-129 | the levels that a chain of calls can use up are one more than its length times height plus one |
| ThrowLevels.RaisingTheLevelOnlyAdds | indexer/ExceptionAnalyzer.cc:126-127 | raising MaxTraceLevel or shrinking the call stack never removes a type or the unknown flag |
| ThrowLevels.LevelStabilises | indexer/ExceptionAnalyzer.cc:126-242 | with enough levels for the simple chains of calls from a function the result no longer changes, call cycles included |
| ThrowLevels.ProgramBound | indexer/ExceptionAnalyzer.cc:126-242 | for any program functions times height plus one, plus one, are enough |
| ThrowLevels.WalkReportsThrowing | indexer/ExceptionAnalyzer.cc:164-166 | the walk over any statement, even an empty one, reports Throwing: the seed never goes away |
| ThrowLevels.FuncWalkReportsThrowing | indexer/ExceptionAnalyzer.cc:126-157 | so does the walk over a function, except for one with neither body nor specification |
| HandlerDispatch.UncaughtAreTheUnmatched | indexer/ExceptionAnalyzer.cc:187-219 | after each handler exactly the types no handler so far matches are uncaught |
| HandlerDispatch.LoopRefinesFirstMatch | indexer/ExceptionAnalyzer.cc:187-219 | a typed handler's block is analysed iff it is the first match of some type, catch(...) always with the types still uncaught; exactly their results are gathered |
| HandlerDispatch.TryThrows | indexer/ExceptionAnalyzer.cc:184-220 | a try statement throws exactly what no handler matches and what the analysed blocks throw |
| HandlerDispatch.ChildrenThrow | indexer/ExceptionAnalyzer.cc:234-240 | a statement with children throws exactly what some child throws |
| HandlerDispatch.SiblingOrderIsIrrelevant | indexer/ExceptionAnalyzer.cc:234-240 | order and repetition of sibling statements do not change the result |
| ThrowReports.FuncLoopThrows | indexer/ExceptionAnalyzer.cc:131-148 | a function throws exactly what its body or some initialiser throws |
| ThrowReports.InitialiserOrderIsIrrelevant | indexer/ExceptionAnalyzer.cc:138-145 | order and repetition of constructor initialisers do not change the result |
| ThrowReports.SpecLoopThrows | indexer/ExceptionAnalyzer.cc:151-156 | a function without a body contributes its exception specification and is unknown |
| ThrowReports.TryReports | indexer/ExceptionAnalyzer.cc:184-220 | a try statement accounts for an exception iff its block does and no handler takes it, or some analysed handler block does |
| ThrowReports.SimpleStatementsReport | indexer/ExceptionAnalyzer.cc:169-233 | what a throw, a bare throw, a call, a construction and a default argument report, whatever is caught and on the call stack |
| ThrowReports.FirstMatchTakes | indexer/ExceptionAnalyzer.cc:63-82 | of two typed handlers the first one that names the thrown type or, by the inheritance relation, a base class of it takes it: what is reported and what may be raised is what that handler throws |
| RaiseSemantics.RaisesDeeper | indexer/ExceptionAnalyzer.cc:161-242 | the semantics is monotone in the depth of calls |
| RaiseSemantics.HandledIsIrrelevant | indexer/ExceptionAnalyzer.cc:180-183 | outside of handlers a tame statement does not depend on the exception being handled |
| GuardedPrograms.AcyclicIsGuarded | indexer/ExceptionAnalyzer.cc:126-132 | programs without call cycles are guarded |
| GuardedPrograms.HandlerFreeIsGuarded | indexer/ExceptionAnalyzer.cc:184-220 | programs without try blocks are guarded, whatever their call cycles |
| GuardedPrograms.RethrownOrOwn | indexer/ExceptionAnalyzer.cc:192-197 | what a catch(...) raises that lets through what it rethrows is the handled exception, or does not depend on it |
| LiveHandlers.CatchAllFreeIsLive | indexer/ExceptionAnalyzer.cc:192-197 | programs without catch(...) are live, wherever foreign exceptions come from |
| LiveHandlers.GetsOutIsRaised | indexer/ExceptionAnalyzer.cc:169-241 | what a walk over the syntax sees getting out of a statement, through handlers that rethrow it and calls up to a given depth, the statement may raise |
| LiveHandlers.AwakeIsLive | indexer/ExceptionAnalyzer.cc:192-197 | wherever foreign exceptions come from, a program is live if that walk finds for every catch(...) something that gets out of its try block past the handlers before it: a throw, a call of a function that throws, or, unless foreign exceptions come from nowhere, of one without a body |
| LiveHandlers.CatchAllIsExactIff | indexer/ExceptionAnalyzer.cc:192-197 | what a catch(...) block throws is always reported, and it may be raised iff the try block may raise something |
| LiveHandlers.GetsOutIff | indexer/ExceptionAnalyzer.cc:169-241 | where operands and arguments may raise, the syntax of a try block alone tells whether it may raise something, if each catch(...) in it that has typed handlers before it lets foreign exceptions through |
| ThrowSoundness.StmtSound | indexer/ExceptionAnalyzer.cc:161-242 | whatever a tame statement may raise is reported at some depth, or the walk was cut at a function on the call stack that raises it at a smaller depth of calls |
| ThrowSoundness.TrySound | indexer/ExceptionAnalyzer.cc:184-220 | the same of a try statement |
| ThrowSoundness.BlockSound | indexer/ExceptionAnalyzer.cc:209-217 | the handler that takes what the block was seen to raise is analysed, with what it may rethrow |
| ThrowSoundness.BlandSound | indexer/ExceptionAnalyzer.cc:187-219 | where the walk of the try block was cut, bland handlers lose nothing |
| ThrowSoundness.FuncSound | indexer/ExceptionAnalyzer.cc:122-157 | whatever a call may raise is reported at some depth, or some function further down the stack raises it at a smaller depth: the recursion cut loses nothing |
| CallCycles.FuncSource | indexer/ExceptionAnalyzer.cc:122-157 | whatever is reported of a handler-free function, some reachable function contributes |
| CallCycles.PathReported | indexer/ExceptionAnalyzer.cc:126-147 | what the last function of a simple call path contributes is reported of the first: the recursion cut loses nothing |
| CallCycles.ReportIsReachableContributions | indexer/ExceptionAnalyzer.cc:126-239 | without try blocks, with any call cycles: a type is reported iff a reachable function throws or specifies it, the unknown flag is set iff one has no body |
| CallCycles.FlagWithTypedHandlers | indexer/ExceptionAnalyzer.cc:149-220 | with typed handlers only, the flag is set whenever a function without a body is reached by calls outside of handlers |
| ThrowPrecision.StmtPrecise | indexer/ExceptionAnalyzer.cc:161-242 | whatever is reported of a tame and live statement it may raise, while the exception handled outside, or one of the caught types, is handled |
| ThrowPrecision.TypedPrecise | indexer/ExceptionAnalyzer.cc:209-217 | whatever an analysed typed handler reports, the try statement may raise |
| ThrowPrecision.CatchAllPrecise | indexer/ExceptionAnalyzer.cc:192-197 | whatever a live catch(...) reports, the try statement may raise |
| ThrowPrecision.FuncPrecise | indexer/ExceptionAnalyzer.cc:122-157 | whatever is reported of a function a call of it may raise |
| ThrowPrecision.NothingRaisedIsMissed | indexer/ExceptionAnalyzer.cc:122-242 | soundness: tame, guarded, enough levels: every type that may be raised is reported, wherever foreign exceptions come from; and the unknown flag is set if one from a function without a body gets out and no catch(...) rethrows |
| ThrowPrecision.NothingReportedIsSpurious | indexer/ExceptionAnalyzer.cc:122-242 | precision: tame and live, at any level and with any call cycles: whatever is reported may be raised |
| ThrowPrecision.AnalysisIsExact | indexer/ExceptionAnalyzer.cc:122-242 | both: a type is reported iff it may be raised, wherever foreign exceptions come from |
| ThrowPrecision.ExactWithoutCatchAll | indexer/ExceptionAnalyzer.cc:122-242 | without catch(...) also if there are no foreign exceptions |
| ThrowPrecision.ExactIfAwake | indexer/ExceptionAnalyzer.cc:122-242 | with catch(...) under the check on the syntax, wherever foreign exceptions come from |
| ExactExample.RetryIsExact | indexer/ExceptionAnalyzer.cc:122-242 | a recursive function with a rethrow in a typed handler and in catch(...), which is tame, guarded and live: its report is exact, wherever foreign exceptions come from, and not empty |
| ThrowPrecision.UnknownFlagIsExact | indexer/ExceptionAnalyzer.cc:118-157 | if no catch(...) rethrows, the unknown flag is set iff an exception from a function without a body may get out of a call |
| AnalyzerReports.ConsistentIsReportedExactly | indexer/ExceptionAnalyzer.cc:271-285 | the invariant of the operations is all that an exact report needs, whatever the seed |
| AnalyzerReports.FuncReportIsExact | indexer/ExceptionAnalyzer.cc:271-285 | the report has exactly the types not ignored, and is Throwing iff there are any, else Unknown iff the flag is set: the wrong seed is masked |
| AnalyzerReports.StmtReportIsExact | indexer/ExceptionAnalyzer.cc:271-285 | the same for statements |
| AnalyzerReports.CachedReportIsCurrent | indexer/ExceptionAnalyzer.cc:249-259 | a cached result equals a fresh one if as many levels are left, or enough at both levels |
| AnalyzerReports.IgnoredByIndexerIff | indexer/ParseTask.cc:868-883 | the indexer disregards exactly the types named AssertionError and std::bad_alloc; a type without a name counts |
| AnalyzerReports.FuncMightThrow | indexer/ParseTask.cc:856-887 | true iff the walk with 20 levels finds a type other than AssertionError and std::bad_alloc |
| AnalyzerReports.YesIsRight | indexer/ParseTask.cc:856-887 | if it is true, a call may raise something not ignored: for every tame and live program, however large |
| AnalyzerReports.NoIsRight | indexer/ParseTask.cc:856-887 | if it is false, no call raises anything not ignored: for tame and guarded programs in which 20 levels are enough for the simple chains of calls from the function |
| AnalyzerReports.MightThrowIffMayRaise | indexer/ParseTask.cc:856-887 | both together |
| LevelLimits.NestedIsSeenIff | indexer/ExceptionAnalyzer.cc:165-165 | a throw that is the innermost of n default arguments is seen iff more than n + 1 levels are left |
| LevelLimits.ReportTwice | indexer/ExceptionAnalyzer.cc:244-289 | an analyzer that saw the function at one level and is asked again at another reports as at the first, one that never saw it as at the second |
| LevelLimits.CachedIsCurrentIff | indexer/ExceptionAnalyzer.cc:249-259 | cached and fresh reports are equal for all programs and functions iff both levels leave as many levels |
| LevelLimits.StaleAfterRaisingTheLevel | indexer/ExceptionAnalyzer.h:121-149 | for any two levels of which the second leaves more, a function stays NotThrowing where a fresh analyzer reports Throwing, or Unknown where one level is left |
| LevelLimits.LevelBindsIff | indexer/ParseTask.cc:856-887 | a throw with n statements around it is found with the hardcoded level of 20 iff n < 19, though the program is tame, guarded and live and the throw may always get out |
| AnalyzerLimits.CycleThroughHandlerIsMissed | indexer/ExceptionAnalyzer.cc:126-217 | where a function calls itself in a try block, the handler takes something that the rest of the function throws, and its block throws something else: no level reports that, though the program is tame |
| AnalyzerLimits.RecursionIsExactIff | indexer/ExceptionAnalyzer.cc:126-217 | for such functions, with any plain handler block and rest, types and inheritance: the report is exact iff the handler takes nothing that the rest throws, or throws nothing that the rest does not |
| AnalyzerLimits.UnreachedBlockIsExactIff | indexer/ExceptionAnalyzer.cc:190-219 | for any try block and handlers, and a last catch(...) whose block has no try block: what the block throws is reported from some level on, and may be raised iff something reaches the catch(...) or an earlier handler raises the same |
| RethrowLimits.TypedRethrowIsExactIff | indexer/ExceptionAnalyzer.cc:210-217 | a try block that is reported exactly, under a typed handler that rethrows, is reported exactly iff no type reported of the block derives from the handler's type but that type itself |
| RethrowLimits.RethrowForgetsUnknown | indexer/ExceptionAnalyzer.cc:192-197 | a rethrowing catch(...) keeps every type but never sets the unknown flag, though it raises exactly what its try block does |
| RethrowLimits.CalledRethrowIsExactIff | indexer/ExceptionAnalyzer.cc:129-148 | handlers that call a function which rethrows raise what they take but are reported to raise nothing: exact iff no reported type is taken, with a catch(...) iff the try block raises no type |
| RethrowLimits.CalledRethrowIsMissed | indexer/ExceptionAnalyzer.cc:129-148 | a program without call cycles, guarded but not tame, of which no level reports anything, though it raises all that its try block throws |
| IndexQueues.IndexQueue.GetStmts | indexer/IndexQueue.cc:21-57 | one pass of get_stmts: blocked, stopped or the front batch, the count, and who is notified at which length |
| IndexQueues.IndexQueue.AddStmts | indexer/IndexQueue.cc:59-84 | the batch is pushed and counted, one consumer is notified, and the producer blocks iff the queue is long and not stopped |
| IndexQueues.IndexQueue.WaitBelowThreshold | indexer/IndexQueue.cc:78-82 | one evaluation of the producer's wait condition |
| IndexQueues.IndexQueue.StoreStop | indexer/IndexQueue.h:72 | the first half of set_stop, outside the lock |
| IndexQueues.IndexQueue.NotifyStop | indexer/IndexQueue.h:73-77 | the second half wakes everybody |
| QueueProtocol.GetKeepsInv | indexer/IndexQueue.cc:21-57 | a pop keeps the invariant: no lost wakeup, first in first out, exact count, bounded length |
| QueueProtocol.AddKeepsInv | indexer/IndexQueue.cc:59-84 | a push keeps it |
| QueueProtocol.RecheckKeepsInv | indexer/IndexQueue.cc:78-82 | a woken producer looking again keeps it |
| QueueProtocol.SpuriousKeepsInv | indexer/IndexQueue.cc:28-82 | spurious wakeups keep it |
| QueueProtocol.StepKeepsInv | indexer/IndexQueue.cc:21-84 | every step of every thread keeps it, both halves of set_stop included |
| QueueProtocol.StepMovesWaiters | indexer/IndexQueue.cc:28-82 | exactly which threads enter and leave the two waits |
| QueueProtocol.NeverAllAsleep | indexer/IndexQueue.cc:47-55 | if a producer and a consumer sleep un-notified, another consumer has been woken |
| QueueProtocol.RunKeepsInv | indexer/IndexQueue.cc:21-84 | the invariant holds at every point of every run |
| QueueWakeups.PushBlocksIff | indexer/IndexQueue.cc:59-83 | a push sends its producer to sleep iff it leaves 20480 batches or more and the queue is not stopped, and wakes one sleeping consumer |
| QueueWakeups.RecheckGoesOnIff | indexer/IndexQueue.cc:78-82 | a woken producer goes on iff fewer than 20480 batches are left or the queue is stopped |
| QueueWakeups.PopTakesIff | indexer/IndexQueue.cc:22-35 | a pop takes the first batch if there is one, and otherwise sleeps unless the queue is stopped |
| QueueWakeups.ShortQueueWakesAll | indexer/IndexQueue.cc:47-48 | a pop that leaves fewer than 12288 batches wakes every producer |
| QueueWakeups.LongQueueWakesNone | indexer/IndexQueue.cc:47-55 | one that leaves 20480 or more wakes none |
| QueueWakeups.PopBetweenWakesIff | indexer/IndexQueue.cc:49-55 | in between, exactly one sleeping producer is woken iff the number of such pops so far is a multiple of 1024 |
| QueueWakeups.SleepersAreWoken | indexer/IndexQueue.cc:49-55 | among any 1024 pops in between, whatever else happens meanwhile and also where the counter wraps around, one wakes a producer if one is asleep at each |
| QueueWakeups.LengthsOverRuns | indexer/IndexQueue.cc:47-83 | over every run a producer sleeps only while 12288 batches or more are queued, and before the stop there are at most 20479 and one for each producer in the wait |
| IndexPipelines.PlacesKept | indexer/Main.cc:247-330 | the tasks in the waits are exactly those the two condition variables hold |
| IndexPipelines.PhaseOrderKept | indexer/Main.cc:277-288 | stopping begins only after every parse task is finished |
| IndexPipelines.StoresKept | indexer/ParseTask.cc:165-184 | no queued batch is empty, and a store task finishes only on stop and empty |
| IndexPipelines.ClaimsKept | indexer/ParseTask.cc:448-457 | translation units are claimed in order, once each |
| IndexPipelines.SendsKept | indexer/ParseTask.cc:290-328 | a unit is sent at most once and not while it is being indexed |
| IndexPipelines.TakersKept | indexer/ParseTask.cc:155-169 | batches are taken by store tasks that connected |
| IndexPipelines.BoundedKept | indexer/IndexQueue.cc:73-83 | each blocked parse task accounts for one batch above the threshold, before and after the stop |
| IndexPipelines.MoveKeepsInv | indexer/Main.cc:238-333 | every move of every task and of the main thread keeps all of these |
| PipelineResults.RunKeepsPipelineInv | indexer/Main.cc:238-333 | they hold at every point of every run |
| PipelineResults.ExactlyOnceDelivery | indexer/Main.cc:247-330 | when do_indexing returns, every batch was taken exactly once, in push order, by a task that connected, iff some store task connected or nothing was pushed |
| PipelineResults.EveryUnitIsClaimed | indexer/ParseTask.cc:448-457 | if a parse task connected, every unit was claimed by exactly one task |
| PipelineResults.QueueIsBounded | indexer/IndexQueue.cc:73-83 | the queue never holds more than 20479 batches plus one for each parse task; num_stmts_ is the sum of the batch lengths |
| PipelineResults.StuckMeansAborted | indexer/Main.cc:247-330 | if nobody can move, no store task connected |
| PipelineResults.NeverStuck | indexer/Main.cc:247-330 | if an initial store task connects, somebody can move, without spurious wakeups, until do_indexing returns |
| PipelineTasks.ExtraTasksConnect | indexer/Main.cc:295-304 | extra store tasks begin by connecting, and the others go on as they were |
| PipelineTasks.StoreTasksOverRuns | indexer/Main.cc:286-304 | over every run there are the initial store tasks, and after the stop also half as many as parse tasks iff 102400 statements or more were left then |
| PipelineTasks.MainGoesOnIff | indexer/Main.cc:295-315 | exactly when the main thread may start extra tasks, and when it may go on to join: with fewer than 1024 statements left |
| PipelineTasks.ClaimersGoOnOverRuns | indexer/ParseTask.cc:448-457 | over every run a task that has claimed a unit ends only when it finds no unit left |
| PipelineTermination.MoveIsProgress | indexer/Main.cc:247-330 | every move but a spurious wakeup makes progress in one well-founded order on phases, claims, tasks, queue and threads awake |
| PipelineTermination.RunsEnd | indexer/Main.cc:247-330 | a run that never ends has spurious wakeups without end |
| PipelineTermination.EndedRunsHaveDelivered | indexer/Main.cc:247-330 | a run that has ended, with an initial store task connected, has returned from do_indexing with everything pushed taken once and in order |
| PipelineStall.StuckIffStalled | indexer/Main.cc:277-322 | exactly which reachable states are stuck: no store task connected, and the main thread waits for a sleeping parse task or for statements nobody takes |
| PipelineStall.StallIsReachable | indexer/Main.cc:310-314 | a run that ends polling num_stmts_ for ever |
| FileIds.WorkerUsesKept | indexer/ParseTask.cc:362-420 | whatever id a task knows after a step of its own is bound to that path |
| FileIds.SharedUsesKept | indexer/ParseTask.cc:362-420 | so is every id in the table, in a statement on its way, or in a stored row |
| FileIds.StoredKeepsBound | indexer/ParseTask.cc:171-179 | a stored or failed statement changes no binding |
| FileIds.StepKeepsBound | indexer/ParseTask.cc:362-420 | every step keeps every id bound to one path |
| FileIdResults.IdsNeverChangeMeaning | indexer/ParseTask.cc:362-420 | over all interleavings, and whatever is misreported, an id that stands for a path anywhere stands for it everywhere from then on |
| FileIdResults.StepKeepsLock | indexer/ParseTask.cc:376-411 | where locks reported to be taken for a path are, a task between lock and unlock has the table lock, and the path it found missing stays missing until it inserts it |
| FileIdResults.StepKeepsOneId | indexer/ParseTask.cc:376-411 | then check and insert under one lock keep one id for the path among the ids not taken for translation units |
| FileIdResults.SecondIdIsOfAUnit | indexer/ParseTask.cc:630-653 | then, if the path comes to have two ids, one of them was taken for a translation unit |
| FileIdResults.NewIdsAreHandedOutOnce | indexer/ParseTask.cc:395-411 | if what is reported about a path is true, all tasks together are handed at most one new id for it, and the table has it; reports about other paths do not matter |
| FileIdResults.IndexingAgainAddsAnId | indexer/SQL.cc:40-50 | indexing a file as a translation unit gives it a further id, whatever ids it had |
| FileIdRows.LocationIsRecorded | indexer/ParseTask.cc:362-420 | an id that a task uses, of its unit, from its cache or just assigned, is in its rows |
| FileIdRows.SendCarriesRows | indexer/ParseTask.cc:290-328 | a unit is sent with a statement for each location and one for its file, and nothing is left of it |
| FileIdRows.GivenUpRowsAreGone | indexer/ParseTask.cc:330-334 | a unit that is given up leaves nothing behind |
| FileIdRows.LockIsGivenUp | indexer/ParseTask.cc:376-411 | unlocking and the end of a task give up the lock of that task and nobody else's |
| FileIdRows.UsedLocationIsStored | indexer/ParseTask.cc:290-328 | over all interleavings, a location that a task uses in a unit it sends is in the tables once its statement is stored |
| FileIdRows.StoredLocationWasUsed | indexer/ParseTask.cc:290-328 | and every location in the tables was used by some task |
| FileIdTasks.Shared.GetNextFilepathId | indexer/IndexCtx.h:129-130 | the counter hands out its value and advances |
| FileIdTasks.FileIdTask.ReadModifyUpdate | indexer/ParseTask.cc:370-412 | the part under the lock: lock failure, known path, new path, failed insertion, lock and insertion done or only reported, each as a run of the protocol with its end state |
| FileIdTasks.FileIdTask.QueryOrAssignFileId | indexer/ParseTask.cc:362-420 | the answer in every case, cached exactly if there is one; the call is a run of the protocol in which only this task moves |
| FileIdTasks.FileIsFound | indexer/ParseTask.cc:382-391 | the steps of a call for a known path, and their end state |
| FileIdTasks.FileIsNew | indexer/ParseTask.cc:393-411 | the steps of a call for a new path, and their end state |
| FileIdTasks.FalseReportHandsOutTwice | indexer/MYSQLConn.cc:178-208 | if a success is reported of an insertion that took no effect, two tasks are handed two ids for one path |
| FileIdTasks.FalseLockInsertsTwice | indexer/MYSQLConn.cc:295-309 | if a lock is reported that was not taken, two tasks insert two ids for one path, neither of them a unit's |
| Batching.NextRows | indexer/ParseTask.cc:211-288 | the rows of one statement are the next storable items up to the limit, nothing is skipped or repeated; a limit of zero never advances |
| Batching.ParseTask.AddFuncDef | indexer/ParseTask.cc:587-589 | a definition is appended |
| Batching.ParseTask.AddFuncCall | indexer/ParseTask.cc:591-593 | a call is appended |
| Batching.ParseTask.GenBatchUpdateFuncDefsStmt | indexer/ParseTask.cc:211-235 | one statement of definitions, none if no storable one is left, and where to go on |
| Batching.ParseTask.GenBatchUpdateFuncCallsStmt | indexer/ParseTask.cc:264-288 | one statement of calls, likewise |
| Batching.ParseTask.SendIndexedResult | indexer/ParseTask.cc:290-328 | what is sent is the grouping of the storable definitions, then of the calls, then the file path; the results are cleared; sent are exactly the definitions with a USR, a name and a file, and the calls with a caller and a file |
| Batching.ParseTask.ClearCurrentTranslationUnitResult | indexer/ParseTask.cc:330-334 | nothing is left of the unit |
| Batching.StorableMembers | indexer/ParseTask.cc:219-223 | an item is stored iff it is there and valid |
| Batching.StorableCount | indexer/ParseTask.cc:219-223 | and as often as it is there |
| Batching.AsSizeIsModulo | indexer/ParseTask.cc:217-217 | a signed batch size is compared as its value modulo 2^64 |
| Batching.SentRows | indexer/ParseTask.cc:219-276 | what is sent: exactly the definitions with a USR, a name and a file, and the calls with a caller and a file |
| Batching.FlattenedChunks | indexer/ParseTask.cc:295-312 | grouping loses, doubles and moves no row |
| Batching.ChunkSizes | indexer/ParseTask.cc:217-217 | every group has between one row and the limit, every one but the last is full |
| Batching.UnitCarriesEveryRow | indexer/ParseTask.cc:290-328 | a unit's statements carry its storable definitions and calls, each once and in order, whatever the batch size |
| Batching.UnitShape | indexer/ParseTask.cc:290-328 | definitions, then calls, then one file path statement at the end; each row statement within the batch size |
| StoreTasks.StoreBatch | indexer/ParseTask.cc:171-179 | the statements of a batch are issued up to the first that is reported failed |
| StoreTasks.DoStore | indexer/ParseTask.cc:155-184 | batch after batch until the end of the queue, a failure ending only its own batch |
| StoreTasks.IssuedIffAllBeforeSucceeded | indexer/ParseTask.cc:171-179 | a statement is issued iff every earlier one of its batch was reported a success |
| StoreTasks.EveryBatchIsTried | indexer/ParseTask.cc:165-179 | a failure ends its own batch and no other: of every batch up to the end of the queue statements are issued up to the first reported failure, or all |
| StoreTasks.EmptyBatchEnds | indexer/ParseTask.cc:167-169 | an empty batch ends the task; what comes after it is never issued |
| StoreTasks.FilepathIffAllRowsReported | indexer/ParseTask.cc:171-179 | a unit's file path is issued iff all its row statements were reported successes |
| StoreTasks.EveryFilepathIsComplete | indexer/ParseTask.cc:155-184 | over a whole run, each file path issued comes right after all row statements of its unit, all reported successes |
| PathSearch.Search.SearchCallpath | indexer/Main.cc:511-554 | terminates on cyclic tables; found: a chain of call rows to a hit, pushed deepest first; not found: the result is unchanged and everything reachable is searched |
| PathSearch.Search.SearchCaller | indexer/Main.cc:526-551 | the same for one caller of the loop |
| PathSearch.Search.SearchThrowpath | indexer/Main.cc:612-656 | the same for the search for a throwing function |
| PathSearch.Search.SearchThrower | indexer/Main.cc:626-653 | the same for one caller of that loop |
| PathSearch.ExploredReachesNoHit | indexer/Main.cc:526-531 | when the visited set is closed and has no hit, no hit can be reached |
| PathSearch.HitsOfTable | indexer/Main.cc:540-545 | a caller is a hit iff one of its rows names the target, or for a throw path iff its first row is flagged |
| PathSearch.EdgesOfTable | indexer/Main.cc:533-547 | one function leads to another iff it has a row with its USR and name |
| PathSearch.ReversedPushed | indexer/Main.cc:602-606 | reversing what was pushed gives the path from its start |
| PathSearch.PrintedThrowpath | indexer/Main.cc:643-653 | a throw path names every function on the chain |
| PathSearch.PrintedCallpath | indexer/Main.cc:540-551 | a call path names every function on the chain but the direct caller of the target, and then the target |
| PathSearch.QueryCallpath | indexer/Main.cc:557-609 | a path is printed iff the two names differ and a start function reaches one with a row that names the target; it is a real chain, from a start function to such a one; no caller is queried twice |
| PathSearch.QueryThrowpath | indexer/Main.cc:662-700 | a path is printed iff a start function reaches one whose first row is flagged; it is a real chain, from a start function to such a one; no caller is queried twice |
| SipHash.RoundIsBijection | indexer/siphash.cc:44-60 | SIPROUND has an explicit inverse on both sides |
| SipHash.RoundsInjective | indexer/siphash.cc:106-107 | any number of rounds is injective |
| SipHash.AbsorbInjective | indexer/siphash.cc:101-138 | for a fixed message the map from the initial state to the state after its last word is injective |
| SipHash.HashingIsInjective | indexer/siphash.cc:101-147 | for a fixed message the map from the initial state, through all words and the finalisation, to the state before the output xor is injective |
| SipHash.StateTellsKey | indexer/siphash.cc:93-147 | so for a fixed message the state before the output xor tells the key words |
| SipHash.SipRoundMacro | indexer/siphash.cc:44-60 | the macro, step by step, is one SipRound |
| SipHash.RunRounds | indexer/siphash.cc:106-107 | the loop over rounds |
| SipHash.CompressBlock | indexer/siphash.cc:103-109 | one word is mixed in as the definition says |
| SipHash.AbsorbBlocks | indexer/siphash.cc:101-110 | the block loop absorbs the full words of the padded message |
| SipHash.Tail | indexer/siphash.cc:112-130 | the fall-through switch puts every remaining byte in its place, for every remainder |
| SipHash.LastBlock | indexer/siphash.cc:90-91 | the last word of the padded message is the remaining bytes, null bytes and the length |
| SipHash.PaddedShape | indexer/siphash.cc:90-92 | the padded message: the message, null bytes to whole words, and the length mod 256 |
| SipHash.HashBlocks | indexer/siphash.cc:93-149 | initialisation, blocks, last word and finalisation are the defined hash |
| SipHash64.RotationsAreRotations | indexer/siphash.cc:26-26 | ROTL is rotation |
| SipHashVectors.ConstantsSpellText | indexer/siphash.cc:82-85 | the four constants spell the text "somepseudorandomlygeneratedbytes" |
| SipHashVectors.PaperExample | indexer/siphash.cc:78-153 | the example of the paper's appendix A: key 00..0f and message 00..0e give a129ca6149be45e5 |
| SipHash64.Words64AreLawful | indexer/siphash.cc:26-60 | 64-bit words meet the laws under which the round is a bijection |
| SipHash64.LoadIsFromLE | indexer/siphash.cc:38-42 | U8TO64_LE is the little-endian value |
| SipHash64.LoadUndoesStore | indexer/siphash.cc:28-42 | loading what was stored gives the word back |
| SipHash64.StoreUndoesLoad | indexer/siphash.cc:28-42 | storing what was loaded gives the bytes back |
| SipHash64.TailIsLastWord | indexer/siphash.cc:91-130 | the tail with the length in its top byte is the last word of the padded message |
| SipHash64.ShiftKeepsLowByte | indexer/siphash.cc:92-92 | the shifted length is the length mod 256 in the top byte |
| SipHash64.KeyWordsTellKey | indexer/siphash.cc:86-87 | the two key words tell the sixteen bytes of the key |
| SipHash64.SipHashBytes | indexer/siphash.cc:78-153 | for every message length the eight bytes written are the hash, little-endian |
| SipHash64.BytesReadBack | indexer/PView.cc:55-64 | the eight bytes read as a little-endian number are the hash |
| SipHash64.HashUsr | indexer/PView.cc:54-65 | hash_usr is SipHash-2-4 under its fixed key: the eight bytes, and the integer that a little-endian host reads from them |
| SimplifyAnonymous.SimplifyAnonymous | indexer/ParseTask.cc:974-983 | the loop terminates on every string and does in place what one pass does |
| SimplifyAnonymous.OutputIsUnmarked | indexer/ParseTask.cc:974-983 | the output never contains "(anonymous " |
| SimplifyAnonymous.FixedIffUnmarked | indexer/ParseTask.cc:974-983 | a name is left alone iff it does not contain it |
| SimplifyAnonymous.MarkIsText | indexer/ParseTask.cc:976-976 | a mark is the text "(anonymous " |
| SimplifyAnonymous.AnonymousText | indexer/ParseTask.cc:978-981 | what a mark and what follows it become, as texts: "(anon ns" if the word namespace and something more follow, else "(anon " |
| SimplifyAnonymous.RewritingTwiceIsRewritingOnce | indexer/ParseTask.cc:974-983 | the rewriting is idempotent |
| SimplifyAnonymous.ClosedNamespace | indexer/ParseTask.cc:978-979 | "(anonymous namespace)" becomes "(anon ns)", whatever follows |
| SimplifyAnonymous.OpenNamespace | indexer/ParseTask.cc:978-981 | "(anonymous namespace" at the very end of a name, without its parenthesis, becomes "(anon namespace" |

## Left out

- ThrowPrecision.NothingRaisedIsMissed: being guarded is sufficient for soundness but not necessary. Whether an unguarded program loses a type depends on which types the recursive call raises, that is on the very set the analyzer is to compute, so a converse over the call skeleton alone does not hold: AnalyzerLimits.RecursionIsExactIff is exact for the functions that call themselves in a try block, and where the rest of such a function throws nothing, nothing is lost whatever the handler throws. A bare `throw;` in a function called from a handler is not tame; what is then missed, RethrowLimits.CalledRethrowIsExactIff says for handlers that do nothing else.
- ThrowPrecision.UnknownFlagIsExact: foreign exceptions from operands and arguments are not counted, since the analyzer never flags them; programs in which a catch(...) rethrows are excluded, as RethrowLimits.RethrowForgetsUnknown shows they must be.
- ThrowPrecision.AnalysisIsExact: control flow inside a statement is not tracked, and operators that throw by themselves are not throws.
- LiveHandlers.GetsOutIff: a try block that itself has a catch(...) which swallows foreign exceptions beside typed handlers is excluded: whether one of those runs depends on what called functions raise. LiveHandlers.AwakeIsLive covers it, one way.
- AnalyzerReports.CachedReportIsCurrent: for one program and function, enough levels on both sides are sufficient but not necessary; what is necessary over all programs is LevelLimits.CachedIsCurrentIff.
- AnalyzerReports.NoIsRight: says something only where the bound for the chains of calls is at most the hardcoded level of 20; LevelLimits.LevelBindsIff has programs past it that are misjudged.
- SipHash64.SipHashBytes: the length enters as its value mod 256, which is all that the 64-bit shift keeps; the conversion of the length to a 64-bit word is not modelled.
- The 16-byte output of siphash, which the indexer does not use.
- `noexcept` and the exception specifications of functions that have a body: the analyzer ignores them.
- The clang front end: types, functions and inheritance are given by the program; isBaseOf is a given relation.
- FileIdTasks.FileIdTask.QueryOrAssignFileId: a call without interference; interference is the subject of FileIds, where each of its steps is taken on its own.
- FileIds: the order in which queued statements are stored is not restricted, so its results hold for the queue's order too; the modification time in a row and the 32-bit read of an id are not modelled.
- IndexPipelines: a batch is claimed and stored by one move, and its statements are opaque; Batching and StoreTasks look inside. Each task has a worker thread of its own: the thread pool is not modelled.
- PipelineTermination.RunsEnd: counts steps, not time; polling while the queue drains and work on one translation unit or statement are not steps of their own.
- PathSearch.Search.SearchCaller, PathSearch.Search.SearchThrower: the bodies of the two search loops, as methods of their own.
- PathSearch: the table does not change during a query; USRs and names are compared for equality only.
- Batching.ParseTask.SendIndexedResult: rows are carried as records; SQL text and formatting are left out, and an absent statement stands for the empty string.
- StoreTasks: what a connection reports is arbitrary and no proof that a statement took effect; retries inside the connector are left out.
- Incremental re-indexing (`IncludeAnalyzer`), MySQL server management, flags, logging, timers, string utilities and file access: they would add easy members or foreign library behaviour only.
