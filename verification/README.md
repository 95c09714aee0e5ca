# Orchids, modelled and proved

Orchids matches event streams against automata, its rules. A rule is compiled to
bytecode, a small stack machine runs that bytecode, and an engine runs many rule
instances in parallel over a queue of virtual threads. This project models those
three parts, and three smaller ones, in Dafny and proves what they are for.

## What is modelled

**The rule compiler and the virtual machine.** `RuleSource` is the abstract syntax of
guards and actions with a direct semantics that knows no stack, no label and no jump.
`RuleCompiler.BytecodeBuffer` is the compiler as the program has it: one pass that
appends words and leaves label numbers where offsets are unknown, and a patching pass.
`CodeShape` gives the words it must produce. `Ovm` is the machine: `Step` and `Run` on
values, and `Ovm.Vm`, a class that updates its stack, instruction pointer and
environment in place. A built-in is a strategy: after what it has popped it pops one more,
pushes any number of slots, or crashes. `StackMeaning` threads the stack through the source
semantics: it says what compiled code does from any stack and whatever the built-ins pop
and push, and where it agrees with `RuleSource`. `StackDiscipline` says how high it leaves
the stack, and `SharedStack` what one run leaves to the next. `CompilerCorrectness`,
`ActionCorrectness` and `JumpSafety` relate source and machine.

**The analysis engine.** `Engine` is the engine as functions on one record. The heap is
modelled field by field: a pointer is an identifier, a field of a C structure is a map
from identifiers to values, freeing a record removes its identifier from every map, and a
pointer dangles when its record is gone. The bytecode enters as two functions of an event
that may look at everything, rewrite the environment they run in and kill any threads.
`EngineInvariants` states what holds between any two updates. `EngineUpdates`,
`EngineFreeing`, `EngineSimulation` and `EngineRuns` prove it for every primitive update,
for freeing, for the recursive simulation and for whole runs; `EngineTheorems` says in
plain words what follows. `EngineQueues` gives the order of the queues. `EngineSeeding`
gives the condition under which no instance is freed under its own threads, and
`EngineScripts` proves that it is exact. `EngineMachine.Orchids` is the engine as one
object whose loops update it in place, proved to compute those functions. `EngineOvm` runs
compiled guards and actions in the engine, with built-ins and a shared stack that may differ
at every event and in every state of the engine, and discharges the hypotheses of the
environment and lock theorems from the source syntax of the guards.

**The wait queues as linked lists.** `WaitQueues` has thread objects with `next` pointers,
heads and tails, and the loop that walks one list while it moves its threads to others.
`QueueOrder` is the queue that must result, as a function of what happens to each thread;
both the linked lists and the engine are proved to produce it. `QueuePairs` proves that two
walks to which the same happens leave queues that correspond place by place; with it,
`EngineLists` shows that the walk over linked objects computes the event loop of the engine,
and `EngineListRuns` that seeding, merging and walking linked lists computes whole runs.
`ActiveEvents` is the doubly linked list of active events.

**Small cores.** `EngineCut` is the recursive cut over the tree of state instances, and
`EngineKill` the built-in that kills the threads of a rule instance;
`Clocks` the order probabilities of uncertain clock readings, over real numbers;
`KeywordTrie` the keyword tree of the audit log parser; `Unescape` its in-place decoder
of quoted strings; `Distance` the bit and byte distances.

## What the proofs found

- Arithmetic on a missing field dereferences a C NULL (src/ovm.c:612); the model ends the
  process there. A comparison with a null operand yields null, which tests false.
- A built-in need not take its parameters and push one result. It may push nothing
  (src/lang.c:2777-2782), push twice (src/modules/mod_prelude.c:308-320), or answer before it
  has popped all parameters (src/modules/mod_sharedvars.c:109-113,
  src/modules/mod_consoles.c:51-56); and the compiler compares the number of parameters with
  nothing (src/rule_compiler.c:662-683). Operators and assignments then take whatever lies on
  the stack. `StackMeaning.EvalOn` is exact about it, and `StackDiscipline.CallHeight` gives
  the height of every call: what lay there, less what was popped, and what was pushed. No
  expression ends more than one slot above its start, and no action list any slot, if the
  built-ins fit their calls: one pushes at most one slot, after it has popped all its
  parameters, and one that pushes nothing leaves at most one of them. For a call that
  condition is exact (`StackDiscipline.CallFitsExactly`).
- `ovm_flush` (src/ovm.c:51-58) stops at a NULL slot, so it empties the stack exactly when no
  NULL slot lies above another slot (`SharedStack.FlushEmpties`). With built-ins that fit,
  the stack that all guards and actions share is empty whenever `ovm_exec` is entered
  (`SharedStack.StackStaysEmpty`). It is not in general: the actions
  `set_shared_var(1, $x); set_shared_var(1, .f); set_shared_var(1, .f);` on an event without
  `.f` leave the value of `$x` to whatever rule runs next (`SharedStack.LeakyLeaves`), whose
  split binds it when it does not match (`SharedStack.LeakReaches`).
- A split that does not match binds its destinations to the slots below the text; on an
  empty stack there are none, and it unbinds every destination.
- `mark_dead_rule` starts from a queue head that outlives its walk. Once the first
  survivor of a walk has been committed, that head lies in the new queue, whose threads
  are otherwise only logged as forgotten. The model follows the pointer.
- A rule whose initial simulation fails after it has queued a thread makes the engine free
  the instance under that thread (src/engine.c:279-283). `EngineSeeding.HastyDangles` is a
  rule that does so on the first event. For rules without synchronisation
  `EngineScripts.NeverDanglesExactly` says when it cannot happen: exactly if no path through
  the epsilon transitions of the initial state queues a thread and then enters a terminal
  state, where a tested transition may be passed or skipped and an unconditional one is
  passed. A compiler can compute this state by state (`EngineSeeding.Can`).
- `kill_threads` follows the same head. It kills all threads of its rule instance that are
  still to be met while the head is the thread under evaluation, and none of them once the
  first survivor has been moved on (`EngineKill.KillThreadsReach`).
- The recursive cut follows the sibling link of its start, so it also kills the threads
  below the older siblings of its start; `EngineCut.CutStaysBelow` says exactly when it
  does not.
- The string decoder ends at an escaped quote, and steps over the terminating NUL exactly
  when the text is cut short behind a backslash (`Unescape.StopsInside`).

## Model

| member | source | states |
|---|---|---|
| CompilerCorrectness.ExprCorrect | src/rule_compiler.c:1578-1709 | every well-formed expression, wherever its code stands and whatever stack it finds, does what the stack semantics says; where the source gives a value it leaves exactly that, with the environment and calls of the short-circuit source semantics, and where the source dereferences NULL it crashes; if the built-ins fit their calls it ends at most one slot higher |
| ActionCorrectness.ExprRuns | src/ovm.c:60-88 | the same for the fetch loop of the virtual machine itself, from any stack |
| StackMeaning.ExprAgrees | src/ovm.c:466-1198 | wherever the source gives a value, which is wherever every built-in called pops its parameters and pushes one slot, the stack semantics pushes that value on any stack and changes nothing below; wherever the source dereferences NULL it crashes |
| StackDiscipline.ExprDiscipline | src/lang.c:2741-2801 | if the built-ins fit their calls, an expression ends at most one slot above where it started; whatever they do, it keeps the variables that it does not assign |
| StackMeaning.StmtsAgree | src/rule_compiler.c:1478-1557 | on the empty stack, and on any stack if no split fails to match, an action list does what the source says and leaves the stack as it is |
| StackDiscipline.StmtsDiscipline | src/rule_compiler.c:1478-1557 | if the built-ins fit their calls, no action list raises the stack |
| StackDiscipline.CallHeight | src/ovm.c:579-588 | a call with parameters as the grammar has them crashes exactly if the built-in does, and otherwise ends at the height where it started, plus the parameters, less the slots that the built-in popped (an empty stack stays empty), plus those that it pushed |
| StackDiscipline.CallFitsExactly | src/rule_compiler.c:662-683 | of the built-ins that push at most one slot, exactly those that fit n parameters end every call with n fields at most one slot up, on every event and from every stack |
| CompilerCorrectness.ConditionCorrect | src/rule_compiler.c:1718-1771 | the value in front of a conditional jump tests like the source value of the condition |
| CompilerCorrectness.ShortCircuitCorrect | src/rule_compiler.c:1609-1642 | conjunction and disjunction evaluate their second operand only when the first does not decide |
| CompilerCorrectness.CallCorrect | src/rule_compiler.c:1692-1700 | parameters are evaluated from the last to the first, so that the built-in pops them in source order, and as many slots as it likes |
| CompilerCorrectness.AssocCorrect | src/rule_compiler.c:1584-1590 | an assignment binds the variable and is worth what the variable then reads |
| ActionCorrectness.StmtsCorrect | src/rule_compiler.c:1408-1419 | every action list, from any stack, does what the stack semantics says, and does not raise the stack if the built-ins fit their calls; from the empty stack, or if no split fails to match, it leaves the stack as it was and transforms environment and calls as the source does |
| ActionCorrectness.IfCorrect | src/rule_compiler.c:1532-1552 | from any stack, exactly the arm that the condition selects is run |
| ActionCorrectness.RegSplitCorrect | src/rule_compiler.c:1507-1531 | from any stack, a split statement acts as the source split on a match and on a crash, and on no match takes the slots below |
| ActionCorrectness.PopsGroups | src/ovm.c:1200-1255 | sub-matches pushed from the last to the first are popped each into its own destination |
| ActionCorrectness.PopsCorrect | src/ovm.c:502-529 | the pops of a split take one slot for each destination, from any stack |
| ActionCorrectness.UnmatchedTakesBelow | src/ovm.c:1200-1255 | a split that does not match gives destination i the slot i below the text, or unbinds it when there is none or a NULL one, removes those slots and changes nothing else |
| StackMeaning.PopsNothing | src/ovm.c:502-529 | on the empty stack, a split that does not match unbinds every destination |
| ActionCorrectness.SplitBindsInOrder | src/ovm.c:1200-1255 | a matching split binds sub-match i to destination i and nothing else |
| ActionCorrectness.GuardMeaning | src/ovm.c:60-88 | running a compiled guard, from any stack, crashes or ends on its end word, with the source value as the only new slot where the source gives one; if the built-ins fit their calls it ends at most one slot higher, and from an empty stack the flush leaves an empty one |
| ActionCorrectness.GuardKeeps | src/ovm.c:60-88 | running a compiled guard, from any stack and whatever the built-ins do, keeps the variables that it does not assign |
| ActionCorrectness.ActionsMeaning | src/ovm.c:60-88 | running a compiled action list, from any stack, crashes or ends on its end word, no higher if the built-ins fit their calls; from the empty stack, or if no split fails to match, it ends with the environment and calls of the source and the stack as it was |
| ActionCorrectness.ProgramRuns | src/ovm.c:60-88 | every compiled guard and action list, from any stack and whatever the built-ins do, ends on its end word with what the stack semantics says, or crashes |
| SharedStack.StackStaysEmpty | src/ovm.c:60-88 | over any sequence of runs of compiled guards and actions whose built-ins fit their calls, the shared stack is empty whenever a run starts |
| SharedStack.FlushEmpties | src/ovm.c:51-58 | the flush empties a stack if and only if no NULL slot lies above another slot |
| SharedStack.ExecEmpties | src/ovm.c:60-88 | whatever the built-ins do, a run that comes back leaves the shared stack empty if and only if, below the verdict, no NULL slot of the source's stack lies above another slot |
| SharedStack.SetSharedMisfits | src/modules/mod_sharedvars.c:99-135 | set_shared_var pushes one slot, but does not fit a call with two parameters |
| SharedStack.LeakyLeaves | src/modules/mod_sharedvars.c:109-113 | three calls of set_shared_var with a number for a name, with a variable and twice with a missing field, leave the value of the variable on the shared stack |
| SharedStack.LeakReaches | src/ovm.c:502-529 | the next split that does not match binds that value, where its source unbinds the destination |
| JumpSafety.CodeBlock | src/rule_compiler.c:1578-1709 | compiled expressions are whole instructions whose jumps land on instruction boundaries inside, never backwards, and their field reads are those of the source in order |
| JumpSafety.StmtsBlock | src/rule_compiler.c:1478-1557 | the same for action lists |
| JumpSafety.RunEnds | src/ovm.c:72-80 | the fetch loop ends on every well-jumped program, at its end word, unless a NULL dereference ends the process |
| JumpSafety.GuardEnds | src/ovm.c:60-88 | so every compiled guard ends, from any stack and whatever its built-ins do |
| JumpSafety.ActionsEnd | src/ovm.c:60-88 | so does every compiled action list |
| JumpSafety.GuardReadsItsFields | src/rule_compiler.c:1463-1466 | two events that agree on the fields a guard mentions give the same run of its code from any stack |
| JumpSafety.EpsilonIgnoresTheEvent | src/engine.c:190-195 | a guard without required fields runs the same on every event |
| RuleCompiler.BytecodeBuffer.CompileExpr | src/rule_compiler.c:1578-1709 | the emitted words resolve to the code of the expression under any later labels, and the field table grows by its field reads |
| RuleCompiler.BytecodeBuffer.CompileCond | src/rule_compiler.c:1718-1771 | the emitted words resolve to the head of the condition followed by jumps to the two given labels |
| RuleCompiler.BytecodeBuffer.CompileShortCircuit | src/rule_compiler.c:1609-1642 | the same for the label dance of the short-circuit operators |
| RuleCompiler.BytecodeBuffer.CompileStmt | src/rule_compiler.c:1478-1557 | the same for statements |
| RuleCompiler.BytecodeBuffer.CompileActions | src/rule_compiler.c:1408-1419 | the same for action lists |
| RuleCompiler.BytecodeBuffer.SetLabels | src/rule_compiler.c:1333-1344 | the patching loop turns every word that resolves to a code into that code and leaves the rest |
| RuleCompiler.BytecodeBuffer.CompileTrans | src/rule_compiler.c:1430-1469 | the compiled guard is the code of the expression and an end word; the required fields are the fields it mentions |
| RuleCompiler.BytecodeBuffer.CompileActionList | src/rule_compiler.c:1354-1399 | the compiled action list is the code of the statements and an end word |
| Ovm.Vm.Insn | src/ovm.c:466-1255 | one instruction on the machine in place is one step of the specification |
| Ovm.Vm.CallFunction | src/ovm.c:579-588 | a built-in that pops until it answers takes from the stack, logs and pushes what its strategy says |
| Ovm.Vm.RegSplit | src/ovm.c:1200-1255 | the sub-matches go onto the stack from the last to the first, and nothing when there is no match |
| Ovm.Vm.Flush | src/ovm.c:51-58 | the flush stops at the first NULL slot |
| Ovm.Vm.Exec | src/ovm.c:60-88 | from any stack, the fetch loop computes the run of the specification, its verdict is 0 exactly for a non-zero integer, and it flushes the stack |
| EngineSimulation.SimulateKeeps | src/engine.c:126-254 | simulating a new state instance keeps every invariant, changes no other instance or queue, and creates the number of threads that its result announces |
| EngineTheorems.SimulationCounts | src/engine.c:126-254 | the growth of the new queue, of the thread count and of the count of the rule instance all equal the result r, or -r-1 when it is negative |
| EngineRuns.SeedRuleKeeps | src/engine.c:257-292 | seeding a rule keeps the invariants if the simulation returns at least -1, and leaves a queued thread dangling otherwise |
| EngineRuns.EvaluateKeeps | src/engine.c:470-520 | evaluating a thread keeps the invariants and moves no thread: what it creates joins the new queue |
| EngineRuns.VisitKeeps | src/engine.c:430-609 | one turn of the loop keeps the invariants and takes exactly one thread off the current queue |
| EngineRuns.InjectKeeps | src/engine.c:355-657 | injecting an event keeps every invariant and leaves no current thread and no current event |
| EngineRuns.InjectsKeep | src/engine.c:355-657 | so does every run |
| EngineTheorems.NoDangling | src/engine.c:80-103 | in every reachable state no thread is queued twice, every queued thread's state and rule instance are alive and linked, an instance is alive exactly while it is linked, its count is the positive number of queued threads that point into it, and the engine's count is the queue length |
| EngineTheorems.FreedWithLastThread | src/engine.c:441-461 | reaping a thread frees its rule instance if and only if it was the last thread into it, and no other instance |
| EngineTheorems.ThreadListsAgree | src/engine.c:233-237 | the thread list of a live state instance holds exactly its queued non-initial threads, each once |
| EngineTheorems.EventsExact | src/engine.c:776-843 | the active list holds exactly the events that live state instances refer to, each once, and every reference count is the positive number of them |
| EngineFreeing.ReleaseAllKeeps | src/engine.c:793-838 | releasing the events of freed state instances keeps the counts exact and never frees the current event |
| EngineTheorems.LocksExclude | src/engine.c:154-187 | two waiting non-initial threads whose state instances have equal keys belong to the same rule instance, which holds the lock |
| EngineTheorems.LocksUnique | src/engine.c:154-187 | no two locks have equal keys, and each is listed by the live instance that owns it |
| EngineFreeing.DropOwnLocks | src/engine.c:744-757 | freeing an instance removes its own locks from the table and no others |
| EngineTheorems.EnvironmentsCached | src/engine.c:661-702 | if guards do not assign, looking a variable up in the current and then the inherited environment finds the nearest binding on the way up to the initial state |
| EngineQueues.EventRegroups | src/engine.c:430-609 | one event meets the threads of the current queue once each and in order; the queue it leaves is, segment by segment, newcomers in creation order and then survivors in order; exactly the last of each part bumps; no thread is lost or duplicated |
| EngineScripts.NeverDanglesExactly | src/engine.c:279-283 | for rules without synchronisation: no run from the start of the engine ever dangles, whatever the bytecode does, if and only if no rule can fail after it has queued a thread |
| EngineSeeding.SimulateCan | src/engine.c:126-254 | a simulation never has a result that the transitions of its state do not allow |
| EngineScripts.Achieve | src/engine.c:190-234 | every result that the transitions of a state allow is reached under some script of test outcomes |
| EngineScripts.SimulatePlays | src/engine.c:126-254 | under tests that follow a script, the engine's simulation has the result of the script |
| EngineSeeding.SafeRunsSucceed | src/engine.c:216-217 | if no rule, synchronised or not, can fail after it has queued a thread, then no run from a resting state dangles |
| EngineSeeding.SafeRunsReach | src/engine.c:355-657 | so every run of such rules reaches a state of which the invariants hold |
| EngineSeeding.HastyDangles | src/engine.c:279-283 | a rule that dangles on the first event |
| EngineOvm.GuardDecides | src/engine.c:470-471 | what a compiled guard decides in the engine, whatever the shared stack holds, is what its source says in the environment of the state instance |
| EngineOvm.ActionPerforms | src/engine.c:142-144 | the action of a state that is entered, run on an empty stack or with splits that match, does to the environment of its instance what its source statements say |
| EngineOvm.CompiledGuardsObey | src/rule_compiler.c:1430-1469 | guards compiled from expressions without assignment leave the environment alone, whatever the built-ins do and the shared stack holds |
| EngineOvm.CompiledGuardsKeepKeys | src/rule_compiler.c:1430-1469 | compiled guards that assign no synchronisation variable of their rule keep the lock key |
| EngineOvm.EpsilonVerdictFixed | src/engine.c:190-195 | a compiled guard without required fields gives the same verdict and effects whatever fields the event has |
| EngineOvm.CompiledRunsCache | src/engine.c:661-702 | for rules whose guards contain no assignment, compiled and run on any events, with built-ins and a shared stack that may differ at every event and in every state of the engine, lookups find the nearest binding |
| EngineOvm.AssignmentFreePreserves | src/rule_compiler.c:1430-1469 | rules whose guards contain no assignment are among those whose guards assign no synchronisation variable |
| EngineOvm.CompiledLocksExclude | src/engine.c:154-187 | for compiled rules whose guards assign no synchronisation variable, run in the same way, waiting threads with equal keys share one rule instance, which holds the lock |
| EngineOvm.CompiledLocksUnique | src/engine.c:154-187 | for the same rules, no two locks have equal keys, and each is listed by its live owner |
| EngineMachine.Orchids.MarkDeadRule | src/engine.c:42-76 | loops over three sequences, the rest of the queue behind the kept head, the retrigger queue, and the rest behind the thread under evaluation, kill exactly the threads of the instance; that next pointers lead through these sequences is WaitQueues.Queues.MarkDead |
| WaitQueues.Queues.MarkDead | src/engine.c:42-67 | the three loops along next pointers flag exactly the threads of the instance in what the two given threads and the retrigger head lead to, and change no link |
| EngineMachine.Orchids.SyncVarEnvIsDefined | src/engine.c:106-123 | true exactly when the state instance has a lock key |
| EngineMachine.Orchids.TestLock | src/engine.c:154-187 | the lock test in place: pruned, in lock owner, lock created, or initial and not created |
| EngineMachine.Orchids.SimulateState | src/engine.c:126-254 | the recursive loop in place computes the simulation and its result |
| EngineMachine.Orchids.UnlinkThread | src/engine.c:310-334 | the search loop removes the thread from the list of its state instance and nothing else |
| EngineMachine.Orchids.FreeRuleInstance | src/engine.c:731-851 | the loops over locks and state instances free the instance as specified, and never touch a freed state instance |
| EngineMachine.Orchids.ReapDeadRule | src/engine.c:80-103 | the search loop unlinks and frees a linked instance, and does nothing for another one |
| EngineMachine.Orchids.CreateRuleInitialThreads | src/engine.c:257-308 | the loop over rules seeds them in order and then makes the current queue out of the new and the retrigger queue |
| EngineMachine.Orchids.EvaluateThread | src/engine.c:470-520 | the guard is run and, if it passes, its destination is entered, refers to the event and is simulated |
| EngineMachine.Orchids.ReapThread | src/engine.c:441-461 | the thread under evaluation goes away, and its instance with its last thread |
| EngineMachine.Orchids.VisitThread | src/engine.c:430-609 | the body of the loop in place is one turn of the specification |
| EngineMachine.Orchids.InjectEvent | src/engine.c:355-657 | injecting an event in place computes the specification and brings the engine back to rest |
| QueueOrder.NextItem | src/engine.c:572-609 | handling threads one at a time, with commits, computes the regrouping by segments |
| QueueOrder.NextEnds | src/engine.c:535-551 | the two bumps of a commit mark exactly the ends of the parts |
| QueueOrder.NothingLost | src/engine.c:430-609 | the regrouped queue holds newcomers and survivors, each once |
| WaitQueues.Queues.Append | src/engine.c:242-249 | a created thread becomes the tail of the linked new queue |
| WaitQueues.Queues.Merge | src/engine.c:294-307 | the current list is the new list with the retrigger list linked behind it |
| WaitQueues.Queues.Retrigger | src/engine.c:572-580 | the thread under evaluation becomes the tail of the retrigger list |
| WaitQueues.Queues.Drop | src/engine.c:453-459 | a reaped thread leaves the current list, whose other links stay |
| WaitQueues.Queues.Commit | src/engine.c:532-551 | the retrigger list is linked behind the new list, and exactly the two former tails get a bump |
| WaitQueues.Queues.Visit | src/engine.c:430-609 | one turn of the loop on linked lists is one step of the regrouping |
| WaitQueues.Queues.Walk | src/engine.c:430-609 | whatever is given to happen to each thread, the loop over the linked list meets every thread of it once, in order, and never a thread created meanwhile; it leaves the regrouped queue and its bumps |
| QueuePairs.WalksAgree | src/engine.c:430-609 | two walks to which the same happens leave queues and bumps that correspond place by place, whatever their threads are |
| EngineLists.WalkFollows | src/engine.c:430-609 | with what the engine does to each thread, the regrouped linked lists hold, place by place, the objects of the threads that the engine's event loop leaves in its queues |
| EngineLists.WalkEvent | src/engine.c:430-609 | the loop over the linked current list leaves linked lists that stand for the queues and bumps of the engine's event loop; a thread that waits on keeps its object, and a new thread gets a new one |
| EngineListRuns.SeedLists | src/engine.c:266-292 | the loop over the rules appends the initial threads to the linked new list and marks off the threads of each rule, as the engine's seeding does |
| EngineListRuns.InjectList | src/engine.c:355-657 | an event on linked lists that stand for the engine's queues leaves linked lists that stand for its queues after the event |
| EngineListRuns.RunLists | src/engine.c:355-657 | so does every run, from empty lists on |
| WaitQueues.Queues.Follow | src/engine.c:47-67 | following next pointers from a queued thread reaches the rest of the queue it is in |
| ActiveEvents.ActiveList.Append | src/engine.c:640-648 | the event becomes the tail of the doubly linked list |
| ActiveEvents.ActiveList.Unlink | src/engine.c:808-835 | an event alone, first, last or in between leaves the list as it leaves the engine's sequence of active events; the other links, the ends and the length stay right |
| EngineCut.ReachIs | src/lang.c:2383-2404 | the recursive cut reaches a state instance if and only if it descends from the start of the cut or from an older sibling of the start |
| EngineCut.CutStaysBelow | src/lang.c:2399-2404 | it stays in the subtree of its start if and only if the start has no older sibling |
| EngineCut.DoomedWait | src/lang.c:2390-2396 | it kills exactly the non-initial threads that wait in what it reaches |
| EngineCut.CutEffect | src/lang.c:2407-2435 | as an effect of bytecode on the engine, a cut keeps every invariant and kills exactly the non-initial threads below its destination and below the older siblings of its destination |
| EngineKill.KillThreadsEffect | src/lang.c:2369-2381 | as an effect of bytecode on the engine, kill_threads keeps every invariant and kills exactly the threads of its rule instance that next pointers lead to from the head of the current queue, initial threads included |
| EngineKill.HeadStays | src/engine.c:453-459 | at every turn of the loop, the head of the current queue is the thread that is met next, or one that was met and waits in another queue |
| EngineKill.KillThreadsReach | src/lang.c:2369-2381 | at every point of an event: while the head is the thread under evaluation, kill_threads kills exactly the threads of its rule instance that are still to be met, and otherwise none of those |
| EngineCut.Cutter.DoRecursiveCut | src/lang.c:2383-2404 | the recursion in place ends, prunes what it reaches and kills its threads and no others |
| EngineCut.Cutter.FindDestination | src/lang.c:2425-2429 | the loop finds the nearest ancestor with the name, or the initial state instance |
| Clocks.ExactArea | src/modules/mod_clocks.c:72-145 | the six cases are exhaustive, and each is the share of the rectangle of readings on which the first comes before the second |
| Clocks.ExactIsProbability | src/modules/mod_clocks.c:72-145 | the result lies between 0 and 1, and the two orders of any two intervals add up to 1 |
| Clocks.ExactDecides | src/modules/mod_clocks.c:72-145 | it is at least one half exactly when the midpoint of the second interval does not precede that of the first |
| Clocks.FastDecides | src/modules/mod_clocks.c:157-180 | the fast form is a probability, complementary, and takes the same decision as the exact form |
| KeywordTrie.ActionTree.Insert | src/modules/mod_auditd.c:128-153 | inserting a keyword that is no prefix of another, nor the reverse, adds it to the recognised table and changes nothing else |
| KeywordTrie.BuildTree | src/modules/mod_auditd.c:438-453 | the tree built from a table of keywords recognises that table |
| KeywordTrie.ActionTree.Recognize | src/modules/mod_auditd.c:480-500 | the walk from the root finds what a search through the table finds, byte by byte |
| KeywordTrie.TreeSearches | src/modules/mod_auditd.c:472-500 | walking a word reaches an end node with an action if and only if a linear search finds that action for the word |
| KeywordTrie.ActionTree.ParseEvent | src/modules/mod_auditd.c:463-502 | parsing an unchanging text with the tree, where an action moves the position, yields the actions that a search through the table yields |
| Unescape.UnescapeInPlace | src/modules/mod_auditd.c:376-435 | the buffer then starts with the out-of-place decoding of the original text, the write position stays below the read position, and nothing in front of the string or behind the position returned changes |
| Unescape.StopsInside | src/modules/mod_auditd.c:383-390 | the decoder stops on or before the terminator if and only if the text is not cut short behind a backslash |
| Unescape.RoundTrip | src/modules/mod_auditd.c:381-429 | every string of bytes can be written so that the decoder restores it |
| Distance.TableCounts | src/lang.c:2744-2761 | all 256 entries of the table are the number of 1-bits |
| Distance.BinDist | src/lang.c:2739-2801 | the table loop computes the number of differing bits, and nothing for operands of different type or size |
| Distance.ByteDist | src/lang.c:2803-2844 | the loop computes the number of differing bytes |
| Distance.BitDistanceMetric | src/lang.c:2739-2801 | the bit distance is a metric |
| Distance.DistancesCompare | src/lang.c:2739-2844 | the byte distance is at most the bit distance, which is at most eight times the byte distance |

## Left out

- EngineSeeding.SafeRunsSucceed: one direction only for synchronised rules, whose states it takes to be prunable anywhere; whether the lock test really prunes one depends on the values that actions bind and on locks of earlier events.
- EngineTheorems.EnvironmentsCached: asks that guards do not rebind variables; with assignments in guards the inherited environments of existing children are not refreshed.
- EngineTheorems.LocksExclude: asks that guards do not rebind synchronisation variables, and that the value comparison is an equivalence.
- EngineMachine.Orchids.InjectEvent: stops where the engine would go on with a dangling thread; what the program then does is undefined.
- EngineMachine.Orchids.VisitThread: the records of the engine are maps from identifiers, one for each field; linked thread objects are modelled in WaitQueues.
- KeywordTrie.ActionTree.ParseEvent: the actions rewrite the buffer and may step past its end; here they only move the position in a fixed text (what the decoder does to the buffer is Unescape).
- EngineMachine.Orchids.MarkDeadRule: takes the sequences that next pointers lead through from the queues; the loops along pointers are WaitQueues.Queues.MarkDead.
- WaitQueues.Queues.Walk: takes what happens to each thread as given; EngineLists.WalkEvent gives it what the engine does.
- EngineListRuns.RunLists: the linked objects carry the queues and the bumps; the kill flags and the evaluation of a thread are the engine's.
- EngineOvm.Machine: two runs of the same code in the same state of the engine within one event find the same shared stack and the same answers of the built-ins.
- KeywordTrie.ActionTree.Insert: keywords of which one is the beginning of another, on which the program misreads an end node as a link array.
- Unescape.UnescapeInPlace: the branch for text without an opening quote, which is another parser.
- Clocks.ExactArea: rounding, and the macro that turns a reading into an interval.
- Statistics, feedback streams, hooks and debug output around an event.
- Memory ownership of values, fixed capacities of buffers and label tables, and the limit of nine split destinations.
- Bare operators and comparisons used as statements, whose operands are compiled as statements.
- Opcodes that the machine does not implement and on which it does not advance.
- Rules with a cycle of epsilon transitions, on which the simulation does not end.
- The counters of rule instances for display, which are raised for every passing initial thread and lowered once.
- The claim that a terminal state kills all threads of its instance, which is false of the new queue.
- Soundness of the shortcut that kills a thread whose destination makes later threads redundant.
- Laws of the value comparison on strings, which compares the length of one operand only.
- The internals of the hash table of locks, whose hash function is taken to agree with the comparison.
- The event dispatcher, the event sources, and everything that reads or writes files and sockets.
