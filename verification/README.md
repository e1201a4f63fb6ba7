# Verified models of the repository's core algorithms

Dafny models of the parts of this C++ collection whose behaviour is hard to get right by
reading, with machine-checked proofs of what they promise. `dafny verify dfyconfig.toml`
checks everything.

| part | files | what is proved |
|---|---|---|
| SML state machine (`State_machines/sml_fsm/sml.hpp`) | `SmlTable`, `SmlEngine`, `SmlLaws`, `SmlSteps`, `SmlCompletion`, `SmlReplay`, `SmlTrace`, `SmlRuns`, `SmlPushedEntry`, `SmlDispatch`, `SmlComposite`, `SmlNested`, `SmlHistory`, `SmlNestedRuns`, `SmlMachine` | compiling the transition table preserves its meaning; replaying the trace gives the context and the queues; queue conservation and order; the entry/exit chain of every region over every run; agreement of the dispatch policies; nested machines run as machines of their own and keep their history |
| Calculator | `CalculatorSpec`, `CalculatorGrammar`, `CalculatorTrees`, `CalculatorSession`, `Calculator` | the parser is sound and complete for the grammar the code implements, which is unambiguous; a printed tree evaluates to its value; error recovery; whole sessions |
| Active object, its queue, the start barrier | `ThreadsafeQueue`, `ActiveObject`, `EvenStart` | no lost wake-up, order and completeness of callbacks, termination, over all interleavings |
| Arena allocator | `BitMask`, `Arena` | bit-mask rounding, disjointness and bounds of live blocks, restoration of the bump pointer |
| Chat protocol | `ChatMessage`, `ChatRoom` | framing round trip on every prefix of the stream, history, one outstanding write |
| Bank commands, fractions, type lists | `BankCommands`, `Fractions`, `TypeLists`, `TypeListSort` | undo, conservation, exact series and error bound, stable sort, de-duplication |

Code that computes by recursion (templates, the table compilation, fractions) is modelled by
functions. Code that updates objects is modelled by classes whose methods are proved to
compute a specification function of the old state; the theorems are about those functions.
Concurrent code is a step relation over all interleavings, each critical section one step.

## Where the code decides

The model follows the code where the code differs from its documentation or from what a
reader may expect. Each point is a theorem below, not only a remark.

- The right operand of `%` in the calculator is a whole term, although the grammar comment
  (line 30) says Primary. `CalculatorGrammar.ModuloTakesAWholeTerm` states it; the `Modulus` case of the grammar
  predicates follows the code.
- A calculator error raised on the `;` itself has already consumed it, so recovery also skips
  the next statement. `CalculatorSession.StatementInSession` says exactly when,
  `CalculatorSession.StrayOperatorCostsTheNext` shows it for `1 + ;` and all its like.
- An SML event without a row of its own never reaches the wildcard rows `_`
  (`SmlTable.DeclaredRows`, proved by `SmlTable.LookupIsDeclared`).
- Whether a machine has history is decided by comparing the number of initial states, made
  unique, with the number of starred states without history, not made unique. A state
  starred twice can hide a history state. `SmlComposite.HistoryKeptExactlyWhen` is the exact
  condition, `SmlComposite.StarredTwiceLosesHistory` a table that fails it.
- `fold_expr` re-reads the current state, so a row for an unexpected event that moves a region to a larger
  id makes it dispatch the event a second time. `SmlDispatch.FoldAgreesExactlyWhen` is the
  exact condition on the table, `SmlDispatch.FoldIsJumpOrTwice` the exact behaviour, and
  `SmlDispatch.FoldDispatchesTwice` a machine where it shows.
- With several regions, the result of `process_event` is the last region's in one build and
  the disjunction in the other. The machine's flag `anyRegion` selects the build; every
  theorem holds for both.
- A live arena block of size zero can lie above the bump pointer: `Arena.EmptyBlockAbovePointer`
  gives the run, `Arena.AlwaysBelowExactlyWhen` the exact condition.
- An entry or exit event dispatched as an event of its own is observed as an entry or exit
  that no transition made. A client cannot send one to the outer machine, since
  `sm::process_event` wraps internal events as unexpected events (`sml.hpp:653`,
  `sml.hpp:1561-1567`); a `process` or `defer` action can push one, and a parent sends them to its
  nested machines. `SmlRuns.RunIsChained` is the exact condition on the events sent when
  actions push none, `SmlRuns.RunIsChainedExactlyWhen` the exact condition on the events
  dispatched, and `SmlPushedEntry.PushedEntryBreaksTheChain` a machine whose action breaks
  the chain.
- `align_up` rounds upward exactly when its addition does not wrap: `BitMask.AlignUpExactlyWhen`.
- Undoing a deposit is a withdrawal and can be refused. `BankCommands.UndoRestoresExactlyWhen`
  is the exact condition for non-negative amounts; `BankCommands.NegativeDepositIsNotUndone`
  shows why negative ones are excluded.

## Model

| member | source | states |
|---|---|---|
| TypeLists.UniqueIsRemoveDuplicates | State_machines/sml_fsm/sml.hpp:268-281 | SML's accumulating `unique` and the type-list library's right-recursive `remove_duplicates` give the same list on every input: each element once, in first-occurrence order, nothing lost |
| TypeLists.RemoveDuplicatesIsFirstOccurrences | Metaprogramming/typelist/remove_duplicates.hpp:9-27 | erasing a single occurrence from the already pruned tail is enough to remove all duplicates |
| TypeLists.EraseExtend | Metaprogramming/typelist/erase.hpp:6-22 | `erase` removes only the first occurrence, so an element appended behind is erased only when it did not occur before |
| TypeLists.UniqueIsIdempotent | State_machines/sml_fsm/sml.hpp:268-281 | `unique` of a unique list is the list itself |
| TypeListSort.SortIsStableSortOfReverse | Metaprogramming/typelist/insertion_sort.hpp:13-76 | for every list and strict weak order the result is ordered and every class of equivalent elements appears in the reverse of its input order |
| TypeListSort.StableSortIsUnique | Metaprogramming/typelist/insertion_sort.hpp:13-76 | a list has at most one stable sort, so the two conditions determine the result |
| TypeListSort.SortPermutes | Metaprogramming/typelist/insertion_sort.hpp:13-76 | the result is a permutation of the input |
| TypeListSort.SortsAgree | Metaprogramming/typelist/insertion_sort.hpp:103-166 | the second implementation, which takes the list apart by an emptiness flag, front and pop, returns the same list as the first for every list and every comparison |
| TypeListSort.SortIsTheStableSort | Metaprogramming/typelist/insertion_sort.hpp:13-76 | for a strict weak order a list is the result if and only if it is a stable sort of the reversed input |
| SmlTable.JoinStatesSpec | State_machines/sml_fsm/sml.hpp:890-912 | joining the state mappings of two lists gives one mapping per state, holding the first list's rows and then the second's |
| SmlTable.CompileSpec | State_machines/sml_fsm/sml.hpp:867-925 | the event-to-state-to-rows index holds exactly the table's rows, in declaration order, and has a key exactly where there is a row |
| SmlTable.LookupIsDeclared | State_machines/sml_fsm/sml.hpp:926-970 | every lookup through the index answers as the declared table does: own rows, then wildcard rows if the event has a row anywhere, and unmapped exactly when there is none |
| SmlTable.StatesSpec | State_machines/sml_fsm/sml.hpp:694-695 | the states of a machine are exactly the sources and targets of its rows |
| SmlTable.InitialStatesSpec | State_machines/sml_fsm/sml.hpp:696-698 | the initial states are exactly the starred sources, each once, and all are states |
| SmlTable.StateIdsAreLossless | State_machines/sml_fsm/sml.hpp:1228-1245 | narrowing ids to a byte or an unsigned short loses no state exactly when there are at most 65536 states |
| SmlEngine.InitialConfig | State_machines/sml_fsm/sml.hpp:1277-1290 | each region starts in the initial state of its own position, with nothing observed and nothing queued |
| SmlEngine.ImplOnlyPushes | State_machines/sml_fsm/sml.hpp:1357-1378 | dispatching an event to all regions only appends to the two queues, and every push is logged |
| SmlLaws.ScanIsExecute | State_machines/sml_fsm/sml.hpp:776-802 | executing the rows selected for an event and state equals scanning the whole declared table and firing the first matching row whose guard holds; an exit event is handled only by a row that is not its last |
| SmlLaws.StepIsLinearScan | State_machines/sml_fsm/sml.hpp:776-852 | dispatch through the compiled index of any event in any state, simple or composite, gives the same result, state, world and trace as the scan of the declared table, own rows before wildcard rows; the unexpected-event path is taken exactly when no row is mapped |
| SmlLaws.UnhandledIsGuards | State_machines/sml_fsm/sml.hpp:776-802 | an execution is handled exactly when some guard holds, for an exit event some guard but the last; when none holds state and world are unchanged |
| SmlLaws.DrainDeferConserves | State_machines/sml_fsm/sml.hpp:1428-1455 | the defer drain offers at most the entry size, from the front in order, removes exactly the events taken, and stops early only at an event nobody took |
| SmlLaws.DrainDeferKeepsOrder | State_machines/sml_fsm/sml.hpp:1428-1455 | after the drain the queue holds the events not taken, in order, then those deferred meanwhile, even when a handler defers its own event again |
| SmlLaws.DrainQueueConserves | State_machines/sml_fsm/sml.hpp:1456-1477 | at every point of the process-queue loop, offered ++ remaining = initial ++ pushed |
| SmlLaws.DrainQueueStable | State_machines/sml_fsm/sml.hpp:1456-1477 | once the loop has emptied the queue, allowing more rounds changes nothing, so the round count is only a view into an unbounded loop |
| SmlSteps.RunIsItsDispatches | State_machines/sml_fsm/sml.hpp:1263-1296 | every run is a sequence of dispatches, each starting from the regions, traces and context the one before it left |
| SmlCompletion.BroadcastResult | State_machines/sml_fsm/sml.hpp:1357-1378 | an event goes to every region once, in order; the result is the last region's answer in one build and that of any region in the other |
| SmlCompletion.EventFirst | State_machines/sml_fsm/sml.hpp:1263-1272 | `process_event` sends the event to all regions, then, if the machine knows it, the anonymous event to all regions, before any queued event |
| SmlCompletion.HandledOffersDeferred | State_machines/sml_fsm/sml.hpp:1444-1455 | an event that was handled is followed by the front of the defer queue, offered to every region |
| SmlCompletion.UnhandledSkipsDeferred | State_machines/sml_fsm/sml.hpp:1444-1455 | an event that was not handled takes nothing from the defer queue and is followed by the front of the process queue |
| SmlReplay.StepTells | State_machines/sml_fsm/sml.hpp:2296-2318 | one dispatch changes the context and the queues exactly as its observations say, replayed one by one: an observed action is applied to the context of that moment, its deferred events join the defer queue and its queued events the process queue; every observed guard and every offer to a nested machine has the result observed |
| SmlReplay.FiringRunsItsAction | State_machines/sml_fsm/sml.hpp:2303-2318 | a row that fires and has an action shows it, directly after the state change if it is external |
| SmlReplay.HandlerRuns | State_machines/sml_fsm/sml.hpp:1325-1356 | on entering or leaving a simple state the first row whose guard holds, among those for the handler targeted at the triggering event if the machine has one and the untargeted ones otherwise, runs its action with that event, and no other row does |
| SmlReplay.DispatchTells | State_machines/sml_fsm/sml.hpp:1357-1378 | the same of a dispatch to a region of the whole machine, its announced entry or exit included |
| SmlReplay.RunIsReplayed | State_machines/sml_fsm/sml.hpp:1263-1296 | over every run the replay of all observations from the empty world gives the final context and all events ever deferred and queued |
| SmlLaws.RunIsFifo | State_machines/sml_fsm/sml.hpp:1263-1296 | after every run both queues hold exactly their most recent pushes in push order: nothing lost, repeated or overtaken |
| SmlTrace.StepFollows | State_machines/sml_fsm/sml.hpp:2296-2308 | one dispatch keeps the chain: guards in the old state, exit, state change, action, entry; internal rows add neither exit nor entry |
| SmlRuns.RunIsChainedExactlyWhen | State_machines/sml_fsm/sml.hpp:1277-1296 | with untargeted entry and exit handlers every region's trace over a run is entry(s0) exit(s0) entry(s1) ..., each external action between exit and entry, ending in the entry of its current state, if and only if no entry or exit event is dispatched after the entries of `start` |
| SmlRuns.RunIsChained | State_machines/sml_fsm/sml.hpp:1277-1296 | when actions push no entry or exit events, the traces are such chains if and only if no entry or exit event is among the events sent |
| SmlPushedEntry.PushedEntryBreaksTheChain | State_machines/sml_fsm/sml.hpp:1928-1937 | a well-formed machine with both handlers, sent one ordinary event, whose action queues an entry event: its trace is not a chain |
| SmlRuns.RunStaysReachable | State_machines/sml_fsm/sml.hpp:1277-1296 | over every run every region id is a valid index of a state that is initial or some row's target |
| SmlDispatch.DispatchesAgree | State_machines/sml_fsm/sml.hpp:979-1024 | jump table, branch and switch agree on result, new state, effects and trace for every state list and every id in range |
| SmlDispatch.FoldIsJumpOrTwice | State_machines/sml_fsm/sml.hpp:1025-1045 | the fold gives the jump table's outcome unless that was unhandled and moved to a larger id, in which case it dispatches again from there |
| SmlDispatch.StepStays | State_machines/sml_fsm/sml.hpp:803-810 | an unhandled dispatch moves a region only when the event is unmapped there and an unexpected-event row is mapped |
| SmlDispatch.FoldAgreesExactlyWhen | State_machines/sml_fsm/sml.hpp:1025-1045 | the fold agrees with the jump table on result, state, world and trace, whatever guards, actions and nested machines mean, if and only if the event is mapped or goes to a nested machine, or every unexpected-event row that can fire is internal, goes to no larger id, or ends where the event does and shows nothing |
| SmlDispatch.FoldDispatchesTwice | State_machines/sml_fsm/sml.hpp:1025-1045 | a two-state machine on which the fold handles an event that the jump table reports unhandled |
| SmlComposite.UpdateCompositeSpec | State_machines/sml_fsm/sml.hpp:2249-2266 | entering a composite state resets a region to its initial state unless it is a history region of a machine known to have history |
| SmlComposite.HistoryKeptExactlyWhen | State_machines/sml_fsm/sml.hpp:1231-1234 | the code keeps every history region on re-entry if and only if its count comparison reports history or there is no history region |
| SmlComposite.StarredOnceKeepsHistory | State_machines/sml_fsm/sml.hpp:699-703 | when each initial state is starred once, every entry keeps every history region |
| SmlComposite.StarredTwiceLosesHistory | State_machines/sml_fsm/sml.hpp:1231-1234 | a table with a state starred twice whose history region every entry resets |
| SmlNested.StepMoved | State_machines/sml_fsm/sml.hpp:818-852 | a dispatch that takes its region from one state to another lets only the nested machine of the first run, enters at most the machine of the second, and then lets only that one run |
| SmlHistory.InitialNestValid | State_machines/sml_fsm/sml.hpp:1251-1258 | each nested machine is constructed with every region in its own initial state and nothing queued, and meets what the theorems about runs assume |
| SmlHistory.NestedChangesOnlyInside | State_machines/sml_fsm/sml.hpp:818-852 | over every run a nested machine changes only in a dispatch of a region that was in its composite state or has entered it |
| SmlHistory.ReentryRestoresHistory | State_machines/sml_fsm/sml.hpp:2249-2284 | every entry of a composite state from another state, in every run and also within one event, finds the regions as the last dispatch in the state left them; with initial states starred once it keeps each history region and puts each other region in its initial state |
| SmlHistory.EntryFollowsExitHandler | State_machines/sml_fsm/sml.hpp:2296-2308 | a row that leaves a composite state and enters it, or another one, finds the regions as the exit handler left them, and restores them likewise |
| SmlHistory.CompositeEntryRestoresHistory | State_machines/sml_fsm/sml.hpp:818-852 | in every run, a dispatch from one composite state into another or into itself starts from what the dispatch before it left, offers the event to the nested machine, runs the exit handler, and enters the regions as they are then, restoring history likewise |
| SmlHistory.RunVisitsReset | State_machines/sml_fsm/sml.hpp:2249-2284 | every entry of a composite state in every run resets the nested machine as `update_composite_states` prescribes |
| SmlNestedRuns.NestedProcessesFirst | State_machines/sml_fsm/sml.hpp:818-852 | a dispatch in a composite state runs `process_event` of its nested machine on the shared context; if that handles the event, or the state has no row for it, that is all, otherwise the rows of the state are tried after it |
| SmlNestedRuns.RunNestedProcessesFirst | State_machines/sml_fsm/sml.hpp:818-852 | so it is for every dispatch of every run: the nested machine's regions, traces, queues and context are those of its own `process_event`, and its answer decides whether the parent's rows are tried |
| SmlNestedRuns.AnonymousWaits | State_machines/sml_fsm/sml.hpp:826-831 | an anonymous event with rows in the composite state does nothing until the nested machine has terminated |
| SmlNestedRuns.TerminatedStates | State_machines/sml_fsm/sml.hpp:1500-1514 | if the terminate state is one of its states, a nested machine has terminated exactly when all its regions are in it |
| SmlNestedRuns.EntryGoesInAfterRows | State_machines/sml_fsm/sml.hpp:837-843 | an entry event with rows in the composite state runs them first, then goes to the nested machine, and is handled |
| SmlNestedRuns.EntryHandlerGoesIn | State_machines/sml_fsm/sml.hpp:837-843 | entering a composite state runs its entry rows, then the nested machine processes the entry event |
| SmlNestedRuns.ExitHandlerGoesIn | State_machines/sml_fsm/sml.hpp:832-836 | leaving a composite state lets the nested machine process the exit event first, and the exit rows only if it did not handle it |
| SmlNestedRuns.ParentRowRuns | State_machines/sml_fsm/sml.hpp:2320-2340 | a row of the parent reads the context it shares with its nested machines; its action changes that context and the parent's queues and nothing inside a nested machine |
| SmlMachine.SmImpl.constructor | State_machines/sml_fsm/sml.hpp:1251-1258 | a new machine has every region in the initial state of its own position, empty queues and no observation |
| SmlMachine.SmImpl.Initialize | State_machines/sml_fsm/sml.hpp:1277-1290 | every region gets the id of the initial state of its own position |
| SmlMachine.SmImpl.FireTransition | State_machines/sml_fsm/sml.hpp:2286-2310 | in place, a transition exits, changes the state, acts and enters, as the engine's specification of a firing row |
| SmlMachine.SmImpl.ExecuteTransitions | State_machines/sml_fsm/sml.hpp:776-802 | rows are tried in order until one fires; only this region's id changes |
| SmlMachine.SmImpl.Dispatch | State_machines/sml_fsm/sml.hpp:818-852 | one dispatch, simple or composite state, computes the engine's step of that region and leaves the other regions' ids |
| SmlMachine.SmImpl.ProcessEventImpl | State_machines/sml_fsm/sml.hpp:1357-1378 | the loop over regions computes the engine's broadcast, for both builds of the result |
| SmlMachine.SmImpl.ProcessDeferEvents | State_machines/sml_fsm/sml.hpp:1444-1455 | the defer loop with its size fixed on entry computes the specified drain |
| SmlMachine.SmImpl.ProcessEvent | State_machines/sml_fsm/sml.hpp:1263-1276 | one event processed computes the specified run-to-completion step for the rounds given; if the queue runs empty within them, that of the unbounded loop |
| SmlMachine.SmImpl.Start | State_machines/sml_fsm/sml.hpp:1291-1296 | start sends the entry and anonymous events, then drains the process queue; if it runs empty within the rounds, as the unbounded loop |
| CalculatorSpec.RemainderSpec | Parsers/Calculator/Calculator.cpp:429-434 | the remainder truncates toward zero: it differs from the dividend by a multiple, has its sign and is smaller than the divisor |
| CalculatorGrammar.OperatorsCompute | Parsers/Calculator/Calculator.cpp:391-441 | on the tokens of two numbers `+ - *` give the sum, difference and product, `/` the quotient or an error exactly when the divisor is zero, `%` the truncated remainder of the truncated numbers or an error exactly when the divisor truncates to zero |
| CalculatorGrammar.OperandsCompute | Parsers/Calculator/Calculator.cpp:443-465 | a number is its value, `-` negates it, `+` keeps it, and a name is the variable's value or an error exactly when it is undefined |
| CalculatorGrammar.TermYields | Parsers/Calculator/Calculator.cpp:413-441 | the tokens of a term evaluate to its value with `* / %` grouping to the left, and leave exactly what follows |
| CalculatorGrammar.ExpressionYields | Parsers/Calculator/Calculator.cpp:391-411 | for every grammatical tree, parsing its tokens followed by any terminator returns the tree's value or error and leaves exactly the terminator |
| CalculatorGrammar.ExpressionExplained | Parsers/Calculator/Calculator.cpp:391-465 | conversely, whenever an expression is accepted the tokens read are those of a grammatical tree with that value |
| CalculatorTrees.GrammarIsUnambiguous | Parsers/Calculator/Calculator.cpp:391-465 | two grammatical trees with the same tokens, up to a terminator, are the same tree |
| CalculatorTrees.AcceptedTreeIsUnique | Parsers/Calculator/Calculator.cpp:391-465 | an accepted expression has exactly one tree of the grammar behind it |
| CalculatorGrammar.FitIsGrammatical | Parsers/Calculator/Calculator.cpp:391-465 | parenthesising a tree where its operators' levels require it makes it grammatical and keeps its value |
| CalculatorGrammar.EveryTreeRoundTrips | Parsers/Calculator/Calculator.cpp:391-465 | every arithmetic tree, rendered with the parentheses precedence requires, evaluates to its own value and leaves the terminator |
| CalculatorGrammar.ModuloTakesAWholeTerm | Parsers/Calculator/Calculator.cpp:429-434 | `a % b * c` is `a % (b * c)` for all numbers |
| CalculatorSession.ExpressionCareful | Parsers/Calculator/Calculator.cpp:391-411 | whatever the tokens, a successful expression never reads past a `;`, and a failing one reads at most the offending token beyond |
| CalculatorSession.IgnoreFinds | Parsers/Calculator/Calculator.cpp:278-287 | `ignore` consumes up to and including the first `;` of buffer ++ source |
| CalculatorSession.RecoveryResumes | Parsers/Calculator/Calculator.cpp:346-361 | after an error with only valid tokens before the next `;`, the session reports it and resumes just after that `;` |
| CalculatorSession.StatementInSession | Parsers/Calculator/Calculator.cpp:346-361 | an error before a statement's `;` costs that statement only; an error on the `;` also costs the following statement |
| CalculatorSession.StrayOperatorCostsTheNext | Parsers/Calculator/Calculator.cpp:346-361 | after any expression that has a value, an operator and `;`, such as `1 + ;`, the error is raised on the `;` and the next statement, whatever its tokens, is lost |
| CalculatorSession.StatementYields | Parsers/Calculator/Calculator.cpp:363-389 | a well-formed statement has its tree's result, defines its variable only when that result exists and the name is new, and leaves its `;` |
| CalculatorSession.ProgramSession | Parsers/Calculator/Calculator.cpp:346-389 | a program of well-formed statements logs one result or error per statement, each computed in the variables defined so far, and ends at `quit` |
| Calculator.TokenStream.GetToken | Parsers/Calculator/Calculator.cpp:204-249 | `get` takes the first token of buffer ++ source and leaves the buffer empty; a bad character is consumed and reported; end of input is an error |
| Calculator.TokenStream.Putback | Parsers/Calculator/Calculator.cpp:251-263 | a token put back is the next one read; refused exactly when the buffer is full |
| Calculator.TokenStream.IgnoreKind | Parsers/Calculator/Calculator.cpp:278-287 | `ignore` on the buffer and the source is one search on their concatenation, and empties the buffer |
| Calculator.VariableMap.DefineVariable | Parsers/Calculator/Calculator.cpp:300-305 | a new name is added, an existing one is refused and kept |
| Calculator.VariableMap.SetVariable | Parsers/Calculator/Calculator.cpp:307-315 | only an existing name is changed, and only that one |
| Calculator.CalculatorObject.Primary | Parsers/Calculator/Calculator.cpp:443-465 | computes the specified primary, terminates, and returns with an empty buffer |
| Calculator.CalculatorObject.Term | Parsers/Calculator/Calculator.cpp:413-441 | the loop computes the specified term, never puts back into a full buffer, and returns with the buffer full |
| Calculator.CalculatorObject.Expression | Parsers/Calculator/Calculator.cpp:391-411 | the loop computes the specified expression, never puts back into a full buffer, and returns with the buffer full |
| Calculator.CalculatorObject.Statement | Parsers/Calculator/Calculator.cpp:363-373 | computes the specified statement on the token stream and the variables |
| Calculator.CalculatorObject.Run | Parsers/Calculator/Calculator.cpp:346-361 | the main loop with its handler computes the specified session for every finite stream |
| ThreadsafeQueue.StepInv | Patterns/Active_object/threadsafe_queue.h:62-97 | every step of any producer or consumer, spurious wake-ups included, keeps popped ++ queue = pushed and the wake-up bound |
| ThreadsafeQueue.NoWakeupIsLost | Patterns/Active_object/threadsafe_queue.h:62-97 | in every run, while some consumer sleeps un-notified, the notified consumers that have not re-taken the lock are at least as many as the queued values |
| ThreadsafeQueue.SomeoneCanPop | Patterns/Active_object/threadsafe_queue.h:78-85 | whenever a value is queued and a consumer is inside `wait_and_pop`, some consumer can take the front value now |
| ThreadsafeQueue.ReturnsWhatWasPushed | Patterns/Active_object/threadsafe_queue.h:62-97 | in every run the values that the pops return, followed by those still queued, are the values pushed, in order: what is returned has left the queue |
| ThreadsafeQueue.Monitor.PushValue | Patterns/Active_object/threadsafe_queue.h:62-76 | the critical section of `push` and `emplace` is the protocol's push step |
| ThreadsafeQueue.Monitor.WaitAndPop | Patterns/Active_object/threadsafe_queue.h:78-85 | with the lock held a consumer takes the front value off the queue, or sleeps if there is none |
| ThreadsafeQueue.Monitor.TryPopValue | Patterns/Active_object/threadsafe_queue.h:87-97 | takes the front value off the queue or reports an empty queue without waiting |
| ActiveObject.StepInv | Patterns/Active_object/active.cpp:6-25 | every interleaved step keeps executed ++ in hand = popped, the stored data equal to the executed stores, and done set exactly by the executed done message |
| ActiveObject.ExecutedIsPrefix | Patterns/Active_object/backgrounder.h:20-39 | in every interleaving the callbacks executed are a prefix of those sent, and the data received are theirs in order |
| ActiveObject.JoinedRanEverything | Patterns/Active_object/main.cpp:68-69 | once `join` returns, every callback sent before the done message has run exactly once in order; if nothing was sent after it the queue is empty |
| ActiveObject.DonePending | Patterns/Active_object/active.h:46-51 | until the done message runs the worker never finds the queue empty; done is set exactly when it has run |
| ActiveObject.WorkerProgress | Patterns/Active_object/active.cpp:17-25 | after the destructor's send the worker always has an enabled step and never sleeps |
| ActiveObject.RemainingDecreases | Patterns/Active_object/active.cpp:17-25 | the distance to the done message decreases with every worker step and with no other |
| ActiveObject.WorkerTerminates | Patterns/Active_object/active.h:132-142 | in every interleaving the worker takes at most that many steps, so the loop ends |
| EvenStart.StepInv | Testing/even_start.hpp:27-44 | every step of the launcher or a thread keeps the barrier invariant |
| EvenStart.NobodyStartsEarly | Testing/even_start.hpp:27-44 | in every interleaving no callable starts before all threads have signalled ready, and none starts twice |
| EvenStart.NeverStuck | Testing/even_start.hpp:27-44 | until all threads have finished some step is enabled |
| EvenStart.MeasureDecreases | Testing/even_start.hpp:27-44 | every step lowers the measure over thread phases by exactly one |
| EvenStart.EveryRunFinishes | Testing/even_start.hpp:27-44 | no run of n threads is longer than 5n + 2 steps, and one of that length has run every callable exactly once |
| BitMask.AlignUpIsLeast | Allocators/short_alloc/short_alloc.h:50-53 | for every power-of-two alignment the mask gives the least multiple not below n, when the addition does not wrap |
| BitMask.AlignUpExactlyWhen | Allocators/short_alloc/short_alloc.h:50-53 | the result is at least n if and only if the addition does not wrap; otherwise it is 0 |
| Arena.AllocateInv | Allocators/short_alloc/short_alloc.h:62-80 | allocation keeps live blocks placed, aligned and pairwise disjoint |
| Arena.DeallocateInv | Allocators/short_alloc/short_alloc.h:82-92 | freeing any live block, with or without moving the pointer, keeps them so |
| Arena.BlocksNeverOverlap | Allocators/short_alloc/short_alloc.h:62-92 | after any sequence of allocations and frees, live arena blocks are disjoint, aligned, inside the buffer and, if non-empty, below the pointer; used bytes are an aligned amount within the size |
| Arena.EmptyBlockAbovePointer | Allocators/short_alloc/short_alloc.h:82-92 | in every layout with room for a block, a run after which a live block of size zero lies above the pointer |
| Arena.AlwaysBelowExactlyWhen | Allocators/short_alloc/short_alloc.h:62-92 | in every run live arena blocks of size n end at or below the pointer, if and only if n is not zero or the buffer is smaller than one alignment |
| Arena.ReverseOrderRestores | Allocators/short_alloc/short_alloc.h:62-92 | freeing in the exact reverse order, however nested with other allocations, restores the pointer and the live blocks |
| Arena.ArenaObject.AllocateBlock | Allocators/short_alloc/short_alloc.h:62-80 | returns the old pointer if the rounded size fits, otherwise heap memory, and moves the pointer accordingly |
| Arena.ArenaObject.DeallocateBlock | Allocators/short_alloc/short_alloc.h:82-92 | moves the pointer back exactly when the block was the topmost one |
| Arena.ArenaObject.UsedBytes | Allocators/short_alloc/short_alloc.h:46-46 | `used` is an aligned amount within the size that spans every live non-empty block, and a request fits exactly when its rounded size is at most the rest |
| ChatMessage.HeaderRoundTrip | Libraries/asio/chat/chat_message.hpp:26-52 | the length read back from four zero-padded digits is the length written |
| ChatMessage.ReadsCompleteFrames | Libraries/asio/chat/chat_client.cpp:61-105 | from any prefix of the framed stream the header/body reader gets exactly the complete frames in order, and keeps the rest pending |
| ChatMessage.ReadInvertsFrames | Libraries/asio/chat/chat_server.cpp:107-153 | the whole stream gives back exactly the bodies that were framed |
| ChatMessage.Message.EncodeHeader | Libraries/asio/chat/chat_message.hpp:39-52 | in place, the header is written in front of the body, so the wire bytes are the frame of the body |
| ChatMessage.Message.DecodeHeader | Libraries/asio/chat/chat_message.hpp:26-37 | sets the length from the header; a header without digits is reported and leaves length 0 |
| ChatRoom.RecentIsLatest | Libraries/asio/chat/chat_server.cpp:52-64 | in every run the history is the at most 100 latest messages delivered to the room |
| ChatRoom.SessionsAreServed | Libraries/asio/chat/chat_server.cpp:37-98 | in every interleaving of joins, leaves, deliveries and completions, a session without write error has a write outstanding exactly when its queue is non-empty, and completed ++ queue is the history at join followed by all later deliveries until it leaves |
| ChatRoom.ClientReceivesPrefix | Libraries/asio/chat/chat_client.cpp:61-105 | what a client decodes from any prefix of the bytes written to it is a prefix of what its session owes it |
| ChatRoom.ChatSession.DeliverMessage | Libraries/asio/chat/chat_server.cpp:90-98 | the message is queued and a write is started only if the queue was empty |
| ChatRoom.ChatSession.OnWritten | Libraries/asio/chat/chat_server.cpp:155-177 | a completed write removes its message and starts the next one; a failed one leaves the room and starts nothing |
| ChatRoom.ChatRoomObject.JoinRoom | Libraries/asio/chat/chat_server.cpp:37-45 | the participant is added and receives the history in order |
| ChatRoom.ChatRoomObject.DeliverToRoom | Libraries/asio/chat/chat_server.cpp:52-64 | the history is extended and trimmed, and every participant, in any order, receives the message once |
| BankCommands.UndoRestores | DesignPatterns/Behavioral/command_composite.cpp:101-138 | if every deposit that changes anything finds its account at or above the limit, call then undo restores every balance, for shared accounts and for both composites |
| BankCommands.UndoRestoresExactlyWhen | DesignPatterns/Behavioral/command_composite.cpp:101-138 | for non-negative amounts that condition is also necessary |
| BankCommands.CallThenUndoIsIdentity | DesignPatterns/Behavioral/command_composite.cpp:54-84 | with non-negative amounts and balances at or above the limit, call then undo is the identity on all balances |
| BankCommands.NegativeDepositIsNotUndone | DesignPatterns/Behavioral/command_composite.cpp:54-84 | two deposits, the first negative, that undo does not take back |
| BankCommands.LimitIsKept | DesignPatterns/Behavioral/command_composite.cpp:17-25 | with non-negative amounts no call takes a balance below the limit, and everything it did can be undone |
| BankCommands.UndoKeepsLimit | DesignPatterns/Behavioral/command_composite.cpp:68-84 | with non-negative amounts no undo takes a balance below the limit, whatever the success flags |
| BankCommands.TransferConserves | DesignPatterns/Behavioral/command_composite.cpp:121-149 | a transfer of any amount conserves the total; it moves the amount if the withdrawal is allowed and changes nothing otherwise |
| BankCommands.BankAccountCommand.CallCommand | DesignPatterns/Behavioral/command_composite.cpp:54-66 | updates the account and records success |
| BankCommands.CompositeCommand.CallComposite | DesignPatterns/Behavioral/command_composite.cpp:101-138 | the loops of both composites, over objects that may share accounts, compute the specified balances and flags |
| BankCommands.CompositeCommand.UndoComposite | DesignPatterns/Behavioral/command_composite.cpp:108-113 | the reverse loop computes the specified undo |
| BankCommands.CallAndUndo | DesignPatterns/Behavioral/command_composite.cpp:101-138 | calling and undoing a composite object leaves every account object's balance as it was |
| Fractions.McdIsGreatest | Metaprogramming/fundamentals/fractions.cpp:19-27 | the recursion ends with the greatest common divisor |
| Fractions.SimplifySpec | Metaprogramming/fundamentals/fractions.cpp:29-33 | the value is kept and the result is in lowest terms |
| Fractions.SumSpec | Metaprogramming/fundamentals/fractions.cpp:35-47 | addition is exact and the result is in lowest terms |
| Fractions.Fact | Metaprogramming/fundamentals/fractions.cpp:51-56 | the downward loop computes the factorial, the product of the numbers from 1 to n |
| Fractions.FactorialIsProduct | Metaprogramming/fundamentals/fractions.cpp:51-56 | the factorial that the approximation divides by is the product of the numbers from 1 to n |
| Fractions.FirstApproximations | Metaprogramming/fundamentals/fractions.cpp:58-70 | the first three approximations are 1, 2 and 5/2 |
| Fractions.EIsPartialSum | Metaprogramming/fundamentals/fractions.cpp:58-70 | `E<N>` is exactly the sum of 1 / (1 * 2 * ... * k) for k up to N, in lowest terms |
| Fractions.ApproximationError | Metaprogramming/fundamentals/fractions.cpp:58-70 | for 1 <= n < m, E<m> - E<n> is positive and below 1/(n n!) |

## Left out

State machine:

- Guards and actions are functions of an abstract context; dependency injection, pools, type names and zero-size arrays are not modelled.
- Logger and thread-safety policies are not modelled as policies; the traces are what a logger would see of one region.
- C++ exceptions and the `exception<>` events are not modelled.
- Entry and exit rows are taken to have no target state, and `unexpected_event` to wrap ordinary events only.
- SmlMachine.SmImpl.ProcessEvent: takes a bound on the rounds of the process-queue loop, because handlers may push events for ever; every result holds for every bound, and a loop that ends within the bound is the unbounded one.
- SmlMachine.SmImpl.Start: takes the same bound.
- Nesting is proved for two levels: the context of the nested machines is the parent's, but a nested machine has no composite states of its own. Which internal events of the nested machines count among the parent's events is a parameter, so the results hold for any.
- `sm::is`, `visit_current_states` and the testing policy are not modelled.

Calculator:

- Characters are already grouped into tokens; a character that starts no token is one bad lexeme.
- End of input is an error of `get`, because the source then reads an uninitialised character.
- Numbers are an abstract type with the operations the code uses, so rounding, overflow and the range of `int` in `%` are not modelled.
- `Token`'s hand-managed union, `ignore` of a whole token, and the predefined variables are not modelled.

Concurrency:

- A section under the mutex is one step, and the time of a wake-up is any; memory order is not modelled.
- Lifetime issues are not modelled: `Active::create` captures a local by reference, and the queue can be copied and moved.
- `Active2` and `Active3` have the same loop as `Active` and are not modelled separately.
- Exceptions thrown by callbacks or callables are not modelled.

Arena:

- Addresses are numbers; heap addresses are parameters assumed outside the buffer, and requests are assumed not to wrap (`BitMask.AlignUpExactlyWhen` says what happens when they do).
- `Arena.ArenaObject.Reset` forgets the live blocks, which the source leaves to its caller.
- The allocator adaptor `short_alloc` on top of the arena is not modelled.

Chat:

- Sockets and asio are steps of an event loop and a byte stream; a write completes or fails as a whole.
- Frames are those `encode_header` writes for bodies up to `max_body_length`; other input is out of scope.
- The server keeps a session in the room after a header that does not decode and stops reading from it; this path changes no state and is not a step.
- The client's own write queue is the session's, line for line, and is not modelled separately.

Supporting parts:

- Balances and amounts are unbounded integers, and fractions unbounded naturals; machine overflow is not modelled.
- Console output of the bank account is not modelled.
- `Algorithms`, `interpreter_1.cpp`, the animation demos, output iterators, tuple helpers and type-trait examples are left out: standard or without an unbounded property.
