# actsim in Dafny

A model of the parts of the actsim simulator in which several pieces of state have to stay consistent over
whole runs, and proofs that they do. `dafny verify dfyconfig.toml` checks all files.

## What is modelled

**CHP programs** (`Chp*.dfy`). `ChpLang` has the statements and their small-step meaning, which knows nothing of
graphs, threads or counters. `ChpBuilder` is the recursive graph builder, with its shared stop nodes, loop
back-edges and reused join counters. `ChpSim` says what one event does to program-counter slots, the pool of free
slots and the join counters; every failed assertion, every index outside an array and every endless walk through
nodes without statements is the result `None`. `ChpMachine` is the same on arrays, updated in place. Events are a
bag: any slot may be stepped at any time, with either event flag.

The proof keeps a *control tree* over the layout of a statement: one leaf per live thread. From it one reads off the
node each slot is at, every join counter, the number of threads, and the term that is left to run. `ChpMove` and
`ChpTerm` say what one thread's move does to each of these; `ChpRun`, `ChpExec` and `ChpStep` carry the invariant
through every kind of event; `ChpTheorems`, `ChpReach`, `ChpJoins` and `ChpComplete` hold the results, and `ChpMain`
runs the pieces end to end. `ChpJoins` counts forks and joins over whole runs, and `ChpPeak` compares the slots and
join counters reserved with the most threads and open joins there can be. The two directions together are a
bisimulation: the compiled program reaches exactly the stores the structured program reaches, ends exactly where it
ends, and is stuck exactly where it is stuck. For programs without concurrency `ChpSequential` gives a big-step
meaning that says directly what the constructs do, and proves that the compiled program ends in a store exactly when
that meaning does. `ChpDestroy` is the destructor of a graph.

**Channels** (`Channel`, `Rendezvous`). The channel state with its two data cells, and all interleavings of a
sender, a receiver and their delayed wake-ups, with one end allowed to probe.

**Channel methods** (`ChanLang`, `ChanMethods`, `ChanRun`, `Fragment`, `FragmentBits`). Structured handshake programs,
the compiler to linear code with back-patched selections, the interpreter that stalls and resumes, and the protocol
that drives three methods in order from a two-bit and an eight-bit field.

**Production rules** (`Logic3`, `PrsRules`, `PrsSim`, `NodeRuns`, `DelayTable`). Conversion of rule expressions,
three-valued evaluation, strong and weak resolution, the scheduling flags of a node, whole runs of a node, and the
growable delay tables.

**State and constraints** (`Threaded`, `SimState`, `TimingFork`). Objects threaded on several per-signal lists, the
packed state vector with its mutual-exclusion groups, the withdrawal of what other nodes of a group have pending,
and timing-fork monitors.

**Infinite buffer** (`Buffer`). The queues of the simulation library, and the process of two assignments in either
order followed by two loops side by side.

Where a property does not hold of the code the model keeps the code, shows an input that fails, and proves exactly
when the property holds.

- The eight-bit resume position of a fragmented channel: `FragmentBits.StartBits` says which methods it is enough for
  when they are started, `Fragment.EightBits` says the same of any position, and `Fragment.WaitLost` is a method that
  breaks it.
- The number of used slots: a program of skips has one used slot and no live one. `ChpMain.CountExact` says that the
  two numbers agree in every reachable state of a program exactly when the program is not made of skips only, and
  `ChpMain.SkipMiscounts` is the smallest program that fails.
- A node with nothing pending has the value it heads for: `NodeRuns.FollowsExactly` says that this holds throughout a
  run exactly when no input change lets the other network overpower a pending transition that still conducts;
  `NodeRuns.RatioedOvertaken` is a node that is left at 1 while it is pulled down strongly.
- A node heads for X only if its networks leave its value open: `NodeRuns.NetworksExact` gives the exception, a weak
  network that conducts behind a strong one that is unknown.
- Registering a timing fork monitors it: one whose signals and margin are those of a registered fork is dropped.
  `TimingFork.DroppedExactly` says that nothing is lost exactly when the same edges matter to both.

## Model

| member | source | states |
|---|---|---|
| ChpLang.MaxProgramCounters | chpsim.cc:3434-3500 | the recursion over the statement computes the slot bound that `LeavesBound` is about |
| ChpExec.LeavesBound | chpsim.cc:372-373 | no position of control in a well-formed statement has more threads than the slots computed for it |
| ChpPeak.PeakBound | chpsim.cc:3434-3500 | no position of control has more threads, or more open joins, than the peak read off the statement |
| ChpPeak.PeakReached | chpsim.cc:3434-3500 | a statement in which every part has something to run has a position of control with exactly that many |
| ChpPeak.SlotsExact | chpsim.cc:372-373 | the slots reserved for a statement are the peak number of threads |
| ChpPeak.CountersExact | chpgraph.cc:1518-1679 | the join counters given to a statement are at least the peak number of open joins, and exactly that many unless a comma stands inside a do-loop |
| ChpBuilder.Builder.Build | chpgraph.cc:1502-1760 | the nodes appended are exactly the nodes of a layout of the statement, wired so that control runs through it, each node in one place, no join counter shared between branches of a comma; the counters used and the maximum are exact |
| ChpBuilder.Builder.BuildProgram | chpgraph.cc:1396-1405 | a whole program gets no nodes exactly when it is made of skips only |
| ChpBuilder.Builder.BuildTo | chpgraph.cc:1572-1580 | one branch or alternative: its nodes are appended, and its end goes on to the common node |
| ChpBuilder.Builder.BuildSemi | chpgraph.cc:1518-1546 | statements in sequence are linked stop to entry, empty ones vanish, and all start from the same counter |
| ChpBuilder.Builder.BuildComma | chpgraph.cc:1548-1598 | fork and join with one arrival per non-empty branch, a counter of its own, and nothing built when all branches are empty |
| ChpBuilder.Builder.BuildBranch | chpgraph.cc:1600-1651 | every alternative returns to the closing node, or to the loop node, and empty ones go straight there |
| ChpBuilder.Builder.BuildDoLoop | chpgraph.cc:1653-1679 | the body twice around one loop node, with an idle node for an empty body |
| ChpGraph.Retarget | chpgraph.cc:1535-1538 | setting `next` of a statement's stop node redirects where control leaves it and changes nothing else of its wiring |
| ChpMachine.Simulator.constructor | chpsim.cc:366-402 | the arrays of a new simulator are the initial state: one used slot, all others in the pool, counters zero |
| ChpMachine.Simulator.UpdatePc | chpsim.cc:476-497 | moving a slot along `next` in place, with the arrival rule of joins, has the effect the invariant is proved for |
| ChpMachine.Simulator.NextEvent | chpsim.cc:451-462 | walking on to the next statement ends, and reports whether the slot moved |
| ChpMachine.Simulator.Fork | chpsim.cc:1009-1044 | the first live branch keeps the slot and each other one takes a free slot, in order |
| ChpMachine.Choose | chpsim.cc:1498-1560 | the two passes over the guards find an alternative exactly when one is enabled: the first true one, or for the nondeterministic selection the one the random number names, `else` only when none is true |
| ChpMachine.Simulator.Step | chpsim.cc:937-1616 | one event on the arrays is one step of the abstract machine, for the alternative it came to; at a selection or loop with a true guard that is an enabled one, and at a nondeterministic selection the one the random number names |
| ChpMachine.PickedActs | chpsim.cc:1541-1592 | with the alternative so chosen an event at a selection acts exactly when a guard is true, and an event at a loop always acts |
| ChpMove.UpExit | chpgraph.cc:188-211 | a thread leaving its part goes where `next` points: to the following part, the loop node, the closing node, or the join, where it is counted and only the last goes on |
| ChpTerm.UpTerm | chpgraph.cc:1518-1679 | a thread's move seen from the whole statement is silent, or one small step with its comma branches as the path |
| ChpRun.FoldStep | chpsim.cc:989-993 | passing nodes without statements ends, keeps the invariant, and does not change what is left to run |
| ChpStep.ActCase | chpsim.cc:1055-1458 | an action that completes moves the thread on, one that blocks leaves it, and both are the structured step |
| ChpStep.ForkCase | chpsim.cc:1009-1044 | forking never runs out of slots and leaves the same term to run |
| ChpStep.PickCase | chpsim.cc:1541-1558 | taking an enabled alternative of a selection or loop is the structured step |
| ChpStep.LoopExitCase | chpsim.cc:1589-1592 | a loop with no true guard ends |
| ChpStep.WaitCase | chpsim.cc:1561-1588 | a selection with no true guard changes nothing, and an alternative that is not enabled is never taken |
| ChpTheorems.StepRefines | chpsim.cc:937-1616 | any event of any slot: no assertion fails, the invariant stays, and the term is unchanged or one structured step further |
| ChpTheorems.Starts | chpsim.cc:366-402 | the initial state satisfies the invariant with the whole statement left to run |
| ChpTheorems.RunRefines | chpsim.cc:937-1616 | every run under every schedule and every choice is a run of the structured semantics that reaches the same store, with exactly one step for every event that does something |
| ChpReach.UsedIsLive | chpsim.cc:1013-1038 | in every reachable state the used count is the number of live slots and within the bound, the pool lists exactly the free slots without repeats, and a program without live slots has nothing left to run |
| ChpReach.WaitingApart | chpgraph.cc:1518-1598 | two joins that were given the same counter are never both partly counted |
| ChpReach.JoinCounters | chpgraph.cc:188-211 | each counter belongs to at most one partly counted join, is below its `wait`, and is zero when there is none |
| ChpReach.Arrival | chpgraph.cc:194-206 | an arrival below the last counts and gives up its slot; the last one passes the join, alone in the whole comma, and the counter is zero again |
| ChpReach.AtJoin | chpgraph.cc:1566-1590 | when a thread stands at a join no other thread is at any node of that comma |
| ChpJoins.RunBalance | chpgraph.cc:188-211 | over every run, for every join: the times its fork was executed are the times it was passed, and once more while its comma is under way |
| ChpJoins.JoinsOnce | chpgraph.cc:1566-1590 | under every schedule a comma's fork and join strictly alternate: forks executed and joins passed never differ by more than one, and agree when no slot is live |
| ChpReach.DistinctNodes | chpsim.cc:1009-1044 | no two live slots are ever at the same node |
| ChpComplete.Quiesce | chpsim.cc:989-1053 | forks, idle nodes and closing nodes are passed in finitely many events that change neither the store nor what is left to run |
| ChpComplete.Realise | chpsim.cc:937-1616 | each structured step of a state whose threads are at actions, selections or loops is one event of one slot |
| ChpComplete.EventExactly | chpsim.cc:937-1616 | an event that does something is the structured step of that very thread, with the event's wake-up flag and alternative; any other event changes neither the store nor what is left to run |
| ChpComplete.ReplayRealised | chpsim.cc:937-1616 | every structured run is matched by a run of the compiled program with the same store and the same rest |
| ChpComplete.SameFinalStores | chpgraph.cc:1502-1760 | compilation preserves meaning: the compiled program can end in a store if and only if the structured program can |
| ChpSequential.SameResult | chpgraph.cc:1502-1760 | for a program without concurrency a separate big-step meaning (the first true guard wins, `else` last, a loop ends when no guard holds, a do-loop runs its body first, an action is tried until it completes) ends in a store if and only if some schedule of the compiled program ends there, however often actions block on the way |
| ChpSequential.OneResult | chpsim.cc:937-1616 | without concurrency any two schedules that end do so in the same store |
| ChpSequential.DeterministicExactly | chpsim.cc:937-1616 | all programs without concurrency have at most one final store for each initial one if and only if every action, however often it blocks and whatever wakes it, can complete with one store only |
| ChpComplete.StuckAlike | chpsim.cc:1561-1588 | where the structured program is stuck no event of any slot changes anything |
| ChpMain.CountExact | chpsim.cc:373-401 | for every well-formed program as built and in every reachable state: the used count is the number of live slots if and only if the program is not made of skips only |
| ChpMain.VacuousCount | chpsim.cc:451-462 | a program of skips: no event of any slot changes anything, and the count stays one with no slot live |
| ChpMain.SkipMiscounts | chpsim.cc:373-401 | the program `skip` as built: one used slot, none live |
| ChpMain.Simulate | chpsim.cc:298-403 | from statement to simulation end on the mutable builder and simulator: the store reached is one the structured program reaches, and a final one when no slot is used; the events are those of the schedule, each chooses as it should, and each that does something is one structured step |
| ChpMain.ObeysActs | chpsim.cc:1541-1592 | in a simulation no event at a selection passes over a true guard, and no event at a loop does nothing |
| ChpDestroy.DeleteLay | chpgraph.cc:2277-2372 | deleting the first node of a statement frees all its nodes and then acts on the continuation, as if they had been gone before |
| ChpDestroy.DestroyAll | chpgraph.cc:2277-2372 | deleting the entry of any compiled graph terminates, touches no freed node, and frees every node exactly once |
| ChpDestroy.Destructor.Destroy | chpgraph.cc:2277-2372 | the recursive destructor with `wait` as mark and as count does in place what `Delete` says |
| Channel.ChannelState.VarSend | chpsim.cc:1746-1841 | a send in place: wake-up, receiver waiting, receiver probing, or blocking |
| Channel.ChannelState.VarRecv | chpsim.cc:1969-2062 | a receive in place: wake-up, sender waiting, sender probing, or blocking |
| Channel.ChannelState.CollectProbe | chpsim.cc:573-680 | starting and ending the wait on a probe of either end |
| Rendezvous.StepInv | chpsim.cc:1746-2062 | every event in every state of the invariant: no assertion of the handshake fails and the invariant stays |
| Rendezvous.Lossless | chpsim.cc:1746-2062 | under any arrival order and any delay of wake-ups the k-th receive gets the k-th sent value, the k-th bidirectional send the k-th receive's value, and `count` is the number of completed sends |
| Rendezvous.NoLostWakeup | channel.h:94-98 | a blocked end is recorded or has exactly one wake-up pending; an end waiting on its probe is recorded until its partner comes, and has exactly one wake-up pending from then on, unless its partner was there before; both ends never wait for each other |
| Rendezvous.ArrivalWakes | chpsim.cc:1808-1815 | in every reachable state the arrival of its partner leaves an end recorded as probing with exactly one wake-up pending, for both ends |
| Rendezvous.PeekIsNext | chpsim.cc:2097-2107 | the value peeked while a sender waits is the one the next receive returns at once |
| Rendezvous.ProbeIsPartner | chpsim.cc:2109-2119 | a probe is true exactly when the other end is blocked and not yet served |
| ChanMethods.Compiler.Compile | channel.cc:289-402 | the code appended at any position is the code of the program for that position |
| ChanMethods.Compiler.CompileSelection | channel.cc:330-381 | guard tests chained forward and the last back to the first, every jump behind an alternative to the closing skip |
| ChanMethods.Compiler.Patch | channel.cc:369-380 | the back-patching loop visits each guard once, stops, and sets every jump to the closing skip |
| ChanRun.RunMethod | channel.cc:433-540 | the interpreter loop computes the outcome of the code: the position to resume at, or done |
| ChanRun.RunIsExec | channel.cc:449-539 | from any position it may resume at, the interpreter does what the structured programs left there do, and stalls exactly when a selection has no true guard, at its first test |
| ChanRun.CompiledRuns | channel.h:100-137 | a compiled method run from its start behaves as the structured program |
| ChanRun.Terminates | channel.cc:449-539 | on compiled code every jump that is followed goes forward, so the interpreter ends from any position and state |
| Fragment.EightBits | channel.h:64-65 | the eight-bit resume position is faithful for all environments, positions and stores if and only if no selection that may wait starts at or beyond 0xff |
| FragmentBits.StartBits | channel.h:64-65 | the same for calls that start a method, when each guard is an expression of its own: every selection that may wait is then reached from the start for some values of the guards |
| Fragment.WaitLost | chpsim.cc:1714-1716 | a method with 255 steps before a selection: its wait is taken for the end of the method |
| Fragment.DriveIsExec | chpsim.cc:1692-1745 | one call of a fragmented operation performs what is left of its methods and is blocked exactly when they wait |
| Fragment.ProtocolOnce | chpsim.cc:1655-1745 | across any number of stalls and changes of the store an operation runs its three methods in order, each once from start to end, comes back to rest, and a send counts once |
| Fragment.FlavoredHalves | chpsim.cc:1655-1745 | with flavors the first operation runs the first two methods and the second the third, and a send counts in both |
| Fragment.ResetThenOnce | chpsim.cc:1671-1688 | an operation started in reset mode is begun once and blocks through reset; the calls after it do what an operation from rest does after it has begun |
| Fragment.FragmentEnd.Call | chpsim.cc:1881-1968 | one call in place, with start, reset mode and flavor, is the operation the theorems are about |
| PrsRules.ConvertMeans | prssim.cc:411-601 | a converted expression means the expression, and the negated conversion exactly its three-valued negation, labels included |
| PrsRules.ConvertFlips | prssim.cc:411-601 | the third conversion negates the leaves, constants included, and nothing else |
| Logic3.TablesExact | prssim.cc:881-889 | the three tables give 0 or 1 exactly when the two-valued operation does so however unknown arguments turn out |
| PrsRules.EvalMonotone | prssim.cc:880-950 | a definite value of a network stays however its unknown inputs turn out |
| PrsRules.NetsMean | prssim.cc:603-725 | after any rules for a node each of its four networks is the `or` of what each rule contributes to it |
| PrsRules.PrsSimGraph.AddOneRule | prssim.cc:621-725 | a rule is merged into the statement of its node, found or made, and no other node changes |
| PrsSim.UnknownSound | prssim.cc:1252-1403 | if a node heads for a definite value, driven or held, it heads for it however unknown inputs turn out, for all strong and weak rules |
| NodeRuns.TableExact | prssim.cc:1320-1403 | a node heads for 0 or 1 if and only if its two pulls resolve to it (none: hold, one: follow, both: the stronger) however they turn out |
| NodeRuns.Holds | prssim.cc:1320-1325 | a node pulled neither way keeps its value |
| NodeRuns.NetworksExact | prssim.cc:1252-1403 | it heads for 0 or 1 if and only if its four networks take it there however unknown ones turn out, strong before weak; this holds if and only if no weak network is masked |
| PrsSim.CombinationalNode | prssim.cc:679-691 | a node with one combinational rule never pulls both ways and heads for its expression whatever it is now |
| PrsSim.PropagatedIsDriven | prssim.cc:1271-1403 | after an input change a pending 1 is pulled up, a pending 0 pulled down, and a node that heads elsewhere has that value pending |
| NodeRuns.InputChange | prssim.cc:1271-1403 | exactly what an input change schedules, keeps and withdraws, in terms of the value the node heads for and of a pending transition having become unstable |
| PrsSim.CleanUpAgrees | prssim.cc:1055-1084 | the clean-up after a node became X drives it exactly where the decision table does |
| PrsSim.UnknownIsCleanedUp | prssim.cc:1022-1084 | a node that became X with nothing else pending is sent to the definite value it heads for, if any |
| NodeRuns.EventDone | prssim.cc:1022-1084 | exactly what an event leaves pending, accepted or refused: another transition keeps its flag, else nothing, or the clean-up of an X |
| NodeRuns.FreshAfterEvent | prssim.cc:1029-1036 | the input change after an event to 0 or 1 schedules what the node then heads for, and nothing if it holds |
| NodeRuns.FreshAfterFlush | prssim.cc:1667-1673 | the same after a pending transition has been withdrawn |
| NodeRuns.FollowsExactly | prssim.cc:1022-1403 | throughout a run of input changes and events a node with nothing pending has the value it heads for, and a pending 0 or 1 is that value, if and only if no input change overtakes a pending transition |
| NodeRuns.OvertakenEnds | prssim.cc:971-994 | a node that has been overtaken moves to a value it does not head for and stays there with nothing pending |
| NodeRuns.RatioedOvertaken | prssim.cc:1358-1366 | a weak pull-up overtaken by a strong pull-down: the node ends at 1 |
| PrsSim.OnePrsSim.Propagate | prssim.cc:1252-1403 | flags and event of a node after an input change, in place, are those `InputChange` is about |
| PrsSim.OnePrsSim.FlushPending | prssim.cc:1667-1673 | what a gate has pending is withdrawn |
| PrsSim.OnePrsSim.Step | prssim.cc:1022-1084 | flags and event of a node after its event, in place, are those `EventDone` is about |
| DelayTable.LookupAnswers | prssim.h:59-77 | after any calls a key has the delay its own calls give it, and an unknown key the largest delay, or -1 for an empty table |
| DelayTable.GateDelay.constructor | prssim.h:163-167 | a new table holds no entry |
| DelayTable.GateDelay.Lookup | prssim.h:59-77 | the loop over the pairs finds the key's delay, else the largest |
| DelayTable.GateDelay.AddDelay | prssim.h:79-111 | adding keeps the largest delay of a key, in place or in a table grown by two entries |
| DelayTable.GateDelay.IncDelay | prssim.h:116-145 | incrementing adds to a key's delay, in place or in a table grown by two entries |
| Threaded.WalkVisitsAll | constraints.cc:490-504 | following a signal's links from its head ends and meets exactly the objects that mention it, each once |
| Threaded.Register | constraints.cc:100-112 | linking a new object in front of the lists of its signals keeps all lists right |
| SimState.MutualExclusion | state.cc:127-162 | from all-X, after any accepted and refused calls, every high group has at most one 1 and every low group at most one 0 |
| SimState.AcceptedExactly | constraints.cc:139-216 | without the random exclusion a change is accepted if and only if every other node of a group of that direction is at the opposite value, to unknown always; the random exclusion can refuse only a node in such a group |
| SimState.ActSimState.constructor | state.cc:26-43 | every boolean starts unknown and not special |
| SimState.ActSimState.GetBool | state.cc:113-125 | the value in the packed bits |
| SimState.ActSimState.SetBool | state.cc:127-162 | accepted exactly when all other nodes of the groups in that direction are at the opposite value; refused calls change nothing; special bits never change; exclusion is kept; what other nodes of those groups have pending is withdrawn; each timing fork of the signal is told once |
| SimState.ActSimState.SafeChange | constraints.cc:139-217 | one walk over the linked groups decides acceptance; if accepted, a second withdraws what the other nodes of each group have pending, and nothing else |
| SimState.RivalsQuiet | constraints.cc:169-216 | after a node has been set, every other node of its groups in that direction is at the opposite value and has nothing pending |
| SimState.OthersUndisturbed | constraints.cc:169-216 | a node that shares no group of that direction keeps what it has pending |
| SimState.ActSimState.AddExcl | core.cc:2079-2089 | the group enters the table of its direction, behind those that are there, unless it lists a node twice; the other table stays, and its nodes become special |
| SimState.ExclTable.HasDuplicate | constraints.cc:73-88 | whether a node is listed twice |
| SimState.ExclTable.Add | constraints.cc:62-113 | registration threads the group in front of the lists of its nodes |
| SimState.ActSimState.AddTimingFork | core.cc:2043-2074 | a fork is registered unless an equal one is, and its signals become special |
| TimingFork.MonitorReports | constraints.cc:422-487 | an edge is reported exactly when it is the first violation since the last root edge: margin 0, an `a` after a `b`; margin above 0, an `a` when the first edge was `b`, or a `b` less than the margin after the last `a` when the first was `a` |
| TimingFork.ForkEdge | constraints.cc:434-486 | one edge keeps the state machine an exact summary of the history |
| TimingFork.ActTimingConstraint.UpdateSignal | constraints.cc:422-487 | the state machine of one fork, in place |
| TimingFork.ForkTable.IsDup | constraints.cc:600-613 | the walk along the root's list finds an equal fork exactly when there is one |
| TimingFork.ForkTable.Add | constraints.cc:544-625 | a fork is linked at the first place of each signal, no two registered forks are equal in root, ends and margin |
| TimingFork.DroppedExactly | constraints.cc:507-514 | a fork that is dropped as equal to a registered one would have reported the same, on all histories, if and only if the same edges of the three signals matter to both |
| TimingFork.ForkTable.UpdateAll | state.cc:139-143 | following the links updates every fork that mentions the signal once and no other |
| Buffer.Buffers.Create | simlib/src/buffer.cc:40-61 | a new empty queue behind the others, whose index is the answer; the others are kept |
| Buffer.Buffers.Push | simlib/src/buffer.cc:69-98 | pushing appends to one queue, or fails for an unknown buffer |
| Buffer.Buffers.Empty | simlib/src/buffer.cc:106-134 | an unknown buffer is shown as empty |
| Buffer.Buffers.Pop | simlib/src/buffer.cc:142-176 | popping takes the oldest value, or gives 0 for an unknown or empty buffer |
| Buffer.Fifo | simlib/act/util.act:186-237 | in every interleaving of the two assignments, the two loops and other instances the consumer never pops an empty queue, what was sent is a prefix of what was received, and what was received is what was sent and then what is inside, in order |
| Buffer.FlagAgrees | simlib/act/util.act:213-234 | in every interleaving, once the loops may start: the flag says whether the queue is empty, whenever the consumer is at its guard and the feeder not between push and update |
| Buffer.Drains | simlib/act/util.act:191-236 | no value is stuck: from every reachable state steps of the two loops alone, with nothing more received, send all that was received |
| Buffer.OthersKept | simlib/src/buffer.cc:31-60 | over any run the process leaves all queues but its own alone |

## Left out

- ChpTheorems.StepRefines: event order and delays are not modelled; any slot may be stepped at any time, which allows every order the event queue can produce and more.
- ChpLang.MaxProgramCounters: HSE fragments and the limit on the number of event types are not modelled.
- ChpBuilder.Builder.Build: HSE fragments, labels, and delay, energy and statistics fields are not modelled; lists are non-empty and `else` is last, as the parser guarantees; nodes are indices into one growing sequence, as they are never shared between graphs.
- ChpStep.ActCase: assignments, sends, receives and function calls are opaque functions of the store in the CHP model; the store they share, and what a blocked action does to it, is not restricted.
- ChpSequential.SameResult: for actions that complete with one store however often they are tried, which ChpSequential.DeterministicExactly shows to be needed, and without nondeterministic selections; ChpComplete.SameFinalStores covers every program.
- ChpMachine.Simulator.Step: reset mode, the infinite-loop option (which gives up a program counter without its slot), watchpoints, statistics and energy are not modelled.
- ChpMachine.Choose: the warning for several true guards of a deterministic selection is not modelled; the first is taken, as the code does.
- ChpDestroy.DestroyAll: the memory of expressions and statements inside a node is not modelled.
- Debug commands that change program counters from outside (`jumpTo`, `reStart`, `skipChannelAction`, `awakenDeadlockedGC`).
- Rendezvous.Lossless: one thread per end and at most one probing end, as the code aborts otherwise; `WaitForOne` is taken to schedule one wake-up event per notification; a thread woken from a probe by another cause has its wake-up from this channel withdrawn, as the code does for shared variables.
- Channel.ChannelState.VarSend: the debug option to skip a communication, structure-valued data and the non-fragmented use of flavors are not modelled.
- ChanMethods.Compiler.Compile: constructs that the compiler ignores with a warning, such as loops, emit nothing.
- FragmentBits.StartBits: a guard that occurs twice in one method can make a waiting selection unreachable; then only the condition of `Fragment.EightBits`, which quantifies over all positions, is exact.
- Fragment.ProtocolOnce: for methods within the bound of `Fragment.EightBits`; resumed calls are wake-ups, and the warning for a channel fragmented at both ends is not modelled.
- PrsRules.ConvertFlips: labels under the third conversion are left out; the source marks that case as doubtful.
- NodeRuns.FollowsExactly: for a node in no exclusion group, with one event outstanding at a time.
- PrsSim.OnePrsSim.Propagate: delays, hazards and warnings are not modelled; a second transition scheduled over an older one leaves the older event in the queue, which the model does not keep.
- DelayTable.GateDelay.AddDelay: delays are unbounded integers; the fixed delay and the table share storage in the source and are separate here, so using one as the other is not modelled. A key equal to the marker value is excluded.
- SimState.ActSimState.SetBool: the optional exclusion monitors are not modelled.
- SimState.ActSimState.SafeChange: the driver of a node is its scheduling state, one for each node; the draw of the optional random exclusion is an arbitrary answer.
- SimState.ActSimState.AddExcl: groups are registered while all booleans are unknown, as the simulator does; an empty list is excluded, because the source leaves such an object uninitialised.
- TimingFork.MonitorReports: for forks of three different signals and outside reset mode; the linked lists allow repeated signals.
- Buffer.Fifo: a send or receive on a channel of the process is one step; the assertion on the result of a push and the log messages are not modelled.
- Drivers shared by several processes, pass gates and transmission gates.
- Floating point, delays and energy from configuration, logging, traces, SDF matching, random numbers, files and co-simulation.
