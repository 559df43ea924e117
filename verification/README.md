# K3: verified models of the parallelising pass, the engine, the constraint system and the interpreter

K3 is a small distributed language. This project models the parts of its Haskell implementation whose
correctness is least visible in the code, together with the two leader-election programs shipped with it, and
proves what they are for. `dafny verify dfyconfig.toml` checks everything.

| files | subject |
|---|---|
| `Conflicts`, `Labels`, `Tasks`, `Cohorts`, `Dispatch`, `Pass` | the parallelising pass: access and conflict labels from neighbouring runs of accesses, splitting a trigger body into tasks, grouping tasks into cohorts, the rewritten program that passes a trigger's message on to its tasks, and the pass as a whole |
| `Queues`, `EngineProtocol`, `Idleness`, `Shutdown`, `Race`, `Drained`, `Snapshot`, `Stopping`, `Cleanup` | the message engine: queue layouts, enqueue and dequeue, the worker loop with its sample variables and counters as a state machine of atomic steps, and the shutdown test: with one worker, when it is right with several, a variant that reads it in one step, and requests to stop, errors and listeners |
| `Ring`, `LCR`, `CountPeer` | the two leader elections, peers exchanging messages over per-peer FIFO queues in any interleaving |
| `FileSource` | a file endpoint with its one-element buffer, and the generated controller that feeds the bound triggers |
| `Types`, `Within`, `Closure`, `Chains`, `Consistency`, `Repair` | the constraint-based type system: containment of constrained types, closure under the eleven rules and what it must contain, the consistency check and what it accepts, and which of its complaints added constraints can remove |
| `Environments`, `Interp`, `Captures`, `Fragment` | the interpreter, its environment discipline and captures, and the part of it that the pass works on |
| `Meaning`, `Transparency`, `Lookups`, `Laws`, `Lets` | meaning without fuel, bindings that do not show, and laws of the language |
| `LetRewrite`, `LetLimits`, `AssignDesugar` | the rewrite of applied lambdas into lets with the inputs it changes, and the desugaring of `a.b.c = e` |
| `Options`, `Scalars`, `ScalarLaws`, `Decimals`, `Graphs` | shared vocabulary: absent values, 64-bit scalars and operators with their laws, numbers in names, paths in a graph |

## What was found

- Conflicts between *neighbouring* runs of accesses suffice: they connect exactly the tasks that chains of
  clashes connect (`Cohorts.AdjacentIsEnough`), and cohorts run in parallel give the same globals under every
  interleaving (`Cohorts.InterleavingsAgree`). Together with the dispatch of messages this makes the whole pass
  correct: the parallel program leaves the globals that the original triggers leave one after the other
  (`Pass.ParallelEqualsSequential`).
- Rewriting an applied lambda into a let is not meaning-preserving in general. It is when arguments are tame (they
  apply only lambdas on the spot, and neither assign nor write back by a bind a name the lambda may capture) and the
  captured names of the remaining lambdas are unchanged (`LetRewrite.RewritePreserves`), which holds when no
  argument mentions the parameter it is passed to (`LetRewrite.SafeIsRewritable`). Each condition is needed:
  `LetLimits.AssigningArgumentTellsApart`, `CallingArgumentTellsApart`, `BindingArgumentTellsApart` and
  `LostCaptureFails` are inputs on which the two programs differ. The last one rests on `freeVariables` hiding a let's
  name in the expression it is bound to (`src/Language/K3/Core/Expression.hs:187`), so a lambda around such a let
  captures too little.
- The assignment `x.f1...fn = e` does what assigning in place would do, for every e that does not name one of the
  generated names, whatever it calls, assigns or binds (`AssignDesugar.AnyFieldAssignment`). Where e does name one,
  it sees the binding (`AssignDesugar.GeneratedNameShows`).
- `mutuallyWithin` asks for *one* variable map that serves both directions
  (`Within.MutuallyWithinIsOneMap`); its comment promises structural equivalence. Two constrained types that are
  within each other can be rejected when their variables overlap (`Within.WithinBothWaysIsNotMutual`); with
  disjoint variables the two notions agree (`Within.DisjointMutuallyWithin`).
- Closure terminates and is least on every constraint set, opaque variables included. Added constraints can make an
  inconsistent closure consistent only when all that is wrong is missing bounds: an opaque variable without a
  bound, or with one bound that lacks a type on a side (`Repair.OnlyMissingIsRepaired`). For each variable by
  itself that is exact (`Repair.RepairableIffMissing`); for all of them together it is not enough
  (`Repair.MissingMayBeBeyondRepair`).
- The shutdown test reads three shared values in separate steps, and with several workers it can fire too early.
  Without outside senders, listeners, errors or a request to stop after one message, no run shuts down over
  unfinished work exactly when at most one worker can be sent messages and, if the engine may be asked to finish all
  work without waiting for its network, that worker is alone or nobody is sent anything
  (`Drained.DrainsExactlyWhenSafe`). So one worker per peer drains exactly when there are no two peers or no triggers
  (`Drained.PeerWorkersDrain`), and one worker for all peers always does (`Drained.SingleWorkerDrains`).
- There are two ways to fail, each on every layout that has the workers for it. Between the reads a second worker can
  send messages and fall idle (`Race.TwoReceiversShutDownUndrained`); taking the reads in one step removes this
  (`Snapshot.SnapshotShutdownIsDrained`). And a request to finish lets a worker without messages leave, the last one
  alive, before the owner of the messages has started (`Race.FinishAllShutsDownUndrained`).
- A leaving worker lowers the counter of live workers and reads it in separate steps. Without errors somebody always
  cleans up (`Stopping.SomebodyCleansUp`), but two workers that leave together both do: the clean-up happens at most
  once in every run exactly when there is at most one worker (`Cleanup.OnceExactlyWhenAlone`).
- `getNewProgram` matches tasks by name prefix. A message reaches exactly the tasks of its own trigger if and only
  if no group mixes tasks of a trigger with tasks of a longer-named one that it starts
  (`Dispatch.DeliveredToOwnTasks`); `Dispatch.PrefixedNameMisdelivers` is the failing family.
- Conflicts are put down to tasks by the identifiers of the accesses. Were all of them the dummy identifier, every task
  but the first would be a cohort of its own, whatever it clashes with (`Cohorts.DummyLabelsSeparateAll`).
- The consistency check accepts exactly the opaque-free sets each of whose constraints is satisfiable by itself, except
  that it overlooks qualifier sets neither of which contains the other (`Consistency.CheckIsExact`).
- Plain LCR need not end, but it falls silent only when the largest peer leads and everybody has recorded it
  (`LCR.QuietRingHasElected`).
- With a worker per peer, each queue has one owner exactly when no address is deployed twice
  (`Queues.PeerQPeerWSound`).
- A file source stops at the first line that does not decode, because the buffer is then empty
  (`FileSource.DeliveredWhenQuiet`).

## How the source is modelled

- The interpreter and the queue configuration are classes whose methods update fields and are proved against
  specification functions (`Interp.Interpreter`, `Queues.QueueConfiguration`, `FileSource.FileEndpoint`); each
  trigger of the election programs is a method of a `Peer` class that states what the trigger does for the election
  and takes the step of the handler function that the runs of the system are about. The engine is a state machine with a program counter per worker and per
  sender; each access to a shared variable is one step.
- Passes over trees and lists are functions. Functions modelled and where they come from:
  `Conflicts.Accesses` (`src/Language/K3/Transform/Conflicts.hs:330-345`), `GroupMap` (461-483), `CombineReads` (485-500),
  `BuildConflicts` (514-543), `NodeConflicts` (316-328); `Tasks.SplitSeq` (274-278); `Cohorts.Edges` and
  `GroupTasks` (147-250); `Dispatch.GetMessage` and `DispatchOver` (70-144); `Pass.TasksOfTrigger` (252-278); `Within.Align` and `Deduct`
  (`src/Language/K3/TypeSystem/Within.hs:98-131`, 147-274); `Closure.Learned` and its rules
  (`src/Language/K3/TypeSystem/Closure.hs:24-182`); `Consistency.CheckConsistent`
  (`src/Language/K3/TypeSystem/Consistency.hs:91-200`); `Interp.Eval` (`src/Language/K3/Interpreter.hs:238-257`, 411-645),
  `Interp.FreeVariables` (`src/Language/K3/Core/Expression.hs:181-193`); `LetRewrite.Rewrite`
  (`src/Language/K3/Codegen/Imperative.hs:66-83`); `AssignDesugar.MkAssign` (`src/Language/K3/Parser.hs:701-715`);
  `EngineProtocol.NextPc`, `Effect` and `Do` (`src/Language/K3/Runtime/Engine.hs:580-811`, 969-1016).
- The pass is about a smaller evaluator without fuel, calls or binds, which is the interpreter on that fragment
  (`Fragment.EvaluatorsAgree`).
- Evaluation is indexed by fuel, and running out of fuel is an outcome of its own; `Interp.MoreFuel` shows that
  fuel bounds nothing else, and `Meaning.Means` is the outcome with fuel enough, about which the laws are.
- Lists of alternatives are sets: the maps returned by the containment test, the constraints learned by a rule and the
  conflicts of a node. Order and repetition of such lists are not observable in what is proved.
- A failing capture and a failing variable lookup raise the same error text in the interpreter; they are kept apart here,
  because the let rewrite can only remove the first.

## Model

| member | source | states |
|---|---|---|
| `Conflicts.SeqLabelledIffClash` | src/Language/K3/Transform/Conflicts.hs:316-328 | a sequence node gets a conflict label if and only if one side writes a variable that the other reads or writes |
| `Conflicts.GroupMapSpec` | src/Language/K3/Transform/Conflicts.hs:461-483 | the grouped map holds, for every variable, exactly its accesses, in order, each tagged with its child |
| `Conflicts.CombineReadsShape` | src/Language/K3/Transform/Conflicts.hs:485-500 | the runs flatten back to the list of accesses; each is one write or reads only, and no two read runs are neighbours |
| `Conflicts.ConflictsGenuine` | src/Language/K3/Transform/Conflicts.hs:514-543 | every reported conflict has a write on one side, a different child on the other, and the same list of accesses behind both |
| `Conflicts.AdjacentConflictsConnect` | src/Language/K3/Transform/Conflicts.hs:485-543 | for a variable written somewhere, the conflicts between neighbouring runs link the owners of any two of its accesses |
| `Conflicts.LabelsPresent` | src/Language/K3/Transform/Conflicts.hs:514-543 | a variable that is written and accessed from two children leaves at least one conflict |
| `Labels.AccessesExact` | src/Language/K3/Transform/Conflicts.hs:330-345 | the labels of an expression are the reads of its variables and the writes of its assignments, each with the identifier of its node |
| `Labels.TraceIsLabelled` | src/Language/K3/Transform/Conflicts.hs:330-345 | the variables an evaluation looks up and assigns, in the order in which it does, are among the labels in their order |
| `Labels.BranchlessTrace` | src/Language/K3/Transform/Conflicts.hs:330-345 | without branches a successful evaluation makes exactly the labelled accesses, in order |
| `Tasks.EvalChanges` | src/Language/K3/Interpreter.hs:590-593 | evaluation keeps the names of the environment and changes only bindings of names the expression assigns |
| `Tasks.EvalDepends` | src/Language/K3/Transform/Conflicts.hs:330-345 | evaluation depends only on bindings of names that carry an access label |
| `Tasks.IndependentCommute` | src/Language/K3/Transform/Conflicts.hs:254-278 | two tasks without a clash commute, whatever their parameters and messages, failures included |
| `Tasks.SeqIsTwoTriggers` | src/Language/K3/Transform/Conflicts.hs:274-278 | running an unlabelled sequence is running its two sides as two triggers on the same message |
| `Tasks.PermutedRunsAgree` | src/Language/K3/Transform/Conflicts.hs:254-278 | pairwise independent events leave the same globals in every order |
| `Tasks.SplitInOrder` | src/Language/K3/Transform/Conflicts.hs:274-278 | the tasks, run in the order they are listed, do what the undivided body does |
| `Tasks.SplitGoesAllTheWay` | src/Language/K3/Transform/Conflicts.hs:274-278 | from the root down the left, every sequence whose sides do not clash gives its right side as a task, in order, and the last task is the first node where the cutting has to stop: not a sequence, or one whose sides clash |
| `Tasks.AnyOrderEqualsBody` | src/Language/K3/Transform/Conflicts.hs:254-278 | the tasks of a trigger, run in any order, leave the globals as the undivided body does, and fail exactly when it fails |
| `Cohorts.EdgeIsClash` | src/Language/K3/Transform/Conflicts.hs:168-196 | every edge of the conflict graph joins two tasks one of which writes what the other uses |
| `Cohorts.ClashIsConnected` | src/Language/K3/Transform/Conflicts.hs:283-297 | two clashing tasks are joined by a path of edges found from neighbouring runs |
| `Cohorts.AdjacentIsEnough` | src/Language/K3/Transform/Conflicts.hs:147-250 | the graph of neighbouring-run conflicts connects exactly what the graph of all clashes connects |
| `Cohorts.CohortsPartition` | src/Language/K3/Transform/Conflicts.hs:238-250 | the cohorts are disjoint, nonempty and cover all tasks |
| `Cohorts.CohortsExact` | src/Language/K3/Transform/Conflicts.hs:147-250 | two tasks share a cohort if and only if a chain of clashing tasks links them |
| `Cohorts.CohortsIndependent` | src/Language/K3/Transform/Conflicts.hs:147-250 | tasks of different cohorts share no variable that either writes |
| `Cohorts.DummyLabelsSeparateAll` | src/Language/K3/Transform/Conflicts.hs:355-360 | when all accesses carry the dummy identifier, no two tasks share a cohort, whatever they clash about |
| `Cohorts.InterleavingsAgree` | src/Language/K3/Transform/Conflicts.hs:41-43 | two interleavings that hand every cohort the same messages in the same order leave the same globals |
| `Dispatch.DeliveriesExact` | src/Language/K3/Transform/Conflicts.hs:87-144 | provided every group with a task whose first word is the trigger's name also has a task with that prefix: a message reaches, in exactly the groups with such a first word, each task with the prefix, with the trigger's argument |
| `Dispatch.FirstWord` | src/Language/K3/Transform/Conflicts.hs:24-28 | the trigger a task belongs to is the word between leading underscores, if any, and the next underscore |
| `Dispatch.OneComponentCarries` | src/Language/K3/Transform/Conflicts.hs:106-112 | a group message has a component for each trigger of the group, and only that of the sending trigger carries the argument |
| `Dispatch.DeliveredToOwnTasks` | src/Language/K3/Transform/Conflicts.hs:46-144 | a message reaches exactly the trigger's own tasks if and only if no group mixes them with tasks of a longer-named trigger |
| `Dispatch.PrefixFreeIsSafe` | src/Language/K3/Transform/Conflicts.hs:64-68 | no trigger name being a prefix of another is enough for that, for every grouping |
| `Dispatch.EachTaskOnce` | src/Language/K3/Transform/Conflicts.hs:46-144 | when the groups list every task once, each task of the trigger is sent the argument once and every other task never |
| `Dispatch.PrefixedNameMisdelivers` | src/Language/K3/Transform/Conflicts.hs:84-85 | when one trigger's name starts another's and their tasks share a group, the first one's argument reaches the other's task |
| `Pass.OneCall` | src/Language/K3/Transform/Conflicts.hs:46-144 | handing one message to all groups in turn leaves the globals that the undivided trigger leaves |
| `Pass.HandedInOrder` | src/Language/K3/Transform/Conflicts.hs:106-144 | in the schedule that hands out one message after the other, every cohort receives what its own dispatcher hands it, in order |
| `Pass.HandedInterleaves` | src/Language/K3/Transform/Conflicts.hs:106-144 | that schedule is one of the interleavings the next row is about, so there are such interleavings |
| `Pass.ParallelEqualsSequential` | src/Language/K3/Transform/Conflicts.hs:41-144 | for any messages to the original triggers and any interleaving in which each cohort gets what its dispatcher hands it, the globals end up as the undivided triggers, run one message after the other, leave them, failures included |
| `Fragment.EvaluatorsAgree` | src/Language/K3/Interpreter.hs:520-645 | with fuel for its depth, an expression of the fragment has the same value and environment, or fails, in the interpreter and in the evaluator the pass is proved about |
| `Fragment.TriggersAgree` | src/Language/K3/Interpreter.hs:520-645 | running a trigger on one message is evaluating its body in the interpreter's scope of the parameter |
| `Queues.SingleQSingleWSound` | src/Language/K3/Runtime/Engine.hs:454-466 | one queue and one worker: every message has a queue and every queue one owner |
| `Queues.PeerQSingleWSound` | src/Language/K3/Runtime/Engine.hs:468-481 | a queue per peer and one worker: the same |
| `Queues.PeerQPeerWSound` | src/Language/K3/Runtime/Engine.hs:483-496 | a queue and a worker per peer: the same, if and only if no address is listed twice |
| `Queues.TriggerQTriggerWSound` | src/Language/K3/Runtime/Engine.hs:498-510 | a queue and a worker per trigger of each peer: the same, if and only if no address and no trigger is listed twice or one of the lists is empty |
| `Queues.PeerSharesOneQueue` | src/Language/K3/Runtime/Engine.hs:454-496 | in every layout but the per-trigger one all triggers of a peer share one queue |
| `Queues.RoutedTargets` | src/Language/K3/Runtime/Engine.hs:454-510 | in every layout exactly the messages to a deployed peer and a declared trigger have a queue |
| `Queues.PeerWorkerGetsOwn` | src/Language/K3/Runtime/Engine.hs:483-496 | with a worker per peer, worker i owns the queue of a message if and only if it is addressed to peer i |
| `Queues.PeerQueueGetsOwn` | src/Language/K3/Runtime/Engine.hs:468-481 | with one worker and a queue per peer, a message goes to the i-th queue if and only if it is addressed to peer i |
| `Queues.TriggerWorkerGetsOwn` | src/Language/K3/Runtime/Engine.hs:498-510 | with a worker per trigger, worker i * n + j owns the queue of a message if and only if it is for trigger j of peer i, n being the number of triggers |
| `Queues.MkDequeueSpec` | src/Language/K3/Runtime/Engine.hs:997-1016 | nothing is taken if and only if all the worker's queues are empty; otherwise the head of the first of them that is not, and nothing else changes |
| `Queues.QueueConfiguration.Append` | src/Language/K3/Runtime/Engine.hs:969-995 | one message goes to the end of the queue it is routed to, all other queues stay, and the owner to notify is the worker that lists the queue, once workers are configured |
| `Queues.QueueConfiguration.Dequeue` | src/Language/K3/Runtime/Engine.hs:997-1016 | the worker gets the head of the first of its own queues that holds anything, which loses that head; it gets nothing exactly when all of them are empty |
| `Queues.FirstMessage` | src/Language/K3/Runtime/Engine.hs:846-856 | whether it is enqueued before the workers are configured or after, a message reaches the one worker that owns its queue, unchanged |
| `EngineProtocol.NoLostWakeup` | src/Language/K3/Runtime/Engine.hs:699-715 | in every reachable state, a worker that has found its queues empty and owns a nonempty queue has its sample variable full or a sender between append and notify |
| `EngineProtocol.WaitingWorkerCanMove` | src/Language/K3/Runtime/Engine.hs:761-773 | once all senders are through, a waiting worker with a message is enabled |
| `EngineProtocol.NothingLostOrRepeated` | src/Language/K3/Runtime/Engine.hs:969-1016 | what was enqueued on a queue is, in order, what its one owner has taken followed by what is still queued; other workers take nothing from it |
| `Shutdown.SoloShutdownIsDrained` | src/Language/K3/Runtime/Engine.hs:730-810 | with a single worker the engine shuts down only when every queue is empty and everything enqueued has been processed, in order and once |
| `Shutdown.SoloNeverBlocks` | src/Language/K3/Runtime/Engine.hs:730-810 | until then the worker, or the send it is in the middle of, always has an enabled step |
| `Shutdown.SoloStepsBounded` | src/Language/K3/Runtime/Engine.hs:730-810 | after the last append the single worker makes at most five steps per queued message and 26 more, whatever happens in between |
| `Shutdown.SoloShutsDown` | src/Language/K3/Runtime/Engine.hs:730-810 | once the engine is set up, the worker's own steps alone lead from any reachable state to the clean-up, within that many steps and with every queue empty |
| `Race.TwoReceiversShutDownUndrained` | src/Language/K3/Runtime/Engine.hs:785-792 | in every sound layout, for any two workers that can be sent messages, some run shuts down with a message of one of them still queued |
| `Race.FinishAllShutsDownUndrained` | src/Language/K3/Runtime/Engine.hs:751-759 | asked to finish, and not waiting for its network, an engine with a second worker can shut down before the worker that owns the messages has started |
| `Drained.OneReceiverDrains` | src/Language/K3/Runtime/Engine.hs:730-810 | when only one worker can be sent messages, whichever worker shuts the engine down, every queue is empty and everything enqueued has been processed once, in order |
| `Drained.DrainsExactlyWhenSafe` | src/Language/K3/Runtime/Engine.hs:730-810 | without outside senders, listeners, errors or a stop after one message: no run shuts down over unfinished work if and only if at most one worker can be sent messages and, if the engine may be asked to finish without waiting for its network, that worker is alone or nobody is sent messages |
| `Drained.SingleWorkerDrains` | src/Language/K3/Runtime/Engine.hs:454-481 | the two layouts with one worker always drain |
| `Drained.PeerWorkersDrain` | src/Language/K3/Runtime/Engine.hs:483-496 | the layout with a worker per peer drains if and only if there are no two peers or no triggers |
| `Snapshot.SnapshotShutdownIsDrained` | src/Language/K3/Runtime/Engine.hs:785-792 | variant in which the three reads of the test are one step: with any number of workers the engine shuts down only when every queue is empty and everything enqueued has been processed once, in order, by its owner |
| `Snapshot.UndisturbedTest` | src/Language/K3/Runtime/Engine.hs:785-792 | where nobody else moves in between, the engine's separate reads and its verdict are the variant's one step |
| `Stopping.AtMostOneMore` | src/Language/K3/Runtime/Engine.hs:735-749 | asked to stop after one message and not waiting for the network, no worker takes more than one message more, and none if it is processing one |
| `Stopping.NoMoreSleep` | src/Language/K3/Runtime/Engine.hs:751-759 | asked to stop and not waiting for the network, a busy worker never goes to sleep again |
| `Stopping.ErrorEndsWorker` | src/Language/K3/Runtime/Engine.hs:750-750 | a worker whose handler reports an error takes no further message |
| `Stopping.ListenersKeepWorkers` | src/Language/K3/Runtime/Engine.hs:626-645 | while a listener is up, nobody leaves without an error, as long as the engine waits for its network or nobody asks it to stop |
| `Stopping.LiveIsCounted` | src/Language/K3/Runtime/Engine.hs:657-668 | in every run the live counter is the number of workers that have started and not left |
| `Stopping.LastOneCleansUp` | src/Language/K3/Runtime/Engine.hs:738-760 | a leaving worker goes on to the clean-up if and only if no worker is live any more |
| `Stopping.SomebodyCleansUp` | src/Language/K3/Runtime/Engine.hs:738-760 | without errors, when all workers are over at least one is at the clean-up |
| `Cleanup.TwoCleanUp` | src/Language/K3/Runtime/Engine.hs:753-760 | in every layout, for any two workers that own a queue, some run brings both to the clean-up |
| `Cleanup.OnceExactlyWhenAlone` | src/Language/K3/Runtime/Engine.hs:753-760 | where every worker owns a queue, no run brings two workers to the clean-up if and only if there is at most one worker |
| `Stopping.FlagIsHistory` | src/Language/K3/Runtime/Engine.hs:794-801 | the out-of-work flag is set if and only if some worker has announced the end of work and no sender has come by since |
| `Stopping.EndOfWorkIsHeard` | src/Language/K3/Runtime/Engine.hs:794-801 | without listeners, while the flag is set every waiting worker has its sample variable full or a worker is about to fill them all |
| `LCR.Peer.Receive` | examples/distributed/LeaderElection/LCR.k3:7-28 | whichever message it handles, a peer stays right about the leader, holds an identifier that beats all on its way to the peer, and sends only messages that are admissible where they arrive |
| `LCR.Peer.OnSend` | examples/distributed/LeaderElection/LCR.k3:11 | what is sent has beaten every peer between its owner and the successor, and is no smaller than the sender's own identifier |
| `LCR.Peer.OnElect` | examples/distributed/LeaderElection/LCR.k3:13-22 | the peer becomes leader exactly when its own identifier comes back, which is then the largest on the ring; otherwise it holds the arrived identifier, or its own if the arrived one does not exceed what it held |
| `LCR.Peer.OnAnnounce` | examples/distributed/LeaderElection/LCR.k3:24-28 | leader or not, a peer that hears an announcement records the announced leader, which has the largest identifier, and everybody but the leader passes it on |
| `LCR.ReturnedIsMax` | examples/distributed/LeaderElection/LCR.k3:13-17 | an identifier that travels the whole ring unbeaten is the largest |
| `LCR.OnlyMaximumLeads` | examples/distributed/LeaderElection/LCR.k3:7-28 | under every interleaving with init first, isLeader is only ever set at the largest identifier, and every recorded leader is that peer or the default |
| `LCR.LeadersAgree` | examples/distributed/LeaderElection/LCR.k3:24-28 | at any two moments of a run no two peers disagree about the leader |
| `LCR.QuietRingHasElected` | examples/distributed/LeaderElection/LCR.k3:7-28 | in every reachable state in which no message is queued, the peer with the largest identifier leads and every peer has recorded it |
| `CountPeer.JoinStep` | examples/distributed/LeaderElection/countPeerLCR.k3:17-20 | a peer that joins leaves the system gathering, with one registration more on its way and one step fewer to go |
| `CountPeer.Peer.OnRegister` | examples/distributed/LeaderElection/countPeerLCR.k3:22-27 | counting the registered peers, the rendezvous starts the token exactly when the newcomer is the last one missing |
| `CountPeer.CountedStep` | examples/distributed/LeaderElection/countPeerLCR.k3:29-30 | the broadcast puts the only token at the first ring peer, before its first hop |
| `CountPeer.Peer.OnSend` | examples/distributed/LeaderElection/countPeerLCR.k3:32 | the token goes from its h-th position on the ring to the next with the largest identifier it has met |
| `CountPeer.Peer.OnElect` | examples/distributed/LeaderElection/countPeerLCR.k3:34-43 | the peer becomes leader exactly on the token's hop n + m, and then it is the one with the largest identifier; on every earlier hop it holds the largest identifier the token has met |
| `CountPeer.Peer.OnAnnounce` | examples/distributed/LeaderElection/countPeerLCR.k3:45-49 | the peer records the largest peer as leader, and the announcement ends exactly where it began |
| `CountPeer.StepAdvances` | examples/distributed/LeaderElection/countPeerLCR.k3:17-49 | whichever peer moves, the system passes to a phase of the election with exactly one step fewer to go |
| `CountPeer.EveryRunTerminates` | examples/distributed/LeaderElection/countPeerLCR.k3:17-49 | every run takes at most 5n + 2m + 3 steps, m being the ring position of the largest identifier, and is over exactly when it has taken that many |
| `CountPeer.EveryRunFinishes` | examples/distributed/LeaderElection/countPeerLCR.k3:17-49 | every run, whatever has happened so far, can be carried on until nobody has a message |
| `CountPeer.RunElectsMaximum` | examples/distributed/LeaderElection/countPeerLCR.k3:34-49 | at the end one token was started, it took n + m (fewer than 2n) elect deliveries, the largest identifier alone leads, and the whole ring agrees |
| `CountPeer.OneTokenAfterAllJoined` | examples/distributed/LeaderElection/countPeerLCR.k3:17-30 | at no moment has a second token been started, and none before all have joined |
| `FileSource.ReadableAll` | src/Language/K3/Runtime/Engine.hs:1334-1345 | the readable values are the lines in order up to the first that does not decode; all lines exactly when all decode |
| `FileSource.FileEndpoint.constructor` | src/Language/K3/Runtime/Engine.hs:1072-1083 | opening primes the buffer and loses no value |
| `FileSource.FileEndpoint.HasRead` | src/Language/K3/Runtime/Engine.hs:1134-1140 | true exactly when a value is still to come |
| `FileSource.FileEndpoint.DoRead` | src/Language/K3/Runtime/Engine.hs:1637-1644 | yields the next value to come and keeps the rest in order |
| `FileSource.DeliveredInOrder` | src/Language/K3/Parser/ProgramBuilder.hs:260-293 | at any time a trigger bound once has processed a prefix of the file's values in file order, each once, and the controller has run at most once per value and once more |
| `FileSource.DeliveredWhenQuiet` | src/Language/K3/Parser/ProgramBuilder.hs:216-221 | when nothing is queued any more it has processed every value up to the first undecodable line, with one controller message per value and one more |
| `FileSource.SourceKeepsGoing` | src/Language/K3/Parser/ProgramBuilder.hs:260-261 | until every value has been read exactly one controller message is queued, afterwards none |
| `Within.AlignExact` | src/Language/K3/TypeSystem/Within.hs:147-274 | aligning two constraints extends the map by exactly what is needed to send one to the other, and fails exactly when no extension can |
| `Within.DeductAllExact` | src/Language/K3/TypeSystem/Within.hs:120-131 | the backtracking search has a branch for, and only for, every one-to-one placement of the left constraints among the right ones |
| `Within.ProofsAreLeastEmbeddings` | src/Language/K3/TypeSystem/Within.hs:98-131 | a map extends one of the returned maps if and only if it extends the initial map and embeds the left constrained type into the right one |
| `Within.WithinSoundAndComplete` | src/Language/K3/TypeSystem/Within.hs:98-131 | proofs exist if and only if such an embedding exists, and every returned map is one |
| `Within.WithinReflexive` | src/Language/K3/TypeSystem/Within.hs:52-58 | every constrained type is within itself |
| `Within.WithinTransitive` | src/Language/K3/TypeSystem/Within.hs:52-58 | containment is transitive |
| `Within.MutuallyWithinIsOneMap` | src/Language/K3/TypeSystem/Within.hs:72-80 | mutual containment holds if and only if one and the same map embeds each side into the other |
| `Within.MutuallyWithinSymmetric` | src/Language/K3/TypeSystem/Within.hs:43-49 | mutual containment is symmetric |
| `Within.WithinBothWaysIsNotMutual` | src/Language/K3/TypeSystem/Within.hs:42-49 | a family of pairs that are within each other and not mutually within |
| `Within.DisjointMutuallyWithin` | src/Language/K3/TypeSystem/Within.hs:42-49 | without shared variables mutual containment is containment both ways |
| `Closure.StepShrinksMeasure` | src/Language/K3/TypeSystem/Closure.hs:24-37 | a step that learns something leaves fewer constraints of the finite universe to learn, so the loop ends on every set |
| `Closure.ClosureIsLeast` | src/Language/K3/TypeSystem/Closure.hs:24-50 | the closure is a superset of the input, closed under all eleven rules, and contained in every such set |
| `Closure.ClosureMonotone` | src/Language/K3/TypeSystem/Closure.hs:24-37 | more constraints have a larger closure |
| `Closure.ClosureIdempotent` | src/Language/K3/TypeSystem/Closure.hs:24-37 | closing a closure adds nothing |
| `Closure.ClosureIncremental` | src/Language/K3/TypeSystem/Closure.hs:24-37 | closing in two stages gives the closure of the whole |
| `Closure.ClosureConnectsTypes` | src/Language/K3/TypeSystem/Closure.hs:67-163 | any chain of constraints carrying one type to another through variables of either kind leaves the direct constraint in the closure |
| `Chains.TypeReachesChain` | src/Language/K3/TypeSystem/Closure.hs:67-83 | a type that flows into a chain of variables is below each of them in the closure |
| `Chains.ChainReachesType` | src/Language/K3/TypeSystem/Closure.hs:67-83 | a type at the end of a chain of variables is above each of them in the closure |
| `Chains.PartsFollow` | src/Language/K3/TypeSystem/Closure.hs:86-107 | when one type flows to another, directly or through variables, all constraints on their parts are in the closure |
| `Chains.QualifiersConnect` | src/Language/K3/TypeSystem/Closure.hs:135-139 | a chain of qualifier constraints leaves the constraint between its ends |
| `Chains.WritesGoBack` | src/Language/K3/TypeSystem/Closure.hs:147-151 | what may be written into the end of a chain of qualified variables may be written into each of them |
| `Chains.WrittenIsRead` | src/Language/K3/TypeSystem/Closure.hs:141-151 | what is written at the end of a chain flows to whatever is read at any point of it |
| `Chains.BoundIsInherited` | src/Language/K3/TypeSystem/Closure.hs:153-162 | a monomorphic bound binds all that the variable was made from, as an ordinary qualifier constraint too |
| `Chains.IntoOpaque` | src/Language/K3/TypeSystem/Closure.hs:173-182 | what flows into an opaque variable flows into every type that reaches its lower bound |
| `Chains.OutOfOpaque` | src/Language/K3/TypeSystem/Closure.hs:164-171 | every type that the upper bound of an opaque variable reaches flows into what the variable flows into |
| `Chains.IntoOpenRecord` | src/Language/K3/TypeSystem/Closure.hs:127-134 | what flows into a record with opaque parts flows into its rows and into each part |
| `Chains.OutOfOpenRecord` | src/Language/K3/TypeSystem/Closure.hs:109-125 | where such a record flows, so does the record with a part replaced by a type above the part's upper bound |
| `Chains.ItselfTeachesNothing` | src/Language/K3/TypeSystem/Closure.hs:164-182 | an opaque variable below itself, and records with it as a part below it, teach nothing about its bounds |
| `Chains.ItsRecordTeachesLittle` | src/Language/K3/TypeSystem/Closure.hs:164-171 | nor does the variable below the record of nothing but itself, beyond its being a record |
| `Chains.ConcatenationExact` | src/Language/K3/TypeSystem/Utils.hs:63-86 | records are concatenated if and only if all are tops or records that share no label and no opaque part, and the result has exactly their rows and parts |
| `Consistency.OpaqueFreeClosure` | src/Language/K3/TypeSystem/Closure.hs:24-50 | the closure of an opaque-free set is opaque-free |
| `Consistency.StableInconsistencyPersists` | src/Language/K3/TypeSystem/Consistency.hs:91-185 | an inconsistency other than a badly bounded opaque variable survives any added constraints |
| `Consistency.InconsistencyPersists` | src/Language/K3/TypeSystem/Consistency.hs:91-207 | on opaque-free sets adding constraints never makes an inconsistent closure consistent |
| `Consistency.MissingBoundIsRepaired` | src/Language/K3/TypeSystem/Consistency.hs:186-200 | an example of a repair: a set with an unbounded opaque variable that becomes consistent when the bound is added |
| `Repair.RepairableIffMissing` | src/Language/K3/TypeSystem/Consistency.hs:186-200 | added constraints can make the bound check on an opaque variable pass if and only if the closure bounds the variable at most once, with at most one type on either side |
| `Repair.OnlyMissingIsRepaired` | src/Language/K3/TypeSystem/Consistency.hs:91-207 | whatever opaque variables occur, an inconsistent closure can become consistent only when every violation is a missing bound or a missing type on a bound |
| `Repair.MissingMayBeBeyondRepair` | src/Language/K3/TypeSystem/Consistency.hs:91-207 | a set whose every violation is of that kind and that no added constraints make consistent |
| `Consistency.RuleSound` | src/Language/K3/TypeSystem/Closure.hs:67-182 | with opaque types read as the top type, a ground solution of the premises is a solution of what is learned: for ten of the eleven rules on every set, for the rule that learns lower bounds of opaque variables on opaque-free sets |
| `Consistency.ClosureKeepsSolutions` | src/Language/K3/TypeSystem/Closure.hs:24-50 | an opaque-free set and its closure have the same ground solutions |
| `Consistency.RejectedHasNoSolution` | src/Language/K3/TypeSystem/Consistency.hs:204-207 | an opaque-free set reported inconsistent has no ground solution |
| `Consistency.DecomposeExact` | src/Language/K3/TypeSystem/Closure.hs:86-107 | in every assignment, two comparable opaque-free types are related if and only if the constraints on their parts hold |
| `Consistency.TypesAcceptedIffSatisfiable` | src/Language/K3/TypeSystem/Consistency.hs:91-152 | a constraint between two opaque-free types is accepted if and only if some assignment of ground types satisfies it |
| `Consistency.QualifiersAcceptedExactly` | src/Language/K3/TypeSystem/Consistency.hs:104-106 | a constraint between two qualifier sets is satisfiable if and only if the upper is contained in the lower; it is rejected if and only if it is unsatisfiable and the lower is contained in the upper |
| `Consistency.CheckIsExact` | src/Language/K3/TypeSystem/Consistency.hs:91-111 | an opaque-free set is accepted if and only if each of its constraints is satisfiable by itself or is between unordered qualifier sets |
| `Consistency.OpaqueSidesChecked` | src/Language/K3/TypeSystem/Consistency.hs:94-127 | an opaque variable may stand above anything but top and below anything but bottom, and has to have exactly one bound with exactly one type on either side |
| `Chains.OpenRecordAccepted` | src/Language/K3/TypeSystem/Consistency.hs:149-178 | a record with opaque parts is accepted if and only if every type above the upper bound of each part is top or a record that can stand beside it |
| `Chains.VariablesDecide` | src/Language/K3/TypeSystem/Consistency.hs:204-207 | once an opaque-free set has passed, an assignment solves it if and only if it satisfies the constraints of the closure that mention variables |
| `Environments.RemoveAllPops` | src/Language/K3/Interpreter.hs:252-254 | removing the pushed names one by one, first occurrence each, pops exactly the pushed bindings |
| `Environments.LookupReplaced` | src/Language/K3/Interpreter.hs:256-258 | replacing a name changes its lookup, if it was bound, and no other |
| `ScalarLaws.WrapIsTheWord` | src/Language/K3/Interpreter.hs:448-472 | arithmetic results are the one 64-bit integer congruent to the exact result |
| `ScalarLaws.ArithmeticExact` | src/Language/K3/Interpreter.hs:448-472 | sum, difference and product are exact up to the word size, and negation is subtraction from zero |
| `ScalarLaws.SubtractionUndoesAddition` | src/Language/K3/Interpreter.hs:470-471 | subtraction undoes addition and the other way round, overflow included |
| `ScalarLaws.ProductIsRepeatedSum` | src/Language/K3/Interpreter.hs:472-472 | a product is a repeated sum, overflow included |
| `ScalarLaws.QuotientBounds` | src/Language/K3/Interpreter.hs:474-490 | the quotient is rounded down, and there is none exactly for a zero divisor and where it is not a machine integer |
| `ScalarLaws.BelowMeans` | src/Language/K3/Interpreter.hs:429-441 | what it is to be below for integers, truth values and strings, strings in alphabetical order |
| `ScalarLaws.ComparisonsAgree` | src/Language/K3/Interpreter.hs:429-441 | the six comparisons speak of one total order and are errors exactly on scalars of different kinds |
| `ScalarLaws.ConnectivesExact` | src/Language/K3/Interpreter.hs:419-427 | conjunction, disjunction and negation of truth values, and errors on anything else |
| `Interp.EvalKeepsNames` | src/Language/K3/Interpreter.hs:504-645 | a successful evaluation leaves the environment's list of names exactly as it was, through calls, closures, let, case and binds, repeated and shadowed names included |
| `Interp.ScopedKeepsNames` | src/Language/K3/Interpreter.hs:544-546 | leaving a scope returns what is below the pushed bindings, after the write-back |
| `Interp.MoreFuel` | src/Language/K3/Interpreter.hs:520-645 | an outcome other than a timeout is the outcome for any larger fuel |
| `Laws.CaseOfSome` | src/Language/K3/Interpreter.hs:596-600 | a case on an option that has just been made means the let that names its content |
| `Laws.CaseOfNone` | src/Language/K3/Interpreter.hs:596-600 | a case on the empty option means its second branch |
| `Laws.CaseRebuilds` | src/Language/K3/Interpreter.hs:596-600 | a case that makes the option again means the option |
| `Laws.IfNot` | src/Language/K3/Interpreter.hs:649-656 | negating the condition swaps the branches, errors included |
| `Laws.ConstantOperands` | src/Language/K3/Interpreter.hs:443-490 | operators on constants give the primitive results, or the run-time error |
| `Laws.AssignThenRead` | src/Language/K3/Interpreter.hs:590-593 | reading a variable that has just been assigned gives the value, and an unbound one fails before the expression is evaluated |
| `Laws.LetOfItself` | src/Language/K3/Interpreter.hs:585-588 | a let that only returns its variable means its expression |
| `Laws.SequenceIsLet` | src/Language/K3/Interpreter.hs:585-588 | a sequence means the let whose name nobody uses |
| `Laws.ProjectMade` | src/Language/K3/Interpreter.hs:541-571 | projecting a field out of a record that has just been made gives the value of the field's expression, after all of them have been evaluated |
| `Laws.ProjectMissing` | src/Language/K3/Interpreter.hs:541-571 | a field the record was not made with is an error |
| `Laws.TupleRebuilt` | src/Language/K3/Interpreter.hs:604-645 | binding the components of a tuple and making a tuple of them gives the tuple |
| `Laws.TupleWrittenBack` | src/Language/K3/Interpreter.hs:604-645 | binding the components of a variable: whatever the body does, the variable ends as the tuple of what the bound names then hold |
| `Lets.RecordWrittenBack` | src/Language/K3/Interpreter.hs:604-645 | binding fields of a variable: each name starts as its field, and the variable ends as the record whose bound fields are what the names then hold |
| `Lookups.SameMeaning` | src/Language/K3/Interpreter.hs:238-257 | environments that agree on every lookup, at the top and below some point, give the same outcome and go on agreeing |
| `Lets.TupleBindIsLets` | src/Language/K3/Interpreter.hs:604-645 | binding the components of a tuple that has just been made means naming its parts one after the other |
| `Lets.FormIsLets` | src/Language/K3/Interpreter.hs:530-571 | every form means naming its parts from left to right and combining the names |
| `Captures.FreeVariablesExact` | src/Language/K3/Core/Expression.hs:181-193 | the free variables are the names that are looked up below no binder of their own, a let or bind hiding its names in the expression it binds them to as well |
| `Captures.FreeVariablesSuffice` | src/Language/K3/Core/Expression.hs:181-193 | a quiet expression none of whose lets mentions its own name depends on its free variables only |
| `Captures.AppliedAnywhere` | src/Language/K3/Interpreter.hs:496-504 | a function value with such a body gives the same result wherever it is applied |
| `Interp.Interpreter.Remove` | src/Language/K3/Interpreter.hs:252-254 | the loop of removals does what removing the names in order does |
| `Interp.Interpreter.Capture` | src/Language/K3/Interpreter.hs:553-558 | the captured bindings, or the first name that is not bound |
| `Interp.Interpreter.Run` | src/Language/K3/Interpreter.hs:520-645 | the interpreter with its environment as state gives the evaluator's outcome, leaves the evaluator's environment, also when an error is thrown midway, and on success keeps the list of names |
| `LetRewrite.TameKeeps` | src/Language/K3/Interpreter.hs:520-645 | an expression that applies only lambdas on the spot and neither assigns nor writes back a kept name leaves every entry of a kept name, shadowed ones included, as it was |
| `LetRewrite.CaptureIsTransparent` | src/Language/K3/Interpreter.hs:496-504 | pushing a capture changes no lookup as long as the captured names have not changed since it was taken |
| `LetRewrite.Simulates` | src/Language/K3/Codegen/Imperative.hs:66-83 | in related environments an expression and its rewrite have related outcomes, and the environments stay related below every boundary |
| `LetRewrite.RewritePreserves` | src/Language/K3/Codegen/Imperative.hs:76-83 | a rewritable expression and its rewrite time out together, fail with the same error, or give related values and environments related binding by binding, unless the original fails to capture a name |
| `LetRewrite.RewriteKeepsData` | src/Language/K3/Codegen/Imperative.hs:76-83 | started on data, both give the same data and leave the same data |
| `LetRewrite.SafeIsRewritable` | src/Language/K3/Core/Expression.hs:181-193 | tame arguments that do not mention their own parameter make an expression rewritable and keep its free variables |
| `LetRewrite.RewriteRemovesApplied` | src/Language/K3/Codegen/Imperative.hs:76-83 | no applied lambda is left, and exactly the expressions without one are unchanged |
| `LetLimits.AssigningArgumentTellsApart` | src/Language/K3/Codegen/Imperative.hs:78 | an argument that assigns what the lambda captures makes the two programs give different values |
| `LetLimits.CallingArgumentTellsApart` | src/Language/K3/Codegen/Imperative.hs:78 | so does an argument that calls a function which assigns it |
| `LetLimits.BindingArgumentTellsApart` | src/Language/K3/Codegen/Imperative.hs:78 | and one whose bind writes back to it |
| `LetLimits.MissingCaptureIsRepaired` | src/Language/K3/Interpreter.hs:553-558 | an original that fails to capture can have a rewrite that succeeds |
| `LetLimits.LostCaptureFails` | src/Language/K3/Core/Expression.hs:187 | an argument that mentions its own parameter can make the rewrite fail where the original succeeds |
| `AssignDesugar.SymsDiffer` | src/Language/K3/Parser.hs:715 | a generated name determines the counter and the part of the path it was made from |
| `Decimals.DigitsDenote` | src/Language/K3/Parser.hs:715 | the digits of a counter denote it |
| `AssignDesugar.UpdateReads` | src/Language/K3/Parser.hs:701-713 | after a path update the path reads the new value and every diverging path reads as before |
| `AssignDesugar.MkAssignNests` | src/Language/K3/Parser.hs:701-713 | the folded list of binds is the nest that opens the variable, then each bound name in turn |
| `AssignDesugar.FieldAssignment` | src/Language/K3/Parser.hs:701-715 | for any depth and any e: when the path resolves, x ends as its value from before e with the path updated and everything else as e has left it; otherwise the assignment fails |
| `Transparency.Transparent` | src/Language/K3/Interpreter.hs:520-645 | bindings put anywhere in the environment under names that neither the expression nor a function value around it reads, assigns or binds by a pattern change neither timeout, error nor value, and are still in place afterwards |
| `AssignDesugar.AnyFieldAssignment` | src/Language/K3/Parser.hs:701-715 | for any depth and every e that names no generated name, calls, assignments and binds included: the assignment times out, fails with the same error, or gives x its value from before e updated at the path and leaves the rest as e by itself leaves it; an unresolved path fails |
| `AssignDesugar.AnyFieldAssigned` | src/Language/K3/Parser.hs:701-715 | for such an e that succeeds, the path reads the value of e, every diverging path reads as before e, every other variable reads as e by itself leaves it, and the names of the environment are kept |
| `AssignDesugar.GeneratedNameShows` | src/Language/K3/Parser.hs:715 | the condition is needed: on every path, the innermost generated name has no value where the assignment stands, yet assigning it succeeds |
| `AssignDesugar.QuietReads` | src/Language/K3/Interpreter.hs:520-645 | an expression without assignment, application or bind outside function bodies depends on nothing but the variables it looks up |
| `AssignDesugar.QuietFieldAssignment` | src/Language/K3/Parser.hs:701-715 | the case of such a quiet e, which needs no condition on function values: x reads the value of e at the path, and no diverging path and no other variable changes |

## Left out

- Sockets, transports, file handles, logging, pretty printing, option parsing, command line and Template Haskell: a handle is the sequence of its lines, a transport is insertion into a queue.
- The C++ runtime and the text produced by the code generators.
- The Parsec grammar apart from `mkAssign`, and type checking outside containment, closure and consistency.
- Reals, bytes, addresses, collections, indirections and message sends inside expressions: the interpreter model has integers, booleans, strings, options, tuples, records and functions. Constants and operators on reals are outside because rounding is not the point; an indirection bind rebinds the reference itself.
- Tasks.Eval: models constants, variables, operators, let, assignment, sequence and if, the fragment whose effects the access labels track; calls and binds have effects the pass does not look at.
- Cohorts.CohortsExact: needs access labels with identifiers that no two tasks share and that differ from the dummy identifier given to unlabelled expressions (`src/Language/K3/Transform/Conflicts.hs:22`); with shared identifiers an edge would be attributed to the first task that contains one.
- Drained.DrainsExactlyWhenSafe: leaves out senders outside the workers, listeners, processing errors and a request to stop after one message; with any of them the engine is meant to stop early or is kept alive by others.
- Cleanup.OnceExactlyWhenAlone: has no senders outside the workers; they could only add runs.
- Shutdown.SoloShutsDown: is about the single worker's own steps; with several workers and a fair scheduler progress is not stated.
- Snapshot.SnapshotShutdownIsDrained: is about a variant the code does not implement, without requests to stop and without senders besides the workers.
- Termination of plain LCR: an elect can reset maxUid before a queued send runs, so only its safety is stated, silence included.
- EngineProtocol.NothingLostOrRepeated: counts a message as processed when its handler returns; what the handler does to the program's globals is the business of the other models.
- Queues.QueueConfiguration.Append: takes targets of the layout; a message to an unknown target stops the original with an error.
- Queue identifiers are structured values, while the original renders addresses and names into strings; collisions of such strings are outside.
- Consistency.RejectedHasNoSolution: an accepted set may still have no solution as a whole, since the check does not search for one; `Consistency.CheckIsExact` says what acceptance means. Sets with opaque variables are left out; error payloads and their order are not modelled.
- Repair.OnlyMissingIsRepaired: gives a condition that is necessary and, for one opaque variable at a time, sufficient; which sets can be repaired as a whole depends on what the variables in the bounds are constrained by.
- Pass.ParallelEqualsSequential: the forwarding and dispatching steps themselves are not interleaved with tasks; they touch no globals.
- LetRewrite.RewritePreserves: goes one way; an expression outside the condition may still happen to be preserved. Global names count as captured, although function values do not carry them.
- FileSource: one source per model, a readable handle and no close while messages are queued; an endpoint with a multi-element buffer returns the untaken buffer on refresh (`src/Language/K3/Runtime/Engine.hs:1639`) and is not modelled.
- Within: the backtracking state monad is a set of branches; the order in which proofs are found is not modelled.
- Annotations on expressions and declarations other than access labels and identifiers.
