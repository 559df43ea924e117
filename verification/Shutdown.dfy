/** The engine with a single worker: it shuts itself down only when all messages are processed, and it
    does get there. */
module Shutdown {
  import opened Queues
  import opened EngineProtocol
  import opened Idleness

  /* ---------- One worker ---------- */

  /** One worker, no other sender, no listeners, no processing error and no request to stop after
      one message. */
  predicate SoloAction(a: Action) {
    match a
    case Work(_, ok) => ok
    case SetTerminate(tv) => !tv.FinishOne?
    case ListenerUp => false
    case ListenerDown => false
    case _ => true
  }

  ghost predicate SoloRun(c: Config, run: seq<State>, acts: seq<Action>) {
    && IsRun(c, run, acts) && Workers(c) == 1 && c.externals == 0
    && run[0].listeners == 0 && !run[0].term.FinishOne?
    && forall k :: 0 <= k < |acts| ==> SoloAction(acts[k])
  }

  predicate AfterMessage(pc: WorkerPc) {
    pc.Processing? || pc.GotResult? || pc.ResultTerm? || pc.ResultNet?
  }

  predicate CountsAwake(pc: WorkerPc) {
    AfterMessage(pc) || pc.Dequeuing? || pc.GotDone? || pc.DoneTerm? || pc.DoneNet? || pc.Idling?
    || pc.Leaving? || pc.LastCheck? || pc.ShuttingDown?
  }

  predicate CountsLive(pc: WorkerPc) { !pc.NotStarted? && !pc.LastCheck? && !pc.ShuttingDown? }

  /** What the worker has read so far in its termination tests. */
  predicate ReadsOk(pc: WorkerPc) {
    match pc
    case ResultTerm(t) => !t
    case ResultNet(t, _) => !t
    case DoneNet(_, net) => net
    case AskExternal(e) => e
    case AskQueued(e, empty) => e && empty
    case Failing => false
    case Dead => false
    case _ => true
  }

  ghost predicate SoloInv(c: Config, s: State) {
    && WellShaped(c, s) && SoundLayout(c.layout) && Workers(c) == 1 && c.externals == 0
    && s.listeners == 0 && !s.term.FinishOne?
    && (!s.senders[0].NotSending? ==> s.pcs[0].Processing?)
    && (Resting(s.pcs[0]) ==> AllEmpty(s))
    && (s.outOfWork ==> AllEmpty(s) && !AfterMessage(s.pcs[0]) && !s.pcs[0].NotStarted? && !s.pcs[0].CountedLive?)
    && ReadsOk(s.pcs[0])
    && s.awake == One(CountsAwake(s.pcs[0])) && s.live == One(CountsLive(s.pcs[0]))
    && (s.pcs[0].Waiting? ==> s.full[0])
  }

  lemma SoloTakeNothing(c: Config, s: State)
    requires SoloInv(c, s) && s.pcs[0].Dequeuing? && s.mapped && MkDequeue(c.layout.groups[0], s.queues).1.None?
    ensures SoloInv(c, Take(c, s, 0))
  {
    TakeNothing(c, s, 0);
    forall q | q in s.queues ensures s.queues[q] == [] {
      var w :| 0 <= w < |c.layout.groups| && q in c.layout.groups[w];
    }
  }

  lemma SoloTake(c: Config, s: State)
    requires SoloInv(c, s) && s.pcs[0].Dequeuing? && s.mapped
    ensures SoloInv(c, Take(c, s, 0))
  {
    if MkDequeue(c.layout.groups[0], s.queues).1.None? {
      SoloTakeNothing(c, s);
    } else {
      var q, m := TakeSomething(c, s, 0);
    }
  }

  /** The worker's counter and reads after a step that takes no message. */
  lemma SoloNext(wait: bool, v: Seen, pc: WorkerPc)
    requires ReadsOk(pc) && !pc.Dequeuing? && v.listeners == 0 && !v.term.FinishOne?
    requires v.awake == One(CountsAwake(pc)) && v.live == One(CountsLive(pc))
    requires Resting(pc) ==> v.empty
    requires v.outOfWork ==> !AfterMessage(pc)
    ensures var pc' := NextPc(wait, v, pc, true);
      && ReadsOk(pc')
      && (Resting(pc') ==> Resting(pc))
      && (AfterMessage(pc') ==> AfterMessage(pc) || pc.CountedLive?)
      && !pc'.NotStarted? && (pc'.CountedLive? ==> pc.NotStarted?)
      && (pc'.Waiting? ==> pc.Rousing?)
      && (pc.Stopping? ==> pc' == Rousing)
  {}

  /** The counters follow where the worker is. */
  lemma NextCounts(wait: bool, v: Seen, pc: WorkerPc)
    requires ReadsOk(pc) && !pc.Dequeuing? && v.live == One(CountsLive(pc))
    requires v.outOfWork ==> !AfterMessage(pc)
    ensures One(CountsAwake(NextPc(wait, v, pc, true))) == One(CountsAwake(pc)) + AwakeDelta(pc)
    ensures One(CountsLive(NextPc(wait, v, pc, true))) == One(CountsLive(pc)) + LiveDelta(pc)
  {}

  lemma SoloEffect(s: State, w: nat, pc: WorkerPc)
    requires w < |s.full| == |s.finished| && (pc.Waiting? ==> s.full[w])
    ensures var s' := Effect(s, w, pc);
      && s'.listeners == s.listeners && s'.term == s.term && s'.outOfWork == (s.outOfWork || pc.Stopping?)
      && |s'.finished| == |s.finished| && (pc.Rousing? ==> s'.full[w])
  {}

  lemma SoloWork(c: Config, s: State)
    requires SoloInv(c, s) && WorkEnabled(c, s, 0)
    ensures SoloInv(c, DoWork(c, s, 0, true))
  {
    var pc := s.pcs[0];
    if pc.Dequeuing? {
      SoloTake(c, s);
    } else {
      WorkFramed(c, s, 0, true);
      SoloNext(c.waitForNetwork, SeenBy(s), pc);
      NextCounts(c.waitForNetwork, SeenBy(s), pc);
      EffectCounts(s, 0, pc);
      SoloEffect(s, 0, pc);
    }
  }

  lemma SoloSent(c: Config, s: State, s': State)
    requires SoloInv(c, s) && s.pcs[0].Processing? && WellShaped(c, s') && s'.pcs == s.pcs && s'.listeners == s.listeners
    requires s'.term == s.term && s'.awake == s.awake && s'.live == s.live && (s'.outOfWork ==> s.outOfWork)
    ensures SoloInv(c, s')
  {}

  lemma SoloSend(c: Config, s: State, a: Action)
    requires SoloInv(c, s) && Enabled(c, s, a) && (a.Append? || a.Clear? || a.LookUp? || a.Notify?)
    ensures SoloInv(c, Do(c, s, a))
  {
    SoloSent(c, s, Do(c, s, a));
  }

  lemma SoloStep(c: Config, s: State, a: Action)
    requires SoloInv(c, s) && Enabled(c, s, a) && SoloAction(a)
    ensures SoloInv(c, Do(c, s, a))
  {
    match a
    case Work(_, _) => SoloWork(c, s);
    case Append(_, _, _) => SoloSend(c, s, a);
    case Clear(_) => SoloSend(c, s, a);
    case LookUp(_) => SoloSend(c, s, a);
    case Notify(_) => SoloSend(c, s, a);
    case _ =>
  }

  lemma {:induction false} SoloRunInv(c: Config, run: seq<State>, acts: seq<Action>, k: nat)
    requires SoloRun(c, run, acts) && k < |run|
    ensures SoloInv(c, run[k])
  {
    if k > 0 {
      SoloRunInv(c, run, acts, k - 1);
      SoloStep(c, run[k - 1], acts[k - 1]);
    }
  }

  /** The engine reaches its final clean-up only when every queue is empty and everything ever
      enqueued has been processed to the end, once and in order. */
  lemma SoloShutdownIsDrained(c: Config, run: seq<State>, acts: seq<Action>, k: nat, q: QueueId)
    requires SoloRun(c, run, acts) && k < |run| && q in c.layout.ids
    ensures WellShaped(c, run[k])
    ensures run[k].pcs[0].ShuttingDown? ==>
      run[k].queues[q] == [] && run[k].enqueued[q] == OfQueue(run[k].finished[0], q)
  {
    SoloRunInv(c, run, acts, k);
    RunFlow(c, run, acts, k);
    var w :| 0 <= w < |c.layout.groups| && q in c.layout.groups[w];
    if run[k].pcs[0].ShuttingDown? {
      assert run[k].got[0] == run[k].finished[0];
      assert run[k].enqueued[q] == OfQueue(run[k].got[0], q) + run[k].queues[q];
    }
  }

  /** The one worker never sleeps for good and never dies: until the clean-up it, or the send it is
      in the middle of, can always make the next step. */
  lemma SoloNeverBlocks(c: Config, run: seq<State>, acts: seq<Action>, k: nat)
    requires SoloRun(c, run, acts) && k < |run| && run[k].mapped && run[k].ready
    ensures WellShaped(c, run[k])
    ensures !run[k].pcs[0].ShuttingDown? ==>
      || WorkEnabled(c, run[k], 0)
      || Enabled(c, run[k], Clear(0)) || Enabled(c, run[k], LookUp(0)) || Enabled(c, run[k], Notify(0))
  {
    SoloRunInv(c, run, acts, k);
    RunWake(c, run, acts, k);
  }

  /* ---------- Progress ---------- */

  /** A step of the worker, or of the send it is in the middle of. */
  predicate OwnStep(a: Action) { a.Work? || a.Clear? || a.LookUp? || a.Notify? }

  function OwnSteps(acts: seq<Action>): nat
    decreases |acts|
  {
    if acts == [] then 0 else OwnSteps(acts[..|acts| - 1]) + One(OwnStep(acts[|acts| - 1]))
  }

  /** The messages waiting in a worker's queues. */
  function Backlog(qs: seq<QueueId>, queues: QueueMap<nat>): nat
    decreases |qs|
  {
    if qs == [] then 0 else (if qs[0] in queues then |queues[qs[0]]| else 0) + Backlog(qs[1..], queues)
  }

  lemma {:induction false} BacklogTaken(qs: seq<QueueId>, queues: QueueMap<nat>, q: QueueId)
    requires q in queues && queues[q] != []
    ensures Backlog(qs, queues[q := queues[q][1..]]) + One(q in qs) <= Backlog(qs, queues)
    decreases |qs|
  {
    if qs != [] { BacklogTaken(qs[1..], queues, q); }
  }

  /** Steps from a program counter to the clean-up when no message is left. */
  function PcSteps(pc: WorkerPc, outOfWork: bool): nat {
    match pc
    case NotStarted => 24
    case CountedLive => 23
    case Processing(_, _) => 23
    case GotResult => 22
    case ResultTerm(_) => 21
    case ResultNet(_, _) => 20
    case Dequeuing => if outOfWork then 6 else 19
    case GotDone => if outOfWork then 5 else 18
    case DoneTerm(_) => if outOfWork then 4 else 17
    case DoneNet(_, _) => if outOfWork then 3 else 16
    case Idling => 15
    case Asking => 14
    case AskTerm(_) => 13
    case AskExternal(_) => 12
    case AskQueued(_, _) => 11
    case Stopping => 10
    case Rousing => 9
    case Waiting => 8
    case Woken => 7
    case Leaving => 2
    case LastCheck => 1
    case ShuttingDown => 0
    case Failing => 0
    case Dead => 0
  }

  function SendSteps(p: SenderPc): nat {
    match p
    case NotSending => 0
    case Appended(_) => 3
    case Cleared(_) => 2
    case Notifying(_, _) => 1
  }

  /** A bound on the own steps to the clean-up if nothing more is appended. */
  function StepsLeft(c: Config, s: State): nat
    requires WellShaped(c, s) && Workers(c) == 1
  {
    5 * Backlog(c.layout.groups[0], s.queues) + PcSteps(s.pcs[0], s.outOfWork) + SendSteps(s.senders[0])
  }

  /** As SoloInv; and a worker that has announced the end of work finds it announced. */
  ghost predicate Announced(c: Config, s: State) {
    SoloInv(c, s) && (s.pcs[0].Rousing? || s.pcs[0].Waiting? || s.pcs[0].Woken? ==> s.outOfWork)
  }

  lemma PcMoves(wait: bool, v: Seen, pc: WorkerPc)
    requires ReadsOk(pc) && !pc.Dequeuing? && !pc.ShuttingDown? && v.listeners == 0 && !v.term.FinishOne?
    requires v.awake == One(CountsAwake(pc)) && v.live == One(CountsLive(pc))
    requires v.outOfWork ==> !AfterMessage(pc) && !pc.NotStarted? && !pc.CountedLive?
    requires pc.Rousing? || pc.Waiting? || pc.Woken? ==> v.outOfWork
    ensures var pc' := NextPc(wait, v, pc, true);
      PcSteps(pc', v.outOfWork || pc.Stopping?) < PcSteps(pc, v.outOfWork)
    ensures var pc' := NextPc(wait, v, pc, true);
      pc'.Rousing? || pc'.Waiting? || pc'.Woken? ==> v.outOfWork || pc.Stopping?
  {}

  lemma WorkMoves(c: Config, s: State)
    requires Announced(c, s) && WorkEnabled(c, s, 0) && !s.pcs[0].Dequeuing?
    ensures var s' := DoWork(c, s, 0, true); Announced(c, s') && StepsLeft(c, s') < StepsLeft(c, s)
  {
    SoloWork(c, s);
    WorkFramed(c, s, 0, true);
    SoloEffect(s, 0, s.pcs[0]);
    PcMoves(c.waitForNetwork, SeenBy(s), s.pcs[0]);
  }

  lemma TakeMoves(c: Config, s: State)
    requires Announced(c, s) && s.pcs[0].Dequeuing? && s.mapped
    ensures var s' := Take(c, s, 0); Announced(c, s') && StepsLeft(c, s') < StepsLeft(c, s)
  {
    SoloTake(c, s);
    if MkDequeue(c.layout.groups[0], s.queues).1.None? {
      TakeNothing(c, s, 0);
    } else {
      var q, m := TakeSomething(c, s, 0);
      BacklogTaken(c.layout.groups[0], s.queues, q);
    }
  }

  lemma SendMoves(c: Config, s: State, a: Action)
    requires Announced(c, s) && Enabled(c, s, a) && (a.Clear? || a.LookUp? || a.Notify?)
    ensures var s' := Do(c, s, a); Announced(c, s') && StepsLeft(c, s') < StepsLeft(c, s)
  {
    SoloSend(c, s, a);
    assert s.pcs[0].Processing? && a.th == 0;
  }

  lemma OthersKeep(c: Config, s: State, a: Action)
    requires Announced(c, s) && Enabled(c, s, a) && SoloAction(a) && !OwnStep(a) && !a.Append?
    ensures var s' := Do(c, s, a); Announced(c, s') && StepsLeft(c, s') == StepsLeft(c, s)
  {
    SoloStep(c, s, a);
  }

  lemma StepMoves(c: Config, s: State, a: Action)
    requires Announced(c, s) && Enabled(c, s, a) && SoloAction(a) && !a.Append?
    ensures var s' := Do(c, s, a); Announced(c, s') && StepsLeft(c, s') + One(OwnStep(a)) <= StepsLeft(c, s)
  {
    if a.Work? {
      if s.pcs[0].Dequeuing? { TakeMoves(c, s); } else { WorkMoves(c, s); }
    } else if OwnStep(a) {
      SendMoves(c, s, a);
    } else {
      OthersKeep(c, s, a);
    }
  }

  lemma AppendAnnounced(c: Config, s: State, a: Action)
    requires Announced(c, s) && Enabled(c, s, a) && a.Append?
    ensures Announced(c, Do(c, s, a))
  {
    SoloSend(c, s, a);
    assert s.pcs[0].Processing?;
  }

  lemma {:induction false} RunAnnounced(c: Config, run: seq<State>, acts: seq<Action>, k: nat)
    requires SoloRun(c, run, acts) && k < |run|
    ensures Announced(c, run[k])
  {
    if k > 0 {
      RunAnnounced(c, run, acts, k - 1);
      if acts[k - 1].Append? { AppendAnnounced(c, run[k - 1], acts[k - 1]); } else { StepMoves(c, run[k - 1], acts[k - 1]); }
    }
  }

  ghost predicate NoAppendFrom(acts: seq<Action>, k: nat) { forall i :: k <= i < |acts| ==> !acts[i].Append? }

  lemma SnocSteps(acts: seq<Action>, k: nat, j: nat)
    requires k < j <= |acts|
    ensures OwnSteps(acts[k..j]) == OwnSteps(acts[k..j - 1]) + One(OwnStep(acts[j - 1]))
  {
    assert acts[k..j][..|acts[k..j]| - 1] == acts[k..j - 1];
  }

  lemma StepsLeftBound(c: Config, s: State)
    requires Announced(c, s)
    ensures StepsLeft(c, s) <= 5 * Backlog(c.layout.groups[0], s.queues) + 26
  {}

  /** From s the worker has made some of its own steps and has come to s'. */
  ghost predicate Spent(c: Config, s: State, s': State, own: nat) {
    WellShaped(c, s) && WellShaped(c, s') && Workers(c) == 1 && own + StepsLeft(c, s') <= StepsLeft(c, s)
  }

  lemma SpendsMore(c: Config, run: seq<State>, acts: seq<Action>, k: nat, j: nat, own: nat)
    requires SoloRun(c, run, acts) && k < j < |run| && NoAppendFrom(acts, k) && Spent(c, run[k], run[j - 1], own)
    ensures Spent(c, run[k], run[j], own + One(OwnStep(acts[j - 1])))
  {
    RunAnnounced(c, run, acts, j - 1);
    StepMoves(c, run[j - 1], acts[j - 1]);
  }

  lemma {:induction false} Spends(c: Config, run: seq<State>, acts: seq<Action>, k: nat, j: nat)
    requires SoloRun(c, run, acts) && k <= j < |run| && NoAppendFrom(acts, k)
    ensures Spent(c, run[k], run[j], OwnSteps(acts[k..j]))
    decreases j
  {
    if k == j {
      RunAnnounced(c, run, acts, k);
    } else {
      Spends(c, run, acts, k, j - 1);
      SpendsMore(c, run, acts, k, j, OwnSteps(acts[k..j - 1]));
      SnocSteps(acts, k, j);
    }
  }

  /** After the last append the worker makes at most five steps for every queued message and 26 more,
      whatever happens in between. */
  lemma SoloStepsBounded(c: Config, run: seq<State>, acts: seq<Action>, k: nat, j: nat)
    requires SoloRun(c, run, acts) && k <= j < |run| && NoAppendFrom(acts, k)
    ensures OwnSteps(acts[k..j]) <= 5 * Backlog(c.layout.groups[0], run[k].queues) + 26
  {
    RunAnnounced(c, run, acts, k);
    StepsLeftBound(c, run[k]);
    Spends(c, run, acts, k, j);
  }

  /** The own step the worker can make next. */
  lemma NextOwnStep(c: Config, run: seq<State>, acts: seq<Action>) returns (a: Action)
    requires SoloRun(c, run, acts) && run[|acts|].mapped && run[|acts|].ready
    ensures WellShaped(c, run[|acts|])
    ensures !run[|acts|].pcs[0].ShuttingDown? ==> OwnStep(a) && SoloAction(a) && Enabled(c, run[|acts|], a)
  {
    SoloNeverBlocks(c, run, acts, |acts|);
    var s := run[|acts|];
    a := if WorkEnabled(c, s, 0) then Work(0, true)
         else if s.senders[0].Appended? then Clear(0)
         else if s.senders[0].Cleared? then LookUp(0) else Notify(0);
  }

  lemma OwnStepKeeps(c: Config, s: State, a: Action)
    requires WellShaped(c, s) && SoundLayout(c.layout) && Enabled(c, s, a) && OwnStep(a)
    ensures Do(c, s, a).mapped == s.mapped && Do(c, s, a).ready == s.ready
  {
    if a.Work? {
      if s.pcs[a.w].Dequeuing? { TakeKeeps(c, s, a.w); } else { WorkFramed(c, s, a.w, a.ok); }
    }
  }

  lemma TakeKeeps(c: Config, s: State, w: nat)
    requires WellShaped(c, s) && SoundLayout(c.layout) && w < Workers(c)
    ensures Take(c, s, w).mapped == s.mapped && Take(c, s, w).ready == s.ready
  {}

  lemma SoloSnoc(c: Config, run: seq<State>, acts: seq<Action>, a: Action)
    requires SoloRun(c, run, acts) && WellShaped(c, run[|acts|]) && Enabled(c, run[|acts|], a) && SoloAction(a)
    ensures SoloRun(c, run + [Do(c, run[|acts|], a)], acts + [a])
  {
    var run', acts' := run + [Do(c, run[|acts|], a)], acts + [a];
    forall k | 0 <= k < |acts'|
      ensures WellShaped(c, run'[k]) && Enabled(c, run'[k], acts'[k]) && run'[k + 1] == Do(c, run'[k], acts'[k])
      ensures SoloAction(acts'[k])
    {
      assert run'[k] == run[k];
      if k < |acts| { assert acts'[k] == acts[k] && run'[k + 1] == run[k + 1]; }
    }
  }

  /** And it gets there: once the engine is set up, the worker's own steps alone lead from anywhere to
      the clean-up, with everything processed. */
  lemma {:induction false} SoloShutsDown(c: Config, run: seq<State>, acts: seq<Action>)
    returns (run': seq<State>, acts': seq<Action>)
    requires SoloRun(c, run, acts) && run[|acts|].mapped && run[|acts|].ready
    ensures SoloRun(c, run', acts') && run <= run' && acts <= acts'
    ensures forall k :: |acts| <= k < |acts'| ==> OwnStep(acts'[k])
    ensures WellShaped(c, run[|acts|]) && |acts'| - |acts| <= StepsLeft(c, run[|acts|])
    ensures WellShaped(c, run'[|acts'|]) && run'[|acts'|].pcs[0].ShuttingDown? && AllEmpty(run'[|acts'|])
    decreases if WellShaped(c, run[|acts|]) then StepsLeft(c, run[|acts|]) else 0
  {
    var s := run[|acts|];
    RunAnnounced(c, run, acts, |acts|);
    var a := NextOwnStep(c, run, acts);
    if s.pcs[0].ShuttingDown? {
      run', acts' := run, acts;
    } else {
      StepMoves(c, s, a);
      OwnStepKeeps(c, s, a);
      SoloSnoc(c, run, acts, a);
      run', acts' := SoloShutsDown(c, run + [Do(c, s, a)], acts + [a]);
    }
  }
}
