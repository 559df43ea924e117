/** A variant of the engine whose shutdown test reads listeners, awake counter and queue sizes in one
    step. As long as nobody asks it to stop, any number of workers then shuts it down only when
    everything is processed. */
module Snapshot {
  import opened Queues
  import opened EngineProtocol
  import opened Idleness

  /** The whole test in one step. */
  function Asked(wait: bool, s: Seen): WorkerPc {
    if (s.listeners == 0 || (!wait && !s.term.Off?)) && s.awake == 0 && s.empty then Stopping else Waiting
  }

  function Step(c: Config, s: State, a: Action): State
    requires WellShaped(c, s) && SoundLayout(c.layout) && Enabled(c, s, a)
  {
    if a.Work? && s.pcs[a.w].Asking? then s.(pcs := s.pcs[a.w := Asked(c.waitForNetwork, SeenBy(s))])
    else Do(c, s, a)
  }

  /** Only workers send, and nobody asks the engine to stop early. */
  ghost predicate IsSnapshotRun(c: Config, run: seq<State>, acts: seq<Action>) {
    && |run| == |acts| + 1 && SoundLayout(c.layout) && IsInitial(c, run[0]) && run[0].term.Off? && c.externals == 0
    && forall k :: 0 <= k < |acts| ==>
         WellShaped(c, run[k]) && Enabled(c, run[k], acts[k]) && !acts[k].SetTerminate? && run[k + 1] == Step(c, run[k], acts[k])
  }

  /* ---------- The invariant ---------- */

  predicate TestsOk(pc: WorkerPc) {
    match pc
    case ResultTerm(t) => !t
    case ResultNet(t, _) => !t
    case DoneTerm(t) => !t
    case DoneNet(t, _) => !t
    case AskTerm(_) => false
    case AskExternal(_) => false
    case AskQueued(_, _) => false
    case _ => true
  }

  ghost predicate Inv(c: Config, s: State) {
    && WellShaped(c, s) && SoundLayout(c.layout) && c.externals == 0 && s.term.Off?
    && s.awake >= ActiveCount(s.pcs)
    && (forall w :: 0 <= w < |s.pcs| ==> TestsOk(s.pcs[w]) && (Ending(s.pcs[w]) ==> Calm(s)))
    && (s.outOfWork ==> Calm(s))
  }

  lemma InitialInv(c: Config, s: State)
    requires SoundLayout(c.layout) && IsInitial(c, s) && s.term.Off? && c.externals == 0
    ensures Inv(c, s)
  {
    AllResting(s.pcs);
  }

  /** A worker's own step, by the values it reads. */
  lemma NextOk(wait: bool, v: Seen, pc: WorkerPc, ok: bool)
    requires TestsOk(pc) && !pc.Asking? && v.term.Off?
    ensures var pc' := NextPc(wait, v, pc, ok);
      && TestsOk(pc')
      && (Ending(pc') ==> Ending(pc) || v.outOfWork)
      && (if Active(pc') then 1 else 0) - (if Active(pc) then 1 else 0) <= AwakeDelta(pc)
  {}

  /** A step after which nobody new is ending and the counters still bound. */
  lemma WorkInv(c: Config, s: State, w: nat, ok: bool)
    requires Inv(c, s) && WorkEnabled(c, s, w) && !s.pcs[w].Dequeuing? && !s.pcs[w].Asking?
    ensures Inv(c, DoWork(c, s, w, ok))
  {
    var pc, s' := s.pcs[w], DoWork(c, s, w, ok);
    WorkFramed(c, s, w, ok);
    NextOk(c.waitForNetwork, SeenBy(s), pc, ok);
    EffectCounts(s, w, pc);
    EffectKeeps(s, w, pc);
    ActiveUpdate(s.pcs, w, s'.pcs[w]);
    if Calm(s) { CalmStays(s, s', w); }
  }

  lemma TakesNothingInv(c: Config, s: State, w: nat)
    requires Inv(c, s) && w < |s.pcs| && s.pcs[w].Dequeuing?
    ensures Inv(c, s.(pcs := s.pcs[w := GotDone]))
  {
    var s' := s.(pcs := s.pcs[w := GotDone]);
    ActiveUpdate(s.pcs, w, GotDone);
    if Calm(s) { CalmStays(s, s', w); }
  }

  lemma TakesHeadInv(c: Config, s: State, w: nat, q: QueueId, m: Message)
    requires Inv(c, s) && w < |s.pcs| && s.pcs[w].Dequeuing? && q in s.queues && s.queues[q] != []
    ensures Inv(c, Taken(s, w, q, m))
  {
    assert !Calm(s);
    ActiveUpdate(s.pcs, w, Processing(q, m));
  }

  lemma TakeInv(c: Config, s: State, w: nat)
    requires Inv(c, s) && w < Workers(c) && s.pcs[w].Dequeuing? && s.mapped
    ensures Inv(c, Take(c, s, w))
  {
    if MkDequeue(c.layout.groups[w], s.queues).1.None? {
      TakeNothing(c, s, w);
      TakesNothingInv(c, s, w);
    } else {
      var q, m := TakeSomething(c, s, w);
      TakesHeadInv(c, s, w, q, m);
    }
  }

  /** The test: when it succeeds nothing is queued and nobody is active, and so it stays. */
  lemma AskInv(c: Config, s: State, w: nat)
    requires Inv(c, s) && w < Workers(c) && s.pcs[w].Asking?
    ensures Inv(c, s.(pcs := s.pcs[w := Asked(c.waitForNetwork, SeenBy(s))]))
  {
    var s' := s.(pcs := s.pcs[w := Asked(c.waitForNetwork, SeenBy(s))]);
    ActiveUpdate(s.pcs, w, s'.pcs[w]);
    if s'.pcs[w].Stopping? {
      forall v | 0 <= v < |s.pcs| ensures !s.pcs[v].Processing? { NobodyActive(s.pcs, v); }
    }
    if Calm(s) { CalmStays(s, s', w); }
  }

  /** A sender is a worker in the middle of a message, so nobody is ending. */
  lemma SendInv(c: Config, s: State, th: nat, s': State)
    requires Inv(c, s) && th < |s.pcs| && s.pcs[th].Processing? && WellShaped(c, s')
    requires s'.pcs == s.pcs && s'.term == s.term && s'.awake == s.awake && (s'.outOfWork ==> s.outOfWork)
    ensures Inv(c, s')
  {
    assert !Calm(s);
  }

  lemma AsideInv(c: Config, s: State, s': State)
    requires Inv(c, s) && WellShaped(c, s')
    requires s'.queues == s.queues && s'.pcs == s.pcs && s'.term == s.term && s'.awake == s.awake && s'.outOfWork == s.outOfWork
    ensures Inv(c, s')
  {
    assert Calm(s) ==> Calm(s');
  }

  lemma AppendInv(c: Config, s: State, th: nat, q: QueueId, m: Message)
    requires Inv(c, s) && Enabled(c, s, Append(th, q, m))
    ensures Inv(c, Do(c, s, Append(th, q, m)))
  {
    SendInv(c, s, th, Do(c, s, Append(th, q, m)));
  }

  lemma NoticeInv(c: Config, s: State, a: Action)
    requires Inv(c, s) && Enabled(c, s, a) && (a.Clear? || a.LookUp? || a.Notify?)
    ensures Inv(c, Do(c, s, a))
  {
    SendInv(c, s, a.th, Do(c, s, a));
  }

  lemma OutsideInv(c: Config, s: State, a: Action)
    requires Inv(c, s) && Enabled(c, s, a)
    requires a.NotifyAll? || a.MapWorkers? || a.MakeReady? || a.ListenerUp? || a.ListenerDown?
    ensures Inv(c, Do(c, s, a))
  {
    AsideInv(c, s, Do(c, s, a));
  }

  lemma OwnStepInv(c: Config, s: State, w: nat, ok: bool)
    requires Inv(c, s) && WorkEnabled(c, s, w)
    ensures Inv(c, Step(c, s, Work(w, ok)))
  {
    if s.pcs[w].Asking? { AskInv(c, s, w); }
    else if s.pcs[w].Dequeuing? { TakeInv(c, s, w); }
    else { WorkInv(c, s, w, ok); }
  }

  lemma StepInv(c: Config, s: State, a: Action)
    requires Inv(c, s) && Enabled(c, s, a) && !a.SetTerminate?
    ensures Inv(c, Step(c, s, a))
  {
    match a
    case Work(w, ok) => OwnStepInv(c, s, w, ok);
    case Append(th, q, m) => AppendInv(c, s, th, q, m);
    case SetTerminate(_) =>
    case _ => if a.Clear? || a.LookUp? || a.Notify? { NoticeInv(c, s, a); } else { OutsideInv(c, s, a); }
  }

  /** The single step of the test touches neither queues nor histories. */
  lemma StepKeepsFlow(c: Config, s: State, a: Action)
    requires FlowInv(c, s) && Enabled(c, s, a)
    ensures FlowInv(c, Step(c, s, a))
  {
    if !(a.Work? && s.pcs[a.w].Asking?) { StepFlow(c, s, a); }
  }

  lemma {:induction false} RunInv(c: Config, run: seq<State>, acts: seq<Action>, k: nat)
    requires IsSnapshotRun(c, run, acts) && k < |run|
    ensures Inv(c, run[k]) && FlowInv(c, run[k])
  {
    if k == 0 {
      InitialInv(c, run[0]);
    } else {
      RunInv(c, run, acts, k - 1);
      StepInv(c, run[k - 1], acts[k - 1]);
      StepKeepsFlow(c, run[k - 1], acts[k - 1]);
    }
  }

  lemma CalmDrained(c: Config, s: State, v: nat, q: QueueId)
    requires FlowInv(c, s) && Calm(s) && v < Workers(c) && q in c.layout.groups[v] && q in s.queues
    ensures s.queues[q] == [] && s.enqueued[q] == OfQueue(s.finished[v], q)
  {
    assert s.got[v] == s.finished[v];
    assert s.enqueued[q] == OfQueue(s.got[v], q) + s.queues[q];
  }

  /** With any number of workers: when a worker reaches the final clean-up every queue is empty, and
      everything ever enqueued has been processed to the end, once and in order, by the queue's one
      owner. */
  lemma SnapshotShutdownIsDrained(c: Config, run: seq<State>, acts: seq<Action>, k: nat, w: nat, v: nat, q: QueueId)
    requires IsSnapshotRun(c, run, acts) && k < |run| && w < Workers(c) && v < Workers(c) && q in c.layout.groups[v]
    ensures WellShaped(c, run[k]) && q in run[k].queues
    ensures run[k].pcs[w].ShuttingDown? ==>
      run[k].queues[q] == [] && run[k].enqueued[q] == OfQueue(run[k].finished[v], q)
  {
    RunInv(c, run, acts, k);
    var s := run[k];
    assert q in c.layout.ids;
    if s.pcs[w].ShuttingDown? { CalmDrained(c, s, v, q); }
  }

  /* ---------- The variant and the engine ---------- */

  /** Worker w makes n steps of its own and nobody else moves. */
  ghost predicate Alone(c: Config, run: seq<State>, w: nat, n: nat) {
    && |run| == n + 1 && SoundLayout(c.layout)
    && forall k :: 0 <= k < n ==> WellShaped(c, run[k]) && WorkEnabled(c, run[k], w) && run[k + 1] == Do(c, run[k], Work(w, true))
  }

  /** Where nobody interferes, the four reads of the engine's test and its verdict are the variant's one
      step. */
  lemma UndisturbedTest(c: Config, run: seq<State>, w: nat)
    requires Alone(c, run, w, 4) && w < Workers(c) && run[0].pcs[w].Asking?
    ensures WellShaped(c, run[0]) && Enabled(c, run[0], Work(w, true))
    ensures run[4] == Step(c, run[0], Work(w, true))
  {
    FourReads(c, run, w);
  }

  /** After k steps only the worker's program counter has moved. */
  ghost predicate ReadSoFar(c: Config, run: seq<State>, w: nat, k: nat, pc: WorkerPc) {
    Alone(c, run, w, 4) && k <= 4 && w < |run[0].pcs| && run[k] == run[0].(pcs := run[0].pcs[w := pc])
  }

  /** Where the test stands after k reads of the same values. */
  function TestPc(wait: bool, v: Seen, k: nat): WorkerPc {
    if k == 0 then Asking else NextPc(wait, v, TestPc(wait, v, k - 1), true)
  }

  lemma NextRead(wait: bool, v: Seen, k: nat)
    ensures k > 0 ==> TestPc(wait, v, k) == NextPc(wait, v, TestPc(wait, v, k - 1), true)
  {}

  lemma TestEnds(wait: bool, v: Seen)
    ensures TestPc(wait, v, 4) == Asked(wait, v)
    ensures forall k :: 0 <= k < 4 ==>
      var pc := TestPc(wait, v, k); pc.Asking? || pc.AskTerm? || pc.AskExternal? || pc.AskQueued?
  {
    NextRead(wait, v, 1);
    NextRead(wait, v, 2);
    NextRead(wait, v, 3);
    NextRead(wait, v, 4);
  }

  lemma {:induction false} TestReads(c: Config, run: seq<State>, w: nat, k: nat)
    requires Alone(c, run, w, 4) && w < |run[0].pcs| && run[0].pcs[w].Asking? && k <= 4
    ensures ReadSoFar(c, run, w, k, TestPc(c.waitForNetwork, SeenBy(run[0]), k))
  {
    if k == 0 {
      NothingRead(c, run, w);
    } else {
      TestReads(c, run, w, k - 1);
      TestEnds(c.waitForNetwork, SeenBy(run[0]));
      ReadMore(c, run, w, k - 1, SeenBy(run[0]), TestPc(c.waitForNetwork, SeenBy(run[0]), k - 1));
    }
  }

  lemma FourReads(c: Config, run: seq<State>, w: nat)
    requires Alone(c, run, w, 4) && w < |run[0].pcs| && run[0].pcs[w].Asking?
    ensures run[4] == run[0].(pcs := run[0].pcs[w := Asked(c.waitForNetwork, SeenBy(run[0]))])
  {
    TestReads(c, run, w, 4);
    TestEnds(c.waitForNetwork, SeenBy(run[0]));
  }

  lemma NothingRead(c: Config, run: seq<State>, w: nat)
    requires Alone(c, run, w, 4) && w < |run[0].pcs|
    ensures ReadSoFar(c, run, w, 0, run[0].pcs[w])
  {
    assert run[0].pcs[w := run[0].pcs[w]] == run[0].pcs;
  }

  lemma ReadMore(c: Config, run: seq<State>, w: nat, k: nat, v: Seen, pc: WorkerPc)
    requires k < 4 && ReadSoFar(c, run, w, k, pc) && v == SeenBy(run[0])
    requires pc.Asking? || pc.AskTerm? || pc.AskExternal? || pc.AskQueued?
    ensures ReadSoFar(c, run, w, k + 1, NextPc(c.waitForNetwork, v, pc, true))
  {
    ReadsOn(c, run[0], run[k], w, NextPc(c.waitForNetwork, v, pc, true));
  }

  lemma ReadChangesNothing(s: State, w: nat, pc: WorkerPc)
    requires w < |s.full| == |s.finished| && (pc.Asking? || pc.AskTerm? || pc.AskExternal? || pc.AskQueued?)
    ensures Effect(s, w, pc) == s
  {}

  /** A read of the test moves the worker's program counter and nothing else. */
  lemma ReadsOn(c: Config, s: State, t: State, w: nat, next: WorkerPc)
    requires WellShaped(c, t) && SoundLayout(c.layout) && WorkEnabled(c, t, w) && w < |s.pcs| && t == s.(pcs := s.pcs[w := t.pcs[w]])
    requires t.pcs[w].Asking? || t.pcs[w].AskTerm? || t.pcs[w].AskExternal? || t.pcs[w].AskQueued?
    requires next == NextPc(c.waitForNetwork, SeenBy(s), t.pcs[w], true)
    ensures Do(c, t, Work(w, true)) == s.(pcs := s.pcs[w := next])
  {
    assert SeenBy(t) == SeenBy(s);
    WorkIs(c, t, w);
    ReadChangesNothing(t, w, t.pcs[w]);
    assert t.pcs[w := next] == s.pcs[w := next];
  }
}
