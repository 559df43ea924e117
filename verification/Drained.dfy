/** When the engine drains. Without senders outside, listeners, errors or a request to stop after one
    message, it shuts down only over empty queues exactly when fewer than two workers can be sent
    messages; a request to finish all work adds a second race between workers that start. */
module Drained {
  import opened Queues
  import opened EngineProtocol
  import opened Idleness
  import opened Shutdown
  import opened Race

  /** stops says whether the engine may be asked to finish all work. */
  ghost predicate PlainRun(c: Config, stops: bool, run: seq<State>, acts: seq<Action>) {
    && IsRun(c, run, acts) && c.externals == 0 && run[0].listeners == 0 && !run[0].term.FinishOne?
    && (stops || run[0].term.Off?)
    && forall k :: 0 <= k < |acts| ==> SoloAction(acts[k]) && (acts[k].SetTerminate? ==> stops)
  }

  /** Every queue is empty, and everything ever enqueued has been processed to the end, once and in
      order, by the queue's one owner. */
  ghost predicate AllDone(c: Config, s: State) {
    WellShaped(c, s) && forall w, q :: 0 <= w < Workers(c) && q in c.layout.groups[w] && q in s.queues ==>
      s.queues[q] == [] && s.enqueued[q] == OfQueue(s.finished[w], q)
  }

  lemma CalmIsDone(c: Config, s: State)
    requires FlowInv(c, s) && Calm(s)
    ensures AllDone(c, s)
  {
    forall w, q | 0 <= w < Workers(c) && q in c.layout.groups[w] && q in s.queues
      ensures s.queues[q] == [] && s.enqueued[q] == OfQueue(s.finished[w], q)
    {
      assert s.got[w] == s.finished[w];
      assert s.enqueued[q] == OfQueue(s.got[w], q) + s.queues[q];
    }
  }

  /* ---------- Who receives ---------- */

  ghost predicate AtMostOneReceiver(l: Layout) {
    forall w, v :: Receives(l, w) && Receives(l, v) ==> w == v
  }

  ghost predicate NobodyReceives(l: Layout) { forall w :: !Receives(l, w) }

  /** Messages go to queues of worker o only. */
  ghost predicate OnlyReceiver(l: Layout, o: nat) { o < |l.groups| && forall w :: Receives(l, w) ==> w == o }

  lemma AddressedIsOwned(l: Layout, m: Message, q: QueueId) returns (w: nat)
    requires SoundLayout(l) && RoutedTo(l, m, q)
    ensures w < |l.groups| && q in l.groups[w] && Receives(l, w)
  {
    assert l.route[(m.addr, m.trigger)] in l.ids;
    w :| 0 <= w < |l.groups| && q in l.groups[w];
    assert Addressed(l, q);
  }

  lemma RoutedToOnly(l: Layout, o: nat, m: Message, q: QueueId)
    requires SoundLayout(l) && OnlyReceiver(l, o) && RoutedTo(l, m, q)
    ensures q in l.groups[o]
  {
    var w := AddressedIsOwned(l, m, q);
  }

  /* ---------- One receiver ---------- */

  predicate Unstarted(pc: WorkerPc) { pc.NotStarted? || pc.CountedLive? }

  /** Nobody has read a request that would let it leave before the work is done. */
  predicate NoEarlyLeave(wait: bool, pc: WorkerPc) {
    match pc
    case ResultTerm(t) => wait || !t
    case ResultNet(t, _) => wait || !t
    case DoneTerm(t) => wait || !t
    case DoneNet(t, _) => wait || !t
    case Failing => false
    case _ => true
  }

  /** On the way out or gone. */
  predicate Over(pc: WorkerPc) { Ending(pc) || pc.Dead? }

  ghost predicate WorkerOk(c: Config, s: State, o: nat, w: nat)
    requires o < |s.pcs| && w < |s.pcs|
  {
    var pc := s.pcs[w];
    && NoEarlyLeave(c.waitForNetwork, pc) && (pc.Processing? ==> w == o) && (Over(pc) ==> Calm(s))
    && (pc.AskQueued? && pc.empty && Unstarted(s.pcs[o]) ==> AllEmpty(s))
  }

  ghost predicate OneInv(c: Config, s: State, o: nat) {
    && WellShaped(c, s) && SoundLayout(c.layout) && c.externals == 0 && OnlyReceiver(c.layout, o)
    && s.listeners == 0 && (c.waitForNetwork || s.term.Off?)
    && (forall q :: q in s.queues && s.queues[q] != [] ==> q in c.layout.groups[o])
    && (Resting(s.pcs[o]) ==> AllEmpty(s)) && (s.outOfWork ==> Calm(s))
    && s.awake >= ActiveCount(s.pcs)
    && forall w :: 0 <= w < |s.pcs| ==> WorkerOk(c, s, o, w)
  }

  lemma OneInitial(c: Config, s: State, o: nat)
    requires SoundLayout(c.layout) && IsInitial(c, s) && c.externals == 0 && OnlyReceiver(c.layout, o)
    requires s.listeners == 0 && (c.waitForNetwork || s.term.Off?)
    ensures OneInv(c, s, o)
  {
    AllResting(s.pcs);
    forall q | q in s.queues && s.queues[q] != [] ensures q in c.layout.groups[o] {
      assert RoutedTo(c.layout, s.queues[q][0], q);
      RoutedToOnly(c.layout, o, s.queues[q][0], q);
    }
  }

  /** A step of a worker that takes no message, by the values it reads. */
  lemma NextKeeps(wait: bool, v: Seen, pc: WorkerPc)
    requires NoEarlyLeave(wait, pc) && !pc.Dequeuing? && v.listeners == 0 && (wait || v.term.Off?)
    ensures var pc' := NextPc(wait, v, pc, true);
      && NoEarlyLeave(wait, pc') && !pc'.Processing? && (Resting(pc') ==> Resting(pc) || v.outOfWork) && (Unstarted(pc') ==> Unstarted(pc))
      && (Over(pc') ==> Over(pc) || v.outOfWork || (pc.AskQueued? && pc.empty && v.awake == 0))
      && (pc'.AskQueued? && pc'.empty ==> v.empty)
      && (if Active(pc') then 1 else 0) - (if Active(pc) then 1 else 0) <= AwakeDelta(pc)
  {}

  /** When the test succeeds, nobody is active and the one receiver has either nothing left or has not
      started on messages that are not there. */
  lemma TestSucceeds(c: Config, s: State, o: nat, w: nat)
    requires OneInv(c, s, o) && w < |s.pcs| && s.pcs[w].AskQueued? && s.pcs[w].empty && s.awake == 0
    ensures Calm(s)
  {
    NobodyActive(s.pcs, o);
    assert WorkerOk(c, s, o, w) && WorkerOk(c, s, o, o);
    assert AllEmpty(s);
    forall v | 0 <= v < |s.pcs| ensures !s.pcs[v].Processing? { assert WorkerOk(c, s, o, v); }
  }

  /** The parts of the invariant after a step of worker w that moves no message. */
  lemma OneFramed(c: Config, s: State, o: nat, w: nat, s': State)
    requires OneInv(c, s, o) && w < |s.pcs| && WellShaped(c, s') && WorkFrame(s, s', w)
    requires s'.listeners == s.listeners && s'.term == s.term && s'.awake >= ActiveCount(s'.pcs)
    requires Calm(s) ==> Calm(s')
    requires s'.outOfWork ==> Calm(s)
    requires NoEarlyLeave(c.waitForNetwork, s'.pcs[w]) && (Over(s'.pcs[w]) ==> Calm(s))
    requires Resting(s'.pcs[w]) ==> Resting(s.pcs[w]) || Calm(s)
    requires Unstarted(s'.pcs[w]) ==> Unstarted(s.pcs[w])
    requires s'.pcs[w].AskQueued? && s'.pcs[w].empty ==> AllEmpty(s)
    ensures OneInv(c, s', o)
  {
    assert WorkerOk(c, s, o, o);
    forall v | 0 <= v < |s'.pcs| ensures WorkerOk(c, s', o, v) { assert WorkerOk(c, s, o, v); }
  }

  lemma OneWork(c: Config, s: State, o: nat, w: nat)
    requires OneInv(c, s, o) && WorkEnabled(c, s, w) && !s.pcs[w].Dequeuing?
    ensures OneInv(c, DoWork(c, s, w, true), o)
  {
    var pc, s' := s.pcs[w], DoWork(c, s, w, true);
    assert WorkerOk(c, s, o, w);
    WorkFramed(c, s, w, true);
    NextKeeps(c.waitForNetwork, SeenBy(s), pc);
    EffectCounts(s, w, pc);
    EffectKeeps(s, w, pc);
    EffectFacts(s, w, pc);
    ActiveUpdate(s.pcs, w, s'.pcs[w]);
    if Calm(s) { CalmStays(s, s', w); }
    if pc.AskQueued? && pc.empty && s.awake == 0 { TestSucceeds(c, s, o, w); }
    OneFramed(c, s, o, w, s');
  }

  lemma OneTakesNothing(c: Config, s: State, o: nat, w: nat)
    requires OneInv(c, s, o) && w < Workers(c) && s.pcs[w].Dequeuing? && s.mapped
    requires forall q :: q in c.layout.groups[w] ==> s.queues[q] == []
    ensures OneInv(c, s.(pcs := s.pcs[w := GotDone]), o)
  {
    var s' := s.(pcs := s.pcs[w := GotDone]);
    ActiveUpdate(s.pcs, w, GotDone);
    if w == o { assert AllEmpty(s); }
    assert WorkerOk(c, s, o, o);
    forall v | 0 <= v < |s'.pcs| ensures WorkerOk(c, s', o, v) { assert WorkerOk(c, s, o, v); }
  }

  lemma OneTakesHead(c: Config, s: State, o: nat, w: nat, q: QueueId, m: Message)
    requires OneInv(c, s, o) && w < Workers(c) && s.pcs[w].Dequeuing? && s.mapped
    requires q in c.layout.groups[w] && q in s.queues && s.queues[q] != [] && m == s.queues[q][0]
    ensures OneInv(c, Taken(s, w, q, m), o)
  {
    var s' := Taken(s, w, q, m);
    assert w == o;
    ActiveUpdate(s.pcs, w, Processing(q, m));
    forall v | 0 <= v < |s'.pcs| ensures WorkerOk(c, s', o, v) { assert WorkerOk(c, s, o, v); }
  }

  lemma OneTake(c: Config, s: State, o: nat, w: nat)
    requires OneInv(c, s, o) && w < Workers(c) && s.pcs[w].Dequeuing? && s.mapped
    ensures OneInv(c, Take(c, s, w), o)
  {
    if MkDequeue(c.layout.groups[w], s.queues).1.None? {
      TakeNothing(c, s, w);
      OneTakesNothing(c, s, o, w);
    } else {
      var q, m := TakeSomething(c, s, w);
      OneTakesHead(c, s, o, w, q, m);
    }
  }

  /** A sender is the receiver itself, in the middle of a message. */
  lemma OneSend(c: Config, s: State, o: nat, th: nat, s': State)
    requires OneInv(c, s, o) && th < |s.pcs| && s.pcs[th].Processing? && WellShaped(c, s')
    requires s'.pcs == s.pcs && s'.listeners == s.listeners && s'.term == s.term && s'.awake == s.awake
    requires s'.outOfWork ==> s.outOfWork
    requires forall q :: q in s'.queues && s'.queues[q] != [] ==> q in c.layout.groups[o]
    ensures OneInv(c, s', o)
  {
    assert WorkerOk(c, s, o, th);
    forall v | 0 <= v < |s'.pcs| ensures WorkerOk(c, s', o, v) { assert WorkerOk(c, s, o, v); }
  }

  lemma OneAppend(c: Config, s: State, o: nat, th: nat, q: QueueId, m: Message)
    requires OneInv(c, s, o) && Enabled(c, s, Append(th, q, m))
    ensures OneInv(c, Do(c, s, Append(th, q, m)), o)
  {
    RoutedToOnly(c.layout, o, m, q);
    OneSend(c, s, o, th, Do(c, s, Append(th, q, m)));
  }

  /** Steps that touch neither queues nor workers. */
  lemma OneAside(c: Config, s: State, o: nat, s': State)
    requires OneInv(c, s, o) && WellShaped(c, s') && s'.queues == s.queues && s'.pcs == s.pcs && s'.outOfWork == s.outOfWork
    requires s'.awake == s.awake && s'.listeners == s.listeners && (c.waitForNetwork || s'.term.Off?)
    ensures OneInv(c, s', o)
  {
    forall v | 0 <= v < |s'.pcs| ensures WorkerOk(c, s', o, v) { assert WorkerOk(c, s, o, v); }
  }

  lemma OneStep(c: Config, s: State, a: Action, o: nat)
    requires OneInv(c, s, o) && Enabled(c, s, a) && SoloAction(a) && (a.SetTerminate? ==> c.waitForNetwork)
    ensures OneInv(c, Do(c, s, a), o)
  {
    match a
    case Work(w, ok) => if s.pcs[w].Dequeuing? { OneTake(c, s, o, w); } else { OneWork(c, s, o, w); }
    case Append(th, q, m) => OneAppend(c, s, o, th, q, m);
    case Clear(th) => OneSend(c, s, o, th, Do(c, s, a));
    case LookUp(th) => OneSend(c, s, o, th, Do(c, s, a));
    case Notify(th) => OneSend(c, s, o, th, Do(c, s, a));
    case _ => OneAside(c, s, o, Do(c, s, a));
  }

  lemma {:induction false} OneRun(c: Config, stops: bool, run: seq<State>, acts: seq<Action>, k: nat, o: nat)
    requires PlainRun(c, stops, run, acts) && k < |run| && OnlyReceiver(c.layout, o) && (!stops || c.waitForNetwork)
    ensures OneInv(c, run[k], o)
  {
    if k == 0 {
      OneInitial(c, run[0], o);
    } else {
      OneRun(c, stops, run, acts, k - 1, o);
      OneStep(c, run[k - 1], acts[k - 1], o);
    }
  }

  /** With one receiver, whichever worker shuts the engine down, everything is done. */
  lemma OneReceiverDrains(c: Config, stops: bool, run: seq<State>, acts: seq<Action>, k: nat, w: nat, o: nat)
    requires PlainRun(c, stops, run, acts) && k < |run| && OnlyReceiver(c.layout, o) && (!stops || c.waitForNetwork)
    requires w < Workers(c)
    ensures WellShaped(c, run[k]) && (run[k].pcs[w].ShuttingDown? ==> AllDone(c, run[k]))
  {
    OneRun(c, stops, run, acts, k, o);
    RunFlow(c, run, acts, k);
    assert WorkerOk(c, run[k], o, w);
    if run[k].pcs[w].ShuttingDown? { CalmIsDone(c, run[k]); }
  }

  /* ---------- No receiver ---------- */

  lemma {:induction false} NobodyRun(c: Config, run: seq<State>, acts: seq<Action>, k: nat)
    requires IsRun(c, run, acts) && c.externals == 0 && k < |run| && NobodyReceives(c.layout)
    ensures WellShaped(c, run[k]) && Calm(run[k])
  {
    if k == 0 {
      forall q | q in run[0].queues ensures run[0].queues[q] == [] {
        if run[0].queues[q] != [] { var w := AddressedIsOwned(c.layout, run[0].queues[q][0], q); }
      }
    } else {
      NobodyRun(c, run, acts, k - 1);
      CalmStep(c, run[k - 1], acts[k - 1]);
      RunFlow(c, run, acts, k);
    }
  }

  /* ---------- Exactly when the engine drains ---------- */

  ghost predicate DrainsIn(c: Config, run: seq<State>, k: nat, w: nat)
    requires k < |run|
  {
    w < |run[k].pcs| && run[k].pcs[w].ShuttingDown? ==> AllDone(c, run[k])
  }

  /** No run reaches the final clean-up with anything left to do. */
  ghost predicate AlwaysDrains(c: Config, stops: bool) {
    forall run, acts, k: nat, w: nat :: PlainRun(c, stops, run, acts) && k < |run| ==> DrainsIn(c, run, k, w)
  }

  /** The condition, by the layout and the engine's settings. */
  ghost predicate Safe(c: Config, stops: bool) {
    AtMostOneReceiver(c.layout) && (!stops || c.waitForNetwork || Workers(c) <= 1 || NobodyReceives(c.layout))
  }

  lemma SoloDrains(c: Config, run: seq<State>, acts: seq<Action>, k: nat)
    requires SoloRun(c, run, acts) && k < |run|
    ensures WellShaped(c, run[k]) && (run[k].pcs[0].ShuttingDown? ==> AllDone(c, run[k]))
  {
    RunFlow(c, run, acts, k);
    forall w, q | 0 <= w < Workers(c) && q in c.layout.groups[w] && q in run[k].queues && run[k].pcs[0].ShuttingDown?
      ensures run[k].queues[q] == [] && run[k].enqueued[q] == OfQueue(run[k].finished[w], q)
    {
      SoloShutdownIsDrained(c, run, acts, k, q);
    }
  }

  lemma NobodyDrains(c: Config, run: seq<State>, acts: seq<Action>, k: nat)
    requires IsRun(c, run, acts) && c.externals == 0 && k < |run| && NobodyReceives(c.layout)
    ensures AllDone(c, run[k])
  {
    RunFlow(c, run, acts, k);
    NobodyRun(c, run, acts, k);
    CalmIsDone(c, run[k]);
  }

  lemma SafeDrains(c: Config, stops: bool, run: seq<State>, acts: seq<Action>, k: nat, w: nat)
    requires SoundLayout(c.layout) && c.externals == 0 && Safe(c, stops) && PlainRun(c, stops, run, acts) && k < |run|
    ensures DrainsIn(c, run, k, w)
  {
    RunFlow(c, run, acts, k);
    if w < |run[k].pcs| {
      if NobodyReceives(c.layout) {
        NobodyDrains(c, run, acts, k);
      } else if !stops || c.waitForNetwork {
        var o :| Receives(c.layout, o);
        OneReceiverDrains(c, stops, run, acts, k, w, o);
      } else {
        SoloDrains(c, run, acts, k);
      }
    }
  }

  lemma LeftOver(c: Config, s: State, q: QueueId)
    requires SoundLayout(c.layout) && q in c.layout.ids && q in s.queues && s.queues[q] != []
    ensures !AllDone(c, s)
  {
    var w :| 0 <= w < |c.layout.groups| && q in c.layout.groups[w];
  }

  lemma MessageTo(l: Layout, q: QueueId) returns (m: Message)
    requires Addressed(l, q)
    ensures RoutedTo(l, m, q)
  {
    var k :| k in l.route && l.route[k] == q;
    m := Msg(k.0, k.1, 0);
  }

  lemma TwoReceiversRace(c: Config, stops: bool, a: nat, b: nat)
    requires SoundLayout(c.layout) && c.externals == 0 && Receives(c.layout, a) && Receives(c.layout, b) && a != b
    ensures !AlwaysDrains(c, stops)
  {
    var qa :| qa in c.layout.groups[a] && Addressed(c.layout, qa);
    var qb :| qb in c.layout.groups[b] && Addressed(c.layout, qb);
    var x := Scene(c.layout, c.waitForNetwork, a, b, qa, qb);
    var m0 := MessageTo(c.layout, qb);
    var m1 := MessageTo(c.layout, qa);
    var run, acts := TwoReceiversShutDownUndrained(c, x, m0, m1, m1);
    PlainIsPlain(c, stops, run, acts);
    LeftOver(c, run[|run| - 1], qa);
    assert !DrainsIn(c, run, |run| - 1, b);
  }

  lemma PlainIsPlain(c: Config, stops: bool, run: seq<State>, acts: seq<Action>)
    requires IsRun(c, run, acts) && c.externals == 0 && run[0].listeners == 0 && forall a :: a in acts ==> PlainAction(a)
    requires if stops then !run[0].term.FinishOne? else run[0].term.Off?
    ensures PlainRun(c, stops, run, acts)
  {
    forall k | 0 <= k < |acts| ensures SoloAction(acts[k]) && (acts[k].SetTerminate? ==> stops) { assert acts[k] in acts; }
  }

  lemma StopRace(c: Config, o: nat)
    requires SoundLayout(c.layout) && c.externals == 0 && Receives(c.layout, o) && Workers(c) > 1 && !c.waitForNetwork
    ensures !AlwaysDrains(c, true)
  {
    var q :| q in c.layout.groups[o] && Addressed(c.layout, q);
    var m := MessageTo(c.layout, q);
    var w := if o == 0 then 1 else 0;
    var run, acts := FinishAllShutsDownUndrained(c, w, o, q, m);
    PlainIsPlain(c, true, run, acts);
    LeftOver(c, run[|run| - 1], q);
    assert !DrainsIn(c, run, |run| - 1, w);
  }

  /** No run shuts the engine down over unfinished work if and only if at most one worker can be sent
      messages and, where the engine may be asked to finish all work without waiting for its network,
      that worker is alone or nobody receives. */
  lemma DrainsExactlyWhenSafe(c: Config, stops: bool)
    requires SoundLayout(c.layout) && c.externals == 0
    ensures AlwaysDrains(c, stops) <==> Safe(c, stops)
  {
    if Safe(c, stops) {
      forall run, acts, k: nat, w: nat | PlainRun(c, stops, run, acts) && k < |run| ensures DrainsIn(c, run, k, w) {
        SafeDrains(c, stops, run, acts, k, w);
      }
    } else if !AtMostOneReceiver(c.layout) {
      var a, b :| Receives(c.layout, a) && Receives(c.layout, b) && a != b;
      TwoReceiversRace(c, stops, a, b);
    } else {
      var o :| Receives(c.layout, o);
      StopRace(c, o);
    }
  }

  /* ---------- The engine's own layouts ---------- */

  /** One worker for all peers drains. */
  lemma SingleWorkerDrains(addrs: seq<Address>, triggers: seq<string>, wait: bool, stops: bool)
    ensures AlwaysDrains(Config(SingleQSingleW(addrs, triggers), wait, 0), stops)
    ensures AlwaysDrains(Config(PeerQSingleW(addrs, triggers), wait, 0), stops)
  {
    SingleQSingleWSound(addrs, triggers);
    PeerQSingleWSound(addrs, triggers);
    DrainsExactlyWhenSafe(Config(SingleQSingleW(addrs, triggers), wait, 0), stops);
    DrainsExactlyWhenSafe(Config(PeerQSingleW(addrs, triggers), wait, 0), stops);
  }

  /** A worker per peer drains exactly when there are no two peers, or no triggers to send to. */
  lemma PeerWorkersDrain(addrs: seq<Address>, triggers: seq<string>, wait: bool, stops: bool)
    requires NoDuplicates(addrs)
    ensures AlwaysDrains(Config(PeerQPeerW(addrs, triggers), wait, 0), stops) <==> |addrs| <= 1 || triggers == []
  {
    var l := PeerQPeerW(addrs, triggers);
    PeerQPeerWSound(addrs, triggers);
    DrainsExactlyWhenSafe(Config(l, wait, 0), stops);
    if triggers == [] {
      forall w ensures !Receives(l, w) {}
    } else if |addrs| > 1 {
      PeerReceives(addrs, triggers, 0);
      PeerReceives(addrs, triggers, 1);
    }
  }

  lemma PeerReceives(addrs: seq<Address>, triggers: seq<string>, w: nat)
    requires w < |addrs| && triggers != []
    ensures Receives(PeerQPeerW(addrs, triggers), w)
  {
    var l := PeerQPeerW(addrs, triggers);
    assert addrs[w] in addrs && triggers[0] in triggers;
    assert l.route[(addrs[w], triggers[0])] == PeerQueue(addrs[w]);
    assert l.groups[w] == [PeerQueue(addrs[w])];
    assert Addressed(l, PeerQueue(addrs[w]));
  }
}
