/** The engine as a concurrent state machine. Workers loop over their queues and sleep on a sample
    variable, senders append, clear the out-of-work flag and notify, and the last idle worker shuts
    the engine down. Every access to a shared variable is one atomic step. */
module EngineProtocol {
  import opened Queues

  /** The layout, whether the engine waits for its network listeners, and the threads besides the
      workers that may send. */
  datatype Config = Config(layout: Layout, waitForNetwork: bool, externals: nat)

  datatype Terminate = Off | FinishOne | FinishAll

  type Message = Msg<nat>

  /** Where a worker is in its loop; arguments are values it has read so far. */
  datatype WorkerPc =
    | NotStarted | CountedLive
    | GotResult | ResultTerm(t: bool) | ResultNet(t: bool, net: bool)
    | Dequeuing
    | Processing(q: QueueId, m: Message)
    | GotDone | DoneTerm(t: bool) | DoneNet(t: bool, net: bool)
    | Idling
    | Asking | AskTerm(t: bool) | AskExternal(e: bool) | AskQueued(e: bool, empty: bool)
    | Stopping | Rousing
    | Waiting | Woken
    | Leaving | LastCheck | ShuttingDown
    | Failing | Dead

  /** Where a thread is in enqueue. */
  datatype SenderPc = NotSending | Appended(q: QueueId) | Cleared(q: QueueId) | Notifying(q: QueueId, w: nat)

  datatype State = State(
    queues: QueueMap<nat>,
    mapped: bool,                       // the worker map has been filled in
    ready: bool,                        // the sample variables exist
    full: seq<bool>,                    // the sample variable of each worker
    outOfWork: bool, awake: int, live: int, term: Terminate, listeners: int,
    pcs: seq<WorkerPc>, senders: seq<SenderPc>,
    enqueued: QueueMap<nat>,            // history: everything ever appended to each queue
    got: seq<seq<(QueueId, Message)>>,  // history: what each worker has taken
    finished: seq<seq<(QueueId, Message)>>)  // history: what each worker has processed to the end

  function Workers(c: Config): nat { |c.layout.groups| }

  /** Where the layout sends a message. */
  predicate RoutedTo(l: Layout, m: Message, q: QueueId) {
    (m.addr, m.trigger) in l.route && l.route[(m.addr, m.trigger)] == q
  }

  predicate AllEmpty(s: State) { forall q :: q in s.queues ==> s.queues[q] == [] }

  /* ---------- Steps ---------- */

  datatype Action =
    | Append(th: nat, q: QueueId, m: Message)
    | Clear(th: nat)
    | LookUp(th: nat)
    | Notify(th: nat)
    | Work(w: nat, ok: bool)
    | SetTerminate(tv: Terminate)
    | NotifyAll
    | MapWorkers
    | MakeReady
    | ListenerUp
    | ListenerDown

  predicate WellShaped(c: Config, s: State) {
    && s.queues.Keys == c.layout.ids && s.enqueued.Keys == c.layout.ids
    && |s.full| == |s.pcs| == |s.got| == |s.finished| == Workers(c)
    && |s.senders| == Workers(c) + c.externals
  }

  /** A worker sends only while it processes a message. */
  predicate MaySend(c: Config, s: State, th: nat)
    requires WellShaped(c, s)
  {
    th < |s.senders| && (th < Workers(c) ==> s.pcs[th].Processing?)
  }

  predicate WorkEnabled(c: Config, s: State, w: nat)
    requires WellShaped(c, s)
  {
    && w < Workers(c)
    && match s.pcs[w]
       case Dequeuing => s.mapped
       case Processing(_, _) => s.senders[w].NotSending?
       case Rousing => s.ready
       case Waiting => s.ready && s.full[w]
       case ShuttingDown => false
       case Dead => false
       case _ => true
  }

  predicate Enabled(c: Config, s: State, a: Action)
    requires WellShaped(c, s)
  {
    match a
    case Append(th, q, m) => MaySend(c, s, th) && s.senders[th].NotSending? && q in c.layout.ids && RoutedTo(c.layout, m, q)
    case Clear(th) => MaySend(c, s, th) && s.senders[th].Appended?
    case LookUp(th) => MaySend(c, s, th) && s.senders[th].Cleared?
    case Notify(th) => MaySend(c, s, th) && s.senders[th].Notifying? && s.senders[th].w < Workers(c) && s.ready
    case Work(w, _) => WorkEnabled(c, s, w)
    case SetTerminate(_) => true
    case NotifyAll => s.ready
    case MapWorkers => !s.mapped
    case MakeReady => s.mapped && !s.ready
    case ListenerUp => true
    case ListenerDown => s.listeners > 0
  }

  function AllFull(s: State): seq<bool> { seq(|s.full|, i => true) }

  function Take(c: Config, s: State, w: nat): State
    requires WellShaped(c, s) && SoundLayout(c.layout) && w < Workers(c)
  {
    var (queues, r) := MkDequeue(c.layout.groups[w], s.queues);
    match r
    case None => s.(pcs := s.pcs[w := GotDone])
    case Some(x) => s.(queues := queues, got := s.got[w := s.got[w] + [x]], pcs := s.pcs[w := Processing(x.0, x.1)])
  }

  /** The shared values the termination tests read. */
  datatype Seen = Seen(term: Terminate, listeners: int, outOfWork: bool, awake: int, live: int, empty: bool)

  function SeenBy(s: State): Seen { Seen(s.term, s.listeners, s.outOfWork, s.awake, s.live, AllEmpty(s)) }

  /** The program counter after a step of a worker that takes no message. */
  function NextPc(wait: bool, s: Seen, pc: WorkerPc, ok: bool): WorkerPc {
    match pc
    case NotStarted => CountedLive
    case CountedLive => if ok then GotResult else Failing
    case GotResult => ResultTerm(s.term.FinishOne?)
    case ResultTerm(t) => ResultNet(t, s.listeners == 0)
    case ResultNet(t, net) => if (s.outOfWork && net) || (!wait && t) then Leaving else Dequeuing
    case Dequeuing => GotDone
    case Processing(q, m) => if ok then GotResult else Failing
    case GotDone => DoneTerm(!s.term.Off?)
    case DoneTerm(t) => DoneNet(t, s.listeners == 0)
    case DoneNet(t, net) => if (s.outOfWork && net) || (!wait && t) then Leaving else Idling
    case Idling => Asking
    case Asking => AskTerm(!s.term.Off?)
    case AskTerm(t) => AskExternal(s.listeners == 0 || (!wait && t))
    case AskExternal(e) => AskQueued(e, s.empty)
    case AskQueued(e, empty) => if e && s.awake == 0 && empty then Stopping else Waiting
    case Stopping => Rousing
    case Rousing => Waiting
    case Waiting => Woken
    case Woken => Dequeuing
    case Leaving => LastCheck
    case LastCheck => if s.live == 0 then ShuttingDown else Dead
    case Failing => Dead
    case ShuttingDown => ShuttingDown
    case Dead => Dead
  }

  /** What such a step does to the shared variables and the histories. */
  function Effect(s: State, w: nat, pc: WorkerPc): State
    requires w < |s.full| == |s.finished|
  {
    match pc
    case NotStarted => s.(live := s.live + 1)
    case CountedLive => s.(awake := s.awake + 1)
    case Processing(q, m) => s.(finished := s.finished[w := s.finished[w] + [(q, m)]])
    case Idling => s.(awake := s.awake - 1)
    case Stopping => s.(outOfWork := true)
    case Rousing => s.(full := AllFull(s))
    case Waiting => s.(full := s.full[w := false])
    case Woken => s.(awake := s.awake + 1)
    case Leaving => s.(live := s.live - 1)
    case Failing => s.(live := s.live - 1)
    case _ => s
  }

  function DoWork(c: Config, s: State, w: nat, ok: bool): State
    requires WellShaped(c, s) && SoundLayout(c.layout) && WorkEnabled(c, s, w)
  {
    if s.pcs[w].Dequeuing? then Take(c, s, w)
    else Effect(s, w, s.pcs[w]).(pcs := s.pcs[w := NextPc(c.waitForNetwork, SeenBy(s), s.pcs[w], ok)])
  }

  function Do(c: Config, s: State, a: Action): State
    requires WellShaped(c, s) && SoundLayout(c.layout) && Enabled(c, s, a)
  {
    match a
    case Append(th, q, m) =>
      s.(queues := s.queues[q := s.queues[q] + [m]], enqueued := s.enqueued[q := s.enqueued[q] + [m]],
         senders := s.senders[th := Appended(q)])
    case Clear(th) => s.(outOfWork := false, senders := s.senders[th := Cleared(s.senders[th].q)])
    case LookUp(th) =>
      // Before the workers are configured nobody needs waking.
      var owner := OwnerIn(c.layout.groups, s.senders[th].q);
      s.(senders := s.senders[th := if s.mapped && owner.Some? then Notifying(s.senders[th].q, owner.value) else NotSending])
    case Notify(th) => s.(full := s.full[s.senders[th].w := true], senders := s.senders[th := NotSending])
    case Work(w, ok) => DoWork(c, s, w, ok)
    case SetTerminate(tv) => s.(term := tv)
    case NotifyAll => s.(full := AllFull(s))
    case MapWorkers => s.(mapped := true)
    case MakeReady => s.(ready := true)
    case ListenerUp => s.(listeners := s.listeners + 1)
    case ListenerDown => s.(listeners := s.listeners - 1)
  }

  /** Every queued message is in the queue of its target. */
  predicate AllRouted(c: Config, s: State) {
    forall q, i :: q in s.queues && 0 <= i < |s.queues[q]| ==> RoutedTo(c.layout, s.queues[q][i], q)
  }

  /** The engine before any thread has started; initialisation may have enqueued messages already. */
  predicate IsInitial(c: Config, s: State) {
    && WellShaped(c, s) && s.enqueued == s.queues && AllRouted(c, s)
    && !s.mapped && !s.ready && !s.outOfWork && s.awake == 0 && s.live == 0 && s.listeners >= 0
    && (forall w :: 0 <= w < Workers(c) ==> s.pcs[w].NotStarted? && !s.full[w] && s.got[w] == [] && s.finished[w] == [])
    && (forall th :: 0 <= th < |s.senders| ==> s.senders[th].NotSending?)
  }

  ghost predicate IsRun(c: Config, run: seq<State>, acts: seq<Action>) {
    && |run| == |acts| + 1 && SoundLayout(c.layout) && IsInitial(c, run[0])
    && forall k :: 0 <= k < |acts| ==>
         WellShaped(c, run[k]) && Enabled(c, run[k], acts[k]) && run[k + 1] == Do(c, run[k], acts[k])
  }

  /* ---------- No lost wakeup ---------- */

  /** The worker has seen its queues empty and has not been woken since. */
  predicate Drowsy(pc: WorkerPc) {
    pc.GotDone? || pc.DoneTerm? || pc.DoneNet? || pc.Idling? || pc.Asking? || pc.AskTerm? || pc.AskExternal?
    || pc.AskQueued? || pc.Stopping? || pc.Rousing? || pc.Waiting?
  }

  /** Some thread has appended to q and has yet to notify its owner. */
  ghost predicate Pending(s: State, q: QueueId) {
    exists th :: 0 <= th < |s.senders| && !s.senders[th].NotSending? && s.senders[th].q == q
  }

  ghost predicate SendersOk(c: Config, s: State)
    requires WellShaped(c, s)
  {
    forall th :: 0 <= th < |s.senders| && !s.senders[th].NotSending? ==>
      && s.senders[th].q in c.layout.ids
      && (th < Workers(c) ==> s.pcs[th].Processing?)
      && (s.senders[th].Notifying? ==>
            s.senders[th].w < Workers(c) && s.senders[th].q in c.layout.groups[s.senders[th].w])
  }

  ghost predicate WakeupOk(c: Config, s: State)
    requires WellShaped(c, s)
  {
    forall w, q :: 0 <= w < Workers(c) && q in c.layout.groups[w] && q in s.queues && Drowsy(s.pcs[w]) && s.queues[q] != [] ==>
      s.full[w] || Pending(s, q)
  }

  ghost predicate WakeInv(c: Config, s: State) {
    && WellShaped(c, s) && SoundLayout(c.layout) && SendersOk(c, s) && WakeupOk(c, s)
    && (forall w :: 0 <= w < Workers(c) && Drowsy(s.pcs[w]) ==> s.mapped)
  }

  lemma InitialWake(c: Config, s: State)
    requires SoundLayout(c.layout) && IsInitial(c, s)
    ensures WakeInv(c, s)
  {}

  lemma PendingKept(s: State, s': State, th: nat)
    requires |s'.senders| == |s.senders| && th < |s.senders|
    requires forall i :: 0 <= i < |s.senders| && i != th ==> s'.senders[i] == s.senders[i]
    requires !s'.senders[th].NotSending? && (!s.senders[th].NotSending? ==> s'.senders[th].q == s.senders[th].q)
    ensures forall q :: Pending(s, q) ==> Pending(s', q)
    ensures Pending(s', s'.senders[th].q)
  {
    forall q | Pending(s, q) ensures Pending(s', q) {
      var i :| 0 <= i < |s.senders| && !s.senders[i].NotSending? && s.senders[i].q == q;
      assert s'.senders[i].q == q;
    }
  }

  lemma SenderWake(c: Config, s: State, a: Action)
    requires WakeInv(c, s) && Enabled(c, s, a) && (a.Append? || a.Clear?)
    ensures WakeInv(c, Do(c, s, a))
  {
    var s' := Do(c, s, a);
    PendingKept(s, s', a.th);
  }

  lemma LookUpWake(c: Config, s: State, th: nat)
    requires WakeInv(c, s) && Enabled(c, s, LookUp(th))
    ensures WakeInv(c, Do(c, s, LookUp(th)))
  {
    var s' := Do(c, s, LookUp(th));
    var q := s.senders[th].q;
    var w :| 0 <= w < Workers(c) && q in c.layout.groups[w];
    OwnerUnique(c.layout, w, q);
    if s.mapped { PendingKept(s, s', th); }
  }

  lemma NotifyWake(c: Config, s: State, th: nat)
    requires WakeInv(c, s) && Enabled(c, s, Notify(th))
    ensures WakeInv(c, Do(c, s, Notify(th)))
  {
    var s' := Do(c, s, Notify(th));
    var target := s.senders[th].w;
    forall w, q | 0 <= w < Workers(c) && q in c.layout.groups[w] && q in s'.queues && Drowsy(s'.pcs[w]) && s'.queues[q] != []
      ensures s'.full[w] || Pending(s', q)
    {
      if w != target {
        if !s.full[w] {
          var i :| 0 <= i < |s.senders| && !s.senders[i].NotSending? && s.senders[i].q == q;
          assert i != th;
          assert s'.senders[i] == s.senders[i];
        }
      }
    }
  }

  lemma TakeNothing(c: Config, s: State, w: nat)
    requires WellShaped(c, s) && SoundLayout(c.layout) && w < Workers(c)
    requires MkDequeue(c.layout.groups[w], s.queues).1.None?
    ensures Take(c, s, w) == s.(pcs := s.pcs[w := GotDone])
    ensures forall q :: q in c.layout.groups[w] ==> s.queues[q] == []
  {
    MkDequeueSpec(c.layout.groups[w], s.queues);
  }

  function Taken(s: State, w: nat, q: QueueId, m: Message): State
    requires w < |s.pcs| == |s.got| && q in s.queues && s.queues[q] != []
  {
    s.(queues := s.queues[q := s.queues[q][1..]], got := s.got[w := s.got[w] + [(q, m)]], pcs := s.pcs[w := Processing(q, m)])
  }

  lemma TakeSomething(c: Config, s: State, w: nat) returns (q: QueueId, m: Message)
    requires WellShaped(c, s) && SoundLayout(c.layout) && w < Workers(c)
    requires MkDequeue(c.layout.groups[w], s.queues).1.Some?
    ensures q in c.layout.groups[w] && q in s.queues && s.queues[q] != [] && m == s.queues[q][0]
    ensures Take(c, s, w) == Taken(s, w, q, m)
  {
    MkDequeueSpec(c.layout.groups[w], s.queues);
    q, m := MkDequeue(c.layout.groups[w], s.queues).1.value.0, MkDequeue(c.layout.groups[w], s.queues).1.value.1;
  }

  lemma TakeWake(c: Config, s: State, w: nat)
    requires WakeInv(c, s) && w < Workers(c) && s.pcs[w].Dequeuing? && s.mapped
    ensures WakeInv(c, Take(c, s, w))
  {
    if MkDequeue(c.layout.groups[w], s.queues).1.None? {
      TakeNothing(c, s, w);
      SleepWake(c, s, w);
    } else {
      var q, m := TakeSomething(c, s, w);
      TakenWake(c, s, w, q, m);
    }
  }

  lemma SleepWake(c: Config, s: State, w: nat)
    requires WakeInv(c, s) && w < Workers(c) && s.pcs[w].Dequeuing? && s.mapped
    requires forall q :: q in c.layout.groups[w] ==> s.queues[q] == []
    ensures WakeInv(c, s.(pcs := s.pcs[w := GotDone]))
  {
    var s' := s.(pcs := s.pcs[w := GotDone]);
    SamePending(s, s');
  }

  lemma SamePending(s: State, s': State)
    requires s'.senders == s.senders
    ensures forall q :: Pending(s, q) ==> Pending(s', q)
  {
    forall q | Pending(s, q) ensures Pending(s', q) {}
  }

  lemma TakenWake(c: Config, s: State, w: nat, q: QueueId, m: Message)
    requires WakeInv(c, s) && w < Workers(c) && s.pcs[w].Dequeuing?
    requires q in c.layout.groups[w] && q in s.queues && s.queues[q] != []
    ensures WakeInv(c, Taken(s, w, q, m))
  {
    var s' := Taken(s, w, q, m);
    SamePending(s, s');
    forall v, r | 0 <= v < Workers(c) && r in c.layout.groups[v] && r in s'.queues && Drowsy(s'.pcs[v]) && s'.queues[r] != []
      ensures s'.full[v] || Pending(s', r)
    {
      assert v != w && s.queues[r] != [];
    }
  }

  /** What a step of worker w other than taking a message leaves alone. */
  ghost predicate WorkFrame(s: State, s': State, w: nat)
    requires w < |s.pcs|
  {
    && s'.queues == s.queues && s'.enqueued == s.enqueued && s'.senders == s.senders && s'.got == s.got
    && s'.mapped == s.mapped && s'.ready == s.ready && |s'.full| == |s.full| && |s'.finished| == |s.finished|
    && |s'.pcs| == |s.pcs| && s'.pcs == s.pcs[w := s'.pcs[w]]
    && (Drowsy(s'.pcs[w]) ==> Drowsy(s.pcs[w]))
    && !s'.pcs[w].Processing?
    && forall v :: 0 <= v < |s.full| && s.full[v] && !s'.full[v] ==> v == w && !Drowsy(s'.pcs[w])
  }

  lemma WorkFramed(c: Config, s: State, w: nat, ok: bool)
    requires WellShaped(c, s) && SoundLayout(c.layout) && WorkEnabled(c, s, w) && !s.pcs[w].Dequeuing?
    ensures WorkFrame(s, DoWork(c, s, w, ok), w)
  {
    NextPcFacts(c.waitForNetwork, SeenBy(s), s.pcs[w], ok);
    EffectFacts(s, w, s.pcs[w]);
  }

  lemma NextPcFacts(wait: bool, s: Seen, pc: WorkerPc, ok: bool)
    requires !pc.Dequeuing?
    ensures Drowsy(NextPc(wait, s, pc, ok)) ==> Drowsy(pc) && !pc.Waiting?
    ensures !NextPc(wait, s, pc, ok).Processing?
  {}

  lemma EffectFacts(s: State, w: nat, pc: WorkerPc)
    requires w < |s.full| == |s.finished|
    ensures var s' := Effect(s, w, pc);
      && s'.queues == s.queues && s'.enqueued == s.enqueued && s'.senders == s.senders && s'.got == s.got
      && s'.mapped == s.mapped && s'.ready == s.ready && s'.listeners == s.listeners
      && s'.full == (if pc.Rousing? then AllFull(s) else if pc.Waiting? then s.full[w := false] else s.full)
      && s'.finished == if pc.Processing? then s.finished[w := s.finished[w] + [(pc.q, pc.m)]] else s.finished
  {}

  lemma WorkWake(c: Config, s: State, w: nat, ok: bool)
    requires WakeInv(c, s) && WorkEnabled(c, s, w)
    ensures WakeInv(c, DoWork(c, s, w, ok))
  {
    if s.pcs[w].Dequeuing? {
      TakeWake(c, s, w);
    } else {
      WorkFramed(c, s, w, ok);
      FrameWake(c, s, DoWork(c, s, w, ok), w);
    }
  }

  lemma FrameWake(c: Config, s: State, s': State, w: nat)
    requires WakeInv(c, s) && w < Workers(c) && WorkFrame(s, s', w)
    requires s.senders[w].NotSending? || !s.pcs[w].Processing?
    ensures WakeInv(c, s')
  {
    forall q | Pending(s, q) ensures Pending(s', q) {}
    forall v, q | 0 <= v < Workers(c) && q in c.layout.groups[v] && q in s'.queues && Drowsy(s'.pcs[v]) && s'.queues[q] != []
      ensures s'.full[v] || Pending(s', q)
    {
      assert Drowsy(s.pcs[v]);
    }
  }

  lemma StepWake(c: Config, s: State, a: Action)
    requires WakeInv(c, s) && Enabled(c, s, a)
    ensures WakeInv(c, Do(c, s, a))
  {
    match a
    case Append(_, _, _) => SenderWake(c, s, a);
    case Clear(_) => SenderWake(c, s, a);
    case LookUp(th) => LookUpWake(c, s, th);
    case Notify(th) => NotifyWake(c, s, th);
    case Work(w, ok) => WorkWake(c, s, w, ok);
    case _ =>
      var s' := Do(c, s, a);
      assert s'.senders == s.senders && s'.queues == s.queues && s'.pcs == s.pcs;
      forall q | Pending(s, q) ensures Pending(s', q) {}
  }

  lemma {:induction false} RunWake(c: Config, run: seq<State>, acts: seq<Action>, k: nat)
    requires IsRun(c, run, acts) && k < |run|
    ensures WakeInv(c, run[k])
  {
    if k == 0 { InitialWake(c, run[0]); }
    else {
      RunWake(c, run, acts, k - 1);
      StepWake(c, run[k - 1], acts[k - 1]);
    }
  }

  /** No lost wakeup: whenever a worker that has found its queues empty (blocked or about to block)
      owns a queue with a message, its sample variable is full or a sender of that queue stands
      between its append and its notification. */
  lemma NoLostWakeup(c: Config, run: seq<State>, acts: seq<Action>, k: nat, w: nat, q: QueueId)
    requires IsRun(c, run, acts) && k < |run| && w < Workers(c) && q in c.layout.groups[w]
    ensures WellShaped(c, run[k]) && q in run[k].queues
    ensures Drowsy(run[k].pcs[w]) && run[k].queues[q] != [] ==> run[k].full[w] || Pending(run[k], q)
  {
    RunWake(c, run, acts, k);
  }

  /** So when all senders are through, a waiting worker with a message can move. */
  lemma WaitingWorkerCanMove(c: Config, run: seq<State>, acts: seq<Action>, k: nat, w: nat, q: QueueId)
    requires IsRun(c, run, acts) && k < |run| && w < Workers(c) && q in c.layout.groups[w]
    requires WellShaped(c, run[k]) && forall th :: 0 <= th < |run[k].senders| ==> run[k].senders[th].NotSending?
    requires q in run[k].queues && run[k].queues[q] != [] && run[k].pcs[w].Waiting? && run[k].ready
    ensures WorkEnabled(c, run[k], w)
  {
    NoLostWakeup(c, run, acts, k, w, q);
  }

  /* ---------- Conservation and order ---------- */

  /** The messages of one queue in a worker's history. */
  function OfQueue(h: seq<(QueueId, Message)>, q: QueueId): seq<Message>
    decreases |h|
  {
    if h == [] then []
    else OfQueue(h[..|h| - 1], q) + if h[|h| - 1].0 == q then [h[|h| - 1].1] else []
  }

  lemma OfQueueSnoc(h: seq<(QueueId, Message)>, x: (QueueId, Message), q: QueueId)
    ensures OfQueue(h + [x], q) == OfQueue(h, q) + if x.0 == q then [x.1] else []
  {
    assert (h + [x])[..|h|] == h;
  }

  /** Every queue's history is what its owner took followed by what is still there; others took
      nothing from it. */
  ghost predicate Conserved(c: Config, s: State)
    requires WellShaped(c, s)
  {
    forall w, q :: 0 <= w < Workers(c) && q in c.layout.ids ==>
      if q in c.layout.groups[w] then s.enqueued[q] == OfQueue(s.got[w], q) + s.queues[q]
      else OfQueue(s.got[w], q) == []
  }

  /** What a worker took is what it finished and, while it processes, the message at hand. */
  predicate Accounted(c: Config, s: State)
    requires WellShaped(c, s)
  {
    forall w :: 0 <= w < Workers(c) ==>
      s.got[w] == s.finished[w] + if s.pcs[w].Processing? then [(s.pcs[w].q, s.pcs[w].m)] else []
  }

  ghost predicate FlowInv(c: Config, s: State) {
    WellShaped(c, s) && SoundLayout(c.layout) && Conserved(c, s) && Accounted(c, s)
  }

  /** One queue in one worker's history before and after the worker takes q's head. */
  lemma TakenFlowOwn(all: seq<Message>, h: seq<(QueueId, Message)>, q: QueueId, m: Message, r: QueueId, rest: seq<Message>)
    requires all == OfQueue(h, r) + rest && (r == q ==> rest != [] && rest[0] == m)
    ensures all == OfQueue(h + [(q, m)], r) + if r == q then rest[1..] else rest
  {
    OfQueueSnoc(h, (q, m), r);
    if r == q { HeadMoves(all, OfQueue(h, r), rest); }
  }

  lemma TakenFlowAt(c: Config, s: State, w: nat, q: QueueId, m: Message, v: nat, r: QueueId)
    requires FlowInv(c, s) && w < Workers(c) && q in c.layout.groups[w] && q in s.queues && s.queues[q] != [] && m == s.queues[q][0]
    requires v < Workers(c) && r in c.layout.ids
    ensures var s' := Taken(s, w, q, m);
      if r in c.layout.groups[v] then s'.enqueued[r] == OfQueue(s'.got[v], r) + s'.queues[r]
      else OfQueue(s'.got[v], r) == []
  {
    if v == w {
      if r in c.layout.groups[w] { TakenFlowOwn(s.enqueued[r], s.got[w], q, m, r, s.queues[r]); }
      else { OfQueueSnoc(s.got[w], (q, m), r); }
    }
  }

  lemma TakenAccounted(c: Config, s: State, w: nat, q: QueueId, m: Message)
    requires WellShaped(c, s) && Accounted(c, s) && w < Workers(c) && s.pcs[w].Dequeuing? && q in s.queues && s.queues[q] != []
    ensures WellShaped(c, Taken(s, w, q, m)) && Accounted(c, Taken(s, w, q, m))
  {
    var s' := Taken(s, w, q, m);
    forall v | 0 <= v < Workers(c)
      ensures s'.got[v] == s'.finished[v] + if s'.pcs[v].Processing? then [(s'.pcs[v].q, s'.pcs[v].m)] else []
    {
      if v == w { assert s.got[w] == s.finished[w]; }
    }
  }

  lemma TakenFlow(c: Config, s: State, w: nat, q: QueueId, m: Message)
    requires FlowInv(c, s) && w < Workers(c) && s.pcs[w].Dequeuing?
    requires q in c.layout.groups[w] && q in s.queues && s.queues[q] != [] && m == s.queues[q][0]
    ensures FlowInv(c, Taken(s, w, q, m))
  {
    TakenAccounted(c, s, w, q, m);
    var s' := Taken(s, w, q, m);
    forall v, r | 0 <= v < Workers(c) && r in c.layout.ids
      ensures if r in c.layout.groups[v] then s'.enqueued[r] == OfQueue(s'.got[v], r) + s'.queues[r]
              else OfQueue(s'.got[v], r) == []
    {
      TakenFlowAt(c, s, w, q, m, v, r);
    }
  }

  lemma HeadMoves(all: seq<Message>, taken: seq<Message>, rest: seq<Message>)
    requires all == taken + rest && rest != []
    ensures all == (taken + [rest[0]]) + rest[1..]
  {}

  lemma TakeFlow(c: Config, s: State, w: nat)
    requires FlowInv(c, s) && w < Workers(c) && s.pcs[w].Dequeuing?
    ensures FlowInv(c, Take(c, s, w))
  {
    if MkDequeue(c.layout.groups[w], s.queues).1.None? {
      TakeNothing(c, s, w);
    } else {
      var q, m := TakeSomething(c, s, w);
      TakenFlow(c, s, w, q, m);
    }
  }

  lemma AppendFlow(c: Config, s: State, th: nat, q: QueueId, m: Message)
    requires FlowInv(c, s) && Enabled(c, s, Append(th, q, m))
    ensures FlowInv(c, Do(c, s, Append(th, q, m)))
  {
    var s' := Do(c, s, Append(th, q, m));
    forall w, r | 0 <= w < Workers(c) && r in c.layout.ids
      ensures if r in c.layout.groups[w] then s'.enqueued[r] == OfQueue(s'.got[w], r) + s'.queues[r]
              else OfQueue(s'.got[w], r) == []
    {
      if r in c.layout.groups[w] { assert s.enqueued[r] == OfQueue(s.got[w], r) + s.queues[r]; }
    }
  }

  lemma WorkFlow(c: Config, s: State, w: nat, ok: bool)
    requires FlowInv(c, s) && WorkEnabled(c, s, w)
    ensures FlowInv(c, DoWork(c, s, w, ok))
  {
    if s.pcs[w].Dequeuing? {
      TakeFlow(c, s, w);
    } else {
      WorkFramed(c, s, w, ok);
      EffectFacts(s, w, s.pcs[w]);
    }
  }

  lemma StepFlow(c: Config, s: State, a: Action)
    requires FlowInv(c, s) && Enabled(c, s, a)
    ensures FlowInv(c, Do(c, s, a))
  {
    match a
    case Append(th, q, m) => AppendFlow(c, s, th, q, m);
    case Work(w, ok) => WorkFlow(c, s, w, ok);
    case _ =>
      var s' := Do(c, s, a);
      assert s'.queues == s.queues && s'.enqueued == s.enqueued && s'.got == s.got && s'.finished == s.finished && s'.pcs == s.pcs;
  }

  lemma {:induction false} RunFlow(c: Config, run: seq<State>, acts: seq<Action>, k: nat)
    requires IsRun(c, run, acts) && k < |run|
    ensures FlowInv(c, run[k])
  {
    if k > 0 {
      RunFlow(c, run, acts, k - 1);
      StepFlow(c, run[k - 1], acts[k - 1]);
    }
  }

  /** Conservation and order under all layouts and interleavings: what was enqueued on a queue is, in
      order, what its one owner has taken and what is still queued; a worker that does not own the
      queue takes nothing from it. */
  lemma NothingLostOrRepeated(c: Config, run: seq<State>, acts: seq<Action>, k: nat, w: nat, q: QueueId)
    requires IsRun(c, run, acts) && k < |run| && w < Workers(c) && q in c.layout.ids
    ensures WellShaped(c, run[k])
    ensures q in c.layout.groups[w] ==> run[k].enqueued[q] == OfQueue(run[k].got[w], q) + run[k].queues[q]
    ensures q !in c.layout.groups[w] ==> OfQueue(run[k].got[w], q) == []
    ensures run[k].finished[w] <= run[k].got[w] && |run[k].got[w]| <= |run[k].finished[w]| + 1
  {
    RunFlow(c, run, acts, k);
  }
}
