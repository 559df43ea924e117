/** Requests to stop, listeners, the last worker's clean-up and the signal that all work is done, in every
    run of the engine. */
module Stopping {
  import opened Queues
  import opened EngineProtocol
  import opened Idleness

  /* ---------- Runs ---------- */

  lemma RunShaped(c: Config, run: seq<State>, acts: seq<Action>, k: nat)
    requires IsRun(c, run, acts) && k < |run|
    ensures WellShaped(c, run[k]) && SoundLayout(c.layout)
  {
    RunFlow(c, run, acts, k);
  }

  lemma RunsOn(c: Config, run: seq<State>, acts: seq<Action>, j: nat)
    requires IsRun(c, run, acts) && 0 < j < |run|
    ensures WellShaped(c, run[j - 1]) && SoundLayout(c.layout) && Enabled(c, run[j - 1], acts[j - 1])
    ensures run[j] == Do(c, run[j - 1], acts[j - 1])
  {
    var i := j - 1;
    assert run[i + 1] == Do(c, run[i], acts[i]);
  }

  /** Taking a message moves one worker, one way or the other. */
  lemma Takes(c: Config, s: State, w: nat)
    requires WellShaped(c, s) && SoundLayout(c.layout) && w < Workers(c)
    ensures var s' := Take(c, s, w);
      && |s'.got| == |s'.pcs| == |s'.full| == Workers(c) && s'.full == s.full && s'.outOfWork == s.outOfWork && s'.live == s.live
      && s'.pcs == s.pcs[w := s'.pcs[w]] && (s'.pcs[w].GotDone? || s'.pcs[w].Processing?)
      && (forall v :: 0 <= v < Workers(c) && v != w ==> s'.got[v] == s.got[v])
      && s.got[w] <= s'.got[w] && |s'.got[w]| == |s.got[w]| + One(s'.pcs[w].Processing?)
  {
    if MkDequeue(c.layout.groups[w], s.queues).1.None? { TakeNothing(c, s, w); } else { var q, m := TakeSomething(c, s, w); }
  }

  /* ---------- A request to stop ---------- */

  /** A part of a run during which the engine does not wait for its network and the request stands. */
  ghost predicate Asked(c: Config, run: seq<State>, acts: seq<Action>, k: nat, j: nat, one: bool) {
    && IsRun(c, run, acts) && k <= j < |run| && !c.waitForNetwork
    && forall i :: k <= i < j ==> if one then run[i].term.FinishOne? else !run[i].term.Off?
  }

  /** The worker may take a message before it reads the request again. */
  function Room(pc: WorkerPc): nat {
    match pc
    case ResultTerm(t) => if t then 0 else 1
    case ResultNet(t, _) => if t then 0 else 1
    case DoneTerm(t) => if t then 0 else 1
    case DoneNet(t, _) => if t then 0 else 1
    case Dequeuing => 1
    case Idling => 1
    case Asking => 1
    case AskTerm(_) => 1
    case AskExternal(_) => 1
    case AskQueued(_, _) => 1
    case Stopping => 1
    case Rousing => 1
    case Waiting => 1
    case Woken => 1
    case _ => 0
  }

  lemma TakesCounted(c: Config, s: State, w: nat, v: nat)
    requires WellShaped(c, s) && SoundLayout(c.layout) && w < Workers(c) && v < Workers(c) && s.pcs[w].Dequeuing?
    ensures var s' := Take(c, s, w);
      |s'.got| == |s'.pcs| == Workers(c) && |s'.got[v]| + Room(s'.pcs[v]) <= |s.got[v]| + Room(s.pcs[v])
  {
    Takes(c, s, w);
  }

  lemma RoomShrinks(wait: bool, v: Seen, pc: WorkerPc, ok: bool)
    requires !wait && v.term.FinishOne? && !pc.Dequeuing?
    ensures Room(NextPc(wait, v, pc, ok)) <= Room(pc)
  {}

  lemma RoomStep(c: Config, s: State, a: Action, v: nat)
    requires WellShaped(c, s) && SoundLayout(c.layout) && Enabled(c, s, a) && !c.waitForNetwork && s.term.FinishOne? && v < Workers(c)
    ensures var s' := Do(c, s, a);
      |s'.got| == |s'.pcs| == Workers(c) && |s'.got[v]| + Room(s'.pcs[v]) <= |s.got[v]| + Room(s.pcs[v])
  {
    if a.Work? {
      if s.pcs[a.w].Dequeuing? {
        TakesCounted(c, s, a.w, v);
      } else {
        WorkFramed(c, s, a.w, a.ok);
        RoomShrinks(c.waitForNetwork, SeenBy(s), s.pcs[a.w], a.ok);
      }
    }
  }

  lemma TakenStep(c: Config, s: State, a: Action, v: nat)
    requires WellShaped(c, s) && SoundLayout(c.layout) && Enabled(c, s, a) && v < Workers(c)
    ensures |Do(c, s, a).got| == Workers(c) && s.got[v] <= Do(c, s, a).got[v]
  {
    if a.Work? {
      if s.pcs[a.w].Dequeuing? {
        Takes(c, s, a.w);
      } else {
        WorkFramed(c, s, a.w, a.ok);
      }
    }
  }

  /** From s to t the worker has taken no more than it had room for. */
  ghost predicate Within(c: Config, s: State, t: State, w: nat) {
    && WellShaped(c, s) && WellShaped(c, t) && w < Workers(c)
    && s.got[w] <= t.got[w] && |t.got[w]| + Room(t.pcs[w]) <= |s.got[w]| + Room(s.pcs[w])
  }

  lemma WithinStep(c: Config, s: State, t: State, a: Action, t': State, w: nat)
    requires Within(c, s, t, w) && SoundLayout(c.layout) && Enabled(c, t, a) && t' == Do(c, t, a) && WellShaped(c, t')
    requires !c.waitForNetwork && t.term.FinishOne?
    ensures Within(c, s, t', w)
  {
    RoomStep(c, t, a, w);
    TakenStep(c, t, a, w);
  }

  lemma WithinOn(c: Config, run: seq<State>, acts: seq<Action>, k: nat, j: nat, w: nat)
    requires Asked(c, run, acts, k, j, true) && k < j && Within(c, run[k], run[j - 1], w)
    ensures Within(c, run[k], run[j], w)
  {
    RunsOn(c, run, acts, j);
    RunShaped(c, run, acts, j);
    WithinStep(c, run[k], run[j - 1], acts[j - 1], run[j], w);
  }

  lemma {:induction false} TakesWithin(c: Config, run: seq<State>, acts: seq<Action>, k: nat, j: nat, w: nat)
    requires Asked(c, run, acts, k, j, true) && w < Workers(c)
    ensures Within(c, run[k], run[j], w)
    decreases j
  {
    if k == j {
      RunShaped(c, run, acts, k);
    } else {
      TakesWithin(c, run, acts, k, j - 1, w);
      WithinOn(c, run, acts, k, j, w);
    }
  }

  /** Asked to stop after one message, no worker takes more than one message more, and none at all if it is
      still busy with one. */
  lemma AtMostOneMore(c: Config, run: seq<State>, acts: seq<Action>, k: nat, j: nat, w: nat)
    requires Asked(c, run, acts, k, j, true) && w < Workers(c)
    ensures WellShaped(c, run[k]) && WellShaped(c, run[j]) && run[k].got[w] <= run[j].got[w]
    ensures |run[j].got[w]| <= |run[k].got[w]| + 1
    ensures run[k].pcs[w].Processing? || run[k].pcs[w].GotResult? ==> run[j].got[w] == run[k].got[w]
  {
    TakesWithin(c, run, acts, k, j, w);
  }

  /** Not on the way to sleep. */
  predicate Busy(pc: WorkerPc) {
    match pc
    case DoneTerm(t) => t
    case DoneNet(t, _) => t
    case Idling => false
    case Asking => false
    case AskTerm(_) => false
    case AskExternal(_) => false
    case AskQueued(_, _) => false
    case Stopping => false
    case Rousing => false
    case Waiting => false
    case Woken => false
    case _ => true
  }

  lemma BusyNext(wait: bool, v: Seen, pc: WorkerPc, ok: bool)
    requires !wait && !v.term.Off? && Busy(pc)
    ensures Busy(NextPc(wait, v, pc, ok))
  {}

  lemma BusyStep(c: Config, s: State, a: Action, v: nat)
    requires WellShaped(c, s) && SoundLayout(c.layout) && Enabled(c, s, a) && !c.waitForNetwork && !s.term.Off? && v < Workers(c)
    requires Busy(s.pcs[v])
    ensures |Do(c, s, a).pcs| == Workers(c) && Busy(Do(c, s, a).pcs[v])
  {
    if a.Work? {
      if s.pcs[a.w].Dequeuing? {
        Takes(c, s, a.w);
      } else {
        WorkFramed(c, s, a.w, a.ok);
        if v == a.w { BusyNext(c.waitForNetwork, SeenBy(s), s.pcs[v], a.ok); }
      }
    }
  }

  ghost predicate IsBusy(c: Config, s: State, w: nat) { WellShaped(c, s) && w < Workers(c) && Busy(s.pcs[w]) }

  lemma BusyOn(c: Config, run: seq<State>, acts: seq<Action>, k: nat, j: nat, w: nat)
    requires Asked(c, run, acts, k, j, false) && k < j && IsBusy(c, run[j - 1], w)
    ensures IsBusy(c, run[j], w)
  {
    RunsOn(c, run, acts, j);
    RunShaped(c, run, acts, j);
    BusyStep(c, run[j - 1], acts[j - 1], w);
  }

  /** Asked to stop, a busy worker never goes to sleep again: it leaves when its queues are empty. */
  lemma {:induction false} NoMoreSleep(c: Config, run: seq<State>, acts: seq<Action>, k: nat, j: nat, w: nat)
    requires Asked(c, run, acts, k, j, false) && IsBusy(c, run[k], w)
    ensures IsBusy(c, run[j], w)
    decreases j
  {
    if k < j {
      NoMoreSleep(c, run, acts, k, j - 1, w);
      BusyOn(c, run, acts, k, j, w);
    }
  }

  /* ---------- Errors ---------- */

  predicate Failed(pc: WorkerPc) { pc.Failing? || pc.Dead? }

  /** From s to t the worker has failed and taken nothing more. */
  ghost predicate Over(c: Config, s: State, t: State, w: nat) {
    WellShaped(c, s) && WellShaped(c, t) && w < Workers(c) && Failed(t.pcs[w]) && t.got[w] == s.got[w]
  }

  lemma OverStep(c: Config, s: State, t: State, a: Action, w: nat)
    requires Over(c, s, t, w) && SoundLayout(c.layout) && Enabled(c, t, a) && WellShaped(c, Do(c, t, a))
    ensures Over(c, s, Do(c, t, a), w)
  {
    if a.Work? {
      if t.pcs[a.w].Dequeuing? { Takes(c, t, a.w); } else { WorkFramed(c, t, a.w, a.ok); }
    }
  }

  lemma OverOn(c: Config, run: seq<State>, acts: seq<Action>, k: nat, j: nat, w: nat)
    requires IsRun(c, run, acts) && k < j < |run| && Over(c, run[k], run[j - 1], w)
    ensures Over(c, run[k], run[j], w)
  {
    RunsOn(c, run, acts, j);
    RunShaped(c, run, acts, j);
    OverStep(c, run[k], run[j - 1], acts[j - 1], w);
  }

  lemma ErrorStep(c: Config, s: State, w: nat)
    requires WellShaped(c, s) && SoundLayout(c.layout) && WorkEnabled(c, s, w) && (s.pcs[w].Processing? || s.pcs[w].CountedLive?)
    requires WellShaped(c, Do(c, s, Work(w, false)))
    ensures Over(c, s, Do(c, s, Work(w, false)), w)
  {
    WorkFramed(c, s, w, false);
  }

  /** A worker whose handler reports an error takes no further message, ever. */
  lemma {:induction false} ErrorEndsWorker(c: Config, run: seq<State>, acts: seq<Action>, k: nat, j: nat, w: nat)
    requires IsRun(c, run, acts) && k < j < |run| && acts[k] == Work(w, false) && w < Workers(c)
    requires WellShaped(c, run[k]) && (run[k].pcs[w].Processing? || run[k].pcs[w].CountedLive?)
    ensures Over(c, run[k], run[j], w)
    decreases j
  {
    if j == k + 1 {
      RunsOn(c, run, acts, j);
      RunShaped(c, run, acts, j);
      ErrorStep(c, run[k], w);
    } else {
      ErrorEndsWorker(c, run, acts, k, j - 1, w);
      OverOn(c, run, acts, k, j, w);
    }
  }

  /* ---------- Listeners ---------- */

  /** The worker has not seen the network done, and, unless the engine waits for its network, no request. */
  predicate Staying(wait: bool, pc: WorkerPc) {
    match pc
    case ResultTerm(t) => wait || !t
    case ResultNet(t, net) => !net && (wait || !t)
    case DoneTerm(t) => wait || !t
    case DoneNet(t, net) => !net && (wait || !t)
    case Leaving => false
    case LastCheck => false
    case ShuttingDown => false
    case _ => true
  }

  lemma StayingNext(wait: bool, v: Seen, pc: WorkerPc, ok: bool)
    requires Staying(wait, pc) && v.listeners > 0 && (wait || v.term.Off?)
    ensures Staying(wait, NextPc(wait, v, pc, ok))
  {}

  lemma StayingStep(c: Config, s: State, a: Action, v: nat)
    requires WellShaped(c, s) && SoundLayout(c.layout) && Enabled(c, s, a) && v < Workers(c)
    requires Staying(c.waitForNetwork, s.pcs[v]) && s.listeners > 0 && (c.waitForNetwork || s.term.Off?)
    ensures |Do(c, s, a).pcs| == Workers(c) && Staying(c.waitForNetwork, Do(c, s, a).pcs[v])
  {
    if a.Work? {
      if s.pcs[a.w].Dequeuing? {
        Takes(c, s, a.w);
      } else {
        WorkFramed(c, s, a.w, a.ok);
        if v == a.w { StayingNext(c.waitForNetwork, SeenBy(s), s.pcs[v], a.ok); }
      }
    }
  }

  /** While a listener is up, nobody leaves: as long as the engine waits for its network or nobody asks it
      to stop, a worker ends by an error or not at all. */
  lemma {:induction false} ListenersKeepWorkers(c: Config, run: seq<State>, acts: seq<Action>, k: nat, w: nat)
    requires IsRun(c, run, acts) && k < |run| && w < Workers(c)
    requires forall i :: 0 <= i < k ==> run[i].listeners > 0 && (c.waitForNetwork || run[i].term.Off?)
    ensures WellShaped(c, run[k]) && Staying(c.waitForNetwork, run[k].pcs[w])
    ensures !run[k].pcs[w].Leaving? && !run[k].pcs[w].LastCheck? && !run[k].pcs[w].ShuttingDown?
    decreases k
  {
    RunShaped(c, run, acts, k);
    if k > 0 {
      ListenersKeepWorkers(c, run, acts, k - 1, w);
      RunsOn(c, run, acts, k);
      StayingStep(c, run[k - 1], acts[k - 1], w);
    }
  }

  /* ---------- The last one cleans up ---------- */

  /** Counted as live. */
  predicate Live(pc: WorkerPc) { !pc.NotStarted? && !pc.LastCheck? && !pc.ShuttingDown? && !pc.Dead? }

  function LiveCount(pcs: seq<WorkerPc>): nat
    decreases |pcs|
  {
    if pcs == [] then 0 else One(Live(pcs[0])) + LiveCount(pcs[1..])
  }

  lemma {:induction false} LiveUpdate(pcs: seq<WorkerPc>, w: nat, pc: WorkerPc)
    requires w < |pcs|
    ensures LiveCount(pcs[w := pc]) == LiveCount(pcs) - One(Live(pcs[w])) + One(Live(pc))
    decreases |pcs|
  {
    if w == 0 {
      assert pcs[w := pc][1..] == pcs[1..];
    } else {
      assert pcs[w := pc][1..] == pcs[1..][w - 1 := pc];
      LiveUpdate(pcs[1..], w - 1, pc);
    }
  }

  lemma {:induction false} NobodyLive(pcs: seq<WorkerPc>)
    ensures LiveCount(pcs) == 0 <==> forall w :: 0 <= w < |pcs| ==> !Live(pcs[w])
    decreases |pcs|
  {
    if pcs != [] {
      NobodyLive(pcs[1..]);
      assert forall w :: 0 < w < |pcs| ==> pcs[w] == pcs[1..][w - 1];
    }
  }

  lemma LiveNext(wait: bool, v: Seen, pc: WorkerPc, ok: bool)
    requires !pc.ShuttingDown? && !pc.Dead? && !pc.Dequeuing?
    ensures One(Live(NextPc(wait, v, pc, ok))) == One(Live(pc)) + LiveDelta(pc)
  {}

  lemma LiveStep(c: Config, s: State, a: Action)
    requires WellShaped(c, s) && SoundLayout(c.layout) && Enabled(c, s, a) && s.live == LiveCount(s.pcs)
    ensures Do(c, s, a).live == LiveCount(Do(c, s, a).pcs)
  {
    if a.Work? {
      var w, pc := a.w, s.pcs[a.w];
      if pc.Dequeuing? {
        Takes(c, s, w);
        LiveUpdate(s.pcs, w, Take(c, s, w).pcs[w]);
      } else {
        WorkFramed(c, s, w, a.ok);
        EffectCounts(s, w, pc);
        LiveNext(c.waitForNetwork, SeenBy(s), pc, a.ok);
        LiveUpdate(s.pcs, w, NextPc(c.waitForNetwork, SeenBy(s), pc, a.ok));
      }
    }
  }

  lemma {:induction false} NobodyStarted(pcs: seq<WorkerPc>)
    requires forall w :: 0 <= w < |pcs| ==> pcs[w].NotStarted?
    ensures LiveCount(pcs) == 0
    decreases |pcs|
  {
    if pcs != [] { NobodyStarted(pcs[1..]); }
  }

  /** In every run the counter is the number of workers that have started and not left. */
  lemma {:induction false} LiveIsCounted(c: Config, run: seq<State>, acts: seq<Action>, k: nat)
    requires IsRun(c, run, acts) && k < |run|
    ensures run[k].live == LiveCount(run[k].pcs)
    decreases k
  {
    if k == 0 {
      NobodyStarted(run[0].pcs);
    } else {
      LiveIsCounted(c, run, acts, k - 1);
      RunsOn(c, run, acts, k);
      LiveStep(c, run[k - 1], acts[k - 1]);
    }
  }

  /** A worker on its way out goes on to the clean-up exactly when nobody is live any more. */
  lemma LastOneCleansUp(c: Config, run: seq<State>, acts: seq<Action>, k: nat, w: nat)
    requires IsRun(c, run, acts) && k < |acts| && acts[k].Work? && acts[k].w == w && w < Workers(c)
    requires WellShaped(c, run[k]) && run[k].pcs[w].LastCheck?
    ensures WellShaped(c, run[k + 1])
    ensures run[k + 1].pcs[w] == if forall v :: 0 <= v < Workers(c) ==> !Live(run[k].pcs[v]) then ShuttingDown else Dead
  {
    LiveIsCounted(c, run, acts, k);
    NobodyLive(run[k].pcs);
    RunShaped(c, run, acts, k + 1);
  }

  ghost predicate NoErrors(acts: seq<Action>) { forall k :: 0 <= k < |acts| && acts[k].Work? ==> acts[k].ok }

  /** Somebody has not died without cleaning up, and nobody has failed. */
  ghost predicate SomebodyLeft(s: State) {
    (exists w :: 0 <= w < |s.pcs| && !s.pcs[w].Dead?) && forall w :: 0 <= w < |s.pcs| ==> !s.pcs[w].Failing?
  }

  lemma NoFailure(wait: bool, v: Seen, pc: WorkerPc)
    requires !pc.Failing?
    ensures !NextPc(wait, v, pc, true).Failing?
    ensures NextPc(wait, v, pc, true).Dead? ==> pc.Dead? || (pc.LastCheck? && v.live != 0)
  {}

  lemma LeftStep(c: Config, s: State, a: Action)
    requires WellShaped(c, s) && SoundLayout(c.layout) && Enabled(c, s, a) && s.live == LiveCount(s.pcs) && SomebodyLeft(s)
    requires a.Work? ==> a.ok
    ensures SomebodyLeft(Do(c, s, a))
  {
    if a.Work? {
      var w, pc := a.w, s.pcs[a.w];
      if pc.Dequeuing? {
        Takes(c, s, w);
        assert !Do(c, s, a).pcs[w].Dead?;
      } else {
        WorkFramed(c, s, w, a.ok);
        NoFailure(c.waitForNetwork, SeenBy(s), pc);
        LeftAfter(s, Do(c, s, a), w, pc);
      }
    } else {
      assert Do(c, s, a).pcs == s.pcs;
    }
  }

  lemma LeftAfter(s: State, s': State, w: nat, pc: WorkerPc)
    requires w < |s.pcs| == |s'.pcs| && s.live == LiveCount(s.pcs) && SomebodyLeft(s) && pc == s.pcs[w]
    requires s'.pcs == s.pcs[w := s'.pcs[w]] && !s'.pcs[w].Failing?
    requires s'.pcs[w].Dead? ==> pc.Dead? || (pc.LastCheck? && s.live != 0)
    ensures SomebodyLeft(s')
  {
    if s'.pcs[w].Dead? {
      if pc.Dead? {
        var v :| 0 <= v < |s.pcs| && !s.pcs[v].Dead?;
        assert !s'.pcs[v].Dead?;
      } else {
        NobodyLive(s.pcs);
        var v :| 0 <= v < |s.pcs| && Live(s.pcs[v]);
        assert !s'.pcs[v].Dead?;
      }
    } else {
      assert !s'.pcs[w].Dead?;
    }
  }

  /** Without errors somebody cleans up: when every worker is over, one of them is at the clean-up. */
  lemma SomebodyCleansUp(c: Config, run: seq<State>, acts: seq<Action>, k: nat)
    requires IsRun(c, run, acts) && NoErrors(acts) && k < |run| && Workers(c) > 0
    requires forall w :: 0 <= w < |run[k].pcs| ==> run[k].pcs[w].Dead? || run[k].pcs[w].ShuttingDown?
    ensures exists w :: 0 <= w < |run[k].pcs| && run[k].pcs[w].ShuttingDown?
  {
    RunLeft(c, run, acts, k);
  }

  lemma {:induction false} RunLeft(c: Config, run: seq<State>, acts: seq<Action>, k: nat)
    requires IsRun(c, run, acts) && NoErrors(acts) && k < |run| && Workers(c) > 0
    ensures SomebodyLeft(run[k])
    decreases k
  {
    if k == 0 {
      assert !run[0].pcs[0].Dead?;
    } else {
      RunLeft(c, run, acts, k - 1);
      LiveIsCounted(c, run, acts, k - 1);
      RunsOn(c, run, acts, k);
      LeftStep(c, run[k - 1], acts[k - 1]);
    }
  }

  /* ---------- The end of work is heard by everybody ---------- */

  /** The worker has counted itself idle and not been woken since. */
  predicate Asleep(pc: WorkerPc) {
    pc.Idling? || pc.Asking? || pc.AskTerm? || pc.AskExternal? || pc.AskQueued? || pc.Stopping? || pc.Waiting?
  }

  ghost predicate Heard(s: State, w: nat)
    requires w < |s.pcs| && |s.full| == |s.pcs|
  {
    && (s.pcs[w].DoneNet? ==> s.pcs[w].net)
    && (s.outOfWork && Asleep(s.pcs[w]) ==> s.full[w] || exists v :: 0 <= v < |s.pcs| && s.pcs[v].Rousing?)
  }

  lemma HeardInitial(c: Config, s: State, w: nat)
    requires IsInitial(c, s) && w < Workers(c)
    ensures Heard(s, w)
  {}

  lemma HeardFramed(s: State, s': State, v: nat, w: nat)
    requires v < |s.pcs| == |s'.pcs| == |s.full| == |s'.full| && w < |s.pcs| && Heard(s, w)
    requires s'.pcs == s.pcs[v := s'.pcs[v]]
    requires s'.full == if s.pcs[v].Rousing? then AllFull(s) else if s.pcs[v].Waiting? then s.full[v := false] else s.full
    requires s'.outOfWork == (s.outOfWork || s.pcs[v].Stopping?) && (s.pcs[v].Stopping? ==> s'.pcs[v].Rousing?)
    requires Asleep(s'.pcs[v]) ==> !s.pcs[v].Waiting? && (Asleep(s.pcs[v]) || s.pcs[v].Rousing? || !s.outOfWork)
    requires s'.pcs[v].DoneNet? ==> s'.pcs[v].net
    ensures Heard(s', w)
  {
    if s'.outOfWork && Asleep(s'.pcs[w]) {
      if s.pcs[v].Stopping? {
        assert s'.pcs[v].Rousing?;
      } else if s.pcs[v].Rousing? {
        assert AllFull(s)[w];
      } else if u :| 0 <= u < |s.pcs| && s.pcs[u].Rousing? {
        assert s'.pcs[u].Rousing?;
      }
    }
  }

  lemma HeardNext(wait: bool, v: Seen, pc: WorkerPc, ok: bool)
    requires v.listeners == 0 && !pc.Dequeuing? && (pc.DoneNet? ==> pc.net)
    ensures var pc' := NextPc(wait, v, pc, ok);
      && (pc.Stopping? ==> pc'.Rousing?) && (pc'.DoneNet? ==> pc'.net)
      && (Asleep(pc') ==> !pc.Waiting? && (Asleep(pc) || pc.Rousing? || !v.outOfWork))
  {}

  lemma HeardWork(c: Config, s: State, v: nat, ok: bool, w: nat)
    requires WellShaped(c, s) && SoundLayout(c.layout) && WorkEnabled(c, s, v) && s.listeners == 0 && w < Workers(c)
    requires Heard(s, w) && Heard(s, v)
    ensures var s' := DoWork(c, s, v, ok); |s'.pcs| == |s'.full| == Workers(c) && Heard(s', w)
  {
    if s.pcs[v].Dequeuing? {
      HeardTake(c, s, v, w);
    } else {
      WorkFramed(c, s, v, ok);
      EffectFacts(s, v, s.pcs[v]);
      EffectKeeps(s, v, s.pcs[v]);
      HeardNext(c.waitForNetwork, SeenBy(s), s.pcs[v], ok);
      HeardFramed(s, DoWork(c, s, v, ok), v, w);
    }
  }

  lemma HeardTake(c: Config, s: State, v: nat, w: nat)
    requires WellShaped(c, s) && SoundLayout(c.layout) && v < Workers(c) && w < Workers(c) && s.pcs[v].Dequeuing? && Heard(s, w)
    ensures var s' := Take(c, s, v); |s'.pcs| == |s'.full| == Workers(c) && Heard(s', w)
  {
    Takes(c, s, v);
    HeardFramed(s, Take(c, s, v), v, w);
  }

  lemma HeardAside(s: State, s': State, w: nat)
    requires w < |s.pcs| == |s.full| == |s'.full| && s'.pcs == s.pcs && Heard(s, w) && (s'.outOfWork ==> s.outOfWork)
    requires s.full[w] ==> s'.full[w]
    ensures Heard(s', w)
  {}

  lemma HeardStep(c: Config, s: State, a: Action, w: nat)
    requires WellShaped(c, s) && SoundLayout(c.layout) && Enabled(c, s, a) && s.listeners == 0
    requires w < Workers(c) && forall v :: 0 <= v < Workers(c) ==> Heard(s, v)
    ensures var s' := Do(c, s, a); |s'.pcs| == |s'.full| == Workers(c) && Heard(s', w)
  {
    if a.Work? {
      HeardWork(c, s, a.w, a.ok, w);
    } else {
      HeardAside(s, Do(c, s, a), w);
    }
  }

  lemma {:induction false} RunHeard(c: Config, run: seq<State>, acts: seq<Action>, k: nat)
    requires IsRun(c, run, acts) && k < |run| && forall i :: 0 <= i < k ==> run[i].listeners == 0
    ensures WellShaped(c, run[k]) && forall w :: 0 <= w < Workers(c) ==> Heard(run[k], w)
    decreases k
  {
    RunShaped(c, run, acts, k);
    if k == 0 {
      forall w | 0 <= w < Workers(c) ensures Heard(run[0], w) { HeardInitial(c, run[0], w); }
    } else {
      RunHeard(c, run, acts, k - 1);
      RunsOn(c, run, acts, k);
      forall w | 0 <= w < Workers(c) ensures Heard(run[k], w) { HeardStep(c, run[k - 1], acts[k - 1], w); }
    }
  }

  /** No lost shutdown: without listeners, once the end of work has been announced and as long as no new
      message has come, every sleeping worker has been signalled or is about to be. */
  lemma EndOfWorkIsHeard(c: Config, run: seq<State>, acts: seq<Action>, k: nat, w: nat)
    requires IsRun(c, run, acts) && k < |run| && w < Workers(c) && forall i :: 0 <= i < k ==> run[i].listeners == 0
    ensures WellShaped(c, run[k])
    ensures run[k].outOfWork && run[k].pcs[w].Waiting? ==>
      run[k].full[w] || exists v :: 0 <= v < Workers(c) && run[k].pcs[v].Rousing?
  {
    RunHeard(c, run, acts, k);
    assert Heard(run[k], w);
  }

  /* ---------- What the flag and the signals mean ---------- */

  /** The step announces the end of work. */
  predicate Announces(s: State, a: Action) { a.Work? && a.w < |s.pcs| && s.pcs[a.w].Stopping? }

  /** The end of work has been announced and no sender has come by since. */
  ghost predicate AnnouncedSince(run: seq<State>, acts: seq<Action>, k: nat)
    requires k <= |acts| && |run| == |acts| + 1
  {
    exists i :: 0 <= i < k && Announces(run[i], acts[i]) && forall j :: i < j < k ==> !acts[j].Clear?
  }

  lemma FlagStep(c: Config, s: State, a: Action)
    requires WellShaped(c, s) && SoundLayout(c.layout) && Enabled(c, s, a)
    ensures Do(c, s, a).outOfWork == ((s.outOfWork || Announces(s, a)) && !a.Clear?)
  {
    if a.Work? {
      if s.pcs[a.w].Dequeuing? { Takes(c, s, a.w); } else { EffectKeeps(s, a.w, s.pcs[a.w]); }
    }
  }

  lemma HistoryStep(run: seq<State>, acts: seq<Action>, k: nat)
    requires 0 < k <= |acts| && |run| == |acts| + 1
    ensures AnnouncedSince(run, acts, k) <==>
      Announces(run[k - 1], acts[k - 1]) || (AnnouncedSince(run, acts, k - 1) && !acts[k - 1].Clear?)
  {
    if AnnouncedSince(run, acts, k) {
      var i :| 0 <= i < k && Announces(run[i], acts[i]) && forall j :: i < j < k ==> !acts[j].Clear?;
    }
    if AnnouncedSince(run, acts, k - 1) && !acts[k - 1].Clear? {
      var i :| 0 <= i < k - 1 && Announces(run[i], acts[i]) && forall j :: i < j < k - 1 ==> !acts[j].Clear?;
      assert forall j :: i < j < k ==> !acts[j].Clear?;
    }
  }

  /** In every run the flag says exactly that. */
  lemma {:induction false} FlagIsHistory(c: Config, run: seq<State>, acts: seq<Action>, k: nat)
    requires IsRun(c, run, acts) && k < |run|
    ensures run[k].outOfWork <==> AnnouncedSince(run, acts, k)
    decreases k
  {
    if k > 0 {
      FlagIsHistory(c, run, acts, k - 1);
      FlagAt(c, run, acts, k);
      HistoryStep(run, acts, k);
    }
  }

  lemma FlagAt(c: Config, run: seq<State>, acts: seq<Action>, k: nat)
    requires IsRun(c, run, acts) && 0 < k < |run|
    ensures run[k].outOfWork <==> (run[k - 1].outOfWork || Announces(run[k - 1], acts[k - 1])) && !acts[k - 1].Clear?
    ensures Announces(run[k - 1], acts[k - 1]) ==> !acts[k - 1].Clear?
  {
    RunsOn(c, run, acts, k);
    FlagStep(c, run[k - 1], acts[k - 1]);
  }

  /** Signalling all workers lets every sleeping one move. */
  lemma NotifiedCanMove(c: Config, s: State, w: nat)
    requires WellShaped(c, s) && SoundLayout(c.layout) && Enabled(c, s, NotifyAll) && w < Workers(c) && s.pcs[w].Waiting?
    ensures WellShaped(c, Do(c, s, NotifyAll)) && WorkEnabled(c, Do(c, s, NotifyAll), w)
  {}
}
