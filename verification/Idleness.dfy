/** What workers are doing: awake, at rest, on the way out, and how the engine's counters follow. */
module Idleness {
  import opened Queues
  import opened EngineProtocol

  /** The worker has found its queues empty and processed nothing since. */
  predicate Resting(pc: WorkerPc) {
    Drowsy(pc) || pc.Woken? || pc.Leaving? || pc.LastCheck? || pc.ShuttingDown?
  }

  function AwakeDelta(pc: WorkerPc): int { if pc.CountedLive? || pc.Woken? then 1 else if pc.Idling? then -1 else 0 }

  function LiveDelta(pc: WorkerPc): int { if pc.NotStarted? then 1 else if pc.Leaving? || pc.Failing? then -1 else 0 }

  function One(b: bool): int { if b then 1 else 0 }

  lemma EffectCounts(s: State, w: nat, pc: WorkerPc)
    requires w < |s.full| == |s.finished|
    ensures Effect(s, w, pc).awake == s.awake + AwakeDelta(pc) && Effect(s, w, pc).live == s.live + LiveDelta(pc)
  {}

  /* ---------- Counting awake workers ---------- */

  /** Between counting itself awake and counting itself idle, on the way of a worker without error. */
  predicate Active(pc: WorkerPc) {
    pc.Processing? || pc.GotResult? || pc.ResultTerm? || pc.ResultNet? || pc.Dequeuing?
    || pc.GotDone? || pc.DoneTerm? || pc.DoneNet? || pc.Idling?
  }

  function ActiveCount(pcs: seq<WorkerPc>): nat
    decreases |pcs|
  {
    if pcs == [] then 0 else (if Active(pcs[0]) then 1 else 0) + ActiveCount(pcs[1..])
  }

  lemma {:induction false} ActiveUpdate(pcs: seq<WorkerPc>, w: nat, pc: WorkerPc)
    requires w < |pcs|
    ensures ActiveCount(pcs[w := pc]) ==
      ActiveCount(pcs) - (if Active(pcs[w]) then 1 else 0) + (if Active(pc) then 1 else 0)
    decreases |pcs|
  {
    if w == 0 {
      assert pcs[w := pc][1..] == pcs[1..];
    } else {
      assert pcs[w := pc][1..] == pcs[1..][w - 1 := pc];
      ActiveUpdate(pcs[1..], w - 1, pc);
    }
  }

  lemma {:induction false} NobodyActive(pcs: seq<WorkerPc>, w: nat)
    requires ActiveCount(pcs) == 0 && w < |pcs|
    ensures !Active(pcs[w])
    decreases |pcs|
  {
    if w > 0 { NobodyActive(pcs[1..], w - 1); }
  }

  lemma {:induction false} AllResting(pcs: seq<WorkerPc>)
    requires forall w :: 0 <= w < |pcs| ==> !Active(pcs[w])
    ensures ActiveCount(pcs) == 0
    decreases |pcs|
  {
    if pcs != [] { AllResting(pcs[1..]); }
  }

  /* ---------- Nothing to do ---------- */

  /** Nothing is queued and nothing is being processed. */
  ghost predicate Calm(s: State) {
    AllEmpty(s) && forall w :: 0 <= w < |s.pcs| ==> !s.pcs[w].Processing?
  }

  /** On the way out, or announcing the end of work. */
  predicate Ending(pc: WorkerPc) { pc.Stopping? || pc.Leaving? || pc.LastCheck? || pc.ShuttingDown? }

  lemma CalmStays(s: State, s': State, w: nat)
    requires w < |s.pcs| == |s'.pcs| && Calm(s) && s'.queues == s.queues
    requires s'.pcs == s.pcs[w := s'.pcs[w]] && !s'.pcs[w].Processing?
    ensures Calm(s')
  {}

  lemma EffectKeeps(s: State, w: nat, pc: WorkerPc)
    requires w < |s.full| == |s.finished|
    ensures Effect(s, w, pc).term == s.term && Effect(s, w, pc).outOfWork == (s.outOfWork || pc.Stopping?)
  {}

  /* ---------- One step of a worker ---------- */

  lemma WorkIs(c: Config, s: State, w: nat)
    requires WellShaped(c, s) && SoundLayout(c.layout) && WorkEnabled(c, s, w) && !s.pcs[w].Dequeuing?
    ensures Do(c, s, Work(w, true)) ==
      Effect(s, w, s.pcs[w]).(pcs := s.pcs[w := NextPc(c.waitForNetwork, SeenBy(s), s.pcs[w], true)])
  {}

  lemma EffectPcs(s: State, w: nat, pc: WorkerPc)
    requires w < |s.full| == |s.finished|
    ensures Effect(s, w, pc).pcs == s.pcs
  {}

  /* ---------- Once nothing is left, nothing comes ---------- */

  lemma CalmTake(c: Config, s: State, w: nat)
    requires WellShaped(c, s) && SoundLayout(c.layout) && w < Workers(c) && s.pcs[w].Dequeuing? && Calm(s)
    ensures Take(c, s, w) == s.(pcs := s.pcs[w := GotDone]) && Calm(Take(c, s, w))
  {
    MkDequeueSpec(c.layout.groups[w], s.queues);
    TakeNothing(c, s, w);
  }

  /** When only workers send, no step leads out of a calm state. */
  lemma CalmStep(c: Config, s: State, a: Action)
    requires WellShaped(c, s) && SoundLayout(c.layout) && c.externals == 0 && Calm(s) && Enabled(c, s, a)
    ensures Calm(Do(c, s, a))
  {
    match a
    case Work(w, ok) =>
      if s.pcs[w].Dequeuing? {
        CalmTake(c, s, w);
      } else {
        WorkFramed(c, s, w, ok);
        CalmStays(s, Do(c, s, a), w);
      }
    case _ =>
  }
}
