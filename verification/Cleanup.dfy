/** How many workers clean up. The counter of live workers is lowered in one step and read in the next,
    so two workers that leave together both find it zero. */
module Cleanup {
  import opened Options
  import opened Queues
  import opened EngineProtocol
  import opened Idleness
  import opened Race

  /** No run brings two workers to the final clean-up. */
  ghost predicate CleansUpOnce(c: Config) {
    forall run, acts, k: nat, w: nat, v: nat :: IsRun(c, run, acts) && k < |run| ==> OnlyOneAtCleanup(run[k], w, v)
  }

  predicate OnlyOneAtCleanup(s: State, w: nat, v: nat) {
    w < |s.pcs| && v < |s.pcs| && s.pcs[w].ShuttingDown? && s.pcs[v].ShuttingDown? ==> w == v
  }

  /* ---------- Two workers leave together ---------- */

  const IDLE := View(NotStarted, NotStarted, false, false, NotSending, false, 0, 0, [], [])

  /** After the end of work the first worker finds its queue empty and is about to leave. */
  lemma FirstIsDone(x: Scene, v: View, script: seq<Move>, v1: View) returns (script': seq<Move>, v': View)
    requires Play(x, v, script) == Some(v1) && v1.pa == Dequeuing && v1.qa == [] && v1.outOfWork
    ensures Play(x, v, script') == Some(v') && v' == v1.(pa := Leaving)
  {
    v' := v1.(pa := Leaving);
    script' := PlayThen(x, v, script, v1, First, v1.(pa := GotDone));
    script' := FirstGoes(x, v, script', v1.(pa := GotDone), GotDone, v1.(pa := DoneTerm(false)));
    script' := FirstGoes(x, v, script', v1.(pa := DoneTerm(false)), DoneTerm(false), v1.(pa := DoneNet(false, true)));
    script' := FirstGoes(x, v, script', v1.(pa := DoneNet(false, true)), DoneNet(false, true), v');
  }

  /** A worker that only now starts is about to leave at once. */
  lemma SecondStartsLate(x: Scene, v: View, script: seq<Move>, v1: View) returns (script': seq<Move>, v': View)
    requires Play(x, v, script) == Some(v1) && v1.pb == NotStarted && v1.outOfWork
    ensures Play(x, v, script') == Some(v') && v' == v1.(pb := Leaving, live := v1.live + 1, awake := v1.awake + 1)
  {
    var a := v1.(pb := CountedLive, live := v1.live + 1);
    var b := a.(pb := GotResult, awake := a.awake + 1);
    script' := PlayThen(x, v, script, v1, Second, a);
    script' := PlayThen(x, v, script', a, Second, b);
    script' := PlayThen(x, v, script', b, Second, b.(pb := ResultTerm(false)));
    script' := SecondGoes(x, v, script', b.(pb := ResultTerm(false)), ResultTerm(false), b.(pb := ResultNet(false, true)));
    v' := b.(pb := Leaving);
    script' := SecondGoes(x, v, script', b.(pb := ResultNet(false, true)), ResultNet(false, true), v');
  }

  /** Both lower the counter, then both read it. */
  lemma BothLeave(x: Scene, v: View, script: seq<Move>, v1: View) returns (script': seq<Move>, v': View)
    requires Play(x, v, script) == Some(v1) && v1.pa == Leaving && v1.pb == Leaving && v1.live == 2
    ensures Play(x, v, script') == Some(v') && v'.pa == ShuttingDown && v'.pb == ShuttingDown
  {
    var a := v1.(pa := LastCheck, live := 1);
    var b := a.(pb := LastCheck, live := 0);
    script' := FirstGoes(x, v, script, v1, Leaving, a);
    script' := SecondGoes(x, v, script', a, Leaving, b);
    script' := FirstGoes(x, v, script', b, LastCheck, b.(pa := ShuttingDown));
    v' := b.(pa := ShuttingDown, pb := ShuttingDown);
    script' := SecondGoes(x, v, script', b.(pa := ShuttingDown), LastCheck, v');
  }

  lemma ScriptOfTwo(x: Scene) returns (script: seq<Move>, v: View)
    ensures Play(x, IDLE, script) == Some(v) && v.pa == ShuttingDown && v.pb == ShuttingDown
  {
    script, v := FirstStarts(x, IDLE, [], IDLE);
    script, v := FirstRunsDry(x, IDLE, script, v);
    script, v := FirstAsks(x, IDLE, script, v);
    script, v := FirstStops(x, IDLE, script, v);
    script, v := FirstIsDone(x, IDLE, script, v);
    script, v := SecondStartsLate(x, IDLE, script, v);
    script, v := BothLeave(x, IDLE, script, v);
  }

  /* ---------- From the start ---------- */

  function Still(c: Config): State {
    var n := Workers(c);
    var qs: QueueMap<nat> := map q | q in c.layout.ids :: [];
    State(qs, false, false, seq(n, i => false), false, 0, 0, Off, 0, seq(n, i => NotStarted),
          seq(n, i => NotSending), qs, seq(n, i => []), seq(n, i => []))
  }

  lemma StillIsInitial(c: Config)
    requires SoundLayout(c.layout) && c.externals == 0
    ensures IsInitial(c, Still(c))
  {}

  lemma StartsUp(c: Config, x: Scene) returns (run: seq<State>, acts: seq<Action>)
    requires InScene(c, x)
    ensures IsRun(c, run, acts) && |acts| == 2 && Shows(c, x, run[2], IDLE)
  {
    StillIsInitial(c);
    SceneQueues(c, x);
    var s0 := Still(c);
    var s1 := s0.(mapped := true);
    var s2 := s1.(ready := true);
    assert s1 == Do(c, s0, MapWorkers) && s2 == Do(c, s1, MakeReady);
    run, acts := [s0, s1, s2], [MapWorkers, MakeReady];
  }

  /** In every layout with two workers that own a queue some run brings both to the clean-up. */
  lemma TwoCleanUp(c: Config, x: Scene) returns (run: seq<State>, acts: seq<Action>)
    requires InScene(c, x)
    ensures IsRun(c, run, acts) && |run| > 0
    ensures var last := run[|run| - 1]; x.a < |last.pcs| && x.b < |last.pcs| && !OnlyOneAtCleanup(last, x.a, x.b)
  {
    var run1, acts1 := StartsUp(c, x);
    var script, v := ScriptOfTwo(x);
    var run2, acts2 := PlayIsRun(c, x, run1[2], IDLE, script);
    JoinRuns(c, run1, acts1, run2, acts2);
    run, acts := run1 + run2[1..], acts1 + acts2;
    assert run[|run| - 1] == run2[|acts2|];
  }

  /** Where every worker owns a queue, the engine is cleaned up at most once in every run if and only if
      there is at most one worker. */
  lemma OnceExactlyWhenAlone(c: Config)
    requires SoundLayout(c.layout) && c.externals == 0 && forall w :: 0 <= w < Workers(c) ==> c.layout.groups[w] != []
    ensures CleansUpOnce(c) <==> Workers(c) <= 1
  {
    if Workers(c) <= 1 {
      forall run, acts, k: nat, w: nat, v: nat | IsRun(c, run, acts) && k < |run| ensures OnlyOneAtCleanup(run[k], w, v) {
        RunFlow(c, run, acts, k);
      }
    } else {
      var x := Scene(c.layout, c.waitForNetwork, 0, 1, c.layout.groups[0][0], c.layout.groups[1][0]);
      var run, acts := TwoCleanUp(c, x);
      assert !OnlyOneAtCleanup(run[|run| - 1], 0, 1);
    }
  }
}
