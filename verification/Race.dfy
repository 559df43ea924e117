/** The race in the shutdown test. Its reads of the queue sizes and of the awake counter are separate
    steps; whenever two workers can be sent messages, some run shuts the engine down with a message
    still queued. */
module Race {
  import opened Options
  import opened Queues
  import opened EngineProtocol
  import opened Idleness

  /** Two workers, a queue of each, and the engine around them. */
  datatype Scene = Scene(layout: Layout, wait: bool, a: nat, b: nat, qa: QueueId, qb: QueueId)

  /** Some message is routed to the queue. */
  predicate Addressed(l: Layout, q: QueueId) { q in l.route.Values }

  /** Worker w owns a queue that messages are routed to. */
  ghost predicate Receives(l: Layout, w: nat) {
    w < |l.groups| && exists q :: q in l.groups[w] && Addressed(l, q)
  }

  /** The two workers own the two queues, and only workers send. */
  ghost predicate InScene(c: Config, x: Scene) {
    && SoundLayout(c.layout) && c.externals == 0 && x.layout == c.layout && x.wait == c.waitForNetwork
    && x.a < Workers(c) && x.b < Workers(c) && x.a != x.b && x.qa in c.layout.groups[x.a] && x.qb in c.layout.groups[x.b]
  }

  lemma SceneQueues(c: Config, x: Scene)
    requires InScene(c, x)
    ensures x.qa != x.qb && x.qa in c.layout.ids && x.qb in c.layout.ids
    ensures x.qb !in c.layout.groups[x.a] && x.qa !in c.layout.groups[x.b]
  {}

  /** What matters of a state in which only two workers have started: counters and sample variables of both, the second one's
      send, the shared variables and the queues. */
  datatype View = View(pa: WorkerPc, pb: WorkerPc, fa: bool, fb: bool, sb: SenderPc,
                       outOfWork: bool, awake: int, live: int, qa: seq<Message>, qb: seq<Message>)

  datatype Move = First | Second | AppendTo(m: Message) | ClearFlag | FindOwner | Wake

  function SeenIn(v: View): Seen { Seen(Off, 0, v.outOfWork, v.awake, v.live, v.qa == [] && v.qb == []) }

  /** The effect of a worker's step on the shared variables. */
  function Touch(v: View, second: bool, pc: WorkerPc): View {
    match pc
    case NotStarted => v.(live := v.live + 1)
    case CountedLive => v.(awake := v.awake + 1)
    case Idling => v.(awake := v.awake - 1)
    case Stopping => v.(outOfWork := true)
    case Rousing => v.(fa := true, fb := true)
    case Waiting => if second then v.(fb := false) else v.(fa := false)
    case Woken => v.(awake := v.awake + 1)
    case Leaving => v.(live := v.live - 1)
    case Failing => v.(live := v.live - 1)
    case _ => v
  }

  predicate CanWork(v: View, second: bool, pc: WorkerPc) {
    match pc
    case Dequeuing => false
    case Processing(_, _) => !second || v.sb.NotSending?
    case Waiting => if second then v.fb else v.fa
    case ShuttingDown => false
    case Dead => false
    case _ => true
  }

  function FirstMoved(x: Scene, v: View): Option<View> {
    if v.pa.Dequeuing? then
      Some(if v.qa == [] then v.(pa := GotDone) else v.(pa := Processing(x.qa, v.qa[0]), qa := v.qa[1..]))
    else if CanWork(v, false, v.pa) then Some(Touch(v, false, v.pa).(pa := NextPc(x.wait, SeenIn(v), v.pa, true)))
    else None
  }

  function SecondMoved(x: Scene, v: View): Option<View> {
    if v.pb.Dequeuing? then
      Some(if v.qb == [] then v.(pb := GotDone) else v.(pb := Processing(x.qb, v.qb[0]), qb := v.qb[1..]))
    else if CanWork(v, true, v.pb) then Some(Touch(v, true, v.pb).(pb := NextPc(x.wait, SeenIn(v), v.pb, true)))
    else None
  }

  /** One move, if it is possible. */
  function Moved(x: Scene, v: View, mv: Move): Option<View> {
    match mv
    case First => FirstMoved(x, v)
    case Second => SecondMoved(x, v)
    case AppendTo(m) =>
      if v.pb.Processing? && v.sb == NotSending && RoutedTo(x.layout, m, x.qa) then Some(v.(qa := v.qa + [m], sb := Appended(x.qa))) else None
    case ClearFlag =>
      if v.pb.Processing? && v.sb == Appended(x.qa) then Some(v.(outOfWork := false, sb := Cleared(x.qa))) else None
    case FindOwner =>
      if v.pb.Processing? && v.sb == Cleared(x.qa) then Some(v.(sb := Notifying(x.qa, x.a))) else None
    case Wake =>
      if v.pb.Processing? && v.sb == Notifying(x.qa, x.a) then Some(v.(fa := true, sb := NotSending)) else None
  }

  function ActionOf(x: Scene, mv: Move): Action {
    match mv
    case First => Work(x.a, true)
    case Second => Work(x.b, true)
    case AppendTo(m) => Append(x.b, x.qa, m)
    case ClearFlag => Clear(x.b)
    case FindOwner => LookUp(x.b)
    case Wake => Notify(x.b)
  }

  ghost predicate Shows(c: Config, x: Scene, s: State, v: View) {
    && InScene(c, x) && WellShaped(c, s) && s.mapped && s.ready && s.term == Off && s.listeners == 0
    && s.pcs[x.a] == v.pa && s.pcs[x.b] == v.pb && s.full[x.a] == v.fa && s.full[x.b] == v.fb
    && s.senders[x.b] == v.sb && (forall th :: 0 <= th < |s.senders| && th != x.b ==> s.senders[th].NotSending?)
    && s.outOfWork == v.outOfWork && s.awake == v.awake && s.live == v.live
    && (forall q :: q in s.queues ==> s.queues[q] == QueueIn(x, v, q))
  }

  function QueueIn(x: Scene, v: View, q: QueueId): seq<Message> {
    if q == x.qa then v.qa else if q == x.qb then v.qb else []
  }

  /** Replacing a counter in the state and in the view. */
  lemma SetPcShows(c: Config, x: Scene, s: State, v: View, second: bool, pc: WorkerPc)
    requires Shows(c, x, s, v)
    ensures Shows(c, x, s.(pcs := s.pcs[if second then x.b else x.a := pc]), if second then v.(pb := pc) else v.(pa := pc))
  {}

  /** The only queue of the worker that can hold anything is the one of the scene. */
  lemma OwnQueue(c: Config, x: Scene, s: State, v: View, second: bool, r: QueueId)
    requires Shows(c, x, s, v) && r in c.layout.groups[if second then x.b else x.a] && r in s.queues && s.queues[r] != []
    ensures r == if second then x.qb else x.qa
  {
    SceneQueues(c, x);
    assert s.queues[r] == QueueIn(x, v, r);
  }

  lemma EmptyTake(c: Config, s: State, w: nat)
    requires WellShaped(c, s) && SoundLayout(c.layout) && WorkEnabled(c, s, w) && s.pcs[w].Dequeuing?
    requires forall r :: r in c.layout.groups[w] && r in s.queues ==> s.queues[r] == []
    ensures Do(c, s, Work(w, true)) == s.(pcs := s.pcs[w := GotDone])
  {
    MkDequeueSpec(c.layout.groups[w], s.queues);
    TakeNothing(c, s, w);
  }

  lemma OnlyTake(c: Config, s: State, w: nat, q: QueueId)
    requires WellShaped(c, s) && SoundLayout(c.layout) && WorkEnabled(c, s, w) && s.pcs[w].Dequeuing?
    requires q in c.layout.groups[w] && q in s.queues && s.queues[q] != []
    requires forall r :: r in c.layout.groups[w] && r in s.queues && s.queues[r] != [] ==> r == q
    ensures Do(c, s, Work(w, true)) == Taken(s, w, q, s.queues[q][0])
  {
    MkDequeueSpec(c.layout.groups[w], s.queues);
    var r, m := TakeSomething(c, s, w);
  }

  lemma TakeEmpty(c: Config, x: Scene, s: State, v: View, second: bool)
    requires Shows(c, x, s, v) && (if second then v.pb.Dequeuing? && v.qb == [] else v.pa.Dequeuing? && v.qa == [])
    ensures var w := if second then x.b else x.a; Do(c, s, Work(w, true)) == s.(pcs := s.pcs[w := GotDone])
  {
    var w := if second then x.b else x.a;
    forall r | r in c.layout.groups[w] && r in s.queues ensures s.queues[r] == [] {
      if s.queues[r] != [] { OwnQueue(c, x, s, v, second, r); }
    }
    EmptyTake(c, s, w);
  }

  lemma HeadThere(c: Config, x: Scene, s: State, v: View, second: bool)
    requires Shows(c, x, s, v)
    ensures var w, q := if second then x.b else x.a, if second then x.qb else x.qa;
      q in c.layout.groups[w] && q in s.queues && s.queues[q] == if second then v.qb else v.qa
  {
    SceneQueues(c, x);
    var q := if second then x.qb else x.qa;
    assert q in s.queues ==> s.queues[q] == QueueIn(x, v, q);
  }

  lemma TakeHead(c: Config, x: Scene, s: State, v: View, second: bool)
    requires Shows(c, x, s, v) && (if second then v.pb.Dequeuing? && v.qb != [] else v.pa.Dequeuing? && v.qa != [])
    ensures var w, q := if second then x.b else x.a, if second then x.qb else x.qa;
      && q in s.queues && s.queues[q] == (if second then v.qb else v.qa)
      && Do(c, s, Work(w, true)) == Taken(s, w, q, s.queues[q][0])
  {
    var w, q := if second then x.b else x.a, if second then x.qb else x.qa;
    HeadThere(c, x, s, v, second);
    forall r | r in c.layout.groups[w] && r in s.queues && s.queues[r] != [] ensures r == q {
      OwnQueue(c, x, s, v, second, r);
    }
    OnlyTake(c, s, w, q);
  }

  lemma TakenFirst(c: Config, x: Scene, s: State, v: View)
    requires Shows(c, x, s, v) && v.qa != [] && x.qa in s.queues && s.queues[x.qa] == v.qa
    ensures Shows(c, x, Taken(s, x.a, x.qa, v.qa[0]), v.(pa := Processing(x.qa, v.qa[0]), qa := v.qa[1..]))
  {
    SceneQueues(c, x);
  }

  lemma TakenSecond(c: Config, x: Scene, s: State, v: View)
    requires Shows(c, x, s, v) && v.qb != [] && x.qb in s.queues && s.queues[x.qb] == v.qb
    ensures Shows(c, x, Taken(s, x.b, x.qb, v.qb[0]), v.(pb := Processing(x.qb, v.qb[0]), qb := v.qb[1..]))
  {
    SceneQueues(c, x);
  }

  lemma TakeShows(c: Config, x: Scene, s: State, v: View, second: bool)
    requires Shows(c, x, s, v) && (if second then v.pb.Dequeuing? else v.pa.Dequeuing?)
    ensures Shows(c, x, Do(c, s, Work(if second then x.b else x.a, true)), if second then SecondMoved(x, v).value else FirstMoved(x, v).value)
  {
    SceneQueues(c, x);
    if (if second then v.qb else v.qa) == [] {
      TakeEmpty(c, x, s, v, second);
      SetPcShows(c, x, s, v, second, GotDone);
    } else {
      TakeHead(c, x, s, v, second);
      if second { TakenSecond(c, x, s, v); } else { TakenFirst(c, x, s, v); }
    }
  }

  /** What a state must agree on with another to show the same view but for the shared variables. */
  lemma ShowsFrom(c: Config, x: Scene, s: State, s': State, v: View, v': View)
    requires Shows(c, x, s, v) && s'.queues == s.queues && s'.enqueued == s.enqueued && s'.pcs == s.pcs
    requires s'.senders == s.senders[x.b := v'.sb]
    requires s'.mapped && s'.ready && s'.term == s.term && s'.listeners == s.listeners && s'.got == s.got
    requires |s'.full| == |s.full| && |s'.finished| == |s.finished| && s'.full[x.a] == v'.fa && s'.full[x.b] == v'.fb
    requires s'.outOfWork == v'.outOfWork && s'.awake == v'.awake && s'.live == v'.live
    requires v' == v.(fa := v'.fa, fb := v'.fb, sb := v'.sb, outOfWork := v'.outOfWork, awake := v'.awake, live := v'.live)
    ensures Shows(c, x, s', v')
  {}

  lemma TouchIs(v: View, second: bool, pc: WorkerPc)
    ensures var v' := Touch(v, second, pc);
      && v' == v.(fa := v'.fa, fb := v'.fb, outOfWork := v'.outOfWork, awake := v'.awake, live := v'.live)
      && v'.awake == v.awake + AwakeDelta(pc) && v'.live == v.live + LiveDelta(pc)
      && v'.outOfWork == (v.outOfWork || pc.Stopping?)
      && v'.fa == (pc.Rousing? || (v.fa && (pc.Waiting? ==> second)))
      && v'.fb == (pc.Rousing? || (v.fb && (pc.Waiting? ==> !second)))
  {}

  lemma TouchShows(c: Config, x: Scene, s: State, v: View, second: bool, pc: WorkerPc)
    requires Shows(c, x, s, v)
    ensures Shows(c, x, Effect(s, if second then x.b else x.a, pc), Touch(v, second, pc))
  {
    var w := if second then x.b else x.a;
    EffectFacts(s, w, pc);
    EffectCounts(s, w, pc);
    EffectKeeps(s, w, pc);
    EffectPcs(s, w, pc);
    TouchIs(v, second, pc);
    assert s.senders == s.senders[x.b := v.sb];
    ShowsFrom(c, x, s, Effect(s, w, pc), v, Touch(v, second, pc));
  }

  lemma SeenSame(c: Config, x: Scene, s: State, v: View)
    requires Shows(c, x, s, v)
    ensures SeenBy(s) == SeenIn(v)
  {
    SceneQueues(c, x);
    assert s.queues[x.qa] == QueueIn(x, v, x.qa) && s.queues[x.qb] == QueueIn(x, v, x.qb);
  }

  lemma WorkShows(c: Config, x: Scene, s: State, v: View, second: bool)
    requires Shows(c, x, s, v) && CanWork(v, second, if second then v.pb else v.pa)
    ensures var w := if second then x.b else x.a;
      && Enabled(c, s, Work(w, true))
      && Shows(c, x, Do(c, s, Work(w, true)), if second then SecondMoved(x, v).value else FirstMoved(x, v).value)
  {
    var w := if second then x.b else x.a;
    var pc := s.pcs[w];
    SeenSame(c, x, s, v);
    WorkIs(c, s, w);
    TouchShows(c, x, s, v, second, pc);
    EffectPcs(s, w, pc);
    SetPcShows(c, x, Effect(s, w, pc), Touch(v, second, pc), second, NextPc(x.wait, SeenIn(v), pc, true));
  }

  lemma AppendShows(c: Config, x: Scene, s: State, v: View, m: Message)
    requires Shows(c, x, s, v) && Moved(x, v, AppendTo(m)).Some?
    ensures Enabled(c, s, Append(x.b, x.qa, m)) && Shows(c, x, Do(c, s, Append(x.b, x.qa, m)), Moved(x, v, AppendTo(m)).value)
  {
    SceneQueues(c, x);
    assert s.queues[x.qa] == QueueIn(x, v, x.qa);
    AppendedShows(c, x, s, v, m);
  }

  lemma AppendedShows(c: Config, x: Scene, s: State, v: View, m: Message)
    requires Shows(c, x, s, v) && v.pb.Processing? && v.sb == NotSending && x.qa in s.queues && x.qa in s.enqueued && s.queues[x.qa] == v.qa
    ensures Shows(c, x, s.(queues := s.queues[x.qa := v.qa + [m]], enqueued := s.enqueued[x.qa := s.enqueued[x.qa] + [m]],
                          senders := s.senders[x.b := Appended(x.qa)]),
                  v.(qa := v.qa + [m], sb := Appended(x.qa)))
  {}

  lemma SendShows(c: Config, x: Scene, s: State, v: View, mv: Move)
    requires Shows(c, x, s, v) && (mv.ClearFlag? || mv.FindOwner? || mv.Wake?) && Moved(x, v, mv).Some?
    ensures Enabled(c, s, ActionOf(x, mv)) && Shows(c, x, Do(c, s, ActionOf(x, mv)), Moved(x, v, mv).value)
  {
    OwnerUnique(c.layout, x.a, x.qa);
    ShowsFrom(c, x, s, Do(c, s, ActionOf(x, mv)), v, Moved(x, v, mv).value);
  }

  /** Every move of the view is an enabled step of the engine. */
  lemma MoveIsStep(c: Config, x: Scene, s: State, v: View, mv: Move)
    requires Shows(c, x, s, v) && Moved(x, v, mv).Some?
    ensures Enabled(c, s, ActionOf(x, mv)) && Shows(c, x, Do(c, s, ActionOf(x, mv)), Moved(x, v, mv).value)
  {
    match mv
    case First => if v.pa.Dequeuing? { TakeShows(c, x, s, v, false); } else { WorkShows(c, x, s, v, false); }
    case Second => if v.pb.Dequeuing? { TakeShows(c, x, s, v, true); } else { WorkShows(c, x, s, v, true); }
    case AppendTo(m) => AppendShows(c, x, s, v, m);
    case _ => SendShows(c, x, s, v, mv);
  }

  /** Makes the moves of a script one after the other. */
  function Play(x: Scene, v: View, script: seq<Move>): Option<View>
    decreases |script|
  {
    if script == [] then Some(v)
    else
      match Play(x, v, script[..|script| - 1])
      case None => None
      case Some(v1) => Moved(x, v1, script[|script| - 1])
  }

  lemma PlayThen(x: Scene, v: View, script: seq<Move>, v1: View, mv: Move, v2: View) returns (script': seq<Move>)
    requires Play(x, v, script) == Some(v1) && Moved(x, v1, mv) == Some(v2)
    ensures Play(x, v, script') == Some(v2)
  {
    script' := script + [mv];
    assert script'[..|script|] == script;
  }

  /** One step of a worker that takes no message. */
  lemma FirstGoes(x: Scene, v: View, script: seq<Move>, v1: View, pc: WorkerPc, v2: View) returns (script': seq<Move>)
    requires Play(x, v, script) == Some(v1) && v1.pa == pc && !pc.Dequeuing? && CanWork(v1, false, pc)
    requires v2 == Touch(v1, false, pc).(pa := NextPc(x.wait, SeenIn(v1), pc, true))
    ensures Play(x, v, script') == Some(v2)
  {
    script' := PlayThen(x, v, script, v1, First, v2);
  }

  lemma SecondGoes(x: Scene, v: View, script: seq<Move>, v1: View, pc: WorkerPc, v2: View) returns (script': seq<Move>)
    requires Play(x, v, script) == Some(v1) && v1.pb == pc && !pc.Dequeuing? && CanWork(v1, true, pc)
    requires v2 == Touch(v1, true, pc).(pb := NextPc(x.wait, SeenIn(v1), pc, true))
    ensures Play(x, v, script') == Some(v2)
  {
    script' := PlayThen(x, v, script, v1, Second, v2);
  }

  ghost predicate RunFrom(c: Config, s: State, run: seq<State>, acts: seq<Action>) {
    && |run| == |acts| + 1 && SoundLayout(c.layout) && run[0] == s
    && forall k :: 0 <= k < |acts| ==>
         WellShaped(c, run[k]) && Enabled(c, run[k], acts[k]) && run[k + 1] == Do(c, run[k], acts[k])
  }

  lemma RunSnoc(c: Config, s: State, run: seq<State>, acts: seq<Action>, a: Action, next: State)
    requires RunFrom(c, s, run, acts) && WellShaped(c, run[|acts|]) && Enabled(c, run[|acts|], a) && next == Do(c, run[|acts|], a)
    ensures RunFrom(c, s, run + [next], acts + [a])
  {
    var run', acts' := run + [next], acts + [a];
    forall k | 0 <= k < |acts'|
      ensures WellShaped(c, run'[k]) && Enabled(c, run'[k], acts'[k]) && run'[k + 1] == Do(c, run'[k], acts'[k])
    {
      SnocAt(c, run, acts, a, next, k);
    }
  }

  lemma SnocAt(c: Config, run: seq<State>, acts: seq<Action>, a: Action, next: State, k: nat)
    requires |run| == |acts| + 1 && SoundLayout(c.layout) && k <= |acts|
    requires k < |acts| ==> WellShaped(c, run[k]) && Enabled(c, run[k], acts[k]) && run[k + 1] == Do(c, run[k], acts[k])
    requires WellShaped(c, run[|acts|]) && Enabled(c, run[|acts|], a) && next == Do(c, run[|acts|], a)
    ensures var run', acts' := run + [next], acts + [a];
      WellShaped(c, run'[k]) && Enabled(c, run'[k], acts'[k]) && run'[k + 1] == Do(c, run'[k], acts'[k])
  {
    var run', acts' := run + [next], acts + [a];
    assert run'[k] == run[k];
    if k < |acts| { assert run'[k + 1] == run[k + 1] && acts'[k] == acts[k]; }
    else { assert run'[k + 1] == next && acts'[k] == a; }
  }

  /** A script that plays on the view runs on the engine. */
  lemma {:induction false} PlayIsRun(c: Config, x: Scene, s: State, v: View, script: seq<Move>)
    returns (run: seq<State>, acts: seq<Action>)
    requires Shows(c, x, s, v) && Play(x, v, script).Some?
    ensures RunFrom(c, s, run, acts) && Shows(c, x, run[|acts|], Play(x, v, script).value) && forall a :: a in acts ==> PlainAction(a)
    decreases |script|
  {
    if script == [] {
      run, acts := [s], [];
    } else {
      var init, last := script[..|script| - 1], script[|script| - 1];
      run, acts := PlayIsRun(c, x, s, v, init);
      var v1, cur := Play(x, v, init).value, run[|acts|];
      MoveIsStep(c, x, cur, v1, last);
      var next := Do(c, cur, ActionOf(x, last));
      RunSnoc(c, s, run, acts, ActionOf(x, last), next);
      run, acts := run + [next], acts + [ActionOf(x, last)];
    }
  }

  /** No error, no request to stop and no listener. */
  predicate PlainAction(a: Action) {
    match a
    case Work(_, ok) => ok
    case SetTerminate(_) => false
    case ListenerUp => false
    case ListenerDown => false
    case _ => true
  }

  /* The run, in scenes. Each says how the view changes. */

  /** A worker starts and comes to its queue. */
  lemma SecondStarts(x: Scene, v: View, script: seq<Move>, v1: View) returns (script': seq<Move>, v': View)
    requires Play(x, v, script) == Some(v1) && v1.pb == NotStarted && !v1.outOfWork
    ensures Play(x, v, script') == Some(v') && v' == v1.(pb := Dequeuing, live := v1.live + 1, awake := v1.awake + 1)
  {
    var a := v1.(pb := CountedLive, live := v1.live + 1);
    var b := a.(pb := GotResult, awake := a.awake + 1);
    script' := PlayThen(x, v, script, v1, Second, a);
    script' := PlayThen(x, v, script', a, Second, b);
    script' := PlayThen(x, v, script', b, Second, b.(pb := ResultTerm(false)));
    script' := SecondGoes(x, v, script', b.(pb := ResultTerm(false)), ResultTerm(false), b.(pb := ResultNet(false, true)));
    v' := b.(pb := Dequeuing);
    script' := SecondGoes(x, v, script', b.(pb := ResultNet(false, true)), ResultNet(false, true), v');
  }

  lemma FirstStarts(x: Scene, v: View, script: seq<Move>, v1: View) returns (script': seq<Move>, v': View)
    requires Play(x, v, script) == Some(v1) && v1.pa == NotStarted && !v1.outOfWork
    ensures Play(x, v, script') == Some(v') && v' == v1.(pa := Dequeuing, live := v1.live + 1, awake := v1.awake + 1)
  {
    var a := v1.(pa := CountedLive, live := v1.live + 1);
    var b := a.(pa := GotResult, awake := a.awake + 1);
    script' := PlayThen(x, v, script, v1, First, a);
    script' := PlayThen(x, v, script', a, First, b);
    script' := PlayThen(x, v, script', b, First, b.(pa := ResultTerm(false)));
    script' := FirstGoes(x, v, script', b.(pa := ResultTerm(false)), ResultTerm(false), b.(pa := ResultNet(false, true)));
    v' := b.(pa := Dequeuing);
    script' := FirstGoes(x, v, script', b.(pa := ResultNet(false, true)), ResultNet(false, true), v');
  }

  /** The first worker finds its queue empty. */
  lemma FirstRunsDry(x: Scene, v: View, script: seq<Move>, v1: View) returns (script': seq<Move>, v': View)
    requires Play(x, v, script) == Some(v1) && v1.pa == Dequeuing && v1.qa == [] && !v1.outOfWork
    ensures Play(x, v, script') == Some(v') && v' == v1.(pa := Idling)
  {
    v' := v1.(pa := Idling);
    script' := PlayThen(x, v, script, v1, First, v1.(pa := GotDone));
    script' := FirstGoes(x, v, script', v1.(pa := GotDone), GotDone, v1.(pa := DoneTerm(false)));
    script' := FirstGoes(x, v, script', v1.(pa := DoneTerm(false)), DoneTerm(false), v1.(pa := DoneNet(false, true)));
    script' := FirstGoes(x, v, script', v1.(pa := DoneNet(false, true)), DoneNet(false, true), v');
  }

  /** It reads that all queues are empty in the shutdown test. */
  lemma FirstAsks(x: Scene, v: View, script: seq<Move>, v1: View) returns (script': seq<Move>, v': View)
    requires Play(x, v, script) == Some(v1) && v1.pa == Idling && v1.qa == [] && v1.qb == []
    ensures Play(x, v, script') == Some(v') && v' == v1.(pa := AskQueued(true, true), awake := v1.awake - 1)
  {
    var b := v1.(awake := v1.awake - 1);
    v' := b.(pa := AskQueued(true, true));
    script' := PlayThen(x, v, script, v1, First, b.(pa := Asking));
    script' := FirstGoes(x, v, script', b.(pa := Asking), Asking, b.(pa := AskTerm(false)));
    script' := FirstGoes(x, v, script', b.(pa := AskTerm(false)), AskTerm(false), b.(pa := AskExternal(true)));
    script' := FirstGoes(x, v, script', b.(pa := AskExternal(true)), AskExternal(true), v');
  }

  /** The second worker sends a message to the first while processing one. */
  lemma SecondSends(x: Scene, v: View, script: seq<Move>, v1: View, m: Message) returns (script': seq<Move>, v': View)
    requires Play(x, v, script) == Some(v1) && v1.pb.Processing? && v1.sb == NotSending && RoutedTo(x.layout, m, x.qa)
    ensures Play(x, v, script') == Some(v') && v' == v1.(qa := v1.qa + [m], outOfWork := false, fa := true)
  {
    var a := v1.(qa := v1.qa + [m], sb := Appended(x.qa));
    var b := a.(outOfWork := false, sb := Cleared(x.qa));
    script' := PlayThen(x, v, script, v1, AppendTo(m), a);
    script' := PlayThen(x, v, script', a, ClearFlag, b);
    script' := PlayThen(x, v, script', b, FindOwner, b.(sb := Notifying(x.qa, x.a)));
    v' := b.(fa := true, sb := NotSending);
    script' := PlayThen(x, v, script', b.(sb := Notifying(x.qa, x.a)), Wake, v');
  }

  /** The second worker finishes its message and comes back to its queue. */
  lemma SecondFinishes(x: Scene, v: View, script: seq<Move>, v1: View) returns (script': seq<Move>, v': View)
    requires Play(x, v, script) == Some(v1) && v1.pb.Processing? && v1.sb == NotSending && !v1.outOfWork
    ensures Play(x, v, script') == Some(v') && v' == v1.(pb := Dequeuing)
  {
    v' := v1.(pb := Dequeuing);
    script' := PlayThen(x, v, script, v1, Second, v1.(pb := GotResult));
    script' := SecondGoes(x, v, script', v1.(pb := GotResult), GotResult, v1.(pb := ResultTerm(false)));
    script' := SecondGoes(x, v, script', v1.(pb := ResultTerm(false)), ResultTerm(false), v1.(pb := ResultNet(false, true)));
    script' := SecondGoes(x, v, script', v1.(pb := ResultNet(false, true)), ResultNet(false, true), v');
  }

  /** The second worker finds its queue empty and comes to the test that may end its loop. */
  lemma SecondRunsDry(x: Scene, v: View, script: seq<Move>, v1: View) returns (script': seq<Move>, v': View)
    requires Play(x, v, script) == Some(v1) && v1.pb == Dequeuing && v1.qb == []
    ensures Play(x, v, script') == Some(v') && v' == v1.(pb := if v1.outOfWork then Leaving else Idling)
  {
    v' := v1.(pb := if v1.outOfWork then Leaving else Idling);
    script' := PlayThen(x, v, script, v1, Second, v1.(pb := GotDone));
    script' := SecondGoes(x, v, script', v1.(pb := GotDone), GotDone, v1.(pb := DoneTerm(false)));
    script' := SecondGoes(x, v, script', v1.(pb := DoneTerm(false)), DoneTerm(false), v1.(pb := DoneNet(false, true)));
    script' := SecondGoes(x, v, script', v1.(pb := DoneNet(false, true)), DoneNet(false, true), v');
  }

  /** The second worker reads in its shutdown test that some queue holds a message. */
  lemma SecondAsks(x: Scene, v: View, script: seq<Move>, v1: View) returns (script': seq<Move>, v': View)
    requires Play(x, v, script) == Some(v1) && v1.pb == Idling && v1.qa != []
    ensures Play(x, v, script') == Some(v') && v' == v1.(pb := AskQueued(true, false), awake := v1.awake - 1)
  {
    var b := v1.(awake := v1.awake - 1);
    v' := b.(pb := AskQueued(true, false));
    script' := PlayThen(x, v, script, v1, Second, b.(pb := Asking));
    script' := SecondGoes(x, v, script', b.(pb := Asking), Asking, b.(pb := AskTerm(false)));
    script' := SecondGoes(x, v, script', b.(pb := AskTerm(false)), AskTerm(false), b.(pb := AskExternal(true)));
    script' := SecondGoes(x, v, script', b.(pb := AskExternal(true)), AskExternal(true), v');
  }

  /** The first worker passes the test, announces the end of work, rouses everybody and wakes up. */
  lemma FirstStops(x: Scene, v: View, script: seq<Move>, v1: View) returns (script': seq<Move>, v': View)
    requires Play(x, v, script) == Some(v1) && v1.pa == AskQueued(true, true) && v1.awake == 0
    ensures Play(x, v, script') == Some(v')
    ensures v' == v1.(pa := Dequeuing, outOfWork := true, fa := false, fb := true, awake := 1)
  {
    var a := v1.(outOfWork := true);
    var b := a.(fa := true, fb := true);
    v' := b.(fa := false, awake := 1, pa := Dequeuing);
    script' := PlayThen(x, v, script, v1, First, v1.(pa := Stopping));
    script' := FirstGoes(x, v, script', v1.(pa := Stopping), Stopping, a.(pa := Rousing));
    script' := FirstGoes(x, v, script', a.(pa := Rousing), Rousing, b.(pa := Waiting));
    script' := FirstGoes(x, v, script', b.(pa := Waiting), Waiting, b.(fa := false, pa := Woken));
    script' := FirstGoes(x, v, script', b.(fa := false, pa := Woken), Woken, v');
  }

  /** After the end of work it processes one message. */
  lemma FirstProcesses(x: Scene, v: View, script: seq<Move>, v1: View, m: Message, rest: seq<Message>)
    returns (script': seq<Move>, v': View)
    requires Play(x, v, script) == Some(v1) && v1.pa == Dequeuing && v1.qa == [m] + rest && v1.outOfWork
    ensures Play(x, v, script') == Some(v') && v' == v1.(pa := ResultNet(false, true), qa := rest)
  {
    assert v1.qa[1..] == rest && v1.qa[0] == m;
    var e := v1.(qa := rest);
    v' := e.(pa := ResultNet(false, true));
    script' := PlayThen(x, v, script, v1, First, e.(pa := Processing(x.qa, m)));
    script' := FirstGoes(x, v, script', e.(pa := Processing(x.qa, m)), Processing(x.qa, m), e.(pa := GotResult));
    script' := FirstGoes(x, v, script', e.(pa := GotResult), GotResult, e.(pa := ResultTerm(false)));
    script' := FirstGoes(x, v, script', e.(pa := ResultTerm(false)), ResultTerm(false), v');
  }

  /** And leaves, though its queue may hold more. */
  lemma FirstLeaves(x: Scene, v: View, script: seq<Move>, v1: View) returns (script': seq<Move>, v': View)
    requires Play(x, v, script) == Some(v1) && v1.pa == ResultNet(false, true) && v1.outOfWork && v1.live == 2
    ensures Play(x, v, script') == Some(v') && v' == v1.(pa := Dead, live := 1)
  {
    v' := v1.(pa := Dead, live := 1);
    script' := PlayThen(x, v, script, v1, First, v1.(pa := Leaving));
    script' := FirstGoes(x, v, script', v1.(pa := Leaving), Leaving, v1.(pa := LastCheck, live := 1));
    script' := FirstGoes(x, v, script', v1.(pa := LastCheck, live := 1), LastCheck, v');
  }

  /** The second worker, roused, comes back to its queue. */
  lemma SecondWakes(x: Scene, v: View, script: seq<Move>, v1: View) returns (script': seq<Move>, v': View)
    requires Play(x, v, script) == Some(v1) && v1.pb == AskQueued(true, false) && v1.fb
    ensures Play(x, v, script') == Some(v') && v' == v1.(pb := Dequeuing, fb := false, awake := v1.awake + 1)
  {
    v' := v1.(pb := Dequeuing, fb := false, awake := v1.awake + 1);
    script' := PlayThen(x, v, script, v1, Second, v1.(pb := Waiting));
    script' := SecondGoes(x, v, script', v1.(pb := Waiting), Waiting, v1.(fb := false, pb := Woken));
    script' := SecondGoes(x, v, script', v1.(fb := false, pb := Woken), Woken, v');
  }

  /** The last worker to leave shuts the engine down. */
  lemma SecondShutsDown(x: Scene, v: View, script: seq<Move>, v1: View) returns (script': seq<Move>, v': View)
    requires Play(x, v, script) == Some(v1) && v1.pb == Leaving && v1.live == 1
    ensures Play(x, v, script') == Some(v') && v' == v1.(pb := ShuttingDown, live := 0)
  {
    v' := v1.(pb := ShuttingDown, live := 0);
    script' := PlayThen(x, v, script, v1, Second, v1.(pb := LastCheck, live := 0));
    script' := SecondGoes(x, v, script', v1.(pb := LastCheck, live := 0), LastCheck, v');
  }

  function Opening(m: Message): View { View(NotStarted, NotStarted, false, false, NotSending, false, 0, 0, [], [m]) }

  /** Up to the point where the first worker has read "all queues empty" and the second has sent
      two messages since. */
  lemma ScriptOfRace(x: Scene, m0: Message, m1: Message, m2: Message) returns (script: seq<Move>, v: View)
    requires RoutedTo(x.layout, m1, x.qa) && RoutedTo(x.layout, m2, x.qa)
    ensures Play(x, Opening(m0), script) == Some(v)
    ensures v == View(AskQueued(true, true), Processing(x.qb, m0), true, false, NotSending, false, 1, 2, [m1, m2], [])
  {
    var o := Opening(m0);
    script, v := SecondStarts(x, o, [], o);
    var busy := v.(pb := Processing(x.qb, m0), qb := []);
    assert v.qb == [m0] && v.qb[1..] == [] && v.qb[0] == m0;
    script := PlayThen(x, o, script, v, Second, busy);
    script, v := FirstStarts(x, o, script, busy);
    script, v := FirstRunsDry(x, o, script, v);
    script, v := FirstAsks(x, o, script, v);
    script, v := SecondSends(x, o, script, v, m1);
    script, v := SecondSends(x, o, script, v, m2);
    assert v.qa == [m1, m2];
  }

  lemma ScriptOfLoss(x: Scene, m0: Message, m1: Message, m2: Message) returns (script: seq<Move>, v: View)
    requires RoutedTo(x.layout, m1, x.qa) && RoutedTo(x.layout, m2, x.qa)
    ensures Play(x, Opening(m0), script) == Some(v) && v.pb == ShuttingDown && v.qa == [m2]
  {
    var o := Opening(m0);
    script, v := ScriptOfRace(x, m0, m1, m2);
    script, v := SecondFinishes(x, o, script, v);
    script, v := SecondRunsDry(x, o, script, v);
    script, v := SecondAsks(x, o, script, v);
    script, v := FirstStops(x, o, script, v);
    assert v.qa == [m1] + [m2];
    script, v := FirstProcesses(x, o, script, v, m1, [m2]);
    script, v := FirstLeaves(x, o, script, v);
    script, v := SecondWakes(x, o, script, v);
    script, v := SecondRunsDry(x, o, script, v);
    script, v := SecondShutsDown(x, o, script, v);
  }

  /** Nobody has started; one message waits for the second worker. */
  function Before(c: Config, x: Scene, m: Message): State {
    var n := Workers(c);
    var qs: QueueMap<nat> := map q | q in c.layout.ids :: QueueIn(x, Opening(m), q);
    State(qs, false, false, seq(n, i => false), false, 0, 0, Off, 0, seq(n, i => NotStarted),
          seq(n, i => NotSending), qs, seq(n, i => []), seq(n, i => []))
  }

  lemma BeforeIsInitial(c: Config, x: Scene, m: Message)
    requires InScene(c, x) && RoutedTo(c.layout, m, x.qb)
    ensures IsInitial(c, Before(c, x, m))
  {
    SceneQueues(c, x);
  }

  lemma Opens(c: Config, x: Scene, m: Message) returns (run: seq<State>, acts: seq<Action>)
    requires InScene(c, x) && RoutedTo(c.layout, m, x.qb)
    ensures IsRun(c, run, acts) && |acts| == 2 && Shows(c, x, run[2], Opening(m)) && run[0] == Before(c, x, m)
    ensures forall a :: a in acts ==> PlainAction(a)
  {
    SceneQueues(c, x);
    BeforeIsInitial(c, x, m);
    var s0 := Before(c, x, m);
    var s1 := s0.(mapped := true);
    var s2 := s1.(ready := true);
    assert s1 == Do(c, s0, MapWorkers) && s2 == Do(c, s1, MakeReady);
    run, acts := [s0, s1, s2], [MapWorkers, MakeReady];
  }

  lemma JoinRuns(c: Config, run1: seq<State>, acts1: seq<Action>, run2: seq<State>, acts2: seq<Action>)
    requires IsRun(c, run1, acts1) && RunFrom(c, run1[|acts1|], run2, acts2)
    ensures IsRun(c, run1 + run2[1..], acts1 + acts2)
  {
    var run, acts := run1 + run2[1..], acts1 + acts2;
    forall k | 0 <= k < |acts|
      ensures WellShaped(c, run[k]) && Enabled(c, run[k], acts[k]) && run[k + 1] == Do(c, run[k], acts[k])
    {
      if k < |acts1| {
        assert run[k] == run1[k] && run[k + 1] == run1[k + 1] && acts[k] == acts1[k];
      } else {
        var j := k - |acts1|;
        assert run[k] == run2[j] && run[k + 1] == run2[j + 1] && acts[k] == acts2[j];
      }
    }
  }

  /** The three reads of the shutdown test are not one step, and with two workers that loses messages.
      In every sound layout and for any two workers that can be sent messages: the first reads "all
      queues empty" while the second is still processing; the second then sends it two messages and
      falls idle; the first reads "nobody awake", announces the end of work, processes one message
      and leaves the other behind when the engine shuts down. */
  lemma TwoReceiversShutDownUndrained(c: Config, x: Scene, m0: Message, m1: Message, m2: Message)
    returns (run: seq<State>, acts: seq<Action>)
    requires InScene(c, x) && RoutedTo(c.layout, m0, x.qb) && RoutedTo(c.layout, m1, x.qa) && RoutedTo(c.layout, m2, x.qa)
    ensures IsRun(c, run, acts) && run[0] == Before(c, x, m0) && forall a :: a in acts ==> PlainAction(a)
    ensures var last := run[|run| - 1];
      x.b < |last.pcs| && last.pcs[x.b].ShuttingDown? && x.qa in last.queues && last.queues[x.qa] == [m2]
  {
    var run1, acts1 := Opens(c, x, m0);
    var script, v := ScriptOfLoss(x, m0, m1, m2);
    var run2, acts2 := PlayIsRun(c, x, run1[2], Opening(m0), script);
    JoinRuns(c, run1, acts1, run2, acts2);
    run, acts := run1 + run2[1..], acts1 + acts2;
    assert run[|run| - 1] == run2[|acts2|];
    SceneQueues(c, x);
    assert run2[|acts2|].queues[x.qa] == QueueIn(x, v, x.qa);
  }

  /* ---------- Asked to finish ---------- */

  /** The engine has been asked to finish all work; only worker w has started, and a message waits in a
      queue of another worker. */
  function Alone(c: Config, q: QueueId, m: Message, mapped: bool, w: nat, pc: WorkerPc, live: int, awake: int): State {
    var n := Workers(c);
    var qs: QueueMap<nat> := map r | r in c.layout.ids :: if r == q then [m] else [];
    State(qs, mapped, false, seq(n, i => false), false, awake, live, FinishAll, 0,
          seq(n, i => if i == w then pc else NotStarted), seq(n, i => NotSending), qs, seq(n, i => []), seq(n, i => []))
  }

  ghost predicate EarlyScene(c: Config, w: nat, o: nat, q: QueueId, m: Message) {
    && SoundLayout(c.layout) && c.externals == 0 && !c.waitForNetwork && w < Workers(c) && o < Workers(c) && w != o
    && q in c.layout.groups[o] && RoutedTo(c.layout, m, q)
  }

  lemma AloneFacts(c: Config, w: nat, o: nat, q: QueueId, m: Message, pc: WorkerPc, live: int, awake: int)
    requires EarlyScene(c, w, o, q, m)
    ensures var s := Alone(c, q, m, true, w, pc, live, awake);
      && WellShaped(c, s) && s.pcs[w] == pc && SeenBy(s) == Seen(FinishAll, 0, false, awake, live, false)
  {
    var s := Alone(c, q, m, true, w, pc, live, awake);
    assert q in s.queues && s.queues[q] == [m];
  }

  /** A step that changes nothing but the worker's place and the two counters. */
  predicate Counting(pc: WorkerPc) {
    !pc.Dequeuing? && !pc.Processing? && !pc.Stopping? && !pc.Rousing? && !pc.Waiting? && !pc.ShuttingDown? && !pc.Dead?
  }

  /** A run so far in which only w has moved. */
  ghost predicate AloneRun(c: Config, q: QueueId, m: Message, w: nat, run: seq<State>, acts: seq<Action>,
                           pc: WorkerPc, live: int, awake: int)
  {
    && RunFrom(c, Alone(c, q, m, false, w, NotStarted, 0, 0), run, acts) && (forall a :: a in acts ==> PlainAction(a))
    && run[|acts|] == Alone(c, q, m, true, w, pc, live, awake)
  }

  lemma AloneGoes(c: Config, w: nat, o: nat, q: QueueId, m: Message, run: seq<State>, acts: seq<Action>,
                  pc: WorkerPc, live: int, awake: int, pc': WorkerPc)
    returns (run': seq<State>, acts': seq<Action>)
    requires EarlyScene(c, w, o, q, m) && Counting(pc) && AloneRun(c, q, m, w, run, acts, pc, live, awake)
    requires pc' == NextPc(false, Seen(FinishAll, 0, false, awake, live, false), pc, true)
    ensures AloneRun(c, q, m, w, run', acts', pc', live + LiveDelta(pc), awake + AwakeDelta(pc))
  {
    var s := run[|acts|];
    AloneFacts(c, w, o, q, m, pc, live, awake);
    WorkIs(c, s, w);
    var next := Alone(c, q, m, true, w, pc', live + LiveDelta(pc), awake + AwakeDelta(pc));
    assert s.pcs[w := pc'] == next.pcs;
    RunSnoc(c, Alone(c, q, m, false, w, NotStarted, 0, 0), run, acts, Work(w, true), next);
    run', acts' := run + [next], acts + [Work(w, true)];
  }

  lemma AloneTakes(c: Config, w: nat, o: nat, q: QueueId, m: Message, run: seq<State>, acts: seq<Action>, live: int, awake: int)
    returns (run': seq<State>, acts': seq<Action>)
    requires EarlyScene(c, w, o, q, m) && AloneRun(c, q, m, w, run, acts, Dequeuing, live, awake)
    ensures AloneRun(c, q, m, w, run', acts', GotDone, live, awake)
  {
    var s := run[|acts|];
    AloneFacts(c, w, o, q, m, Dequeuing, live, awake);
    MkDequeueSpec(c.layout.groups[w], s.queues);
    TakeNothing(c, s, w);
    var next := Alone(c, q, m, true, w, GotDone, live, awake);
    assert s.pcs[w := GotDone] == next.pcs;
    RunSnoc(c, Alone(c, q, m, false, w, NotStarted, 0, 0), run, acts, Work(w, true), next);
    run', acts' := run + [next], acts + [Work(w, true)];
  }

  lemma AloneIsInitial(c: Config, w: nat, o: nat, q: QueueId, m: Message)
    requires EarlyScene(c, w, o, q, m)
    ensures IsInitial(c, Alone(c, q, m, false, w, NotStarted, 0, 0))
  {}

  lemma MappedNext(c: Config, s: State)
    requires WellShaped(c, s) && SoundLayout(c.layout) && !s.mapped
    ensures Do(c, s, MapWorkers) == s.(mapped := true)
  {}

  lemma AloneInitial(c: Config, w: nat, o: nat, q: QueueId, m: Message) returns (run: seq<State>, acts: seq<Action>)
    requires EarlyScene(c, w, o, q, m)
    ensures AloneRun(c, q, m, w, run, acts, NotStarted, 0, 0)
  {
    var s0, s1 := Alone(c, q, m, false, w, NotStarted, 0, 0), Alone(c, q, m, true, w, NotStarted, 0, 0);
    AloneIsInitial(c, w, o, q, m);
    MappedNext(c, s0);
    assert s0.pcs == s1.pcs;
    run, acts := [s0, s1], [MapWorkers];
  }

  /** Where the worker is and what it has counted, on its way from start to clean-up. */
  predicate OnTheWay(pc: WorkerPc, live: int, awake: int) {
    match pc
    case NotStarted => live == 0 && awake == 0
    case CountedLive => live == 1 && awake == 0
    case ResultTerm(t) => !t && live == 1 && awake == 1
    case ResultNet(t, net) => !t && net && live == 1 && awake == 1
    case DoneTerm(t) => t && live == 1 && awake == 1
    case DoneNet(t, net) => t && net && live == 1 && awake == 1
    case LastCheck => live == 0 && awake == 1
    case ShuttingDown => live == 0 && awake == 1
    case _ => (pc.GotResult? || pc.Dequeuing? || pc.GotDone? || pc.Leaving?) && live == 1 && awake == 1
  }

  function Left(pc: WorkerPc): nat {
    match pc
    case NotStarted => 11
    case CountedLive => 10
    case GotResult => 9
    case ResultTerm(_) => 8
    case ResultNet(_, _) => 7
    case Dequeuing => 6
    case GotDone => 5
    case DoneTerm(_) => 4
    case DoneNet(_, _) => 3
    case Leaving => 2
    case LastCheck => 1
    case _ => 0
  }

  lemma WayGoesOn(pc: WorkerPc, live: int, awake: int)
    requires OnTheWay(pc, live, awake) && !pc.Dequeuing? && !pc.ShuttingDown?
    ensures Counting(pc)
    ensures var next := NextPc(false, Seen(FinishAll, 0, false, awake, live, false), pc, true);
      OnTheWay(next, live + LiveDelta(pc), awake + AwakeDelta(pc)) && Left(next) < Left(pc)
  {}

  lemma {:induction false} AloneFinishes(c: Config, w: nat, o: nat, q: QueueId, m: Message,
                                         run: seq<State>, acts: seq<Action>, pc: WorkerPc, live: int, awake: int)
    returns (run': seq<State>, acts': seq<Action>)
    requires EarlyScene(c, w, o, q, m) && AloneRun(c, q, m, w, run, acts, pc, live, awake) && OnTheWay(pc, live, awake)
    ensures AloneRun(c, q, m, w, run', acts', ShuttingDown, 0, 1)
    decreases Left(pc)
  {
    if pc.ShuttingDown? {
      run', acts' := run, acts;
    } else if pc.Dequeuing? {
      run', acts' := AloneTakes(c, w, o, q, m, run, acts, live, awake);
      run', acts' := AloneFinishes(c, w, o, q, m, run', acts', GotDone, live, awake);
    } else {
      WayGoesOn(pc, live, awake);
      var next := NextPc(false, Seen(FinishAll, 0, false, awake, live, false), pc, true);
      run', acts' := AloneGoes(c, w, o, q, m, run, acts, pc, live, awake, next);
      run', acts' := AloneFinishes(c, w, o, q, m, run', acts', next, live + LiveDelta(pc), awake + AwakeDelta(pc));
    }
  }

  /** The request to finish lets a worker leave as soon as its own queues are empty; if nobody else has
      started yet it is the last one alive and shuts the engine down over the others' messages. */
  lemma FinishAllShutsDownUndrained(c: Config, w: nat, o: nat, q: QueueId, m: Message)
    returns (run: seq<State>, acts: seq<Action>)
    requires EarlyScene(c, w, o, q, m)
    ensures IsRun(c, run, acts) && run[0].term.FinishAll? && run[0].listeners == 0 && forall a :: a in acts ==> PlainAction(a)
    ensures var last := run[|run| - 1]; w < |last.pcs| && last.pcs[w].ShuttingDown? && q in last.queues && last.queues[q] == [m]
  {
    AloneIsInitial(c, w, o, q, m);
    run, acts := AloneInitial(c, w, o, q, m);
    run, acts := AloneFinishes(c, w, o, q, m, run, acts, NotStarted, 0, 0);
    AloneFacts(c, w, o, q, m, ShuttingDown, 0, 1);
  }
}
