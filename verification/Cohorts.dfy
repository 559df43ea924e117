/** Grouping tasks into cohorts: connected components of the graph of neighbouring-run conflicts.
    Two tasks share a cohort exactly when a chain of clashing tasks links them, so cohorts can run
    in parallel. */
module Cohorts {
  import opened Options
  import opened Graphs
  import opened Conflicts
  import opened Tasks

  datatype Task = Task(name: string, body: Expr)

  // The lambda around every task body carries this identifier.
  const DUMMY_UID := 999

  function Uids(e: Expr): set<nat> {
    match e
    case Const(u, _) => {u}
    case Var(u, _) => {u}
    case UnOp(u, _, e1) => {u} + Uids(e1)
    case BinOp(u, _, l, r) => {u} + Uids(l) + Uids(r)
    case If(u, p, t, f) => {u} + Uids(p) + Uids(t) + Uids(f)
    case LetIn(u, _, e1, b) => {u} + Uids(e1) + Uids(b)
    case Assign(u, _, e1) => {u} + Uids(e1)
    case Seq(u, l, r) => {u} + Uids(l) + Uids(r)
  }

  predicate HasUid(t: Task, u: nat) { u == DUMMY_UID || u in Uids(t.body) }

  /** The first task that contains the identifier. */
  function FindParent(tasks: seq<Task>, u: nat): string
    decreases |tasks|
  {
    if tasks == [] then "" else if HasUid(tasks[0], u) then tasks[0].name else FindParent(tasks[1..], u)
  }

  /** Names differ, no identifier occurs in two tasks, and none is the dummy. */
  ghost predicate WellLabelled(tasks: seq<Task>) {
    && (forall i, j :: 0 <= i < j < |tasks| ==> tasks[i].name != tasks[j].name)
    && (forall i, j :: 0 <= i < j < |tasks| ==> Uids(tasks[i].body) !! Uids(tasks[j].body))
    && (forall i :: 0 <= i < |tasks| ==> DUMMY_UID !in Uids(tasks[i].body))
  }

  /* ---------- The conflict graph ---------- */

  function TaskAccesses(tasks: seq<Task>): seq<seq<Access>> {
    seq(|tasks|, i requires 0 <= i < |tasks| => Accesses(tasks[i].body))
  }

  function Owner(tasks: seq<Task>): Access -> string { (a: Access) => FindParent(tasks, a.uid) }

  ghost function ForwardEdges(tasks: seq<Task>): set<(string, string)> {
    set c, pr | c in NodeConflicts(TaskAccesses(tasks)) && pr in PairsOf(c, Owner(tasks)) :: pr
  }

  ghost function Edges(tasks: seq<Task>): set<(string, string)> {
    ForwardEdges(tasks) + set pr | pr in ForwardEdges(tasks) :: (pr.1, pr.0)
  }

  ghost function Reachable(e: set<(string, string)>, vs: set<string>, v: string): set<string> {
    set u | u in vs && Connected(e, v, u)
  }

  /** Visits the vertices in the given order; each new one brings everything it reaches. */
  ghost function Components(e: set<(string, string)>, all: set<string>, vs: seq<string>, seen: set<string>,
                            comps: seq<set<string>>): seq<set<string>>
    decreases |vs|
  {
    if vs == [] then comps
    else if vs[0] in seen then Components(e, all, vs[1..], seen, comps)
    else
      var new_ := Reachable(e, all, vs[0]);
      Components(e, all, vs[1..], new_ + seen, [new_] + comps)
  }

  function Names(tasks: seq<Task>): set<string> { set t | t in tasks :: t.name }

  /** The cohorts, visiting the tasks in the order vs. */
  ghost function GroupTasks(tasks: seq<Task>, vs: seq<string>): seq<set<string>> {
    Components(Edges(tasks), Names(tasks), vs, {}, [])
  }

  /* ---------- Adjacent conflicts against direct clashes ---------- */

  /** All pairs of different tasks one of which writes a variable the other uses. */
  ghost function Clashes(tasks: seq<Task>): set<(string, string)> {
    set i, j | 0 <= i < |tasks| && 0 <= j < |tasks| && i != j && Clash(tasks[i].body, tasks[j].body)
      :: (tasks[i].name, tasks[j].name)
  }

  lemma {:induction false} AccessUid(e: Expr, a: Access)
    requires a in Accesses(e)
    ensures a.uid in Uids(e)
  {
    match e
    case Const(_, _) =>
    case Var(_, _) =>
    case UnOp(_, _, e1) => AccessUid(e1, a);
    case BinOp(_, _, l, r) => if a in Accesses(l) { AccessUid(l, a); } else { AccessUid(r, a); }
    case If(_, p, t, f) =>
      if a in Accesses(p) { AccessUid(p, a); } else if a in Accesses(t) { AccessUid(t, a); } else { AccessUid(f, a); }
    case LetIn(_, _, e1, b) => if a in Accesses(e1) { AccessUid(e1, a); } else { AccessUid(b, a); }
    case Assign(_, _, e1) => if a in Accesses(e1) { AccessUid(e1, a); }
    case Seq(_, l, r) => if a in Accesses(l) { AccessUid(l, a); } else { AccessUid(r, a); }
  }

  lemma {:induction false} ParentFound(tasks: seq<Task>, i: nat, u: nat)
    requires i < |tasks| && u != DUMMY_UID && u in Uids(tasks[i].body)
    requires forall j :: 0 <= j < i ==> u !in Uids(tasks[j].body)
    ensures FindParent(tasks, u) == tasks[i].name
    decreases i
  {
    if i > 0 { ParentFound(tasks[1..], i - 1, u); }
  }

  lemma OwnerIsTask(tasks: seq<Task>, i: nat, a: Access)
    requires WellLabelled(tasks) && i < |tasks| && a in Accesses(tasks[i].body)
    ensures Owner(tasks)(a) == tasks[i].name
  {
    AccessUid(tasks[i].body, a);
    forall j | 0 <= j < i ensures a.uid !in Uids(tasks[j].body) {
      assert Uids(tasks[j].body) !! Uids(tasks[i].body);
    }
    ParentFound(tasks, i, a.uid);
  }

  lemma OwnerOfVar(tasks: seq<Task>, x: string)
    requires WellLabelled(tasks)
    ensures OwnerOfChild(Owner(tasks), OfVar(TaskAccesses(tasks), 0, x))
    ensures forall t :: t in OfVar(TaskAccesses(tasks), 0, x) ==>
      t.child < |tasks| && t.a in Accesses(tasks[t.child].body) && t.a.x == x && Owner(tasks)(t.a) == tasks[t.child].name
  {
    forall t | t in OfVar(TaskAccesses(tasks), 0, x)
      ensures t.child < |tasks| && t.a in Accesses(tasks[t.child].body) && t.a.x == x && Owner(tasks)(t.a) == tasks[t.child].name
    {
      InOfVar(TaskAccesses(tasks), 0, x, t);
      OwnerIsTask(tasks, t.child, t.a);
    }
  }

  lemma EdgesSymmetric(tasks: seq<Task>)
    ensures Symmetric(Edges(tasks))
  {}

  lemma ClashSymmetric(a: Expr, b: Expr)
    ensures Clash(a, b) <==> Clash(b, a)
  {}

  lemma ClashPair(tasks: seq<Task>, i: nat, j: nat)
    requires i < |tasks| && j < |tasks| && i != j && Clash(tasks[i].body, tasks[j].body)
    ensures (tasks[i].name, tasks[j].name) in Clashes(tasks) && (tasks[j].name, tasks[i].name) in Clashes(tasks)
  {
    ClashSymmetric(tasks[i].body, tasks[j].body);
  }

  /** Two accesses to one variable from different tasks, one of them a write, are a clash. */
  lemma AccessesClash(tasks: seq<Task>, x: string, w: Tagged, r: Tagged)
    requires WellLabelled(tasks) && w in OfVar(TaskAccesses(tasks), 0, x) && r in OfVar(TaskAccesses(tasks), 0, x)
    requires w.a.Write? && w.child != r.child
    ensures (Owner(tasks)(r.a), Owner(tasks)(w.a)) in Clashes(tasks)
    ensures (Owner(tasks)(w.a), Owner(tasks)(r.a)) in Clashes(tasks)
  {
    OwnerOfVar(tasks, x);
    var i, j := w.child, r.child;
    assert x in Writes(tasks[i].body) && x in Uses(tasks[j].body);
    assert x in Writes(tasks[i].body) * Uses(tasks[j].body);
    ClashPair(tasks, i, j);
  }

  lemma GenuinePairsClash(tasks: seq<Task>, x: string, rs: seq<Access>, w: Access, r: Access)
    requires WellLabelled(tasks) && GenuinePairs(rs, w, OfVar(TaskAccesses(tasks), 0, x)) && r in rs
    ensures (Owner(tasks)(r), Owner(tasks)(w)) in Clashes(tasks)
    ensures (Owner(tasks)(w), Owner(tasks)(r)) in Clashes(tasks)
  {
    var l := OfVar(TaskAccesses(tasks), 0, x);
    var tw :| tw in l && tw.a == w && forall r :: r in rs ==> exists t :: t in l && t.a == r && t.child != tw.child;
    var t :| t in l && t.a == r && t.child != tw.child;
    AccessesClash(tasks, x, tw, t);
  }

  /** Every edge of the conflict graph is a clash. */
  lemma EdgeIsClash(tasks: seq<Task>, a: string, b: string)
    requires WellLabelled(tasks) && (a, b) in Edges(tasks)
    ensures (a, b) in Clashes(tasks)
  {
    var pr := if (a, b) in ForwardEdges(tasks) then (a, b) else (b, a);
    assert pr in ForwardEdges(tasks);
    var ll := TaskAccesses(tasks);
    var c :| c in NodeConflicts(ll) && pr in PairsOf(c, Owner(tasks));
    var x :| x in GroupMap(ll) && c in ConflictsOf(GroupMap(ll)[x]);
    GroupMapSpec(ll, x);
    ConflictsGenuine(OfVar(ll, 0, x), c);
    match c
    case WW(w1, w2) => GenuinePairsClash(tasks, x, [w1], w2, w1);
    case _ =>
      var r :| r in c.rs && pr == (Owner(tasks)(r), Owner(tasks)(c.w));
      GenuinePairsClash(tasks, x, c.rs, c.w, r);
  }

  lemma EdgesContain(tasks: seq<Task>, x: string)
    requires x in GroupMap(TaskAccesses(tasks))
    ensures Contains(Edges(tasks), ConflictsOf(GroupMap(TaskAccesses(tasks))[x]), Owner(tasks))
  {
    var ll := TaskAccesses(tasks);
    forall c | c in ConflictsOf(GroupMap(ll)[x]) ensures PairsOf(c, Owner(tasks)) <= Edges(tasks) {
      LabelIsListed(ll, x, c);
      assert PairsOf(c, Owner(tasks)) <= ForwardEdges(tasks);
    }
  }

  /** Two accesses to a variable that is written somewhere connect their tasks. */
  lemma AccessesConnect(tasks: seq<Task>, x: string, t: Tagged, t': Tagged, w: Tagged)
    requires WellLabelled(tasks)
    requires var l := OfVar(TaskAccesses(tasks), 0, x); t in l && t' in l && w in l && w.a.Write?
    ensures Connected(Edges(tasks), Owner(tasks)(t.a), Owner(tasks)(t'.a))
  {
    var ll := TaskAccesses(tasks);
    OwnerOfVar(tasks, x);
    GroupMapSpec(ll, x);
    EdgesSymmetric(tasks);
    EdgesContain(tasks, x);
    AdjacentConflictsConnect(OfVar(ll, 0, x), Edges(tasks), Owner(tasks), t, t');
  }

  lemma SharedVariableConnects(tasks: seq<Task>, i: nat, j: nat, x: string)
    requires WellLabelled(tasks) && i < |tasks| && j < |tasks|
    requires x in Writes(tasks[i].body) && x in Uses(tasks[j].body)
    ensures Connected(Edges(tasks), tasks[i].name, tasks[j].name)
    ensures Connected(Edges(tasks), tasks[j].name, tasks[i].name)
  {
    var w :| w in Accesses(tasks[i].body) && w.Write? && w.x == x;
    var r :| r in Accesses(tasks[j].body) && r.x == x;
    var tw, tr := Tagged(w, i), Tagged(r, j);
    InOfVar(TaskAccesses(tasks), 0, x, tw);
    InOfVar(TaskAccesses(tasks), 0, x, tr);
    OwnerIsTask(tasks, i, w);
    OwnerIsTask(tasks, j, r);
    AccessesConnect(tasks, x, tw, tr, tw);
    AccessesConnect(tasks, x, tr, tw, tw);
  }

  /** Every clash is bridged by edges of the conflict graph. */
  lemma ClashIsConnected(tasks: seq<Task>, a: string, b: string)
    requires WellLabelled(tasks) && (a, b) in Clashes(tasks)
    ensures Connected(Edges(tasks), a, b)
  {
    var i, j :| 0 <= i < |tasks| && 0 <= j < |tasks| && i != j && Clash(tasks[i].body, tasks[j].body)
      && (a, b) == (tasks[i].name, tasks[j].name);
    if Writes(tasks[i].body) * Uses(tasks[j].body) != {} {
      var x :| x in Writes(tasks[i].body) * Uses(tasks[j].body);
      SharedVariableConnects(tasks, i, j, x);
    } else {
      var x :| x in Writes(tasks[j].body) * Uses(tasks[i].body);
      SharedVariableConnects(tasks, j, i, x);
    }
  }

  /** The adjacent-run graph connects exactly what the graph of all clashes connects. */
  lemma AdjacentIsEnough(tasks: seq<Task>, a: string, b: string)
    requires WellLabelled(tasks)
    ensures Connected(Edges(tasks), a, b) <==> Connected(Clashes(tasks), a, b)
  {
    if Connected(Edges(tasks), a, b) {
      forall x, y | (x, y) in Edges(tasks) ensures (x, y) in Clashes(tasks) { EdgeIsClash(tasks, x, y); }
      ConnectedMonotone(Edges(tasks), Clashes(tasks), a, b);
    }
    if Connected(Clashes(tasks), a, b) {
      forall x, y | (x, y) in Clashes(tasks) ensures Connected(Edges(tasks), x, y) { ClashIsConnected(tasks, x, y); }
      ConnectedRefines(Clashes(tasks), Edges(tasks), a, b);
    }
  }

  /* ---------- The cohorts are the components ---------- */

  ghost predicate IsComponent(e: set<(string, string)>, all: set<string>, c: set<string>) {
    exists v :: v in c && c == Reachable(e, all, v)
  }

  ghost predicate Disjoint(comps: seq<set<string>>) {
    forall i, j :: 0 <= i < j < |comps| ==> comps[i] !! comps[j]
  }

  ghost predicate ComponentsOk(e: set<(string, string)>, all: set<string>, seen: set<string>, comps: seq<set<string>>) {
    && (forall c :: c in comps ==> IsComponent(e, all, c))
    && Disjoint(comps)
    && (forall v :: v in seen <==> exists c :: c in comps && v in c)
  }

  lemma ComponentClosed(e: set<(string, string)>, all: set<string>, c: set<string>, u: string, v: string)
    requires Symmetric(e) && IsComponent(e, all, c) && u in c && v in all
    ensures v in c <==> Connected(e, u, v)
  {
    var r :| r in c && c == Reachable(e, all, r);
    if Connected(e, u, v) { ConnectedTrans(e, r, u, v); }
    if v in c {
      ConnectedSym(e, r, u);
      ConnectedTrans(e, u, r, v);
    }
  }

  lemma {:induction false} ComponentsStep(e: set<(string, string)>, all: set<string>, vs: seq<string>, seen: set<string>, comps: seq<set<string>>)
    returns (last: set<string>)
    requires Symmetric(e) && ComponentsOk(e, all, seen, comps) && seen <= all
    requires forall v :: v in vs ==> v in all
    ensures ComponentsOk(e, all, last, Components(e, all, vs, seen, comps))
    ensures seen <= last <= all && forall v :: v in vs ==> v in last
    decreases |vs|
  {
    if vs == [] {
      last := seen;
    } else if vs[0] in seen {
      last := ComponentsStep(e, all, vs[1..], seen, comps);
    } else {
      var v := vs[0];
      var new_ := Reachable(e, all, v);
      ConnectedSelf(e, v);
      assert IsComponent(e, all, new_);
      forall c | c in comps ensures new_ !! c {
        if u :| u in new_ && u in c {
          ConnectedSym(e, v, u);
          ComponentClosed(e, all, c, u, v);
        }
      }
      var comps' := [new_] + comps;
      assert Disjoint(comps');
      var seen' := new_ + seen;
      forall u | u in seen' ensures exists c :: c in comps' && u in c {
        if u in new_ { assert new_ in comps'; } else { var c :| c in comps && u in c; assert c in comps'; }
      }
      last := ComponentsStep(e, all, vs[1..], seen', comps');
    }
  }

  /** The components found, whatever the order of the visit. */
  lemma ComponentsAll(e: set<(string, string)>, all: set<string>, vs: seq<string>)
    requires Symmetric(e) && ListsAll(all, vs)
    ensures ComponentsOk(e, all, all, Components(e, all, vs, {}, []))
  {
    NoComponents(e, all);
    var seen := ComponentsStep(e, all, vs, {}, []);
    assert all <= seen <= all;
  }

  lemma NoComponents(e: set<(string, string)>, all: set<string>)
    ensures ComponentsOk(e, all, {}, [])
  {}

  lemma InComponent(e: set<(string, string)>, all: set<string>, vs: seq<string>, c: set<string>, u: string, v: string)
    requires Symmetric(e) && ListsAll(all, vs) && c in Components(e, all, vs, {}, []) && u in c && v in all
    ensures v in c <==> Connected(e, u, v)
  {
    ComponentsAll(e, all, vs);
    ComponentClosed(e, all, c, u, v);
  }

  /** vs lists the vertices, in whatever order they are visited. */
  ghost predicate ListsAll(all: set<string>, vs: seq<string>) {
    (forall v :: v in vs ==> v in all) && (forall v :: v in all ==> v in vs)
  }

  ghost predicate Lists(tasks: seq<Task>, vs: seq<string>) { ListsAll(Names(tasks), vs) }

  /** The cohorts partition the tasks. */
  lemma CohortsPartition(tasks: seq<Task>, vs: seq<string>)
    requires Lists(tasks, vs)
    ensures Disjoint(GroupTasks(tasks, vs))
    ensures forall i :: 0 <= i < |tasks| ==> exists c :: c in GroupTasks(tasks, vs) && tasks[i].name in c
    ensures forall c :: c in GroupTasks(tasks, vs) ==> c != {} && c <= Names(tasks)
  {
    EdgesSymmetric(tasks);
    ComponentsAll(Edges(tasks), Names(tasks), vs);
    forall i | 0 <= i < |tasks| ensures exists c :: c in GroupTasks(tasks, vs) && tasks[i].name in c {
      assert tasks[i] in tasks;
      assert tasks[i].name in Names(tasks);
    }
  }

  lemma SharedCohort(tasks: seq<Task>, vs: seq<string>, c: set<string>, u: string, v: string)
    requires Lists(tasks, vs)
    requires c in GroupTasks(tasks, vs) && u in c && v in Names(tasks)
    ensures v in c <==> Connected(Edges(tasks), u, v)
  {
    EdgesSymmetric(tasks);
    InComponent(Edges(tasks), Names(tasks), vs, c, u, v);
  }

  /** Two tasks share a cohort exactly when a chain of clashing tasks links them. */
  lemma CohortsExact(tasks: seq<Task>, vs: seq<string>, c: set<string>, u: string, v: string)
    requires WellLabelled(tasks) && Lists(tasks, vs)
    requires c in GroupTasks(tasks, vs) && u in c && v in Names(tasks)
    ensures v in c <==> Connected(Clashes(tasks), u, v)
  {
    SharedCohort(tasks, vs, c, u, v);
    AdjacentIsEnough(tasks, u, v);
  }

  /** Tasks of different cohorts do not clash: no variable written in one cohort is used in another. */
  lemma CohortsIndependent(tasks: seq<Task>, vs: seq<string>, c: set<string>, i: nat, j: nat)
    requires WellLabelled(tasks) && Lists(tasks, vs)
    requires i < |tasks| && j < |tasks| && c in GroupTasks(tasks, vs)
    requires tasks[i].name in c && tasks[j].name !in c
    ensures Independent(tasks[i].body, tasks[j].body) && Independent(tasks[j].body, tasks[i].body)
  {
    assert tasks[j] in tasks && tasks[j].name in Names(tasks);
    CohortsExact(tasks, vs, c, tasks[i].name, tasks[j].name);
    ClashSymmetric(tasks[i].body, tasks[j].body);
    if Clash(tasks[i].body, tasks[j].body) {
      ClashPair(tasks, i, j);
      ConnectedEdge(Clashes(tasks), tasks[i].name, tasks[j].name);
    }
  }

  /* ---------- Without identifiers of their own ---------- */

  /** Every label carries the dummy identifier. */
  ghost predicate AllDummy(tasks: seq<Task>) {
    forall i, a :: 0 <= i < |tasks| && a in Accesses(tasks[i].body) ==> a.uid == DUMMY_UID
  }

  lemma DummyPairs(tasks: seq<Task>, x: string, rs: seq<Access>, w: Access, r: Access)
    requires AllDummy(tasks) && tasks != [] && GenuinePairs(rs, w, OfVar(TaskAccesses(tasks), 0, x)) && r in rs
    ensures Owner(tasks)(r) == tasks[0].name && Owner(tasks)(w) == tasks[0].name
  {
    var l := OfVar(TaskAccesses(tasks), 0, x);
    var tw :| tw in l && tw.a == w && forall r :: r in rs ==> exists t :: t in l && t.a == r && t.child != tw.child;
    var t :| t in l && t.a == r && t.child != tw.child;
    InOfVar(TaskAccesses(tasks), 0, x, tw);
    InOfVar(TaskAccesses(tasks), 0, x, t);
  }

  lemma DummyEdge(tasks: seq<Task>, a: string, b: string)
    requires AllDummy(tasks) && tasks != [] && (a, b) in Edges(tasks)
    ensures a == tasks[0].name && b == tasks[0].name
  {
    var pr := if (a, b) in ForwardEdges(tasks) then (a, b) else (b, a);
    assert pr in ForwardEdges(tasks);
    var ll := TaskAccesses(tasks);
    var c :| c in NodeConflicts(ll) && pr in PairsOf(c, Owner(tasks));
    var x :| x in GroupMap(ll) && c in ConflictsOf(GroupMap(ll)[x]);
    GroupMapSpec(ll, x);
    ConflictsGenuine(OfVar(ll, 0, x), c);
    match c
    case WW(w1, w2) => DummyPairs(tasks, x, [w1], w2, w1);
    case _ =>
      var r :| r in c.rs && pr == (Owner(tasks)(r), Owner(tasks)(c.w));
      DummyPairs(tasks, x, c.rs, c.w, r);
  }

  /** With the dummy identifier everywhere all conflicts are put down to the first task: every other task
      is a cohort of its own, whatever it clashes with. */
  lemma DummyLabelsSeparateAll(tasks: seq<Task>, vs: seq<string>, c: set<string>, u: string, v: string)
    requires AllDummy(tasks) && Lists(tasks, vs) && c in GroupTasks(tasks, vs) && u in c && v in c
    ensures u == v
  {
    CohortsPartition(tasks, vs);
    assert c <= Names(tasks);
    var t :| t in tasks && t.name == u;
    SharedCohort(tasks, vs, c, u, v);
    var p :| Path(Edges(tasks), p, u, v);
    DummyPath(tasks, p, u, v);
  }

  lemma {:induction false} DummyPath(tasks: seq<Task>, p: seq<string>, u: string, v: string)
    requires AllDummy(tasks) && tasks != [] && Path(Edges(tasks), p, u, v)
    ensures u == v
    decreases |p|
  {
    if |p| > 1 {
      var k := |p| - 1;
      assert (p[k - 1], p[k]) in Edges(tasks);
      DummyEdge(tasks, p[k - 1], p[k]);
      assert Path(Edges(tasks), p[..k], u, p[k - 1]);
      DummyPath(tasks, p[..k], u, p[k - 1]);
    }
  }

  /* ---------- Parallel execution ---------- */

  /** A message for the task with the given index. */
  datatype Message = Message(task: nat, param: string, arg: Value)

  predicate ValidMessages(tasks: seq<Task>, ms: seq<Message>) {
    forall m :: m in ms ==> m.task < |tasks|
  }

  function EventOf(tasks: seq<Task>, m: Message): Event
    requires m.task < |tasks|
  {
    Event(tasks[m.task].body, m.param, m.arg)
  }

  function EventsOf(tasks: seq<Task>, ms: seq<Message>): seq<Event>
    requires ValidMessages(tasks, ms)
  {
    seq(|ms|, i requires 0 <= i < |ms| => assert ms[i] in ms; EventOf(tasks, ms[i]))
  }

  /** What one cohort receives. */
  function Received(tasks: seq<Task>, c: set<string>, ms: seq<Message>): seq<Message>
    requires ValidMessages(tasks, ms)
    decreases |ms|
  {
    if ms == [] then []
    else
      assert ms[0] in ms;
      (if tasks[ms[0].task].name in c then [ms[0]] else []) + Received(tasks, c, ms[1..])
  }

  lemma ReceivedFirst(tasks: seq<Task>, c: set<string>, m: Message, ms: seq<Message>)
    requires m.task < |tasks| && ValidMessages(tasks, ms)
    ensures ValidMessages(tasks, [m] + ms)
    ensures Received(tasks, c, [m] + ms) == (if tasks[m.task].name in c then [m] else []) + Received(tasks, c, ms)
  {
    assert ([m] + ms)[1..] == ms && ([m] + ms)[0] == m;
  }

  lemma {:induction false} ReceivedConcat(tasks: seq<Task>, c: set<string>, p: seq<Message>, q: seq<Message>)
    requires ValidMessages(tasks, p + q) && ValidMessages(tasks, p) && ValidMessages(tasks, q)
    ensures Received(tasks, c, p + q) == Received(tasks, c, p) + Received(tasks, c, q)
    decreases |p|
  {
    if p == [] {
      assert p + q == q;
    } else {
      var m, rest := p[0], p[1..];
      assert m in p && p == [m] + rest && p + q == [m] + (rest + q);
      assert ValidMessages(tasks, rest) && ValidMessages(tasks, rest + q);
      ReceivedConcat(tasks, c, rest, q);
      ReceivedFirst(tasks, c, m, rest);
      ReceivedFirst(tasks, c, m, rest + q);
    }
  }

  /** The first message for a cohort, with what precedes and follows it. */
  lemma {:induction false} FirstReceived(tasks: seq<Task>, c: set<string>, ms: seq<Message>) returns (p: seq<Message>, q: seq<Message>)
    requires ValidMessages(tasks, ms) && Received(tasks, c, ms) != []
    ensures ValidMessages(tasks, p) && ValidMessages(tasks, q)
    ensures ms == p + [Received(tasks, c, ms)[0]] + q
    ensures forall m :: m in p ==> tasks[m.task].name !in c
    ensures tasks[Received(tasks, c, ms)[0].task].name in c
    decreases |ms|
  {
    assert ms[0] in ms;
    if tasks[ms[0].task].name in c {
      p, q := [], ms[1..];
      assert ms == [] + [ms[0]] + ms[1..];
    } else {
      var p' , q' := FirstReceived(tasks, c, ms[1..]);
      p, q := [ms[0]] + p', q';
      assert ms == [ms[0]] + ms[1..];
    }
  }

  lemma {:induction false} NothingReceived(tasks: seq<Task>, c: set<string>, p: seq<Message>)
    requires ValidMessages(tasks, p)
    requires forall m :: m in p ==> tasks[m.task].name !in c
    ensures Received(tasks, c, p) == []
    decreases |p|
  {
    if p != [] {
      assert p[0] in p;
      NothingReceived(tasks, c, p[1..]);
    }
  }

  lemma ReceivedAround(tasks: seq<Task>, d: set<string>, p: seq<Message>, m: Message, q: seq<Message>)
    requires ValidMessages(tasks, p) && ValidMessages(tasks, q) && m.task < |tasks|
    ensures ValidMessages(tasks, p + [m] + q) && ValidMessages(tasks, p + q)
    ensures Received(tasks, d, p + [m] + q) ==
      Received(tasks, d, p) + (if tasks[m.task].name in d then [m] else []) + Received(tasks, d, q)
    ensures Received(tasks, d, p + q) == Received(tasks, d, p) + Received(tasks, d, q)
  {
    ReceivedConcat(tasks, d, p, q);
    ReceivedFirst(tasks, d, m, q);
    ReceivedConcat(tasks, d, p, [m] + q);
    assert p + [m] + q == p + ([m] + q);
  }

  /** Every cohort receives the same messages in the same order under both schedules. */
  ghost predicate SameSchedule(tasks: seq<Task>, cohorts: seq<set<string>>, ms1: seq<Message>, ms2: seq<Message>)
    requires ValidMessages(tasks, ms1) && ValidMessages(tasks, ms2)
  {
    forall c :: c in cohorts ==> Received(tasks, c, ms1) == Received(tasks, c, ms2)
  }

  lemma CancelFirst<T>(x: seq<T>, rest: seq<T>, p: seq<T>, q: seq<T>)
    requires x + rest == p + x + q && (p == [] || x == [])
    ensures rest == p + q
  {
    if x == [] {
      assert x + rest == rest && p + x + q == p + q;
    } else {
      assert rest == (x + rest)[|x|..] && q == (p + x + q)[|x|..];
    }
  }

  /** Dropping the first message of a receiver from both schedules leaves it the same rest. */
  lemma RestReceived(tasks: seq<Task>, d: set<string>, m: Message, rest: seq<Message>, p: seq<Message>, q: seq<Message>)
    requires ValidMessages(tasks, rest) && ValidMessages(tasks, p) && ValidMessages(tasks, q) && m.task < |tasks|
    requires ValidMessages(tasks, [m] + rest) && ValidMessages(tasks, p + [m] + q) && ValidMessages(tasks, p + q)
    requires Received(tasks, d, [m] + rest) == Received(tasks, d, p + [m] + q)
    requires tasks[m.task].name in d ==> forall m' :: m' in p ==> tasks[m'.task].name !in d
    ensures Received(tasks, d, rest) == Received(tasks, d, p + q)
  {
    ReceivedAround(tasks, d, p, m, q);
    ReceivedFirst(tasks, d, m, rest);
    if tasks[m.task].name in d { NothingReceived(tasks, d, p); }
    CancelFirst(if tasks[m.task].name in d then [m] else [], Received(tasks, d, rest), Received(tasks, d, p), Received(tasks, d, q));
  }

  lemma RestSchedule(tasks: seq<Task>, cohorts: seq<set<string>>, c: set<string>, m: Message,
                     rest: seq<Message>, p: seq<Message>, q: seq<Message>)
    requires ValidMessages(tasks, rest) && ValidMessages(tasks, p) && ValidMessages(tasks, q) && m.task < |tasks|
    requires ValidMessages(tasks, [m] + rest) && ValidMessages(tasks, p + [m] + q) && ValidMessages(tasks, p + q)
    requires SameSchedule(tasks, cohorts, [m] + rest, p + [m] + q)
    requires Disjoint(cohorts) && c in cohorts && tasks[m.task].name in c
    requires forall m' :: m' in p ==> tasks[m'.task].name !in c
    ensures SameSchedule(tasks, cohorts, rest, p + q)
  {
    forall d | d in cohorts ensures Received(tasks, d, rest) == Received(tasks, d, p + q) {
      if tasks[m.task].name in d { SameCohort(cohorts, c, d, tasks[m.task].name); }
      assert Received(tasks, d, [m] + rest) == Received(tasks, d, p + [m] + q);
      RestReceived(tasks, d, m, rest, p, q);
    }
  }

  lemma SameCohort(cohorts: seq<set<string>>, c: set<string>, d: set<string>, v: string)
    requires Disjoint(cohorts) && c in cohorts && d in cohorts && v in c && v in d
    ensures c == d
  {
    var i :| 0 <= i < |cohorts| && cohorts[i] == c;
    var j :| 0 <= j < |cohorts| && cohorts[j] == d;
  }

  lemma EventsSplit(tasks: seq<Task>, p: seq<Message>, m: Message, q: seq<Message>)
    requires ValidMessages(tasks, p) && ValidMessages(tasks, q) && m.task < |tasks|
    ensures ValidMessages(tasks, p + [m] + q) && ValidMessages(tasks, p + q)
    ensures EventsOf(tasks, p + [m] + q) == EventsOf(tasks, p) + [EventOf(tasks, m)] + EventsOf(tasks, q)
    ensures EventsOf(tasks, p + q) == EventsOf(tasks, p) + EventsOf(tasks, q)
  {}

  /** The first message of one schedule can be brought to the front of the other. */
  lemma BringForward(tasks: seq<Task>, vs: seq<string>, c: set<string>, m: Message, p: seq<Message>, q: seq<Message>, g: Env)
    requires WellLabelled(tasks) && Lists(tasks, vs) && c in GroupTasks(tasks, vs)
    requires ValidMessages(tasks, p) && ValidMessages(tasks, q) && ValidMessages(tasks, p + q)
    requires m.task < |tasks| && ValidMessages(tasks, p + [m] + q)
    requires tasks[m.task].name in c && forall m' :: m' in p ==> tasks[m'.task].name !in c
    ensures RunEvents(EventsOf(tasks, p + [m] + q), g) == RunEvents([EventOf(tasks, m)] + EventsOf(tasks, p + q), g)
  {
    var pe, ev := EventsOf(tasks, p), EventOf(tasks, m);
    forall i | 0 <= i < |pe| ensures Independent(pe[i].body, ev.body) {
      assert p[i] in p;
      CohortsIndependent(tasks, vs, c, m.task, p[i].task);
    }
    EventsSplit(tasks, p, m, q);
    MoveToFront(pe, ev, EventsOf(tasks, q), g);
    assert [ev] + pe + EventsOf(tasks, q) == [ev] + EventsOf(tasks, p + q);
  }

  lemma RunFirst(ev: Event, evs: seq<Event>, g: Env)
    ensures RunEvents([ev] + evs, g) == match RunEvent(ev, g) case None => None case Some(g1) => RunEvents(evs, g1)
  {
    assert ([ev] + evs)[1..] == evs;
  }

  lemma SomeCohort(tasks: seq<Task>, vs: seq<string>, ms: seq<Message>) returns (c: set<string>)
    requires Lists(tasks, vs) && ValidMessages(tasks, ms) && ms != []
    ensures ms[0] in ms && c in GroupTasks(tasks, vs) && tasks[ms[0].task].name in c
    ensures Received(tasks, c, ms) != [] && Received(tasks, c, ms)[0] == ms[0]
  {
    CohortsPartition(tasks, vs);
    assert ms[0] in ms;
    c :| c in GroupTasks(tasks, vs) && tasks[ms[0].task].name in c;
  }

  lemma StartsWith(tasks: seq<Task>, m: Message, rest: seq<Message>, g: Env)
    requires m.task < |tasks| && ValidMessages(tasks, rest) && ValidMessages(tasks, [m] + rest)
    ensures RunEvents(EventsOf(tasks, [m] + rest), g) ==
      match RunEvent(EventOf(tasks, m), g) case None => None case Some(g1) => RunEvents(EventsOf(tasks, rest), g1)
  {
    assert EventsOf(tasks, [m] + rest) == [EventOf(tasks, m)] + EventsOf(tasks, rest);
    RunFirst(EventOf(tasks, m), EventsOf(tasks, rest), g);
  }

  /** The other schedule can start with the same message. */
  lemma CanStartWith(tasks: seq<Task>, vs: seq<string>, c: set<string>, m: Message, p: seq<Message>, q: seq<Message>, g: Env)
    requires WellLabelled(tasks) && Lists(tasks, vs) && c in GroupTasks(tasks, vs)
    requires ValidMessages(tasks, p) && ValidMessages(tasks, q) && ValidMessages(tasks, p + q)
    requires m.task < |tasks| && ValidMessages(tasks, p + [m] + q)
    requires tasks[m.task].name in c && forall m' :: m' in p ==> tasks[m'.task].name !in c
    ensures RunEvents(EventsOf(tasks, p + [m] + q), g) ==
      match RunEvent(EventOf(tasks, m), g) case None => None case Some(g1) => RunEvents(EventsOf(tasks, p + q), g1)
  {
    BringForward(tasks, vs, c, m, p, q, g);
    RunFirst(EventOf(tasks, m), EventsOf(tasks, p + q), g);
  }

  /** Running the cohorts in parallel is deterministic: two interleavings that hand every cohort the
      same messages in the same order leave the same globals. */
  lemma {:induction false} InterleavingsAgree(tasks: seq<Task>, vs: seq<string>, ms1: seq<Message>, ms2: seq<Message>, g: Env)
    requires WellLabelled(tasks) && Lists(tasks, vs)
    requires ValidMessages(tasks, ms1) && ValidMessages(tasks, ms2)
    requires SameSchedule(tasks, GroupTasks(tasks, vs), ms1, ms2)
    ensures RunEvents(EventsOf(tasks, ms1), g) == RunEvents(EventsOf(tasks, ms2), g)
    decreases |ms1|
  {
    if ms1 == [] {
      if ms2 != [] {
        var c := SomeCohort(tasks, vs, ms2);
        assert false;
      }
    } else {
      var c := SomeCohort(tasks, vs, ms1);
      var m, rest := ms1[0], ms1[1..];
      assert Received(tasks, c, ms1) == Received(tasks, c, ms2);
      var p, q := FirstReceived(tasks, c, ms2);
      assert forall m' :: m' in p + q ==> m' in ms2;
      assert ms1 == [m] + rest && ms2 == p + [m] + q;
      StartsWith(tasks, m, rest, g);
      CanStartWith(tasks, vs, c, m, p, q, g);
      CohortsPartition(tasks, vs);
      RestSchedule(tasks, GroupTasks(tasks, vs), c, m, rest, p, q);
      if RunEvent(EventOf(tasks, m), g).Some? {
        InterleavingsAgree(tasks, vs, rest, p + q, RunEvent(EventOf(tasks, m), g).value);
      }
    }
  }
}
