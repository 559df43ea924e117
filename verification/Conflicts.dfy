/** Data accesses and conflicts: reads and writes are grouped by variable into runs, and only
    neighbouring runs are compared. */
module Conflicts {
  import opened Scalars
  import opened Graphs

  /** The fragment the analysis tracks; every node carries its unique identifier. */
  datatype Expr =
    | Const(uid: nat, v: Scalar)
    | Var(uid: nat, x: string)
    | UnOp(uid: nat, uop: UnaryOp, e: Expr)
    | BinOp(uid: nat, bop: BinaryOp, l: Expr, r: Expr)
    | If(uid: nat, p: Expr, t: Expr, f: Expr)
    | LetIn(uid: nat, x: string, e: Expr, b: Expr)
    | Assign(uid: nat, x: string, e: Expr)
    | Seq(uid: nat, l: Expr, r: Expr)

  datatype Access = Read(x: string, uid: nat) | Write(x: string, uid: nat)

  /** An access together with the index of the child it came from. */
  datatype Tagged = Tagged(a: Access, child: nat)

  datatype Conflict =
    | RW(rs: seq<Access>, w: Access)
    | WR(w: Access, rs: seq<Access>)
    | WW(w1: Access, w2: Access)

  /* ---------- Labels ---------- */

  function OwnAccess(e: Expr): seq<Access> {
    match e
    case Var(uid, x) => [Read(x, uid)]
    case Assign(uid, x, _) => [Write(x, uid)]
    case _ => []
  }

  /** All accesses below a node, children first. */
  function Accesses(e: Expr): seq<Access> {
    match e
    case Const(_, _) => []
    case Var(_, _) => OwnAccess(e)
    case UnOp(_, _, e1) => Accesses(e1)
    case BinOp(_, _, l, r) => Accesses(l) + Accesses(r)
    case If(_, p, t, f) => Accesses(p) + Accesses(t) + Accesses(f)
    case LetIn(_, _, e1, b) => Accesses(e1) + Accesses(b)
    case Assign(_, _, e1) => Accesses(e1) + OwnAccess(e)
    case Seq(_, l, r) => Accesses(l) + Accesses(r)
  }

  function Uses(e: Expr): set<string> { set a | a in Accesses(e) :: a.x }

  function Writes(e: Expr): set<string> { set a | a in Accesses(e) && a.Write? :: a.x }

  /* ---------- Grouping by variable ---------- */

  function Lookup(m: map<string, seq<Tagged>>, x: string): seq<Tagged> { if x in m then m[x] else [] }

  function AddAccesses(m: map<string, seq<Tagged>>, child: nat, accs: seq<Access>): map<string, seq<Tagged>>
    decreases |accs|
  {
    if accs == [] then m
    else
      var x := accs[0].x;
      AddAccesses(m[x := Lookup(m, x) + [Tagged(accs[0], child)]], child, accs[1..])
  }

  function GroupFrom(m: map<string, seq<Tagged>>, child: nat, ll: seq<seq<Access>>): map<string, seq<Tagged>>
    decreases |ll|
  {
    if ll == [] then m else GroupFrom(AddAccesses(m, child, ll[0]), child + 1, ll[1..])
  }

  function GroupMap(ll: seq<seq<Access>>): map<string, seq<Tagged>> { GroupFrom(map[], 0, ll) }

  /* ---------- Runs of reads and single writes ---------- */

  function CombineStep(state: (seq<Tagged>, seq<seq<Tagged>>), c: Tagged): (seq<Tagged>, seq<seq<Tagged>>) {
    var (curr, result) := state;
    if curr == [] then ([c], result)
    else if c.a.Write? then ([c], result + [curr])
    else if curr[0].a.Read? then (curr + [c], result)
    else ([c], result + [curr])
  }

  function CombineFold(state: (seq<Tagged>, seq<seq<Tagged>>), l: seq<Tagged>): (seq<Tagged>, seq<seq<Tagged>>)
    decreases |l|
  {
    if l == [] then state else CombineFold(CombineStep(state, l[0]), l[1..])
  }

  function CombineReads(l: seq<Tagged>): seq<seq<Tagged>> {
    var (end, result) := CombineFold(([], []), l);
    result + [end]
  }

  /* ---------- Conflicts between neighbouring runs ---------- */

  predicate IsRead(run: seq<Tagged>) { run != [] && run[0].a.Read? }

  /** The accesses of a run that come from another child than n. */
  function OtherChild(n: nat, run: seq<Tagged>): seq<Access>
    decreases |run|
  {
    if run == [] then []
    else (if run[0].child != n then [run[0].a] else []) + OtherChild(n, run[1..])
  }

  function BuildRW(a: seq<Tagged>, b: seq<Tagged>): seq<Conflict>
    requires b != []
  {
    var remaining := OtherChild(b[0].child, a);
    if remaining == [] then [] else [RW(remaining, b[0].a)]
  }

  function BuildWR(a: seq<Tagged>, b: seq<Tagged>): seq<Conflict>
    requires a != []
  {
    var remaining := OtherChild(a[0].child, b);
    if remaining == [] then [] else [WR(a[0].a, remaining)]
  }

  function BuildWW(a: seq<Tagged>, b: seq<Tagged>): seq<Conflict>
    requires a != [] && b != []
  {
    var remaining := OtherChild(a[0].child, b);
    if remaining == [] then [] else [WW(a[0].a, b[0].a)]
  }

  function BuildPair(a: seq<Tagged>, b: seq<Tagged>): seq<Conflict>
    requires a != [] && b != []
  {
    if IsRead(a) then BuildRW(a, b)
    else if IsRead(b) then BuildWR(a, b)
    else BuildWW(a, b)
  }

  function BuildConflicts(runs: seq<seq<Tagged>>): seq<Conflict>
    requires |runs| > 1 ==> forall i :: 0 <= i < |runs| ==> runs[i] != []
    decreases |runs|
  {
    if |runs| <= 1 then []
    else BuildPair(runs[0], runs[1]) + BuildConflicts(runs[1..])
  }

  /* ---------- Shape of the runs ---------- */

  /** A run holds one write, or reads only. */
  ghost predicate GoodRun(run: seq<Tagged>) {
    run != [] && ((|run| == 1 && run[0].a.Write?) || forall i :: 0 <= i < |run| ==> run[i].a.Read?)
  }

  /** Good runs, no two neighbouring ones both of reads. */
  ghost predicate GoodRuns(runs: seq<seq<Tagged>>) {
    && (forall i :: 0 <= i < |runs| ==> GoodRun(runs[i]))
    && (forall i :: 0 < i < |runs| ==> !(IsRead(runs[i - 1]) && IsRead(runs[i])))
  }

  function Flatten<T>(ll: seq<seq<T>>): seq<T>
    decreases |ll|
  {
    if ll == [] then [] else ll[0] + Flatten(ll[1..])
  }

  lemma {:induction false} FlattenSnoc<T>(ll: seq<seq<T>>, l: seq<T>)
    ensures Flatten(ll + [l]) == Flatten(ll) + l
    decreases |ll|
  {
    if ll == [] {
      assert ll + [l] == [l];
      assert Flatten([l][1..]) == [];
    } else {
      assert (ll + [l])[1..] == ll[1..] + [l];
      FlattenSnoc(ll[1..], l);
    }
  }

  lemma {:induction false} CombineFoldShape(state: (seq<Tagged>, seq<seq<Tagged>>), l: seq<Tagged>)
    requires state.0 != [] && GoodRuns(state.1 + [state.0])
    ensures var (end, result) := CombineFold(state, l);
      GoodRuns(result + [end]) && Flatten(result + [end]) == Flatten(state.1 + [state.0]) + l
    decreases |l|
  {
    if l != [] {
      var (curr, result) := state;
      var next := CombineStep(state, l[0]);
      if next.1 == result {
        assert forall i :: 0 <= i < |result| ==> (result + [curr])[i] == (result + [next.0])[i];
        assert GoodRun((result + [curr])[|result|]);
        assert GoodRuns(next.1 + [next.0]);
        FlattenSnoc(result, curr);
        FlattenSnoc(result, curr + [l[0]]);
      } else {
        FlattenSnoc(result + [curr], [l[0]]);
        var was := result + [curr];
        assert forall i :: 0 <= i < |was| ==> (was + [[l[0]]])[i] == was[i];
        assert GoodRuns(next.1 + [next.0]);
      }
      CombineFoldShape(next, l[1..]);
      assert [l[0]] + l[1..] == l;
    }
  }

  lemma CombineReadsShape(l: seq<Tagged>)
    requires l != []
    ensures GoodRuns(CombineReads(l)) && Flatten(CombineReads(l)) == l
  {
    var state := ([l[0]], []);
    assert CombineFold(([], []), l) == CombineFold(state, l[1..]);
    assert [] + [[l[0]]] == [[l[0]]];
    assert Flatten([[l[0]]]) == [l[0]] + Flatten([[l[0]]][1..]);
    CombineFoldShape(state, l[1..]);
    assert [l[0]] + l[1..] == l;
  }

  lemma CombineReadsBuildable(l: seq<Tagged>)
    ensures |CombineReads(l)| > 1 ==> forall i :: 0 <= i < |CombineReads(l)| ==> CombineReads(l)[i] != []
  {
    if l != [] {
      CombineReadsShape(l);
      forall i | 0 <= i < |CombineReads(l)| ensures CombineReads(l)[i] != [] { assert GoodRun(CombineReads(l)[i]); }
    }
  }

  /** The conflicts found among the accesses of one variable. */
  function ConflictsOf(l: seq<Tagged>): seq<Conflict> {
    CombineReadsBuildable(l);
    BuildConflicts(CombineReads(l))
  }

  /** The labels a node gets from the accesses of its children, its own coming last. */
  function NodeConflicts(ll: seq<seq<Access>>): set<Conflict> {
    var m := GroupMap(ll);
    set x, c | x in m && c in ConflictsOf(m[x]) :: c
  }

  /* ---------- The groups are the accesses of each variable, in order ---------- */

  function TagOf(accs: seq<Access>, child: nat, x: string): seq<Tagged>
    decreases |accs|
  {
    if accs == [] then []
    else (if accs[0].x == x then [Tagged(accs[0], child)] else []) + TagOf(accs[1..], child, x)
  }

  function OfVar(ll: seq<seq<Access>>, child: nat, x: string): seq<Tagged>
    decreases |ll|
  {
    if ll == [] then [] else TagOf(ll[0], child, x) + OfVar(ll[1..], child + 1, x)
  }

  lemma {:induction false} AddAccessesSpec(m: map<string, seq<Tagged>>, child: nat, accs: seq<Access>, x: string)
    ensures Lookup(AddAccesses(m, child, accs), x) == Lookup(m, x) + TagOf(accs, child, x)
    ensures x in AddAccesses(m, child, accs) <==> x in m || TagOf(accs, child, x) != []
    decreases |accs|
  {
    if accs != [] {
      var y := accs[0].x;
      AddAccessesSpec(m[y := Lookup(m, y) + [Tagged(accs[0], child)]], child, accs[1..], x);
    }
  }

  lemma {:induction false} GroupFromSpec(m: map<string, seq<Tagged>>, child: nat, ll: seq<seq<Access>>, x: string)
    ensures Lookup(GroupFrom(m, child, ll), x) == Lookup(m, x) + OfVar(ll, child, x)
    ensures x in GroupFrom(m, child, ll) <==> x in m || OfVar(ll, child, x) != []
    decreases |ll|
  {
    if ll != [] {
      AddAccessesSpec(m, child, ll[0], x);
      GroupFromSpec(AddAccesses(m, child, ll[0]), child + 1, ll[1..], x);
    }
  }

  lemma GroupMapSpec(ll: seq<seq<Access>>, x: string)
    ensures x in GroupMap(ll) <==> OfVar(ll, 0, x) != []
    ensures x in GroupMap(ll) ==> GroupMap(ll)[x] == OfVar(ll, 0, x)
  {
    GroupFromSpec(map[], 0, ll, x);
  }

  lemma {:induction false} InTagOf(accs: seq<Access>, child: nat, x: string, t: Tagged)
    ensures t in TagOf(accs, child, x) <==> t.child == child && t.a in accs && t.a.x == x
    decreases |accs|
  {
    if accs != [] { InTagOf(accs[1..], child, x, t); }
  }

  lemma {:induction false} InOfVar(ll: seq<seq<Access>>, child: nat, x: string, t: Tagged)
    ensures t in OfVar(ll, child, x) <==>
      child <= t.child < child + |ll| && t.a in ll[t.child - child] && t.a.x == x
    decreases |ll|
  {
    if ll != [] {
      InTagOf(ll[0], child, x, t);
      InOfVar(ll[1..], child + 1, x, t);
      InRest(ll, child, t);
    }
  }

  lemma InRest(ll: seq<seq<Access>>, child: nat, t: Tagged)
    requires ll != []
    ensures child + 1 <= t.child < child + 1 + |ll[1..]| <==> child < t.child < child + |ll|
    ensures child < t.child < child + |ll| ==> ll[1..][t.child - (child + 1)] == ll[t.child - child]
  {}

  /* ---------- Every conflict is genuine ---------- */

  /** The accesses in conflict come from different children, and one of each pair is a write. */
  ghost predicate Genuine(c: Conflict, l: seq<Tagged>) {
    match c
    case RW(rs, w) => GenuinePairs(rs, w, l)
    case WR(w, rs) => GenuinePairs(rs, w, l)
    case WW(w1, w2) => w1.Write? && GenuinePairs([w1], w2, l)
  }

  ghost predicate GenuinePairs(rs: seq<Access>, w: Access, l: seq<Tagged>) {
    w.Write? && rs != [] && exists tw ::
      tw in l && tw.a == w && forall r :: r in rs ==> exists t :: t in l && t.a == r && t.child != tw.child
  }

  lemma {:induction false} InOtherChild(n: nat, run: seq<Tagged>, r: Access)
    ensures r in OtherChild(n, run) <==> exists t :: t in run && t.child != n && t.a == r
    decreases |run|
  {
    if run != [] {
      InOtherChild(n, run[1..], r);
      if r in OtherChild(n, run) {
        if run[0].child != n && run[0].a == r { assert run[0] in run; }
      }
      if t :| t in run && t.child != n && t.a == r {
        if t != run[0] { assert t in run[1..]; }
      }
    }
  }

  lemma PairGenuine(a: seq<Tagged>, b: seq<Tagged>, l: seq<Tagged>, c: Conflict)
    requires GoodRun(a) && GoodRun(b) && !(IsRead(a) && IsRead(b)) && c in BuildPair(a, b)
    requires (forall t :: t in a ==> t in l) && (forall t :: t in b ==> t in l)
    ensures Genuine(c, l)
  {
    var n := if IsRead(a) then b[0].child else a[0].child;
    var run := if IsRead(a) then a else b;
    forall r | r in OtherChild(n, run) ensures exists t :: t in l && t.a == r && t.child != n {
      InOtherChild(n, run, r);
    }
    assert a[0] in l && b[0] in l;
    if !IsRead(a) && !IsRead(b) {
      var r := OtherChild(n, b)[0];
      InOtherChild(n, b, r);
      assert b[0].child != a[0].child;
    }
  }

  lemma {:induction false} RunsGenuine(runs: seq<seq<Tagged>>, l: seq<Tagged>, c: Conflict)
    requires GoodRuns(runs) && c in BuildConflicts(runs)
    requires forall i, t :: 0 <= i < |runs| && t in runs[i] ==> t in l
    ensures Genuine(c, l)
    decreases |runs|
  {
    if |runs| > 1 {
      assert GoodRun(runs[0]) && GoodRun(runs[1]);
      if c in BuildPair(runs[0], runs[1]) {
        PairGenuine(runs[0], runs[1], l, c);
      } else {
        RunsGenuine(runs[1..], l, c);
      }
    }
  }

  lemma {:induction false} InFlatten<T>(ll: seq<seq<T>>, t: T)
    ensures t in Flatten(ll) <==> exists i :: 0 <= i < |ll| && t in ll[i]
    decreases |ll|
  {
    if ll != [] {
      InFlatten(ll[1..], t);
      if t in Flatten(ll[1..]) {
        var i :| 0 <= i < |ll[1..]| && t in ll[1..][i];
        assert ll[i + 1] == ll[1..][i];
      }
      if i :| 0 <= i < |ll| && t in ll[i] {
        if i > 0 { assert ll[1..][i - 1] == ll[i]; }
      }
    }
  }

  lemma ConflictsGenuine(l: seq<Tagged>, c: Conflict)
    requires c in ConflictsOf(l)
    ensures Genuine(c, l)
  {
    assert l != [];
    CombineReadsShape(l);
    var runs := CombineReads(l);
    forall i, t | 0 <= i < |runs| && t in runs[i] ensures t in l { InFlatten(runs, t); }
    RunsGenuine(runs, l, c);
  }

  /* ---------- Neighbouring runs are enough ---------- */

  /** The pairs of owners a conflict relates, for an assignment of owners to accesses. */
  ghost function PairsOf<T>(c: Conflict, p: Access -> T): set<(T, T)> {
    match c
    case RW(rs, w) => set r | r in rs :: (p(r), p(w))
    case WR(w, rs) => set r | r in rs :: (p(r), p(w))
    case WW(w1, w2) => {(p(w1), p(w2))}
  }

  ghost predicate Contains<T(!new)>(e: set<(T, T)>, confs: seq<Conflict>, p: Access -> T) {
    forall c :: c in confs ==> PairsOf(c, p) <= e
  }

  /** Accesses of the same child have the same owner. */
  ghost predicate OwnerOfChild<T(!new)>(p: Access -> T, l: seq<Tagged>) {
    forall t, t' :: t in l && t' in l && t.child == t'.child ==> p(t.a) == p(t'.a)
  }

  /** A run of reads is linked to the write before or after it. */
  lemma ReadsLink<T(!new)>(rs: seq<Tagged>, w: Tagged, c: seq<Conflict>, e: set<(T, T)>, p: Access -> T, t: Tagged)
    requires t in rs && OwnerOfChild(p, rs + [w])
    requires OtherChild(w.child, rs) != [] ==> c == [RW(OtherChild(w.child, rs), w.a)] || c == [WR(w.a, OtherChild(w.child, rs))]
    requires Contains(e, c, p)
    ensures Connected(e, p(t.a), p(w.a))
  {
    if t.child == w.child {
      assert t in rs + [w] && w in rs + [w];
      ConnectedSelf(e, p(w.a));
    } else {
      InOtherChild(w.child, rs, t.a);
      assert c[0] in c;
      assert (p(t.a), p(w.a)) in PairsOf(c[0], p);
      ConnectedEdge(e, p(t.a), p(w.a));
    }
  }

  lemma WritesLink<T(!new)>(a: seq<Tagged>, b: seq<Tagged>, e: set<(T, T)>, p: Access -> T)
    requires |a| == |b| == 1 && a[0].a.Write? && b[0].a.Write? && OwnerOfChild(p, a + b)
    requires Contains(e, BuildPair(a, b), p)
    ensures Connected(e, p(a[0].a), p(b[0].a))
  {
    if a[0].child == b[0].child {
      assert a[0] in a + b && b[0] in a + b;
      ConnectedSelf(e, p(a[0].a));
    } else {
      InOtherChild(a[0].child, b, b[0].a);
      assert b[0] in b;
      var c := WW(a[0].a, b[0].a);
      assert c in BuildPair(a, b);
      assert (p(a[0].a), p(b[0].a)) in PairsOf(c, p);
      ConnectedEdge(e, p(a[0].a), p(b[0].a));
    }
  }

  function FirstWrite(runs: seq<seq<Tagged>>): Tagged
    requires runs != [] && (forall i :: 0 <= i < |runs| ==> runs[i] != []) && (IsRead(runs[0]) ==> |runs| > 1)
  {
    if IsRead(runs[0]) then runs[1][0] else runs[0][0]
  }

  /** What the runs of one variable come with: their conflicts are in the graph, owner by owner. */
  ghost predicate RunsIn<T(!new)>(runs: seq<seq<Tagged>>, e: set<(T, T)>, p: Access -> T) {
    && runs != [] && GoodRuns(runs) && (IsRead(runs[0]) ==> |runs| > 1)
    && Symmetric(e) && OwnerOfChild(p, Flatten(runs)) && Contains(e, BuildConflicts(runs), p)
  }

  lemma FirstRuns<T(!new)>(runs: seq<seq<Tagged>>, e: set<(T, T)>, p: Access -> T)
    requires RunsIn(runs, e, p) && |runs| > 1
    ensures var a, b, tail := runs[0], runs[1], runs[1..];
      && Flatten(runs) == a + Flatten(tail) && Flatten(tail) == b + Flatten(tail[1..])
      && GoodRun(a) && GoodRun(b) && Contains(e, BuildPair(a, b), p)
      && OwnerOfChild(p, a + b) && OwnerOfChild(p, b + a)
      && FirstWrite.requires(runs) && ((IsRead(b) ==> |tail| > 1) ==> RunsIn(tail, e, p))
  {
    assert forall i :: 0 <= i < |runs| ==> GoodRun(runs[i]);
    var a, b, tail := runs[0], runs[1], runs[1..];
    assert Contains(e, BuildConflicts(tail), p);
    assert Flatten(tail) == b + Flatten(tail[1..]);
    assert forall u :: u in a + b ==> u in Flatten(runs);
    assert OwnerOfChild(p, Flatten(tail));
    assert GoodRuns(tail) by { assert forall i :: 0 <= i < |tail| ==> tail[i] == runs[i + 1]; }
  }

  /** A write, reads behind it and what follows: all linked to the write. */
  lemma WriteThenReads<T(!new)>(runs: seq<seq<Tagged>>, e: set<(T, T)>, p: Access -> T, t: Tagged)
    requires RunsIn(runs, e, p) && |runs| > 1 && !IsRead(runs[0]) && IsRead(runs[1]) && FirstWrite.requires(runs)
    requires t in runs[0] + runs[1] || (
      && |runs| > 2 && FirstWrite.requires(runs[1..]) && Connected(e, p(t.a), p(FirstWrite(runs[1..]).a))
      && Connected(e, p(runs[1][0].a), p(FirstWrite(runs[1..]).a)))
    ensures Connected(e, p(t.a), p(FirstWrite(runs).a))
  {
    FirstRuns(runs, e, p);
    var a, b := runs[0], runs[1];
    assert a == [a[0]];
    if t in a {
      ConnectedSelf(e, p(t.a));
    } else if t in b {
      ReadsLink(b, a[0], BuildPair(a, b), e, p, t);
    } else {
      var w := p(FirstWrite(runs[1..]).a);
      ReadsLink(b, a[0], BuildPair(a, b), e, p, b[0]);
      ConnectedSym(e, p(b[0].a), w);
      ConnectedTrans(e, w, p(b[0].a), p(a[0].a));
      ConnectedTrans(e, p(t.a), w, p(a[0].a));
    }
  }

  lemma {:induction false} RunsConnect<T(!new)>(runs: seq<seq<Tagged>>, e: set<(T, T)>, p: Access -> T, t: Tagged)
    requires RunsIn(runs, e, p) && t in Flatten(runs)
    ensures FirstWrite.requires(runs) && Connected(e, p(t.a), p(FirstWrite(runs).a))
    decreases |runs|
  {
    var a, tail := runs[0], runs[1..];
    if |runs| == 1 {
      assert GoodRun(a) && Flatten(tail) == [];
      ConnectedSelf(e, p(t.a));
    } else {
      FirstRuns(runs, e, p);
      var b := runs[1];
      if IsRead(a) {
        assert b[0].a.Write? && b == [b[0]];
        if t in a { ReadsLink(a, b[0], BuildPair(a, b), e, p, t); }
        else { RunsConnect(tail, e, p, t); }
      } else if !IsRead(b) {
        WritesLink(a, b, e, p);
        ConnectedSym(e, p(a[0].a), p(b[0].a));
        if t in a { ConnectedSelf(e, p(t.a)); }
        else {
          RunsConnect(tail, e, p, t);
          ConnectedTrans(e, p(t.a), p(b[0].a), p(a[0].a));
        }
      } else {
        if t !in a + b {
          RunsConnect(tail, e, p, t);
          RunsConnect(tail, e, p, b[0]);
        }
        WriteThenReads(runs, e, p, t);
      }
    }
  }

  lemma SomeWriteRun(runs: seq<seq<Tagged>>)
    requires runs != [] && GoodRuns(runs) && exists w :: w in Flatten(runs) && w.a.Write?
    ensures IsRead(runs[0]) ==> |runs| > 1
  {
    assert GoodRun(runs[0]);
    if |runs| == 1 { assert Flatten(runs[1..]) == []; }
  }

  /** One variable that is written somewhere: the conflicts between neighbouring runs alone link the
      owners of any two of its accesses. */
  lemma AdjacentConflictsConnect<T(!new)>(l: seq<Tagged>, e: set<(T, T)>, p: Access -> T, t: Tagged, t': Tagged)
    requires (exists w :: w in l && w.a.Write?) && t in l && t' in l
    requires Symmetric(e) && OwnerOfChild(p, l) && Contains(e, ConflictsOf(l), p)
    ensures Connected(e, p(t.a), p(t'.a))
  {
    CombineReadsShape(l);
    var runs := CombineReads(l);
    SomeWriteRun(runs);
    RunsConnect(runs, e, p, t);
    RunsConnect(runs, e, p, t');
    var w := p(FirstWrite(runs).a);
    ConnectedSym(e, p(t'.a), w);
    ConnectedTrans(e, p(t.a), w, p(t'.a));
  }

  /* ---------- Sequences ---------- */

  /** One side writes a variable that the other side reads or writes. */
  predicate Clash(l: Expr, r: Expr) { Writes(l) * Uses(r) != {} || Writes(r) * Uses(l) != {} }

  function SeqConflicts(l: Expr, r: Expr): set<Conflict> { NodeConflicts([Accesses(l), Accesses(r), []]) }

  /** A sequence is labelled with a conflict exactly when its two sides clash. */
  lemma SeqLabelledIffClash(l: Expr, r: Expr)
    ensures SeqConflicts(l, r) != {} <==> Clash(l, r)
  {
    var ll := [Accesses(l), Accesses(r), []];
    if SeqConflicts(l, r) != {} {
      var c :| c in SeqConflicts(l, r);
      var x :| x in GroupMap(ll) && c in ConflictsOf(GroupMap(ll)[x]);
      GenuineClash(l, r, x, c);
    }
    if Clash(l, r) {
      if Writes(l) * Uses(r) != {} {
        var x :| x in Writes(l) * Uses(r);
        ClashLabels(l, r, x);
      } else {
        var x :| x in Writes(r) * Uses(l);
        ClashLabels(l, r, x);
      }
    }
  }

  lemma GenuineClash(l: Expr, r: Expr, x: string, c: Conflict)
    requires x in GroupMap([Accesses(l), Accesses(r), []])
    requires c in ConflictsOf(GroupMap([Accesses(l), Accesses(r), []])[x])
    ensures Clash(l, r)
  {
    var ll := [Accesses(l), Accesses(r), []];
    GroupMapSpec(ll, x);
    var g := OfVar(ll, 0, x);
    ConflictsGenuine(g, c);
    var tw, t := GenuineWitnesses(c, g);
    SidesClash(l, r, x, tw, t);
  }

  lemma SidesClash(l: Expr, r: Expr, x: string, tw: Tagged, t: Tagged)
    requires tw in OfVar([Accesses(l), Accesses(r), []], 0, x) && t in OfVar([Accesses(l), Accesses(r), []], 0, x)
    requires tw.child != t.child && tw.a.Write?
    ensures Clash(l, r)
  {
    InOfVar([Accesses(l), Accesses(r), []], 0, x, tw);
    InOfVar([Accesses(l), Accesses(r), []], 0, x, t);
    if tw.child == 0 { assert x in Writes(l) * Uses(r); } else { assert x in Writes(r) * Uses(l); }
  }

  lemma GenuineWitnesses(c: Conflict, l: seq<Tagged>) returns (tw: Tagged, t: Tagged)
    requires Genuine(c, l)
    ensures tw in l && t in l && tw.child != t.child && tw.a.Write?
  {
    var w := if c.WW? then c.w2 else c.w;
    var rs := if c.WW? then [c.w1] else c.rs;
    tw :| tw in l && tw.a == w && forall r :: r in rs ==> exists t :: t in l && t.a == r && t.child != tw.child;
    assert rs[0] in rs;
    t :| t in l && t.a == rs[0] && t.child != tw.child;
  }

  lemma ClashLabels(l: Expr, r: Expr, x: string)
    requires x in Uses(l) && x in Uses(r) && (x in Writes(l) || x in Writes(r))
    ensures SeqConflicts(l, r) != {}
  {
    var ll := [Accesses(l), Accesses(r), []];
    GroupMapSpec(ll, x);
    var g := OfVar(ll, 0, x);
    var a :| a in Accesses(l) && a.x == x;
    var b :| b in Accesses(r) && b.x == x;
    var w :| (w in Accesses(l) || w in Accesses(r)) && w.Write? && w.x == x;
    var t0, t1, tw := Tagged(a, 0), Tagged(b, 1), Tagged(w, if w in Accesses(l) then 0 else 1);
    InOfVar(ll, 0, x, t0);
    InOfVar(ll, 0, x, t1);
    InOfVar(ll, 0, x, tw);
    LabelsPresent(g, t0, t1);
    LabelIsListed(ll, x, ConflictsOf(g)[0]);
  }

  lemma LabelIsListed(ll: seq<seq<Access>>, x: string, c: Conflict)
    requires x in GroupMap(ll) && c in ConflictsOf(GroupMap(ll)[x])
    ensures c in NodeConflicts(ll)
  {}

  lemma {:induction false} NoConflictsOneChild(runs: seq<seq<Tagged>>, t: Tagged)
    requires runs != [] && GoodRuns(runs) && (IsRead(runs[0]) ==> |runs| > 1)
    requires BuildConflicts(runs) == [] && t in Flatten(runs)
    ensures FirstWrite.requires(runs) && t.child == FirstWrite(runs).child
    decreases |runs|
  {
    assert forall i :: 0 <= i < |runs| ==> GoodRun(runs[i]);
    var a, tail := runs[0], runs[1..];
    if |runs| == 1 {
      assert Flatten(tail) == [];
    } else {
      var b := runs[1];
      assert GoodRuns(tail) by { assert forall i :: 0 <= i < |tail| ==> tail[i] == runs[i + 1]; }
      assert Flatten(tail) == b + Flatten(tail[1..]);
      var w, rs := if IsRead(a) then b[0] else a[0], if IsRead(a) then a else b;
      assert OtherChild(w.child, rs) == [];
      forall u | u in rs ensures u.child == w.child { InOtherChild(w.child, rs, u.a); }
      if IsRead(a) {
        if t !in a { NoConflictsOneChild(tail, t); }
      } else if t !in a && t !in b {
        assert IsRead(tail[0]) ==> |tail| > 1;
        NoConflictsOneChild(tail, t);
        NoConflictsOneChild(tail, b[0]);
      }
    }
  }

  /** A variable that is written somewhere and accessed from two children leaves at least one conflict. */
  lemma LabelsPresent(l: seq<Tagged>, t: Tagged, t': Tagged)
    requires (exists w :: w in l && w.a.Write?) && t in l && t' in l && t.child != t'.child
    ensures ConflictsOf(l) != []
  {
    CombineReadsShape(l);
    SomeWriteRun(CombineReads(l));
    if ConflictsOf(l) == [] {
      NoConflictsOneChild(CombineReads(l), t);
      NoConflictsOneChild(CombineReads(l), t');
    }
  }
}
