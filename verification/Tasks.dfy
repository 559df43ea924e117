/** Splitting a trigger body into tasks. The tasks may run in any order: the globals end up as the
    undivided body leaves them. */
module Tasks {
  import opened Options
  import opened Scalars
  import opened Conflicts
  import opened Environments

  datatype Value = Unit | Sc(s: Scalar)

  type Env = Bindings<Value>

  datatype Outcome = Fail | Done(v: Value, env: Env)

  /* ---------- Evaluation ---------- */

  function Eval(e: Expr, env: Env): Outcome {
    match e
    case Const(_, v) => Done(Sc(v), env)
    case Var(_, x) =>
      (match LookupE(env, x)
       case None => Fail
       case Some(v) => Done(v, env))
    case UnOp(_, op, e1) =>
      (match Eval(e1, env)
       case Fail => Fail
       case Done(v, env1) =>
         if v.Sc? && Unary(op, v.s).Some? then Done(Sc(Unary(op, v.s).value), env1) else Fail)
    case BinOp(_, op, l, r) =>
      (match Eval(l, env)
       case Fail => Fail
       case Done(a, env1) =>
         match Eval(r, env1)
         case Fail => Fail
         case Done(b, env2) =>
           if a.Sc? && b.Sc? && Binary(op, a.s, b.s).Some? then Done(Sc(Binary(op, a.s, b.s).value), env2) else Fail)
    case If(_, p, t, f) =>
      (match Eval(p, env)
       case Fail => Fail
       case Done(v, env1) =>
         if v == Sc(Bool(true)) then Eval(t, env1)
         else if v == Sc(Bool(false)) then Eval(f, env1)
         else Fail)
    case LetIn(_, x, e1, b) =>
      (match Eval(e1, env)
       case Fail => Fail
       case Done(v, env1) =>
         match Eval(b, [(x, v)] + env1)
         case Fail => Fail
         case Done(w, env2) => Done(w, RemoveE(env2, x)))
    case Assign(_, x, e1) =>
      if LookupE(env, x).None? then Fail
      else
        (match Eval(e1, env)
         case Fail => Fail
         case Done(v, env1) => Done(Unit, ReplaceE(env1, x, v)))
    case Seq(_, l, r) =>
      match Eval(l, env)
      case Fail => Fail
      case Done(_, env1) => Eval(r, env1)
  }

  /** A trigger \param -> body run on one message: the globals afterwards, or None on an error. */
  function RunTrigger(body: Expr, param: string, arg: Value, g: Env): Option<Env> {
    match Eval(body, [(param, arg)] + g)
    case Fail => None
    case Done(_, env) => Some(RemoveE(env, param))
  }

  /* ---------- Splitting ---------- */

  /** A sequence without a conflict label is cut in two; its right side becomes a task of its own. */
  function SplitSeq(e: Expr): seq<Expr> {
    if e.Seq? && SeqConflicts(e.l, e.r) == {} then [e.r] + SplitSeq(e.l) else [e]
  }

  /* ---------- What evaluation keeps, changes and depends on ---------- */

  predicate SameNames(env1: Env, env2: Env) {
    |env1| == |env2| && forall i :: 0 <= i < |env1| ==> env1[i].0 == env2[i].0
  }

  /** The bindings of the given names agree, position by position. */
  predicate Agree(env1: Env, env2: Env, xs: set<string>) {
    SameNames(env1, env2) && forall i :: 0 <= i < |env1| && env1[i].0 in xs ==> env1[i] == env2[i]
  }

  /** Only bindings of the given names differ. */
  predicate Changes(env1: Env, env2: Env, xs: set<string>) {
    SameNames(env1, env2) && forall i :: 0 <= i < |env1| && env1[i].0 !in xs ==> env1[i] == env2[i]
  }

  lemma PopHead(x: string, v: Value, env: Env, env': Env)
    requires SameNames([(x, v)] + env, env')
    ensures RemoveE(env', x) == env'[1..]
  {
    assert env'[0].0 == x;
  }

  lemma {:induction false} EvalChanges(e: Expr, env: Env)
    ensures Eval(e, env).Done? ==> Changes(env, Eval(e, env).env, Writes(e))
  {
    match e
    case Const(_, _) =>
    case Var(_, _) =>
    case UnOp(_, _, e1) => EvalChanges(e1, env);
    case BinOp(_, _, l, r) =>
      EvalChanges(l, env);
      if Eval(l, env).Done? { EvalChanges(r, Eval(l, env).env); }
    case If(_, p, t, f) =>
      EvalChanges(p, env);
      if Eval(p, env).Done? { EvalChanges(t, Eval(p, env).env); EvalChanges(f, Eval(p, env).env); }
    case LetIn(_, x, e1, b) =>
      EvalChanges(e1, env);
      if Eval(e1, env).Done? {
        var Done(v, env1) := Eval(e1, env);
        EvalChanges(b, [(x, v)] + env1);
        if Eval(b, [(x, v)] + env1).Done? {
          var env2 := Eval(b, [(x, v)] + env1).env;
          PopHead(x, v, env1, env2);
          ChangesTail(x, v, env1, env2, Writes(b));
        }
      }
    case Assign(_, x, e1) =>
      EvalChanges(e1, env);
      assert Write(x, e.uid) in Accesses(e);
    case Seq(_, l, r) =>
      EvalChanges(l, env);
      if Eval(l, env).Done? { EvalChanges(r, Eval(l, env).env); }
  }

  lemma ChangesTail(x: string, v: Value, env: Env, env': Env, xs: set<string>)
    requires Changes([(x, v)] + env, env', xs)
    ensures Changes(env, env'[1..], xs)
  {
    forall i | 0 <= i < |env| && env[i].0 !in xs ensures env[i] == env'[1..][i] {
      assert ([(x, v)] + env)[i + 1] == env[i];
    }
    forall i | 0 <= i < |env| ensures env[i].0 == env'[1..][i].0 {
      assert ([(x, v)] + env)[i + 1] == env[i];
    }
  }

  lemma AgreeTail(env1: Env, env2: Env, xs: set<string>)
    requires Agree(env1, env2, xs) && env1 != []
    ensures Agree(env1[1..], env2[1..], xs)
  {}

  lemma {:induction false} LookupAgree(env1: Env, env2: Env, x: string)
    requires Agree(env1, env2, {x})
    ensures LookupE(env1, x) == LookupE(env2, x)
    decreases |env1|
  {
    if env1 != [] && env1[0].0 != x { LookupAgree(env1[1..], env2[1..], x); }
  }

  lemma AgreeSubset(env1: Env, env2: Env, xs: set<string>, ys: set<string>)
    requires Agree(env1, env2, xs) && ys <= xs
    ensures Agree(env1, env2, ys)
  {}

  lemma {:induction false} LookupNames(env1: Env, env2: Env, x: string)
    requires SameNames(env1, env2)
    ensures LookupE(env1, x).None? <==> LookupE(env2, x).None?
    decreases |env1|
  {
    if env1 != [] && env1[0].0 != x { LookupNames(env1[1..], env2[1..], x); }
  }

  /** The two outcomes are both failures, or the same value with environments agreeing on xs. */
  ghost predicate AgreeOut(o1: Outcome, o2: Outcome, xs: set<string>) {
    match (o1, o2)
    case (Fail, Fail) => true
    case (Done(v1, env1), Done(v2, env2)) => v1 == v2 && Agree(env1, env2, xs)
    case _ => false
  }

  /** Evaluation depends only on the bindings the expression uses; xs may name further bindings on
      which the environments agree before and then also after. */
  lemma {:induction false} EvalDepends(e: Expr, env1: Env, env2: Env, xs: set<string>)
    requires Agree(env1, env2, xs) && Uses(e) <= xs
    ensures AgreeOut(Eval(e, env1), Eval(e, env2), xs)
  {
    match e
    case Const(_, _) =>
    case Var(_, x) =>
      assert Read(x, e.uid) in Accesses(e);
      AgreeSubset(env1, env2, xs, {x});
      LookupAgree(env1, env2, x);
    case UnOp(_, _, e1) => EvalDepends(e1, env1, env2, xs);
    case BinOp(_, _, l, r) =>
      UsesParts(e, l, r);
      EvalDepends(l, env1, env2, xs);
      if Eval(l, env1).Done? { EvalDepends(r, Eval(l, env1).env, Eval(l, env2).env, xs); }
    case If(_, p, t, f) =>
      assert Uses(p) <= Uses(e) && Uses(t) <= Uses(e) && Uses(f) <= Uses(e);
      EvalDepends(p, env1, env2, xs);
      if Eval(p, env1).Done? {
        EvalDepends(t, Eval(p, env1).env, Eval(p, env2).env, xs);
        EvalDepends(f, Eval(p, env1).env, Eval(p, env2).env, xs);
      }
    case LetIn(_, x, e1, b) =>
      UsesParts(e, e1, b);
      EvalDepends(e1, env1, env2, xs);
      if Eval(e1, env1).Done? {
        var Done(v, d1) := Eval(e1, env1);
        var d2 := Eval(e1, env2).env;
        assert Agree([(x, v)] + d1, [(x, v)] + d2, xs);
        EvalDepends(b, [(x, v)] + d1, [(x, v)] + d2, xs);
        EvalChanges(b, [(x, v)] + d1);
        EvalChanges(b, [(x, v)] + d2);
        if Eval(b, [(x, v)] + d1).Done? {
          var f1, f2 := Eval(b, [(x, v)] + d1).env, Eval(b, [(x, v)] + d2).env;
          PopHead(x, v, d1, f1);
          PopHead(x, v, d2, f2);
          AgreeTail(f1, f2, xs);
        }
      }
    case Assign(_, x, e1) =>
      assert Write(x, e.uid) in Accesses(e);
      LookupNames(env1, env2, x);
      assert Uses(e1) <= Uses(e);
      EvalDepends(e1, env1, env2, xs);
    case Seq(_, l, r) =>
      UsesParts(e, l, r);
      EvalDepends(l, env1, env2, xs);
      if Eval(l, env1).Done? { EvalDepends(r, Eval(l, env1).env, Eval(l, env2).env, xs); }
  }

  lemma UsesParts(e: Expr, l: Expr, r: Expr)
    requires Accesses(e) == Accesses(l) + Accesses(r)
    ensures Uses(e) == Uses(l) + Uses(r) && Writes(e) == Writes(l) + Writes(r)
  {}

  /* ---------- Triggers ---------- */

  /** The result of evaluating a trigger body leaves the pushed argument on top. */
  lemma TriggerShape(body: Expr, param: string, arg: Value, g: Env)
    ensures RunTrigger(body, param, arg, g).Some? <==> Eval(body, [(param, arg)] + g).Done?
    ensures RunTrigger(body, param, arg, g).Some? ==>
      && Eval(body, [(param, arg)] + g).env != []
      && RunTrigger(body, param, arg, g).value == Eval(body, [(param, arg)] + g).env[1..]
      && Changes(g, RunTrigger(body, param, arg, g).value, Writes(body))
  {
    EvalChanges(body, [(param, arg)] + g);
    if Eval(body, [(param, arg)] + g).Done? {
      var env := Eval(body, [(param, arg)] + g).env;
      PopHead(param, arg, g, env);
      ChangesTail(param, arg, g, env, Writes(body));
    }
  }

  lemma TriggerDepends(body: Expr, param: string, arg: Value, g1: Env, g2: Env)
    requires Agree(g1, g2, Uses(body))
    ensures RunTrigger(body, param, arg, g1).Some? <==> RunTrigger(body, param, arg, g2).Some?
    ensures RunTrigger(body, param, arg, g1).Some? ==>
      Agree(RunTrigger(body, param, arg, g1).value, RunTrigger(body, param, arg, g2).value, Uses(body))
  {
    var env1, env2 := [(param, arg)] + g1, [(param, arg)] + g2;
    assert Agree(env1, env2, Uses(body));
    EvalDepends(body, env1, env2, Uses(body));
    TriggerShape(body, param, arg, g1);
    TriggerShape(body, param, arg, g2);
    if Eval(body, env1).Done? {
      EvalChanges(body, env1);
      AgreeTail(Eval(body, env1).env, Eval(body, env2).env, Uses(body));
    }
  }

  /** One task and its message. */
  datatype Event = Event(body: Expr, param: string, arg: Value)

  function RunEvent(ev: Event, g: Env): Option<Env> { RunTrigger(ev.body, ev.param, ev.arg, g) }

  function RunEvents(evs: seq<Event>, g: Env): Option<Env>
    decreases |evs|
  {
    if evs == [] then Some(g)
    else
      match RunEvent(evs[0], g)
      case None => None
      case Some(g1) => RunEvents(evs[1..], g1)
  }

  predicate Independent(a: Expr, b: Expr) { !Clash(a, b) }

  lemma RunTwo(a: Event, b: Event, g: Env)
    ensures RunEvents([a, b], g) == match RunEvent(a, g) case None => None case Some(g1) => RunEvent(b, g1)
  {
    assert [a, b][1..] == [b] && [b][1..] == [];
    if RunEvent(a, g).Some? { OneEvent(b, RunEvent(a, g).value); }
  }

  lemma OneEvent(ev: Event, g: Env)
    ensures RunEvents([ev], g) == RunEvent(ev, g)
  {
    assert [ev][1..] == [];
    if RunEvent(ev, g).Some? { assert RunEvents([], RunEvent(ev, g).value) == RunEvent(ev, g); }
  }

  lemma IndependentNames(a: Expr, b: Expr)
    requires Independent(a, b)
    ensures forall x :: x in Writes(a) ==> x !in Uses(b)
    ensures forall x :: x in Writes(b) ==> x !in Uses(a)
  {
    forall x | x in Writes(a) ensures x !in Uses(b) {
      assert x !in Writes(a) * Uses(b);
    }
    forall x | x in Writes(b) ensures x !in Uses(a) {
      assert x !in Writes(b) * Uses(a);
    }
  }

  lemma AfterIndependent(a: Event, b: Event, g: Env)
    requires Independent(a.body, b.body) && RunEvent(a, g).Some?
    ensures Agree(g, RunEvent(a, g).value, Uses(b.body))
    ensures RunEvent(b, RunEvent(a, g).value).Some? <==> RunEvent(b, g).Some?
  {
    TriggerShape(a.body, a.param, a.arg, g);
    IndependentNames(a.body, b.body);
    TriggerDepends(b.body, b.param, b.arg, g, RunEvent(a, g).value);
  }

  /** Tasks without a clash commute, whatever their parameters and messages. */
  lemma IndependentCommute(a: Event, b: Event, g: Env)
    requires Independent(a.body, b.body)
    ensures RunEvents([a, b], g) == RunEvents([b, a], g)
  {
    RunTwo(a, b, g);
    RunTwo(b, a, g);
    if RunEvent(a, g).Some? { AfterIndependent(a, b, g); }
    if RunEvent(b, g).Some? { AfterIndependent(b, a, g); }
    if RunEvent(a, g).Some? && RunEvent(b, g).Some? { CommuteValues(a, b, g); }
  }

  lemma CommuteValues(a: Event, b: Event, g: Env)
    requires Independent(a.body, b.body) && RunEvent(a, g).Some? && RunEvent(b, g).Some?
    ensures RunEvent(b, RunEvent(a, g).value) == RunEvent(a, RunEvent(b, g).value)
  {
    var ga, gb := RunEvent(a, g).value, RunEvent(b, g).value;
    AfterIndependent(a, b, g);
    AfterIndependent(b, a, g);
    TriggerDepends(a.body, a.param, a.arg, g, gb);
    TriggerDepends(b.body, b.param, b.arg, g, ga);
    TriggerShape(a.body, a.param, a.arg, g);
    TriggerShape(b.body, b.param, b.arg, g);
    TriggerShape(b.body, b.param, b.arg, ga);
    TriggerShape(a.body, a.param, a.arg, gb);
    var gab, gba := RunEvent(b, ga).value, RunEvent(a, gb).value;
    IndependentNames(a.body, b.body);
    forall i | 0 <= i < |g| ensures gab[i] == gba[i] {
      var x := g[i].0;
      if x in Writes(a.body) {
        WritesUsed(a.body, x);
      } else if x in Writes(b.body) {
        WritesUsed(b.body, x);
      }
    }
    assert gab == gba;
  }

  lemma WritesUsed(e: Expr, x: string)
    requires x in Writes(e)
    ensures x in Uses(e)
  {}

  /* ---------- Any order of independent tasks ---------- */

  lemma {:induction false} RunEventsConcat(p: seq<Event>, q: seq<Event>, g: Env)
    ensures RunEvents(p + q, g) == match RunEvents(p, g) case None => None case Some(g1) => RunEvents(q, g1)
    decreases |p|
  {
    if p == [] {
      assert p + q == q;
    } else {
      assert (p + q)[1..] == p[1..] + q;
      if RunEvent(p[0], g).Some? { RunEventsConcat(p[1..], q, RunEvent(p[0], g).value); }
    }
  }

  /** An event independent of everything before it may be run first. */
  lemma {:induction false} MoveToFront(p: seq<Event>, ev: Event, q: seq<Event>, g: Env)
    requires forall i :: 0 <= i < |p| ==> Independent(p[i].body, ev.body)
    ensures RunEvents(p + [ev] + q, g) == RunEvents([ev] + p + q, g)
    decreases |p|
  {
    if p == [] {
      assert p + [ev] + q == [ev] + p + q;
    } else {
      var last, init := p[|p| - 1], p[..|p| - 1];
      assert p + [ev] + q == init + ([last, ev] + q);
      assert init + ([ev, last] + q) == init + [ev] + ([last] + q);
      assert [ev] + init + ([last] + q) == [ev] + p + q;
      forall h ensures RunEvents([last, ev] + q, h) == RunEvents([ev, last] + q, h) {
        IndependentCommute(last, ev, h);
        RunEventsConcat([last, ev], q, h);
        RunEventsConcat([ev, last], q, h);
      }
      RunEventsConcat(init, [last, ev] + q, g);
      RunEventsConcat(init, [ev, last] + q, g);
      MoveToFront(init, ev, [last] + q, g);
    }
  }

  ghost predicate PairwiseIndependent(evs: seq<Event>) {
    forall i, j :: 0 <= i < |evs| && 0 <= j < |evs| && i != j ==> Independent(evs[i].body, evs[j].body)
  }

  lemma MultisetAround(p: seq<Event>, x: Event, q: seq<Event>)
    ensures multiset(p + [x] + q) == multiset(p + q) + multiset{x}
  {
    assert multiset(p + [x] + q) == multiset(p) + multiset([x]) + multiset(q);
    assert multiset([x]) == multiset{x};
  }

  lemma SplitAround(perm: seq<Event>, x: Event) returns (p: seq<Event>, q: seq<Event>)
    requires x in perm
    ensures perm == p + [x] + q
  {
    var k :| 0 <= k < |perm| && perm[k] == x;
    p, q := perm[..k], perm[k + 1..];
  }

  lemma RestMultiset(evs: seq<Event>, p: seq<Event>, q: seq<Event>)
    requires evs != [] && multiset(evs) == multiset(p + [evs[0]] + q)
    ensures multiset(p + q) == multiset(evs[1..])
  {
    MultisetAround(p, evs[0], q);
    assert evs == [] + [evs[0]] + evs[1..] && [] + evs[1..] == evs[1..];
    MultisetAround([], evs[0], evs[1..]);
    SameRest(multiset(p + q), multiset(evs[1..]), evs[0]);
  }

  lemma SplitAt(evs: seq<Event>, perm: seq<Event>) returns (p: seq<Event>, q: seq<Event>)
    requires evs != [] && multiset(evs) == multiset(perm)
    ensures perm == p + [evs[0]] + q && multiset(p + q) == multiset(evs[1..])
  {
    assert evs[0] in multiset(evs);
    assert evs[0] in perm;
    p, q := SplitAround(perm, evs[0]);
    RestMultiset(evs, p, q);
  }

  lemma SameRest(a: multiset<Event>, b: multiset<Event>, x: Event)
    requires a + multiset{x} == b + multiset{x}
    ensures a == b
  {
    assert a == (a + multiset{x}) - multiset{x};
  }

  lemma InRest(evs: seq<Event>, p: seq<Event>, q: seq<Event>, i: nat)
    requires evs != [] && PairwiseIndependent(evs) && multiset(p + q) == multiset(evs[1..]) && i < |p|
    ensures Independent(p[i].body, evs[0].body)
  {
    assert p[i] == (p + q)[i] && p[i] in multiset(p + q);
    assert p[i] in evs[1..];
    var j :| 0 <= j < |evs[1..]| && evs[1..][j] == p[i];
    assert evs[j + 1] == p[i];
  }

  /** Two runs of the same events agree when the events are pairwise independent. */
  lemma {:induction false} PermutedRunsAgree(evs: seq<Event>, perm: seq<Event>, g: Env)
    requires PairwiseIndependent(evs) && multiset(evs) == multiset(perm)
    ensures RunEvents(perm, g) == RunEvents(evs, g)
    decreases |evs|
  {
    if evs == [] {
      assert |multiset(perm)| == 0;
    } else {
      var ev, rest := evs[0], evs[1..];
      var p, q := SplitAt(evs, perm);
      forall i | 0 <= i < |p| ensures Independent(p[i].body, ev.body) { InRest(evs, p, q, i); }
      MoveToFront(p, ev, q, g);
      assert [ev] + p + q == [ev] + (p + q);
      assert PairwiseIndependent(rest) by {
        assert forall i :: 0 <= i < |rest| ==> rest[i] == evs[i + 1];
      }
      RunEventsConcat([ev], p + q, g);
      OneEvent(ev, g);
      if RunEvent(ev, g).Some? { PermutedRunsAgree(rest, p + q, RunEvent(ev, g).value); }
    }
  }

  /* ---------- The tasks of one trigger ---------- */

  lemma {:induction false} SplitUses(e: Expr, t: Expr)
    requires t in SplitSeq(e)
    ensures Uses(t) <= Uses(e) && Writes(t) <= Writes(e)
  {
    if e.Seq? && SeqConflicts(e.l, e.r) == {} {
      UsesParts(e, e.l, e.r);
      if t != e.r { SplitUses(e.l, t); }
    }
  }

  lemma ClashMonotone(a: Expr, b: Expr, t: Expr)
    requires Uses(t) <= Uses(a) && Writes(t) <= Writes(a) && Clash(t, b)
    ensures Clash(a, b)
  {
    if Writes(t) * Uses(b) != {} {
      var x :| x in Writes(t) * Uses(b);
      assert x in Writes(a) * Uses(b);
    } else {
      var x :| x in Writes(b) * Uses(t);
      assert x in Writes(b) * Uses(a);
    }
  }

  function Events(bodies: seq<Expr>, param: string, arg: Value): seq<Event> {
    seq(|bodies|, i requires 0 <= i < |bodies| => Event(bodies[i], param, arg))
  }

  lemma {:induction false} SplitIndependent(e: Expr, param: string, arg: Value)
    ensures PairwiseIndependent(Events(SplitSeq(e), param, arg))
  {
    if e.Seq? && SeqConflicts(e.l, e.r) == {} {
      SeqLabelledIffClash(e.l, e.r);
      SplitIndependent(e.l, param, arg);
      var ts, rest := SplitSeq(e), SplitSeq(e.l);
      var evs, old_ := Events(ts, param, arg), Events(rest, param, arg);
      forall i, j | 0 <= i < |evs| && 0 <= j < |evs| && i != j ensures Independent(evs[i].body, evs[j].body) {
        if i > 0 && j > 0 {
          assert evs[i] == old_[i - 1] && evs[j] == old_[j - 1];
        } else {
          var t := ts[if i == 0 then j else i];
          assert t in rest by { assert t == rest[if i == 0 then j - 1 else i - 1]; }
          SplitUses(e.l, t);
          if Clash(t, e.r) { ClashMonotone(e.l, e.r, t); }
        }
      }
    }
  }

  /** The right side does not read what the left side wrote, the argument included: started on the
      environment the left side leaves, or on the same globals under the original argument, it gives
      the same result and the same globals. */
  lemma RightIgnoresLeft(r: Expr, env: Env, env': Env)
    requires |env| > 0 && Agree(env, env', Uses(r)) && env[1..] == env'[1..]
    ensures Eval(r, env).Done? <==> Eval(r, env').Done?
    ensures Eval(r, env).Done? ==> |Eval(r, env).env| == |Eval(r, env').env| == |env|
    ensures Eval(r, env).Done? ==> Eval(r, env).env[1..] == Eval(r, env').env[1..]
  {
    EvalDepends(r, env, env', Uses(r));
    if Eval(r, env).Done? {
      EvalChanges(r, env);
      EvalChanges(r, env');
      var out1, out2 := Eval(r, env).env, Eval(r, env').env;
      forall i | 1 <= i < |out1| ensures out1[i] == out2[i] {
        assert env[i] == env[1..][i - 1] && env'[i] == env'[1..][i - 1];
        if out1[i].0 in Writes(r) { WritesUsed(r, out1[i].0); }
      }
      assert out1[1..] == out2[1..];
    }
  }

  lemma SeqIsTwoTriggers(uid: nat, l: Expr, r: Expr, param: string, arg: Value, g: Env)
    requires Independent(l, r)
    ensures RunTrigger(Seq(uid, l, r), param, arg, g) ==
      match RunTrigger(l, param, arg, g) case None => None case Some(g1) => RunTrigger(r, param, arg, g1)
  {
    var top := [(param, arg)];
    TriggerShape(l, param, arg, g);
    TriggerShape(Seq(uid, l, r), param, arg, g);
    if Eval(l, top + g).Done? {
      var env := Eval(l, top + g).env;
      LeftKeepsArgument(l, r, param, arg, g);
      RightIgnoresLeft(r, env, top + env[1..]);
      TriggerShape(r, param, arg, env[1..]);
    }
  }

  /** What the right side uses, the left side leaves as it was, the argument included. */
  lemma LeftKeepsArgument(l: Expr, r: Expr, param: string, arg: Value, g: Env)
    requires Independent(l, r) && Eval(l, [(param, arg)] + g).Done?
    ensures var env := Eval(l, [(param, arg)] + g).env;
      env != [] && Agree(env, [(param, arg)] + env[1..], Uses(r)) && ([(param, arg)] + env[1..])[1..] == env[1..]
  {
    var top := [(param, arg)];
    EvalChanges(l, top + g);
    IndependentNames(l, r);
    var env := Eval(l, top + g).env;
    forall i | 0 <= i < |env| && env[i].0 in Uses(r) ensures env[i] == (top + env[1..])[i] {}
  }

  lemma {:induction false} SplitInOrder(e: Expr, param: string, arg: Value, g: Env)
    ensures RunEvents(Events(SplitSeq(e), param, arg), g) == RunTrigger(e, param, arg, g)
  {
    var evs := Events(SplitSeq(e), param, arg);
    if e.Seq? && SeqConflicts(e.l, e.r) == {} {
      SeqLabelledIffClash(e.l, e.r);
      var rest, ev := Events(SplitSeq(e.l), param, arg), Event(e.r, param, arg);
      assert evs == [ev] + rest && [ev] + rest == [ev] + rest + [] && rest + [ev] + [] == rest + [ev];
      SplitIndependent(e, param, arg);
      forall i | 0 <= i < |rest| ensures Independent(rest[i].body, ev.body) {
        assert evs[i + 1] == rest[i] && Independent(evs[i + 1].body, evs[0].body);
      }
      MoveToFront(rest, ev, [], g);
      RunEventsConcat(rest, [ev], g);
      SplitInOrder(e.l, param, arg, g);
      SeqIsTwoTriggers(e.uid, e.l, e.r, param, arg, g);
      if RunEvents(rest, g).Some? { OneEvent(ev, RunEvents(rest, g).value); }
    } else {
      assert evs == [Event(e, param, arg)];
      OneEvent(Event(e, param, arg), g);
    }
  }

  /** The node k steps down the left of a sequence. */
  function Spine(e: Expr, k: nat): Expr
    decreases k
  {
    if k == 0 || !e.Seq? then e else Spine(e.l, k - 1)
  }

  /** The cut goes as far as it may and no further: from the root down the left, every sequence whose
      sides do not clash gives its right side as a task, and the last task is what is left where the
      cutting has to stop. */
  lemma {:induction false} SplitGoesAllTheWay(e: Expr)
    ensures var ts := SplitSeq(e); var last := |ts| - 1;
      && last >= 0 && ts[last] == Spine(e, last) && !(ts[last].Seq? && Independent(ts[last].l, ts[last].r))
      && forall k :: 0 <= k < last ==>
           var s := Spine(e, k); s.Seq? && Independent(s.l, s.r) && ts[k] == s.r
  {
    if e.Seq? { SeqLabelledIffClash(e.l, e.r); }
    if e.Seq? && SeqConflicts(e.l, e.r) == {} {
      SplitGoesAllTheWay(e.l);
      var ts, rest := SplitSeq(e), SplitSeq(e.l);
      assert forall k: nat :: Spine(e, k + 1) == Spine(e.l, k);
      forall k | 0 <= k < |ts| - 1
        ensures var s := Spine(e, k); s.Seq? && Independent(s.l, s.r) && ts[k] == s.r
      {
        if k > 0 { assert ts[k] == rest[k - 1] && Spine(e, k) == Spine(e.l, k - 1); }
      }
      assert Spine(e, |ts| - 1) == Spine(e.l, |rest| - 1);
    }
  }

  /** Whatever order the tasks of a trigger run in, the globals end up as the undivided body leaves
      them; and some task fails in one order exactly when the body fails. */
  lemma AnyOrderEqualsBody(e: Expr, param: string, arg: Value, perm: seq<Event>, g: Env)
    requires multiset(perm) == multiset(Events(SplitSeq(e), param, arg))
    ensures RunEvents(perm, g) == RunTrigger(e, param, arg, g)
  {
    SplitIndependent(e, param, arg);
    PermutedRunsAgree(Events(SplitSeq(e), param, arg), perm, g);
    SplitInOrder(e, param, arg, g);
  }
}
