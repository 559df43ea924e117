/** Bindings that an expression never names do not show: evaluated with them anywhere in the
    environment, it does exactly what it does without them. */
module Transparency {
  import opened Scalars
  import opened Environments
  import opened Interp

  /** The environment with q put in at position k. */
  function Insert(env: Env, k: nat, q: Env): (r: Env)
    requires k <= |env|
    ensures |r| == |env| + |q|
  {
    env[..k] + q + env[k..]
  }

  /** No hidden name is read, assigned or bound by a pattern, in function bodies included. */
  predicate Avoids(e: Expr, hidden: set<string>) {
    match e
    case Const(_) => true
    case Var(x) => x !in hidden
    case Form(_, es) => AllAvoid(es, hidden)
    case Lambda(_, b) => Avoids(b, hidden)
    case App(fn, arg) => Avoids(fn, hidden) && Avoids(arg, hidden)
    case Sequence(l, r) => Avoids(l, hidden) && Avoids(r, hidden)
    case LetIn(_, i, b) => Avoids(i, hidden) && Avoids(b, hidden)
    case Assign(x, e1) => x !in hidden && Avoids(e1, hidden)
    case CaseOf(_, e1, s, n) => Avoids(e1, hidden) && Avoids(s, hidden) && Avoids(n, hidden)
    case If(p, t, f) => Avoids(p, hidden) && Avoids(t, hidden) && Avoids(f, hidden)
    case BindTuple(e1, ts, b) => Avoids(e1, hidden) && Avoids(b, hidden) && NoneHidden(ts, hidden)
    case BindRecord(e1, ids, b) => Avoids(e1, hidden) && Avoids(b, hidden) && NoneHidden(Targets(ids), hidden)
  }

  predicate AllAvoid(es: seq<Expr>, hidden: set<string>) {
    es == [] || (Avoids(es[0], hidden) && AllAvoid(es[1..], hidden))
  }

  predicate NoneHidden(xs: seq<string>, hidden: set<string>) { forall x :: x in xs ==> x !in hidden }

  /** The function values inside avoid the hidden names. */
  predicate CleanV(v: Value, hidden: set<string>)
    decreases v
  {
    match v
    case Sc(_) => true
    case Opt(o) => o.Some? ==> CleanV(o.value, hidden)
    case Tuple(vs) => forall i :: 0 <= i < |vs| ==> CleanV(vs[i], hidden)
    case Record(fs) => forall i :: 0 <= i < |fs| ==> CleanV(fs[i].1, hidden)
    case Closure(_, b, cl) => Avoids(b, hidden) && forall i :: 0 <= i < |cl| ==> CleanV(cl[i].1, hidden)
  }

  predicate Clean(env: Env, hidden: set<string>) { forall i :: 0 <= i < |env| ==> CleanV(env[i].1, hidden) }

  /** The extra bindings have hidden names only. */
  predicate Hides(q: Env, hidden: set<string>) { NoneShown(Names(q), hidden) }

  predicate NoneShown(xs: seq<string>, hidden: set<string>) { forall x :: x in xs ==> x in hidden }

  /** The same timeout, the same error, or the same value with the extra bindings still in place. */
  predicate Same(r: Outcome, r': Outcome, k: nat, q: Env, hidden: set<string>) {
    match r
    case Timeout => r'.Timeout?
    case Fail(err, _) => r'.Fail? && r'.err == err
    case Done(v, env) => k <= |env| && r' == Done(v, Insert(env, k, q)) && CleanV(v, hidden) && Clean(env, hidden)
  }

  /* ---------- Environments ---------- */

  lemma CleanLookup(env: Env, x: string, hidden: set<string>)
    requires Clean(env, hidden) && LookupE(env, x).Some?
    ensures CleanV(LookupE(env, x).value, hidden)
  {
    var i :| 0 <= i < |env| && env[i] == (x, LookupE(env, x).value);
  }

  lemma CleanConcat(p: Env, env: Env, hidden: set<string>)
    requires Clean(p, hidden) && Clean(env, hidden)
    ensures Clean(p + env, hidden)
  {}

  lemma CleanReplaced(env: Env, x: string, v: Value, hidden: set<string>)
    requires Clean(env, hidden) && CleanV(v, hidden)
    ensures Clean(ReplaceE(env, x, v), hidden)
  {}

  lemma CleanBelow(env: Env, p: nat, hidden: set<string>)
    requires Clean(env, hidden) && p <= |env|
    ensures Clean(env[p..], hidden)
  {}

  lemma LookupInserted(env: Env, k: nat, q: Env, x: string, hidden: set<string>)
    requires k <= |env| && Hides(q, hidden) && x !in hidden
    ensures LookupE(Insert(env, k, q), x) == LookupE(env, x)
  {
    LookupIffNamed(q, x);
    LookupConcat(env[..k] + q, env[k..], x);
    LookupConcat(env[..k], q, x);
    LookupConcat(env[..k], env[k..], x);
    assert env[..k] + env[k..] == env;
  }

  lemma HiddenDiffers(q: Env, i: nat, x: string, hidden: set<string>)
    requires Hides(q, hidden) && x !in hidden && i < |q|
    ensures q[i].0 != x
  {
    assert Names(q)[i] == q[i].0;
  }

  lemma ReplaceInserted(env: Env, k: nat, q: Env, x: string, v: Value, hidden: set<string>)
    requires k <= |env| && Hides(q, hidden) && x !in hidden
    ensures ReplaceE(Insert(env, k, q), x, v) == Insert(ReplaceE(env, x, v), k, q)
  {
    var a, b := ReplaceE(Insert(env, k, q), x, v), Insert(ReplaceE(env, x, v), k, q);
    forall i | 0 <= i < |a| ensures a[i] == b[i] {
      if k <= i < k + |q| { HiddenDiffers(q, i - k, x, hidden); }
    }
  }

  lemma InsertBelow(p: Env, env: Env, k: nat, q: Env)
    requires k <= |env|
    ensures p + Insert(env, k, q) == Insert(p + env, |p| + k, q)
  {
    assert (p + env)[..|p| + k] == p + env[..k];
    assert (p + env)[|p| + k..] == env[k..];
  }

  lemma InsertPopped(env: Env, p: nat, k: nat, q: Env)
    requires p + k <= |env|
    ensures Insert(env, p + k, q)[p..] == Insert(env[p..], k, q)
  {
    assert env[p..][..k] == env[p..p + k] && env[p..][k..] == env[p + k..];
  }

  lemma {:induction false} CaptureInserted(env: Env, k: nat, q: Env, xs: seq<string>, hidden: set<string>)
    requires k <= |env| && Hides(q, hidden) && NoneHidden(xs, hidden) && Clean(env, hidden)
    ensures LookupAll(Insert(env, k, q), xs) == LookupAll(env, xs)
    ensures LookupAll(env, xs).Found? ==> Clean(LookupAll(env, xs).cl, hidden)
    decreases |xs|
  {
    if xs != [] {
      assert xs[0] in xs;
      LookupInserted(env, k, q, xs[0], hidden);
      if LookupE(env, xs[0]).Some? { CleanLookup(env, xs[0], hidden); }
      CaptureInserted(env, k, q, xs[1..], hidden);
    }
  }

  lemma TargetNamed(ids: seq<(string, string)>, f: string, hidden: set<string>)
    requires NoneHidden(Targets(ids), hidden) && LookupE(ids, f).Some?
    ensures LookupE(ids, f).value !in hidden
  {
    var i :| 0 <= i < |ids| && ids[i] == (f, LookupE(ids, f).value);
    assert Targets(ids)[i] == ids[i].1;
  }

  lemma {:induction false} RebuildInserted(env: Env, k: nat, q: Env, ids: seq<(string, string)>, was: Bindings<Value>, hidden: set<string>)
    requires k <= |env| && Hides(q, hidden) && NoneHidden(Targets(ids), hidden) && Clean(env, hidden) && Clean(was, hidden)
    ensures Rebuild(Insert(env, k, q), ids, was) == Rebuild(env, ids, was)
    ensures Rebuild(env, ids, was).Found? ==> Clean(Rebuild(env, ids, was).cl, hidden)
    decreases |was|
  {
    if was != [] {
      RebuildInserted(env, k, q, ids, was[1..], hidden);
      if LookupE(ids, was[0].0).Some? {
        var name := LookupE(ids, was[0].0).value;
        TargetNamed(ids, was[0].0, hidden);
        LookupInserted(env, k, q, name, hidden);
        if LookupE(env, name).Some? { CleanLookup(env, name, hidden); }
      }
    }
  }

  /** The write-back reads and writes shown names only. */
  predicate RefreshAvoids(r: Refresh, hidden: set<string>) {
    match r
    case Nothing => true
    case FromTuple(x, ts) => x !in hidden && NoneHidden(ts, hidden)
    case FromRecord(x, ids, was) => x !in hidden && NoneHidden(Targets(ids), hidden) && Clean(was, hidden)
  }

  lemma TupleClean(cl: Env, hidden: set<string>)
    requires Clean(cl, hidden)
    ensures CleanV(Tuple(Values(cl)), hidden) && CleanV(Record(cl), hidden)
  {}

  lemma RefreshInserted(r: Refresh, env: Env, k: nat, q: Env, hidden: set<string>)
    requires RefreshAvoids(r, hidden) && k <= |env| && Hides(q, hidden) && Clean(env, hidden)
    ensures var f, f' := DoRefresh(r, env), DoRefresh(r, Insert(env, k, q));
      if f.Unknown? then f' == f else |f.env| == |env| && f' == Fresh(Insert(f.env, k, q)) && Clean(f.env, hidden)
  {
    match r
    case Nothing =>
    case FromTuple(x, ts) =>
      CaptureInserted(env, k, q, ts, hidden);
      var c := LookupAll(env, ts);
      if c.Found? { RefreshedInserted(env, k, q, x, Tuple(Values(c.cl)), c.cl, hidden); }
    case FromRecord(x, ids, was) =>
      RebuildInserted(env, k, q, ids, was, hidden);
      var c := Rebuild(env, ids, was);
      if c.Found? { RefreshedInserted(env, k, q, x, Record(c.cl), c.cl, hidden); }
  }

  lemma RefreshedInserted(env: Env, k: nat, q: Env, x: string, v: Value, cl: Env, hidden: set<string>)
    requires k <= |env| && Hides(q, hidden) && Clean(env, hidden) && x !in hidden && Clean(cl, hidden)
    requires v == Tuple(Values(cl)) || v == Record(cl)
    ensures |ReplaceE(env, x, v)| == |env| && Clean(ReplaceE(env, x, v), hidden)
    ensures ReplaceE(Insert(env, k, q), x, v) == Insert(ReplaceE(env, x, v), k, q)
  {
    TupleClean(cl, hidden);
    CleanReplaced(env, x, v, hidden);
    ReplaceInserted(env, k, q, x, v, hidden);
  }

  /* ---------- Free variables ---------- */

  lemma {:induction false} FreeShown(e: Expr, hidden: set<string>)
    requires Avoids(e, hidden)
    ensures NoneHidden(FreeVariables(e), hidden)
  {
    match e
    case Const(_) =>
    case Var(x) =>
    case Form(_, es) => AllFreeShown(es, hidden);
    case Lambda(x, b) => FreeShown(b, hidden);
    case App(fn, arg) => FreeShown(fn, hidden); FreeShown(arg, hidden);
    case Sequence(l, r) => FreeShown(l, hidden); FreeShown(r, hidden);
    case LetIn(x, i, b) => FreeShown(i, hidden); FreeShown(b, hidden);
    case Assign(_, e1) => FreeShown(e1, hidden);
    case CaseOf(x, e1, s, n) => FreeShown(e1, hidden); FreeShown(s, hidden); FreeShown(n, hidden);
    case If(p, t, f) => FreeShown(p, hidden); FreeShown(t, hidden); FreeShown(f, hidden);
    case BindTuple(e1, ts, b) => FreeShown(e1, hidden); FreeShown(b, hidden);
    case BindRecord(e1, ids, b) => FreeShown(e1, hidden); FreeShown(b, hidden);
  }

  lemma AllFreeShown(es: seq<Expr>, hidden: set<string>)
    requires AllAvoid(es, hidden)
    ensures NoneHidden(FreeInAll(es), hidden)
  {
    if es != [] {
      FreeShown(es[0], hidden);
      AllFreeShown(es[1..], hidden);
    }
  }

  /* ---------- Evaluation ---------- */

  /** What every lemma below asks of the environment. */
  predicate Fits(env: Env, k: nat, q: Env, hidden: set<string>) {
    k <= |env| && Hides(q, hidden) && Clean(env, hidden)
  }

  /** Extra bindings under hidden names change nothing, whatever the expression calls, assigns or
      binds. */
  lemma {:induction false} Transparent(g: set<string>, n: nat, e: Expr, env: Env, k: nat, q: Env, hidden: set<string>)
    requires Avoids(e, hidden) && Fits(env, k, q, hidden)
    ensures Same(Eval(g, n, e, env), Eval(g, n, e, Insert(env, k, q)), k, q, hidden)
    decreases n, 0
  {
    if n > 0 {
      match e
      case Const(_) =>
      case Var(x) => TransparentVar(g, n, x, env, k, q, hidden);
      case Form(f, es) => TransparentForm(g, n - 1, f, es, env, k, q, hidden);
      case Lambda(x, b) => TransparentLambda(g, n, x, b, env, k, q, hidden);
      case App(fn, arg) => TransparentApp(g, n - 1, fn, arg, env, k, q, hidden);
      case Sequence(l, r) => TransparentSequence(g, n - 1, l, r, env, k, q, hidden);
      case Assign(x, e1) => TransparentAssign(g, n - 1, x, e1, env, k, q, hidden);
      case If(p, t, f) => TransparentIf(g, n - 1, p, t, f, env, k, q, hidden);
      case _ => TransparentBinder(g, n - 1, e, env, k, q, hidden);
    }
  }

  lemma TransparentBinder(g: set<string>, n: nat, e: Expr, env: Env, k: nat, q: Env, hidden: set<string>)
    requires e.LetIn? || e.CaseOf? || e.BindTuple? || e.BindRecord?
    requires Avoids(e, hidden) && Fits(env, k, q, hidden)
    ensures Same(Eval(g, n + 1, e, env), Eval(g, n + 1, e, Insert(env, k, q)), k, q, hidden)
    decreases n, 4
  {
    match e
    case LetIn(x, i, b) => TransparentLet(g, n, x, i, b, env, k, q, hidden);
    case CaseOf(x, e1, s, no) => TransparentCase(g, n, x, e1, s, no, env, k, q, hidden);
    case BindTuple(e1, ts, b) => TransparentBindTuple(g, n, e1, ts, b, env, k, q, hidden);
    case BindRecord(e1, ids, b) => TransparentBindRecord(g, n, e1, ids, b, env, k, q, hidden);
  }

  lemma TransparentVar(g: set<string>, n: nat, x: string, env: Env, k: nat, q: Env, hidden: set<string>)
    requires x !in hidden && Fits(env, k, q, hidden)
    ensures Same(Eval(g, n, Var(x), env), Eval(g, n, Var(x), Insert(env, k, q)), k, q, hidden)
  {
    LookupInserted(env, k, q, x, hidden);
    if LookupE(env, x).Some? { CleanLookup(env, x, hidden); }
  }

  lemma TransparentLambda(g: set<string>, n: nat, x: string, b: Expr, env: Env, k: nat, q: Env, hidden: set<string>)
    requires n > 0 && Avoids(b, hidden) && Fits(env, k, q, hidden)
    ensures Same(Eval(g, n, Lambda(x, b), env), Eval(g, n, Lambda(x, b), Insert(env, k, q)), k, q, hidden)
  {
    FreeShown(b, hidden);
    CaptureInserted(env, k, q, CaptureNames(g, x, b), hidden);
  }

  lemma SequenceRuns(g: set<string>, n: nat, l: Expr, r: Expr, env: Env)
    ensures Eval(g, n + 1, Sequence(l, r), env) == var o := Eval(g, n, l, env); if o.Done? then Eval(g, n, r, o.env) else o
  {}

  lemma TransparentSequence(g: set<string>, n: nat, l: Expr, r: Expr, env: Env, k: nat, q: Env, hidden: set<string>)
    requires Avoids(l, hidden) && Avoids(r, hidden) && Fits(env, k, q, hidden)
    ensures Same(Eval(g, n + 1, Sequence(l, r), env), Eval(g, n + 1, Sequence(l, r), Insert(env, k, q)), k, q, hidden)
    decreases n, 3
  {
    SequenceRuns(g, n, l, r, env);
    SequenceRuns(g, n, l, r, Insert(env, k, q));
    Transparent(g, n, l, env, k, q, hidden);
    var o := Eval(g, n, l, env);
    if o.Done? { Transparent(g, n, r, o.env, k, q, hidden); }
  }

  lemma TransparentAssign(g: set<string>, n: nat, x: string, e1: Expr, env: Env, k: nat, q: Env, hidden: set<string>)
    requires x !in hidden && Avoids(e1, hidden) && Fits(env, k, q, hidden)
    ensures Same(EvalAssign(g, n, x, e1, env), EvalAssign(g, n, x, e1, Insert(env, k, q)), k, q, hidden)
    decreases n, 3
  {
    LookupInserted(env, k, q, x, hidden);
    Transparent(g, n, e1, env, k, q, hidden);
    var o := Eval(g, n, e1, env);
    if o.Done? {
      ReplaceInserted(o.env, k, q, x, o.v, hidden);
      CleanReplaced(o.env, x, o.v, hidden);
    }
  }

  lemma IfRuns(g: set<string>, n: nat, p: Expr, t: Expr, f: Expr, env: Env)
    ensures Eval(g, n + 1, If(p, t, f), env) ==
      var o := Eval(g, n, p, env);
      if !o.Done? then o
      else if o.v == Sc(Bool(true)) then Eval(g, n, t, o.env)
      else if o.v == Sc(Bool(false)) then Eval(g, n, f, o.env)
      else Fail(RunTimeError, o.env)
  {}

  lemma TransparentIf(g: set<string>, n: nat, p: Expr, t: Expr, f: Expr, env: Env, k: nat, q: Env, hidden: set<string>)
    requires Avoids(p, hidden) && Avoids(t, hidden) && Avoids(f, hidden) && Fits(env, k, q, hidden)
    ensures Same(Eval(g, n + 1, If(p, t, f), env), Eval(g, n + 1, If(p, t, f), Insert(env, k, q)), k, q, hidden)
    decreases n, 3
  {
    IfRuns(g, n, p, t, f, env);
    IfRuns(g, n, p, t, f, Insert(env, k, q));
    Transparent(g, n, p, env, k, q, hidden);
    var o := Eval(g, n, p, env);
    if o.Done? {
      if o.v == Sc(Bool(true)) { Transparent(g, n, t, o.env, k, q, hidden); }
      else if o.v == Sc(Bool(false)) { Transparent(g, n, f, o.env, k, q, hidden); }
    }
  }

  lemma TransparentAll(g: set<string>, n: nat, es: seq<Expr>, env: Env, k: nat, q: Env, hidden: set<string>)
    requires AllAvoid(es, hidden) && Fits(env, k, q, hidden)
    ensures Same(EvalAll(g, n, es, env), EvalAll(g, n, es, Insert(env, k, q)), k, q, hidden)
    decreases n, |es| + 1
  {
    if es != [] {
      Transparent(g, n, es[0], env, k, q, hidden);
      var o := Eval(g, n, es[0], env);
      if o.Done? { TransparentAll(g, n, es[1..], o.env, k, q, hidden); }
    }
  }

  lemma CombineClean(f: Former, vs: seq<Value>, hidden: set<string>)
    requires forall i :: 0 <= i < |vs| ==> CleanV(vs[i], hidden)
    ensures Combine(f, vs).Some? ==> CleanV(Combine(f, vs).value, hidden)
  {
    if f.Project? && |vs| == 1 && vs[0].Record? && LookupE(vs[0].fields, f.field).Some? {
      CleanLookup(vs[0].fields, f.field, hidden);
    }
  }

  lemma TransparentForm(g: set<string>, n: nat, f: Former, es: seq<Expr>, env: Env, k: nat, q: Env, hidden: set<string>)
    requires AllAvoid(es, hidden) && Fits(env, k, q, hidden)
    ensures Same(EvalForm(g, n, f, es, env), EvalForm(g, n, f, es, Insert(env, k, q)), k, q, hidden)
    decreases n, |es| + 2
  {
    TransparentAll(g, n, es, env, k, q, hidden);
    var o := EvalAll(g, n, es, env);
    if o.Done? { CombineClean(f, o.v.vs, hidden); }
  }

  lemma TransparentScoped(g: set<string>, n: nat, b: Expr, pushed: Env, refresh: Refresh, env: Env, k: nat, q: Env, hidden: set<string>)
    requires Avoids(b, hidden) && Clean(pushed, hidden) && RefreshAvoids(refresh, hidden) && Fits(env, k, q, hidden)
    ensures Same(Scoped(g, n, b, pushed, refresh, env), Scoped(g, n, b, pushed, refresh, Insert(env, k, q)), k, q, hidden)
    decreases n, 1
  {
    CleanConcat(pushed, env, hidden);
    InsertBelow(pushed, env, k, q);
    Transparent(g, n, b, pushed + env, |pushed| + k, q, hidden);
    EvalKeepsNames(g, n, b, pushed + env);
    NamesConcat(pushed, env);
    LeaveSame(Eval(g, n, b, pushed + env), Eval(g, n, b, pushed + Insert(env, k, q)), refresh, Names(pushed), Names(env), k, q, hidden);
  }

  lemma NamesInserted(env: Env, k: nat, q: Env)
    requires k <= |env|
    ensures Names(Insert(env, k, q)) == Names(env)[..k] + Names(q) + Names(env)[k..]
  {}

  lemma LeaveSame(o: Outcome, o': Outcome, refresh: Refresh, xs: seq<string>, ys: seq<string>, k: nat, q: Env, hidden: set<string>)
    requires (o.Done? ==> Names(o.env) == xs + ys) && k <= |ys| && RefreshAvoids(refresh, hidden) && Hides(q, hidden)
    requires Same(o, o', |xs| + k, q, hidden)
    ensures Same(Leave(o, refresh, xs), Leave(o', refresh, xs), k, q, hidden)
  {
    if o.Done? {
      RefreshInserted(refresh, o.env, |xs| + k, q, hidden);
      RefreshKeepsNames(refresh, o.env);
      var f := DoRefresh(refresh, o.env);
      if f.Fresh? { PoppedSame(f.env, xs, ys, k, q, hidden); }
    }
  }

  lemma SplitNames(xs: seq<string>, ys: seq<string>, zs: seq<string>, k: nat)
    requires k <= |ys|
    ensures (xs + ys)[..|xs| + k] + zs + (xs + ys)[|xs| + k..] == xs + (ys[..k] + zs + ys[k..])
  {}

  lemma InsertedNames(env: Env, names: seq<string>, xs: seq<string>, ys: seq<string>, k: nat, q: Env)
    requires names == Names(env) && names == xs + ys && k <= |ys| && |env| == |xs| + |ys|
    ensures Names(Insert(env, |xs| + k, q)) == xs + (ys[..k] + Names(q) + ys[k..])
  {
    NamesInserted(env, |xs| + k, q);
    SplitNames(xs, ys, Names(q), k);
  }

  lemma PopInserted(env: Env, xs: seq<string>, ys: seq<string>, k: nat, q: Env)
    requires Names(env) == xs + ys && k <= |ys| && |env| == |xs| + |ys|
    ensures RemoveAllE(Insert(env, |xs| + k, q), xs) == Insert(env, |xs| + k, q)[|xs|..]
  {
    InsertedNames(env, Names(env), xs, ys, k, q);
    RemoveAllPops(Insert(env, |xs| + k, q), xs, ys[..k] + Names(q) + ys[k..]);
  }

  lemma PoppedSame(env: Env, xs: seq<string>, ys: seq<string>, k: nat, q: Env, hidden: set<string>)
    requires Names(env) == xs + ys && k <= |ys| && Clean(env, hidden)
    ensures |env| == |xs| + |ys| && k <= |RemoveAllE(env, xs)| && Clean(RemoveAllE(env, xs), hidden)
    ensures RemoveAllE(Insert(env, |xs| + k, q), xs) == Insert(RemoveAllE(env, xs), k, q)
  {
    RemoveAllPops(env, xs, ys);
    PopInserted(env, xs, ys, k, q);
    InsertPopped(env, |xs|, k, q);
  }

  lemma LetRuns(g: set<string>, n: nat, x: string, i: Expr, b: Expr, env: Env)
    ensures Eval(g, n + 1, LetIn(x, i, b), env) ==
      var o := Eval(g, n, i, env); if o.Done? then Scoped(g, n, b, [(x, o.v)], Nothing, o.env) else o
  {}

  lemma TransparentLet(g: set<string>, n: nat, x: string, i: Expr, b: Expr, env: Env, k: nat, q: Env, hidden: set<string>)
    requires Avoids(i, hidden) && Avoids(b, hidden) && Fits(env, k, q, hidden)
    ensures Same(Eval(g, n + 1, LetIn(x, i, b), env), Eval(g, n + 1, LetIn(x, i, b), Insert(env, k, q)), k, q, hidden)
    decreases n, 3
  {
    LetRuns(g, n, x, i, b, env);
    LetRuns(g, n, x, i, b, Insert(env, k, q));
    Transparent(g, n, i, env, k, q, hidden);
    var o := Eval(g, n, i, env);
    if o.Done? { TransparentScoped(g, n, b, [(x, o.v)], Nothing, o.env, k, q, hidden); }
  }

  lemma TransparentCase(g: set<string>, n: nat, x: string, e1: Expr, s: Expr, no: Expr, env: Env, k: nat, q: Env, hidden: set<string>)
    requires Avoids(e1, hidden) && Avoids(s, hidden) && Avoids(no, hidden) && Fits(env, k, q, hidden)
    ensures Same(Eval(g, n + 1, CaseOf(x, e1, s, no), env), Eval(g, n + 1, CaseOf(x, e1, s, no), Insert(env, k, q)), k, q, hidden)
    decreases n, 3
  {
    Transparent(g, n, e1, env, k, q, hidden);
    var o := Eval(g, n, e1, env);
    if o.Done? && o.v.Opt? {
      if o.v.o.Some? { TransparentScoped(g, n, s, [(x, o.v.o.value)], Nothing, o.env, k, q, hidden); }
      else { Transparent(g, n, no, o.env, k, q, hidden); }
    }
  }

  lemma TransparentApp(g: set<string>, n: nat, fn: Expr, arg: Expr, env: Env, k: nat, q: Env, hidden: set<string>)
    requires Avoids(fn, hidden) && Avoids(arg, hidden) && Fits(env, k, q, hidden)
    ensures Same(EvalApp(g, n, fn, arg, env), EvalApp(g, n, fn, arg, Insert(env, k, q)), k, q, hidden)
    decreases n, 3
  {
    Transparent(g, n, fn, env, k, q, hidden);
    var o := Eval(g, n, fn, env);
    if o.Done? {
      Transparent(g, n, arg, o.env, k, q, hidden);
      var a := Eval(g, n, arg, o.env);
      if a.Done? && o.v.Closure? {
        CleanConcat([(o.v.x, a.v)], o.v.cl, hidden);
        TransparentScoped(g, n, o.v.body, [(o.v.x, a.v)] + o.v.cl, Nothing, a.env, k, q, hidden);
      }
    }
  }

  lemma TransparentBindTuple(g: set<string>, n: nat, e1: Expr, ts: seq<string>, b: Expr, env: Env, k: nat, q: Env, hidden: set<string>)
    requires Avoids(e1, hidden) && Avoids(b, hidden) && NoneHidden(ts, hidden) && Fits(env, k, q, hidden)
    ensures Same(Eval(g, n + 1, BindTuple(e1, ts, b), env), Eval(g, n + 1, BindTuple(e1, ts, b), Insert(env, k, q)), k, q, hidden)
    decreases n, 3
  {
    Transparent(g, n, e1, env, k, q, hidden);
    var o := Eval(g, n, e1, env);
    if o.Done? && o.v.Tuple? {
      TransparentScoped(g, n, b, Zip(ts, o.v.vs), TupleRefresh(e1, ts), o.env, k, q, hidden);
    }
  }

  lemma OpenedClean(ids: seq<(string, string)>, fields: Bindings<Value>, hidden: set<string>)
    requires FieldsPresent(ids, fields) && Clean(fields, hidden)
    ensures Clean(Opened(ids, fields), hidden)
  {
    forall i | 0 <= i < |ids| ensures CleanV(Opened(ids, fields)[i].1, hidden) { CleanLookup(fields, ids[i].0, hidden); }
  }

  lemma TransparentBindRecord(g: set<string>, n: nat, e1: Expr, ids: seq<(string, string)>, b: Expr, env: Env, k: nat, q: Env, hidden: set<string>)
    requires Avoids(e1, hidden) && Avoids(b, hidden) && NoneHidden(Targets(ids), hidden) && Fits(env, k, q, hidden)
    ensures Same(Eval(g, n + 1, BindRecord(e1, ids, b), env), Eval(g, n + 1, BindRecord(e1, ids, b), Insert(env, k, q)), k, q, hidden)
    decreases n, 3
  {
    Transparent(g, n, e1, env, k, q, hidden);
    var o := Eval(g, n, e1, env);
    if o.Done? && o.v.Record? && FieldsPresent(ids, o.v.fields) {
      OpenedClean(ids, o.v.fields, hidden);
      TransparentScoped(g, n, b, Opened(ids, o.v.fields), RecordRefresh(e1, ids, o.v.fields), o.env, k, q, hidden);
    }
  }
}
