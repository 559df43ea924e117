/** An evaluation sees its environment through lookups only: where two environments agree on every
    lookup, and below some point on every lookup too, it does the same and keeps both agreements. */
module Lookups {
  import opened Options
  import opened Scalars
  import opened Environments
  import opened Interp
  import opened Meaning

  /** Every name has the same topmost value, or none, in both. */
  ghost predicate SameLookups(env: Env, env': Env) { forall y :: LookupE(env, y) == LookupE(env', y) }

  /** The lookups agree, also below a bindings of one and b of the other. */
  ghost predicate Twin(env: Env, env': Env, a: nat, b: nat) {
    a <= |env| && b <= |env'| && SameLookups(env, env') && SameLookups(env[a..], env'[b..])
  }

  ghost predicate TwinOut(r: Outcome, r': Outcome, a: nat, b: nat) {
    match r
    case Timeout => r'.Timeout?
    case Fail(err, _) => r'.Fail? && r'.err == err
    case Done(v, env) => r'.Done? && r'.v == v && Twin(env, r'.env, a, b)
  }

  /* ---------- Environments ---------- */

  lemma TwinReplaced(env: Env, env': Env, x: string, v: Value, a: nat, b: nat)
    requires Twin(env, env', a, b)
    ensures Twin(ReplaceE(env, x, v), ReplaceE(env', x, v), a, b)
  {
    SameReplaced(env, env', x, v);
    SameReplaced(env[a..], env'[b..], x, v);
    assert ReplaceE(env, x, v)[a..] == ReplaceE(env[a..], x, v);
    assert ReplaceE(env', x, v)[b..] == ReplaceE(env'[b..], x, v);
  }

  lemma SameReplaced(env: Env, env': Env, x: string, v: Value)
    requires SameLookups(env, env')
    ensures SameLookups(ReplaceE(env, x, v), ReplaceE(env', x, v))
  {
    forall y ensures LookupE(ReplaceE(env, x, v), y) == LookupE(ReplaceE(env', x, v), y) {
      LookupReplaced(env, x, v, y);
      LookupReplaced(env', x, v, y);
    }
  }

  lemma SamePushed(p: Env, env: Env, env': Env)
    requires SameLookups(env, env')
    ensures SameLookups(p + env, p + env')
  {
    forall y ensures LookupE(p + env, y) == LookupE(p + env', y) {
      LookupConcat(p, env, y);
      LookupConcat(p, env', y);
    }
  }

  lemma {:induction false} SameCapture(env: Env, env': Env, xs: seq<string>)
    requires SameLookups(env, env')
    ensures LookupAll(env, xs) == LookupAll(env', xs)
    decreases |xs|
  {
    if xs != [] { SameCapture(env, env', xs[1..]); }
  }

  lemma {:induction false} SameRebuild(env: Env, env': Env, ids: seq<(string, string)>, was: Bindings<Value>)
    requires SameLookups(env, env')
    ensures Rebuild(env, ids, was) == Rebuild(env', ids, was)
    decreases |was|
  {
    if was != [] { SameRebuild(env, env', ids, was[1..]); }
  }

  lemma TwinRefreshed(r: Refresh, env: Env, env': Env, a: nat, b: nat)
    requires Twin(env, env', a, b)
    ensures var f, f' := DoRefresh(r, env), DoRefresh(r, env');
      if f.Unknown? then f' == f else f'.Fresh? && Twin(f.env, f'.env, a, b)
  {
    match r
    case Nothing =>
    case FromTuple(x, ts) =>
      SameCapture(env, env', ts);
      if LookupAll(env, ts).Found? { TwinReplaced(env, env', x, Tuple(Values(LookupAll(env, ts).cl)), a, b); }
    case FromRecord(x, ids, was) =>
      SameRebuild(env, env', ids, was);
      if Rebuild(env, ids, was).Found? { TwinReplaced(env, env', x, Record(Rebuild(env, ids, was).cl), a, b); }
  }

  /* ---------- Evaluation ---------- */

  lemma {:induction false} SameDone(g: set<string>, n: nat, e: Expr, env: Env, env': Env, a: nat, b: nat)
    requires Twin(env, env', a, b)
    ensures TwinOut(Eval(g, n, e, env), Eval(g, n, e, env'), a, b)
    decreases n, 0
  {
    if n > 0 {
      match e
      case Const(_) =>
      case Var(x) =>
      case Form(f, es) => SameForm(g, n - 1, f, es, env, env', a, b);
      case Lambda(x, body) => SameCapture(env, env', CaptureNames(g, x, body));
      case App(fn, arg) => SameApp(g, n - 1, fn, arg, env, env', a, b);
      case Assign(x, e1) => SameAssign(g, n - 1, x, e1, env, env', a, b);
      case _ => SameRest(g, n - 1, e, env, env', a, b);
    }
  }

  lemma SameRest(g: set<string>, n: nat, e: Expr, env: Env, env': Env, a: nat, b: nat)
    requires e.Sequence? || e.If? || e.LetIn? || e.CaseOf? || e.BindTuple? || e.BindRecord?
    requires Twin(env, env', a, b)
    ensures TwinOut(Eval(g, n + 1, e, env), Eval(g, n + 1, e, env'), a, b)
    decreases n, 6
  {
    match e
    case Sequence(l, r) => SameSequence(g, n, l, r, env, env', a, b);
    case If(p, t, f) => SameIf(g, n, p, t, f, env, env', a, b);
    case LetIn(x, i, body) => SameLet(g, n, x, i, body, env, env', a, b);
    case CaseOf(x, e1, s, no) => SameCase(g, n, x, e1, s, no, env, env', a, b);
    case BindTuple(e1, ts, body) => SameBindTuple(g, n, e1, ts, body, env, env', a, b);
    case BindRecord(e1, ids, body) => SameBindRecord(g, n, e1, ids, body, env, env', a, b);
  }

  lemma SameSequence(g: set<string>, n: nat, l: Expr, r: Expr, env: Env, env': Env, a: nat, b: nat)
    requires Twin(env, env', a, b)
    ensures TwinOut(Eval(g, n + 1, Sequence(l, r), env), Eval(g, n + 1, Sequence(l, r), env'), a, b)
    decreases n, 5
  {
    SameDone(g, n, l, env, env', a, b);
    var o, o' := Eval(g, n, l, env), Eval(g, n, l, env');
    if o.Done? { SameDone(g, n, r, o.env, o'.env, a, b); }
  }

  lemma SameIf(g: set<string>, n: nat, p: Expr, t: Expr, f: Expr, env: Env, env': Env, a: nat, b: nat)
    requires Twin(env, env', a, b)
    ensures TwinOut(Eval(g, n + 1, If(p, t, f), env), Eval(g, n + 1, If(p, t, f), env'), a, b)
    decreases n, 5
  {
    SameDone(g, n, p, env, env', a, b);
    var o, o' := Eval(g, n, p, env), Eval(g, n, p, env');
    if o.Done? {
      if o.v == Sc(Bool(true)) { SameDone(g, n, t, o.env, o'.env, a, b); }
      else if o.v == Sc(Bool(false)) { SameDone(g, n, f, o.env, o'.env, a, b); }
    }
  }

  lemma SameAssign(g: set<string>, n: nat, x: string, e1: Expr, env: Env, env': Env, a: nat, b: nat)
    requires Twin(env, env', a, b)
    ensures TwinOut(EvalAssign(g, n, x, e1, env), EvalAssign(g, n, x, e1, env'), a, b)
    decreases n, 3
  {
    SameDone(g, n, e1, env, env', a, b);
    var o, o' := Eval(g, n, e1, env), Eval(g, n, e1, env');
    if o.Done? { TwinReplaced(o.env, o'.env, x, o.v, a, b); }
  }

  lemma SameAll(g: set<string>, n: nat, es: seq<Expr>, env: Env, env': Env, a: nat, b: nat)
    requires Twin(env, env', a, b)
    ensures TwinOut(EvalAll(g, n, es, env), EvalAll(g, n, es, env'), a, b)
    decreases n, |es| + 1
  {
    if es != [] {
      SameDone(g, n, es[0], env, env', a, b);
      var o, o' := Eval(g, n, es[0], env), Eval(g, n, es[0], env');
      if o.Done? { SameAll(g, n, es[1..], o.env, o'.env, a, b); }
    }
  }

  lemma SameForm(g: set<string>, n: nat, f: Former, es: seq<Expr>, env: Env, env': Env, a: nat, b: nat)
    requires Twin(env, env', a, b)
    ensures TwinOut(EvalForm(g, n, f, es, env), EvalForm(g, n, f, es, env'), a, b)
    decreases n, |es| + 2
  {
    SameAll(g, n, es, env, env', a, b);
  }

  /** The outcomes agree below the pushed bindings and below the outer point. */
  ghost predicate TwinTwice(o: Outcome, o': Outcome, p: nat, a: nat, b: nat) {
    TwinOut(o, o', p, p) && TwinOut(o, o', p + a, p + b)
  }

  lemma TwinUnder(pushed: Env, env: Env, env': Env, a: nat, b: nat)
    requires Twin(env, env', a, b)
    ensures var p := |pushed|;
      Twin(pushed + env, pushed + env', p, p) && Twin(pushed + env, pushed + env', p + a, p + b)
  {
    var p := |pushed|;
    SamePushed(pushed, env, env');
    assert (pushed + env)[p..] == env && (pushed + env')[p..] == env';
    assert (pushed + env)[p + a..] == env[a..] && (pushed + env')[p + b..] == env'[b..];
  }

  lemma SameIn(g: set<string>, n: nat, body: Expr, env: Env, env': Env, p: nat, a: nat, b: nat)
    requires Twin(env, env', p, p) && Twin(env, env', p + a, p + b)
    ensures TwinTwice(Eval(g, n, body, env), Eval(g, n, body, env'), p, a, b)
    decreases n, 1
  {
    SameDone(g, n, body, env, env', p, p);
    SameDone(g, n, body, env, env', p + a, p + b);
  }

  lemma SameScoped(g: set<string>, n: nat, body: Expr, pushed: Env, refresh: Refresh, env: Env, env': Env, a: nat, b: nat)
    requires Twin(env, env', a, b)
    ensures TwinOut(Scoped(g, n, body, pushed, refresh, env), Scoped(g, n, body, pushed, refresh, env'), a, b)
    decreases n, 2
  {
    TwinUnder(pushed, env, env', a, b);
    SameIn(g, n, body, pushed + env, pushed + env', |pushed|, a, b);
    NamesPushed(g, n, body, pushed, env);
    NamesPushed(g, n, body, pushed, env');
    LeaveTwins(Eval(g, n, body, pushed + env), Eval(g, n, body, pushed + env'), refresh, Names(pushed), Names(env), Names(env'), a, b);
  }

  lemma NamesPushed(g: set<string>, n: nat, body: Expr, pushed: Env, env: Env)
    ensures var o := Eval(g, n, body, pushed + env); o.Done? ==> Names(o.env) == Names(pushed) + Names(env)
    ensures |Names(pushed)| == |pushed| && |Names(env)| == |env|
  {
    EvalKeepsNames(g, n, body, pushed + env);
    NamesConcat(pushed, env);
  }

  /** What writing back keeps at both points. */
  ghost predicate TwinFresh(f: Refreshed, f': Refreshed, xs: seq<string>, ys: seq<string>, ys': seq<string>, a: nat, b: nat) {
    if f.Unknown? then f' == f
    else
      && f'.Fresh? && Names(f.env) == xs + ys && Names(f'.env) == xs + ys'
      && Twin(f.env, f'.env, |xs|, |xs|) && Twin(f.env, f'.env, |xs| + a, |xs| + b)
  }

  lemma RefreshedTwins(env: Env, env': Env, refresh: Refresh, xs: seq<string>, ys: seq<string>, ys': seq<string>, a: nat, b: nat)
    requires Names(env) == xs + ys && Names(env') == xs + ys'
    requires Twin(env, env', |xs|, |xs|) && Twin(env, env', |xs| + a, |xs| + b)
    ensures TwinFresh(DoRefresh(refresh, env), DoRefresh(refresh, env'), xs, ys, ys', a, b)
  {
    TwinRefreshed(refresh, env, env', |xs|, |xs|);
    TwinRefreshed(refresh, env, env', |xs| + a, |xs| + b);
    RefreshKeepsNames(refresh, env);
    RefreshKeepsNames(refresh, env');
  }

  lemma LeaveTwins(o: Outcome, o': Outcome, refresh: Refresh, xs: seq<string>, ys: seq<string>, ys': seq<string>, a: nat, b: nat)
    requires a <= |ys| && b <= |ys'| && TwinTwice(o, o', |xs|, a, b)
    requires (o.Done? ==> Names(o.env) == xs + ys) && (o'.Done? ==> Names(o'.env) == xs + ys')
    ensures TwinOut(Leave(o, refresh, xs), Leave(o', refresh, xs), a, b)
  {
    if o.Done? {
      RefreshedTwins(o.env, o'.env, refresh, xs, ys, ys', a, b);
      LeftTwins(o, o', DoRefresh(refresh, o.env), DoRefresh(refresh, o'.env), xs, ys, ys', a, b);
    }
  }

  lemma LeftTwins(o: Outcome, o': Outcome, f: Refreshed, f': Refreshed, xs: seq<string>, ys: seq<string>, ys': seq<string>, a: nat, b: nat)
    requires o.Done? && o'.Done? && o.v == o'.v && a <= |ys| && b <= |ys'| && TwinFresh(f, f', xs, ys, ys', a, b)
    ensures TwinOut(Popped(o, f, xs), Popped(o', f', xs), a, b)
  {
    if f.Fresh? { PoppedTwins(f.env, f'.env, xs, ys, ys', a, b); }
  }

  lemma PoppedTwins(env: Env, env': Env, xs: seq<string>, ys: seq<string>, ys': seq<string>, a: nat, b: nat)
    requires Names(env) == xs + ys && Names(env') == xs + ys' && a <= |ys| && b <= |ys'|
    requires Twin(env, env', |xs|, |xs|) && Twin(env, env', |xs| + a, |xs| + b)
    ensures Twin(RemoveAllE(env, xs), RemoveAllE(env', xs), a, b)
  {
    RemoveAllPops(env, xs, ys);
    RemoveAllPops(env', xs, ys');
    assert env[|xs|..][a..] == env[|xs| + a..] && env'[|xs|..][b..] == env'[|xs| + b..];
  }

  lemma LetRuns(g: set<string>, n: nat, x: string, i: Expr, b: Expr, env: Env)
    ensures Eval(g, n + 1, LetIn(x, i, b), env) ==
      var o := Eval(g, n, i, env); if o.Done? then Scoped(g, n, b, [(x, o.v)], Nothing, o.env) else o
  {}

  lemma SameLet(g: set<string>, n: nat, x: string, i: Expr, body: Expr, env: Env, env': Env, a: nat, b: nat)
    requires Twin(env, env', a, b)
    ensures TwinOut(Eval(g, n + 1, LetIn(x, i, body), env), Eval(g, n + 1, LetIn(x, i, body), env'), a, b)
    decreases n, 5
  {
    LetRuns(g, n, x, i, body, env);
    LetRuns(g, n, x, i, body, env');
    SameDone(g, n, i, env, env', a, b);
    var o, o' := Eval(g, n, i, env), Eval(g, n, i, env');
    if o.Done? { SameScoped(g, n, body, [(x, o.v)], Nothing, o.env, o'.env, a, b); }
  }

  lemma SameCase(g: set<string>, n: nat, x: string, e1: Expr, s: Expr, no: Expr, env: Env, env': Env, a: nat, b: nat)
    requires Twin(env, env', a, b)
    ensures TwinOut(Eval(g, n + 1, CaseOf(x, e1, s, no), env), Eval(g, n + 1, CaseOf(x, e1, s, no), env'), a, b)
    decreases n, 5
  {
    SameDone(g, n, e1, env, env', a, b);
    var o, o' := Eval(g, n, e1, env), Eval(g, n, e1, env');
    if o.Done? && o.v.Opt? {
      if o.v.o.Some? { SameScoped(g, n, s, [(x, o.v.o.value)], Nothing, o.env, o'.env, a, b); }
      else { SameDone(g, n, no, o.env, o'.env, a, b); }
    }
  }

  lemma SameBindTuple(g: set<string>, n: nat, e1: Expr, ts: seq<string>, body: Expr, env: Env, env': Env, a: nat, b: nat)
    requires Twin(env, env', a, b)
    ensures TwinOut(Eval(g, n + 1, BindTuple(e1, ts, body), env), Eval(g, n + 1, BindTuple(e1, ts, body), env'), a, b)
    decreases n, 5
  {
    SameDone(g, n, e1, env, env', a, b);
    var o, o' := Eval(g, n, e1, env), Eval(g, n, e1, env');
    if o.Done? && o.v.Tuple? { SameScoped(g, n, body, Zip(ts, o.v.vs), TupleRefresh(e1, ts), o.env, o'.env, a, b); }
  }

  lemma SameBindRecord(g: set<string>, n: nat, e1: Expr, ids: seq<(string, string)>, body: Expr, env: Env, env': Env, a: nat, b: nat)
    requires Twin(env, env', a, b)
    ensures TwinOut(Eval(g, n + 1, BindRecord(e1, ids, body), env), Eval(g, n + 1, BindRecord(e1, ids, body), env'), a, b)
    decreases n, 5
  {
    SameDone(g, n, e1, env, env', a, b);
    var o, o' := Eval(g, n, e1, env), Eval(g, n, e1, env');
    if o.Done? && o.v.Record? && FieldsPresent(ids, o.v.fields) {
      SameScoped(g, n, body, Opened(ids, o.v.fields), RecordRefresh(e1, ids, o.v.fields), o.env, o'.env, a, b);
    }
  }

  lemma SameApp(g: set<string>, n: nat, fn: Expr, arg: Expr, env: Env, env': Env, a: nat, b: nat)
    requires Twin(env, env', a, b)
    ensures TwinOut(EvalApp(g, n, fn, arg, env), EvalApp(g, n, fn, arg, env'), a, b)
    decreases n, 5
  {
    SameDone(g, n, fn, env, env', a, b);
    var o, o' := Eval(g, n, fn, env), Eval(g, n, fn, env');
    if o.Done? {
      SameDone(g, n, arg, o.env, o'.env, a, b);
      var r, r' := Eval(g, n, arg, o.env), Eval(g, n, arg, o'.env);
      if r.Done? && o.v.Closure? {
        SameScoped(g, n, o.v.body, [(o.v.x, r.v)] + o.v.cl, Nothing, r.env, r'.env, a, b);
      }
    }
  }

  /* ---------- The same bindings in another order ---------- */

  lemma SameMeaning(g: set<string>, e: Expr, env: Env, env': Env, a: nat, b: nat)
    requires Twin(env, env', a, b)
    ensures TwinOut(Means(g, e, env), Means(g, e, env'), a, b)
  {
    var n := Enough(g, e, env);
    var n' := Enough(g, e, env');
    var m := Max(n, n');
    SameDone(g, m, e, env, env', a, b);
    assert Eval(g, m, e, env) == Means(g, e, env) && Eval(g, m, e, env') == Means(g, e, env');
  }

  lemma EntryAt(env: Env, env': Env, i: nat)
    requires i < |env| == |env'| && env[i].0 == env'[i].0 && SameLookups(env[i..], env'[i..])
    ensures env[i] == env'[i]
  {
    var y := env[i].0;
    assert LookupE(env[i..], y) == Some(env[i].1) && LookupE(env'[i..], y) == Some(env'[i].1);
  }

  /** Pushed bindings that give the same lookups give the same outcome, and leave the bindings below them
      the same, one by one. */
  lemma SameUnderPushed(g: set<string>, e: Expr, p: Env, p': Env, env: Env)
    requires |p| == |p'| && SameLookups(p + env, p' + env)
    ensures var o, o' := Means(g, e, p + env), Means(g, e, p' + env);
      match o
      case Timeout => o'.Timeout?
      case Fail(err, _) => o'.Fail? && o'.err == err
      case Done(v, env1) => o'.Done? && o'.v == v && |env1| == |o'.env| == |p| + |env| && env1[|p|..] == o'.env[|p|..]
  {
    var n := |p|;
    assert (p + env)[n..] == env && (p' + env)[n..] == env;
    SameMeaning(g, e, p + env, p' + env, n, n);
    MeansKeepsNames(g, e, p + env);
    MeansKeepsNames(g, e, p' + env);
    var o, o' := Means(g, e, p + env), Means(g, e, p' + env);
    if o.Done? {
      NamesConcat(p, env);
      NamesConcat(p', env);
      forall i | n <= i < n + |env| ensures o.env[i] == o'.env[i] {
        assert (p + env)[i..] == (p' + env)[i..] == env[i - n..];
        SameMeaning(g, e, p + env, p' + env, i, i);
        assert Names(o.env)[i] == o.env[i].0 && Names(o'.env)[i] == o'.env[i].0;
        assert Names(p + env)[i] == Names(p' + env)[i];
        EntryAt(o.env, o'.env, i);
      }
    }
  }
}
