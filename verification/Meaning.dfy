/** What an expression means once there is fuel enough: the outcome that all larger amounts of fuel
    agree on, or a timeout if there is none. Each form of expression in terms of its parts. */
module Meaning {
  import opened Options
  import opened Scalars
  import opened Environments
  import opened Interp

  /** The outcome with fuel enough; a timeout stands for an evaluation that never ends. */
  ghost function Means(g: set<string>, e: Expr, env: Env): Outcome {
    if exists n: nat :: !Eval(g, n, e, env).Timeout?
    then var n: nat :| !Eval(g, n, e, env).Timeout?; Eval(g, n, e, env)
    else Timeout
  }

  function Max(a: nat, b: nat): nat { if a < b then b else a }

  /** From some amount of fuel on, the evaluation has the outcome. */
  lemma Enough(g: set<string>, e: Expr, env: Env) returns (n: nat)
    ensures forall m: nat :: n <= m ==> Eval(g, m, e, env) == Means(g, e, env)
  {
    if k: nat :| !Eval(g, k, e, env).Timeout? {
      n := k;
      forall m: nat | n <= m ensures Eval(g, m, e, env) == Means(g, e, env) { SameOutcome(g, e, env, m, n); }
    } else {
      n := 0;
    }
  }

  lemma SameOutcome(g: set<string>, e: Expr, env: Env, m: nat, n: nat)
    requires n <= m && !Eval(g, n, e, env).Timeout?
    ensures Eval(g, m, e, env) == Means(g, e, env)
  {
    MoreFuel(g, n, m, e, env);
    var k: nat :| !Eval(g, k, e, env).Timeout? && Means(g, e, env) == Eval(g, k, e, env);
    if k <= n { MoreFuel(g, k, n, e, env); } else { MoreFuel(g, n, k, e, env); }
  }

  /** An evaluation that ends has the outcome. */
  lemma EndsWith(g: set<string>, n: nat, e: Expr, env: Env)
    requires !Eval(g, n, e, env).Timeout?
    ensures Means(g, e, env) == Eval(g, n, e, env)
  {
    SameOutcome(g, e, env, n, n);
  }

  /** Two expressions that agree at large amounts of fuel mean the same. */
  lemma AgreeAbove(g: set<string>, e: Expr, env: Env, e': Expr, env': Env, n: nat, d: nat)
    requires forall m: nat :: n <= m ==> Eval(g, m, e, env) == Eval(g, m + d, e', env')
    ensures Means(g, e, env) == Means(g, e', env')
  {
    var k := Enough(g, e, env);
    var k' := Enough(g, e', env');
    var m := Max(n, Max(k, k'));
    assert Eval(g, m, e, env) == Eval(g, m + d, e', env');
  }

  /* ---------- The forms ---------- */

  lemma MeansConst(g: set<string>, c: Constant, env: Env)
    ensures Means(g, Const(c), env) == Done(if c.NoneOf? then Opt(None) else Sc(c.s), env)
  {
    EndsWith(g, 1, Const(c), env);
  }

  lemma MeansVar(g: set<string>, x: string, env: Env)
    ensures Means(g, Var(x), env) ==
      if LookupE(env, x).None? then Fail(UnknownVariable(x), env) else Done(LookupE(env, x).value, env)
  {
    EndsWith(g, 1, Var(x), env);
  }

  lemma MeansLambda(g: set<string>, x: string, b: Expr, env: Env)
    ensures Means(g, Lambda(x, b), env) ==
      var c := LookupAll(env, CaptureNames(g, x, b));
      if c.Missing? then Fail(UnknownCapture(c.x), env) else Done(Closure(x, b, c.cl), env)
  {
    EndsWith(g, 1, Lambda(x, b), env);
  }

  /** The outcome of a scope from that of its body. */
  ghost function MeansScoped(g: set<string>, b: Expr, pushed: Env, refresh: Refresh, env: Env): Outcome {
    Leave(Means(g, b, pushed + env), refresh, Names(pushed))
  }

  lemma AtFuel(g: set<string>, m: nat, b: Expr, pushed: Env, refresh: Refresh, env: Env)
    requires Eval(g, m, b, pushed + env) == Means(g, b, pushed + env)
    ensures Scoped(g, m, b, pushed, refresh, env) == MeansScoped(g, b, pushed, refresh, env)
  {}

  lemma MeansSequence(g: set<string>, l: Expr, r: Expr, env: Env)
    ensures Means(g, Sequence(l, r), env) == var o := Means(g, l, env); if o.Done? then Means(g, r, o.env) else o
  {
    var o := Means(g, l, env);
    var n := Enough(g, l, env);
    var k := Enough(g, Sequence(l, r), env);
    var i := 0;
    if o.Done? { i := Enough(g, r, o.env); }
    var m := Max(Max(n, k), i);
    assert Eval(g, m, l, env) == o && Eval(g, m + 1, Sequence(l, r), env) == Means(g, Sequence(l, r), env);
    if o.Done? { assert Eval(g, m, r, o.env) == Means(g, r, o.env); }
  }

  lemma MeansLet(g: set<string>, x: string, e: Expr, b: Expr, env: Env)
    ensures Means(g, LetIn(x, e, b), env) ==
      var o := Means(g, e, env); if o.Done? then MeansScoped(g, b, [(x, o.v)], Nothing, o.env) else o
  {
    var o := Means(g, e, env);
    var n := Enough(g, e, env);
    var k := Enough(g, LetIn(x, e, b), env);
    var i := 0;
    if o.Done? { i := Enough(g, b, [(x, o.v)] + o.env); }
    var m := Max(Max(n, k), i);
    assert Eval(g, m, e, env) == o && Eval(g, m + 1, LetIn(x, e, b), env) == Means(g, LetIn(x, e, b), env);
    if o.Done? { AtFuel(g, m, b, [(x, o.v)], Nothing, o.env); }
  }

  lemma MeansAssign(g: set<string>, x: string, e: Expr, env: Env)
    ensures Means(g, Assign(x, e), env) ==
      if LookupE(env, x).None? then Fail(UnknownVariable(x), env)
      else var o := Means(g, e, env); if o.Done? then Done(UNIT, ReplaceE(o.env, x, o.v)) else o
  {
    var n := Enough(g, e, env);
    var k := Enough(g, Assign(x, e), env);
    var m := Max(n, k);
    assert Eval(g, m, e, env) == Means(g, e, env);
    assert EvalAssign(g, m, x, e, env) == Eval(g, m + 1, Assign(x, e), env) == Means(g, Assign(x, e), env);
  }

  lemma MeansCase(g: set<string>, x: string, e: Expr, s: Expr, no: Expr, env: Env)
    ensures Means(g, CaseOf(x, e, s, no), env) ==
      var o := Means(g, e, env);
      if !o.Done? then o
      else if !o.v.Opt? then Fail(RunTimeError, o.env)
      else if o.v.o.Some? then MeansScoped(g, s, [(x, o.v.o.value)], Nothing, o.env)
      else Means(g, no, o.env)
  {
    var c := CaseOf(x, e, s, no);
    var o := Means(g, e, env);
    var n := Enough(g, e, env);
    var k := Enough(g, c, env);
    var i := 0;
    if o.Done? && o.v.Opt? {
      if o.v.o.Some? { i := Enough(g, s, [(x, o.v.o.value)] + o.env); } else { i := Enough(g, no, o.env); }
    }
    var m := Max(Max(n, k), i);
    assert Eval(g, m, e, env) == o && Eval(g, m + 1, c, env) == Means(g, c, env);
    if o.Done? && o.v.Opt? {
      if o.v.o.Some? {
        var p := [(x, o.v.o.value)];
        AtFuel(g, m, s, p, Nothing, o.env);
      } else {
        assert Eval(g, m, no, o.env) == Means(g, no, o.env);
      }
    }
  }

  lemma MeansIf(g: set<string>, p: Expr, t: Expr, f: Expr, env: Env)
    ensures Means(g, If(p, t, f), env) ==
      var o := Means(g, p, env);
      if !o.Done? then o
      else if o.v == Sc(Bool(true)) then Means(g, t, o.env)
      else if o.v == Sc(Bool(false)) then Means(g, f, o.env)
      else Fail(RunTimeError, o.env)
  {
    var c := If(p, t, f);
    var o := Means(g, p, env);
    var n := Enough(g, p, env);
    var k := Enough(g, c, env);
    var i, j := 0, 0;
    if o.Done? {
      i := Enough(g, t, o.env);
      j := Enough(g, f, o.env);
    }
    var m := Max(Max(n, k), Max(i, j));
    assert Eval(g, m, p, env) == o && Eval(g, m + 1, c, env) == Means(g, c, env);
    if o.Done? {
      assert Eval(g, m, t, o.env) == Means(g, t, o.env);
      assert Eval(g, m, f, o.env) == Means(g, f, o.env);
    }
  }

  lemma MeansBindTuple(g: set<string>, e: Expr, ts: seq<string>, b: Expr, env: Env)
    ensures Means(g, BindTuple(e, ts, b), env) ==
      var o := Means(g, e, env);
      if !o.Done? then o
      else if !o.v.Tuple? then Fail(RunTimeError, o.env)
      else MeansScoped(g, b, Zip(ts, o.v.vs), TupleRefresh(e, ts), o.env)
  {
    var c := BindTuple(e, ts, b);
    var o := Means(g, e, env);
    var n := Enough(g, e, env);
    var k := Enough(g, c, env);
    var i := 0;
    if o.Done? && o.v.Tuple? { i := Enough(g, b, Zip(ts, o.v.vs) + o.env); }
    var m := Max(Max(n, k), i);
    assert Eval(g, m, e, env) == o && Eval(g, m + 1, c, env) == Means(g, c, env);
    if o.Done? && o.v.Tuple? {
      var p := Zip(ts, o.v.vs);
      AtFuel(g, m, b, p, TupleRefresh(e, ts), o.env);
    }
  }

  lemma MeansBindRecord(g: set<string>, e: Expr, ids: seq<(string, string)>, b: Expr, env: Env)
    ensures Means(g, BindRecord(e, ids, b), env) ==
      var o := Means(g, e, env);
      if !o.Done? then o
      else if !o.v.Record? || !FieldsPresent(ids, o.v.fields) then Fail(RunTimeError, o.env)
      else MeansScoped(g, b, Opened(ids, o.v.fields), RecordRefresh(e, ids, o.v.fields), o.env)
  {
    var c := BindRecord(e, ids, b);
    var o := Means(g, e, env);
    var n := Enough(g, e, env);
    var k := Enough(g, c, env);
    var i := 0;
    if o.Done? && o.v.Record? && FieldsPresent(ids, o.v.fields) { i := Enough(g, b, Opened(ids, o.v.fields) + o.env); }
    var m := Max(Max(n, k), i);
    assert Eval(g, m, e, env) == o && Eval(g, m + 1, c, env) == Means(g, c, env);
    if o.Done? && o.v.Record? && FieldsPresent(ids, o.v.fields) {
      var p := Opened(ids, o.v.fields);
      AtFuel(g, m, b, p, RecordRefresh(e, ids, o.v.fields), o.env);
    }
  }

  lemma MeansApp(g: set<string>, fn: Expr, arg: Expr, env: Env)
    ensures Means(g, App(fn, arg), env) ==
      var o := Means(g, fn, env);
      if !o.Done? then o
      else
        var a := Means(g, arg, o.env);
        if !a.Done? then a
        else if !o.v.Closure? then Fail(RunTimeError, a.env)
        else MeansScoped(g, o.v.body, [(o.v.x, a.v)] + o.v.cl, Nothing, a.env)
  {
    var c := App(fn, arg);
    var o := Means(g, fn, env);
    var n := Enough(g, fn, env);
    var k := Enough(g, c, env);
    var i, j := 0, 0;
    if o.Done? {
      i := Enough(g, arg, o.env);
      var a := Means(g, arg, o.env);
      if a.Done? && o.v.Closure? { j := Enough(g, o.v.body, [(o.v.x, a.v)] + o.v.cl + a.env); }
    }
    var m := Max(Max(n, k), Max(i, j));
    assert Eval(g, m, fn, env) == o && EvalApp(g, m, fn, arg, env) == Eval(g, m + 1, c, env) == Means(g, c, env);
    if o.Done? {
      var a := Means(g, arg, o.env);
      assert Eval(g, m, arg, o.env) == a;
      if a.Done? && o.v.Closure? {
        var p := [(o.v.x, a.v)] + o.v.cl;
        AtFuel(g, m, o.v.body, p, Nothing, a.env);
      }
    }
  }

  /** Several expressions, from left to right. */
  ghost function MeansAll(g: set<string>, es: seq<Expr>, env: Env): (o: Outcome)
    ensures o.Done? ==> o.v.Tuple? && |o.v.vs| == |es|
    decreases |es|
  {
    if es == [] then Done(UNIT, env)
    else
      var o := Means(g, es[0], env);
      if !o.Done? then o
      else
        var rest := MeansAll(g, es[1..], o.env);
        if !rest.Done? then rest else Done(Tuple([o.v] + rest.v.vs), rest.env)
  }

  lemma {:induction false} EnoughForAll(g: set<string>, es: seq<Expr>, env: Env) returns (n: nat)
    ensures forall m: nat :: n <= m ==> EvalAll(g, m, es, env) == MeansAll(g, es, env)
    decreases |es|
  {
    n := 0;
    if es != [] {
      n := Enough(g, es[0], env);
      var o := Means(g, es[0], env);
      if o.Done? {
        var k := EnoughForAll(g, es[1..], o.env);
        n := Max(n, k);
      }
      forall m: nat | n <= m ensures EvalAll(g, m, es, env) == MeansAll(g, es, env) {
        assert Eval(g, m, es[0], env) == o;
      }
    }
  }

  lemma MeansForm(g: set<string>, f: Former, es: seq<Expr>, env: Env)
    ensures Means(g, Form(f, es), env) ==
      var o := MeansAll(g, es, env);
      if !o.Done? then o
      else if Combine(f, o.v.vs).None? then Fail(RunTimeError, o.env)
      else Done(Combine(f, o.v.vs).value, o.env)
  {
    var n := EnoughForAll(g, es, env);
    var k := Enough(g, Form(f, es), env);
    var m := Max(n, k);
    assert EvalAll(g, m, es, env) == MeansAll(g, es, env);
    assert EvalForm(g, m, f, es, env) == Eval(g, m + 1, Form(f, es), env) == Means(g, Form(f, es), env);
  }

  lemma MeansOne(g: set<string>, f: Former, e: Expr, env: Env)
    ensures Means(g, Form(f, [e]), env) ==
      var o := Means(g, e, env);
      if !o.Done? then o
      else if Combine(f, [o.v]).None? then Fail(RunTimeError, o.env)
      else Done(Combine(f, [o.v]).value, o.env)
  {
    MeansForm(g, f, [e], env);
    assert [e][1..] == [];
    var o := Means(g, e, env);
    if o.Done? { assert MeansAll(g, [], o.env) == Done(UNIT, o.env) && [o.v] + [] == [o.v]; }
  }

  /** The names of the environment, whatever the fuel. */
  lemma MeansKeepsNames(g: set<string>, e: Expr, env: Env)
    ensures var o := Means(g, e, env); o.Done? ==> Names(o.env) == Names(env) && |o.env| == |env|
  {
    var n := Enough(g, e, env);
    EvalKeepsNames(g, n, e, env);
    assert |Names(env)| == |env|;
    var o := Means(g, e, env);
    if o.Done? { assert |Names(o.env)| == |o.env|; }
  }
}
