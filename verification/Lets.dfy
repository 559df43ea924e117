/** Several lets in a row against forms that evaluate several expressions and bind several names. */
module Lets {
  import opened Options
  import opened Scalars
  import opened Environments
  import opened Interp
  import opened Meaning
  import opened Transparency
  import opened Lookups
  import opened Laws

  /** One let for each name and expression, the first outermost. */
  function LetsIn(ts: seq<string>, es: seq<Expr>, b: Expr): Expr
    requires |ts| == |es|
    decreases |ts|
  {
    if ts == [] then b else LetIn(ts[0], es[0], LetsIn(ts[1..], es[1..], b))
  }

  /** What the lets push, the last name on top. */
  function PushedByLets(ts: seq<string>, vs: seq<Value>): (p: Env)
    requires |ts| == |vs|
    ensures |p| == |ts|
    decreases |ts|
  {
    if ts == [] then [] else PushedByLets(ts[1..], vs[1..]) + [(ts[0], vs[0])]
  }

  predicate NoneNamed(es: seq<Expr>, hidden: set<string>) { forall i :: 0 <= i < |es| ==> Avoids(es[i], hidden) }

  /** The outcome of the lets from that of the expressions, in an environment without the names, and of
      the body. */
  ghost predicate LetsEnd(g: set<string>, r: Outcome, o: Outcome, ts: seq<string>, b: Expr, p: Env) {
    match o
    case Timeout => r.Timeout?
    case Fail(err, _) => r.Fail? && r.err == err
    case Done(v, env) =>
      v.Tuple? && |v.vs| == |ts| &&
      var w := Means(g, b, PushedByLets(ts, v.vs) + (p + env));
      if w.Done? then |ts| <= |w.env| && r == Done(w.v, w.env[|ts|..]) else r == w
  }

  lemma {:induction false} LetsRun(g: set<string>, ts: seq<string>, es: seq<Expr>, b: Expr, env: Env, p: Env, hidden: set<string>)
    requires |ts| == |es| && NoneNamed(es, hidden) && Fits(env, 0, p, hidden) && NoneShown(ts, hidden)
    ensures LetsEnd(g, Means(g, LetsIn(ts, es, b), p + env), MeansAll(g, es, env), ts, b, p)
    decreases |ts|
  {
    if ts == [] {
      assert PushedByLets(ts, []) + (p + env) == p + env;
      var w := Means(g, b, p + env);
      if w.Done? { assert w.env[0..] == w.env; }
    } else {
      var e, rest := es[0], LetsIn(ts[1..], es[1..], b);
      MeansLet(g, ts[0], e, rest, p + env);
      TransparentMeaning(g, e, env, 0, p, hidden);
      assert Insert(env, 0, p) == p + env;
      var o := Means(g, e, env);
      if o.Done? {
        assert Insert(o.env, 0, p) == p + o.env;
        LetsStep(g, ts, es, b, o.v, o.env, p, hidden);
      }
    }
  }

  lemma {:induction false} LetsStep(g: set<string>, ts: seq<string>, es: seq<Expr>, b: Expr, v: Value, env: Env, p: Env, hidden: set<string>)
    requires ts != [] && |ts| == |es| && NoneNamed(es, hidden) && Fits(env, 0, p, hidden) && NoneShown(ts, hidden)
    ensures var rest := MeansAll(g, es[1..], env);
      LetsEnd(g, MeansScoped(g, LetsIn(ts[1..], es[1..], b), [(ts[0], v)], Nothing, p + env),
              if rest.Done? then Done(Tuple([v] + rest.v.vs), rest.env) else rest, ts, b, p)
    decreases |ts|, 0
  {
    var top: Env := [(ts[0], v)];
    var p1 := top + p;
    var body := LetsIn(ts[1..], es[1..], b);
    HidesMore(p, ts[0], v, hidden);
    LetsRun(g, ts[1..], es[1..], b, env, p1, hidden);
    assert p1 + env == top + (p + env);
    var rest, r := MeansAll(g, es[1..], env), Means(g, body, p1 + env);
    if rest.Done? {
      var vs := [v] + rest.v.vs;
      assert vs[1..] == rest.v.vs;
      assert PushedByLets(ts, vs) + (p + rest.env) == PushedByLets(ts[1..], rest.v.vs) + (p1 + rest.env);
    }
    MeansKeepsNames(g, body, p1 + env);
    if r.Done? {
      NamesConcat(top, p + env);
      assert Names(top) == [ts[0]];
      RemoveAllPops(r.env, [ts[0]], Names(p + env));
    }
  }

  lemma HidesMore(p: Env, t: string, v: Value, hidden: set<string>)
    requires Hides(p, hidden) && t in hidden
    ensures Hides([(t, v)] + p, hidden)
  {
    NamesConcat([(t, v)], p);
  }

  /** With different names, pushing them the other way round changes no lookup. */
  lemma {:induction false} PushedEitherWay(ts: seq<string>, vs: seq<Value>, env: Env)
    requires |ts| == |vs| && Distinct(ts)
    ensures SameLookups(Zip(ts, vs) + env, PushedByLets(ts, vs) + env)
    decreases |ts|
  {
    if ts != [] {
      var top, rest := [(ts[0], vs[0])], Zip(ts[1..], vs[1..]);
      assert Zip(ts, vs) == top + rest;
      assert forall i, j :: 0 <= i < j < |ts[1..]| ==> ts[1..][i] == ts[i + 1] && ts[1..][j] == ts[j + 1];
      PushedEitherWay(ts[1..], vs[1..], top + env);
      assert PushedByLets(ts, vs) + env == PushedByLets(ts[1..], vs[1..]) + (top + env);
      assert ts[0] !in ts[1..];
      forall y ensures LookupE(Zip(ts, vs) + env, y) == LookupE(rest + (top + env), y) {
        assert Zip(ts, vs) + env == top + (rest + env);
        LookupConcat(top, rest + env, y);
        LookupConcat(rest, env, y);
        LookupConcat(rest, top + env, y);
        LookupConcat(top, env, y);
        ZipNames(ts[1..], vs[1..]);
        LookupIffNamed(rest, y);
      }
    }
  }

  /** Binding the components of a tuple that has just been made is naming its parts one after the other,
      when the names differ and none occurs in the parts. */
  lemma TupleBindIsLets(g: set<string>, ts: seq<string>, es: seq<Expr>, b: Expr, env: Env, hidden: set<string>)
    requires |ts| == |es| && Distinct(ts) && NoneShown(ts, hidden) && NoneNamed(es, hidden) && Clean(env, hidden)
    ensures SameEnd(Means(g, BindTuple(Form(MakeTuple, es), ts, b), env), Means(g, LetsIn(ts, es, b), env))
  {
    assert Names<Value>([]) == [];
    LetsRun(g, ts, es, b, env, [], hidden);
    assert [] + env == env;
    MeansBindTuple(g, Form(MakeTuple, es), ts, b, env);
    TupleOf(g, es, env);
    var o := MeansAll(g, es, env);
    if o.Done? {
      assert [] + o.env == o.env;
      BoundEitherWay(g, ts, o.v.vs, b, o.env);
    }
  }

  lemma BoundEitherWay(g: set<string>, ts: seq<string>, vs: seq<Value>, b: Expr, env: Env)
    requires |ts| == |vs| && Distinct(ts)
    ensures var w := Means(g, b, PushedByLets(ts, vs) + env);
      && (w.Done? ==> |w.env| == |ts| + |env|)
      && SameEnd(MeansScoped(g, b, Zip(ts, vs), Nothing, env), if w.Done? then Done(w.v, w.env[|ts|..]) else w)
  {
    PushedEitherWay(ts, vs, env);
    SameUnderPushed(g, b, Zip(ts, vs), PushedByLets(ts, vs), env);
    var o := Means(g, b, Zip(ts, vs) + env);
    MeansKeepsNames(g, b, Zip(ts, vs) + env);
    if o.Done? {
      ZipNames(ts, vs);
      NamesConcat(Zip(ts, vs), env);
      RemoveAllPops(o.env, ts, Names(env));
    }
  }

  /** Every form evaluates its parts from left to right, each in the environment the one before has
      left, before it combines their values. */
  lemma FormIsLets(g: set<string>, f: Former, ts: seq<string>, es: seq<Expr>, env: Env, hidden: set<string>)
    requires |ts| == |es| && Distinct(ts) && NoneShown(ts, hidden) && NoneNamed(es, hidden) && Clean(env, hidden)
    ensures SameEnd(Means(g, Form(f, es), env), Means(g, LetsIn(ts, es, Form(f, Vars(ts))), env))
  {
    assert Names<Value>([]) == [];
    var b := Form(f, Vars(ts));
    LetsRun(g, ts, es, b, env, [], hidden);
    assert [] + env == env;
    MeansForm(g, f, es, env);
    var o := MeansAll(g, es, env);
    if o.Done? {
      var p := PushedByLets(ts, o.v.vs);
      assert p + ([] + o.env) == p + o.env;
      PushedEitherWay(ts, o.v.vs, o.env);
      forall i | 0 <= i < |ts| ensures LookupE(p + o.env, ts[i]) == Some(o.v.vs[i]) { PushedLookup(ts, o.v.vs, o.env, i); }
      MeansVars(g, ts, o.v.vs, p + o.env);
      MeansForm(g, f, Vars(ts), p + o.env);
      assert (p + o.env)[|ts|..] == o.env;
    }
  }

  /* ---------- Records ---------- */

  predicate DistinctFields(ids: seq<(string, string)>) { forall i, j :: 0 <= i < j < |ids| ==> ids[i].0 != ids[j].0 }

  /** Each bound field has the value held, the others what they had. */
  ghost predicate Refilled(now: Bindings<Value>, was: Bindings<Value>, ids: seq<(string, string)>, held: seq<Value>)
    requires |held| == |ids|
  {
    && |now| == |was|
    && forall j :: 0 <= j < |was| ==>
         && now[j].0 == was[j].0
         && (forall i :: 0 <= i < |ids| && ids[i].0 == was[j].0 ==> now[j].1 == held[i])
         && ((forall i :: 0 <= i < |ids| ==> ids[i].0 != was[j].0) ==> now[j].1 == was[j].1)
  }

  lemma {:induction false} FieldName(ids: seq<(string, string)>, i: nat)
    requires DistinctFields(ids) && i < |ids|
    ensures LookupE(ids, ids[i].0) == Some(ids[i].1)
    decreases i
  {
    if i > 0 {
      assert forall j, k :: 0 <= j < k < |ids[1..]| ==> ids[1..][j] == ids[j + 1] && ids[1..][k] == ids[k + 1];
      FieldName(ids[1..], i - 1);
    }
  }

  lemma {:induction false} NoFieldName(ids: seq<(string, string)>, f: string)
    requires forall i :: 0 <= i < |ids| ==> ids[i].0 != f
    ensures LookupE(ids, f).None?
    decreases |ids|
  {
    if ids != [] { NoFieldName(ids[1..], f); }
  }

  lemma OpenedAre(ids: seq<(string, string)>, fields: Bindings<Value>)
    requires DistinctFields(ids) && FieldsPresent(ids, fields)
    ensures Names(Opened(ids, fields)) == Targets(ids)
    ensures forall i :: 0 <= i < |ids| ==> Some(Opened(ids, fields)[i].1) == LookupE(fields, ids[i].0)
  {
    forall i | 0 <= i < |ids| ensures Opened(ids, fields)[i].0 == ids[i].1 { FieldName(ids, i); }
  }

  lemma {:induction false} RebuildRefills(env: Env, ids: seq<(string, string)>, was: Bindings<Value>, held: seq<Value>)
    requires |held| == |ids| && DistinctFields(ids) && forall i :: 0 <= i < |ids| ==> LookupE(env, ids[i].1) == Some(held[i])
    ensures Rebuild(env, ids, was).Found? && Refilled(Rebuild(env, ids, was).cl, was, ids, held)
    decreases |was|
  {
    if was != [] {
      RebuildRefills(env, ids, was[1..], held);
      var now, rest := Rebuild(env, ids, was), Rebuild(env, ids, was[1..]);
      if i :| 0 <= i < |ids| && ids[i].0 == was[0].0 {
        FieldName(ids, i);
        assert now.cl == [(was[0].0, held[i])] + rest.cl;
      } else {
        NoFieldName(ids, was[0].0);
        assert now.cl == [was[0]] + rest.cl;
      }
      assert forall j :: 0 < j < |was| ==> now.cl[j] == rest.cl[j - 1] && was[j] == was[1..][j - 1];
    }
  }

  /** Binding fields of a variable: each name starts as its field; whatever the body does, the variable ends
      as the record whose bound fields are what the names hold when the body is done. */
  lemma RecordWrittenBack(g: set<string>, x: string, ids: seq<(string, string)>, b: Expr, env: Env, fields: Bindings<Value>)
    returns (now: Bindings<Value>)
    requires LookupE(env, x) == Some(Record(fields)) && FieldsPresent(ids, fields)
    requires DistinctFields(ids) && Distinct(Targets(ids)) && x !in Targets(ids)
    ensures var p := Opened(ids, fields);
      && Names(p) == Targets(ids) && (forall i :: 0 <= i < |ids| ==> Some(p[i].1) == LookupE(fields, ids[i].0))
    ensures var o := Means(g, b, Opened(ids, fields) + env);
      if o.Done? then
        && |o.env| == |ids| + |env| && Refilled(now, fields, ids, Held(o.env, |ids|))
        && Means(g, BindRecord(Var(x), ids, b), env) == Done(o.v, ReplaceE(o.env[|ids|..], x, Record(now)))
      else Means(g, BindRecord(Var(x), ids, b), env) == o
  {
    var p := Opened(ids, fields);
    OpenedAre(ids, fields);
    MeansBindRecord(g, Var(x), ids, b, env);
    MeansVar(g, x, env);
    var o := Means(g, b, p + env);
    now := [];
    if o.Done? {
      MeansKeepsNames(g, b, p + env);
      NamesConcat(p, env);
      now := RecordLeft(o, x, ids, fields, Names(env));
    }
  }

  /** The end of the scope. */
  lemma RecordLeft(o: Outcome, x: string, ids: seq<(string, string)>, fields: Bindings<Value>, ys: seq<string>)
    returns (now: Bindings<Value>)
    requires o.Done? && Names(o.env) == Targets(ids) + ys
    requires DistinctFields(ids) && Distinct(Targets(ids))
    ensures |ids| <= |o.env| && Refilled(now, fields, ids, Held(o.env, |ids|))
    ensures Leave(o, FromRecord(x, ids, fields), Targets(ids)) == Done(o.v, ReplaceE(o.env[|ids|..], x, Record(now)))
  {
    TopNames(o.env, Targets(ids), ys);
    forall i | 0 <= i < |ids| ensures LookupE(o.env, ids[i].1) == Some(Held(o.env, |ids|)[i]) {
      FirstNamed(o.env, Targets(ids), i);
    }
    RebuildRefills(o.env, ids, fields, Held(o.env, |ids|));
    now := Rebuild(o.env, ids, fields).cl;
    PopsReplaced(o.env, Targets(ids), ys, x, Record(now));
  }
}
