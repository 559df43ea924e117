/** Laws of the language: expressions that mean the same, and what reading gives after building,
    binding and assigning. */
module Laws {
  import opened Options
  import opened Scalars
  import opened Environments
  import opened Interp
  import opened Meaning
  import opened Transparency

  function True(): Expr { Const(Plain(Bool(true))) }

  function False(): Expr { Const(Plain(Bool(false))) }

  /* ---------- Options and branches ---------- */

  /** Taking apart an option that has just been made is naming its content. */
  lemma CaseOfSome(g: set<string>, x: string, e: Expr, s: Expr, no: Expr, env: Env)
    ensures Means(g, CaseOf(x, Form(MakeSome, [e]), s, no), env) == Means(g, LetIn(x, e, s), env)
  {
    MeansCase(g, x, Form(MakeSome, [e]), s, no, env);
    MeansOne(g, MakeSome, e, env);
    MeansLet(g, x, e, s, env);
  }

  lemma CaseOfNone(g: set<string>, x: string, s: Expr, no: Expr, env: Env)
    ensures Means(g, CaseOf(x, Const(NoneOf), s, no), env) == Means(g, no, env)
  {
    MeansCase(g, x, Const(NoneOf), s, no, env);
    MeansConst(g, NoneOf, env);
  }

  /** Making an option again from its content gives the same option. */
  lemma CaseRebuilds(g: set<string>, x: string, e: Expr, env: Env)
    ensures var o, c := Means(g, e, env), Means(g, CaseOf(x, e, Form(MakeSome, [Var(x)]), Const(NoneOf)), env);
      if o.Done? && !o.v.Opt? then c == Fail(RunTimeError, o.env) else c == o
  {
    var o := Means(g, e, env);
    MeansCase(g, x, e, Form(MakeSome, [Var(x)]), Const(NoneOf), env);
    if o.Done? && o.v.Opt? {
      MeansConst(g, NoneOf, o.env);
      if o.v.o.Some? {
        var p := [(x, o.v.o.value)];
        MeansOne(g, MakeSome, Var(x), p + o.env);
        MeansVar(g, x, p + o.env);
        PopsPushed(p, o.env);
      }
    }
  }

  lemma IfConstant(g: set<string>, t: Expr, f: Expr, env: Env)
    ensures Means(g, If(True(), t, f), env) == Means(g, t, env)
    ensures Means(g, If(False(), t, f), env) == Means(g, f, env)
  {
    MeansIf(g, True(), t, f, env);
    MeansIf(g, False(), t, f, env);
    MeansConst(g, Plain(Bool(true)), env);
    MeansConst(g, Plain(Bool(false)), env);
  }

  /** Negating the condition swaps the branches, errors included. */
  lemma IfNot(g: set<string>, p: Expr, t: Expr, f: Expr, env: Env)
    ensures Means(g, If(Form(Unary(Not), [p]), t, f), env) == Means(g, If(p, f, t), env)
  {
    MeansIf(g, Form(Unary(Not), [p]), t, f, env);
    MeansIf(g, p, f, t, env);
    MeansOne(g, Unary(Not), p, env);
  }

  /** Operators on constants are the primitive ones. */
  lemma ConstantOperands(g: set<string>, op: BinaryOp, a: Scalar, b: Scalar, uop: UnaryOp, env: Env)
    ensures Means(g, Form(Binary(op), [Const(Plain(a)), Const(Plain(b))]), env) ==
      if Scalars.Binary(op, a, b).Some? then Done(Sc(Scalars.Binary(op, a, b).value), env) else Fail(RunTimeError, env)
    ensures Means(g, Form(Unary(uop), [Const(Plain(a))]), env) ==
      if Scalars.Unary(uop, a).Some? then Done(Sc(Scalars.Unary(uop, a).value), env) else Fail(RunTimeError, env)
  {
    var l, r := Const(Plain(a)), Const(Plain(b));
    MeansForm(g, Binary(op), [l, r], env);
    MeansOne(g, Unary(uop), l, env);
    MeansConst(g, Plain(a), env);
    MeansConst(g, Plain(b), env);
    AllOfTwo(g, l, r, env, Done(Sc(a), env), Done(Sc(b), env));
  }

  lemma AllOfTwo(g: set<string>, l: Expr, r: Expr, env: Env, o: Outcome, q: Outcome)
    requires Means(g, l, env) == o && o.Done? && Means(g, r, o.env) == q && q.Done?
    ensures MeansAll(g, [l, r], env) == Done(Tuple([o.v, q.v]), q.env)
  {
    assert [l, r][1..] == [r] && [r][1..] == [];
    assert MeansAll(g, [], q.env) == Done(UNIT, q.env) && [q.v] + [] == [q.v];
    assert MeansAll(g, [r], o.env) == Done(Tuple([q.v]), q.env);
    assert [o.v] + [q.v] == [o.v, q.v];
  }

  /* ---------- Scopes ---------- */

  lemma PopsPushed(p: Env, env: Env)
    ensures RemoveAllE(p + env, Names(p)) == env
  {
    NamesConcat(p, env);
    RemoveAllPops(p + env, Names(p), Names(env));
    assert |Names(p)| == |p|;
  }

  /** An assignment can be read back, in every variable of the name. */
  lemma AssignThenRead(g: set<string>, x: string, e: Expr, env: Env)
    ensures Means(g, Sequence(Assign(x, e), Var(x)), env) ==
      if LookupE(env, x).None? then Fail(UnknownVariable(x), env)
      else var o := Means(g, e, env); if o.Done? then Done(o.v, ReplaceE(o.env, x, o.v)) else o
  {
    MeansSequence(g, Assign(x, e), Var(x), env);
    MeansAssign(g, x, e, env);
    var o := Means(g, e, env);
    if LookupE(env, x).Some? && o.Done? {
      MeansVar(g, x, ReplaceE(o.env, x, o.v));
      MeansKeepsNames(g, e, env);
      LookupIffNamed(env, x);
      LookupIffNamed(o.env, x);
      LookupReplaced(o.env, x, o.v, x);
    }
  }

  /** A let that only returns its variable is its expression. */
  lemma LetOfItself(g: set<string>, x: string, e: Expr, env: Env)
    ensures Means(g, LetIn(x, e, Var(x)), env) == Means(g, e, env)
  {
    MeansLet(g, x, e, Var(x), env);
    var o := Means(g, e, env);
    if o.Done? {
      var p := [(x, o.v)];
      MeansVar(g, x, p + o.env);
      PopsPushed(p, o.env);
    }
  }

  lemma SequenceAssociates(g: set<string>, a: Expr, b: Expr, c: Expr, env: Env)
    ensures Means(g, Sequence(Sequence(a, b), c), env) == Means(g, Sequence(a, Sequence(b, c)), env)
  {
    MeansSequence(g, Sequence(a, b), c, env);
    MeansSequence(g, a, b, env);
    MeansSequence(g, a, Sequence(b, c), env);
    var o := Means(g, a, env);
    if o.Done? { MeansSequence(g, b, c, o.env); }
  }

  /** The same, except for where a failure has happened. */
  predicate SameEnd(a: Outcome, b: Outcome) {
    if a.Fail? then b.Fail? && b.err == a.err else b == a
  }

  lemma TransparentMeaning(g: set<string>, e: Expr, env: Env, k: nat, q: Env, hidden: set<string>)
    requires Avoids(e, hidden) && Fits(env, k, q, hidden)
    ensures Same(Means(g, e, env), Means(g, e, Insert(env, k, q)), k, q, hidden)
  {
    var n := Enough(g, e, env);
    var n' := Enough(g, e, Insert(env, k, q));
    var m := Max(n, n');
    Transparent(g, m, e, env, k, q, hidden);
    assert Eval(g, m, e, env) == Means(g, e, env) && Eval(g, m, e, Insert(env, k, q)) == Means(g, e, Insert(env, k, q));
  }

  lemma MeaningClean(g: set<string>, e: Expr, env: Env, hidden: set<string>)
    requires Avoids(e, hidden) && Clean(env, hidden)
    ensures var o := Means(g, e, env); o.Done? ==> CleanV(o.v, hidden) && Clean(o.env, hidden)
  {
    TransparentMeaning(g, e, env, 0, [], hidden);
  }

  /** A sequence is a let whose name nobody uses. */
  lemma SequenceIsLet(g: set<string>, z: string, l: Expr, r: Expr, env: Env)
    requires Avoids(l, {z}) && Avoids(r, {z}) && Clean(env, {z})
    ensures SameEnd(Means(g, Sequence(l, r), env), Means(g, LetIn(z, l, r), env))
  {
    MeansSequence(g, l, r, env);
    MeansLet(g, z, l, r, env);
    var o := Means(g, l, env);
    if o.Done? {
      MeaningClean(g, l, env, {z});
      var q := [(z, o.v)];
      assert Names(q) == [z];
      TransparentMeaning(g, r, o.env, 0, q, {z});
      assert Insert(o.env, 0, q) == q + o.env;
      var w := Means(g, r, o.env);
      if w.Done? {
        assert Insert(w.env, 0, q) == q + w.env;
        PopsPushed(q, w.env);
      }
    }
  }

  /* ---------- Records and tuples ---------- */

  lemma {:induction false} ZipLookup<V>(xs: seq<string>, vs: seq<V>, i: nat)
    requires |xs| == |vs| && i < |xs| && forall j :: 0 <= j < i ==> xs[j] != xs[i]
    ensures LookupE(Zip(xs, vs), xs[i]) == Some(vs[i])
    decreases |xs|
  {
    assert Zip(xs, vs)[1..] == Zip(xs[1..], vs[1..]);
    if i > 0 {
      assert xs[1..][i - 1] == xs[i] && forall j :: 0 <= j < i - 1 ==> xs[1..][j] == xs[j + 1];
      ZipLookup(xs[1..], vs[1..], i - 1);
    }
  }

  lemma ZipNames<V>(xs: seq<string>, vs: seq<V>)
    requires |xs| == |vs|
    ensures Names(Zip(xs, vs)) == xs
  {}

  lemma TupleOf(g: set<string>, es: seq<Expr>, env: Env)
    ensures Means(g, Form(MakeTuple, es), env) == MeansAll(g, es, env)
  {
    MeansForm(g, MakeTuple, es, env);
  }

  /** Projecting a field out of a record that has just been made gives the value of the expression the
      field was made from; all of them are evaluated, from left to right. */
  lemma ProjectMade(g: set<string>, ids: seq<string>, es: seq<Expr>, i: nat, env: Env)
    requires |ids| == |es| && i < |ids| && forall j :: 0 <= j < i ==> ids[j] != ids[i]
    ensures Means(g, Form(Project(ids[i]), [Form(MakeRecord(ids), es)]), env) ==
      var o := Means(g, Form(MakeTuple, es), env);
      if o.Done? && o.v.Tuple? && i < |o.v.vs| then Done(o.v.vs[i], o.env) else o
  {
    MeansOne(g, Project(ids[i]), Form(MakeRecord(ids), es), env);
    MeansForm(g, MakeRecord(ids), es, env);
    TupleOf(g, es, env);
    var o := MeansAll(g, es, env);
    if o.Done? { ZipLookup(ids, o.v.vs, i); }
  }

  /** A field the record was not made with is an error. */
  lemma ProjectMissing(g: set<string>, ids: seq<string>, es: seq<Expr>, f: string, env: Env)
    requires |ids| == |es| && f !in ids
    ensures Means(g, Form(Project(f), [Form(MakeRecord(ids), es)]), env) ==
      var o := Means(g, Form(MakeTuple, es), env);
      if o.Done? then Fail(RunTimeError, o.env) else o
  {
    MeansOne(g, Project(f), Form(MakeRecord(ids), es), env);
    MeansForm(g, MakeRecord(ids), es, env);
    TupleOf(g, es, env);
    var o := MeansAll(g, es, env);
    if o.Done? {
      ZipNames(ids, o.v.vs);
      LookupIffNamed(Zip(ids, o.v.vs), f);
    }
  }

  predicate Distinct(xs: seq<string>) { forall i, j :: 0 <= i < j < |xs| ==> xs[i] != xs[j] }

  function Vars(xs: seq<string>): seq<Expr> { seq(|xs|, i requires 0 <= i < |xs| => Var(xs[i])) }

  /** Looking up several names, one after the other. */
  lemma {:induction false} MeansVars(g: set<string>, xs: seq<string>, vs: seq<Value>, env: Env)
    requires |vs| == |xs| && forall i :: 0 <= i < |xs| ==> LookupE(env, xs[i]) == Some(vs[i])
    ensures MeansAll(g, Vars(xs), env) == Done(Tuple(vs), env)
    decreases |xs|
  {
    if xs != [] {
      assert Vars(xs)[1..] == Vars(xs[1..]);
      MeansVar(g, xs[0], env);
      MeansVars(g, xs[1..], vs[1..], env);
      assert [vs[0]] + vs[1..] == vs;
    }
  }

  lemma PushedLookup(xs: seq<string>, vs: seq<Value>, env: Env, i: nat)
    requires |xs| == |vs| && Distinct(xs) && i < |xs|
    ensures LookupE(Zip(xs, vs) + env, xs[i]) == Some(vs[i])
  {
    ZipLookup(xs, vs, i);
    LookupConcat(Zip(xs, vs), env, xs[i]);
  }

  /** Binding the components of a tuple and making a tuple of them gives the tuple again. */
  lemma TupleRebuilt(g: set<string>, e: Expr, ts: seq<string>, env: Env)
    requires !e.Var? && Distinct(ts)
    ensures var o := Means(g, e, env);
      o.Done? && o.v.Tuple? && |o.v.vs| == |ts| ==> Means(g, BindTuple(e, ts, Form(MakeTuple, Vars(ts))), env) == o
  {
    var o := Means(g, e, env);
    if o.Done? && o.v.Tuple? && |o.v.vs| == |ts| {
      MeansBindTuple(g, e, ts, Form(MakeTuple, Vars(ts)), env);
      var vs, p := o.v.vs, Zip(ts, o.v.vs);
      forall i | 0 <= i < |ts| ensures LookupE(p + o.env, ts[i]) == Some(vs[i]) { PushedLookup(ts, vs, o.env, i); }
      MeansVars(g, ts, vs, p + o.env);
      TupleOf(g, Vars(ts), p + o.env);
      PopsPushed(p, o.env);
    }
  }

  /* ---------- What a bind writes back ---------- */

  /** What the bound names hold at the end of the scope. */
  function Held(env: Env, n: nat): seq<Value>
    requires n <= |env|
  {
    Values(env[..n])
  }

  lemma {:induction false} CaptureTop(env: Env, xs: seq<string>, k: nat)
    requires |xs| <= |env| && k <= |xs| && Distinct(xs) && forall i :: 0 <= i < |xs| ==> env[i].0 == xs[i]
    ensures LookupAll(env, xs[k..]) == Found(env[k..|xs|])
    decreases |xs| - k
  {
    if k < |xs| {
      CaptureTop(env, xs, k + 1);
      assert xs[k..][0] == xs[k] && xs[k..][1..] == xs[k + 1..];
      FirstNamed(env, xs, k);
      assert env[k] == (xs[k], env[k].1);
      assert [env[k]] + env[k + 1..|xs|] == env[k..|xs|];
    }
  }

  lemma {:induction false} FirstNamed(env: Env, xs: seq<string>, k: nat)
    requires k < |xs| <= |env| && Distinct(xs) && forall i :: 0 <= i < |xs| ==> env[i].0 == xs[i]
    ensures LookupE(env, xs[k]) == Some(env[k].1)
    decreases k
  {
    if k > 0 {
      assert forall i :: 0 <= i < |xs[1..]| ==> env[1..][i].0 == xs[1..][i];
      FirstNamed(env[1..], xs[1..], k - 1);
    }
  }

  /** Binding the components of a variable: whatever the body does, the variable ends as the tuple of what
      the bound names hold when the body is done, and nothing else changes at that point. */
  lemma TupleWrittenBack(g: set<string>, x: string, ts: seq<string>, b: Expr, env: Env, vs: seq<Value>)
    requires LookupE(env, x) == Some(Tuple(vs)) && |ts| == |vs| && Distinct(ts) && x !in ts
    ensures var o := Means(g, b, Zip(ts, vs) + env);
      && (o.Done? ==> |o.env| == |ts| + |env|)
      && Means(g, BindTuple(Var(x), ts, b), env) ==
           if o.Done? then Done(o.v, ReplaceE(o.env[|ts|..], x, Tuple(Held(o.env, |ts|)))) else o
  {
    var p := Zip(ts, vs);
    MeansBindTuple(g, Var(x), ts, b, env);
    MeansVar(g, x, env);
    MeansKeepsNames(g, b, p + env);
    ZipNames(ts, vs);
    NamesConcat(p, env);
    var o := Means(g, b, p + env);
    if o.Done? {
      TopNames(o.env, ts, Names(env));
      CaptureTop(o.env, ts, 0);
      assert ts[0..] == ts && o.env[0..|ts|] == o.env[..|ts|];
      PopsReplaced(o.env, ts, Names(env), x, Tuple(Held(o.env, |ts|)));
    }
  }

  lemma TopNames(env: Env, xs: seq<string>, ys: seq<string>)
    requires Names(env) == xs + ys
    ensures |xs| <= |env| && forall i :: 0 <= i < |xs| ==> env[i].0 == xs[i]
  {
    assert |Names(env)| == |env|;
    forall i | 0 <= i < |xs| ensures env[i].0 == xs[i] { assert Names(env)[i] == env[i].0; }
  }

  lemma PopsReplaced(env: Env, xs: seq<string>, ys: seq<string>, x: string, v: Value)
    requires Names(env) == xs + ys && |xs| <= |env|
    ensures RemoveAllE(ReplaceE(env, x, v), xs) == ReplaceE(env[|xs|..], x, v)
  {
    NamesReplaced(env, x, v);
    RemoveAllPops(ReplaceE(env, x, v), xs, ys);
    assert ReplaceE(env, x, v)[|xs|..] == ReplaceE(env[|xs|..], x, v);
  }
}
