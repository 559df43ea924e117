/** What the access labels say: a label for every place that reads or assigns, in the order in which an
    evaluation comes by them. */
module Labels {
  import opened Options
  import opened Scalars
  import opened Conflicts
  import opened Tasks
  import opened Environments

  /* ---------- One label for every place ---------- */

  /** s is e or stands somewhere inside it. */
  predicate Inside(s: Expr, e: Expr) {
    s == e ||
    match e
    case Const(_, _) => false
    case Var(_, _) => false
    case UnOp(_, _, e1) => Inside(s, e1)
    case BinOp(_, _, l, r) => Inside(s, l) || Inside(s, r)
    case If(_, p, t, f) => Inside(s, p) || Inside(s, t) || Inside(s, f)
    case LetIn(_, _, e1, b) => Inside(s, e1) || Inside(s, b)
    case Assign(_, _, e1) => Inside(s, e1)
    case Seq(_, l, r) => Inside(s, l) || Inside(s, r)
  }

  /** The node makes this access itself. */
  predicate Makes(e: Expr, a: Access) {
    match a
    case Read(x, uid) => e == Var(uid, x)
    case Write(x, uid) => e.Assign? && e.uid == uid && e.x == x
  }

  ghost predicate SomeNodeMakes(e: Expr, a: Access) { exists s :: Inside(s, e) && Makes(s, a) }

  lemma InsidePart(part: Expr, e: Expr, a: Access)
    requires SomeNodeMakes(part, a) && forall s :: Inside(s, part) ==> Inside(s, e)
    ensures SomeNodeMakes(e, a)
  {
    var s :| Inside(s, part) && Makes(s, a);
    assert Inside(s, e);
  }

  /** The labels of an expression are the reads of its variables and the writes of its assignments, each
      with the identifier of the node that makes it. */
  lemma {:induction false} AccessesExact(e: Expr, a: Access)
    ensures a in Accesses(e) <==> SomeNodeMakes(e, a)
    decreases e, 1
  {
    match e
    case Const(_, _) =>
    case Var(_, _) => assert Inside(e, e);
    case UnOp(_, _, e1) => AccessesExact(e1, a);
      if SomeNodeMakes(e1, a) { InsidePart(e1, e, a); }
    case BinOp(_, _, l, r) => TwoParts(e, l, r, a);
    case If(_, p, t, f) =>
      AccessesExact(p, a);
      AccessesExact(t, a);
      AccessesExact(f, a);
      if SomeNodeMakes(p, a) { InsidePart(p, e, a); }
      if SomeNodeMakes(t, a) { InsidePart(t, e, a); }
      if SomeNodeMakes(f, a) { InsidePart(f, e, a); }
    case LetIn(_, _, e1, b) => TwoParts(e, e1, b, a);
    case Assign(_, _, e1) =>
      assert Inside(e, e);
      AccessesExact(e1, a);
      if SomeNodeMakes(e1, a) { InsidePart(e1, e, a); }
    case Seq(_, l, r) => TwoParts(e, l, r, a);
  }

  lemma {:induction false} TwoParts(e: Expr, l: Expr, r: Expr, a: Access)
    requires (e.BinOp? && l == e.l && r == e.r) || (e.LetIn? && l == e.e && r == e.b) || (e.Seq? && l == e.l && r == e.r)
    ensures a in Accesses(e) <==> SomeNodeMakes(e, a)
    decreases e, 0
  {
    AccessesExact(l, a);
    AccessesExact(r, a);
    if SomeNodeMakes(l, a) { InsidePart(l, e, a); }
    if SomeNodeMakes(r, a) { InsidePart(r, e, a); }
  }

  /* ---------- In the order of evaluation ---------- */

  /** The variables an evaluation looks up and assigns, one after the other, up to where it fails. */
  function Trace(e: Expr, env: Env): seq<Access>
    decreases e, 0
  {
    match e
    case Const(_, _) => []
    case Var(uid, x) => [Read(x, uid)]
    case UnOp(_, _, e1) => Trace(e1, env)
    case BinOp(_, _, l, r) => Trace(l, env) + Then(Eval(l, env), r)
    case If(_, p, t, f) =>
      Trace(p, env) +
      (match Eval(p, env)
       case Fail => []
       case Done(v, env1) =>
         if v == Sc(Bool(true)) then Trace(t, env1) else if v == Sc(Bool(false)) then Trace(f, env1) else [])
    case LetIn(_, x, e1, b) =>
      Trace(e1, env) + (match Eval(e1, env) case Fail => [] case Done(v, env1) => Trace(b, [(x, v)] + env1))
    case Assign(uid, x, e1) =>
      if LookupE(env, x).None? then [] else Trace(e1, env) + if Eval(e1, env).Done? then [Write(x, uid)] else []
    case Seq(_, l, r) => Trace(l, env) + Then(Eval(l, env), r)
  }

  function Then(o: Outcome, r: Expr): seq<Access>
    decreases r, 1
  {
    if o.Done? then Trace(r, o.env) else []
  }

  /** Some elements of t, in their order. */
  predicate PartOf<T(==)>(s: seq<T>, t: seq<T>)
    decreases |t|
  {
    s == [] || (t != [] && ((s[0] == t[0] && PartOf(s[1..], t[1..])) || PartOf(s, t[1..])))
  }

  lemma {:induction false} PartOfItself<T>(s: seq<T>)
    ensures PartOf(s, s)
    decreases |s|
  {
    if s != [] { PartOfItself(s[1..]); }
  }

  lemma {:induction false} PartOfMore<T>(s: seq<T>, p: seq<T>, t: seq<T>)
    requires PartOf(s, t)
    ensures PartOf(s, p + t)
    decreases |p|
  {
    if p == [] {
      assert p + t == t;
    } else {
      assert (p + t)[1..] == p[1..] + t;
      PartOfMore(s, p[1..], t);
    }
  }

  lemma {:induction false} PartsConcat<T>(s: seq<T>, t: seq<T>, s': seq<T>, t': seq<T>)
    requires PartOf(s, t) && PartOf(s', t')
    ensures PartOf(s + s', t + t')
    decreases |t|
  {
    if s == [] {
      assert s + s' == s';
      PartOfMore(s', t, t');
    } else {
      assert (t + t')[1..] == t[1..] + t';
      if s[0] == t[0] && PartOf(s[1..], t[1..]) {
        assert (s + s')[1..] == s[1..] + s';
        PartsConcat(s[1..], t[1..], s', t');
      } else {
        PartsConcat(s, t[1..], s', t');
      }
    }
  }

  /** Every access an evaluation makes is labelled, and the labels come in the order of the accesses. */
  lemma {:induction false} TraceIsLabelled(e: Expr, env: Env)
    ensures PartOf(Trace(e, env), Accesses(e))
    decreases e, 1
  {
    match e
    case Const(_, _) =>
    case Var(_, _) => PartOfItself(Accesses(e));
    case UnOp(_, _, e1) => TraceIsLabelled(e1, env);
    case BinOp(_, _, l, r) => TraceThen(e, l, r, env);
    case If(_, p, t, f) => TraceIf(e, env);
    case LetIn(_, x, e1, b) =>
      TraceIsLabelled(e1, env);
      var o := Eval(e1, env);
      if o.Done? { TraceIsLabelled(b, [(x, o.v)] + o.env); }
      PartsConcat(Trace(e1, env), Accesses(e1), if o.Done? then Trace(b, [(x, o.v)] + o.env) else [], Accesses(b));
    case Assign(uid, x, e1) =>
      TraceIsLabelled(e1, env);
      PartOfItself([Write(x, uid)]);
      PartsConcat(Trace(e1, env), Accesses(e1), if Eval(e1, env).Done? then [Write(x, uid)] else [], [Write(x, uid)]);
    case Seq(_, l, r) => TraceThen(e, l, r, env);
  }

  lemma {:induction false} TraceThen(e: Expr, l: Expr, r: Expr, env: Env)
    requires (e.BinOp? || e.Seq?) && l == e.l && r == e.r
    ensures PartOf(Trace(l, env) + Then(Eval(l, env), r), Accesses(l) + Accesses(r))
    decreases e, 0
  {
    TraceIsLabelled(l, env);
    if Eval(l, env).Done? { TraceIsLabelled(r, Eval(l, env).env); }
    PartsConcat(Trace(l, env), Accesses(l), Then(Eval(l, env), r), Accesses(r));
  }

  lemma {:induction false} TraceIf(e: Expr, env: Env)
    requires e.If?
    ensures PartOf(Trace(e, env), Accesses(e))
    decreases e, 0
  {
    var o := Eval(e.p, env);
    TraceIsLabelled(e.p, env);
    var rest: seq<Access> := [];
    if o.Done? && o.v == Sc(Bool(true)) {
      rest := Trace(e.t, o.env);
      TraceIsLabelled(e.t, o.env);
      PartsConcat(rest, Accesses(e.t), [], Accesses(e.f));
      assert rest + [] == rest;
    } else if o.Done? && o.v == Sc(Bool(false)) {
      rest := Trace(e.f, o.env);
      TraceIsLabelled(e.f, o.env);
      PartOfMore(rest, Accesses(e.t), Accesses(e.f));
    }
    PartsConcat(Trace(e.p, env), Accesses(e.p), rest, Accesses(e.t) + Accesses(e.f));
    assert Accesses(e) == Accesses(e.p) + (Accesses(e.t) + Accesses(e.f));
  }

  predicate Branchless(e: Expr) {
    match e
    case Const(_, _) => true
    case Var(_, _) => true
    case UnOp(_, _, e1) => Branchless(e1)
    case BinOp(_, _, l, r) => Branchless(l) && Branchless(r)
    case If(_, _, _, _) => false
    case LetIn(_, _, e1, b) => Branchless(e1) && Branchless(b)
    case Assign(_, _, e1) => Branchless(e1)
    case Seq(_, l, r) => Branchless(l) && Branchless(r)
  }

  /** Without branches a successful evaluation makes exactly the labelled accesses. */
  lemma {:induction false} BranchlessTrace(e: Expr, env: Env)
    requires Branchless(e) && Eval(e, env).Done?
    ensures Trace(e, env) == Accesses(e)
  {
    match e
    case Const(_, _) =>
    case Var(_, _) =>
    case UnOp(_, _, e1) => BranchlessTrace(e1, env);
    case BinOp(_, _, l, r) => BranchlessTrace(l, env); BranchlessTrace(r, Eval(l, env).env);
    case LetIn(_, x, e1, b) =>
      BranchlessTrace(e1, env);
      var o := Eval(e1, env);
      BranchlessTrace(b, [(x, o.v)] + o.env);
    case Assign(_, _, e1) => BranchlessTrace(e1, env);
    case Seq(_, l, r) => BranchlessTrace(l, env); BranchlessTrace(r, Eval(l, env).env);
  }
}
