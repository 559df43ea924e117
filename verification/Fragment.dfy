/** The fragment that the access labels track, inside the interpreter: both evaluators give the same
    values, the same environments and the same failures. */
module Fragment {
  import opened Options
  import opened Scalars
  import opened Environments
  import C = Conflicts
  import T = Tasks
  import I = Interp

  function Embed(e: C.Expr): I.Expr {
    match e
    case Const(_, v) => I.Const(I.Plain(v))
    case Var(_, x) => I.Var(x)
    case UnOp(_, op, e1) => I.Form(I.Unary(op), [Embed(e1)])
    case BinOp(_, op, l, r) => I.Form(I.Binary(op), [Embed(l), Embed(r)])
    case If(_, p, t, f) => I.If(Embed(p), Embed(t), Embed(f))
    case LetIn(_, x, e1, b) => I.LetIn(x, Embed(e1), Embed(b))
    case Assign(_, x, e1) => I.Assign(x, Embed(e1))
    case Seq(_, l, r) => I.Sequence(Embed(l), Embed(r))
  }

  function Max(a: nat, b: nat): nat { if a < b then b else a }

  /** How deeply the interpreter nests on the expression. */
  function Depth(e: C.Expr): nat {
    match e
    case Const(_, _) => 1
    case Var(_, _) => 1
    case UnOp(_, _, e1) => 1 + Depth(e1)
    case BinOp(_, _, l, r) => 1 + Max(Depth(l), Depth(r))
    case If(_, p, t, f) => 1 + Max(Depth(p), Max(Depth(t), Depth(f)))
    case LetIn(_, _, e1, b) => 1 + Max(Depth(e1), Depth(b))
    case Assign(_, _, e1) => 1 + Depth(e1)
    case Seq(_, l, r) => 1 + Max(Depth(l), Depth(r))
  }

  function EmbedV(v: T.Value): I.Value { if v.Unit? then I.UNIT else I.Sc(v.s) }

  function EmbedEnv(env: T.Env): I.Env {
    seq(|env|, i requires 0 <= i < |env| => (env[i].0, EmbedV(env[i].1)))
  }

  /** The same success, or a failure of either kind on both sides. */
  predicate SameOutcome(o: T.Outcome, r: I.Outcome) {
    match o
    case Fail => r.Fail?
    case Done(v, env) => r == I.Done(EmbedV(v), EmbedEnv(env))
  }

  lemma {:induction false} LookupEmbedded(env: T.Env, x: string)
    ensures LookupE(EmbedEnv(env), x) == if LookupE(env, x).Some? then Some(EmbedV(LookupE(env, x).value)) else None
    decreases |env|
  {
    if env != [] {
      assert EmbedEnv(env)[1..] == EmbedEnv(env[1..]);
      LookupEmbedded(env[1..], x);
    }
  }

  lemma ReplaceEmbedded(env: T.Env, x: string, v: T.Value)
    ensures ReplaceE(EmbedEnv(env), x, EmbedV(v)) == EmbedEnv(ReplaceE(env, x, v))
  {}

  lemma {:induction false} RemoveEmbedded(env: T.Env, x: string)
    ensures RemoveE(EmbedEnv(env), x) == EmbedEnv(RemoveE(env, x))
    decreases |env|
  {
    if env != [] {
      assert EmbedEnv(env)[1..] == EmbedEnv(env[1..]);
      RemoveEmbedded(env[1..], x);
      if env[0].0 != x { assert EmbedEnv([env[0]] + RemoveE(env[1..], x)) == [EmbedEnv(env)[0]] + EmbedEnv(RemoveE(env[1..], x)); }
    }
  }

  lemma PushEmbedded(x: string, v: T.Value, env: T.Env)
    ensures EmbedEnv([(x, v)] + env) == [(x, EmbedV(v))] + EmbedEnv(env)
  {}

  /** Leaving the scope of one name. */
  lemma ScopeAgrees(g: set<string>, n: nat, b: I.Expr, x: string, v: T.Value, env: T.Env, o: T.Outcome)
    requires SameOutcome(o, I.Eval(g, n, b, EmbedEnv([(x, v)] + env)))
    ensures SameOutcome(if o.Done? then T.Done(o.v, RemoveE(o.env, x)) else T.Fail,
                        I.Scoped(g, n, b, [(x, EmbedV(v))], I.Nothing, EmbedEnv(env)))
  {
    PushEmbedded(x, v, env);
    assert Names([(x, EmbedV(v))]) == [x];
    if o.Done? {
      RemoveEmbedded(o.env, x);
      var env1 := EmbedEnv(o.env);
      assert RemoveAllE(env1, [x]) == RemoveAllE(RemoveE(env1, x), []) by { assert [x][1..] == []; }
    }
  }

  lemma OneValue(g: set<string>, n: nat, e: I.Expr, env: I.Env)
    ensures I.EvalAll(g, n, [e], env) ==
      var o := I.Eval(g, n, e, env);
      if o.Done? then I.Done(I.Tuple([o.v]), o.env) else o
  {
    var o := I.Eval(g, n, e, env);
    assert [e][1..] == [];
    if o.Done? {
      assert I.EvalAll(g, n, [], o.env) == I.Done(I.UNIT, o.env);
      assert [o.v] + [] == [o.v];
    }
  }

  lemma OneOperand(g: set<string>, n: nat, op: UnaryOp, e: I.Expr, env: I.Env)
    ensures I.EvalForm(g, n, I.Unary(op), [e], env) ==
      var o := I.Eval(g, n, e, env);
      if !o.Done? then o
      else if o.v.Sc? && Unary(op, o.v.s).Some? then I.Done(I.Sc(Unary(op, o.v.s).value), o.env)
      else I.Fail(I.RunTimeError, o.env)
  {
    OneValue(g, n, e, env);
  }

  lemma TwoOperands(g: set<string>, n: nat, op: BinaryOp, l: I.Expr, r: I.Expr, env: I.Env)
    ensures I.EvalForm(g, n, I.Binary(op), [l, r], env) ==
      var a := I.Eval(g, n, l, env);
      if !a.Done? then a
      else
        var b := I.Eval(g, n, r, a.env);
        if !b.Done? then b
        else if a.v.Sc? && b.v.Sc? && Binary(op, a.v.s, b.v.s).Some? then I.Done(I.Sc(Binary(op, a.v.s, b.v.s).value), b.env)
        else I.Fail(I.RunTimeError, b.env)
  {
    var a := I.Eval(g, n, l, env);
    assert [l, r][1..] == [r];
    if a.Done? {
      var b := I.Eval(g, n, r, a.env);
      OneValue(g, n, r, a.env);
      if b.Done? { assert [a.v] + [b.v] == [a.v, b.v]; }
      assert I.EvalAll(g, n, [l, r], env) == if b.Done? then I.Done(I.Tuple([a.v, b.v]), b.env) else b;
    }
  }

  /** With fuel for its depth, an expression of the fragment evaluates in the interpreter exactly as the
      labels' own evaluator has it. */
  lemma {:induction false} EvaluatorsAgree(g: set<string>, n: nat, e: C.Expr, env: T.Env)
    requires Depth(e) <= n
    ensures SameOutcome(T.Eval(e, env), I.Eval(g, n, Embed(e), EmbedEnv(env)))
    decreases e
  {
    match e
    case Const(_, _) =>
    case Var(_, x) => LookupEmbedded(env, x);
    case UnOp(_, _, _) => UnaryAgrees(g, n, e, env);
    case BinOp(_, _, _, _) => BinaryAgrees(g, n, e, env);
    case If(_, _, _, _) => IfAgrees(g, n, e, env);
    case LetIn(_, _, _, _) => LetAgrees(g, n, e, env);
    case Assign(_, _, _) => AssignAgrees(g, n, e, env);
    case Seq(_, _, _) => SequenceAgrees(g, n, e, env);
  }

  lemma {:induction false} UnaryAgrees(g: set<string>, n: nat, e: C.Expr, env: T.Env)
    requires e.UnOp? && Depth(e) <= n
    ensures SameOutcome(T.Eval(e, env), I.Eval(g, n, Embed(e), EmbedEnv(env)))
    decreases e, 0
  {
    EvaluatorsAgree(g, n - 1, e.e, env);
    OneOperand(g, n - 1, e.uop, Embed(e.e), EmbedEnv(env));
  }

  lemma {:induction false} BinaryAgrees(g: set<string>, n: nat, e: C.Expr, env: T.Env)
    requires e.BinOp? && Depth(e) <= n
    ensures SameOutcome(T.Eval(e, env), I.Eval(g, n, Embed(e), EmbedEnv(env)))
    decreases e, 0
  {
    EvaluatorsAgree(g, n - 1, e.l, env);
    if T.Eval(e.l, env).Done? { EvaluatorsAgree(g, n - 1, e.r, T.Eval(e.l, env).env); }
    TwoOperands(g, n - 1, e.bop, Embed(e.l), Embed(e.r), EmbedEnv(env));
  }

  lemma {:induction false} AssignAgrees(g: set<string>, n: nat, e: C.Expr, env: T.Env)
    requires e.Assign? && Depth(e) <= n
    ensures SameOutcome(T.Eval(e, env), I.Eval(g, n, Embed(e), EmbedEnv(env)))
    decreases e, 0
  {
    LookupEmbedded(env, e.x);
    EvaluatorsAgree(g, n - 1, e.e, env);
    if T.Eval(e.e, env).Done? { ReplaceEmbedded(T.Eval(e.e, env).env, e.x, T.Eval(e.e, env).v); }
  }

  lemma {:induction false} SequenceAgrees(g: set<string>, n: nat, e: C.Expr, env: T.Env)
    requires e.Seq? && Depth(e) <= n
    ensures SameOutcome(T.Eval(e, env), I.Eval(g, n, Embed(e), EmbedEnv(env)))
    decreases e, 0
  {
    EvaluatorsAgree(g, n - 1, e.l, env);
    if T.Eval(e.l, env).Done? { EvaluatorsAgree(g, n - 1, e.r, T.Eval(e.l, env).env); }
  }

  lemma {:induction false} IfAgrees(g: set<string>, n: nat, e: C.Expr, env: T.Env)
    requires e.If? && Depth(e) <= n
    ensures SameOutcome(T.Eval(e, env), I.Eval(g, n, Embed(e), EmbedEnv(env)))
    decreases e, 0
  {
    EvaluatorsAgree(g, n - 1, e.p, env);
    var o := T.Eval(e.p, env);
    if o.Done? {
      if o.v == T.Sc(Bool(true)) { EvaluatorsAgree(g, n - 1, e.t, o.env); }
      else if o.v == T.Sc(Bool(false)) { EvaluatorsAgree(g, n - 1, e.f, o.env); }
    }
  }

  lemma {:induction false} LetAgrees(g: set<string>, n: nat, e: C.Expr, env: T.Env)
    requires e.LetIn? && Depth(e) <= n
    ensures SameOutcome(T.Eval(e, env), I.Eval(g, n, Embed(e), EmbedEnv(env)))
    decreases e, 0
  {
    EvaluatorsAgree(g, n - 1, e.e, env);
    var o := T.Eval(e.e, env);
    if o.Done? {
      EvaluatorsAgree(g, n - 1, e.b, [(e.x, o.v)] + o.env);
      ScopeAgrees(g, n - 1, Embed(e.b), e.x, o.v, o.env, T.Eval(e.b, [(e.x, o.v)] + o.env));
    }
  }

  /** A trigger of the fragment run on one message is the interpreter's scope of its parameter. */
  lemma TriggersAgree(g: set<string>, n: nat, body: C.Expr, param: string, arg: T.Value, env: T.Env)
    requires Depth(body) <= n
    ensures var r, s := T.RunTrigger(body, param, arg, env), I.Scoped(g, n, Embed(body), [(param, EmbedV(arg))], I.Nothing, EmbedEnv(env));
      if r.Some? then s.Done? && s.env == EmbedEnv(r.value) else s.Fail?
  {
    EvaluatorsAgree(g, n, body, [(param, arg)] + env);
    ScopeAgrees(g, n, Embed(body), param, arg, env, T.Eval(body, [(param, arg)] + env));
  }
}
