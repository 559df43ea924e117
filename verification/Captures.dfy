/** What a function value captures: which names count as free, and that for quiet bodies they are enough,
    so that the function gives the same wherever it is applied. */
module Captures {
  import opened Options
  import opened Scalars
  import opened Environments
  import opened Interp
  import opened AssignDesugar

  /** y is looked up somewhere in e, below no binder of y other than those that hidden names. A let or a
      bind hides its names in the expression it binds them to as well. */
  predicate Occurs(e: Expr, y: string, hidden: set<string>) {
    match e
    case Const(_) => false
    case Var(x) => x == y && y !in hidden
    case Form(_, es) => AnyOccurs(es, y, hidden)
    case Lambda(x, b) => Occurs(b, y, hidden + {x})
    case App(fn, arg) => Occurs(fn, y, hidden) || Occurs(arg, y, hidden)
    case Sequence(l, r) => Occurs(l, y, hidden) || Occurs(r, y, hidden)
    case LetIn(x, i, b) => Occurs(i, y, hidden + {x}) || Occurs(b, y, hidden + {x})
    case Assign(_, e1) => Occurs(e1, y, hidden)
    case CaseOf(x, e1, s, n) => Occurs(e1, y, hidden) || Occurs(s, y, hidden + {x}) || Occurs(n, y, hidden)
    case If(p, t, f) => Occurs(p, y, hidden) || Occurs(t, y, hidden) || Occurs(f, y, hidden)
    case BindTuple(e1, ts, b) => Occurs(e1, y, hidden + All(ts)) || Occurs(b, y, hidden + All(ts))
    case BindRecord(e1, ids, b) => Occurs(e1, y, hidden + All(Targets(ids))) || Occurs(b, y, hidden + All(Targets(ids)))
  }

  predicate AnyOccurs(es: seq<Expr>, y: string, hidden: set<string>) {
    es != [] && (Occurs(es[0], y, hidden) || AnyOccurs(es[1..], y, hidden))
  }

  function All(xs: seq<string>): set<string> { set x | x in xs :: x }

  /** The free variables are the names that occur unhidden. */
  lemma {:induction false} FreeVariablesExact(e: Expr, y: string, hidden: set<string>)
    ensures Occurs(e, y, hidden) <==> y !in hidden && y in FreeVariables(e)
  {
    match e
    case Const(_) =>
    case Var(_) =>
    case Form(_, es) => FreeInAllExact(es, y, hidden);
    case Lambda(x, b) => FreeVariablesExact(b, y, hidden + {x});
    case App(fn, arg) => FreeVariablesExact(fn, y, hidden); FreeVariablesExact(arg, y, hidden);
    case Sequence(l, r) => FreeVariablesExact(l, y, hidden); FreeVariablesExact(r, y, hidden);
    case LetIn(x, i, b) => FreeVariablesExact(i, y, hidden + {x}); FreeVariablesExact(b, y, hidden + {x});
    case Assign(_, e1) => FreeVariablesExact(e1, y, hidden);
    case CaseOf(x, e1, s, n) =>
      FreeVariablesExact(e1, y, hidden);
      FreeVariablesExact(s, y, hidden + {x});
      FreeVariablesExact(n, y, hidden);
    case If(p, t, f) => FreeVariablesExact(p, y, hidden); FreeVariablesExact(t, y, hidden); FreeVariablesExact(f, y, hidden);
    case BindTuple(e1, ts, b) => FreeVariablesExact(e1, y, hidden + All(ts)); FreeVariablesExact(b, y, hidden + All(ts));
    case BindRecord(e1, ids, b) =>
      FreeVariablesExact(e1, y, hidden + All(Targets(ids)));
      FreeVariablesExact(b, y, hidden + All(Targets(ids)));
  }

  lemma FreeInAllExact(es: seq<Expr>, y: string, hidden: set<string>)
    ensures AnyOccurs(es, y, hidden) <==> y !in hidden && y in FreeInAll(es)
  {
    if es != [] {
      FreeVariablesExact(es[0], y, hidden);
      FreeInAllExact(es[1..], y, hidden);
    }
  }

  /* ---------- Enough to evaluate ---------- */

  /** No let mentions its own name in the expression it binds it to. */
  predicate Proper(e: Expr) {
    match e
    case Const(_) => true
    case Var(_) => true
    case Form(_, es) => AllProper(es)
    case Lambda(_, b) => true
    case App(fn, arg) => Proper(fn) && Proper(arg)
    case Sequence(l, r) => Proper(l) && Proper(r)
    case LetIn(x, i, b) => Proper(i) && Proper(b) && x !in FreeVariables(i)
    case Assign(_, e1) => Proper(e1)
    case CaseOf(_, e1, s, n) => Proper(e1) && Proper(s) && Proper(n)
    case If(p, t, f) => Proper(p) && Proper(t) && Proper(f)
    case BindTuple(e1, _, b) => Proper(e1) && Proper(b)
    case BindRecord(e1, _, b) => Proper(e1) && Proper(b)
  }

  predicate AllProper(es: seq<Expr>) {
    es == [] || (Proper(es[0]) && AllProper(es[1..]))
  }

  /** The environments agree on the names. */
  ghost predicate AgreeOn(xs: seq<string>, env: Env, env': Env) { forall y :: y in xs ==> LookupE(env, y) == LookupE(env', y) }

  lemma AgreeUnder(xs: seq<string>, x: string, v: Value, env: Env, env': Env)
    requires forall y :: y in xs && y != x ==> LookupE(env, y) == LookupE(env', y)
    ensures AgreeOn(xs, [(x, v)] + env, [(x, v)] + env')
  {
    forall y | y in xs ensures LookupE([(x, v)] + env, y) == LookupE([(x, v)] + env', y) {
      LookupConcat([(x, v)], env, y);
      LookupConcat([(x, v)], env', y);
    }
  }

  /** A quiet expression depends on its free variables only. */
  lemma {:induction false} FreeVariablesSuffice(g: set<string>, n: nat, e: Expr, env: Env, env': Env)
    requires Quiet(e) && Proper(e) && AgreeOn(FreeVariables(e), env, env')
    ensures SameResult(Eval(g, n, e, env), Eval(g, n, e, env'))
    decreases n, 0
  {
    if n > 0 {
      match e
      case Const(_) =>
      case Var(x) =>
      case Form(f, es) => FormSuffices(g, n - 1, f, es, env, env');
      case Lambda(x, b) => SameLookupAll(env, env', CaptureNames(g, x, b));
      case Sequence(l, r) => SequenceSuffices(g, n - 1, l, r, env, env');
      case LetIn(x, i, b) => LetSuffices(g, n - 1, x, i, b, env, env');
      case CaseOf(x, e1, s, no) => CaseSuffices(g, n - 1, x, e1, s, no, env, env');
      case If(p, t, f) => IfSuffices(g, n - 1, p, t, f, env, env');
    }
  }

  lemma SequenceSuffices(g: set<string>, n: nat, l: Expr, r: Expr, env: Env, env': Env)
    requires Quiet(l) && Quiet(r) && Proper(l) && Proper(r) && AgreeOn(FreeVariables(Sequence(l, r)), env, env')
    ensures SameResult(Eval(g, n + 1, Sequence(l, r), env), Eval(g, n + 1, Sequence(l, r), env'))
    decreases n, 2
  {
    FreeVariablesSuffice(g, n, l, env, env');
    FreeVariablesSuffice(g, n, r, env, env');
    QuietKeepsEnv(g, n, l, env);
    QuietKeepsEnv(g, n, l, env');
  }

  lemma IfSuffices(g: set<string>, n: nat, p: Expr, t: Expr, f: Expr, env: Env, env': Env)
    requires Quiet(If(p, t, f)) && Proper(If(p, t, f)) && AgreeOn(FreeVariables(If(p, t, f)), env, env')
    ensures SameResult(Eval(g, n + 1, If(p, t, f), env), Eval(g, n + 1, If(p, t, f), env'))
    decreases n, 2
  {
    FreeVariablesSuffice(g, n, p, env, env');
    FreeVariablesSuffice(g, n, t, env, env');
    FreeVariablesSuffice(g, n, f, env, env');
    QuietKeepsEnv(g, n, p, env);
    QuietKeepsEnv(g, n, p, env');
  }

  lemma ScopeSuffices(g: set<string>, n: nat, b: Expr, x: string, v: Value, env: Env, env': Env)
    requires Quiet(b) && Proper(b) && forall y :: y in FreeVariables(b) && y != x ==> LookupE(env, y) == LookupE(env', y)
    ensures SameResult(Scoped(g, n, b, [(x, v)], Nothing, env), Scoped(g, n, b, [(x, v)], Nothing, env'))
    decreases n, 1
  {
    AgreeUnder(FreeVariables(b), x, v, env, env');
    FreeVariablesSuffice(g, n, b, [(x, v)] + env, [(x, v)] + env');
  }

  lemma LetSuffices(g: set<string>, n: nat, x: string, i: Expr, b: Expr, env: Env, env': Env)
    requires Quiet(LetIn(x, i, b)) && Proper(LetIn(x, i, b)) && AgreeOn(FreeVariables(LetIn(x, i, b)), env, env')
    ensures SameResult(Eval(g, n + 1, LetIn(x, i, b), env), Eval(g, n + 1, LetIn(x, i, b), env'))
    decreases n, 2
  {
    FreeVariablesSuffice(g, n, i, env, env');
    QuietKeepsEnv(g, n, i, env);
    QuietKeepsEnv(g, n, i, env');
    var o := Eval(g, n, i, env);
    if o.Done? { ScopeSuffices(g, n, b, x, o.v, env, env'); }
  }

  lemma CaseSuffices(g: set<string>, n: nat, x: string, e1: Expr, s: Expr, no: Expr, env: Env, env': Env)
    requires Quiet(CaseOf(x, e1, s, no)) && Proper(CaseOf(x, e1, s, no)) && AgreeOn(FreeVariables(CaseOf(x, e1, s, no)), env, env')
    ensures SameResult(Eval(g, n + 1, CaseOf(x, e1, s, no), env), Eval(g, n + 1, CaseOf(x, e1, s, no), env'))
    decreases n, 2
  {
    FreeVariablesSuffice(g, n, e1, env, env');
    QuietKeepsEnv(g, n, e1, env);
    QuietKeepsEnv(g, n, e1, env');
    var o := Eval(g, n, e1, env);
    if o.Done? && o.v.Opt? {
      if o.v.o.Some? { ScopeSuffices(g, n, s, x, o.v.o.value, env, env'); }
      else { FreeVariablesSuffice(g, n, no, env, env'); }
    }
  }

  lemma AllSuffice(g: set<string>, n: nat, es: seq<Expr>, env: Env, env': Env)
    requires AllQuiet(es) && AllProper(es) && AgreeOn(FreeInAll(es), env, env')
    ensures SameResult(EvalAll(g, n, es, env), EvalAll(g, n, es, env'))
    decreases n, |es| + 1
  {
    if es != [] {
      FreeVariablesSuffice(g, n, es[0], env, env');
      QuietKeepsEnv(g, n, es[0], env);
      QuietKeepsEnv(g, n, es[0], env');
      AllSuffice(g, n, es[1..], env, env');
    }
  }

  lemma FormSuffices(g: set<string>, n: nat, f: Former, es: seq<Expr>, env: Env, env': Env)
    requires AllQuiet(es) && AllProper(es) && AgreeOn(FreeInAll(es), env, env')
    ensures SameResult(EvalForm(g, n, f, es, env), EvalForm(g, n, f, es, env'))
    decreases n, |es| + 2
  {
    AllSuffice(g, n, es, env, env');
  }

  lemma {:induction false} CapturedNames(env: Env, xs: seq<string>)
    requires LookupAll(env, xs).Found?
    ensures Names(LookupAll(env, xs).cl) == xs
    decreases |xs|
  {
    if xs != [] { CapturedNames(env, xs[1..]); }
  }

  /** What a function value has captured is enough: made anywhere and applied to the same argument in any two
      environments, a quiet body gives the same result. */
  lemma AppliedAnywhere(n: nat, x: string, b: Expr, made: Env, v: Value, env: Env, env': Env)
    requires Quiet(b) && Proper(b) && LookupAll(made, CaptureNames({}, x, b)).Found?
    ensures var p := [(x, v)] + LookupAll(made, CaptureNames({}, x, b)).cl;
      SameResult(Scoped({}, n, b, p, Nothing, env), Scoped({}, n, b, p, Nothing, env'))
  {
    var xs := CaptureNames({}, x, b);
    var cl := LookupAll(made, xs).cl;
    var p := [(x, v)] + cl;
    CapturedNames(made, xs);
    NamesConcat([(x, v)], cl);
    forall y | y in FreeVariables(b) ensures LookupE(p + env, y) == LookupE(p + env', y) {
      LookupIffNamed(p, y);
      LookupConcat(p, env, y);
      LookupConcat(p, env', y);
      if y == x { assert Names(p)[0] == x; } else { assert y in xs; }
    }
    FreeVariablesSuffice({}, n, b, p + env, p + env');
  }
}
