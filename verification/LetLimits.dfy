/** Where the rewrite of applied lambdas changes what a program does: inputs outside the conditions
    under which it is proved to preserve meaning. */
module LetLimits {
  import opened Options
  import opened Scalars
  import opened Environments
  import opened Interp
  import opened LetRewrite

  lemma ScopedPure(g: set<string>, n: nat, b: Expr, pushed: Env, env: Env, v: Value)
    requires Eval(g, n, b, pushed + env) == Done(v, pushed + env)
    ensures Scoped(g, n, b, pushed, Nothing, env) == Done(v, env)
  {
    ScopedKeepsNames(g, n, b, pushed, Nothing, env);
  }

  const ONE := Sc(Int(1))
  const TWO := Sc(Int(2))

  const READS_X := Var("x")

  lemma LambdaReadsX(n: nat, arg: Expr, v: Value, u: Value, env: Env, env': Env)
    requires n > 0 && LookupE(env, "x") == Some(v) && Eval({}, n, arg, env) == Done(u, env')
    ensures Eval({}, n + 1, App(Lambda("y", READS_X), arg), env) == Done(v, env')
  {
    var cl: Env := [("x", v)];
    assert CaptureNames({}, "y", READS_X) == ["x"];
    assert LookupAll(env, ["x"]) == Found(cl) by { assert LookupAll(env, ["x"][1..]) == Found([]); }
    assert Eval({}, n, Lambda("y", READS_X), env) == Done(Closure("y", READS_X, cl), env);
    var p: Env := [("y", u)] + cl;
    LookupConcat(p, env', "x");
    assert LookupE(p, "x") == Some(v) by { assert p[1..] == cl; }
    ScopedPure({}, n, READS_X, p, env', v);
  }

  lemma LetReadsX(n: nat, arg: Expr, w: Value, u: Value, env: Env, env': Env)
    requires n > 0 && LookupE(env', "x") == Some(w) && Eval({}, n, arg, env) == Done(u, env')
    ensures Eval({}, n + 1, LetIn("y", arg, READS_X), env) == Done(w, env')
  {
    var p: Env := [("y", u)];
    LookupConcat(p, env', "x");
    ScopedPure({}, n, READS_X, p, env', w);
  }

  const SETS_X := Assign("x", Const(Plain(Int(2))))
  const SETTER := Closure("p", SETS_X, [])

  /** (\y -> x) (x = 2): the lambda captures x before the argument assigns it, the let reads it
      after. */
  lemma AssigningArgumentTellsApart()
    ensures var e := App(Lambda("y", READS_X), SETS_X);
      && Eval({}, 3, e, [("x", ONE)]) == Done(ONE, [("x", TWO)])
      && Eval({}, 3, Rewrite(e), [("x", ONE)]) == Done(TWO, [("x", TWO)])
  {
    var env1: Env := [("x", ONE)];
    assert ReplaceE(env1, "x", TWO) == [("x", TWO)];
    assert Eval({}, 1, Const(Plain(Int(2))), env1) == Done(TWO, env1);
    assert Eval({}, 2, SETS_X, env1) == Done(UNIT, [("x", TWO)]);
    assert Rewrite(SETS_X) == SETS_X;
    LambdaReadsX(2, SETS_X, ONE, UNIT, env1, [("x", TWO)]);
    LetReadsX(2, SETS_X, TWO, UNIT, env1, [("x", TWO)]);
  }

  lemma CallSetsX()
    ensures Eval({}, 3, App(Var("f"), Const(NoneOf)), [("x", ONE), ("f", SETTER)]) == Done(UNIT, [("x", TWO), ("f", SETTER)])
  {
    var env1: Env := [("x", ONE), ("f", SETTER)];
    var env2: Env := [("x", TWO), ("f", SETTER)];
    var p: Env := [("p", Opt(None))];
    assert LookupE(env1, "f") == Some(SETTER) by { assert env1[1..] == [("f", SETTER)]; }
    assert Eval({}, 2, Var("f"), env1) == Done(SETTER, env1);
    assert Eval({}, 2, Const(NoneOf), env1) == Done(Opt(None), env1);
    SetterRuns(p, env1, env2);
    assert [("p", Opt(None))] + SETTER.cl == p;
  }

  lemma SetterRuns(p: Env, env1: Env, env2: Env)
    requires p == [("p", Opt(None))] && env1 == [("x", ONE), ("f", SETTER)] && env2 == [("x", TWO), ("f", SETTER)]
    ensures Scoped({}, 2, SETS_X, p, Nothing, env1) == Done(UNIT, env2)
  {
    LookupConcat(p, env1, "x");
    assert ReplaceE(p + env1, "x", TWO) == p + env2;
    assert Eval({}, 1, Const(Plain(Int(2))), p + env1) == Done(TWO, p + env1);
    assert Eval({}, 2, SETS_X, p + env1) == Done(UNIT, p + env2);
    ScopedKeepsNames({}, 2, SETS_X, p, Nothing, env1);
    assert Names(p) == ["p"];
    RemovesParameter(p + env2);
    assert (p + env2)[1..] == env2;
  }

  /** (\y -> x) (f none), where f assigns x: the call changes x behind the lambda's back. */
  lemma CallingArgumentTellsApart()
    ensures var e, env1, env2 := App(Lambda("y", READS_X), App(Var("f"), Const(NoneOf))),
          [("x", ONE), ("f", SETTER)], [("x", TWO), ("f", SETTER)];
      Eval({}, 4, e, env1) == Done(ONE, env2) && Eval({}, 4, Rewrite(e), env1) == Done(TWO, env2)
  {
    var arg := App(Var("f"), Const(NoneOf));
    CallSetsX();
    assert Rewrite(arg) == arg;
    LambdaReadsX(3, arg, ONE, UNIT, [("x", ONE), ("f", SETTER)], [("x", TWO), ("f", SETTER)]);
    LetReadsX(3, arg, TWO, UNIT, [("x", ONE), ("f", SETTER)], [("x", TWO), ("f", SETTER)]);
  }

  lemma RemovesParameter(env: Env)
    requires env != [] && env[0].0 == "p"
    ensures RemoveAllE(env, ["p"]) == env[1..]
  {}

  const SETS_A := Assign("a", Const(Plain(Int(2))))

  lemma BindSetsX()
    ensures Eval({}, 3, BindTuple(READS_X, ["a"], SETS_A), [("x", Tuple([ONE]))]) == Done(UNIT, [("x", Tuple([TWO]))])
  {
    var env1: Env := [("x", Tuple([ONE]))];
    var p: Env := [("a", ONE)];
    assert Eval({}, 2, READS_X, env1) == Done(Tuple([ONE]), env1);
    assert Zip(["a"], [ONE]) == p;
    BindRuns(p, env1, [("a", TWO), ("x", Tuple([ONE]))], [("a", TWO), ("x", Tuple([TWO]))]);
  }

  lemma BindRuns(p: Env, env1: Env, in1: Env, in2: Env)
    requires p == [("a", ONE)] && env1 == [("x", Tuple([ONE]))]
    requires in1 == [("a", TWO), ("x", Tuple([ONE]))] && in2 == [("a", TWO), ("x", Tuple([TWO]))]
    ensures Scoped({}, 2, SETS_A, p, FromTuple("x", ["a"]), env1) == Done(UNIT, [("x", Tuple([TWO]))])
  {
    assert ReplaceE(p + env1, "a", TWO) == in1;
    assert Eval({}, 1, Const(Plain(Int(2))), p + env1) == Done(TWO, p + env1);
    assert Eval({}, 2, SETS_A, p + env1) == Done(UNIT, in1);
    assert LookupAll(in1, ["a"]) == Found([("a", TWO)]) by { assert LookupAll(in1, ["a"][1..]) == Found([]); }
    assert Values([("a", TWO)]) == [TWO];
    assert ReplaceE(in1, "x", Tuple([TWO])) == in2;
    assert Names(p) == ["a"];
    assert RemoveAllE(in2, ["a"]) == in2[1..];
  }

  /** (\y -> x) (bind x as (a) in a = 2): the end of the bind writes the tuple back to x. */
  lemma BindingArgumentTellsApart()
    ensures var e, env1, env2 := App(Lambda("y", READS_X), BindTuple(READS_X, ["a"], SETS_A)),
          [("x", Tuple([ONE]))], [("x", Tuple([TWO]))];
      Eval({}, 4, e, env1) == Done(Tuple([ONE]), env2) && Eval({}, 4, Rewrite(e), env1) == Done(Tuple([TWO]), env2)
  {
    var arg := BindTuple(READS_X, ["a"], SETS_A);
    BindSetsX();
    assert Rewrite(arg) == arg;
    LambdaReadsX(3, arg, Tuple([ONE]), UNIT, [("x", Tuple([ONE]))], [("x", Tuple([TWO]))]);
    LetReadsX(3, arg, Tuple([TWO]), UNIT, [("x", Tuple([ONE]))], [("x", Tuple([TWO]))]);
  }

  /** (\y -> if true then 1 else z) 2 with z unbound: the original fails to capture z, the rewrite
      never looks it up. */
  lemma MissingCaptureIsRepaired()
    ensures var e := App(Lambda("y", If(Const(Plain(Bool(true))), Const(Plain(Int(1))), Var("z"))), Const(Plain(Int(2))));
      && Rewritable(e)
      && Eval({}, 3, e, []) == Fail(UnknownCapture("z"), [])
      && Eval({}, 3, Rewrite(e), []) == Done(ONE, [])
  {
    var body := If(Const(Plain(Bool(true))), Const(Plain(Int(1))), Var("z"));
    assert FreeVariables(body) == ["z"];
    assert CaptureNames({}, "y", body) == ["z"];
    assert Eval({}, 2, Lambda("y", body), []) == Fail(UnknownCapture("z"), []);
    var p: Env := [("y", TWO)];
    assert Eval({}, 1, Const(Plain(Bool(true))), p + []) == Done(Sc(Bool(true)), p + []);
    ScopedPure({}, 2, body, p, [], ONE);
  }

  /** \y -> (\x -> x) x, where the argument mentions the parameter it is passed to. */
  const LOSING := Lambda("y", App(Lambda("x", Var("x")), Var("x")))
  const FIVE := Sc(Int(5))

  /** The rewritten function no longer captures x, because a let hides its name in the expression it
      is bound to. */
  lemma OwnNameLosesCapture(n: nat, env: Env)
    requires n > 0 && LookupE(env, "x") == Some(FIVE)
    ensures Eval({}, n, LOSING, env) == Done(Closure("y", LOSING.body, [("x", FIVE)]), env)
    ensures Eval({}, n, Rewrite(LOSING), env) == Done(Closure("y", Rewrite(LOSING.body), []), env)
  {
    assert FreeVariables(Lambda("x", Var("x"))) == [];
    assert FreeVariables(LOSING.body) == ["x"];
    assert CaptureNames({}, "y", LOSING.body) == ["x"];
    assert LookupAll(env, ["x"]) == Found([("x", FIVE)]) by { assert LookupAll(env, ["x"][1..]) == Found([]); }
    var b := LetIn("x", Var("x"), Var("x"));
    assert Rewrite(LOSING.body) == b;
    assert FreeVariables(Var("x")) + FreeVariables(Var("x")) == ["x", "x"];
    assert FreeVariables(b) == [];
    assert CaptureNames({}, "y", b) == [];
  }

  /** (let x = 5 in \y -> (\x -> x) x) none: where x is out of scope again the original returns
      the captured value and the rewrite fails. */
  lemma LostCaptureFails()
    ensures var e := App(LetIn("x", Const(Plain(Int(5))), LOSING), Const(NoneOf));
      && Eval({}, 6, e, []) == Done(FIVE, [])
      && Eval({}, 6, Rewrite(e), []).Fail? && Eval({}, 6, Rewrite(e), []).err == UnknownVariable("x")
  {
    MadeBefore();
    MadeAfter();
    CapturedRuns([("x", FIVE)]);
    LostRuns();
  }

  lemma MadeBefore()
    ensures Eval({}, 5, LetIn("x", Const(Plain(Int(5))), LOSING), []) == Done(Closure("y", LOSING.body, [("x", FIVE)]), [])
  {
    var p: Env := [("x", FIVE)];
    OwnNameLosesCapture(4, p + []);
    ScopedPure({}, 4, LOSING, p, [], Closure("y", LOSING.body, p));
  }

  lemma MadeAfter()
    ensures Eval({}, 5, LetIn("x", Const(Plain(Int(5))), Rewrite(LOSING)), []) == Done(Closure("y", Rewrite(LOSING.body), []), [])
  {
    var p: Env := [("x", FIVE)];
    OwnNameLosesCapture(4, p + []);
    ScopedPure({}, 4, Rewrite(LOSING), p, [], Closure("y", Rewrite(LOSING.body), []));
  }

  lemma CapturedRuns(p: Env)
    requires p == [("x", FIVE)]
    ensures Scoped({}, 5, LOSING.body, [("y", Opt(None))] + p, Nothing, []) == Done(FIVE, [])
  {
    var q: Env := [("y", Opt(None))] + p;
    LookupConcat(q, [], "x");
    assert CaptureNames({}, "x", Var("x")) == [];
    assert Eval({}, 4, Lambda("x", Var("x")), q + []) == Done(Closure("x", Var("x"), []), q + []);
    assert Eval({}, 4, Var("x"), q + []) == Done(FIVE, q + []);
    assert [("x", FIVE)] + [] == p;
    ScopedPure({}, 4, Var("x"), p, q + [], FIVE);
    assert Eval({}, 5, LOSING.body, q + []) == Done(FIVE, q + []);
    ScopedPure({}, 5, LOSING.body, q, [], FIVE);
  }

  lemma LostRuns()
    ensures var o := Scoped({}, 5, Rewrite(LOSING.body), [("y", Opt(None))] + [], Nothing, []);
      o.Fail? && o.err == UnknownVariable("x")
  {
    var q: Env := [("y", Opt(None))] + [];
    LookupConcat(q, [], "x");
    assert Rewrite(LOSING.body) == LetIn("x", Var("x"), Var("x"));
    assert Eval({}, 4, Var("x"), q + []) == Fail(UnknownVariable("x"), q + []);
  }
}
