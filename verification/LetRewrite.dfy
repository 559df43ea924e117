/** The code generator rewrites an applied lambda into a let, everywhere in an expression. The two
    programs mean the same, though the lambda captured its variables and the let does not. */
module LetRewrite {
  import opened Options
  import opened Scalars
  import opened Environments
  import opened Interp

  /* ---------- The rewrite ---------- */

  function Rewrite(e: Expr): Expr {
    match e
    case Const(_) => e
    case Var(_) => e
    case Form(f, es) => Form(f, RewriteAll(es))
    case Lambda(x, b) => Lambda(x, Rewrite(b))
    case App(fn, arg) =>
      if fn.Lambda? then LetIn(fn.x, Rewrite(arg), Rewrite(fn.body)) else App(Rewrite(fn), Rewrite(arg))
    case Sequence(l, r) => Sequence(Rewrite(l), Rewrite(r))
    case LetIn(x, i, b) => LetIn(x, Rewrite(i), Rewrite(b))
    case Assign(x, e1) => Assign(x, Rewrite(e1))
    case CaseOf(x, e1, s, n) => CaseOf(x, Rewrite(e1), Rewrite(s), Rewrite(n))
    case If(p, t, f) => If(Rewrite(p), Rewrite(t), Rewrite(f))
    case BindTuple(e1, ts, b) => BindTuple(Rewrite(e1), ts, Rewrite(b))
    case BindRecord(e1, ids, b) => BindRecord(Rewrite(e1), ids, Rewrite(b))
  }

  function RewriteAll(es: seq<Expr>): (r: seq<Expr>)
    ensures |r| == |es|
  {
    if es == [] then [] else [Rewrite(es[0])] + RewriteAll(es[1..])
  }

  /* ---------- When it is sound ---------- */

  /** Outside the bodies of function values: no application but of a lambda on the spot, no assignment to
      a kept name and no bind that writes back to one. */
  predicate Tame(e: Expr, kept: set<string>) {
    match e
    case Const(_) => true
    case Var(_) => true
    case Form(_, es) => AllTame(es, kept)
    case Lambda(_, _) => true
    case App(fn, arg) => fn.Lambda? && Tame(fn.body, kept) && Tame(arg, kept)
    case Sequence(l, r) => Tame(l, kept) && Tame(r, kept)
    case LetIn(_, i, b) => Tame(i, kept) && Tame(b, kept)
    case Assign(x, e1) => x !in kept && Tame(e1, kept)
    case CaseOf(_, e1, s, n) => Tame(e1, kept) && Tame(s, kept) && Tame(n, kept)
    case If(p, t, f) => Tame(p, kept) && Tame(t, kept) && Tame(f, kept)
    case BindTuple(e1, _, b) => Tame(e1, kept) && Tame(b, kept) && (e1.Var? ==> e1.x !in kept)
    case BindRecord(e1, _, b) => Tame(e1, kept) && Tame(b, kept) && (e1.Var? ==> e1.x !in kept)
  }

  predicate AllTame(es: seq<Expr>, kept: set<string>) {
    es == [] || (Tame(es[0], kept) && AllTame(es[1..], kept))
  }

  /** What a lambda may capture, wherever it stands. */
  function Capturable(x: string, b: Expr): set<string> { set y | y in FreeVariables(b) && y != x :: y }

  /** The rewrite leaves unchanged which names the function value captures. */
  ghost predicate SameCapture(x: string, b: Expr) {
    forall y :: y != x ==> (y in FreeVariables(b) <==> y in FreeVariables(Rewrite(b)))
  }

  /** Arguments of applied lambdas are tame for what the lambda may capture, and function values that
      stay capture the same names. */
  ghost predicate Rewritable(e: Expr) {
    match e
    case Const(_) => true
    case Var(_) => true
    case Form(_, es) => AllRewritable(es)
    case Lambda(x, b) => SameCapture(x, b) && Rewritable(b)
    case App(fn, arg) =>
      Rewritable(arg) && if fn.Lambda? then Tame(arg, Capturable(fn.x, fn.body)) && Rewritable(fn.body) else Rewritable(fn)
    case Sequence(l, r) => Rewritable(l) && Rewritable(r)
    case LetIn(_, i, b) => Rewritable(i) && Rewritable(b)
    case Assign(_, e1) => Rewritable(e1)
    case CaseOf(_, e1, s, n) => Rewritable(e1) && Rewritable(s) && Rewritable(n)
    case If(p, t, f) => Rewritable(p) && Rewritable(t) && Rewritable(f)
    case BindTuple(e1, _, b) => Rewritable(e1) && Rewritable(b)
    case BindRecord(e1, _, b) => Rewritable(e1) && Rewritable(b)
  }

  ghost predicate AllRewritable(es: seq<Expr>) {
    es == [] || (Rewritable(es[0]) && AllRewritable(es[1..]))
  }

  /* ---------- Related values and environments ---------- */

  /** Data are the same; functions have rewritten bodies and agree on what they captured. */
  ghost predicate RelV(v: Value, w: Value)
    decreases v
  {
    match v
    case Sc(_) => w == v
    case Opt(o) => w.Opt? && (o.None? <==> w.o.None?) && (o.Some? ==> RelV(o.value, w.o.value))
    case Tuple(vs) => w.Tuple? && |w.vs| == |vs| && forall i :: 0 <= i < |vs| ==> RelV(vs[i], w.vs[i])
    case Record(fs) =>
      w.Record? && |w.fields| == |fs|
      && forall i :: 0 <= i < |fs| ==> fs[i].0 == w.fields[i].0 && RelV(fs[i].1, w.fields[i].1)
    case Closure(x, b, cl) =>
      && w.Closure? && w.x == x && w.body == Rewrite(b) && Rewritable(b)
      && forall y ::
           && (LookupE(cl, y).None? <==> LookupE(w.cl, y).None?)
           && (LookupE(cl, y).Some? ==> RelV(LookupE(cl, y).value, LookupE(w.cl, y).value))
  }

  /** The name is bound in both or in neither, and its topmost values are related. */
  ghost predicate RelName(a: Env, b: Env, y: string) {
    RelO(LookupE(a, y), LookupE(b, y))
  }

  ghost predicate RelEnv(a: Env, b: Env) {
    forall y :: RelName(a, b, y)
  }

  ghost predicate RelO(a: Option<Value>, b: Option<Value>) {
    (a.None? <==> b.None?) && (a.Some? ==> RelV(a.value, b.value))
  }

  /** Related as wholes and below one boundary: a and b count the bindings above it. */
  ghost predicate RelAt(env: Env, env': Env, a: nat, b: nat) {
    a <= |env| && b <= |env'| && RelEnv(env, env') && RelEnv(env[a..], env'[b..])
  }

  /** The outcomes agree, unless the original fails for want of a captured name. */
  ghost predicate RelOut(r: Outcome, r': Outcome, a: nat, b: nat) {
    match r
    case Timeout => r'.Timeout?
    case Fail(err, _) => err.UnknownCapture? || (r'.Fail? && r'.err == err)
    case Done(v, env) => r'.Done? && RelV(v, r'.v) && RelAt(env, r'.env, a, b)
  }

  ghost predicate RelFields(fs: Bindings<Value>, gs: Bindings<Value>) {
    |gs| == |fs| && forall i :: 0 <= i < |fs| ==> fs[i].0 == gs[i].0 && RelV(fs[i].1, gs[i].1)
  }

  ghost predicate RelRefresh(r: Refresh, r': Refresh) {
    match r
    case Nothing => r'.Nothing?
    case FromTuple(_, _) => r' == r
    case FromRecord(x, ids, was) => r'.FromRecord? && r'.x == x && r'.ids == ids && RelFields(was, r'.was)
  }

  /* ---------- What keeps environments related ---------- */

  lemma RelConcat(p: Env, p': Env, env: Env, env': Env)
    requires RelEnv(p, p') && RelEnv(env, env')
    ensures RelEnv(p + env, p' + env')
  {
    forall y ensures RelName(p + env, p' + env', y) {
      LookupConcat(p, env, y);
      LookupConcat(p', env', y);
      assert RelName(p, p', y) && RelName(env, env', y);
    }
  }

  lemma RelReplace(env: Env, env': Env, x: string, v: Value, w: Value)
    requires RelEnv(env, env') && RelV(v, w)
    ensures RelEnv(ReplaceE(env, x, v), ReplaceE(env', x, w))
  {
    forall y ensures RelName(ReplaceE(env, x, v), ReplaceE(env', x, w), y) {
      LookupReplaced(env, x, v, y);
      LookupReplaced(env', x, w, y);
      assert RelName(env, env', y) && RelName(env, env', x);
    }
  }

  lemma RelReplaceAt(env: Env, env': Env, x: string, v: Value, w: Value, a: nat, b: nat)
    requires RelAt(env, env', a, b) && RelV(v, w)
    ensures RelAt(ReplaceE(env, x, v), ReplaceE(env', x, w), a, b)
  {
    RelReplace(env, env', x, v, w);
    RelReplace(env[a..], env'[b..], x, v, w);
    assert ReplaceE(env, x, v)[a..] == ReplaceE(env[a..], x, v);
    assert ReplaceE(env', x, w)[b..] == ReplaceE(env'[b..], x, w);
  }

  lemma {:induction false} RelFieldsLookup(fs: Bindings<Value>, gs: Bindings<Value>, y: string)
    requires RelFields(fs, gs)
    ensures RelName(fs, gs, y)
    decreases |fs|
  {
    if fs != [] && fs[0].0 != y { RelFieldsLookup(fs[1..], gs[1..], y); }
  }

  lemma RelFieldsEnv(fs: Bindings<Value>, gs: Bindings<Value>)
    requires RelFields(fs, gs)
    ensures RelEnv(fs, gs)
  {
    forall y ensures RelName(fs, gs, y) { RelFieldsLookup(fs, gs, y); }
  }

  lemma {:induction false} RelLookupAll(env: Env, env': Env, xs: seq<string>)
    requires RelEnv(env, env')
    ensures var r, r' := LookupAll(env, xs), LookupAll(env', xs);
      if r.Missing? then r' == r else r'.Found? && RelFields(r.cl, r'.cl)
    decreases |xs|
  {
    if xs != [] {
      assert RelName(env, env', xs[0]);
      RelLookupAll(env, env', xs[1..]);
    }
  }

  lemma RelFieldsCons(x: (string, Value), y: (string, Value), fs: Bindings<Value>, gs: Bindings<Value>)
    requires x.0 == y.0 && RelV(x.1, y.1) && RelFields(fs, gs)
    ensures RelFields([x] + fs, [y] + gs)
  {}

  lemma {:induction false} RelRebuild(env: Env, env': Env, ids: seq<(string, string)>, was: Bindings<Value>, was': Bindings<Value>)
    requires RelEnv(env, env') && RelFields(was, was')
    ensures var r, r' := Rebuild(env, ids, was), Rebuild(env', ids, was');
      if r.Missing? then r' == r else r'.Found? && RelFields(r.cl, r'.cl)
    decreases |was|
  {
    if was != [] {
      RelRebuild(env, env', ids, was[1..], was'[1..]);
      var rest, rest' := Rebuild(env, ids, was[1..]), Rebuild(env', ids, was'[1..]);
      match LookupE(ids, was[0].0)
      case None => if rest.Found? { RelFieldsCons(was[0], was'[0], rest.cl, rest'.cl); }
      case Some(name) =>
        assert RelName(env, env', name);
        if rest.Found? && LookupE(env, name).Some? {
          var v, v' := LookupE(env, name).value, LookupE(env', name).value;
          RelFieldsCons((was[0].0, v), (was[0].0, v'), rest.cl, rest'.cl);
        }
    }
  }

  lemma RelDoRefresh(r: Refresh, r': Refresh, env: Env, env': Env, a: nat, b: nat)
    requires RelRefresh(r, r') && RelAt(env, env', a, b)
    ensures var f, f' := DoRefresh(r, env), DoRefresh(r', env');
      if f.Unknown? then f' == f else f'.Fresh? && RelAt(f.env, f'.env, a, b)
  {
    match r
    case Nothing =>
    case FromTuple(x, ts) =>
      RelLookupAll(env, env', ts);
      var c, c' := LookupAll(env, ts), LookupAll(env', ts);
      if c.Found? { RelReplaceAt(env, env', x, Tuple(Values(c.cl)), Tuple(Values(c'.cl)), a, b); }
    case FromRecord(x, ids, was) =>
      RelRebuild(env, env', ids, was, r'.was);
      var c, c' := Rebuild(env, ids, was), Rebuild(env', ids, r'.was);
      if c.Found? { RelReplaceAt(env, env', x, Record(c.cl), Record(c'.cl), a, b); }
  }

  /* ---------- Capture ---------- */

  /** Captured names have the values they had in the environment. */
  lemma {:induction false} CapturedLookup(env: Env, xs: seq<string>, y: string)
    requires LookupAll(env, xs).Found?
    ensures LookupE(LookupAll(env, xs).cl, y) == if y in xs then LookupE(env, y) else None
    decreases |xs|
  {
    if xs != [] {
      CapturedLookup(env, xs[1..], y);
      assert LookupAll(env, xs).cl[1..] == LookupAll(env, xs[1..]).cl;
    }
  }

  lemma {:induction false} CapturedIsBound(env: Env, xs: seq<string>, y: string)
    requires LookupAll(env, xs).Found? && y in xs
    ensures LookupE(env, y).Some?
    decreases |xs|
  {
    if y != xs[0] { CapturedIsBound(env, xs[1..], y); }
  }

  /** Two captures of the same names, in whatever order and however often. */
  lemma RelCapture(env: Env, env': Env, xs: seq<string>, xs': seq<string>)
    requires RelEnv(env, env') && forall y :: y in xs <==> y in xs'
    requires LookupAll(env, xs).Found?
    ensures LookupAll(env', xs').Found? && RelEnv(LookupAll(env, xs).cl, LookupAll(env', xs').cl)
  {
    forall y | y in xs' ensures LookupE(env', y).Some? {
      CapturedIsBound(env, xs, y);
      assert RelName(env, env', y);
    }
    var r' := LookupAll(env', xs');
    forall y ensures RelName(LookupAll(env, xs).cl, r'.cl, y) {
      CapturedLookup(env, xs, y);
      CapturedLookup(env', xs', y);
      assert RelName(env, env', y);
    }
  }

  /** Pushing a capture changes no lookup, as long as the captured names have not changed since. */
  lemma CaptureIsTransparent(env: Env, xs: seq<string>, env1: Env, y: string)
    requires LookupAll(env, xs).Found? && (y in xs ==> LookupE(env1, y) == LookupE(env, y))
    ensures LookupE(LookupAll(env, xs).cl + env1, y) == LookupE(env1, y)
  {
    LookupConcat(LookupAll(env, xs).cl, env1, y);
    CapturedLookup(env, xs, y);
  }

  /* ---------- Tame expressions ---------- */

  /** The same names, and the entries of kept names untouched. */
  ghost predicate Keeps(env: Env, env': Env, kept: set<string>) {
    |env'| == |env| && forall i :: 0 <= i < |env| ==> env'[i].0 == env[i].0 && (env[i].0 in kept ==> env'[i] == env[i])
  }

  lemma {:induction false} KeptLookup(env: Env, env': Env, kept: set<string>, y: string)
    requires Keeps(env, env', kept) && y in kept
    ensures LookupE(env', y) == LookupE(env, y)
    decreases |env|
  {
    if env != [] {
      assert env'[0].0 == env[0].0;
      KeptLookup(env[1..], env'[1..], kept, y);
    }
  }

  lemma KeptReplaced(env: Env, env': Env, kept: set<string>, x: string, v: Value)
    requires Keeps(env, env', kept) && x !in kept
    ensures Keeps(env, ReplaceE(env', x, v), kept)
  {}

  lemma KeptBelow(p: Env, env: Env, env': Env, kept: set<string>)
    requires Keeps(p + env, env', kept)
    ensures Keeps(env, env'[|p|..], kept)
  {
    forall i | 0 <= i < |env| ensures env'[|p|..][i].0 == env[i].0 && (env[i].0 in kept ==> env'[|p|..][i] == env[i]) {
      assert (p + env)[|p| + i] == env[i];
    }
  }

  predicate RefreshTame(r: Refresh, kept: set<string>) {
    match r
    case Nothing => true
    case FromTuple(x, _) => x !in kept
    case FromRecord(x, _, _) => x !in kept
  }

  lemma KeptRefreshed(r: Refresh, env: Env, env': Env, kept: set<string>)
    requires Keeps(env, env', kept) && RefreshTame(r, kept)
    ensures DoRefresh(r, env').Fresh? ==> Keeps(env, DoRefresh(r, env').env, kept)
  {
    match r
    case Nothing =>
    case FromTuple(x, ts) =>
      if LookupAll(env', ts).Found? { KeptReplaced(env, env', kept, x, Tuple(Values(LookupAll(env', ts).cl))); }
    case FromRecord(x, ids, was) =>
      if Rebuild(env', ids, was).Found? { KeptReplaced(env, env', kept, x, Record(Rebuild(env', ids, was).cl)); }
  }

  ghost predicate KeepsIn(o: Outcome, env: Env, kept: set<string>) { o.Done? ==> Keeps(env, o.env, kept) }

  /** A tame expression leaves the kept names alone, shadowed entries included. */
  lemma {:induction false} TameKeeps(globals: set<string>, n: nat, e: Expr, env: Env, kept: set<string>)
    requires Tame(e, kept)
    ensures KeepsIn(Eval(globals, n, e, env), env, kept)
    decreases n, 0
  {
    if n > 0 {
      match e
      case Form(_, es) => AllTameKeeps(globals, n - 1, es, env, kept);
      case App(fn, arg) => TameAppKeeps(globals, n - 1, fn.x, fn.body, arg, env, kept);
      case Sequence(l, r) =>
        TameKeeps(globals, n - 1, l, env, kept);
        var o := Eval(globals, n - 1, l, env);
        if o.Done? { TameKeeps(globals, n - 1, r, o.env, kept); }
      case LetIn(x, i, b) =>
        TameKeeps(globals, n - 1, i, env, kept);
        var o := Eval(globals, n - 1, i, env);
        if o.Done? { TameScope(globals, n - 1, b, [(x, o.v)], Nothing, o.env, kept); }
      case Assign(x, e1) =>
        TameKeeps(globals, n - 1, e1, env, kept);
        var o := Eval(globals, n - 1, e1, env);
        if o.Done? { KeptReplaced(env, o.env, kept, x, o.v); }
      case CaseOf(x, e1, s, no) => TameCaseKeeps(globals, n - 1, x, e1, s, no, env, kept);
      case If(p, t, f) => TameIfKeeps(globals, n - 1, p, t, f, env, kept);
      case BindTuple(e1, ts, b) =>
        TameKeeps(globals, n - 1, e1, env, kept);
        var o := Eval(globals, n - 1, e1, env);
        if o.Done? && o.v.Tuple? { TameScope(globals, n - 1, b, Zip(ts, o.v.vs), TupleRefresh(e1, ts), o.env, kept); }
      case BindRecord(e1, ids, b) =>
        TameKeeps(globals, n - 1, e1, env, kept);
        var o := Eval(globals, n - 1, e1, env);
        if o.Done? && o.v.Record? && FieldsPresent(ids, o.v.fields) {
          TameScope(globals, n - 1, b, Opened(ids, o.v.fields), RecordRefresh(e1, ids, o.v.fields), o.env, kept);
        }
      case _ =>
    }
  }

  lemma TameScope(globals: set<string>, n: nat, b: Expr, pushed: Env, refresh: Refresh, env: Env, kept: set<string>)
    requires Tame(b, kept) && RefreshTame(refresh, kept)
    ensures KeepsIn(Scoped(globals, n, b, pushed, refresh, env), env, kept)
    decreases n, 1
  {
    TameKeeps(globals, n, b, pushed + env, kept);
    ScopedKeepsNames(globals, n, b, pushed, refresh, env);
    var inner := Eval(globals, n, b, pushed + env);
    if Scoped(globals, n, b, pushed, refresh, env).Done? {
      KeptRefreshed(refresh, pushed + env, inner.env, kept);
      KeptBelow(pushed, env, DoRefresh(refresh, inner.env).env, kept);
    }
  }

  lemma TameIfKeeps(globals: set<string>, n: nat, p: Expr, t: Expr, f: Expr, env: Env, kept: set<string>)
    requires Tame(p, kept) && Tame(t, kept) && Tame(f, kept)
    ensures KeepsIn(Eval(globals, n + 1, If(p, t, f), env), env, kept)
    decreases n, 2
  {
    TameKeeps(globals, n, p, env, kept);
    var o := Eval(globals, n, p, env);
    if o.Done? {
      if o.v == Sc(Bool(true)) { TameKeeps(globals, n, t, o.env, kept); }
      else if o.v == Sc(Bool(false)) { TameKeeps(globals, n, f, o.env, kept); }
    }
  }

  lemma TameCaseKeeps(globals: set<string>, n: nat, x: string, e1: Expr, s: Expr, no: Expr, env: Env, kept: set<string>)
    requires Tame(e1, kept) && Tame(s, kept) && Tame(no, kept)
    ensures KeepsIn(Eval(globals, n + 1, CaseOf(x, e1, s, no), env), env, kept)
    decreases n, 2
  {
    TameKeeps(globals, n, e1, env, kept);
    var o := Eval(globals, n, e1, env);
    if o.Done? && o.v.Opt? {
      if o.v.o.Some? { TameScope(globals, n, s, [(x, o.v.o.value)], Nothing, o.env, kept); }
      else { TameKeeps(globals, n, no, o.env, kept); }
    }
  }

  lemma TameAppKeeps(globals: set<string>, n: nat, x: string, body: Expr, arg: Expr, env: Env, kept: set<string>)
    requires Tame(body, kept) && Tame(arg, kept)
    ensures KeepsIn(EvalApp(globals, n, Lambda(x, body), arg, env), env, kept)
    decreases n, 2
  {
    TameKeeps(globals, n, arg, env, kept);
    if n > 0 && LookupAll(env, CaptureNames(globals, x, body)).Found? {
      var f := Eval(globals, n, Lambda(x, body), env);
      var a := Eval(globals, n, arg, env);
      if a.Done? { TameScope(globals, n, body, [(x, a.v)] + f.v.cl, Nothing, a.env, kept); }
    }
  }

  lemma AllTameKeeps(globals: set<string>, n: nat, es: seq<Expr>, env: Env, kept: set<string>)
    requires AllTame(es, kept)
    ensures KeepsIn(EvalAll(globals, n, es, env), env, kept)
    decreases n, |es| + 1
  {
    if es != [] {
      TameKeeps(globals, n, es[0], env, kept);
      var o := Eval(globals, n, es[0], env);
      if o.Done? { AllTameKeeps(globals, n, es[1..], o.env, kept); }
    }
  }

  /* ---------- Simulation ---------- */

  lemma RelCombine(f: Former, vs: seq<Value>, ws: seq<Value>)
    requires |vs| == |ws| && forall i :: 0 <= i < |vs| ==> RelV(vs[i], ws[i])
    ensures RelO(Combine(f, vs), Combine(f, ws))
  {
    if f.Project? && |vs| == 1 && vs[0].Record? {
      assert RelV(vs[0], ws[0]);
      RelFieldsLookup(vs[0].fields, ws[0].fields, f.field);
    }
  }

  /** The evaluations of an expression and of its rewrite, in related environments, agree. */
  lemma {:induction false} Simulates(g: set<string>, n: nat, e: Expr, env: Env, env': Env, a: nat, b: nat)
    requires Rewritable(e) && RelAt(env, env', a, b)
    ensures RelOut(Eval(g, n, e, env), Eval(g, n, Rewrite(e), env'), a, b)
    decreases n, 0
  {
    if n > 0 {
      if e.Const? || e.Var? || e.Lambda? { SimulatesAtom(g, n - 1, e, env, env', a, b); }
      else if e.Form? || e.App? { SimulatesCompound(g, n - 1, e, env, env', a, b); }
      else { SimulatesStatement(g, n - 1, e, env, env', a, b); }
    }
  }

  lemma SimulatesAtom(g: set<string>, n: nat, e: Expr, env: Env, env': Env, a: nat, b: nat)
    requires e.Const? || e.Var? || e.Lambda?
    requires Rewritable(e) && RelAt(env, env', a, b)
    ensures RelOut(Eval(g, n + 1, e, env), Eval(g, n + 1, Rewrite(e), env'), a, b)
  {
    match e
    case Const(_) =>
    case Var(x) => SimulatesVar(g, n + 1, x, env, env', a, b);
    case Lambda(x, body) => SimulatesLambda(g, n + 1, x, body, env, env', a, b);
  }

  lemma SimulatesCompound(g: set<string>, n: nat, e: Expr, env: Env, env': Env, a: nat, b: nat)
    requires e.Form? || e.App?
    requires Rewritable(e) && RelAt(env, env', a, b)
    ensures RelOut(Eval(g, n + 1, e, env), Eval(g, n + 1, Rewrite(e), env'), a, b)
    decreases n, if e.Form? then |e.es| + 3 else 7
  {
    match e
    case Form(f, es) => SimulatesForm(g, n, f, es, env, env', a, b);
    case App(fn, arg) =>
      if fn.Lambda? { SimulatesApplied(g, n, fn.x, fn.body, arg, env, env', a, b); }
      else { SimulatesApp(g, n, fn, arg, env, env', a, b); }
  }

  lemma SimulatesStatement(g: set<string>, n: nat, e: Expr, env: Env, env': Env, a: nat, b: nat)
    requires e.Sequence? || e.Assign? || e.If? || e.LetIn? || e.CaseOf? || e.BindTuple? || e.BindRecord?
    requires Rewritable(e) && RelAt(env, env', a, b)
    ensures RelOut(Eval(g, n + 1, e, env), Eval(g, n + 1, Rewrite(e), env'), a, b)
    decreases n, 7
  {
    match e
    case Sequence(l, r) => SimulatesSequence(g, n, l, r, env, env', a, b);
    case Assign(x, e1) => SimulatesAssign(g, n, x, e1, env, env', a, b);
    case If(p, t, f) => SimulatesIf(g, n, p, t, f, env, env', a, b);
    case _ => SimulatesBinder(g, n, e, env, env', a, b);
  }

  lemma SimulatesBinder(g: set<string>, n: nat, e: Expr, env: Env, env': Env, a: nat, b: nat)
    requires e.LetIn? || e.CaseOf? || e.BindTuple? || e.BindRecord?
    requires Rewritable(e) && RelAt(env, env', a, b)
    ensures RelOut(Eval(g, n + 1, e, env), Eval(g, n + 1, Rewrite(e), env'), a, b)
    decreases n, 6
  {
    match e
    case LetIn(x, i, body) => SimulatesLet(g, n, x, i, body, env, env', a, b);
    case CaseOf(x, e1, s, no) => SimulatesCase(g, n, x, e1, s, no, env, env', a, b);
    case BindTuple(e1, ts, body) => SimulatesBindTuple(g, n, e1, ts, body, env, env', a, b);
    case BindRecord(e1, ids, body) => SimulatesBindRecord(g, n, e1, ids, body, env, env', a, b);
  }

  lemma SimulatesVar(g: set<string>, n: nat, x: string, env: Env, env': Env, a: nat, b: nat)
    requires RelAt(env, env', a, b)
    ensures RelOut(Eval(g, n, Var(x), env), Eval(g, n, Var(x), env'), a, b)
  {
    assert RelName(env, env', x);
  }

  lemma SimulatesSequence(g: set<string>, n: nat, l: Expr, r: Expr, env: Env, env': Env, a: nat, b: nat)
    requires Rewritable(l) && Rewritable(r) && RelAt(env, env', a, b)
    ensures RelOut(Eval(g, n + 1, Sequence(l, r), env), Eval(g, n + 1, Sequence(Rewrite(l), Rewrite(r)), env'), a, b)
    decreases n, 3
  {
    Simulates(g, n, l, env, env', a, b);
    var o, o' := Eval(g, n, l, env), Eval(g, n, Rewrite(l), env');
    if o.Done? { Simulates(g, n, r, o.env, o'.env, a, b); }
  }

  lemma SimulatesAssign(g: set<string>, n: nat, x: string, e1: Expr, env: Env, env': Env, a: nat, b: nat)
    requires Rewritable(e1) && RelAt(env, env', a, b)
    ensures RelOut(EvalAssign(g, n, x, e1, env), EvalAssign(g, n, x, Rewrite(e1), env'), a, b)
    decreases n, 3
  {
    Simulates(g, n, e1, env, env', a, b);
    assert RelName(env, env', x);
    var o, o' := Eval(g, n, e1, env), Eval(g, n, Rewrite(e1), env');
    if o.Done? { RelReplaceAt(o.env, o'.env, x, o.v, o'.v, a, b); }
  }

  lemma SimulatesIf(g: set<string>, n: nat, p: Expr, t: Expr, f: Expr, env: Env, env': Env, a: nat, b: nat)
    requires Rewritable(p) && Rewritable(t) && Rewritable(f) && RelAt(env, env', a, b)
    ensures RelOut(Eval(g, n + 1, If(p, t, f), env), Eval(g, n + 1, If(Rewrite(p), Rewrite(t), Rewrite(f)), env'), a, b)
    decreases n, 3
  {
    Simulates(g, n, p, env, env', a, b);
    var o, o' := Eval(g, n, p, env), Eval(g, n, Rewrite(p), env');
    if o.Done? {
      if o.v == Sc(Bool(true)) { Simulates(g, n, t, o.env, o'.env, a, b); }
      else if o.v == Sc(Bool(false)) { Simulates(g, n, f, o.env, o'.env, a, b); }
    }
  }

  lemma SimulatesAll(g: set<string>, n: nat, es: seq<Expr>, env: Env, env': Env, a: nat, b: nat)
    requires AllRewritable(es) && RelAt(env, env', a, b)
    ensures RelOut(EvalAll(g, n, es, env), EvalAll(g, n, RewriteAll(es), env'), a, b)
    decreases n, |es| + 1
  {
    if es != [] {
      Simulates(g, n, es[0], env, env', a, b);
      var o, o' := Eval(g, n, es[0], env), Eval(g, n, Rewrite(es[0]), env');
      if o.Done? { SimulatesAll(g, n, es[1..], o.env, o'.env, a, b); }
    }
  }

  lemma SimulatesForm(g: set<string>, n: nat, f: Former, es: seq<Expr>, env: Env, env': Env, a: nat, b: nat)
    requires AllRewritable(es) && RelAt(env, env', a, b)
    ensures RelOut(EvalForm(g, n, f, es, env), EvalForm(g, n, f, RewriteAll(es), env'), a, b)
    decreases n, |es| + 2
  {
    SimulatesAll(g, n, es, env, env', a, b);
    var o, o' := EvalAll(g, n, es, env), EvalAll(g, n, RewriteAll(es), env');
    if o.Done? { RelCombine(f, o.v.vs, o'.v.vs); }
  }

  lemma SimulatesLambda(g: set<string>, n: nat, x: string, body: Expr, env: Env, env': Env, a: nat, b: nat)
    requires n > 0 && Rewritable(Lambda(x, body)) && RelAt(env, env', a, b)
    ensures RelOut(Eval(g, n, Lambda(x, body), env), Eval(g, n, Lambda(x, Rewrite(body)), env'), a, b)
  {
    var xs, xs' := CaptureNames(g, x, body), CaptureNames(g, x, Rewrite(body));
    if LookupAll(env, xs).Found? {
      RelCapture(env, env', xs, xs');
      var cl, cl' := LookupAll(env, xs).cl, LookupAll(env', xs').cl;
      forall y ensures RelO(LookupE(cl, y), LookupE(cl', y)) { assert RelName(cl, cl', y); }
      assert RelV(Closure(x, body, cl), Closure(x, Rewrite(body), cl'));
    }
  }

  /** Under related pushed bindings, with related write-back. */
  lemma SimulatesScoped(g: set<string>, n: nat, body: Expr, pushed: Env, refresh: Refresh, env: Env,
                        pushed': Env, refresh': Refresh, env': Env, a: nat, b: nat)
    requires Rewritable(body) && RelRefresh(refresh, refresh') && RelAt(env, env', a, b)
    requires RelEnv(pushed + env, pushed' + env')
    ensures RelOut(Scoped(g, n, body, pushed, refresh, env), Scoped(g, n, Rewrite(body), pushed', refresh', env'), a, b)
    decreases n, 2
  {
    RelUnder(pushed, env, pushed', env', a, b);
    SimulatesIn(g, n, body, pushed + env, pushed' + env', |pushed|, |pushed'|, a, b);
    ScopedRel(g, n, body, Rewrite(body), pushed, refresh, env, pushed', refresh', env', a, b);
  }

  /** The outcomes agree below the pushed bindings and below the outer boundary. */
  ghost predicate RelTwice(o: Outcome, o': Outcome, p: nat, p': nat, a: nat, b: nat) {
    RelOut(o, o', p, p') && RelOut(o, o', p + a, p' + b)
  }

  lemma SimulatesIn(g: set<string>, n: nat, body: Expr, env: Env, env': Env, p: nat, p': nat, a: nat, b: nat)
    requires Rewritable(body) && RelAt(env, env', p, p') && RelAt(env, env', p + a, p' + b)
    ensures RelTwice(Eval(g, n, body, env), Eval(g, n, Rewrite(body), env'), p, p', a, b)
    decreases n, 1
  {
    Simulates(g, n, body, env, env', p, p');
    Simulates(g, n, body, env, env', p + a, p' + b);
  }

  lemma ScopedRel(g: set<string>, n: nat, body: Expr, body': Expr, pushed: Env, refresh: Refresh, env: Env,
                  pushed': Env, refresh': Refresh, env': Env, a: nat, b: nat)
    requires RelRefresh(refresh, refresh') && a <= |env| && b <= |env'|
    requires RelTwice(Eval(g, n, body, pushed + env), Eval(g, n, body', pushed' + env'), |pushed|, |pushed'|, a, b)
    ensures RelOut(Scoped(g, n, body, pushed, refresh, env), Scoped(g, n, body', pushed', refresh', env'), a, b)
  {
    ScopedLeaves(g, n, body, pushed, refresh, env);
    ScopedLeaves(g, n, body', pushed', refresh', env');
    RelLeave(Eval(g, n, body, pushed + env), refresh, Names(pushed), Names(env),
             Eval(g, n, body', pushed' + env'), refresh', Names(pushed'), Names(env'), a, b);
  }

  lemma ScopedLeaves(g: set<string>, n: nat, body: Expr, pushed: Env, refresh: Refresh, env: Env)
    ensures var o := Eval(g, n, body, pushed + env); o.Done? ==> Names(o.env) == Names(pushed) + Names(env)
    ensures |Names(pushed)| == |pushed| && |Names(env)| == |env|
  {
    EvalKeepsNames(g, n, body, pushed + env);
    NamesConcat(pushed, env);
  }

  lemma RelUnder(pushed: Env, env: Env, pushed': Env, env': Env, a: nat, b: nat)
    requires RelAt(env, env', a, b) && RelEnv(pushed + env, pushed' + env')
    ensures RelAt(pushed + env, pushed' + env', |pushed|, |pushed'|)
    ensures RelAt(pushed + env, pushed' + env', |pushed| + a, |pushed'| + b)
  {
    var p, p' := |pushed|, |pushed'|;
    assert (pushed + env)[p..] == env && (pushed' + env')[p'..] == env';
    assert (pushed + env)[p + a..] == env[a..] && (pushed' + env')[p' + b..] == env'[b..];
  }

  /** Leaving related scopes: related at the inner boundary and at the outer one. */
  lemma RelLeave(o: Outcome, refresh: Refresh, xs: seq<string>, ys: seq<string>,
                 o': Outcome, refresh': Refresh, xs': seq<string>, ys': seq<string>, a: nat, b: nat)
    requires a <= |ys| && b <= |ys'| && RelRefresh(refresh, refresh')
    requires (o.Done? ==> Names(o.env) == xs + ys) && (o'.Done? ==> Names(o'.env) == xs' + ys')
    requires RelTwice(o, o', |xs|, |xs'|, a, b)
    ensures RelOut(Leave(o, refresh, xs), Leave(o', refresh', xs'), a, b)
  {
    if o.Done? {
      RelRefreshed(refresh, xs, ys, o.env, refresh', xs', ys', o'.env, a, b);
      RelPoppedOutcome(o, DoRefresh(refresh, o.env), xs, ys, o', DoRefresh(refresh', o'.env), xs', ys', a, b);
    }
  }

  /** What writing back keeps at both boundaries. */
  ghost predicate RelFresh(f: Refreshed, xs: seq<string>, ys: seq<string>,
                           f': Refreshed, xs': seq<string>, ys': seq<string>, a: nat, b: nat) {
    if f.Unknown? then f' == f
    else
      && f'.Fresh? && Names(f.env) == xs + ys && Names(f'.env) == xs' + ys'
      && RelAt(f.env, f'.env, |xs|, |xs'|) && RelAt(f.env, f'.env, |xs| + a, |xs'| + b)
  }

  lemma RelRefreshed(refresh: Refresh, xs: seq<string>, ys: seq<string>, env: Env,
                     refresh': Refresh, xs': seq<string>, ys': seq<string>, env': Env, a: nat, b: nat)
    requires RelRefresh(refresh, refresh') && Names(env) == xs + ys && Names(env') == xs' + ys'
    requires RelAt(env, env', |xs|, |xs'|) && RelAt(env, env', |xs| + a, |xs'| + b)
    ensures RelFresh(DoRefresh(refresh, env), xs, ys, DoRefresh(refresh', env'), xs', ys', a, b)
  {
    RelDoRefresh(refresh, refresh', env, env', |xs|, |xs'|);
    RelDoRefresh(refresh, refresh', env, env', |xs| + a, |xs'| + b);
    RefreshKeepsNames(refresh, env);
    RefreshKeepsNames(refresh', env');
  }

  lemma RelPoppedOutcome(o: Outcome, f: Refreshed, xs: seq<string>, ys: seq<string>,
                         o': Outcome, f': Refreshed, xs': seq<string>, ys': seq<string>, a: nat, b: nat)
    requires o.Done? && o'.Done? && RelV(o.v, o'.v) && RelFresh(f, xs, ys, f', xs', ys', a, b)
    ensures RelOut(Popped(o, f, xs), Popped(o', f', xs'), a, b)
  {
    if f.Fresh? {
      PoppedIs(o, f, xs, ys);
      PoppedIs(o', f', xs', ys');
      RelPopped(f.env, f'.env, |xs|, |xs'|, a, b);
      RelDone(o.v, o'.v, f.env[|xs|..], f'.env[|xs'|..], a, b);
    }
  }

  lemma PoppedIs(o: Outcome, f: Refreshed, xs: seq<string>, ys: seq<string>)
    requires o.Done? && f.Fresh? && Names(f.env) == xs + ys
    ensures |xs| <= |f.env| && Popped(o, f, xs) == Done(o.v, f.env[|xs|..])
  {
    RemoveAllPops(f.env, xs, ys);
  }

  lemma RelDone(v: Value, v': Value, env: Env, env': Env, a: nat, b: nat)
    requires RelV(v, v') && RelAt(env, env', a, b)
    ensures RelOut(Done(v, env), Done(v', env'), a, b)
  {}

  lemma RelPopped(env: Env, env': Env, p: nat, p': nat, a: nat, b: nat)
    requires RelAt(env, env', p, p') && RelAt(env, env', p + a, p' + b)
    ensures RelAt(env[p..], env'[p'..], a, b)
  {
    assert env[p..][a..] == env[p + a..] && env'[p'..][b..] == env'[p' + b..];
  }

  /** Pushed bindings that are related by themselves. */
  lemma SimulatesPushed(g: set<string>, n: nat, body: Expr, pushed: Env, refresh: Refresh, env: Env,
                        pushed': Env, refresh': Refresh, env': Env, a: nat, b: nat)
    requires Rewritable(body) && RelRefresh(refresh, refresh') && RelAt(env, env', a, b) && RelEnv(pushed, pushed')
    ensures RelOut(Scoped(g, n, body, pushed, refresh, env), Scoped(g, n, Rewrite(body), pushed', refresh', env'), a, b)
    decreases n, 3
  {
    RelConcat(pushed, pushed', env, env');
    SimulatesScoped(g, n, body, pushed, refresh, env, pushed', refresh', env', a, b);
  }

  lemma SimulatesLet(g: set<string>, n: nat, x: string, i: Expr, body: Expr, env: Env, env': Env, a: nat, b: nat)
    requires Rewritable(i) && Rewritable(body) && RelAt(env, env', a, b)
    ensures RelOut(Eval(g, n + 1, LetIn(x, i, body), env), Eval(g, n + 1, LetIn(x, Rewrite(i), Rewrite(body)), env'), a, b)
    decreases n, 4
  {
    Simulates(g, n, i, env, env', a, b);
    var o, o' := Eval(g, n, i, env), Eval(g, n, Rewrite(i), env');
    if o.Done? {
      RelFieldsEnv([(x, o.v)], [(x, o'.v)]);
      SimulatesPushed(g, n, body, [(x, o.v)], Nothing, o.env, [(x, o'.v)], Nothing, o'.env, a, b);
    }
  }

  lemma SimulatesCase(g: set<string>, n: nat, x: string, e1: Expr, s: Expr, no: Expr, env: Env, env': Env, a: nat, b: nat)
    requires Rewritable(e1) && Rewritable(s) && Rewritable(no) && RelAt(env, env', a, b)
    ensures RelOut(Eval(g, n + 1, CaseOf(x, e1, s, no), env),
                   Eval(g, n + 1, CaseOf(x, Rewrite(e1), Rewrite(s), Rewrite(no)), env'), a, b)
    decreases n, 4
  {
    Simulates(g, n, e1, env, env', a, b);
    var o, o' := Eval(g, n, e1, env), Eval(g, n, Rewrite(e1), env');
    if o.Done? && o.v.Opt? {
      if o.v.o.Some? {
        var p, p' := [(x, o.v.o.value)], [(x, o'.v.o.value)];
        RelFieldsEnv(p, p');
        SimulatesPushed(g, n, s, p, Nothing, o.env, p', Nothing, o'.env, a, b);
      } else {
        Simulates(g, n, no, o.env, o'.env, a, b);
      }
    }
  }

  lemma RewriteVar(e: Expr)
    ensures Rewrite(e).Var? <==> e.Var?
    ensures e.Var? ==> Rewrite(e) == e
  {}

  lemma SimulatesBindTuple(g: set<string>, n: nat, e1: Expr, ts: seq<string>, body: Expr, env: Env, env': Env, a: nat, b: nat)
    requires Rewritable(e1) && Rewritable(body) && RelAt(env, env', a, b)
    ensures RelOut(Eval(g, n + 1, BindTuple(e1, ts, body), env),
                   Eval(g, n + 1, BindTuple(Rewrite(e1), ts, Rewrite(body)), env'), a, b)
    decreases n, 5
  {
    Simulates(g, n, e1, env, env', a, b);
    var o, o' := Eval(g, n, e1, env), Eval(g, n, Rewrite(e1), env');
    if o.Done? && o.v.Tuple? {
      SimulatesZipped(g, n, e1, ts, body, o.v.vs, o.env, o'.v.vs, o'.env, a, b);
    }
  }

  lemma SimulatesZipped(g: set<string>, n: nat, e1: Expr, ts: seq<string>, body: Expr,
                        vs: seq<Value>, env: Env, vs': seq<Value>, env': Env, a: nat, b: nat)
    requires Rewritable(body) && RelAt(env, env', a, b)
    requires |vs| == |vs'| && forall i :: 0 <= i < |vs| ==> RelV(vs[i], vs'[i])
    ensures RelOut(Scoped(g, n, body, Zip(ts, vs), TupleRefresh(e1, ts), env),
                   Scoped(g, n, Rewrite(body), Zip(ts, vs'), TupleRefresh(Rewrite(e1), ts), env'), a, b)
    decreases n, 4
  {
    RewriteVar(e1);
    RelFieldsEnv(Zip(ts, vs), Zip(ts, vs'));
    SimulatesPushed(g, n, body, Zip(ts, vs), TupleRefresh(e1, ts), env, Zip(ts, vs'), TupleRefresh(Rewrite(e1), ts), env', a, b);
  }

  lemma RelOpened(ids: seq<(string, string)>, fs: Bindings<Value>, gs: Bindings<Value>)
    requires RelFields(fs, gs)
    ensures FieldsPresent(ids, fs) <==> FieldsPresent(ids, gs)
    ensures FieldsPresent(ids, fs) ==> RelEnv(Opened(ids, fs), Opened(ids, gs))
  {
    forall i | 0 <= i < |ids| ensures RelName(fs, gs, ids[i].0) {
      RelFieldsLookup(fs, gs, ids[i].0);
    }
    if FieldsPresent(ids, fs) { RelFieldsEnv(Opened(ids, fs), Opened(ids, gs)); }
  }

  lemma SimulatesBindRecord(g: set<string>, n: nat, e1: Expr, ids: seq<(string, string)>, body: Expr,
                            env: Env, env': Env, a: nat, b: nat)
    requires Rewritable(e1) && Rewritable(body) && RelAt(env, env', a, b)
    ensures RelOut(Eval(g, n + 1, BindRecord(e1, ids, body), env),
                   Eval(g, n + 1, BindRecord(Rewrite(e1), ids, Rewrite(body)), env'), a, b)
    decreases n, 5
  {
    Simulates(g, n, e1, env, env', a, b);
    var o, o' := Eval(g, n, e1, env), Eval(g, n, Rewrite(e1), env');
    if o.Done? && o.v.Record? {
      RelOpened(ids, o.v.fields, o'.v.fields);
      if FieldsPresent(ids, o.v.fields) {
        SimulatesOpened(g, n, e1, ids, body, o.v.fields, o.env, o'.v.fields, o'.env, a, b);
      }
    }
  }

  lemma SimulatesOpened(g: set<string>, n: nat, e1: Expr, ids: seq<(string, string)>, body: Expr,
                        fs: Bindings<Value>, env: Env, fs': Bindings<Value>, env': Env, a: nat, b: nat)
    requires Rewritable(body) && RelAt(env, env', a, b) && RelFields(fs, fs')
    requires FieldsPresent(ids, fs) && FieldsPresent(ids, fs')
    ensures RelOut(Scoped(g, n, body, Opened(ids, fs), RecordRefresh(e1, ids, fs), env),
                   Scoped(g, n, Rewrite(body), Opened(ids, fs'), RecordRefresh(Rewrite(e1), ids, fs'), env'), a, b)
    decreases n, 4
  {
    RewriteVar(e1);
    RelOpened(ids, fs, fs');
    SimulatesPushed(g, n, body, Opened(ids, fs), RecordRefresh(e1, ids, fs), env,
                    Opened(ids, fs'), RecordRefresh(Rewrite(e1), ids, fs'), env', a, b);
  }

  /** Related functions applied to related arguments push related bindings. */
  lemma RelCall(f: Value, f': Value, v: Value, v': Value)
    requires f.Closure? && RelV(f, f') && RelV(v, v')
    ensures f'.Closure? && f'.x == f.x && f'.body == Rewrite(f.body) && Rewritable(f.body)
    ensures RelEnv([(f.x, v)] + f.cl, [(f'.x, v')] + f'.cl)
  {
    forall y ensures RelName(f.cl, f'.cl, y) {}
    RelFieldsEnv([(f.x, v)], [(f.x, v')]);
    RelConcat([(f.x, v)], [(f.x, v')], f.cl, f'.cl);
  }

  lemma SimulatesCall(g: set<string>, n: nat, f: Value, f': Value, v: Value, v': Value, env: Env, env': Env, a: nat, b: nat)
    requires f.Closure? && f'.Closure? && RelV(f, f') && RelV(v, v') && RelAt(env, env', a, b)
    ensures RelOut(Scoped(g, n, f.body, [(f.x, v)] + f.cl, Nothing, env),
                   Scoped(g, n, f'.body, [(f'.x, v')] + f'.cl, Nothing, env'), a, b)
    decreases n, 4
  {
    RelCall(f, f', v, v');
    SimulatesPushed(g, n, f.body, [(f.x, v)] + f.cl, Nothing, env, [(f'.x, v')] + f'.cl, Nothing, env', a, b);
  }

  lemma SimulatesApp(g: set<string>, n: nat, fn: Expr, arg: Expr, env: Env, env': Env, a: nat, b: nat)
    requires Rewritable(fn) && Rewritable(arg) && RelAt(env, env', a, b)
    ensures RelOut(EvalApp(g, n, fn, arg, env), EvalApp(g, n, Rewrite(fn), Rewrite(arg), env'), a, b)
    decreases n, 5
  {
    Simulates(g, n, fn, env, env', a, b);
    var o, o' := Eval(g, n, fn, env), Eval(g, n, Rewrite(fn), env');
    if o.Done? {
      Simulates(g, n, arg, o.env, o'.env, a, b);
      var r, r' := Eval(g, n, arg, o.env), Eval(g, n, Rewrite(arg), o'.env);
      if r.Done? && o.v.Closure? { SimulatesCall(g, n, o.v, o'.v, r.v, r'.v, r.env, r'.env, a, b); }
    }
  }

  /** The heart of it: a lambda applied on the spot against the let that replaces it. */
  lemma SimulatesApplied(g: set<string>, n: nat, x: string, body: Expr, arg: Expr, env: Env, env': Env, a: nat, b: nat)
    requires Rewritable(arg) && Tame(arg, Capturable(x, body)) && Rewritable(body) && RelAt(env, env', a, b)
    ensures RelOut(EvalApp(g, n, Lambda(x, body), arg, env),
                   Eval(g, n + 1, LetIn(x, Rewrite(arg), Rewrite(body)), env'), a, b)
    decreases n, 4
  {
    Simulates(g, n, arg, env, env', a, b);
    TameKeeps(g, n, arg, env, Capturable(x, body));
    var xs := CaptureNames(g, x, body);
    var r, r' := Eval(g, n, arg, env), Eval(g, n, Rewrite(arg), env');
    if n > 0 {
      if LookupAll(env, xs).Missing? {
        assert Eval(g, n, Lambda(x, body), env) == Fail(UnknownCapture(LookupAll(env, xs).x), env);
      } else {
        var cl := LookupAll(env, xs).cl;
        assert Eval(g, n, Lambda(x, body), env) == Done(Closure(x, body, cl), env);
        if r.Done? {
          AppliedRel(env, xs, Capturable(x, body), x, r.env, r.v, r'.env, r'.v);
          SimulatesScoped(g, n, body, [(x, r.v)] + cl, Nothing, r.env, [(x, r'.v)], Nothing, r'.env, a, b);
        }
      }
    }
  }

  lemma AppliedRel(env: Env, xs: seq<string>, kept: set<string>, x: string, env1: Env, v: Value, env': Env, v': Value)
    requires LookupAll(env, xs).Found? && (forall y :: y in xs ==> y in kept) && Keeps(env, env1, kept)
    requires RelEnv(env1, env') && RelV(v, v')
    ensures RelEnv([(x, v)] + LookupAll(env, xs).cl + env1, [(x, v')] + env')
  {
    var cl := LookupAll(env, xs).cl;
    forall y ensures RelName(cl + env1, env', y) {
      if y in xs { KeptLookup(env, env1, kept, y); }
      CaptureIsTransparent(env, xs, env1, y);
      assert RelName(env1, env', y);
    }
    RelFieldsEnv([(x, v)], [(x, v')]);
    RelConcat([(x, v)], [(x, v')], cl + env1, env');
    assert [(x, v)] + cl + env1 == [(x, v)] + (cl + env1);
  }

  /* ---------- The rewrite preserves meaning ---------- */

  lemma RelFieldsDrop(env: Env, env': Env, k: nat)
    requires RelFields(env, env') && k <= |env|
    ensures RelAt(env, env', k, k)
  {
    RelFieldsEnv(env, env');
    RelFieldsEnv(env[k..], env'[k..]);
  }

  lemma EntryRelated(env: Env, env': Env, k: nat)
    requires Names(env) == Names(env') && k < |env| && RelEnv(env[k..], env'[k..])
    ensures k < |env'| && env[k].0 == env'[k].0 && RelV(env[k].1, env'[k].1)
  {
    assert |Names(env)| == |env| && |Names(env')| == |env'|;
    assert Names(env)[k] == env[k].0 && Names(env')[k] == env'[k].0;
    var x := env[k].0;
    assert RelName(env[k..], env'[k..], x);
  }

  /** In environments related binding by binding, an expression and its rewrite both run out of fuel,
      fail with the same error, or give related values and leave environments related binding by
      binding. The one exception is an original that fails because a function value would capture
      a name that is not bound. */
  lemma RewritePreserves(g: set<string>, n: nat, e: Expr, env: Env, env': Env)
    requires Rewritable(e) && RelFields(env, env')
    ensures var r, r' := Eval(g, n, e, env), Eval(g, n, Rewrite(e), env');
      match r
      case Timeout => r'.Timeout?
      case Fail(err, _) => err.UnknownCapture? || (r'.Fail? && r'.err == err)
      case Done(v, env1) => r'.Done? && RelV(v, r'.v) && RelFields(env1, r'.env)
  {
    RelFieldsDrop(env, env', 0);
    Simulates(g, n, e, env, env', 0, 0);
    var r, r' := Eval(g, n, e, env), Eval(g, n, Rewrite(e), env');
    if r.Done? {
      EvalKeepsNames(g, n, e, env);
      EvalKeepsNames(g, n, Rewrite(e), env');
      assert Names(env) == Names(env');
      assert |Names(r.env)| == |r.env| && |Names(r'.env)| == |r'.env|;
      forall k | 0 <= k < |r.env| ensures r.env[k].0 == r'.env[k].0 && RelV(r.env[k].1, r'.env[k].1) {
        assert |Names(env)| == |env|;
        RelFieldsDrop(env, env', k);
        Simulates(g, n, e, env, env', k, k);
        EntryRelated(r.env, r'.env, k);
      }
    }
  }

  /** No function value inside. */
  predicate IsData(v: Value) {
    match v
    case Sc(_) => true
    case Opt(o) => o.None? || IsData(o.value)
    case Tuple(vs) => forall i :: 0 <= i < |vs| ==> IsData(vs[i])
    case Record(fs) => forall i :: 0 <= i < |fs| ==> IsData(fs[i].1)
    case Closure(_, _, _) => false
  }

  lemma {:induction false} RelatedDataIsEqual(v: Value, w: Value)
    requires IsData(v)
    ensures RelV(v, w) <==> v == w
    decreases v
  {
    match v
    case Sc(_) =>
    case Opt(o) => if o.Some? && w.Opt? && w.o.Some? { RelatedDataIsEqual(o.value, w.o.value); }
    case Tuple(vs) =>
      if w.Tuple? && |w.vs| == |vs| {
        forall i | 0 <= i < |vs| ensures RelV(vs[i], w.vs[i]) <==> vs[i] == w.vs[i] { RelatedDataIsEqual(vs[i], w.vs[i]); }
      }
    case Record(fs) =>
      if w.Record? && |w.fields| == |fs| {
        forall i | 0 <= i < |fs| ensures RelV(fs[i].1, w.fields[i].1) <==> fs[i].1 == w.fields[i].1 {
          RelatedDataIsEqual(fs[i].1, w.fields[i].1);
        }
      }
  }

  /** Started on data, the two programs give the same data and leave the same data. */
  lemma RewriteKeepsData(g: set<string>, n: nat, e: Expr, env: Env)
    requires Rewritable(e) && forall k :: 0 <= k < |env| ==> IsData(env[k].1)
    ensures var r, r' := Eval(g, n, e, env), Eval(g, n, Rewrite(e), env);
      r.Done? ==>
        && r'.Done? && (IsData(r.v) ==> r'.v == r.v) && Names(r'.env) == Names(r.env)
        && forall k :: 0 <= k < |r.env| && IsData(r.env[k].1) ==> r'.env[k] == r.env[k]
  {
    forall k | 0 <= k < |env| ensures RelV(env[k].1, env[k].1) { RelatedDataIsEqual(env[k].1, env[k].1); }
    RewritePreserves(g, n, e, env, env);
    var r, r' := Eval(g, n, e, env), Eval(g, n, Rewrite(e), env);
    if r.Done? {
      if IsData(r.v) { RelatedDataIsEqual(r.v, r'.v); }
      forall k | 0 <= k < |r.env| && IsData(r.env[k].1) ensures r'.env[k] == r.env[k] {
        RelatedDataIsEqual(r.env[k].1, r'.env[k].1);
      }
    }
  }

  /* ---------- A condition to check before rewriting ---------- */

  /** Arguments of applied lambdas are tame and do not mention the parameter they are passed to. */
  predicate SafeToRewrite(e: Expr) {
    match e
    case Const(_) => true
    case Var(_) => true
    case Form(_, es) => AllSafe(es)
    case Lambda(_, b) => SafeToRewrite(b)
    case App(fn, arg) =>
      SafeToRewrite(fn) && SafeToRewrite(arg) && (fn.Lambda? ==> Tame(arg, Capturable(fn.x, fn.body)) && fn.x !in FreeVariables(arg))
    case Sequence(l, r) => SafeToRewrite(l) && SafeToRewrite(r)
    case LetIn(_, i, b) => SafeToRewrite(i) && SafeToRewrite(b)
    case Assign(_, e1) => SafeToRewrite(e1)
    case CaseOf(_, e1, s, n) => SafeToRewrite(e1) && SafeToRewrite(s) && SafeToRewrite(n)
    case If(p, t, f) => SafeToRewrite(p) && SafeToRewrite(t) && SafeToRewrite(f)
    case BindTuple(e1, _, b) => SafeToRewrite(e1) && SafeToRewrite(b)
    case BindRecord(e1, _, b) => SafeToRewrite(e1) && SafeToRewrite(b)
  }

  predicate AllSafe(es: seq<Expr>) {
    es == [] || (SafeToRewrite(es[0]) && AllSafe(es[1..]))
  }

  ghost predicate SameFree(e: Expr) {
    forall y :: y in FreeVariables(e) <==> y in FreeVariables(Rewrite(e))
  }

  /** Such expressions keep their free variables under the rewrite, and so can be rewritten. */
  lemma {:induction false} SafeIsRewritable(e: Expr)
    requires SafeToRewrite(e)
    ensures SameFree(e) && Rewritable(e)
  {
    match e
    case Const(_) =>
    case Var(_) =>
    case Form(_, es) => AllSafeRewritable(es);
    case Lambda(_, b) => SafeIsRewritable(b);
    case App(fn, arg) => SafeIsRewritable(fn); SafeIsRewritable(arg); SafeApplication(fn, arg);
    case Sequence(l, r) => SafeIsRewritable(l); SafeIsRewritable(r);
    case LetIn(_, i, b) => SafeIsRewritable(i); SafeIsRewritable(b);
    case Assign(_, e1) => SafeIsRewritable(e1);
    case CaseOf(_, e1, s, n) => SafeIsRewritable(e1); SafeIsRewritable(s); SafeIsRewritable(n);
    case If(p, t, f) => SafeIsRewritable(p); SafeIsRewritable(t); SafeIsRewritable(f);
    case BindTuple(e1, _, b) => SafeIsRewritable(e1); SafeIsRewritable(b);
    case BindRecord(e1, _, b) => SafeIsRewritable(e1); SafeIsRewritable(b);
  }

  /** The argument does not mention the parameter, so the let hides nothing in it. */
  lemma SafeApplication(fn: Expr, arg: Expr)
    requires SafeToRewrite(App(fn, arg)) && SameFree(fn) && Rewritable(fn) && SameFree(arg) && Rewritable(arg)
    ensures SameFree(App(fn, arg)) && Rewritable(App(fn, arg))
  {}

  lemma AllSafeRewritable(es: seq<Expr>)
    requires AllSafe(es)
    ensures AllRewritable(es) && forall y :: y in FreeInAll(es) <==> y in FreeInAll(RewriteAll(es))
  {
    if es != [] {
      SafeIsRewritable(es[0]);
      AllSafeRewritable(es[1..]);
    }
  }

  /* ---------- What the rewrite leaves ---------- */

  predicate HasAppliedLambda(e: Expr) {
    match e
    case Const(_) => false
    case Var(_) => false
    case Form(_, es) => AnyAppliedLambda(es)
    case Lambda(_, b) => HasAppliedLambda(b)
    case App(fn, arg) => fn.Lambda? || HasAppliedLambda(fn) || HasAppliedLambda(arg)
    case Sequence(l, r) => HasAppliedLambda(l) || HasAppliedLambda(r)
    case LetIn(_, i, b) => HasAppliedLambda(i) || HasAppliedLambda(b)
    case Assign(_, e1) => HasAppliedLambda(e1)
    case CaseOf(_, e1, s, n) => HasAppliedLambda(e1) || HasAppliedLambda(s) || HasAppliedLambda(n)
    case If(p, t, f) => HasAppliedLambda(p) || HasAppliedLambda(t) || HasAppliedLambda(f)
    case BindTuple(e1, _, b) => HasAppliedLambda(e1) || HasAppliedLambda(b)
    case BindRecord(e1, _, b) => HasAppliedLambda(e1) || HasAppliedLambda(b)
  }

  predicate AnyAppliedLambda(es: seq<Expr>) {
    es != [] && (HasAppliedLambda(es[0]) || AnyAppliedLambda(es[1..]))
  }

  /** No lambda is applied on the spot any more, and exactly the expressions without one are left as
      they are. */
  lemma {:induction false} RewriteRemovesApplied(e: Expr)
    ensures !HasAppliedLambda(Rewrite(e))
    ensures Rewrite(e) == e <==> !HasAppliedLambda(e)
  {
    match e
    case Const(_) =>
    case Var(_) =>
    case Form(_, es) => RewriteAllRemovesApplied(es);
    case Lambda(_, b) => RewriteRemovesApplied(b);
    case App(fn, arg) =>
      RewriteRemovesApplied(fn);
      RewriteRemovesApplied(arg);
    case Sequence(l, r) => RewriteRemovesApplied(l); RewriteRemovesApplied(r);
    case LetIn(_, i, b) => RewriteRemovesApplied(i); RewriteRemovesApplied(b);
    case Assign(_, e1) => RewriteRemovesApplied(e1);
    case CaseOf(_, e1, s, n) => RewriteRemovesApplied(e1); RewriteRemovesApplied(s); RewriteRemovesApplied(n);
    case If(p, t, f) => RewriteRemovesApplied(p); RewriteRemovesApplied(t); RewriteRemovesApplied(f);
    case BindTuple(e1, _, b) => RewriteRemovesApplied(e1); RewriteRemovesApplied(b);
    case BindRecord(e1, _, b) => RewriteRemovesApplied(e1); RewriteRemovesApplied(b);
  }

  lemma RewriteAllRemovesApplied(es: seq<Expr>)
    ensures !AnyAppliedLambda(RewriteAll(es))
    ensures RewriteAll(es) == es <==> !AnyAppliedLambda(es)
  {
    if es != [] {
      RewriteRemovesApplied(es[0]);
      RewriteAllRemovesApplied(es[1..]);
      assert es == [es[0]] + es[1..];
    }
  }
}
