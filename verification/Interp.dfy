/** The interpreter of K3 expressions, as a big-step evaluator indexed by fuel. */
module Interp {
  import opened Options
  import opened Scalars
  import opened Environments

  datatype Constant = Plain(s: Scalar) | NoneOf

  /** Expressions that evaluate their children from left to right and combine the values. */
  datatype Former =
    | MakeSome | MakeTuple | MakeRecord(ids: seq<string>) | Project(field: string)
    | Unary(uop: UnaryOp) | Binary(bop: BinaryOp)

  datatype Expr =
    | Const(c: Constant)
    | Var(x: string)
    | Form(f: Former, es: seq<Expr>)
    | Lambda(x: string, body: Expr)
    | App(fn: Expr, arg: Expr)
    | Sequence(l: Expr, r: Expr)
    | LetIn(x: string, init: Expr, body: Expr)
    | Assign(x: string, e: Expr)
    | CaseOf(x: string, e: Expr, some: Expr, none: Expr)
    | If(p: Expr, t: Expr, e: Expr)
    | BindTuple(e: Expr, ts: seq<string>, body: Expr)
    | BindRecord(e: Expr, ids: seq<(string, string)>, body: Expr)  // field, name

  datatype Value =
    | Sc(s: Scalar) | Opt(o: Option<Value>) | Tuple(vs: seq<Value>) | Record(fields: Bindings<Value>)
    | Closure(x: string, body: Expr, cl: Bindings<Value>)

  type Env = Bindings<Value>

  const UNIT := Tuple([])

  datatype Error = UnknownCapture(x: string) | UnknownVariable(x: string) | RunTimeError

  datatype Outcome = Timeout | Fail(err: Error, at: Env) | Done(v: Value, env: Env)

  /* ---------- Free variables and capture ---------- */

  function Without(xs: seq<string>, hidden: seq<string>): (r: seq<string>)
    ensures forall x :: x in r <==> x in xs && x !in hidden
  {
    if xs == [] then []
    else if xs[0] in hidden then Without(xs[1..], hidden)
    else [xs[0]] + Without(xs[1..], hidden)
  }

  /** Left to right, with repetitions. A let or bind also hides its names in the expression it
      binds them to, and an assigned name does not count as an occurrence. */
  function FreeVariables(e: Expr): seq<string> {
    match e
    case Const(_) => []
    case Var(x) => [x]
    case Form(_, es) => FreeInAll(es)
    case Lambda(x, b) => Without(FreeVariables(b), [x])
    case App(fn, arg) => FreeVariables(fn) + FreeVariables(arg)
    case Sequence(l, r) => FreeVariables(l) + FreeVariables(r)
    case LetIn(x, i, b) => Without(FreeVariables(i) + FreeVariables(b), [x])
    case Assign(_, e1) => FreeVariables(e1)
    case CaseOf(x, e1, s, n) => FreeVariables(e1) + Without(FreeVariables(s), [x]) + FreeVariables(n)
    case If(p, t, f) => FreeVariables(p) + FreeVariables(t) + FreeVariables(f)
    case BindTuple(e1, ts, b) => Without(FreeVariables(e1) + FreeVariables(b), ts)
    case BindRecord(e1, ids, b) => Without(FreeVariables(e1) + FreeVariables(b), Targets(ids))
  }

  function FreeInAll(es: seq<Expr>): seq<string> {
    if es == [] then [] else FreeVariables(es[0]) + FreeInAll(es[1..])
  }

  function Targets(ids: seq<(string, string)>): seq<string> {
    seq(|ids|, i requires 0 <= i < |ids| => ids[i].1)
  }

  /** The values of the names, in order; the first unknown name otherwise. */
  datatype Captured = Missing(x: string) | Found(cl: Env)

  function LookupAll(env: Env, xs: seq<string>): (r: Captured)
    ensures r.Missing? ==> r.x in xs && LookupE(env, r.x).None?
    ensures r.Found? ==> |r.cl| == |xs|
    decreases |xs|
  {
    if xs == [] then Found([])
    else
      match LookupE(env, xs[0])
      case None => Missing(xs[0])
      case Some(v) =>
        match LookupAll(env, xs[1..])
        case Missing(x) => Missing(x)
        case Found(cl) => Found([(xs[0], v)] + cl)
  }

  function After(cl: Env, r: Captured): Captured {
    match r case Missing(x) => Missing(x) case Found(rest) => Found(cl + rest)
  }

  lemma CaptureStep(env: Env, cl: Env, xs: seq<string>)
    requires xs != []
    ensures After(cl, LookupAll(env, xs)) ==
      match LookupE(env, xs[0]) case None => Missing(xs[0]) case Some(v) => After(cl + [(xs[0], v)], LookupAll(env, xs[1..]))
  {
    if LookupE(env, xs[0]).Some? && LookupAll(env, xs[1..]).Found? {
      var p := [(xs[0], LookupE(env, xs[0]).value)];
      assert cl + (p + LookupAll(env, xs[1..]).cl) == cl + p + LookupAll(env, xs[1..]).cl;
    }
  }

  /** The names a function value carries: free in its body, not its parameter and not global. */
  function CaptureNames(globals: set<string>, x: string, body: Expr): seq<string> {
    NonGlobal(globals, Without(FreeVariables(body), [x]))
  }

  function NonGlobal(globals: set<string>, xs: seq<string>): (r: seq<string>)
    ensures forall x :: x in r <==> x in xs && x !in globals
  {
    if xs == [] then []
    else if xs[0] in globals then NonGlobal(globals, xs[1..])
    else [xs[0]] + NonGlobal(globals, xs[1..])
  }

  /* ---------- Operators ---------- */

  function Values(env: Env): seq<Value> { seq(|env|, i requires 0 <= i < |env| => env[i].1) }

  function Zip<V>(xs: seq<string>, vs: seq<V>): Bindings<V> {
    seq(if |xs| < |vs| then |xs| else |vs|, i requires 0 <= i < |xs| && i < |vs| => (xs[i], vs[i]))
  }

  function Combine(f: Former, vs: seq<Value>): Option<Value> {
    match f
    case MakeSome => if |vs| == 1 then Some(Opt(Some(vs[0]))) else None
    case MakeTuple => Some(Tuple(vs))
    case MakeRecord(ids) => Some(Record(Zip(ids, vs)))
    case Project(field) => if |vs| == 1 && vs[0].Record? then LookupE(vs[0].fields, field) else None
    case Unary(op) =>
      if |vs| == 1 && vs[0].Sc? then Wrapped(Scalars.Unary(op, vs[0].s)) else None
    case Binary(op) =>
      if |vs| == 2 && vs[0].Sc? && vs[1].Sc? then Wrapped(Scalars.Binary(op, vs[0].s, vs[1].s)) else None
  }

  function Wrapped(s: Option<Scalar>): Option<Value> {
    match s
    case None => None
    case Some(x) => Some(Sc(x))
  }

  /* ---------- Binding patterns ---------- */

  /** What is written back when a scope ends: nothing, or the variable's value rebuilt from the
      current values of the bound names. */
  datatype Refresh =
    | Nothing
    | FromTuple(x: string, ts: seq<string>)
    | FromRecord(x: string, ids: seq<(string, string)>, was: Bindings<Value>)

  /** Only a variable is written back to. */
  function TupleRefresh(e: Expr, ts: seq<string>): Refresh {
    if e.Var? then FromTuple(e.x, ts) else Nothing
  }

  function RecordRefresh(e: Expr, ids: seq<(string, string)>, was: Bindings<Value>): Refresh {
    if e.Var? then FromRecord(e.x, ids, was) else Nothing
  }

  /** A pattern matches when the record has all its fields. */
  predicate FieldsPresent(ids: seq<(string, string)>, fields: Bindings<Value>) {
    forall i :: 0 <= i < |ids| ==> LookupE(fields, ids[i].0).Some?
  }

  function Opened(ids: seq<(string, string)>, fields: Bindings<Value>): Env
    requires FieldsPresent(ids, fields)
  {
    seq(|ids|, i requires 0 <= i < |ids| =>
      (match LookupE(ids, ids[i].0) case None => ids[i].1 case Some(name) => name,
       LookupE(fields, ids[i].0).value))
  }

  /** Each bound field takes the current value of its name, the others keep theirs. */
  function Rebuild(env: Env, ids: seq<(string, string)>, was: Bindings<Value>): Captured
    decreases |was|
  {
    if was == [] then Found([])
    else
      match LookupE(ids, was[0].0)
      case None =>
        (match Rebuild(env, ids, was[1..])
         case Missing(x) => Missing(x)
         case Found(rest) => Found([was[0]] + rest))
      case Some(name) =>
        match LookupE(env, name)
        case None => Missing(name)
        case Some(v) =>
          match Rebuild(env, ids, was[1..])
          case Missing(x) => Missing(x)
          case Found(rest) => Found([(was[0].0, v)] + rest)
  }

  datatype Refreshed = Unknown(x: string) | Fresh(env: Env)

  function DoRefresh(r: Refresh, env: Env): Refreshed {
    match r
    case Nothing => Fresh(env)
    case FromTuple(x, ts) =>
      (match LookupAll(env, ts)
       case Missing(y) => Unknown(y)
       case Found(cl) => Fresh(ReplaceE(env, x, Tuple(Values(cl)))))
    case FromRecord(x, ids, was) =>
      match Rebuild(env, ids, was)
      case Missing(y) => Unknown(y)
      case Found(fields) => Fresh(ReplaceE(env, x, Record(fields)))
  }

  /* ---------- Evaluation ---------- */

  /** Evaluates an expression; fuel bounds the depth of the evaluation. */
  function Eval(globals: set<string>, n: nat, e: Expr, env: Env): Outcome
    decreases n, 0
  {
    if n == 0 then Timeout
    else
      match e
      case Const(c) => Done(if c.NoneOf? then Opt(None) else Sc(c.s), env)
      case Var(x) =>
        (match LookupE(env, x)
         case None => Fail(UnknownVariable(x), env)
         case Some(v) => Done(v, env))
      case Form(f, es) => EvalForm(globals, n - 1, f, es, env)
      case Lambda(x, b) =>
        (match LookupAll(env, CaptureNames(globals, x, b))
         case Missing(y) => Fail(UnknownCapture(y), env)
         case Found(cl) => Done(Closure(x, b, cl), env))
      case App(fn, arg) => EvalApp(globals, n - 1, fn, arg, env)
      case Sequence(l, r) =>
        var o := Eval(globals, n - 1, l, env);
        if o.Done? then Eval(globals, n - 1, r, o.env) else o
      case LetIn(x, i, b) =>
        var o := Eval(globals, n - 1, i, env);
        if o.Done? then Scoped(globals, n - 1, b, [(x, o.v)], Nothing, o.env) else o
      case Assign(x, e1) => EvalAssign(globals, n - 1, x, e1, env)
      case CaseOf(x, e1, s, no) =>
        var o := Eval(globals, n - 1, e1, env);
        if !o.Done? then o
        else if !o.v.Opt? then Fail(RunTimeError, o.env)
        else if o.v.o.Some? then Scoped(globals, n - 1, s, [(x, o.v.o.value)], Nothing, o.env)
        else Eval(globals, n - 1, no, o.env)
      case If(p, t, f) =>
        var o := Eval(globals, n - 1, p, env);
        if !o.Done? then o
        else if o.v == Sc(Bool(true)) then Eval(globals, n - 1, t, o.env)
        else if o.v == Sc(Bool(false)) then Eval(globals, n - 1, f, o.env)
        else Fail(RunTimeError, o.env)
      case BindTuple(e1, ts, b) =>
        var o := Eval(globals, n - 1, e1, env);
        if !o.Done? then o
        else if !o.v.Tuple? then Fail(RunTimeError, o.env)
        else Scoped(globals, n - 1, b, Zip(ts, o.v.vs), TupleRefresh(e1, ts), o.env)
      case BindRecord(e1, ids, b) =>
        var o := Eval(globals, n - 1, e1, env);
        if !o.Done? then o
        else if !o.v.Record? || !FieldsPresent(ids, o.v.fields) then Fail(RunTimeError, o.env)
        else Scoped(globals, n - 1, b, Opened(ids, o.v.fields), RecordRefresh(e1, ids, o.v.fields), o.env)
  }

  /** The values of the expressions, as a tuple. */
  function EvalAll(globals: set<string>, n: nat, es: seq<Expr>, env: Env): (o: Outcome)
    ensures o.Done? ==> o.v.Tuple? && |o.v.vs| == |es|
    decreases n, |es| + 1
  {
    if es == [] then Done(UNIT, env)
    else
      var o := Eval(globals, n, es[0], env);
      if !o.Done? then o
      else
        var rest := EvalAll(globals, n, es[1..], o.env);
        if !rest.Done? then rest else Done(Tuple([o.v] + rest.v.vs), rest.env)
  }

  function EvalForm(globals: set<string>, n: nat, f: Former, es: seq<Expr>, env: Env): Outcome
    decreases n, |es| + 2
  {
    var o := EvalAll(globals, n, es, env);
    if !o.Done? then o
    else
      match Combine(f, o.v.vs)
      case None => Fail(RunTimeError, o.env)
      case Some(v) => Done(v, o.env)
  }

  /** Function first, then argument; the body runs under the parameter and what was captured. */
  function EvalApp(globals: set<string>, n: nat, fn: Expr, arg: Expr, env: Env): Outcome
    decreases n, 2
  {
    var o := Eval(globals, n, fn, env);
    if !o.Done? then o
    else
      var a := Eval(globals, n, arg, o.env);
      if !a.Done? then a
      else if !o.v.Closure? then Fail(RunTimeError, a.env)
      else Scoped(globals, n, o.v.body, [(o.v.x, a.v)] + o.v.cl, Nothing, a.env)
  }

  function EvalAssign(globals: set<string>, n: nat, x: string, e: Expr, env: Env): Outcome
    decreases n, 1
  {
    if LookupE(env, x).None? then Fail(UnknownVariable(x), env)
    else
      var o := Eval(globals, n, e, env);
      if o.Done? then Done(UNIT, ReplaceE(o.env, x, o.v)) else o
  }

  /** Evaluates under the pushed bindings and leaves the scope. */
  function Scoped(globals: set<string>, n: nat, b: Expr, pushed: Env, refresh: Refresh, env: Env): Outcome
    decreases n, 1
  {
    Leave(Eval(globals, n, b, pushed + env), refresh, Names(pushed))
  }

  /** The end of a scope: writes back and removes the pushed names one by one. */
  function Leave(o: Outcome, refresh: Refresh, xs: seq<string>): Outcome {
    if o.Done? then Popped(o, DoRefresh(refresh, o.env), xs) else o
  }

  function Popped(o: Outcome, f: Refreshed, xs: seq<string>): Outcome
    requires o.Done?
  {
    match f
    case Unknown(x) => Fail(UnknownVariable(x), o.env)
    case Fresh(env1) => Done(o.v, RemoveAllE(env1, xs))
  }

  /* ---------- The stack discipline ---------- */

  lemma RefreshKeepsNames(r: Refresh, env: Env)
    ensures var f := DoRefresh(r, env); f.Fresh? ==> Names(f.env) == Names(env)
  {
    match r
    case Nothing =>
    case FromTuple(x, ts) =>
      if LookupAll(env, ts).Found? { NamesReplaced(env, x, Tuple(Values(LookupAll(env, ts).cl))); }
    case FromRecord(x, ids, was) =>
      if Rebuild(env, ids, was).Found? { NamesReplaced(env, x, Record(Rebuild(env, ids, was).cl)); }
  }

  /** Removing the pushed names one by one pops exactly the pushed bindings. */
  lemma LeavePops(o: Outcome, refresh: Refresh, xs: seq<string>, ys: seq<string>)
    requires o.Done? ==> Names(o.env) == xs + ys
    ensures var r := Leave(o, refresh, xs);
      r.Done? ==>
        && o.Done? && DoRefresh(refresh, o.env).Fresh? && r.v == o.v && Names(r.env) == ys
        && |xs| <= |DoRefresh(refresh, o.env).env| == |o.env|
        && r.env == DoRefresh(refresh, o.env).env[|xs|..]
  {
    if o.Done? && DoRefresh(refresh, o.env).Fresh? {
      RefreshKeepsNames(refresh, o.env);
      var env1 := DoRefresh(refresh, o.env).env;
      RemoveAllPops(env1, xs, ys);
      assert |Names(o.env)| == |o.env| && |Names(env1)| == |env1|;
    }
  }

  /** A successful evaluation leaves the list of names in the environment exactly as it was, with all
      its repeated and shadowed names. */
  lemma {:induction false} EvalKeepsNames(globals: set<string>, n: nat, e: Expr, env: Env)
    ensures var o := Eval(globals, n, e, env); o.Done? ==> Names(o.env) == Names(env)
    decreases n, 0
  {
    if n > 0 {
      match e
      case Form(_, es) => EvalAllKeepsNames(globals, n - 1, es, env);
      case App(fn, arg) => AppKeepsNames(globals, n - 1, fn, arg, env);
      case Sequence(l, r) =>
        EvalKeepsNames(globals, n - 1, l, env);
        var o := Eval(globals, n - 1, l, env);
        if o.Done? { EvalKeepsNames(globals, n - 1, r, o.env); }
      case LetIn(x, i, b) =>
        EvalKeepsNames(globals, n - 1, i, env);
        var o := Eval(globals, n - 1, i, env);
        if o.Done? { ScopedKeepsNames(globals, n - 1, b, [(x, o.v)], Nothing, o.env); }
      case Assign(x, e1) =>
        EvalKeepsNames(globals, n - 1, e1, env);
        var o := Eval(globals, n - 1, e1, env);
        if o.Done? { NamesReplaced(o.env, x, o.v); }
      case CaseOf(x, e1, s, no) => CaseKeepsNames(globals, n - 1, x, e1, s, no, env);
      case If(p, t, f) =>
        EvalKeepsNames(globals, n - 1, p, env);
        var o := Eval(globals, n - 1, p, env);
        if o.Done? {
          EvalKeepsNames(globals, n - 1, t, o.env);
          EvalKeepsNames(globals, n - 1, f, o.env);
        }
      case BindTuple(e1, ts, b) => BindTupleKeepsNames(globals, n - 1, e1, ts, b, env);
      case BindRecord(e1, ids, b) => BindRecordKeepsNames(globals, n - 1, e1, ids, b, env);
      case _ =>
    }
  }

  lemma BindTupleKeepsNames(globals: set<string>, n: nat, e1: Expr, ts: seq<string>, b: Expr, env: Env)
    ensures var o := Eval(globals, n + 1, BindTuple(e1, ts, b), env); o.Done? ==> Names(o.env) == Names(env)
    decreases n, 3
  {
    EvalKeepsNames(globals, n, e1, env);
    var o := Eval(globals, n, e1, env);
    if o.Done? && o.v.Tuple? {
      ScopedKeepsNames(globals, n, b, Zip(ts, o.v.vs), TupleRefresh(e1, ts), o.env);
    }
  }

  lemma BindRecordKeepsNames(globals: set<string>, n: nat, e1: Expr, ids: seq<(string, string)>, b: Expr, env: Env)
    ensures var o := Eval(globals, n + 1, BindRecord(e1, ids, b), env); o.Done? ==> Names(o.env) == Names(env)
    decreases n, 3
  {
    EvalKeepsNames(globals, n, e1, env);
    var o := Eval(globals, n, e1, env);
    if o.Done? && o.v.Record? && FieldsPresent(ids, o.v.fields) {
      ScopedKeepsNames(globals, n, b, Opened(ids, o.v.fields), RecordRefresh(e1, ids, o.v.fields), o.env);
    }
  }

  lemma CaseKeepsNames(globals: set<string>, n: nat, x: string, e1: Expr, s: Expr, no: Expr, env: Env)
    ensures var o := Eval(globals, n + 1, CaseOf(x, e1, s, no), env); o.Done? ==> Names(o.env) == Names(env)
    decreases n, 3
  {
    EvalKeepsNames(globals, n, e1, env);
    var o := Eval(globals, n, e1, env);
    if o.Done? && o.v.Opt? {
      if o.v.o.Some? { ScopedKeepsNames(globals, n, s, [(x, o.v.o.value)], Nothing, o.env); }
      else { EvalKeepsNames(globals, n, no, o.env); }
    }
  }

  lemma EvalAllKeepsNames(globals: set<string>, n: nat, es: seq<Expr>, env: Env)
    ensures var o := EvalAll(globals, n, es, env); o.Done? ==> Names(o.env) == Names(env)
    decreases n, |es| + 1
  {
    if es != [] {
      EvalKeepsNames(globals, n, es[0], env);
      var o := Eval(globals, n, es[0], env);
      if o.Done? { EvalAllKeepsNames(globals, n, es[1..], o.env); }
    }
  }

  lemma AppKeepsNames(globals: set<string>, n: nat, fn: Expr, arg: Expr, env: Env)
    ensures var o := EvalApp(globals, n, fn, arg, env); o.Done? ==> Names(o.env) == Names(env)
    decreases n, 2
  {
    EvalKeepsNames(globals, n, fn, env);
    var o := Eval(globals, n, fn, env);
    if o.Done? {
      EvalKeepsNames(globals, n, arg, o.env);
      var a := Eval(globals, n, arg, o.env);
      if a.Done? && o.v.Closure? { ScopedKeepsNames(globals, n, o.v.body, [(o.v.x, a.v)] + o.v.cl, Nothing, a.env); }
    }
  }

  lemma ScopedKeepsNames(globals: set<string>, n: nat, b: Expr, pushed: Env, refresh: Refresh, env: Env)
    ensures var o := Scoped(globals, n, b, pushed, refresh, env);
      o.Done? ==>
        var inner := Eval(globals, n, b, pushed + env);
        && Names(o.env) == Names(env)
        && inner.Done? && DoRefresh(refresh, inner.env).Fresh?
        && |pushed| <= |DoRefresh(refresh, inner.env).env| == |pushed| + |env|
        && o == Done(inner.v, DoRefresh(refresh, inner.env).env[|pushed|..])
    decreases n, 1
  {
    EvalKeepsNames(globals, n, b, pushed + env);
    NamesConcat(pushed, env);
    LeavePops(Eval(globals, n, b, pushed + env), refresh, Names(pushed), Names(env));
    assert |Names(pushed)| == |pushed| && |Names(env)| == |env|;
  }

  /** Fuel only bounds how long the evaluation may take: an outcome other than a timeout is the
      outcome for any larger fuel. */
  lemma {:induction false} MoreFuel(globals: set<string>, n: nat, m: nat, e: Expr, env: Env)
    requires n <= m && !Eval(globals, n, e, env).Timeout?
    ensures Eval(globals, m, e, env) == Eval(globals, n, e, env)
    decreases n, 0
  {
    match e
    case Form(f, es) => MoreFuelAll(globals, n - 1, m - 1, es, env);
    case App(fn, arg) => MoreFuelApp(globals, n - 1, m - 1, fn, arg, env);
    case Sequence(l, r) => MoreFuelSequence(globals, n - 1, m - 1, l, r, env);
    case LetIn(x, i, b) => MoreFuelLet(globals, n - 1, m - 1, x, i, b, env);
    case Assign(x, e1) => if LookupE(env, x).Some? { MoreFuel(globals, n - 1, m - 1, e1, env); }
    case CaseOf(x, e1, s, no) => MoreFuelCase(globals, n - 1, m - 1, x, e1, s, no, env);
    case If(p, t, f) => MoreFuelIf(globals, n - 1, m - 1, p, t, f, env);
    case BindTuple(e1, ts, b) => MoreFuelBindTuple(globals, n - 1, m - 1, e1, ts, b, env);
    case BindRecord(e1, ids, b) => MoreFuelBindRecord(globals, n - 1, m - 1, e1, ids, b, env);
    case _ =>
  }

  lemma MoreFuelSequence(globals: set<string>, n: nat, m: nat, l: Expr, r: Expr, env: Env)
    requires n <= m && !Eval(globals, n + 1, Sequence(l, r), env).Timeout?
    ensures Eval(globals, m + 1, Sequence(l, r), env) == Eval(globals, n + 1, Sequence(l, r), env)
    decreases n, 2
  {
    MoreFuel(globals, n, m, l, env);
    var o := Eval(globals, n, l, env);
    if o.Done? { MoreFuel(globals, n, m, r, o.env); }
  }

  lemma MoreFuelLet(globals: set<string>, n: nat, m: nat, x: string, i: Expr, b: Expr, env: Env)
    requires n <= m && !Eval(globals, n + 1, LetIn(x, i, b), env).Timeout?
    ensures Eval(globals, m + 1, LetIn(x, i, b), env) == Eval(globals, n + 1, LetIn(x, i, b), env)
    decreases n, 2
  {
    MoreFuel(globals, n, m, i, env);
    var o := Eval(globals, n, i, env);
    if o.Done? { MoreFuelScoped(globals, n, m, b, [(x, o.v)], Nothing, o.env); }
  }

  lemma MoreFuelIf(globals: set<string>, n: nat, m: nat, p: Expr, t: Expr, f: Expr, env: Env)
    requires n <= m && !Eval(globals, n + 1, If(p, t, f), env).Timeout?
    ensures Eval(globals, m + 1, If(p, t, f), env) == Eval(globals, n + 1, If(p, t, f), env)
    decreases n, 2
  {
    MoreFuel(globals, n, m, p, env);
    var o := Eval(globals, n, p, env);
    if o.Done? {
      if o.v == Sc(Bool(true)) { MoreFuel(globals, n, m, t, o.env); }
      else if o.v == Sc(Bool(false)) { MoreFuel(globals, n, m, f, o.env); }
    }
  }

  lemma MoreFuelCase(globals: set<string>, n: nat, m: nat, x: string, e1: Expr, s: Expr, no: Expr, env: Env)
    requires n <= m && !Eval(globals, n + 1, CaseOf(x, e1, s, no), env).Timeout?
    ensures Eval(globals, m + 1, CaseOf(x, e1, s, no), env) == Eval(globals, n + 1, CaseOf(x, e1, s, no), env)
    decreases n, 2
  {
    MoreFuel(globals, n, m, e1, env);
    var o := Eval(globals, n, e1, env);
    if o.Done? && o.v.Opt? {
      if o.v.o.Some? { MoreFuelScoped(globals, n, m, s, [(x, o.v.o.value)], Nothing, o.env); }
      else { MoreFuel(globals, n, m, no, o.env); }
    }
  }

  lemma MoreFuelBindTuple(globals: set<string>, n: nat, m: nat, e1: Expr, ts: seq<string>, b: Expr, env: Env)
    requires n <= m && !Eval(globals, n + 1, BindTuple(e1, ts, b), env).Timeout?
    ensures Eval(globals, m + 1, BindTuple(e1, ts, b), env) == Eval(globals, n + 1, BindTuple(e1, ts, b), env)
    decreases n, 2
  {
    MoreFuel(globals, n, m, e1, env);
    var o := Eval(globals, n, e1, env);
    if o.Done? && o.v.Tuple? {
      MoreFuelScoped(globals, n, m, b, Zip(ts, o.v.vs), TupleRefresh(e1, ts), o.env);
    }
  }

  lemma MoreFuelBindRecord(globals: set<string>, n: nat, m: nat, e1: Expr, ids: seq<(string, string)>, b: Expr, env: Env)
    requires n <= m && !Eval(globals, n + 1, BindRecord(e1, ids, b), env).Timeout?
    ensures Eval(globals, m + 1, BindRecord(e1, ids, b), env) == Eval(globals, n + 1, BindRecord(e1, ids, b), env)
    decreases n, 2
  {
    MoreFuel(globals, n, m, e1, env);
    var o := Eval(globals, n, e1, env);
    if o.Done? && o.v.Record? && FieldsPresent(ids, o.v.fields) {
      MoreFuelScoped(globals, n, m, b, Opened(ids, o.v.fields), RecordRefresh(e1, ids, o.v.fields), o.env);
    }
  }

  lemma MoreFuelScoped(globals: set<string>, n: nat, m: nat, b: Expr, pushed: Env, refresh: Refresh, env: Env)
    requires n <= m && !Scoped(globals, n, b, pushed, refresh, env).Timeout?
    ensures Scoped(globals, m, b, pushed, refresh, env) == Scoped(globals, n, b, pushed, refresh, env)
    decreases n, 1
  {
    MoreFuel(globals, n, m, b, pushed + env);
  }

  lemma MoreFuelAll(globals: set<string>, n: nat, m: nat, es: seq<Expr>, env: Env)
    requires n <= m && !EvalAll(globals, n, es, env).Timeout?
    ensures EvalAll(globals, m, es, env) == EvalAll(globals, n, es, env)
    decreases n, |es| + 1
  {
    if es != [] {
      MoreFuel(globals, n, m, es[0], env);
      var o := Eval(globals, n, es[0], env);
      if o.Done? { MoreFuelAll(globals, n, m, es[1..], o.env); }
    }
  }

  lemma MoreFuelApp(globals: set<string>, n: nat, m: nat, fn: Expr, arg: Expr, env: Env)
    requires n <= m && !EvalApp(globals, n, fn, arg, env).Timeout?
    ensures EvalApp(globals, m, fn, arg, env) == EvalApp(globals, n, fn, arg, env)
    decreases n, 2
  {
    MoreFuel(globals, n, m, fn, env);
    var o := Eval(globals, n, fn, env);
    if o.Done? {
      MoreFuel(globals, n, m, arg, o.env);
      var a := Eval(globals, n, arg, o.env);
      if a.Done? && o.v.Closure? { MoreFuelScoped(globals, n, m, o.v.body, [(o.v.x, a.v)] + o.v.cl, Nothing, a.env); }
    }
  }

  /* ---------- The interpreter with its environment as state ---------- */

  class Interpreter {
    const globals: set<string>
    var env: Env

    constructor (globals: set<string>, env: Env)
      ensures this.globals == globals && this.env == env
    {
      this.globals := globals;
      this.env := env;
    }

    method Push(bindings: Env)
      modifies this
      ensures env == bindings + old(env)
    {
      env := bindings + env;
    }

    /** Removes the first binding of each name. */
    method Remove(xs: seq<string>)
      modifies this
      ensures env == RemoveAllE(old(env), xs)
    {
      var k := 0;
      while k < |xs|
        invariant 0 <= k <= |xs|
        invariant RemoveAllE(env, xs[k..]) == RemoveAllE(old(env), xs)
      {
        assert xs[k..][1..] == xs[k + 1..];
        env := RemoveE(env, xs[k]);
        k := k + 1;
      }
    }

    method Replace(x: string, v: Value)
      modifies this
      ensures env == ReplaceE(old(env), x, v)
    {
      env := ReplaceE(env, x, v);
    }

    /** Looks the names up one after the other. */
    method Capture(xs: seq<string>) returns (r: Captured)
      ensures r == LookupAll(env, xs)
    {
      var cl: Env := [];
      var k := 0;
      while k < |xs|
        invariant 0 <= k <= |xs| && |cl| == k
        invariant LookupAll(env, xs) == After(cl, LookupAll(env, xs[k..]))
      {
        var v := LookupE(env, xs[k]);
        CaptureStep(env, cl, xs[k..]);
        assert xs[k..][1..] == xs[k + 1..];
        if v.None? { return Missing(xs[k]); }
        cl := cl + [(xs[k], v.value)];
        k := k + 1;
      }
      r := Found(cl);
    }

    /** Runs an expression against the current environment and leaves the new one, also when an error
        is thrown in the middle. */
    method Run(n: nat, e: Expr) returns (o: Outcome)
      modifies this
      ensures o == Eval(globals, n, e, old(env))
      ensures o.Done? ==> env == o.env
      ensures o.Fail? ==> env == o.at
      ensures o.Done? ==> Names(env) == Names(old(env))
      decreases n, 0
    {
      EvalKeepsNames(globals, n, e, env);
      if n == 0 { return Timeout; }
      match e
      case Const(c) => o := Done(if c.NoneOf? then Opt(None) else Sc(c.s), env);
      case Var(x) =>
        var v := LookupE(env, x);
        o := if v.None? then Fail(UnknownVariable(x), env) else Done(v.value, env);
      case Form(f, es) =>
        o := RunAll(n - 1, es);
        if o.Done? {
          var v := Combine(f, o.v.vs);
          o := if v.None? then Fail(RunTimeError, env) else Done(v.value, env);
        }
      case Lambda(x, b) =>
        var cl := Capture(CaptureNames(globals, x, b));
        o := if cl.Missing? then Fail(UnknownCapture(cl.x), env) else Done(Closure(x, b, cl.cl), env);
      case App(fn, arg) =>
        o := Run(n - 1, fn);
        if o.Done? {
          var f := o.v;
          o := Run(n - 1, arg);
          if o.Done? {
            if f.Closure? { o := RunScoped(n - 1, f.body, [(f.x, o.v)] + f.cl, Nothing); }
            else { o := Fail(RunTimeError, env); }
          }
        }
      case Sequence(l, r) =>
        o := Run(n - 1, l);
        if o.Done? { o := Run(n - 1, r); }
      case LetIn(x, i, b) =>
        o := Run(n - 1, i);
        if o.Done? { o := RunScoped(n - 1, b, [(x, o.v)], Nothing); }
      case Assign(x, e1) =>
        if LookupE(env, x).None? { return Fail(UnknownVariable(x), env); }
        o := Run(n - 1, e1);
        if o.Done? {
          Replace(x, o.v);
          o := Done(UNIT, env);
        }
      case CaseOf(x, e1, s, no) =>
        o := Run(n - 1, e1);
        if o.Done? {
          if !o.v.Opt? { o := Fail(RunTimeError, env); }
          else if o.v.o.Some? { o := RunScoped(n - 1, s, [(x, o.v.o.value)], Nothing); }
          else { o := Run(n - 1, no); }
        }
      case If(p, t, f) =>
        o := Run(n - 1, p);
        if o.Done? {
          if o.v == Sc(Bool(true)) { o := Run(n - 1, t); }
          else if o.v == Sc(Bool(false)) { o := Run(n - 1, f); }
          else { o := Fail(RunTimeError, env); }
        }
      case _ => o := RunBind(n - 1, e);
    }

    method RunBind(n: nat, e: Expr) returns (o: Outcome)
      requires e.BindTuple? || e.BindRecord?
      modifies this
      ensures o == Eval(globals, n + 1, e, old(env))
      ensures o.Done? ==> env == o.env
      ensures o.Fail? ==> env == o.at
      decreases n, 2
    {
      o := Run(n, e.e);
      if o.Done? {
        if e.BindTuple? && o.v.Tuple? {
          o := RunScoped(n, e.body, Zip(e.ts, o.v.vs), TupleRefresh(e.e, e.ts));
        } else if e.BindRecord? && o.v.Record? && FieldsPresent(e.ids, o.v.fields) {
          o := RunScoped(n, e.body, Opened(e.ids, o.v.fields), RecordRefresh(e.e, e.ids, o.v.fields));
        } else {
          o := Fail(RunTimeError, env);
        }
      }
    }

    method RunAll(n: nat, es: seq<Expr>) returns (o: Outcome)
      modifies this
      ensures o == EvalAll(globals, n, es, old(env))
      ensures o.Done? ==> env == o.env
      ensures o.Fail? ==> env == o.at
      decreases n, |es| + 1
    {
      var vs: seq<Value> := [];
      var k := 0;
      while k < |es|
        invariant 0 <= k <= |es| && |vs| == k
        invariant EvalAll(globals, n, es, old(env)) ==
          var rest := EvalAll(globals, n, es[k..], env);
          if rest.Done? then Done(Tuple(vs + rest.v.vs), rest.env) else rest
      {
        assert es[k..][1..] == es[k + 1..];
        o := Run(n, es[k]);
        if !o.Done? { return; }
        vs := vs + [o.v];
        k := k + 1;
      }
      o := Done(Tuple(vs), env);
    }

    method RunScoped(n: nat, b: Expr, pushed: Env, refresh: Refresh) returns (o: Outcome)
      modifies this
      ensures o == Scoped(globals, n, b, pushed, refresh, old(env))
      ensures o.Done? ==> env == o.env
      ensures o.Fail? ==> env == o.at
      decreases n, 1
    {
      Push(pushed);
      o := Run(n, b);
      if o.Done? {
        var r := DoRefresh(refresh, env);
        if r.Unknown? { return Fail(UnknownVariable(r.x), env); }
        env := r.env;
        Remove(Names(pushed));
        o := Done(o.v, env);
      }
    }
  }
}
