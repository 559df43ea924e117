/** The parser turns the assignment x.f1...fn = e into nested binds around one plain assignment. The
    desugared program updates exactly the path. */
module AssignDesugar {
  import opened Options
  import opened Decimals
  import opened Environments
  import opened Interp
  import opened Transparency

  /* ---------- The desugaring ---------- */

  /** The generated name for the given part of the path at the given position. */
  function Sym(name: string, cnt: nat): string { "__" + name + "_asn" + Digits(cnt) }

  /** Each name of the path with its generated name. */
  function Syms(l: seq<string>): seq<(string, string)> {
    seq(|l|, i requires 0 <= i < |l| => (Sym(l[i], i), l[i]))
  }

  /** One bind of the nest: the name to bind, the variable to open, the field. */
  datatype Layer = Layer(sym: string, prev: string, field: string)

  /** The first layer opens the variable itself, each later one the name the layer before has bound. */
  function Layers(l: seq<string>): seq<Layer>
    requires |l| > 0
  {
    var syms := Syms(l);
    seq(|l| - 1, i requires 0 <= i < |l| - 1 =>
      Layer(syms[i + 1].0, if i == 0 then syms[0].1 else syms[i].0, syms[i + 1].1))
  }

  function Nest(layers: seq<Layer>, inner: Expr): Expr
    decreases |layers|
  {
    if layers == [] then inner
    else BindRecord(Var(layers[0].prev), [(layers[0].field, layers[0].sym)], Nest(layers[1..], inner))
  }

  function MkAssign(l: seq<string>, e: Expr): Expr
    requires |l| > 0
  {
    if |l| == 1 then Assign(l[0], e)
    else
      var layers := Layers(l);
      Nest(layers, Assign(layers[|layers| - 1].sym, e))
  }

  /* ---------- Paths ---------- */

  function ReadPath(v: Value, fs: seq<string>): Option<Value>
    decreases |fs|
  {
    if fs == [] then Some(v)
    else if !v.Record? || LookupE(v.fields, fs[0]).None? then None
    else ReadPath(LookupE(v.fields, fs[0]).value, fs[1..])
  }

  /** Replaces what the path leads to. */
  function UpdatePath(v: Value, fs: seq<string>, new_: Value): Value
    requires ReadPath(v, fs).Some?
    decreases |fs|
  {
    if fs == [] then new_
    else Record(ReplaceE(v.fields, fs[0], UpdatePath(LookupE(v.fields, fs[0]).value, fs[1..], new_)))
  }

  /** The two paths part at some position. */
  predicate Diverge(p: seq<string>, q: seq<string>) {
    exists i :: 0 <= i < |p| && i < |q| && p[i] != q[i]
  }

  /** Reading the path gives the new value; every path that parts from it reads as before. */
  lemma {:induction false} UpdateReads(v: Value, fs: seq<string>, w: Value, ps: seq<string>)
    requires ReadPath(v, fs).Some?
    ensures ReadPath(UpdatePath(v, fs, w), fs) == Some(w)
    ensures Diverge(fs, ps) ==> ReadPath(UpdatePath(v, fs, w), ps) == ReadPath(v, ps)
    decreases |fs|
  {
    if fs != [] {
      var f, rest := fs[0], fs[1..];
      var inner := LookupE(v.fields, f).value;
      var u := UpdatePath(inner, rest, w);
      LookupReplaced(v.fields, f, u, f);
      UpdateReads(inner, rest, w, []);
      if Diverge(fs, ps) {
        LookupReplaced(v.fields, f, u, ps[0]);
        if ps[0] == f {
          var i :| 0 <= i < |fs| && i < |ps| && fs[i] != ps[i];
          assert rest[i - 1] != ps[1..][i - 1];
          UpdateReads(inner, rest, w, ps[1..]);
        }
      }
    }
  }

  /* ---------- Generated names ---------- */

  /** A generated name determines its counter and the part of the path it stands for. */
  lemma SymsDiffer(a: string, i: nat, b: string, j: nat)
    requires Sym(a, i) == Sym(b, j)
    ensures i == j && a == b
  {
    var p, q := "__" + a + "_asn", "__" + b + "_asn";
    var s, d, d' := Sym(a, i), Digits(i), Digits(j);
    assert s == p + d && s == q + d';
    assert p[|p| - 1] == 'n' && q[|q| - 1] == 'n';
    DigitsOnly(i);
    DigitsOnly(j);
    NoEarlierDigits(p, d, q, d');
    NoEarlierDigits(q, d', p, d);
    assert d == s[|p|..] && d' == s[|q|..];
    DigitsInjective(i, j);
    assert p == s[..|p|] == q;
    assert a == p[2..|p| - 4] && b == q[2..|q| - 4];
  }

  lemma NoEarlierDigits(p: string, d: string, q: string, d': string)
    requires p + d == q + d' && p != [] && p[|p| - 1] == 'n'
    requires forall i :: 0 <= i < |d'| ==> '0' <= d'[i] <= '9'
    ensures |p| <= |q|
  {
    var s := p + d;
    assert s[|p| - 1] == 'n';
    assert forall i :: |q| <= i < |s| ==> s[i] == d'[i - |q|];
  }

  /** The names generated for the parts of a path, counted from c. */
  ghost predicate Generated(y: string, c: nat, fs: seq<string>) {
    exists j :: 0 <= j < |fs| && y == SymAt(c, fs, j)
  }

  function SymAt(c: nat, fs: seq<string>, j: nat): string
    requires j < |fs|
  {
    Sym(fs[j], c + j)
  }

  /* ---------- The nest, inside out ---------- */

  /** The same nest by recursion on the path. */
  function NestFrom(p: string, c: nat, fs: seq<string>, e: Expr): Expr
    decreases |fs|
  {
    if fs == [] then Assign(p, e)
    else BindRecord(Var(p), [(fs[0], Sym(fs[0], c))], NestFrom(Sym(fs[0], c), c + 1, fs[1..], e))
  }

  function LayerAt(p: string, c: nat, fs: seq<string>, i: nat): Layer
    requires i < |fs|
  {
    Layer(SymAt(c, fs, i), if i == 0 then p else SymAt(c, fs, i - 1), fs[i])
  }

  lemma LayerAtNext(p: string, c: nat, fs: seq<string>, i: nat)
    requires 0 < i < |fs|
    ensures LayerAt(p, c, fs, i) == LayerAt(SymAt(c, fs, 0), c + 1, fs[1..], i - 1)
  {
    assert fs[1..][i - 1] == fs[i];
    if i > 1 { assert fs[1..][i - 2] == fs[i - 1]; }
  }

  lemma {:induction false} NestIs(layers: seq<Layer>, p: string, c: nat, fs: seq<string>, e: Expr)
    requires |layers| == |fs| > 0 && forall i :: 0 <= i < |fs| ==> layers[i] == LayerAt(p, c, fs, i)
    ensures Nest(layers, Assign(layers[|layers| - 1].sym, e)) == NestFrom(p, c, fs, e)
    decreases |fs|
  {
    var rest, s := fs[1..], SymAt(c, fs, 0);
    assert layers[0] == LayerAt(p, c, fs, 0);
    if rest != [] {
      forall i | 0 <= i < |rest| ensures layers[1..][i] == LayerAt(s, c + 1, rest, i) {
        assert layers[i + 1] == LayerAt(p, c, fs, i + 1);
        LayerAtNext(p, c, fs, i + 1);
      }
      NestIs(layers[1..], s, c + 1, rest, e);
    } else {
      assert Nest(layers[1..], Assign(s, e)) == Assign(s, e);
    }
  }

  lemma MkAssignNests(x: string, fs: seq<string>, e: Expr)
    ensures MkAssign([x] + fs, e) == NestFrom(x, 1, fs, e)
  {
    if fs != [] {
      var l := [x] + fs;
      forall i | 0 <= i < |fs| ensures Layers(l)[i] == LayerAt(x, 1, fs, i) {
        assert l[i + 1] == fs[i];
        if i > 0 { assert l[i] == fs[i - 1]; }
      }
      NestIs(Layers(l), x, 1, fs, e);
    }
  }

  /* ---------- What the nest does ---------- */

  /** The bindings the assigned expression runs under, innermost first. */
  function PathBindings(v: Value, c: nat, fs: seq<string>): (r: Env)
    requires ReadPath(v, fs).Some?
    ensures |r| == |fs|
    decreases |fs|
  {
    if fs == [] then []
    else
      var inner := LookupE(v.fields, fs[0]).value;
      PathBindings(inner, c + 1, fs[1..]) + [(Sym(fs[0], c), inner)]
  }

  /** The outcome of assigning along the path, from the outcome of the assigned expression. */
  function Assigned(r: Outcome, depth: nat, x: string, v: Value, fs: seq<string>): Outcome
    requires ReadPath(v, fs).Some? && (r.Done? ==> depth <= |r.env|)
  {
    if r.Done? then Done(UNIT, ReplaceE(r.env[depth..], x, UpdatePath(v, fs, r.v))) else r
  }

  lemma {:induction false} RebuildOne(env: Env, f: string, s: string, u: Value, was: Bindings<Value>)
    requires LookupE(env, s) == Some(u)
    ensures Rebuild(env, [(f, s)], was) == Found(ReplaceE(was, f, u))
    decreases |was|
  {
    if was != [] {
      RebuildOne(env, f, s, u, was[1..]);
      assert [(f, s)][1..] == [];
      assert ReplaceE(was, f, u) == [ReplaceE(was, f, u)[0]] + ReplaceE(was[1..], f, u);
    }
  }

  lemma ReplaceAbsent(env: Env, s: string, u: Value)
    requires s !in Names(env)
    ensures ReplaceE(env, s, u) == env
  {
    forall i | 0 <= i < |env| ensures env[i].0 != s { assert Names(env)[i] == env[i].0; }
  }

  /** The end of one layer: the record is rebuilt from the bound name, which is then removed. */
  lemma WriteBack(env: Env, s: string, u: Value, p: string, f: string, was: Bindings<Value>, ys: seq<string>)
    requires Names(env) == [s] + ys && s !in ys && p != s
    ensures env != []
    ensures var r := DoRefresh(FromRecord(p, [(f, s)], was), ReplaceE(env, s, u));
      r.Fresh? && RemoveAllE(r.env, [s]) == ReplaceE(env[1..], p, Record(ReplaceE(was, f, u)))
  {
    NamesSplit(env, [s], ys);
    assert Names(env)[0] == env[0].0;
    ReplaceAbsent(env[1..], s, u);
    var env1 := [(s, u)] + env[1..];
    assert ReplaceE(env, s, u) == env1;
    RebuildOne(env1, f, s, u, was);
    var w := Record(ReplaceE(was, f, u));
    assert ReplaceE(env1, p, w) == [(s, u)] + ReplaceE(env[1..], p, w);
    assert RemoveAllE(ReplaceE(env1, p, w), [s]) == RemoveE(ReplaceE(env1, p, w), s);
  }

  /** No generated name is bound yet. */
  ghost predicate Unused(c: nat, fs: seq<string>, env: Env) {
    forall j :: 0 <= j < |fs| ==> SymAt(c, fs, j) !in Names(env)
  }

  lemma UnusedNext(c: nat, fs: seq<string>, env: Env, inner: Value)
    requires fs != [] && Unused(c, fs, env)
    ensures Unused(c + 1, fs[1..], [(SymAt(c, fs, 0), inner)] + env)
  {
    var s, rest := SymAt(c, fs, 0), fs[1..];
    NamesConcat([(s, inner)], env);
    var c1 := c + 1;
    forall j | 0 <= j < |rest| ensures SymAt(c1, rest, j) !in Names([(s, inner)] + env) {
      assert SymAt(c1, rest, j) == SymAt(c, fs, j + 1);
      if SymAt(c, fs, j + 1) == s { SymsDiffer(fs[j + 1], c + j + 1, fs[0], c); }
    }
  }

  lemma BoundIsNamed(env: Env, p: string, s: string)
    requires LookupE(env, p).Some? && s !in Names(env)
    ensures p != s
  {
    LookupIffNamed(env, p);
  }

  /** One layer around whatever it contains. */
  lemma LayerRuns(g: set<string>, n: nat, p: string, f: string, s: string, rest: Expr, env: Env, w: Value, inner: Value)
    requires n > 0 && LookupE(env, p) == Some(w) && w.Record? && LookupE(w.fields, f) == Some(inner)
    ensures Eval(g, n + 1, BindRecord(Var(p), [(f, s)], rest), env) ==
      Leave(Eval(g, n, rest, [(s, inner)] + env), FromRecord(p, [(f, s)], w.fields), [s])
  {
    assert Eval(g, n, Var(p), env) == Done(w, env);
    assert Opened([(f, s)], w.fields) == [(s, inner)];
    assert Names<Value>([(s, inner)]) == [s];
  }

  lemma AssignRuns(g: set<string>, m: nat, p: string, e: Expr, env: Env)
    requires LookupE(env, p).Some?
    ensures var r := Eval(g, m, e, env);
      Eval(g, m + 1, Assign(p, e), env) == if r.Done? then Done(UNIT, ReplaceE(r.env, p, r.v)) else r
  {}

  lemma KeepsLength(g: set<string>, m: nat, e: Expr, env: Env)
    ensures var r := Eval(g, m, e, env); r.Done? ==> Names(r.env) == Names(env) && |r.env| == |env|
  {
    EvalKeepsNames(g, m, e, env);
    assert |Names(env)| == |env|;
    var r := Eval(g, m, e, env);
    if r.Done? { assert |Names(r.env)| == |r.env|; }
  }

  /** With outcome r for the assigned expression, the nest updates the value of the variable along the
      path, from the value it had at the start. */
  ghost predicate NestWorks(g: set<string>, m: nat, p: string, c: nat, fs: seq<string>, e: Expr, env: Env, w: Value, r: Outcome)
    requires ReadPath(w, fs).Some?
  {
    && (r.Done? ==> |r.env| == |fs| + |env|)
    && Eval(g, m + 1 + |fs|, NestFrom(p, c, fs, e), env) == Assigned(r, |fs|, p, w, fs)
  }

  lemma AssignedHere(r: Outcome, p: string, w: Value)
    ensures Assigned(r, 0, p, w, []) == if r.Done? then Done(UNIT, ReplaceE(r.env, p, r.v)) else r
  {
    if r.Done? { assert r.env[0..] == r.env; }
  }

  lemma NestBase(g: set<string>, m: nat, p: string, c: nat, e: Expr, env: Env, w: Value, r: Outcome)
    requires LookupE(env, p) == Some(w) && r == Eval(g, m, e, env)
    ensures NestWorks(g, m, p, c, [], e, env, w, r)
  {
    KeepsLength(g, m, e, env);
    AssignRuns(g, m, p, e, env);
    AssignedHere(r, p, w);
  }

  lemma {:induction false} NestRuns(g: set<string>, m: nat, p: string, c: nat, fs: seq<string>, e: Expr, env: Env, w: Value)
    requires LookupE(env, p) == Some(w) && ReadPath(w, fs).Some? && Unused(c, fs, env)
    ensures NestWorks(g, m, p, c, fs, e, env, w, Eval(g, m, e, PathBindings(w, c, fs) + env))
    decreases |fs|
  {
    if fs == [] {
      assert PathBindings(w, c, fs) + env == env;
      NestBase(g, m, p, c, e, env, w, Eval(g, m, e, env));
    } else {
      var s, rest := SymAt(c, fs, 0), fs[1..];
      var inner := LookupE(w.fields, fs[0]).value;
      var env0: Env := [(s, inner)] + env;
      var q := PathBindings(inner, c + 1, rest);
      UnusedNext(c, fs, env, inner);
      NestRuns(g, m, s, c + 1, rest, e, env0, inner);
      BoundIsNamed(env, p, s);
      KeepsLength(g, m, e, q + env0);
      NestStep(g, m, p, c, fs, e, env, w, s, inner, q, Eval(g, m, e, q + env0));
      assert q + env0 == PathBindings(w, c, fs) + env;
    }
  }

  lemma NestStep(g: set<string>, m: nat, p: string, c: nat, fs: seq<string>, e: Expr, env: Env, w: Value,
                 s: string, inner: Value, q: Env, r: Outcome)
    requires fs != [] && LookupE(env, p) == Some(w) && w.Record? && LookupE(w.fields, fs[0]) == Some(inner)
    requires ReadPath(inner, fs[1..]).Some? && s == SymAt(c, fs, 0) && s !in Names(env) && p != s && |q| == |fs| - 1
    requires r.Done? ==> Names(r.env) == Names(q + ([(s, inner)] + env))
    requires NestWorks(g, m, s, c + 1, fs[1..], e, [(s, inner)] + env, inner, r)
    ensures NestWorks(g, m, p, c, fs, e, env, w, r)
  {
    LayerRuns(g, m + |fs|, p, fs[0], s, NestFrom(s, c + 1, fs[1..], e), env, w, inner);
    LayerAssigned(r, q, s, inner, env, p, fs, w);
  }

  lemma LayerAssigned(r: Outcome, q: Env, s: string, inner: Value, env: Env, p: string, fs: seq<string>, w: Value)
    requires fs != [] && w.Record? && LookupE(w.fields, fs[0]) == Some(inner) && ReadPath(inner, fs[1..]).Some?
    requires s !in Names(env) && p != s && |q| == |fs| - 1
    requires r.Done? ==> Names(r.env) == Names(q + ([(s, inner)] + env)) && |r.env| == |fs| + |env|
    ensures Leave(Assigned(r, |fs| - 1, s, inner, fs[1..]), FromRecord(p, [(fs[0], s)], w.fields), [s]) == Assigned(r, |fs|, p, w, fs)
  {
    if r.Done? { LayerEnds(r.env, q, s, inner, env, p, fs[0], w.fields, UpdatePath(inner, fs[1..], r.v)); }
  }

  lemma LayerEnds(env1: Env, q: Env, s: string, inner: Value, env: Env, p: string, f: string, was: Bindings<Value>, u: Value)
    requires Names(env1) == Names(q + ([(s, inner)] + env)) && s !in Names(env) && p != s
    ensures |env1| == |q| + 1 + |env|
    ensures var r := DoRefresh(FromRecord(p, [(f, s)], was), ReplaceE(env1[|q|..], s, u));
      r.Fresh? && RemoveAllE(r.env, [s]) == ReplaceE(env1[|q| + 1..], p, Record(ReplaceE(was, f, u)))
  {
    NamesConcat(q, [(s, inner)] + env);
    NamesConcat([(s, inner)], env);
    assert Names<Value>([(s, inner)]) == [s];
    assert |Names(q)| == |q| && |Names(env)| == |env|;
    NamesSplit(env1, Names(q), [s] + Names(env));
    WriteBack(env1[|q|..], s, u, p, f, was, Names(env));
    assert env1[|q|..][1..] == env1[|q| + 1..];
  }

  /** When the variable is not bound or the path leads nowhere, the nest fails. */
  lemma {:induction false} NestFails(g: set<string>, m: nat, p: string, c: nat, fs: seq<string>, e: Expr, env: Env)
    requires LookupE(env, p).None? || ReadPath(LookupE(env, p).value, fs).None?
    ensures Eval(g, m + 1 + |fs|, NestFrom(p, c, fs, e), env).Fail?
    decreases |fs|
  {
    if fs != [] && LookupE(env, p).Some? {
      var w, f, s := LookupE(env, p).value, fs[0], Sym(fs[0], c);
      if w.Record? && LookupE(w.fields, f).Some? {
        NestFails(g, m, s, c + 1, fs[1..], e, [(s, LookupE(w.fields, f).value)] + env);
        InnerFails(g, m + |fs|, p, f, s, NestFrom(s, c + 1, fs[1..], e), env, w, LookupE(w.fields, f).value);
      } else {
        LayerFails(g, m + |fs|, p, f, s, NestFrom(s, c + 1, fs[1..], e), env);
      }
    }
  }

  lemma InnerFails(g: set<string>, n: nat, p: string, f: string, s: string, rest: Expr, env: Env, w: Value, inner: Value)
    requires n > 0 && LookupE(env, p) == Some(w) && w.Record? && LookupE(w.fields, f) == Some(inner)
    requires Eval(g, n, rest, [(s, inner)] + env).Fail?
    ensures Eval(g, n + 1, BindRecord(Var(p), [(f, s)], rest), env).Fail?
  {
    LayerRuns(g, n, p, f, s, rest, env, w, inner);
  }

  lemma LayerFails(g: set<string>, n: nat, p: string, f: string, s: string, rest: Expr, env: Env)
    requires n > 0 && LookupE(env, p).Some?
    requires !LookupE(env, p).value.Record? || LookupE(LookupE(env, p).value.fields, f).None?
    ensures Eval(g, n + 1, BindRecord(Var(p), [(f, s)], rest), env).Fail?
  {
    var w := LookupE(env, p).value;
    assert Eval(g, n, Var(p), env) == Done(w, env);
    assert [(f, s)][0].0 == f;
    assert w.Record? ==> !FieldsPresent([(f, s)], w.fields);
  }

  /* ---------- Assigning to a field ---------- */

  /** The assignment x.f1...fn = e, for any depth and any e whatsoever. When the path resolves, e runs
      under the bindings of the path; if it gives a value, x ends as its value from before e with the
      path updated, and all other variables as e has left them. When the path does not resolve the
      assignment fails. */
  lemma FieldAssignment(g: set<string>, m: nat, x: string, fs: seq<string>, e: Expr, env: Env)
    requires Unused(1, fs, env)
    ensures var o := Eval(g, m + 1 + |fs|, MkAssign([x] + fs, e), env);
      if LookupE(env, x).Some? && ReadPath(LookupE(env, x).value, fs).Some? then
        var w := LookupE(env, x).value;
        var r := Eval(g, m, e, PathBindings(w, 1, fs) + env);
        (r.Done? ==> |r.env| == |fs| + |env|) && o == Assigned(r, |fs|, x, w, fs)
      else o.Fail?
  {
    MkAssignNests(x, fs, e);
    if LookupE(env, x).Some? && ReadPath(LookupE(env, x).value, fs).Some? {
      NestRuns(g, m, x, 1, fs, e, env, LookupE(env, x).value);
    } else {
      NestFails(g, m, x, 1, fs, e, env);
    }
  }

  /* ---------- Assigning any expression ---------- */

  /** The names generated for the parts of a path. */
  function GeneratedNames(c: nat, fs: seq<string>): set<string> { set j | 0 <= j < |fs| :: SymAt(c, fs, j) }

  lemma {:induction false} PathHidden(v: Value, c: nat, fs: seq<string>)
    requires ReadPath(v, fs).Some?
    ensures Hides(PathBindings(v, c, fs), GeneratedNames(c, fs))
    decreases |fs|
  {
    if fs != [] {
      var inner, rest := LookupE(v.fields, fs[0]).value, fs[1..];
      PathHidden(inner, c + 1, rest);
      NamesConcat(PathBindings(inner, c + 1, rest), [(Sym(fs[0], c), inner)]);
      forall y | y in Names(PathBindings(inner, c + 1, rest)) ensures y in GeneratedNames(c, fs) {
        var c1 := c + 1;
        var j :| 0 <= j < |rest| && y == SymAt(c1, rest, j);
        assert y == SymAt(c, fs, j + 1);
      }
      assert SymAt(c, fs, 0) in GeneratedNames(c, fs);
    }
  }

  /** The assignment does what assigning the value of e in place would do: with r the outcome of e by
      itself, it times out or fails with it, or gives x its value from before e, updated at the path. */
  predicate AssignsInPlace(o: Outcome, r: Outcome, x: string, w: Value, fs: seq<string>)
    requires ReadPath(w, fs).Some?
  {
    match r
    case Timeout => o.Timeout?
    case Fail(err, _) => o.Fail? && o.err == err
    case Done(v, env) => o == Done(UNIT, ReplaceE(env, x, UpdatePath(w, fs, v)))
  }

  lemma PathDropped(r: Outcome, r': Outcome, x: string, w: Value, fs: seq<string>, q: Env, hidden: set<string>)
    requires ReadPath(w, fs).Some? && |q| == |fs| && Same(r, r', 0, q, hidden)
    ensures (r'.Done? ==> |fs| <= |r'.env|) && AssignsInPlace(Assigned(r', |fs|, x, w, fs), r, x, w, fs)
  {
    if r.Done? { assert r'.env == q + r.env; }
  }

  lemma PathIsHidden(g: set<string>, m: nat, x: string, fs: seq<string>, e: Expr, env: Env, w: Value)
    requires Avoids(e, GeneratedNames(1, fs)) && Clean(env, GeneratedNames(1, fs)) && ReadPath(w, fs).Some?
    ensures var r := Eval(g, m, e, PathBindings(w, 1, fs) + env);
      (r.Done? ==> |fs| <= |r.env|) && AssignsInPlace(Assigned(r, |fs|, x, w, fs), Eval(g, m, e, env), x, w, fs)
  {
    var q, hidden := PathBindings(w, 1, fs), GeneratedNames(1, fs);
    PathHidden(w, 1, fs);
    Transparent(g, m, e, env, 0, q, hidden);
    assert Insert(env, 0, q) == q + env;
    PathDropped(Eval(g, m, e, env), Eval(g, m, e, q + env), x, w, fs, q, hidden);
  }

  /** The assignment x.f1...fn = e for any depth and any e, whatever it calls, assigns or binds: as long
      as neither e nor the function values around it name a generated name, the bindings of the path do
      not show, and the outcome is that of e by itself with the path of x updated. */
  lemma AnyFieldAssignment(g: set<string>, m: nat, x: string, fs: seq<string>, e: Expr, env: Env)
    requires Unused(1, fs, env) && Avoids(e, GeneratedNames(1, fs)) && Clean(env, GeneratedNames(1, fs))
    ensures var o := Eval(g, m + 1 + |fs|, MkAssign([x] + fs, e), env);
      if LookupE(env, x).Some? && ReadPath(LookupE(env, x).value, fs).Some? then
        AssignsInPlace(o, Eval(g, m, e, env), x, LookupE(env, x).value, fs)
      else o.Fail?
  {
    FieldAssignment(g, m, x, fs, e, env);
    if LookupE(env, x).Some? && ReadPath(LookupE(env, x).value, fs).Some? { PathIsHidden(g, m, x, fs, e, env, LookupE(env, x).value); }
  }

  /** What the update means for later reads: the path has the value of e, a path that parts from it the
      value from before e, and every other variable the value e has left it with. */
  lemma AssignedReads(r: Outcome, x: string, w: Value, fs: seq<string>, ps: seq<string>, y: string)
    requires r.Done? && ReadPath(w, fs).Some? && LookupE(r.env, x).Some?
    ensures var env := ReplaceE(r.env, x, UpdatePath(w, fs, r.v));
      && LookupE(env, x).Some? && ReadPath(LookupE(env, x).value, fs) == Some(r.v)
      && (Diverge(fs, ps) ==> ReadPath(LookupE(env, x).value, ps) == ReadPath(w, ps))
      && (y != x ==> LookupE(env, y) == LookupE(r.env, y))
  {
    LookupReplaced(r.env, x, UpdatePath(w, fs, r.v), x);
    LookupReplaced(r.env, x, UpdatePath(w, fs, r.v), y);
    UpdateReads(w, fs, r.v, ps);
  }

  /** For every e that succeeds, in one statement about the environments before and after. */
  lemma AnyFieldAssigned(g: set<string>, m: nat, x: string, fs: seq<string>, e: Expr, env: Env, ps: seq<string>, y: string)
    requires Unused(1, fs, env) && Avoids(e, GeneratedNames(1, fs)) && Clean(env, GeneratedNames(1, fs))
    requires LookupE(env, x).Some? && ReadPath(LookupE(env, x).value, fs).Some? && Eval(g, m, e, env).Done?
    ensures var r, o := Eval(g, m, e, env), Eval(g, m + 1 + |fs|, MkAssign([x] + fs, e), env);
      && o.Done? && o.v == UNIT && Names(o.env) == Names(env)
      && LookupE(o.env, x).Some? && ReadPath(LookupE(o.env, x).value, fs) == Some(r.v)
      && (Diverge(fs, ps) ==> ReadPath(LookupE(o.env, x).value, ps) == ReadPath(LookupE(env, x).value, ps))
      && (y != x ==> LookupE(o.env, y) == LookupE(r.env, y))
  {
    AnyFieldAssignment(g, m, x, fs, e, env);
    EvalKeepsNames(g, m, e, env);
    var w, r := LookupE(env, x).value, Eval(g, m, e, env);
    LookupIffNamed(env, x);
    LookupIffNamed(r.env, x);
    AssignedReads(r, x, w, fs, ps, y);
    NamesReplaced(r.env, x, UpdatePath(w, fs, r.v));
  }

  lemma {:induction false} InnermostBinding(v: Value, c: nat, fs: seq<string>)
    requires fs != [] && ReadPath(v, fs).Some?
    ensures PathBindings(v, c, fs)[0].0 == SymAt(c, fs, |fs| - 1)
    decreases |fs|
  {
    if |fs| > 1 {
      var inner, rest, c1 := LookupE(v.fields, fs[0]).value, fs[1..], c + 1;
      InnermostBinding(inner, c1, rest);
      assert SymAt(c1, rest, |rest| - 1) == SymAt(c, fs, |fs| - 1);
    }
  }

  /** The condition is needed: on every path, the generated name itself has no value where the assignment
      stands, yet assigning it succeeds. */
  lemma GeneratedNameShows(g: set<string>, m: nat, x: string, fs: seq<string>, env: Env)
    requires m > 0 && fs != [] && Unused(1, fs, env)
    requires LookupE(env, x).Some? && ReadPath(LookupE(env, x).value, fs).Some?
    ensures var e := Var(SymAt(1, fs, |fs| - 1));
      Eval(g, m, e, env).Fail? && Eval(g, m + 1 + |fs|, MkAssign([x] + fs, e), env).Done?
  {
    var w, s := LookupE(env, x).value, SymAt(1, fs, |fs| - 1);
    LookupIffNamed(env, s);
    InnermostBinding(w, 1, fs);
    FieldAssignment(g, m, x, fs, Var(s), env);
  }

  /* ---------- Quiet expressions ---------- */

  /** No assignment, application or bind outside the bodies of function values. */
  predicate Quiet(e: Expr) {
    match e
    case Const(_) => true
    case Var(_) => true
    case Form(_, es) => AllQuiet(es)
    case Lambda(_, _) => true
    case App(_, _) => false
    case Sequence(l, r) => Quiet(l) && Quiet(r)
    case LetIn(_, i, b) => Quiet(i) && Quiet(b)
    case Assign(_, _) => false
    case CaseOf(_, e1, s, n) => Quiet(e1) && Quiet(s) && Quiet(n)
    case If(p, t, f) => Quiet(p) && Quiet(t) && Quiet(f)
    case BindTuple(_, _, _) => false
    case BindRecord(_, _, _) => false
  }

  predicate AllQuiet(es: seq<Expr>) {
    es == [] || (Quiet(es[0]) && AllQuiet(es[1..]))
  }

  lemma {:induction false} QuietKeepsEnv(globals: set<string>, n: nat, e: Expr, env: Env)
    requires Quiet(e)
    ensures var o := Eval(globals, n, e, env); o.Done? ==> o.env == env
    decreases n, 0
  {
    if n > 0 {
      match e
      case Form(_, es) => AllQuietKeepsEnv(globals, n - 1, es, env);
      case Sequence(l, r) =>
        QuietKeepsEnv(globals, n - 1, l, env);
        QuietKeepsEnv(globals, n - 1, r, env);
      case LetIn(x, i, b) =>
        QuietKeepsEnv(globals, n - 1, i, env);
        var o := Eval(globals, n - 1, i, env);
        if o.Done? { QuietScope(globals, n - 1, b, x, o.v, env); }
      case CaseOf(x, e1, s, no) =>
        QuietKeepsEnv(globals, n - 1, e1, env);
        var o := Eval(globals, n - 1, e1, env);
        if o.Done? && o.v.Opt? && o.v.o.Some? { QuietScope(globals, n - 1, s, x, o.v.o.value, env); }
        QuietKeepsEnv(globals, n - 1, no, env);
      case If(p, t, f) =>
        QuietKeepsEnv(globals, n - 1, p, env);
        QuietKeepsEnv(globals, n - 1, t, env);
        QuietKeepsEnv(globals, n - 1, f, env);
      case _ =>
    }
  }

  lemma QuietScope(globals: set<string>, n: nat, b: Expr, x: string, v: Value, env: Env)
    requires Quiet(b)
    ensures var o := Scoped(globals, n, b, [(x, v)], Nothing, env); o.Done? ==> o.env == env
    decreases n, 1
  {
    QuietKeepsEnv(globals, n, b, [(x, v)] + env);
    ScopedKeepsNames(globals, n, b, [(x, v)], Nothing, env);
  }

  lemma AllQuietKeepsEnv(globals: set<string>, n: nat, es: seq<Expr>, env: Env)
    requires AllQuiet(es)
    ensures var o := EvalAll(globals, n, es, env); o.Done? ==> o.env == env
    decreases n, |es| + 1
  {
    if es != [] {
      QuietKeepsEnv(globals, n, es[0], env);
      AllQuietKeepsEnv(globals, n, es[1..], env);
    }
  }

  /* ---------- Expressions that do not see the generated names ---------- */

  /** The variables a quiet expression looks up. */
  predicate Reads(e: Expr, y: string) {
    match e
    case Const(_) => false
    case Var(x) => x == y
    case Form(_, es) => AnyReads(es, y)
    case Lambda(_, b) => y in FreeVariables(b)
    case App(fn, arg) => Reads(fn, y) || Reads(arg, y)
    case Sequence(l, r) => Reads(l, y) || Reads(r, y)
    case LetIn(_, i, b) => Reads(i, y) || Reads(b, y)
    case Assign(_, e1) => Reads(e1, y)
    case CaseOf(_, e1, s, n) => Reads(e1, y) || Reads(s, y) || Reads(n, y)
    case If(p, t, f) => Reads(p, y) || Reads(t, y) || Reads(f, y)
    case BindTuple(e1, _, b) => Reads(e1, y) || Reads(b, y)
    case BindRecord(e1, _, b) => Reads(e1, y) || Reads(b, y)
  }

  predicate AnyReads(es: seq<Expr>, y: string) {
    es != [] && (Reads(es[0], y) || AnyReads(es[1..], y))
  }

  /** The two environments agree on every variable the expression looks up. */
  ghost predicate SameReads(e: Expr, env: Env, env': Env) {
    forall y :: Reads(e, y) ==> LookupE(env, y) == LookupE(env', y)
  }

  ghost predicate SameReadsAll(es: seq<Expr>, env: Env, env': Env) {
    forall y :: AnyReads(es, y) ==> LookupE(env, y) == LookupE(env', y)
  }

  /** The same value, error or timeout. */
  predicate SameResult(a: Outcome, b: Outcome) {
    match a
    case Timeout => b.Timeout?
    case Fail(err, _) => b.Fail? && b.err == err
    case Done(v, _) => b.Done? && b.v == v
  }

  lemma {:induction false} SameLookupAll(env: Env, env': Env, xs: seq<string>)
    requires forall y :: y in xs ==> LookupE(env, y) == LookupE(env', y)
    ensures LookupAll(env, xs) == LookupAll(env', xs)
    decreases |xs|
  {
    if xs != [] {
      assert xs[0] in xs;
      SameLookupAll(env, env', xs[1..]);
    }
  }

  lemma SameUnder(e: Expr, x: string, v: Value, env: Env, env': Env)
    requires forall y :: Reads(e, y) ==> LookupE(env, y) == LookupE(env', y)
    ensures SameReads(e, [(x, v)] + env, [(x, v)] + env')
  {
    forall y | Reads(e, y) ensures LookupE([(x, v)] + env, y) == LookupE([(x, v)] + env', y) {
      LookupConcat([(x, v)], env, y);
      LookupConcat([(x, v)], env', y);
    }
  }

  /** A quiet expression depends on nothing but the variables it looks up. */
  lemma {:induction false} QuietReads(g: set<string>, n: nat, e: Expr, env: Env, env': Env)
    requires Quiet(e) && SameReads(e, env, env')
    ensures SameResult(Eval(g, n, e, env), Eval(g, n, e, env'))
    decreases n, 0
  {
    if n > 0 {
      match e
      case Const(_) =>
      case Var(x) => assert Reads(e, x);
      case Form(f, es) => QuietReadsForm(g, n - 1, f, es, env, env');
      case Lambda(x, b) => SameLookupAll(env, env', CaptureNames(g, x, b));
      case Sequence(l, r) => QuietReadsSequence(g, n - 1, l, r, env, env');
      case LetIn(x, i, b) => QuietReadsLet(g, n - 1, x, i, b, env, env');
      case CaseOf(x, e1, s, no) => QuietReadsCase(g, n - 1, x, e1, s, no, env, env');
      case If(p, t, f) => QuietReadsIf(g, n - 1, p, t, f, env, env');
    }
  }

  lemma QuietReadsSequence(g: set<string>, n: nat, l: Expr, r: Expr, env: Env, env': Env)
    requires Quiet(Sequence(l, r)) && SameReads(Sequence(l, r), env, env')
    ensures SameResult(Eval(g, n + 1, Sequence(l, r), env), Eval(g, n + 1, Sequence(l, r), env'))
    decreases n, 2
  {
    QuietReads(g, n, l, env, env');
    QuietReads(g, n, r, env, env');
    QuietKeepsEnv(g, n, l, env);
    QuietKeepsEnv(g, n, l, env');
  }

  lemma QuietReadsIf(g: set<string>, n: nat, p: Expr, t: Expr, f: Expr, env: Env, env': Env)
    requires Quiet(If(p, t, f)) && SameReads(If(p, t, f), env, env')
    ensures SameResult(Eval(g, n + 1, If(p, t, f), env), Eval(g, n + 1, If(p, t, f), env'))
    decreases n, 2
  {
    QuietReads(g, n, p, env, env');
    QuietReads(g, n, t, env, env');
    QuietReads(g, n, f, env, env');
    QuietKeepsEnv(g, n, p, env);
    QuietKeepsEnv(g, n, p, env');
  }

  lemma QuietReadsScoped(g: set<string>, n: nat, b: Expr, x: string, v: Value, env: Env, env': Env)
    requires Quiet(b) && SameReads(b, env, env')
    ensures SameResult(Scoped(g, n, b, [(x, v)], Nothing, env), Scoped(g, n, b, [(x, v)], Nothing, env'))
    decreases n, 1
  {
    SameUnder(b, x, v, env, env');
    QuietReads(g, n, b, [(x, v)] + env, [(x, v)] + env');
  }

  lemma QuietReadsLet(g: set<string>, n: nat, x: string, i: Expr, b: Expr, env: Env, env': Env)
    requires Quiet(LetIn(x, i, b)) && SameReads(LetIn(x, i, b), env, env')
    ensures SameResult(Eval(g, n + 1, LetIn(x, i, b), env), Eval(g, n + 1, LetIn(x, i, b), env'))
    decreases n, 2
  {
    QuietReads(g, n, i, env, env');
    QuietKeepsEnv(g, n, i, env);
    QuietKeepsEnv(g, n, i, env');
    var o := Eval(g, n, i, env);
    if o.Done? { QuietReadsScoped(g, n, b, x, o.v, env, env'); }
  }

  lemma QuietReadsCase(g: set<string>, n: nat, x: string, e1: Expr, s: Expr, no: Expr, env: Env, env': Env)
    requires Quiet(CaseOf(x, e1, s, no)) && SameReads(CaseOf(x, e1, s, no), env, env')
    ensures SameResult(Eval(g, n + 1, CaseOf(x, e1, s, no), env), Eval(g, n + 1, CaseOf(x, e1, s, no), env'))
    decreases n, 2
  {
    QuietReads(g, n, e1, env, env');
    QuietKeepsEnv(g, n, e1, env);
    QuietKeepsEnv(g, n, e1, env');
    var o := Eval(g, n, e1, env);
    if o.Done? && o.v.Opt? {
      if o.v.o.Some? { QuietReadsScoped(g, n, s, x, o.v.o.value, env, env'); }
      else { QuietReads(g, n, no, env, env'); }
    }
  }

  lemma QuietReadsAll(g: set<string>, n: nat, es: seq<Expr>, env: Env, env': Env)
    requires AllQuiet(es) && SameReadsAll(es, env, env')
    ensures SameResult(EvalAll(g, n, es, env), EvalAll(g, n, es, env'))
    decreases n, |es| + 1
  {
    if es != [] {
      QuietReads(g, n, es[0], env, env');
      QuietKeepsEnv(g, n, es[0], env);
      QuietKeepsEnv(g, n, es[0], env');
      assert forall y :: AnyReads(es[1..], y) ==> AnyReads(es, y);
      QuietReadsAll(g, n, es[1..], env, env');
    }
  }

  lemma GeneratedLater(y: string, c: nat, fs: seq<string>)
    requires fs != []
    ensures Generated(y, c + 1, fs[1..]) ==> Generated(y, c, fs)
  {
    var c1, rest := c + 1, fs[1..];
    if Generated(y, c1, rest) {
      var j :| 0 <= j < |rest| && y == SymAt(c1, rest, j);
      assert y == SymAt(c, fs, j + 1);
    }
  }

  lemma QuietReadsForm(g: set<string>, n: nat, f: Former, es: seq<Expr>, env: Env, env': Env)
    requires AllQuiet(es) && SameReadsAll(es, env, env')
    ensures SameResult(EvalForm(g, n, f, es, env), EvalForm(g, n, f, es, env'))
    decreases n, |es| + 2
  {
    QuietReadsAll(g, n, es, env, env');
  }

  lemma {:induction false} PathBindingsNames(v: Value, c: nat, fs: seq<string>, y: string)
    requires ReadPath(v, fs).Some? && !Generated(y, c, fs)
    ensures LookupE(PathBindings(v, c, fs), y).None?
    decreases |fs|
  {
    if fs != [] {
      var inner, rest := LookupE(v.fields, fs[0]).value, fs[1..];
      assert y != SymAt(c, fs, 0);
      GeneratedLater(y, c, fs);
      PathBindingsNames(inner, c + 1, rest, y);
      LookupConcat(PathBindings(inner, c + 1, rest), [(Sym(fs[0], c), inner)], y);
    }
  }

  lemma PathIsTransparent(e: Expr, v: Value, c: nat, fs: seq<string>, env: Env)
    requires ReadPath(v, fs).Some? && forall y :: Reads(e, y) ==> !Generated(y, c, fs)
    ensures SameReads(e, env, PathBindings(v, c, fs) + env)
  {
    forall y | Reads(e, y) ensures LookupE(env, y) == LookupE(PathBindings(v, c, fs) + env, y) {
      PathBindingsNames(v, c, fs, y);
      LookupConcat(PathBindings(v, c, fs), env, y);
    }
  }

  /** For a quiet e that does not look up a generated name: x.f1...fn = e gives x the value of e at
      the path, and changes no other path of x and no other variable. */
  lemma QuietFieldAssignment(g: set<string>, m: nat, x: string, fs: seq<string>, e: Expr, env: Env, v: Value)
    requires Unused(1, fs, env) && Quiet(e) && forall y :: Reads(e, y) ==> !Generated(y, 1, fs)
    requires LookupE(env, x).Some? && ReadPath(LookupE(env, x).value, fs).Some?
    requires Eval(g, m, e, env).Done? && Eval(g, m, e, env).v == v
    ensures var o := Eval(g, m + 1 + |fs|, MkAssign([x] + fs, e), env);
      && o.Done? && o.v == UNIT && Names(o.env) == Names(env)
      && (forall y :: y != x ==> LookupE(o.env, y) == LookupE(env, y))
      && LookupE(o.env, x).Some? && ReadPath(LookupE(o.env, x).value, fs) == Some(v)
      && forall ps :: Diverge(fs, ps) ==> ReadPath(LookupE(o.env, x).value, ps) == ReadPath(LookupE(env, x).value, ps)
  {
    var w := LookupE(env, x).value;
    var q := PathBindings(w, 1, fs);
    FieldAssignment(g, m, x, fs, e, env);
    PathIsTransparent(e, w, 1, fs, env);
    QuietReads(g, m, e, env, q + env);
    QuietKeepsEnv(g, m, e, q + env);
    assert (q + env)[|fs|..] == env;
    var u := UpdatePath(w, fs, v);
    var env1 := ReplaceE(env, x, u);
    forall y ensures LookupE(env1, y) == if y == x then Some(u) else LookupE(env, y) { LookupReplaced(env, x, u, y); }
    UpdateReads(w, fs, v, []);
    forall ps | Diverge(fs, ps) ensures ReadPath(u, ps) == ReadPath(w, ps) { UpdateReads(w, fs, v, ps); }
    NamesReplaced(env, x, u);
  }
}
