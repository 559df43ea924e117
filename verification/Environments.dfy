/** The interpreter's environment: a stack of bindings in which a name may occur repeatedly. */
module Environments {
  import opened Options

  type Bindings<V> = seq<(string, V)>

  function LookupE<V>(env: Bindings<V>, x: string): (r: Option<V>)
    ensures r.Some? ==> (x, r.value) in env
    decreases |env|
  {
    if env == [] then None else if env[0].0 == x then Some(env[0].1) else LookupE(env[1..], x)
  }

  /** Assignment updates every binding of the name, shadowed ones included. */
  function ReplaceE<V>(env: Bindings<V>, x: string, v: V): Bindings<V> {
    seq(|env|, i requires 0 <= i < |env| => if env[i].0 == x then (x, v) else env[i])
  }

  /** Removal deletes the first binding of the name. */
  function RemoveE<V>(env: Bindings<V>, x: string): Bindings<V>
    decreases |env|
  {
    if env == [] then [] else if env[0].0 == x then env[1..] else [env[0]] + RemoveE(env[1..], x)
  }

  function RemoveAllE<V>(env: Bindings<V>, xs: seq<string>): Bindings<V>
    decreases |xs|
  {
    if xs == [] then env else RemoveAllE(RemoveE(env, xs[0]), xs[1..])
  }

  function Names<V>(env: Bindings<V>): seq<string> {
    seq(|env|, i requires 0 <= i < |env| => env[i].0)
  }

  lemma NamesSplit<V>(env: Bindings<V>, xs: seq<string>, ys: seq<string>)
    requires Names(env) == xs + ys
    ensures |env| == |xs| + |ys| && Names(env[|xs|..]) == ys
  {
    assert |Names(env)| == |env|;
    forall i | 0 <= i < |ys| ensures Names(env[|xs|..])[i] == ys[i] {
      assert Names(env)[|xs| + i] == ys[i];
    }
  }

  /** Popping in the order of pushing takes away exactly what was pushed. */
  lemma {:induction false} RemoveAllPops<V>(env: Bindings<V>, xs: seq<string>, ys: seq<string>)
    requires Names(env) == xs + ys
    ensures |env| == |xs| + |ys| && RemoveAllE(env, xs) == env[|xs|..] && Names(env[|xs|..]) == ys
    decreases |xs|
  {
    NamesSplit(env, xs, ys);
    if xs != [] {
      assert Names(env)[0] == xs[0];
      NamesSplit(env, [xs[0]], xs[1..] + ys);
      RemoveAllPops(env[1..], xs[1..], ys);
      assert env[1..][|xs| - 1..] == env[|xs|..];
    }
  }

  lemma {:induction false} LookupConcat<V>(a: Bindings<V>, b: Bindings<V>, x: string)
    ensures LookupE(a + b, x) == if LookupE(a, x).Some? then LookupE(a, x) else LookupE(b, x)
    decreases |a|
  {
    if a == [] {
      assert a + b == b;
    } else {
      assert (a + b)[1..] == a[1..] + b;
      LookupConcat(a[1..], b, x);
    }
  }

  lemma {:induction false} LookupReplaced<V>(env: Bindings<V>, x: string, v: V, y: string)
    ensures LookupE(ReplaceE(env, x, v), y) ==
      if y == x && LookupE(env, x).Some? then Some(v) else LookupE(env, y)
    decreases |env|
  {
    if env != [] {
      assert ReplaceE(env, x, v)[1..] == ReplaceE(env[1..], x, v);
      LookupReplaced(env[1..], x, v, y);
    }
  }

  lemma {:induction false} LookupIffNamed<V>(env: Bindings<V>, x: string)
    ensures LookupE(env, x).Some? <==> x in Names(env)
    decreases |env|
  {
    if env != [] {
      LookupIffNamed(env[1..], x);
      assert Names(env) == [env[0].0] + Names(env[1..]);
    }
  }

  lemma NamesConcat<V>(a: Bindings<V>, b: Bindings<V>)
    ensures Names(a + b) == Names(a) + Names(b)
  {}

  lemma NamesReplaced<V>(env: Bindings<V>, x: string, v: V)
    ensures Names(ReplaceE(env, x, v)) == Names(env)
  {}
}
