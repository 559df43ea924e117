/** Paths in a graph given by a set of edges. */
module Graphs {

  ghost predicate Path<T>(e: set<(T, T)>, p: seq<T>, a: T, b: T) {
    && p != [] && p[0] == a && p[|p| - 1] == b
    && forall i :: 0 < i < |p| ==> (p[i - 1], p[i]) in e
  }

  ghost predicate Connected<T(!new)>(e: set<(T, T)>, a: T, b: T) {
    exists p :: Path(e, p, a, b)
  }

  ghost predicate Symmetric<T(!new)>(e: set<(T, T)>) {
    forall a, b :: (a, b) in e ==> (b, a) in e
  }

  lemma ConnectedSelf<T(!new)>(e: set<(T, T)>, a: T)
    ensures Connected(e, a, a)
  {
    assert Path(e, [a], a, a);
  }

  lemma ConnectedEdge<T(!new)>(e: set<(T, T)>, a: T, b: T)
    requires (a, b) in e
    ensures Connected(e, a, b)
  {
    assert Path(e, [a, b], a, b);
  }

  lemma ConnectedTrans<T(!new)>(e: set<(T, T)>, a: T, b: T, c: T)
    requires Connected(e, a, b) && Connected(e, b, c)
    ensures Connected(e, a, c)
  {
    var p :| Path(e, p, a, b);
    var q :| Path(e, q, b, c);
    var r := p + q[1..];
    forall i | 0 < i < |r| ensures (r[i - 1], r[i]) in e {
      if i >= |p| { assert r[i] == q[i - |p| + 1] && r[i - 1] == q[i - |p|]; }
    }
    assert Path(e, r, a, c);
  }

  lemma ConnectedSym<T(!new)>(e: set<(T, T)>, a: T, b: T)
    requires Symmetric(e) && Connected(e, a, b)
    ensures Connected(e, b, a)
  {
    var p :| Path(e, p, a, b);
    var r := seq(|p|, i requires 0 <= i < |p| => p[|p| - 1 - i]);
    forall i | 0 < i < |r| ensures (r[i - 1], r[i]) in e {
      var j := |p| - i;
      assert r[i - 1] == p[j] && r[i] == p[j - 1];
      assert (p[j - 1], p[j]) in e;
    }
    assert Path(e, r, b, a);
  }

  lemma ConnectedMonotone<T(!new)>(e: set<(T, T)>, f: set<(T, T)>, a: T, b: T)
    requires e <= f && Connected(e, a, b)
    ensures Connected(f, a, b)
  {
    var p :| Path(e, p, a, b);
    assert Path(f, p, a, b);
  }

  lemma {:induction false} PathRefines<T(!new)>(e: set<(T, T)>, f: set<(T, T)>, p: seq<T>, a: T, b: T)
    requires forall x, y :: (x, y) in e ==> Connected(f, x, y)
    requires Path(e, p, a, b)
    ensures Connected(f, a, b)
    decreases |p|
  {
    if |p| == 1 {
      ConnectedSelf(f, a);
    } else {
      var q := p[..|p| - 1];
      var m := q[|q| - 1];
      assert Path(e, q, a, m);
      PathRefines(e, f, q, a, m);
      assert (p[|p| - 2], p[|p| - 1]) in e;
      ConnectedTrans(f, a, m, b);
    }
  }

  /** If every edge of e is a path of f then whatever e connects, f connects. */
  lemma ConnectedRefines<T(!new)>(e: set<(T, T)>, f: set<(T, T)>, a: T, b: T)
    requires forall x, y :: (x, y) in e ==> Connected(f, x, y)
    requires Connected(e, a, b)
    ensures Connected(f, a, b)
  {
    var p :| Path(e, p, a, b);
    PathRefines(e, f, p, a, b);
  }
}
