/** What the primitive operators compute: machine arithmetic, flooring division, one total order on each
    kind of scalar, and the connectives. */
module ScalarLaws {
  import opened Options
  import opened Scalars

  /* ---------- Machine integers ---------- */

  predicate IsWord(i: int) { -HALF <= i < HALF }

  /** Equal up to multiples of 2 to the 64. */
  predicate Congruent(a: int, b: int) { (a - b) % (2 * HALF) == 0 }

  lemma CongruentTimes(a: int, b: int, c: int)
    requires Congruent(a, b)
    ensures Congruent(a * c, b * c)
  {
    var k := (a - b) / (2 * HALF);
    assert a * c - b * c == (k * c) * (2 * HALF);
    MultipleIsZero(k * c);
  }

  lemma MultipleIsZero(k: int)
    ensures (k * (2 * HALF)) % (2 * HALF) == 0
  {}

  /** Wrapping gives the one machine integer that is congruent. */
  lemma WrapIsTheWord(x: int, r: int)
    ensures IsWord(Wrap(x)) && Congruent(Wrap(x), x)
    ensures IsWord(r) && Congruent(r, x) ==> r == Wrap(x)
  {}

  /** Sum, difference, product and negation are exact up to the word size. */
  lemma ArithmeticExact(a: int, b: int)
    ensures forall op :: op in {Add, Sub, Mul} ==>
      var r := Binary(op, Int(a), Int(b));
      && r.Some? && r.value.Int? && IsWord(r.value.i)
      && Congruent(r.value.i, match op case Add => a + b case Sub => a - b case _ => a * b)
    ensures Unary(Neg, Int(a)) == Binary(Sub, Int(0), Int(a))
  {
    WrapIsTheWord(a + b, 0);
    WrapIsTheWord(a - b, 0);
    WrapIsTheWord(a * b, 0);
  }

  /** Subtraction undoes addition, and the other way round, overflow included. */
  lemma SubtractionUndoesAddition(a: int, b: int)
    requires IsWord(a)
    ensures var s := Binary(Add, Int(a), Int(b)); s.Some? && Binary(Sub, s.value, Int(b)) == Some(Int(a))
    ensures var d := Binary(Sub, Int(a), Int(b)); d.Some? && Binary(Add, d.value, Int(b)) == Some(Int(a))
  {
    WrapUndone(a, b);
    WrapUndone(a, -b);
  }

  lemma WrapUndone(a: int, b: int)
    requires IsWord(a)
    ensures Wrap(Wrap(a + b) - b) == a
  {
    WrapIsTheWord(a + b, 0);
    SumsWrapAlike(a, a + b, Wrap(a + b), -b);
    WrapIsTheWord(a, a);
  }

  /** A product is a repeated sum, overflow included. */
  lemma ProductIsRepeatedSum(a: int, b: int)
    ensures Binary(Mul, Int(a), Int(0)) == Some(Int(0))
    ensures var p, next := Binary(Mul, Int(a), Int(b)), Binary(Add, Int(b), Int(1));
      && p.Some? && next.Some? && Binary(Mul, Int(a), next.value) == Binary(Add, p.value, Int(a))
  {
    NextProduct(a, b, Wrap(b + 1));
    var next := Binary(Add, Int(b), Int(1));
    assert next == Some(Int(Wrap(b + 1)));
    ProductsAre(a, b);
    ProductsAre(a, Wrap(b + 1));
  }

  lemma ProductsAre(a: int, b: int)
    ensures Binary(Mul, Int(a), Int(b)) == Some(Int(Wrap(a * b)))
  {}

  lemma NextProduct(a: int, b: int, n: int)
    requires n == Wrap(b + 1)
    ensures Wrap(a * n) == Wrap(Wrap(a * b) + a)
  {
    WrapIsTheWord(b + 1, 0);
    CongruentTimes(n, b + 1, a);
    Distributed(a, b, n);
    WrapIsTheWord(a * b, 0);
    SumsWrapAlike(a * n, a * b, Wrap(a * b), a);
  }

  lemma Distributed(a: int, b: int, n: int)
    ensures n * a == a * n && (b + 1) * a == a * b + a
  {}

  lemma SumsWrapAlike(x: int, p: int, w: int, a: int)
    requires Congruent(x, p + a) && Congruent(w, p)
    ensures Wrap(x) == Wrap(w + a)
  {}

  /** The quotient is rounded down: the remainder is smaller than the divisor and has its sign. There is
      none for a zero divisor, nor where the quotient is not a machine integer. */
  lemma QuotientBounds(a: int, b: int)
    requires IsWord(a) && IsWord(b)
    ensures Binary(Div, Int(a), Int(b)).None? <==> b == 0 || (a == -HALF && b == -1)
    ensures var q := Binary(Div, Int(a), Int(b));
      q.Some? ==>
        && q.value.Int? && IsWord(q.value.i)
        && if b > 0 then 0 <= a - q.value.i * b < b else b < a - q.value.i * b <= 0
  {
    if b > 0 {
      Rounded(a, b, a / b, a % b);
    } else if b < 0 {
      Rounded(-a, -b, (-a) / (-b), (-a) % (-b));
      NegatedDivisor((-a) / (-b), b);
    }
  }

  lemma NegatedDivisor(q: int, b: int)
    ensures q * -b == -(q * b)
  {}

  lemma AtLeast(q: int, y: int)
    requires y > 0
    ensures q >= 0 ==> q * y >= q
    ensures q >= 0 && y > 1 ==> q * y >= 2 * q
    ensures q <= -1 ==> q * y <= q
  {
    if q >= 0 && y > 1 { assert q * (y - 2) >= 0; }
    if q >= 0 { assert q * (y - 1) >= 0; }
    if q <= -1 { assert -q * (y - 1) >= 0; }
  }

  lemma Rounded(x: int, y: int, q: int, r: int)
    requires y > 0 && x == q * y + r && 0 <= r < y
    ensures 0 <= x - q * y < y
    ensures -HALF <= x < HALF ==> -HALF <= q < HALF
    ensures x == HALF && y > 1 ==> 0 <= q < HALF
  {
    AtLeast(q, y);
    if q <= -1 {
      AtLeast(q + 1, y);
      assert (q + 1) * y == q * y + y;
    }
  }

  /* ---------- Comparisons ---------- */

  predicate Below(a: Scalar, b: Scalar) { Binary(Lth, a, b) == Some(Bool(true)) }

  predicate Truth(o: Option<Scalar>, b: bool) { o == Some(Bool(b)) }

  /** s comes first at the first place where the strings differ, or ends first. */
  ghost predicate Alphabetic(s: string, t: string) {
    exists k :: 0 <= k <= |s| && k < |t| && s[..k] == t[..k] && (k < |s| ==> s[k] < t[k])
  }

  lemma SamePrefix(s: string, t: string, k: nat)
    requires 0 < k <= |s| && k <= |t|
    ensures s[..k] == t[..k] ==> s[0] == t[0]
  {
    assert s[..k][0] == s[0] && t[..k][0] == t[0];
  }

  lemma {:induction false} AlphabeticExact(s: string, t: string)
    ensures StrLess(s, t) <==> Alphabetic(s, t)
    decreases |s|
  {
    if s != [] && t != [] && s[0] == t[0] {
      AlphabeticExact(s[1..], t[1..]);
      if Alphabetic(s[1..], t[1..]) {
        var k :| 0 <= k <= |s[1..]| && k < |t[1..]| && s[1..][..k] == t[1..][..k] && (k < |s[1..]| ==> s[1..][k] < t[1..][k]);
        assert s[..k + 1] == [s[0]] + s[1..][..k] && t[..k + 1] == [t[0]] + t[1..][..k];
      }
      if Alphabetic(s, t) {
        var k :| 0 <= k <= |s| && k < |t| && s[..k] == t[..k] && (k < |s| ==> s[k] < t[k]);
        assert k > 0;
        assert s[1..][..k - 1] == s[..k][1..] && t[1..][..k - 1] == t[..k][1..];
      }
    } else if s != [] && t != [] {
      assert s[..0] == t[..0];
      forall k | 0 < k <= |s| && k < |t| ensures s[..k] != t[..k] { SamePrefix(s, t, k); }
    } else if t != [] {
      assert s[..0] == t[..0];
    }
  }

  /** What it is to be below, for each kind. */
  lemma BelowMeans(a: Scalar, b: Scalar)
    requires Comparable(a, b)
    ensures Below(a, b) <==>
      match a
      case Int(i) => i < b.i
      case Bool(x) => !x && b.b
      case Str(s) => Alphabetic(s, b.s)
  {
    if a.Str? { AlphabeticExact(a.s, b.s); }
  }

  lemma {:induction false} StringsOrdered(s: string, t: string, u: string)
    ensures !StrLess(s, s) && (StrLess(s, t) ==> !StrLess(t, s)) && (s == t || StrLess(s, t) || StrLess(t, s))
    ensures StrLess(s, t) && StrLess(t, u) ==> StrLess(s, u)
    decreases |s|
  {
    if s != [] {
      StringsOrdered(s[1..], if t == [] then [] else t[1..], if u == [] then [] else u[1..]);
      if t != [] && s[0] == t[0] { assert s == [s[0]] + s[1..] && t == [t[0]] + t[1..]; }
    }
  }

  /** The six comparisons speak of one total order, and are errors exactly on scalars of different
      kinds. */
  lemma ComparisonsAgree(a: Scalar, b: Scalar, c: Scalar)
    ensures forall op :: op in {Equ, Neq, Lth, Leq, Gth, Geq} ==> (Binary(op, a, b).Some? <==> Comparable(a, b))
    ensures Comparable(a, b) ==>
      && Truth(Binary(Equ, a, b), a == b) && Truth(Binary(Neq, a, b), a != b)
      && Truth(Binary(Gth, a, b), Below(b, a)) && Truth(Binary(Leq, a, b), !Below(b, a)) && Truth(Binary(Geq, a, b), !Below(a, b))
      && (a == b || Below(a, b) || Below(b, a)) && !(Below(a, b) && Below(b, a)) && !Below(a, a)
      && (Below(a, b) && Below(b, c) ==> Below(a, c))
  {
    if a.Str? && b.Str? {
      StringsOrdered(a.s, b.s, if c.Str? then c.s else []);
    }
  }

  /* ---------- Connectives ---------- */

  /** Conjunction, disjunction and negation of truth values, and errors on anything else. */
  lemma ConnectivesExact(a: Scalar, b: Scalar)
    ensures Binary(And, a, b).Some? <==> a.Bool? && b.Bool?
    ensures Binary(Or, a, b).Some? <==> a.Bool? && b.Bool?
    ensures Unary(Not, a).Some? <==> a.Bool?
    ensures Unary(Neg, a).Some? <==> a.Int?
    ensures a.Bool? && b.Bool? ==>
      && (Truth(Binary(And, a, b), true) <==> a == Bool(true) && b == Bool(true))
      && (Truth(Binary(Or, a, b), false) <==> a == Bool(false) && b == Bool(false))
      && Unary(Not, a) == Binary(Equ, a, Bool(false))
  {}
}
