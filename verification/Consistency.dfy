/** The consistency check on closed constraint sets, related to closure growth and to ground
    solutions: a rejected opaque-free set has no solution at all. */
module Consistency {
  import opened Types
  import opened Closure

  /* ---------- The check ---------- */

  predicate IsPrimitiveSubtype(t1: ShallowType, t2: ShallowType) {
    match (t1, t2)
    case (SBool, SBool) => true
    case (SInt, SInt) => true
    case (SReal, SReal) => true
    case (SNumber, SNumber) => true
    case (SString, SString) => true
    case (SAddress, SAddress) => true
    case (SInt, SNumber) => true
    case (SReal, SNumber) => true
    case _ => false
  }

  predicate SameForm(t1: ShallowType, t2: ShallowType) {
    match (t1, t2)
    case (SFunction(_, _), SFunction(_, _)) => true
    case (STrigger(_), STrigger(_)) => true
    case (SOption(_), SOption(_)) => true
    case (SIndirection(_), SIndirection(_)) => true
    case (STuple(_), STuple(_)) => true
    case (SRecord(_, _), SRecord(_, _)) => true
    case (SOpaque(_), SOpaque(_)) => true
    case _ => t1 == t2
  }

  predicate ImmediatelyConsistent(t1: ShallowType, t2: ShallowType) {
    || t1.SBottom? || t2.STop? || t1.SOpaque? || t2.SOpaque?
    || IsPrimitiveSubtype(t1, t2) || SameForm(t1, t2)
  }

  function OpaqueBounds(cs: set<Constraint>, oa: OpaqueVar): set<(TypeOrVar, TypeOrVar)> {
    set c | c in cs && c.OpaqueBound? && c.oa == oa :: (c.lb, c.ub)
  }

  /** An opaque variable must have exactly one bounding constraint, with one type on either side. */
  ghost predicate OpaqueBoundsOk(cs: set<Constraint>, t: ShallowType) {
    t.SOpaque? ==>
      exists b :: OpaqueBounds(cs, t.oa) == {b} && |LowerBoundsOf(cs, b.0)| == 1 && |UpperBoundsOf(cs, b.1)| == 1
  }

  predicate TupleOk(t1: ShallowType, t2: ShallowType) {
    t1.STuple? && t2.STuple? ==> |t1.elems| == |t2.elems|
  }

  predicate RecordOk(cs: set<Constraint>, t1: ShallowType, t2: ShallowType) {
    if t1.SRecord? && t2.SRecord? && t1.opaques == {} && t2.opaques == {} then t2.rows.Keys <= t1.rows.Keys
    else if t1.SRecord? then
      forall b :: b in cs && b.OpaqueBound? && b.oa in t1.opaques ==>
        forall tU :: tU in UpperBoundsOf(cs, b.ub) ==> Opened(t1, b.oa, tU).Ok?
    else true
  }

  predicate ConcatenationOk(cs: set<Constraint>, t1: ShallowType) {
    t1.SRecord? ==>
      forall b :: b in cs && b.OpaqueBound? && b.oa in t1.opaques ==>
        forall tU :: tU in UpperBoundsOf(cs, b.ub) ==> RecordConcat([t1, tU]).Ok?
  }

  /** The checks on one constraint that more constraints can only make fail. */
  predicate StableOk(cs: set<Constraint>, c: Constraint) {
    match c
    case Intermediate(Ty(t1), Ty(t2)) =>
      && ImmediatelyConsistent(t1, t2)
      && !(t1.STop? && !t2.STop?) && !(!t1.SBottom? && t2.SBottom?)
      && TupleOk(t1, t2) && RecordOk(cs, t1, t2) && ConcatenationOk(cs, t1)
    case QualifiedIntermediate(Quals(q1), Quals(q2)) => !(q1 < q2)
    case _ => true
  }

  /** The check on the bounds of opaque variables. */
  ghost predicate BoundsOk(cs: set<Constraint>, c: Constraint) {
    TypesOnly(c) ==> OpaqueBoundsOk(cs, c.lo.t) && OpaqueBoundsOk(cs, c.hi.t)
  }

  ghost predicate CheckConsistent(cs: set<Constraint>) {
    forall c :: c in cs ==> StableOk(cs, c) && BoundsOk(cs, c)
  }

  ghost predicate CheckClosureConsistent(cs: set<Constraint>) {
    CheckConsistent(CalculateClosure(cs))
  }

  /* ---------- Adding constraints ---------- */

  predicate OpaqueFreeT(t: ShallowType) { TypeO(t) == {} }

  predicate OpaqueFree(cs: set<Constraint>) {
    forall c :: c in cs ==> DirectO(c) == {} && forall t :: t in TypesOf(c) ==> OpaqueFreeT(t)
  }

  lemma OpaqueFreeClosure(cs: set<Constraint>)
    requires OpaqueFree(cs)
    ensures OpaqueFree(CalculateClosure(cs))
  {
    var A := AtomsOf(cs);
    AtomsCover(cs);
    assert A.oas == {};
    ClosureWithin(cs, A);
    forall c | c in CalculateClosure(cs)
      ensures DirectO(c) == {} && forall t :: t in TypesOf(c) ==> OpaqueFreeT(t)
    {
      assert InC(c, A);
      forall t | t in TypesOf(c) ensures OpaqueFreeT(t) { assert InT(t, A); PartsIn(t, A); }
    }
  }

  lemma {:induction false} ClosureWithin(cs: set<Constraint>, A: Atoms)
    requires AllIn(cs, A)
    ensures AllIn(CalculateClosure(cs), A)
    decreases |Universe(AtomsOf(cs))| - |cs|
  {
    if !(Learned(cs) <= cs) {
      StepShrinksMeasure(cs);
      LearnedIn(cs, A);
      ClosureWithin(cs + Learned(cs), A);
    }
  }

  lemma StableOkAntitone(cs: set<Constraint>, ds: set<Constraint>, c: Constraint)
    requires cs <= ds && StableOk(ds, c)
    ensures StableOk(cs, c)
  {
    forall ta { BoundsMonotone(cs, ds, ta); }
  }

  /** An inconsistency other than a badly bounded opaque variable survives any added constraints. */
  lemma StableInconsistencyPersists(cs: set<Constraint>, ds: set<Constraint>, c: Constraint)
    requires cs <= ds && c in CalculateClosure(cs) && !StableOk(CalculateClosure(cs), c)
    ensures !CheckClosureConsistent(ds)
  {
    ClosureMonotone(cs, ds);
    if StableOk(CalculateClosure(ds), c) { StableOkAntitone(CalculateClosure(cs), CalculateClosure(ds), c); }
  }

  /** On opaque-free sets adding constraints never repairs an inconsistent closure. */
  lemma InconsistencyPersists(cs: set<Constraint>, ds: set<Constraint>)
    requires cs <= ds && OpaqueFree(cs) && !CheckClosureConsistent(cs)
    ensures !CheckClosureConsistent(ds)
  {
    OpaqueFreeClosure(cs);
    var s := CalculateClosure(cs);
    var c :| c in s && !(StableOk(s, c) && BoundsOk(s, c));
    if TypesOnly(c) { assert OpaqueFreeT(c.lo.t) && OpaqueFreeT(c.hi.t); }
    StableInconsistencyPersists(cs, ds, c);
  }

  /* ---------- A missing bound can be repaired ---------- */

  const O := OpaqueVar(0)
  const UnboundedUse := Intermediate(Ty(SOpaque(O)), Ty(STop))
  const ItsBound := OpaqueBound(O, Ty(SInt), Ty(SInt))
  const Repaired := {UnboundedUse, ItsBound, Intermediate(Ty(SInt), Ty(STop))}

  lemma RepairedClosed()
    ensures Closed(Repaired)
  {
    forall r: Rule, c | c in Apply(r, Repaired) ensures c in Repaired {
      if r.OpaqueLower? || r.OpaqueUpper? { RepairedOpaque(r, c); } else { RepairedPlain(r, c); }
    }
  }

  lemma RepairedOpaque(r: Rule, c: Constraint)
    requires (r.OpaqueLower? || r.OpaqueUpper?) && c in Apply(r, Repaired)
    ensures c in Repaired
  {}

  lemma RepairedPlain(r: Rule, c: Constraint)
    requires !r.OpaqueLower? && !r.OpaqueUpper?
    ensures c !in Apply(r, Repaired)
  {}

  /** With opaque variables some inconsistencies are repaired: one without a bound is inconsistent, and
      adding its bound makes the closure consistent. */
  lemma MissingBoundIsRepaired()
    ensures !CheckClosureConsistent({UnboundedUse})
    ensures CheckClosureConsistent({UnboundedUse, ItsBound})
  {
    var alone := CalculateClosure({UnboundedUse});
    assert Closed({UnboundedUse}) by {
      forall r: Rule ensures Apply(r, {UnboundedUse}) == {} {}
    }
    ClosureClosed({UnboundedUse});
    ClosureBelow({UnboundedUse}, {UnboundedUse});
    assert UnboundedUse in alone && !BoundsOk(alone, UnboundedUse);
    var both := {UnboundedUse, ItsBound};
    RepairedClosed();
    ClosureBelow(both, Repaired);
    ClosureClosed(both);
    var s := CalculateClosure(both);
    RepairedConsistent(s);
  }

  lemma RepairedConsistent(s: set<Constraint>)
    requires {UnboundedUse, ItsBound} <= s <= Repaired
    ensures CheckConsistent(s)
  {
    assert OpaqueBounds(s, O) == {(Ty(SInt), Ty(SInt))};
    assert LowerBoundsOf(s, Ty(SInt)) == {SInt} && UpperBoundsOf(s, Ty(SInt)) == {SInt};
    assert OpaqueBoundsOk(s, SOpaque(O));
    forall c | c in s ensures StableOk(s, c) && BoundsOk(s, c) {}
  }

  /* ---------- Ground solutions ---------- */

  /** Closed types without variables. A qualified position holds the type written into it, the type
      read out of it and its qualifiers. */
  datatype Ground =
    | GFunction(arg: Ground, res: Ground)
    | GTrigger(msg: Ground)
    | GBool | GInt | GReal | GNumber | GString | GAddress
    | GOption(q: GQual)
    | GIndirection(q: GQual)
    | GTuple(elems: seq<GQual>)
    | GRecord(rows: map<Label, GQual>)
    | GTop | GBottom
  datatype GQual = GQual(w: Ground, r: Ground, quals: set<TQual>)

  /** a below b when up, b below a otherwise; one relation read in both directions keeps the
      recursion on a through contravariant positions. */
  predicate Rel(a: Ground, b: Ground, up: bool) {
    || (up && (a.GBottom? || b.GTop?)) || (!up && (b.GBottom? || a.GTop?)) ||
    match (a, b)
    case (GFunction(a1, r1), GFunction(a2, r2)) => Rel(a1, a2, !up) && Rel(r1, r2, up)
    case (GTrigger(m1), GTrigger(m2)) => Rel(m1, m2, !up)
    case (GOption(q1), GOption(q2)) => RelQ(q1, q2, up)
    case (GIndirection(q1), GIndirection(q2)) => RelQ(q1, q2, up)
    case (GTuple(e1), GTuple(e2)) => |e1| == |e2| && forall i :: 0 <= i < |e1| ==> RelQ(e1[i], e2[i], up)
    case (GRecord(r1), GRecord(r2)) =>
      && (if up then r2.Keys <= r1.Keys else r1.Keys <= r2.Keys)
      && forall l :: l in r1 && l in r2 ==> RelQ(r1[l], r2[l], up)
    case (GInt, GNumber) => up
    case (GReal, GNumber) => up
    case (GNumber, GInt) => !up
    case (GNumber, GReal) => !up
    case _ => a == b && (a.GBool? || a.GInt? || a.GReal? || a.GNumber? || a.GString? || a.GAddress?)
  }

  /** Qualified positions agree on what may be written; reading and qualifiers are covariant. */
  predicate RelQ(p: GQual, q: GQual, up: bool) {
    && Rel(p.r, q.r, up) && Rel(p.w, q.w, up) && Rel(p.w, q.w, !up)
    && (if up then q.quals <= p.quals else p.quals <= q.quals)
  }

  predicate Sub(a: Ground, b: Ground) { Rel(a, b, true) }

  lemma {:induction false} RelTrans(a: Ground, b: Ground, c: Ground, up: bool)
    requires Rel(a, b, up) && Rel(b, c, up)
    ensures Rel(a, c, up)
    decreases b
  {
    match (a, b, c)
    case (GFunction(a1, r1), GFunction(a2, r2), GFunction(a3, r3)) =>
      RelTrans(a1, a2, a3, !up);
      RelTrans(r1, r2, r3, up);
    case (GTrigger(m1), GTrigger(m2), GTrigger(m3)) => RelTrans(m1, m2, m3, !up);
    case (GOption(q1), GOption(q2), GOption(q3)) => RelQTrans(q1, q2, q3, up);
    case (GIndirection(q1), GIndirection(q2), GIndirection(q3)) => RelQTrans(q1, q2, q3, up);
    case (GTuple(e1), GTuple(e2), GTuple(e3)) =>
      forall i | 0 <= i < |e1| ensures RelQ(e1[i], e3[i], up) { RelQTrans(e1[i], e2[i], e3[i], up); }
    case (GRecord(r1), GRecord(r2), GRecord(r3)) =>
      forall l | l in r1 && l in r3 ensures RelQ(r1[l], r3[l], up) { RelQTrans(r1[l], r2[l], r3[l], up); }
    case _ =>
  }

  lemma {:induction false} RelQTrans(p: GQual, q: GQual, r: GQual, up: bool)
    requires RelQ(p, q, up) && RelQ(q, r, up)
    ensures RelQ(p, r, up)
    decreases q
  {
    RelTrans(p.r, q.r, r.r, up);
    RelTrans(p.w, q.w, r.w, up);
    RelTrans(p.w, q.w, r.w, !up);
  }

  lemma {:induction false} RelFlip(a: Ground, b: Ground, up: bool)
    ensures Rel(a, b, up) <==> Rel(b, a, !up)
    decreases a
  {
    match (a, b)
    case (GFunction(a1, r1), GFunction(a2, r2)) => RelFlip(a1, a2, !up); RelFlip(r1, r2, up);
    case (GTrigger(m1), GTrigger(m2)) => RelFlip(m1, m2, !up);
    case (GOption(q1), GOption(q2)) => RelQFlip(q1, q2, up);
    case (GIndirection(q1), GIndirection(q2)) => RelQFlip(q1, q2, up);
    case (GTuple(e1), GTuple(e2)) =>
      forall i | 0 <= i < |e1| && i < |e2| ensures RelQ(e1[i], e2[i], up) <==> RelQ(e2[i], e1[i], !up) { RelQFlip(e1[i], e2[i], up); }
    case (GRecord(r1), GRecord(r2)) =>
      forall l | l in r1 && l in r2 ensures RelQ(r1[l], r2[l], up) <==> RelQ(r2[l], r1[l], !up) { RelQFlip(r1[l], r2[l], up); }
    case _ =>
  }

  lemma {:induction false} RelQFlip(p: GQual, q: GQual, up: bool)
    ensures RelQ(p, q, up) <==> RelQ(q, p, !up)
    decreases p
  {
    RelFlip(p.r, q.r, up);
    RelFlip(p.w, q.w, up);
    RelFlip(p.w, q.w, !up);
  }

  /** An assignment of ground types to variables; what is written into a position can be read back. */
  datatype Model = Model(u: UVar -> Ground, q: QVar -> GQual)

  ghost predicate ValidModel(m: Model) { forall qa :: Sub(m.q(qa).w, m.q(qa).r) }

  function Interp(m: Model, t: ShallowType): Ground {
    match t
    case SFunction(a1, a2) => GFunction(m.u(a1), m.u(a2))
    case STrigger(a) => GTrigger(m.u(a))
    case SBool => GBool
    case SInt => GInt
    case SReal => GReal
    case SNumber => GNumber
    case SString => GString
    case SAddress => GAddress
    case SOption(qa) => GOption(m.q(qa))
    case SIndirection(qa) => GIndirection(m.q(qa))
    case STuple(qas) => GTuple(seq(|qas|, i requires 0 <= i < |qas| => m.q(qas[i])))
    case SRecord(r, _) => GRecord(map l | l in r :: m.q(r[l]))
    case STop => GTop
    case SBottom => GBottom
    case SOpaque(_) => GTop
  }

  function InterpTV(m: Model, ta: TypeOrVar): Ground { if ta.Ty? then Interp(m, ta.t) else m.u(ta.a) }

  predicate Sat(m: Model, c: Constraint) {
    match c
    case Intermediate(x, y) => Sub(InterpTV(m, x), InterpTV(m, y))
    case QualifiedLower(ta, qa) => Sub(InterpTV(m, ta), m.q(qa).w)
    case QualifiedUpper(qa, ta) => Sub(m.q(qa).r, InterpTV(m, ta))
    case QualifiedIntermediate(Qv(qa1), Qv(qa2)) => RelQ(m.q(qa1), m.q(qa2), true)
    case QualifiedIntermediate(Quals(s), Qv(qa)) => m.q(qa).quals <= s
    case QualifiedIntermediate(Qv(qa), Quals(s)) => s <= m.q(qa).quals
    case QualifiedIntermediate(Quals(s1), Quals(s2)) => s2 <= s1
    case MonomorphicUpper(qa, qs) => qs <= m.q(qa).quals
    case PolyLineage(qa1, qa2) => m.q(qa2).quals <= m.q(qa1).quals
    case OpaqueBound(_, _, _) => true
  }

  ghost predicate Solves(m: Model, cs: set<Constraint>) { forall c :: c in cs ==> Sat(m, c) }

  lemma MeetAboveSound(m: Model, c1: Constraint, c2: Constraint)
    requires ValidModel(m) && Sat(m, c1) && Sat(m, c2) && MeetAbove(c1, c2)
    ensures Sat(m, BelowBound(TypeBelowVar(c1).value.0, BoundAbove(c2).value.1))
  {
    var g := Interp(m, TypeBelowVar(c1).value.0);
    match c2
    case Intermediate(Tv(a), ta) => RelTrans(g, m.u(a), InterpTV(m, ta), true);
    case QualifiedLower(Tv(a), qa) => RelTrans(g, m.u(a), m.q(qa).w, true);
    case QualifiedUpper(qa, ta) =>
      RelTrans(g, m.q(qa).w, m.q(qa).r, true);
      RelTrans(g, m.q(qa).r, InterpTV(m, ta), true);
    case QualifiedIntermediate(Qv(qa1), Qv(qa2)) => RelTrans(g, m.q(qa1).w, m.q(qa2).w, true);
  }

  lemma MeetBelowSound(m: Model, c1: Constraint, c2: Constraint)
    requires ValidModel(m) && Sat(m, c1) && Sat(m, c2) && MeetBelow(c1, c2)
    ensures Sat(m, AboveBound(BoundBelow(c2).value.1, TypeAboveVar(c1).value.1))
  {
    var g := Interp(m, TypeAboveVar(c1).value.1);
    match c2
    case Intermediate(ta, Tv(a)) => RelTrans(InterpTV(m, ta), m.u(a), g, true);
    case QualifiedUpper(qa, Tv(a)) => RelTrans(m.q(qa).r, m.u(a), g, true);
    case QualifiedLower(ta, qa) =>
      RelTrans(InterpTV(m, ta), m.q(qa).w, m.q(qa).r, true);
      RelTrans(InterpTV(m, ta), m.q(qa).r, g, true);
    case QualifiedIntermediate(Qv(qa1), Qv(qa2)) => RelTrans(m.q(qa1).r, m.q(qa2).r, g, true);
  }

  lemma DecomposeSound(m: Model, t1: ShallowType, t2: ShallowType, d: Constraint)
    requires Sub(Interp(m, t1), Interp(m, t2)) && d in Decompose(t1, t2)
    ensures Sat(m, d)
  {
    match (t1, t2)
    case (SFunction(a1, a2), SFunction(a3, a4)) => RelFlip(m.u(a1), m.u(a3), false);
    case (STrigger(a1), STrigger(a2)) => RelFlip(m.u(a1), m.u(a2), false);
    case (STuple(qas1), STuple(qas2)) =>
      var i :| 0 <= i < |qas1| && d == SubQ(qas1[i], qas2[i]);
      assert RelQ(Interp(m, t1).elems[i], Interp(m, t2).elems[i], true);
    case (SRecord(m1, _), SRecord(m2, _)) =>
      var l :| l in m2 && d == SubQ(m1[l], m2[l]);
      assert l in m1;
      assert RelQ(Interp(m, t1).rows[l], Interp(m, t2).rows[l], true);
    case _ =>
  }

  lemma QualifiedSound(m: Model, r: Rule, cs: set<Constraint>, c: Constraint)
    requires ValidModel(m) && Solves(m, cs) && c in Apply(r, cs)
    requires r.QualTransitivity? || r.QualifiedRead? || r.QualifiedWrite? || r.MonomorphicTransitivity? || r.MonomorphicBounding?
    ensures Sat(m, c)
  {
    match r
    case QualTransitivity =>
      var c1, c2 :| c1 in cs && c2 in cs && BelowQVar(c1) && AboveQVar(c2) && c1.qhi == c2.qlo
        && c == QualifiedIntermediate(c1.qlo, c2.qhi);
      assert Sat(m, c1) && Sat(m, c2);
      if c1.qlo.Qv? && c2.qhi.Qv? { RelQTrans(m.q(c1.qlo.qa), m.q(c1.qhi.qa), m.q(c2.qhi.qa), true); }
    case QualifiedRead =>
      var c1, c2 :| c1 in cs && c2 in cs && c1.QualifiedLower? && c2.QualifiedUpper? && c1.qa == c2.qa
        && c == Intermediate(c1.ta, c2.ta);
      assert Sat(m, c1) && Sat(m, c2);
      RelTrans(InterpTV(m, c1.ta), m.q(c1.qa).w, m.q(c1.qa).r, true);
      RelTrans(InterpTV(m, c1.ta), m.q(c1.qa).r, InterpTV(m, c2.ta), true);
    case QualifiedWrite =>
      var c1, c2 :| c1 in cs && c2 in cs && BelowQVar(c1) && AboveQVar(c1) && c2.QualifiedLower? && c1.qhi.qa == c2.qa
        && c == QualifiedLower(c2.ta, c1.qlo.qa);
      assert Sat(m, c1) && Sat(m, c2);
      RelFlip(m.q(c1.qlo.qa).w, m.q(c1.qhi.qa).w, false);
      RelTrans(InterpTV(m, c2.ta), m.q(c1.qhi.qa).w, m.q(c1.qlo.qa).w, true);
    case MonomorphicTransitivity =>
      var c1, c2 :| c1 in cs && c2 in cs && c1.MonomorphicUpper? && c2.PolyLineage? && c2.qa2 == c1.qa
        && c == MonomorphicUpper(c2.qa1, c1.quals);
      assert Sat(m, c1) && Sat(m, c2);
    case MonomorphicBounding =>
      var c1 :| c1 in cs && c1.MonomorphicUpper? && c == QualifiedIntermediate(Qv(c1.qa), Quals(c1.quals));
      assert Sat(m, c1);
  }

  lemma OpenedRows(t: ShallowType, oa: OpaqueVar, bound: ShallowType)
    requires t.SRecord? && Opened(t, oa, bound).Ok?
    ensures var r := Opened(t, oa, bound).value;
      r.SRecord? && forall l :: l in t.rows ==> l in r.rows && r.rows[l] == t.rows[l]
  {
    var none, rest := SRecord(map[], {}), SRecord(t.rows, t.opaques - {oa});
    assert [bound, rest][1..] == [rest] && [rest][1..] == [];
    if bound.STop? {
      assert ConcatOnto(none, [bound, rest]) == ConcatOnto(none, [rest]);
      assert ConcatRecs(none, rest) == Ok(SRecord(map[] + rest.rows, {} + rest.opaques));
      assert ConcatOnto(none, [rest]) == ConcatOnto(SRecord(map[] + rest.rows, {} + rest.opaques), []);
    } else {
      assert ConcatRecs(none, bound).Ok?;
      assert ConcatOnto(none, [bound, rest]) == ConcatOnto(ConcatRecs(none, bound).value, [rest]);
    }
  }

  /** A record with more rows is below whatever the record was below. */
  lemma WiderRecordSound(m: Model, t: ShallowType, r: ShallowType, g: Ground)
    requires t.SRecord? && r.SRecord? && (forall l :: l in t.rows ==> l in r.rows && r.rows[l] == t.rows[l])
    requires Sub(Interp(m, t), g)
    ensures Sub(Interp(m, r), g)
  {
    if g.GRecord? {
      assert Interp(m, t).rows.Keys == t.rows.Keys && Interp(m, r).rows.Keys == r.rows.Keys;
      forall l | l in Interp(m, r).rows && l in g.rows ensures RelQ(Interp(m, r).rows[l], g.rows[l], true) {
        assert l in t.rows;
      }
    }
  }

  lemma LowerRecordSound(m: Model, cs: set<Constraint>, d: Constraint)
    requires Solves(m, cs) && d in CloseLowerBoundingExtendedRecord(cs)
    ensures Sat(m, d)
  {
    var c, b, tU :| c in cs && b in cs && b.OpaqueBound? && tU in UpperBoundsOf(cs, b.ub) && OpensLower(c, b, tU)
      && d == Intermediate(Ty(Opened(c.lo.t, b.oa, tU).value), c.hi);
    assert Sat(m, c);
    OpenedRows(c.lo.t, b.oa, tU);
    WiderRecordSound(m, c.lo.t, Opened(c.lo.t, b.oa, tU).value, InterpTV(m, c.hi));
  }

  lemma NoUpperRule(cs: set<Constraint>)
    requires OpaqueFree(cs)
    ensures OpaqueUpperBound(cs) == {}
  {
    assert forall b :: b in cs && b.OpaqueBound? ==> b.oa in DirectO(b);
  }

  /** Reading an opaque type as the top type and a record by its visible rows, ten of the eleven rules
      are sound on every set: a ground solution of the premises is a solution of what is learned. The
      eleventh, which puts the lower bound of an opaque variable above what flows into it, adds
      nothing where no opaque variable occurs. */
  lemma RuleSound(m: Model, r: Rule, cs: set<Constraint>, c: Constraint)
    requires ValidModel(m) && Solves(m, cs) && c in Apply(r, cs) && (r.OpaqueUpper? ==> OpaqueFree(cs))
    ensures Sat(m, c)
  {
    match r
    case Transitivity => TransitivitySound(m, cs, c);
    case ImmediateType => ImmediateSound(m, cs, c);
    case LowerExtendedRecord => LowerRecordSound(m, cs, c);
    case UpperExtendedRecord => UpperRecordSound(m, cs, c);
    case OpaqueLower => OpaqueLowerSound(m, cs, c);
    case OpaqueUpper => NoUpperRule(cs);
    case _ => QualifiedSound(m, r, cs, c);
  }

  lemma ImmediateSound(m: Model, cs: set<Constraint>, c: Constraint)
    requires Solves(m, cs) && c in CloseImmediate(cs)
    ensures Sat(m, c)
  {
    var d :| d in cs && TypesOnly(d) && c in Decompose(d.lo.t, d.hi.t);
    assert Sat(m, d);
    DecomposeSound(m, d.lo.t, d.hi.t, c);
  }

  /** Only the top type is above the top type. */
  lemma OpaqueLowerSound(m: Model, cs: set<Constraint>, c: Constraint)
    requires Solves(m, cs) && c in OpaqueLowerBound(cs)
    ensures Sat(m, c)
  {
    var d, tU :| d in cs && OpaqueBelow(d) && c == Intermediate(Ty(tU), d.hi);
    assert Sat(m, d);
  }

  lemma TransitivitySound(m: Model, cs: set<Constraint>, c: Constraint)
    requires ValidModel(m) && Solves(m, cs) && c in CloseTransitivity(cs)
    ensures Sat(m, c)
  {
    if c1, c2 :| c1 in cs && c2 in cs && MeetAbove(c1, c2) && c == BelowBound(TypeBelowVar(c1).value.0, BoundAbove(c2).value.1) {
      MeetAboveSound(m, c1, c2);
    } else {
      var c1, c2 :| c1 in cs && c2 in cs && MeetBelow(c1, c2) && c == AboveBound(BoundBelow(c2).value.1, TypeAboveVar(c1).value.1);
      MeetBelowSound(m, c1, c2);
    }
  }

  lemma UpperRecordSound(m: Model, cs: set<Constraint>, d: Constraint)
    requires Solves(m, cs) && d in CloseUpperBoundingExtendedRecord(cs)
    ensures Sat(m, d)
  {
    var c :| c in cs && RecordAbove(c) && (d == Intermediate(c.lo, Ty(SRecord(c.hi.t.rows, {})))
      || exists oa :: oa in c.hi.t.opaques && d == Intermediate(c.lo, Ty(SOpaque(oa))));
    assert Sat(m, c);
  }

  /** The closure has exactly the ground solutions of the set it was computed from. */
  lemma {:induction false} ClosureKeepsSolutions(m: Model, cs: set<Constraint>)
    requires ValidModel(m) && OpaqueFree(cs)
    ensures Solves(m, cs) <==> Solves(m, CalculateClosure(cs))
    decreases |Universe(AtomsOf(cs))| - |cs|
  {
    ClosureClosed(cs);
    if Solves(m, cs) && !(Learned(cs) <= cs) {
      forall c | c in Learned(cs) ensures Sat(m, c) {
        var r: Rule :| c in Apply(r, cs);
        RuleSound(m, r, cs, c);
      }
      StepShrinksMeasure(cs);
      LearnedOpaqueFree(cs);
      ClosureKeepsSolutions(m, cs + Learned(cs));
    }
  }

  lemma LearnedOpaqueFree(cs: set<Constraint>)
    requires OpaqueFree(cs)
    ensures OpaqueFree(cs + Learned(cs))
  {
    OpaqueFreeClosure(cs);
    ClosureClosed(cs);
    LearnedMonotone(cs, CalculateClosure(cs));
    assert cs + Learned(cs) <= CalculateClosure(cs);
  }

  lemma SatIsConsistent(m: Model, s: set<Constraint>, c: Constraint)
    requires OpaqueFree(s) && c in s && Sat(m, c)
    ensures StableOk(s, c) && BoundsOk(s, c)
  {
    if TypesOnly(c) {
      var t1, t2 := c.lo.t, c.hi.t;
      assert OpaqueFreeT(t1) && OpaqueFreeT(t2);
      assert !t1.SOpaque? && !t2.SOpaque?;
      SubFormsAgree(m, t1, t2);
    }
  }

  lemma SubFormsAgree(m: Model, t1: ShallowType, t2: ShallowType)
    requires Sub(Interp(m, t1), Interp(m, t2)) && OpaqueFreeT(t1) && OpaqueFreeT(t2)
    ensures ImmediatelyConsistent(t1, t2) && TupleOk(t1, t2)
    ensures !(t1.STop? && !t2.STop?) && !(!t1.SBottom? && t2.SBottom?)
    ensures t1.SRecord? ==> t1.opaques == {}
    ensures t1.SRecord? && t2.SRecord? ==> t2.opaques == {} && t2.rows.Keys <= t1.rows.Keys
  {
    if t1.SRecord? && t2.SRecord? {
      assert Interp(m, t1).rows.Keys == t1.rows.Keys && Interp(m, t2).rows.Keys == t2.rows.Keys;
    }
  }

  /** No false alarm: when an opaque-free set is reported inconsistent, no ground assignment of
      types to its variables satisfies it. */
  lemma RejectedHasNoSolution(m: Model, cs: set<Constraint>)
    requires ValidModel(m) && OpaqueFree(cs) && !CheckClosureConsistent(cs)
    ensures !Solves(m, cs)
  {
    if Solves(m, cs) {
      ClosureKeepsSolutions(m, cs);
      OpaqueFreeClosure(cs);
      var s := CalculateClosure(cs);
      forall c | c in s ensures StableOk(s, c) && BoundsOk(s, c) { SatIsConsistent(m, s, c); }
    }
  }

  /* ---------- The checks are exact ---------- */

  /** Two types of a form that can be related at all. */
  predicate Comparable(t1: ShallowType, t2: ShallowType) {
    && ImmediatelyConsistent(t1, t2) && TupleOk(t1, t2)
    && (t1.SRecord? && t2.SRecord? ==> t2.rows.Keys <= t1.rows.Keys)
  }

  /** The parts say all there is to say: in any assignment, two comparable opaque-free types are related
      exactly when the constraints on their parts hold. */
  lemma DecomposeExact(m: Model, t1: ShallowType, t2: ShallowType)
    requires OpaqueFreeT(t1) && OpaqueFreeT(t2) && Comparable(t1, t2)
    ensures Sub(Interp(m, t1), Interp(m, t2)) <==> forall d :: d in Decompose(t1, t2) ==> Sat(m, d)
  {
    if Sub(Interp(m, t1), Interp(m, t2)) {
      forall d | d in Decompose(t1, t2) ensures Sat(m, d) { DecomposeSound(m, t1, t2, d); }
    }
    if forall d :: d in Decompose(t1, t2) ==> Sat(m, d) { PartsSuffice(m, t1, t2); }
  }

  lemma PartsSuffice(m: Model, t1: ShallowType, t2: ShallowType)
    requires OpaqueFreeT(t1) && OpaqueFreeT(t2) && Comparable(t1, t2) && forall d :: d in Decompose(t1, t2) ==> Sat(m, d)
    ensures Sub(Interp(m, t1), Interp(m, t2))
  {
    match (t1, t2)
    case (SFunction(a1, a2), SFunction(a3, a4)) =>
      assert Sat(m, SubU(a2, a4)) && Sat(m, SubU(a3, a1));
      RelFlip(m.u(a1), m.u(a3), false);
    case (STrigger(a1), STrigger(a2)) =>
      assert Sat(m, SubU(a2, a1));
      RelFlip(m.u(a1), m.u(a2), false);
    case (SOption(qa1), SOption(qa2)) => assert Sat(m, SubQ(qa1, qa2));
    case (SIndirection(qa1), SIndirection(qa2)) => assert Sat(m, SubQ(qa1, qa2));
    case (STuple(qas1), STuple(qas2)) =>
      forall i | 0 <= i < |qas1| ensures RelQ(m.q(qas1[i]), m.q(qas2[i]), true) {
        assert SubQ(qas1[i], qas2[i]) in Decompose(t1, t2);
      }
    case (SRecord(m1, _), SRecord(m2, _)) =>
      forall l | l in m2 ensures RelQ(m.q(m1[l]), m.q(m2[l]), true) {
        assert SubQ(m1[l], m2[l]) in Decompose(t1, t2);
      }
    case _ =>
  }

  /** Everything the same. */
  const FLAT := Model((a: UVar) => GInt, (qa: QVar) => GQual(GInt, GInt, {}))

  ghost predicate Satisfiable(c: Constraint) { exists m :: ValidModel(m) && Sat(m, c) }

  lemma FlatRelatesParts(t1: ShallowType, t2: ShallowType)
    ensures ValidModel(FLAT) && forall d :: d in Decompose(t1, t2) ==> Sat(FLAT, d)
  {}

  /** The check on two opaque-free types accepts exactly the constraints that some assignment of ground
      types satisfies. */
  lemma TypesAcceptedIffSatisfiable(cs: set<Constraint>, t1: ShallowType, t2: ShallowType)
    requires OpaqueFreeT(t1) && OpaqueFreeT(t2)
    ensures StableOk(cs, Intermediate(Ty(t1), Ty(t2))) <==> Satisfiable(Intermediate(Ty(t1), Ty(t2)))
  {
    var c := Intermediate(Ty(t1), Ty(t2));
    if StableOk(cs, c) {
      assert Comparable(t1, t2);
      FlatRelatesParts(t1, t2);
      PartsSuffice(FLAT, t1, t2);
      assert Sat(FLAT, c);
    }
    if Satisfiable(c) {
      var m :| ValidModel(m) && Sat(m, c);
      SubFormsAgree(m, t1, t2);
    }
  }

  /** The check on two sets of qualifiers refuses the unsatisfiable constraints between comparable sets
      only: it lets incomparable ones pass. */
  lemma QualifiersAcceptedExactly(cs: set<Constraint>, q1: set<TQual>, q2: set<TQual>)
    ensures var c := QualifiedIntermediate(Quals(q1), Quals(q2));
      && (Satisfiable(c) <==> q2 <= q1)
      && (StableOk(cs, c) <==> Satisfiable(c) || !(q1 <= q2))
  {
    assert ValidModel(FLAT);
    var c := QualifiedIntermediate(Quals(q1), Quals(q2));
    assert q2 <= q1 ==> Sat(FLAT, c);
  }

  /** Unsatisfiable between sets of which neither contains the other. */
  predicate Unordered(c: Constraint) {
    c.QualifiedIntermediate? && c.qlo.Quals? && c.qhi.Quals? && !(c.qlo.qs <= c.qhi.qs) && !(c.qhi.qs <= c.qlo.qs)
  }

  lemma OnlyQualifiers(s: set<TQual>)
    ensures s <= {TMut, TImmut}
  {
    forall q | q in s ensures q in {TMut, TImmut} {
      match q
      case TMut =>
      case TImmut =>
    }
  }

  /** A constraint with a variable in it can always be satisfied by itself. */
  lemma VariableSatisfiable(c: Constraint)
    requires !TypesOnly(c) && !(c.QualifiedIntermediate? && c.qlo.Quals? && c.qhi.Quals?)
    ensures Satisfiable(c)
  {
    match c
    case Intermediate(x, y) => if x.Tv? { LowSatisfies(c); } else { HighSatisfies(c); }
    case QualifiedLower(_, _) => HighSatisfies(c);
    case QualifiedUpper(_, _) => LowSatisfies(c);
    case QualifiedIntermediate(_, qhi) => if qhi.Quals? { FullSatisfies(c); } else { FlatSatisfies(c); }
    case MonomorphicUpper(_, _) => FullSatisfies(c);
    case PolyLineage(_, _) => FlatSatisfies(c);
    case OpaqueBound(_, _, _) => FlatSatisfies(c);
  }

  lemma LowSatisfies(c: Constraint)
    requires (c.Intermediate? && c.lo.Tv?) || c.QualifiedUpper?
    ensures Satisfiable(c)
  {
    var low := Model((a: UVar) => GBottom, (qa: QVar) => GQual(GBottom, GBottom, {}));
    assert ValidModel(low) && Sat(low, c);
  }

  lemma HighSatisfies(c: Constraint)
    requires (c.Intermediate? && c.hi.Tv?) || c.QualifiedLower?
    ensures Satisfiable(c)
  {
    var high := Model((a: UVar) => GTop, (qa: QVar) => GQual(GTop, GTop, {}));
    assert ValidModel(high) && Sat(high, c);
  }

  lemma FullSatisfies(c: Constraint)
    requires (c.QualifiedIntermediate? && c.qlo.Qv? && c.qhi.Quals?) || c.MonomorphicUpper?
    ensures Satisfiable(c)
  {
    var all := Model((a: UVar) => GInt, (qa: QVar) => GQual(GInt, GInt, {TMut, TImmut}));
    OnlyQualifiers(if c.MonomorphicUpper? then c.quals else c.qhi.qs);
    assert ValidModel(all) && Sat(all, c);
  }

  lemma FlatSatisfies(c: Constraint)
    requires (c.QualifiedIntermediate? && c.qhi.Qv?) || c.PolyLineage? || c.OpaqueBound?
    ensures Satisfiable(c)
  {
    assert ValidModel(FLAT) && Sat(FLAT, c);
  }

  /** On opaque-free sets the whole check accepts exactly when every constraint is satisfiable by itself,
      apart from unordered qualifiers, which it overlooks. */
  lemma CheckIsExact(cs: set<Constraint>)
    requires OpaqueFree(cs)
    ensures CheckConsistent(cs) <==> forall c :: c in cs ==> Satisfiable(c) || Unordered(c)
  {
    forall c | c in cs ensures (StableOk(cs, c) && BoundsOk(cs, c)) <==> Satisfiable(c) || Unordered(c) {
      if TypesOnly(c) {
        assert OpaqueFreeT(c.lo.t) && OpaqueFreeT(c.hi.t);
        TypesAcceptedIffSatisfiable(cs, c.lo.t, c.hi.t);
      } else if c.QualifiedIntermediate? && c.qlo.Quals? && c.qhi.Quals? {
        QualifiersAcceptedExactly(cs, c.qlo.qs, c.qhi.qs);
      } else {
        VariableSatisfiable(c);
      }
    }
  }

  /** Exactly one bound, with exactly one type on either side. */
  ghost predicate BoundedOnce(cs: set<Constraint>, oa: OpaqueVar) {
    && (exists b :: b in OpaqueBounds(cs, oa))
    && forall b, b' :: b in OpaqueBounds(cs, oa) && b' in OpaqueBounds(cs, oa) ==>
         && b == b'
         && (exists t :: LowerBoundsOf(cs, b.0) == {t}) && exists t :: UpperBoundsOf(cs, b.1) == {t}
  }

  lemma SizeOne<T>(s: set<T>)
    ensures |s| == 1 <==> exists x :: s == {x}
  {
    if |s| == 1 {
      var x :| x in s;
      assert s == {x} + (s - {x});
      assert |s - {x}| == 0;
      assert s == {x};
    }
  }

  /** An opaque variable on either side of a constraint between types has to be bounded once; it may then
      stand above anything but the top type, as far as the shape goes, and below anything but the bottom
      type. */
  lemma OpaqueSidesChecked(cs: set<Constraint>, t: ShallowType, oa: OpaqueVar)
    requires t.SRecord? ==> t.opaques == {}
    ensures StableOk(cs, Intermediate(Ty(t), Ty(SOpaque(oa)))) <==> t != STop
    ensures StableOk(cs, Intermediate(Ty(SOpaque(oa)), Ty(t))) <==> t != SBottom
    ensures forall c :: c in {Intermediate(Ty(t), Ty(SOpaque(oa))), Intermediate(Ty(SOpaque(oa)), Ty(t))} ==>
      (BoundsOk(cs, c) <==> BoundedOnce(cs, oa) && (t.SOpaque? ==> BoundedOnce(cs, t.oa)))
  {
    BoundsChecked(cs, oa);
    if t.SOpaque? { BoundsChecked(cs, t.oa); }
  }

  lemma BoundsChecked(cs: set<Constraint>, oa: OpaqueVar)
    ensures OpaqueBoundsOk(cs, SOpaque(oa)) <==> BoundedOnce(cs, oa)
  {
    forall b | b in OpaqueBounds(cs, oa)
      ensures |LowerBoundsOf(cs, b.0)| == 1 <==> exists t :: LowerBoundsOf(cs, b.0) == {t}
      ensures |UpperBoundsOf(cs, b.1)| == 1 <==> exists t :: UpperBoundsOf(cs, b.1) == {t}
    {
      SizeOne(LowerBoundsOf(cs, b.0));
      SizeOne(UpperBoundsOf(cs, b.1));
    }
    if OpaqueBoundsOk(cs, SOpaque(oa)) {
      var b :| OpaqueBounds(cs, oa) == {b} && |LowerBoundsOf(cs, b.0)| == 1 && |UpperBoundsOf(cs, b.1)| == 1;
      assert b in OpaqueBounds(cs, oa);
    }
    if BoundedOnce(cs, oa) {
      var b :| b in OpaqueBounds(cs, oa);
      assert OpaqueBounds(cs, oa) == {b};
    }
  }
}
