/** Which inconsistencies added constraints can repair: a missing bound of an opaque variable and a
    missing type on a side of its only bound, and nothing else. */
module Repair {
  import opened Options
  import opened Types
  import opened Closure
  import opened Consistency

  /** The bound check on one opaque variable, as OpaqueBoundsOk makes it. */
  ghost predicate BoundsPass(cs: set<Constraint>, oa: OpaqueVar) { OpaqueBoundsOk(cs, SOpaque(oa)) }

  /** Some added constraints make the bound check pass. */
  ghost predicate Repairable(cs: set<Constraint>, oa: OpaqueVar) {
    exists ds :: cs <= ds && BoundsPass(CalculateClosure(ds), oa)
  }

  /** Nothing is bounded twice: at most one bound, with at most one type on either side. */
  ghost predicate BoundsMissing(cs: set<Constraint>, oa: OpaqueVar) {
    forall b, b' :: b in OpaqueBounds(cs, oa) && b' in OpaqueBounds(cs, oa) ==>
      b == b' && |LowerBoundsOf(cs, b.0)| <= 1 && |UpperBoundsOf(cs, b.1)| <= 1
  }

  /* ---------- A bound too many stays one ---------- */

  lemma BoundsGrow(cs: set<Constraint>, ds: set<Constraint>, oa: OpaqueVar)
    requires cs <= ds
    ensures OpaqueBounds(cs, oa) <= OpaqueBounds(ds, oa)
  {}

  lemma PassesWithout(cs: set<Constraint>, ds: set<Constraint>, oa: OpaqueVar)
    requires cs <= ds && BoundsPass(ds, oa)
    ensures BoundsMissing(cs, oa)
  {
    BoundsGrow(cs, ds, oa);
    var b :| OpaqueBounds(ds, oa) == {b} && |LowerBoundsOf(ds, b.0)| == 1 && |UpperBoundsOf(ds, b.1)| == 1;
    BoundsMonotone(cs, ds, b.0);
    BoundsMonotone(cs, ds, b.1);
    SubsetSize(LowerBoundsOf(cs, b.0), LowerBoundsOf(ds, b.0));
    SubsetSize(UpperBoundsOf(cs, b.1), UpperBoundsOf(ds, b.1));
  }

  /* ---------- What is missing can be added ---------- */

  /** What is added: a lower type, an upper type, or a bound for an opaque variable that has none. */
  datatype Added = Added(low: bool, up: bool, bound: Option<OpaqueVar>)

  /** All that can be learned from the additions; their only type is an integer, which has no parts. */
  predicate Learnable(a: Added, c: Constraint) {
    match c
    case Intermediate(x, y) => (x == Ty(SInt) && (y.Ty? || a.low)) || (y == Ty(SInt) && (x.Ty? || a.up))
    case QualifiedLower(ta, _) => a.low && ta == Ty(SInt)
    case QualifiedUpper(_, ta) => a.up && ta == Ty(SInt)
    case OpaqueBound(oa, l, u) => a.bound == Some(oa) && l == Ty(SInt) && u == Ty(SInt)
    case _ => false
  }

  predicate FromOld(s: set<Constraint>, a: Added, c: Constraint) { c in s || Learnable(a, c) }

  ghost predicate AllFromOld(s: set<Constraint>, a: Added, cs: set<Constraint>) { forall c :: c in cs ==> FromOld(s, a, c) }

  lemma InClosed(s: set<Constraint>, r: Rule, c: Constraint)
    requires Closed(s) && c in Apply(r, s)
    ensures c in s
  {}

  lemma BoundsFromOld(s: set<Constraint>, a: Added, cs: set<Constraint>, ta: TypeOrVar, t: ShallowType)
    requires AllFromOld(s, a, cs)
    ensures t in UpperBoundsOf(cs, ta) ==> t in UpperBoundsOf(s, ta) || (t == SInt && a.up)
    ensures t in LowerBoundsOf(cs, ta) ==> t in LowerBoundsOf(s, ta) || (t == SInt && a.low)
  {}

  lemma AboveFromOld(s: set<Constraint>, a: Added, c1: Constraint, c2: Constraint)
    requires Closed(s) && FromOld(s, a, c1) && FromOld(s, a, c2) && MeetAbove(c1, c2)
    ensures FromOld(s, a, BelowBound(TypeBelowVar(c1).value.0, BoundAbove(c2).value.1))
  {
    var d := BelowBound(TypeBelowVar(c1).value.0, BoundAbove(c2).value.1);
    if c1 in s && c2 in s {
      assert d in CloseTransitivity(s);
      InClosed(s, Transitivity, d);
    }
  }

  lemma BelowFromOld(s: set<Constraint>, a: Added, c1: Constraint, c2: Constraint)
    requires Closed(s) && FromOld(s, a, c1) && FromOld(s, a, c2) && MeetBelow(c1, c2)
    ensures FromOld(s, a, AboveBound(BoundBelow(c2).value.1, TypeAboveVar(c1).value.1))
  {
    var d := AboveBound(BoundBelow(c2).value.1, TypeAboveVar(c1).value.1);
    if c1 in s && c2 in s {
      assert d in CloseTransitivity(s);
      InClosed(s, Transitivity, d);
    }
  }

  lemma TransitivityFromOld(s: set<Constraint>, a: Added, cs: set<Constraint>, d: Constraint)
    requires Closed(s) && AllFromOld(s, a, cs) && d in CloseTransitivity(cs)
    ensures FromOld(s, a, d)
  {
    if c1, c2 :| c1 in cs && c2 in cs && MeetAbove(c1, c2) && d == BelowBound(TypeBelowVar(c1).value.0, BoundAbove(c2).value.1) {
      AboveFromOld(s, a, c1, c2);
    } else {
      var c1, c2 :| c1 in cs && c2 in cs && MeetBelow(c1, c2) && d == AboveBound(BoundBelow(c2).value.1, TypeAboveVar(c1).value.1);
      BelowFromOld(s, a, c1, c2);
    }
  }

  lemma ImmediateFromOld(s: set<Constraint>, a: Added, cs: set<Constraint>, d: Constraint)
    requires Closed(s) && AllFromOld(s, a, cs) && d in CloseImmediate(cs)
    ensures FromOld(s, a, d)
  {
    var c :| c in cs && TypesOnly(c) && d in Decompose(c.lo.t, c.hi.t);
    assert c in s;
    assert d in CloseImmediate(s);
    InClosed(s, ImmediateType, d);
  }

  lemma IntegerOpensNothing(t: ShallowType, oa: OpaqueVar)
    requires t.SRecord?
    ensures Opened(t, oa, SInt).Err?
  {}

  lemma LowerRecordFromOld(s: set<Constraint>, a: Added, cs: set<Constraint>, d: Constraint)
    requires Closed(s) && AllFromOld(s, a, cs) && d in CloseLowerBoundingExtendedRecord(cs)
    ensures FromOld(s, a, d)
  {
    var c, b, tU :| c in cs && b in cs && b.OpaqueBound? && tU in UpperBoundsOf(cs, b.ub) && OpensLower(c, b, tU)
      && d == Intermediate(Ty(Opened(c.lo.t, b.oa, tU).value), c.hi);
    BoundsFromOld(s, a, cs, b.ub, tU);
    IntegerOpensNothing(c.lo.t, b.oa);
    if c in s && b in s {
      assert d in CloseLowerBoundingExtendedRecord(s);
      InClosed(s, LowerExtendedRecord, d);
    }
  }

  lemma UpperRecordFromOld(s: set<Constraint>, a: Added, cs: set<Constraint>, d: Constraint)
    requires Closed(s) && AllFromOld(s, a, cs) && d in CloseUpperBoundingExtendedRecord(cs)
    ensures FromOld(s, a, d)
  {
    var c :| c in cs && RecordAbove(c) && (d == Intermediate(c.lo, Ty(SRecord(c.hi.t.rows, {})))
      || exists oa :: oa in c.hi.t.opaques && d == Intermediate(c.lo, Ty(SOpaque(oa))));
    if c in s {
      assert d in CloseUpperBoundingExtendedRecord(s);
      InClosed(s, UpperExtendedRecord, d);
    }
  }

  lemma QualTransitivityFromOld(s: set<Constraint>, a: Added, cs: set<Constraint>, d: Constraint)
    requires Closed(s) && AllFromOld(s, a, cs) && d in CloseQualifiedTransitivity(cs)
    ensures FromOld(s, a, d)
  {
    assert d in CloseQualifiedTransitivity(s);
    InClosed(s, QualTransitivity, d);
  }

  lemma ReadFromOld(s: set<Constraint>, a: Added, cs: set<Constraint>, d: Constraint)
    requires Closed(s) && AllFromOld(s, a, cs) && d in CloseQualifiedRead(cs)
    ensures FromOld(s, a, d)
  {
    var c1, c2 :| c1 in cs && c2 in cs && c1.QualifiedLower? && c2.QualifiedUpper? && c1.qa == c2.qa
      && d == Intermediate(c1.ta, c2.ta);
    if c1 in s && c2 in s {
      assert d in CloseQualifiedRead(s);
      InClosed(s, QualifiedRead, d);
    }
  }

  lemma WriteFromOld(s: set<Constraint>, a: Added, cs: set<Constraint>, d: Constraint)
    requires Closed(s) && AllFromOld(s, a, cs) && d in CloseQualifiedWrite(cs)
    ensures FromOld(s, a, d)
  {
    var c1, c2 :| c1 in cs && c2 in cs && BelowQVar(c1) && AboveQVar(c1) && c2.QualifiedLower? && c1.qhi.qa == c2.qa
      && d == QualifiedLower(c2.ta, c1.qlo.qa);
    assert c1 in s;
    if c2 in s {
      assert d in CloseQualifiedWrite(s);
      InClosed(s, QualifiedWrite, d);
    }
  }

  lemma MonomorphicFromOld(s: set<Constraint>, a: Added, cs: set<Constraint>, r: Rule, d: Constraint)
    requires Closed(s) && AllFromOld(s, a, cs) && d in Apply(r, cs) && (r.MonomorphicTransitivity? || r.MonomorphicBounding?)
    ensures FromOld(s, a, d)
  {
    assert d in Apply(r, s);
    InClosed(s, r, d);
  }

  lemma OpaqueLowerFromOld(s: set<Constraint>, a: Added, cs: set<Constraint>, d: Constraint)
    requires Closed(s) && AllFromOld(s, a, cs) && d in OpaqueLowerBound(cs)
    ensures FromOld(s, a, d)
  {
    var c, b, tU :| c in cs && b in cs && OpaqueBelow(c) && b.OpaqueBound? && b.oa == c.lo.t.oa && tU in UpperBoundsOf(cs, b.ub)
      && d == Intermediate(Ty(tU), c.hi);
    BoundsFromOld(s, a, cs, b.ub, tU);
    if c in s && b in s && tU in UpperBoundsOf(s, b.ub) {
      assert d in OpaqueLowerBound(s);
      InClosed(s, OpaqueLower, d);
    }
  }

  lemma OpaqueUpperFromOld(s: set<Constraint>, a: Added, cs: set<Constraint>, d: Constraint)
    requires Closed(s) && AllFromOld(s, a, cs) && d in OpaqueUpperBound(cs)
    ensures FromOld(s, a, d)
  {
    var c, b, tL :| c in cs && b in cs && OpaqueAbove(c) && b.OpaqueBound? && b.oa == c.hi.t.oa && tL in LowerBoundsOf(cs, b.lb)
      && d == Intermediate(c.lo, Ty(tL));
    BoundsFromOld(s, a, cs, b.lb, tL);
    if c in s && b in s && tL in LowerBoundsOf(s, b.lb) {
      assert d in OpaqueUpperBound(s);
      InClosed(s, OpaqueUpper, d);
    }
  }

  lemma RuleFromOld(s: set<Constraint>, a: Added, cs: set<Constraint>, r: Rule, d: Constraint)
    requires Closed(s) && AllFromOld(s, a, cs) && d in Apply(r, cs)
    ensures FromOld(s, a, d)
  {
    match r
    case Transitivity => TransitivityFromOld(s, a, cs, d);
    case ImmediateType => ImmediateFromOld(s, a, cs, d);
    case LowerExtendedRecord => LowerRecordFromOld(s, a, cs, d);
    case UpperExtendedRecord => UpperRecordFromOld(s, a, cs, d);
    case QualTransitivity => QualTransitivityFromOld(s, a, cs, d);
    case QualifiedRead => ReadFromOld(s, a, cs, d);
    case QualifiedWrite => WriteFromOld(s, a, cs, d);
    case OpaqueLower => OpaqueLowerFromOld(s, a, cs, d);
    case OpaqueUpper => OpaqueUpperFromOld(s, a, cs, d);
    case _ => MonomorphicFromOld(s, a, cs, r, d);
  }

  /** Closing a closed set with such additions learns nothing else. */
  lemma {:induction false} ClosureFromOld(s: set<Constraint>, a: Added, cs: set<Constraint>)
    requires Closed(s) && AllFromOld(s, a, cs)
    ensures AllFromOld(s, a, CalculateClosure(cs))
    decreases |Universe(AtomsOf(cs))| - |cs|
  {
    if !(Learned(cs) <= cs) {
      forall d | d in Learned(cs) ensures FromOld(s, a, d) {
        var r: Rule :| d in Apply(r, cs);
        RuleFromOld(s, a, cs, r, d);
      }
      StepShrinksMeasure(cs);
      ClosureFromOld(s, a, cs + Learned(cs));
    }
  }

  lemma OneOf<T>(s: set<T>, x: T)
    requires s == {x}
    ensures |s| == 1
  {}

  /** A side with no type gets one, a side with a type keeps it. */
  lemma SidesFilled(s: set<Constraint>, a: Added, e: set<Constraint>, l: TypeOrVar, u: TypeOrVar)
    requires s <= e && AllFromOld(s, a, e) && |LowerBoundsOf(s, l)| <= 1 && |UpperBoundsOf(s, u)| <= 1
    requires a.low == (LowerBoundsOf(s, l) == {}) && a.up == (UpperBoundsOf(s, u) == {})
    requires (a.low ==> Intermediate(Ty(SInt), l) in e) && (a.up ==> Intermediate(u, Ty(SInt)) in e)
    ensures |LowerBoundsOf(e, l)| == 1 && |UpperBoundsOf(e, u)| == 1
  {
    BoundsMonotone(s, e, l);
    BoundsMonotone(s, e, u);
    forall t ensures t in LowerBoundsOf(e, l) ==> t in LowerBoundsOf(s, l) || (t == SInt && a.low) { BoundsFromOld(s, a, e, l, t); }
    forall t ensures t in UpperBoundsOf(e, u) ==> t in UpperBoundsOf(s, u) || (t == SInt && a.up) { BoundsFromOld(s, a, e, u, t); }
    if a.low { OneOf(LowerBoundsOf(e, l), SInt); } else { assert LowerBoundsOf(e, l) == LowerBoundsOf(s, l); }
    if a.up { OneOf(UpperBoundsOf(e, u), SInt); } else { assert UpperBoundsOf(e, u) == UpperBoundsOf(s, u); }
  }

  /** What fills the sides of a bound. */
  function Fill(a: Added, b: (TypeOrVar, TypeOrVar)): set<Constraint> {
    (if a.low then {Intermediate(Ty(SInt), b.0)} else {}) + (if a.up then {Intermediate(b.1, Ty(SInt))} else {})
  }

  lemma FillIsLearnable(a: Added, b: (TypeOrVar, TypeOrVar))
    ensures forall c :: c in Fill(a, b) ==> Learnable(a, c)
    ensures (a.low ==> Intermediate(Ty(SInt), b.0) in Fill(a, b)) && (a.up ==> Intermediate(b.1, Ty(SInt)) in Fill(a, b))
  {}

  lemma KeepsOnlyBound(s: set<Constraint>, a: Added, e: set<Constraint>, oa: OpaqueVar)
    requires s <= e && AllFromOld(s, a, e) && a.bound.None?
    ensures OpaqueBounds(e, oa) == OpaqueBounds(s, oa)
  {}

  lemma FillSides(cs: set<Constraint>, oa: OpaqueVar, b: (TypeOrVar, TypeOrVar))
    requires var s := CalculateClosure(cs);
      OpaqueBounds(s, oa) == {b} && |LowerBoundsOf(s, b.0)| <= 1 && |UpperBoundsOf(s, b.1)| <= 1
    ensures Repairable(cs, oa)
  {
    var s := CalculateClosure(cs);
    var a := Added(LowerBoundsOf(s, b.0) == {}, UpperBoundsOf(s, b.1) == {}, None);
    var ds := cs + Fill(a, b);
    FillIsLearnable(a, b);
    FillPasses(s, a, cs, ds, oa, b);
  }

  lemma FillPasses(s: set<Constraint>, a: Added, cs: set<Constraint>, ds: set<Constraint>, oa: OpaqueVar, b: (TypeOrVar, TypeOrVar))
    requires s == CalculateClosure(cs) && ds == cs + Fill(a, b) && forall c :: c in Fill(a, b) ==> Learnable(a, c)
    requires (a.low ==> Intermediate(Ty(SInt), b.0) in Fill(a, b)) && (a.up ==> Intermediate(b.1, Ty(SInt)) in Fill(a, b))
    requires OpaqueBounds(s, oa) == {b} && |LowerBoundsOf(s, b.0)| <= 1 && |UpperBoundsOf(s, b.1)| <= 1 && a.bound.None?
    requires a.low == (LowerBoundsOf(s, b.0) == {}) && a.up == (UpperBoundsOf(s, b.1) == {})
    ensures BoundsPass(CalculateClosure(ds), oa)
  {
    var e := CalculateClosure(ds);
    ClosureClosed(cs);
    ClosureClosed(ds);
    ClosureMonotone(cs, ds);
    ClosureFromOld(s, a, ds);
    SidesFilled(s, a, e, b.0, b.1);
    KeepsOnlyBound(s, a, e, oa);
  }

  lemma InBounds(s: set<Constraint>, oa: OpaqueVar)
    ensures forall c :: c in s && c.OpaqueBound? && c.oa == oa ==> (c.lb, c.ub) in OpaqueBounds(s, oa)
  {}

  lemma AddBound(cs: set<Constraint>, oa: OpaqueVar)
    requires OpaqueBounds(CalculateClosure(cs), oa) == {}
    ensures Repairable(cs, oa)
  {
    var s, a := CalculateClosure(cs), Added(false, false, Some(oa));
    ClosureClosed(cs);
    var ds := cs + {OpaqueBound(oa, Ty(SInt), Ty(SInt))};
    var e := CalculateClosure(ds);
    ClosureClosed(ds);
    ClosureFromOld(s, a, ds);
    InBounds(s, oa);
    forall c | c in e && c.OpaqueBound? && c.oa == oa ensures c == OpaqueBound(oa, Ty(SInt), Ty(SInt)) {
      assert FromOld(s, a, c);
    }
    assert OpaqueBounds(e, oa) == {(Ty(SInt), Ty(SInt))};
  }

  /** The bound check on an opaque variable can be made to pass by adding constraints exactly when the
      closure bounds it at most once, with at most one type on either side. */
  lemma RepairableIffMissing(cs: set<Constraint>, oa: OpaqueVar)
    ensures Repairable(cs, oa) <==> BoundsMissing(CalculateClosure(cs), oa)
  {
    var s := CalculateClosure(cs);
    if Repairable(cs, oa) {
      var ds :| cs <= ds && BoundsPass(CalculateClosure(ds), oa);
      ClosureMonotone(cs, ds);
      PassesWithout(s, CalculateClosure(ds), oa);
    }
    if BoundsMissing(s, oa) {
      if OpaqueBounds(s, oa) == {} {
        AddBound(cs, oa);
      } else {
        var b :| b in OpaqueBounds(s, oa);
        assert OpaqueBounds(s, oa) == {b};
        FillSides(cs, oa, b);
      }
    }
  }

  /* ---------- What repair needs ---------- */

  /** The constraint fails the check, if it does, only for want of a bound. */
  ghost predicate OnlyMissing(s: set<Constraint>, c: Constraint) {
    && StableOk(s, c)
    && (TypesOnly(c) ==> (c.lo.t.SOpaque? ==> BoundsMissing(s, c.lo.t.oa)) && (c.hi.t.SOpaque? ==> BoundsMissing(s, c.hi.t.oa)))
  }

  /** Whatever opaque variables occur: an inconsistent closure can become consistent only when every
      violation in it is a missing bound or a missing type on a bound. */
  lemma OnlyMissingIsRepaired(cs: set<Constraint>, ds: set<Constraint>, c: Constraint)
    requires cs <= ds && CheckClosureConsistent(ds) && c in CalculateClosure(cs)
    ensures OnlyMissing(CalculateClosure(cs), c)
  {
    var s, e := CalculateClosure(cs), CalculateClosure(ds);
    ClosureMonotone(cs, ds);
    assert StableOk(e, c) && BoundsOk(e, c);
    StableOkAntitone(s, e, c);
    if TypesOnly(c) {
      if c.lo.t.SOpaque? { PassesWithout(s, e, c.lo.t.oa); }
      if c.hi.t.SOpaque? { PassesWithout(s, e, c.hi.t.oa); }
    }
  }

  /* ---------- Repaired one by one is not repaired together ---------- */

  const A := UVar(0)
  const Use := Intermediate(Ty(SBool), Ty(SOpaque(O)))
  const HalfBound := OpaqueBound(O, Tv(A), Ty(SInt))
  const Ceiling := Intermediate(Tv(A), Ty(SBottom))
  const Squeezed := {Use, HalfBound, Ceiling}

  lemma SqueezedClosed()
    ensures CalculateClosure(Squeezed) == Squeezed
  {
    assert LowerBoundsOf(Squeezed, Tv(A)) == {};
    forall r: Rule, c | c in Apply(r, Squeezed) ensures c in Squeezed {}
    ClosureClosed(Squeezed);
    ClosureBelow(Squeezed, Squeezed);
  }

  lemma SqueezedApart(ds: set<Constraint>)
    requires Squeezed <= ds && Closed(ds)
    ensures !CheckConsistent(ds)
  {
    if CheckConsistent(ds) {
      assert BoundsOk(ds, Use);
      var b :| OpaqueBounds(ds, O) == {b} && |LowerBoundsOf(ds, b.0)| == 1;
      assert (Tv(A), Ty(SInt)) in OpaqueBounds(ds, O) by { assert HalfBound in ds; }
      var t :| t in LowerBoundsOf(ds, Tv(A));
      SqueezedTypes(ds, t);
    }
  }

  lemma NothingBetween(ds: set<Constraint>, t: ShallowType)
    ensures !StableOk(ds, Intermediate(Ty(t), Ty(SBottom))) || !StableOk(ds, Intermediate(Ty(SBool), Ty(t)))
  {}

  /** The type that fills the gap has to be at once above a boolean and empty. */
  lemma SqueezedTypes(ds: set<Constraint>, t: ShallowType)
    requires Squeezed <= ds && Closed(ds) && t in LowerBoundsOf(ds, Tv(A))
    ensures Intermediate(Ty(t), Ty(SBottom)) in ds && Intermediate(Ty(SBool), Ty(t)) in ds
    ensures !CheckConsistent(ds)
  {
    var c := Intermediate(Ty(t), Tv(A));
    assert c in ds && Ceiling in ds && Use in ds && HalfBound in ds;
    assert MeetAbove(c, Ceiling);
    var d1, d2 := Intermediate(Ty(t), Ty(SBottom)), Intermediate(Ty(SBool), Ty(t));
    assert d1 == BelowBound(TypeBelowVar(c).value.0, BoundAbove(Ceiling).value.1);
    assert d1 in CloseTransitivity(ds);
    InClosed(ds, Transitivity, d1);
    assert OpaqueAbove(Use) && d2 in OpaqueUpperBound(ds);
    InClosed(ds, OpaqueUpper, d2);
    NothingBetween(ds, t);
  }

  /** The other direction fails: here every violation is of the missing kind, yet no added constraints
      make the closure consistent. */
  lemma MissingMayBeBeyondRepair(ds: set<Constraint>)
    requires Squeezed <= ds
    ensures forall c :: c in CalculateClosure(Squeezed) ==> OnlyMissing(CalculateClosure(Squeezed), c)
    ensures !CheckClosureConsistent(ds)
  {
    SqueezedClosed();
    assert OpaqueBounds(Squeezed, O) == {(Tv(A), Ty(SInt))};
    assert LowerBoundsOf(Squeezed, Tv(A)) == {} && UpperBoundsOf(Squeezed, Ty(SInt)) == {SInt};
    ClosureClosed(ds);
    SqueezedApart(CalculateClosure(ds));
  }
}
