/** What the closure must contain: for every chain of constraints that a rule follows, its conclusion
    from end to end. */
module Chains {
  import opened Options
  import opened Types
  import opened Closure
  import opened Consistency

  lemma Added(s: set<Constraint>, r: Rule, c: Constraint)
    requires Closed(s) && c in Apply(r, s)
    ensures c in s
  {}

  /* ---------- Through variables, from either end ---------- */

  /** Each variable of the list flows to the next. */
  ghost predicate Chain(cs: set<Constraint>, via: seq<AnyVar>) {
    forall i :: 0 < i < |via| ==> Edge(cs, NVar(via[i - 1]), NVar(via[i]))
  }

  lemma ChainGrows(cs: set<Constraint>, via: seq<AnyVar>)
    requires Chain(cs, via)
    ensures Chain(CalculateClosure(cs), via)
  {
    ClosureClosed(cs);
    forall i | 0 < i < |via| ensures Edge(CalculateClosure(cs), NVar(via[i - 1]), NVar(via[i])) {
      EdgeGrows(cs, NVar(via[i - 1]), NVar(via[i]));
    }
  }

  lemma EdgeGrows(cs: set<Constraint>, x: Node, y: Node)
    requires Edge(cs, x, y)
    ensures Edge(CalculateClosure(cs), x, y)
  {
    ClosureClosed(cs);
    var c :| c in cs && EdgeOf(c) == Some((x, y));
  }

  /** A type that flows into a chain of variables is below each of them. */
  lemma TypeReachesChain(cs: set<Constraint>, t: ShallowType, via: seq<AnyVar>, k: nat)
    requires k < |via| && Edge(cs, NType(t), NVar(via[0])) && Chain(cs, via)
    ensures Edge(CalculateClosure(cs), NType(t), NVar(via[k]))
  {
    ClosureClosed(cs);
    EdgeGrows(cs, NType(t), NVar(via[0]));
    ChainGrows(cs, via);
    ClosedPath(CalculateClosure(cs), t, via, k);
  }

  lemma ClosedStepDown(s: set<Constraint>, v: AnyVar, u: ShallowType, y: Node)
    requires Closed(s) && Edge(s, NVar(v), NType(u)) && Edge(s, y, NVar(v))
    ensures Edge(s, y, NType(u))
  {
    var c1 :| c1 in s && EdgeOf(c1) == Some((NVar(v), NType(u)));
    var c2 :| c2 in s && EdgeOf(c2) == Some((y, NVar(v)));
    MeetingDown(c1, c2, v, u, y);
    var d := AboveBound(BoundBelow(c2).value.1, u);
    assert d in CloseTransitivity(s);
    Added(s, Transitivity, d);
  }

  lemma MeetingDown(c1: Constraint, c2: Constraint, v: AnyVar, u: ShallowType, y: Node)
    requires EdgeOf(c1) == Some((NVar(v), NType(u))) && EdgeOf(c2) == Some((y, NVar(v)))
    ensures MeetBelow(c1, c2) && TypeAboveVar(c1).value.1 == u
    ensures EdgeOf(AboveBound(BoundBelow(c2).value.1, u)) == Some((y, NType(u)))
  {}

  lemma {:induction false} ClosedPathDown(s: set<Constraint>, via: seq<AnyVar>, u: ShallowType, k: nat)
    requires Closed(s) && k < |via| && Chain(s, via) && Edge(s, NVar(via[|via| - 1]), NType(u))
    ensures Edge(s, NVar(via[k]), NType(u))
    decreases |via| - k
  {
    if k + 1 < |via| {
      ClosedPathDown(s, via, u, k + 1);
      assert Edge(s, NVar(via[k + 1 - 1]), NVar(via[k + 1]));
      ClosedStepDown(s, via[k + 1], u, NVar(via[k]));
    }
  }

  /** A type at the end of a chain of variables is above each of them. */
  lemma ChainReachesType(cs: set<Constraint>, via: seq<AnyVar>, u: ShallowType, k: nat)
    requires k < |via| && Chain(cs, via) && Edge(cs, NVar(via[|via| - 1]), NType(u))
    ensures Edge(CalculateClosure(cs), NVar(via[k]), NType(u))
  {
    ClosureClosed(cs);
    EdgeGrows(cs, NVar(via[|via| - 1]), NType(u));
    ChainGrows(cs, via);
    ClosedPathDown(CalculateClosure(cs), via, u, k);
  }

  /* ---------- From type to type ---------- */

  /** t flows to u, directly or through variables. */
  ghost predicate Flows(cs: set<Constraint>, t: ShallowType, via: seq<AnyVar>, u: ShallowType) {
    if via == [] then Intermediate(Ty(t), Ty(u)) in cs else FlowsThrough(cs, t, via, u)
  }

  lemma FlowArrives(cs: set<Constraint>, t: ShallowType, via: seq<AnyVar>, u: ShallowType)
    requires Flows(cs, t, via, u)
    ensures Intermediate(Ty(t), Ty(u)) in CalculateClosure(cs)
  {
    ClosureClosed(cs);
    if via != [] { ClosureConnectsTypes(cs, t, via, u); }
  }

  /** What flows into a type hands on every constraint on the parts. */
  lemma PartsFollow(cs: set<Constraint>, t: ShallowType, via: seq<AnyVar>, u: ShallowType, d: Constraint)
    requires Flows(cs, t, via, u) && d in Decompose(t, u)
    ensures d in CalculateClosure(cs)
  {
    FlowArrives(cs, t, via, u);
    ClosureClosed(cs);
    var s := CalculateClosure(cs);
    var c := Intermediate(Ty(t), Ty(u));
    assert TypesOnly(c) && c.lo.t == t && c.hi.t == u;
    assert d in CloseImmediate(s);
    Added(s, ImmediateType, d);
  }

  /** Once the check has passed, only the constraints with variables matter: an assignment solves the set
      exactly when it satisfies those of the closure. */
  lemma VariablesDecide(m: Model, cs: set<Constraint>)
    requires ValidModel(m) && OpaqueFree(cs) && CheckClosureConsistent(cs)
    ensures Solves(m, cs) <==> forall c :: c in CalculateClosure(cs) && !TypesOnly(c) ==> Sat(m, c)
  {
    var s := CalculateClosure(cs);
    ClosureKeepsSolutions(m, cs);
    if forall c :: c in s && !TypesOnly(c) ==> Sat(m, c) {
      forall c | c in s && TypesOnly(c) ensures Sat(m, c) { PartsDecide(m, cs, c); }
    }
  }

  lemma PartsDecide(m: Model, cs: set<Constraint>, c: Constraint)
    requires OpaqueFree(cs) && CheckClosureConsistent(cs) && c in CalculateClosure(cs) && TypesOnly(c)
    requires forall d :: d in CalculateClosure(cs) && !TypesOnly(d) ==> Sat(m, d)
    ensures Sat(m, c)
  {
    var s, t, u := CalculateClosure(cs), c.lo.t, c.hi.t;
    OpaqueFreeClosure(cs);
    assert OpaqueFreeT(t) && OpaqueFreeT(u);
    assert StableOk(s, c);
    forall d | d in Decompose(t, u) ensures Sat(m, d) {
      ClosureClosed(cs);
      assert d in CloseImmediate(s);
      Added(s, ImmediateType, d);
      PartsHaveVariables(t, u, d);
    }
    DecomposeExact(m, t, u);
  }

  lemma PartsHaveVariables(t: ShallowType, u: ShallowType, d: Constraint)
    requires d in Decompose(t, u)
    ensures !TypesOnly(d)
  {}

  /* ---------- Qualifiers ---------- */

  /** Consecutive entries are constrained, and the inner ones are variables. */
  ghost predicate QualifierChain(cs: set<Constraint>, qv: seq<QualOrVar>) {
    && (forall i :: 0 < i < |qv| ==> QualifiedIntermediate(qv[i - 1], qv[i]) in cs)
    && forall i :: 0 < i < |qv| - 1 ==> qv[i].Qv?
  }

  /** A chain of qualifier constraints leaves the constraint between its ends. */
  lemma {:induction false} QualifiersConnect(cs: set<Constraint>, qv: seq<QualOrVar>, k: nat)
    requires QualifierChain(cs, qv) && 0 < k < |qv|
    ensures QualifiedIntermediate(qv[0], qv[k]) in CalculateClosure(cs)
    decreases k
  {
    ClosureClosed(cs);
    var s := CalculateClosure(cs);
    if k > 1 {
      QualifiersConnect(cs, qv, k - 1);
      var c1, c2, d := QualifiedIntermediate(qv[0], qv[k - 1]), QualifiedIntermediate(qv[k - 1], qv[k]), QualifiedIntermediate(qv[0], qv[k]);
      assert c1 in s && c2 in s && BelowQVar(c1) && AboveQVar(c2);
      assert d in CloseQualifiedTransitivity(s);
      Added(s, QualTransitivity, d);
    } else {
      assert QualifiedIntermediate(qv[1 - 1], qv[1]) in cs;
    }
  }

  ghost predicate QVarChain(cs: set<Constraint>, qas: seq<QVar>) {
    forall i :: 0 < i < |qas| ==> SubQ(qas[i - 1], qas[i]) in cs
  }

  /** What may be written into the end of a chain may be written into every variable on it. */
  lemma {:induction false} WritesGoBack(cs: set<Constraint>, qas: seq<QVar>, ta: TypeOrVar, k: nat)
    requires QVarChain(cs, qas) && k < |qas| && QualifiedLower(ta, qas[|qas| - 1]) in cs
    ensures QualifiedLower(ta, qas[k]) in CalculateClosure(cs)
    decreases |qas| - k
  {
    ClosureClosed(cs);
    if k + 1 < |qas| {
      WritesGoBack(cs, qas, ta, k + 1);
      var s := CalculateClosure(cs);
      var c1, c2, d := SubQ(qas[k], qas[k + 1]), QualifiedLower(ta, qas[k + 1]), QualifiedLower(ta, qas[k]);
      assert SubQ(qas[k + 1 - 1], qas[k + 1]) in cs;
      assert c1 in s && c2 in s && BelowQVar(c1) && AboveQVar(c1);
      assert d in CloseQualifiedWrite(s);
      Added(s, QualifiedWrite, d);
    }
  }

  /** So what is written at the end of a chain can be read at any point of it. */
  lemma WrittenIsRead(cs: set<Constraint>, qas: seq<QVar>, ta: TypeOrVar, ta': TypeOrVar, k: nat)
    requires QVarChain(cs, qas) && k < |qas| && QualifiedLower(ta, qas[|qas| - 1]) in cs && QualifiedUpper(qas[k], ta') in cs
    ensures Intermediate(ta, ta') in CalculateClosure(cs)
  {
    ClosureClosed(cs);
    WritesGoBack(cs, qas, ta, k);
    var s := CalculateClosure(cs);
    var c1, c2 := QualifiedLower(ta, qas[k]), QualifiedUpper(qas[k], ta');
    assert c1 in s && c2 in s;
    assert Intermediate(ta, ta') in CloseQualifiedRead(s);
    Added(s, QualifiedRead, Intermediate(ta, ta'));
  }

  /** Each variable of the list has been made from the next. */
  ghost predicate Lineage(cs: set<Constraint>, qas: seq<QVar>) {
    forall i :: 0 < i < |qas| ==> PolyLineage(qas[i - 1], qas[i]) in cs
  }

  /** A bound on the last of a line binds them all, and as an ordinary qualifier constraint too. */
  lemma {:induction false} BoundIsInherited(cs: set<Constraint>, qas: seq<QVar>, quals: set<TQual>, k: nat)
    requires Lineage(cs, qas) && k < |qas| && MonomorphicUpper(qas[|qas| - 1], quals) in cs
    ensures MonomorphicUpper(qas[k], quals) in CalculateClosure(cs)
    ensures QualifiedIntermediate(Qv(qas[k]), Quals(quals)) in CalculateClosure(cs)
    decreases |qas| - k
  {
    ClosureClosed(cs);
    var s := CalculateClosure(cs);
    if k + 1 < |qas| {
      BoundIsInherited(cs, qas, quals, k + 1);
      var c1, c2, d := MonomorphicUpper(qas[k + 1], quals), PolyLineage(qas[k], qas[k + 1]), MonomorphicUpper(qas[k], quals);
      assert PolyLineage(qas[k + 1 - 1], qas[k + 1]) in cs;
      assert c1 in s && c2 in s;
      assert d in CloseMonomorphicTransitivity(s);
      Added(s, MonomorphicTransitivity, d);
    }
    var c := MonomorphicUpper(qas[k], quals);
    assert c in s && QualifiedIntermediate(Qv(qas[k]), Quals(quals)) in CloseMonomorphicBounding(s);
    Added(s, MonomorphicBounding, QualifiedIntermediate(Qv(qas[k]), Quals(quals)));
  }

  /* ---------- Opaque variables ---------- */

  /** The type is the bound, or flows into it. */
  ghost predicate Reaches(cs: set<Constraint>, t: ShallowType, via: seq<AnyVar>, ta: TypeOrVar) {
    if ta.Ty? then t == ta.t
    else via != [] && Edge(cs, NType(t), NVar(via[0])) && Chain(cs, via) && via[|via| - 1] == SomeU(ta.a)
  }

  /** The bound is the type, or flows into it. */
  ghost predicate ReachedFrom(cs: set<Constraint>, ta: TypeOrVar, via: seq<AnyVar>, u: ShallowType) {
    if ta.Ty? then u == ta.t
    else via != [] && via[0] == SomeU(ta.a) && Chain(cs, via) && Edge(cs, NVar(via[|via| - 1]), NType(u))
  }

  lemma PlainEdge(s: set<Constraint>, x: Node, y: Node)
    requires Edge(s, x, y) && (x.NType? || x.v.SomeU?) && (y.NType? || y.v.SomeU?)
    ensures Intermediate(TVOf(x), TVOf(y)) in s
  {
    var c :| c in s && EdgeOf(c) == Some((x, y));
    assert c == Intermediate(TVOf(x), TVOf(y));
  }

  function TVOf(n: Node): TypeOrVar
    requires n.NType? || n.v.SomeU?
  {
    if n.NType? then Ty(n.t) else Tv(n.v.u)
  }

  lemma LowerBoundFound(cs: set<Constraint>, t: ShallowType, via: seq<AnyVar>, ta: TypeOrVar)
    requires Reaches(cs, t, via, ta)
    ensures t in LowerBoundsOf(CalculateClosure(cs), ta)
  {
    if ta.Tv? {
      TypeReachesChain(cs, t, via, |via| - 1);
      PlainEdge(CalculateClosure(cs), NType(t), NVar(SomeU(ta.a)));
    }
  }

  lemma UpperBoundFound(cs: set<Constraint>, ta: TypeOrVar, via: seq<AnyVar>, u: ShallowType)
    requires ReachedFrom(cs, ta, via, u)
    ensures u in UpperBoundsOf(CalculateClosure(cs), ta)
  {
    if ta.Tv? {
      ChainReachesType(cs, via, u, 0);
      PlainEdge(CalculateClosure(cs), NVar(SomeU(ta.a)), NType(u));
    }
  }

  /** What flows into an opaque variable flows into every type below its lower bound, unless it is the
      variable itself or a record with it as a part. */
  lemma IntoOpaque(cs: set<Constraint>, t: ShallowType, via: seq<AnyVar>, oa: OpaqueVar, lb: TypeOrVar, ub: TypeOrVar,
                   tL: ShallowType, viaL: seq<AnyVar>)
    requires Flows(cs, t, via, SOpaque(oa)) && OpaqueBound(oa, lb, ub) in cs && Reaches(cs, tL, viaL, lb)
    requires t != SOpaque(oa) && (t.SRecord? ==> oa !in t.opaques)
    ensures Intermediate(Ty(t), Ty(tL)) in CalculateClosure(cs)
  {
    ClosureClosed(cs);
    FlowArrives(cs, t, via, SOpaque(oa));
    LowerBoundFound(cs, tL, viaL, lb);
    var s := CalculateClosure(cs);
    var c, b := Intermediate(Ty(t), Ty(SOpaque(oa))), OpaqueBound(oa, lb, ub);
    assert c in s && b in s && OpaqueAbove(c);
    assert Intermediate(c.lo, Ty(tL)) in OpaqueUpperBound(s);
    Added(s, OpaqueUpper, Intermediate(Ty(t), Ty(tL)));
  }

  /** What an opaque variable flows into, every type above its upper bound flows into, unless it is the
      variable itself or a record of nothing else. */
  lemma OutOfOpaque(cs: set<Constraint>, oa: OpaqueVar, via: seq<AnyVar>, u: ShallowType, lb: TypeOrVar, ub: TypeOrVar,
                    tU: ShallowType, viaU: seq<AnyVar>)
    requires Flows(cs, SOpaque(oa), via, u) && OpaqueBound(oa, lb, ub) in cs && ReachedFrom(cs, ub, viaU, tU)
    requires u != SOpaque(oa) && u != SRecord(map[], {oa})
    ensures Intermediate(Ty(tU), Ty(u)) in CalculateClosure(cs)
  {
    ClosureClosed(cs);
    FlowArrives(cs, SOpaque(oa), via, u);
    UpperBoundFound(cs, ub, viaU, tU);
    var s := CalculateClosure(cs);
    var c, b := Intermediate(Ty(SOpaque(oa)), Ty(u)), OpaqueBound(oa, lb, ub);
    assert c in s && b in s && OpaqueBelow(c);
    assert Intermediate(Ty(tU), c.hi) in OpaqueLowerBound(s);
    Added(s, OpaqueLower, Intermediate(Ty(tU), Ty(u)));
  }

  /** An opaque variable below itself, and records that have it as a part below it. */
  function AgainstItself(oa: OpaqueVar, rows: map<Label, QVar>, oas: set<OpaqueVar>, tL: ShallowType, tU: ShallowType): set<Constraint> {
    {Intermediate(Ty(SOpaque(oa)), Ty(SOpaque(oa))), Intermediate(Ty(SRecord(rows, oas)), Ty(SOpaque(oa))), OpaqueBound(oa, Ty(tL), Ty(tU))}
  }

  /** Nothing is learned from them: its bounds are no business of the variable itself. */
  lemma ItselfTeachesNothing(oa: OpaqueVar, rows: map<Label, QVar>, oas: set<OpaqueVar>, tL: ShallowType, tU: ShallowType)
    requires oa in oas
    ensures CalculateClosure(AgainstItself(oa, rows, oas, tL, tU)) == AgainstItself(oa, rows, oas, tL, tU)
  {
    var s := AgainstItself(oa, rows, oas, tL, tU);
    forall r: Rule, c ensures c !in Apply(r, s) { ItselfRule(oa, rows, oas, tL, tU, r, c); }
    ClosureClosed(s);
    ClosureBelow(s, s);
  }

  lemma ItselfRule(oa: OpaqueVar, rows: map<Label, QVar>, oas: set<OpaqueVar>, tL: ShallowType, tU: ShallowType, r: Rule, c: Constraint)
    requires oa in oas
    ensures c !in Apply(r, AgainstItself(oa, rows, oas, tL, tU))
  {}

  /** The variable below the record of nothing but itself. */
  function BelowItsRecord(oa: OpaqueVar, tL: ShallowType, tU: ShallowType): set<Constraint> {
    {Intermediate(Ty(SOpaque(oa)), Ty(SRecord(map[], {oa}))), OpaqueBound(oa, Ty(tL), Ty(tU))}
  }

  /** What is learned is that it is a record, and so then is its upper bound; not that the upper bound is
      below the variable. */
  lemma ItsRecordTeachesLittle(oa: OpaqueVar, tL: ShallowType, tU: ShallowType)
    requires OpaqueFreeT(tU)
    ensures CalculateClosure(BelowItsRecord(oa, tL, tU)) <= LearnedOfItsRecord(oa, tL, tU)
  {
    var more := LearnedOfItsRecord(oa, tL, tU);
    forall r: Rule, c | c in Apply(r, more) ensures c in more { ItsRecordRule(oa, tL, tU, r, c); }
    ClosureBelow(BelowItsRecord(oa, tL, tU), more);
  }

  function LearnedOfItsRecord(oa: OpaqueVar, tL: ShallowType, tU: ShallowType): set<Constraint> {
    BelowItsRecord(oa, tL, tU) +
    {Intermediate(Ty(SOpaque(oa)), Ty(SRecord(map[], {}))), Intermediate(Ty(SOpaque(oa)), Ty(SOpaque(oa))),
     Intermediate(Ty(tU), Ty(SRecord(map[], {})))}
  }

  lemma ItsRecordRule(oa: OpaqueVar, tL: ShallowType, tU: ShallowType, r: Rule, c: Constraint)
    requires OpaqueFreeT(tU) && c in Apply(r, LearnedOfItsRecord(oa, tL, tU))
    ensures c in LearnedOfItsRecord(oa, tL, tU)
  {
    match r
    case UpperExtendedRecord => ItsRecordAbove(oa, tL, tU, c);
    case OpaqueLower => ItsRecordBelow(oa, tL, tU, c);
    case ImmediateType => ItsRecordParts(oa, tL, tU, c);
    case OpaqueUpper => ItsRecordUpper(oa, tL, tU);
    case LowerExtendedRecord => ItsRecordOpened(oa, tL, tU);
    case _ =>
      ItsRecordHasNone(oa, tL, tU);
      NoVariablesSilent(LearnedOfItsRecord(oa, tL, tU), r);
  }

  lemma ItsRecordAbove(oa: OpaqueVar, tL: ShallowType, tU: ShallowType, c: Constraint)
    requires c in CloseUpperBoundingExtendedRecord(LearnedOfItsRecord(oa, tL, tU))
    ensures c in LearnedOfItsRecord(oa, tL, tU)
  {}

  lemma ItsRecordBelow(oa: OpaqueVar, tL: ShallowType, tU: ShallowType, c: Constraint)
    requires OpaqueFreeT(tU) && c in OpaqueLowerBound(LearnedOfItsRecord(oa, tL, tU))
    ensures c in LearnedOfItsRecord(oa, tL, tU)
  {}

  lemma ItsRecordParts(oa: OpaqueVar, tL: ShallowType, tU: ShallowType, c: Constraint)
    ensures c !in CloseImmediate(LearnedOfItsRecord(oa, tL, tU))
  {}

  lemma ItsRecordUpper(oa: OpaqueVar, tL: ShallowType, tU: ShallowType)
    requires OpaqueFreeT(tU)
    ensures OpaqueUpperBound(LearnedOfItsRecord(oa, tL, tU)) == {}
  {}

  lemma ItsRecordOpened(oa: OpaqueVar, tL: ShallowType, tU: ShallowType)
    requires OpaqueFreeT(tU)
    ensures CloseLowerBoundingExtendedRecord(LearnedOfItsRecord(oa, tL, tU)) == {}
  {
    forall c | c in LearnedOfItsRecord(oa, tL, tU) && TypesOnly(c) && c.lo.t.SRecord? ensures c.lo.t.opaques == {} {}
  }

  /** Constraints between types and bounds only: the rules about variables have nothing to go on. */
  predicate NoVariables(s: set<Constraint>) { forall c :: c in s ==> TypesOnly(c) || c.OpaqueBound? }

  lemma NoVariablesSilent(s: set<Constraint>, r: Rule)
    requires NoVariables(s) && (r.Transitivity? || r.QualTransitivity? || r.QualifiedRead? || r.QualifiedWrite? || r.MonomorphicTransitivity? || r.MonomorphicBounding?)
    ensures Apply(r, s) == {}
  {}

  lemma ItsRecordHasNone(oa: OpaqueVar, tL: ShallowType, tU: ShallowType)
    ensures NoVariables(LearnedOfItsRecord(oa, tL, tU))
  {}

  /* ---------- Records with opaque parts ---------- */

  /** What flows into such a record flows into its visible rows and into each of its parts. */
  lemma IntoOpenRecord(cs: set<Constraint>, t: ShallowType, via: seq<AnyVar>, rows: map<Label, QVar>, oas: set<OpaqueVar>)
    requires Flows(cs, t, via, SRecord(rows, oas))
    ensures Intermediate(Ty(t), Ty(SRecord(rows, {}))) in CalculateClosure(cs)
    ensures forall oa :: oa in oas ==> Intermediate(Ty(t), Ty(SOpaque(oa))) in CalculateClosure(cs)
  {
    ClosureClosed(cs);
    FlowArrives(cs, t, via, SRecord(rows, oas));
    var s := CalculateClosure(cs);
    var c := Intermediate(Ty(t), Ty(SRecord(rows, oas)));
    assert c in s && RecordAbove(c);
    assert Intermediate(c.lo, Ty(SRecord(c.hi.t.rows, {}))) in CloseUpperBoundingExtendedRecord(s);
    Added(s, UpperExtendedRecord, Intermediate(Ty(t), Ty(SRecord(rows, {}))));
    forall oa | oa in oas ensures Intermediate(Ty(t), Ty(SOpaque(oa))) in s {
      assert oa in c.hi.t.opaques;
      assert Intermediate(c.lo, Ty(SOpaque(oa))) in CloseUpperBoundingExtendedRecord(s);
      Added(s, UpperExtendedRecord, Intermediate(Ty(t), Ty(SOpaque(oa))));
    }
  }

  /** Where such a record flows, so does the record in which a part has been replaced by a type above the
      part's upper bound, when the two can be put together. */
  lemma OutOfOpenRecord(cs: set<Constraint>, t: ShallowType, via: seq<AnyVar>, u: ShallowType, oa: OpaqueVar,
                        lb: TypeOrVar, ub: TypeOrVar, tU: ShallowType, viaU: seq<AnyVar>)
    requires Flows(cs, t, via, u) && t.SRecord? && oa in t.opaques && !(u.SOpaque? && u.oa in t.opaques)
    requires OpaqueBound(oa, lb, ub) in cs && ReachedFrom(cs, ub, viaU, tU) && Opened(t, oa, tU).Ok?
    ensures Intermediate(Ty(Opened(t, oa, tU).value), Ty(u)) in CalculateClosure(cs)
  {
    ClosureClosed(cs);
    FlowArrives(cs, t, via, u);
    UpperBoundFound(cs, ub, viaU, tU);
    var s := CalculateClosure(cs);
    var c, b := Intermediate(Ty(t), Ty(u)), OpaqueBound(oa, lb, ub);
    assert c in s && b in s && OpensLower(c, b, tU);
    assert Intermediate(Ty(Opened(c.lo.t, b.oa, tU).value), c.hi) in CloseLowerBoundingExtendedRecord(s);
    Added(s, LowerExtendedRecord, Intermediate(Ty(Opened(t, oa, tU).value), Ty(u)));
  }

  /* ---------- Putting records together ---------- */

  /** Only tops and records, no label and no opaque part twice. */
  predicate Joinable(ts: seq<ShallowType>) {
    && (forall i :: 0 <= i < |ts| ==> ts[i].STop? || ts[i].SRecord?)
    && forall i, j :: 0 <= i < j < |ts| && ts[i].SRecord? && ts[j].SRecord? ==>
         ts[i].rows.Keys !! ts[j].rows.Keys && ts[i].opaques !! ts[j].opaques
  }

  /** The rows and parts of all the records, and nothing else. */
  ghost predicate Joins(r: ShallowType, ts: seq<ShallowType>) {
    && r.SRecord?
    && (forall l :: l in r.rows <==> exists i :: 0 <= i < |ts| && ts[i].SRecord? && l in ts[i].rows)
    && (forall i, l :: 0 <= i < |ts| && ts[i].SRecord? && l in ts[i].rows ==> l in r.rows && r.rows[l] == ts[i].rows[l])
    && (forall oa :: oa in r.opaques <==> exists i :: 0 <= i < |ts| && ts[i].SRecord? && oa in ts[i].opaques)
  }

  /** Concatenation succeeds exactly on joinable types and gives their join. */
  lemma ConcatenationExact(ts: seq<ShallowType>)
    ensures RecordConcat(ts).Ok? <==> Joinable(ts)
    ensures RecordConcat(ts).Ok? ==> Joins(RecordConcat(ts).value, ts)
  {
    var none := SRecord(map[], {});
    ConcatExact(none, ts);
    assert forall i :: 0 <= i < |ts| ==> ([none] + ts)[i + 1] == ts[i];
    assert ([none] + ts)[0] == none;
    if Joinable(ts) {
      forall i, j | 0 <= i < j < |[none] + ts| && ([none] + ts)[i].SRecord? && ([none] + ts)[j].SRecord?
        ensures ([none] + ts)[i].rows.Keys !! ([none] + ts)[j].rows.Keys && ([none] + ts)[i].opaques !! ([none] + ts)[j].opaques
      {
        if i > 0 { assert ([none] + ts)[i] == ts[i - 1] && ([none] + ts)[j] == ts[j - 1]; }
      }
    }
    if RecordConcat(ts).Ok? { JoinsWithout(RecordConcat(ts).value, none, ts); }
    if Joinable([none] + ts) { JoinableTail(none, ts); }
  }

  lemma JoinsWithout(r: ShallowType, none: ShallowType, ts: seq<ShallowType>)
    requires none == SRecord(map[], {}) && Joins(r, [none] + ts)
    ensures Joins(r, ts)
  {
    var all := [none] + ts;
    assert forall i :: 0 <= i < |ts| ==> all[i + 1] == ts[i];
    forall l ensures l in r.rows <==> exists i :: 0 <= i < |ts| && ts[i].SRecord? && l in ts[i].rows {
      if l in r.rows {
        var i :| 0 <= i < |all| && all[i].SRecord? && l in all[i].rows;
        assert i > 0 && ts[i - 1] == all[i];
      }
    }
    forall oa ensures oa in r.opaques <==> exists i :: 0 <= i < |ts| && ts[i].SRecord? && oa in ts[i].opaques {
      if oa in r.opaques {
        var i :| 0 <= i < |all| && all[i].SRecord? && oa in all[i].opaques;
        assert i > 0 && ts[i - 1] == all[i];
      }
    }
  }

  lemma JoinableTail(x: ShallowType, ts: seq<ShallowType>)
    requires Joinable([x] + ts)
    ensures Joinable(ts)
  {
    assert forall i :: 0 <= i < |ts| ==> ([x] + ts)[i + 1] == ts[i];
  }

  lemma {:induction false} ConcatExact(acc: ShallowType, ts: seq<ShallowType>)
    requires acc.SRecord?
    ensures ConcatOnto(acc, ts).Ok? <==> Joinable([acc] + ts)
    ensures ConcatOnto(acc, ts).Ok? ==> Joins(ConcatOnto(acc, ts).value, [acc] + ts)
    decreases |ts|
  {
    if ts == [] {
      assert ([acc] + ts)[0] == acc;
    } else {
      var t, rest := ts[0], ts[1..];
      assert [acc] + ts == [acc, t] + rest;
      if t.STop? {
        ConcatExact(acc, rest);
        TopSkipped(acc, rest);
      } else if t.SRecord? && ConcatRecs(acc, t).Ok? {
        ConcatExact(ConcatRecs(acc, t).value, rest);
        Merged(acc, t, rest);
      } else {
        assert ([acc, t] + rest)[0] == acc && ([acc, t] + rest)[1] == t;
      }
    }
  }

  lemma TopSkipped(acc: ShallowType, rest: seq<ShallowType>)
    requires acc.SRecord?
    ensures Joinable([acc, STop] + rest) <==> Joinable([acc] + rest)
    ensures forall r :: Joins(r, [acc] + rest) ==> Joins(r, [acc, STop] + rest)
  {
    var a, b := [acc] + rest, [acc, STop] + rest;
    assert a[0] == b[0] == acc && b[1] == STop;
    assert forall i :: 0 < i < |a| ==> b[i + 1] == a[i];
    assert forall i :: 1 < i < |b| ==> a[i - 1] == b[i];
    if Joinable(a) {
      forall i, j | 0 <= i < j < |b| && b[i].SRecord? && b[j].SRecord?
        ensures b[i].rows.Keys !! b[j].rows.Keys && b[i].opaques !! b[j].opaques
      {
        var i', j' := if i == 0 then 0 else i - 1, j - 1;
        assert a[i'] == b[i] && a[j'] == b[j];
      }
    }
    if Joinable(b) {
      forall i, j | 0 <= i < j < |a| && a[i].SRecord? && a[j].SRecord?
        ensures a[i].rows.Keys !! a[j].rows.Keys && a[i].opaques !! a[j].opaques
      {
        var i', j' := if i == 0 then 0 else i + 1, j + 1;
        assert b[i'] == a[i] && b[j'] == a[j];
      }
    }
    forall r | Joins(r, a) ensures Joins(r, b) { JoinsCopied(r, a, b); }
  }

  lemma JoinsCopied(r: ShallowType, a: seq<ShallowType>, b: seq<ShallowType>)
    requires Joins(r, a) && |b| == |a| + 1 && a != [] && a[0] == b[0] && b[1].STop?
    requires forall i :: 0 < i < |a| ==> b[i + 1] == a[i]
    ensures Joins(r, b)
  {
    forall l ensures l in r.rows <==> exists i :: 0 <= i < |b| && b[i].SRecord? && l in b[i].rows {
      if l in r.rows {
        var i :| 0 <= i < |a| && a[i].SRecord? && l in a[i].rows;
        assert b[if i == 0 then 0 else i + 1] == a[i];
      }
      if i :| 0 <= i < |b| && b[i].SRecord? && l in b[i].rows { assert a[if i == 0 then 0 else i - 1] == b[i]; }
    }
    forall oa ensures oa in r.opaques <==> exists i :: 0 <= i < |b| && b[i].SRecord? && oa in b[i].opaques {
      if oa in r.opaques {
        var i :| 0 <= i < |a| && a[i].SRecord? && oa in a[i].opaques;
        assert b[if i == 0 then 0 else i + 1] == a[i];
      }
      if i :| 0 <= i < |b| && b[i].SRecord? && oa in b[i].opaques { assert a[if i == 0 then 0 else i - 1] == b[i]; }
    }
    forall i, l | 0 <= i < |b| && b[i].SRecord? && l in b[i].rows ensures l in r.rows && r.rows[l] == b[i].rows[l] {
      assert a[if i == 0 then 0 else i - 1] == b[i];
    }
  }

  lemma Apart<T>(a: set<T>, b: set<T>)
    requires a * b == {}
    ensures a !! b
  {
    forall x | x in a ensures x !in b {
      assert x in b ==> x in a * b;
    }
  }

  lemma Merged(acc: ShallowType, t: ShallowType, rest: seq<ShallowType>)
    requires acc.SRecord? && t.SRecord? && ConcatRecs(acc, t).Ok?
    ensures var u := ConcatRecs(acc, t).value;
      && u.SRecord? && (Joinable([u] + rest) <==> Joinable([acc, t] + rest))
      && forall r :: Joins(r, [u] + rest) ==> Joins(r, [acc, t] + rest)
  {
    var u := ConcatRecs(acc, t).value;
    Apart(acc.rows.Keys, t.rows.Keys);
    Apart(acc.opaques, t.opaques);
    MergedJoinable(acc, t, u, rest);
    forall r | Joins(r, [u] + rest) ensures Joins(r, [acc, t] + rest) { MergedJoins(r, acc, t, u, rest); }
  }

  ghost predicate IsMerge(u: ShallowType, acc: ShallowType, t: ShallowType) {
    && acc.SRecord? && t.SRecord? && u.SRecord? && acc.rows.Keys !! t.rows.Keys && acc.opaques !! t.opaques
    && u.rows == acc.rows + t.rows && u.opaques == acc.opaques + t.opaques
  }

  lemma MergedJoinable(acc: ShallowType, t: ShallowType, u: ShallowType, rest: seq<ShallowType>)
    requires IsMerge(u, acc, t)
    ensures Joinable([u] + rest) <==> Joinable([acc, t] + rest)
  {
    var a, b := [u] + rest, [acc, t] + rest;
    assert forall i :: 0 < i < |a| ==> b[i + 1] == a[i];
    assert forall i :: 1 < i < |b| ==> a[i - 1] == b[i];
    assert a[0] == u && b[0] == acc && b[1] == t;
    if Joinable(a) {
      forall i, j | 0 <= i < j < |b| && b[i].SRecord? && b[j].SRecord?
        ensures b[i].rows.Keys !! b[j].rows.Keys && b[i].opaques !! b[j].opaques
      {
        if j > 1 {
          var i' := if i <= 1 then 0 else i - 1;
          assert a[j - 1] == b[j] && a[i'].rows.Keys !! a[j - 1].rows.Keys && a[i'].opaques !! a[j - 1].opaques;
        }
      }
    }
    if Joinable(b) {
      forall i, j | 0 <= i < j < |a| && a[i].SRecord? && a[j].SRecord?
        ensures a[i].rows.Keys !! a[j].rows.Keys && a[i].opaques !! a[j].opaques
      {
        assert b[j + 1] == a[j];
        if i > 0 { assert b[i + 1] == a[i]; }
        else { assert b[0].rows.Keys !! b[j + 1].rows.Keys && b[1].rows.Keys !! b[j + 1].rows.Keys; }
      }
    }
  }

  lemma MergedJoins(r: ShallowType, acc: ShallowType, t: ShallowType, u: ShallowType, rest: seq<ShallowType>)
    requires IsMerge(u, acc, t) && Joins(r, [u] + rest)
    ensures Joins(r, [acc, t] + rest)
  {
    var a, b := [u] + rest, [acc, t] + rest;
    assert forall i :: 0 < i < |a| ==> b[i + 1] == a[i];
    assert forall i :: 1 < i < |b| ==> a[i - 1] == b[i];
    assert a[0] == u && b[0] == acc && b[1] == t;
    forall l ensures l in r.rows <==> exists i :: 0 <= i < |b| && b[i].SRecord? && l in b[i].rows {
      if l in r.rows {
        var i :| 0 <= i < |a| && a[i].SRecord? && l in a[i].rows;
        var i' := if i > 0 then i + 1 else if l in acc.rows then 0 else 1;
        assert b[i'].SRecord? && l in b[i'].rows;
      }
      if i :| 0 <= i < |b| && b[i].SRecord? && l in b[i].rows {
        assert l in a[if i <= 1 then 0 else i - 1].rows;
      }
    }
    forall oa ensures oa in r.opaques <==> exists i :: 0 <= i < |b| && b[i].SRecord? && oa in b[i].opaques {
      if oa in r.opaques {
        var i :| 0 <= i < |a| && a[i].SRecord? && oa in a[i].opaques;
        var i' := if i > 0 then i + 1 else if oa in acc.opaques then 0 else 1;
        assert b[i'].SRecord? && oa in b[i'].opaques;
      }
      if i :| 0 <= i < |b| && b[i].SRecord? && oa in b[i].opaques {
        assert oa in a[if i <= 1 then 0 else i - 1].opaques;
      }
    }
    forall i, l | 0 <= i < |b| && b[i].SRecord? && l in b[i].rows ensures l in r.rows && r.rows[l] == b[i].rows[l] {
      var i' := if i <= 1 then 0 else i - 1;
      assert l in a[i'].rows && a[i'].rows[l] == b[i].rows[l];
    }
  }

  /* ---------- The checks on records with opaque parts ---------- */

  /** The two can stand in one record. */
  predicate Fits(t: ShallowType, u: ShallowType)
    requires t.SRecord?
  {
    u.STop? || (u.SRecord? && u.rows.Keys !! t.rows.Keys && u.opaques !! t.opaques)
  }

  /** The checks pass an open record exactly when every type above the upper bound of each of its parts is
      the top type or a record that can stand beside it. */
  lemma OpenRecordAccepted(cs: set<Constraint>, t: ShallowType, u: ShallowType)
    requires t.SRecord? && t.opaques != {}
    ensures RecordOk(cs, t, u) && ConcatenationOk(cs, t) <==>
      forall b :: b in cs && b.OpaqueBound? && b.oa in t.opaques ==>
        forall tU :: tU in UpperBoundsOf(cs, b.ub) ==> Fits(t, tU)
  {
    forall oa, tU | oa in t.opaques ensures Opened(t, oa, tU).Ok? && RecordConcat([t, tU]).Ok? <==> Fits(t, tU) {
      PairFits(t, oa, tU);
    }
  }

  lemma PairFits(t: ShallowType, oa: OpaqueVar, tU: ShallowType)
    requires t.SRecord? && oa in t.opaques
    ensures Opened(t, oa, tU).Ok? && RecordConcat([t, tU]).Ok? <==> Fits(t, tU)
  {
    var a, b := [tU, SRecord(t.rows, t.opaques - {oa})], [t, tU];
    ConcatenationExact(a);
    ConcatenationExact(b);
    assert a[0] == tU && a[1] == SRecord(t.rows, t.opaques - {oa}) && b[0] == t && b[1] == tU;
  }
}
