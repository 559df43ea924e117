/** Constraint closure: eleven rules applied until nothing new is learned. It terminates on every
    constraint set and returns the least superset closed under the rules. */
module Closure {
  import opened Options
  import opened Types

  datatype Result<+T> = Ok(value: T) | Err

  /* ---------- Queries: what one constraint contributes to each index ---------- */

  /** A bound on a variable: a type or unqualified variable, or a qualified variable. */
  datatype Bound = Plain(ta: TypeOrVar) | Qualified(qa: QVar)

  function TypeBelowVar(c: Constraint): Option<(ShallowType, AnyVar)> {
    match c
    case Intermediate(Ty(t), Tv(a)) => Some((t, SomeU(a)))
    case QualifiedLower(Ty(t), qa) => Some((t, SomeQ(qa)))
    case _ => None
  }

  function TypeAboveVar(c: Constraint): Option<(AnyVar, ShallowType)> {
    match c
    case Intermediate(Tv(a), Ty(t)) => Some((SomeU(a), t))
    case QualifiedUpper(qa, Ty(t)) => Some((SomeQ(qa), t))
    case _ => None
  }

  function BoundAbove(c: Constraint): Option<(AnyVar, Bound)> {
    match c
    case Intermediate(Tv(a), ta) => Some((SomeU(a), Plain(ta)))
    case QualifiedLower(Tv(a), qa) => Some((SomeU(a), Qualified(qa)))
    case QualifiedUpper(qa, ta) => Some((SomeQ(qa), Plain(ta)))
    case QualifiedIntermediate(Qv(qa1), Qv(qa2)) => Some((SomeQ(qa1), Qualified(qa2)))
    case _ => None
  }

  function BoundBelow(c: Constraint): Option<(AnyVar, Bound)> {
    match c
    case Intermediate(ta, Tv(a)) => Some((SomeU(a), Plain(ta)))
    case QualifiedUpper(qa, Tv(a)) => Some((SomeU(a), Qualified(qa)))
    case QualifiedLower(ta, qa) => Some((SomeQ(qa), Plain(ta)))
    case QualifiedIntermediate(Qv(qa1), Qv(qa2)) => Some((SomeQ(qa2), Qualified(qa1)))
    case _ => None
  }

  predicate TypesOnly(c: Constraint) { c.Intermediate? && c.lo.Ty? && c.hi.Ty? }

  function UpperBoundsOf(cs: set<Constraint>, ta: TypeOrVar): set<ShallowType> {
    if ta.Ty? then {ta.t}
    else set c | c in cs && c.Intermediate? && c.lo == ta && c.hi.Ty? :: c.hi.t
  }

  function LowerBoundsOf(cs: set<Constraint>, ta: TypeOrVar): set<ShallowType> {
    if ta.Ty? then {ta.t}
    else set c | c in cs && c.Intermediate? && c.hi == ta && c.lo.Ty? :: c.lo.t
  }

  /** Concatenation of record types; tops are skipped, overlaps and non-records are errors. */
  function RecordConcat(ts: seq<ShallowType>): Result<ShallowType> {
    ConcatOnto(SRecord(map[], {}), ts)
  }

  function ConcatOnto(acc: ShallowType, ts: seq<ShallowType>): Result<ShallowType>
    decreases |ts|
  {
    if ts == [] then Ok(acc)
    else if ts[0].STop? then ConcatOnto(acc, ts[1..])
    else
      match ConcatRecs(acc, ts[0])
      case Err => Err
      case Ok(acc') => ConcatOnto(acc', ts[1..])
  }

  function ConcatRecs(t1: ShallowType, t2: ShallowType): Result<ShallowType> {
    match (t1, t2)
    case (SRecord(m1, oas1), SRecord(m2, oas2)) =>
      if m1.Keys * m2.Keys == {} && oas1 * oas2 == {} then Ok(SRecord(m1 + m2, oas1 + oas2)) else Err
    case _ => Err
  }

  /* ---------- The rules ---------- */

  function BelowBound(t: ShallowType, b: Bound): Constraint {
    match b
    case Plain(ta) => Intermediate(Ty(t), ta)
    case Qualified(qa) => QualifiedLower(Ty(t), qa)
  }

  function AboveBound(b: Bound, t: ShallowType): Constraint {
    match b
    case Plain(ta) => Intermediate(ta, Ty(t))
    case Qualified(qa) => QualifiedUpper(qa, Ty(t))
  }

  predicate MeetAbove(c1: Constraint, c2: Constraint) {
    TypeBelowVar(c1).Some? && BoundAbove(c2).Some? && TypeBelowVar(c1).value.1 == BoundAbove(c2).value.0
  }

  predicate MeetBelow(c1: Constraint, c2: Constraint) {
    TypeAboveVar(c1).Some? && BoundBelow(c2).Some? && TypeAboveVar(c1).value.0 == BoundBelow(c2).value.0
  }

  function CloseTransitivity(cs: set<Constraint>): set<Constraint> {
    (set c1, c2 | c1 in cs && c2 in cs && MeetAbove(c1, c2)
       :: BelowBound(TypeBelowVar(c1).value.0, BoundAbove(c2).value.1)) +
    (set c1, c2 | c1 in cs && c2 in cs && MeetBelow(c1, c2)
       :: AboveBound(BoundBelow(c2).value.1, TypeAboveVar(c1).value.1))
  }

  function SubQ(qa1: QVar, qa2: QVar): Constraint { QualifiedIntermediate(Qv(qa1), Qv(qa2)) }

  function SubU(a1: UVar, a2: UVar): Constraint { Intermediate(Tv(a1), Tv(a2)) }

  /** What an immediate type-to-type constraint implies about the parts. */
  function Decompose(t1: ShallowType, t2: ShallowType): set<Constraint> {
    match (t1, t2)
    case (SFunction(a1, a2), SFunction(a3, a4)) => {SubU(a2, a4), SubU(a3, a1)}
    case (STrigger(a1), STrigger(a2)) => {SubU(a2, a1)}
    case (SOption(qa1), SOption(qa2)) => {SubQ(qa1, qa2)}
    case (SIndirection(qa1), SIndirection(qa2)) => {SubQ(qa1, qa2)}
    case (STuple(qas1), STuple(qas2)) =>
      if |qas1| == |qas2| then set i | 0 <= i < |qas1| :: SubQ(qas1[i], qas2[i]) else {}
    case (SRecord(m1, oas1), SRecord(m2, oas2)) =>
      if oas1 == {} && oas2 == {} && m2.Keys <= m1.Keys
      then set l | l in m2 :: SubQ(m1[l], m2[l]) else {}
    case _ => {}
  }

  function CloseImmediate(cs: set<Constraint>): set<Constraint> {
    set c, d | c in cs && TypesOnly(c) && d in Decompose(c.lo.t, c.hi.t) :: d
  }

  /** The record with one opaque part replaced by an upper bound of that part. */
  function Opened(t: ShallowType, oa: OpaqueVar, bound: ShallowType): Result<ShallowType>
    requires t.SRecord?
  {
    RecordConcat([bound, SRecord(t.rows, t.opaques - {oa})])
  }

  predicate OpensLower(c: Constraint, b: Constraint, tU: ShallowType) {
    && TypesOnly(c) && c.lo.t.SRecord? && b.OpaqueBound?
    && (c.hi.t.SOpaque? ==> c.hi.t.oa !in c.lo.t.opaques)
    && b.oa in c.lo.t.opaques
    && Opened(c.lo.t, b.oa, tU).Ok?
  }

  function CloseLowerBoundingExtendedRecord(cs: set<Constraint>): set<Constraint> {
    set c, b, tU | c in cs && b in cs && b.OpaqueBound? && tU in UpperBoundsOf(cs, b.ub) && OpensLower(c, b, tU)
      :: Intermediate(Ty(Opened(c.lo.t, b.oa, tU).value), c.hi)
  }

  predicate RecordAbove(c: Constraint) { TypesOnly(c) && c.hi.t.SRecord? }

  function CloseUpperBoundingExtendedRecord(cs: set<Constraint>): set<Constraint> {
    (set c | c in cs && RecordAbove(c) :: Intermediate(c.lo, Ty(SRecord(c.hi.t.rows, {})))) +
    (set c, oa | c in cs && RecordAbove(c) && oa in c.hi.t.opaques :: Intermediate(c.lo, Ty(SOpaque(oa))))
  }

  predicate BelowQVar(c: Constraint) { c.QualifiedIntermediate? && c.qhi.Qv? }

  predicate AboveQVar(c: Constraint) { c.QualifiedIntermediate? && c.qlo.Qv? }

  function CloseQualifiedTransitivity(cs: set<Constraint>): set<Constraint> {
    set c1, c2 | c1 in cs && c2 in cs && BelowQVar(c1) && AboveQVar(c2) && c1.qhi == c2.qlo
      :: QualifiedIntermediate(c1.qlo, c2.qhi)
  }

  function CloseQualifiedRead(cs: set<Constraint>): set<Constraint> {
    set c1, c2 | c1 in cs && c2 in cs && c1.QualifiedLower? && c2.QualifiedUpper? && c1.qa == c2.qa
      :: Intermediate(c1.ta, c2.ta)
  }

  function CloseQualifiedWrite(cs: set<Constraint>): set<Constraint> {
    set c1, c2 | c1 in cs && c2 in cs && BelowQVar(c1) && AboveQVar(c1) && c2.QualifiedLower? && c1.qhi.qa == c2.qa
      :: QualifiedLower(c2.ta, c1.qlo.qa)
  }

  function CloseMonomorphicTransitivity(cs: set<Constraint>): set<Constraint> {
    set c1, c2 | c1 in cs && c2 in cs && c1.MonomorphicUpper? && c2.PolyLineage? && c2.qa2 == c1.qa
      :: MonomorphicUpper(c2.qa1, c1.quals)
  }

  function CloseMonomorphicBounding(cs: set<Constraint>): set<Constraint> {
    set c | c in cs && c.MonomorphicUpper? :: QualifiedIntermediate(Qv(c.qa), Quals(c.quals))
  }

  predicate OpaqueBelow(c: Constraint) {
    && TypesOnly(c) && c.lo.t.SOpaque?
    && c.hi.t != c.lo.t && c.hi.t != SRecord(map[], {c.lo.t.oa})
  }

  predicate OpaqueAbove(c: Constraint) {
    && TypesOnly(c) && c.hi.t.SOpaque?
    && c.lo.t != c.hi.t && (c.lo.t.SRecord? ==> c.hi.t.oa !in c.lo.t.opaques)
  }

  function OpaqueLowerBound(cs: set<Constraint>): set<Constraint> {
    set c, b, tU | c in cs && b in cs && OpaqueBelow(c) && b.OpaqueBound? && b.oa == c.lo.t.oa && tU in UpperBoundsOf(cs, b.ub)
      :: Intermediate(Ty(tU), c.hi)
  }

  function OpaqueUpperBound(cs: set<Constraint>): set<Constraint> {
    set c, b, tL | c in cs && b in cs && OpaqueAbove(c) && b.OpaqueBound? && b.oa == c.hi.t.oa && tL in LowerBoundsOf(cs, b.lb)
      :: Intermediate(c.lo, Ty(tL))
  }

  datatype Rule =
    | Transitivity | ImmediateType | LowerExtendedRecord | UpperExtendedRecord
    | QualTransitivity | QualifiedRead | QualifiedWrite
    | MonomorphicTransitivity | MonomorphicBounding
    | OpaqueLower | OpaqueUpper

  function Apply(r: Rule, cs: set<Constraint>): set<Constraint> {
    match r
    case Transitivity => CloseTransitivity(cs)
    case ImmediateType => CloseImmediate(cs)
    case LowerExtendedRecord => CloseLowerBoundingExtendedRecord(cs)
    case UpperExtendedRecord => CloseUpperBoundingExtendedRecord(cs)
    case QualTransitivity => CloseQualifiedTransitivity(cs)
    case QualifiedRead => CloseQualifiedRead(cs)
    case QualifiedWrite => CloseQualifiedWrite(cs)
    case MonomorphicTransitivity => CloseMonomorphicTransitivity(cs)
    case MonomorphicBounding => CloseMonomorphicBounding(cs)
    case OpaqueLower => OpaqueLowerBound(cs)
    case OpaqueUpper => OpaqueUpperBound(cs)
  }

  /** Everything one round of the eleven rules learns. */
  function Learned(cs: set<Constraint>): set<Constraint> {
    set r: Rule, c | c in Apply(r, cs) :: c
  }

  /** The closure repeats the step until it learns nothing new. */
  ghost function CalculateClosure(cs: set<Constraint>): set<Constraint>
    decreases |Universe(AtomsOf(cs))| - |cs|
  {
    if Learned(cs) <= cs then cs
    else
      StepShrinksMeasure(cs);
      CalculateClosure(cs + Learned(cs))
  }

  /* ---------- The finite universe ---------- */

  /** The building blocks of a constraint set. */
  datatype Atoms = Atoms(types: set<ShallowType>, us: set<UVar>, qs: set<QVar>,
                         quals: set<set<TQual>>, labels: set<Label>, oas: set<OpaqueVar>)

  function TypesOf(c: Constraint): set<ShallowType> {
    match c
    case Intermediate(x, y) => TypeOf(x) + TypeOf(y)
    case QualifiedLower(ta, _) => TypeOf(ta)
    case QualifiedUpper(_, ta) => TypeOf(ta)
    case OpaqueBound(_, x, y) => TypeOf(x) + TypeOf(y)
    case _ => {}
  }

  function TypeOf(ta: TypeOrVar): set<ShallowType> { if ta.Ty? then {ta.t} else {} }

  function TVarOf(ta: TypeOrVar): set<UVar> { if ta.Tv? then {ta.a} else {} }

  function QVarOf(qv: QualOrVar): set<QVar> { if qv.Qv? then {qv.qa} else {} }

  function QualsOf(qv: QualOrVar): set<set<TQual>> { if qv.Quals? then {qv.qs} else {} }

  function TypeU(t: ShallowType): set<UVar> {
    match t
    case SFunction(a1, a2) => {a1, a2}
    case STrigger(a) => {a}
    case _ => {}
  }

  function TypeQ(t: ShallowType): set<QVar> {
    match t
    case SOption(qa) => {qa}
    case SIndirection(qa) => {qa}
    case STuple(qas) => set i | 0 <= i < |qas| :: qas[i]
    case SRecord(r, _) => r.Values
    case _ => {}
  }

  function TypeO(t: ShallowType): set<OpaqueVar> {
    match t
    case SRecord(_, oas) => oas
    case SOpaque(oa) => {oa}
    case _ => {}
  }

  function TypeL(t: ShallowType): set<Label> { if t.SRecord? then t.rows.Keys else {} }

  function DirectU(c: Constraint): set<UVar> {
    match c
    case Intermediate(x, y) => TVarOf(x) + TVarOf(y)
    case QualifiedLower(ta, _) => TVarOf(ta)
    case QualifiedUpper(_, ta) => TVarOf(ta)
    case OpaqueBound(_, x, y) => TVarOf(x) + TVarOf(y)
    case _ => {}
  }

  function DirectQ(c: Constraint): set<QVar> {
    match c
    case QualifiedLower(_, qa) => {qa}
    case QualifiedUpper(qa, _) => {qa}
    case QualifiedIntermediate(x, y) => QVarOf(x) + QVarOf(y)
    case MonomorphicUpper(qa, _) => {qa}
    case PolyLineage(x, y) => {x, y}
    case _ => {}
  }

  function DirectQuals(c: Constraint): set<set<TQual>> {
    match c
    case QualifiedIntermediate(x, y) => QualsOf(x) + QualsOf(y)
    case MonomorphicUpper(_, qs) => {qs}
    case _ => {}
  }

  function DirectO(c: Constraint): set<OpaqueVar> { if c.OpaqueBound? then {c.oa} else {} }

  function AtomsOf(cs: set<Constraint>): Atoms {
    var ts := set c, t | c in cs && t in TypesOf(c) :: t;
    Atoms(ts,
          (set c, a | c in cs && a in DirectU(c) :: a) + (set t, a | t in ts && a in TypeU(t) :: a),
          (set c, qa | c in cs && qa in DirectQ(c) :: qa) + (set t, qa | t in ts && qa in TypeQ(t) :: qa),
          (set c, qs | c in cs && qs in DirectQuals(c) :: qs),
          (set t, l | t in ts && l in TypeL(t) :: l),
          (set c, oa | c in cs && oa in DirectO(c) :: oa) + (set t, oa | t in ts && oa in TypeO(t) :: oa))
  }

  /** A type of the universe: one that occurs, a record over the occurring labels, qualified and
      opaque variables, or an occurring opaque variable. */
  predicate InT(t: ShallowType, A: Atoms) {
    || t in A.types
    || (t.SRecord? && t.rows.Keys <= A.labels && t.rows.Values <= A.qs && t.opaques <= A.oas)
    || (t.SOpaque? && t.oa in A.oas)
  }

  predicate InTV(ta: TypeOrVar, A: Atoms) { if ta.Ty? then InT(ta.t, A) else ta.a in A.us }

  predicate InQV(qv: QualOrVar, A: Atoms) { if qv.Qv? then qv.qa in A.qs else qv.qs in A.quals }

  predicate InC(c: Constraint, A: Atoms) {
    match c
    case Intermediate(x, y) => InTV(x, A) && InTV(y, A)
    case QualifiedLower(ta, qa) => InTV(ta, A) && qa in A.qs
    case QualifiedUpper(qa, ta) => qa in A.qs && InTV(ta, A)
    case QualifiedIntermediate(x, y) => InQV(x, A) && InQV(y, A)
    case MonomorphicUpper(qa, qs) => qa in A.qs && qs in A.quals
    case PolyLineage(x, y) => x in A.qs && y in A.qs
    case OpaqueBound(oa, x, y) => oa in A.oas && InTV(x, A) && InTV(y, A)
  }

  /** The variables inside the occurring types are themselves atoms. */
  predicate SelfContained(A: Atoms) {
    forall t :: t in A.types ==> TypeU(t) <= A.us && TypeQ(t) <= A.qs && TypeL(t) <= A.labels && TypeO(t) <= A.oas
  }

  lemma AtomsCover(cs: set<Constraint>)
    ensures SelfContained(AtomsOf(cs))
    ensures forall c :: c in cs ==> InC(c, AtomsOf(cs))
  {
    var A := AtomsOf(cs);
    forall c | c in cs ensures InC(c, A) {
      assert forall t :: t in TypesOf(c) ==> t in A.types;
      assert forall a :: a in DirectU(c) ==> a in A.us;
      assert forall qa :: qa in DirectQ(c) ==> qa in A.qs;
      assert forall qs :: qs in DirectQuals(c) ==> qs in A.quals;
      assert forall oa :: oa in DirectO(c) ==> oa in A.oas;
      match c
      case Intermediate(x, y) => AtomTV(x, c, cs); AtomTV(y, c, cs);
      case QualifiedLower(ta, qa) => AtomTV(ta, c, cs); assert qa in DirectQ(c);
      case QualifiedUpper(qa, ta) => AtomTV(ta, c, cs); assert qa in DirectQ(c);
      case QualifiedIntermediate(x, y) =>
        assert QVarOf(x) <= DirectQ(c) && QVarOf(y) <= DirectQ(c);
        assert QualsOf(x) <= DirectQuals(c) && QualsOf(y) <= DirectQuals(c);
        if x.Qv? { assert x.qa in QVarOf(x); } else { assert x.qs in QualsOf(x); }
        if y.Qv? { assert y.qa in QVarOf(y); } else { assert y.qs in QualsOf(y); }
      case MonomorphicUpper(qa, qs) => assert qa in DirectQ(c) && qs in DirectQuals(c);
      case PolyLineage(x, y) => assert x in DirectQ(c) && y in DirectQ(c);
      case OpaqueBound(oa, x, y) => AtomTV(x, c, cs); AtomTV(y, c, cs); assert oa in DirectO(c);
    }
  }

  lemma AtomTV(ta: TypeOrVar, c: Constraint, cs: set<Constraint>)
    requires c in cs && TypeOf(ta) <= TypesOf(c) && TVarOf(ta) <= DirectU(c)
    ensures InTV(ta, AtomsOf(cs))
  {
    if ta.Ty? { assert ta.t in TypeOf(ta); } else { assert ta.a in TVarOf(ta); }
  }

  // A record's rows as a set of pairs, and back.
  ghost function RowsOf(pairs: set<(Label, QVar)>): map<Label, QVar> {
    map l | l in (set p | p in pairs :: p.0) :: RowAt(pairs, l)
  }

  ghost function RowAt(pairs: set<(Label, QVar)>, l: Label): QVar {
    if exists q :: (l, q) in pairs then var q :| (l, q) in pairs; q else QVar(0)
  }

  ghost function TypeUniverse(A: Atoms): set<ShallowType> {
    var pairs := set l, q | l in A.labels && q in A.qs :: (l, q);
    A.types
    + (set ps, oas | ps <= pairs && oas <= A.oas :: SRecord(RowsOf(ps), oas))
    + (set oa | oa in A.oas :: SOpaque(oa))
  }

  ghost function Universe(A: Atoms): set<Constraint> {
    var ta := (set t | t in TypeUniverse(A) :: Ty(t)) + (set a | a in A.us :: Tv(a));
    var qv := (set qa | qa in A.qs :: Qv(qa)) + (set qs | qs in A.quals :: Quals(qs));
    (set x, y | x in ta && y in ta :: Intermediate(x, y))
    + (set x, qa | x in ta && qa in A.qs :: QualifiedLower(x, qa))
    + (set x, qa | x in ta && qa in A.qs :: QualifiedUpper(qa, x))
    + (set x, y | x in qv && y in qv :: QualifiedIntermediate(x, y))
    + (set qa, qs | qa in A.qs && qs in A.quals :: MonomorphicUpper(qa, qs))
    + (set x, y | x in A.qs && y in A.qs :: PolyLineage(x, y))
    + (set oa, x, y | oa in A.oas && x in ta && y in ta :: OpaqueBound(oa, x, y))
  }

  lemma RowsRoundTrip(r: map<Label, QVar>)
    ensures RowsOf(r.Items) == r
  {
    var ps := r.Items;
    forall l | l in r ensures l in RowsOf(ps) && RowsOf(ps)[l] == r[l] {
      assert (l, r[l]) in ps;
    }
    forall l | l in RowsOf(ps) ensures l in r {
      var p :| p in ps && p.0 == l;
    }
  }

  lemma TypeUniverseExact(t: ShallowType, A: Atoms)
    ensures t in TypeUniverse(A) <==> InT(t, A)
  {
    var pairs := set l, q | l in A.labels && q in A.qs :: (l, q);
    if InT(t, A) && t !in A.types && t.SRecord? {
      RowsRoundTrip(t.rows);
      forall p | p in t.rows.Items ensures p in pairs {
        assert p.0 in t.rows.Keys && p.1 in t.rows.Values;
      }
      assert t.rows.Items <= pairs;
      assert t == SRecord(RowsOf(t.rows.Items), t.opaques);
    }
    if t in TypeUniverse(A) && t !in A.types && t.SRecord? {
      var ps, oas :| ps <= pairs && oas <= A.oas && t == SRecord(RowsOf(ps), oas);
      forall l | l in t.rows ensures l in A.labels && t.rows[l] in A.qs {
        var p :| p in ps && p.0 == l;
        assert (l, p.1) in ps;
      }
    }
  }

  lemma UniverseExact(c: Constraint, A: Atoms)
    ensures c in Universe(A) <==> InC(c, A)
  {
    forall t ensures t in TypeUniverse(A) <==> InT(t, A) { TypeUniverseExact(t, A); }
    var ta := (set t | t in TypeUniverse(A) :: Ty(t)) + (set a | a in A.us :: Tv(a));
    assert forall x :: x in ta <==> InTV(x, A);
    var qv := (set qa | qa in A.qs :: Qv(qa)) + (set qs | qs in A.quals :: Quals(qs));
    assert forall x :: x in qv <==> InQV(x, A);
  }

  /* ---------- Every rule stays in the universe ---------- */

  ghost predicate AllIn(cs: set<Constraint>, A: Atoms) {
    SelfContained(A) && forall c :: c in cs ==> InC(c, A)
  }

  lemma PartsIn(t: ShallowType, A: Atoms)
    requires SelfContained(A) && InT(t, A)
    ensures TypeU(t) <= A.us && TypeQ(t) <= A.qs && TypeL(t) <= A.labels && TypeO(t) <= A.oas
  {}

  lemma DecomposeTuplesIn(qas1: seq<QVar>, qas2: seq<QVar>, A: Atoms)
    requires SelfContained(A) && InT(STuple(qas1), A) && InT(STuple(qas2), A)
    ensures forall d :: d in Decompose(STuple(qas1), STuple(qas2)) ==> InC(d, A)
  {
    assert forall i :: 0 <= i < |qas1| ==> qas1[i] in TypeQ(STuple(qas1));
    assert forall i :: 0 <= i < |qas2| ==> qas2[i] in TypeQ(STuple(qas2));
    PartsIn(STuple(qas1), A);
    PartsIn(STuple(qas2), A);
  }

  lemma DecomposeRecordsIn(t1: ShallowType, t2: ShallowType, A: Atoms)
    requires SelfContained(A) && InT(t1, A) && InT(t2, A) && t1.SRecord? && t2.SRecord?
    ensures forall d :: d in Decompose(t1, t2) ==> InC(d, A)
  {
    PartsIn(t1, A);
    PartsIn(t2, A);
    assert forall l :: l in t1.rows ==> t1.rows[l] in TypeQ(t1);
    assert forall l :: l in t2.rows ==> t2.rows[l] in TypeQ(t2);
  }

  lemma DecomposeIn(t1: ShallowType, t2: ShallowType, A: Atoms)
    requires SelfContained(A) && InT(t1, A) && InT(t2, A)
    ensures forall d :: d in Decompose(t1, t2) ==> InC(d, A)
  {
    match (t1, t2)
    case (STuple(qas1), STuple(qas2)) => DecomposeTuplesIn(qas1, qas2, A);
    case (SRecord(_, _), SRecord(_, _)) => DecomposeRecordsIn(t1, t2, A);
    case _ =>
      PartsIn(t1, A);
      PartsIn(t2, A);
  }

  predicate RecordIn(t: ShallowType, A: Atoms) {
    t.SRecord? && t.rows.Keys <= A.labels && t.rows.Values <= A.qs && t.opaques <= A.oas
  }

  lemma ConcatRecsIn(t1: ShallowType, t2: ShallowType, A: Atoms)
    requires RecordIn(t1, A) && ConcatRecs(t1, t2).Ok? && (t2.SRecord? ==> RecordIn(t2, A))
    ensures RecordIn(ConcatRecs(t1, t2).value, A)
  {
    var m := t1.rows + t2.rows;
    forall q | q in m.Values ensures q in A.qs {
      var l :| l in m && m[l] == q;
      if l in t2.rows { assert q in t2.rows.Values; } else { assert q in t1.rows.Values; }
    }
  }

  lemma {:induction false} ConcatOntoIn(acc: ShallowType, ts: seq<ShallowType>, A: Atoms)
    requires RecordIn(acc, A) && ConcatOnto(acc, ts).Ok?
    requires forall t :: t in ts && t.SRecord? ==> RecordIn(t, A)
    ensures RecordIn(ConcatOnto(acc, ts).value, A)
    decreases |ts|
  {
    if ts != [] {
      if ts[0].STop? {
        ConcatOntoIn(acc, ts[1..], A);
      } else {
        ConcatRecsIn(acc, ts[0], A);
        ConcatOntoIn(ConcatRecs(acc, ts[0]).value, ts[1..], A);
      }
    }
  }

  lemma OpenedIn(t: ShallowType, oa: OpaqueVar, bound: ShallowType, A: Atoms)
    requires SelfContained(A) && t.SRecord? && InT(t, A) && InT(bound, A) && Opened(t, oa, bound).Ok?
    ensures RecordIn(Opened(t, oa, bound).value, A)
  {
    PartsIn(t, A);
    PartsIn(bound, A);
    assert TypeQ(t) == t.rows.Values;
    ConcatOntoIn(SRecord(map[], {}), [bound, SRecord(t.rows, t.opaques - {oa})], A);
  }

  lemma BoundsIn(cs: set<Constraint>, ta: TypeOrVar, A: Atoms)
    requires AllIn(cs, A) && InTV(ta, A)
    ensures forall t :: t in UpperBoundsOf(cs, ta) ==> InT(t, A)
    ensures forall t :: t in LowerBoundsOf(cs, ta) ==> InT(t, A)
  {}

  lemma TransitivityIn(cs: set<Constraint>, A: Atoms)
    requires AllIn(cs, A)
    ensures forall c :: c in CloseTransitivity(cs) ==> InC(c, A)
  {}

  lemma ImmediateIn(cs: set<Constraint>, A: Atoms)
    requires AllIn(cs, A)
    ensures forall c :: c in CloseImmediate(cs) ==> InC(c, A)
  {
    forall c, d | c in cs && TypesOnly(c) && d in Decompose(c.lo.t, c.hi.t) ensures InC(d, A) {
      DecomposeIn(c.lo.t, c.hi.t, A);
    }
  }

  lemma LowerRecordIn(cs: set<Constraint>, A: Atoms)
    requires AllIn(cs, A)
    ensures forall c :: c in CloseLowerBoundingExtendedRecord(cs) ==> InC(c, A)
  {
    forall c, b, tU | c in cs && b in cs && b.OpaqueBound? && tU in UpperBoundsOf(cs, b.ub) && OpensLower(c, b, tU)
      ensures InC(Intermediate(Ty(Opened(c.lo.t, b.oa, tU).value), c.hi), A)
    {
      assert InC(b, A) && InC(c, A);
      BoundsIn(cs, b.ub, A);
      OpenedIn(c.lo.t, b.oa, tU, A);
    }
  }

  lemma UpperRecordIn(cs: set<Constraint>, A: Atoms)
    requires AllIn(cs, A)
    ensures forall c :: c in CloseUpperBoundingExtendedRecord(cs) ==> InC(c, A)
  {
    forall c | c in cs && RecordAbove(c)
      ensures InC(Intermediate(c.lo, Ty(SRecord(c.hi.t.rows, {}))), A)
      ensures forall oa :: oa in c.hi.t.opaques ==> InC(Intermediate(c.lo, Ty(SOpaque(oa))), A)
    {
      assert InC(c, A);
      PartsIn(c.hi.t, A);
      assert TypeQ(c.hi.t) == c.hi.t.rows.Values;
    }
  }

  lemma QualifiedIn(cs: set<Constraint>, A: Atoms)
    requires AllIn(cs, A)
    ensures forall c :: c in CloseQualifiedTransitivity(cs) + CloseQualifiedRead(cs) + CloseQualifiedWrite(cs) ==> InC(c, A)
    ensures forall c :: c in CloseMonomorphicTransitivity(cs) + CloseMonomorphicBounding(cs) ==> InC(c, A)
  {}

  lemma OpaqueIn(cs: set<Constraint>, A: Atoms)
    requires AllIn(cs, A)
    ensures forall c :: c in OpaqueLowerBound(cs) + OpaqueUpperBound(cs) ==> InC(c, A)
  {
    forall c, b, tU | c in cs && b in cs && OpaqueBelow(c) && b.OpaqueBound? && tU in UpperBoundsOf(cs, b.ub)
      ensures InC(Intermediate(Ty(tU), c.hi), A)
    {
      assert InC(b, A) && InC(c, A);
      BoundsIn(cs, b.ub, A);
    }
    forall c, b, tL | c in cs && b in cs && OpaqueAbove(c) && b.OpaqueBound? && tL in LowerBoundsOf(cs, b.lb)
      ensures InC(Intermediate(c.lo, Ty(tL)), A)
    {
      assert InC(b, A) && InC(c, A);
      BoundsIn(cs, b.lb, A);
    }
  }

  lemma ApplyIn(r: Rule, cs: set<Constraint>, A: Atoms)
    requires AllIn(cs, A)
    ensures forall c :: c in Apply(r, cs) ==> InC(c, A)
  {
    match r
    case Transitivity => TransitivityIn(cs, A);
    case ImmediateType => ImmediateIn(cs, A);
    case LowerExtendedRecord => LowerRecordIn(cs, A);
    case UpperExtendedRecord => UpperRecordIn(cs, A);
    case OpaqueLower => OpaqueIn(cs, A);
    case OpaqueUpper => OpaqueIn(cs, A);
    case _ => QualifiedIn(cs, A);
  }

  lemma LearnedIn(cs: set<Constraint>, A: Atoms)
    requires AllIn(cs, A)
    ensures AllIn(cs + Learned(cs), A)
  {
    forall r: Rule, c | c in Apply(r, cs) ensures InC(c, A) { ApplyIn(r, cs, A); }
  }

  lemma AtomsBelow(cs: set<Constraint>, A: Atoms)
    requires AllIn(cs, A)
    ensures AtomsWithin(AtomsOf(cs), A)
  {
    forall c | c in cs
      ensures forall t :: t in TypesOf(c) ==> InT(t, A)
      ensures DirectU(c) <= A.us && DirectQ(c) <= A.qs && DirectQuals(c) <= A.quals && DirectO(c) <= A.oas
    {
      assert InC(c, A);
    }
    forall t | t in AtomsOf(cs).types
      ensures InT(t, A) && TypeU(t) <= A.us && TypeQ(t) <= A.qs && TypeL(t) <= A.labels && TypeO(t) <= A.oas
    {
      var c :| c in cs && t in TypesOf(c);
      PartsIn(t, A);
    }
  }

  predicate AtomsWithin(B: Atoms, A: Atoms) {
    && B.us <= A.us && B.qs <= A.qs && B.quals <= A.quals && B.labels <= A.labels && B.oas <= A.oas
    && forall t :: t in B.types ==> InT(t, A)
  }

  lemma InMonotone(c: Constraint, B: Atoms, A: Atoms)
    requires AtomsWithin(B, A) && InC(c, B)
    ensures InC(c, A)
  {
    match c
    case Intermediate(x, y) => InTVMonotone(x, B, A); InTVMonotone(y, B, A);
    case QualifiedLower(ta, _) => InTVMonotone(ta, B, A);
    case QualifiedUpper(_, ta) => InTVMonotone(ta, B, A);
    case OpaqueBound(_, x, y) => InTVMonotone(x, B, A); InTVMonotone(y, B, A);
    case _ =>
  }

  lemma InTVMonotone(ta: TypeOrVar, B: Atoms, A: Atoms)
    requires AtomsWithin(B, A) && InTV(ta, B)
    ensures InTV(ta, A)
  {}

  lemma UniverseShrinks(cs: set<Constraint>, A: Atoms)
    requires AllIn(cs, A)
    ensures Universe(AtomsOf(cs)) <= Universe(A)
  {
    AtomsBelow(cs, A);
    var B := AtomsOf(cs);
    assert AtomsWithin(B, A);
    UniverseMonotone(B, A);
  }

  lemma UniverseMonotone(B: Atoms, A: Atoms)
    requires AtomsWithin(B, A)
    ensures Universe(B) <= Universe(A)
  {
    forall c | c in Universe(B) ensures c in Universe(A) {
      UniverseExact(c, B);
      InMonotone(c, B, A);
      UniverseExact(c, A);
    }
  }

  lemma InUniverse(cs: set<Constraint>, A: Atoms)
    requires AllIn(cs, A)
    ensures cs <= Universe(A)
  {
    forall c | c in cs ensures c in Universe(A) { UniverseExact(c, A); }
  }

  /** The termination argument: a step that learns something adds constraints of the same universe. */
  lemma StepShrinksMeasure(cs: set<Constraint>)
    requires !(Learned(cs) <= cs)
    ensures var cs' := cs + Learned(cs);
      0 <= |Universe(AtomsOf(cs'))| - |cs'| < |Universe(AtomsOf(cs))| - |cs|
  {
    var A, cs' := AtomsOf(cs), cs + Learned(cs);
    AtomsCover(cs);
    LearnedIn(cs, A);
    UniverseShrinks(cs', A);
    AtomsCover(cs');
    InUniverse(cs', AtomsOf(cs'));
    SubsetSize(Universe(AtomsOf(cs')), Universe(A));
    SubsetSize(cs', Universe(AtomsOf(cs')));
    assert cs < cs';
    SubsetSize(cs, cs');
    ProperSubsetSize(cs, cs');
  }

  lemma {:induction false} SubsetSize<T>(a: set<T>, b: set<T>)
    requires a <= b
    ensures |a| <= |b|
  {
    assert b == a + (b - a);
  }

  lemma ProperSubsetSize<T>(a: set<T>, b: set<T>)
    requires a < b
    ensures |a| < |b|
  {
    assert b == a + (b - a);
    assert b - a != {};
  }

  /* ---------- The closure is the least closed superset ---------- */

  ghost predicate Closed(s: set<Constraint>) { Learned(s) <= s }

  lemma BoundsMonotone(cs: set<Constraint>, ds: set<Constraint>, ta: TypeOrVar)
    requires cs <= ds
    ensures UpperBoundsOf(cs, ta) <= UpperBoundsOf(ds, ta) && LowerBoundsOf(cs, ta) <= LowerBoundsOf(ds, ta)
  {}

  lemma TransitivityMonotone(cs: set<Constraint>, ds: set<Constraint>)
    requires cs <= ds
    ensures CloseTransitivity(cs) <= CloseTransitivity(ds)
  {}

  lemma ImmediateMonotone(cs: set<Constraint>, ds: set<Constraint>)
    requires cs <= ds
    ensures CloseImmediate(cs) <= CloseImmediate(ds)
  {}

  lemma LowerRecordMonotone(cs: set<Constraint>, ds: set<Constraint>)
    requires cs <= ds
    ensures CloseLowerBoundingExtendedRecord(cs) <= CloseLowerBoundingExtendedRecord(ds)
  {
    forall ta { BoundsMonotone(cs, ds, ta); }
  }

  lemma UpperRecordMonotone(cs: set<Constraint>, ds: set<Constraint>)
    requires cs <= ds
    ensures CloseUpperBoundingExtendedRecord(cs) <= CloseUpperBoundingExtendedRecord(ds)
  {}

  lemma QualifiedMonotone(cs: set<Constraint>, ds: set<Constraint>)
    requires cs <= ds
    ensures CloseQualifiedTransitivity(cs) <= CloseQualifiedTransitivity(ds)
    ensures CloseQualifiedRead(cs) <= CloseQualifiedRead(ds) && CloseQualifiedWrite(cs) <= CloseQualifiedWrite(ds)
    ensures CloseMonomorphicTransitivity(cs) <= CloseMonomorphicTransitivity(ds)
    ensures CloseMonomorphicBounding(cs) <= CloseMonomorphicBounding(ds)
  {}

  lemma OpaqueMonotone(cs: set<Constraint>, ds: set<Constraint>)
    requires cs <= ds
    ensures OpaqueLowerBound(cs) <= OpaqueLowerBound(ds) && OpaqueUpperBound(cs) <= OpaqueUpperBound(ds)
  {
    forall ta { BoundsMonotone(cs, ds, ta); }
  }

  lemma ApplyMonotone(r: Rule, cs: set<Constraint>, ds: set<Constraint>)
    requires cs <= ds
    ensures Apply(r, cs) <= Apply(r, ds)
  {
    match r
    case Transitivity => TransitivityMonotone(cs, ds);
    case ImmediateType => ImmediateMonotone(cs, ds);
    case LowerExtendedRecord => LowerRecordMonotone(cs, ds);
    case UpperExtendedRecord => UpperRecordMonotone(cs, ds);
    case OpaqueLower => OpaqueMonotone(cs, ds);
    case OpaqueUpper => OpaqueMonotone(cs, ds);
    case _ => QualifiedMonotone(cs, ds);
  }

  lemma LearnedMonotone(cs: set<Constraint>, ds: set<Constraint>)
    requires cs <= ds
    ensures Learned(cs) <= Learned(ds)
  {
    forall r: Rule, c | c in Apply(r, cs) ensures c in Apply(r, ds) { ApplyMonotone(r, cs, ds); }
  }

  lemma {:induction false} ClosureBelow(cs: set<Constraint>, s: set<Constraint>)
    requires cs <= s && Closed(s)
    ensures CalculateClosure(cs) <= s
    decreases |Universe(AtomsOf(cs))| - |cs|
  {
    if !(Learned(cs) <= cs) {
      LearnedMonotone(cs, s);
      StepShrinksMeasure(cs);
      ClosureBelow(cs + Learned(cs), s);
    }
  }

  lemma {:induction false} ClosureClosed(cs: set<Constraint>)
    ensures cs <= CalculateClosure(cs) && Closed(CalculateClosure(cs))
    decreases |Universe(AtomsOf(cs))| - |cs|
  {
    if !(Learned(cs) <= cs) {
      StepShrinksMeasure(cs);
      ClosureClosed(cs + Learned(cs));
    }
  }

  /** On every constraint set, opaque variables included, the closure is the least superset closed
      under all eleven rules. */
  lemma ClosureIsLeast(cs: set<Constraint>, c: Constraint)
    ensures c in CalculateClosure(cs) <==> forall s :: cs <= s && Closed(s) ==> c in s
  {
    ClosureClosed(cs);
    forall s | cs <= s && Closed(s) ensures CalculateClosure(cs) <= s { ClosureBelow(cs, s); }
  }

  lemma ClosureMonotone(cs: set<Constraint>, ds: set<Constraint>)
    requires cs <= ds
    ensures CalculateClosure(cs) <= CalculateClosure(ds)
  {
    ClosureClosed(ds);
    ClosureBelow(cs, CalculateClosure(ds));
  }

  lemma ClosureIdempotent(cs: set<Constraint>)
    ensures CalculateClosure(CalculateClosure(cs)) == CalculateClosure(cs)
  {
    ClosureClosed(cs);
  }

  lemma ClosureBetween(cs: set<Constraint>, ds: set<Constraint>)
    requires cs <= ds <= CalculateClosure(cs)
    ensures CalculateClosure(ds) == CalculateClosure(cs)
  {
    ClosureMonotone(cs, ds);
    ClosureClosed(cs);
    ClosureBelow(ds, CalculateClosure(cs));
  }

  /** Closing in two stages loses nothing: the order in which constraints arrive is immaterial. */
  lemma ClosureIncremental(cs: set<Constraint>, ds: set<Constraint>)
    ensures CalculateClosure(CalculateClosure(cs) + ds) == CalculateClosure(cs + ds)
  {
    var c := CalculateClosure(cs);
    assert cs <= c by { ClosureClosed(cs); }
    assert c <= CalculateClosure(cs + ds) by { ClosureMonotone(cs, cs + ds); }
    assert ds <= CalculateClosure(cs + ds) by { ClosureClosed(cs + ds); }
    ClosureBetween(cs + ds, c + ds);
  }

  /* ---------- What the closure decides: paths between types ---------- */

  /** The constraint flows from the lower node to the upper one; a node is a type or a variable. */
  datatype Node = NType(t: ShallowType) | NVar(v: AnyVar)

  function TVNode(ta: TypeOrVar): Node { if ta.Ty? then NType(ta.t) else NVar(SomeU(ta.a)) }

  function EdgeOf(c: Constraint): Option<(Node, Node)> {
    match c
    case Intermediate(x, y) => Some((TVNode(x), TVNode(y)))
    case QualifiedLower(ta, qa) => Some((TVNode(ta), NVar(SomeQ(qa))))
    case QualifiedUpper(qa, ta) => Some((NVar(SomeQ(qa)), TVNode(ta)))
    case QualifiedIntermediate(Qv(qa1), Qv(qa2)) => Some((NVar(SomeQ(qa1)), NVar(SomeQ(qa2))))
    case _ => None
  }

  ghost predicate Edge(cs: set<Constraint>, x: Node, y: Node) {
    exists c :: c in cs && EdgeOf(c) == Some((x, y))
  }

  /** t flows to u through the listed variables, qualified or not. */
  ghost predicate FlowsThrough(cs: set<Constraint>, t: ShallowType, via: seq<AnyVar>, u: ShallowType)
    requires via != []
  {
    && Edge(cs, NType(t), NVar(via[0]))
    && (forall i :: 0 < i < |via| ==> Edge(cs, NVar(via[i - 1]), NVar(via[i])))
    && Edge(cs, NVar(via[|via| - 1]), NType(u))
  }

  lemma ClosedStep(s: set<Constraint>, t: ShallowType, v: AnyVar, y: Node)
    requires Closed(s) && Edge(s, NType(t), NVar(v)) && Edge(s, NVar(v), y)
    ensures Edge(s, NType(t), y)
  {
    var c1 :| c1 in s && EdgeOf(c1) == Some((NType(t), NVar(v)));
    var c2 :| c2 in s && EdgeOf(c2) == Some((NVar(v), y));
    MeetingEdges(c1, c2, t, v, y);
    var d := BelowBound(t, BoundAbove(c2).value.1);
    assert d in s by {
      assert d in CloseTransitivity(s);
      assert d in Apply(Transitivity, s);
    }
  }

  lemma MeetingEdges(c1: Constraint, c2: Constraint, t: ShallowType, v: AnyVar, y: Node)
    requires EdgeOf(c1) == Some((NType(t), NVar(v))) && EdgeOf(c2) == Some((NVar(v), y))
    ensures MeetAbove(c1, c2) && TypeBelowVar(c1).value.0 == t
    ensures EdgeOf(BelowBound(t, BoundAbove(c2).value.1)) == Some((NType(t), y))
  {}

  lemma {:induction false} ClosedPath(s: set<Constraint>, t: ShallowType, via: seq<AnyVar>, k: nat)
    requires Closed(s) && via != [] && k < |via|
    requires Edge(s, NType(t), NVar(via[0]))
    requires forall i :: 0 < i < |via| ==> Edge(s, NVar(via[i - 1]), NVar(via[i]))
    ensures Edge(s, NType(t), NVar(via[k]))
  {
    if k > 0 {
      ClosedPath(s, t, via, k - 1);
      ClosedStep(s, t, via[k - 1], NVar(via[k]));
    }
  }

  lemma FlowGrows(cs: set<Constraint>, s: set<Constraint>, t: ShallowType, via: seq<AnyVar>, u: ShallowType)
    requires cs <= s && via != [] && FlowsThrough(cs, t, via, u)
    ensures FlowsThrough(s, t, via, u)
  {}

  /** Any chain of constraints that carries one type to another through variables of either kind
      leaves the direct constraint between the two types in the closure. */
  lemma ClosureConnectsTypes(cs: set<Constraint>, t: ShallowType, via: seq<AnyVar>, u: ShallowType)
    requires via != [] && FlowsThrough(cs, t, via, u)
    ensures Intermediate(Ty(t), Ty(u)) in CalculateClosure(cs)
  {
    ClosureClosed(cs);
    FlowGrows(cs, CalculateClosure(cs), t, via, u);
    ClosedFlow(CalculateClosure(cs), t, via, u);
  }

  lemma ClosedFlow(s: set<Constraint>, t: ShallowType, via: seq<AnyVar>, u: ShallowType)
    requires Closed(s) && via != [] && FlowsThrough(s, t, via, u)
    ensures Intermediate(Ty(t), Ty(u)) in s
  {
    ClosedPath(s, t, via, |via| - 1);
    ClosedStep(s, t, via[|via| - 1], NType(u));
    var c :| c in s && EdgeOf(c) == Some((NType(t), NType(u)));
    assert c == Intermediate(Ty(t), Ty(u));
  }
}
