/** Structural containment of one constrained type in another: the backtracking
    matcher, proved sound and complete against "some substitution embeds the
    left constraints into the right ones". */
module Within {
  import opened Options
  import opened Types

  /** The alignment of left-hand variables with right-hand ones built so far. */
  datatype WMap = WMap(q: map<QVar, QVar>, u: map<UVar, UVar>)

  const EMPTY := WMap(map[], map[])

  /* ---------- The matcher ---------- */

  function AlignQ(qa: QVar, qa': QVar, m: WMap): Option<WMap> {
    if qa !in m.q then Some(m.(q := m.q[qa := qa']))
    else if m.q[qa] == qa' then Some(m)
    else None
  }

  function AlignU(a: UVar, a': UVar, m: WMap): Option<WMap> {
    if a !in m.u then Some(m.(u := m.u[a := a']))
    else if m.u[a] == a' then Some(m)
    else None
  }

  function AlignVar(v: AnyVar, v': AnyVar, m: WMap): Option<WMap> {
    match (v, v')
    case (SomeQ(qa), SomeQ(qa')) => AlignQ(qa, qa', m)
    case (SomeU(a), SomeU(a')) => AlignU(a, a', m)
    case _ => None
  }

  function AlignQs(qas: seq<QVar>, qas': seq<QVar>, m: WMap): Option<WMap>
    requires |qas| == |qas'|
  {
    if qas == [] then Some(m)
    else
      match AlignQ(qas[0], qas'[0], m)
      case None => None
      case Some(m1) => AlignQs(qas[1..], qas'[1..], m1)
  }

  // The rows are visited in some fixed order of the labels; the result does not depend on it.
  ghost function AlignRows(labels: set<Label>, rows: map<Label, QVar>, rows': map<Label, QVar>, m: WMap): Option<WMap>
    requires labels <= rows.Keys && labels <= rows'.Keys
    decreases labels
  {
    if labels == {} then Some(m)
    else
      var l :| l in labels;
      match AlignQ(rows[l], rows'[l], m)
      case None => None
      case Some(m1) => AlignRows(labels - {l}, rows, rows', m1)
  }

  ghost function AlignType(t: ShallowType, t': ShallowType, m: WMap): Option<WMap> {
    match (t, t')
    case (SFunction(a1, a2), SFunction(a1', a2')) =>
      (match AlignU(a1, a1', m)
       case None => None
       case Some(m1) => AlignU(a2, a2', m1))
    case (STrigger(a), STrigger(a')) => AlignU(a, a', m)
    case (SBool, SBool) => Some(m)
    case (SInt, SInt) => Some(m)
    case (SReal, SReal) => Some(m)
    case (SNumber, SNumber) => Some(m)
    case (SString, SString) => Some(m)
    case (SAddress, SAddress) => Some(m)
    case (SOption(qa), SOption(qa')) => AlignQ(qa, qa', m)
    case (SIndirection(qa), SIndirection(qa')) => AlignQ(qa, qa', m)
    case (STuple(qas), STuple(qas')) => if |qas| == |qas'| then AlignQs(qas, qas', m) else None
    case (SRecord(r, oas), SRecord(r', oas')) =>
      if oas == oas' && r.Keys == r'.Keys then AlignRows(r.Keys, r, r', m) else None
    case (STop, STop) => Some(m)
    case (SBottom, SBottom) => Some(m)
    case (SOpaque(oa), SOpaque(oa')) => if oa == oa' then Some(m) else None
    case _ => None
  }

  ghost function AlignTV(ta: TypeOrVar, ta': TypeOrVar, m: WMap): Option<WMap> {
    match (ta, ta')
    case (Ty(t), Ty(t')) => AlignType(t, t', m)
    case (Tv(a), Tv(a')) => AlignU(a, a', m)
    case _ => None
  }

  function AlignQV(qv: QualOrVar, qv': QualOrVar, m: WMap): Option<WMap> {
    match (qv, qv')
    case (Quals(q), Quals(q')) => if q == q' then Some(m) else None
    case (Qv(qa), Qv(qa')) => AlignQ(qa, qa', m)
    case _ => None
  }

  ghost function Align(c: Constraint, c': Constraint, m: WMap): Option<WMap> {
    match (c, c')
    case (Intermediate(x, y), Intermediate(x', y')) =>
      (match AlignTV(x, x', m)
       case None => None
       case Some(m1) => AlignTV(y, y', m1))
    case (QualifiedLower(ta, qa), QualifiedLower(ta', qa')) =>
      (match AlignTV(ta, ta', m)
       case None => None
       case Some(m1) => AlignQ(qa, qa', m1))
    case (QualifiedUpper(qa, ta), QualifiedUpper(qa', ta')) =>
      (match AlignQ(qa, qa', m)
       case None => None
       case Some(m1) => AlignTV(ta, ta', m1))
    case (QualifiedIntermediate(x, y), QualifiedIntermediate(x', y')) =>
      (match AlignQV(x, x', m)
       case None => None
       case Some(m1) => AlignQV(y, y', m1))
    case (MonomorphicUpper(qa, qs), MonomorphicUpper(qa', qs')) =>
      if qs == qs' then AlignQ(qa, qa', m) else None
    case (PolyLineage(x, y), PolyLineage(x', y')) =>
      (match AlignQ(x, x', m)
       case None => None
       case Some(m1) => AlignQ(y, y', m1))
    case (OpaqueBound(oa, x, y), OpaqueBound(oa', x', y')) =>
      if oa == oa' then
        (match AlignTV(x, x', m)
         case None => None
         case Some(m1) => AlignTV(y, y', m1))
      else None
    case _ => None
  }

  /** One branch of the search: the right-hand constraints still unmatched, and the alignment. */
  datatype Branch = Branch(unmatched: set<Constraint>, m: WMap)

  ghost function Deduct(c: Constraint, b: Branch): set<Branch> {
    set c' | c' in b.unmatched && Align(c, c', b.m).Some?
      :: Branch(b.unmatched - {c'}, Align(c, c', b.m).value)
  }

  ghost function DeductAll(cs: seq<Constraint>, b: Branch): set<Branch>
    decreases |cs|
  {
    if cs == [] then {b}
    else set b1, b2 | b1 in Deduct(cs[0], b) && b2 in DeductAll(cs[1..], b1) :: b2
  }

  ghost function ToList(cs: set<Constraint>): (l: seq<Constraint>)
    ensures forall c :: c in l <==> c in cs
    ensures forall i, j :: 0 <= i < j < |l| ==> l[i] != l[j]
    decreases cs
  {
    if cs == {} then []
    else
      var c :| c in cs;
      [c] + ToList(cs - {c})
  }

  /** A constrained type: a variable together with the constraints on it. */
  datatype CType = CType(v: AnyVar, cs: set<Constraint>)

  ghost function ProveWithinUnder(m: WMap, x: CType, y: CType): set<WMap> {
    match AlignVar(x.v, y.v, m)
    case None => {}
    case Some(m1) => set b | b in DeductAll(ToList(x.cs), Branch(y.cs, m1)) :: b.m
  }

  ghost predicate IsWithin(x: CType, y: CType) {
    ProveWithinUnder(EMPTY, x, y) != {}
  }

  ghost function ProveMutuallyWithin(x: CType, y: CType): set<WMap> {
    set p, r | p in ProveWithinUnder(EMPTY, x, y) && r in ProveWithinUnder(p, y, x) :: r
  }

  ghost predicate MutuallyWithin(x: CType, y: CType) {
    ProveMutuallyWithin(x, y) != {}
  }

  /* ---------- The reference meaning: substitutions ---------- */

  ghost predicate Extends(s: WMap, m: WMap) {
    && (forall x :: x in m.q ==> x in s.q && s.q[x] == m.q[x])
    && (forall x :: x in m.u ==> x in s.u && s.u[x] == m.u[x])
  }

  function QVarsT(t: ShallowType): set<QVar> {
    match t
    case SOption(qa) => {qa}
    case SIndirection(qa) => {qa}
    case STuple(qas) => set i | 0 <= i < |qas| :: qas[i]
    case SRecord(r, _) => r.Values
    case _ => {}
  }

  function UVarsT(t: ShallowType): set<UVar> {
    match t
    case SFunction(a1, a2) => {a1, a2}
    case STrigger(a) => {a}
    case _ => {}
  }

  function QVarsTV(ta: TypeOrVar): set<QVar> {
    if ta.Ty? then QVarsT(ta.t) else {}
  }

  function UVarsTV(ta: TypeOrVar): set<UVar> {
    if ta.Ty? then UVarsT(ta.t) else {ta.a}
  }

  function QVarsQV(qv: QualOrVar): set<QVar> {
    if qv.Qv? then {qv.qa} else {}
  }

  function QVarsC(c: Constraint): set<QVar> {
    match c
    case Intermediate(x, y) => QVarsTV(x) + QVarsTV(y)
    case QualifiedLower(ta, qa) => QVarsTV(ta) + {qa}
    case QualifiedUpper(qa, ta) => {qa} + QVarsTV(ta)
    case QualifiedIntermediate(x, y) => QVarsQV(x) + QVarsQV(y)
    case MonomorphicUpper(qa, _) => {qa}
    case PolyLineage(x, y) => {x, y}
    case OpaqueBound(_, x, y) => QVarsTV(x) + QVarsTV(y)
  }

  function UVarsC(c: Constraint): set<UVar> {
    match c
    case Intermediate(x, y) => UVarsTV(x) + UVarsTV(y)
    case QualifiedLower(ta, _) => UVarsTV(ta)
    case QualifiedUpper(_, ta) => UVarsTV(ta)
    case OpaqueBound(_, x, y) => UVarsTV(x) + UVarsTV(y)
    case _ => {}
  }

  predicate Covers(s: WMap, qs: set<QVar>, us: set<UVar>) {
    qs <= s.q.Keys && us <= s.u.Keys
  }

  function SubstT(s: WMap, t: ShallowType): ShallowType
    requires Covers(s, QVarsT(t), UVarsT(t))
  {
    match t
    case SFunction(a1, a2) => SFunction(s.u[a1], s.u[a2])
    case STrigger(a) => STrigger(s.u[a])
    case SOption(qa) => SOption(s.q[qa])
    case SIndirection(qa) => SIndirection(s.q[qa])
    case STuple(qas) => STuple(seq(|qas|, i requires 0 <= i < |qas| => s.q[qas[i]]))
    case SRecord(r, oas) => SRecord(map l | l in r :: s.q[r[l]], oas)
    case _ => t
  }

  function SubstTV(s: WMap, ta: TypeOrVar): TypeOrVar
    requires Covers(s, QVarsTV(ta), UVarsTV(ta))
  {
    if ta.Ty? then Ty(SubstT(s, ta.t)) else Tv(s.u[ta.a])
  }

  function SubstQV(s: WMap, qv: QualOrVar): QualOrVar
    requires Covers(s, QVarsQV(qv), {})
  {
    if qv.Qv? then Qv(s.q[qv.qa]) else qv
  }

  /** The constraint with every variable replaced by its image. */
  function Subst(s: WMap, c: Constraint): Constraint
    requires Covers(s, QVarsC(c), UVarsC(c))
  {
    match c
    case Intermediate(x, y) => Intermediate(SubstTV(s, x), SubstTV(s, y))
    case QualifiedLower(ta, qa) => QualifiedLower(SubstTV(s, ta), s.q[qa])
    case QualifiedUpper(qa, ta) => QualifiedUpper(s.q[qa], SubstTV(s, ta))
    case QualifiedIntermediate(x, y) => QualifiedIntermediate(SubstQV(s, x), SubstQV(s, y))
    case MonomorphicUpper(qa, qs) => MonomorphicUpper(s.q[qa], qs)
    case PolyLineage(x, y) => PolyLineage(s.q[x], s.q[y])
    case OpaqueBound(oa, x, y) => OpaqueBound(oa, SubstTV(s, x), SubstTV(s, y))
  }

  predicate SendsT(s: WMap, t: ShallowType, t': ShallowType) {
    Covers(s, QVarsT(t), UVarsT(t)) && SubstT(s, t) == t'
  }

  predicate SendsTV(s: WMap, ta: TypeOrVar, ta': TypeOrVar) {
    Covers(s, QVarsTV(ta), UVarsTV(ta)) && SubstTV(s, ta) == ta'
  }

  predicate Sends(s: WMap, c: Constraint, c': Constraint) {
    Covers(s, QVarsC(c), UVarsC(c)) && Subst(s, c) == c'
  }

  predicate SendsQ(s: WMap, qa: QVar, qa': QVar) { qa in s.q && s.q[qa] == qa' }

  predicate SendsU(s: WMap, a: UVar, a': UVar) { a in s.u && s.u[a] == a' }

  predicate SendsVar(s: WMap, v: AnyVar, v': AnyVar) {
    match (v, v')
    case (SomeQ(qa), SomeQ(qa')) => SendsQ(s, qa, qa')
    case (SomeU(a), SomeU(a')) => SendsU(s, a, a')
    case _ => false
  }

  /** The substitution maps x's variable to y's and x's constraints one-to-one into y's. */
  ghost predicate Embeds(s: WMap, x: CType, y: CType) {
    && SendsVar(s, x.v, y.v)
    && (forall c :: c in x.cs ==> Covers(s, QVarsC(c), UVarsC(c)) && Subst(s, c) in y.cs)
    && (forall c1, c2 :: c1 in x.cs && c2 in x.cs && Subst(s, c1) == Subst(s, c2) ==> c1 == c2)
  }

  /* ---------- Alignment computes the least extension ---------- */

  /** An alignment step r from m is exact for P: the extensions of m with P are the extensions of r. */
  ghost predicate Exact(s: WMap, m: WMap, sends: bool, r: Option<WMap>) {
    (Extends(s, m) && sends) <==> (r.Some? && Extends(s, r.value))
  }

  lemma AlignQExact(s: WMap, qa: QVar, qa': QVar, m: WMap)
    ensures Exact(s, m, SendsQ(s, qa, qa'), AlignQ(qa, qa', m))
  {
    if qa !in m.q {
      var m1 := m.q[qa := qa'];
      assert qa in m1;
      assert forall x :: x in m.q ==> x in m1 && m1[x] == m.q[x];
    }
  }

  lemma AlignUExact(s: WMap, a: UVar, a': UVar, m: WMap)
    ensures Exact(s, m, SendsU(s, a, a'), AlignU(a, a', m))
  {
    if a !in m.u {
      var m1 := m.u[a := a'];
      assert a in m1;
      assert forall x :: x in m.u ==> x in m1 && m1[x] == m.u[x];
    }
  }

  lemma {:induction false} AlignQsExact(s: WMap, qas: seq<QVar>, qas': seq<QVar>, m: WMap)
    requires |qas| == |qas'|
    ensures Exact(s, m, forall i :: 0 <= i < |qas| ==> SendsQ(s, qas[i], qas'[i]), AlignQs(qas, qas', m))
    decreases |qas|
  {
    if qas != [] {
      AlignQExact(s, qas[0], qas'[0], m);
      var all := forall i :: 0 <= i < |qas| ==> SendsQ(s, qas[i], qas'[i]);
      var rest := forall i :: 0 <= i < |qas[1..]| ==> SendsQ(s, qas[1..][i], qas'[1..][i]);
      if SendsQ(s, qas[0], qas'[0]) && rest {
        forall i | 0 <= i < |qas| ensures SendsQ(s, qas[i], qas'[i]) {
          if i > 0 { assert qas[1..][i - 1] == qas[i]; }
        }
      }
      assert all <==> SendsQ(s, qas[0], qas'[0]) && rest;
      var r := AlignQ(qas[0], qas'[0], m);
      if r.Some? { AlignQsExact(s, qas[1..], qas'[1..], r.value); }
    }
  }

  lemma {:induction false} AlignRowsExact(s: WMap, labels: set<Label>, rows: map<Label, QVar>, rows': map<Label, QVar>, m: WMap)
    requires labels <= rows.Keys && labels <= rows'.Keys
    ensures Exact(s, m, forall l :: l in labels ==> SendsQ(s, rows[l], rows'[l]), AlignRows(labels, rows, rows', m))
    decreases labels
  {
    if labels != {} {
      var l :| l in labels && AlignRows(labels, rows, rows', m) ==
        match AlignQ(rows[l], rows'[l], m)
        case None => None
        case Some(m1) => AlignRows(labels - {l}, rows, rows', m1);
      AlignQExact(s, rows[l], rows'[l], m);
      var all := forall k :: k in labels ==> SendsQ(s, rows[k], rows'[k]);
      var rest := forall k :: k in labels - {l} ==> SendsQ(s, rows[k], rows'[k]);
      assert all <==> SendsQ(s, rows[l], rows'[l]) && rest;
      var r := AlignQ(rows[l], rows'[l], m);
      if r.Some? { AlignRowsExact(s, labels - {l}, rows, rows', r.value); }
    }
  }

  lemma SendsTupleIff(s: WMap, qas: seq<QVar>, qas': seq<QVar>)
    ensures SendsT(s, STuple(qas), STuple(qas')) <==>
      |qas| == |qas'| && forall i :: 0 <= i < |qas| ==> SendsQ(s, qas[i], qas'[i])
  {
    if SendsT(s, STuple(qas), STuple(qas')) {
      var img := seq(|qas|, i requires 0 <= i < |qas| => s.q[qas[i]]);
      assert img == qas';
      forall i | 0 <= i < |qas| ensures SendsQ(s, qas[i], qas'[i]) {
        assert qas[i] in QVarsT(STuple(qas));
        assert img[i] == s.q[qas[i]];
      }
    }
  }

  lemma SendsRecordParts(s: WMap, r: map<Label, QVar>, oas: set<OpaqueVar>, r': map<Label, QVar>, oas': set<OpaqueVar>)
    requires SendsT(s, SRecord(r, oas), SRecord(r', oas'))
    ensures oas == oas' && r.Keys == r'.Keys && forall l :: l in r.Keys ==> SendsQ(s, r[l], r'[l])
  {
    var img := map l | l in r :: s.q[r[l]];
    assert img == r' && img.Keys == r.Keys;
    forall l | l in r.Keys ensures SendsQ(s, r[l], r'[l]) {
      assert r[l] in r.Values;
      assert img[l] == s.q[r[l]];
    }
  }

  lemma SendsRecordWhole(s: WMap, r: map<Label, QVar>, oas: set<OpaqueVar>, r': map<Label, QVar>)
    requires r.Keys == r'.Keys && forall l :: l in r.Keys ==> SendsQ(s, r[l], r'[l])
    ensures SendsT(s, SRecord(r, oas), SRecord(r', oas))
  {
    forall qa | qa in r.Values ensures qa in s.q {
      var l :| l in r && r[l] == qa;
      assert SendsQ(s, r[l], r'[l]);
    }
    assert (map l | l in r :: s.q[r[l]]) == r';
  }

  lemma SendsRecordIff(s: WMap, r: map<Label, QVar>, oas: set<OpaqueVar>, r': map<Label, QVar>, oas': set<OpaqueVar>)
    ensures SendsT(s, SRecord(r, oas), SRecord(r', oas')) <==>
      oas == oas' && r.Keys == r'.Keys && forall l :: l in r.Keys ==> SendsQ(s, r[l], r'[l])
  {
    if SendsT(s, SRecord(r, oas), SRecord(r', oas')) { SendsRecordParts(s, r, oas, r', oas'); }
    if oas == oas' && r.Keys == r'.Keys && forall l :: l in r.Keys ==> SendsQ(s, r[l], r'[l]) {
      SendsRecordWhole(s, r, oas, r');
    }
  }

  lemma AlignTypeExact(s: WMap, t: ShallowType, t': ShallowType, m: WMap)
    ensures Exact(s, m, SendsT(s, t, t'), AlignType(t, t', m))
  {
    match (t, t')
    case (SFunction(a1, a2), SFunction(a1', a2')) =>
      AlignUExact(s, a1, a1', m);
      if AlignU(a1, a1', m).Some? { AlignUExact(s, a2, a2', AlignU(a1, a1', m).value); }
    case (STrigger(a), STrigger(a')) => AlignUExact(s, a, a', m);
    case (SOption(qa), SOption(qa')) => AlignQExact(s, qa, qa', m);
    case (SIndirection(qa), SIndirection(qa')) => AlignQExact(s, qa, qa', m);
    case (STuple(qas), STuple(qas')) =>
      SendsTupleIff(s, qas, qas');
      if |qas| == |qas'| { AlignQsExact(s, qas, qas', m); }
    case (SRecord(r, oas), SRecord(r', oas')) =>
      SendsRecordIff(s, r, oas, r', oas');
      if oas == oas' && r.Keys == r'.Keys { AlignRowsExact(s, r.Keys, r, r', m); }
    case _ =>
  }

  lemma AlignTVExact(s: WMap, ta: TypeOrVar, ta': TypeOrVar, m: WMap)
    ensures Exact(s, m, SendsTV(s, ta, ta'), AlignTV(ta, ta', m))
  {
    match (ta, ta')
    case (Ty(t), Ty(t')) => AlignTypeExact(s, t, t', m);
    case (Tv(a), Tv(a')) => AlignUExact(s, a, a', m);
    case _ =>
  }

  /** Aligning two constraints yields the least extension of the map that sends one to the other,
      and fails exactly when no extension does. */
  lemma AlignExact(s: WMap, c: Constraint, c': Constraint, m: WMap)
    ensures Exact(s, m, Sends(s, c, c'), Align(c, c', m))
  {
    match (c, c')
    case (Intermediate(x, y), Intermediate(x', y')) =>
      AlignTVExact(s, x, x', m);
      if AlignTV(x, x', m).Some? { AlignTVExact(s, y, y', AlignTV(x, x', m).value); }
    case (QualifiedLower(ta, qa), QualifiedLower(ta', qa')) =>
      AlignTVExact(s, ta, ta', m);
      if AlignTV(ta, ta', m).Some? { AlignQExact(s, qa, qa', AlignTV(ta, ta', m).value); }
    case (QualifiedUpper(qa, ta), QualifiedUpper(qa', ta')) =>
      AlignQExact(s, qa, qa', m);
      if AlignQ(qa, qa', m).Some? { AlignTVExact(s, ta, ta', AlignQ(qa, qa', m).value); }
    case (QualifiedIntermediate(x, y), QualifiedIntermediate(x', y')) =>
      AlignQVExact(s, x, x', m);
      if AlignQV(x, x', m).Some? { AlignQVExact(s, y, y', AlignQV(x, x', m).value); }
    case (MonomorphicUpper(qa, qs), MonomorphicUpper(qa', qs')) => AlignQExact(s, qa, qa', m);
    case (PolyLineage(x, y), PolyLineage(x', y')) =>
      AlignQExact(s, x, x', m);
      if AlignQ(x, x', m).Some? { AlignQExact(s, y, y', AlignQ(x, x', m).value); }
    case (OpaqueBound(oa, x, y), OpaqueBound(oa', x', y')) =>
      AlignTVExact(s, x, x', m);
      if AlignTV(x, x', m).Some? { AlignTVExact(s, y, y', AlignTV(x, x', m).value); }
    case _ =>
  }

  predicate SendsQV(s: WMap, qv: QualOrVar, qv': QualOrVar) {
    Covers(s, QVarsQV(qv), {}) && SubstQV(s, qv) == qv'
  }

  lemma AlignQVExact(s: WMap, qv: QualOrVar, qv': QualOrVar, m: WMap)
    ensures Exact(s, m, SendsQV(s, qv, qv'), AlignQV(qv, qv', m))
  {
    match (qv, qv')
    case (Qv(qa), Qv(qa')) => AlignQExact(s, qa, qa', m);
    case _ =>
  }

  /* ---------- The search is sound and complete ---------- */

  /** s sends the listed constraints to pairwise different members of the set. */
  ghost predicate SendsList(s: WMap, cs: seq<Constraint>, targets: set<Constraint>) {
    && (forall i :: 0 <= i < |cs| ==> Covers(s, QVarsC(cs[i]), UVarsC(cs[i])) && Subst(s, cs[i]) in targets)
    && (forall i, j :: 0 <= i < j < |cs| ==> Subst(s, cs[i]) != Subst(s, cs[j]))
  }

  lemma SendsListCons(s: WMap, cs: seq<Constraint>, targets: set<Constraint>, c': Constraint)
    requires cs != [] && c' in targets && Sends(s, cs[0], c')
    ensures SendsList(s, cs, targets) <==> SendsList(s, cs[1..], targets - {c'})
  {
    var t := cs[1..];
    assert forall i :: 0 < i < |cs| ==> cs[i] == t[i - 1];
    if SendsList(s, t, targets - {c'}) {
      forall i | 0 <= i < |cs| ensures Covers(s, QVarsC(cs[i]), UVarsC(cs[i])) && Subst(s, cs[i]) in targets {
        if i > 0 { assert cs[i] == t[i - 1]; }
      }
      forall i, j | 0 <= i < j < |cs| ensures Subst(s, cs[i]) != Subst(s, cs[j]) {
        assert cs[j] == t[j - 1];
        if i > 0 { assert cs[i] == t[i - 1]; }
      }
    }
  }

  lemma {:induction false} DeductAllExact(s: WMap, cs: seq<Constraint>, b: Branch)
    ensures (exists r :: r in DeductAll(cs, b) && Extends(s, r.m)) <==>
      Extends(s, b.m) && SendsList(s, cs, b.unmatched)
    decreases |cs|
  {
    if cs == [] {
      assert b in DeductAll(cs, b);
    } else {
      if r :| r in DeductAll(cs, b) && Extends(s, r.m) {
        var b1 :| b1 in Deduct(cs[0], b) && r in DeductAll(cs[1..], b1);
        DeductAllExact(s, cs[1..], b1);
        var c' :| c' in b.unmatched && Align(cs[0], c', b.m).Some?
          && b1 == Branch(b.unmatched - {c'}, Align(cs[0], c', b.m).value);
        AlignExact(s, cs[0], c', b.m);
        SendsListCons(s, cs, b.unmatched, c');
      }
      if Extends(s, b.m) && SendsList(s, cs, b.unmatched) {
        var c' := Subst(s, cs[0]);
        AlignExact(s, cs[0], c', b.m);
        SendsListCons(s, cs, b.unmatched, c');
        var b1 := Branch(b.unmatched - {c'}, Align(cs[0], c', b.m).value);
        assert b1 in Deduct(cs[0], b);
        DeductAllExact(s, cs[1..], b1);
        var r :| r in DeductAll(cs[1..], b1) && Extends(s, r.m);
        assert r in DeductAll(cs, b);
      }
    }
  }

  lemma SendsListIsEmbedding(s: WMap, x: CType, y: CType)
    requires SendsVar(s, x.v, y.v)
    ensures SendsList(s, ToList(x.cs), y.cs) <==> Embeds(s, x, y)
  {
    var l := ToList(x.cs);
    if SendsList(s, l, y.cs) {
      forall c | c in x.cs ensures Covers(s, QVarsC(c), UVarsC(c)) && Subst(s, c) in y.cs {
        assert c in l;
      }
      forall c1, c2 | c1 in x.cs && c2 in x.cs && Subst(s, c1) == Subst(s, c2) ensures c1 == c2 {
        assert c1 in l && c2 in l;
        var i :| 0 <= i < |l| && l[i] == c1;
        var j :| 0 <= j < |l| && l[j] == c2;
      }
    }
    if Embeds(s, x, y) {
      assert forall i :: 0 <= i < |l| ==> l[i] in x.cs;
    }
  }

  /** The proofs returned are exactly the least maps: s extends one of them if and only if it
      extends the initial map and embeds x into y. */
  lemma ProofsAreLeastEmbeddings(s: WMap, m: WMap, x: CType, y: CType)
    ensures (exists p :: p in ProveWithinUnder(m, x, y) && Extends(s, p)) <==> Extends(s, m) && Embeds(s, x, y)
  {
    match (x.v, y.v) {
      case (SomeQ(qa), SomeQ(qa')) => AlignQExact(s, qa, qa', m);
      case (SomeU(a), SomeU(a')) => AlignUExact(s, a, a', m);
      case _ =>
    }
    var r := AlignVar(x.v, y.v, m);
    assert Exact(s, m, SendsVar(s, x.v, y.v), r);
    if r.Some? {
      var b := Branch(y.cs, r.value);
      var all := DeductAll(ToList(x.cs), b);
      DeductAllExact(s, ToList(x.cs), b);
      if SendsVar(s, x.v, y.v) { SendsListIsEmbedding(s, x, y); }
      if p :| p in ProveWithinUnder(m, x, y) && Extends(s, p) {
        var br :| br in all && br.m == p;
      }
      if br :| br in all && Extends(s, br.m) {
        assert br.m in ProveWithinUnder(m, x, y);
      }
    }
  }

  /** Soundness and completeness: proofs exist exactly when some map extending the given one embeds
      x into y; and every map returned is such an embedding. */
  lemma WithinSoundAndComplete(m: WMap, x: CType, y: CType)
    ensures ProveWithinUnder(m, x, y) != {} <==> exists s :: Extends(s, m) && Embeds(s, x, y)
    ensures forall p :: p in ProveWithinUnder(m, x, y) ==> Extends(p, m) && Embeds(p, x, y)
  {
    forall p | p in ProveWithinUnder(m, x, y) ensures Extends(p, m) && Embeds(p, x, y) {
      assert Extends(p, p);
      ProofsAreLeastEmbeddings(p, m, x, y);
    }
    if s :| Extends(s, m) && Embeds(s, x, y) {
      ProofsAreLeastEmbeddings(s, m, x, y);
    }
    if ProveWithinUnder(m, x, y) != {} {
      var p :| p in ProveWithinUnder(m, x, y);
    }
  }

  /* ---------- Containment is a preorder ---------- */

  function QVarsOf(x: CType): set<QVar> {
    (set c, v | c in x.cs && v in QVarsC(c) :: v) + (if x.v.SomeQ? then {x.v.q} else {})
  }

  function UVarsOf(x: CType): set<UVar> {
    (set c, v | c in x.cs && v in UVarsC(c) :: v) + (if x.v.SomeU? then {x.v.u} else {})
  }

  function Identity(x: CType): WMap {
    WMap(map v | v in QVarsOf(x) :: v, map v | v in UVarsOf(x) :: v)
  }

  /** First s1, then s2, wherever both are defined. */
  function Compose(s1: WMap, s2: WMap): WMap {
    WMap(map v | v in s1.q && s1.q[v] in s2.q :: s2.q[s1.q[v]],
         map v | v in s1.u && s1.u[v] in s2.u :: s2.u[s1.u[v]])
  }

  lemma IdentityFixesT(s: WMap, t: ShallowType)
    requires Covers(s, QVarsT(t), UVarsT(t))
    requires (forall v :: v in QVarsT(t) ==> s.q[v] == v) && (forall v :: v in UVarsT(t) ==> s.u[v] == v)
    ensures SubstT(s, t) == t
  {
    match t
    case STuple(qas) =>
      forall i | 0 <= i < |qas| ensures s.q[qas[i]] == qas[i] { assert qas[i] in QVarsT(t); }
      assert SubstT(s, t).elems == qas;
    case SRecord(r, _) =>
      forall l | l in r ensures s.q[r[l]] == r[l] { assert r[l] in QVarsT(t); }
      assert SubstT(s, t).rows == r;
    case _ =>
  }

  lemma IdentityFixesTV(s: WMap, ta: TypeOrVar)
    requires Covers(s, QVarsTV(ta), UVarsTV(ta))
    requires (forall v :: v in QVarsTV(ta) ==> s.q[v] == v) && (forall v :: v in UVarsTV(ta) ==> s.u[v] == v)
    ensures SubstTV(s, ta) == ta
  {
    if ta.Ty? { IdentityFixesT(s, ta.t); }
  }

  lemma IdentityFixes(s: WMap, c: Constraint)
    requires Covers(s, QVarsC(c), UVarsC(c))
    requires (forall v :: v in QVarsC(c) ==> s.q[v] == v) && (forall v :: v in UVarsC(c) ==> s.u[v] == v)
    ensures Subst(s, c) == c
  {
    match c
    case Intermediate(x, y) => IdentityFixesTV(s, x); IdentityFixesTV(s, y);
    case QualifiedLower(ta, qa) => IdentityFixesTV(s, ta);
    case QualifiedUpper(qa, ta) => IdentityFixesTV(s, ta);
    case OpaqueBound(_, x, y) => IdentityFixesTV(s, x); IdentityFixesTV(s, y);
    case _ =>
  }

  lemma ComposeT(s1: WMap, s2: WMap, t: ShallowType)
    requires Covers(s1, QVarsT(t), UVarsT(t))
    requires Covers(s2, QVarsT(SubstT(s1, t)), UVarsT(SubstT(s1, t)))
    ensures SendsT(Compose(s1, s2), t, SubstT(s2, SubstT(s1, t)))
  {
    match t
    case STuple(qas) =>
      var mid := SubstT(s1, t).elems;
      SendsTupleIff(s1, qas, mid);
      SendsTupleIff(s2, mid, SubstT(s2, STuple(mid)).elems);
      SendsTupleIff(Compose(s1, s2), qas, SubstT(s2, STuple(mid)).elems);
    case SRecord(r, oas) =>
      var mid := SubstT(s1, t).rows;
      SendsRecordIff(s1, r, oas, mid, oas);
      SendsRecordIff(s2, mid, oas, SubstT(s2, SRecord(mid, oas)).rows, oas);
      SendsRecordIff(Compose(s1, s2), r, oas, SubstT(s2, SRecord(mid, oas)).rows, oas);
    case _ =>
  }

  lemma ComposeTV(s1: WMap, s2: WMap, ta: TypeOrVar)
    requires Covers(s1, QVarsTV(ta), UVarsTV(ta))
    requires Covers(s2, QVarsTV(SubstTV(s1, ta)), UVarsTV(SubstTV(s1, ta)))
    ensures SendsTV(Compose(s1, s2), ta, SubstTV(s2, SubstTV(s1, ta)))
  {
    if ta.Ty? { ComposeT(s1, s2, ta.t); }
  }

  lemma ComposeC(s1: WMap, s2: WMap, c: Constraint)
    requires Covers(s1, QVarsC(c), UVarsC(c))
    requires Covers(s2, QVarsC(Subst(s1, c)), UVarsC(Subst(s1, c)))
    ensures Sends(Compose(s1, s2), c, Subst(s2, Subst(s1, c)))
  {
    match c
    case Intermediate(x, y) => ComposeTV(s1, s2, x); ComposeTV(s1, s2, y);
    case QualifiedLower(ta, qa) => ComposeTV(s1, s2, ta);
    case QualifiedUpper(qa, ta) => ComposeTV(s1, s2, ta);
    case OpaqueBound(_, x, y) => ComposeTV(s1, s2, x); ComposeTV(s1, s2, y);
    case _ =>
  }

  lemma WithinReflexive(x: CType)
    ensures IsWithin(x, x)
  {
    var s := Identity(x);
    forall c | c in x.cs ensures Covers(s, QVarsC(c), UVarsC(c)) && Subst(s, c) == c {
      assert forall v :: v in QVarsC(c) ==> v in QVarsOf(x);
      assert forall v :: v in UVarsC(c) ==> v in UVarsOf(x);
      IdentityFixes(s, c);
    }
    assert Extends(s, EMPTY) && Embeds(s, x, x);
    WithinSoundAndComplete(EMPTY, x, x);
  }

  lemma ComposeEmbeds(s1: WMap, s2: WMap, x: CType, y: CType, z: CType)
    requires Embeds(s1, x, y) && Embeds(s2, y, z)
    ensures Embeds(Compose(s1, s2), x, z)
  {
    forall c | c in x.cs
      ensures Sends(Compose(s1, s2), c, Subst(s2, Subst(s1, c)))
    {
      ComposeC(s1, s2, c);
    }
  }

  lemma WithinTransitive(x: CType, y: CType, z: CType)
    requires IsWithin(x, y) && IsWithin(y, z)
    ensures IsWithin(x, z)
  {
    WithinSoundAndComplete(EMPTY, x, y);
    WithinSoundAndComplete(EMPTY, y, z);
    var s1 :| Extends(s1, EMPTY) && Embeds(s1, x, y);
    var s2 :| Extends(s2, EMPTY) && Embeds(s2, y, z);
    ComposeEmbeds(s1, s2, x, y, z);
    assert Extends(Compose(s1, s2), EMPTY);
    WithinSoundAndComplete(EMPTY, x, z);
  }

  /* ---------- Mutual containment shares one map between the two directions ---------- */

  lemma EmbedsUpward(s: WMap, p: WMap, x: CType, y: CType)
    requires Extends(s, p) && Embeds(p, x, y)
    ensures Embeds(s, x, y)
  {
    ProofsAreLeastEmbeddings(p, EMPTY, x, y);
    var r :| r in ProveWithinUnder(EMPTY, x, y) && Extends(p, r);
    assert Extends(s, r);
    ProofsAreLeastEmbeddings(s, EMPTY, x, y);
  }

  /** The second direction starts from the map the first one found, so mutual containment
      holds exactly when one and the same map embeds each side into the other. */
  lemma MutuallyWithinIsOneMap(x: CType, y: CType)
    ensures MutuallyWithin(x, y) <==> exists s :: Embeds(s, x, y) && Embeds(s, y, x)
  {
    if MutuallyWithin(x, y) {
      var r :| r in ProveMutuallyWithin(x, y);
      var p :| p in ProveWithinUnder(EMPTY, x, y) && r in ProveWithinUnder(p, y, x);
      WithinSoundAndComplete(EMPTY, x, y);
      WithinSoundAndComplete(p, y, x);
      EmbedsUpward(r, p, x, y);
    }
    if s :| Embeds(s, x, y) && Embeds(s, y, x) {
      assert Extends(s, EMPTY);
      ProofsAreLeastEmbeddings(s, EMPTY, x, y);
      var p :| p in ProveWithinUnder(EMPTY, x, y) && Extends(s, p);
      ProofsAreLeastEmbeddings(s, p, y, x);
      var r :| r in ProveWithinUnder(p, y, x) && Extends(s, r);
      assert r in ProveMutuallyWithin(x, y);
    }
  }

  lemma MutuallyWithinSymmetric(x: CType, y: CType)
    ensures MutuallyWithin(x, y) <==> MutuallyWithin(y, x)
  {
    MutuallyWithinIsOneMap(x, y);
    MutuallyWithinIsOneMap(y, x);
  }

  /** A chain of n and n + 1: one constraint between two unqualified variables. */
  function Link(n: nat): CType {
    CType(SomeU(UVar(n)), {Intermediate(Tv(UVar(n)), Tv(UVar(n + 1)))})
  }

  lemma LinksWithin(n: nat, k: nat)
    ensures IsWithin(Link(n), Link(k))
  {
    var s := WMap(map[], map[UVar(n) := UVar(k), UVar(n + 1) := UVar(k + 1)]);
    var c := Intermediate(Tv(UVar(n)), Tv(UVar(n + 1)));
    assert Subst(s, c) == Intermediate(Tv(UVar(k)), Tv(UVar(k + 1)));
    assert Extends(s, EMPTY) && Embeds(s, Link(n), Link(k));
    WithinSoundAndComplete(EMPTY, Link(n), Link(k));
  }

  /** Two constrained types that are within each other but not mutually within: the first sees
      variables n and n + 1, the second n + 1 and n + 2, and no one map can serve both directions. */
  lemma WithinBothWaysIsNotMutual(n: nat)
    ensures IsWithin(Link(n), Link(n + 1)) && IsWithin(Link(n + 1), Link(n))
    ensures !MutuallyWithin(Link(n), Link(n + 1))
  {
    LinksWithin(n, n + 1);
    LinksWithin(n + 1, n);
    var x, y := Link(n), Link(n + 1);
    MutuallyWithinIsOneMap(x, y);
    forall s | Embeds(s, x, y) ensures !Embeds(s, y, x) {
      NoSharedLinkMap(s, n);
    }
  }

  lemma NoSharedLinkMap(s: WMap, n: nat)
    ensures !(Embeds(s, Link(n), Link(n + 1)) && Embeds(s, Link(n + 1), Link(n)))
  {
    if Embeds(s, Link(n), Link(n + 1)) && Embeds(s, Link(n + 1), Link(n)) {
      LinkEmbedding(s, n, n + 1);
      LinkEmbedding(s, n + 1, n);
    }
  }

  lemma LinkEmbedding(s: WMap, n: nat, k: nat)
    requires Embeds(s, Link(n), Link(k))
    ensures SendsU(s, UVar(n), UVar(k)) && SendsU(s, UVar(n + 1), UVar(k + 1))
  {
    var c := Intermediate(Tv(UVar(n)), Tv(UVar(n + 1)));
    assert c in Link(n).cs;
    assert SubstTV(s, c.hi) == Tv(s.u[UVar(n + 1)]);
    assert Subst(s, c) in Link(k).cs;
  }

  /** With no variable in common the shared map is no restriction. */
  lemma DisjointMutuallyWithin(x: CType, y: CType)
    requires QVarsOf(x) !! QVarsOf(y) && UVarsOf(x) !! UVarsOf(y)
    ensures MutuallyWithin(x, y) <==> IsWithin(x, y) && IsWithin(y, x)
  {
    MutuallyWithinIsOneMap(x, y);
    WithinSoundAndComplete(EMPTY, x, y);
    WithinSoundAndComplete(EMPTY, y, x);
    if s :| Embeds(s, x, y) && Embeds(s, y, x) {
      assert Extends(s, EMPTY);
    }
    if IsWithin(x, y) && IsWithin(y, x) {
      var s1 :| Extends(s1, EMPTY) && Embeds(s1, x, y);
      var s2 :| Extends(s2, EMPTY) && Embeds(s2, y, x);
      var s := JoinEmbeddings(s1, s2, x, y);
    }
  }

  lemma JoinEmbeddings(s1: WMap, s2: WMap, x: CType, y: CType) returns (s: WMap)
    requires QVarsOf(x) !! QVarsOf(y) && UVarsOf(x) !! UVarsOf(y)
    requires Embeds(s1, x, y) && Embeds(s2, y, x)
    ensures Embeds(s, x, y) && Embeds(s, y, x)
  {
    RestrictEmbeds(s1, x, y);
    RestrictEmbeds(s2, y, x);
    var r1, r2 := Restrict(s1, x), Restrict(s2, y);
    s := WMap(r1.q + r2.q, r1.u + r2.u);
    assert r1.q.Keys <= QVarsOf(x) && r1.u.Keys <= UVarsOf(x);
    assert r2.q.Keys <= QVarsOf(y) && r2.u.Keys <= UVarsOf(y);
    EmbedsUpward(s, r1, x, y);
    EmbedsUpward(s, r2, y, x);
  }

  function Restrict(s: WMap, x: CType): WMap {
    WMap(map v | v in s.q && v in QVarsOf(x) :: s.q[v], map v | v in s.u && v in UVarsOf(x) :: s.u[v])
  }

  lemma RestrictEmbeds(s: WMap, x: CType, y: CType)
    requires Embeds(s, x, y)
    ensures Embeds(Restrict(s, x), x, y)
  {
    var id := Identity(x);
    assert Restrict(s, x) == Compose(id, s);
    forall c | c in x.cs ensures Sends(Compose(id, s), c, Subst(s, c)) {
      assert forall v :: v in QVarsC(c) ==> v in QVarsOf(x);
      assert forall v :: v in UVarsC(c) ==> v in UVarsOf(x);
      IdentityFixes(id, c);
      ComposeC(id, s, c);
    }
  }
}
