/** The vocabulary of the constraint-based type system: shallow types and the
    constraints between them. */
module Types {

  // Type variables are compared by identifier only; their recorded origin plays no part.
  datatype UVar = UVar(id: nat)
  datatype QVar = QVar(id: nat)
  datatype AnyVar = SomeQ(q: QVar) | SomeU(u: UVar)

  datatype TQual = TMut | TImmut
  datatype OpaqueVar = OpaqueVar(id: nat)
  type Label = string

  datatype ShallowType =
    | SFunction(arg: UVar, res: UVar)
    | STrigger(msg: UVar)
    | SBool | SInt | SReal | SNumber | SString | SAddress
    | SOption(elem: QVar)
    | SIndirection(target: QVar)
    | STuple(elems: seq<QVar>)
    | SRecord(rows: map<Label, QVar>, opaques: set<OpaqueVar>)
    | STop | SBottom
    | SOpaque(oa: OpaqueVar)

  datatype TypeOrVar = Ty(t: ShallowType) | Tv(a: UVar)
  datatype QualOrVar = Quals(qs: set<TQual>) | Qv(qa: QVar)

  datatype Constraint =
    | Intermediate(lo: TypeOrVar, hi: TypeOrVar)
    | QualifiedLower(ta: TypeOrVar, qa: QVar)
    | QualifiedUpper(qa: QVar, ta: TypeOrVar)
    | QualifiedIntermediate(qlo: QualOrVar, qhi: QualOrVar)
    | MonomorphicUpper(qa: QVar, quals: set<TQual>)
    | PolyLineage(qa1: QVar, qa2: QVar)
    | OpaqueBound(oa: OpaqueVar, lb: TypeOrVar, ub: TypeOrVar)
}
