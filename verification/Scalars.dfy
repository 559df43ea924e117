/** Constants and the primitive operators of the interpreter. */
module Scalars {
  import opened Options

  datatype Scalar = Int(i: int) | Bool(b: bool) | Str(s: string)

  datatype UnaryOp = Neg | Not

  datatype BinaryOp = Add | Sub | Mul | Div | And | Or | Equ | Neq | Lth | Leq | Gth | Geq

  const HALF: int := 0x8000_0000_0000_0000

  /** Machine integers are 64 bits wide and wrap around. */
  function Wrap(x: int): int { (x + HALF) % (2 * HALF) - HALF }

  /** Division rounds towards minus infinity. */
  function FloorDiv(x: int, y: int): int
    requires y != 0
  {
    if y > 0 then x / y else (-x) / (-y)
  }

  predicate StrLess(s: string, t: string)
    decreases |s|
  {
    if t == [] then false
    else if s == [] then true
    else if s[0] == t[0] then StrLess(s[1..], t[1..])
    else s[0] < t[0]
  }

  predicate Comparable(a: Scalar, b: Scalar) {
    (a.Int? && b.Int?) || (a.Bool? && b.Bool?) || (a.Str? && b.Str?)
  }

  predicate Less(a: Scalar, b: Scalar)
    requires Comparable(a, b)
  {
    match a
    case Int(i) => i < b.i
    case Bool(x) => !x && b.b
    case Str(s) => StrLess(s, b.s)
  }

  function Unary(op: UnaryOp, a: Scalar): Option<Scalar> {
    match (op, a)
    case (Neg, Int(i)) => Some(Int(Wrap(-i)))
    case (Not, Bool(b)) => Some(Bool(!b))
    case _ => None
  }

  /** None is a run-time error: operands of the wrong kind, a zero divisor, or the one quotient
      that does not fit a machine integer. */
  function Binary(op: BinaryOp, a: Scalar, b: Scalar): Option<Scalar> {
    match op
    case Add => if a.Int? && b.Int? then Some(Int(Wrap(a.i + b.i))) else None
    case Sub => if a.Int? && b.Int? then Some(Int(Wrap(a.i - b.i))) else None
    case Mul => if a.Int? && b.Int? then Some(Int(Wrap(a.i * b.i))) else None
    case Div =>
      if a.Int? && b.Int? && b.i != 0 && !(a.i == -HALF && b.i == -1) then Some(Int(FloorDiv(a.i, b.i))) else None
    case And => if a.Bool? && b.Bool? then Some(Bool(a.b && b.b)) else None
    case Or => if a.Bool? && b.Bool? then Some(Bool(a.b || b.b)) else None
    case Equ => if Comparable(a, b) then Some(Bool(a == b)) else None
    case Neq => if Comparable(a, b) then Some(Bool(a != b)) else None
    case Lth => if Comparable(a, b) then Some(Bool(Less(a, b))) else None
    case Leq => if Comparable(a, b) then Some(Bool(a == b || Less(a, b))) else None
    case Gth => if Comparable(a, b) then Some(Bool(!(a == b || Less(a, b)))) else None
    case Geq => if Comparable(a, b) then Some(Bool(!Less(a, b))) else None
  }
}
