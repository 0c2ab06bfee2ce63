/** The intermediate representation, cut down to the nodes the passes treat specially.

    Every strict operator (arithmetic, comparison, constructor application, projection,
    `append`, `length`) is one `Prim` node: all passes traverse them alike through
    `children()`, left to right.
 */
module Ir {

  datatype Op =
    | Add | Sub | Mul | Div | Mod | Shl | Shr | Pow
    | Eq | Lt | Le | Gt
    | Append | Length
    | Ctor(name: string)
    | Proj(index: nat)

  datatype Literal = NatLit(n: nat) | BoolLit(b: bool)

  datatype Expr =
    | Lit(lit: Literal)
    | Var(name: string)
    | Param(index: nat)
    | Prim(op: Op, args: Exprs)
    | If(cond: Expr, yes: Expr, no: Expr)
    | Let(name: string, value: Expr, body: Expr)
    | Match(scrut: Expr, alts: Alts)
    | Call(callee: string, args: Exprs)
    | Jp(target: string, params: seq<string>, cont: Expr)
    | Jmp(target: string, args: Exprs)
    | Unreachable

  datatype Exprs = Nil | Cons(head: Expr, tail: Exprs)

  /** The alternatives of a match, in order, closed by an optional default. */
  datatype Alts =
    | NoMore
    | Default(otherwise: Expr)
    | Alt(ctor: string, binders: seq<string>, body: Expr, rest: Alts)

  datatype Type = Scalar | List(elem: Type) | Named(name: string)

  datatype Definition = Definition(
    name: string, params: seq<string>, types: seq<Type>, ret: Type, body: Expr)

  /** Variables and join labels live in separate lexical namespaces. */
  datatype Name = V(name: string) | L(target: string)

  /** What a join declaration renders as: the empty tuple. */
  const UnitExpr: Expr := Prim(Ctor("Prod.mk"), Nil)

  function Len(es: Exprs): nat {
    match es
    case Nil => 0
    case Cons(_, tail) => 1 + Len(tail)
  }

  // ---- children, in source order ----

  function Listed(es: Exprs): (cs: seq<Expr>)
    ensures |cs| == Len(es)
    ensures forall c :: c in cs ==> c < es
  {
    match es
    case Nil => []
    case Cons(e, tail) => [e] + Listed(tail)
  }

  function Bodies(alts: Alts): (cs: seq<Expr>)
    ensures forall c :: c in cs ==> c < alts
  {
    match alts
    case NoMore => []
    case Default(b) => [b]
    case Alt(_, _, b, rest) => [b] + Bodies(rest)
  }

  function Children(e: Expr): (cs: seq<Expr>)
    ensures forall c :: c in cs ==> c < e
  {
    match e
    case Lit(_) => []
    case Var(_) => []
    case Param(_) => []
    case Prim(_, es) => Listed(es)
    case If(c, t, f) => [c, t, f]
    case Let(_, v, b) => [v, b]
    case Match(s, alts) => [s] + Bodies(alts)
    case Call(_, es) => Listed(es)
    case Jp(_, _, c) => [c]
    case Jmp(_, es) => Listed(es)
    case Unreachable => []
  }

  // ---- size ----

  function Size(e: Expr): nat {
    match e
    case Lit(_) => 1
    case Var(_) => 1
    case Param(_) => 1
    case Prim(_, es) => 1 + SizeAll(es)
    case If(c, t, f) => 1 + Size(c) + Size(t) + Size(f)
    case Let(_, v, b) => 1 + Size(v) + Size(b)
    case Match(s, alts) => 1 + Size(s) + SizeAlts(alts)
    case Call(_, es) => 1 + SizeAll(es)
    case Jp(_, _, c) => 1 + Size(c)
    case Jmp(_, es) => 1 + SizeAll(es)
    case Unreachable => 1
  }

  function SizeAll(es: Exprs): nat {
    match es
    case Nil => 0
    case Cons(e, tail) => Size(e) + SizeAll(tail)
  }

  function SizeAlts(alts: Alts): nat {
    match alts
    case NoMore => 0
    case Default(b) => Size(b)
    case Alt(_, _, b, rest) => Size(b) + SizeAlts(rest)
  }

  // ---- free and bound names ----

  function Vars(xs: seq<string>): (s: set<Name>)
    ensures forall x :: V(x) in s <==> x in xs
    ensures forall l :: L(l) !in s
  {
    set x | x in xs :: V(x)
  }

  function Distinct(xs: seq<string>): bool {
    forall i, k :: 0 <= i < k < |xs| ==> xs[i] != xs[k]
  }

  /** The label a let-bound expression declares for the let body. */
  function Declared(v: Expr): set<Name> {
    if v.Jp? then {L(v.target)} else {}
  }

  function Free(e: Expr): set<Name> {
    match e
    case Lit(_) => {}
    case Var(x) => {V(x)}
    case Param(_) => {}
    case Prim(_, es) => FreeAll(es)
    case If(c, t, f) => Free(c) + Free(t) + Free(f)
    case Let(x, v, b) => Free(v) + (Free(b) - {V(x)} - Declared(v))
    case Match(s, alts) => Free(s) + FreeAlts(alts)
    case Call(_, es) => FreeAll(es)
    case Jp(l, ps, c) => Free(c) - Vars(ps) - {L(l)}
    case Jmp(l, es) => {L(l)} + FreeAll(es)
    case Unreachable => {}
  }

  function FreeAll(es: Exprs): set<Name> {
    match es
    case Nil => {}
    case Cons(e, tail) => Free(e) + FreeAll(tail)
  }

  function FreeAlts(alts: Alts): set<Name> {
    match alts
    case NoMore => {}
    case Default(b) => Free(b)
    case Alt(_, bs, b, rest) => (Free(b) - Vars(bs)) + FreeAlts(rest)
  }

  function Bound(e: Expr): set<Name> {
    match e
    case Lit(_) => {}
    case Var(_) => {}
    case Param(_) => {}
    case Prim(_, es) => BoundAll(es)
    case If(c, t, f) => Bound(c) + Bound(t) + Bound(f)
    case Let(x, v, b) => {V(x)} + Bound(v) + Bound(b)
    case Match(s, alts) => Bound(s) + BoundAlts(alts)
    case Call(_, es) => BoundAll(es)
    case Jp(l, ps, c) => {L(l)} + Vars(ps) + Bound(c)
    case Jmp(_, es) => BoundAll(es)
    case Unreachable => {}
  }

  function BoundAll(es: Exprs): set<Name> {
    match es
    case Nil => {}
    case Cons(e, tail) => Bound(e) + BoundAll(tail)
  }

  function BoundAlts(alts: Alts): set<Name> {
    match alts
    case NoMore => {}
    case Default(b) => Bound(b)
    case Alt(_, bs, b, rest) => Vars(bs) + Bound(b) + BoundAlts(rest)
  }

  /** Alpha-unique: no name is bound twice, in either namespace. */
  predicate Unique(e: Expr) {
    match e
    case Lit(_) => true
    case Var(_) => true
    case Param(_) => true
    case Prim(_, es) => UniqueAll(es)
    case If(c, t, f) =>
      Unique(c) && Unique(t) && Unique(f) && Bound(c) !! Bound(t) !! Bound(f)
    case Let(x, v, b) =>
      Unique(v) && Unique(b) && {V(x)} !! Bound(v) !! Bound(b)
    case Match(s, alts) => Unique(s) && UniqueAlts(alts) && Bound(s) !! BoundAlts(alts)
    case Call(_, es) => UniqueAll(es)
    case Jp(l, ps, c) => Unique(c) && Distinct(ps) && {L(l)} !! Vars(ps) !! Bound(c)
    case Jmp(_, es) => UniqueAll(es)
    case Unreachable => true
  }

  predicate UniqueAll(es: Exprs) {
    match es
    case Nil => true
    case Cons(e, tail) => Unique(e) && UniqueAll(tail) && Bound(e) !! BoundAll(tail)
  }

  predicate UniqueAlts(alts: Alts) {
    match alts
    case NoMore => true
    case Default(b) => Unique(b)
    case Alt(_, bs, b, rest) =>
      Unique(b) && UniqueAlts(rest) && Distinct(bs) && Vars(bs) !! Bound(b) !! BoundAlts(rest)
  }

  // ---- joins ----

  predicate JoinFree(e: Expr) {
    match e
    case Lit(_) => true
    case Var(_) => true
    case Param(_) => true
    case Prim(_, es) => JoinFreeAll(es)
    case If(c, t, f) => JoinFree(c) && JoinFree(t) && JoinFree(f)
    case Let(_, v, b) => JoinFree(v) && JoinFree(b)
    case Match(s, alts) => JoinFree(s) && JoinFreeAlts(alts)
    case Call(_, es) => JoinFreeAll(es)
    case Jp(_, _, _) => false
    case Jmp(_, _) => false
    case Unreachable => true
  }

  predicate JoinFreeAll(es: Exprs) {
    match es
    case Nil => true
    case Cons(e, tail) => JoinFree(e) && JoinFreeAll(tail)
  }

  predicate JoinFreeAlts(alts: Alts) {
    match alts
    case NoMore => true
    case Default(b) => JoinFree(b)
    case Alt(_, _, b, rest) => JoinFree(b) && JoinFreeAlts(rest)
  }
}
