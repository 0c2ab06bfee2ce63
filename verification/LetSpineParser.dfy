/** The expression parser, with its iterative let spine and its two budgets.

    `Descend` is the recursive grammar; the method `ParseExprAt` keeps the pending let
    bindings on an explicit stack instead of recursing into let bodies.  `LetSpineLanguage`
    says which token sequences are read as which trees.
 */
module LetSpineParser {
  import Naming
  import opened Wrappers

  const U64: nat := 0x1_0000_0000_0000_0000
  const I64: nat := 0x8000_0000_0000_0000
  const MAX_EXPRESSION_DEPTH: nat := 4096
  const MAX_RECURSIVE_DEPTH: nat := 64

  /** `Word` is a maximal run of identifier characters, `Quote` a quoted identifier. */
  datatype Token = Open | Close | Word(text: string) | Quote(text: string)

  datatype Tokens = End | Tok(head: Token, tail: Tokens)

  datatype Tree =
    | Number(n: nat)
    | Integer(i: int)
    | Truth(b: bool)
    | Var(name: string)
    | Param(index: nat)
    | Operate(op: string, args: Trees)
    | Apply(kind: string, name: string, args: Trees)
    | Let(name: string, value: Tree, body: Tree)
    | Cases(scrut: Tree, arms: Arms)
    | Project(ty: string, field: string, value: Tree)
    | Join(name: string, params: seq<string>, body: Tree)
    | Unreachable
    | Opaque(reason: string)

  datatype Trees = Nil | Cons(head: Tree, tail: Trees)

  datatype Arms = NoMore | Default(otherwise: Tree) | Arm(ctor: string, binders: seq<string>, body: Tree, rest: Arms)

  /** `Error` lets a repetition stop before the failing item; `TooLarge` aborts everything. */
  datatype Parsed<+T> = Done(value: T, rest: Tokens) | Error | TooLarge

  function Weight(ts: Tokens): nat {
    match ts
    case End => 0
    case Tok(Word(text), tail) => 1 + |text| + Weight(tail)
    case Tok(_, tail) => 1 + Weight(tail)
  }

  // ---- operators ----

  /** Operators and how many operands each takes. */
  type Table = map<string, nat>

  const UNARY: Table := map[
    "checked-neg" := 1, "bit-not" := 1, "checked-convert" := 1, "length" := 1, "string-length" := 1,
    "utf8-encode" := 1, "utf8-decode" := 1, "parse-decimal" := 1, "format-decimal" := 1, "negate" := 1]

  const ARITHMETIC: Table := map[
    "add" := 2, "sub" := 2, "mul" := 2, "div" := 2, "mod" := 2, "shl" := 2, "shr" := 2, "pow" := 2,
    "eq" := 2, "lt" := 2, "le" := 2, "gt" := 2]

  const BINARY: Table := map[
    "checked-add" := 2, "checked-sub" := 2, "checked-mul" := 2, "checked-div" := 2, "bit-and" := 2, "bit-or" := 2,
    "bit-xor" := 2, "checked-shl" := 2, "checked-shr" := 2, "append" := 2, "index" := 2, "compare-bytes" := 2,
    "join" := 2]

  const TERNARY: Table := map["if" := 3, "slice" := 3, "split-exact" := 3, "quotient" := 3, "remainder" := 3]

  const OPERATORS: Table := UNARY + ARITHMETIC + BINARY + TERNARY

  /** No operator is spelled like another form. */
  predicate Proper(ops: Table) {
    ApplicationsFree(ops) && BindersFree(ops) && LeavesFree(ops)
  }

  predicate ApplicationsFree(ops: Table) {
    "call" !in ops && "jmp" !in ops && "ctor" !in ops && "extern" !in ops
  }

  predicate BindersFree(ops: Table) {
    "let" !in ops && "cases" !in ops && "proj" !in ops && "jp" !in ops
  }

  predicate LeavesFree(ops: Table) {
    "" !in ops && "param" !in ops && "unreachable" !in ops && "opaque" !in ops
  }

  // ---- words ----

  predicate IsDigit(c: char) {
    '0' <= c <= '9'
  }

  function Leading(text: string): (k: nat)
    ensures k <= |text| && forall i :: 0 <= i < k ==> IsDigit(text[i])
  {
    if text == "" || !IsDigit(text[0]) then 0 else 1 + Leading(text[1..])
  }

  function Magnitude(digits: string): nat
    requires forall i :: 0 <= i < |digits| ==> IsDigit(digits[i])
  {
    if digits == "" then 0 else
    assert IsDigit(digits[|digits| - 1]);
    Magnitude(digits[..|digits| - 1]) * 10 + (digits[|digits| - 1] as int - '0' as int)
  }

  /** A tag or a number may end inside a word; the rest of the word is read next. */
  function Leftover(text: string, tail: Tokens): (ts: Tokens)
    ensures Weight(ts) <= 1 + |text| + Weight(tail)
    ensures text == "" ==> ts == tail && Weight(ts) == Weight(tail)
  {
    if text == "" then tail else Tok(Word(text), tail)
  }

  function Signed(input: Tokens): (r: Parsed<int>)
    ensures r.Done? ==> Weight(r.rest) < Weight(input)
  {
    if !(input.Tok? && input.head.Word?) then Error else
    var text := input.head.text;
    if text != "" && text[0] == '-' then
      var p := Digits(text[1..], I64, input.tail);
      if p.Done? then Done(0 - p.value, p.rest) else Error
    else Digits(text, I64 - 1, input.tail)
  }

  function Unsigned(input: Tokens): (r: Parsed<nat>)
    ensures r.Done? ==> Weight(r.rest) < Weight(input)
  {
    if input.Tok? && input.head.Word? then Digits(input.head.text, U64 - 1, input.tail) else Error
  }

  /** The leading digits of a word, up to a limit. */
  function Digits(text: string, limit: nat, tail: Tokens): (r: Parsed<nat>)
    ensures r.Done? ==> Weight(r.rest) < 1 + |text| + Weight(tail)
  {
    var k := Leading(text);
    if k == 0 || Magnitude(text[..k]) > limit then Error
    else Done(Magnitude(text[..k]), Leftover(text[k..], tail))
  }

  /** Numbers, then booleans, then whatever remains is a variable. */
  function Atom(input: Tokens): (r: Parsed<Tree>)
    ensures r.Done? ==> Weight(r.rest) < Weight(input)
  {
    if !(input.Tok? && input.head.Word?) || input.head.text == "" then Error else
    var text := input.head.text;
    var u := Unsigned(input);
    if u.Done? then Done(Number(u.value), u.rest) else
    var i := Signed(input);
    if i.Done? then Done(Integer(i.value), i.rest)
    else if "true" <= text then Done(Truth(true), Leftover(text[4..], input.tail))
    else if "false" <= text then Done(Truth(false), Leftover(text[5..], input.tail))
    else Done(Var(text), input.tail)
  }

  function Ident(input: Tokens): (r: Parsed<string>)
    ensures r.Done? ==> Weight(r.rest) < Weight(input)
  {
    if input.Tok? && input.head.Word? && input.head.text != "" then Done(input.head.text, input.tail) else Error
  }

  function QuotedIdent(input: Tokens): (r: Parsed<string>)
    ensures r.Done? ==> Weight(r.rest) < Weight(input)
  {
    if input.Tok? && input.head.Quote? && input.head.text != "" then Done(input.head.text, input.tail) else Error
  }

  function Closing<T>(p: Parsed<T>): (r: Parsed<T>)
    ensures r.Done? ==> p.Done? && Weight(r.rest) < Weight(p.rest)
  {
    if !p.Done? then p
    else if p.rest.Tok? && p.rest.head.Close? then Done(p.value, p.rest.tail)
    else Error
  }

  function Idents(input: Tokens): (r: Parsed<seq<string>>)
    ensures r.Done? && Weight(r.rest) <= Weight(input)
    decreases Weight(input)
  {
    var name := Ident(input);
    if !name.Done? then Done([], input) else
    var more := Idents(name.rest);
    Done([name.value] + more.value, more.rest)
  }

  function Binders(input: Tokens): (r: Parsed<seq<string>>)
    ensures r.Done? ==> Weight(r.rest) < Weight(input)
  {
    if input.Tok? && input.head.Open? then Closing(Idents(input.tail)) else Error
  }

  predicate LetPrefix(input: Tokens) {
    input.Tok? && input.head.Open? && input.tail.Tok? && input.tail.head == Word("let")
  }

  // ---- the recursive grammar ----

  function Descend(ops: Table, input: Tokens, depth: nat, recursion: nat): (r: Parsed<Tree>)
    ensures r.Done? ==> Weight(r.rest) < Weight(input)
    decreases Weight(input), 3
  {
    if LetPrefix(input) then
      match LetHead(ops, input, depth, recursion)
      case Error => Error
      case TooLarge => TooLarge
      case Done(b, rest) => Bound(b, Descend(ops, rest, depth - 1, recursion))
    else if input.Tok? && input.head.Open? then
      if depth == 0 || recursion == 0 then TooLarge else Paren(ops, input.tail, depth - 1, recursion - 1)
    else Atom(input)
  }

  datatype Binding = Binding(name: string, value: Tree)

  /** Name and value of a let: the value costs one of both budgets. */
  function LetHead(ops: Table, input: Tokens, depth: nat, recursion: nat): (r: Parsed<Binding>)
    requires LetPrefix(input)
    ensures r.Done? ==> Weight(r.rest) < Weight(input) && depth > 0 && recursion > 0
    decreases Weight(input), 2
  {
    if depth == 0 || recursion == 0 then TooLarge else
    var name := Ident(input.tail.tail);
    if !name.Done? then Error else
    assert Weight(input.tail.tail) < Weight(input.tail) < Weight(input);
    match Descend(ops, name.rest, depth - 1, recursion - 1)
    case Error => Error
    case TooLarge => TooLarge
    case Done(value, rest) => Done(Binding(name.value, value), rest)
  }

  /** A finished body closes the let around it. */
  function Bound(b: Binding, body: Parsed<Tree>): (r: Parsed<Tree>)
    ensures r.Done? ==> body.Done? && Weight(r.rest) < Weight(body.rest)
  {
    var closed := Closing(body);
    if closed.Done? then Done(Let(b.name, b.value, closed.value), closed.rest) else closed
  }

  /** After the opening parenthesis: an operator word, its form, a closing parenthesis. */
  function Paren(ops: Table, input: Tokens, depth: nat, recursion: nat): (r: Parsed<Tree>)
    ensures r.Done? ==> Weight(r.rest) < Weight(input)
    decreases Weight(input), 3
  {
    var op := Ident(input);
    if !op.Done? then Error
    else if op.value in ops then Closing(Operation(ops, op.value, ops[op.value], op.rest, depth, recursion))
    else Closing(Form(ops, op.value, op.rest, depth, recursion))
  }

  function Operation(ops: Table, op: string, arity: nat, input: Tokens, depth: nat, recursion: nat): (r: Parsed<Tree>)
    ensures r.Done? ==> Weight(r.rest) <= Weight(input)
    decreases Weight(input), 5
  {
    match Fixed(ops, arity, input, depth, recursion)
    case Error => Error
    case TooLarge => TooLarge
    case Done(args, rest) => Done(Operate(op, args), rest)
  }

  /** The forms that are not plain operators. */
  function Form(ops: Table, op: string, input: Tokens, depth: nat, recursion: nat): (r: Parsed<Tree>)
    ensures r.Done? ==> Weight(r.rest) <= Weight(input)
    decreases Weight(input), 5
  {
    if op == "param" then
      (match Unsigned(input)
       case Error => Error
       case TooLarge => TooLarge
       case Done(index, rest) => Done(Param(index), rest))
    else if op == "call" || op == "jmp" then Application(ops, op, Ident(input), input, depth, recursion)
    else if op == "ctor" || op == "extern" then Application(ops, op, QuotedIdent(input), input, depth, recursion)
    else if op == "cases" then
      (match Descend(ops, input, depth, recursion)
       case Error => Error
       case TooLarge => TooLarge
       case Done(scrut, rest) =>
         match Alternatives(ops, rest, depth, recursion)
         case Error => Error
         case TooLarge => TooLarge
         case Done(arms, rest') => Done(Cases(scrut, arms), rest'))
    else if op == "proj" then Projection(ops, input, depth, recursion)
    else if op == "jp" then JoinPoint(ops, input, depth, recursion)
    else if op == "unreachable" then Done(Unreachable, input)
    else if op == "opaque" then
      (match QuotedIdent(input)
       case Error => Error
       case TooLarge => TooLarge
       case Done(reason, rest) => Done(Opaque(reason), rest))
    else Error
  }

  function Application(ops: Table, kind: string, name: Parsed<string>, input: Tokens, depth: nat,
                       recursion: nat): (r: Parsed<Tree>)
    requires name.Done? ==> Weight(name.rest) < Weight(input)
    ensures r.Done? ==> Weight(r.rest) <= Weight(input)
    decreases Weight(input), 4
  {
    if !name.Done? then Error else
    match Many(ops, name.rest, depth, recursion)
    case Error => Error
    case TooLarge => TooLarge
    case Done(args, rest) => Done(Apply(kind, name.value, args), rest)
  }

  function Projection(ops: Table, input: Tokens, depth: nat, recursion: nat): (r: Parsed<Tree>)
    ensures r.Done? ==> Weight(r.rest) <= Weight(input)
    decreases Weight(input), 4
  {
    var ty := QuotedIdent(input);
    if !ty.Done? then Error else
    var field := QuotedIdent(ty.rest);
    if !field.Done? then Error else
    match Descend(ops, field.rest, depth, recursion)
    case Error => Error
    case TooLarge => TooLarge
    case Done(value, rest) => Done(Project(ty.value, field.value, value), rest)
  }

  function JoinPoint(ops: Table, input: Tokens, depth: nat, recursion: nat): (r: Parsed<Tree>)
    ensures r.Done? ==> Weight(r.rest) <= Weight(input)
    decreases Weight(input), 4
  {
    var name := Ident(input);
    if !name.Done? then Error else
    var params := Binders(name.rest);
    if !params.Done? then Error else
    match Descend(ops, params.rest, depth, recursion)
    case Error => Error
    case TooLarge => TooLarge
    case Done(body, rest) => Done(Join(name.value, params.value, body), rest)
  }

  function Fixed(ops: Table, k: nat, input: Tokens, depth: nat, recursion: nat): (r: Parsed<Trees>)
    ensures r.Done? ==> Weight(r.rest) <= Weight(input)
    decreases Weight(input), 4
  {
    if k == 0 then Done(Nil, input) else
    match Descend(ops, input, depth, recursion)
    case Error => Error
    case TooLarge => TooLarge
    case Done(first, rest) =>
      match Fixed(ops, k - 1, rest, depth, recursion)
      case Error => Error
      case TooLarge => TooLarge
      case Done(more, rest') => Done(Cons(first, more), rest')
  }

  /** Zero or more expressions: an ordinary error ends the repetition, exhaustion does not. */
  function Many(ops: Table, input: Tokens, depth: nat, recursion: nat): (r: Parsed<Trees>)
    ensures r.Done? ==> Weight(r.rest) <= Weight(input)
    decreases Weight(input), 4
  {
    match Descend(ops, input, depth, recursion)
    case Error => Done(Nil, input)
    case TooLarge => TooLarge
    case Done(first, rest) =>
      match Many(ops, rest, depth, recursion)
      case Error => Error
      case TooLarge => TooLarge
      case Done(more, rest') => Done(Cons(first, more), rest')
  }

  function Alternatives(ops: Table, input: Tokens, depth: nat, recursion: nat): (r: Parsed<Arms>)
    ensures r.Done? ==> Weight(r.rest) <= Weight(input)
    decreases Weight(input), 4
  {
    match Alternative(ops, input, depth, recursion)
    case TooLarge => TooLarge
    case Error =>
      (match Otherwise(ops, input, depth, recursion)
       case TooLarge => TooLarge
       case Error => Done(NoMore, input)
       case Done(body, rest) => Done(Default(body), rest))
    case Done(first, rest) =>
      match Alternatives(ops, rest, depth, recursion)
      case Error => Error
      case TooLarge => TooLarge
      case Done(more, rest') => Done(Arm(first.ctor, first.binders, first.body, more), rest')
  }

  datatype Single = Single(ctor: string, binders: seq<string>, body: Tree)

  function Alternative(ops: Table, input: Tokens, depth: nat, recursion: nat): (r: Parsed<Single>)
    ensures r.Done? ==> Weight(r.rest) < Weight(input)
    decreases Weight(input), 3
  {
    if !(input.Tok? && input.head.Open? && input.tail.Tok? && input.tail.head == Word("alt")) then Error else
    var ctor := QuotedIdent(input.tail.tail);
    if !ctor.Done? then Error else
    var binders := Binders(ctor.rest);
    if !binders.Done? then Error else
    match Descend(ops, binders.rest, depth, recursion)
    case Error => Error
    case TooLarge => TooLarge
    case Done(body, rest) => Closing(Done(Single(ctor.value, binders.value, body), rest))
  }

  function Otherwise(ops: Table, input: Tokens, depth: nat, recursion: nat): (r: Parsed<Tree>)
    ensures r.Done? ==> Weight(r.rest) < Weight(input)
    decreases Weight(input), 3
  {
    if !(input.Tok? && input.head.Open? && input.tail.Tok? && input.tail.head.Word?) then Error else
    var text := input.tail.head.text;
    if !("default" <= text) then Error else
    assert Weight(input.tail) == 1 + |text| + Weight(input.tail.tail);
    Closing(Descend(ops, Leftover(text[7..], input.tail.tail), depth, recursion))
  }

  // ---- the iterative parser ----

  /** Close the pending lets, innermost first. */
  function Unwind(bindings: seq<Binding>, body: Parsed<Tree>): Parsed<Tree> {
    if bindings == [] then body else
    var last := bindings[|bindings| - 1];
    Unwind(bindings[..|bindings| - 1], Bound(last, body))
  }

  lemma {:induction false} UnwindFails(bindings: seq<Binding>, body: Parsed<Tree>)
    requires !body.Done?
    ensures Unwind(bindings, body) == body
  {
    if bindings != [] {
      UnwindFails(bindings[..|bindings| - 1], body);
    }
  }

  lemma UnwindPush(bindings: seq<Binding>, b: Binding, body: Parsed<Tree>)
    ensures Unwind(bindings + [b], body) == Unwind(bindings, Bound(b, body))
  {
    assert (bindings + [b])[..|bindings|] == bindings;
  }

  /** One more pending let. */
  lemma LetStep(ops: Table, bindings: seq<Binding>, input: Tokens, depth: nat, recursion: nat)
    requires LetPrefix(input)
    ensures Unwind(bindings, Descend(ops, input, depth, recursion))
      == match LetHead(ops, input, depth, recursion)
         case Error => Error
         case TooLarge => TooLarge
         case Done(b, rest) => Unwind(bindings + [b], Descend(ops, rest, depth - 1, recursion))
  {
    var head := LetHead(ops, input, depth, recursion);
    match head
    case Error => UnwindFails(bindings, Error);
    case TooLarge => UnwindFails(bindings, TooLarge);
    case Done(b, rest) => UnwindPush(bindings, b, Descend(ops, rest, depth - 1, recursion));
  }

  /** Let bodies are handled by the loop: only values and parentheses recurse. */
  method ParseExprAt(ops: Table, input0: Tokens, depth0: nat, recursion: nat) returns (r: Parsed<Tree>)
    ensures r == Descend(ops, input0, depth0, recursion)
    decreases Weight(input0), 3
  {
    var input, depth := input0, depth0;
    var bindings: seq<Binding> := [];
    while LetPrefix(input)
      invariant Unwind(bindings, Descend(ops, input, depth, recursion)) == Descend(ops, input0, depth0, recursion)
      invariant Weight(input) <= Weight(input0)
      decreases Weight(input)
    {
      LetStep(ops, bindings, input, depth, recursion);
      var head := ParseLet(ops, input, depth, recursion);
      if head.Error? { return Error; }
      if head.TooLarge? { return TooLarge; }
      bindings := bindings + [head.value];
      input, depth := head.rest, depth - 1;
    }
    r := ParseLeaf(ops, input, depth, recursion);
    r := CloseLets(bindings, r);
  }

  method ParseLeaf(ops: Table, input: Tokens, depth: nat, recursion: nat) returns (r: Parsed<Tree>)
    requires !LetPrefix(input)
    ensures r == Descend(ops, input, depth, recursion)
  {
    if !(input.Tok? && input.head.Open?) {
      r := Atom(input);
    } else if depth == 0 || recursion == 0 {
      r := TooLarge;
    } else {
      r := Paren(ops, input.tail, depth - 1, recursion - 1);
    }
  }

  method ParseLet(ops: Table, input: Tokens, depth: nat, recursion: nat) returns (r: Parsed<Binding>)
    requires LetPrefix(input)
    ensures r == LetHead(ops, input, depth, recursion)
    decreases Weight(input), 2
  {
    if depth == 0 || recursion == 0 { return TooLarge; }
    var name := Ident(input.tail.tail);
    if !name.Done? { return Error; }
    assert Weight(input.tail.tail) < Weight(input.tail) < Weight(input);
    var value := ParseExprAt(ops, name.rest, depth - 1, recursion - 1);
    if value.Error? { return Error; }
    if value.TooLarge? { return TooLarge; }
    r := Done(Binding(name.value, value.value), value.rest);
  }

  method CloseLets(bindings: seq<Binding>, body: Parsed<Tree>) returns (r: Parsed<Tree>)
    ensures r == Unwind(bindings, body)
  {
    r := body;
    var k: nat := |bindings|;
    assert bindings[..k] == bindings;
    while k > 0
      invariant k <= |bindings|
      invariant Unwind(bindings[..k], r) == Unwind(bindings, body)
    {
      k := k - 1;
      assert bindings[..k + 1] == bindings[..k] + [bindings[k]];
      UnwindPush(bindings[..k], bindings[k], r);
      r := Bound(bindings[k], r);
    }
  }

  /** An expression of a module, under the compiler's limits. */
  method ParseExpr(input: Tokens) returns (r: Parsed<Tree>)
    ensures r == Descend(OPERATORS, input, MAX_EXPRESSION_DEPTH, MAX_RECURSIVE_DEPTH)
  {
    r := ParseExprAt(OPERATORS, input, MAX_EXPRESSION_DEPTH, MAX_RECURSIVE_DEPTH);
  }

  // ---- rendering ----

  function Words(names: seq<string>, rest: Tokens): Tokens {
    if names == [] then rest else Tok(Word(names[0]), Words(names[1..], rest))
  }

  /** The tokens of a tree, in front of what follows it. */
  function Render(t: Tree, rest: Tokens): Tokens {
    match t
    case Number(n) => Tok(Word(Naming.Decimal(n)), rest)
    case Integer(i) => Tok(Word(if i < 0 then "-" + Naming.Decimal(-i) else Naming.Decimal(i)), rest)
    case Truth(b) => Tok(Word(if b then "true" else "false"), rest)
    case Var(name) => Tok(Word(name), rest)
    case Param(index) => Form1("param", Tok(Word(Naming.Decimal(index)), Tok(Close, rest)))
    case Operate(op, args) => Form1(op, RenderAll(args, Tok(Close, rest)))
    case Apply(kind, name, args) =>
      Form1(kind, Tok(if kind == "call" || kind == "jmp" then Word(name) else Quote(name),
                      RenderAll(args, Tok(Close, rest))))
    case Let(name, value, body) => Form1("let", Tok(Word(name), Render(value, Render(body, Tok(Close, rest)))))
    case Cases(scrut, arms) => Form1("cases", Render(scrut, RenderArms(arms, Tok(Close, rest))))
    case Project(ty, field, value) =>
      Form1("proj", Tok(Quote(ty), Tok(Quote(field), Render(value, Tok(Close, rest)))))
    case Join(name, params, body) =>
      Form1("jp", Tok(Word(name), Tok(Open, Words(params, Tok(Close, Render(body, Tok(Close, rest)))))))
    case Unreachable => Form1("unreachable", Tok(Close, rest))
    case Opaque(reason) => Form1("opaque", Tok(Quote(reason), Tok(Close, rest)))
  }

  function Form1(op: string, rest: Tokens): Tokens {
    Tok(Open, Tok(Word(op), rest))
  }

  function RenderAll(ts: Trees, rest: Tokens): Tokens {
    match ts
    case Nil => rest
    case Cons(t, tail) => Render(t, RenderAll(tail, rest))
  }

  function RenderArms(arms: Arms, rest: Tokens): Tokens {
    match arms
    case NoMore => rest
    case Default(b) => Form1("default", Render(b, Tok(Close, rest)))
    case Arm(c, bs, b, more) =>
      Form1("alt", Tok(Quote(c), Tok(Open, Words(bs, Tok(Close, Render(b, Tok(Close, RenderArms(more, rest))))))))
  }

  // ---- trees with a rendering of their own ----

  function Count(ts: Trees): nat {
    match ts
    case Nil => 0
    case Cons(_, tail) => 1 + Count(tail)
  }

  /** A word that no earlier alternative of the atom parser claims, in whole or in part. */
  predicate Readable(name: string) {
    && name != ""
    && !Unsigned(Tok(Word(name), End)).Done? && !Signed(Tok(Word(name), End)).Done?
    && !("true" <= name) && !("false" <= name)
  }

  predicate Idented(names: seq<string>) {
    forall i :: 0 <= i < |names| ==> names[i] != ""
  }

  predicate WellFormed(ops: Table, t: Tree) {
    match t
    case Number(n) => n < U64
    case Integer(i) => -0x8000_0000_0000_0000 <= i < 0
    case Truth(_) => true
    case Var(name) => Readable(name)
    case Param(index) => index < U64
    case Operate(op, args) => op in ops && Count(args) == ops[op] && WellFormedAll(ops, args)
    case Apply(kind, name, args) => kind in ["call", "jmp", "ctor", "extern"] && name != "" && WellFormedAll(ops, args)
    case Let(name, value, body) => name != "" && WellFormed(ops, value) && WellFormed(ops, body)
    case Cases(scrut, arms) => WellFormed(ops, scrut) && WellFormedArms(ops, arms)
    case Project(ty, field, value) => ty != "" && field != "" && WellFormed(ops, value)
    case Join(name, params, body) => name != "" && Idented(params) && WellFormed(ops, body)
    case Unreachable => true
    case Opaque(reason) => reason != ""
  }

  predicate WellFormedAll(ops: Table, ts: Trees) {
    match ts
    case Nil => true
    case Cons(t, tail) => WellFormed(ops, t) && WellFormedAll(ops, tail)
  }

  predicate WellFormedArms(ops: Table, arms: Arms) {
    match arms
    case NoMore => true
    case Default(b) => WellFormed(ops, b)
    case Arm(c, bs, b, more) => c != "" && Idented(bs) && WellFormed(ops, b) && WellFormedArms(ops, more)
  }

  // ---- what a tree costs ----

  /** Parentheses of expressions around the deepest atom. */
  function Depth(t: Tree): nat {
    match t
    case Number(_) => 0
    case Integer(_) => 0
    case Truth(_) => 0
    case Var(_) => 0
    case Param(_) => 1
    case Operate(_, args) => 1 + DepthAll(args)
    case Apply(_, _, args) => 1 + DepthAll(args)
    case Let(_, value, body) => 1 + Max(Depth(value), Depth(body))
    case Cases(scrut, arms) => 1 + Max(Depth(scrut), DepthArms(arms))
    case Project(_, _, value) => 1 + Depth(value)
    case Join(_, _, body) => 1 + Depth(body)
    case Unreachable => 1
    case Opaque(_) => 1
  }

  function DepthAll(ts: Trees): nat {
    match ts
    case Nil => 0
    case Cons(t, tail) => Max(Depth(t), DepthAll(tail))
  }

  function DepthArms(arms: Arms): nat {
    match arms
    case NoMore => 0
    case Default(b) => Depth(b)
    case Arm(_, _, b, more) => Max(Depth(b), DepthArms(more))
  }

  /** The same, except that a let body costs no recursion. */
  function Recursion(t: Tree): nat {
    match t
    case Number(_) => 0
    case Integer(_) => 0
    case Truth(_) => 0
    case Var(_) => 0
    case Param(_) => 1
    case Operate(_, args) => 1 + RecursionAll(args)
    case Apply(_, _, args) => 1 + RecursionAll(args)
    case Let(_, value, body) => Max(1 + Recursion(value), Recursion(body))
    case Cases(scrut, arms) => 1 + Max(Recursion(scrut), RecursionArms(arms))
    case Project(_, _, value) => 1 + Recursion(value)
    case Join(_, _, body) => 1 + Recursion(body)
    case Unreachable => 1
    case Opaque(_) => 1
  }

  function RecursionAll(ts: Trees): nat {
    match ts
    case Nil => 0
    case Cons(t, tail) => Max(Recursion(t), RecursionAll(tail))
  }

  function RecursionArms(arms: Arms): nat {
    match arms
    case NoMore => 0
    case Default(b) => Recursion(b)
    case Arm(_, _, b, more) => Max(Recursion(b), RecursionArms(more))
  }

  // ---- words read back ----

  lemma {:induction false} DecimalReads(n: nat)
    ensures var s := Naming.Decimal(n);
      && s != "" && (forall i :: 0 <= i < |s| ==> IsDigit(s[i])) && Magnitude(s) == n && Leading(s) == |s|
  {
    var s := Naming.Decimal(n);
    if n < 10 {
      assert s == [Naming.Digit(n)] && s[..|s| - 1] == "";
      assert IsDigit(s[0]);
    } else {
      DecimalReads(n / 10);
      assert s[..|s| - 1] == Naming.Decimal(n / 10) && s[|s| - 1] == Naming.Digit(n % 10);
      assert IsDigit(s[|s| - 1]);
    }
    LeadingAll(s);
  }

  lemma {:induction false} LeadingAll(s: string)
    requires forall i :: 0 <= i < |s| ==> IsDigit(s[i])
    ensures Leading(s) == |s|
  {
    if s != "" {
      LeadingAll(s[1..]);
    }
  }

  /** A variable is read back exactly when its name is readable; otherwise the parser finds
      a number or a boolean in it, and a different tree. */
  lemma VarReadsBack(name: string, rest: Tokens)
    ensures Atom(Tok(Word(name), rest)) == Done(Var(name), rest) <==> Readable(name)
  {
    assert Unsigned(Tok(Word(name), rest)).Done? <==> Unsigned(Tok(Word(name), End)).Done?;
    assert Signed(Tok(Word(name), rest)).Done? <==> Signed(Tok(Word(name), End)).Done?;
  }

  /** For example: the name `truename` is read as `true`, and `name` is left over. */
  lemma BooleanPrefix(ops: Table, suffix: string, rest: Tokens)
    requires suffix != ""
    ensures Descend(ops, Tok(Word("true" + suffix), rest), 1, 1) == Done(Truth(true), Tok(Word(suffix), rest))
  {
    var text := "true" + suffix;
    assert text[0] == 't' && text[..4] == "true" && text[4..] == suffix;
    assert Leading(text) == 0;
  }

  lemma {:induction false} WordsRead(names: seq<string>, rest: Tokens)
    requires Idented(names) && rest.Tok? && rest.head.Close?
    ensures Idents(Words(names, rest)) == Done(names, rest)
  {
    if names != [] {
      WordsRead(names[1..], rest);
      assert [names[0]] + names[1..] == names;
    }
  }

  // ---- results under two budgets ----

  /** Read back whole within the budgets, refused outside them. */
  function Budgeted<T>(value: T, rest: Tokens, depth: nat, recursion: nat, d: nat, r: nat): Parsed<T> {
    if depth <= d && recursion <= r then Done(value, rest) else TooLarge
  }

  lemma BindersRead(names: seq<string>, rest: Tokens)
    requires Idented(names)
    ensures Binders(Tok(Open, Words(names, Tok(Close, rest)))) == Done(names, rest)
  {
    WordsRead(names, Tok(Close, rest));
  }

  /** One operand, then the others: the deeper of the two decides. */
  lemma FixedStep(ops: Table, k: nat, input: Tokens, t: Tree, mid: Tokens, tail: Trees, rest: Tokens, d: nat, r: nat,
                  depth: nat, recursion: nat, depths: nat, recursions: nat)
    requires Descend(ops, input, d, r) == Budgeted(t, mid, depth, recursion, d, r)
    requires Fixed(ops, k, mid, d, r) == Budgeted(tail, rest, depths, recursions, d, r)
    ensures Fixed(ops, k + 1, input, d, r)
         == Budgeted(Cons(t, tail), rest, Max(depth, depths), Max(recursion, recursions), d, r)
  {}

  // ---- operators and other words ----

  /** What sets every operator apart from the words of the other forms. */
  predicate Apart(w: string) {
    && |w| >= 2 && w[0] != 'o'
    && (w[0] == 'c' ==> w[1] == 'h' || w[1] == 'o')
    && (w[0] == 'j' ==> w[1] == 'o')
    && (w[0] == 'e' ==> w[1] == 'q')
    && (w[0] == 'u' ==> w[1] == 't')
    && (w[0] == 'l' ==> |w| == 2 || w[2] == 'n')
    && (w[0] == 'p' ==> w[1] == 'o' || (|w| > 3 && w[3] == 's'))
  }

  lemma UnaryApart(w: string)
    requires w in UNARY
    ensures Apart(w)
  {}

  lemma ArithmeticApart(w: string)
    requires w in ARITHMETIC
    ensures Apart(w)
  {}

  lemma BinaryApart(w: string)
    requires w in BINARY
    ensures Apart(w)
  {}

  lemma TernaryApart(w: string)
    requires w in TERNARY
    ensures Apart(w)
  {}

  lemma OperatorApart(w: string)
    requires w in OPERATORS
    ensures Apart(w)
  {
    if {
      case w in UNARY => UnaryApart(w);
      case w in ARITHMETIC => ArithmeticApart(w);
      case w in BINARY => BinaryApart(w);
      case w in TERNARY => TernaryApart(w);
    }
  }

  lemma ApplicationsNotApart()
    ensures !Apart("call") && !Apart("jmp") && !Apart("ctor") && !Apart("extern")
  {}

  lemma BindersNotApart()
    ensures !Apart("let") && !Apart("cases") && !Apart("proj") && !Apart("jp")
  {}

  lemma LeavesNotApart()
    ensures !Apart("") && !Apart("param") && !Apart("unreachable") && !Apart("opaque")
  {}

  lemma NotOperator(w: string)
    requires !Apart(w)
    ensures w !in OPERATORS
  {
    if w in OPERATORS {
      OperatorApart(w);
    }
  }

  /** No operator is spelled like the word of another form. */
  lemma OperatorsProper()
    ensures Proper(OPERATORS)
  {
    ApplicationsNotApart();
    BindersNotApart();
    LeavesNotApart();
    NotOperator("call");
    NotOperator("jmp");
    NotOperator("ctor");
    NotOperator("extern");
    NotOperator("let");
    NotOperator("cases");
    NotOperator("proj");
    NotOperator("jp");
    NotOperator("");
    NotOperator("param");
    NotOperator("unreachable");
    NotOperator("opaque");
  }

  // ---- operand counts ----

  predicate Takes(w: string, n: nat) {
    w in OPERATORS && OPERATORS[w] == n
  }

  lemma GroupsUniform(w: string)
    ensures w in UNARY ==> UNARY[w] == 1
    ensures w in TERNARY ==> TERNARY[w] == 3
  {}

  lemma ArithmeticUniform(w: string)
    ensures w in ARITHMETIC ==> ARITHMETIC[w] == 2
  {}

  lemma BinaryUniform(w: string)
    ensures w in BINARY ==> BINARY[w] == 2
  {}

  /** The table an operator stands in is how many operands it takes. */
  lemma OperandCounts(w: string)
    ensures Takes(w, 3) <==> w in TERNARY
    ensures Takes(w, 2) <==> w !in TERNARY && (w in BINARY || w in ARITHMETIC)
    ensures Takes(w, 1) <==> w !in TERNARY && w !in BINARY && w !in ARITHMETIC && w in UNARY
  {
    GroupsUniform(w);
    ArithmeticUniform(w);
    BinaryUniform(w);
    var lower := UNARY + ARITHMETIC;
    assert w in lower <==> w in UNARY || w in ARITHMETIC;
    assert w in lower ==> lower[w] == if w in ARITHMETIC then 2 else 1;
    assert w in lower + BINARY ==> (lower + BINARY)[w] == if w in BINARY then 2 else lower[w];
    assert OPERATORS == lower + BINARY + TERNARY;
  }

  /** Three operands for these forms and no other. */
  lemma ThreeOperands(w: string)
    ensures Takes(w, 3) <==> w in {"if", "slice", "split-exact", "quotient", "remainder"}
  {
    OperandCounts(w);
  }
}
