/** What the expression parser accepts.

    `Spells` says of a tree, without parsing, which tokens it may stand for: the grammar of
    the parser's header, with numbers and booleans that may end inside a word.
    `ReadsExactly`: for every pair of budgets the parser returns exactly the trees that the
    tokens spell and the budgets allow.  `RoundTrip` is the case of a rendering.
 */
module LetSpineLanguage {
  import opened LetSpineParser
  import opened Wrappers
  import Naming

  /** The word in front is used up to a position; the rest of it is read next. */
  predicate Cut(input: Tokens, k: nat, rest: Tokens) {
    input.Tok? && input.head.Word? && k <= |input.head.text| && rest == Leftover(input.head.text[k..], input.tail)
  }

  /** All digits from a position on, and no digit after them. */
  predicate Numeral(text: string, from: nat, k: nat) {
    && from < k <= |text| && (k < |text| ==> !IsDigit(text[k]))
    && forall i :: from <= i < k ==> IsDigit(text[i])
  }

  ghost predicate SpellsNumber(n: nat, from: nat, input: Tokens, rest: Tokens) {
    input.Tok? && input.head.Word? && exists k: nat :: SpellsDigits(n, from, k, input, rest)
  }

  ghost predicate SpellsDigits(n: nat, from: nat, k: nat, input: Tokens, rest: Tokens)
    requires input.Tok? && input.head.Word?
  {
    var text := input.head.text;
    Numeral(text, from, k) && Magnitude(text[from..k]) == n && Cut(input, k, rest)
  }

  /** An opening parenthesis and a keyword. */
  predicate Headed(keyword: string, input: Tokens) {
    input.Tok? && input.head.Open? && input.tail.Tok? && input.tail.head == Word(keyword)
  }

  predicate Starts(input: Tokens, head: Token) {
    input.Tok? && input.head == head
  }

  ghost predicate Spells(ops: Table, t: Tree, input: Tokens, rest: Tokens)
    decreases t
  {
    match t
    case Number(n) => n < U64 && SpellsNumber(n, 0, input, rest)
    case Integer(i) =>
      && i <= 0 && -i <= I64 && SpellsNumber(-i, 1, input, rest) && input.head.text[0] == '-'
    case Truth(b) =>
      && Cut(input, if b then 4 else 5, rest)
      && (if b then "true" else "false") <= input.head.text
    case Var(name) => input == Tok(Word(name), rest) && Readable(name)
    case Param(index) =>
      Headed("param", input) && index < U64 && SpellsNumber(index, 0, input.tail.tail, Tok(Close, rest))
    case Operate(op, args) =>
      && Headed(op, input) && op in ops && ops[op] == Count(args)
      && SpellsAll(ops, args, input.tail.tail, Tok(Close, rest))
    case Apply(kind, name, args) =>
      && Headed(kind, input) && kind in ["call", "jmp", "ctor", "extern"] && name != ""
      && Starts(input.tail.tail, if kind == "call" || kind == "jmp" then Word(name) else Quote(name))
      && SpellsAll(ops, args, input.tail.tail.tail, Tok(Close, rest))
    case Let(name, value, body) =>
      && Headed("let", input) && name != "" && Starts(input.tail.tail, Word(name))
      && exists m :: Spells(ops, value, input.tail.tail.tail, m) && Spells(ops, body, m, Tok(Close, rest))
    case Cases(scrut, arms) =>
      && Headed("cases", input)
      && exists m :: Spells(ops, scrut, input.tail.tail, m) && SpellsArms(ops, arms, m, Tok(Close, rest))
    case Project(ty, field, value) =>
      && Headed("proj", input) && ty != "" && field != "" && Starts(input.tail.tail, Quote(ty))
      && Starts(input.tail.tail.tail, Quote(field))
      && Spells(ops, value, input.tail.tail.tail.tail, Tok(Close, rest))
    case Join(name, params, body) =>
      && Headed("jp", input) && name != "" && Starts(input.tail.tail, Word(name))
      && exists m :: SpellsNames(params, input.tail.tail.tail, m) && Spells(ops, body, m, Tok(Close, rest))
    case Unreachable => Headed("unreachable", input) && input.tail.tail == Tok(Close, rest)
    case Opaque(reason) =>
      Headed("opaque", input) && reason != "" && input.tail.tail == Tok(Quote(reason), Tok(Close, rest))
  }

  predicate SpellsNames(names: seq<string>, input: Tokens, rest: Tokens) {
    Idented(names) && input == Tok(Open, Words(names, Tok(Close, rest)))
  }

  ghost predicate SpellsAll(ops: Table, ts: Trees, input: Tokens, rest: Tokens)
    decreases ts
  {
    match ts
    case Nil => input == rest
    case Cons(t, tail) => exists m :: Spells(ops, t, input, m) && SpellsAll(ops, tail, m, rest)
  }

  ghost predicate SpellsArms(ops: Table, arms: Arms, input: Tokens, rest: Tokens)
    decreases arms
  {
    match arms
    case NoMore => input == rest
    case Default(b) =>
      && Starts(input, Open) && input.tail.Tok? && input.tail.head.Word? && "default" <= input.tail.head.text
      && Spells(ops, b, Leftover(input.tail.head.text[7..], input.tail.tail), Tok(Close, rest))
    case Arm(c, bs, b, more) =>
      && Headed("alt", input) && c != "" && Starts(input.tail.tail, Quote(c))
      && exists m, next :: SpellsNames(bs, input.tail.tail.tail, m) && Spells(ops, b, m, Tok(Close, next))
           && SpellsArms(ops, more, next, rest)
  }

  // ---- what is read as an atom ----

  lemma {:induction false} LeadingStops(text: string)
    ensures Leading(text) < |text| ==> !IsDigit(text[Leading(text)])
  {
    if text != "" && IsDigit(text[0]) {
      LeadingStops(text[1..]);
    }
  }

  lemma DigitsSpell(input: Tokens, from: nat, limit: nat)
    requires input.Tok? && input.head.Word? && from <= |input.head.text|
    requires Digits(input.head.text[from..], limit, input.tail).Done?
    ensures var p := Digits(input.head.text[from..], limit, input.tail);
      p.value <= limit && SpellsNumber(p.value, from, input, p.rest)
  {
    var text := input.head.text;
    var tail := text[from..];
    var k := Leading(tail);
    LeadingStops(tail);
    assert tail[..k] == text[from..from + k] && tail[k..] == text[from + k..];
    assert forall i :: from <= i < from + k ==> text[i] == tail[i - from];
    assert SpellsDigits(Magnitude(tail[..k]), from, from + k, input, Leftover(tail[k..], input.tail));
  }

  lemma UnsignedSpells(input: Tokens)
    requires Unsigned(input).Done?
    ensures Unsigned(input).value < U64 && SpellsNumber(Unsigned(input).value, 0, input, Unsigned(input).rest)
  {
    assert input.head.text[0..] == input.head.text;
    DigitsSpell(input, 0, U64 - 1);
  }

  /** A number that is not unsigned is negative, or minus zero. */
  lemma SignedSpells(ops: Table, input: Tokens)
    requires Signed(input).Done? && !Unsigned(input).Done?
    ensures Spells(ops, Integer(Signed(input).value), input, Signed(input).rest)
  {
    var text := input.head.text;
    if text != "" && text[0] == '-' {
      DigitsSpell(input, 1, I64);
    }
  }

  lemma AtomSpells(ops: Table, input: Tokens)
    requires Atom(input).Done?
    ensures Spells(ops, Atom(input).value, input, Atom(input).rest)
    ensures Depth(Atom(input).value) == Recursion(Atom(input).value) == 0
  {
    var text := input.head.text;
    if Unsigned(input).Done? {
      UnsignedSpells(input);
    } else if Signed(input).Done? {
      SignedSpells(ops, input);
    } else if !("true" <= text) && !("false" <= text) {
      VarReadsBack(text, input.tail);
    }
  }

  lemma {:induction false} IdentsSpell(input: Tokens)
    ensures var p := Idents(input); Idented(p.value) && input == Words(p.value, p.rest)
    decreases Weight(input)
  {
    var name := Ident(input);
    if name.Done? {
      IdentsSpell(name.rest);
      var more := Idents(name.rest);
      assert ([name.value] + more.value)[1..] == more.value;
    }
  }

  lemma BindersSpell(input: Tokens)
    requires Binders(input).Done?
    ensures SpellsNames(Binders(input).value, input, Binders(input).rest)
  {
    IdentsSpell(input.tail);
  }

  // ---- what is read as an expression ----

  /** A tree returned for its own tokens, within the budgets. */
  ghost predicate Sound(ops: Table, p: Parsed<Tree>, input: Tokens, depth: nat, recursion: nat) {
    p.Done? ==> Spells(ops, p.value, input, p.rest) && Depth(p.value) <= depth && Recursion(p.value) <= recursion
  }

  ghost predicate SoundAll(ops: Table, p: Parsed<Trees>, input: Tokens, depth: nat, recursion: nat) {
    p.Done? ==>
      && SpellsAll(ops, p.value, input, p.rest)
      && DepthAll(p.value) <= depth && RecursionAll(p.value) <= recursion
  }

  ghost predicate SoundArms(ops: Table, p: Parsed<Arms>, input: Tokens, depth: nat, recursion: nat) {
    p.Done? ==>
      && SpellsArms(ops, p.value, input, p.rest)
      && DepthArms(p.value) <= depth && RecursionArms(p.value) <= recursion
  }

  /** Whatever the parser accepts is a spelling of the tree it returns, nested no deeper than
      its budgets. */
  lemma {:induction false} AcceptedSpells(ops: Table, input: Tokens, depth: nat, recursion: nat)
    ensures Sound(ops, Descend(ops, input, depth, recursion), input, depth, recursion)
    decreases Weight(input), 3
  {
    if LetPrefix(input) {
      LetSpells(ops, input, depth, recursion);
    } else if input.Tok? && input.head.Open? {
      if depth > 0 && recursion > 0 {
        ParenSpells(ops, input, depth - 1, recursion - 1);
      }
    } else if Atom(input).Done? {
      AtomSpells(ops, input);
    }
  }

  lemma {:induction false} LetSpells(ops: Table, input: Tokens, depth: nat, recursion: nat)
    requires LetPrefix(input)
    ensures Sound(ops, Descend(ops, input, depth, recursion), input, depth, recursion)
    decreases Weight(input), 2
  {
    var p := Descend(ops, input, depth, recursion);
    if p.Done? {
      var head := LetHead(ops, input, depth, recursion);
      var name := Ident(input.tail.tail);
      assert Weight(input.tail.tail) < Weight(input.tail) < Weight(input);
      AcceptedSpells(ops, name.rest, depth - 1, recursion - 1);
      AcceptedSpells(ops, head.rest, depth - 1, recursion);
      LetSpelled(ops, input, depth, recursion);
    }
  }

  lemma LetSpelled(ops: Table, input: Tokens, depth: nat, recursion: nat)
    requires LetPrefix(input) && Descend(ops, input, depth, recursion).Done?
    requires var head := LetHead(ops, input, depth, recursion);
      && Sound(ops, Descend(ops, Ident(input.tail.tail).rest, depth - 1, recursion - 1), Ident(input.tail.tail).rest,
               depth - 1, recursion - 1)
      && Sound(ops, Descend(ops, head.rest, depth - 1, recursion), head.rest, depth - 1, recursion)
    ensures Sound(ops, Descend(ops, input, depth, recursion), input, depth, recursion)
  {
    var p := Descend(ops, input, depth, recursion);
    var head := LetHead(ops, input, depth, recursion);
    var body := Descend(ops, head.rest, depth - 1, recursion);
    assert Spells(ops, head.value.value, input.tail.tail.tail, head.rest);
    assert body.rest == Tok(Close, p.rest) && Spells(ops, body.value, head.rest, Tok(Close, p.rest));
    assert p.value == Let(head.value.name, head.value.value, body.value);
  }

  /** A form, once its closing parenthesis follows, with what it nests counted without its own. */
  ghost predicate SoundForm(ops: Table, op: string, p: Parsed<Tree>, input: Tokens, depth: nat, recursion: nat) {
    p.Done? && Starts(p.rest, Close) ==>
      && Spells(ops, p.value, Form1(op, input), p.rest.tail)
      && Depth(p.value) <= depth + 1 && Recursion(p.value) <= recursion + 1
  }

  lemma {:induction false} ParenSpells(ops: Table, input: Tokens, depth: nat, recursion: nat)
    requires input.Tok? && input.head.Open? && !LetPrefix(input)
    ensures Sound(ops, Descend(ops, input, depth + 1, recursion + 1), input, depth + 1, recursion + 1)
    decreases Weight(input), 2
  {
    var op := Ident(input.tail);
    assert Descend(ops, input, depth + 1, recursion + 1) == Paren(ops, input.tail, depth, recursion);
    if op.Done? {
      assert input == Form1(op.value, op.rest);
      assert Weight(op.rest) < Weight(input.tail) < Weight(input);
      if op.value in ops {
        FixedSpells(ops, ops[op.value], op.rest, depth, recursion);
        OperationSpelled(ops, op.value, op.rest, depth, recursion);
      } else {
        FormSpells(ops, op.value, op.rest, depth, recursion);
        assert Paren(ops, input.tail, depth, recursion) == Closing(Form(ops, op.value, op.rest, depth, recursion));
      }
    }
  }

  lemma OperationSpelled(ops: Table, op: string, input: Tokens, depth: nat, recursion: nat)
    requires op in ops && Fixed(ops, ops[op], input, depth, recursion).Done? ==>
      Count(Fixed(ops, ops[op], input, depth, recursion).value) == ops[op]
    requires op in ops && SoundAll(ops, Fixed(ops, ops[op], input, depth, recursion), input, depth, recursion)
    ensures SoundForm(ops, op, Operation(ops, op, ops[op], input, depth, recursion), input, depth, recursion)
  {
    var args := Fixed(ops, ops[op], input, depth, recursion);
    if args.Done? && Starts(args.rest, Close) {
      assert args.rest == Tok(Close, args.rest.tail);
      assert SpellsAll(ops, args.value, input, Tok(Close, args.rest.tail));
    }
  }

  lemma {:induction false} FixedSpells(ops: Table, k: nat, input: Tokens, depth: nat, recursion: nat)
    ensures var p := Fixed(ops, k, input, depth, recursion);
      SoundAll(ops, p, input, depth, recursion) && (p.Done? ==> Count(p.value) == k)
    decreases Weight(input), 5, k
  {
    var p := Fixed(ops, k, input, depth, recursion);
    if p.Done? && k > 0 {
      var first := Descend(ops, input, depth, recursion);
      AcceptedSpells(ops, input, depth, recursion);
      FixedSpells(ops, k - 1, first.rest, depth, recursion);
      var more := Fixed(ops, k - 1, first.rest, depth, recursion);
      assert Spells(ops, first.value, input, first.rest) && SpellsAll(ops, more.value, first.rest, more.rest);
    }
  }

  lemma {:induction false} ManySpells(ops: Table, input: Tokens, depth: nat, recursion: nat)
    ensures SoundAll(ops, Many(ops, input, depth, recursion), input, depth, recursion)
    decreases Weight(input), 4
  {
    var p := Many(ops, input, depth, recursion);
    var first := Descend(ops, input, depth, recursion);
    if p.Done? && first.Done? {
      AcceptedSpells(ops, input, depth, recursion);
      ManySpells(ops, first.rest, depth, recursion);
      var more := Many(ops, first.rest, depth, recursion);
      assert Spells(ops, first.value, input, first.rest) && SpellsAll(ops, more.value, first.rest, more.rest);
    }
  }

  lemma {:induction false} FormSpells(ops: Table, op: string, input: Tokens, depth: nat, recursion: nat)
    ensures SoundForm(ops, op, Form(ops, op, input, depth, recursion), input, depth, recursion)
    decreases Weight(input), 5
  {
    if op == "call" || op == "jmp" {
      ApplicationSpells(ops, op, Ident(input), input, depth, recursion);
    } else if op == "ctor" || op == "extern" {
      ApplicationSpells(ops, op, QuotedIdent(input), input, depth, recursion);
    } else if op == "cases" {
      CasesSpells(ops, input, depth, recursion);
    } else if op == "proj" {
      ProjectionSpells(ops, input, depth, recursion);
    } else if op == "jp" {
      JoinSpells(ops, input, depth, recursion);
    } else {
      PlainSpells(ops, op, input, depth, recursion);
    }
  }

  /** Forms without expressions in them. */
  lemma PlainSpells(ops: Table, op: string, input: Tokens, depth: nat, recursion: nat)
    requires op !in ["call", "jmp", "ctor", "extern", "cases", "proj", "jp"]
    ensures SoundForm(ops, op, Form(ops, op, input, depth, recursion), input, depth, recursion)
  {
    if op == "param" && Unsigned(input).Done? {
      UnsignedSpells(input);
    }
  }

  lemma {:induction false} ApplicationSpells(
      ops: Table, kind: string, name: Parsed<string>, input: Tokens, depth: nat, recursion: nat)
    requires kind in ["call", "jmp", "ctor", "extern"]
    requires name == if kind == "call" || kind == "jmp" then Ident(input) else QuotedIdent(input)
    ensures SoundForm(ops, kind, Application(ops, kind, name, input, depth, recursion), input, depth, recursion)
    decreases Weight(input), 4
  {
    if name.Done? {
      ManySpells(ops, name.rest, depth, recursion);
      var args := Many(ops, name.rest, depth, recursion);
      if args.Done? && Starts(args.rest, Close) {
        assert args.rest == Tok(Close, args.rest.tail);
        assert SpellsAll(ops, args.value, name.rest, Tok(Close, args.rest.tail));
      }
    }
  }

  lemma CasesSpelled(ops: Table, scrut: Tree, arms: Arms, input: Tokens, m: Tokens, rest: Tokens)
    requires Spells(ops, scrut, input, m) && SpellsArms(ops, arms, m, Tok(Close, rest))
    ensures Spells(ops, Cases(scrut, arms), Form1("cases", input), rest)
  {}

  lemma CasesForm(ops: Table, input: Tokens, depth: nat, recursion: nat)
    requires Form(ops, "cases", input, depth, recursion).Done?
    ensures var scrut := Descend(ops, input, depth, recursion);
      && scrut.Done? && Alternatives(ops, scrut.rest, depth, recursion).Done?
      && var arms := Alternatives(ops, scrut.rest, depth, recursion);
         Form(ops, "cases", input, depth, recursion) == Done(Cases(scrut.value, arms.value), arms.rest)
  {}

  lemma {:induction false} CasesSpells(ops: Table, input: Tokens, depth: nat, recursion: nat)
    ensures SoundForm(ops, "cases", Form(ops, "cases", input, depth, recursion), input, depth, recursion)
    decreases Weight(input), 4
  {
    var p := Form(ops, "cases", input, depth, recursion);
    if p.Done? && Starts(p.rest, Close) {
      CasesForm(ops, input, depth, recursion);
      var scrut := Descend(ops, input, depth, recursion);
      AcceptedSpells(ops, input, depth, recursion);
      AlternativesSpell(ops, scrut.rest, depth, recursion);
      var arms := Alternatives(ops, scrut.rest, depth, recursion);
      assert arms.rest == Tok(Close, p.rest.tail);
      CasesSpelled(ops, scrut.value, arms.value, input, scrut.rest, p.rest.tail);
    }
  }

  lemma {:induction false} ProjectionSpells(ops: Table, input: Tokens, depth: nat, recursion: nat)
    ensures SoundForm(ops, "proj", Projection(ops, input, depth, recursion), input, depth, recursion)
    decreases Weight(input), 4
  {
    var ty := QuotedIdent(input);
    if ty.Done? && QuotedIdent(ty.rest).Done? {
      var field := QuotedIdent(ty.rest);
      AcceptedSpells(ops, field.rest, depth, recursion);
      var value := Descend(ops, field.rest, depth, recursion);
      if value.Done? && Starts(value.rest, Close) {
        assert value.rest == Tok(Close, value.rest.tail);
      }
    }
  }

  lemma {:induction false} JoinSpells(ops: Table, input: Tokens, depth: nat, recursion: nat)
    ensures SoundForm(ops, "jp", JoinPoint(ops, input, depth, recursion), input, depth, recursion)
    decreases Weight(input), 4
  {
    var name := Ident(input);
    if name.Done? && Binders(name.rest).Done? {
      var params := Binders(name.rest);
      BindersSpell(name.rest);
      AcceptedSpells(ops, params.rest, depth, recursion);
      var body := Descend(ops, params.rest, depth, recursion);
      if body.Done? && Starts(body.rest, Close) {
        assert body.rest == Tok(Close, body.rest.tail);
        assert SpellsNames(params.value, name.rest, params.rest);
        assert Spells(ops, body.value, params.rest, Tok(Close, body.rest.tail));
      }
    }
  }

  lemma {:induction false} AlternativesSpell(ops: Table, input: Tokens, depth: nat, recursion: nat)
    ensures SoundArms(ops, Alternatives(ops, input, depth, recursion), input, depth, recursion)
    decreases Weight(input), 4
  {
    var first := Alternative(ops, input, depth, recursion);
    if first.Error? {
      if Otherwise(ops, input, depth, recursion).Done? {
        OtherwiseSpells(ops, input, depth, recursion);
      }
    } else if first.Done? {
      AlternativeSpells(ops, input, depth, recursion);
      AlternativesSpell(ops, first.rest, depth, recursion);
    }
  }

  lemma {:induction false} OtherwiseSpells(ops: Table, input: Tokens, depth: nat, recursion: nat)
    requires Otherwise(ops, input, depth, recursion).Done?
    ensures var p := Otherwise(ops, input, depth, recursion);
      SpellsArms(ops, Default(p.value), input, p.rest) && Depth(p.value) <= depth && Recursion(p.value) <= recursion
    decreases Weight(input), 3
  {
    var text := input.tail.head.text;
    assert Weight(input.tail) == 1 + |text| + Weight(input.tail.tail);
    var inner := Leftover(text[7..], input.tail.tail);
    AcceptedSpells(ops, inner, depth, recursion);
    var body := Descend(ops, inner, depth, recursion);
    assert body.rest == Tok(Close, body.rest.tail);
  }

  /** One alternative: its binders, its body, and what follows it. */
  lemma {:induction false} AlternativeSpells(ops: Table, input: Tokens, depth: nat, recursion: nat)
    requires Alternative(ops, input, depth, recursion).Done?
    ensures var p := Alternative(ops, input, depth, recursion);
      && Headed("alt", input) && p.value.ctor != "" && Starts(input.tail.tail, Quote(p.value.ctor))
      && (exists m :: SpellsNames(p.value.binders, input.tail.tail.tail, m)
            && Spells(ops, p.value.body, m, Tok(Close, p.rest)))
      && Depth(p.value.body) <= depth && Recursion(p.value.body) <= recursion
    decreases Weight(input), 3
  {
    var ctor := QuotedIdent(input.tail.tail);
    assert Weight(ctor.rest) < Weight(input.tail.tail) < Weight(input.tail) < Weight(input);
    var binders := Binders(ctor.rest);
    BindersSpell(ctor.rest);
    AcceptedSpells(ops, binders.rest, depth, recursion);
    var body := Descend(ops, binders.rest, depth, recursion);
    assert body.rest == Tok(Close, body.rest.tail);
    assert SpellsNames(binders.value, input.tail.tail.tail, binders.rest);
  }

  // ---- every spelling is read ----

  lemma {:induction false} NumeralLeads(text: string, k: nat)
    requires Numeral(text, 0, k)
    ensures Leading(text) == k
    decreases |text|
  {
    if k == 1 {
      assert |text| > 1 ==> text[1..][0] == text[1];
    } else {
      assert forall i :: 0 <= i < k - 1 ==> text[1..][i] == text[i + 1];
      NumeralLeads(text[1..], k - 1);
    }
  }

  lemma NumeralShifts(text: string, from: nat, k: nat)
    requires Numeral(text, from, k)
    ensures Leading(text[from..]) == k - from
  {
    var tail := text[from..];
    assert forall i :: 0 <= i < |tail| ==> tail[i] == text[from + i];
    NumeralLeads(tail, k - from);
  }

  lemma DigitsRead(n: nat, from: nat, input: Tokens, rest: Tokens, limit: nat)
    requires input.Tok? && input.head.Word? && from <= |input.head.text| && n <= limit
    requires SpellsNumber(n, from, input, rest)
    ensures Digits(input.head.text[from..], limit, input.tail) == Done(n, rest)
  {
    var text := input.head.text;
    var k: nat :| SpellsDigits(n, from, k, input, rest);
    NumeralShifts(text, from, k);
    var tail := text[from..];
    assert tail[..k - from] == text[from..k] && tail[k - from..] == text[k..];
  }

  lemma UnsignedRead(n: nat, input: Tokens, rest: Tokens)
    requires n < U64 && SpellsNumber(n, 0, input, rest)
    ensures Unsigned(input) == Done(n, rest)
  {
    assert input.head.text[0..] == input.head.text;
    DigitsRead(n, 0, input, rest, U64 - 1);
  }

  predicate Atomic(t: Tree) {
    t.Number? || t.Integer? || t.Truth? || t.Var?
  }

  lemma AtomRead(ops: Table, t: Tree, input: Tokens, rest: Tokens)
    requires Atomic(t) && Spells(ops, t, input, rest)
    ensures input.Tok? && input.head.Word? && Atom(input) == Done(t, rest)
  {
    var text := input.head.text;
    match t
    case Number(n) => UnsignedRead(n, input, rest);
    case Integer(i) =>
      DigitsRead(-i, 1, input, rest, I64);
      assert Leading(text) == 0;
    case Truth(b) =>
      assert text[0] == if b then 't' else 'f';
      assert Leading(text) == 0;
    case Var(name) => VarReadsBack(name, rest);
  }

  /** A tree that is spelled is read from its spelling, or refused as too large. */
  ghost predicate Read(ops: Table, t: Tree, input: Tokens, rest: Tokens, d: nat, r: nat) {
    Descend(ops, input, d, r) == Budgeted(t, rest, Depth(t), Recursion(t), d, r)
  }

  lemma {:induction false} SpellingRead(ops: Table, t: Tree, input: Tokens, rest: Tokens, d: nat, r: nat)
    requires Proper(ops) && Spells(ops, t, input, rest)
    ensures Read(ops, t, input, rest, d, r)
    decreases t, 2
  {
    if Atomic(t) {
      AtomRead(ops, t, input, rest);
    } else if t.Let? {
      LetRead(ops, t, input, rest, d, r);
    } else {
      assert !LetPrefix(input) && input.head.Open?;
      if d > 0 && r > 0 {
        ParenRead(ops, t, input, rest, d - 1, r - 1);
      }
    }
  }

  lemma {:induction false} LetRead(ops: Table, t: Tree, input: Tokens, rest: Tokens, d: nat, r: nat)
    requires Proper(ops) && t.Let? && Spells(ops, t, input, rest)
    ensures Read(ops, t, input, rest, d, r)
    decreases t, 1
  {
    var after := input.tail.tail.tail;
    var m :| Spells(ops, t.value, after, m) && Spells(ops, t.body, m, Tok(Close, rest));
    if d == 0 || r == 0 {
      LetRefused(ops, t, input, rest, d, r);
    } else {
      SpellingRead(ops, t.value, after, m, d - 1, r - 1);
      SpellingRead(ops, t.body, m, Tok(Close, rest), d - 1, r);
      LetReads(ops, t, input, m, rest, d, r);
    }
  }

  lemma LetRefused(ops: Table, t: Tree, input: Tokens, rest: Tokens, d: nat, r: nat)
    requires t.Let? && LetPrefix(input) && (d == 0 || r == 0)
    ensures Read(ops, t, input, rest, d, r)
  {
    assert LetHead(ops, input, d, r) == TooLarge;
  }

  lemma LetReads(ops: Table, t: Tree, input: Tokens, m: Tokens, rest: Tokens, d: nat, r: nat)
    requires t.Let? && LetPrefix(input) && t.name != "" && Starts(input.tail.tail, Word(t.name)) && d > 0 && r > 0
    requires Read(ops, t.value, input.tail.tail.tail, m, d - 1, r - 1)
    requires Read(ops, t.body, m, Tok(Close, rest), d - 1, r)
    ensures Read(ops, t, input, rest, d, r)
  {
    assert Ident(input.tail.tail) == Done(t.name, input.tail.tail.tail);
  }

  lemma {:induction false} ParenRead(ops: Table, t: Tree, input: Tokens, rest: Tokens, d: nat, r: nat)
    requires Proper(ops) && !Atomic(t) && !t.Let? && Spells(ops, t, input, rest)
    ensures Paren(ops, input.tail, d, r) == Budgeted(t, rest, Depth(t), Recursion(t), d + 1, r + 1)
    decreases t, 1
  {
    var inner, closed := input.tail.tail, Tok(Close, rest);
    match t
    case Param(index) => UnsignedRead(index, inner, closed);
    case Operate(op, args) => FixedRead(ops, ops[op], args, inner, closed, d, r);
    case Apply(kind, name, args) =>
      ManyRead(ops, args, inner.tail, closed, d, r);
      ApplyRead(ops, t, input, rest, d, r);
    case Cases(_, _) => CasesRead(ops, t, input, rest, d, r);
    case Project(_, _, value) =>
      SpellingRead(ops, value, inner.tail.tail, closed, d, r);
      ProjectRead(ops, t, input, rest, d, r);
    case Join(_, _, _) => JoinRead(ops, t, input, rest, d, r);
    case Unreachable =>
    case Opaque(_) =>
  }

  lemma ApplyRead(ops: Table, t: Tree, input: Tokens, rest: Tokens, d: nat, r: nat)
    requires Proper(ops) && t.Apply? && Spells(ops, t, input, rest)
    requires Many(ops, input.tail.tail.tail, d, r)
          == Budgeted(t.args, Tok(Close, rest), DepthAll(t.args), RecursionAll(t.args), d, r)
    ensures Paren(ops, input.tail, d, r) == Budgeted(t, rest, Depth(t), Recursion(t), d + 1, r + 1)
  {
    var inner := input.tail.tail;
    var name := if t.kind == "call" || t.kind == "jmp" then Ident(inner) else QuotedIdent(inner);
    assert name == Done(t.name, inner.tail);
    assert Form(ops, t.kind, inner, d, r) == Application(ops, t.kind, name, inner, d, r);
  }

  lemma ProjectRead(ops: Table, t: Tree, input: Tokens, rest: Tokens, d: nat, r: nat)
    requires Proper(ops) && t.Project? && Spells(ops, t, input, rest)
    requires Read(ops, t.value, input.tail.tail.tail.tail, Tok(Close, rest), d, r)
    ensures Paren(ops, input.tail, d, r) == Budgeted(t, rest, Depth(t), Recursion(t), d + 1, r + 1)
  {
    var inner := input.tail.tail;
    assert Form(ops, "proj", inner, d, r) == Projection(ops, inner, d, r);
  }

  lemma {:induction false} CasesRead(ops: Table, t: Tree, input: Tokens, rest: Tokens, d: nat, r: nat)
    requires Proper(ops) && t.Cases? && Spells(ops, t, input, rest)
    ensures Paren(ops, input.tail, d, r) == Budgeted(t, rest, Depth(t), Recursion(t), d + 1, r + 1)
    decreases t, 0
  {
    var inner, closed := input.tail.tail, Tok(Close, rest);
    var m :| Spells(ops, t.scrut, inner, m) && SpellsArms(ops, t.arms, m, closed);
    SpellingRead(ops, t.scrut, inner, m, d, r);
    ArmsRead(ops, t.arms, m, closed, d, r);
    CasesReads(ops, t, input, m, rest, d, r);
  }

  lemma CasesReads(ops: Table, t: Tree, input: Tokens, m: Tokens, rest: Tokens, d: nat, r: nat)
    requires Proper(ops) && t.Cases? && Headed("cases", input) && Read(ops, t.scrut, input.tail.tail, m, d, r)
    requires Alternatives(ops, m, d, r)
          == Budgeted(t.arms, Tok(Close, rest), DepthArms(t.arms), RecursionArms(t.arms), d, r)
    ensures Paren(ops, input.tail, d, r) == Budgeted(t, rest, Depth(t), Recursion(t), d + 1, r + 1)
  {
    var inner := input.tail.tail;
    assert Ident(input.tail) == Done("cases", inner);
    assert Paren(ops, input.tail, d, r) == Closing(Form(ops, "cases", inner, d, r));
  }

  lemma {:induction false} JoinRead(ops: Table, t: Tree, input: Tokens, rest: Tokens, d: nat, r: nat)
    requires Proper(ops) && t.Join? && Spells(ops, t, input, rest)
    ensures Paren(ops, input.tail, d, r) == Budgeted(t, rest, Depth(t), Recursion(t), d + 1, r + 1)
    decreases t, 0
  {
    var inner, closed := input.tail.tail, Tok(Close, rest);
    var m :| SpellsNames(t.params, inner.tail, m) && Spells(ops, t.body, m, closed);
    BindersRead(t.params, m);
    SpellingRead(ops, t.body, m, closed, d, r);
    assert Form(ops, "jp", inner, d, r) == JoinPoint(ops, inner, d, r);
  }

  lemma {:induction false} FixedRead(ops: Table, k: nat, ts: Trees, input: Tokens, rest: Tokens, d: nat, r: nat)
    requires Proper(ops) && SpellsAll(ops, ts, input, rest) && k == Count(ts)
    ensures Fixed(ops, k, input, d, r) == Budgeted(ts, rest, DepthAll(ts), RecursionAll(ts), d, r)
    decreases ts, 0
  {
    match ts
    case Nil =>
    case Cons(t, tail) =>
      var m :| Spells(ops, t, input, m) && SpellsAll(ops, tail, m, rest);
      SpellingRead(ops, t, input, m, d, r);
      FixedRead(ops, k - 1, tail, m, rest, d, r);
      FixedStep(ops, k - 1, input, t, m, tail, rest, d, r,
                Depth(t), Recursion(t), DepthAll(tail), RecursionAll(tail));
  }

  lemma {:induction false} ManyRead(ops: Table, ts: Trees, input: Tokens, rest: Tokens, d: nat, r: nat)
    requires Proper(ops) && SpellsAll(ops, ts, input, rest) && Starts(rest, Close)
    ensures Many(ops, input, d, r) == Budgeted(ts, rest, DepthAll(ts), RecursionAll(ts), d, r)
    decreases ts, 0
  {
    if ts.Cons? {
      var m :| Spells(ops, ts.head, input, m) && SpellsAll(ops, ts.tail, m, rest);
      SpellingRead(ops, ts.head, input, m, d, r);
      ManyRead(ops, ts.tail, m, rest, d, r);
    }
  }

  lemma {:induction false} ArmsRead(ops: Table, arms: Arms, input: Tokens, rest: Tokens, d: nat, r: nat)
    requires Proper(ops) && SpellsArms(ops, arms, input, rest) && Starts(rest, Close)
    ensures Alternatives(ops, input, d, r) == Budgeted(arms, rest, DepthArms(arms), RecursionArms(arms), d, r)
    decreases arms, 0
  {
    match arms
    case NoMore =>
    case Default(b) =>
      var text := input.tail.head.text;
      assert "default"[0] != "alt"[0];
      assert Alternative(ops, input, d, r).Error?;
      SpellingRead(ops, b, Leftover(text[7..], input.tail.tail), Tok(Close, rest), d, r);
    case Arm(c, bs, b, more) =>
      var m, next :| SpellsNames(bs, input.tail.tail.tail, m) && Spells(ops, b, m, Tok(Close, next))
        && SpellsArms(ops, more, next, rest);
      BindersRead(bs, m);
      SpellingRead(ops, b, m, Tok(Close, next), d, r);
      ArmRead(ops, arms, input, m, next, d, r);
      ArmsRead(ops, more, next, rest, d, r);
  }

  lemma ArmRead(ops: Table, arms: Arms, input: Tokens, m: Tokens, next: Tokens, d: nat, r: nat)
    requires arms.Arm? && Headed("alt", input) && arms.ctor != "" && Starts(input.tail.tail, Quote(arms.ctor))
    requires Binders(input.tail.tail.tail) == Done(arms.binders, m) && Read(ops, arms.body, m, Tok(Close, next), d, r)
    ensures Alternative(ops, input, d, r)
         == Budgeted(Single(arms.ctor, arms.binders, arms.body), next, Depth(arms.body), Recursion(arms.body), d, r)
  {
    assert QuotedIdent(input.tail.tail) == Done(arms.ctor, input.tail.tail.tail);
  }

  /** The parser returns exactly the trees that the tokens in front spell and the budgets allow. */
  lemma ReadsExactly(ops: Table, t: Tree, input: Tokens, rest: Tokens, depth: nat, recursion: nat)
    requires Proper(ops)
    ensures Descend(ops, input, depth, recursion) == Done(t, rest)
       <==> Spells(ops, t, input, rest) && Depth(t) <= depth && Recursion(t) <= recursion
  {
    AcceptedSpells(ops, input, depth, recursion);
    if Spells(ops, t, input, rest) {
      SpellingRead(ops, t, input, rest, depth, recursion);
    }
  }

  // ---- renderings are spellings ----

  lemma NumberSpelled(n: nat, input: Tokens, from: nat, rest: Tokens)
    requires input.Tok? && input.head.Word? && input.tail == rest
    requires from <= |input.head.text| && input.head.text[from..] == Naming.Decimal(n)
    ensures SpellsNumber(n, from, input, rest)
  {
    var text := input.head.text;
    var s := text[from..];
    DecimalReads(n);
    assert text[from..|text|] == s && text[|text|..] == "";
    assert forall i :: from <= i < |text| ==> text[i] == s[i - from];
    assert SpellsDigits(n, from, |text|, input, rest);
  }

  lemma AtomSpelled(ops: Table, t: Tree, rest: Tokens)
    requires Atomic(t) && WellFormed(ops, t)
    ensures Spells(ops, t, Render(t, rest), rest)
  {
    var input := Render(t, rest);
    match t
    case Number(n) =>
      assert input.head.text[0..] == Naming.Decimal(n);
      NumberSpelled(n, input, 0, rest);
    case Integer(i) =>
      assert input.head.text[1..] == Naming.Decimal(-i);
      NumberSpelled(-i, input, 1, rest);
    case Truth(b) => assert (if b then "true"[4..] else "false"[5..]) == "";
    case Var(_) =>
  }

  lemma {:induction false} RenderSpells(ops: Table, t: Tree, rest: Tokens)
    requires WellFormed(ops, t)
    ensures Spells(ops, t, Render(t, rest), rest)
    decreases t
  {
    var closed := Tok(Close, rest);
    match t
    case Number(_) => AtomSpelled(ops, t, rest);
    case Integer(_) => AtomSpelled(ops, t, rest);
    case Truth(_) => AtomSpelled(ops, t, rest);
    case Var(_) => AtomSpelled(ops, t, rest);
    case Param(index) =>
      var input := Tok(Word(Naming.Decimal(index)), closed);
      assert input.head.text[0..] == Naming.Decimal(index);
      NumberSpelled(index, input, 0, closed);
    case Operate(_, args) => RenderSpellsAll(ops, args, closed);
    case Apply(_, _, args) => RenderSpellsAll(ops, args, closed);
    case Let(_, value, body) =>
      RenderSpells(ops, value, Render(body, closed));
      RenderSpells(ops, body, closed);
    case Cases(scrut, arms) =>
      RenderSpells(ops, scrut, RenderArms(arms, closed));
      RenderSpellsArms(ops, arms, closed);
    case Project(_, _, value) => RenderSpells(ops, value, closed);
    case Join(_, params, body) =>
      RenderSpells(ops, body, closed);
      assert SpellsNames(params, Tok(Open, Words(params, Tok(Close, Render(body, closed)))), Render(body, closed));
    case Unreachable =>
    case Opaque(_) =>
  }

  lemma {:induction false} RenderSpellsAll(ops: Table, ts: Trees, rest: Tokens)
    requires WellFormedAll(ops, ts)
    ensures SpellsAll(ops, ts, RenderAll(ts, rest), rest)
    decreases ts
  {
    match ts
    case Nil =>
    case Cons(t, tail) =>
      RenderSpells(ops, t, RenderAll(tail, rest));
      RenderSpellsAll(ops, tail, rest);
  }

  lemma {:induction false} RenderSpellsArms(ops: Table, arms: Arms, rest: Tokens)
    requires WellFormedArms(ops, arms)
    ensures SpellsArms(ops, arms, RenderArms(arms, rest), rest)
    decreases arms
  {
    match arms
    case NoMore =>
    case Default(b) =>
      RenderSpells(ops, b, Tok(Close, rest));
      assert "default"[7..] == "";
    case Arm(_, bs, b, more) =>
      var next := RenderArms(more, rest);
      var m := Render(b, Tok(Close, next));
      RenderSpells(ops, b, Tok(Close, next));
      RenderSpellsArms(ops, more, rest);
      assert SpellsNames(bs, Tok(Open, Words(bs, Tok(Close, m))), m);
  }

  /** The rendering of a tree is read back as that tree when its parentheses nest at most `d`
      deep and its recursion, let bodies aside, at most `r` deep; otherwise parsing fails with
      `TooLarge`. */
  lemma RoundTrip(ops: Table, t: Tree, rest: Tokens, d: nat, r: nat)
    requires Proper(ops) && WellFormed(ops, t)
    ensures Descend(ops, Render(t, rest), d, r) == Budgeted(t, rest, Depth(t), Recursion(t), d, r)
  {
    RenderSpells(ops, t, rest);
    SpellingRead(ops, t, Render(t, rest), rest, d, r);
  }

  /** No two trees render alike. */
  lemma RenderInjective(ops: Table, t: Tree, u: Tree, rest: Tokens)
    requires Proper(ops) && WellFormed(ops, t) && WellFormed(ops, u) && Render(t, rest) == Render(u, rest)
    ensures t == u
  {
    var d, r := Max(Depth(t), Depth(u)), Max(Recursion(t), Recursion(u));
    RoundTrip(ops, t, rest, d, r);
    RoundTrip(ops, u, rest, d, r);
  }

  /** `n` nested lets over an atom. */
  function Spine(n: nat): Tree {
    if n == 0 then Number(0) else Let("x", Number(0), Spine(n - 1))
  }

  /** A let spine is limited by the depth budget alone. */
  lemma {:induction false} SpineCost(ops: Table, n: nat)
    ensures WellFormed(ops, Spine(n)) && Depth(Spine(n)) == n && Recursion(Spine(n)) == if n == 0 then 0 else 1
  {
    if n > 0 {
      SpineCost(ops, n - 1);
    }
  }

  lemma SpineLimit(ops: Table, n: nat, rest: Tokens)
    requires Proper(ops)
    ensures Descend(ops, Render(Spine(n), rest), MAX_EXPRESSION_DEPTH, MAX_RECURSIVE_DEPTH)
         == if n <= 4096 then Done(Spine(n), rest) else TooLarge
  {
    SpineCost(ops, n);
    RoundTrip(ops, Spine(n), rest, MAX_EXPRESSION_DEPTH, MAX_RECURSIVE_DEPTH);
  }
}
