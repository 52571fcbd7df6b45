/** The token stream that the parser writes and the evaluator walks: a flat sequence of 16-bit
    units. `Item` and `Expr` are its grammar, read off the layout comments of `ProToken`;
    `EncItems` and `EncExpr` lay a tree out as units. */
module ProTokens {

  type Unit = x: int | 0 <= x < 0x10000

  type Chars = seq<Unit>

  /** Text whose length fits the single unit in which the stream stores it. */
  type Text = s: seq<Unit> | |s| < 0x10000

  const TERMINATOR: Unit := 0
  const LINE: Unit := 1
  const ASSIGN: Unit := 2
  const APPEND: Unit := 3
  const APPEND_UNIQUE: Unit := 4
  const REMOVE: Unit := 5
  const REPLACE: Unit := 6
  const VALUE_TERMINATOR: Unit := 7
  const LITERAL: Unit := 8
  const HASH_LITERAL: Unit := 9
  const VARIABLE: Unit := 10
  const PROPERTY: Unit := 11
  const ENV_VAR: Unit := 12
  const FUNC_NAME: Unit := 13
  const ARG_SEPARATOR: Unit := 14
  const FUNC_TERMINATOR: Unit := 15
  const CONDITION: Unit := 16
  const TEST_CALL: Unit := 17
  const RETURN: Unit := 18
  const BREAK: Unit := 19
  const NEXT: Unit := 20
  const NOT: Unit := 21
  const AND: Unit := 22
  const OR: Unit := 23
  const BRANCH: Unit := 24
  const FOR_LOOP: Unit := 25
  const TEST_DEF: Unit := 26
  const REPLACE_DEF: Unit := 27
  const BYPASS_NESTING: Unit := 28

  const MASK := 0x100

  /** The two flag bits TokQuoted (1) and TokNewStr (2) above the token mask. */
  type Flags = f: int | 0 <= f < 4

  const PLAIN: Flags := 0
  const FRESH: Flags := 2

  function Tok(base: Unit, flags: Flags): Unit
    requires base < MASK
  {
    base + MASK * flags
  }

  type StrTok = t: Unit | t == LITERAL || t == ENV_VAR witness LITERAL
  type HashTok = t: Unit | t == HASH_LITERAL || t == VARIABLE || t == PROPERTY witness HASH_LITERAL

  /** An expansion list: the elements up to (excluding) the token that ends it. */
  datatype Expr =
    | End
    | LineMark(n: Unit, rest: Expr)
    | Str(str: StrTok, flags: Flags, text: Text, rest: Expr)
    | Hashed(hashed: HashTok, flags: Flags, h0: Unit, h1: Unit, text: Text, rest: Expr)
    | Func(flags: Flags, h0: Unit, h1: Unit, text: Text, args: Expr, rest: Expr)
    | Sep(rest: Expr)

  function EncText(s: Text): (r: seq<Unit>) { [|s|] + s }

  function EncHash(h0: Unit, h1: Unit, s: Text): (r: seq<Unit>) { [h0, h1] + EncText(s) }

  function EncExpr(e: Expr): (r: seq<Unit>) {
    match e
    case End => []
    case LineMark(n, rest) => [LINE, n] + EncExpr(rest)
    case Str(t, f, s, rest) => [Tok(t, f)] + EncText(s) + EncExpr(rest)
    case Hashed(t, f, h0, h1, s, rest) => [Tok(t, f)] + EncHash(h0, h1, s) + EncExpr(rest)
    case Func(f, h0, h1, s, args, rest) =>
      [Tok(FUNC_NAME, f)] + EncHash(h0, h1, s) + EncExpr(args) + [FUNC_TERMINATOR] + EncExpr(rest)
    case Sep(rest) => [ARG_SEPARATOR] + EncExpr(rest)
  }

  /** The number of argument separators at the outer level of `e`. */
  function Seps(e: Expr): nat {
    match e
    case End => 0
    case LineMark(_, rest) => Seps(rest)
    case Str(_, _, _, rest) => Seps(rest)
    case Hashed(_, _, _, _, _, rest) => Seps(rest)
    case Func(_, _, _, _, _, rest) => Seps(rest)
    case Sep(rest) => 1 + Seps(rest)
  }

  type AssignTok = t: Unit | ASSIGN <= t <= REPLACE witness ASSIGN
  type DefTok = t: Unit | t == TEST_DEF || t == REPLACE_DEF witness TEST_DEF
  type OpTok = t: Unit | t == NOT || t == AND || t == OR witness NOT
  type JumpTok = t: Unit | t == BREAK || t == NEXT witness BREAK

  datatype Item =
    | Line(n: Unit)
    | Cond(e: Expr)
    | Call(e: Expr, args: Expr)
    | Ret(e: Expr)
    | Assign(e: Expr, assign: AssignTok, hint: Unit, value: Expr)
    | Op(op: OpTok)
    | Jump(jump: JumpTok)
    | Branch(thn: Sub, els: Sub)
    | For(h0: Unit, h1: Unit, name: Text, list: Expr, body: seq<Item>)
    | Def(def: DefTok, h0: Unit, h1: Unit, name: Text, body: seq<Item>)
    | Bypass(body: seq<Item>)

  /** One of the two blocks of a branch: absent (stored length 0) or present. */
  datatype Sub = Absent | Present(body: seq<Item>)

  function Num(low: int, high: int): int { low + 0x10000 * high }

  /** A block length: 32 bits, low unit first; longer blocks wrap. */
  function EncLen(n: nat): (r: seq<Unit>)
    ensures |r| == 2
    ensures n < 0x1_0000_0000 ==> Num(r[0], r[1]) == n
  {
    [n % 0x10000, (n / 0x10000) % 0x10000]
  }

  /** The stored length of a block that is not there. */
  const NO_BLOCK: seq<Unit> := [0, 0]

  function EncItems(items: seq<Item>): (r: seq<Unit>)
    decreases items, 0
  {
    if items == [] then [] else EncItem(items[0]) + EncItems(items[1..])
  }

  function EncBody(body: seq<Item>): (r: seq<Unit>)
    decreases body, 1
  {
    EncLen(|EncItems(body)| + 1) + EncItems(body) + [TERMINATOR]
  }

  function EncSub(sub: Sub): (r: seq<Unit>) {
    match sub
    case Absent => NO_BLOCK
    case Present(body) => EncBody(body)
  }

  function EncForHead(h0: Unit, h1: Unit, name: Text, list: Expr): (r: seq<Unit>) {
    [FOR_LOOP] + EncHash(h0, h1, name) + EncLen(|EncExpr(list)| + 1) + EncExpr(list) + [VALUE_TERMINATOR]
  }

  function EncItem(item: Item): (r: seq<Unit>) {
    match item
    case Line(n) => [LINE, n]
    case Cond(e) => EncExpr(e) + [CONDITION]
    case Call(e, args) => EncExpr(e) + [TEST_CALL] + EncExpr(args) + [FUNC_TERMINATOR]
    case Ret(e) => EncExpr(e) + [RETURN]
    case Assign(e, t, hint, value) => EncExpr(e) + [t, hint] + EncExpr(value) + [VALUE_TERMINATOR]
    case Op(t) => [t]
    case Jump(t) => [t]
    case Branch(thn, els) => [BRANCH] + EncSub(thn) + EncSub(els)
    case For(h0, h1, name, list, body) => EncForHead(h0, h1, name, list) + EncBody(body)
    case Def(t, h0, h1, name, body) => [t] + EncHash(h0, h1, name) + EncBody(body)
    case Bypass(body) => [BYPASS_NESTING] + EncBody(body)
  }

  lemma {:induction false} EncItemsAppend(xs: seq<Item>, ys: seq<Item>)
    ensures EncItems(xs + ys) == EncItems(xs) + EncItems(ys)
  {
    if xs == [] {
      assert xs + ys == ys;
    } else {
      EncItemsAppend(xs[1..], ys);
      assert (xs + ys)[1..] == xs[1..] + ys;
      var head, tail, rest := EncItem(xs[0]), EncItems(xs[1..]), EncItems(ys);
      assert EncItems(xs + ys) == head + (tail + rest) == (head + tail) + rest;
    }
  }

  lemma EncItemsSnoc(xs: seq<Item>, x: Item)
    ensures EncItems(xs + [x]) == EncItems(xs) + EncItem(x)
  {
    EncItemsAppend(xs, [x]);
    assert [x][1..] == [];
  }

  /** Argument separators occur only between the arguments of a call. */
  predicate Separated(items: seq<Item>)
    decreases items, 0
  {
    items == [] || (SeparatedItem(items[0]) && Separated(items[1..]))
  }

  predicate SeparatedSub(sub: Sub) { sub.Present? ==> Separated(sub.body) }

  predicate SeparatedItem(item: Item) {
    match item
    case Line(_) => true
    case Op(_) => true
    case Jump(_) => true
    case Cond(e) => Seps(e) == 0
    case Call(e, _) => Seps(e) == 0
    case Ret(e) => Seps(e) == 0
    case Assign(e, _, _, value) => Seps(e) == 0 && Seps(value) == 0
    case Branch(thn, els) => SeparatedSub(thn) && SeparatedSub(els)
    case For(_, _, _, list, body) => Seps(list) == 0 && Separated(body)
    case Def(_, _, _, _, body) => Separated(body)
    case Bypass(body) => Separated(body)
  }

  lemma {:induction false} SeparatedSnoc(xs: seq<Item>, x: Item)
    ensures Separated(xs + [x]) <==> Separated(xs) && SeparatedItem(x)
  {
    if xs == [] {
      assert xs + [x] == [x] && [x][1..] == [];
    } else {
      SeparatedSnoc(xs[1..], x);
      assert (xs + [x])[1..] == xs[1..] + [x];
    }
  }

  datatype Nesting = Nesting(inLoop: bool, inFunc: bool)

  const NEST_NONE := Nesting(false, false)
  const NEST_FUNCTION := Nesting(false, true)

  /** Jumps stand only in a loop body with no function definition in between; a value is returned and
      local scopes are bypassed only in a function. */
  predicate Nested(items: seq<Item>, nest: Nesting)
    decreases items, 0
  {
    items == [] || (NestedItem(items[0], nest) && Nested(items[1..], nest))
  }

  predicate NestedSub(sub: Sub, nest: Nesting) { sub.Present? ==> Nested(sub.body, nest) }

  predicate NestedItem(item: Item, nest: Nesting) {
    match item
    case Jump(_) => nest.inLoop
    case Ret(e) => nest.inFunc || e.End?
    case Branch(thn, els) => NestedSub(thn, nest) && NestedSub(els, nest)
    case For(_, _, _, _, body) => Nested(body, nest.(inLoop := true))
    case Def(_, _, _, _, body) => Nested(body, NEST_FUNCTION)
    case Bypass(body) => nest.inFunc && Nested(body, nest)
    case _ => true
  }

  lemma {:induction false} NestedSnoc(xs: seq<Item>, x: Item, nest: Nesting)
    ensures Nested(xs + [x], nest) <==> Nested(xs, nest) && NestedItem(x, nest)
  {
    if xs == [] {
      assert xs + [x] == [x] && [x][1..] == [];
    } else {
      NestedSnoc(xs[1..], x, nest);
      assert (xs + [x])[1..] == xs[1..] + [x];
    }
  }
}
