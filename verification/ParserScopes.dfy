/** The scope layer of the project-file parser: what each construct of a line does to the stack of
    open blocks and to the token stream, whose block lengths are filled in when a block closes. */
module ParserScopes {
  import opened ProTokens

  datatype ScopeState = StNew | StCtrl | StCond

  datatype Operator = NoOperator | AndOperator | OrOperator

  /** `start` is where the block's length goes; the bottom scope has none. */
  const NO_START := -2  // negative, as no position is

  datatype BlockScope = BlockScope(start: int, braceLevel: nat, special: bool, inBranch: bool, nest: Nesting)

  datatype Parser = Parser(
    toks: seq<Unit>,
    blockstack: seq<BlockScope>,
    state: ScopeState,
    markLine: int,
    lineNo: int,
    canElse: bool,
    invert: nat,
    op: Operator,
    ok: bool,
    hostBuild: bool,
    testGrammar: bool)

  /** What the tokenizer hands to the scope layer. An expression comes with its number of words. */
  datatype Event =
    | Bang
    | Colon(words: nat, e: Expr)
    | Pipe(words: nat, e: Expr)
    | OpenBrace(words: nat, e: Expr)
    | CloseBrace(words: nat, e: Expr)
    | Assignment(words: nat, e: Expr, tok: AssignTok, valueWords: nat, value: Expr, closing: bool)
    | Invocation(words: nat, e: Expr, args: Expr)
    | Newline(words: nat, e: Expr)
    | CommentLine
    | Continuation
    | Unclosed

  /** Outside calls no expression has argument separators. */
  predicate Tokenized(ev: Event) {
    match ev
    case Bang => true
    case CommentLine => true
    case Continuation => true
    case Unclosed => true
    case Assignment(_, e, _, _, value, _) => Seps(e) == 0 && Seps(value) == 0
    case _ => Seps(ev.e) == 0
  }

  predicate Anchored(stack: seq<BlockScope>, size: nat) {
    forall i | 0 <= i < |stack| :: stack[i].start <= size - 2 && (stack[i].start < 0 <==> i == 0)
  }

  /** Every block but the bottom one has its length field inside the stream. */
  predicate Safe(p: Parser) { Anchored(p.blockstack, |p.toks|) }

  /** Safe, and inside at least the bottom scope. */
  predicate Running(p: Parser) { Safe(p) && |p.blockstack| > 0 }

  function Init(line: int, testGrammar: bool): (p: Parser)
    ensures Running(p)
  {
    FreshLine(Parser([], [BlockScope(NO_START, 0, false, false, NEST_NONE)],
                     StNew, 0, line, false, 0, NoOperator, true, false, testGrammar))
  }

  function FreshLine(p: Parser): Parser {
    p.(state := StNew, invert := 0, op := NoOperator, markLine := p.lineNo)
  }

  function Top(p: Parser): BlockScope
    requires |p.blockstack| > 0
  {
    p.blockstack[|p.blockstack| - 1]
  }

  function SetTop(p: Parser, b: BlockScope): Parser
    requires |p.blockstack| > 0
  {
    p.(blockstack := p.blockstack[|p.blockstack| - 1 := b])
  }

  function Put(p: Parser, units: seq<Unit>): Parser { p.(toks := p.toks + units) }

  function Fail(p: Parser): Parser { p.(ok := false) }

  function PutLineMarker(p: Parser): (q: Parser)
    requires Running(p)
    ensures Running(q)
  {
    if p.markLine != 0 then Put(p, [LINE, p.markLine % 0x10000]).(markLine := 0) else p
  }

  function EnterScope(p: Parser, special: bool, state: ScopeState): (q: Parser)
    requires Running(p)
    ensures Running(q)
  {
    var scope := BlockScope(|p.toks|, 0, special, false, Top(p).nest);
    Put(p, [0, 0]).(blockstack := p.blockstack + [scope], state := state, canElse := false,
                    markLine := if special then p.lineNo else p.markLine)
  }

  /** End the block whose length field is at `start`, and fill that field in. */
  function EndBlock(toks: seq<Unit>, start: nat): (r: seq<Unit>)
    requires start + 2 <= |toks|
    ensures |r| == |toks| + 1
  {
    var ended := toks + [TERMINATOR];
    var len := EncLen(|ended| - start - 2);
    ended[start := len[0]][start + 1 := len[1]]
  }

  function LeaveScope(p: Parser): (q: Parser)
    requires Running(p)
    ensures Safe(q) && |q.blockstack| == |p.blockstack| - 1
  {
    var top := Top(p);
    var q := if top.inBranch then Put(p, NO_BLOCK) else p;
    var toks := if top.start < 0 then q.toks else EndBlock(q.toks, top.start);
    q.(toks := toks, blockstack := p.blockstack[..|p.blockstack| - 1])
  }

  function CloseOneLiners(p: Parser): (q: Parser)
    requires Running(p)
    ensures Running(q) && (q.ok ==> p.ok)
    decreases |p.blockstack|
  {
    if Top(p).braceLevel == 0 && |p.blockstack| > 1 then CloseOneLiners(LeaveScope(p)) else p
  }

  function EndBranch(p: Parser): (q: Parser)
    requires Running(p)
    ensures Running(q)
  {
    if Top(p).inBranch then Put(SetTop(p, Top(p).(inBranch := false)), NO_BLOCK) else p
  }

  function FlushScopes(p: Parser): (q: Parser)
    requires Running(p)
    ensures Running(q) && (q.ok ==> p.ok)
  {
    if p.state == StNew then EndBranch(CloseOneLiners(p)).(canElse := false) else p
  }

  function FlushCond(p: Parser): (q: Parser)
    requires Running(p)
    ensures Running(q) && (q.ok ==> p.ok)
  {
    if p.state == StCond then
      var b := Put(p, [BRANCH]);
      EnterScope(SetTop(b, Top(b).(inBranch := true)), false, StNew)
    else
      FlushScopes(p)
  }

  function WarnOperator(p: Parser): Parser { p.(invert := 0, op := NoOperator) }

  predicate Dangling(p: Parser) { p.invert != 0 || p.op != NoOperator }

  function FailOperator(p: Parser): Parser { WarnOperator(p).(ok := p.ok && !Dangling(p)) }

  function DropColon(p: Parser): Parser { if p.op == AndOperator then p.(op := NoOperator) else p }

  function PutOperator(p: Parser): (q: Parser)
    requires Running(p)
    ensures Running(q)
  {
    match p.op
    case NoOperator => p
    case AndOperator => (if p.state == StCond then Put(p, [AND]) else p).(op := NoOperator)
    case OrOperator => Put(p, [OR]).(op := NoOperator)
  }

  function FinalizeTest(p: Parser): (q: Parser)
    requires Running(p)
    ensures Running(q) && (q.ok ==> p.ok)
  {
    var o := PutOperator(PutLineMarker(FlushScopes(p)));
    (if o.invert % 2 == 1 then Put(o, [NOT]) else o).(invert := 0, state := StCond, canElse := true)
  }

  function BogusTest(p: Parser): (q: Parser)
    requires Running(p)
    ensures Running(q)
  {
    FlushScopes(Fail(p)).(op := NoOperator, invert := 0, state := StCond, canElse := true)
  }

  const ELSE_WORD: Text := [101, 108, 115, 101]
  const FOR_WORD: Text := [102, 111, 114]
  const DEFINE_REPLACE_WORD: Text := [100, 101, 102, 105, 110, 101, 82, 101, 112, 108, 97, 99, 101]
  const DEFINE_TEST_WORD: Text := [100, 101, 102, 105, 110, 101, 84, 101, 115, 116]
  const BYPASS_WORD: Text := [98, 121, 112, 97, 115, 115, 78, 101, 115, 116, 105, 110, 103]
  const RETURN_WORD: Text := [114, 101, 116, 117, 114, 110]
  const NEXT_WORD: Text := [110, 101, 120, 116]
  const BREAK_WORD: Text := [98, 114, 101, 97, 107]
  const OPTION_WORD: Text := [111, 112, 116, 105, 111, 110]
  const HOST_BUILD_WORD: Text := [104, 111, 115, 116, 95, 98, 117, 105, 108, 100]

  /** Simple case folding, as far as it reaches the letters of "else". */
  function Fold(c: Unit): Unit {
    if 65 <= c <= 90 then c + 32 else if c == 0x17F then 115 else c
  }

  /** A plain literal word, the only form in which keywords are recognized. */
  predicate IsWord(e: Expr) { e.Hashed? && e.hashed == HASH_LITERAL && e.flags == PLAIN && e.rest.End? }

  predicate IsElse(e: Expr) {
    IsWord(e) && |e.text| == 4 && forall i | 0 <= i < 4 :: Fold(e.text[i]) == ELSE_WORD[i]
  }

  predicate IsLiteralArg(e: Expr) { e.Str? && e.str == LITERAL && e.flags == FRESH }

  function FindBranch(p: Parser): (q: Parser)
    requires Running(p)
    ensures Running(q) && (q.ok ==> p.ok)
    decreases |p.blockstack|
  {
    var top := Top(p);
    if top.inBranch && (!top.special || top.braceLevel > 0) then
      EnterScope(SetTop(p, top.(inBranch := false)), false, StCtrl)
    else if top.braceLevel > 0 || |p.blockstack| == 1 then
      Fail(p)
    else
      FindBranch(LeaveScope(p))
  }

  function FinalizeElse(p: Parser): (q: Parser)
    requires Running(p)
    ensures Running(q) && (q.ok ==> p.ok)
  {
    if Dangling(p) then
      FailOperator(p)
    else if p.canElse && (!Top(p).special || Top(p).braceLevel > 0) then
      EnterScope(Put(p, [BRANCH] + NO_BLOCK), false, StCtrl)
    else
      FindBranch(p)
  }

  function FinalizeCond(p: Parser, words: nat, e: Expr): (q: Parser)
    requires Running(p)
    ensures Running(q) && (q.ok ==> p.ok)
  {
    if words == 0 then p
    else if words != 1 then BogusTest(p)
    else if IsElse(e) then FinalizeElse(p)
    else Put(FinalizeTest(p), EncExpr(e) + [CONDITION])
  }

  /** One step of the string hash: `h` has 28 bits; the nibble shifted out is folded into bits 5 to 8. */
  function HashStep(h: nat, c: Unit): (r: nat)
    ensures r < 0x1000_0000
  {
    var x := h * 16 + c;
    var nibble := (x / 0x1000_0000) % 16;
    var mid := (x / 32) % 16;
    var folded := ((nibble as bv4) ^ (mid as bv4)) as int;
    (x + 32 * (folded - mid)) % 0x1000_0000
  }

  function StringHash(s: seq<Unit>): (r: nat)
    ensures r < 0x1000_0000
  {
    if s == [] then 0 else HashStep(StringHash(s[..|s| - 1]), s[|s| - 1])
  }

  function HashLow(s: seq<Unit>): Unit { StringHash(s) % 0x10000 }

  function HashHigh(s: seq<Unit>): Unit { StringHash(s) / 0x10000 }

  /** The loop a for() call introduces: for(literal), for(name, list) or for(expansion). */
  function LoopOf(args: Expr): (r: seq<Item>)
    ensures |r| <= 1 && (|r| == 1 ==> r[0].For? && r[0].body == [] && Seps(r[0].list) == 0)
  {
    if IsLiteralArg(args) then
      if args.rest.End? then
        [For(HashLow([]), HashHigh([]), [],
             Hashed(HASH_LITERAL, PLAIN, HashLow(args.text), HashHigh(args.text), args.text, End), [])]
      else if args.rest.Sep? && Seps(args) == 1 then
        [For(HashLow(args.text), HashHigh(args.text), args.text, args.rest.rest, [])]
      else []
    else if Seps(args) == 0 then
      [For(HashLow([]), HashHigh([]), [], args, [])]
    else []
  }

  function EnterLoop(p: Parser, loop: Item): (q: Parser)
    requires Running(p) && loop.For?
    ensures Running(q) && (q.ok ==> p.ok)
  {
    var s := EnterScope(Put(p, EncForHead(loop.h0, loop.h1, loop.name, loop.list)), true, StCtrl);
    SetTop(s, Top(s).(nest := Top(s).nest.(inLoop := true)))
  }

  function StartLoop(p: Parser, loop: seq<Item>): (q: Parser)
    requires Running(p) && (loop != [] ==> loop[0].For?)
    ensures Running(q) && (q.ok ==> p.ok)
  {
    var r := PutLineMarker(FlushCond(p));
    if loop == [] then Fail(r) else EnterLoop(r, loop[0])
  }

  function FinalizeFor(p: Parser, args: Expr): (q: Parser)
    requires Running(p)
    ensures Running(q) && (q.ok ==> p.ok)
  {
    var d := DropColon(p);
    if Dangling(d) then BogusTest(FailOperator(d)) else StartLoop(d, LoopOf(args))
  }

  function EnterFunction(p: Parser, tok: DefTok, name: Text): (q: Parser)
    requires Running(p)
    ensures Running(q) && (q.ok ==> p.ok)
  {
    var s := EnterScope(Put(p, [tok] + EncHash(HashLow(name), HashHigh(name), name)), true, StCtrl);
    SetTop(s, Top(s).(nest := NEST_FUNCTION))
  }

  function FinalizeDef(p: Parser, tok: DefTok, args: Expr): (q: Parser)
    requires Running(p)
    ensures Running(q) && (q.ok ==> p.ok)
  {
    if p.invert != 0 then
      BogusTest(p)
    else
      var r := PutLineMarker(FlushScopes(p));
      if IsLiteralArg(args) && args.rest.End? then
        EnterFunction(PutOperator(r), tok, args.text)
      else
        Fail(r)
  }

  function FinalizeBypass(p: Parser, args: Expr): (q: Parser)
    requires Running(p)
    ensures Running(q) && (q.ok ==> p.ok)
  {
    if !args.End? || !Top(p).nest.inFunc || p.invert != 0 then
      BogusTest(p)
    else
      EnterScope(Put(PutOperator(PutLineMarker(FlushScopes(p))), [BYPASS_NESTING]), true, StCtrl)
  }

  function FinalizeReturn(p: Parser, args: Expr): (q: Parser)
    requires Running(p)
    ensures Running(q) && (q.ok ==> p.ok)
  {
    if (if Top(p).nest.inFunc then Seps(args) > 0 else !args.End?) || p.invert != 0 then
      BogusTest(p)
    else
      Put(FinalizeTest(p), EncExpr(args) + [RETURN])
  }

  function FinalizeJump(p: Parser, tok: JumpTok, args: Expr): (q: Parser)
    requires Running(p)
    ensures Running(q) && (q.ok ==> p.ok)
  {
    if !args.End? || !Top(p).nest.inLoop || p.invert != 0 then
      BogusTest(p)
    else
      Put(FinalizeTest(p), [tok])
  }

  function FinalizeOption(p: Parser, args: Expr): (q: Parser)
    requires Running(p)
    ensures Running(q) && (q.ok ==> p.ok)
  {
    if p.state != StNew || Top(p).braceLevel > 0 || |p.blockstack| > 1 || Dangling(p) then
      BogusTest(p)
    else if IsLiteralArg(args) && args.rest.End? && args.text == HOST_BUILD_WORD then
      p.(hostBuild := true)
    else
      Fail(p)
  }

  datatype Keyword = KwFor | KwDefineReplace | KwDefineTest | KwBypass | KwReturn | KwNext | KwBreak | KwOption | KwNone

  function KeywordOf(e: Expr): Keyword {
    if !IsWord(e) then KwNone
    else if e.text == FOR_WORD then KwFor
    else if e.text == DEFINE_REPLACE_WORD then KwDefineReplace
    else if e.text == DEFINE_TEST_WORD then KwDefineTest
    else if e.text == BYPASS_WORD then KwBypass
    else if e.text == RETURN_WORD then KwReturn
    else if e.text == NEXT_WORD then KwNext
    else if e.text == BREAK_WORD then KwBreak
    else if e.text == OPTION_WORD then KwOption
    else KwNone
  }

  function FinalizeCall(p: Parser, e: Expr, args: Expr): (q: Parser)
    requires Running(p)
    ensures Running(q) && (q.ok ==> p.ok)
  {
    match KeywordOf(e)
    case KwFor => FinalizeFor(p, args)
    case KwDefineReplace => FinalizeDef(p, REPLACE_DEF, args)
    case KwDefineTest => FinalizeDef(p, TEST_DEF, args)
    case KwBypass => FinalizeBypass(p, args)
    case KwReturn => FinalizeReturn(p, args)
    case KwNext => FinalizeJump(p, NEXT, args)
    case KwBreak => FinalizeJump(p, BREAK, args)
    case KwOption => FinalizeOption(p, args)
    case KwNone => Put(FinalizeTest(p), EncExpr(e) + [TEST_CALL] + EncExpr(args) + [FUNC_TERMINATOR])
  }

  function CloseBlock(p: Parser): (q: Parser)
    requires Running(p) && Top(p).braceLevel > 0
    ensures Running(q) && (q.ok ==> p.ok)
  {
    var d := SetTop(p, Top(p).(braceLevel := Top(p).braceLevel - 1));
    if Top(d).braceLevel == 0 && |d.blockstack| != 1 then
      LeaveScope(d).(state := StNew, canElse := false, markLine := d.lineNo)
    else d
  }

  function CloseScope(p: Parser): (q: Parser)
    requires Running(p)
    ensures Running(q) && (q.ok ==> p.ok)
  {
    var f := FailOperator(FlushScopes(p));
    if Top(f).braceLevel == 0 then Fail(f) else CloseBlock(f)
  }

  function OpenBlock(p: Parser): (q: Parser)
    requires Running(p)
    ensures Running(q) && (q.ok ==> p.ok)
  {
    SetTop(p, Top(p).(braceLevel := Top(p).braceLevel + 1)).(state := StNew, ok := p.ok && !p.testGrammar)
  }

  function OpenScope(p: Parser): (q: Parser)
    requires Running(p)
    ensures Running(q) && (q.ok ==> p.ok)
  {
    OpenBlock(FlushCond(FailOperator(DropColon(p))))
  }

  /** The bound on the value's length kept with an assignment: its word count if it starts with a literal. */
  function SizeHint(valueWords: nat, value: Expr): Unit {
    var first := if value.LineMark? then value.rest else value;
    if valueWords > 1 && first.Str? && first.str == LITERAL then valueWords % 0x10000 else 0
  }

  function PutAssignment(p: Parser, words: nat, e: Expr, tok: AssignTok, valueWords: nat, value: Expr): (q: Parser)
    requires Running(p)
    ensures Running(q) && (q.ok ==> p.ok)
  {
    var f := PutLineMarker(FailOperator(DropColon(FlushCond(p))));
    var l := if f.testGrammar || words != 1 then Fail(f) else Put(f, EncExpr(e));
    Put(l, [tok, SizeHint(valueWords, value)] + EncExpr(value) + [VALUE_TERMINATOR])
  }

  function Step(p: Parser, ev: Event): (q: Parser)
    requires Running(p)
    ensures Running(q) && (q.ok ==> p.ok)
  {
    match ev
    case Bang => p.(invert := p.invert + 1)
    case Colon(words, e) =>
      var q := WarnOperator(FinalizeCond(p, words, e));
      if q.state == StNew then Fail(q) else q.(op := AndOperator)
    case Pipe(words, e) =>
      var q := WarnOperator(FinalizeCond(p, words, e));
      if q.state != StCond then Fail(q) else q.(op := OrOperator)
    case OpenBrace(words, e) => OpenScope(FinalizeCond(p, words, e))
    case CloseBrace(words, e) => CloseScope(FinalizeCond(p, words, e).(state := StNew))
    case Assignment(words, e, tok, valueWords, value, closing) =>
      var q := PutAssignment(p, words, e, tok, valueWords, value);
      if closing then CloseScope(q) else q
    case Invocation(words, e, args) =>
      if words == 1 then FinalizeCall(p, e, args) else FinalizeCall(Fail(p), End, args)
    case Newline(words, e) =>
      var q := WarnOperator(FinalizeCond(p, words, e));
      FreshLine(q.(lineNo := q.lineNo + 1))
    case CommentLine =>
      p.(markLine := if p.markLine == p.lineNo then p.markLine + 1 else p.markLine, lineNo := p.lineNo + 1)
    case Continuation => p.(lineNo := p.lineNo + 1)
    case Unclosed => BogusTest(p)
  }

  function Run(p: Parser, evs: seq<Event>): (q: Parser)
    requires Running(p)
    ensures Running(q) && (q.ok ==> p.ok)
  {
    if evs == [] then p else Step(Run(p, evs[..|evs| - 1]), evs[|evs| - 1])
  }

  function LeaveAll(p: Parser): (q: Parser)
    requires Safe(p)
    decreases |p.blockstack|
  {
    if p.blockstack == [] then p else LeaveAll(LeaveScope(p))
  }

  /** All blocks must be closed at the end of the file. */
  function CheckClosed(p: Parser): (q: Parser)
    requires Running(p)
    ensures Running(q) && (q.ok ==> p.ok)
  {
    p.(ok := p.ok && |p.blockstack| == 1 && Top(p).braceLevel == 0)
  }

  /** The last logical line ends, with the expression still pending there. */
  function LastLine(p: Parser, words: nat, e: Expr): (q: Parser)
    requires Running(p)
    ensures Running(q) && (q.ok ==> p.ok)
  {
    FlushScopes(WarnOperator(FinalizeCond(p, words, e)))
  }

  function Finish(p: Parser, words: nat, e: Expr): Parser
    requires Running(p)
  {
    LeaveAll(CheckClosed(LastLine(p, words, e)))
  }

  /** Parse a whole text, given as its events. */
  function Parse(line: int, testGrammar: bool, evs: seq<Event>, words: nat, e: Expr): Parser {
    Finish(Run(Init(line, testGrammar), evs), words, e)
  }
}
