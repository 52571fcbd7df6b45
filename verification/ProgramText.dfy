/** Structured programs, the text of each, and the tree it stands for. */
module ProgramText {
  import opened ProTokens
  import opened ParserScopes
  import opened TestLines
  import ConditionChain

  datatype Head = ForHead(args: Expr) | DefHead(tok: DefTok, args: Expr) | BypassHead

  datatype Setting = Setting(e: Expr, tok: AssignTok, valueWords: nat, value: Expr)

  /** What a block consists of: lines in braces, or one statement that goes on on the same line. */
  datatype Body = Braces(stmts: seq<Stmt>) | Inline(stmt: Stmt)

  /** An else may start on a line of its own; behind a block without braces it does. */
  datatype Otherwise = NoElse | WithElse(own: bool, body: Body)

  /** A statement takes whole lines, at least what is left of the line it starts on. `IfNot` are tests on a
      line of their own with an else on the next. */
  datatype Stmt =
    | Tests(links: seq<TestLink>)
    | Set(setting: Setting)
    | If(links: seq<TestLink>, thn: Body, els: Otherwise)
    | IfNot(links: seq<TestLink>, other: Body)
    | Block(head: Head, body: Body)

  function Word(text: Text): Expr { Hashed(HASH_LITERAL, PLAIN, 0, 0, text, End) }

  // ---- the text

  /** What ends a test: an operator, a new line or a brace. */
  datatype Closer = ByColon | ByPipe | ByNewline | ByBrace

  function Closing(c: Closer, words: nat, e: Expr): Event {
    match c
    case ByColon => Colon(words, e)
    case ByPipe => Pipe(words, e)
    case ByNewline => Newline(words, e)
    case ByBrace => OpenBrace(words, e)
  }

  /** A test as a line can hold it: a condition, a call, a returned value or a jump. */
  predicate IsLineTest(item: Item) { item.Cond? || item.Call? || item.Ret? || item.Jump? }

  function TestEvents(test: Item, c: Closer): seq<Event>
    requires IsLineTest(test)
  {
    match test
    case Cond(e) => [Closing(c, 1, e)]
    case Call(e, args) => [Invocation(1, e, args), Closing(c, 0, End)]
    case Ret(args) => [Invocation(1, Word(RETURN_WORD), args), Closing(c, 0, End)]
    case Jump(t) => [Invocation(1, Word(if t == BREAK then BREAK_WORD else NEXT_WORD), End), Closing(c, 0, End)]
  }

  function BangEvents(n: nat): seq<Event> { if n == 0 then [] else BangEvents(n - 1) + [Bang] }

  function LinkEvents(link: TestLink, c: Closer): seq<Event>
    requires IsLineTest(link.test)
  {
    BangEvents(link.nots) + TestEvents(link.test, c)
  }

  predicate IsLine(links: seq<TestLink>) { forall i | 0 <= i < |links| :: IsLineTest(links[i].test) }

  function ChainEvents(links: seq<TestLink>, c: Closer): seq<Event>
    requires links != [] && IsLine(links)
  {
    if |links| == 1 then LinkEvents(links[0], c)
    else LinkEvents(links[0], if links[1].op.Either? then ByPipe else ByColon) + ChainEvents(links[1..], c)
  }

  function HeadEvent(head: Head): Event {
    match head
    case ForHead(args) => Invocation(1, Word(FOR_WORD), args)
    case DefHead(tok, args) =>
      Invocation(1, Word(if tok == TEST_DEF then DEFINE_TEST_WORD else DEFINE_REPLACE_WORD), args)
    case BypassHead => Invocation(1, Word(BYPASS_WORD), End)
  }

  function SetEvent(s: Setting): Event { Assignment(1, s.e, s.tok, s.valueWords, s.value, false) }

  const NEWLINE := Newline(0, End)
  const OPEN_BRACE := OpenBrace(0, End)
  const CLOSE_BRACE := CloseBrace(0, End)

  /** What opens a body. */
  function Opening(b: Body): Closer { if b.Braces? then ByBrace else ByColon }

  function ElseEvent(b: Body): Event { Closing(Opening(b), 1, Word(ELSE_WORD)) }

  /** A closing brace does not end its line. */
  function EndOf(b: Body): seq<Event> { if b.Braces? then [NEWLINE] else [] }

  function Print(stmts: seq<Stmt>): seq<Event>
    requires AllMade(stmts)
    decreases stmts, 0
  {
    if stmts == [] then [] else PrintStmt(stmts[0]) + Print(stmts[1..])
  }

  function PrintBody(b: Body): seq<Event>
    requires BodyMade(b)
    decreases b, 0
  {
    match b
    case Braces(stmts) => [NEWLINE] + (Print(stmts) + [CLOSE_BRACE])
    case Inline(stmt) => PrintStmt(stmt)
  }

  function PrintElse(thn: Body, els: Otherwise): seq<Event>
    requires ElseMade(els)
    decreases els, 0
  {
    match els
    case NoElse => EndOf(thn)
    case WithElse(own, body) =>
      (if own then EndOf(thn) else []) + ([ElseEvent(body)] + (PrintBody(body) + EndOf(body)))
  }

  function PrintStmt(s: Stmt): seq<Event>
    requires StmtMade(s)
    decreases s, 0
  {
    match s
    case Tests(links) => ChainEvents(links, ByNewline)
    case Set(setting) => [SetEvent(setting), NEWLINE]
    case If(links, thn, els) => ChainEvents(links, Opening(thn)) + (PrintBody(thn) + PrintElse(thn, els))
    case IfNot(links, other) =>
      ChainEvents(links, ByNewline) + ([ElseEvent(other)] + (PrintBody(other) + EndOf(other)))
    case Block(head, body) =>
      [HeadEvent(head)] + ([Closing(Opening(body), 0, End)] + (PrintBody(body) + EndOf(body)))
  }

  /** Every line of tests holds tests, and every head of a block is one. */
  predicate AllMade(stmts: seq<Stmt>)
    decreases stmts, 0
  {
    stmts == [] || (StmtMade(stmts[0]) && AllMade(stmts[1..]))
  }

  predicate BodyMade(b: Body)
    decreases b, 0
  {
    match b
    case Braces(stmts) => AllMade(stmts)
    case Inline(stmt) => StmtMade(stmt)
  }

  predicate ElseMade(els: Otherwise)
    decreases els, 0
  {
    els.WithElse? ==> BodyMade(els.body)
  }

  predicate StmtMade(s: Stmt)
    decreases s, 0
  {
    match s
    case Tests(links) => links != [] && IsLine(links)
    case Set(_) => true
    case If(links, thn, els) => links != [] && IsLine(links) && BodyMade(thn) && ElseMade(els)
    case IfNot(links, other) => links != [] && IsLine(links) && BodyMade(other)
    case Block(head, body) => HeadMade(head) && BodyMade(body)
  }

  predicate HeadMade(head: Head) {
    match head
    case ForHead(args) => LoopOf(args) != []
    case DefHead(_, args) => IsLiteralArg(args) && args.rest.End?
    case BypassHead => true
  }

  // ---- the tree

  /** The number of line ends. */
  function Lines(stmts: seq<Stmt>): nat
    decreases stmts, 0
  {
    if stmts == [] then 0 else StmtCount(stmts[0]) + Lines(stmts[1..])
  }

  function BodyCount(b: Body): nat
    decreases b, 0
  {
    match b
    case Braces(stmts) => 1 + Lines(stmts)
    case Inline(stmt) => StmtCount(stmt)
  }

  function EndCount(b: Body): nat { |EndOf(b)| }

  function ElseCount(thn: Body, els: Otherwise): nat
    decreases els, 0
  {
    match els
    case NoElse => EndCount(thn)
    case WithElse(own, body) => (if own then EndCount(thn) else 0) + (BodyCount(body) + EndCount(body))
  }

  function StmtCount(s: Stmt): nat
    decreases s, 0
  {
    match s
    case Tests(_) => 1
    case Set(_) => 1
    case If(_, thn, els) => BodyCount(thn) + ElseCount(thn, els)
    case IfNot(_, other) => 1 + (BodyCount(other) + EndCount(other))
    case Block(_, body) => BodyCount(body) + EndCount(body)
  }

  function LineAt(n: int): Item { Line(n % 0x10000) }

  function SetItem(s: Setting): Item { Assign(s.e, s.tok, SizeHint(s.valueWords, s.value), s.value) }

  /** Two negations say nothing. */
  function Reduced(link: TestLink, lines: seq<Unit>): TestLink { TestLink(lines, link.op, link.nots % 2, link.test) }

  /** The tests of a line; the mark stands in front of the first. */
  function TestItems(links: seq<TestLink>, lines: seq<Unit>): seq<Item> {
    if links == [] then [] else LinkItems(Reduced(links[0], lines)) + TestItems(links[1..], [])
  }

  function HeadItem(head: Head, body: seq<Item>): Item
    requires HeadMade(head)
  {
    match head
    case ForHead(args) =>
      var loop := LoopOf(args)[0];
      For(loop.h0, loop.h1, loop.name, loop.list, body)
    case DefHead(tok, args) => Def(tok, HashLow(args.text), HashHigh(args.text), args.text, body)
    case BypassHead => Bypass(body)
  }

  function LineOf(n: int): seq<Unit> { [n % 0x10000] }

  /** The tree of statements that start on line `n`. */
  function Tree(stmts: seq<Stmt>, n: int): seq<Item>
    requires AllMade(stmts)
    decreases stmts, 0
  {
    if stmts == [] then [] else StmtTree(stmts[0], n, LineOf(n)) + Tree(stmts[1..], n + StmtCount(stmts[0]))
  }

  /** `lines` is the mark in front of a statement that goes on on the line. */
  function BodyTree(b: Body, n: int, lines: seq<Unit>): seq<Item>
    requires BodyMade(b)
    decreases b, 0
  {
    match b
    case Braces(stmts) => Tree(stmts, n + 1)
    case Inline(stmt) => StmtTree(stmt, n, lines)
  }

  /** The line with the else, if the then block starts on line `n`. */
  function ElseLine(thn: Body, own: bool, n: int): int { n + BodyCount(thn) + if own then EndCount(thn) else 0 }

  function ElseTree(thn: Body, els: Otherwise, n: int): Sub
    requires ElseMade(els)
    decreases els, 0
  {
    match els
    case NoElse => Absent
    case WithElse(own, body) =>
      var m := ElseLine(thn, own, n);
      Present(BodyTree(body, m, LineOf(m)))
  }

  function StmtTree(s: Stmt, n: int, lines: seq<Unit>): seq<Item>
    requires StmtMade(s)
    decreases s, 0
  {
    match s
    case Tests(links) => TestItems(links, lines)
    case Set(setting) => LineItems(lines) + [SetItem(setting)]
    case If(links, thn, els) =>
      TestItems(links, lines) + [Item.Branch(Present(BodyTree(thn, n, [])), ElseTree(thn, els, n))]
    case IfNot(links, other) =>
      TestItems(links, lines) + [Item.Branch(Absent, Present(BodyTree(other, n + 1, LineOf(n + 1))))]
    case Block(head, body) => LineItems(lines) + [HeadItem(head, BodyTree(body, n, LineOf(n)))]
  }

  // ---- what may stand where

  /** A test that the parser accepts; `nest` is the nesting of the innermost scope that it sees. */
  predicate TestFits(link: TestLink, nest: Nesting) {
    match link.test
    case Cond(e) => Seps(e) == 0 && !IsElse(e)
    case Call(e, _) => Seps(e) == 0 && KeywordOf(e) == KwNone
    case Ret(args) => link.nots == 0 && (if nest.inFunc then Seps(args) == 0 else args.End?)
    case Jump(_) => link.nots == 0 && nest.inLoop
    case _ => false
  }

  /** A line of tests; the first one is asked while the one-line blocks of the line before are still open. */
  predicate LineFits(links: seq<TestLink>, nest: Nesting, lazy: Nesting) {
    && links != [] && IsLine(links) && links[0].op.Fresh? && TestFits(links[0], lazy)
    && forall i | 1 <= i < |links| :: !links[i].op.Fresh? && TestFits(links[i], nest)
  }

  predicate SettingFits(s: Setting) { Seps(s.e) == 0 && Seps(s.value) == 0 }

  function InnerNest(head: Head, nest: Nesting): Nesting {
    match head
    case ForHead(_) => nest.(inLoop := true)
    case DefHead(_, _) => NEST_FUNCTION
    case BypassHead => nest
  }

  /** Where a statement starts: on a line of its own, or behind an else, the head of a block or tests. */
  datatype Place = OnLine | AfterElse | AfterHead | AfterTests

  /** The nesting of the innermost block that is still open where the line ends. */
  function LazyAfter(s: Stmt, nest: Nesting): Nesting
    decreases s, 0
  {
    match s
    case Tests(_) => nest
    case Set(_) => nest
    case If(_, thn, els) => if els.NoElse? then BodyAfter(thn, nest) else BodyAfter(els.body, nest)
    case IfNot(_, other) => BodyAfter(other, nest)
    case Block(head, body) => if body.Braces? then nest else BodyAfter(body, InnerNest(head, nest))
  }

  function BodyAfter(b: Body, nest: Nesting): Nesting
    decreases b, 0
  {
    if b.Braces? then nest else LazyAfter(b.stmt, nest)
  }

  predicate Fits(stmts: seq<Stmt>, nest: Nesting, lazy: Nesting)
    decreases stmts, 0
  {
    stmts == [] || (StmtFits(stmts[0], nest, lazy, OnLine) && Fits(stmts[1..], nest, LazyAfter(stmts[0], nest)))
  }

  predicate BodyFits(b: Body, nest: Nesting, place: Place)
    decreases b, 0
  {
    match b
    case Braces(stmts) => Fits(stmts, nest, nest)
    case Inline(stmt) => StmtFits(stmt, nest, nest, place)
  }

  predicate HeadFits(head: Head, lazy: Nesting) { HeadMade(head) && (head.BypassHead? ==> lazy.inFunc) }

  /** A statement that the parser accepts in a scope with this nesting. More tests behind tests would join them,
      and so would a function or bypass; the block of a head without braces takes no else. */
  predicate StmtFits(s: Stmt, nest: Nesting, lazy: Nesting, place: Place)
    decreases s, 0
  {
    match s
    case Tests(links) => !place.AfterTests? && LineFits(links, nest, lazy)
    case Set(setting) => SettingFits(setting)
    case If(links, thn, els) =>
      && !place.AfterTests? && LineFits(links, nest, lazy) && BodyFits(thn, nest, AfterTests)
      && (els.WithElse? ==> !place.AfterHead? && (thn.Inline? ==> els.own) && BodyFits(els.body, nest, AfterElse))
    case IfNot(links, other) =>
      (place.OnLine? || place.AfterElse?) && LineFits(links, nest, lazy) && BodyFits(other, nest, AfterElse)
    case Block(head, body) =>
      (place.AfterTests? ==> head.ForHead?) && HeadFits(head, lazy) && BodyFits(body, InnerNest(head, nest), AfterHead)
  }

  lemma {:induction false} FitsMade(stmts: seq<Stmt>, nest: Nesting, lazy: Nesting)
    requires Fits(stmts, nest, lazy)
    ensures AllMade(stmts)
    decreases stmts, 0
  {
    if stmts != [] {
      StmtFitsMade(stmts[0], nest, lazy, OnLine);
      FitsMade(stmts[1..], nest, LazyAfter(stmts[0], nest));
    }
  }

  lemma {:induction false} BodyFitsMade(b: Body, nest: Nesting, place: Place)
    requires BodyFits(b, nest, place)
    ensures BodyMade(b)
    decreases b, 0
  {
    match b
    case Braces(stmts) => FitsMade(stmts, nest, nest);
    case Inline(stmt) => StmtFitsMade(stmt, nest, nest, place);
  }

  lemma {:induction false} StmtFitsMade(s: Stmt, nest: Nesting, lazy: Nesting, place: Place)
    requires StmtFits(s, nest, lazy, place)
    ensures StmtMade(s)
    decreases s, 0
  {
    match s
    case Tests(_) =>
    case Set(_) =>
    case If(_, thn, els) =>
      BodyFitsMade(thn, nest, AfterTests);
      if els.WithElse? {
        BodyFitsMade(els.body, nest, AfterElse);
      }
    case IfNot(_, other) => BodyFitsMade(other, nest, AfterElse);
    case Block(head, body) => BodyFitsMade(body, InnerNest(head, nest), AfterHead);
  }
}
