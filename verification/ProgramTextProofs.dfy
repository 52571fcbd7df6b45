/** The text of a structured program is accepted and read back as the program's tree. */
module ProgramTextProofs {
  import opened ProTokens
  import opened ParserCounts
  import opened ParserScopes
  import opened ParserStory
  import opened ParserScopesProofs
  import opened ProgramText
  import opened TestLines
  import ConditionChain

  // ---- runs and what they say

  /** The events take the parser and the story from `p` and `t` to `q` and `u`. */
  predicate Takes(p: Parser, t: Tale, evs: seq<Event>, q: Parser, u: Tale) {
    Running(p) && Running(q) && Run(p, evs) == q && Story(p, t, evs) == u
  }

  lemma TakesOne(p: Parser, t: Tale, ev: Event)
    requires Running(p)
    ensures Takes(p, t, [ev], Step(p, ev), EventTold(p, t, ev))
  {
    assert [ev][..0] == [];
  }

  lemma {:induction false} TakesBoth(p: Parser, t: Tale, a: seq<Event>, q: Parser, u: Tale, b: seq<Event>,
                                     r: Parser, v: Tale)
    requires Takes(p, t, a, q, u) && Takes(q, u, b, r, v)
    ensures Takes(p, t, a + b, r, v)
    decreases |b|
  {
    if b == [] {
      assert a + b == a;
    } else {
      var n := |b| - 1;
      TakesBoth(p, t, a, q, u, b[..n], Run(q, b[..n]), Story(q, u, b[..n]));
      assert (a + b)[..|a + b| - 1] == a + b[..n];
    }
  }

  lemma {:induction false} FlatAppend(xs: seq<Item>, ys: seq<Item>, home: int, at: nat)
    ensures Flat(xs + ys, home, at) == Flat(xs, home, at) + Flat(ys, home, at + |Flat(xs, home, at)|)
  {
    if xs == [] {
      assert xs + ys == ys;
    } else {
      var first := FlatItem(xs[0], home, at);
      FlatAppend(xs[1..], ys, home, at + |first|);
      assert (xs + ys)[1..] == xs[1..] + ys;
      var tail := Flat(xs[1..], home, at + |first|);
      var last := Flat(ys, home, at + |first| + |tail|);
      assert first + (tail + last) == (first + tail) + last;
    }
  }

  /** The first `n` scopes are as they were, but for the innermost one's fork, in which `items` have been said. */
  predicate Grew(t: Tale, u: Tale, n: nat, items: seq<Item>) {
    && 0 < n <= |t.open| && n <= |u.open|
    && u.open[..n - 1] == t.open[..n - 1]
    && u.open[n - 1].head == t.open[n - 1].head
    && u.notes == t.notes + Flat(items, t.open[n - 1].head, |t.notes|)
  }

  lemma GrewBoth(t: Tale, u: Tale, v: Tale, n: nat, xs: seq<Item>, ys: seq<Item>)
    requires Grew(t, u, n, xs) && Grew(u, v, n, ys)
    ensures Grew(t, v, n, xs + ys)
  {
    hide Flat;
    FlatAppend(xs, ys, t.open[n - 1].head, |t.notes|);
  }

  lemma GrewNothing(t: Tale, u: Tale, n: nat)
    requires 0 < n <= |t.open| && n <= |u.open| && u.notes == t.notes
    requires u.open[..n - 1] == t.open[..n - 1] && u.open[n - 1].head == t.open[n - 1].head
    ensures Grew(t, u, n, [])
  {
  }

  lemma GrewLeaf(t: Tale, item: Item)
    requires IsLeaf(item)
    ensures Grew(t, Noted(t, item), |t.open|, [item])
  {
    var home, at := Here(t).head, |t.notes|;
    assert [item][1..] == [] && Flat([], home, at + 1) == [];
    assert Flat([item], home, at) == FlatItem(item, home, at) + [];
  }

  /** Cutting the open scopes says nothing. */
  lemma GrewKept(t: Tale, n: nat, p: Parser)
    requires Running(p) && |p.blockstack| == n <= |t.open|
    ensures Grew(t, Kept(t, p), n, []) && |Kept(t, p).open| == n && Kept(t, p).notes == t.notes
  {
  }

  // ---- states

  function WithBranch(base: seq<BlockScope>, waits: bool): seq<BlockScope>
    requires base != []
  {
    base[|base| - 1 := base[|base| - 1].(inBranch := waits)]
  }

  /** The scopes that remain when one-line blocks and a branch that waits for its else are closed. */
  function Flushed(stack: seq<BlockScope>): seq<BlockScope>
    requires stack != []
  {
    var n := |stack| - 1;
    if stack[n].braceLevel == 0 && n > 0 then Flushed(stack[..n]) else WithBranch(stack, false)
  }

  /** No error so far; `base` remains when the next test or assignment comes. */
  predicate Going(p: Parser, t: Tale, base: seq<BlockScope>) {
    && Running(p) && p.ok && !p.testGrammar && p.lineNo > 0
    && base != [] && FlushScopes(p).blockstack == base
    && |t.open| == |p.blockstack| && |base| <= |p.blockstack|
  }

  function MarkLines(p: Parser): seq<Unit> { if p.markLine != 0 then LineOf(p.markLine) else [] }

  /** In front of a statement in the innermost scope of `base`: at the start of a line, or behind a colon. */
  predicate Starts(p: Parser, t: Tale, base: seq<BlockScope>, lazy: Nesting, lines: seq<Unit>) {
    && Going(p, t, base)
    && p.invert == 0 && Top(p).nest == lazy && lines == MarkLines(p)
    && ((p.state == StNew && p.op == NoOperator) || (p.state == StCtrl && p.op == AndOperator))
  }

  /** The scopes in which a statement can stand at this place. */
  predicate Based(base: seq<BlockScope>, place: Place) {
    && base != [] && !base[|base| - 1].inBranch
    && var top := base[|base| - 1];
       match place
       case OnLine => (|base| == 1 || top.braceLevel > 0) && (top.special ==> top.braceLevel > 0)
       case AfterElse => |base| > 1 && top.braceLevel == 0 && !top.special
       case AfterHead => |base| > 1 && top.braceLevel == 0 && top.special
       case AfterTests => |base| > 1 && top.braceLevel == 0 && !top.special
  }

  /** Behind a test. */
  predicate Mid(p: Parser, t: Tale, base: seq<BlockScope>) {
    && Going(p, t, base)
    && p.blockstack == base && p.state == StCond && p.invert == 0 && p.markLine == 0
  }

  function OpOf(op: ConditionChain.Joint): Operator {
    match op
    case Fresh => NoOperator
    case Both => AndOperator
    case Either => OrOperator
  }

  /** This operator is pending; behind an else or the head of a block, a colon says nothing. */
  predicate Joins(p: Parser, op: ConditionChain.Joint) {
    || (p.op == OpOf(op) && (op.Both? ==> p.state == StCond))
    || (op.Fresh? && p.op == AndOperator && p.state == StCtrl)
  }

  /** In front of a test with this operator, these line marks and, so far, `nots` negations. */
  predicate Before(p: Parser, t: Tale, base: seq<BlockScope>, op: ConditionChain.Joint, lines: seq<Unit>, nots: nat,
                   nest: Nesting)
  {
    Going(p, t, base) && Joins(p, op) && p.invert == nots && Top(p).nest == nest && lines == MarkLines(p)
  }

  lemma WithBranchSame(base: seq<BlockScope>)
    requires base != [] && !base[|base| - 1].inBranch
    ensures WithBranch(base, false) == base
  {
  }

  lemma {:induction false} CloseFlushed(p: Parser)
    requires Running(p)
    ensures EndBranch(CloseOneLiners(p)).blockstack == Flushed(p.blockstack)
    decreases |p.blockstack|
  {
    hide LeaveScope;
    if Top(p).braceLevel == 0 && |p.blockstack| > 1 {
      LeaveIs(p);
      CloseFlushed(LeaveScope(p));
    } else if !Top(p).inBranch {
      WithBranchSame(p.blockstack);
    }
  }

  lemma FlushedIs(p: Parser)
    requires Running(p) && p.state == StNew
    ensures FlushScopes(p).blockstack == Flushed(p.blockstack)
  {
    CloseFlushed(p);
  }

  predicate Low(extra: seq<BlockScope>) { forall i | 0 <= i < |extra| :: extra[i].braceLevel == 0 }

  lemma {:induction false} FlushedLow(base: seq<BlockScope>, waits: bool, extra: seq<BlockScope>)
    requires base != [] && Low(extra)
    ensures Flushed(WithBranch(base, waits) + extra) == Flushed(base)
    decreases |extra|
  {
    var stack, n := WithBranch(base, waits), |extra| - 1;
    if extra == [] {
      assert stack + extra == stack && stack[..|base| - 1] == base[..|base| - 1];
      assert WithBranch(stack, false) == WithBranch(base, false);
    } else {
      assert (stack + extra)[..|stack + extra| - 1] == stack + extra[..n];
      FlushedLow(base, waits, extra[..n]);
    }
  }

  lemma FlushedBase(base: seq<BlockScope>)
    requires Based(base, OnLine)
    ensures Flushed(base) == base
  {
    WithBranchSame(base);
  }

  // ---- tests

  lemma {:induction false} TakesBangs(p: Parser, t: Tale, n: nat)
    requires Running(p)
    ensures Takes(p, t, BangEvents(n), p.(invert := p.invert + n), t)
  {
    if n > 0 {
      TakesBangs(p, t, n - 1);
      var q := p.(invert := p.invert + (n - 1));
      TakesOne(q, t, Bang);
      TakesBoth(p, t, BangEvents(n - 1), q, t, [Bang], q.(invert := q.invert + 1), t);
    }
  }

  lemma GrewMarked(p: Parser, t: Tale, lines: seq<Unit>)
    requires lines == MarkLines(p)
    ensures Grew(t, Marked(p, t), |t.open|, LineItems(lines)) && Marked(p, t).open == t.open
  {
    if p.markLine != 0 {
      GrewLeaf(t, Line(p.markLine % 0x10000));
      assert LineItems(lines) == [Line(lines[0])];
    } else {
      GrewNothing(t, t, |t.open|);
    }
  }

  lemma GrewLinked(p: Parser, t: Tale, op: ConditionChain.Joint)
    requires Joins(p, op)
    ensures Grew(t, Linked(p, t), |t.open|, OpItems(op)) && Linked(p, t).open == t.open
  {
    match op
    case Fresh => GrewNothing(t, t, |t.open|);
    case Both => GrewLeaf(t, Op(AND));
    case Either => GrewLeaf(t, Op(OR));
  }

  lemma GrewNegated(p: Parser, t: Tale)
    ensures Grew(t, Negated(p, t), |t.open|, NotItems(p.invert % 2)) && Negated(p, t).open == t.open
  {
    if p.invert % 2 == 1 {
      GrewLeaf(t, Op(NOT));
      assert NotItems(1) == [Op(NOT)] + NotItems(0) == [Op(NOT)];
    } else {
      GrewNothing(t, t, |t.open|);
    }
  }

  /** A test adds itself with its marks, operator and negation. */
  lemma GrewTested(p: Parser, t: Tale, base: seq<BlockScope>, link: TestLink, lines: seq<Unit>, nest: Nesting)
    requires Before(p, t, base, link.op, lines, link.nots, nest) && IsLineTest(link.test)
    ensures Grew(t, Tested(p, t, link.test), |base|, LinkItems(Reduced(link, lines)))
    ensures |Tested(p, t, link.test).open| == |base|
  {
    hide Grew, Kept, Marked, Linked, Negated, Noted, FlushScopes, LineItems, OpItems, NotItems;
    var n, kept := |base|, Kept(t, FlushScopes(p));
    var marked := Marked(p, kept);
    var linked := Linked(p, marked);
    var negated := Negated(p, linked);
    GrewKept(t, n, FlushScopes(p));
    GrewMarked(p, kept, lines);
    GrewLinked(p, marked, link.op);
    GrewNegated(p, linked);
    GrewLeaf(negated, link.test);
    var nots := NotItems(link.nots % 2);
    GrewBoth(linked, negated, Noted(negated, link.test), n, nots, [link.test]);
    GrewBoth(marked, linked, Noted(negated, link.test), n, OpItems(link.op), nots + [link.test]);
    GrewBoth(kept, marked, Noted(negated, link.test), n, LineItems(lines), OpItems(link.op) + (nots + [link.test]));
    GrewBoth(t, kept, Noted(negated, link.test), n, [], LinkItems(Reduced(link, lines)));
    assert [] + LinkItems(Reduced(link, lines)) == LinkItems(Reduced(link, lines));
    NotedOpen(negated, link.test);
  }

  lemma NotedOpen(t: Tale, item: Item)
    ensures Noted(t, item).open == t.open
  {
  }

  lemma WordKeywords()
    ensures KeywordOf(Word(RETURN_WORD)) == KwReturn && KeywordOf(Word(BREAK_WORD)) == KwBreak
    ensures KeywordOf(Word(NEXT_WORD)) == KwNext && KeywordOf(Word(FOR_WORD)) == KwFor
    ensures KeywordOf(Word(DEFINE_TEST_WORD)) == KwDefineTest && KeywordOf(Word(BYPASS_WORD)) == KwBypass
    ensures KeywordOf(Word(DEFINE_REPLACE_WORD)) == KwDefineReplace
  {
  }

  lemma ElseWord()
    ensures IsElse(Word(ELSE_WORD))
  {
  }

  /** The call of a test, or the test itself if it is a plain condition. */
  lemma CallTested(p: Parser, t: Tale, link: TestLink, nest: Nesting)
    requires Running(p) && TestFits(link, nest) && Top(p).nest == nest && p.invert == link.nots
    requires !link.test.Cond? && IsLineTest(link.test)
    ensures var ev := TestEvents(link.test, ByNewline)[0];
      && TestEvents(link.test, ByColon)[0] == ev && TestEvents(link.test, ByPipe)[0] == ev
      && TestEvents(link.test, ByBrace)[0] == ev
      && Step(p, ev) == Put(FinalizeTest(p), EncItem(link.test))
      && EventTold(p, t, ev) == Tested(p, t, link.test)
  {
    hide FinalizeTest, Tested, EncExpr;
    WordKeywords();
    match link.test
    case Call(e, args) =>
    case Ret(args) =>
    case Jump(tok) =>
  }

  /** Ending a test says nothing more. */
  lemma ClosesLater(p: Parser, t: Tale, e: Expr, c: Closer)
    requires Running(p) && !IsElse(e)
    ensures var q := Put(FinalizeTest(p), EncItem(Item.Cond(e)));
      && Step(p, Closing(c, 1, e)) == Step(q, Closing(c, 0, End))
      && EventTold(p, t, Closing(c, 1, e)) == EventTold(q, Tested(p, t, Item.Cond(e)), Closing(c, 0, End))
  {
    hide FinalizeTest, Tested, EncExpr, OpenScope, ThenOpened;
  }

  lemma TakesTest(p: Parser, t: Tale, link: TestLink, nest: Nesting, c: Closer)
    requires Running(p) && TestFits(link, nest) && Top(p).nest == nest && p.invert == link.nots
    requires IsLineTest(link.test)
    ensures var q := Put(FinalizeTest(p), EncItem(link.test));
      var u, ev := Tested(p, t, link.test), Closing(c, 0, End);
      Takes(p, t, TestEvents(link.test, c), Step(q, ev), EventTold(q, u, ev))
  {
    hide FinalizeTest, Tested, EncItem, Step, EventTold, Takes, Run, Story;
    var q, u, ev := Put(FinalizeTest(p), EncItem(link.test)), Tested(p, t, link.test), Closing(c, 0, End);
    if link.test.Cond? {
      ClosesLater(p, t, link.test.e, c);
      TakesOne(p, t, Closing(c, 1, link.test.e));
    } else {
      CallTested(p, t, link, nest);
      var call := TestEvents(link.test, c)[0];
      TakesOne(p, t, call);
      TakesOne(q, u, ev);
      TakesBoth(p, t, [call], q, u, [ev], Step(q, ev), EventTold(q, u, ev));
      assert TestEvents(link.test, c) == [call] + [ev];
    }
  }

  lemma TestMid(p: Parser, t: Tale, base: seq<BlockScope>, item: Item, u: Tale)
    requires Going(p, t, base) && |u.open| == |base|
    ensures var q := Put(FinalizeTest(p), EncItem(item));
      Mid(q, u, base) && q.lineNo == p.lineNo && q.op == NoOperator && q.canElse
  {
    hide EncItem, FlushScopes, FinalizeTest;
    TestState(p);
    var q := Put(FinalizeTest(p), EncItem(item));
    PutRuns(FinalizeTest(p), EncItem(item));
    StaysOpen(q);
  }

  lemma PutRuns(p: Parser, units: seq<Unit>)
    requires Running(p)
    ensures Running(Put(p, units))
  {
  }

  /** What is pending is used up by a test. */
  lemma TestState(p: Parser)
    requires Running(p)
    ensures var q := FinalizeTest(p);
      && q.blockstack == FlushScopes(p).blockstack && q.lineNo == p.lineNo && q.ok == p.ok
      && q.testGrammar == p.testGrammar && q.state == StCond && q.canElse && q.invert == 0 && q.markLine == 0
      && q.op == NoOperator
  {
    hide FlushScopes, PutLineMarker, PutOperator, Running;
    FlushKeeps(p);
    FlushLine(p);
    MarkedState(FlushScopes(p));
  }

  lemma MarkedState(p: Parser)
    requires Running(p)
    ensures var q := PutOperator(PutLineMarker(p));
      && q.blockstack == p.blockstack && q.lineNo == p.lineNo && q.ok == p.ok && q.testGrammar == p.testGrammar
      && q.markLine == 0 && q.op == NoOperator && q.invert == p.invert
  {
    hide Running, Safe;
  }

  lemma StaysOpen(p: Parser)
    requires Running(p) && p.state != StNew
    ensures FlushScopes(p) == p
  {
  }

  lemma {:induction false} CloseLine(p: Parser)
    requires Running(p)
    ensures var q := CloseOneLiners(p); q.lineNo == p.lineNo && q.ok == p.ok && q.testGrammar == p.testGrammar
    decreases |p.blockstack|
  {
    if Top(p).braceLevel == 0 && |p.blockstack| > 1 {
      CloseLine(LeaveScope(p));
    }
  }

  lemma FlushLine(p: Parser)
    requires Running(p)
    ensures var q := FlushScopes(p); q.lineNo == p.lineNo && q.ok == p.ok && q.testGrammar == p.testGrammar
  {
    CloseLine(p);
  }

  lemma LeaveIs(p: Parser)
    requires Running(p)
    ensures var q := LeaveScope(p);
      && q.blockstack == p.blockstack[..|p.blockstack| - 1] && q.ok == p.ok && q.testGrammar == p.testGrammar
      && q.lineNo == p.lineNo && q.invert == p.invert && q.op == p.op
      && q.markLine == p.markLine && q.state == p.state
  {
    hide EndBlock;
  }

  lemma InvertFlush(p: Parser, n: nat)
    requires Running(p)
    ensures Running(p.(invert := n)) && FlushScopes(p.(invert := n)).blockstack == FlushScopes(p).blockstack
  {
    hide CloseOneLiners, EndBranch;
    if p.state == StNew {
      FlushedIs(p);
      FlushedIs(p.(invert := n));
    }
  }

  lemma LinkDone(p: Parser, t: Tale, base: seq<BlockScope>, link: TestLink, lines: seq<Unit>, nest: Nesting, c: Closer)
    returns (q: Parser, u: Tale)
    requires Before(p, t, base, link.op, lines, 0, nest) && TestFits(link, nest) && IsLineTest(link.test)
    ensures Running(q) && Mid(q, u, base) && q.lineNo == p.lineNo && q.op == NoOperator && q.canElse
    ensures Grew(t, u, |base|, LinkItems(Reduced(link, lines)))
    ensures var ev := Closing(c, 0, End); Takes(p, t, LinkEvents(link, c), Step(q, ev), EventTold(q, u, ev))
  {
    hide Takes, Grew, Mid, Step, EventTold, FinalizeTest, Tested, EncItem, FlushScopes, TestFits;
    TakesBangs(p, t, link.nots);
    var b := p.(invert := link.nots);
    InvertFlush(p, link.nots);
    q, u := Put(FinalizeTest(b), EncItem(link.test)), Tested(b, t, link.test);
    var ev := Closing(c, 0, End);
    TakesTest(b, t, link, nest, c);
    TakesBoth(p, t, BangEvents(link.nots), b, t, TestEvents(link.test, c), Step(q, ev), EventTold(q, u, ev));
    GrewTested(b, t, base, link, lines, nest);
    TestMid(b, t, base, link.test, u);
  }

  lemma JoinStep(q: Parser, u: Tale, base: seq<BlockScope>, op: ConditionChain.Joint)
    requires Mid(q, u, base) && q.op == NoOperator && !op.Fresh?
    ensures var ev := Closing(if op.Either? then ByPipe else ByColon, 0, End);
      && Step(q, ev) == q.(op := OpOf(op)) && EventTold(q, u, ev) == u
      && Before(Step(q, ev), u, base, op, [], 0, base[|base| - 1].nest)
  {
    StaysOpen(q);
    StaysOpen(q.(op := OpOf(op)));
    hide FlushScopes;
  }

  predicate LinksFit(links: seq<TestLink>, nest: Nesting, lazy: Nesting) {
    && links != [] && IsLine(links) && TestFits(links[0], lazy)
    && forall i | 1 <= i < |links| :: !links[i].op.Fresh? && TestFits(links[i], nest)
  }

  /** A line of tests up to what closes it. */
  lemma {:induction false} ChainDone(p: Parser, t: Tale, base: seq<BlockScope>, links: seq<TestLink>, lines: seq<Unit>,
                                     lazy: Nesting, c: Closer)
    returns (q: Parser, u: Tale)
    requires base != [] && LinksFit(links, base[|base| - 1].nest, lazy)
    requires Before(p, t, base, links[0].op, lines, 0, lazy)
    ensures Running(q) && Mid(q, u, base) && q.lineNo == p.lineNo && q.op == NoOperator && q.canElse
    ensures Grew(t, u, |base|, TestItems(links, lines))
    ensures var ev := Closing(c, 0, End); Takes(p, t, ChainEvents(links, c), Step(q, ev), EventTold(q, u, ev))
    decreases |links|
  {
    hide Takes, Grew, Mid, Step, EventTold, Before, TestFits, LinkItems;
    var nest := base[|base| - 1].nest;
    if |links| == 1 {
      q, u := LinkDone(p, t, base, links[0], lines, lazy, c);
      assert TestItems(links[1..], []) == [];
      assert TestItems(links, lines) == LinkItems(Reduced(links[0], lines)) + [] == LinkItems(Reduced(links[0], lines));
    } else {
      var join, rest := if links[1].op.Either? then ByPipe else ByColon, links[1..];
      var r, v := LinkDone(p, t, base, links[0], lines, lazy, join);
      JoinStep(r, v, base, links[1].op);
      var s := Step(r, Closing(join, 0, End));
      assert s.lineNo == r.lineNo;
      assert LinksFit(rest, nest, nest) by {
        forall i | 1 <= i < |rest| ensures !rest[i].op.Fresh? && TestFits(rest[i], nest) {
          assert rest[i] == links[i + 1];
        }
      }
      q, u := ChainDone(s, v, base, rest, [], nest, c);
      var ev := Closing(c, 0, End);
      TakesBoth(p, t, LinkEvents(links[0], join), s, v, ChainEvents(rest, c), Step(q, ev), EventTold(q, u, ev));
      GrewBoth(t, v, u, |base|, LinkItems(Reduced(links[0], lines)), TestItems(rest, []));
    }
  }

  /** The tests of a line, or of what is left of it. */
  lemma LineDone(p: Parser, t: Tale, base: seq<BlockScope>, links: seq<TestLink>, lines: seq<Unit>, lazy: Nesting,
                 c: Closer)
    returns (q: Parser, u: Tale)
    requires Starts(p, t, base, lazy, lines) && LineFits(links, base[|base| - 1].nest, lazy)
    ensures Running(q) && Mid(q, u, base) && q.lineNo == p.lineNo && q.op == NoOperator && q.canElse
    ensures Grew(t, u, |base|, TestItems(links, lines))
    ensures var ev := Closing(c, 0, End); Takes(p, t, ChainEvents(links, c), Step(q, ev), EventTold(q, u, ev))
  {
    hide FlushScopes, Takes, Grew, Mid, Step, EventTold, TestFits;
    q, u := ChainDone(p, t, base, links, lines, lazy, c);
  }

  // ---- ends of lines

  /** Behind an assignment, a closing brace or a line; `Eol` also if a line has just ended. */
  predicate Ending(q: Parser, u: Tale) {
    Running(q) && q.ok && !q.testGrammar && q.lineNo > 0 && |u.open| == |q.blockstack|
  }

  predicate Eol(q: Parser, u: Tale) {
    Ending(q, u) && q.state == StNew && q.invert == 0 && q.op == NoOperator && q.markLine == q.lineNo
  }

  lemma EndsLine(q: Parser, u: Tale)
    requires Ending(q, u)
    ensures var r := Step(q, NEWLINE);
      && Eol(r, u) && r.blockstack == q.blockstack && r.canElse == q.canElse && r.lineNo == q.lineNo + 1
    ensures EventTold(q, u, NEWLINE) == u && Takes(q, u, [NEWLINE], Step(q, NEWLINE), u)
  {
    TakesOne(q, u, NEWLINE);
  }

  /** The next line starts in the innermost scope of `base`. */
  lemma NextStarts(q: Parser, u: Tale, base: seq<BlockScope>, waits: bool, extra: seq<BlockScope>)
    requires Eol(q, u) && Based(base, OnLine) && Low(extra) && q.blockstack == WithBranch(base, waits) + extra
    ensures Starts(q, u, base, Top(q).nest, LineOf(q.lineNo))
  {
    hide FlushScopes, Flushed;
    FlushedIs(q);
    FlushedLow(base, waits, extra);
    FlushedBase(base);
  }

  // ---- settings

  lemma SetStep(p: Parser, s: Setting)
    requires Running(p) && p.ok && !p.testGrammar && p.state != StCond && p.invert == 0
    requires p.op == NoOperator || p.op == AndOperator
    ensures var q := Step(p, SetEvent(s));
      && q.ok && !q.testGrammar && q.blockstack == FlushScopes(p).blockstack && q.state == p.state
      && q.lineNo == p.lineNo && q.markLine == 0 && q.canElse == FlushScopes(p).canElse
  {
    hide FlushScopes, EncExpr, SizeHint, Running;
    FlushKeeps(p);
    FlushLine(p);
  }

  lemma SetTold(p: Parser, t: Tale, s: Setting)
    requires Running(p) && p.state != StCond
    ensures EventTold(p, t, SetEvent(s)) == Noted(Marked(p, Kept(t, FlushScopes(p))), SetItem(s))
  {
  }

  /** An assignment in the scopes that are open when its line starts, or behind what opened a block. */
  lemma SetDone(p: Parser, t: Tale, base: seq<BlockScope>, lazy: Nesting, lines: seq<Unit>, s: Setting)
    requires Starts(p, t, base, lazy, lines)
    ensures var q, u := Step(p, SetEvent(s)), EventTold(p, t, SetEvent(s));
      && Ending(q, u) && q.blockstack == base && q.lineNo == p.lineNo && q.canElse == FlushScopes(p).canElse
      && Grew(t, u, |base|, LineItems(lines) + [SetItem(s)])
  {
    hide FlushScopes, Grew, Kept, Marked, Noted, SizeHint, LineItems, MarkLines, Step;
    SetStep(p, s);
    var kept := Kept(t, FlushScopes(p));
    var marked := Marked(p, kept);
    var n := |base|;
    GrewKept(t, n, FlushScopes(p));
    GrewMarked(p, kept, lines);
    GrewLeaf(marked, SetItem(s));
    NotedOpen(marked, SetItem(s));
    var u := Noted(marked, SetItem(s));
    GrewBoth(kept, marked, u, n, LineItems(lines), [SetItem(s)]);
    GrewBoth(t, kept, u, n, [], LineItems(lines) + [SetItem(s)]);
    assert [] + (LineItems(lines) + [SetItem(s)]) == LineItems(lines) + [SetItem(s)];
    SetTold(p, t, s);
  }

  // ---- bodies

  /** Behind what opens a block in braces. */
  predicate Entered(q: Parser, u: Tale, below: seq<BlockScope>, scope: BlockScope) {
    && Ending(q, u) && q.blockstack == below + [scope] && q.state == StNew && q.invert == 0 && q.op == NoOperator
    && scope.braceLevel == 1 && !scope.inBranch && |below| > 0
  }

  /** These items were said in the block that was the innermost one in `u`, above `n` others. */
  predicate Said(u: Tale, w: Tale, n: nat, items: seq<Item>) {
    && |u.open| == n + 1 && 0 < n <= |w.open| && w.open[..n] == u.open[..n]
    && w.notes == u.notes + Flat(items, u.open[n].head, |u.notes|)
  }

  lemma SaidGrew(u: Tale, w: Tale, n: nat, items: seq<Item>)
    requires |u.open| == n + 1 && n > 0 && Grew(u, w, n + 1, items)
    ensures Said(u, w, n, items)
  {
    hide Flat;
  }

  /** No else can start a branch of its own here. */
  predicate NoFreshElse(p: Parser)
    requires |p.blockstack| > 0
  {
    p.canElse ==> Top(p).special && Top(p).braceLevel == 0
  }

  /** An else passes over these scopes: they close before it. */
  predicate Skipped(extra: seq<BlockScope>) {
    forall i | 0 <= i < |extra| :: extra[i].braceLevel == 0 && (extra[i].inBranch ==> extra[i].special)
  }

  lemma BraceCloses(p: Parser, t: Tale, below: seq<BlockScope>, scope: BlockScope)
    requires Going(p, t, below + [scope]) && p.invert == 0 && p.op == NoOperator && p.state == StNew
    requires scope.braceLevel == 1 && |below| > 0
    ensures var r, w := Step(p, CLOSE_BRACE), EventTold(p, t, CLOSE_BRACE);
      && Eol(r, w) && r.blockstack == below && !r.canElse && r.lineNo == p.lineNo
      && w.notes == t.notes && w.open == t.open[..|below|]
      && Takes(p, t, [CLOSE_BRACE], r, w)
  {
    hide FlushScopes;
    TakesOne(p, t, CLOSE_BRACE);
    CloseStep(p, below, scope);
  }

  lemma CloseStep(p: Parser, below: seq<BlockScope>, scope: BlockScope)
    requires Running(p) && p.ok && p.invert == 0 && p.op == NoOperator && p.state == StNew
    requires FlushScopes(p).blockstack == below + [scope] && scope.braceLevel == 1 && |below| > 0
    ensures var r := Step(p, CLOSE_BRACE);
      && r == CloseScope(p) && r.ok && r.testGrammar == p.testGrammar && r.lineNo == p.lineNo == r.markLine
      && r.blockstack == below && r.state == StNew && r.invert == 0 && r.op == NoOperator && !r.canElse
  {
    assert p.(state := StNew) == p;
    hide FlushScopes, LeaveScope;
    FlushLine(p);
    var f := FailOperator(FlushScopes(p));
    FlushKeeps(p);
    var d := SetTop(f, Top(f).(braceLevel := 0));
    LeaveIs(d);
    assert d.blockstack[..|d.blockstack| - 1] == below;
  }

  /** Behind the opening of a body: an inline statement starts here, or a line ends behind the brace. */
  predicate Opens(e: Parser, x: Tale, below: seq<BlockScope>, scope: BlockScope, b: Body, place: Place,
                  lines: seq<Unit>)
  {
    if b.Braces? then Entered(e, x, below, scope)
    else
      && Starts(e, x, below + [scope], scope.nest, lines) && e.blockstack == below + [scope] && !e.canElse
      && |below| > 0 && e.state == StCtrl && Based(below + [scope], place) && !place.OnLine?
  }

  /** Behind a body: its scope and those in it may still be open, if it has no braces. */
  predicate Closes(r: Parser, w: Tale, below: seq<BlockScope>, extra: seq<BlockScope>, place: Place) {
    && Eol(r, w) && r.blockstack == below + extra && |below| > 0 && Low(extra)
    && (extra == [] ==> !r.canElse)
    && (!place.AfterElse? ==> Skipped(extra) && NoFreshElse(r))
  }

  lemma {:induction false} BodyDone(e: Parser, x: Tale, below: seq<BlockScope>, scope: BlockScope, b: Body,
                                    place: Place, lines: seq<Unit>)
    returns (r: Parser, w: Tale, extra: seq<BlockScope>)
    requires Opens(e, x, below, scope, b, place, lines) && BodyFits(b, scope.nest, place) && !place.OnLine?
    ensures BodyMade(b)
    ensures Closes(r, w, below, extra, place) && r.lineNo == e.lineNo + BodyCount(b)
    ensures if b.Braces? then extra == [] else extra != [] && Top(r).nest == BodyAfter(b, scope.nest)
    ensures Said(x, w, |below|, BodyTree(b, e.lineNo, lines))
    ensures Takes(e, x, PrintBody(b), r, w)
    decreases b, 1
  {
    hide FlushScopes, Takes, Step, EventTold, Flat, Starts, StmtFits, StmtTree, StmtMade, LazyAfter, StmtCount;
    hide Grew, Said, Fits, Tree, Print, Lines, PrintStmt, AllMade;
    BodyFitsMade(b, scope.nest, place);
    match b
    case Braces(stmts) =>
      r, w := BracesDone(e, x, below, scope, stmts);
      extra := [];
      assert below + [] == below;
    case Inline(stmt) =>
      var more;
      var base := below + [scope];
      r, w, more := StmtDone(e, x, base, scope.nest, lines, stmt, place);
      if place.AfterTests? {
        NeverWaits(stmt, scope.nest);
      }
      InlineCloses(r, below, scope, Waits(stmt), more, place);
      extra := [scope.(inBranch := Waits(stmt))] + more;
      assert |x.open| == |below| + 1 by { StartsOpen(e, x, base, scope.nest, lines); }
      SaidGrew(x, w, |below|, StmtTree(stmt, e.lineNo, lines));
  }

  lemma NeverWaits(s: Stmt, nest: Nesting)
    requires StmtFits(s, nest, nest, AfterTests)
    ensures !Waits(s)
  {
  }

  lemma StartsOpen(p: Parser, t: Tale, base: seq<BlockScope>, lazy: Nesting, lines: seq<Unit>)
    requires Starts(p, t, base, lazy, lines) && p.blockstack == base
    ensures |t.open| == |base|
  {
  }

  lemma InlineCloses(r: Parser, below: seq<BlockScope>, scope: BlockScope, waits: bool, more: seq<BlockScope>,
                     place: Place)
    requires Based(below + [scope], place) && !place.OnLine? && Low(more)
    requires r.blockstack == WithBranch(below + [scope], waits) + more
    requires place.AfterTests? ==> !waits
    ensures var extra := [scope.(inBranch := waits)] + more;
      && r.blockstack == below + extra && Low(extra)
      && (!place.AfterElse? && Skipped(more) ==> Skipped(extra))
  {
    assert WithBranch(below + [scope], waits) == below + [scope.(inBranch := waits)];
  }

  lemma {:induction false} BracesDone(e: Parser, x: Tale, below: seq<BlockScope>, scope: BlockScope, stmts: seq<Stmt>)
    returns (r: Parser, w: Tale)
    requires Entered(e, x, below, scope) && Fits(stmts, scope.nest, scope.nest)
    ensures AllMade(stmts)
    ensures Eol(r, w) && r.blockstack == below && !r.canElse && r.lineNo == e.lineNo + 1 + Lines(stmts)
    ensures Said(x, w, |below|, Tree(stmts, e.lineNo + 1))
    ensures Takes(e, x, [NEWLINE] + (Print(stmts) + [CLOSE_BRACE]), r, w)
    decreases stmts, 1
  {
    hide FlushScopes, Takes, Step, EventTold, Flat, Flushed, Print, Tree, Lines, Fits, AllMade;
    FitsMade(stmts, scope.nest, scope.nest);
    var base := below + [scope];
    EndsLine(e, x);
    var s := Step(e, NEWLINE);
    WithBranchSame(base);
    assert base + [] == base;
    NextStarts(s, x, base, false, []);
    var s', u' := StmtsDone(s, x, base, scope.nest, stmts);
    BraceCloses(s', u', below, scope);
    r, w := Step(s', CLOSE_BRACE), EventTold(s', u', CLOSE_BRACE);
    TakesBoth(s, x, Print(stmts), s', u', [CLOSE_BRACE], r, w);
    TakesBoth(e, x, [NEWLINE], s, x, Print(stmts) + [CLOSE_BRACE], r, w);
    assert u'.open[..|below|] == x.open[..|below|];
  }

  /** A closing brace does not end its line. */
  lemma BodyEnds(r: Parser, w: Tale, b: Body) returns (q: Parser)
    requires Eol(r, w)
    ensures Eol(q, w) && q.blockstack == r.blockstack && q.canElse == r.canElse && q.lineNo == r.lineNo + EndCount(b)
    ensures Takes(r, w, EndOf(b), q, w)
  {
    hide Takes, Step;
    if b.Braces? {
      EndsLine(r, w);
      q := Step(r, NEWLINE);
    } else {
      q := r;
      TakesNothing(r, w);
    }
  }

  lemma TakesNothing(p: Parser, t: Tale)
    requires Running(p)
    ensures Takes(p, t, [], p, t)
  {
  }

  // ---- statements

  lemma {:induction false} StmtsDone(p: Parser, t: Tale, base: seq<BlockScope>, lazy: Nesting, stmts: seq<Stmt>)
    returns (q: Parser, u: Tale)
    requires Starts(p, t, base, lazy, LineOf(p.lineNo)) && p.state == StNew && Based(base, OnLine)
    requires Fits(stmts, base[|base| - 1].nest, lazy)
    ensures AllMade(stmts)
    ensures Going(q, u, base) && q.invert == 0 && q.op == NoOperator && q.state == StNew
    ensures q.lineNo == p.lineNo + Lines(stmts)
    ensures Grew(t, u, |base|, Tree(stmts, p.lineNo))
    ensures Takes(p, t, Print(stmts), q, u)
    decreases stmts, 0
  {
    hide FlushScopes, Takes, Grew, StmtFits, StmtTree, PrintStmt, StmtMade, StmtCount, LazyAfter, Flushed;
    var nest := base[|base| - 1].nest;
    FitsMade(stmts, nest, lazy);
    if stmts == [] {
      q, u := p, t;
      GrewNothing(t, t, |base|);
      TakesNothing(p, t);
    } else {
      var s, v, extra := StmtDone(p, t, base, lazy, LineOf(p.lineNo), stmts[0], OnLine);
      NextStarts(s, v, base, Waits(stmts[0]), extra);
      q, u := StmtsDone(s, v, base, LazyAfter(stmts[0], nest), stmts[1..]);
      TakesBoth(p, t, PrintStmt(stmts[0]), s, v, Print(stmts[1..]), q, u);
      GrewBoth(t, v, u, |base|, StmtTree(stmts[0], p.lineNo, LineOf(p.lineNo)), Tree(stmts[1..], s.lineNo));
    }
  }

  /** The branch that a statement ends with can still get an else. */
  predicate Waits(s: Stmt) { s.If? && s.els.NoElse? }

  /** A statement has ended with its line. */
  predicate Settled(q: Parser, u: Tale, base: seq<BlockScope>, waits: bool, extra: seq<BlockScope>, place: Place) {
    && base != [] && Eol(q, u) && q.blockstack == WithBranch(base, waits) + extra && Low(extra)
    && (place.AfterHead? || place.AfterTests? ==> Skipped(extra) && NoFreshElse(q))
  }

  lemma {:induction false} StmtDone(p: Parser, t: Tale, base: seq<BlockScope>, lazy: Nesting, lines: seq<Unit>,
                                    s: Stmt, place: Place)
    returns (q: Parser, u: Tale, extra: seq<BlockScope>)
    requires Starts(p, t, base, lazy, lines) && Based(base, place) && (place.OnLine? <==> p.state == StNew)
    requires StmtFits(s, base[|base| - 1].nest, lazy, place)
    requires place.OnLine? || !p.canElse
    ensures StmtMade(s)
    ensures Settled(q, u, base, Waits(s), extra, place)
    ensures Top(q).nest == LazyAfter(s, base[|base| - 1].nest) && q.lineNo == p.lineNo + StmtCount(s)
    ensures Grew(t, u, |base|, StmtTree(s, p.lineNo, lines))
    ensures Takes(p, t, PrintStmt(s), q, u)
    decreases s, 1
  {
    hide FlushScopes, Takes, Grew;
    StmtFitsMade(s, base[|base| - 1].nest, lazy, place);
    match s
    case Tests(links) =>
      q, u := TestsDone(p, t, base, lazy, lines, links);
      extra := [];
      WithBranchSame(base);
    case Set(setting) =>
      q, u := SetLineDone(p, t, base, lazy, lines, setting, place);
      extra := [];
      WithBranchSame(base);
    case If(_, _, _) => q, u, extra := IfDone(p, t, base, lazy, lines, s, place);
    case IfNot(_, _) => q, u, extra := IfNotDone(p, t, base, lazy, lines, s, place);
    case Block(_, _) => q, u, extra := BlockDone(p, t, base, lazy, lines, s, place);
  }

  lemma TestsDone(p: Parser, t: Tale, base: seq<BlockScope>, lazy: Nesting, lines: seq<Unit>, links: seq<TestLink>)
    returns (q: Parser, u: Tale)
    requires Starts(p, t, base, lazy, lines) && LineFits(links, base[|base| - 1].nest, lazy)
    ensures Eol(q, u) && q.blockstack == base && q.canElse && q.lineNo == p.lineNo + 1
    ensures Grew(t, u, |base|, TestItems(links, lines))
    ensures Takes(p, t, ChainEvents(links, ByNewline), q, u)
  {
    hide FlushScopes, Takes, Grew, Step, EventTold;
    var m, v := LineDone(p, t, base, links, lines, lazy, ByNewline);
    EndsLine(m, v);
    q, u := Step(m, NEWLINE), v;
  }

  lemma SetLineDone(p: Parser, t: Tale, base: seq<BlockScope>, lazy: Nesting, lines: seq<Unit>, s: Setting,
                    place: Place)
    returns (q: Parser, u: Tale)
    requires Starts(p, t, base, lazy, lines) && (place.OnLine? || (p.state != StNew && !p.canElse))
    ensures Eol(q, u) && q.blockstack == base && q.lineNo == p.lineNo + 1 && (place.OnLine? || !q.canElse)
    ensures Grew(t, u, |base|, LineItems(lines) + [SetItem(s)])
    ensures Takes(p, t, [SetEvent(s), NEWLINE], q, u)
  {
    if p.state != StNew {
      StaysOpen(p);
    }
    hide FlushScopes, Takes, Grew, Step, EventTold;
    SetDone(p, t, base, lazy, lines, s);
    TakesOne(p, t, SetEvent(s));
    var m, v := Step(p, SetEvent(s)), EventTold(p, t, SetEvent(s));
    EndsLine(m, v);
    q, u := Step(m, NEWLINE), v;
    TakesBoth(p, t, [SetEvent(s)], m, v, [NEWLINE], q, u);
    assert [SetEvent(s)] + [NEWLINE] == [SetEvent(s), NEWLINE];
  }

  // ---- what opens a body behind an else or a head

  /** Behind an else or the head of a block, whose scope is open. */
  predicate Headed(q: Parser, h: Tale, below: seq<BlockScope>, scope: BlockScope) {
    && Ending(q, h) && q.blockstack == below + [scope] && q.state == StCtrl && q.invert == 0 && q.op == NoOperator
    && q.markLine == q.lineNo && scope.braceLevel == 0 && !scope.inBranch && |below| > 0 && !q.canElse
  }

  /** A brace behind the head of a block only opens it. */
  lemma CtrlBrace(d: Parser, t: Tale)
    requires Running(d) && d.state == StCtrl && d.ok && !d.testGrammar && d.invert == 0 && d.op == NoOperator
    requires |t.open| == |d.blockstack|
    ensures OpenScope(d) == SetTop(d, Top(d).(braceLevel := Top(d).braceLevel + 1)).(state := StNew)
    ensures ThenOpened(FailOperator(DropColon(d)), t) == t
  {
    assert DropColon(d) == d && FailOperator(d) == d;
    assert FlushCond(d) == d;
  }

  lemma ColonStep(m: Parser, v: Tale)
    requires Running(m) && m.ok && m.invert == 0 && m.op == NoOperator && m.state != StNew
    ensures Step(m, Colon(0, End)) == m.(op := AndOperator) && EventTold(m, v, Colon(0, End)) == v
  {
  }

  lemma BodyOpens(d: Parser, x: Tale, below: seq<BlockScope>, scope: BlockScope, b: Body, place: Place)
    returns (scope': BlockScope)
    requires Headed(d, x, below, scope) && (place.AfterElse? || place.AfterHead?)
    requires place.AfterHead? <==> scope.special
    ensures var ev := Closing(Opening(b), 0, End);
      && Opens(Step(d, ev), x, below, scope', b, place, LineOf(d.lineNo)) && Step(d, ev).lineNo == d.lineNo
      && EventTold(d, x, ev) == x
    ensures scope'.nest == scope.nest
  {
    if b.Braces? {
      scope' := scope.(braceLevel := 1);
      CtrlBrace(d, x);
      assert d.blockstack[|below| := scope'] == below + [scope'];
      hide OpenScope, ThenOpened;
    } else {
      scope' := scope;
      ColonStep(d, x);
      StaysOpen(d.(op := AndOperator));
      hide FlushScopes;
    }
  }

  /** From behind an else or a head to the end of the line that ends the body. */
  lemma {:induction false} HeadedDone(d: Parser, x: Tale, below: seq<BlockScope>, scope: BlockScope, b: Body,
                                      place: Place)
    returns (q: Parser, u: Tale, extra: seq<BlockScope>)
    requires Headed(d, x, below, scope) && (place.AfterElse? || place.AfterHead?)
    requires (place.AfterHead? <==> scope.special) && BodyFits(b, scope.nest, place)
    ensures BodyMade(b)
    ensures Closes(q, u, below, extra, place) && q.lineNo == d.lineNo + (BodyCount(b) + EndCount(b))
    ensures if b.Braces? then extra == [] else extra != [] && Top(q).nest == BodyAfter(b, scope.nest)
    ensures Said(x, u, |below|, BodyTree(b, d.lineNo, LineOf(d.lineNo)))
    ensures Takes(d, x, [Closing(Opening(b), 0, End)] + (PrintBody(b) + EndOf(b)), q, u)
    decreases b, 2
  {
    hide Takes, Step, EventTold, Opens, Said, BodyFits, BodyTree, PrintBody, BodyCount, BodyMade, BodyAfter, EndOf;
    var ev := Closing(Opening(b), 0, End);
    var scope' := BodyOpens(d, x, below, scope, b, place);
    var e := Step(d, ev);
    var r;
    r, u, extra := BodyDone(e, x, below, scope', b, place, LineOf(d.lineNo));
    q := BodyEnds(r, u, b);
    TakesOne(d, x, ev);
    TakesBoth(e, x, PrintBody(b), r, u, EndOf(b), q, u);
    TakesBoth(d, x, [ev], e, x, PrintBody(b) + EndOf(b), q, u);
  }

  // ---- then blocks

  /** A then block is open on top of `v`. */
  predicate ThenTold(v: Tale, u: Tale) {
    var fork := |v.notes|;
    && u.notes == v.notes + [Note(Here(v).head, Fork), Note(fork, Then)]
    && u.open == v.open[|v.open| - 1 := Here(v).(fork := fork)] + [Open(fork + 1, FILE)]
  }

  lemma ThenStep(m: Parser, v: Tale, base: seq<BlockScope>)
    requires Mid(m, v, base)
    ensures var q := FlushCond(m);
      && Running(q) && |q.blockstack| == |base| + 1
      && q.blockstack == WithBranch(base, true) + [q.blockstack[|base|]]
      && q.blockstack[|base|] == BlockScope(|m.toks| + 1, 0, false, false, base[|base| - 1].nest)
      && q.state == StNew && q.ok && !q.testGrammar && q.lineNo == m.lineNo && q.markLine == 0
      && q.op == m.op && q.invert == 0 && !q.canElse
    ensures ThenTold(v, ThenOpened(m, v))
  {
    var q := FlushCond(m);
    assert q.blockstack == WithBranch(base, true) + [BlockScope(|m.toks| + 1, 0, false, false, base[|base| - 1].nest)];
  }

  lemma BraceStep(d: Parser)
    requires Running(d) && d.invert == 0 && d.op == NoOperator && d.ok && !d.testGrammar
    ensures var f, q := FlushCond(d), Step(d, OPEN_BRACE);
      && q == SetTop(f, Top(f).(braceLevel := Top(f).braceLevel + 1)).(state := StNew, ok := f.ok && !f.testGrammar)
    ensures forall t :: EventTold(d, t, OPEN_BRACE) == ThenOpened(d, t)
  {
    assert DropColon(d) == d && FailOperator(d) == d;
  }

  lemma ThenEntered(m: Parser, v: Tale, base: seq<BlockScope>) returns (scope: BlockScope)
    requires Mid(m, v, base) && m.op == NoOperator
    ensures var q, u := Step(m, OPEN_BRACE), EventTold(m, v, OPEN_BRACE);
      && Entered(q, u, WithBranch(base, true), scope) && scope.nest == base[|base| - 1].nest && q.lineNo == m.lineNo
      && ThenTold(v, u)
  {
    hide FlushCond, ThenOpened, Step, EventTold;
    ThenStep(m, v, base);
    BraceStep(m);
    var f := FlushCond(m);
    scope := Top(f).(braceLevel := 1);
    assert f.blockstack[|base| := scope] == WithBranch(base, true) + [scope];
  }

  /** A statement behind tests runs as one behind an else does, in the then block that it opens itself. */
  function Inside(c: Parser): Parser
    requires Running(c)
  {
    FlushCond(c).(state := StCtrl)
  }

  lemma InsideSet(c: Parser, v: Tale, base: seq<BlockScope>, s: Setting)
    requires Mid(c, v, base) && c.op == AndOperator
    ensures Running(Inside(c))
    ensures Step(c, SetEvent(s)) == Step(Inside(c), SetEvent(s)).(state := StNew)
    ensures EventTold(c, v, SetEvent(s)) == EventTold(Inside(c), ThenOpened(c, v), SetEvent(s))
  {
    ThenStep(c, v, base);
    hide SizeHint, EncExpr;
    var d := Inside(c);
    assert FlushCond(d) == d;
  }

  lemma InsideFor(c: Parser, v: Tale, base: seq<BlockScope>, args: Expr)
    requires Mid(c, v, base) && c.op == AndOperator && LoopOf(args) != []
    ensures Running(Inside(c))
    ensures Step(c, HeadEvent(ForHead(args))) == Step(Inside(c), HeadEvent(ForHead(args)))
    ensures EventTold(c, v, HeadEvent(ForHead(args)))
         == EventTold(Inside(c), ThenOpened(c, v), HeadEvent(ForHead(args)))
  {
    ThenStep(c, v, base);
    WordKeywords();
    hide LoopOf, EncForHead;
    var d := Inside(c);
    var c', d' := DropColon(c), DropColon(d);
    assert FlushCond(d') == d' == FlushCond(c').(state := StCtrl);
  }

  lemma TakesLike(p: Parser, t: Tale, p': Parser, t': Tale, ev: Event, rest: seq<Event>, q: Parser, u: Tale)
    requires Running(p) && Running(p') && Takes(p', t', [ev] + rest, q, u)
    requires Step(p, ev) == Step(p', ev) && EventTold(p, t, ev) == EventTold(p', t', ev)
    ensures Takes(p, t, [ev] + rest, q, u)
  {
    var r, v := Step(p, ev), EventTold(p, t, ev);
    TakesOne(p, t, ev);
    TakesOne(p', t', ev);
    var q', u' := Run(r, rest), Story(r, v, rest);
    assert Takes(r, v, rest, q', u');
    TakesBoth(p, t, [ev], r, v, rest, q', u');
    TakesBoth(p', t', [ev], r, v, rest, q', u');
  }

  lemma InsideTakes(c: Parser, v: Tale, base: seq<BlockScope>, s: Stmt, nest: Nesting, q: Parser, u: Tale)
    requires Mid(c, v, base) && c.op == AndOperator && StmtFits(s, nest, nest, AfterTests) && StmtMade(s)
    requires Takes(Inside(c), ThenOpened(c, v), PrintStmt(s), q, u)
    ensures Takes(c, v, PrintStmt(s), q, u)
  {
    hide Step, EventTold, FlushCond, ThenOpened, Inside, Takes, BodyFits, PrintBody;
    match s
    case Set(setting) =>
      InsideSet(c, v, base, setting);
      InsideSetTakes(c, v, base, setting, q, u);
    case Block(head, body) =>
      InsideFor(c, v, base, head.args);
      TakesLike(c, v, Inside(c), ThenOpened(c, v), HeadEvent(head),
                [Closing(Opening(body), 0, End)] + (PrintBody(body) + EndOf(body)), q, u);
  }

  lemma InsideSetTakes(c: Parser, v: Tale, base: seq<BlockScope>, s: Setting, q: Parser, u: Tale)
    requires Mid(c, v, base) && c.op == AndOperator
    requires Running(Inside(c)) && Takes(Inside(c), ThenOpened(c, v), [SetEvent(s), NEWLINE], q, u)
    ensures Takes(c, v, [SetEvent(s), NEWLINE], q, u)
  {
    hide Takes, Step, EventTold, FlushCond, ThenOpened, Inside;
    InsideSet(c, v, base, s);
    var d, x := Inside(c), ThenOpened(c, v);
    var r, r', w := Step(c, SetEvent(s)), Step(d, SetEvent(s)), EventTold(c, v, SetEvent(s));
    TakesOne(c, v, SetEvent(s));
    TakesOne(d, x, SetEvent(s));
    NewlineSame(r, r', w);
    TakesOne(r, w, NEWLINE);
    TakesOne(r', w, NEWLINE);
    TakesBoth(c, v, [SetEvent(s)], r, w, [NEWLINE], Step(r, NEWLINE), EventTold(r, w, NEWLINE));
    TakesBoth(d, x, [SetEvent(s)], r', w, [NEWLINE], Step(r', NEWLINE), EventTold(r', w, NEWLINE));
    assert [SetEvent(s)] + [NEWLINE] == [SetEvent(s), NEWLINE];
    TakesSame(d, x, [SetEvent(s), NEWLINE], q, u, Step(r', NEWLINE), EventTold(r', w, NEWLINE));
  }

  lemma NewlineSame(r: Parser, r': Parser, w: Tale)
    requires Running(r) && Running(r') && r == r'.(state := StNew)
    ensures Step(r, NEWLINE) == Step(r', NEWLINE) && EventTold(r, w, NEWLINE) == EventTold(r', w, NEWLINE)
  {
  }

  lemma TakesSame(p: Parser, t: Tale, evs: seq<Event>, q: Parser, u: Tale, q': Parser, u': Tale)
    requires Takes(p, t, evs, q, u) && Takes(p, t, evs, q', u')
    ensures q == q' && u == u'
  {
  }

  /** Behind the tests of a branch: its then block. */
  lemma {:induction false} ThenDone(m: Parser, v: Tale, base: seq<BlockScope>, thn: Body)
    returns (r: Parser, w: Tale, extra: seq<BlockScope>, x: Tale)
    requires Mid(m, v, base) && m.op == NoOperator && BodyFits(thn, base[|base| - 1].nest, AfterTests)
    ensures BodyMade(thn)
    ensures Closes(r, w, WithBranch(base, true), extra, AfterTests) && r.lineNo == m.lineNo + BodyCount(thn)
    ensures if thn.Braces? then extra == [] else extra != [] && Top(r).nest == BodyAfter(thn, base[|base| - 1].nest)
    ensures ThenTold(v, x) && Said(x, w, |base|, BodyTree(thn, m.lineNo, []))
    ensures var ev := Closing(Opening(thn), 0, End);
      Takes(Step(m, ev), EventTold(m, v, ev), PrintBody(thn), r, w)
    decreases thn, 2
  {
    hide Takes, Step, EventTold, ThenTold, Said, BodyFits, BodyTree, PrintBody, BodyCount, BodyMade, BodyAfter;
    hide FlushCond, ThenOpened, Inside, Closes;
    var nest := base[|base| - 1].nest;
    if thn.Braces? {
      var scope := ThenEntered(m, v, base);
      x := EventTold(m, v, OPEN_BRACE);
      var e := Step(m, OPEN_BRACE);
      r, w, extra := BodyDone(e, x, WithBranch(base, true), scope, thn, AfterTests, []);
    } else {
      ColonStep(m, v);
      var c := m.(op := AndOperator);
      ColonMid(m, v, base);
      var scope := InsideOpens(c, v, base, thn);
      x := ThenOpened(c, v);
      r, w, extra := BodyDone(Inside(c), x, WithBranch(base, true), scope, thn, AfterTests, []);
      BodyIsStmt(thn, nest);
      InsideTakes(c, v, base, thn.stmt, nest, r, w);
    }
  }

  lemma BodyIsStmt(b: Body, nest: Nesting)
    requires b.Inline? && BodyFits(b, nest, AfterTests) && BodyMade(b)
    ensures StmtFits(b.stmt, nest, nest, AfterTests) && StmtMade(b.stmt) && PrintBody(b) == PrintStmt(b.stmt)
  {
  }

  lemma ColonMid(m: Parser, v: Tale, base: seq<BlockScope>)
    requires Mid(m, v, base)
    ensures Mid(m.(op := AndOperator), v, base)
  {
    StaysOpen(m);
    StaysOpen(m.(op := AndOperator));
    hide FlushScopes;
  }

  lemma InsideOpens(c: Parser, v: Tale, base: seq<BlockScope>, b: Body) returns (scope: BlockScope)
    requires Mid(c, v, base) && c.op == AndOperator && b.Inline?
    ensures Running(Inside(c)) && ThenTold(v, ThenOpened(c, v)) && Inside(c).lineNo == c.lineNo
    ensures Opens(Inside(c), ThenOpened(c, v), WithBranch(base, true), scope, b, AfterTests, [])
    ensures scope.nest == base[|base| - 1].nest
  {
    hide FlushCond, ThenOpened;
    ThenStep(c, v, base);
    var d := Inside(c);
    scope := d.blockstack[|base|];
    StaysOpen(d);
    hide FlushScopes;
  }

  /** The notes of a branch. */
  lemma BranchNotes(thn: seq<Item>, els: Sub, home: int, f: nat)
    ensures var first := [Note(f, Then)] + Flat(thn, f + 1, f + 2);
      Flat([Item.Branch(Present(thn), els)], home, f)
        == [Note(home, Fork)] + (first + FlatSub(els, Else, f, f + 1 + |first|))
  {
    var branch := Item.Branch(Present(thn), els);
    assert [branch][1..] == [];
    assert Flat([branch], home, f) == FlatItem(branch, home, f) + [];
  }

  /** A then block has ended. */
  lemma GrewThen(v: Tale, x: Tale, w: Tale, n: nat, thn: seq<Item>)
    requires n == |v.open| && ThenTold(v, x) && Said(x, w, n, thn)
    ensures Grew(v, w, n, [Item.Branch(Present(thn), Absent)])
    ensures w.open[n - 1].fork == |v.notes|
    ensures |w.notes| == |v.notes| + 2 + |Flat(thn, |v.notes| + 1, |v.notes| + 2)|
  {
    hide Flat;
    BranchNotes(thn, Absent, Here(v).head, |v.notes|);
    var body := Flat(thn, |v.notes| + 1, |v.notes| + 2);
    assert [Note(Here(v).head, Fork)] + (([Note(|v.notes|, Then)] + body) + [])
        == [Note(Here(v).head, Fork), Note(|v.notes|, Then)] + body;
    assert w.open[..n - 1] == w.open[..n][..n - 1] == v.open[..n - 1];
    assert w.open[n - 1] == w.open[..n][n - 1];
  }

  // ---- else blocks

  /** The else block behind a then block has begun. */
  predicate ElseTold(v: Tale, w: Tale, y: Tale, n: nat) {
    && 0 < n <= |w.open| && y.notes == w.notes + [Note(|v.notes|, Else)]
    && y.open == w.open[..n] + [Open(|w.notes|, FILE)]
  }

  /** A then block and the else block behind it have ended. */
  lemma GrewElse(v: Tale, x: Tale, w: Tale, y: Tale, z: Tale, n: nat, thn: seq<Item>, els: seq<Item>)
    requires n == |v.open| && ThenTold(v, x) && Said(x, w, n, thn)
    requires ElseTold(v, w, y, n) && Said(y, z, n, els)
    ensures Grew(v, z, n, [Item.Branch(Present(thn), Present(els))])
  {
    hide Flat;
    var f, home := |v.notes|, Here(v).head;
    BranchNotes(thn, Present(els), home, f);
    var body, other := Flat(thn, f + 1, f + 2), Flat(els, |w.notes|, |w.notes| + 1);
    assert w.notes == v.notes + ([Note(home, Fork), Note(f, Then)] + body);
    assert FlatSub(Present(els), Else, f, |w.notes|) == [Note(f, Else)] + other;
    assert z.notes == w.notes + ([Note(f, Else)] + other);
    assert [Note(home, Fork)] + (([Note(f, Then)] + body) + ([Note(f, Else)] + other))
        == ([Note(home, Fork), Note(f, Then)] + body) + ([Note(f, Else)] + other);
    assert z.open[..n] == y.open[..n] == w.open[..n] == x.open[..n];
    assert z.open[..n - 1] == z.open[..n][..n - 1] == v.open[..n - 1];
    assert z.open[n - 1] == z.open[..n][n - 1];
  }

  /** An else block without a then block has begun. */
  predicate OnlyElseTold(v: Tale, y: Tale) {
    && y.notes == v.notes + [Note(Here(v).head, Fork), Note(|v.notes|, Else)]
    && y.open == v.open + [Open(|v.notes| + 1, FILE)]
  }

  lemma GrewOnlyElse(v: Tale, y: Tale, z: Tale, n: nat, els: seq<Item>)
    requires n == |v.open| && OnlyElseTold(v, y) && Said(y, z, n, els)
    ensures Grew(v, z, n, [Item.Branch(Absent, Present(els))])
  {
    var f, home := |v.notes|, Here(v).head;
    var branch := Item.Branch(Absent, Present(els));
    assert [branch][1..] == [];
    assert Flat([branch], home, f) == FlatItem(branch, home, f) + [];
    assert FlatSub(Absent, Then, f, f + 1) == [];
    hide Flat;
    var other := Flat(els, f + 1, f + 2);
    assert FlatItem(branch, home, f) == [Note(home, Fork)] + ([] + ([Note(f, Else)] + other));
    assert z.notes == v.notes + ([Note(home, Fork)] + ([Note(f, Else)] + other));
    assert z.open[..n] == y.open[..n] == v.open;
    assert z.open[..n - 1] == z.open[..n][..n - 1] && z.open[n - 1] == z.open[..n][n - 1];
  }

  /** Going out through closed one-line blocks to the branch that waits. */
  lemma {:induction false} FindsBranch(r: Parser, base: seq<BlockScope>, extra: seq<BlockScope>)
    requires Running(r) && base != [] && r.blockstack == WithBranch(base, true) + extra && Skipped(extra)
    requires !base[|base| - 1].inBranch && (base[|base| - 1].special ==> base[|base| - 1].braceLevel > 0)
    ensures var q := FindBranch(r);
      && |q.blockstack| == |base| + 1 && q.blockstack[..|base|] == base
      && (var scope := q.blockstack[|base|];
          scope.braceLevel == 0 && !scope.special && !scope.inBranch && scope.nest == base[|base| - 1].nest)
      && q.state == StCtrl && q.ok == r.ok && q.testGrammar == r.testGrammar && q.invert == r.invert && q.op == r.op
      && q.lineNo == r.lineNo && q.markLine == r.markLine && !q.canElse
    decreases |extra|
  {
    hide LeaveScope;
    var n := |base| - 1;
    if extra == [] {
      assert r.blockstack == WithBranch(base, true);
      assert Top(r) == base[n].(inBranch := true);
      assert WithBranch(base, true)[n := base[n]] == base;
      assert FindBranch(r) == EnterScope(SetTop(r, base[n]), false, StCtrl);
    } else {
      var m := |extra| - 1;
      LeaveIs(r);
      assert r.blockstack[..|r.blockstack| - 1] == WithBranch(base, true) + extra[..m];
      FindsBranch(LeaveScope(r), base, extra[..m]);
    }
  }

  /** Behind an else that belongs to the branch of the innermost scope of `base`. */
  lemma ElseFound(v: Tale, r: Parser, w: Tale, base: seq<BlockScope>, extra: seq<BlockScope>)
    returns (d: Parser, y: Tale, scope: BlockScope)
    requires base != [] && Closes(r, w, WithBranch(base, true), extra, AfterTests)
    requires !base[|base| - 1].inBranch && (base[|base| - 1].special ==> base[|base| - 1].braceLevel > 0)
    requires w.open[|base| - 1].fork == |v.notes|
    ensures d == FinalizeCond(r, 1, Word(ELSE_WORD)) && y == CondTold(r, w, 1, Word(ELSE_WORD))
    ensures Headed(d, y, base, scope) && d.lineNo == r.lineNo && !scope.special
    ensures ElseTold(v, w, y, |base|) && scope.nest == base[|base| - 1].nest
  {
    hide FindBranch, Running;
    ElseWord();
    assert Running(r);
    FindsBranch(r, base, extra);
    d, y := FinalizeCond(r, 1, Word(ELSE_WORD)), CondTold(r, w, 1, Word(ELSE_WORD));
    assert d == FindBranch(r);
    scope := d.blockstack[|base|];
    assert d.blockstack == d.blockstack[..|base|] + [scope];
    assert y == ElseIn(w, |base|);
  }

  /** Behind an else that starts a branch of its own. */
  lemma ElseFresh(r: Parser, w: Tale, base: seq<BlockScope>) returns (d: Parser, y: Tale, scope: BlockScope)
    requires Eol(r, w) && r.blockstack == base && r.canElse && |base| > 0
    requires base[|base| - 1].special ==> base[|base| - 1].braceLevel > 0
    ensures d == FinalizeCond(r, 1, Word(ELSE_WORD)) && y == CondTold(r, w, 1, Word(ELSE_WORD))
    ensures Headed(d, y, base, scope) && d.lineNo == r.lineNo && !scope.special
    ensures OnlyElseTold(w, y) && scope.nest == base[|base| - 1].nest
  {
    ElseWord();
    d, y := FinalizeCond(r, 1, Word(ELSE_WORD)), CondTold(r, w, 1, Word(ELSE_WORD));
    scope := Top(d);
    assert d.blockstack == base + [scope];
  }

  /** An else and what opens its body come as one event. */
  lemma ElseOpens(r: Parser, w: Tale, c: Closer)
    requires Running(r) && (c.ByBrace? || c.ByColon?)
    ensures var d, y := FinalizeCond(r, 1, Word(ELSE_WORD)), CondTold(r, w, 1, Word(ELSE_WORD));
      && Step(r, Closing(c, 1, Word(ELSE_WORD))) == Step(d, Closing(c, 0, End))
      && EventTold(r, w, Closing(c, 1, Word(ELSE_WORD))) == EventTold(d, y, Closing(c, 0, End))
  {
    hide FinalizeCond, CondTold, OpenScope, ThenOpened;
    CondNothing(FinalizeCond(r, 1, Word(ELSE_WORD)), CondTold(r, w, 1, Word(ELSE_WORD)));
  }

  lemma CondNothing(d: Parser, y: Tale)
    requires Running(d)
    ensures FinalizeCond(d, 0, End) == d && CondTold(d, y, 0, End) == y
  {
  }

  lemma ElseTakes(r: Parser, w: Tale, d: Parser, y: Tale, b: Body, rest: seq<Event>, q: Parser, u: Tale)
    requires Running(r) && d == FinalizeCond(r, 1, Word(ELSE_WORD)) && y == CondTold(r, w, 1, Word(ELSE_WORD))
    requires Takes(d, y, [Closing(Opening(b), 0, End)] + rest, q, u)
    ensures Takes(r, w, [ElseEvent(b)] + rest, q, u)
  {
    hide Step, EventTold, FinalizeCond, CondTold;
    ElseOpens(r, w, Opening(b));
    var e, x := Step(r, ElseEvent(b)), EventTold(r, w, ElseEvent(b));
    TakesOne(r, w, ElseEvent(b));
    TakesOne(d, y, Closing(Opening(b), 0, End));
    var q', u' := Run(e, rest), Story(e, x, rest);
    assert Takes(e, x, rest, q', u');
    TakesBoth(r, w, [ElseEvent(b)], e, x, rest, q', u');
    TakesBoth(d, y, [Closing(Opening(b), 0, End)], e, x, rest, q', u');
  }

  lemma {:induction false} IfNotDone(p: Parser, t: Tale, base: seq<BlockScope>, lazy: Nesting, lines: seq<Unit>,
                                     s: Stmt, place: Place)
    returns (q: Parser, u: Tale, extra: seq<BlockScope>)
    requires s.IfNot? && Starts(p, t, base, lazy, lines) && Based(base, place)
    requires StmtFits(s, base[|base| - 1].nest, lazy, place)
    ensures StmtMade(s)
    ensures Settled(q, u, base, false, extra, place)
    ensures Top(q).nest == LazyAfter(s, base[|base| - 1].nest) && q.lineNo == p.lineNo + StmtCount(s)
    ensures Grew(t, u, |base|, StmtTree(s, p.lineNo, lines))
    ensures Takes(p, t, PrintStmt(s), q, u)
    decreases s, 0
  {
    hide FlushScopes, Takes, Grew, Step, EventTold, Said, BodyFits, BodyTree, PrintBody, BodyCount, BodyMade;
    hide TestItems, ChainEvents, FinalizeCond, CondTold, OnlyElseTold, Headed;
    StmtFitsMade(s, base[|base| - 1].nest, lazy, place);
    var b := s.other;
    var r, w := TestsDone(p, t, base, lazy, lines, s.links);
    var d, y, scope := ElseFresh(r, w, base);
    q, u, extra := HeadedDone(d, y, base, scope, b, AfterElse);
    WithBranchSame(base);
    var els := BodyTree(b, p.lineNo + 1, LineOf(p.lineNo + 1));
    GrewOnlyElse(w, y, u, |base|, els);
    GrewBoth(t, w, u, |base|, TestItems(s.links, lines), [Item.Branch(Absent, Present(els))]);
    ElseTakes(r, w, d, y, b, PrintBody(b) + EndOf(b), q, u);
    TakesBoth(p, t, ChainEvents(s.links, ByNewline), r, w, [ElseEvent(b)] + (PrintBody(b) + EndOf(b)), q, u);
    EndsNest(q, base, extra, b);
  }

  /** Where a body in braces has ended, the scope around it is the innermost one. */
  lemma EndsNest(q: Parser, base: seq<BlockScope>, extra: seq<BlockScope>, b: Body)
    requires base != [] && q.blockstack == base + extra
    ensures b.Braces? && extra == [] ==> Top(q).nest == base[|base| - 1].nest
  {
  }

  /** The rest of a branch behind its then block. */
  lemma {:induction false} OtherDone(v: Tale, x: Tale, r: Parser, w: Tale, base: seq<BlockScope>,
                                     extra: seq<BlockScope>, n: int, thn: Body, els: Otherwise, place: Place)
    returns (q: Parser, u: Tale, extra': seq<BlockScope>)
    requires Based(base, place) && !place.AfterTests? && |v.open| == |base|
    requires Closes(r, w, WithBranch(base, true), extra, AfterTests)
    requires BodyMade(thn) && r.lineNo == n + BodyCount(thn)
    requires ThenTold(v, x) && Said(x, w, |base|, BodyTree(thn, n, []))
    requires els.WithElse? ==> !place.AfterHead? && BodyFits(els.body, base[|base| - 1].nest, AfterElse)
    requires if thn.Braces? then extra == [] else Top(r).nest == BodyAfter(thn, base[|base| - 1].nest)
    ensures ElseMade(els) && q.lineNo == r.lineNo + ElseCount(thn, els)
    ensures Settled(q, u, base, els.NoElse?, extra', place)
    ensures Top(q).nest == BodyAfter(if els.NoElse? then thn else els.body, base[|base| - 1].nest)
    ensures Grew(v, u, |base|, [Item.Branch(Present(BodyTree(thn, n, [])), ElseTree(thn, els, n))])
    ensures Takes(r, w, PrintElse(thn, els), q, u)
    decreases els, 2
  {
    hide FlushScopes, Takes, Grew, Step, EventTold, Said, BodyFits, BodyTree, PrintBody, BodyCount, BodyMade;
    hide FinalizeCond, CondTold, ThenTold, ElseTold, Headed, Flat;
    GrewThen(v, x, w, |base|, BodyTree(thn, n, []));
    match els
    case NoElse =>
      q := BodyEnds(r, w, thn);
      u, extra' := w, extra;
      EndsNest(q, WithBranch(base, true), extra, thn);
    case WithElse(own, body) =>
      var s;
      if own {
        s := BodyEnds(r, w, thn);
      } else {
        s := r;
        TakesNothing(r, w);
      }
      var d, y, scope := ElseFound(v, s, w, base, extra);
      q, u, extra' := HeadedDone(d, y, base, scope, body, AfterElse);
      WithBranchSame(base);
      var other := BodyTree(body, ElseLine(thn, own, n), LineOf(ElseLine(thn, own, n)));
      GrewElse(v, x, w, y, u, |base|, BodyTree(thn, n, []), other);
      var rest := PrintBody(body) + EndOf(body);
      ElseTakes(s, w, d, y, body, rest, q, u);
      TakesBoth(r, w, if own then EndOf(thn) else [], s, w, [ElseEvent(body)] + rest, q, u);
      EndsNest(q, base, extra', body);
  }

  lemma {:induction false} IfDone(p: Parser, t: Tale, base: seq<BlockScope>, lazy: Nesting, lines: seq<Unit>, s: Stmt,
                                  place: Place)
    returns (q: Parser, u: Tale, extra: seq<BlockScope>)
    requires s.If? && Starts(p, t, base, lazy, lines) && Based(base, place)
    requires StmtFits(s, base[|base| - 1].nest, lazy, place)
    ensures StmtMade(s)
    ensures Settled(q, u, base, Waits(s), extra, place)
    ensures Top(q).nest == LazyAfter(s, base[|base| - 1].nest) && q.lineNo == p.lineNo + StmtCount(s)
    ensures Grew(t, u, |base|, StmtTree(s, p.lineNo, lines))
    ensures Takes(p, t, PrintStmt(s), q, u)
    decreases s, 0
  {
    hide FlushScopes, Takes, Grew, Step, EventTold, Said, BodyFits, BodyTree, PrintBody, BodyCount, BodyMade, BodyAfter;
    hide TestItems, ChainEvents, ThenTold, Closes, Settled, ElseTree, PrintElse, ElseCount, ElseMade, Based;
    StmtFitsMade(s, base[|base| - 1].nest, lazy, place);
    var c := Opening(s.thn);
    var m, v := LineDone(p, t, base, s.links, lines, lazy, c);
    var e, y := Step(m, Closing(c, 0, End)), EventTold(m, v, Closing(c, 0, End));
    var r, w, more, x := ThenDone(m, v, base, s.thn);
    q, u, extra := OtherDone(v, x, r, w, base, more, p.lineNo, s.thn, s.els, place);
    var branch := Item.Branch(Present(BodyTree(s.thn, p.lineNo, [])), ElseTree(s.thn, s.els, p.lineNo));
    GrewBoth(t, v, u, |base|, TestItems(s.links, lines), [branch]);
    TakesBoth(e, y, PrintBody(s.thn), r, w, PrintElse(s.thn, s.els), q, u);
    TakesBoth(p, t, ChainEvents(s.links, c), e, y, PrintBody(s.thn) + PrintElse(s.thn, s.els), q, u);
  }

  // ---- heads of blocks

  /** What heads of blocks have in common: the mark of the line is put, and a colon in front is dropped. */
  lemma HeadStart(p: Parser, t: Tale, base: seq<BlockScope>, lazy: Nesting, lines: seq<Unit>)
    requires Starts(p, t, base, lazy, lines)
    ensures var r := PutLineMarker(FlushScopes(DropColon(p)));
      && Running(r) && r.blockstack == base && r.ok && !r.testGrammar && r.invert == 0 && r.op == NoOperator
      && r.lineNo == p.lineNo && PutOperator(PutLineMarker(FlushScopes(p))) == r
      && FlushCond(DropColon(p)) == FlushScopes(DropColon(p))
      && FlushScopes(DropColon(p)).blockstack == base
  {
    if p.state == StCtrl {
      StaysOpen(p);
      StaysOpen(DropColon(p));
    }
    hide FlushScopes, Running;
    FlushKeeps(DropColon(p));
    FlushLine(DropColon(p));
  }

  lemma EnterHead(r: Parser, units: seq<Unit>, nest: Nesting) returns (scope: BlockScope)
    requires Running(r) && r.ok && !r.testGrammar && r.invert == 0 && r.op == NoOperator && r.lineNo > 0
    ensures var s := EnterScope(Put(r, units), true, StCtrl);
      var q := SetTop(s, Top(s).(nest := nest));
      && Running(q) && q.blockstack == r.blockstack + [scope] && q.ok && !q.testGrammar && q.state == StCtrl
      && q.invert == 0 && q.op == NoOperator && q.markLine == q.lineNo == r.lineNo && !q.canElse
      && scope == BlockScope(|r.toks| + |units|, 0, true, false, nest)
      && Top(s).nest == Top(r).nest
      && (nest == Top(r).nest ==> q == s)
  {
    var s := EnterScope(Put(r, units), true, StCtrl);
    scope := Top(s).(nest := nest);
    assert s.blockstack[|r.blockstack| := scope] == r.blockstack + [scope];
    if nest == Top(r).nest {
      assert s.blockstack[|r.blockstack| := scope] == s.blockstack;
    }
  }

  /** What is said where a statement starts with the head of a block. */
  function HeadTale(p: Parser, t: Tale, head: Item): Tale
    requires Running(p)
  {
    Opened(Noted(Marked(p, Kept(t, FlushScopes(p))), head))
  }

  /** Behind the head of a block. */
  predicate HeadPut(p: Parser, q: Parser, base: seq<BlockScope>, scope: BlockScope, nest: Nesting) {
    && Running(q) && q.blockstack == base + [scope] && q.ok && !q.testGrammar && q.state == StCtrl && q.invert == 0
    && q.op == NoOperator && q.markLine == q.lineNo == p.lineNo && !q.canElse
    && scope.braceLevel == 0 && scope.special && !scope.inBranch && scope.nest == nest
  }

  lemma ForStep(p: Parser, t: Tale, base: seq<BlockScope>, lazy: Nesting, lines: seq<Unit>, args: Expr)
    returns (scope: BlockScope)
    requires Starts(p, t, base, lazy, lines) && HeadMade(ForHead(args))
    ensures var q := FinalizeFor(p, args); HeadPut(p, q, base, scope, base[|base| - 1].nest.(inLoop := true))
  {
    hide FlushScopes, PutLineMarker, EnterScope, EncForHead, LoopOf, FlushCond;
    HeadStart(p, t, base, lazy, lines);
    var l := LoopOf(args)[0];
    var nest := base[|base| - 1].nest.(inLoop := true);
    hide Running;
    scope := EnterHead(PutLineMarker(FlushScopes(DropColon(p))), EncForHead(l.h0, l.h1, l.name, l.list), nest);
  }

  lemma ForTold(p: Parser, t: Tale, base: seq<BlockScope>, lazy: Nesting, lines: seq<Unit>, args: Expr)
    requires Starts(p, t, base, lazy, lines) && LoopOf(args) != []
    ensures LoopTold(DropColon(p), t, LoopOf(args)) == HeadTale(p, t, HeadItem(ForHead(args), []))
  {
    HeadStart(p, t, base, lazy, lines);
    hide FlushScopes, LoopOf;
  }

  lemma DefStep(p: Parser, t: Tale, base: seq<BlockScope>, lazy: Nesting, lines: seq<Unit>, tok: DefTok, args: Expr)
    returns (scope: BlockScope)
    requires Starts(p, t, base, lazy, lines) && HeadMade(DefHead(tok, args))
    ensures HeadPut(p, FinalizeDef(p, tok, args), base, scope, NEST_FUNCTION)
    ensures DefTold(p, t, tok, args) == HeadTale(p, t, HeadItem(DefHead(tok, args), []))
  {
    hide FlushScopes, PutLineMarker, EnterScope, EncHash, HashLow, HashHigh, PutOperator;
    HeadStart(p, t, base, lazy, lines);
    hide Running;
    var units := [tok] + EncHash(HashLow(args.text), HashHigh(args.text), args.text);
    scope := EnterHead(PutLineMarker(FlushScopes(DropColon(p))), units, NEST_FUNCTION);
  }

  lemma BypassStep(p: Parser, t: Tale, base: seq<BlockScope>, lazy: Nesting, lines: seq<Unit>)
    returns (scope: BlockScope)
    requires Starts(p, t, base, lazy, lines) && lazy.inFunc
    ensures HeadPut(p, FinalizeBypass(p, End), base, scope, base[|base| - 1].nest)
    ensures HeadTold(p, t, Bypass([])) == HeadTale(p, t, Bypass([]))
  {
    hide FlushScopes, PutLineMarker, EnterScope, PutOperator;
    HeadStart(p, t, base, lazy, lines);
    var nest := base[|base| - 1].nest;
    hide Running;
    scope := EnterHead(PutLineMarker(FlushScopes(DropColon(p))), [BYPASS_NESTING], nest);
  }

  lemma HeadStep(p: Parser, t: Tale, base: seq<BlockScope>, lazy: Nesting, lines: seq<Unit>, head: Head)
    returns (scope: BlockScope)
    requires Starts(p, t, base, lazy, lines) && HeadFits(head, lazy)
    ensures HeadPut(p, Step(p, HeadEvent(head)), base, scope, InnerNest(head, base[|base| - 1].nest))
    ensures EventTold(p, t, HeadEvent(head)) == HeadTale(p, t, HeadItem(head, []))
  {
    hide FinalizeFor, FinalizeDef, FinalizeBypass, HeadTale, LoopTold, DefTold, HeadTold, HeadPut, FlushScopes, LoopOf;
    WordKeywords();
    match head
    case ForHead(args) =>
      scope := ForStep(p, t, base, lazy, lines, args);
      ForTold(p, t, base, lazy, lines, args);
    case DefHead(tok, args) => scope := DefStep(p, t, base, lazy, lines, tok, args);
    case BypassHead => scope := BypassStep(p, t, base, lazy, lines);
  }

  /** The head of a block was said behind `k`, and its block is open. */
  lemma HeadDone(p: Parser, t: Tale, base: seq<BlockScope>, lazy: Nesting, lines: seq<Unit>, head: Head)
    returns (scope: BlockScope, k: Tale)
    requires Starts(p, t, base, lazy, lines) && HeadFits(head, lazy)
    ensures var q, h := Step(p, HeadEvent(head)), EventTold(p, t, HeadEvent(head));
      && Headed(q, h, base, scope) && scope.special && q.lineNo == p.lineNo
      && h == Opened(Noted(k, HeadItem(head, [])))
    ensures scope.nest == InnerNest(head, base[|base| - 1].nest)
    ensures Grew(t, k, |base|, LineItems(lines)) && |k.open| == |base|
  {
    hide FlushScopes, Step, EventTold, HeadItem, Marked, Kept, Grew, LineItems, InnerNest;
    scope := HeadStep(p, t, base, lazy, lines, head);
    var kept := Kept(t, FlushScopes(p));
    k := Marked(p, kept);
    GrewKept(t, |base|, FlushScopes(p));
    GrewMarked(p, kept, lines);
    GrewBoth(t, kept, k, |base|, [], LineItems(lines));
    assert [] + LineItems(lines) == LineItems(lines);
  }

  lemma HeadNote(head: Head, body: seq<Item>, home: int, at: nat)
    requires HeadMade(head)
    ensures FlatItem(HeadItem(head, body), home, at)
         == [Note(home, Says(HeadItem(head, [])))] + Flat(body, at, at + 1)
  {
    hide Flat, LoopOf, HashLow, HashHigh;
  }

  lemma GrewHead(k: Tale, h: Tale, w: Tale, n: nat, head: Head, body: seq<Item>)
    requires HeadMade(head) && n == |k.open| && h == Opened(Noted(k, HeadItem(head, []))) && Said(h, w, n, body)
    ensures Grew(k, w, n, [HeadItem(head, body)])
  {
    var item, home, at := HeadItem(head, body), Here(k).head, |k.notes|;
    assert [item][1..] == [] && Flat([item], home, at) == FlatItem(item, home, at) + [];
    HeadNote(head, body, home, at);
    hide Flat, HeadItem;
    assert w.open[..n] == k.open;
    assert w.open[..n - 1] == w.open[..n][..n - 1] && w.open[n - 1] == w.open[..n][n - 1];
  }

  lemma {:induction false} BlockDone(p: Parser, t: Tale, base: seq<BlockScope>, lazy: Nesting, lines: seq<Unit>,
                                     s: Stmt, place: Place)
    returns (q: Parser, u: Tale, extra: seq<BlockScope>)
    requires s.Block? && Starts(p, t, base, lazy, lines) && Based(base, place)
    requires StmtFits(s, base[|base| - 1].nest, lazy, place)
    ensures StmtMade(s)
    ensures Settled(q, u, base, false, extra, place)
    ensures Top(q).nest == LazyAfter(s, base[|base| - 1].nest) && q.lineNo == p.lineNo + StmtCount(s)
    ensures Grew(t, u, |base|, StmtTree(s, p.lineNo, lines))
    ensures Takes(p, t, PrintStmt(s), q, u)
    decreases s, 0
  {
    hide FlushScopes, Takes, Grew, Step, EventTold, Said, BodyFits, BodyTree, PrintBody, BodyCount, BodyMade, BodyAfter;
    hide HeadItem, Headed, InnerNest, HeadEvent, LineItems, HeadMade;
    var nest := base[|base| - 1].nest;
    StmtFitsMade(s, nest, lazy, place);
    var b := s.body;
    var scope, k := HeadDone(p, t, base, lazy, lines, s.head);
    var d, h := Step(p, HeadEvent(s.head)), EventTold(p, t, HeadEvent(s.head));
    q, u, extra := HeadedDone(d, h, base, scope, b, AfterHead);
    WithBranchSame(base);
    GrewHead(k, h, u, |base|, s.head, BodyTree(b, p.lineNo, LineOf(p.lineNo)));
    GrewBoth(t, k, u, |base|, LineItems(lines), [HeadItem(s.head, BodyTree(b, p.lineNo, LineOf(p.lineNo)))]);
    TakesOne(p, t, HeadEvent(s.head));
    TakesBoth(p, t, [HeadEvent(s.head)], d, h, [Closing(Opening(b), 0, End)] + (PrintBody(b) + EndOf(b)), q, u);
    EndsNest(q, base, extra, b);
  }

  // ---- whole programs

  lemma StartReady(line: int)
    requires line > 0
    ensures var p := Init(line, false);
      && Starts(p, START, p.blockstack, NEST_NONE, LineOf(line)) && p.lineNo == line && p.state == StNew
      && p.blockstack[0].nest == NEST_NONE && |p.blockstack| == 1 && Based(p.blockstack, OnLine)
  {
    var p := Init(line, false);
    FlushedIs(p);
    WithBranchSame(p.blockstack);
  }

  lemma EndsOk(q: Parser, u: Tale, base: seq<BlockScope>)
    requires Going(q, u, base) && q.invert == 0 && q.op == NoOperator && q.state == StNew
    requires |base| == 1 && base[0].braceLevel == 0
    ensures Finish(q, 0, End).ok
  {
    hide FlushScopes;
    assert WarnOperator(FinalizeCond(q, 0, End)) == q;
    FlushLine(q);
    LeaveAllOk(CheckClosed(FlushScopes(q)));
  }

  lemma BothTokenized(a: seq<Event>, b: seq<Event>)
    requires AllTokenized(a) && AllTokenized(b)
    ensures AllTokenized(a + b)
  {
    hide Tokenized;
  }

  lemma OneTokenized(ev: Event)
    requires Tokenized(ev)
    ensures AllTokenized([ev])
  {
  }

  lemma {:induction false} PrintTokenized(stmts: seq<Stmt>, nest: Nesting, lazy: Nesting)
    requires Fits(stmts, nest, lazy)
    ensures AllMade(stmts) && AllTokenized(Print(stmts))
    decreases stmts, 0
  {
    hide AllTokenized, PrintStmt, StmtFits, StmtMade;
    if stmts != [] {
      StmtTokenized(stmts[0], nest, lazy, OnLine);
      PrintTokenized(stmts[1..], nest, LazyAfter(stmts[0], nest));
      BothTokenized(PrintStmt(stmts[0]), Print(stmts[1..]));
    } else {
      NoneTokenized();
    }
  }

  lemma NoneTokenized()
    ensures AllTokenized([])
  {
  }

  lemma {:induction false} BodyTokenized(b: Body, nest: Nesting, place: Place)
    requires BodyFits(b, nest, place)
    ensures BodyMade(b) && AllTokenized(PrintBody(b)) && AllTokenized(EndOf(b)) && AllTokenized(PrintBody(b) + EndOf(b))
    decreases b, 1
  {
    hide AllTokenized, Print, PrintStmt, Fits, StmtFits, AllMade, StmtMade;
    OneTokenized(NEWLINE);
    OneTokenized(CLOSE_BRACE);
    NoneTokenized();
    match b
    case Braces(stmts) =>
      PrintTokenized(stmts, nest, nest);
      BothTokenized(Print(stmts), [CLOSE_BRACE]);
      BothTokenized([NEWLINE], Print(stmts) + [CLOSE_BRACE]);
      BothTokenized(PrintBody(b), EndOf(b));
    case Inline(stmt) =>
      StmtTokenized(stmt, nest, nest, place);
      BothTokenized(PrintBody(b), EndOf(b));
  }

  lemma ElseEventTokenized(b: Body)
    ensures AllTokenized([ElseEvent(b)]) && AllTokenized([Closing(Opening(b), 0, End)])
  {
  }

  lemma SettingTokenized(s: Setting)
    requires SettingFits(s)
    ensures AllTokenized([SetEvent(s), NEWLINE])
  {
  }

  lemma BangsTokenized(n: nat)
    ensures AllTokenized(BangEvents(n))
  {
  }

  lemma TestTokenized(link: TestLink, nest: Nesting, c: Closer)
    requires TestFits(link, nest) && IsLineTest(link.test)
    ensures AllTokenized(LinkEvents(link, c))
  {
    BangsTokenized(link.nots);
    hide BangEvents;
  }

  lemma {:induction false} ChainTokenized(links: seq<TestLink>, nest: Nesting, lazy: Nesting, c: Closer)
    requires LinksFit(links, nest, lazy)
    ensures AllTokenized(ChainEvents(links, c))
    decreases |links|
  {
    hide TestFits, LinkEvents;
    var rest := links[1..];
    if rest == [] {
      TestTokenized(links[0], lazy, c);
    } else {
      TestTokenized(links[0], lazy, if links[1].op.Either? then ByPipe else ByColon);
      forall i | 1 <= i < |rest| ensures !rest[i].op.Fresh? && TestFits(rest[i], nest) {
        assert rest[i] == links[i + 1];
      }
      ChainTokenized(rest, nest, nest, c);
    }
  }

  /** An else with its body. */
  lemma {:induction false} ElseTokenized(b: Body, nest: Nesting)
    requires BodyFits(b, nest, AfterElse)
    ensures BodyMade(b) && AllTokenized([ElseEvent(b)] + (PrintBody(b) + EndOf(b)))
    decreases b, 2
  {
    hide AllTokenized, PrintBody, BodyFits, BodyMade;
    BodyTokenized(b, nest, AfterElse);
    ElseEventTokenized(b);
    BothTokenized([ElseEvent(b)], PrintBody(b) + EndOf(b));
  }

  lemma {:induction false} StmtTokenized(s: Stmt, nest: Nesting, lazy: Nesting, place: Place)
    requires StmtFits(s, nest, lazy, place)
    ensures StmtMade(s) && AllTokenized(PrintStmt(s))
    decreases s, 0
  {
    hide AllTokenized, PrintBody, ChainEvents, BodyFits, BodyMade, TestFits, HeadFits, InnerNest, ElseEvent, EndOf;
    StmtFitsMade(s, nest, lazy, place);
    match s
    case Tests(links) => ChainTokenized(links, nest, lazy, ByNewline);
    case Set(setting) => SettingTokenized(setting);
    case If(links, thn, els) =>
      ChainTokenized(links, nest, lazy, Opening(thn));
      BodyTokenized(thn, nest, AfterTests);
      NoneTokenized();
      if els.WithElse? {
        ElseTokenized(els.body, nest);
        BothTokenized(if els.own then EndOf(thn) else [],
                      [ElseEvent(els.body)] + (PrintBody(els.body) + EndOf(els.body)));
      }
      BothTokenized(PrintBody(thn), PrintElse(thn, els));
      BothTokenized(ChainEvents(links, Opening(thn)), PrintBody(thn) + PrintElse(thn, els));
    case IfNot(links, other) =>
      ChainTokenized(links, nest, lazy, ByNewline);
      ElseTokenized(other, nest);
      BothTokenized(ChainEvents(links, ByNewline), [ElseEvent(other)] + (PrintBody(other) + EndOf(other)));
    case Block(head, body) =>
      HeadTokenized(head);
      BodyTokenized(body, InnerNest(head, nest), AfterHead);
      ElseEventTokenized(body);
      BothTokenized([Closing(Opening(body), 0, End)], PrintBody(body) + EndOf(body));
      BothTokenized([HeadEvent(head)], [Closing(Opening(body), 0, End)] + (PrintBody(body) + EndOf(body)));
  }

  lemma HeadTokenized(head: Head)
    ensures AllTokenized([HeadEvent(head)])
  {
  }

  /** Print and parse: the text of a program is accepted, and its stream is the encoding of the program's tree. */
  lemma PrintedParses(line: int, program: seq<Stmt>)
    requires line > 0 && Fits(program, NEST_NONE, NEST_NONE)
    ensures AllMade(program) && AllTokenized(Print(program))
    ensures var p := Parse(line, false, Print(program), 0, End);
      p.ok && p.toks == EncItems(Tree(program, line))
    ensures Flat(Tree(program, line), FILE, 0) == Notes(line, false, Print(program), 0, End)
    ensures AllPlaced(Init(line, false), Print(program)) <==> Nested(Tree(program, line), NEST_NONE)
  {
    hide FlushScopes, Flat, Starts, Going, Print, Tree, Nested, EncItems, Fits;
    FitsMade(program, NEST_NONE, NEST_NONE);
    PrintTokenized(program, NEST_NONE, NEST_NONE);
    StartReady(line);
    var p := Init(line, false);
    var q, u := StmtsDone(p, START, p.blockstack, NEST_NONE, program);
    EndsOk(q, u, p.blockstack);
    assert Flat(Tree(program, line), FILE, 0) == u.notes by {
      assert START.notes + Flat(Tree(program, line), FILE, 0) == Flat(Tree(program, line), FILE, 0);
    }
    ParseWellFormed(line, false, Print(program), 0, End);
  }
}
