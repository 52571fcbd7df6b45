/** Lines of tests: what the evaluator does with tests joined by operators, against their short-circuit
    evaluation from left to right. */
module TestChains {
  import opened ProTokens
  import opened VarStack
  import opened ExprValues
  import opened ConditionChain
  import opened ProSemantics
  import opened TestLines

  // ---- short-circuit evaluation

  function Marked(st: State, lines: seq<Unit>): State {
    if lines == [] then st else st.(line := lines[|lines| - 1])
  }

  /** The arguments of a call that is not made are only skipped. */
  function SkipArgs(st: State, test: Item): State { if test.Call? then Skip(st, test.args) else st }

  datatype Tried = Stops(vr: Visit, st: State) | Goes(st: State, acc: bool)

  /** A test whose name is expanded, after a chain with the value `acc`. It is made only if it can still
      decide, and is false whatever its negations unless its name is one word. */
  function TryWords(w: World, b: nat, st: State, acc: bool, link: TestLink, words: Values): Tried
    requires IsTest(link.test)
  {
    var negated := link.nots % 2 == 1;
    if !Decides(link.op, acc) then Goes(SkipArgs(st, link.test), acc)
    else if |words| != 1 then Goes(SkipArgs(st, link.test), Joined(link.op, acc, false))
    else if link.test.Cond? then
      Goes(st, Joined(link.op, acc, Active(w, st.paths, st.frames, words[0]) != negated))
    else
      var r := CallTest(w, b, st, words[0], link.test.args);
      if Plain(r.vr) then Goes(r.st, Joined(link.op, acc, (r.vr == ReturnTrue) != negated))
      else Stops(r.vr, r.st)
  }

  /** The name of a test is expanded in any case. */
  function Try(w: World, b: nat, st: State, acc: bool, link: TestLink): (r: Tried)
    requires IsTest(link.test)
  {
    var g := ExpandList(w, b, Marked(st, link.lines), link.test.e, []);
    if Fatal(g.vr) then Stops(g.vr, g.st) else TryWords(w, b, g.st, acc, link, g.list)
  }

  /** The operators from left to right, without precedence, each test seeing what those before it did. */
  function Evaluate(w: World, b: nat, st: State, acc: bool, links: seq<TestLink>): Run
    requires IsChain(links)
    decreases |links|
  {
    if links == [] then Run(ReturnBool(acc), st)
    else
      match Try(w, b, st, acc, links[0])
      case Stops(vr, st') => Run(vr, st')
      case Goes(st', acc') => Evaluate(w, b, st', acc', links[1..])
  }

  // ---- the evaluator does that

  lemma RunFirst(w: World, b: nat, st: State, x: Item, rest: seq<Item>, c: Chain)
    ensures var s := StepItem(w, b, st, x, [], c);
      RunItems(w, b, st, [x] + rest, [], c) ==
      if s.Halt? then Run(s.vr, s.st) else RunItems(w, b, s.st, rest, [], s.chain)
  {
    var items := [x] + rest;
    assert items[0] == x && items[1..] == rest;
  }

  lemma {:induction false} RunLines(w: World, b: nat, st: State, lines: seq<Unit>, rest: seq<Item>, c: Chain)
    ensures RunItems(w, b, st, LineItems(lines) + rest, [], c) == RunItems(w, b, Marked(st, lines), rest, [], c)
    decreases |lines|
  {
    if lines == [] {
      assert LineItems(lines) + rest == rest;
    } else {
      var tail := LineItems(lines[1..]) + rest;
      assert LineItems(lines) + rest == [Line(lines[0])] + tail;
      RunFirst(w, b, st, Line(lines[0]), tail, c);
      assert StepItem(w, b, st, Line(lines[0]), [], c) == Go(st.(line := lines[0]), c);
      RunLines(w, b, st.(line := lines[0]), lines[1..], rest, c);
    }
  }

  function OnOp(c: Chain, op: Joint): Chain {
    match op
    case Fresh => c
    case Both => OnAnd(c)
    case Either => OnOr(c)
  }

  lemma RunOp(w: World, b: nat, st: State, op: Joint, rest: seq<Item>, c: Chain)
    ensures RunItems(w, b, st, OpItems(op) + rest, [], c) == RunItems(w, b, st, rest, [], OnOp(c, op))
  {
    if op == Fresh {
      assert OpItems(op) + rest == rest;
    } else {
      var item := OpItems(op)[0];
      RunFirst(w, b, st, item, rest, c);
      assert StepItem(w, b, st, item, [], c) == Go(st, OnOp(c, op));
    }
  }

  lemma {:induction false} RunNots(w: World, b: nat, st: State, n: nat, rest: seq<Item>, c: Chain)
    ensures RunItems(w, b, st, NotItems(n) + rest, [], c)
         == RunItems(w, b, st, rest, [], c.(invert := c.invert != (n % 2 == 1)))
    decreases n
  {
    if n == 0 {
      assert NotItems(n) + rest == rest;
    } else {
      var tail := NotItems(n - 1) + rest;
      assert NotItems(n) + rest == [Op(NOT)] + tail;
      RunFirst(w, b, st, Op(NOT), tail, c);
      assert StepItem(w, b, st, Op(NOT), [], c) == Go(st, OnNot(c));
      RunNots(w, b, st, n - 1, rest, OnNot(c));
    }
  }

  /** The flags in front of a test say whether it can still decide, and what its negations are. */
  predicate Ready(c: Chain, acc: bool, link: TestLink) {
    && c.okey == acc
    && c.invert == (link.nots % 2 == 1)
    && (Due(c) <==> Decides(link.op, acc))
  }

  lemma WordsGo(w: World, b: nat, st: State, acc: bool, link: TestLink, words: Values, c: Chain)
    requires IsTest(link.test) && Ready(c, acc, link)
    ensures var t := TryWords(w, b, st, acc, link, words);
      StepWords(w, b, st, link.test, words, c) ==
      if t.Stops? then Halt(t.vr, t.st) else Go(t.st, Chain(t.acc, !t.acc, false))
  {
  }

  lemma RunTest(w: World, b: nat, st: State, acc: bool, link: TestLink, c: Chain, rest: seq<Item>)
    requires IsTest(link.test) && Ready(c, acc, link)
    ensures var t := Try(w, b, st, acc, link);
      RunItems(w, b, Marked(st, link.lines), [link.test] + rest, [], c) ==
      if t.Stops? then Run(t.vr, t.st) else RunItems(w, b, t.st, rest, [], Chain(t.acc, !t.acc, false))
  {
    var marked := Marked(st, link.lines);
    RunFirst(w, b, marked, link.test, rest, c);
    var g := ExpandList(w, b, marked, link.test.e, []);
    assert StepItem(w, b, marked, link.test, [], c) ==
      if Fatal(g.vr) then Halt(g.vr, g.st) else StepWords(w, b, g.st, link.test, g.list, c);
    if !Fatal(g.vr) {
      WordsGo(w, b, g.st, acc, link, g.list, c);
    }
  }

  lemma RunLink(w: World, b: nat, st: State, acc: bool, link: TestLink, rest: seq<Item>)
    requires IsTest(link.test)
    ensures var t := Try(w, b, st, acc, link);
      RunItems(w, b, st, LinkItems(link) + rest, [], Chain(acc, !acc, false)) ==
      if t.Stops? then Run(t.vr, t.st) else RunItems(w, b, t.st, rest, [], Chain(t.acc, !t.acc, false))
  {
    hide RunItems, Try;
    var c, test := Chain(acc, !acc, false), [link.test] + rest;
    var marked, nots := Marked(st, link.lines), NotItems(link.nots) + test;
    assert LinkItems(link) + rest == LineItems(link.lines) + (OpItems(link.op) + nots) by {
      assert NotItems(link.nots) + [link.test] + rest == nots;
    }
    RunLines(w, b, st, link.lines, OpItems(link.op) + nots, c);
    RunOp(w, b, marked, link.op, nots, c);
    RunNots(w, b, marked, link.nots, test, OnOp(c, link.op));
    var ready := OnOp(c, link.op).(invert := link.nots % 2 == 1);
    RunTest(w, b, st, acc, link, ready, rest);
  }

  lemma {:induction false} ChainRuns(w: World, b: nat, st: State, acc: bool, links: seq<TestLink>)
    requires IsChain(links)
    ensures RunItems(w, b, st, ChainItems(links), [], Chain(acc, !acc, false)) == Evaluate(w, b, st, acc, links)
    decreases |links|
  {
    hide Try;
    if links != [] {
      RunLink(w, b, st, acc, links[0], ChainItems(links[1..]));
      match Try(w, b, st, acc, links[0])
      case Stops(_, _) =>
      case Goes(st', acc') => ChainRuns(w, b, st', acc', links[1..]);
    }
  }

  /** A block of tests joined by operators is evaluated from left to right with short-circuiting: the same
      outcome and the same state, with exactly the calls made that can still decide. */
  lemma ChainIsEvaluation(w: World, b: nat, st: State, links: seq<TestLink>)
    requires IsChain(links)
    ensures RunItems(w, b, st, ChainItems(links), [], START) == Evaluate(w, b, st, true, links)
  {
    ChainRuns(w, b, st, true, links);
  }

  // ---- tests by plain words

  predicate IsPlainTest(item: Item) {
    item.Cond? && item.e.Hashed? && item.e.hashed == HASH_LITERAL && item.e.rest.End?
  }

  predicate IsPlainChain(links: seq<TestLink>) { forall i | 0 <= i < |links| :: IsPlainTest(links[i].test) }

  function ValueOf(w: World, paths: Paths, frames: Stack, link: TestLink): Link
    requires IsPlainTest(link.test)
  {
    Link(link.op, link.nots, Active(w, paths, frames, link.test.e.text))
  }

  function ValuesOf(w: World, paths: Paths, frames: Stack, links: seq<TestLink>): seq<Link>
    requires IsPlainChain(links)
  {
    if links == [] then [] else [ValueOf(w, paths, frames, links[0])] + ValuesOf(w, paths, frames, links[1..])
  }

  lemma TryPlain(w: World, b: nat, st: State, acc: bool, link: TestLink)
    requires IsPlainTest(link.test)
    ensures Try(w, b, st, acc, link)
         == Goes(Marked(st, link.lines),
                 Joined(link.op, acc, ConditionChain.Outcome(ValueOf(w, st.paths, st.frames, link))))
  {
    var e, st' := link.test.e, Marked(st, link.lines);
    assert AddHashed(w, st', Acc([], false), e.hashed, e.flags, e.text, false) == Acc([e.text], true);
    assert Expand(w, b, st', e.rest, Acc([e.text], true), false) == Got(ReturnTrue, st', Acc([e.text], true));
    assert ExpandList(w, b, st', e, []) == Listed(ReturnTrue, st', [e.text]);
  }

  /** A chain of plain words holds exactly if the fold of its tests does, and changes no variable. */
  lemma {:induction false} PlainChainIsFold(w: World, b: nat, st: State, acc: bool, links: seq<TestLink>)
    requires IsPlainChain(links)
    ensures var r := Evaluate(w, b, st, acc, links);
      r == Run(ReturnBool(Fold(acc, ValuesOf(w, st.paths, st.frames, links))), st.(line := r.st.line))
    decreases |links|
  {
    if links != [] {
      TryPlain(w, b, st, acc, links[0]);
      var next := Marked(st, links[0].lines);
      var values := ValuesOf(w, st.paths, st.frames, links);
      assert values[0] == ValueOf(w, st.paths, st.frames, links[0]);
      assert values[1..] == ValuesOf(w, st.paths, st.frames, links[1..]);
      var acc' := Joined(links[0].op, acc, ConditionChain.Outcome(values[0]));
      PlainChainIsFold(w, b, next, acc', links[1..]);
      assert Evaluate(w, b, st, acc, links) == Evaluate(w, b, next, acc', links[1..]);
      assert next.frames == st.frames && Fold(acc, values) == Fold(acc', values[1..]);
    }
  }
}
