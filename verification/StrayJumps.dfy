/** Jumps that the parser accepts out of place: whether one may stand on a line is asked while the one-line
    blocks of the line before are still open. What such texts do when they are evaluated. */
module StrayJumps {
  import opened ProTokens
  import opened VarStack
  import opened ExprValues
  import opened ProSemantics
  import opened ProgramText
  import opened TestLines
  import ConditionChain
  import ParserScopes
  import ParserScopesProofs
  import ProgramTextProofs
  import TestChains

  function Literal(text: Text): Expr { Str(LITERAL, FRESH, text, End) }

  function Alone(test: Item): Stmt { Tests([TestLink([], ConditionChain.Fresh, 0, test)]) }

  /** A block with an assignment on the line of its head. */
  function OneLine(head: Head, s: Setting): Stmt { Block(head, Inline(Set(s))) }

  /** A loop over nothing with its body on its line, and `break()` on the next line. */
  function BreakBehindLoop(name: Text, s: Setting): seq<Stmt> {
    [OneLine(ForHead(Str(LITERAL, FRESH, name, Sep(End))), s), Alone(Jump(BREAK))]
  }

  /** A function with these lines as its body. */
  function BreakInFunction(f: Text, name: Text, s: Setting): seq<Stmt> {
    [Block(DefHead(TEST_DEF, Literal(f)), Braces(BreakBehindLoop(name, s)))]
  }

  /** A function with its body on its line, and a returned value on the next line. */
  function ReturnBehindFunction(f: Text, s: Setting, value: Text): seq<Stmt> {
    [OneLine(DefHead(TEST_DEF, Literal(f)), s), Alone(Ret(Literal(value)))]
  }

  function LoopOverNothing(name: Text, body: seq<Item>): Item {
    For(ParserScopes.HashLow(name), ParserScopes.HashHigh(name), name, End, body)
  }

  lemma LoopHead(name: Text, body: seq<Item>)
    ensures var head := ForHead(Str(LITERAL, FRESH, name, Sep(End)));
      HeadMade(head) && HeadItem(head, body) == LoopOverNothing(name, body)
  {
    hide ParserScopes.HashLow, ParserScopes.HashHigh;
    assert Seps(Sep(End)) == 1 + Seps(End) == 1;
  }

  lemma AloneIs(test: Item, nest: Nesting, lazy: Nesting, n: int)
    requires IsLineTest(test) && TestFits(TestLink([], ConditionChain.Fresh, 0, test), lazy)
    ensures StmtFits(Alone(test), nest, lazy, OnLine) && StmtMade(Alone(test))
    ensures StmtTree(Alone(test), n, LineOf(n)) == [LineAt(n), test]
  {
    var link := TestLink([], ConditionChain.Fresh, 0, test);
    var line: Unit := n % 0x10000;
    assert TestItems([link][1..], []) == [];
    assert LineItems([line]) == [Line(line)] + LineItems([line][1..]) == [Line(line)];
    assert NotItems(link.nots % 2) == [];
    assert LinkItems(Reduced(link, [line])) == [Line(line)] + ([] + ([] + [test]));
  }

  lemma OneLineIs(head: Head, s: Setting, nest: Nesting, n: int)
    requires HeadFits(head, nest) && SettingFits(s)
    ensures StmtFits(OneLine(head, s), nest, nest, OnLine) && StmtMade(OneLine(head, s))
    ensures StmtTree(OneLine(head, s), n, LineOf(n)) == [LineAt(n), HeadItem(head, [LineAt(n), SetItem(s)])]
    ensures LazyAfter(OneLine(head, s), nest) == InnerNest(head, nest) && StmtCount(OneLine(head, s)) == 1
  {
    assert LineItems(LineOf(n)) == [Line(LineOf(n)[0])] + LineItems(LineOf(n)[1..]) == [LineAt(n)];
    var body, inner := Inline(Set(s)), InnerNest(head, nest);
    assert StmtMade(Set(s)) && StmtFits(Set(s), inner, inner, AfterHead) && BodyMade(body);
    assert BodyTree(body, n, LineOf(n)) == StmtTree(Set(s), n, LineOf(n)) == [LineAt(n)] + [SetItem(s)];
    assert BodyCount(body) == StmtCount(Set(s)) == 1 && BodyAfter(body, inner) == LazyAfter(Set(s), inner) == inner;
    assert BodyFits(body, inner, AfterHead);
    assert [LineAt(n)] + [SetItem(s)] == [LineAt(n), SetItem(s)];
    hide HeadItem, HeadMade, BodyTree, BodyMade;
    assert StmtTree(OneLine(head, s), n, LineOf(n)) == [LineAt(n)] + [HeadItem(head, BodyTree(body, n, LineOf(n)))];
  }

  lemma BracesIs(head: Head, stmts: seq<Stmt>, nest: Nesting, n: int)
    requires HeadFits(head, nest) && Fits(stmts, InnerNest(head, nest), InnerNest(head, nest)) && AllMade(stmts)
    ensures StmtFits(Block(head, Braces(stmts)), nest, nest, OnLine) && StmtMade(Block(head, Braces(stmts)))
    ensures StmtTree(Block(head, Braces(stmts)), n, LineOf(n)) == [LineAt(n), HeadItem(head, Tree(stmts, n + 1))]
  {
    assert LineItems(LineOf(n)) == [Line(LineOf(n)[0])] + LineItems(LineOf(n)[1..]) == [LineAt(n)];
    var body := Braces(stmts);
    assert BodyMade(body) && BodyFits(body, InnerNest(head, nest), AfterHead);
    assert BodyTree(body, n, LineOf(n)) == Tree(stmts, n + 1);
    hide HeadItem, HeadFits, InnerNest, Tree, Fits, AllMade;
  }

  lemma TwoStmts(a: Stmt, b: Stmt, nest: Nesting, n: int)
    requires StmtFits(a, nest, nest, OnLine) && StmtFits(b, nest, LazyAfter(a, nest), OnLine)
    requires StmtMade(a) && StmtMade(b)
    ensures Fits([a, b], nest, nest) && AllMade([a, b])
    ensures var m := n + StmtCount(a); Tree([a, b], n) == StmtTree(a, n, LineOf(n)) + StmtTree(b, m, LineOf(m))
  {
    assert [a, b][1..] == [b] && [b][1..] == [];
    var m := n + StmtCount(a);
    assert Tree([b], m) == StmtTree(b, m, LineOf(m)) + [];
  }

  lemma OneStmt(a: Stmt, nest: Nesting, n: int)
    requires StmtFits(a, nest, nest, OnLine) && StmtMade(a)
    ensures Fits([a], nest, nest) && AllMade([a]) && Tree([a], n) == StmtTree(a, n, LineOf(n))
  {
    assert [a][1..] == [];
    assert Tree([a], n) == StmtTree(a, n, LineOf(n)) + [];
  }

  // ---- break() behind a one-line loop

  function BreakTree(name: Text, s: Setting, n: int): seq<Item> {
    [LineAt(n), LoopOverNothing(name, [LineAt(n), SetItem(s)]), LineAt(n + 1), Jump(BREAK)]
  }

  lemma BreakFits(name: Text, s: Setting, nest: Nesting, n: int)
    requires SettingFits(s)
    ensures Fits(BreakBehindLoop(name, s), nest, nest) && AllMade(BreakBehindLoop(name, s))
    ensures Tree(BreakBehindLoop(name, s), n) == BreakTree(name, s, n)
    ensures Nested(BreakTree(name, s, n), nest) <==> nest.inLoop
  {
    var head := ForHead(Str(LITERAL, FRESH, name, Sep(End)));
    var body := [LineAt(n), SetItem(s)];
    hide LoopOverNothing, HeadMade, StmtFits, StmtTree, StmtMade, LazyAfter, OneLine;
    LoopHead(name, body);
    var loop := OneLine(head, s);
    OneLineIs(head, s, nest, n);
    AloneIs(Jump(BREAK), nest, nest.(inLoop := true), n + 1);
    TwoStmts(loop, Alone(Jump(BREAK)), nest, n);
    BreakNested(name, s, n, nest);
  }

  lemma NestedFour(a: Item, b: Item, c: Item, d: Item, nest: Nesting)
    ensures Nested([a, b, c, d], nest)
      <==> NestedItem(a, nest) && NestedItem(b, nest) && NestedItem(c, nest) && NestedItem(d, nest)
  {
    NestedTwo(c, d, nest);
    assert [a, b, c, d][1..] == [b, c, d] && [b, c, d][1..] == [c, d];
    assert Nested([b, c, d], nest) <==> NestedItem(b, nest) && Nested([c, d], nest);
  }

  lemma NestedTwo(c: Item, d: Item, nest: Nesting)
    ensures Nested([c, d], nest) <==> NestedItem(c, nest) && NestedItem(d, nest)
  {
    assert [c, d][1..] == [d] && [d][1..] == [];
    assert Nested([d], nest) <==> NestedItem(d, nest) && Nested([], nest);
  }

  lemma BreakNested(name: Text, s: Setting, n: int, nest: Nesting)
    ensures Nested(BreakTree(name, s, n), nest) <==> nest.inLoop
  {
    var loop := LoopOverNothing(name, [LineAt(n), SetItem(s)]);
    NestedTwo(LineAt(n), SetItem(s), nest.(inLoop := true));
    NestedFour(LineAt(n), loop, LineAt(n + 1), Jump(BREAK), nest);
  }

  lemma LoopRuns(w: World, b: nat, st: State, name: Text, body: seq<Item>)
    requires name != [] && Meaning(st.frames, []) == []
    ensures RunLoop(w, b, st, name, End, body).vr == ReturnTrue
  {
    assert Expand(w, b, st, End, Acc([] + [[]], false), true) == Got(ReturnTrue, st, Acc([[]], false));
    assert ExpandJoined(w, b, st, End, []) == Listed(ReturnTrue, st, [[]]);
    assert |Units("forever")| == 7;
    assert Rounds(w, st, []) == [];
  }

  /** Evaluating these lines ends in a break, whatever the surroundings. */
  lemma BreakRuns(w: World, b: nat, st: State, name: Text, s: Setting, n: int)
    requires name != [] && Meaning(st.frames, []) == []
    ensures RunItems(w, b, st, BreakTree(name, s, n), [], ConditionChain.START).vr == ReturnBreak
  {
    hide RunItems, RunLoop;
    var c, body := ConditionChain.START, [LineAt(n), SetItem(s)];
    var loop, last := LoopOverNothing(name, body), [LineAt(n + 1), Jump(BREAK)];
    var marked := st.(line := n % 0x10000);
    LoopRuns(w, b, marked, name, body);
    var r := RunLoop(w, b, marked, name, End, body);
    var next := r.st.(line := (n + 1) % 0x10000);
    assert BreakTree(name, s, n) == [LineAt(n)] + ([loop] + last);
    TestChains.RunFirst(w, b, st, LineAt(n), [loop] + last, c);
    ItemSize(loop);
    TestChains.RunFirst(w, b, marked, loop, last, c);
    TestChains.RunFirst(w, b, r.st, LineAt(n + 1), [Jump(BREAK)], c);
    TestChains.RunFirst(w, b, next, Jump(BREAK), [], c);
    assert [Jump(BREAK)] + [] == [Jump(BREAK)] && [LineAt(n + 1)] + [Jump(BREAK)] == last;
    assert StepItem(w, b, st, LineAt(n), [], c) == Go(marked, c);
    assert StepItem(w, b, marked, loop, [], c) == Go(r.st, c);
    assert StepItem(w, b, r.st, LineAt(n + 1), [], c) == Go(next, c);
    assert StepItem(w, b, next, Jump(BREAK), [], c) == Halt(ReturnBreak, next);
  }

  /** A file with `break()` on the line after a one-line loop is accepted, and its evaluation ends in a break. */
  lemma StrayBreak(w: World, b: nat, st: State, name: Text, s: Setting, line: int)
    requires SettingFits(s) && line > 0 && name != [] && Meaning(st.frames, []) == []
    ensures AllMade(BreakBehindLoop(name, s))
    ensures var evs := Print(BreakBehindLoop(name, s));
      var p := ParserScopes.Parse(line, false, evs, 0, End);
      && p.ok && p.toks == EncItems(BreakTree(name, s, line))
      && !ParserScopesProofs.AllPlaced(ParserScopes.Init(line, false), evs)
    ensures RunItems(w, b, st, BreakTree(name, s, line), [], ConditionChain.START).vr == ReturnBreak
  {
    hide Fits, Tree, Print, Nested, ParserScopes.Parse, RunItems, EncItems;
    BreakFits(name, s, NEST_NONE, line);
    ProgramTextProofs.PrintedParses(line, BreakBehindLoop(name, s));
    BreakRuns(w, b, st, name, s, line);
  }

  // ---- the same in a function

  lemma {:induction false} ArgNames(args: seq<Values>)
    ensures [] !in ArgFrame(args)
  {
    if args != [] {
      ArgNames(args[..|args| - 1]);
    }
  }

  /** No variable of a new frame has an empty name. */
  lemma NewFrameNames(st: State, args: seq<Values>)
    ensures Meaning(st.frames + [NewFrame(args)], []) == []
  {
    ArgNames(args);
    assert |Units("ARGS")| == 4 && |Units("ARGC")| == 4;
  }

  function FunctionTree(f: Text, name: Text, s: Setting, n: int): seq<Item> {
    [LineAt(n), Def(TEST_DEF, ParserScopes.HashLow(f), ParserScopes.HashHigh(f), f, BreakTree(name, s, n + 1))]
  }

  lemma FunctionFits(f: Text, name: Text, s: Setting, n: int)
    requires SettingFits(s)
    ensures Fits(BreakInFunction(f, name, s), NEST_NONE, NEST_NONE) && AllMade(BreakInFunction(f, name, s))
    ensures Tree(BreakInFunction(f, name, s), n) == FunctionTree(f, name, s, n)
    ensures !Nested(FunctionTree(f, name, s, n), NEST_NONE)
  {
    hide ParserScopes.HashLow, ParserScopes.HashHigh;
    BreakFits(name, s, NEST_FUNCTION, n + 1);
    hide BreakBehindLoop, BreakTree;
    var head := DefHead(TEST_DEF, Literal(f));
    var def := Block(head, Braces(BreakBehindLoop(name, s)));
    BracesIs(head, BreakBehindLoop(name, s), NEST_NONE, n);
    OneStmt(def, NEST_NONE, n);
    NestedTwo(LineAt(n), FunctionTree(f, name, s, n)[1], NEST_NONE);
  }

  /** A function with such lines in its body is accepted, and a call of it ends in a break. */
  lemma StrayBreakInFunction(w: World, b: nat, st: State, args: seq<Values>, f: Text, name: Text, s: Setting, line: int)
    requires SettingFits(s) && line > 0 && name != [] && Height(st) < MAX_DEPTH
    ensures AllMade(BreakInFunction(f, name, s))
    ensures var evs := Print(BreakInFunction(f, name, s));
      var p := ParserScopes.Parse(line, false, evs, 0, End);
      && p.ok && p.toks == EncItems(FunctionTree(f, name, s, line))
      && !ParserScopesProofs.AllPlaced(ParserScopes.Init(line, false), evs)
    ensures CallFunction(w, b, st, FunctionTree(f, name, s, line)[1].body, args).vr == ReturnBreak
  {
    hide Fits, Tree, Print, Nested, ParserScopes.Parse, RunItems, EncItems, BreakTree;
    FunctionFits(f, name, s, line);
    ProgramTextProofs.PrintedParses(line, BreakInFunction(f, name, s));
    NewFrameNames(st, args);
    BreakRuns(w, b, st.(frames := st.frames + [NewFrame(args)], line := 0), name, s, line + 1);
  }

  // ---- a returned value behind a one-line function

  function ReturnTree(f: Text, s: Setting, value: Text, n: int): seq<Item> {
    [LineAt(n),
     Def(TEST_DEF, ParserScopes.HashLow(f), ParserScopes.HashHigh(f), f, [LineAt(n), SetItem(s)]),
     LineAt(n + 1),
     Ret(Literal(value))]
  }

  lemma ReturnFits(f: Text, s: Setting, value: Text, n: int)
    requires SettingFits(s)
    ensures Fits(ReturnBehindFunction(f, s, value), NEST_NONE, NEST_NONE) && AllMade(ReturnBehindFunction(f, s, value))
    ensures Tree(ReturnBehindFunction(f, s, value), n) == ReturnTree(f, s, value, n)
    ensures !Nested(ReturnTree(f, s, value, n), NEST_NONE)
  {
    hide ParserScopes.HashLow, ParserScopes.HashHigh;
    var head := DefHead(TEST_DEF, Literal(f));
    var one := OneLine(head, s);
    OneLineIs(head, s, NEST_NONE, n);
    AloneIs(Ret(Literal(value)), NEST_NONE, NEST_FUNCTION, n + 1);
    TwoStmts(one, Alone(Ret(Literal(value))), NEST_NONE, n);
    NestedFour(LineAt(n), ReturnTree(f, s, value, n)[1], LineAt(n + 1), Ret(Literal(value)), NEST_NONE);
  }

  lemma ReturnRuns(w: World, b: nat, st: State, f: Text, s: Setting, value: Text, n: int)
    ensures RunItems(w, b, st, ReturnTree(f, s, value, n), [], ConditionChain.START).vr == ReturnReturn
  {
    hide RunItems;
    var c, def, ret := ConditionChain.START, ReturnTree(f, s, value, n)[1], Ret(Literal(value));
    var marked := st.(line := n % 0x10000);
    var defined := Define(marked, TEST_DEF, f, def.body);
    var next := defined.(line := (n + 1) % 0x10000);
    assert ReturnTree(f, s, value, n) == [LineAt(n)] + ([def] + ([LineAt(n + 1)] + ([ret] + [])));
    TestChains.RunFirst(w, b, st, LineAt(n), [def] + ([LineAt(n + 1)] + ([ret] + [])), c);
    TestChains.RunFirst(w, b, marked, def, [LineAt(n + 1)] + ([ret] + []), c);
    TestChains.RunFirst(w, b, defined, LineAt(n + 1), [ret] + [], c);
    TestChains.RunFirst(w, b, next, ret, [], c);
    assert StepItem(w, b, st, LineAt(n), [], c) == Go(marked, c);
    assert StepItem(w, b, marked, def, [], c) == Go(defined, c);
    assert StepItem(w, b, defined, LineAt(n + 1), [], c) == Go(next, c);
    ReturnStep(w, b, next, value, c);
  }

  lemma ReturnStep(w: World, b: nat, st: State, value: Text, c: ConditionChain.Chain)
    requires ConditionChain.Due(c)
    ensures StepItem(w, b, st, Ret(Literal(value)), [], c) == Halt(ReturnReturn, st.(returnValue := [value]))
  {
    var e := Literal(value);
    assert AddPlain(w, Acc([], false), e.str, e.flags, e.text, false) == Acc([value], true);
    assert Expand(w, b, st, e.rest, Acc([value], true), false) == Got(ReturnTrue, st, Acc([value], true));
    assert ExpandList(w, b, st, e, []) == Listed(ReturnTrue, st, [value]);
  }

  /** A file with a returned value on the line after a one-line function is accepted, and its evaluation ends
      in a return. */
  lemma StrayReturn(w: World, b: nat, st: State, f: Text, s: Setting, value: Text, line: int)
    requires SettingFits(s) && line > 0
    ensures AllMade(ReturnBehindFunction(f, s, value))
    ensures var evs := Print(ReturnBehindFunction(f, s, value));
      var p := ParserScopes.Parse(line, false, evs, 0, End);
      && p.ok && p.toks == EncItems(ReturnTree(f, s, value, line))
      && !ParserScopesProofs.AllPlaced(ParserScopes.Init(line, false), evs)
    ensures RunItems(w, b, st, ReturnTree(f, s, value, line), [], ConditionChain.START).vr == ReturnReturn
  {
    hide Fits, Tree, Print, Nested, ParserScopes.Parse, RunItems, EncItems;
    ReturnFits(f, s, value, line);
    ProgramTextProofs.PrintedParses(line, ReturnBehindFunction(f, s, value));
    ReturnRuns(w, b, st, f, s, value, line);
  }
}
