/** The parser object: its methods change the scope stack and the token buffer in place. It carries, as
    ghosts, the tree that its stream is the encoding of and the story of what it has read. */
module QMakeParserObject {
  import opened ProTokens
  import opened ParserCounts
  import opened ParserScopes
  import opened ParserScopesProofs
  import opened ParserStory

  class QMakeParser {
    var toks: seq<Unit>
    var blockstack: seq<BlockScope>
    var state: ScopeState
    var markLine: int
    var lineNo: int
    var canElse: bool
    var invert: nat
    var op: Operator
    var ok: bool
    var hostBuild: bool
    const testGrammar: bool
    ghost var tree: Zip
    ghost var tale: Tale

    ghost function Model(): Parser
      reads this
    {
      Parser(toks, blockstack, state, markLine, lineNo, canElse, invert, op, ok, hostBuild, testGrammar)
    }

    /** Until an error is met, the stream and the scopes describe the tree, and the story tells what it says. */
    ghost predicate Valid()
      reads this
    {
      Running(Model()) && (ok ==> Inv(Model(), tree, tale))
    }

    constructor (testGrammar: bool)
      ensures this.testGrammar == testGrammar
    {
      toks, blockstack := [], [];
      state, markLine, lineNo, canElse := StNew, 0, 0, false;
      invert, op, ok, hostBuild := 0, NoOperator, false, false;
      this.testGrammar := testGrammar;
      tree, tale := Root([], Idle), ParserStory.START;
    }

    /** Nothing has been read yet. */
    method Start(line: int)
      modifies this
      ensures Valid() && Model() == Init(line, testGrammar)
      ensures tree == Root([], Idle) && tale == ParserStory.START
    {
      hide Inv;
      toks, blockstack := [], [BlockScope(NO_START, 0, false, false, NEST_NONE)];
      state, markLine, lineNo, canElse := StNew, line, line, false;
      invert, op, ok, hostBuild := 0, NoOperator, true, false;
      tree, tale := Root([], Idle), ParserStory.START;
      StartInv(line, testGrammar);
    }

    method PutLineMarker()
      requires Running(Model())
      modifies this
      ensures Model() == ParserScopes.PutLineMarker(old(Model()))
    {
      if markLine != 0 {
        toks := toks + [LINE, markLine % 0x10000];
        markLine := 0;
      }
    }

    method EnterScope(special: bool, state: ScopeState)
      requires Running(Model())
      modifies this
      ensures Model() == ParserScopes.EnterScope(old(Model()), special, state)
    {
      var nest := blockstack[|blockstack| - 1].nest;
      blockstack := blockstack + [BlockScope(|toks|, 0, special, false, nest)];
      toks := toks + [0, 0];
      this.state := state;
      canElse := false;
      if special {
        markLine := lineNo;
      }
    }

    method LeaveScope()
      requires Running(Model())
      modifies this
      ensures Model() == ParserScopes.LeaveScope(old(Model()))
    {
      var top := blockstack[|blockstack| - 1];
      if top.inBranch {
        toks := toks + NO_BLOCK;
      }
      if top.start >= 0 {
        toks := toks + [TERMINATOR];
        var len: seq<Unit> := EncLen(|toks| - top.start - 2);
        toks := toks[top.start := len[0]];
        toks := toks[top.start + 1 := len[1]];
      }
      blockstack := blockstack[..|blockstack| - 1];
    }

    method FlushScopes()
      requires Running(Model())
      modifies this
      ensures Model() == ParserScopes.FlushScopes(old(Model()))
    {
      if state == StNew {
        ghost var start := Model();
        while blockstack[|blockstack| - 1].braceLevel == 0 && |blockstack| > 1
          invariant Running(Model())
          invariant CloseOneLiners(Model()) == CloseOneLiners(start)
          decreases |blockstack|
        {
          LeaveScope();
        }
        var top := blockstack[|blockstack| - 1];
        if top.inBranch {
          blockstack := blockstack[|blockstack| - 1 := top.(inBranch := false)];
          toks := toks + NO_BLOCK;
        }
        canElse := false;
      }
    }

    method FlushCond()
      requires Running(Model())
      modifies this
      ensures Model() == ParserScopes.FlushCond(old(Model()))
    {
      if state == StCond {
        toks := toks + [BRANCH];
        blockstack := blockstack[|blockstack| - 1 := blockstack[|blockstack| - 1].(inBranch := true)];
        EnterScope(false, StNew);
      } else {
        FlushScopes();
      }
    }

    method PutOperator()
      requires Running(Model())
      modifies this
      ensures Model() == ParserScopes.PutOperator(old(Model()))
    {
      if op == AndOperator {
        if state == StCond {
          toks := toks + [AND];
        }
        op := NoOperator;
      } else if op == OrOperator {
        toks := toks + [OR];
        op := NoOperator;
      }
    }

    method WarnOperator()
      modifies this
      ensures Model() == ParserScopes.WarnOperator(old(Model()))
    {
      invert, op := 0, NoOperator;
    }

    method FailOperator() returns (fail: bool)
      modifies this
      ensures Model() == ParserScopes.FailOperator(old(Model())) && fail == Dangling(old(Model()))
    {
      fail := invert != 0 || op != NoOperator;
      if fail {
        ok := false;
      }
      invert, op := 0, NoOperator;
    }

    method AcceptColon() returns (accepted: bool)
      modifies this
      ensures Model() == ParserScopes.FailOperator(DropColon(old(Model())))
      ensures accepted == !Dangling(DropColon(old(Model())))
    {
      if op == AndOperator {
        op := NoOperator;
      }
      var fail := FailOperator();
      accepted := !fail;
    }

    method FinalizeTest()
      requires Running(Model())
      modifies this
      ensures Model() == ParserScopes.FinalizeTest(old(Model()))
    {
      FlushScopes();
      PutLineMarker();
      PutOperator();
      if invert % 2 == 1 {
        toks := toks + [NOT];
      }
      invert := 0;
      state := StCond;
      canElse := true;
    }

    method BogusTest()
      requires Running(Model())
      modifies this
      ensures Model() == ParserScopes.BogusTest(old(Model()))
    {
      ok := false;
      FlushScopes();
      op, invert, state, canElse := NoOperator, 0, StCond, true;
    }

    /** Close scopes until one has a branch whose else-block can be opened. */
    method FindBranch()
      requires Running(Model())
      modifies this
      ensures Model() == ParserScopes.FindBranch(old(Model()))
    {
      while true
        invariant Running(Model())
        invariant ParserScopes.FindBranch(Model()) == ParserScopes.FindBranch(old(Model()))
        decreases |blockstack|
      {
        var top := blockstack[|blockstack| - 1];
        if top.inBranch && (!top.special || top.braceLevel > 0) {
          blockstack := blockstack[|blockstack| - 1 := top.(inBranch := false)];
          EnterScope(false, StCtrl);
          return;
        }
        if top.braceLevel > 0 || |blockstack| == 1 {
          break;
        }
        LeaveScope();
      }
      ok := false;
    }

    method FinalizeElse()
      requires Running(Model())
      modifies this
      ensures Model() == ParserScopes.FinalizeElse(old(Model()))
    {
      if invert != 0 || op != NoOperator {
        var _ := FailOperator();
        return;
      }
      var top := blockstack[|blockstack| - 1];
      if canElse && (!top.special || top.braceLevel > 0) {
        toks := toks + ([BRANCH] + NO_BLOCK);
        EnterScope(false, StCtrl);
      } else {
        FindBranch();
      }
    }

    method FinalizeCond(words: nat, e: Expr)
      requires Running(Model())
      modifies this
      ensures Model() == ParserScopes.FinalizeCond(old(Model()), words, e)
    {
      if words != 1 {
        if words != 0 {
          BogusTest();
        }
        return;
      }
      if IsElse(e) {
        FinalizeElse();
        return;
      }
      FinalizeTest();
      toks := toks + (EncExpr(e) + [CONDITION]);
    }

    method EnterLoop(loop: Item)
      requires Running(Model()) && loop.For?
      modifies this
      ensures Model() == ParserScopes.EnterLoop(old(Model()), loop)
    {
      toks := toks + EncForHead(loop.h0, loop.h1, loop.name, loop.list);
      EnterScope(true, StCtrl);
      var top := blockstack[|blockstack| - 1];
      blockstack := blockstack[|blockstack| - 1 := top.(nest := top.nest.(inLoop := true))];
    }

    method StartLoop(loop: seq<Item>)
      requires Running(Model()) && (loop != [] ==> loop[0].For?)
      modifies this
      ensures Model() == ParserScopes.StartLoop(old(Model()), loop)
    {
      FlushCond();
      PutLineMarker();
      if loop == [] {
        ok := false;
      } else {
        EnterLoop(loop[0]);
      }
    }

    method FinalizeFor(args: Expr)
      requires Running(Model())
      modifies this
      ensures Model() == ParserScopes.FinalizeFor(old(Model()), args)
    {
      ghost var dropped := DropColon(Model());
      var accepted := AcceptColon();
      if !accepted {
        BogusTest();
      } else {
        assert Model() == dropped;
        StartLoop(LoopOf(args));
      }
    }

    method EnterFunction(tok: DefTok, name: Text)
      requires Running(Model())
      modifies this
      ensures Model() == ParserScopes.EnterFunction(old(Model()), tok, name)
    {
      toks := toks + ([tok] + EncHash(HashLow(name), HashHigh(name), name));
      EnterScope(true, StCtrl);
      var top := blockstack[|blockstack| - 1];
      blockstack := blockstack[|blockstack| - 1 := top.(nest := NEST_FUNCTION)];
    }

    method FinalizeDef(tok: DefTok, args: Expr)
      requires Running(Model())
      modifies this
      ensures Model() == ParserScopes.FinalizeDef(old(Model()), tok, args)
    {
      if invert != 0 {
        BogusTest();
        return;
      }
      FlushScopes();
      PutLineMarker();
      if IsLiteralArg(args) && args.rest.End? {
        PutOperator();
        EnterFunction(tok, args.text);
      } else {
        ok := false;
      }
    }

    method FinalizeBypass(args: Expr)
      requires Running(Model())
      modifies this
      ensures Model() == ParserScopes.FinalizeBypass(old(Model()), args)
    {
      if !args.End? || !blockstack[|blockstack| - 1].nest.inFunc || invert != 0 {
        BogusTest();
        return;
      }
      FlushScopes();
      PutLineMarker();
      PutOperator();
      toks := toks + [BYPASS_NESTING];
      EnterScope(true, StCtrl);
    }

    method FinalizeReturn(args: Expr)
      requires Running(Model())
      modifies this
      ensures Model() == ParserScopes.FinalizeReturn(old(Model()), args)
    {
      var inFunc := blockstack[|blockstack| - 1].nest.inFunc;
      if (inFunc && Seps(args) > 0) || (!inFunc && !args.End?) || invert != 0 {
        BogusTest();
        return;
      }
      FinalizeTest();
      toks := toks + (EncExpr(args) + [RETURN]);
    }

    method FinalizeJump(tok: JumpTok, args: Expr)
      requires Running(Model())
      modifies this
      ensures Model() == ParserScopes.FinalizeJump(old(Model()), tok, args)
    {
      if !args.End? || !blockstack[|blockstack| - 1].nest.inLoop || invert != 0 {
        BogusTest();
        return;
      }
      FinalizeTest();
      toks := toks + [tok];
    }

    method FinalizeOption(args: Expr)
      requires Running(Model())
      modifies this
      ensures Model() == ParserScopes.FinalizeOption(old(Model()), args)
    {
      var top := blockstack[|blockstack| - 1];
      if state != StNew || top.braceLevel > 0 || |blockstack| > 1 || invert != 0 || op != NoOperator {
        BogusTest();
        return;
      }
      if IsLiteralArg(args) && args.rest.End? && args.text == HOST_BUILD_WORD {
        hostBuild := true;
      } else {
        ok := false;
      }
    }

    method FinalizeCall(e: Expr, args: Expr)
      requires Running(Model())
      modifies this
      ensures Model() == ParserScopes.FinalizeCall(old(Model()), e, args)
    {
      var keyword := KeywordOf(e);
      match keyword
      case KwFor => FinalizeFor(args);
      case KwDefineReplace => FinalizeDef(REPLACE_DEF, args);
      case KwDefineTest => FinalizeDef(TEST_DEF, args);
      case KwBypass => FinalizeBypass(args);
      case KwReturn => FinalizeReturn(args);
      case KwNext => FinalizeJump(NEXT, args);
      case KwBreak => FinalizeJump(BREAK, args);
      case KwOption => FinalizeOption(args);
      case KwNone =>
        FinalizeTest();
        toks := toks + (EncExpr(e) + [TEST_CALL] + EncExpr(args) + [FUNC_TERMINATOR]);
    }

    method CloseBlock()
      requires Running(Model()) && Top(Model()).braceLevel > 0
      modifies this
      ensures Model() == ParserScopes.CloseBlock(old(Model()))
    {
      var top := blockstack[|blockstack| - 1];
      blockstack := blockstack[|blockstack| - 1 := top.(braceLevel := top.braceLevel - 1)];
      if top.braceLevel == 1 && |blockstack| != 1 {
        LeaveScope();
        state := StNew;
        canElse := false;
        markLine := lineNo;
      }
    }

    method CloseScope()
      requires Running(Model())
      modifies this
      ensures Model() == ParserScopes.CloseScope(old(Model()))
    {
      FlushScopes();
      var _ := FailOperator();
      if blockstack[|blockstack| - 1].braceLevel == 0 {
        ok := false;
      } else {
        CloseBlock();
      }
    }

    method OpenBlock()
      requires Running(Model())
      modifies this
      ensures Model() == ParserScopes.OpenBlock(old(Model()))
    {
      state := StNew;
      var top := blockstack[|blockstack| - 1];
      blockstack := blockstack[|blockstack| - 1 := top.(braceLevel := top.braceLevel + 1)];
      if testGrammar {
        ok := false;
      }
    }

    method OpenScope()
      requires Running(Model())
      modifies this
      ensures Model() == ParserScopes.OpenScope(old(Model()))
    {
      var _ := AcceptColon();
      FlushCond();
      OpenBlock();
    }

    method PutAssignment(words: nat, e: Expr, tok: AssignTok, valueWords: nat, value: Expr)
      requires Running(Model())
      modifies this
      ensures Model() == ParserScopes.PutAssignment(old(Model()), words, e, tok, valueWords, value)
    {
      FlushCond();
      var _ := AcceptColon();
      PutLineMarker();
      if testGrammar || words != 1 {
        ok := false;
      } else {
        toks := toks + EncExpr(e);
      }
      toks := toks + ([tok, SizeHint(valueWords, value)] + EncExpr(value) + [VALUE_TERMINATOR]);
    }

    method HandleOperator(words: nat, e: Expr, colon: bool)
      requires Running(Model())
      modifies this
      ensures Model() == Step(old(Model()), if colon then Colon(words, e) else Pipe(words, e))
    {
      hide ParserScopes.FinalizeCond;
      FinalizeCond(words, e);
      WarnOperator();
      if colon {
        if state == StNew { ok := false; } else { op := AndOperator; }
      } else {
        if state != StCond { ok := false; } else { op := OrOperator; }
      }
    }

    method HandleOpenBrace(words: nat, e: Expr)
      requires Running(Model())
      modifies this
      ensures Model() == Step(old(Model()), OpenBrace(words, e))
    {
      hide ParserScopes.FinalizeCond, ParserScopes.OpenScope;
      FinalizeCond(words, e);
      OpenScope();
    }

    method HandleCloseBrace(words: nat, e: Expr)
      requires Running(Model())
      modifies this
      ensures Model() == Step(old(Model()), CloseBrace(words, e))
    {
      hide ParserScopes.FinalizeCond, ParserScopes.CloseScope;
      FinalizeCond(words, e);
      state := StNew;
      CloseScope();
    }

    method HandleNewline(words: nat, e: Expr)
      requires Running(Model())
      modifies this
      ensures Model() == Step(old(Model()), Newline(words, e))
    {
      hide ParserScopes.FinalizeCond;
      FinalizeCond(words, e);
      WarnOperator();
      lineNo := lineNo + 1;
      state, markLine := StNew, lineNo;
    }

    method HandleCall(words: nat, e: Expr, args: Expr)
      requires Running(Model())
      modifies this
      ensures Model() == Step(old(Model()), Invocation(words, e, args))
    {
      hide ParserScopes.FinalizeCall;
      if words != 1 {
        ok := false;
        FinalizeCall(End, args);
      } else {
        FinalizeCall(e, args);
      }
    }

    method HandleAssignment(ev: Event)
      requires Running(Model()) && ev.Assignment?
      modifies this
      ensures Model() == Step(old(Model()), ev)
    {
      hide ParserScopes.PutAssignment, ParserScopes.CloseScope;
      PutAssignment(ev.words, ev.e, ev.tok, ev.valueWords, ev.value);
      if ev.closing {
        CloseScope();
      }
    }

    method Dispatch(ev: Event)
      requires Running(Model())
      modifies this
      ensures Model() == Step(old(Model()), ev)
    {
      match ev
      case Bang => invert := invert + 1;
      case Colon(words, e) => HandleOperator(words, e, true);
      case Pipe(words, e) => HandleOperator(words, e, false);
      case OpenBrace(words, e) => HandleOpenBrace(words, e);
      case CloseBrace(words, e) => HandleCloseBrace(words, e);
      case Assignment(_, _, _, _, _, _) => HandleAssignment(ev);
      case Invocation(words, e, args) => HandleCall(words, e, args);
      case Newline(words, e) => HandleNewline(words, e);
      case CommentLine =>
        if markLine == lineNo { markLine := markLine + 1; }
        lineNo := lineNo + 1;
      case Continuation => lineNo := lineNo + 1;
      case Unclosed => BogusTest();
    }

    /** One construct of a line: the tree grows by what it says. */
    method Handle(ev: Event)
      requires Valid() && Tokenized(ev)
      modifies this
      ensures Valid() && Model() == Step(old(Model()), ev)
      ensures tale == EventTold(old(Model()), old(tale), ev)
      ensures ok ==> (NestedZip(tree) <==> NestedZip(old(tree)) && Placed(old(Model()), ev))
    {
      hide Inv, Step, EventTold, NestedZip, Placed, Tokenized;
      ghost var p, z, t := Model(), tree, tale;
      Dispatch(ev);
      tale := EventTold(p, t, ev);
      if ok {
        tree := StepInv(p, z, t, ev);
      }
    }

    method LeaveAll()
      requires Safe(Model())
      modifies this
      ensures Model() == ParserScopes.LeaveAll(old(Model()))
    {
      while blockstack != []
        invariant Safe(Model())
        invariant ParserScopes.LeaveAll(Model()) == ParserScopes.LeaveAll(old(Model()))
        decreases |blockstack|
      {
        LeaveScope();
      }
    }

    /** The last logical line ends. */
    method LastLine(words: nat, e: Expr)
      requires Running(Model())
      modifies this
      ensures Model() == CheckClosed(ParserScopes.LastLine(old(Model()), words, e))
    {
      FinalizeCond(words, e);
      WarnOperator();
      FlushScopes();
      if |blockstack| > 1 || blockstack[|blockstack| - 1].braceLevel > 0 {
        ok := false;
      }
    }

    /** The end of the text; `items` is the finished tree. */
    method Finish(words: nat, e: Expr) returns (ghost items: seq<Item>)
      requires Valid() && Seps(e) == 0
      modifies this
      ensures Model() == ParserScopes.Finish(old(Model()), words, e) && (ok ==> old(ok))
      ensures ok ==>
        && toks == EncItems(items) && Separated(items)
        && Flat(items, FILE, 0) == CondTold(old(Model()), old(tale), words, e).notes
        && (Nested(items, NEST_NONE) <==> NestedZip(old(tree)))
    {
      hide Inv, CondTold, NestedZip, Nested, EncItems, Separated, Flat;
      hide ParserScopes.FlushScopes, ParserScopes.FinalizeCond;
      ghost var p, z, t := Model(), tree, tale;
      LastLine(words, e);
      items := [];
      if ok {
        items := FinishTree(p, z, t, words, e);
      }
      LeaveAllOk(Model());
      LeaveAll();
    }

    /** Parse a whole text, given as its events. The stream of an accepted text encodes the tree that says
        what the text says, and the tree is properly nested exactly if every jump was placed. */
    method Read(line: int, evs: seq<Event>, words: nat, e: Expr) returns (ghost items: seq<Item>)
      requires AllTokenized(evs) && Seps(e) == 0
      modifies this
      ensures Model() == Parse(line, testGrammar, evs, words, e)
      ensures ok ==>
        && toks == EncItems(items) && Separated(items)
        && Flat(items, FILE, 0) == Notes(line, testGrammar, evs, words, e)
        && (Nested(items, NEST_NONE) <==> AllPlaced(Init(line, testGrammar), evs))
    {
      hide Run, Story, AllPlaced, Inv, NestedZip, Step, EventTold, Placed;
      Start(line);
      ghost var start := Init(line, testGrammar);
      ReadNothing(start);
      var i := 0;
      assert evs[..0] == [];
      while i < |evs|
        invariant 0 <= i <= |evs| && Valid()
        invariant Model() == Run(start, evs[..i]) && tale == Story(start, ParserStory.START, evs[..i])
        invariant ok ==> (NestedZip(tree) <==> AllPlaced(start, evs[..i]))
      {
        ReadNext(start, evs, i);
        Handle(evs[i]);
        i := i + 1;
      }
      assert evs[..i] == evs;
      items := Finish(words, e);
    }
  }

  lemma ReadNext(p: Parser, evs: seq<Event>, i: nat)
    requires Running(p) && i < |evs|
    ensures Run(p, evs[..i + 1]) == Step(Run(p, evs[..i]), evs[i])
    ensures Story(p, ParserStory.START, evs[..i + 1])
         == EventTold(Run(p, evs[..i]), Story(p, ParserStory.START, evs[..i]), evs[i])
    ensures AllPlaced(p, evs[..i + 1]) <==> AllPlaced(p, evs[..i]) && Placed(Run(p, evs[..i]), evs[i])
  {
    assert evs[..i + 1][..i] == evs[..i];
  }

  lemma ReadNothing(p: Parser)
    requires Running(p)
    ensures Run(p, []) == p && Story(p, ParserStory.START, []) == ParserStory.START && AllPlaced(p, [])
    ensures NestedZip(Root([], Idle))
  {
  }
}
