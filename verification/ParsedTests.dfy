/** From the text of a line of tests to what it does. */
module ParsedTests {
  import opened ProTokens
  import opened ProSemantics
  import opened ProgramText
  import opened TestLines
  import ConditionChain
  import ParserScopes
  import ProgramTextProofs
  import TestChains

  /** The tests as the parser writes them: the line mark in front of the first, at most one negation each. */
  function Written(links: seq<TestLink>, lines: seq<Unit>): seq<TestLink> {
    if links == [] then [] else [Reduced(links[0], lines)] + Written(links[1..], [])
  }

  lemma {:induction false} WrittenItems(links: seq<TestLink>, lines: seq<Unit>)
    ensures ChainItems(Written(links, lines)) == TestItems(links, lines)
    ensures IsChain(links) ==> IsChain(Written(links, lines))
    decreases |links|
  {
    if links != [] {
      WrittenItems(links[1..], []);
      assert Written(links, lines)[1..] == Written(links[1..], []);
    }
  }

  lemma OneLine(links: seq<TestLink>, line: int)
    requires links != [] && IsLine(links)
    ensures AllMade([Tests(links)]) && Tree([Tests(links)], line) == TestItems(links, [line % 0x10000])
  {
    var s := Tests(links);
    assert [s][1..] == [] && StmtMade(s) && AllMade([]);
    assert Tree([s], line) == StmtTree(s, line, LineOf(line)) + Tree([], line + StmtCount(s));
    assert StmtTree(s, line, LineOf(line)) == TestItems(links, LineOf(line));
  }

  /** A line of conditions and calls, joined by operators, is accepted; evaluating its stream is short-circuit
      evaluation from left to right. */
  lemma LineOfTests(w: World, b: nat, st: State, links: seq<TestLink>, line: int)
    requires line > 0 && LineFits(links, NEST_NONE, NEST_NONE) && IsChain(links)
    ensures var p := ParserScopes.Parse(line, false, Print([Tests(links)]), 0, End);
      var written := Written(links, [line % 0x10000]);
      && p.ok && p.toks == EncItems(ChainItems(written)) && IsChain(written)
      && RunItems(w, b, st, ChainItems(written), [], ConditionChain.START)
         == TestChains.Evaluate(w, b, st, true, written)
  {
    hide RunItems, EncItems, ParserScopes.Parse, Print, Tree, LineFits, ChainItems, TestItems, Written, IsChain;
    hide TestChains.Evaluate;
    var program := [Tests(links)];
    assert Fits(program, NEST_NONE, NEST_NONE) by {
      assert program[1..] == [];
    }
    ProgramTextProofs.PrintedParses(line, program);
    OneLine(links, line);
    WrittenItems(links, [line % 0x10000]);
    TestChains.ChainIsEvaluation(w, b, st, Written(links, [line % 0x10000]));
  }
}
