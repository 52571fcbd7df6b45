/** From the events of a text to its effect: parse, then evaluate the stream. */
module ProFile {
  import opened ProTokens
  import opened TokenWalk
  import opened ConditionChain
  import opened ProSemantics
  import opened ProSemanticsProofs
  import opened QMakeEvaluatorObject
  import opened QMakeParserObject
  import BudgetProofs
  import ParserScopes
  import ParserScopesProofs
  import ParserStory
  import QuoteValue
  import ValueReader
  import VarStack

  const INITIAL := State([map[]], map[], map[], [], 0, [], Paths([], [], []))

  /** The variables and paths of the surroundings are set, and the directory of the file. */
  function StartIn(defaults: VarStack.Frame, paths: Paths, pwd: Chars): State {
    SetVar(INITIAL.(frames := [defaults], paths := paths), Units("PWD"), [pwd])
  }

  /** Parse a text and evaluate its stream. A text with an error is not evaluated. Otherwise the outcome and the
      final state are what the one tree means that says what the text says. Unless the parser accepted a jump out of
      place, evaluating the file ends in no jump; unless a block bypasses nesting, it ends within every budget. */
  method VisitProFile(line: int, evs: seq<ParserScopes.Event>, words: nat, e: Expr,
                      defaults: VarStack.Frame, paths: Paths, pwd: Chars, world: World, budget: nat)
    returns (vr: Visit, evaluator: QMakeEvaluator, ghost items: seq<Item>)
    requires ParserScopesProofs.AllTokenized(evs) && Seps(e) == 0
    requires |ParserScopes.Parse(line, false, evs, words, e).toks| < 0xFFFF_FFFF
    ensures fresh(evaluator) && fresh(evaluator.vars)
    ensures !ParserScopes.Parse(line, false, evs, words, e).ok ==>
      vr == ReturnFalse && evaluator.Model() == StartIn(defaults, paths, pwd)
    ensures ParserScopes.Parse(line, false, evs, words, e).ok ==>
      var notes := ParserScopesProofs.Notes(line, false, evs, words, e);
      && ParserStory.Flat(items, ParserStory.FILE, 0) == notes
      && (forall tree :: ParserStory.Flat(tree, ParserStory.FILE, 0) == notes ==> tree == items)
      && evaluator.toks == EncItems(items) + [TERMINATOR] && Separated(items)
      && var r := RunItems(world, budget, StartIn(defaults, paths, pwd), items, [], START);
      && vr == r.vr && evaluator.Model() == r.st
      && (ParserScopesProofs.AllPlaced(ParserScopes.Init(line, false), evs) ==> vr != ReturnBreak && vr != ReturnNext)
      && (NoBypass(items) ==> vr != Stuck)
  {
    hide ParserScopes.Parse, ParserScopesProofs.AllPlaced, ParserScopesProofs.Notes, ParserStory.Flat;
    hide RunItems, EncItems, NoBypass;
    var parser := new QMakeParser(false);
    items := parser.Read(line, evs, words, e);
    evaluator := new QMakeEvaluator(parser.toks + [TERMINATOR], world);
    evaluator.vars.frames, evaluator.paths := [defaults], paths;
    evaluator.vars.Assign(Units("PWD"), [pwd]);
    assert evaluator.Model() == StartIn(defaults, paths, pwd);
    if !parser.ok {
      return ReturnFalse, evaluator, items;
    }
    TreeAt(items);
    vr := evaluator.VisitProBlock(0, budget, items);
    forall tree | ParserStory.Flat(tree, ParserStory.FILE, 0) == ParserScopesProofs.Notes(line, false, evs, words, e)
      ensures tree == items
    {
      ParserStory.FlatUnique(tree, items, ParserStory.FILE, 0);
    }
    if NoBypass(items) {
      BudgetProofs.PlainProgramEnds(world, budget, StartIn(defaults, paths, pwd), items);
    }
    if Nested(items, NEST_NONE) {
      RunItemsSafe(world, budget, StartIn(defaults, paths, pwd), items, [], START, NEST_NONE, Known(false, true));
    }
  }

  lemma TreeAt(items: seq<Item>)
    requires Separated(items)
    ensures BlockAt(EncItems(items) + [TERMINATOR], 0, items)
  {
    var toks: seq<Unit> := EncItems(items) + [TERMINATOR];
    assert toks[..|toks|] == toks;
  }

  /** Quote a value, read the text back and expand it, as a project expands a text. */
  method ReadBack(v: Chars, place: ValueReader.Place, world: World, budget: nat)
    returns (vr: Visit, list: VarStack.Values)
    requires QuoteValue.Standard(world) && QuoteValue.AllFit(QuoteValue.Closed(QuoteValue.Split(v)))
    requires |ValueReader.Parse(QuoteValue.Quoted(v), place).toks| < 0x1_0000_0000
    ensures vr == ReturnTrue && |list| == 1
    ensures list == [v] <==> forall i | 0 <= i < |v| :: QuoteValue.IsControl(v[i]) ==> QuoteValue.IsLineControl(v[i])
  {
    QuoteValue.RoundTrip(world, budget, INITIAL, v, place);
    ghost var e := QuoteValue.Tree(QuoteValue.Closed(QuoteValue.Split(v)), true, QuoteValue.OuterQuote(v));
    var text := QuoteValue.QuoteString(v);
    var toks, ok := ValueReader.ReadValue(text, place);
    assert ok && At(toks, 0, EncExpr(e) + [VALUE_TERMINATOR]);
    var evaluator := new QMakeEvaluator(toks, world);
    var q;
    vr, q, list := evaluator.ExpandVariableReferences(0, true, budget, e, VALUE_TERMINATOR);
  }
}
