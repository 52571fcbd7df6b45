/** The evaluator: it walks the flat token stream by position, and does to its state what
    `ProSemantics` says the encoded tree means. */
module QMakeEvaluatorObject {
  import opened ProTokens
  import opened TokenWalk
  import opened VarStack
  import opened ExprValues
  import opened ConditionChain
  import opened ProSemantics

  /** A block of items, with its terminator. */
  predicate BlockAt(toks: seq<Unit>, p: nat, items: seq<Item>) {
    Separated(items) && At(toks, p, EncItems(items) + [TERMINATOR])
  }

  predicate ExprAt(toks: seq<Unit>, p: nat, e: Expr, stop: Unit) {
    IsStop(stop) && At(toks, p, EncExpr(e) + [stop])
  }

  predicate IsClosing(stop: Unit) { stop == VALUE_TERMINATOR || stop == FUNC_TERMINATOR }

  /** A token that says what to do with the expanded words. */
  predicate IsAction(tok: Unit) {
    ASSIGN <= tok <= REPLACE || tok == CONDITION || tok == TEST_CALL || tok == RETURN
  }

  /** A block of which the first item has been replaced. */
  lemma ConsAt(toks: seq<Unit>, p: nat, x: Item, tail: seq<Item>)
    requires SeparatedItem(x) && Separated(tail)
    requires At(toks, p, EncItem(x) + (EncItems(tail) + [TERMINATOR]))
    ensures BlockAt(toks, p, [x] + tail) && EncItems([x] + tail) == EncItem(x) + EncItems(tail)
  {
    assert ([x] + tail)[1..] == tail;
    assert EncItem(x) + (EncItems(tail) + [TERMINATOR]) == EncItem(x) + EncItems(tail) + [TERMINATOR];
  }

  predicate DefsAt(toks: seq<Unit>, places: map<Key, nat>, bodies: map<Key, seq<Item>>) {
    places.Keys == bodies.Keys && forall key | key in places :: BlockAt(toks, places[key], bodies[key])
  }

  /** Consuming the first part of an expression list. */
  function Tail1(e: Expr): nat { |EncExpr(e)| - |EncExpr(Rest(e))| }

  lemma ExpandedStep(w: World, b: nat, st: State, items: seq<Item>, curr: Values, c: Chain)
    requires items != [] && HasExpr(items[0])
    ensures var g := ExpandList(w, b, st, items[0].e, curr);
      RunItems(w, b, st, items, curr, c) ==
      if Fatal(g.vr) then Run(g.vr, g.st)
      else RunItems(w, b, g.st, [WithExpr(items[0], End)] + items[1..], g.list, c)
  {
    var g := ExpandList(w, b, st, items[0].e, curr);
    var done := [WithExpr(items[0], End)] + items[1..];
    assert done[0] == WithExpr(items[0], End) && done[1..] == items[1..];
    if !Fatal(g.vr) {
      assert StepItem(w, b, st, items[0], curr, c) == StepWords(w, b, g.st, items[0], g.list, c);
      assert ExpandList(w, b, g.st, End, g.list) == Listed(ReturnTrue, g.st, g.list);
      assert StepItem(w, b, g.st, done[0], g.list, c) == StepWords(w, b, g.st, done[0], g.list, c);
      WordsSame(w, b, g.st, items[0], g.list, c);
    }
  }

  lemma WordsSame(w: World, b: nat, st: State, item: Item, words: Values, c: Chain)
    requires HasExpr(item)
    ensures StepWords(w, b, st, item, words, c) == StepWords(w, b, st, WithExpr(item, End), words, c)
  {
  }

  lemma MarkedStep(w: World, b: nat, st: State, items: seq<Item>, curr: Values, c: Chain)
    requires items != [] && HasExpr(items[0]) && items[0].e.LineMark?
    ensures RunItems(w, b, st, items, curr, c) ==
      RunItems(w, b, st.(line := items[0].e.n), [WithExpr(items[0], items[0].e.rest)] + items[1..], curr, c)
  {
    var e := items[0].e;
    var rest := [WithExpr(items[0], e.rest)] + items[1..];
    assert rest[0] == WithExpr(items[0], e.rest) && rest[1..] == items[1..];
    var g := ExpandList(w, b, st, e, curr);
    assert Expand(w, b, st, e, Acc(curr, false), false) ==
           Expand(w, b, st.(line := e.n), e.rest, Acc(curr, false), false);
    assert g == ExpandList(w, b, st.(line := e.n), e.rest, curr);
    if !Fatal(g.vr) {
      WordsSame(w, b, g.st, items[0], g.list, c);
      WordsSame(w, b, g.st, rest[0], g.list, c);
    }
  }

  lemma EncItemsFirst(items: seq<Item>)
    requires items != []
    ensures |EncItems(items)| == |EncItem(items[0])| + |EncItems(items[1..])| && |EncItem(items[0])| > 0
    ensures HasExpr(items[0]) ==> |EncExpr(items[0].e)| < |EncItem(items[0])|
  {
    ItemSize(items[0]);
  }

  lemma BranchSize(item: Item)
    requires item.Branch?
    ensures |EncSub(item.thn)| + |EncSub(item.els)| < |EncItem(item)|
  {
  }

  /** One step of a block of which the first item's expression is expanded, or which has none. */
  lemma FirstStep(w: World, b: nat, st: State, items: seq<Item>, words: Values, c: Chain)
    requires items != [] && (HasExpr(items[0]) ==> items[0].e.End?)
    ensures var s := if HasExpr(items[0]) then StepWords(w, b, st, items[0], words, c)
                     else StepBlock(w, b, st, items[0], c);
      && Extends(st, s.st)
      && RunItems(w, b, st, items, words, c) ==
         if s.Halt? then Run(s.vr, s.st) else RunItems(w, b, s.st, items[1..], [], s.chain)
  {
    if HasExpr(items[0]) {
      assert ExpandList(w, b, st, End, words) == Listed(ReturnTrue, st, words);
      assert StepItem(w, b, st, items[0], words, c) == StepWords(w, b, st, items[0], words, c);
    } else {
      assert StepItem(w, b, st, items[0], words, c) == StepBlock(w, b, st, items[0], c);
    }
  }

  class QMakeEvaluator {
    const toks: seq<Unit>
    const world: World
    const vars: VarMaps
    var testFunctions: map<Key, nat>
    var replaceFunctions: map<Key, nat>
    var returnValue: Values
    var line: Unit
    var locations: seq<Unit>
    var paths: Paths
    ghost var testDefs: map<Key, seq<Item>>
    ghost var replaceDefs: map<Key, seq<Item>>
    ghost var exported: seq<Key>

    constructor (toks: seq<Unit>, world: World)
      requires |toks| < 0x1_0000_0000
      ensures Valid() && this.toks == toks && this.world == world && fresh(vars)
      ensures Model() == State([map[]], map[], map[], [], 0, [], Paths([], [], []))
    {
      this.toks, this.world := toks, world;
      vars := new VarMaps();
      testFunctions, replaceFunctions, returnValue, line, locations := map[], map[], [], 0, [];
      paths := Paths([], [], []);
      testDefs, replaceDefs, exported := map[], map[], [];
    }

    ghost predicate Valid()
      reads this
    {
      && |toks| < 0x1_0000_0000
      && DefsAt(toks, testFunctions, testDefs)
      && DefsAt(toks, replaceFunctions, replaceDefs)
    }

    ghost function Model(): State
      reads this, vars
    {
      State(vars.frames, testDefs, replaceDefs, returnValue, line, exported, paths)
    }

    // ---- expressions

    method SkipExpression(p: nat, ghost e: Expr, ghost stop: Unit) returns (q: nat)
      requires ExprAt(toks, p, e, stop) && IsClosing(stop)
      modifies this`line
      ensures q == p + |EncExpr(e)| + 1
      ensures line == SkipLine(old(line), e)
      decreases |EncExpr(e)|
    {
      hide At, EncExpr;
      q := p;
      ghost var rest := e;
      while true
        invariant ExprAt(toks, q, rest, stop) && q + |EncExpr(rest)| == p + |EncExpr(e)|
        invariant SkipLine(line, rest) == SkipLine(old(line), e)
        decreases |EncExpr(rest)|
      {
        ExprHead(toks, q, rest, stop);
        var tok := toks[q];
        if tok == LINE {
          HeadLine(toks, q, rest, stop);
          line := toks[q + 1];
          q, rest := q + 2, rest.rest;
        } else if tok == VALUE_TERMINATOR || tok == FUNC_TERMINATOR {
          return q + 1;
        } else if tok == ARG_SEPARATOR {
          HeadSep(toks, q, rest, stop);
          q, rest := q + 1, rest.rest;
        } else if Masked(tok) == LITERAL || Masked(tok) == ENV_VAR {
          HeadStr(toks, q, rest, stop);
          q, rest := q + 2 + toks[q + 1], rest.rest;
        } else if Masked(tok) == FUNC_NAME {
          HeadFunc(toks, q, rest, stop);
          q := SkipExpression(q + 4 + toks[q + 3], rest.args, FUNC_TERMINATOR);
          rest := rest.rest;
        } else {
          HeadHashed(toks, q, rest, stop);
          q, rest := q + 4 + toks[q + 3], rest.rest;
        }
      }
    }

    method ReadPlain(p: nat, acc: Acc, joined: bool, ghost e: Expr, ghost stop: Unit) returns (q: nat, r: Acc)
      requires ExprAt(toks, p, e, stop) && e.Str? && Open(acc, joined)
      ensures ExprAt(toks, q, e.rest, stop) && q + |EncExpr(e.rest)| == p + |EncExpr(e)| && q > p
      ensures r == AddPlain(world, acc, e.str, e.flags, e.text, joined)
    {
      hide At;
      HeadStr(toks, p, e, stop);
      TokBits(e.str, e.flags);
      var tok := toks[p];
      q := p + 2 + toks[p + 1];
      var text := toks[p + 2..q];
      r := if IsNewStr(tok) then acc.(pending := false) else acc;
      r := AddStr(r, if Masked(tok) == LITERAL then text else world.env(text), joined);
    }

    method ReadHashed(p: nat, acc: Acc, joined: bool, ghost e: Expr, ghost stop: Unit) returns (q: nat, r: Acc)
      requires ExprAt(toks, p, e, stop) && e.Hashed? && Open(acc, joined)
      ensures ExprAt(toks, q, e.rest, stop) && q + |EncExpr(e.rest)| == p + |EncExpr(e)| && q > p
      ensures r == AddHashed(world, Model(), acc, e.hashed, e.flags, e.text, joined)
    {
      hide At;
      HeadHashed(toks, p, e, stop);
      TokBits(e.hashed, e.flags);
      var tok := toks[p];
      q := p + 4 + toks[p + 3];
      var text := toks[p + 4..q];
      r := if IsNewStr(tok) then acc.(pending := false) else acc;
      if Masked(tok) == VARIABLE {
        var list := vars.Values(world.rename(text));
        r := AddStrList(r, list, IsQuoted(tok), joined);
      } else {
        r := AddStr(r, if Masked(tok) == HASH_LITERAL then text else world.property(text), joined);
      }
    }

    method CallInExpression(p: nat, acc: Acc, joined: bool, budget: nat, ghost e: Expr, ghost stop: Unit)
      returns (vr: Visit, q: nat, r: Acc)
      requires Valid() && ExprAt(toks, p, e, stop) && e.Func? && Open(acc, joined)
      modifies this, vars
      ensures Valid() && locations == old(locations)
      ensures var c := CallExpand(world, budget, old(Model()), e.text, e.args);
        && vr == c.vr && Model() == c.st
        && r == if Fatal(c.vr) then Started(acc, e.flags)
                else AddStrList(Started(acc, e.flags), c.list, e.flags % 2 == 1, joined)
      ensures !Fatal(vr) ==> ExprAt(toks, q, e.rest, stop) && q + |EncExpr(e.rest)| == p + |EncExpr(e)| && q > p
      decreases budget, Room(Model()), |EncExpr(e)|, 0
    {
      hide At;
      HeadFunc(toks, p, e, stop);
      TokBits(FUNC_NAME, e.flags);
      var tok := toks[p];
      r := if IsNewStr(tok) then acc.(pending := false) else acc;
      q := p + 4 + toks[p + 3];
      var name, list := toks[p + 4..q], [];
      vr, q, list := EvaluateExpandFunction(name, q, budget, e.args);
      if !Fatal(vr) {
        r := AddStrList(r, list, IsQuoted(tok), joined);
      }
    }

    /** Expand up to the token that ends the expression, or the first part of it. */
    method EvaluateExpression(p: nat, ret: Values, joined: bool, budget: nat, ghost e: Expr, ghost stop: Unit)
      returns (vr: Visit, q: nat, r: Values)
      requires Valid() && ExprAt(toks, p, e, stop)
      modifies this, vars
      ensures Valid() && locations == old(locations)
      ensures var g := Expand(world, budget, old(Model()), e, Acc(if joined then ret + [[]] else ret, false), joined);
        vr == g.vr && Model() == g.st && (vr == ReturnTrue ==> r == g.acc.ret)
      ensures vr == ReturnTrue ==> q == p + Tail1(e) && ExprAt(toks, q, Rest(e), stop)
      decreases budget, Room(Model()), |EncExpr(e)|, 1
    {
      hide At, EncExpr, AddPlain, AddHashed, AddStrList;
      var acc := Acc(if joined then ret + [[]] else ret, false);
      ghost var rest, start := e, acc;
      q := p;
      while true
        invariant Valid() && locations == old(locations)
        invariant ExprAt(toks, q, rest, stop) && q + |EncExpr(rest)| == p + |EncExpr(e)|
        invariant Rest(rest) == Rest(e) && Open(acc, joined)
        invariant Extends(old(Model()), Model())
        invariant Expand(world, budget, Model(), rest, acc, joined)
               == Expand(world, budget, old(Model()), e, start, joined)
        decreases |EncExpr(rest)|
      {
        ExprHead(toks, q, rest, stop);
        var tok := toks[q];
        if Masked(tok) == LINE {
          HeadLine(toks, q, rest, stop);
          line := toks[q + 1];
          q, rest := q + 2, rest.rest;
        } else if Masked(tok) == LITERAL || Masked(tok) == ENV_VAR {
          q, acc := ReadPlain(q, acc, joined, rest, stop);
          rest := rest.rest;
        } else if HASH_LITERAL <= Masked(tok) <= PROPERTY {
          q, acc := ReadHashed(q, acc, joined, rest, stop);
          rest := rest.rest;
        } else if Masked(tok) == FUNC_NAME {
          vr, q, acc := CallInExpression(q, acc, joined, budget, rest, stop);
          if Fatal(vr) {
            r := acc.ret;
            return;
          }
          rest := rest.rest;
        } else {
          return ReturnTrue, q, acc.ret;
        }
      }
    }

    /** Expand all parts, each as one string, and step over the terminator. */
    method ExpandVariableReferences(p: nat, joined: bool, budget: nat, ghost e: Expr, ghost stop: Unit)
      returns (vr: Visit, q: nat, r: Values)
      requires Valid() && ExprAt(toks, p, e, stop) && IsClosing(stop) && (!joined ==> Seps(e) == 0)
      modifies this, vars
      ensures Valid() && locations == old(locations)
      ensures var g := ExpandParts(world, budget, old(Model()), e, [], joined);
        vr == g.vr && Model() == g.st && (vr == ReturnTrue ==> r == g.list)
      ensures vr == ReturnTrue ==> q == p + |EncExpr(e)| + 1
      decreases budget, Room(Model()), |EncExpr(e)|, 2
    {
      hide At;
      r, q := [], p;
      ghost var rest := e;
      while true
        invariant Valid() && locations == old(locations)
        invariant ExprAt(toks, q, rest, stop) && q + |EncExpr(rest)| == p + |EncExpr(e)|
        invariant Extends(old(Model()), Model())
        invariant ExpandParts(world, budget, Model(), rest, r, joined)
               == ExpandParts(world, budget, old(Model()), e, [], joined)
        invariant !joined ==> Seps(rest) == 0
        decreases |EncExpr(rest)|
      {
        vr, q, r := EvaluateExpression(q, r, joined, budget, rest, stop);
        if Fatal(vr) {
          return;
        }
        rest := Rest(rest);
        ExprHead(toks, q, rest, stop);
        if toks[q] == VALUE_TERMINATOR || toks[q] == FUNC_TERMINATOR {
          q := q + 1;
          return;
        }
        HeadSep(toks, q, rest, stop);
        q, rest := q + 1, rest.rest;
      }
    }

    /** Expand each argument as a list, and step over the terminator. */
    method PrepareFunctionArgs(p: nat, budget: nat, ghost e: Expr)
      returns (vr: Visit, q: nat, args: seq<Values>)
      requires Valid() && ExprAt(toks, p, e, FUNC_TERMINATOR)
      modifies this, vars
      ensures Valid() && locations == old(locations)
      ensures var g := PrepareArgs(world, budget, old(Model()), e);
        vr == g.vr && Model() == g.st && (vr == ReturnTrue ==> args == g.args)
      ensures vr == ReturnTrue ==> q == p + |EncExpr(e)| + 1
      decreases budget, Room(Model()), |EncExpr(e)|, 2
    {
      hide At, EncExpr, Expand;
      args, q := [], p;
      ExprHead(toks, q, e, FUNC_TERMINATOR);
      if toks[q] == FUNC_TERMINATOR {
        return ReturnTrue, q + 1, args;
      }
      ghost var rest := e;
      while true
        invariant Valid() && locations == old(locations)
        invariant ExprAt(toks, q, rest, FUNC_TERMINATOR) && q + |EncExpr(rest)| == p + |EncExpr(e)|
        invariant Extends(old(Model()), Model())
        invariant ExpandArgs(world, budget, Model(), rest, args) == ExpandArgs(world, budget, old(Model()), e, [])
        decreases |EncExpr(rest)|
      {
        var arg;
        vr, q, arg := EvaluateExpression(q, [], false, budget, rest, FUNC_TERMINATOR);
        if Fatal(vr) {
          return;
        }
        args := args + [arg];
        rest := Rest(rest);
        ExprHead(toks, q, rest, FUNC_TERMINATOR);
        if toks[q] == FUNC_TERMINATOR {
          return ReturnTrue, q + 1, args;
        }
        HeadSep(toks, q, rest, FUNC_TERMINATOR);
        q, rest := q + 1, rest.rest;
      }
    }

    // ---- calls

    method EvaluateExpandFunction(key: Key, p: nat, budget: nat, ghost e: Expr)
      returns (vr: Visit, q: nat, r: Values)
      requires Valid() && ExprAt(toks, p, e, FUNC_TERMINATOR)
      modifies this, vars
      ensures Valid() && locations == old(locations)
      ensures var c := CallExpand(world, budget, old(Model()), key, e);
        vr == c.vr && Model() == c.st && (!Fatal(vr) ==> r == c.list)
      ensures !Fatal(vr) ==> q == p + |EncExpr(e)| + 1
      decreases budget, Room(Model()), |EncExpr(e)|, 4
    {
      hide At, EncExpr, ExpandJoined, PrepareArgs, CallFunction, ApplyExpand;
      r := [];
      if key in world.expands {
        var args;
        vr, q, args := ExpandVariableReferences(p, true, budget, e, FUNC_TERMINATOR);
        if Fatal(vr) {
          return;
        }
        vr, r := EvaluateBuiltinExpand(world.expands[key], key, args);
        return;
      }
      if key in replaceFunctions {
        var args;
        vr, q, args := PrepareFunctionArgs(p, budget, e);
        if Fatal(vr) {
          return;
        }
        vr, r := EvaluateFunction(replaceFunctions[key], args, budget, replaceDefs[key]);
        return;
      }
      q := SkipExpression(p, e, FUNC_TERMINATOR);
      vr := ReturnFalse;
    }

    method EvaluateBuiltinExpand(def: Builtin, key: Key, args: Values) returns (vr: Visit, r: Values)
      requires Valid() && args != []
      modifies vars
      ensures var c := ApplyExpand(world, old(Model()), def, key, args);
        vr == c.vr && Model() == c.st && r == c.list
    {
      var count := if |args| > 1 then |args| else if args[0] == [] then 0 else 1;
      if count < def.minArgs || count > def.maxArgs {
        return ReturnTrue, [];
      }
      var out := world.expand(paths, key, args, vars.frames);
      vars.frames := vars.frames[|vars.frames| - 1 := out.top];
      return Verdicted(out.verdict), out.list;
    }

    /** defined(name), defined(name, test), defined(name, replace) and defined(name, var). */
    method LookUp(args: Values) returns (ok: bool)
      requires Valid() && args != []
      ensures ok == IsDefined(Model(), args)
    {
      if |args| > 1 {
        if args[1] == Units("test") {
          return args[0] in testFunctions;
        } else if args[1] == Units("replace") {
          return args[0] in replaceFunctions;
        } else if args[1] == Units("var") {
          var i := vars.FindValues(args[0]);
          return i >= 0;
        }
        return false;
      }
      return args[0] in replaceFunctions || args[0] in testFunctions;
    }

    method EvaluateBuiltinConditional(def: Builtin, key: Key, args: Values) returns (vr: Visit)
      requires Valid() && args != []
      modifies this`exported, vars
      ensures var c := ApplyTest(world, old(Model()), def, key, args);
        vr == c.vr && Model() == c.st
    {
      var count := if |args| > 1 then |args| else if args[0] == [] then 0 else 1;
      if count < def.minArgs || count > def.maxArgs {
        return ReturnFalse;
      }
      match def.kind {
        case Defined =>
          var ok := LookUp(args);
          return ReturnBool(ok);
        case Export =>
          vars.Export(world.rename(args[0]));
          exported := exported + [world.rename(args[0])];
          return ReturnTrue;
        case Unset =>
          var ok := vars.Unset(world.rename(args[0]));
          return ReturnBool(ok);
        case Clear =>
          var ok := vars.Clear(world.rename(args[0]));
          return ReturnBool(ok);
        case Other =>
          var out := world.test(paths, key, args, vars.frames);
          vars.frames := vars.frames[|vars.frames| - 1 := out.top];
          return Verdicted(out.verdict);
      }
    }

    method EvaluateConditionalFunction(key: Key, p: nat, budget: nat, ghost e: Expr) returns (vr: Visit, q: nat)
      requires Valid() && ExprAt(toks, p, e, FUNC_TERMINATOR)
      modifies this, vars
      ensures Valid() && locations == old(locations)
      ensures var c := CallTest(world, budget, old(Model()), key, e);
        vr == c.vr && Model() == c.st
      ensures Plain(vr) ==> q == p + |EncExpr(e)| + 1
      decreases budget, Room(Model()), |EncExpr(e)|, 4
    {
      hide At, EncExpr, ExpandJoined, PrepareArgs, CallFunction, ApplyTest, Truth;
      if key in world.tests {
        var args;
        vr, q, args := ExpandVariableReferences(p, true, budget, e, FUNC_TERMINATOR);
        if Fatal(vr) {
          return;
        }
        vr := EvaluateBuiltinConditional(world.tests[key], key, args);
        return;
      }
      if key in testFunctions {
        var args;
        vr, q, args := PrepareFunctionArgs(p, budget, e);
        if Fatal(vr) {
          return;
        }
        vr := EvaluateBoolFunction(testFunctions[key], args, budget, testDefs[key]);
        return;
      }
      q := SkipExpression(p, e, FUNC_TERMINATOR);
      vr := ReturnFalse;
    }

    /** A new frame on top, with the arguments in it. */
    method PushArguments(args: seq<Values>)
      modifies vars
      ensures vars.frames == old(vars.frames) + [NewFrame(args)]
    {
      vars.frames := vars.frames + [map[]];
      var all: Values := [];
      var i := 0;
      while i < |args|
        invariant 0 <= i <= |args| && all == Concat(args[..i])
        invariant vars.frames == old(vars.frames) + [ArgFrame(args[..i])]
      {
        assert args[..i + 1][..i] == args[..i];
        all := all + args[i];
        vars.Assign(Decimal(i + 1), args[i]);
        i := i + 1;
      }
      assert args[..i] == args;
      vars.Assign(Units("ARGS"), all);
      vars.Assign(Units("ARGC"), [Decimal(|args|)]);
    }

    method EvaluateFunction(p: nat, args: seq<Values>, budget: nat, ghost body: seq<Item>)
      returns (vr: Visit, r: Values)
      requires Valid() && BlockAt(toks, p, body)
      modifies this, vars
      ensures Valid() && locations == old(locations)
      ensures var c := CallFunction(world, budget, old(Model()), body, args);
        vr == c.vr && Model() == c.st && r == c.list
      decreases budget, Room(Model()), 0, 0
    {
      hide RunItems, NewFrame;
      r := [];
      if |vars.frames| >= MAX_DEPTH {
        return ReturnError, r;
      }
      PushArguments(args);
      locations := locations + [line];
      line := 0;
      vr := VisitProBlock(p, budget, body);
      if vr == ReturnReturn {
        vr := ReturnTrue;
      }
      if vr == ReturnTrue {
        r := returnValue;
      }
      returnValue := [];
      line, locations := locations[|locations| - 1], locations[..|locations| - 1];
      vars.frames := vars.frames[..|vars.frames| - 1];
    }

    method EvaluateBoolFunction(p: nat, args: seq<Values>, budget: nat, ghost body: seq<Item>) returns (vr: Visit)
      requires Valid() && BlockAt(toks, p, body)
      modifies this, vars
      ensures Valid() && locations == old(locations)
      ensures var c := CallFunction(world, budget, old(Model()), body, args);
        vr == (if c.vr == ReturnTrue then ReturnBool(Truth(world, c.list)) else c.vr) && Model() == c.st
      decreases budget, Room(Model()), 0, 1
    {
      var r;
      vr, r := EvaluateFunction(p, args, budget, body);
      if vr == ReturnTrue {
        if r == [] {
          return ReturnTrue;
        }
        if r[0] != Units("false") {
          if r[0] == Units("true") {
            return ReturnTrue;
          }
          match world.toInt(r[0]) {
            case NotANumber =>
            case Number(n) =>
              if n != 0 {
                return ReturnTrue;
              }
          }
        }
        return ReturnFalse;
      }
    }

    // ---- items

    method UpdateVariable(tok: AssignTok, key: Key, value: Values)
      requires tok != REPLACE
      modifies vars
      ensures Model() == SetVar(old(Model()), key, Assigned(tok, Meaning(old(vars.frames), key), value))
    {
      ghost var was := vars.frames;
      if tok == APPEND_UNIQUE {
        var list := vars.ValuesRef(key);
        SetTopTwice(was, key, Val(list), Val(InsertUnique(list, value)));
        vars.Assign(key, InsertUnique(list, value));
      } else if tok == APPEND {
        var list := vars.ValuesRef(key);
        SetTopTwice(was, key, Val(list), Val(list + RemoveEmpty(value)));
        vars.Assign(key, list + RemoveEmpty(value));
      } else if tok == REMOVE {
        var list := vars.ValuesRef(key);
        SetTopTwice(was, key, Val(list), Val(RemoveEach(list, value)));
        vars.Assign(key, RemoveEach(list, value));
      } else {
        vars.Assign(key, RemoveEmpty(value));
      }
    }

    /** A variable is assigned; `p` is behind the operator. */
    method VisitProVariable(tok: AssignTok, words: Values, p: nat, budget: nat, ghost hint: Unit, ghost e: Expr)
      returns (vr: Visit, q: nat)
      requires Valid() && At(toks, p, [hint] + (EncExpr(e) + [VALUE_TERMINATOR])) && Seps(e) == 0
      modifies this, vars
      ensures Valid() && locations == old(locations)
      ensures var r := Assignment(world, budget, old(Model()), tok, words, e);
        vr == r.vr && Model() == r.st
      ensures vr == ReturnTrue ==> q == p + |EncExpr(e)| + 2
      decreases budget, Room(Model()), |EncExpr(e)|, 5
    {
      hide At, Hooked, Assigned, ExpandJoined, Expand, IsSubstitution;
      AtSplit(toks, p, [hint], EncExpr(e) + [VALUE_TERMINATOR]);
      if |words| != 1 {
        q := SkipExpression(p + 1, e, VALUE_TERMINATOR);
        return ReturnTrue, q;
      }
      var key := world.rename(words[0]);
      if tok == REPLACE {
        var value;
        vr, q, value := ExpandVariableReferences(p + 1, true, budget, e, VALUE_TERMINATOR);
        if Fatal(vr) {
          return;
        }
        if !IsSubstitution(value[0]) {
          return ReturnTrue, q;
        }
        ghost var was := vars.frames;
        var list := vars.ValuesRef(key);
        SetTopTwice(was, key, Val(list), Val(world.substitute(list, value[0])));
        vars.Assign(key, world.substitute(list, value[0]));
      } else {
        var value;
        vr, q, value := ExpandVariableReferences(p + 1, false, budget, e, VALUE_TERMINATOR);
        if Fatal(vr) {
          return;
        }
        UpdateVariable(tok, key, value);
      }
      ApplyHooks(key);
      vr := ReturnTrue;
    }

    /** What else is done when certain variables are assigned. */
    method ApplyHooks(key: Key)
      modifies this`paths, vars
      ensures Model() == Hooked(world, old(Model()), key)
    {
      if key == Units("TEMPLATE") {
        SetTemplate();
      } else if key == Units("QMAKE_DIR_SEP") {
        var list := vars.Values(key);
        paths := paths.(dirSep := First(list));
      } else if key == Units("QMAKESPEC") {
        var list := vars.Values(key);
        if list != [] {
          var spec := list[0];
          if world.isAbsolutePath(spec) {
            paths := paths.(spec := spec, specName := world.fileName(spec));
          }
        }
      }
    }

    method SetTemplate()
      modifies vars
      ensures Model() == Hooked(world, old(Model()), Units("TEMPLATE"))
    {
      ghost var was := vars.frames;
      var key := Units("TEMPLATE");
      var list := vars.ValuesRef(key);
      SetTopTwice(was, key, Val(list), Val(Template(world, list)));
      if world.userTemplate != [] {
        list := [world.userTemplate];
      } else if list == [] {
        list := [Units("app")];
      } else {
        list := list[..1];
      }
      if world.templatePrefix != [] && !(world.templatePrefix <= list[0]) {
        list := [world.templatePrefix + list[0]];
      }
      vars.Assign(key, list);
    }

    /** The step `s` was made: on to the next item, or out of the block. */
    ghost predicate Made(s: Step, halted: bool, vr: Visit, c: Chain)
      reads this, vars
    {
      && halted == s.Halt? && Model() == s.st
      && if halted then vr == s.vr else c == s.chain
    }

    function BlockLen(p: nat): nat
      requires p + 1 < |toks|
    {
      Num(toks[p], toks[p + 1])
    }

    method VisitTestCall(p: nat, words: Values, chain: Chain, budget: nat, ghost e: Expr)
      returns (halted: bool, vr: Visit, q: nat, c: Chain)
      requires Valid() && ExprAt(toks, p, e, FUNC_TERMINATOR)
      modifies this, vars
      ensures Valid() && locations == old(locations)
      ensures Made(TestCall(world, budget, old(Model()), chain, words, e), halted, vr, c)
      ensures !halted ==> q == p + |EncExpr(e)| + 1
      decreases budget, Room(Model()), |EncExpr(e)|, 5
    {
      hide At;
      halted, vr, c := false, ReturnTrue, chain;
      if Due(c) {
        if |words| != 1 {
          q := SkipExpression(p, e, FUNC_TERMINATOR);
          c := Invalid(c);
        } else {
          vr, q := EvaluateConditionalFunction(words[0], p, budget, e);
          if !Plain(vr) {
            halted := true;
            return;
          }
          c := Tested(c, vr == ReturnTrue);
        }
      } else {
        q := SkipExpression(p, e, FUNC_TERMINATOR);
        c := Skipped(c);
      }
    }

    /** Leave the block, unless the condition in front says otherwise. */
    method FlowControl(chain: Chain) returns (halted: bool, c: Chain)
      ensures halted == Due(chain)
      ensures c == if halted then chain else chain.(okey := false, orOp := true)
    {
      halted, c := Due(chain), chain;
      if !halted {
        c := c.(okey := false, orOp := true);
      }
    }

    /** Do what the token behind an expanded expression says. */
    method VisitAction(p: nat, words: Values, chain: Chain, budget: nat, ghost item: Item, ghost after: seq<Unit>)
      returns (halted: bool, vr: Visit, q: nat, c: Chain)
      requires Valid() && HasExpr(item) && SeparatedItem(item)
      requires 0 < p <= |toks| && toks[p - 1] == Action(item) && At(toks, p, Tail(item) + after)
      modifies this, vars
      ensures Valid() && locations == old(locations)
      ensures Made(StepWords(world, budget, old(Model()), item, words, chain), halted, vr, c)
      ensures !halted ==> At(toks, q, after)
      decreases budget, Room(Model()), |EncItem(item)|, 0
    {
      hide At;
      ItemSize(item);
      AtSplit(toks, p, Tail(item), after);
      var tok := toks[p - 1];
      halted, vr, q, c := false, ReturnTrue, p, chain;
      if ASSIGN <= tok <= REPLACE {
        vr, q := VisitProVariable(tok, words, p, budget, item.hint, item.value);
        halted := Fatal(vr);
      } else if tok == CONDITION {
        c := VisitCondition(words, c);
      } else if tok == TEST_CALL {
        halted, vr, q, c := VisitTestCall(p, words, c, budget, item.args);
      } else {
        returnValue := words;
        vr := ReturnReturn;
        halted, c := FlowControl(c);
      }
    }

    method VisitCondition(words: Values, chain: Chain) returns (c: Chain)
      ensures c == Condition(world, Model(), chain, words)
    {
      c := chain;
      if Due(c) {
        if |words| != 1 {
          c := Invalid(c);
        } else {
          c := Tested(c, Active(world, paths, vars.frames, words[0]));
        }
      } else {
        c := Skipped(c);
      }
    }

    /** A branch; `p` is behind its token, `q` behind its blocks. */
    method VisitBranch(p: nat, okey: bool, budget: nat, ghost thn: Sub, ghost els: Sub, ghost after: seq<Unit>)
      returns (vr: Visit, q: nat)
      requires Valid() && SeparatedSub(thn) && SeparatedSub(els)
      requires At(toks, p, EncSub(thn) + (EncSub(els) + after))
      modifies this, vars
      ensures Valid() && locations == old(locations)
      ensures var r := RunSub(world, budget, old(Model()), if okey then thn else els);
        vr == r.vr && Model() == r.st
      ensures At(toks, q, after)
      decreases budget, Room(Model()), |EncSub(thn)| + |EncSub(els)|, 1
    {
      hide At, EncSub, EncItems, RunSub, SubLen;
      SubAt(toks, p, thn, EncSub(els) + after);
      vr := ReturnTrue;
      var len := BlockLen(p);
      q := p + 2;
      if okey {
        vr := VisitSub(len, q, budget, thn);
      }
      q := q + len;
      SubAt(toks, q, els, after);
      len := BlockLen(q);
      q := q + 2;
      if !okey {
        vr := VisitSub(len, q, budget, els);
      }
      q := q + len;
    }

    method VisitSub(len: nat, p: nat, budget: nat, ghost sub: Sub) returns (vr: Visit)
      requires Valid() && len == SubLen(sub) && (sub.Present? ==> BlockAt(toks, p, sub.body))
      modifies this, vars
      ensures Valid() && locations == old(locations)
      ensures var r := RunSub(world, budget, old(Model()), sub);
        vr == r.vr && Model() == r.st
      decreases budget, Room(Model()), |EncSub(sub)|, 0
    {
      hide At;
      if len == 0 {
        return ReturnTrue;
      }
      assert |EncSub(sub)| == |EncItems(sub.body)| + 3;
      vr := VisitProBlock(p, budget, sub.body);
    }

    /** A block that bypasses nesting: only the bottom frame is there while it runs. */
    method VisitBypass(p: nat, due: bool, budget: nat, ghost body: seq<Item>, ghost after: seq<Unit>)
      returns (vr: Visit, q: nat)
      requires Valid() && Separated(body) && At(toks, p, EncBody(body) + after)
      modifies this, vars
      ensures Valid() && locations == old(locations)
      ensures var r := if due then RunBypassed(world, budget, old(Model()), body) else Run(ReturnTrue, old(Model()));
        vr == r.vr && Model() == r.st
      ensures At(toks, q, after)
      decreases budget, Room(Model()), |EncItems(body)|, 2
    {
      hide At, EncItems, EncBody, RunItems;
      BodyAt(toks, p, body, after);
      vr := ReturnTrue;
      var len := BlockLen(p);
      q := p + 2;
      if due && len > 0 {
        if budget == 0 {
          return Stuck, q + len;
        }
        var saved := vars.frames[1..];
        vars.frames := vars.frames[..1];
        assert vars.frames == [old(vars.frames)[0]];
        vr := VisitProBlock(q, budget - 1, body);
        assert old(vars.frames)[0 := vars.frames[0]] == vars.frames + saved;
        vars.frames := vars.frames + saved;
      }
      q := q + len;
    }

    method VisitProFunctionDef(p: nat, due: bool, ghost item: Item, ghost after: seq<Unit>) returns (q: nat)
      requires Valid() && item.Def? && SeparatedItem(item) && At(toks, p, EncItem(item) + after)
      modifies this
      ensures Valid() && locations == old(locations)
      ensures Model() == if due then Define(old(Model()), item.def, item.name, item.body) else old(Model())
      ensures At(toks, q, after)
    {
      hide At;
      DefAt(toks, p, item, after);
      var name := toks[p + 4..p + 4 + toks[p + 3]];
      q := p + 4 + toks[p + 3];
      BodyAt(toks, q, item.body, after);
      var len := BlockLen(q);
      q := q + 2;
      if due {
        if toks[p] == TEST_DEF {
          testFunctions, testDefs := testFunctions[name := q], testDefs[name := item.body];
        } else {
          replaceFunctions, replaceDefs := replaceFunctions[name := q], replaceDefs[name := item.body];
        }
      }
      q := q + len;
    }

    method VisitForLoop(p: nat, due: bool, budget: nat, ghost item: Item, ghost after: seq<Unit>)
      returns (vr: Visit, q: nat)
      requires Valid() && item.For? && SeparatedItem(item) && At(toks, p, EncItem(item) + after)
      modifies this, vars
      ensures Valid() && locations == old(locations)
      ensures var r := if due then RunLoop(world, budget, old(Model()), item.name, item.list, item.body)
                       else Run(ReturnTrue, old(Model()));
        vr == r.vr && Model() == r.st
      ensures At(toks, q, after)
      decreases budget, Room(Model()), |EncExpr(item.list)| + |EncItems(item.body)|, 6
    {
      hide At, EncExpr, EncItems, EncItem, EncBody, RunLoop;
      ForAt(toks, p, item, after);
      vr := ReturnTrue;
      var name := toks[p + 4..p + 4 + toks[p + 3]];
      var expr: nat := p + 4 + toks[p + 3] + 2;
      q := expr + BlockLen(expr - 2);
      BodyAt(toks, q, item.body, after);
      var len := BlockLen(q);
      q := q + 2;
      if due {
        vr := VisitProLoop(name, expr, q, budget, item.list, item.body);
      }
      q := q + len;
    }

    method VisitProLoop(name: Key, expr: nat, p: nat, budget: nat, ghost e: Expr, ghost body: seq<Item>)
      returns (vr: Visit)
      requires Valid() && ExprAt(toks, expr, e, VALUE_TERMINATOR) && BlockAt(toks, p, body)
      modifies this, vars
      ensures Valid() && locations == old(locations)
      ensures var r := RunLoop(world, budget, old(Model()), name, e, body);
        vr == r.vr && Model() == r.st
      decreases budget, Room(Model()), |EncExpr(e)| + |EncItems(body)|, 5
    {
      hide At, RunRounds, EncItems, EncExpr, ExpandJoined, RemoveEmpty, Upto;
      var q, words;
      vr, q, words := ExpandVariableReferences(expr, true, budget, e, VALUE_TERMINATOR);
      if Fatal(vr) {
        return;
      }
      var it, variable, oldValue := words[0], [], [];
      if name == [] {
        if it != Units("ever") {
          return ReturnFalse;
        }
        it := Units("forever");
      } else {
        variable := world.rename(name);
        oldValue := vars.Values(variable);
      }
      var list := vars.Values(it);
      var infinite := false;
      if list == [] {
        if it == Units("forever") {
          infinite := true;
        } else {
          list := SplitRange(it);
        }
      }
      if infinite {
        ghost var was := Model();
        vr := LoopForever(variable, p, budget, body);
        ghost var r := RunRounds(world, budget, was, body, variable, true, Upto(MAX_ROUNDS), ReturnTrue);
        SetTopTwice(r.st.frames, variable, Val([Decimal(MAX_ROUNDS)]), Val(oldValue));
      } else {
        vr := LoopOver(variable, list, p, budget, body);
      }
      if variable != [] {
        vars.Assign(variable, oldValue);
      }
    }

    method CountFrom(first: int, last: int) returns (list: Values)
      ensures list == Numbers(first, last)
    {
      hide Decimal;
      list := [];
      var i := first;
      if first < last {
        while i < last
          invariant first <= i <= last && list + Numbers(i, last) == Numbers(first, last)
        {
          list, i := list + [Decimal(i)], i + 1;
        }
      } else {
        while i > last
          invariant last <= i <= first && list + Numbers(i, last) == Numbers(first, last)
        {
          list, i := list + [Decimal(i)], i - 1;
        }
      }
      list := list + [Decimal(i)];
    }

    method SplitRange(it: Chars) returns (list: Values)
      ensures list == Range(world, it)
    {
      var dots := IndexOfDots(it);
      if dots < 0 {
        return [];
      }
      list := [];
      match (world.toInt(it[..dots]), world.toInt(it[dots + 2..])) {
        case (Number(first), Number(last)) => list := CountFrom(first, last);
        case _ =>
      }
    }

    /** The numbered rounds of an endless loop, up to the limit. */
    method LoopForever(variable: Key, p: nat, budget: nat, ghost body: seq<Item>) returns (vr: Visit)
      requires Valid() && BlockAt(toks, p, body)
      modifies this, vars
      ensures Valid() && locations == old(locations)
      ensures var r := RunRounds(world, budget, old(Model()), body, variable, true, Upto(MAX_ROUNDS), ReturnTrue);
        vr == r.vr && (Model() == r.st || Model() == Bind(r.st, variable, true, Decimal(MAX_ROUNDS)))
      decreases budget, Room(Model()), |EncItems(body)|, 4
    {
      hide At, Decimal, EncItems, RunItems;
      var index := 0;
      vr := ReturnTrue;
      assert Upto(MAX_ROUNDS)[0..] == Upto(MAX_ROUNDS);
      while true
        invariant Valid() && locations == old(locations)
        invariant 0 <= index <= MAX_ROUNDS && Extends(old(Model()), Model())
        invariant RunRounds(world, budget, Model(), body, variable, true, Upto(MAX_ROUNDS)[index..], vr)
               == RunRounds(world, budget, old(Model()), body, variable, true, Upto(MAX_ROUNDS), ReturnTrue)
        decreases MAX_ROUNDS - index
      {
        if variable != [] {
          vars.Assign(variable, [Decimal(index)]);
        }
        if index + 1 > MAX_ROUNDS {
          return;
        }
        assert Upto(MAX_ROUNDS)[index..][1..] == Upto(MAX_ROUNDS)[index + 1..];
        index := index + 1;
        vr := VisitProBlock(p, budget, body);
        match vr {
          case ReturnTrue =>
          case ReturnFalse =>
          case ReturnNext => vr := ReturnTrue;
          case ReturnBreak => return ReturnTrue;
          case _ => return;
        }
      }
    }

    /** The next value that is not empty. */
    method NextValue(list: Values, start: nat) returns (index: nat)
      requires start <= |list|
      ensures start <= index <= |list| && (index < |list| ==> list[index] != [])
      ensures RemoveEmpty(list[index..]) == RemoveEmpty(list[start..])
    {
      index := start;
      while index < |list| && list[index] == []
        invariant start <= index <= |list| && RemoveEmpty(list[index..]) == RemoveEmpty(list[start..])
      {
        RemoveEmptyHead(list[index..]);
        index := index + 1;
      }
    }

    method LoopOver(variable: Key, list: Values, p: nat, budget: nat, ghost body: seq<Item>) returns (vr: Visit)
      requires Valid() && BlockAt(toks, p, body)
      modifies this, vars
      ensures Valid() && locations == old(locations)
      ensures var r := RunRounds(world, budget, old(Model()), body, variable, false, RemoveEmpty(list), ReturnTrue);
        vr == r.vr && Model() == r.st
      decreases budget, Room(Model()), |EncItems(body)|, 4
    {
      hide At;
      var index := 0;
      vr := ReturnTrue;
      assert list[0..] == list;
      while true
        invariant Valid() && locations == old(locations)
        invariant 0 <= index <= |list| && Extends(old(Model()), Model())
        invariant RunRounds(world, budget, Model(), body, variable, false, RemoveEmpty(list[index..]), vr)
               == RunRounds(world, budget, old(Model()), body, variable, false, RemoveEmpty(list), ReturnTrue)
        decreases |list| - index
      {
        ghost var left := RemoveEmpty(list[index..]);
        index := NextValue(list, index);
        if index >= |list| {
          return;
        }
        RemoveEmptyHead(list[index..]);
        assert left[0] == list[index] && left[1..] == RemoveEmpty(list[index + 1..]);
        vars.Assign(variable, [list[index]]);
        index := index + 1;
        vr := VisitProBlock(p, budget, body);
        match vr {
          case ReturnTrue =>
          case ReturnFalse =>
          case ReturnNext => vr := ReturnTrue;
          case ReturnBreak => return ReturnTrue;
          case _ => return;
        }
      }
    }

    /** One token that starts an item without expression. */
    method VisitStructure(p: nat, chain: Chain, budget: nat, ghost item: Item, ghost after: seq<Unit>)
      returns (halted: bool, vr: Visit, q: nat, c: Chain)
      requires Valid() && !HasExpr(item) && !item.Line? && SeparatedItem(item)
      requires At(toks, p, EncItem(item) + after)
      modifies this, vars
      ensures Valid() && locations == old(locations)
      ensures Made(StepBlock(world, budget, old(Model()), item, chain), halted, vr, c)
      ensures !halted ==> At(toks, q, after)
      decreases budget, Room(Model()), |EncItem(item)|, 1
    {
      hide At, EncItem, EncItems, EncExpr, EncSub, RunLoop, RunSub, RunBypassed;
      RemainderAt(toks, p, item, after);
      ItemSize(item);
      vr, q, c := ReturnTrue, p + 1, chain;
      var tok := toks[p];
      if tok == NOT || tok == AND || tok == OR {
        assert Remainder(item) + after == after;
        halted := false;
        c := if tok == NOT then OnNot(c) else if tok == AND then OnAnd(c) else OnOr(c);
        return;
      }
      if tok == BREAK || tok == NEXT {
        assert Remainder(item) + after == after;
        vr := if tok == BREAK then ReturnBreak else ReturnNext;
        halted, c := FlowControl(c);
        return;
      }
      if tok == BRANCH {
        BranchAt(toks, p, item, after);
        BranchSize(item);
        vr, q := VisitBranch(p + 1, c.okey, budget, item.thn, item.els, after);
      } else if tok == FOR_LOOP {
        vr, q := VisitForLoop(p, Due(c), budget, item, after);
      } else if tok == BYPASS_NESTING {
        vr, q := VisitBypass(p + 1, Due(c), budget, item.body, after);
      } else {
        q := VisitProFunctionDef(p, Due(c), item, after);
      }
      halted := !Plain(vr);
      c := c.(okey := true, orOp := false);
    }

    /** What remains of a block after a line mark. */
    ghost method PassLine(p: nat, items: seq<Item>, words: Values, c: Chain, budget: nat) returns (rest: seq<Item>)
      requires Valid() && BlockAt(toks, p, items) && items != [] && toks[p] == LINE
      requires words != [] ==> HasExpr(items[0])
      ensures p + 1 < |toks| && BlockAt(toks, p + 2, rest) && |EncItems(rest)| < |EncItems(items)|
      ensures words != [] ==> rest != [] && HasExpr(rest[0])
      ensures RunItems(world, budget, Model(), items, words, c)
           == RunItems(world, budget, Model().(line := toks[p + 1]), rest, words, c)
    {
      hide At;
      var item, after := items[0], EncItems(items[1..]) + [TERMINATOR];
      ItemsAt(toks, p, items);
      ItemHead(toks, p, item, after);
      ItemSize(item);
      if item.Line? {
        assert EncItem(item) + after == [LINE, item.n] + after;
        AtPair(toks, p, LINE, item.n, after);
        rest := items[1..];
        assert StepItem(world, budget, Model(), item, words, c) == Go(Model().(line := item.n), c);
      } else {
        LineAt(toks, p, item, after);
        LineEnc(item);
        ConsAt(toks, p + 2, WithExpr(item, item.e.rest), items[1..]);
        MarkedStep(world, budget, Model(), items, words, c);
        rest := [WithExpr(item, item.e.rest)] + items[1..];
      }
    }

    /** What remains of a block after the expression of its first item. */
    ghost method PassExpression(p: nat, items: seq<Item>, words: Values, c: Chain, budget: nat)
      returns (rest: seq<Item>)
      requires Valid() && BlockAt(toks, p, items) && items != [] && IsElement(toks[p])
      ensures HasExpr(items[0]) && ExprAt(toks, p, items[0].e, Action(items[0])) && Rest(items[0].e) == End
      ensures rest == [WithExpr(items[0], End)] + items[1..]
      ensures BlockAt(toks, p + |EncExpr(items[0].e)|, rest) && |EncItems(rest)| < |EncItems(items)|
      ensures var g := ExpandList(world, budget, Model(), items[0].e, words);
        RunItems(world, budget, Model(), items, words, c) ==
        if Fatal(g.vr) then Run(g.vr, g.st) else RunItems(world, budget, g.st, rest, g.list, c)
    {
      hide At, EncItem, EncItems, EncExpr, RunItems, ExpandList;
      var item, after := items[0], EncItems(items[1..]) + [TERMINATOR];
      ItemsAt(toks, p, items);
      ItemHead(toks, p, item, after);
      ActionAt(toks, p, item, after);
      ExprHead(toks, p, item.e, Action(item));
      ActionEnc(item);
      ExpandedEnc(item);
      EncItemsFirst(items);
      ConsAt(toks, p + |EncExpr(item.e)|, WithExpr(item, End), items[1..]);
      ExpandedStep(world, budget, Model(), items, words, c);
      rest := [WithExpr(item, End)] + items[1..];
    }

    /** Where the walk through a block stands: `items` remain, `words` are expanded of the first one. */
    ghost predicate Standing(p: nat, items: seq<Item>, words: Values)
      reads this
    {
      && Valid() && BlockAt(toks, p, items)
      && (words != [] ==> items != [] && HasExpr(items[0]))
    }

    method ExpressionToken(p: nat, words: Values, budget: nat, ghost c: Chain, ghost items: seq<Item>)
      returns (vr: Visit, q: nat, more: Values, ghost rest: seq<Item>)
      requires Standing(p, items, words) && items != [] && IsElement(toks[p])
      modifies this, vars
      ensures Valid() && locations == old(locations) && Extends(old(Model()), Model())
      ensures RunItems(world, budget, old(Model()), items, words, c) ==
        if Fatal(vr) then Run(vr, Model()) else RunItems(world, budget, Model(), rest, more, c)
      ensures !Fatal(vr) ==> Standing(q, rest, more) && |EncItems(rest)| < |EncItems(items)|
      decreases budget, Room(Model()), |EncItems(items)|, 0
    {
      hide At;
      rest := PassExpression(p, items, words, c, budget);
      EncItemsFirst(items);
      vr, q, more := EvaluateExpression(p, words, false, budget, items[0].e, Action(items[0]));
    }

    method ItemToken(p: nat, words: Values, chain: Chain, budget: nat, ghost items: seq<Item>)
      returns (halted: bool, vr: Visit, q: nat, c: Chain)
      requires Standing(p, items, words) && items != [] && toks[p] != LINE && !IsElement(toks[p])
      modifies this, vars
      ensures Valid() && locations == old(locations) && Extends(old(Model()), Model())
      ensures RunItems(world, budget, old(Model()), items, words, chain) ==
        if halted then Run(vr, Model()) else RunItems(world, budget, Model(), items[1..], [], c)
      ensures !halted ==> BlockAt(toks, q, items[1..])
      decreases budget, Room(Model()), |EncItems(items)|, 2
    {
      hide At, RunItems, StepWords, StepBlock;
      ghost var item, after := items[0], EncItems(items[1..]) + [TERMINATOR];
      ItemsAt(toks, p, items);
      ItemHead(toks, p, item, after);
      EncItemsFirst(items);
      FirstStep(world, budget, Model(), items, words, chain);
      var tok := toks[p];
      if IsAction(tok) {
        ActionAt(toks, p, item, after);
        halted, vr, q, c := VisitAction(p + 1, words, chain, budget, item, after);
      } else {
        halted, vr, q, c := VisitStructure(p, chain, budget, item, after);
      }
    }

    /** Run a block: token by token, as the encoded items mean. */
    method VisitProBlock(p: nat, budget: nat, ghost items: seq<Item>) returns (vr: Visit)
      requires Valid() && BlockAt(toks, p, items)
      modifies this, vars
      ensures Valid() && locations == old(locations)
      ensures var r := RunItems(world, budget, old(Model()), items, [], START);
        vr == r.vr && Model() == r.st
      decreases budget, Room(Model()), |EncItems(items)|, 3
    {
      hide At;
      var q: nat, words: Values, c := p, [], START;
      ghost var rest := items;
      NextAt(q, rest);
      while toks[q] != TERMINATOR
        invariant Standing(q, rest, words) && locations == old(locations)
        invariant |EncItems(rest)| <= |EncItems(items)| && Extends(old(Model()), Model())
        invariant q < |toks| && (rest == [] <==> toks[q] == TERMINATOR)
        invariant RunItems(world, budget, Model(), rest, words, c)
               == RunItems(world, budget, old(Model()), items, [], START)
        decreases |EncItems(rest)|
      {
        var tok := toks[q];
        if tok == LINE {
          rest := PassLine(q, rest, words, c, budget);
          line := toks[q + 1];
          q := q + 2;
        } else if IsElement(tok) {
          vr, q, words, rest := ExpressionToken(q, words, budget, c, rest);
          if Fatal(vr) {
            return;
          }
        } else {
          var halted;
          halted, vr, q, c := ItemToken(q, words, c, budget, rest);
          if halted {
            return;
          }
          EncItemsFirst(rest);
          words, rest := [], rest[1..];
        }
        NextAt(q, rest);
      }
      vr := ReturnBool(c.okey);
    }

    /** A block is at its end where its terminator stands. */
    lemma NextAt(p: nat, items: seq<Item>)
      requires BlockAt(toks, p, items)
      ensures p < |toks| && (items == [] <==> toks[p] == TERMINATOR)
    {
      ItemsAt(toks, p, items);
      if items != [] {
        ItemHead(toks, p, items[0], EncItems(items[1..]) + [TERMINATOR]);
      }
    }
  }
}
