/** The budget for bypassed nesting is only that: a run that does not exhaust it is the same with any
    larger budget. */
module BudgetProofs {
  import opened ProTokens
  import opened TokenWalk
  import opened VarStack
  import opened ExprValues
  import opened ConditionChain
  import opened ProSemantics
  import opened ProSemanticsProofs

  lemma {:induction false} ExpandMore(w: World, b: nat, st: State, e: Expr, acc: Acc, joined: bool)
    requires Open(acc, joined) && Expand(w, b, st, e, acc, joined).vr != Stuck
    ensures Expand(w, b + 1, st, e, acc, joined) == Expand(w, b, st, e, acc, joined)
    decreases b, Room(st), |EncExpr(e)|, 0
  {
    match e
    case End =>
    case Sep(_) =>
    case LineMark(n, rest) => ExpandMore(w, b, st.(line := n), rest, acc, joined);
    case Str(t, f, text, rest) => ExpandMore(w, b, st, rest, AddPlain(w, acc, t, f, text, joined), joined);
    case Hashed(t, f, _, _, text, rest) =>
      ExpandMore(w, b, st, rest, AddHashed(w, st, acc, t, f, text, joined), joined);
    case Func(f, _, _, name, args, rest) =>
      CallExpandMore(w, b, st, name, args);
      var c := CallExpand(w, b, st, name, args);
      if !Fatal(c.vr) {
        ExpandMore(w, b, c.st, rest, AddStrList(Started(acc, f), c.list, f % 2 == 1, joined), joined);
      }
  }

  lemma {:induction false} ExpandListMore(w: World, b: nat, st: State, e: Expr, ret: Values)
    requires ExpandList(w, b, st, e, ret).vr != Stuck
    ensures ExpandList(w, b + 1, st, e, ret) == ExpandList(w, b, st, e, ret)
    decreases b, Room(st), |EncExpr(e)|, 1
  {
    ExpandMore(w, b, st, e, Acc(ret, false), false);
  }

  lemma {:induction false} ExpandJoinedMore(w: World, b: nat, st: State, e: Expr, ret: Values)
    requires ExpandJoined(w, b, st, e, ret).vr != Stuck
    ensures ExpandJoined(w, b + 1, st, e, ret) == ExpandJoined(w, b, st, e, ret)
    decreases b, Room(st), |EncExpr(e)|, 2
  {
    ExpandMore(w, b, st, e, Acc(ret + [[]], false), true);
    var g := Expand(w, b, st, e, Acc(ret + [[]], false), true);
    if !Fatal(g.vr) && !Rest(e).End? {
      ExpandJoinedMore(w, b, g.st, Rest(e).rest, g.acc.ret);
    }
  }

  lemma {:induction false} ExpandArgsMore(w: World, b: nat, st: State, e: Expr, args: seq<Values>)
    requires ExpandArgs(w, b, st, e, args).vr != Stuck
    ensures ExpandArgs(w, b + 1, st, e, args) == ExpandArgs(w, b, st, e, args)
    decreases b, Room(st), |EncExpr(e)|, 2
  {
    ExpandMore(w, b, st, e, Acc([], false), false);
    var g := Expand(w, b, st, e, Acc([], false), false);
    if !Fatal(g.vr) && !Rest(e).End? {
      ExpandArgsMore(w, b, g.st, Rest(e).rest, args + [g.acc.ret]);
    }
  }

  lemma {:induction false} PrepareArgsMore(w: World, b: nat, st: State, e: Expr)
    requires PrepareArgs(w, b, st, e).vr != Stuck
    ensures PrepareArgs(w, b + 1, st, e) == PrepareArgs(w, b, st, e)
    decreases b, Room(st), |EncExpr(e)|, 3
  {
    if !e.End? {
      ExpandArgsMore(w, b, st, e, []);
    }
  }

  lemma {:induction false} CallFunctionMore(w: World, b: nat, st: State, body: seq<Item>, args: seq<Values>)
    requires CallFunction(w, b, st, body, args).vr != Stuck
    ensures CallFunction(w, b + 1, st, body, args) == CallFunction(w, b, st, body, args)
    decreases b, Room(st), 0, 0
  {
    if Height(st) < MAX_DEPTH {
      RunItemsMore(w, b, st.(frames := st.frames + [NewFrame(args)], line := 0), body, [], START);
    }
  }

  lemma {:induction false} CallTestMore(w: World, b: nat, st: State, key: Key, e: Expr)
    requires CallTest(w, b, st, key, e).vr != Stuck
    ensures CallTest(w, b + 1, st, key, e) == CallTest(w, b, st, key, e)
    decreases b, Room(st), |EncExpr(e)|, 4
  {
    hide ExpandJoined, PrepareArgs, CallFunction, ApplyTest, Truth;
    if key in w.tests {
      ExpandJoinedMore(w, b, st, e, []);
    } else if key in st.testDefs {
      PrepareArgsMore(w, b, st, e);
      var g := PrepareArgs(w, b, st, e);
      if !Fatal(g.vr) {
        CallFunctionMore(w, b, g.st, g.st.testDefs[key], g.args);
      }
    }
  }

  lemma {:induction false} CallExpandMore(w: World, b: nat, st: State, key: Key, e: Expr)
    requires CallExpand(w, b, st, key, e).vr != Stuck
    ensures CallExpand(w, b + 1, st, key, e) == CallExpand(w, b, st, key, e)
    decreases b, Room(st), |EncExpr(e)|, 4
  {
    hide ExpandJoined, PrepareArgs, CallFunction, ApplyExpand;
    if key in w.expands {
      ExpandJoinedMore(w, b, st, e, []);
    } else if key in st.replaceDefs {
      PrepareArgsMore(w, b, st, e);
      var g := PrepareArgs(w, b, st, e);
      if !Fatal(g.vr) {
        CallFunctionMore(w, b, g.st, g.st.replaceDefs[key], g.args);
      }
    }
  }

  lemma {:induction false} TestCallMore(w: World, b: nat, st: State, c: Chain, words: Values, e: Expr)
    requires StepEnd(TestCall(w, b, st, c, words, e)) != Stuck
    ensures TestCall(w, b + 1, st, c, words, e) == TestCall(w, b, st, c, words, e)
    decreases b, Room(st), |EncExpr(e)|, 5
  {
    if Due(c) && |words| == 1 {
      CallTestMore(w, b, st, words[0], e);
    }
  }

  lemma {:induction false} AssignmentMore(w: World, b: nat, st: State, t: AssignTok, words: Values, e: Expr)
    requires Assignment(w, b, st, t, words, e).vr != Stuck
    ensures Assignment(w, b + 1, st, t, words, e) == Assignment(w, b, st, t, words, e)
    decreases b, Room(st), |EncExpr(e)|, 5
  {
    if |words| == 1 && t == REPLACE {
      ExpandJoinedMore(w, b, st, e, []);
    } else if |words| == 1 {
      ExpandListMore(w, b, st, e, []);
    }
  }

  lemma {:induction false} RunSubMore(w: World, b: nat, st: State, sub: Sub)
    requires RunSub(w, b, st, sub).vr != Stuck
    ensures RunSub(w, b + 1, st, sub) == RunSub(w, b, st, sub)
    decreases b, Room(st), |EncSub(sub)|, 0
  {
    match sub
    case Absent =>
    case Present(body) =>
      assert |EncSub(sub)| == |EncItems(body)| + 3;
      RunItemsMore(w, b, st, body, [], START);
  }

  lemma {:induction false} RunBypassedMore(w: World, b: nat, st: State, body: seq<Item>)
    requires RunBypassed(w, b, st, body).vr != Stuck
    ensures RunBypassed(w, b + 1, st, body) == RunBypassed(w, b, st, body)
    decreases b, Room(st), |EncItems(body)|, 2
  {
    RunItemsMore(w, b - 1, st.(frames := [st.frames[0]]), body, [], START);
  }

  lemma {:induction false} RunLoopMore(w: World, b: nat, st: State, name: Key, list: Expr, body: seq<Item>)
    requires RunLoop(w, b, st, name, list, body).vr != Stuck
    ensures RunLoop(w, b + 1, st, name, list, body) == RunLoop(w, b, st, name, list, body)
    decreases b, Room(st), |EncExpr(list)| + |EncItems(body)|, 3
  {
    hide ExpandJoined, RunRounds, Rounds, Endless;
    ExpandJoinedMore(w, b, st, list, []);
    var g := ExpandJoined(w, b, st, list, []);
    if !Fatal(g.vr) && !(name == [] && g.list[0] != Units("ever")) {
      var it := if name == [] then Units("forever") else g.list[0];
      RunRoundsMore(w, b, g.st, body, LoopName(w, name), Endless(g.st, it), Rounds(w, g.st, it), ReturnTrue);
    }
  }

  lemma {:induction false} RunRoundsMore(w: World, b: nat, st: State, body: seq<Item>, variable: Key, endless: bool,
                                         list: Values, vr: Visit)
    requires RunRounds(w, b, st, body, variable, endless, list, vr).vr != Stuck
    ensures RunRounds(w, b + 1, st, body, variable, endless, list, vr)
         == RunRounds(w, b, st, body, variable, endless, list, vr)
    decreases b, Room(st), |EncItems(body)|, 2, |list|
  {
    hide RunItems, Bind;
    if list != [] {
      var bound := Bind(st, variable, endless, list[0]);
      RunItemsMore(w, b, bound, body, [], START);
      var r := RunItems(w, b, bound, body, [], START);
      if Plain(r.vr) || r.vr == ReturnNext {
        var vr' := if r.vr == ReturnFalse then ReturnFalse else ReturnTrue;
        RunRoundsMore(w, b, r.st, body, variable, endless, list[1..], vr');
      }
    }
  }

  lemma {:induction false} StepWordsMore(w: World, b: nat, st: State, item: Item, words: Values, c: Chain)
    requires HasExpr(item) && StepEnd(StepWords(w, b, st, item, words, c)) != Stuck
    ensures StepWords(w, b + 1, st, item, words, c) == StepWords(w, b, st, item, words, c)
    decreases b, Room(st), |EncItem(item)| - 1, 1
  {
    ItemSize(item);
    match item
    case Cond(_) =>
    case Call(_, args) => TestCallMore(w, b, st, c, words, args);
    case Ret(_) =>
    case Assign(_, t, _, value) => AssignmentMore(w, b, st, t, words, value);
  }

  lemma {:induction false} StepBlockMore(w: World, b: nat, st: State, item: Item, c: Chain)
    requires !HasExpr(item) && StepEnd(StepBlock(w, b, st, item, c)) != Stuck
    ensures StepBlock(w, b + 1, st, item, c) == StepBlock(w, b, st, item, c)
    decreases b, Room(st), |EncItem(item)| - 1, 1
  {
    ItemSize(item);
    match item
    case Line(_) =>
    case Op(_) =>
    case Jump(_) =>
    case Branch(thn, els) => RunSubMore(w, b, st, if c.okey then thn else els);
    case For(_, _, name, list, body) =>
      if Due(c) {
        RunLoopMore(w, b, st, name, list, body);
      }
    case Def(_, _, _, _, _) =>
    case Bypass(body) =>
      if Due(c) {
        RunBypassedMore(w, b, st, body);
      }
  }

  lemma {:induction false} StepItemMore(w: World, b: nat, st: State, item: Item, curr: Values, c: Chain)
    requires StepEnd(StepItem(w, b, st, item, curr, c)) != Stuck
    ensures StepItem(w, b + 1, st, item, curr, c) == StepItem(w, b, st, item, curr, c)
    decreases b, Room(st), |EncItem(item)|, 0
  {
    ItemSize(item);
    if HasExpr(item) {
      ExpandListMore(w, b, st, item.e, curr);
      var g := ExpandList(w, b, st, item.e, curr);
      if !Fatal(g.vr) {
        StepWordsMore(w, b, g.st, item, g.list, c);
      }
    } else {
      StepBlockMore(w, b, st, item, c);
    }
  }

  lemma {:induction false} RunItemsMore(w: World, b: nat, st: State, items: seq<Item>, curr: Values, c: Chain)
    requires RunItems(w, b, st, items, curr, c).vr != Stuck
    ensures RunItems(w, b + 1, st, items, curr, c) == RunItems(w, b, st, items, curr, c)
    decreases b, Room(st), |EncItems(items)|, 1
  {
    if items != [] {
      ItemSize(items[0]);
      StepItemMore(w, b, st, items[0], curr, c);
      match StepItem(w, b, st, items[0], curr, c)
      case Halt(_, _) =>
      case Go(st', c') => RunItemsMore(w, b, st', items[1..], [], c');
    }
  }

  lemma {:induction false} AnyBudget(w: World, b: nat, b': nat, st: State, items: seq<Item>)
    requires b <= b' && RunItems(w, b, st, items, [], START).vr != Stuck
    ensures RunItems(w, b', st, items, [], START) == RunItems(w, b, st, items, [], START)
    decreases b'
  {
    if b < b' {
      AnyBudget(w, b, b' - 1, st, items);
      RunItemsMore(w, b' - 1, st, items, [], START);
    }
  }

  /** A program in which nothing bypasses nesting has one meaning, whatever the budget: it always ends. */
  lemma PlainProgramEnds(w: World, b: nat, st: State, items: seq<Item>)
    requires IsPlain(st) && NoBypass(items)
    ensures RunItems(w, b, st, items, [], START) == RunItems(w, 0, st, items, [], START)
    ensures RunItems(w, b, st, items, [], START).vr != Stuck
  {
    RunItemsSafe(w, 0, st, items, [], START, NEST_NONE, Known(true, false));
    AnyBudget(w, 0, b, st, items);
  }

  /** A call of `f()` without arguments. */
  function CallOf(f: Text): Item { Call(Hashed(HASH_LITERAL, PLAIN, 0, 0, f, End), End) }

  lemma CallRuns(w: World, b: nat, st: State, f: Text)
    requires f !in w.tests && f in st.testDefs && Height(st) < MAX_DEPTH
    ensures CallFunction(w, b, st, st.testDefs[f], []).vr == Stuck ==>
      RunItems(w, b, st, [CallOf(f)], [], START).vr == Stuck
  {
    var call := CallOf(f);
    var e := call.e;
    assert AddHashed(w, st, Acc([], false), e.hashed, e.flags, e.text, false) == Acc([f], true);
    assert Expand(w, b, st, e.rest, Acc([f], true), false) == Got(ReturnTrue, st, Acc([f], true));
    assert ExpandList(w, b, st, e, []) == Listed(ReturnTrue, st, [f]);
    ItemSize(call);
    assert StepItem(w, b, st, call, [], START) == StepWords(w, b, st, call, [f], START);
    assert StepItem(w, b, st, call, [], START) == TestCall(w, b, st, START, [f], End);
    assert PrepareArgs(w, b, st, End) == Gathered(ReturnTrue, st, []);
    assert CallTest(w, b, st, f, End).vr == Stuck <== CallFunction(w, b, st, st.testDefs[f], []).vr == Stuck;
  }

  lemma BodyRuns(w: World, b: nat, st: State, body: seq<Item>)
    ensures RunBypassed(w, b, st, body).vr == Stuck ==> RunItems(w, b, st, [Bypass(body)], [], START).vr == Stuck
  {
    assert StepItem(w, b, st, Bypass(body), [], START) == Resume(RunBypassed(w, b, st, body).vr,
                                                                RunBypassed(w, b, st, body).st, START);
  }

  /** A function that calls itself with nesting bypassed never meets the limit of a hundred frames: no
      budget is enough for it. */
  lemma {:induction false} BypassedRecursionIsStuck(w: World, b: nat, st: State, f: Text)
    requires f !in w.tests && f in st.testDefs && st.testDefs[f] == [Bypass([CallOf(f)])]
    requires Height(st) < MAX_DEPTH
    ensures RunItems(w, b, st, [CallOf(f)], [], START).vr == Stuck
    decreases b
  {
    hide RunItems;
    var pushed := st.(frames := st.frames + [NewFrame([])], line := 0);
    if b > 0 {
      BypassedRecursionIsStuck(w, b - 1, pushed.(frames := [pushed.frames[0]]), f);
    }
    BodyRuns(w, b, pushed, [CallOf(f)]);
    CallRuns(w, b, st, f);
  }
}
