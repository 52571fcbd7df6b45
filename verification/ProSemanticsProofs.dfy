/** What running a block can and cannot do to its surroundings: which frames it may change, how it can
    end, and when a budget for bypassed nesting is needed. */
module ProSemanticsProofs {
  import opened ProTokens
  import opened TokenWalk
  import opened VarStack
  import opened ExprValues
  import opened ConditionChain
  import opened ProSemantics

  predicate NoBypass(items: seq<Item>)
    decreases items, 0
  {
    items == [] || (NoBypassItem(items[0]) && NoBypass(items[1..]))
  }

  predicate NoBypassSub(sub: Sub) { sub.Present? ==> NoBypass(sub.body) }

  predicate NoBypassItem(item: Item) {
    match item
    case Branch(thn, els) => NoBypassSub(thn) && NoBypassSub(els)
    case For(_, _, _, _, body) => NoBypass(body)
    case Def(_, _, _, _, body) => NoBypass(body)
    case Bypass(_) => false
    case _ => true
  }

  /** What is known of a program: `plain` if no block bypasses nesting, `placed` if all jumps are in place. */
  datatype Known = Known(plain: bool, placed: bool)

  predicate Fits(items: seq<Item>, nest: Nesting, k: Known) {
    (k.placed ==> Nested(items, nest)) && (k.plain ==> NoBypass(items))
  }

  predicate StoreFits(defs: map<Key, seq<Item>>, k: Known) {
    forall key | key in defs :: Fits(defs[key], NEST_FUNCTION, k)
  }

  predicate AllFit(st: State, k: Known) { StoreFits(st.testDefs, k) && StoreFits(st.replaceDefs, k) }

  /** No function defined so far bypasses nesting. */
  predicate IsPlain(st: State) { AllFit(st, Known(true, false)) }

  /** The first frame that a block without exports leaves alone: the bottom one, unless nesting is bypassed. */
  function Lowest(plain: bool): nat { if plain then 0 else 1 }

  /** The variables exported on the way from `a` to `b`. */
  function Exports(a: State, b: State): set<Key>
    requires a.exported <= b.exported
  {
    set key | key in b.exported[|a.exported|..]
  }

  /** Frame `i` is the same, but for the variables exported on the way. */
  predicate SameFrame(a: State, b: State, i: nat)
    requires i < Height(a) && i < Height(b) && a.exported <= b.exported
  {
    a.frames[i] - Exports(a, b) == b.frames[i] - Exports(a, b)
  }

  /** All frames below the top are the same. */
  predicate Keeps(a: State, b: State, plain: bool) {
    && Height(a) == Height(b) && a.exported <= b.exported
    && forall i | Lowest(plain) <= i < Height(a) - 1 :: SameFrame(a, b, i)
  }

  /** All frames are the same. */
  predicate Restores(a: State, b: State, plain: bool) {
    && Height(a) == Height(b) && a.exported <= b.exported
    && forall i | Lowest(plain) <= i < Height(a) :: SameFrame(a, b, i)
  }

  lemma ExportsTrans(a: State, b: State, c: State)
    requires a.exported <= b.exported <= c.exported
    ensures Exports(a, c) == Exports(a, b) + Exports(b, c)
  {
    assert c.exported[|a.exported|..] == b.exported[|a.exported|..] + c.exported[|b.exported|..];
  }

  lemma SameFrameTrans(a: State, b: State, c: State, i: nat)
    requires i < Height(a) && i < Height(b) && i < Height(c)
    requires a.exported <= b.exported <= c.exported && SameFrame(a, b, i) && SameFrame(b, c, i)
    ensures SameFrame(a, c, i)
  {
    var f, g, h := a.frames[i], b.frames[i], c.frames[i];
    ExportsTrans(a, b, c);
    assert f - Exports(a, c) == (f - Exports(a, b)) - Exports(b, c);
    assert g - Exports(a, c) == (g - Exports(a, b)) - Exports(b, c);
    assert g - Exports(a, c) == (g - Exports(b, c)) - Exports(a, b);
    assert h - Exports(a, c) == (h - Exports(b, c)) - Exports(a, b);
  }

  lemma KeepsTrans(a: State, b: State, c: State, plain: bool)
    requires Keeps(a, b, plain) && Keeps(b, c, plain)
    ensures Keeps(a, c, plain)
  {
    forall i | Lowest(plain) <= i < Height(a) - 1 ensures SameFrame(a, c, i) {
      SameFrameTrans(a, b, c, i);
    }
  }

  /** A step that only works on the top frame. */
  lemma KeepsTop(a: State, b: State, plain: bool)
    requires Height(a) == Height(b) && a.exported <= b.exported
    requires a.frames[..Height(a) - 1] == b.frames[..Height(a) - 1]
    ensures Keeps(a, b, plain)
  {
    forall i | 0 <= i < Height(a) - 1 ensures SameFrame(a, b, i) {
      assert a.frames[i] == a.frames[..Height(a) - 1][i] == b.frames[i];
    }
  }

  lemma KeepsExport(a: State, key: Key, plain: bool)
    ensures Keeps(a, a.(frames := Exported(a.frames, key), exported := a.exported + [key]), plain)
  {
    var b := a.(frames := Exported(a.frames, key), exported := a.exported + [key]);
    forall i | 0 <= i < Height(a) - 1 ensures SameFrame(a, b, i) {
    }
  }

  /** Running in a new frame on top of `a` and dropping it afterwards restores all frames. */
  lemma PushedRestores(a: State, top: Frame, b: State, c: State, d: State, plain: bool)
    requires Height(b) == Height(a) + 1 && b.exported == a.exported && b.frames == a.frames + [top]
    requires Keeps(b, c, plain) && d.frames == Pop(c.frames) && d.exported == c.exported
    ensures Restores(a, d, plain) && Keeps(a, d, plain)
  {
    forall i | Lowest(plain) <= i < Height(a) ensures SameFrame(a, d, i) {
      assert SameFrame(b, c, i);
    }
  }

  /** A block in the bottom frame alone leaves all frames above it alone. */
  lemma BypassKeeps(a: State, c: State)
    requires Height(c) == 1 && a.exported <= c.exported
    ensures Keeps(a, c.(frames := a.frames[0 := c.frames[0]]), false)
  {
  }

  /** How something may end and what it may have done by then. */
  predicate Safe(a: State, b: State, vr: Visit, k: Known) {
    AllFit(b, k) && Keeps(a, b, k.plain) && (k.plain ==> vr != Stuck)
  }

  lemma SafeTop(a: State, b: State, vr: Visit, k: Known)
    requires AllFit(a, k) && b.testDefs == a.testDefs && b.replaceDefs == a.replaceDefs
    requires Height(a) == Height(b) && a.exported == b.exported && vr != Stuck
    requires a.frames[..Height(a) - 1] == b.frames[..Height(a) - 1]
    ensures Safe(a, b, vr, k)
  {
    KeepsTop(a, b, k.plain);
  }

  lemma {:induction false} ExpandSafe(w: World, b: nat, st: State, e: Expr, acc: Acc, joined: bool, k: Known)
    requires AllFit(st, k) && Open(acc, joined)
    ensures var g := Expand(w, b, st, e, acc, joined); Safe(st, g.st, g.vr, k)
    decreases b, Room(st), |EncExpr(e)|, 0
  {
    hide Safe, Keeps, AllFit;
    match e
    case End => SafeTop(st, st, ReturnTrue, k);
    case Sep(_) => SafeTop(st, st, ReturnTrue, k);
    case LineMark(n, rest) =>
      SafeLine(st, n, k);
      ExpandSafe(w, b, st.(line := n), rest, acc, joined, k);
      SafeAfter(st, st.(line := n), ReturnTrue, Expand(w, b, st.(line := n), rest, acc, joined).st,
                Expand(w, b, st.(line := n), rest, acc, joined).vr, k);
    case Str(t, f, text, rest) =>
      ExpandSafe(w, b, st, rest, AddPlain(w, acc, t, f, text, joined), joined, k);
    case Hashed(t, f, _, _, text, rest) =>
      ExpandSafe(w, b, st, rest, AddHashed(w, st, acc, t, f, text, joined), joined, k);
    case Func(f, _, _, name, args, rest) =>
      CallExpandSafe(w, b, st, name, args, k);
      var c := CallExpand(w, b, st, name, args);
      if !Fatal(c.vr) {
        var acc' := AddStrList(Started(acc, f), c.list, f % 2 == 1, joined);
        SafeFits(st, c.st, c.vr, k);
        ExpandSafe(w, b, c.st, rest, acc', joined, k);
        var g := Expand(w, b, c.st, rest, acc', joined);
        SafeAfter(st, c.st, c.vr, g.st, g.vr, k);
      }
  }

  lemma SafeFits(a: State, b: State, vr: Visit, k: Known)
    requires Safe(a, b, vr, k)
    ensures AllFit(b, k)
  {
  }

  lemma SafeLine(st: State, n: Unit, k: Known)
    requires AllFit(st, k)
    ensures AllFit(st.(line := n), k) && Safe(st, st.(line := n), ReturnTrue, k)
  {
    SafeTop(st, st.(line := n), ReturnTrue, k);
  }

  lemma SafeAfter(a: State, b: State, v: Visit, c: State, vr: Visit, k: Known)
    requires Safe(a, b, v, k) && Safe(b, c, vr, k)
    ensures Safe(a, c, vr, k)
  {
    KeepsTrans(a, b, c, k.plain);
  }

  lemma {:induction false} ExpandJoinedSafe(w: World, b: nat, st: State, e: Expr, ret: Values, k: Known)
    requires AllFit(st, k)
    ensures var g := ExpandJoined(w, b, st, e, ret); Safe(st, g.st, g.vr, k)
    decreases b, Room(st), |EncExpr(e)|, 2
  {
    hide Safe, Keeps, AllFit;
    var g := Expand(w, b, st, e, Acc(ret + [[]], false), true);
    ExpandSafe(w, b, st, e, Acc(ret + [[]], false), true, k);
    if !Fatal(g.vr) && !Rest(e).End? {
      SafeFits(st, g.st, g.vr, k);
      ExpandJoinedSafe(w, b, g.st, Rest(e).rest, g.acc.ret, k);
      var r := ExpandJoined(w, b, g.st, Rest(e).rest, g.acc.ret);
      SafeAfter(st, g.st, g.vr, r.st, r.vr, k);
    }
  }

  lemma {:induction false} ExpandArgsSafe(w: World, b: nat, st: State, e: Expr, args: seq<Values>, k: Known)
    requires AllFit(st, k)
    ensures var g := ExpandArgs(w, b, st, e, args); Safe(st, g.st, g.vr, k)
    decreases b, Room(st), |EncExpr(e)|, 2
  {
    hide Safe, Keeps, AllFit;
    var g := Expand(w, b, st, e, Acc([], false), false);
    ExpandSafe(w, b, st, e, Acc([], false), false, k);
    if !Fatal(g.vr) && !Rest(e).End? {
      SafeFits(st, g.st, g.vr, k);
      ExpandArgsSafe(w, b, g.st, Rest(e).rest, args + [g.acc.ret], k);
      var r := ExpandArgs(w, b, g.st, Rest(e).rest, args + [g.acc.ret]);
      SafeAfter(st, g.st, g.vr, r.st, r.vr, k);
    }
  }

  lemma {:induction false} PrepareArgsSafe(w: World, b: nat, st: State, e: Expr, k: Known)
    requires AllFit(st, k)
    ensures var g := PrepareArgs(w, b, st, e); Safe(st, g.st, g.vr, k)
    decreases b, Room(st), |EncExpr(e)|, 3
  {
    if e.End? {
      SafeTop(st, st, ReturnTrue, k);
    } else {
      ExpandArgsSafe(w, b, st, e, [], k);
    }
  }

  /** A call never ends in a jump, and restores all frames of its callers but for what it exports itself. */
  lemma {:induction false} CallFunctionSafe(w: World, b: nat, st: State, body: seq<Item>, args: seq<Values>,
                                            k: Known)
    requires AllFit(st, k) && Fits(body, NEST_FUNCTION, k)
    ensures var c := CallFunction(w, b, st, body, args);
      && Safe(st, c.st, c.vr, k) && Restores(st, c.st, k.plain)
      && (k.placed ==> Plain(c.vr) || Fatal(c.vr))
    decreases b, Room(st), 0, 0
  {
    if Height(st) < MAX_DEPTH {
      var pushed := st.(frames := st.frames + [NewFrame(args)], line := 0);
      RunItemsSafe(w, b, pushed, body, [], START, NEST_FUNCTION, k);
      PushedRestores(st, NewFrame(args), pushed, RunItems(w, b, pushed, body, [], START).st,
                     CallFunction(w, b, st, body, args).st, k.plain);
    } else {
      SafeTop(st, st, ReturnError, k);
    }
  }

  /** Whatever a function does, a call restores all frames of its callers above the bottom one but for what it
      exports itself; and the bottom one, too, unless nesting is bypassed. */
  lemma CallRestores(w: World, b: nat, st: State, body: seq<Item>, args: seq<Values>)
    ensures Restores(st, CallFunction(w, b, st, body, args).st, false)
    ensures IsPlain(st) && NoBypass(body) ==> Restores(st, CallFunction(w, b, st, body, args).st, true)
  {
    CallFunctionSafe(w, b, st, body, args, Known(false, false));
    if IsPlain(st) && NoBypass(body) {
      CallFunctionSafe(w, b, st, body, args, Known(true, false));
    }
  }

  /** A call that exports nothing leaves each of these frames as it was. */
  lemma CallWithoutExport(w: World, b: nat, st: State, body: seq<Item>, args: seq<Values>)
    requires CallFunction(w, b, st, body, args).st.exported == st.exported
    ensures CallFunction(w, b, st, body, args).st.frames[1..] == st.frames[1..]
    ensures IsPlain(st) && NoBypass(body) ==> CallFunction(w, b, st, body, args).st.frames == st.frames
  {
    CallRestores(w, b, st, body, args);
    var r := CallFunction(w, b, st, body, args).st;
    forall i | 0 <= i < Height(st) && SameFrame(st, r, i) ensures r.frames[i] == st.frames[i] {
      assert Exports(st, r) == {};
      assert st.frames[i] - {} == st.frames[i] && r.frames[i] - {} == r.frames[i];
    }
  }

  lemma ApplyTestSafe(w: World, st: State, def: Builtin, key: Key, args: Values, k: Known)
    requires AllFit(st, k) && args != []
    ensures var r := ApplyTest(w, st, def, key, args); Safe(st, r.st, r.vr, k)
  {
    var r := ApplyTest(w, st, def, key, args);
    if def.minArgs <= ArgCount(args) <= def.maxArgs && def.kind == Export {
      KeepsExport(st, w.rename(args[0]), k.plain);
    } else {
      SafeTop(st, r.st, r.vr, k);
    }
  }

  lemma StoredFits(st: State, key: Key, k: Known)
    requires AllFit(st, k)
    ensures key in st.testDefs ==> Fits(st.testDefs[key], NEST_FUNCTION, k)
    ensures key in st.replaceDefs ==> Fits(st.replaceDefs[key], NEST_FUNCTION, k)
  {
  }

  lemma {:induction false} CallTestSafe(w: World, b: nat, st: State, key: Key, e: Expr, k: Known)
    requires AllFit(st, k)
    ensures var r := CallTest(w, b, st, key, e); Safe(st, r.st, r.vr, k) && (k.placed ==> Plain(r.vr) || Fatal(r.vr))
    decreases b, Room(st), |EncExpr(e)|, 4
  {
    hide Safe, Keeps, AllFit, Restores, ExpandJoined, PrepareArgs, CallFunction, ApplyTest, Truth, Fits;
    if key in w.tests {
      ExpandJoinedSafe(w, b, st, e, [], k);
      var g := ExpandJoined(w, b, st, e, []);
      if !Fatal(g.vr) {
        SafeFits(st, g.st, g.vr, k);
        ApplyTestSafe(w, g.st, w.tests[key], key, g.list, k);
        var r := ApplyTest(w, g.st, w.tests[key], key, g.list);
        SafeAfter(st, g.st, g.vr, r.st, r.vr, k);
      }
    } else if key in st.testDefs {
      PrepareArgsSafe(w, b, st, e, k);
      var g := PrepareArgs(w, b, st, e);
      if !Fatal(g.vr) {
        SafeFits(st, g.st, g.vr, k);
        StoredFits(g.st, key, k);
        CallFunctionSafe(w, b, g.st, g.st.testDefs[key], g.args, k);
        var c := CallFunction(w, b, g.st, g.st.testDefs[key], g.args);
        SafeAfter(st, g.st, g.vr, c.st, c.vr, k);
        SafeAny(st, c.st, c.vr, ReturnBool(Truth(w, c.list)), k);
      }
    } else {
      SafeLine(st, SkipLine(st.line, e), k);
      SafeAny(st, Skip(st, e), ReturnTrue, ReturnFalse, k);
    }
  }

  lemma SafeAny(a: State, b: State, v: Visit, vr: Visit, k: Known)
    requires Safe(a, b, v, k) && vr != Stuck
    ensures Safe(a, b, vr, k)
  {
  }

  lemma {:induction false} CallExpandSafe(w: World, b: nat, st: State, key: Key, e: Expr, k: Known)
    requires AllFit(st, k)
    ensures var r := CallExpand(w, b, st, key, e); Safe(st, r.st, r.vr, k)
    decreases b, Room(st), |EncExpr(e)|, 4
  {
    hide Safe, Keeps, AllFit, Restores;
    if key in w.expands {
      ExpandJoinedSafe(w, b, st, e, [], k);
      var g := ExpandJoined(w, b, st, e, []);
      if !Fatal(g.vr) {
        SafeFits(st, g.st, g.vr, k);
        var r := ApplyExpand(w, g.st, w.expands[key], key, g.list);
        SafeTop(g.st, r.st, r.vr, k);
        SafeAfter(st, g.st, g.vr, r.st, r.vr, k);
      }
    } else if key in st.replaceDefs {
      PrepareArgsSafe(w, b, st, e, k);
      var g := PrepareArgs(w, b, st, e);
      if !Fatal(g.vr) {
        SafeFits(st, g.st, g.vr, k);
        StoredFits(g.st, key, k);
        CallFunctionSafe(w, b, g.st, g.st.replaceDefs[key], g.args, k);
        var c := CallFunction(w, b, g.st, g.st.replaceDefs[key], g.args);
        SafeAfter(st, g.st, g.vr, c.st, c.vr, k);
      }
    } else {
      SafeLine(st, SkipLine(st.line, e), k);
      SafeAny(st, Skip(st, e), ReturnTrue, ReturnFalse, k);
    }
  }

  /** How a block at this nesting may end. */
  predicate Ends(vr: Visit, nest: Nesting) { vr == ReturnBreak || vr == ReturnNext ==> nest.inLoop }

  lemma {:induction false} TestCallSafe(w: World, b: nat, st: State, c: Chain, words: Values, e: Expr, k: Known)
    requires AllFit(st, k)
    ensures var s := TestCall(w, b, st, c, words, e);
      Safe(st, s.st, StepEnd(s), k) && (k.placed ==> Plain(StepEnd(s)) || Fatal(StepEnd(s)))
    decreases b, Room(st), |EncExpr(e)|, 5
  {
    if Due(c) && |words| == 1 {
      CallTestSafe(w, b, st, words[0], e, k);
    } else {
      SafeTop(st, Skip(st, e), ReturnTrue, k);
    }
  }

  function StepEnd(s: Step): Visit { if s.Halt? then s.vr else ReturnTrue }

  lemma HookedSafe(w: World, st: State, key: Key, list: Values, k: Known)
    requires AllFit(st, k)
    ensures Safe(st, Hooked(w, SetVar(st, key, list), key), ReturnTrue, k)
  {
    SafeTop(st, Hooked(w, SetVar(st, key, list), key), ReturnTrue, k);
  }

  lemma {:induction false} AssignmentSafe(w: World, b: nat, st: State, t: AssignTok, words: Values, e: Expr,
                                          k: Known)
    requires AllFit(st, k)
    ensures var r := Assignment(w, b, st, t, words, e); Safe(st, r.st, r.vr, k)
    decreases b, Room(st), |EncExpr(e)|, 5
  {
    hide Safe, Keeps, AllFit;
    if |words| != 1 {
      SafeLine(st, SkipLine(st.line, e), k);
    } else {
      var key := w.rename(words[0]);
      if t == REPLACE {
        ExpandJoinedSafe(w, b, st, e, [], k);
        var g := ExpandJoined(w, b, st, e, []);
        if !Fatal(g.vr) && IsSubstitution(g.list[0]) {
          SafeFits(st, g.st, g.vr, k);
          var value := w.substitute(Meaning(g.st.frames, key), g.list[0]);
          HookedSafe(w, g.st, key, value, k);
          SafeAfter(st, g.st, g.vr, Hooked(w, SetVar(g.st, key, value), key), ReturnTrue, k);
        }
      } else {
        ExpandSafe(w, b, st, e, Acc([], false), false, k);
        var g := ExpandList(w, b, st, e, []);
        if !Fatal(g.vr) {
          SafeFits(st, g.st, g.vr, k);
          var value := Assigned(t, Meaning(g.st.frames, key), g.list);
          HookedSafe(w, g.st, key, value, k);
          SafeAfter(st, g.st, g.vr, Hooked(w, SetVar(g.st, key, value), key), ReturnTrue, k);
        }
      }
    }
  }

  lemma {:induction false} RunRoundsSafe(w: World, b: nat, st: State, body: seq<Item>, variable: Key, endless: bool,
                                         list: Values, vr: Visit, nest: Nesting, k: Known)
    requires AllFit(st, k) && Fits(body, nest, k) && Plain(vr)
    ensures var r := RunRounds(w, b, st, body, variable, endless, list, vr);
      Safe(st, r.st, r.vr, k) && r.vr != ReturnBreak && r.vr != ReturnNext
    decreases b, Room(st), |EncItems(body)|, 2, |list|
  {
    hide Safe, Keeps, AllFit;
    if list == [] {
      SafeTop(st, st, vr, k);
    } else {
      var bound := Bind(st, variable, endless, list[0]);
      SafeTop(st, bound, ReturnTrue, k);
      SafeFits(st, bound, ReturnTrue, k);
      RunItemsSafe(w, b, bound, body, [], START, nest, k);
      var r := RunItems(w, b, bound, body, [], START);
      SafeAfter(st, bound, ReturnTrue, r.st, r.vr, k);
      SafeFits(st, r.st, r.vr, k);
      if r.vr == ReturnBreak {
        SafeTop(r.st, r.st, ReturnTrue, k);
        SafeAfter(st, r.st, r.vr, r.st, ReturnTrue, k);
      } else if Plain(r.vr) || r.vr == ReturnNext {
        var vr' := if r.vr == ReturnFalse then ReturnFalse else ReturnTrue;
        RunRoundsSafe(w, b, r.st, body, variable, endless, list[1..], vr', nest, k);
        var r' := RunRounds(w, b, r.st, body, variable, endless, list[1..], vr');
        SafeAfter(st, r.st, r.vr, r'.st, r'.vr, k);
      }
    }
  }

  lemma {:induction false} RunLoopSafe(w: World, b: nat, st: State, name: Key, list: Expr, body: seq<Item>,
                                       nest: Nesting, k: Known)
    requires AllFit(st, k) && Fits(body, nest, k)
    ensures var r := RunLoop(w, b, st, name, list, body);
      Safe(st, r.st, r.vr, k) && r.vr != ReturnBreak && r.vr != ReturnNext
    decreases b, Room(st), |EncExpr(list)| + |EncItems(body)|, 3
  {
    hide Safe, Keeps, AllFit;
    ExpandJoinedSafe(w, b, st, list, [], k);
    var g := ExpandJoined(w, b, st, list, []);
    if !Fatal(g.vr) {
      SafeFits(st, g.st, g.vr, k);
      if name == [] && g.list[0] != Units("ever") {
        SafeTop(g.st, g.st, ReturnFalse, k);
        SafeAfter(st, g.st, g.vr, g.st, ReturnFalse, k);
      } else {
        var it := if name == [] then Units("forever") else g.list[0];
        var variable := LoopName(w, name);
        var endless, values := Endless(g.st, it), Rounds(w, g.st, it);
        RunRoundsSafe(w, b, g.st, body, variable, endless, values, ReturnTrue, nest, k);
        var r := RunRounds(w, b, g.st, body, variable, endless, values, ReturnTrue);
        SafeAfter(st, g.st, g.vr, r.st, r.vr, k);
        if variable != [] {
          SafeReset(st, r.st, r.vr, variable, Meaning(g.st.frames, variable), k);
        }
      }
    }
  }

  /** No loop ends in a jump, whatever its body is. */
  lemma LoopEndsInNoJump(w: World, b: nat, st: State, name: Key, list: Expr, body: seq<Item>)
    ensures var r := RunLoop(w, b, st, name, list, body); r.vr != ReturnBreak && r.vr != ReturnNext
  {
    RunLoopSafe(w, b, st, name, list, body, NEST_NONE, Known(false, false));
  }

  lemma SafeReset(a: State, b: State, vr: Visit, variable: Key, list: Values, k: Known)
    requires Safe(a, b, vr, k)
    ensures Safe(a, SetVar(b, variable, list), vr, k)
  {
    SafeTop(b, SetVar(b, variable, list), ReturnTrue, k);
    SafeAfter(a, b, vr, SetVar(b, variable, list), ReturnTrue, k);
  }

  lemma {:induction false} RunSubSafe(w: World, b: nat, st: State, sub: Sub, nest: Nesting, k: Known)
    requires AllFit(st, k) && (k.placed ==> NestedSub(sub, nest)) && (k.plain ==> NoBypassSub(sub))
    ensures var r := RunSub(w, b, st, sub); Safe(st, r.st, r.vr, k) && (k.placed ==> Ends(r.vr, nest))
    decreases b, Room(st), |EncSub(sub)|, 0
  {
    match sub
    case Absent => SafeTop(st, st, ReturnTrue, k);
    case Present(body) =>
      assert |EncSub(sub)| == |EncItems(body)| + 3;
      RunItemsSafe(w, b, st, body, [], START, nest, k);
  }

  /** A block that bypasses nesting changes no frame but the bottom one. */
  lemma {:induction false} RunBypassedSafe(w: World, b: nat, st: State, body: seq<Item>, nest: Nesting, k: Known)
    requires AllFit(st, k) && Fits(body, nest, k) && !k.plain
    ensures var r := RunBypassed(w, b, st, body);
      && r.st.frames[1..] == st.frames[1..] && Height(r.st) == Height(st)
      && Safe(st, r.st, r.vr, k) && (k.placed ==> Ends(r.vr, nest))
    decreases b, Room(st), |EncItems(body)|, 2
  {
    if b > 0 {
      var low := st.(frames := [st.frames[0]]);
      RunItemsSafe(w, b - 1, low, body, [], START, nest, k);
      BypassKeeps(st, RunItems(w, b - 1, low, body, [], START).st);
    } else {
      KeepsTop(st, st, false);
    }
  }

  lemma DefineSafe(st: State, t: DefTok, name: Key, body: seq<Item>, k: Known)
    requires AllFit(st, k) && Fits(body, NEST_FUNCTION, k)
    ensures Safe(st, Define(st, t, name, body), ReturnTrue, k)
  {
    KeepsTop(st, Define(st, t, name, body), k.plain);
  }

  lemma {:induction false} StepWordsSafe(w: World, b: nat, st: State, item: Item, words: Values, c: Chain,
                                         k: Known)
    requires AllFit(st, k) && HasExpr(item)
    ensures var s := StepWords(w, b, st, item, words, c);
      Safe(st, s.st, StepEnd(s), k) && (k.placed ==> StepEnd(s) != ReturnBreak && StepEnd(s) != ReturnNext)
    decreases b, Room(st), |EncItem(item)| - 1, 1
  {
    ItemSize(item);
    match item
    case Cond(_) => SafeTop(st, st, ReturnTrue, k);
    case Call(_, args) => TestCallSafe(w, b, st, c, words, args, k);
    case Ret(_) =>
      SafeTop(st, st.(returnValue := words), ReturnTrue, k);
    case Assign(_, t, _, value) => AssignmentSafe(w, b, st, t, words, value, k);
  }

  lemma {:induction false} StepBlockSafe(w: World, b: nat, st: State, item: Item, c: Chain, nest: Nesting,
                                         k: Known)
    requires AllFit(st, k) && !HasExpr(item)
    requires (k.placed ==> NestedItem(item, nest)) && (k.plain ==> NoBypassItem(item))
    ensures var s := StepBlock(w, b, st, item, c);
      Safe(st, s.st, StepEnd(s), k) && (k.placed ==> Ends(StepEnd(s), nest))
    decreases b, Room(st), |EncItem(item)| - 1, 1
  {
    hide Keeps, AllFit, RunLoop, RunBypassed, RunSub;
    ItemSize(item);
    match item
    case Line(n) => SafeLine(st, n, k);
    case Op(_) => SafeTop(st, st, ReturnTrue, k);
    case Jump(t) =>
      SafeTop(st, st, ReturnTrue, k);
      SafeAny(st, st, ReturnTrue, if t == BREAK then ReturnBreak else ReturnNext, k);
    case Branch(thn, els) => RunSubSafe(w, b, st, if c.okey then thn else els, nest, k);
    case For(_, _, name, list, body) =>
      if Due(c) {
        RunLoopSafe(w, b, st, name, list, body, nest.(inLoop := true), k);
      } else {
        SafeTop(st, st, ReturnTrue, k);
      }
    case Def(t, _, _, name, body) =>
      if Due(c) {
        DefineSafe(st, t, name, body, k);
      } else {
        SafeTop(st, st, ReturnTrue, k);
      }
    case Bypass(body) =>
      if Due(c) {
        RunBypassedSafe(w, b, st, body, nest, k);
      } else {
        SafeTop(st, st, ReturnTrue, k);
      }
  }

  lemma {:induction false} RunItemsSafe(w: World, b: nat, st: State, items: seq<Item>, curr: Values, c: Chain,
                                        nest: Nesting, k: Known)
    requires AllFit(st, k) && Fits(items, nest, k)
    ensures var r := RunItems(w, b, st, items, curr, c); Safe(st, r.st, r.vr, k) && (k.placed ==> Ends(r.vr, nest))
    decreases b, Room(st), |EncItems(items)|, 1
  {
    hide Safe, Keeps, AllFit;
    if items == [] {
      SafeTop(st, st, ReturnBool(c.okey), k);
    } else {
      ItemSize(items[0]);
      StepItemSafe(w, b, st, items[0], curr, c, nest, k);
      match StepItem(w, b, st, items[0], curr, c)
      case Halt(_, _) =>
      case Go(st', c') =>
        SafeFits(st, st', ReturnTrue, k);
        RunItemsSafe(w, b, st', items[1..], [], c', nest, k);
        var r := RunItems(w, b, st', items[1..], [], c');
        SafeAfter(st, st', ReturnTrue, r.st, r.vr, k);
    }
  }

  lemma {:induction false} StepItemSafe(w: World, b: nat, st: State, item: Item, curr: Values, c: Chain,
                                        nest: Nesting, k: Known)
    requires AllFit(st, k) && (k.placed ==> NestedItem(item, nest)) && (k.plain ==> NoBypassItem(item))
    ensures var s := StepItem(w, b, st, item, curr, c);
      Safe(st, s.st, StepEnd(s), k) && (k.placed ==> Ends(StepEnd(s), nest))
    decreases b, Room(st), |EncItem(item)|, 0
  {
    hide Safe, Keeps, AllFit;
    ItemSize(item);
    if HasExpr(item) {
      ExpandSafe(w, b, st, item.e, Acc(curr, false), false, k);
      var g := ExpandList(w, b, st, item.e, curr);
      if !Fatal(g.vr) {
        SafeFits(st, g.st, g.vr, k);
        StepWordsSafe(w, b, g.st, item, g.list, c, k);
        var s := StepWords(w, b, g.st, item, g.list, c);
        SafeAfter(st, g.st, g.vr, s.st, StepEnd(s), k);
      }
    } else {
      StepBlockSafe(w, b, st, item, c, nest, k);
    }
  }
}
