/** What the parser keeps in mind between events, counted on the events themselves: pending negations and
    operators, the line number, and the open braces. */
module ParserCounts {
  import opened ProTokens
  import opened ParserScopes

  function Opens(ev: Event): nat { if ev.OpenBrace? then 1 else 0 }

  function Closes(ev: Event): nat { if ev.CloseBrace? || (ev.Assignment? && ev.closing) then 1 else 0 }

  function Breaks(ev: Event): nat { if ev.Newline? || ev.CommentLine? || ev.Continuation? then 1 else 0 }

  /** Events that leave what is pending. */
  predicate Passes(ev: Event) { ev.Bang? || ev.CommentLine? || ev.Continuation? }

  function OpAfter(op: Operator, ev: Event): Operator {
    if ev.Colon? then AndOperator else if ev.Pipe? then OrOperator else if Passes(ev) then op else NoOperator
  }

  function BangsAfter(n: nat, ev: Event): nat { if ev.Bang? then n + 1 else if Passes(ev) then n else 0 }

  // ---- whole texts

  function OpenBraces(evs: seq<Event>): int {
    if evs == [] then 0
    else OpenBraces(evs[..|evs| - 1]) + Opens(evs[|evs| - 1]) - Closes(evs[|evs| - 1])
  }

  function LineEnds(evs: seq<Event>): nat {
    if evs == [] then 0 else LineEnds(evs[..|evs| - 1]) + Breaks(evs[|evs| - 1])
  }

  /** The exclamation marks in front of what comes next. */
  function Bangs(evs: seq<Event>): nat {
    if evs == [] then 0 else BangsAfter(Bangs(evs[..|evs| - 1]), evs[|evs| - 1])
  }

  /** The operator in front of what comes next. */
  function LastOp(evs: seq<Event>): Operator {
    if evs == [] then NoOperator else OpAfter(LastOp(evs[..|evs| - 1]), evs[|evs| - 1])
  }

  // ---- the parser keeps count

  function Braces(stack: seq<BlockScope>): nat {
    if stack == [] then 0 else Braces(stack[..|stack| - 1]) + stack[|stack| - 1].braceLevel
  }

  /** `more` more braces are open, on the same line, with nothing pending unless `pending`. */
  predicate Counts(p: Parser, q: Parser, more: int, pending: bool) {
    && Braces(q.blockstack) == Braces(p.blockstack) + more
    && q.lineNo == p.lineNo
    && q.invert == (if pending then p.invert else 0)
    && q.op == (if pending then p.op else NoOperator)
  }

  lemma SetTopCounts(p: Parser, b: BlockScope)
    requires |p.blockstack| > 0
    ensures Counts(p, SetTop(p, b), b.braceLevel - Top(p).braceLevel, true)
  {
    var n := |p.blockstack| - 1;
    assert p.blockstack[n := b][..n] == p.blockstack[..n];
  }

  lemma EnterCounts(p: Parser, special: bool, state: ScopeState)
    requires Running(p)
    ensures Counts(p, EnterScope(p, special, state), 0, true)
    ensures Top(EnterScope(p, special, state)).braceLevel == 0
  {
    var q := EnterScope(p, special, state);
    assert q.blockstack[..|q.blockstack| - 1] == p.blockstack;
  }

  lemma LeaveCounts(p: Parser)
    requires Running(p) && Top(p).braceLevel == 0
    ensures Counts(p, LeaveScope(p), 0, true) && LeaveScope(p).ok == p.ok
  {
  }

  lemma {:induction false} CloseCounts(p: Parser)
    requires Running(p)
    ensures Counts(p, CloseOneLiners(p), 0, true)
    decreases |p.blockstack|
  {
    if Top(p).braceLevel == 0 && |p.blockstack| > 1 {
      LeaveCounts(p);
      CloseCounts(LeaveScope(p));
    }
  }

  lemma FlushCounts(p: Parser)
    requires Running(p)
    ensures Counts(p, FlushScopes(p), 0, true)
  {
    hide CloseOneLiners;
    CloseCounts(p);
    var c := CloseOneLiners(p);
    SetTopCounts(c, Top(c).(inBranch := false));
  }

  lemma FlushCondCounts(p: Parser)
    requires Running(p)
    ensures Counts(p, FlushCond(p), 0, true)
  {
    hide FlushScopes, EnterScope;
    if p.state == StCond {
      var b := Put(p, [BRANCH]);
      var top := Top(b).(inBranch := true);
      SetTopCounts(b, top);
      EnterCounts(SetTop(b, top), false, StNew);
    } else {
      FlushCounts(p);
    }
  }

  lemma TestCounts(p: Parser)
    requires Running(p)
    ensures Counts(p, FinalizeTest(p), 0, false)
  {
    hide FlushScopes, Braces;
    FlushCounts(p);
  }

  lemma {:induction false} FindBranchCounts(p: Parser)
    requires Running(p) && FindBranch(p).ok
    ensures Counts(p, FindBranch(p), 0, true)
    decreases |p.blockstack|
  {
    hide LeaveScope, EnterScope;
    var top := Top(p);
    if top.inBranch && (!top.special || top.braceLevel > 0) {
      var b := top.(inBranch := false);
      SetTopCounts(p, b);
      EnterCounts(SetTop(p, b), false, StCtrl);
    } else if top.braceLevel == 0 && |p.blockstack| > 1 {
      LeaveCounts(p);
      FindBranchCounts(LeaveScope(p));
    }
  }

  lemma ElseCounts(p: Parser)
    requires Running(p) && FinalizeElse(p).ok
    ensures Counts(p, FinalizeElse(p), 0, false)
  {
    hide FindBranch, EnterScope;
    if p.canElse && (!Top(p).special || Top(p).braceLevel > 0) {
      EnterCounts(Put(p, [BRANCH] + NO_BLOCK), false, StCtrl);
    } else {
      FindBranchCounts(p);
    }
  }

  lemma CondCounts(p: Parser, words: nat, e: Expr)
    requires Running(p) && FinalizeCond(p, words, e).ok
    ensures Counts(p, FinalizeCond(p, words, e), 0, words == 0)
  {
    hide FinalizeElse, FinalizeTest, FlushScopes, EncExpr;
    if words == 1 {
      if IsElse(e) {
        ElseCounts(p);
      } else {
        TestCounts(p);
      }
    }
  }

  lemma HeadCounts(p: Parser, units: seq<Unit>, nest: Nesting)
    requires Running(p)
    ensures var s := EnterScope(Put(p, units), true, StCtrl);
      Counts(p, SetTop(s, Top(s).(nest := nest)), 0, true) && Counts(p, s, 0, true)
  {
    hide EnterScope;
    EnterCounts(Put(p, units), true, StCtrl);
    var s := EnterScope(Put(p, units), true, StCtrl);
    SetTopCounts(s, Top(s).(nest := nest));
  }

  lemma ForCounts(p: Parser, args: Expr)
    requires Running(p) && FinalizeFor(p, args).ok
    ensures Counts(p, FinalizeFor(p, args), 0, false)
  {
    hide FlushCond, EnterScope, EncForHead, LoopOf;
    var d, loop := DropColon(p), LoopOf(args);
    FlushCondCounts(d);
    if loop != [] {
      var r := PutLineMarker(FlushCond(d));
      var units := EncForHead(loop[0].h0, loop[0].h1, loop[0].name, loop[0].list);
      var s := EnterScope(Put(r, units), true, StCtrl);
      HeadCounts(r, units, Top(s).nest.(inLoop := true));
    }
  }

  lemma DefCounts(p: Parser, tok: DefTok, args: Expr)
    requires Running(p) && FinalizeDef(p, tok, args).ok
    ensures Counts(p, FinalizeDef(p, tok, args), 0, false)
  {
    hide FlushScopes, EnterScope, EncHash, HashLow, HashHigh, Braces;
    FlushCounts(p);
    var r := PutOperator(PutLineMarker(FlushScopes(p)));
    HeadCounts(r, [tok] + EncHash(HashLow(args.text), HashHigh(args.text), args.text), NEST_FUNCTION);
  }

  lemma BypassCounts(p: Parser, args: Expr)
    requires Running(p) && FinalizeBypass(p, args).ok
    ensures Counts(p, FinalizeBypass(p, args), 0, false)
  {
    hide FlushScopes, EnterScope;
    FlushCounts(p);
    HeadCounts(PutOperator(PutLineMarker(FlushScopes(p))), [BYPASS_NESTING], NEST_NONE);
  }

  lemma CallCounts(p: Parser, e: Expr, args: Expr)
    requires Running(p) && FinalizeCall(p, e, args).ok
    ensures Counts(p, FinalizeCall(p, e, args), 0, false)
  {
    hide FinalizeFor, FinalizeDef, FinalizeBypass, FinalizeTest, EncExpr, FlushScopes, Braces;
    TestCounts(p);
    match KeywordOf(e)
    case KwFor => ForCounts(p, args);
    case KwDefineReplace => DefCounts(p, REPLACE_DEF, args);
    case KwDefineTest => DefCounts(p, TEST_DEF, args);
    case KwBypass => BypassCounts(p, args);
    case _ =>
  }

  lemma CloseScopeCounts(p: Parser)
    requires Running(p) && CloseScope(p).ok
    ensures Counts(p, CloseScope(p), -1, false)
  {
    hide FlushScopes, LeaveScope;
    FlushCounts(p);
    var f := FailOperator(FlushScopes(p));
    var b := Top(f).(braceLevel := Top(f).braceLevel - 1);
    SetTopCounts(f, b);
    var d := SetTop(f, b);
    if b.braceLevel == 0 && |d.blockstack| != 1 {
      LeaveCounts(d);
    }
  }

  lemma OpenScopeCounts(p: Parser)
    requires Running(p) && OpenScope(p).ok
    ensures Counts(p, OpenScope(p), 1, false)
  {
    hide FlushCond;
    var d := FailOperator(DropColon(p));
    FlushCondCounts(d);
    var f := FlushCond(d);
    SetTopCounts(f, Top(f).(braceLevel := Top(f).braceLevel + 1));
  }

  lemma AssignmentCounts(p: Parser, words: nat, e: Expr, tok: AssignTok, valueWords: nat, value: Expr)
    requires Running(p)
    ensures Counts(p, PutAssignment(p, words, e, tok, valueWords, value), 0, false)
  {
    hide FlushCond, EncExpr, SizeHint, Braces;
    FlushCondCounts(p);
  }

  lemma StepCounts(p: Parser, ev: Event)
    requires Running(p) && Step(p, ev).ok
    ensures var q := Step(p, ev);
      && Braces(q.blockstack) == Braces(p.blockstack) + Opens(ev) - Closes(ev)
      && q.lineNo == p.lineNo + Breaks(ev)
      && q.invert == BangsAfter(p.invert, ev)
      && q.op == OpAfter(p.op, ev)
  {
    hide FinalizeCond, FinalizeCall, OpenScope, CloseScope, PutAssignment, Braces;
    match ev
    case Colon(words, e) => CondCounts(p, words, e);
    case Pipe(words, e) => CondCounts(p, words, e);
    case OpenBrace(words, e) =>
      CondCounts(p, words, e);
      OpenScopeCounts(FinalizeCond(p, words, e));
    case CloseBrace(words, e) =>
      CondCounts(p, words, e);
      CloseScopeCounts(FinalizeCond(p, words, e).(state := StNew));
    case Assignment(words, e, tok, valueWords, value, closing) =>
      AssignmentCounts(p, words, e, tok, valueWords, value);
      if closing {
        CloseScopeCounts(PutAssignment(p, words, e, tok, valueWords, value));
      }
    case Invocation(words, e, args) => CallCounts(p, e, args);
    case Newline(words, e) => CondCounts(p, words, e);
    case _ =>
  }

  /** As long as there is no error, line number, pending operator, pending negations and the number of open
      braces are what the events say. */
  lemma {:induction false} RunCounts(line: int, testGrammar: bool, evs: seq<Event>)
    requires Run(Init(line, testGrammar), evs).ok
    ensures var p := Run(Init(line, testGrammar), evs);
      && Braces(p.blockstack) == OpenBraces(evs)
      && p.lineNo == line + LineEnds(evs)
      && p.invert == Bangs(evs)
      && p.op == LastOp(evs)
  {
    if evs == [] {
    } else {
      var before := evs[..|evs| - 1];
      RunCounts(line, testGrammar, before);
      StepCounts(Run(Init(line, testGrammar), before), evs[|evs| - 1]);
    }
  }

  lemma LastLineCounts(p: Parser, words: nat, e: Expr)
    requires Running(p) && LastLine(p, words, e).ok
    ensures Braces(LastLine(p, words, e).blockstack) == Braces(p.blockstack)
  {
    hide FinalizeCond, FlushScopes;
    CondCounts(p, words, e);
    FlushCounts(WarnOperator(FinalizeCond(p, words, e)));
  }

  lemma {:induction false} LeaveAllOk(p: Parser)
    requires Safe(p)
    ensures LeaveAll(p).ok == p.ok
    decreases |p.blockstack|
  {
    if p.blockstack != [] {
      LeaveAllOk(LeaveScope(p));
    }
  }

  lemma {:induction false} RunOkBefore(p: Parser, evs: seq<Event>, n: nat)
    requires Running(p) && n <= |evs| && Run(p, evs).ok
    ensures Run(p, evs[..n]).ok
    decreases |evs|
  {
    if n == |evs| {
      assert evs[..n] == evs;
    } else {
      RunOkBefore(p, evs[..|evs| - 1], n);
      assert evs[..|evs| - 1][..n] == evs[..n];
    }
  }

  lemma ClosedCounts(p: Parser)
    requires Running(p) && CheckClosed(p).ok
    ensures Braces(p.blockstack) == 0
  {
    assert p.blockstack[..0] == [];
  }

  /** In an accepted text the braces are balanced, and none is closed before it is opened. */
  lemma {:induction false} BracesBalance(line: int, testGrammar: bool, evs: seq<Event>, words: nat, e: Expr)
    requires Parse(line, testGrammar, evs, words, e).ok
    ensures OpenBraces(evs) == 0 && forall n | 0 <= n <= |evs| :: OpenBraces(evs[..n]) >= 0
  {
    hide Run, LastLine, LeaveAll, OpenBraces, LineEnds, Bangs, LastOp, Init, Braces;
    var p := Init(line, testGrammar);
    var last := LastLine(Run(p, evs), words, e);
    LeaveAllOk(CheckClosed(last));
    RunCounts(line, testGrammar, evs);
    LastLineCounts(Run(p, evs), words, e);
    ClosedCounts(last);
    forall n | 0 <= n <= |evs| ensures OpenBraces(evs[..n]) >= 0 {
      RunOkBefore(p, evs, n);
      RunCounts(line, testGrammar, evs[..n]);
    }
  }
}
