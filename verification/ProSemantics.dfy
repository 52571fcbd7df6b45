/** What a project file means: the evaluator's operations on trees. Functions are stored as bodies
    here, as positions in the token stream in the evaluator itself. */
module ProSemantics {
  import opened ProTokens
  import opened TokenWalk
  import opened VarStack
  import opened ExprValues
  import opened ConditionChain

  datatype Visit =
    | ReturnFalse | ReturnTrue | ReturnError | ReturnBreak | ReturnNext | ReturnReturn
    | Stuck // blocks that bypass nesting are nested deeper than the budget allows

  datatype Verdict = No | Yes | Abort

  datatype Outcome = Outcome(verdict: Verdict, top: Frame, list: Values)

  datatype Kind = Export | Unset | Clear | Defined | Other

  datatype Builtin = Builtin(kind: Kind, minArgs: nat, maxArgs: nat)

  datatype Parsed = NotANumber | Number(value: int)

  /** What the evaluator keeps of QMAKE_DIR_SEP and QMAKESPEC when they are assigned. */
  datatype Paths = Paths(dirSep: Chars, spec: Chars, specName: Chars)

  /** What the evaluator asks of its surroundings. A builtin function may replace the top frame. */
  datatype World = World(
    env: Chars -> Chars,
    property: Chars -> Chars,
    rename: Key -> Key,
    config: (Paths, Stack, Chars) -> bool,
    isAbsolutePath: Chars -> bool,
    fileName: Chars -> Chars,
    toInt: Chars -> Parsed,
    substitute: (Values, Chars) -> Values,
    tests: map<Key, Builtin>,
    expands: map<Key, Builtin>,
    test: (Paths, Key, Values, Stack) -> Outcome,
    expand: (Paths, Key, Values, Stack) -> Outcome,
    userTemplate: Chars,
    templatePrefix: Chars)

  /** `exported` is a history variable: the variables moved to the bottom frame so far, in order. */
  datatype State = State(
    frames: Stack,
    testDefs: map<Key, seq<Item>>,
    replaceDefs: map<Key, seq<Item>>,
    returnValue: Values,
    line: Unit,
    exported: seq<Key>,
    paths: Paths)

  datatype Got = Got(vr: Visit, st: State, acc: Acc)
  datatype Listed = Listed(vr: Visit, st: State, list: Values)
  datatype Gathered = Gathered(vr: Visit, st: State, args: seq<Values>)
  datatype Run = Run(vr: Visit, st: State)
  datatype Step = Go(st: State, chain: Chain) | Halt(vr: Visit, st: State)

  const MAX_DEPTH := 100
  const MAX_ROUNDS := 1000

  function Units(s: string): (r: Chars)
    ensures |r| == |s|
  {
    seq(|s|, i requires 0 <= i < |s| => s[i] as int % 0x10000)
  }

  function Digits(n: nat): Chars {
    (if n < 10 then [] else Digits(n / 10)) + [48 + n % 10]
  }

  function Decimal(n: int): Chars { if n < 0 then Units("-") + Digits(-n) else Digits(n) }

  function Height(st: State): nat { |st.frames| }

  /** The stack has its height again, and no function was forgotten. */
  predicate Extends(a: State, b: State) {
    Height(a) == Height(b) && a.testDefs.Keys <= b.testDefs.Keys && a.replaceDefs.Keys <= b.replaceDefs.Keys
  }

  function Room(st: State): nat { if Height(st) < MAX_DEPTH then MAX_DEPTH - Height(st) else 0 }

  predicate Fatal(vr: Visit) { vr == ReturnError || vr == Stuck }

  predicate Plain(vr: Visit) { vr == ReturnTrue || vr == ReturnFalse }

  function ReturnBool(b: bool): Visit { if b then ReturnTrue else ReturnFalse }

  function Verdicted(v: Verdict): Visit {
    match v case No => ReturnFalse case Yes => ReturnTrue case Abort => ReturnError
  }

  function SetVar(st: State, key: Key, list: Values): (r: State)
    ensures Extends(st, r)
  {
    st.(frames := SetTop(st.frames, key, Val(list)))
  }

  function SetTopFrame(st: State, top: Frame): (r: State)
    ensures Extends(st, r)
  {
    st.(frames := st.frames[|st.frames| - 1 := top])
  }

  // ---- expressions

  /** A token flagged as the start of a new string ends the pending one. */
  function Started(acc: Acc, flags: Flags): Acc { if flags >= 2 then acc.(pending := false) else acc }

  function AddPlain(w: World, acc: Acc, t: StrTok, flags: Flags, text: Text, joined: bool): (r: Acc)
    requires Open(acc, joined)
    ensures Open(r, joined) && (joined ==> |r.ret| == |acc.ret|)
  {
    AddStr(Started(acc, flags), if t == LITERAL then text else w.env(text), joined)
  }

  function AddHashed(w: World, st: State, acc: Acc, t: HashTok, flags: Flags, text: Text, joined: bool): (r: Acc)
    requires Open(acc, joined)
    ensures Open(r, joined) && (joined ==> |r.ret| == |acc.ret|)
  {
    if t == HASH_LITERAL then AddStr(Started(acc, flags), text, joined)
    else if t == VARIABLE then
      AddStrList(Started(acc, flags), Meaning(st.frames, w.rename(text)), flags % 2 == 1, joined)
    else AddStr(Started(acc, flags), w.property(text), joined)
  }

  /** The current line follows the line marks even where nothing is evaluated. */
  function SkipLine(line: Unit, e: Expr): Unit
    decreases e
  {
    match e
    case End => line
    case LineMark(n, rest) => SkipLine(n, rest)
    case Str(_, _, _, rest) => SkipLine(line, rest)
    case Hashed(_, _, _, _, _, rest) => SkipLine(line, rest)
    case Func(_, _, _, _, args, rest) => SkipLine(SkipLine(line, args), rest)
    case Sep(rest) => SkipLine(line, rest)
  }

  function Skip(st: State, e: Expr): State { st.(line := SkipLine(st.line, e)) }

  function Expand(w: World, b: nat, st: State, e: Expr, acc: Acc, joined: bool): (r: Got)
    requires Open(acc, joined)
    ensures Extends(st, r.st)
    ensures Open(r.acc, joined) && (joined ==> |r.acc.ret| == |acc.ret|)
    ensures r.vr == ReturnTrue || Fatal(r.vr)
    decreases b, Room(st), |EncExpr(e)|, 0
  {
    match e
    case End => Got(ReturnTrue, st, acc)
    case Sep(_) => Got(ReturnTrue, st, acc)
    case LineMark(n, rest) => Expand(w, b, st.(line := n), rest, acc, joined)
    case Str(t, f, text, rest) => Expand(w, b, st, rest, AddPlain(w, acc, t, f, text, joined), joined)
    case Hashed(t, f, _, _, text, rest) =>
      Expand(w, b, st, rest, AddHashed(w, st, acc, t, f, text, joined), joined)
    case Func(f, _, _, name, args, rest) =>
      var c := CallExpand(w, b, st, name, args);
      if Fatal(c.vr) then Got(c.vr, c.st, Started(acc, f))
      else Expand(w, b, c.st, rest, AddStrList(Started(acc, f), c.list, f % 2 == 1, joined), joined)
  }

  /** An expression without separators as a list of words. */
  function ExpandList(w: World, b: nat, st: State, e: Expr, ret: Values): (r: Listed)
    ensures Extends(st, r.st) && (r.vr == ReturnTrue || Fatal(r.vr))
    decreases b, Room(st), |EncExpr(e)|, 1
  {
    var g := Expand(w, b, st, e, Acc(ret, false), false);
    Listed(g.vr, g.st, g.acc.ret)
  }

  /** Each part between separators as one string. */
  function ExpandJoined(w: World, b: nat, st: State, e: Expr, ret: Values): (r: Listed)
    ensures Extends(st, r.st) && (r.vr == ReturnTrue || Fatal(r.vr))
    ensures r.vr == ReturnTrue ==> |r.list| == |ret| + Seps(e) + 1
    decreases b, Room(st), |EncExpr(e)|, 2
  {
    var g := Expand(w, b, st, e, Acc(ret + [[]], false), true);
    if Fatal(g.vr) || Rest(e).End? then Listed(g.vr, g.st, g.acc.ret)
    else ExpandJoined(w, b, g.st, Rest(e).rest, g.acc.ret)
  }

  function ExpandParts(w: World, b: nat, st: State, e: Expr, ret: Values, joined: bool): (r: Listed)
    ensures Extends(st, r.st) && (r.vr == ReturnTrue || Fatal(r.vr))
    decreases b, Room(st), |EncExpr(e)|, 3
  {
    if joined then ExpandJoined(w, b, st, e, ret) else ExpandList(w, b, st, e, ret)
  }

  /** Each part between separators as a list; no part at all if there is nothing. */
  function ExpandArgs(w: World, b: nat, st: State, e: Expr, args: seq<Values>): (r: Gathered)
    ensures Extends(st, r.st) && (r.vr == ReturnTrue || Fatal(r.vr))
    decreases b, Room(st), |EncExpr(e)|, 2
  {
    var g := Expand(w, b, st, e, Acc([], false), false);
    if Fatal(g.vr) then Gathered(g.vr, g.st, args)
    else if Rest(e).End? then Gathered(ReturnTrue, g.st, args + [g.acc.ret])
    else ExpandArgs(w, b, g.st, Rest(e).rest, args + [g.acc.ret])
  }

  function PrepareArgs(w: World, b: nat, st: State, e: Expr): (r: Gathered)
    ensures Extends(st, r.st) && (r.vr == ReturnTrue || Fatal(r.vr))
    decreases b, Room(st), |EncExpr(e)|, 3
  {
    if e.End? then Gathered(ReturnTrue, st, []) else ExpandArgs(w, b, st, e, [])
  }

  // ---- calls

  function ArgFrame(args: seq<Values>): Frame {
    if args == [] then map[]
    else ArgFrame(args[..|args| - 1])[Decimal(|args|) := Val(args[|args| - 1])]
  }

  function Concat(args: seq<Values>): Values {
    if args == [] then [] else Concat(args[..|args| - 1]) + args[|args| - 1]
  }

  /** The frame in which a function starts. */
  function NewFrame(args: seq<Values>): Frame {
    ArgFrame(args)[Units("ARGS") := Val(Concat(args))][Units("ARGC") := Val([Decimal(|args|)])]
  }

  /** A function may leave the current line and the returned value of the caller in any state: both are reset. */
  function CallFunction(w: World, b: nat, st: State, body: seq<Item>, args: seq<Values>): (r: Listed)
    ensures Extends(st, r.st)
    decreases b, Room(st), 0, 0
  {
    if Height(st) >= MAX_DEPTH then Listed(ReturnError, st, [])
    else
      var r := RunItems(w, b, st.(frames := st.frames + [NewFrame(args)], line := 0), body, [], START);
      var vr := if r.vr == ReturnReturn then ReturnTrue else r.vr;
      Listed(vr, r.st.(frames := Pop(r.st.frames), line := st.line, returnValue := []),
             if vr == ReturnTrue then r.st.returnValue else [])
  }

  /** What a test function's returned list says. */
  function Truth(w: World, list: Values): bool {
    list == [] || (list[0] != Units("false") &&
                   (list[0] == Units("true") ||
                    match w.toInt(list[0]) case NotANumber => false case Number(n) => n != 0))
  }

  function ArgCount(args: Values): nat
    requires args != []
  {
    if |args| > 1 then |args| else if args[0] == [] then 0 else 1
  }

  /** Is there a function, or a variable, of this name? Unless it is said what to look for, any function will do. */
  predicate IsDefined(st: State, args: Values)
    requires args != []
  {
    if |args| == 1 then args[0] in st.testDefs || args[0] in st.replaceDefs
    else if args[1] == Units("test") then args[0] in st.testDefs
    else if args[1] == Units("replace") then args[0] in st.replaceDefs
    else args[1] == Units("var") && Found(st.frames, args[0]) >= 0
  }

  function ApplyTest(w: World, st: State, def: Builtin, key: Key, args: Values): (r: Run)
    requires args != []
    ensures Extends(st, r.st) && (Plain(r.vr) || r.vr == ReturnError)
  {
    var name := w.rename(args[0]);
    if !(def.minArgs <= ArgCount(args) <= def.maxArgs) then Run(ReturnFalse, st)
    else
      match def.kind
      case Export =>
        Run(ReturnTrue, st.(frames := Exported(st.frames, name), exported := st.exported + [name]))
      case Unset => Run(ReturnBool(Found(st.frames, name) >= 0), st.(frames := Dropped(st.frames, name)))
      case Defined => Run(ReturnBool(IsDefined(st, args)), st)
      case Clear => Run(ReturnBool(Found(st.frames, name) >= 0), st.(frames := Cleared(st.frames, name)))
      case Other =>
        var out := w.test(st.paths, key, args, st.frames);
        Run(Verdicted(out.verdict), SetTopFrame(st, out.top))
  }

  function ApplyExpand(w: World, st: State, def: Builtin, key: Key, args: Values): (r: Listed)
    requires args != []
    ensures Extends(st, r.st) && (Plain(r.vr) || r.vr == ReturnError)
  {
    if !(def.minArgs <= ArgCount(args) <= def.maxArgs) then Listed(ReturnTrue, st, [])
    else
      var out := w.expand(st.paths, key, args, st.frames);
      Listed(Verdicted(out.verdict), SetTopFrame(st, out.top), out.list)
  }

  function CallTest(w: World, b: nat, st: State, key: Key, e: Expr): (r: Run)
    ensures Extends(st, r.st)
    decreases b, Room(st), |EncExpr(e)|, 4
  {
    if key in w.tests then
      var g := ExpandJoined(w, b, st, e, []);
      if Fatal(g.vr) then Run(g.vr, g.st) else ApplyTest(w, g.st, w.tests[key], key, g.list)
    else if key in st.testDefs then
      var g := PrepareArgs(w, b, st, e);
      if Fatal(g.vr) then Run(g.vr, g.st)
      else
        var c := CallFunction(w, b, g.st, g.st.testDefs[key], g.args);
        Run(if c.vr == ReturnTrue then ReturnBool(Truth(w, c.list)) else c.vr, c.st)
    else Run(ReturnFalse, Skip(st, e))
  }

  function CallExpand(w: World, b: nat, st: State, key: Key, e: Expr): (r: Listed)
    ensures Extends(st, r.st)
    decreases b, Room(st), |EncExpr(e)|, 4
  {
    if key in w.expands then
      var g := ExpandJoined(w, b, st, e, []);
      if Fatal(g.vr) then Listed(g.vr, g.st, []) else ApplyExpand(w, g.st, w.expands[key], key, g.list)
    else if key in st.replaceDefs then
      var g := PrepareArgs(w, b, st, e);
      if Fatal(g.vr) then Listed(g.vr, g.st, []) else CallFunction(w, b, g.st, g.st.replaceDefs[key], g.args)
    else Listed(ReturnFalse, Skip(st, e), [])
  }

  // ---- items

  predicate Active(w: World, paths: Paths, frames: Stack, word: Chars) {
    word == Units("true") || (word != Units("false") && w.config(paths, frames, word))
  }

  /** A block ran: the next test is due, whatever stood in front of the block. */
  function Resume(vr: Visit, st: State, c: Chain): Step {
    if Plain(vr) then Go(st, c.(okey := true, orOp := false)) else Halt(vr, st)
  }

  function Leave(vr: Visit, st: State, c: Chain): Step {
    if Due(c) then Halt(vr, st) else Go(st, c.(okey := false, orOp := true))
  }

  function Condition(w: World, st: State, c: Chain, words: Values): Chain {
    if !Due(c) then Skipped(c)
    else if |words| != 1 then Invalid(c)
    else Tested(c, Active(w, st.paths, st.frames, words[0]))
  }

  function TestCall(w: World, b: nat, st: State, c: Chain, words: Values, e: Expr): (r: Step)
    ensures Extends(st, r.st)
    decreases b, Room(st), |EncExpr(e)|, 5
  {
    if !Due(c) then Go(Skip(st, e), Skipped(c))
    else if |words| != 1 then Go(Skip(st, e), Invalid(c))
    else
      var r := CallTest(w, b, st, words[0], e);
      if Plain(r.vr) then Go(r.st, Tested(c, r.vr == ReturnTrue)) else Halt(r.vr, r.st)
  }

  function Count(s: Chars, c: Unit): nat {
    if s == [] then 0 else Count(s[..|s| - 1], c) + if s[|s| - 1] == c then 1 else 0
  }

  /** `s/pattern/with/` or `s/pattern/with/flags`, with any separator. */
  predicate IsSubstitution(val: Chars) { |val| >= 4 && val[0] == 115 && 2 <= Count(val, val[1]) <= 3 }

  function Template(w: World, list: Values): (r: Values)
    ensures |r| == 1
  {
    var one := if w.userTemplate != [] then [w.userTemplate]
               else if list == [] then [Units("app")]
               else list[..1];
    if w.templatePrefix <= one[0] then one else [w.templatePrefix + one[0]]
  }

  function First(list: Values): Chars { if list == [] then [] else list[0] }

  /** A new specification counts only if it is an absolute path. */
  function WithSpec(w: World, paths: Paths, list: Values): Paths {
    if list != [] && w.isAbsolutePath(list[0]) then paths.(spec := list[0], specName := w.fileName(list[0])) else paths
  }

  /** The kind of a project is always one word; separator and specification are kept aside. */
  function Hooked(w: World, st: State, key: Key): (r: State)
    ensures Extends(st, r)
  {
    var list := Meaning(st.frames, key);
    if key == Units("TEMPLATE") then SetVar(st, key, Template(w, list))
    else if key == Units("QMAKE_DIR_SEP") then st.(paths := st.paths.(dirSep := First(list)))
    else if key == Units("QMAKESPEC") then st.(paths := WithSpec(w, st.paths, list))
    else st
  }

  /** The new value of a variable. */
  function Assigned(t: AssignTok, list: Values, value: Values): Values
    requires t != REPLACE
  {
    if t == APPEND_UNIQUE then InsertUnique(list, value)
    else if t == APPEND then list + RemoveEmpty(value)
    else if t == REMOVE then RemoveEach(list, value)
    else RemoveEmpty(value)
  }

  function Assignment(w: World, b: nat, st: State, t: AssignTok, words: Values, e: Expr): (r: Run)
    ensures Extends(st, r.st) && (r.vr == ReturnTrue || Fatal(r.vr))
    decreases b, Room(st), |EncExpr(e)|, 5
  {
    if |words| != 1 then Run(ReturnTrue, Skip(st, e))
    else
      var key := w.rename(words[0]);
      if t == REPLACE then
        var g := ExpandJoined(w, b, st, e, []);
        if Fatal(g.vr) then Run(g.vr, g.st)
        else if !IsSubstitution(g.list[0]) then Run(ReturnTrue, g.st)
        else
          var st' := SetVar(g.st, key, w.substitute(Meaning(g.st.frames, key), g.list[0]));
          Run(ReturnTrue, Hooked(w, st', key))
      else
        var g := ExpandList(w, b, st, e, []);
        if Fatal(g.vr) then Run(g.vr, g.st)
        else
          var st' := SetVar(g.st, key, Assigned(t, Meaning(g.st.frames, key), g.list));
          Run(ReturnTrue, Hooked(w, st', key))
  }

  function RunSub(w: World, b: nat, st: State, sub: Sub): (r: Run)
    ensures Extends(st, r.st)
    decreases b, Room(st), |EncSub(sub)|, 0
  {
    match sub
    case Absent => Run(ReturnTrue, st)
    case Present(body) =>
      assert |EncSub(sub)| == |EncItems(body)| + 3;
      RunItems(w, b, st, body, [], START)
  }

  function Define(st: State, t: DefTok, name: Key, body: seq<Item>): State {
    if t == TEST_DEF then st.(testDefs := st.testDefs[name := body])
    else st.(replaceDefs := st.replaceDefs[name := body])
  }

  /** Run a block in the bottom frame only. */
  function RunBypassed(w: World, b: nat, st: State, body: seq<Item>): (r: Run)
    ensures Extends(st, r.st)
    decreases b, Room(st), |EncItems(body)|, 2
  {
    if b == 0 then Run(Stuck, st)
    else
      var r := RunItems(w, b - 1, st.(frames := [st.frames[0]]), body, [], START);
      Run(r.vr, r.st.(frames := st.frames[0 := r.st.frames[0]]))
  }

  function IndexOfDots(s: Chars): (i: int)
    ensures -1 <= i && (i >= 0 ==> i + 2 <= |s|)
  {
    if |s| < 2 then -1
    else if s[0] == 46 && s[1] == 46 then 0
    else
      var i := IndexOfDots(s[1..]);
      if i < 0 then -1 else i + 1
  }

  function Numbers(first: int, last: int): Values
    decreases if first < last then last - first else first - last
  {
    if first == last then [Decimal(first)]
    else [Decimal(first)] + Numbers(if first < last then first + 1 else first - 1, last)
  }

  /** The numbers that `first..last` stands for. */
  function Range(w: World, it: Chars): Values {
    var dots := IndexOfDots(it);
    if dots < 0 then []
    else
      var first, last := w.toInt(it[..dots]), w.toInt(it[dots + 2..]);
      if first.Number? && last.Number? then Numbers(first.value, last.value) else []
  }

  /** The first `n` numbers. */
  function Upto(n: nat): (r: Values)
    ensures |r| == n && forall i | 0 <= i < n :: r[i] == Decimal(i)
  {
    if n == 0 then [] else Upto(n - 1) + [Decimal(n - 1)]
  }

  function LoopName(w: World, name: Key): Key { if name == [] then [] else w.rename(name) }

  predicate Endless(st: State, it: Chars) { it == Units("forever") && Meaning(st.frames, it) == [] }

  /** The values of the loop variable, round by round. */
  function Rounds(w: World, st: State, it: Chars): Values {
    if Endless(st, it) then Upto(MAX_ROUNDS)
    else RemoveEmpty(if Meaning(st.frames, it) != [] then Meaning(st.frames, it) else Range(w, it))
  }

  function RunLoop(w: World, b: nat, st: State, name: Key, list: Expr, body: seq<Item>): (r: Run)
    ensures Extends(st, r.st)
    decreases b, Room(st), |EncExpr(list)| + |EncItems(body)|, 3
  {
    var g := ExpandJoined(w, b, st, list, []);
    if Fatal(g.vr) then Run(g.vr, g.st)
    else if name == [] && g.list[0] != Units("ever") then Run(ReturnFalse, g.st)
    else
      var it := if name == [] then Units("forever") else g.list[0];
      var variable := LoopName(w, name);
      var r := RunRounds(w, b, g.st, body, variable, Endless(g.st, it), Rounds(w, g.st, it), ReturnTrue);
      if variable == [] then r
      else Run(r.vr, SetVar(r.st, variable, Meaning(g.st.frames, variable)))
  }

  function Bind(st: State, variable: Key, endless: bool, value: Chars): (r: State)
    ensures Extends(st, r)
  {
    if endless && variable == [] then st else SetVar(st, variable, [value])
  }

  /** `vr` is the outcome of the round before. */
  function RunRounds(w: World, b: nat, st: State, body: seq<Item>, variable: Key, endless: bool, list: Values,
                     vr: Visit): (r: Run)
    ensures Extends(st, r.st)
    decreases b, Room(st), |EncItems(body)|, 2, |list|
  {
    if list == [] then Run(vr, st)
    else
      var r := RunItems(w, b, Bind(st, variable, endless, list[0]), body, [], START);
      match r.vr
      case ReturnBreak => Run(ReturnTrue, r.st)
      case ReturnNext => RunRounds(w, b, r.st, body, variable, endless, list[1..], ReturnTrue)
      case ReturnTrue => RunRounds(w, b, r.st, body, variable, endless, list[1..], ReturnTrue)
      case ReturnFalse => RunRounds(w, b, r.st, body, variable, endless, list[1..], ReturnFalse)
      case _ => r
  }

  lemma ItemSize(item: Item)
    ensures |EncItem(item)| > 0
    ensures HasExpr(item) ==> |EncExpr(item.e)| < |EncItem(item)|
    ensures item.Call? ==> |EncExpr(item.args)| < |EncItem(item)|
    ensures item.Assign? ==> |EncExpr(item.value)| < |EncItem(item)|
    ensures item.Branch? ==> |EncSub(item.thn)| < |EncItem(item)| && |EncSub(item.els)| < |EncItem(item)|
    ensures item.For? ==> |EncExpr(item.list)| + |EncItems(item.body)| < |EncItem(item)|
    ensures item.Def? || item.Bypass? ==> |EncItems(item.body)| < |EncItem(item)|
  {
  }

  function StepItem(w: World, b: nat, st: State, item: Item, curr: Values, c: Chain): (r: Step)
    ensures Extends(st, r.st)
    decreases b, Room(st), |EncItem(item)|, 0
  {
    ItemSize(item);
    if HasExpr(item) then
      var g := ExpandList(w, b, st, item.e, curr);
      if Fatal(g.vr) then Halt(g.vr, g.st) else StepWords(w, b, g.st, item, g.list, c)
    else StepBlock(w, b, st, item, c)
  }

  function StepWords(w: World, b: nat, st: State, item: Item, words: Values, c: Chain): (r: Step)
    requires HasExpr(item)
    ensures Extends(st, r.st)
    decreases b, Room(st), |EncItem(item)| - 1, 1
  {
    ItemSize(item);
    match item
    case Cond(_) => Go(st, Condition(w, st, c, words))
    case Call(_, args) => TestCall(w, b, st, c, words, args)
    case Ret(_) => Leave(ReturnReturn, st.(returnValue := words), c)
    case Assign(_, t, _, value) =>
      var r := Assignment(w, b, st, t, words, value);
      if Fatal(r.vr) then Halt(r.vr, r.st) else Go(r.st, c)
  }

  function StepBlock(w: World, b: nat, st: State, item: Item, c: Chain): (r: Step)
    requires !HasExpr(item)
    ensures Extends(st, r.st)
    decreases b, Room(st), |EncItem(item)| - 1, 1
  {
    ItemSize(item);
    match item
    case Line(n) => Go(st.(line := n), c)
    case Op(t) => Go(st, if t == NOT then OnNot(c) else if t == AND then OnAnd(c) else OnOr(c))
    case Jump(t) => Leave(if t == BREAK then ReturnBreak else ReturnNext, st, c)
    case Branch(thn, els) =>
      var r := RunSub(w, b, st, if c.okey then thn else els);
      Resume(r.vr, r.st, c)
    case For(_, _, name, list, body) =>
      var r := if Due(c) then RunLoop(w, b, st, name, list, body) else Run(ReturnTrue, st);
      Resume(r.vr, r.st, c)
    case Def(t, _, _, name, body) => Resume(ReturnTrue, if Due(c) then Define(st, t, name, body) else st, c)
    case Bypass(body) =>
      var r := if Due(c) then RunBypassed(w, b, st, body) else Run(ReturnTrue, st);
      Resume(r.vr, r.st, c)
  }

  /** `curr` is what has been expanded of the first item so far. */
  function RunItems(w: World, b: nat, st: State, items: seq<Item>, curr: Values, c: Chain): (r: Run)
    ensures Extends(st, r.st)
    decreases b, Room(st), |EncItems(items)|, 1
  {
    if items == [] then Run(ReturnBool(c.okey), st)
    else
      ItemSize(items[0]);
      match StepItem(w, b, st, items[0], curr, c)
      case Halt(vr, st') => Run(vr, st')
      case Go(st', c') => RunItems(w, b, st', items[1..], [], c')
  }
}
