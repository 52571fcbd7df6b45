/** The parser's stream is always the encoding of a tree with a path of blocks still open in it, and
    once the file ends without an error it is the encoding of a finished, properly nested tree
    holding exactly what the events said. */
module ParserScopesProofs {
  import opened ProTokens
  import opened ParserCounts
  import opened ParserScopes
  import opened ParserStory

  /** The construct whose block is being filled in the scope above. */
  datatype Opener =
    | InThen
    | InElse(thn: Sub)
    | InFor(h0: Unit, h1: Unit, name: Text, list: Expr)
    | InDef(def: DefTok, h0: Unit, h1: Unit, name: Text)
    | InBypass

  /** What follows the finished items of a scope: nothing, or a branch still open for an else. */
  datatype Pend = Idle | AfterThen(thn: Sub)

  datatype Zip =
    | Root(items: seq<Item>, pend: Pend)
    | Inner(up: Zip, opener: Opener, items: seq<Item>, pend: Pend)

  function EncOpener(o: Opener): (r: seq<Unit>) {
    match o
    case InThen => [BRANCH]
    case InElse(thn) => [BRANCH] + EncSub(thn)
    case InFor(h0, h1, name, list) => EncForHead(h0, h1, name, list)
    case InDef(t, h0, h1, name) => [t] + EncHash(h0, h1, name)
    case InBypass => [BYPASS_NESTING]
  }

  function EncPend(p: Pend): (r: seq<Unit>) {
    match p
    case Idle => []
    case AfterThen(thn) => [BRANCH] + EncSub(thn)
  }

  /** Everything up to the length field of the innermost block. */
  function EncPath(z: Zip): (r: seq<Unit>)
    requires z.Inner?
  {
    EncZip(z.up) + EncOpener(z.opener)
  }

  /** The stream of a partly parsed file; the lengths of open blocks are still zero. */
  function EncZip(z: Zip): (r: seq<Unit>) {
    match z
    case Root(items, pend) => EncItems(items) + EncPend(pend)
    case Inner(up, opener, items, pend) =>
      EncZip(up) + EncOpener(opener) + NO_BLOCK + EncItems(items) + EncPend(pend)
  }

  function Inside(o: Opener, nest: Nesting): Nesting {
    match o
    case InFor(_, _, _, _) => nest.(inLoop := true)
    case InDef(_, _, _, _) => NEST_FUNCTION
    case _ => nest
  }

  predicate Special(o: Opener) { !o.InThen? && !o.InElse? }

  predicate SeparatedOpener(o: Opener) {
    match o
    case InElse(thn) => SeparatedSub(thn)
    case InFor(_, _, _, list) => Seps(list) == 0
    case _ => true
  }

  predicate SeparatedPend(p: Pend) { p.AfterThen? ==> SeparatedSub(p.thn) }

  /** One stack entry describes one level of the tree path. */
  predicate Level(b: BlockScope, start: int, special: bool, inBranch: bool, z: Zip) {
    && b.start == start
    && b.special == special
    && b.inBranch == (inBranch || z.pend.AfterThen?)
    && b.nest == NestOf(z)
    && Separated(z.items)
    && SeparatedPend(z.pend)
  }

  /** The block stack describes the path of open blocks; `inThen` if the block above is a then-block. */
  predicate Shape(stack: seq<BlockScope>, z: Zip, inThen: bool) {
    |stack| > 0 &&
    var top := stack[|stack| - 1];
    match z
    case Root(_, _) => |stack| == 1 && Level(top, NO_START, false, inThen, z)
    case Inner(up, opener, _, _) =>
      && Level(top, |EncPath(z)|, Special(opener), inThen, z)
      && SeparatedOpener(opener)
      && up.pend.Idle?
      && Shape(stack[..|stack| - 1], up, opener.InThen?)
  }

  function NestOf(z: Zip): Nesting { if z.Root? then NEST_NONE else Inside(z.opener, NestOf(z.up)) }

  predicate NestedOpener(o: Opener, nest: Nesting) {
    (o.InElse? ==> NestedSub(o.thn, nest)) && (o.InBypass? ==> nest.inFunc)
  }

  predicate NestedPend(p: Pend, nest: Nesting) { p.AfterThen? ==> NestedSub(p.thn, nest) }

  predicate NestedZip(z: Zip) {
    && Nested(z.items, NestOf(z))
    && NestedPend(z.pend, NestOf(z))
    && (z.Inner? ==> NestedOpener(z.opener, NestOf(z.up)) && NestedZip(z.up))
  }

  predicate IsLeaf(item: Item) { !item.Branch? && !item.For? && !item.Def? && !item.Bypass? }

  /** The head of a loop, function or bypass. */
  function HeadOf(o: Opener): Item
    requires Special(o)
  {
    match o
    case InFor(h0, h1, name, list) => For(h0, h1, name, list, [])
    case InDef(t, h0, h1, name) => Def(t, h0, h1, name, [])
    case InBypass => Bypass([])
  }

  function FlatOpener(o: Opener, home: int, at: nat): (r: seq<Note>)
    ensures r != []
  {
    match o
    case InThen => [Note(home, Fork), Note(at, Then)]
    case InElse(thn) => [Note(home, Fork)] + FlatSub(thn, Then, at, at + 1) + [Note(at, Else)]
    case _ => [Note(home, Says(HeadOf(o)))]
  }

  function FlatPend(p: Pend, home: int, at: nat): (r: seq<Note>) {
    if p.Idle? then [] else [Note(home, Fork)] + FlatSub(p.thn, Then, at, at + 1)
  }

  /** The notes up to the one that opened the innermost block. */
  function FlatPath(z: Zip): (r: seq<Note>) {
    if z.Root? then []
    else
      var path := FlatPath(z.up);
      var done := path + Flat(z.up.items, |path| - 1, |path|);
      done + FlatOpener(z.opener, |path| - 1, |done|)
  }

  /** The note that opened the innermost block. */
  function Home(z: Zip): int { |FlatPath(z)| - 1 }

  /** The notes up to an open branch. */
  function FlatDone(z: Zip): (r: seq<Note>) { FlatPath(z) + Flat(z.items, Home(z), |FlatPath(z)|) }

  /** What the finished part of the tree says. */
  function FlatZip(z: Zip): (r: seq<Note>) { FlatDone(z) + FlatPend(z.pend, Home(z), |FlatDone(z)|) }

  /** The open scopes of a story describe the path of open blocks; `inThen` if the block above is a then block. */
  predicate Levels(open: seq<Open>, z: Zip, inThen: bool) {
    |open| > 0 &&
    var top := open[|open| - 1];
    && top.head == Home(z)
    && (inThen || z.pend.AfterThen? ==> top.fork == |FlatDone(z)|)
    && match z
       case Root(_, _) => |open| == 1
       case Inner(up, opener, _, _) => Levels(open[..|open| - 1], up, opener.InThen?)
  }

  /** The story tells what `z` says. */
  predicate Tells(t: Tale, z: Zip) { t.notes == FlatZip(z) && Levels(t.open, z, false) }

  /** The state and the story both describe `z`. */
  predicate Rep(p: Parser, z: Zip, t: Tale) {
    && Running(p)
    && p.toks == EncZip(z)
    && Shape(p.blockstack, z, false)
    && Tells(t, z)
    && |t.open| == |p.blockstack|
  }

  /** The invariant of every reachable state in which no error was met. */
  predicate Inv(p: Parser, z: Zip, t: Tale) {
    Running(p) && Rep(p, z, t) && (p.state != StNew || p.canElse ==> z.pend.Idle?)
  }

  /** Add a finished item to the innermost open block. */
  function Add(z: Zip, item: Item): Zip { z.(items := z.items + [item]) }

  lemma {:induction false} AddItem(p: Parser, z: Zip, t: Tale, item: Item, q: Parser)
    requires Rep(p, z, t) && z.pend.Idle? && SeparatedItem(item) && IsLeaf(item)
    requires q.toks == p.toks + EncItem(item) && q.blockstack == p.blockstack
    ensures Rep(q, Add(z, item), Noted(t, item))
    ensures NestedZip(Add(z, item)) <==> NestedZip(z) && NestedItem(item, Top(p).nest)
  {
    hide Tells;
    AddEnc(z, item);
    AddTells(t, z, item);
    AddShape(p.blockstack, z, item);
    AddNested(z, item);
  }

  lemma {:induction false} AddTells(t: Tale, z: Zip, item: Item)
    requires Tells(t, z) && z.pend.Idle? && IsLeaf(item)
    ensures Tells(Noted(t, item), Add(z, item))
  {
    AddFlat(z, item);
    LevelsSame(t.open, z, Add(z, item), false, false);
    LeafFlat(item, Home(z), |FlatZip(z)|);
    hide FlatZip, FlatPath, FlatItem;
  }

  lemma LeafFlat(item: Item, home: int, at: nat)
    requires IsLeaf(item)
    ensures FlatItem(item, home, at) == [Note(home, Says(item))]
  {
  }

  lemma {:induction false} AddEnc(z: Zip, item: Item)
    requires z.pend.Idle?
    ensures EncZip(Add(z, item)) == EncZip(z) + EncItem(item)
  {
    EncItemsSnoc(z.items, item);
  }

  lemma {:induction false} AddFlat(z: Zip, item: Item)
    requires z.pend.Idle?
    ensures FlatZip(Add(z, item)) == FlatZip(z) + FlatItem(item, Home(z), |FlatZip(z)|)
    ensures FlatPath(Add(z, item)) == FlatPath(z)
  {
    hide FlatItem, Flat;
    FlatSnoc(z.items, item, Home(z), |FlatPath(z)|);
    IdleFlat(z);
    IdleFlat(Add(z, item));
    var path, items := FlatPath(z), Flat(z.items, Home(z), |FlatPath(z)|);
    assert path + (items + FlatItem(item, Home(z), |path| + |items|))
        == (path + items) + FlatItem(item, Home(z), |path + items|);
  }

  lemma {:induction false} IdleFlat(z: Zip)
    requires z.pend.Idle?
    ensures FlatZip(z) == FlatDone(z)
  {
    assert FlatPend(Idle, Home(z), |FlatDone(z)|) == [];
  }

  lemma {:induction false} AddShape(stack: seq<BlockScope>, z: Zip, item: Item)
    requires Shape(stack, z, false) && z.pend.Idle? && SeparatedItem(item)
    ensures Shape(stack, Add(z, item), false)
  {
    SeparatedSnoc(z.items, item);
  }

  lemma {:induction false} AddNested(z: Zip, item: Item)
    requires z.pend.Idle?
    ensures NestedZip(Add(z, item)) <==> NestedZip(z) && NestedItem(item, NestOf(z))
  {
    NestedSnoc(z.items, item, NestOf(z));
  }

  /** The items of the innermost block with its open branch, if any, given an empty else-block. */
  function Settled(z: Zip): seq<Item> {
    if z.pend.Idle? then z.items else z.items + [Item.Branch(z.pend.thn, Absent)]
  }

  lemma {:induction false} SettledIs(z: Zip)
    ensures EncItems(Settled(z)) == EncItems(z.items) + EncPend(z.pend) + (if z.pend.Idle? then [] else NO_BLOCK)
    ensures Separated(z.items) && SeparatedPend(z.pend) ==> Separated(Settled(z))
    ensures Nested(Settled(z), NestOf(z)) <==> Nested(z.items, NestOf(z)) && NestedPend(z.pend, NestOf(z))
  {
    if z.pend.AfterThen? {
      var branch := Item.Branch(z.pend.thn, Absent);
      EncItemsSnoc(z.items, branch);
      SeparatedSnoc(z.items, branch);
      NestedSnoc(z.items, branch, NestOf(z));
    }
  }

  lemma {:induction false} SettledFlat(z: Zip)
    ensures FlatPath(z) + Flat(Settled(z), Home(z), |FlatPath(z)|) == FlatZip(z)
  {
    hide FlatPath;
    PathFlat(FlatPath(z), z.items, z.pend, Settled(z));
  }

  lemma {:induction false} PathFlat(path: seq<Note>, items: seq<Item>, pend: Pend, settled: seq<Item>)
    requires settled == if pend.Idle? then items else items + [Item.Branch(pend.thn, Absent)]
    ensures var done := path + Flat(items, |path| - 1, |path|);
      path + Flat(settled, |path| - 1, |path|) == done + FlatPend(pend, |path| - 1, |done|)
  {
    var done := path + Flat(items, |path| - 1, |path|);
    if pend.Idle? {
      assert done + [] == done;
    } else {
      var branch := Item.Branch(pend.thn, Absent);
      FlatSnoc(items, branch, |path| - 1, |path|);
      BranchFlat(pend.thn, |path| - 1, |done|);
      hide FlatItem, Flat, FlatPend;
      var last := FlatItem(branch, |path| - 1, |done|);
      assert path + (Flat(items, |path| - 1, |path|) + last) == done + last;
    }
  }

  lemma BranchFlat(thn: Sub, home: int, at: nat)
    ensures FlatItem(Item.Branch(thn, Absent), home, at) == FlatPend(AfterThen(thn), home, at)
  {
  }

  /** The construct of `z`'s innermost block once that block has ended. */
  function Built(z: Zip): Item
    requires z.Inner? && !z.opener.InThen?
  {
    var body := Settled(z);
    match z.opener
    case InElse(thn) => Item.Branch(thn, Present(body))
    case InFor(h0, h1, name, list) => For(h0, h1, name, list, body)
    case InDef(t, h0, h1, name) => Def(t, h0, h1, name, body)
    case InBypass => Bypass(body)
  }

  lemma {:induction false} BuiltIs(z: Zip)
    requires z.Inner? && !z.opener.InThen?
    ensures EncItem(Built(z)) == EncOpener(z.opener) + EncBody(Settled(z))
  {
  }

  lemma {:induction false} BuiltFlat(z: Zip)
    requires z.Inner? && !z.opener.InThen?
    ensures FlatItem(Built(z), Home(z.up), |FlatDone(z.up)|) ==
      FlatOpener(z.opener, Home(z.up), |FlatDone(z.up)|) + Flat(Settled(z), Home(z), |FlatPath(z)|)
  {
    var home, at := Home(z.up), |FlatDone(z.up)|;
    assert |FlatPath(z)| == at + |FlatOpener(z.opener, home, at)|;
    hide FlatPath, FlatDone, Settled;
    if z.opener.InElse? {
      ElseFlat(z.opener.thn, Settled(z), home, at);
    }
  }

  lemma ElseFlat(thn: Sub, body: seq<Item>, home: int, at: nat)
    ensures var opener := FlatOpener(InElse(thn), home, at);
      FlatItem(Item.Branch(thn, Present(body)), home, at) ==
      opener + Flat(body, at + |opener| - 1, at + |opener|)
  {
    hide Flat;
    var first := FlatSub(thn, Then, at, at + 1);
    var next := at + 1 + |first|;
    Regrouped(Note(home, Fork), first, Note(at, Else), Flat(body, next, next + 1));
  }

  lemma Regrouped(a: Note, b: seq<Note>, c: Note, d: seq<Note>)
    ensures [a] + (b + ([c] + d)) == ([a] + b + [c]) + d
  {
  }

  lemma {:induction false} BuiltSeparated(z: Zip)
    requires z.Inner? && !z.opener.InThen? && SeparatedOpener(z.opener) && Separated(Settled(z))
    ensures SeparatedItem(Built(z))
  {
  }

  lemma {:induction false} BuiltNested(z: Zip)
    requires z.Inner? && !z.opener.InThen?
    ensures NestedItem(Built(z), NestOf(z.up)) <==>
      NestedOpener(z.opener, NestOf(z.up)) && Nested(Settled(z), NestOf(z))
  {
  }

  /** The path once the innermost block has ended: a then-block stays open for its else. */
  function Close(z: Zip): Zip
    requires z.Inner?
  {
    if z.opener.InThen? then z.up.(pend := AfterThen(Present(Settled(z)))) else Add(z.up, Built(z))
  }

  lemma {:induction false} SplitElseEnc(z: Zip)
    requires z.pend.AfterThen?
    ensures EncZip(z) == EncZip(z.(pend := Idle)) + EncOpener(InElse(z.pend.thn))
  {
    assert EncOpener(InElse(z.pend.thn)) == EncPend(z.pend);
    assert EncPend(Idle) == [];
  }

  lemma {:induction false} PendEnc(z: Zip, pend: Pend)
    requires z.pend.Idle?
    ensures EncZip(z.(pend := pend)) == EncZip(z) + EncPend(pend)
  {
    assert EncPend(Idle) == [];
  }

  lemma {:induction false} CloseEnc(z: Zip)
    requires z.Inner? && z.up.pend.Idle?
    ensures EncZip(Close(z)) == EncPath(z) + EncBody(Settled(z))
  {
    if z.opener.InThen? {
      var up, body := EncZip(z.up), EncBody(Settled(z));
      PendEnc(z.up, AfterThen(Present(Settled(z))));
      assert EncPend(AfterThen(Present(Settled(z)))) == [BRANCH] + body;
      assert up + ([BRANCH] + body) == (up + [BRANCH]) + body;
    } else {
      AddEnc(z.up, Built(z));
      BuiltIs(z);
    }
  }

  lemma {:induction false} CloseFlat(z: Zip)
    requires z.Inner? && z.up.pend.Idle?
    ensures FlatZip(Close(z)) == FlatZip(z)
  {
    hide FlatZip, FlatPath, Flat;
    SettledFlat(z);
    if z.opener.InThen? {
      ThenFlat(z, Settled(z));
    } else {
      BuiltAdded(z);
    }
  }

  lemma {:induction false} BuiltAdded(z: Zip)
    requires z.Inner? && z.up.pend.Idle? && !z.opener.InThen?
    ensures FlatZip(Add(z.up, Built(z))) == FlatPath(z) + Flat(Settled(z), Home(z), |FlatPath(z)|)
  {
    hide FlatZip, FlatPath, Flat, FlatItem, FlatOpener, FlatDone, Settled;
    AddFlat(z.up, Built(z));
    IdleFlat(z.up);
    BuiltFlat(z);
    PathIs(z);
    var body := Flat(Settled(z), Home(z), |FlatPath(z)|);
    var done, opener := FlatDone(z.up), FlatOpener(z.opener, Home(z.up), |FlatDone(z.up)|);
    assert done + (opener + body) == (done + opener) + body;
  }

  lemma {:induction false} PathIs(z: Zip)
    requires z.Inner?
    ensures FlatPath(z) == FlatDone(z.up) + FlatOpener(z.opener, Home(z.up), |FlatDone(z.up)|)
  {
  }

  lemma {:induction false} ThenFlat(z: Zip, body: seq<Item>)
    requires z.Inner? && z.up.pend.Idle? && z.opener.InThen?
    ensures FlatZip(z.up.(pend := AfterThen(Present(body)))) == FlatPath(z) + Flat(body, Home(z), |FlatPath(z)|)
  {
    var y := z.up.(pend := AfterThen(Present(body)));
    assert FlatPath(y) == FlatPath(z.up) && FlatDone(y) == FlatDone(z.up);
    PathIs(z);
    hide FlatPath, FlatDone;
    ThenNotes(FlatDone(z.up), Home(z.up), body);
  }

  lemma ThenNotes(done: seq<Note>, home: int, body: seq<Item>)
    ensures var path := done + FlatOpener(InThen, home, |done|);
      done + FlatPend(AfterThen(Present(body)), home, |done|) == path + Flat(body, |path| - 1, |path|)
  {
    hide Flat;
    var rest := Flat(body, |done| + 1, |done| + 2);
    assert done + ([Note(home, Fork)] + ([Note(|done|, Then)] + rest))
        == (done + [Note(home, Fork), Note(|done|, Then)]) + rest;
  }

  lemma {:induction false} ResumeLevel(b: BlockScope, start: int, special: bool, z: Zip, thn: Sub)
    requires Level(b, start, special, true, z) && z.pend.Idle? && SeparatedPend(AfterThen(thn))
    ensures Level(b, start, special, false, z.(pend := AfterThen(thn)))
  {
  }

  lemma {:induction false} ResumeShape(stack: seq<BlockScope>, z: Zip, thn: Sub)
    requires Shape(stack, z, true) && z.pend.Idle? && SeparatedPend(AfterThen(thn))
    ensures Shape(stack, z.(pend := AfterThen(thn)), false)
  {
    var start := if z.Root? then NO_START else |EncPath(z)|;
    ResumeLevel(stack[|stack| - 1], start, z.Inner? && Special(z.opener), z, thn);
  }

  lemma {:induction false} CloseShape(stack: seq<BlockScope>, z: Zip)
    requires Shape(stack, z, false) && z.Inner?
    ensures Shape(stack[..|stack| - 1], Close(z), false)
  {
    SettledIs(z);
    var below := stack[..|stack| - 1];
    if z.opener.InThen? {
      ResumeShape(below, z.up, Present(Settled(z)));
    } else {
      BuiltSeparated(z);
      AddShape(below, z.up, Built(z));
    }
  }

  /** Levels do not depend on the items of the innermost block, as long as they open no branch. */
  lemma {:induction false} LevelsSame(open: seq<Open>, z: Zip, y: Zip, inThen: bool, inThen': bool)
    requires Levels(open, z, inThen) && FlatPath(y) == FlatPath(z)
    requires (z.Root? && y.Root?) || (z.Inner? && y.Inner? && z.up == y.up && z.opener == y.opener)
    requires inThen' || y.pend.AfterThen? ==> FlatDone(y) == FlatDone(z) && (inThen || z.pend.AfterThen?)
    ensures Levels(open, y, inThen')
  {
  }

  lemma {:induction false} CloseLevels(open: seq<Open>, z: Zip)
    requires Levels(open, z, false) && z.Inner? && z.up.pend.Idle?
    ensures |open| > 1 && Levels(open[..|open| - 1], Close(z), false)
  {
    var below := open[..|open| - 1];
    if z.opener.InThen? {
      LevelsSame(below, z.up, Close(z), true, false);
    } else {
      AddFlat(z.up, Built(z));
      LevelsSame(below, z.up, Close(z), false, false);
    }
  }

  lemma {:induction false} CloseNested(z: Zip)
    requires z.Inner? && z.up.pend.Idle?
    ensures NestedZip(Close(z)) <==> NestedZip(z)
  {
    SettledIs(z);
    if !z.opener.InThen? {
      AddNested(z.up, Built(z));
      BuiltNested(z);
    }
  }

  /** Ending a block makes its length field skip exactly to the end of the stream. */
  lemma EndBlockIs(path: seq<Unit>, body: seq<Item>)
    ensures EndBlock(path + NO_BLOCK + EncItems(body), |path|) == path + EncBody(body)
  {
    var toks: seq<Unit> := path + NO_BLOCK + EncItems(body);
    var len: seq<Unit> := EncLen(|EncItems(body)| + 1);
    var ended: seq<Unit> := toks + [TERMINATOR];
    assert EndBlock(toks, |path|) == ended[|path| := len[0]][|path| + 1 := len[1]];
    assert path + EncBody(body) == path + [len[0], len[1]] + (EncItems(body) + [TERMINATOR]);
  }

  lemma {:induction false} SplitZip(z: Zip)
    requires z.Inner?
    ensures EncZip(z) == EncPath(z) + NO_BLOCK + (EncItems(z.items) + EncPend(z.pend))
  {
  }

  lemma EndsAt(p: Parser, path: seq<Unit>, items: seq<Item>, pend: Pend, settled: seq<Item>)
    requires Running(p) && p.toks == path + NO_BLOCK + (EncItems(items) + EncPend(pend))
    requires Top(p).inBranch == pend.AfterThen? && Top(p).start == |path|
    requires EncItems(settled) == EncItems(items) + EncPend(pend) + (if pend.Idle? then [] else NO_BLOCK)
    ensures LeaveScope(p).toks == EndBlock(path + NO_BLOCK + EncItems(settled), |path|)
  {
    var q := if Top(p).inBranch then Put(p, NO_BLOCK) else p;
    assert q.toks == path + NO_BLOCK + EncItems(settled);
  }

  lemma {:induction false} LeaveScopeEnds(p: Parser, z: Zip)
    requires Running(p) && p.toks == EncZip(z) && Shape(p.blockstack, z, false) && z.Inner?
    ensures LeaveScope(p).toks == EncPath(z) + EncBody(Settled(z))
  {
    SplitZip(z);
    SettledIs(z);
    EndBlockIs(EncPath(z), Settled(z));
    EndsAt(p, EncPath(z), z.items, z.pend, Settled(z));
  }

  lemma {:induction false} LeaveScopeCloses(p: Parser, z: Zip, t: Tale)
    requires Rep(p, z, t) && z.Inner?
    ensures |t.open| > 1 && Rep(LeaveScope(p), Close(z), t.(open := t.open[..|t.open| - 1]))
    ensures NestedZip(Close(z)) <==> NestedZip(z)
  {
    hide Tells;
    CloseEnc(z);
    CloseTells(t, z);
    CloseShape(p.blockstack, z);
    CloseNested(z);
    LeaveScopeEnds(p, z);
  }

  lemma {:induction false} CloseTells(t: Tale, z: Zip)
    requires Tells(t, z) && z.Inner? && z.up.pend.Idle?
    ensures |t.open| > 1 && Tells(t.(open := t.open[..|t.open| - 1]), Close(z))
  {
    hide Levels, FlatZip;
    CloseFlat(z);
    CloseLevels(t.open, z);
  }

  /** Cutting the open scopes twice is cutting them once. */
  lemma KeptTwice(t: Tale, n: nat, q: Parser)
    requires Running(q) && |q.blockstack| <= n <= |t.open|
    ensures n > 0 && Kept(t.(open := t.open[..n]), q) == Kept(t, q)
  {
    assert t.open[..n][..|q.blockstack|] == t.open[..|q.blockstack|];
    assert n == |t.open| ==> t.open[..n] == t.open;
  }

  /** What the top of the stack says about the path. */
  lemma {:induction false} TopIs(p: Parser, z: Zip, t: Tale)
    requires Rep(p, z, t)
    ensures Running(p) && |t.open| == |p.blockstack|
    ensures (|p.blockstack| > 1 <==> z.Inner?) && (Top(p).inBranch <==> z.pend.AfterThen?)
  {
    hide FlatZip, Levels;
  }

  lemma {:induction false} CloseOneLinersRep(p: Parser, z: Zip, t: Tale) returns (w: Zip)
    requires Running(p) && Rep(p, z, t)
    ensures |CloseOneLiners(p).blockstack| <= |p.blockstack|
    ensures Rep(CloseOneLiners(p), w, Kept(t, CloseOneLiners(p)))
    ensures NestedZip(w) <==> NestedZip(z)
    decreases |p.blockstack|
  {
    hide Rep, NestedZip, Close, LeaveScope, Kept;
    TopIs(p, z, t);
    if Top(p).braceLevel == 0 && |p.blockstack| > 1 {
      LeaveScopeCloses(p, z, t);
      w := CloseOneLinersRep(LeaveScope(p), Close(z), t.(open := t.open[..|t.open| - 1]));
      KeptTwice(t, |t.open| - 1, CloseOneLiners(p));
    } else {
      w := z;
      KeptAll(t, p);
    }
  }

  lemma KeptAll(t: Tale, p: Parser)
    requires Running(p) && |t.open| == |p.blockstack|
    ensures Kept(t, p) == t
  {
  }

  /** Give up the else of the innermost open branch. */
  function Settle(z: Zip): Zip { z.(items := Settled(z), pend := Idle) }

  lemma {:induction false} SettleShape(stack: seq<BlockScope>, z: Zip, b: BlockScope)
    requires Shape(stack, z, false) && b == stack[|stack| - 1].(inBranch := false)
    ensures Shape(stack[|stack| - 1 := b], Settle(z), false)
  {
    SettledIs(z);
    var n := |stack| - 1;
    assert stack[n := b][..n] == stack[..n];
  }

  lemma {:induction false} SettleIs(z: Zip)
    ensures EncZip(Settle(z)) == EncZip(z) + (if z.pend.Idle? then [] else NO_BLOCK)
    ensures NestedZip(Settle(z)) <==> NestedZip(z)
  {
    if z.pend.Idle? {
      assert Settle(z) == z;
    } else {
      SettleEnc(z);
      SettledIs(z);
    }
  }

  lemma {:induction false} SettleEnc(z: Zip)
    requires z.pend.AfterThen?
    ensures EncZip(Settle(z)) == EncZip(z) + NO_BLOCK
  {
    SettledIs(z);
    EncZipIs(z);
    EncZipIs(Settle(z));
    assert EncBase(Settle(z)) == EncBase(z) && EncPend(Idle) == [];
    hide EncZip, EncItems, EncPend, EncBase, Settled;
  }

  /** The stream up to the items of the innermost block. */
  function EncBase(z: Zip): (r: seq<Unit>) {
    if z.Root? then [] else EncZip(z.up) + EncOpener(z.opener) + NO_BLOCK
  }

  lemma {:induction false} EncZipIs(z: Zip)
    ensures EncZip(z) == EncBase(z) + (EncItems(z.items) + EncPend(z.pend))
  {
    hide EncItems, EncOpener, EncPend;
    var items, pend := EncItems(z.items), EncPend(z.pend);
    match z
    case Root(_, _) => assert [] + (items + pend) == items + pend;
    case Inner(up, opener, _, _) =>
      var base := EncZip(up) + EncOpener(opener) + NO_BLOCK;
      assert base + items + pend == base + (items + pend);
  }

  lemma {:induction false} SettleTells(t: Tale, z: Zip)
    requires Tells(t, z)
    ensures Tells(t, Settle(z))
  {
    SettledFlat(z);
    IdleFlat(Settle(z));
    LevelsSame(t.open, z, Settle(z), false, false);
  }

  lemma {:induction false} EndBranchRep(p: Parser, z: Zip, t: Tale)
    requires Rep(p, z, t)
    ensures Rep(EndBranch(p), Settle(z), t)
    ensures NestedZip(Settle(z)) <==> NestedZip(z)
  {
    hide Tells;
    SettleIs(z);
    SettleTells(t, z);
    if Top(p).inBranch {
      SettleShape(p.blockstack, z, Top(p).(inBranch := false));
    }
  }

  lemma ClosingKeeps(p: Parser)
    requires Running(p)
    ensures var q := CloseOneLiners(p);
      q.markLine == p.markLine && q.op == p.op && q.invert == p.invert && q.state == p.state
    decreases |p.blockstack|
  {
    if Top(p).braceLevel == 0 && |p.blockstack| > 1 {
      ClosingKeeps(LeaveScope(p));
    }
  }

  /** Closing scopes leaves what is pending in front of a test. */
  lemma FlushKeeps(p: Parser)
    requires Running(p)
    ensures var q := FlushScopes(p);
      q.markLine == p.markLine && q.op == p.op && q.invert == p.invert && q.state == p.state
    ensures FlushCond(p).markLine == p.markLine
  {
    ClosingKeeps(p);
  }

  lemma {:induction false} FlushScopesInv(p: Parser, z: Zip, t: Tale) returns (w: Zip)
    requires Inv(p, z, t)
    ensures Inv(FlushScopes(p), w, Kept(t, FlushScopes(p))) && w.pend.Idle?
    ensures NestedZip(w) <==> NestedZip(z)
  {
    if p.state == StNew {
      var c := CloseOneLinersRep(p, z, t);
      EndBranchRep(CloseOneLiners(p), c, Kept(t, CloseOneLiners(p)));
      w := Settle(c);
    } else {
      w := z;
    }
  }

  lemma {:induction false} EnterRep(q: Parser, z: Zip, o: Opener, open: seq<Open>, t: Tale)
    requires Running(q) && |q.blockstack| > 1 && z.pend.Idle?
    requires q.toks == EncZip(z) + EncOpener(o) + NO_BLOCK
    requires Shape(q.blockstack[..|q.blockstack| - 1], z, o.InThen?) && SeparatedOpener(o)
    requires Top(q) == BlockScope(|EncZip(z) + EncOpener(o)|, 0, Special(o), false, Inside(o, NestOf(z)))
    requires t.notes == FlatZip(z) + FlatOpener(o, Home(z), |FlatZip(z)|) && Levels(open, z, o.InThen?)
    requires t.open == open + [Open(|t.notes| - 1, FILE)] && |t.open| == |q.blockstack|
    ensures Rep(q, Inner(z, o, [], Idle), t)
    ensures NestedZip(Inner(z, o, [], Idle)) <==> NestedZip(z) && NestedOpener(o, NestOf(z))
  {
    var w := Inner(z, o, [], Idle);
    EnterTells(z, o, open, t);
    hide Tells, Levels, FlatZip, FlatOpener;
    assert EncPath(w) == EncZip(z) + EncOpener(o);
  }

  lemma {:induction false} EnterTells(z: Zip, o: Opener, open: seq<Open>, t: Tale)
    requires t.notes == FlatZip(z) + FlatOpener(o, Home(z), |FlatZip(z)|) && Levels(open, z, o.InThen?)
    requires t.open == open + [Open(|t.notes| - 1, FILE)] && z.pend.Idle?
    ensures Tells(t, Inner(z, o, [], Idle))
  {
    var w := Inner(z, o, [], Idle);
    IdleFlat(z);
    IdleFlat(w);
    PathIs(w);
    hide FlatPath, FlatOpener;
    assert FlatZip(w) == FlatPath(w) + [];
    assert t.open[..|t.open| - 1] == open;
  }

  lemma {:induction false} PromiseElse(stack: seq<BlockScope>, z: Zip, b: BlockScope)
    requires Shape(stack, z, false) && z.pend.Idle? && b == stack[|stack| - 1].(inBranch := true)
    ensures Shape(stack[|stack| - 1 := b], z, true)
  {
    var n := |stack| - 1;
    assert stack[n := b][..n] == stack[..n];
  }

  lemma {:induction false} TakeElse(stack: seq<BlockScope>, z: Zip, b: BlockScope)
    requires Shape(stack, z, false) && z.pend.AfterThen? && b == stack[|stack| - 1].(inBranch := false)
    ensures Shape(stack[|stack| - 1 := b], z.(pend := Idle), false)
  {
    var n := |stack| - 1;
    assert stack[n := b][..n] == stack[..n];
    if z.Inner? {
      assert EncPath(z.(pend := Idle)) == EncPath(z);
    }
  }

  /** The fork of a then block that is about to be opened. */
  lemma {:induction false} PromiseFork(open: seq<Open>, z: Zip)
    requires Levels(open, z, false) && z.pend.Idle?
    ensures Levels(open[|open| - 1 := open[|open| - 1].(fork := |FlatZip(z)|)], z, true)
  {
    var n := |open| - 1;
    assert open[n := open[n].(fork := |FlatZip(z)|)][..n] == open[..n];
    assert FlatDone(z) == FlatZip(z);
  }

  lemma {:induction false} TopOf(p: Parser, z: Zip, t: Tale)
    requires Rep(p, z, t)
    ensures p.toks == EncZip(z) && Shape(p.blockstack, z, false) && Top(p).nest == NestOf(z)
    ensures t.notes == FlatZip(z) && Levels(t.open, z, false) && Here(t).head == Home(z) && Tells(t, z)
  {
    hide FlatZip, EncZip;
  }

  lemma {:induction false} StartThenRep(p: Parser, z: Zip, t: Tale)
    requires Rep(p, z, t) && z.pend.Idle? && p.state == StCond
    ensures Rep(FlushCond(p), Inner(z, InThen, [], Idle), ThenOpened(p, t))
    ensures NestedZip(Inner(z, InThen, [], Idle)) <==> NestedZip(z)
  {
    hide Rep, ThenOpened, Inside, Tells, FlatZip, FlatOpener, FlatPath, Levels, Shape, NestedZip, EncZip;
    TopIs(p, z, t);
    TopOf(p, z, t);
    var b := Top(p).(inBranch := true);
    PromiseElse(p.blockstack, z, b);
    PromiseFork(t.open, z);
    ThenNoted(p, z, t);
    var open := t.open[|t.open| - 1 := Here(t).(fork := |t.notes|)];
    ThenEnters(SetTop(Put(p, [BRANCH]), b), z, open, ThenOpened(p, t));
  }

  lemma {:induction false} ThenNoted(p: Parser, z: Zip, t: Tale)
    requires Running(p) && p.state == StCond && Tells(t, z)
    ensures ThenOpened(p, t).notes == FlatZip(z) + FlatOpener(InThen, Home(z), |FlatZip(z)|)
    ensures ThenOpened(p, t).open ==
      t.open[|t.open| - 1 := Here(t).(fork := |t.notes|)] + [Open(|ThenOpened(p, t).notes| - 1, FILE)]
  {
    hide FlatZip;
  }

  lemma {:induction false} ThenEnters(b: Parser, z: Zip, open: seq<Open>, t: Tale)
    requires Running(b) && z.pend.Idle? && b.toks == EncZip(z) + [BRANCH] && Top(b).nest == NestOf(z)
    requires Shape(b.blockstack, z, true) && |open| == |b.blockstack|
    requires t.notes == FlatZip(z) + FlatOpener(InThen, Home(z), |FlatZip(z)|) && Levels(open, z, true)
    requires t.open == open + [Open(|t.notes| - 1, FILE)]
    ensures Rep(EnterScope(b, false, StNew), Inner(z, InThen, [], Idle), t)
    ensures NestedZip(Inner(z, InThen, [], Idle)) <==> NestedZip(z)
  {
    var q := EnterScope(b, false, StNew);
    assert q.blockstack[..|q.blockstack| - 1] == b.blockstack;
    hide FlatZip, FlatOpener, EncZip, Shape, Levels, NestedZip, Tells;
    EnterRep(q, z, InThen, open, t);
  }

  lemma {:induction false} FlushCondInv(p: Parser, z: Zip, t: Tale) returns (w: Zip)
    requires Inv(p, z, t)
    ensures Inv(FlushCond(p), w, ThenOpened(p, t)) && w.pend.Idle?
    ensures NestedZip(w) <==> NestedZip(z)
  {
    hide Rep, NestedZip;
    if p.state == StCond {
      StartThenRep(p, z, t);
      w := Inner(z, InThen, [], Idle);
    } else {
      w := FlushScopesInv(p, z, t);
    }
  }

  lemma {:induction false} AddIf(p: Parser, z: Zip, t: Tale, put: bool, item: Item, q: Parser) returns (w: Zip)
    requires Rep(p, z, t) && z.pend.Idle? && (item.Line? || item.Op?)
    requires q.toks == if put then p.toks + EncItem(item) else p.toks
    requires q.blockstack == p.blockstack
    ensures Rep(q, w, if put then Noted(t, item) else t) && w.pend.Idle?
    ensures NestedZip(w) <==> NestedZip(z)
  {
    w := z;
    if put {
      AddItem(p, z, t, item, q);
      w := Add(z, item);
    }
  }

  lemma {:induction false} PutLineMarkerRep(p: Parser, z: Zip, t: Tale) returns (w: Zip)
    requires Rep(p, z, t) && z.pend.Idle?
    ensures Rep(PutLineMarker(p), w, Marked(p, t)) && w.pend.Idle?
    ensures NestedZip(w) <==> NestedZip(z)
  {
    w := AddIf(p, z, t, p.markLine != 0, Line(p.markLine % 0x10000), PutLineMarker(p));
  }

  lemma {:induction false} PutOperatorRep(p: Parser, z: Zip, t: Tale) returns (w: Zip)
    requires Rep(p, z, t) && z.pend.Idle?
    ensures Rep(PutOperator(p), w, Linked(p, t)) && w.pend.Idle?
    ensures NestedZip(w) <==> NestedZip(z)
  {
    var put := p.op == OrOperator || (p.op == AndOperator && p.state == StCond);
    w := AddIf(p, z, t, put, Op(if p.op == OrOperator then OR else AND), PutOperator(p));
  }

  /** Line marker and operator of the next construct. */
  function Mark(p: Parser): (q: Parser)
    requires Running(p)
    ensures Running(q) && q.blockstack == p.blockstack && q.ok == p.ok && q.invert == p.invert
  {
    PutOperator(PutLineMarker(p))
  }

  /** What a construct says of line and operator depends on what is pending only. */
  lemma MarkedSame(p: Parser, q: Parser, t: Tale)
    requires q.markLine == p.markLine && q.op == p.op && q.state == p.state
    ensures Marked(q, t) == Marked(p, t) && Linked(q, Marked(q, t)) == Linked(p, Marked(p, t))
  {
  }

  lemma {:induction false} RepSame(p: Parser, z: Zip, t: Tale, q: Parser)
    requires Rep(p, z, t) && q.toks == p.toks && q.blockstack == p.blockstack
    ensures Rep(q, z, t)
  {
  }

  lemma {:induction false} MarkRep(p: Parser, z: Zip, t: Tale) returns (w: Zip)
    requires Rep(p, z, t) && z.pend.Idle?
    ensures Rep(Mark(p), w, Linked(p, Marked(p, t))) && w.pend.Idle?
    ensures NestedZip(w) <==> NestedZip(z)
  {
    var l := PutLineMarkerRep(p, z, t);
    w := PutOperatorRep(PutLineMarker(p), l, Marked(p, t));
  }

  /** Every test starts by closing what a fresh line closes. */
  lemma {:induction false} FinalizeTestInv(p: Parser, z: Zip, t: Tale) returns (w: Zip)
    requires Inv(p, z, t)
    ensures Inv(FinalizeTest(p), w, Negated(p, Linked(p, Marked(p, Kept(t, FlushScopes(p)))))) && w.pend.Idle?
    ensures FinalizeTest(p).blockstack == FlushScopes(p).blockstack
    ensures NestedZip(w) <==> NestedZip(z)
  {
    hide Rep, NestedZip, FlushScopes, PutLineMarker, PutOperator, Marked, Linked, Kept;
    FlushKeeps(p);
    var f := FlushScopesInv(p, z, t);
    var kept := Kept(t, FlushScopes(p));
    MarkedSame(p, FlushScopes(p), kept);
    var m := MarkRep(FlushScopes(p), f, kept);
    var marked := Mark(FlushScopes(p));
    w := AddIf(marked, m, Linked(p, Marked(p, kept)), p.invert % 2 == 1, Op(NOT), NotPut(marked, p.invert));
    RepSame(NotPut(marked, p.invert), w, Negated(p, Linked(p, Marked(p, kept))), FinalizeTest(p));
  }

  function NotPut(p: Parser, invert: nat): (q: Parser)
    requires Running(p)
    ensures Running(q) && q.toks == if invert % 2 == 1 then p.toks + EncItem(Op(NOT)) else p.toks
  {
    if invert % 2 == 1 then Put(p, [NOT]) else p
  }

  /** A test that adds `item` to the stream. */
  lemma {:induction false} TestItem(p: Parser, z: Zip, t: Tale, item: Item) returns (w: Zip)
    requires Inv(p, z, t) && SeparatedItem(item) && IsLeaf(item)
    ensures Inv(Put(FinalizeTest(p), EncItem(item)), w, Tested(p, t, item))
    ensures NestedZip(w) <==> NestedZip(z) && NestedItem(item, Top(FlushScopes(p)).nest)
  {
    var f := FinalizeTestInv(p, z, t);
    var told := Negated(p, Linked(p, Marked(p, Kept(t, FlushScopes(p)))));
    AddItem(FinalizeTest(p), f, told, item, Put(FinalizeTest(p), EncItem(item)));
    w := Add(f, item);
  }

  lemma {:induction false} TakeElseInv(p: Parser, z: Zip, t: Tale) returns (w: Zip)
    requires Rep(p, z, t) && z.pend.AfterThen?
    ensures Inv(EnterScope(SetTop(p, Top(p).(inBranch := false)), false, StCtrl), w, ElseIn(t, |t.open|))
    ensures NestedZip(w) <==> NestedZip(z)
  {
    hide Rep, Inv, Tells, Levels, FlatZip, FlatOpener, FlatPath, FlatDone, Home, EncZip, EncOpener, Shape, NestedZip;
    TopIs(p, z, t);
    TopOf(p, z, t);
    var b := SetTop(p, Top(p).(inBranch := false));
    var idle := z.(pend := Idle);
    TakeElse(p.blockstack, z, Top(p).(inBranch := false));
    SplitElse(z);
    ForkOf(t.open, z);
    LevelsSame(t.open, z, idle, false, false);
    SeparatedPendOf(p.blockstack, z);
    assert t.open[..|t.open|] == t.open;
    w := ElseEnters(b, idle, z.pend.thn, t.open, ElseIn(t, |t.open|));
  }

  lemma {:induction false} ForkOf(open: seq<Open>, z: Zip)
    requires Levels(open, z, false) && z.pend.AfterThen?
    ensures open[|open| - 1].fork == |FlatDone(z)|
  {
    hide FlatDone;
  }

  lemma {:induction false} SeparatedPendOf(stack: seq<BlockScope>, z: Zip)
    requires Shape(stack, z, false) && z.pend.AfterThen?
    ensures SeparatedSub(z.pend.thn)
  {
  }

  lemma {:induction false} ElseEnters(b: Parser, z: Zip, thn: Sub, open: seq<Open>, t: Tale) returns (w: Zip)
    requires Running(b) && z.pend.Idle? && b.toks == EncZip(z) + EncOpener(InElse(thn))
    requires Shape(b.blockstack, z, false) && SeparatedSub(thn) && |open| == |b.blockstack|
    requires t.notes == FlatZip(z) + FlatOpener(InElse(thn), Home(z), |FlatZip(z)|) && Levels(open, z, false)
    requires t.open == open + [Open(|t.notes| - 1, FILE)]
    ensures Inv(EnterScope(b, false, StCtrl), w, t)
    ensures NestedZip(w) <==> NestedZip(z) && NestedSub(thn, NestOf(z))
  {
    var q := EnterScope(b, false, StCtrl);
    assert q.blockstack[..|q.blockstack| - 1] == b.blockstack;
    assert Top(b).nest == NestOf(z);
    hide FlatZip, FlatOpener, EncZip, EncOpener, Shape, Levels, NestedZip;
    EnterRep(q, z, InElse(thn), open, t);
    w := Inner(z, InElse(thn), [], Idle);
  }

  lemma {:induction false} SplitElse(z: Zip)
    requires z.pend.AfterThen?
    ensures EncZip(z) == EncZip(z.(pend := Idle)) + EncOpener(InElse(z.pend.thn))
    ensures var idle := z.(pend := Idle);
      && FlatPath(idle) == FlatPath(z)
      && FlatZip(z) + [Note(|FlatDone(z)|, Else)]
         == FlatZip(idle) + FlatOpener(InElse(z.pend.thn), Home(idle), |FlatZip(idle)|)
    ensures NestedZip(z) <==> NestedZip(z.(pend := Idle)) && NestedOpener(InElse(z.pend.thn), NestOf(z))
  {
    SplitElseEnc(z);
    SplitElseFlat(z);
  }

  lemma {:induction false} SplitElseFlat(z: Zip)
    requires z.pend.AfterThen?
    ensures var idle := z.(pend := Idle);
      && FlatPath(idle) == FlatPath(z)
      && FlatZip(z) + [Note(|FlatDone(z)|, Else)]
         == FlatZip(idle) + FlatOpener(InElse(z.pend.thn), Home(idle), |FlatZip(idle)|)
  {
    var idle := z.(pend := Idle);
    assert FlatPend(Idle, Home(z), |FlatDone(z)|) == [];
    assert FlatZip(idle) == FlatDone(z);
    assert FlatOpener(InElse(z.pend.thn), Home(z), |FlatDone(z)|)
        == FlatPend(z.pend, Home(z), |FlatDone(z)|) + [Note(|FlatDone(z)|, Else)];
  }

  /** An else found further out ends the scopes in between. */
  lemma ElseInTwice(t: Tale, m: nat, n: nat)
    requires 0 < n <= m <= |t.open|
    ensures ElseIn(t.(open := t.open[..m]), n) == ElseIn(t, n)
  {
    assert t.open[..m][..n] == t.open[..n];
  }

  lemma {:induction false} FindBranchInv(p: Parser, z: Zip, t: Tale) returns (w: Zip)
    requires Running(p) && Rep(p, z, t)
    ensures FindBranch(p).ok ==>
      && 1 < |FindBranch(p).blockstack| <= |t.open| + 1
      && Inv(FindBranch(p), w, ElseIn(t, |FindBranch(p).blockstack| - 1))
    ensures NestedZip(w) <==> NestedZip(z)
    decreases |p.blockstack|
  {
    hide Rep, NestedZip, ElseIn;
    TopIs(p, z, t);
    var top := Top(p);
    if top.inBranch && (!top.special || top.braceLevel > 0) {
      w := TakeElseInv(p, z, t);
    } else if top.braceLevel > 0 || |p.blockstack| == 1 {
      w := z;
    } else {
      LeaveScopeCloses(p, z, t);
      var m := |t.open| - 1;
      w := FindBranchInv(LeaveScope(p), Close(z), t.(open := t.open[..m]));
      if FindBranch(p).ok {
        ElseInTwice(t, m, |FindBranch(p).blockstack| - 1);
      }
    }
  }

  /** An else directly behind a test gets a branch without a then block. */
  lemma {:induction false} FreshElseInv(p: Parser, z: Zip, t: Tale) returns (w: Zip)
    requires Rep(p, z, t) && z.pend.Idle?
    ensures var notes := t.notes + [Note(Here(t).head, Fork), Note(|t.notes|, Else)];
      Inv(EnterScope(Put(p, [BRANCH] + NO_BLOCK), false, StCtrl), w, Opened(t.(notes := notes)))
    ensures NestedZip(w) <==> NestedZip(z)
  {
    var q := EnterScope(Put(p, [BRANCH] + NO_BLOCK), false, StCtrl);
    var o, told := InElse(Absent), Opened(t.(notes := t.notes + [Note(Here(t).head, Fork), Note(|t.notes|, Else)]));
    assert q.blockstack[..|q.blockstack| - 1] == p.blockstack;
    assert told.notes == FlatZip(z) + FlatOpener(o, Home(z), |FlatZip(z)|);
    assert EncOpener(o) == [BRANCH] + NO_BLOCK;
    hide FlatZip, FlatOpener, EncZip, EncOpener;
    EnterRep(q, z, o, t.open, told);
    w := Inner(z, o, [], Idle);
  }

  lemma {:induction false} FinalizeElseInv(p: Parser, z: Zip, t: Tale) returns (w: Zip)
    requires Inv(p, z, t)
    ensures FinalizeElse(p).ok ==> Inv(FinalizeElse(p), w, ElseOpened(p, t))
    ensures NestedZip(w) <==> NestedZip(z)
  {
    hide Rep, NestedZip, FindBranch, ElseIn;
    w := z;
    if Dangling(p) {
    } else if p.canElse && (!Top(p).special || Top(p).braceLevel > 0) {
      w := FreshElseInv(p, z, t);
    } else {
      w := FindBranchInv(p, z, t);
    }
  }

  lemma {:induction false} FinalizeCondInv(p: Parser, z: Zip, t: Tale, words: nat, e: Expr) returns (w: Zip)
    requires Inv(p, z, t) && Seps(e) == 0
    ensures FinalizeCond(p, words, e).ok ==> Inv(FinalizeCond(p, words, e), w, CondTold(p, t, words, e))
    ensures NestedZip(w) <==> NestedZip(z)
  {
    w := z;
    if words == 1 {
      if IsElse(e) {
        w := FinalizeElseInv(p, z, t);
      } else {
        w := TestItem(p, z, t, Item.Cond(e));
      }
    }
  }

  /** Whether a jump, a returned value or a scope bypass still stands in the loop or function it needs
      once the one-line scopes of the line before are closed. The parser asks before closing them. */
  predicate Placed(p: Parser, ev: Event)
    requires Running(p)
  {
    ev.Invocation? && ev.words == 1 ==> PlacedCall(KeywordOf(ev.e), ev.args, Top(FlushScopes(p)).nest)
  }

  predicate PlacedCall(keyword: Keyword, args: Expr, nest: Nesting) {
    match keyword
    case KwNext => nest.inLoop
    case KwBreak => nest.inLoop
    case KwReturn => nest.inFunc || args.End?
    case KwBypass => nest.inFunc
    case _ => true
  }

  lemma {:induction false} EnterBlock(b: Parser, z: Zip, t: Tale, o: Opener, q: Parser) returns (w: Zip)
    requires Rep(b, z, t) && z.pend.Idle? && SeparatedOpener(o) && Special(o)
    requires q.toks == b.toks + EncOpener(o) + NO_BLOCK && q.state == StCtrl
    requires var nest := Inside(o, Top(b).nest);
      q.blockstack == b.blockstack + [BlockScope(|b.toks + EncOpener(o)|, 0, true, false, nest)]
    ensures Inv(q, w, Opened(Noted(t, HeadOf(o))))
    ensures NestedZip(w) <==> NestedZip(z) && NestedOpener(o, Top(b).nest)
  {
    TopOf(b, z, t);
    var told := Opened(Noted(t, HeadOf(o)));
    assert told.notes == FlatZip(z) + FlatOpener(o, Home(z), |FlatZip(z)|) by {
      hide FlatZip, Home, Rep;
    }
    assert q.blockstack[..|q.blockstack| - 1] == b.blockstack;
    hide FlatZip, FlatOpener, EncZip, EncOpener, Shape, Levels, NestedZip, Home, Tells, Inside;
    EnterRep(q, z, o, t.open, told);
    w := Inner(z, o, [], Idle);
  }

  lemma {:induction false} EnterLoopInv(r: Parser, z: Zip, t: Tale, loop: Item) returns (w: Zip)
    requires Rep(r, z, t) && z.pend.Idle? && loop.For? && loop.body == [] && Seps(loop.list) == 0
    ensures Inv(EnterLoop(r, loop), w, Opened(Noted(t, loop))) && (NestedZip(w) <==> NestedZip(z))
  {
    var o := InFor(loop.h0, loop.h1, loop.name, loop.list);
    assert EncOpener(o) == EncForHead(loop.h0, loop.h1, loop.name, loop.list);
    w := EnterBlock(r, z, t, o, EnterLoop(r, loop));
    assert HeadOf(o) == loop;
  }

  lemma {:induction false} StartLoopInv(d: Parser, z: Zip, t: Tale, loop: seq<Item>) returns (w: Zip)
    requires Inv(d, z, t)
    requires |loop| <= 1 && (loop != [] ==> loop[0].For? && loop[0].body == [] && Seps(loop[0].list) == 0)
    ensures StartLoop(d, loop).ok ==>
      Inv(StartLoop(d, loop), w, LoopTold(d, t, loop)) && (NestedZip(w) <==> NestedZip(z))
  {
    w := z;
    if loop != [] {
      FlushKeeps(d);
      var f := FlushCondInv(d, z, t);
      var m := PutLineMarkerRep(FlushCond(d), f, ThenOpened(d, t));
      w := EnterLoopInv(PutLineMarker(FlushCond(d)), m, Marked(d, ThenOpened(d, t)), loop[0]);
    }
  }

  lemma {:induction false} FinalizeForInv(p: Parser, z: Zip, t: Tale, args: Expr) returns (w: Zip)
    requires Inv(p, z, t)
    ensures FinalizeFor(p, args).ok ==>
      Inv(FinalizeFor(p, args), w, LoopTold(DropColon(p), t, LoopOf(args))) && (NestedZip(w) <==> NestedZip(z))
  {
    w := StartLoopInv(DropColon(p), z, t, LoopOf(args));
  }

  lemma {:induction false} EnterFunctionInv(r: Parser, z: Zip, t: Tale, tok: DefTok, name: Text) returns (w: Zip)
    requires Rep(r, z, t) && z.pend.Idle?
    ensures Inv(EnterFunction(r, tok, name), w, Opened(Noted(t, Def(tok, HashLow(name), HashHigh(name), name, []))))
    ensures NestedZip(w) <==> NestedZip(z)
  {
    var o := InDef(tok, HashLow(name), HashHigh(name), name);
    assert EncOpener(o) == [tok] + EncHash(HashLow(name), HashHigh(name), name);
    w := EnterBlock(r, z, t, o, EnterFunction(r, tok, name));
  }

  lemma {:induction false} FinalizeDefInv(p: Parser, z: Zip, t: Tale, tok: DefTok, args: Expr) returns (w: Zip)
    requires Inv(p, z, t)
    ensures FinalizeDef(p, tok, args).ok ==>
      Inv(FinalizeDef(p, tok, args), w, DefTold(p, t, tok, args)) && (NestedZip(w) <==> NestedZip(z))
  {
    hide Rep, NestedZip, FlushScopes, PutLineMarker, PutOperator, EnterFunction, Marked, Linked;
    w := z;
    if FinalizeDef(p, tok, args).ok {
      FlushKeeps(p);
      var f := FlushScopesInv(p, z, t);
      var kept := Kept(t, FlushScopes(p));
      MarkedSame(p, FlushScopes(p), kept);
      var m := MarkRep(FlushScopes(p), f, kept);
      w := EnterFunctionInv(Mark(FlushScopes(p)), m, Linked(p, Marked(p, kept)), tok, args.text);
    }
  }

  lemma {:induction false} EnterBypassInv(r: Parser, z: Zip, t: Tale) returns (w: Zip)
    requires Rep(r, z, t) && z.pend.Idle?
    ensures Inv(EnterScope(Put(r, [BYPASS_NESTING]), true, StCtrl), w, Opened(Noted(t, Bypass([]))))
    ensures NestedZip(w) <==> NestedZip(z) && Top(r).nest.inFunc
  {
    var q := EnterScope(Put(r, [BYPASS_NESTING]), true, StCtrl);
    assert q.blockstack == r.blockstack + [BlockScope(|r.toks + EncOpener(InBypass)|, 0, true, false, Top(r).nest)];
    hide Rep, NestedZip;
    w := EnterBlock(r, z, t, InBypass, q);
  }

  lemma {:induction false} FinalizeBypassInv(p: Parser, z: Zip, t: Tale, args: Expr) returns (w: Zip)
    requires Inv(p, z, t)
    ensures FinalizeBypass(p, args).ok ==>
      && Inv(FinalizeBypass(p, args), w, HeadTold(p, t, Bypass([])))
      && (NestedZip(w) <==> NestedZip(z) && Top(FlushScopes(p)).nest.inFunc)
  {
    hide Rep, NestedZip, FlushScopes, PutLineMarker, PutOperator, EnterScope, Marked, Linked;
    w := z;
    if FinalizeBypass(p, args).ok {
      FlushKeeps(p);
      var f := FlushScopesInv(p, z, t);
      var kept := Kept(t, FlushScopes(p));
      MarkedSame(p, FlushScopes(p), kept);
      var m := MarkRep(FlushScopes(p), f, kept);
      w := EnterBypassInv(Mark(FlushScopes(p)), m, Linked(p, Marked(p, kept)));
    }
  }

  lemma {:induction false} FinalizeReturnInv(p: Parser, z: Zip, t: Tale, args: Expr) returns (w: Zip)
    requires Inv(p, z, t)
    ensures FinalizeReturn(p, args).ok ==>
      && Inv(FinalizeReturn(p, args), w, Tested(p, t, Ret(args)))
      && (NestedZip(w) <==> NestedZip(z) && (Top(FlushScopes(p)).nest.inFunc || args.End?))
  {
    w := z;
    if FinalizeReturn(p, args).ok {
      w := TestItem(p, z, t, Ret(args));
    }
  }

  lemma {:induction false} FinalizeJumpInv(p: Parser, z: Zip, t: Tale, tok: JumpTok, args: Expr) returns (w: Zip)
    requires Inv(p, z, t)
    ensures FinalizeJump(p, tok, args).ok ==>
      && Inv(FinalizeJump(p, tok, args), w, Tested(p, t, Jump(tok)))
      && (NestedZip(w) <==> NestedZip(z) && Top(FlushScopes(p)).nest.inLoop)
  {
    w := z;
    if FinalizeJump(p, tok, args).ok {
      w := TestItem(p, z, t, Jump(tok));
    }
  }

  lemma {:induction false} FinalizeCallInv(p: Parser, z: Zip, t: Tale, e: Expr, args: Expr) returns (w: Zip)
    requires Inv(p, z, t) && Seps(e) == 0
    ensures FinalizeCall(p, e, args).ok ==>
      && Inv(FinalizeCall(p, e, args), w, CallTold(p, t, e, args))
      && (NestedZip(w) <==> NestedZip(z) && PlacedCall(KeywordOf(e), args, Top(FlushScopes(p)).nest))
  {
    hide FinalizeFor, FinalizeDef, FinalizeBypass, FinalizeReturn, FinalizeJump, FlushScopes;
    hide Rep, NestedZip, Tested, HeadTold, LoopTold, DefTold, FinalizeTest, EncExpr, LoopOf, PutOperator, DropColon;
    match KeywordOf(e)
    case KwFor => w := FinalizeForInv(p, z, t, args);
    case KwDefineReplace => w := FinalizeDefInv(p, z, t, REPLACE_DEF, args);
    case KwDefineTest => w := FinalizeDefInv(p, z, t, TEST_DEF, args);
    case KwBypass => w := FinalizeBypassInv(p, z, t, args);
    case KwReturn => w := FinalizeReturnInv(p, z, t, args);
    case KwNext => w := FinalizeJumpInv(p, z, t, NEXT, args);
    case KwBreak => w := FinalizeJumpInv(p, z, t, BREAK, args);
    case KwOption =>
      w := z;
      if FinalizeOption(p, args).ok {
        RepSame(p, z, t, FinalizeOption(p, args));
      }
    case KwNone => w := TestItem(p, z, t, Call(e, args));
  }

  lemma {:induction false} CloseBlockInv(p: Parser, z: Zip, t: Tale) returns (w: Zip)
    requires Inv(p, z, t) && Top(p).braceLevel > 0
    ensures Inv(CloseBlock(p), w, Kept(t, CloseBlock(p))) && |CloseBlock(p).blockstack| <= |p.blockstack|
    ensures NestedZip(w) <==> NestedZip(z)
  {
    var d := SetTop(p, Top(p).(braceLevel := Top(p).braceLevel - 1));
    BraceLevelRep(p, z, t, Top(d).braceLevel, d);
    w := z;
    if Top(d).braceLevel == 0 && |d.blockstack| != 1 {
      LeaveScopeCloses(d, z, t);
      w := Close(z);
    }
  }

  lemma {:induction false} CloseScopeInv(p: Parser, z: Zip, t: Tale) returns (w: Zip)
    requires Inv(p, z, t)
    ensures CloseScope(p).ok ==> Inv(CloseScope(p), w, Kept(t, CloseScope(p)))
    ensures NestedZip(w) <==> NestedZip(z)
  {
    w := FlushScopesInv(p, z, t);
    var f := FailOperator(FlushScopes(p));
    var kept := Kept(t, FlushScopes(p));
    assert Inv(f, w, kept);
    if Top(f).braceLevel > 0 {
      w := CloseBlockInv(f, w, kept);
      KeptCloses(p, t);
    }
  }

  lemma KeptCloses(p: Parser, t: Tale)
    requires Running(p) && |p.blockstack| == |t.open| && Top(FailOperator(FlushScopes(p))).braceLevel > 0
    ensures Kept(Kept(t, FlushScopes(p)), CloseScope(p)) == Kept(t, CloseScope(p))
  {
    var f := FlushScopes(p);
    if |f.blockstack| < |t.open| {
      KeptTwice(t, |f.blockstack|, CloseScope(p));
    }
  }

  lemma {:induction false} BraceLevelRep(p: Parser, z: Zip, t: Tale, level: nat, q: Parser)
    requires Rep(p, z, t) && q.toks == p.toks
    requires q.blockstack == SetTop(p, Top(p).(braceLevel := level)).blockstack
    ensures Rep(q, z, t)
  {
    var n := |p.blockstack| - 1;
    assert q.blockstack[..n] == p.blockstack[..n];
  }

  lemma {:induction false} OpenScopeInv(p: Parser, z: Zip, t: Tale) returns (w: Zip)
    requires Inv(p, z, t)
    ensures Inv(OpenScope(p), w, ThenOpened(FailOperator(DropColon(p)), t))
    ensures NestedZip(w) <==> NestedZip(z)
  {
    var d := FailOperator(DropColon(p));
    assert Inv(d, z, t);
    w := FlushCondInv(d, z, t);
    BraceLevelRep(FlushCond(d), w, ThenOpened(d, t), Top(FlushCond(d)).braceLevel + 1, OpenScope(p));
  }

  lemma {:induction false} PutAssignmentInv(p: Parser, z: Zip, t: Tale, words: nat, e: Expr, tok: AssignTok,
                                            valueWords: nat, value: Expr)
    returns (w: Zip)
    requires Inv(p, z, t) && Seps(e) == 0 && Seps(value) == 0
    ensures var q := PutAssignment(p, words, e, tok, valueWords, value);
      q.ok ==> Inv(q, w, AssignmentTold(p, t, e, tok, valueWords, value))
    ensures NestedZip(w) <==> NestedZip(z)
  {
    hide Rep, NestedZip, FlushCond, Marked, ThenOpened, Noted, SizeHint, EncExpr, EncItem;
    FlushKeeps(p);
    var c := FlushCondInv(p, z, t);
    var d, told := FailOperator(DropColon(FlushCond(p))), ThenOpened(p, t);
    RepSame(FlushCond(p), c, told, d);
    var m := PutLineMarkerRep(d, c, told);
    var item := Assign(e, tok, SizeHint(valueWords, value), value);
    var q := PutAssignment(p, words, e, tok, valueWords, value);
    w := Add(m, item);
    if q.ok {
      AssignmentToks(PutLineMarker(d), item, q);
      AddItem(PutLineMarker(d), m, Marked(d, told), item, q);
      MarkedLine(p, d, told);
    } else {
      AddNested(m, item);
    }
  }

  lemma MarkedLine(p: Parser, q: Parser, t: Tale)
    requires q.markLine == p.markLine
    ensures Marked(q, t) == Marked(p, t)
  {
  }

  lemma AssignmentToks(m: Parser, item: Item, q: Parser)
    requires item.Assign?
    requires q.toks == m.toks + EncExpr(item.e) + ([item.assign, item.hint] + EncExpr(item.value) + [VALUE_TERMINATOR])
    ensures q.toks == m.toks + EncItem(item)
  {
  }

  lemma {:induction false} OpenBraceInv(p: Parser, z: Zip, t: Tale, words: nat, e: Expr) returns (w: Zip)
    requires Inv(p, z, t) && Seps(e) == 0
    ensures var q := OpenScope(FinalizeCond(p, words, e)); q.ok ==> Inv(q, w, EventTold(p, t, OpenBrace(words, e)))
    ensures NestedZip(w) <==> NestedZip(z)
  {
    hide Rep, NestedZip, FinalizeCond, CondTold, ThenOpened, OpenScope;
    w := FinalizeCondInv(p, z, t, words, e);
    var c := FinalizeCond(p, words, e);
    if c.ok {
      w := OpenScopeInv(c, w, CondTold(p, t, words, e));
    }
  }

  lemma {:induction false} CloseBraceInv(p: Parser, z: Zip, t: Tale, words: nat, e: Expr) returns (w: Zip)
    requires Inv(p, z, t) && Seps(e) == 0
    ensures var q := CloseScope(FinalizeCond(p, words, e).(state := StNew));
      q.ok ==> Inv(q, w, EventTold(p, t, CloseBrace(words, e)))
    ensures NestedZip(w) <==> NestedZip(z)
  {
    hide Rep, NestedZip, FinalizeCond, CondTold, CloseScope;
    w := FinalizeCondInv(p, z, t, words, e);
    var c := FinalizeCond(p, words, e).(state := StNew);
    if c.ok {
      RepSame(FinalizeCond(p, words, e), w, CondTold(p, t, words, e), c);
      w := CloseScopeInv(c, w, CondTold(p, t, words, e));
    }
  }

  lemma {:induction false} AssignmentInv(p: Parser, z: Zip, t: Tale, ev: Event) returns (w: Zip)
    requires Inv(p, z, t) && ev.Assignment? && Tokenized(ev)
    ensures Step(p, ev).ok ==> Inv(Step(p, ev), w, EventTold(p, t, ev))
    ensures NestedZip(w) <==> NestedZip(z)
  {
    hide Rep, NestedZip, PutAssignment, AssignmentTold, CloseScope;
    w := PutAssignmentInv(p, z, t, ev.words, ev.e, ev.tok, ev.valueWords, ev.value);
    var q := PutAssignment(p, ev.words, ev.e, ev.tok, ev.valueWords, ev.value);
    if ev.closing && q.ok {
      w := CloseScopeInv(q, w, AssignmentTold(p, t, ev.e, ev.tok, ev.valueWords, ev.value));
    }
  }

  /** An expression ends, and an operator or a new line follows. */
  lemma {:induction false} CondStepInv(p: Parser, z: Zip, t: Tale, words: nat, e: Expr, q: Parser) returns (w: Zip)
    requires Inv(p, z, t) && Seps(e) == 0 && Running(q)
    requires var c := FinalizeCond(p, words, e);
      q.toks == c.toks && q.blockstack == c.blockstack && q.canElse == c.canElse && (q.ok ==> c.ok)
      && (q.state == c.state || q.state == StNew)
    ensures q.ok ==> Inv(q, w, CondTold(p, t, words, e))
    ensures NestedZip(w) <==> NestedZip(z)
  {
    hide Rep, NestedZip, FinalizeCond, CondTold;
    w := FinalizeCondInv(p, z, t, words, e);
    if q.ok {
      RepSame(FinalizeCond(p, words, e), w, CondTold(p, t, words, e), q);
    }
  }

  lemma {:induction false} StepInv(p: Parser, z: Zip, t: Tale, ev: Event) returns (w: Zip)
    requires Inv(p, z, t) && Tokenized(ev)
    ensures Step(p, ev).ok ==>
      Inv(Step(p, ev), w, EventTold(p, t, ev)) && (NestedZip(w) <==> NestedZip(z) && Placed(p, ev))
  {
    hide Rep, NestedZip, FinalizeCond, FinalizeCall, PutAssignment, CondTold, CallTold, OpenScope, CloseScope;
    hide PlacedCall, FlushScopes;
    w := z;
    match ev
    case Colon(words, e) => w := CondStepInv(p, z, t, words, e, Step(p, ev));
    case Pipe(words, e) => w := CondStepInv(p, z, t, words, e, Step(p, ev));
    case Newline(words, e) => w := CondStepInv(p, z, t, words, e, Step(p, ev));
    case OpenBrace(words, e) => w := OpenBraceInv(p, z, t, words, e);
    case CloseBrace(words, e) => w := CloseBraceInv(p, z, t, words, e);
    case Assignment(_, _, _, _, _, _) => w := AssignmentInv(p, z, t, ev);
    case Invocation(words, e, args) =>
      if words == 1 {
        w := FinalizeCallInv(p, z, t, e, args);
      }
    case Unclosed =>
    case _ => RepSame(p, z, t, Step(p, ev));
  }

  /** Every jump, returned value and scope bypass of a run is `Placed`. */
  predicate AllPlaced(p: Parser, evs: seq<Event>)
    requires Running(p)
  {
    evs == [] || var before := evs[..|evs| - 1]; AllPlaced(p, before) && Placed(Run(p, before), evs[|evs| - 1])
  }

  predicate AllTokenized(evs: seq<Event>) { forall i | 0 <= i < |evs| :: Tokenized(evs[i]) }

  lemma StartInv(line: int, testGrammar: bool)
    ensures Inv(Init(line, testGrammar), Root([], Idle), START)
    ensures NestedZip(Root([], Idle))
  {
  }

  lemma {:induction false} RunInv(line: int, testGrammar: bool, evs: seq<Event>) returns (w: Zip)
    requires AllTokenized(evs) && Run(Init(line, testGrammar), evs).ok
    ensures Inv(Run(Init(line, testGrammar), evs), w, Story(Init(line, testGrammar), START, evs))
    ensures NestedZip(w) <==> AllPlaced(Init(line, testGrammar), evs)
  {
    if evs == [] {
      w := Root([], Idle);
      StartInv(line, testGrammar);
    } else {
      var before := evs[..|evs| - 1];
      var p := Run(Init(line, testGrammar), before);
      w := RunInv(line, testGrammar, before);
      w := StepInv(p, w, Story(Init(line, testGrammar), START, before), evs[|evs| - 1]);
    }
  }

  lemma {:induction false} FinishRoot(p: Parser, z: Zip, t: Tale)
    requires Inv(p, z, t) && z.pend.Idle? && |p.blockstack| == 1
    ensures LeaveAll(p).toks == EncItems(z.items)
    ensures Separated(z.items) && Flat(z.items, FILE, 0) == t.notes && NestOf(z) == NEST_NONE
    ensures NestedZip(z) <==> Nested(z.items, NEST_NONE)
  {
    assert LeaveScope(p) == p.(blockstack := []);
    assert EncZip(z) == EncItems(z.items) + [];
    assert FlatZip(z) == [] + Flat(z.items, FILE, 0) + [];
  }

  lemma {:induction false} LastLineInv(p: Parser, z: Zip, t: Tale, words: nat, e: Expr) returns (w: Zip)
    requires Inv(p, z, t) && Seps(e) == 0 && LastLine(p, words, e).ok
    ensures Inv(LastLine(p, words, e), w, Kept(CondTold(p, t, words, e), LastLine(p, words, e))) && w.pend.Idle?
    ensures NestedZip(w) <==> NestedZip(z)
  {
    w := FinalizeCondInv(p, z, t, words, e);
    var c := WarnOperator(FinalizeCond(p, words, e));
    assert Inv(c, w, CondTold(p, t, words, e));
    w := FlushScopesInv(c, w, CondTold(p, t, words, e));
  }

  lemma {:induction false} FinishTree(p: Parser, z: Zip, t: Tale, words: nat, e: Expr) returns (items: seq<Item>)
    requires Inv(p, z, t) && Seps(e) == 0 && CheckClosed(LastLine(p, words, e)).ok
    ensures Finish(p, words, e).toks == EncItems(items) && Separated(items)
    ensures Flat(items, FILE, 0) == CondTold(p, t, words, e).notes
    ensures Nested(items, NEST_NONE) <==> NestedZip(z)
  {
    hide Rep, NestedZip, Nested, EncItems, Separated, Flat, CondTold, LeaveAll;
    var last := LastLine(p, words, e);
    var kept := Kept(CondTold(p, t, words, e), last);
    var w := LastLineInv(p, z, t, words, e);
    RepSame(last, w, kept, CheckClosed(last));
    FinishRoot(CheckClosed(last), w, kept);
    items := w.items;
  }

  /** All that a text says. */
  function Notes(line: int, testGrammar: bool, evs: seq<Event>, words: nat, e: Expr): seq<Note> {
    var p := Init(line, testGrammar);
    CondTold(Run(p, evs), Story(p, START, evs), words, e).notes
  }

  lemma ParseTree(line: int, testGrammar: bool, evs: seq<Event>, words: nat, e: Expr) returns (items: seq<Item>)
    requires AllTokenized(evs) && Seps(e) == 0
    requires Parse(line, testGrammar, evs, words, e).ok
    ensures Parse(line, testGrammar, evs, words, e).toks == EncItems(items) && Separated(items)
    ensures Flat(items, FILE, 0) == Notes(line, testGrammar, evs, words, e)
    ensures Nested(items, NEST_NONE) <==> AllPlaced(Init(line, testGrammar), evs)
  {
    var p, t := Run(Init(line, testGrammar), evs), Story(Init(line, testGrammar), START, evs);
    LeaveAllOk(CheckClosed(LastLine(p, words, e)));
    var z := RunInv(line, testGrammar, evs);
    items := FinishTree(p, z, t, words, e);
  }

  /** The finished stream of a text parsed without error encodes a tree: every branch has its two
      blocks, every length skips exactly its block. It is the one tree that says what the events said in
      the scopes they stood in; and it is properly nested exactly if every jump was placed. */
  lemma ParseWellFormed(line: int, testGrammar: bool, evs: seq<Event>, words: nat, e: Expr)
    requires AllTokenized(evs) && Seps(e) == 0
    requires Parse(line, testGrammar, evs, words, e).ok
    ensures exists items :: Flat(items, FILE, 0) == Notes(line, testGrammar, evs, words, e)
    ensures forall items | Flat(items, FILE, 0) == Notes(line, testGrammar, evs, words, e) ::
      && Parse(line, testGrammar, evs, words, e).toks == EncItems(items)
      && Separated(items)
      && (Nested(items, NEST_NONE) <==> AllPlaced(Init(line, testGrammar), evs))
  {
    var tree := ParseTree(line, testGrammar, evs, words, e);
    forall items | Flat(items, FILE, 0) == Notes(line, testGrammar, evs, words, e) ensures items == tree {
      FlatUnique(items, tree, FILE, 0);
    }
  }
}
