/** What a text says, as a list of notes. Each note names the note that opened the block it stands in, so
    the notes determine a tree; `Story` reads them off the events and the scopes open at each of them. */
module ParserStory {
  import opened ProTokens
  import opened ParserScopes

  /** The head of a loop, function or bypass is said with an empty body. */
  datatype Content = Says(item: Item) | Fork | Then | Else

  /** `home` is the place of the note that opened the block around; of a then or an else, its fork. */
  datatype Note = Note(home: int, content: Content)

  /** The notes of no block: those of the whole file. */
  const FILE := -1  // negative, as no place is

  /** What a block says, if its first note has the place `at`. */
  function Flat(items: seq<Item>, home: int, at: nat): (r: seq<Note>)
    decreases items, 0
  {
    if items == [] then []
    else
      var first := FlatItem(items[0], home, at);
      first + Flat(items[1..], home, at + |first|)
  }

  function FlatSub(sub: Sub, content: Content, fork: int, at: nat): (r: seq<Note>) {
    match sub
    case Absent => []
    case Present(body) => [Note(fork, content)] + Flat(body, at, at + 1)
  }

  function FlatItem(item: Item, home: int, at: nat): (r: seq<Note>) {
    match item
    case Branch(thn, els) =>
      var first := FlatSub(thn, Then, at, at + 1);
      [Note(home, Fork)] + (first + FlatSub(els, Else, at, at + 1 + |first|))
    case For(h0, h1, name, list, body) =>
      [Note(home, Says(For(h0, h1, name, list, [])))] + Flat(body, at, at + 1)
    case Def(t, h0, h1, name, body) => [Note(home, Says(Def(t, h0, h1, name, [])))] + Flat(body, at, at + 1)
    case Bypass(body) => [Note(home, Says(Bypass([])))] + Flat(body, at, at + 1)
    case _ => [Note(home, Says(item))]
  }

  lemma {:induction false} FlatSnoc(xs: seq<Item>, x: Item, home: int, at: nat)
    ensures Flat(xs + [x], home, at) == Flat(xs, home, at) + FlatItem(x, home, at + |Flat(xs, home, at)|)
  {
    if xs == [] {
      assert xs + [x] == [x] && [x][1..] == [];
    } else {
      var first := FlatItem(xs[0], home, at);
      FlatSnoc(xs[1..], x, home, at + |first|);
      assert (xs + [x])[1..] == xs[1..] + [x];
      var tail := Flat(xs[1..], home, at + |first|);
      var last := FlatItem(x, home, at + |first| + |tail|);
      assert first + (tail + last) == (first + tail) + last;
    }
  }

  // ---- the notes determine the tree

  /** All notes stand in the block `home` or in one opened from `at` on. */
  predicate Homed(notes: seq<Note>, home: int, at: nat) {
    forall i | 0 <= i < |notes| :: notes[i].home == home || notes[i].home >= at
  }

  predicate Within(notes: seq<Note>, at: nat) { forall i | 0 <= i < |notes| :: notes[i].home >= at }

  lemma {:induction false} FlatHomed(items: seq<Item>, home: int, at: nat)
    ensures Homed(Flat(items, home, at), home, at)
    decreases items, 0
  {
    if items != [] {
      FlatItemHomed(items[0], home, at);
      FlatHomed(items[1..], home, at + |FlatItem(items[0], home, at)|);
    }
  }

  lemma {:induction false} FlatSubInside(sub: Sub, content: Content, fork: nat, at: nat)
    requires fork <= at
    ensures Within(FlatSub(sub, content, fork, at), fork)
  {
    match sub
    case Absent =>
    case Present(body) => FlatHomed(body, at, at + 1);
  }

  /** The first note of an item stands in the block, all others within the item. */
  lemma {:induction false} FlatItemHomed(item: Item, home: int, at: nat)
    ensures FlatItem(item, home, at) != [] && FlatItem(item, home, at)[0].home == home
    ensures Within(FlatItem(item, home, at)[1..], at)
    decreases item, 1
  {
    match item
    case Branch(thn, els) =>
      FlatSubInside(thn, Then, at, at + 1);
      FlatSubInside(els, Else, at, at + 1 + |FlatSub(thn, Then, at, at + 1)|);
    case For(_, _, _, _, body) => FlatHomed(body, at, at + 1);
    case Def(_, _, _, _, body) => FlatHomed(body, at, at + 1);
    case Bypass(body) => FlatHomed(body, at, at + 1);
    case _ =>
  }

  lemma CutLength(a: seq<Note>, b: seq<Note>, c: seq<Note>, d: seq<Note>, home: int, at: nat)
    requires a + b == c + d && home < at && Within(c, at) && (b != [] ==> b[0].home == home)
    ensures |c| <= |a|
  {
    var s := a + b;
    assert |a| < |s| ==> s[|a|] == b[0];
    assert forall i | 0 <= i < |c| :: s[i] == c[i];
  }

  /** A list of notes falls apart in one way only into notes from within and notes that go on outside. */
  lemma CutUnique(a: seq<Note>, b: seq<Note>, c: seq<Note>, d: seq<Note>, home: int, at: nat)
    requires a + b == c + d && home < at
    requires Within(a, at) && Within(c, at)
    requires (b != [] ==> b[0].home == home) && (d != [] ==> d[0].home == home)
    ensures a == c && b == d
  {
    CutLength(a, b, c, d, home, at);
    CutLength(c, d, a, b, home, at);
    assert a == (a + b)[..|a|] && c == (c + d)[..|c|];
    assert b == (a + b)[|a|..] && d == (c + d)[|c|..];
  }

  /** The same, each with a note in front. */
  lemma HeadUnique(x: seq<Note>, b: seq<Note>, y: seq<Note>, d: seq<Note>, home: int, at: nat)
    requires x + b == y + d && home < at && x != [] && y != []
    requires Within(x[1..], at) && Within(y[1..], at)
    requires (b != [] ==> b[0].home == home) && (d != [] ==> d[0].home == home)
    ensures x == y && b == d
  {
    assert x[1..] + b == (x + b)[1..] && y[1..] + d == (y + d)[1..];
    CutUnique(x[1..], b, y[1..], d, home, at);
    assert x[0] == (x + b)[0] == (y + d)[0] == y[0];
    assert x == [x[0]] + x[1..] && y == [y[0]] + y[1..];
  }

  lemma FlatFirst(items: seq<Item>, home: int, at: nat)
    ensures items == [] <==> Flat(items, home, at) == []
    ensures items != [] ==> Flat(items, home, at)[0].home == home
  {
    if items != [] {
      FlatItemHomed(items[0], home, at);
    }
  }

  lemma {:induction false} FlatUnique(xs: seq<Item>, ys: seq<Item>, home: int, at: nat)
    requires Flat(xs, home, at) == Flat(ys, home, at) && home < at
    ensures xs == ys
    decreases xs, 0
  {
    hide FlatItem;
    FlatFirst(xs, home, at);
    FlatFirst(ys, home, at);
    if xs != [] {
      var x, y := FlatItem(xs[0], home, at), FlatItem(ys[0], home, at);
      FlatItemHomed(xs[0], home, at);
      FlatItemHomed(ys[0], home, at);
      FlatFirst(xs[1..], home, at + |x|);
      FlatFirst(ys[1..], home, at + |y|);
      HeadUnique(x, Flat(xs[1..], home, at + |x|), y, Flat(ys[1..], home, at + |y|), home, at);
      FlatItemUnique(xs[0], ys[0], home, at);
      FlatUnique(xs[1..], ys[1..], home, at + |x|);
      assert xs == [xs[0]] + xs[1..] && ys == [ys[0]] + ys[1..];
    }
  }

  /** The notes of a then or an else: its own, in the fork, and those within it. */
  predicate IsSub(notes: seq<Note>, content: Content, fork: nat) {
    notes != [] ==> notes[0] == Note(fork, content) && Within(notes[1..], fork + 1)
  }

  lemma SubFirst(sub: Sub, content: Content, fork: nat, at: nat)
    requires fork < at
    ensures IsSub(FlatSub(sub, content, fork, at), content, fork)
  {
    if sub.Present? {
      FlatHomed(sub.body, at, at + 1);
      assert FlatSub(sub, content, fork, at)[1..] == Flat(sub.body, at, at + 1);
    }
  }

  /** Where the notes of a branch change from its then to its else. */
  lemma ThenUnique(a: seq<Note>, b: seq<Note>, c: seq<Note>, d: seq<Note>, fork: nat)
    requires a + b == c + d && IsSub(a, Then, fork) && IsSub(c, Then, fork)
    requires IsSub(b, Else, fork) && IsSub(d, Else, fork)
    ensures a == c && b == d
  {
    assert a != [] ==> (a + b)[0] == a[0];
    assert c != [] ==> (c + d)[0] == c[0];
    if a != [] && c != [] {
      HeadUnique(a, b, c, d, fork, fork + 1);
    } else {
      assert [] + b == b && [] + d == d;
    }
  }

  lemma BodyUnique(x: seq<Item>, y: seq<Item>, head: Note, at: nat)
    requires [head] + Flat(x, at, at + 1) == [head] + Flat(y, at, at + 1)
    ensures Flat(x, at, at + 1) == Flat(y, at, at + 1)
  {
    assert ([head] + Flat(x, at, at + 1))[1..] == Flat(x, at, at + 1);
    assert ([head] + Flat(y, at, at + 1))[1..] == Flat(y, at, at + 1);
  }

  lemma BranchUnique(x: Item, y: Item, home: int, at: nat)
    requires x.Branch? && y.Branch? && FlatItem(x, home, at) == FlatItem(y, home, at)
    ensures FlatSub(x.thn, Then, at, at + 1) == FlatSub(y.thn, Then, at, at + 1)
    ensures var next := at + 1 + |FlatSub(x.thn, Then, at, at + 1)|;
      FlatSub(x.els, Else, at, next) == FlatSub(y.els, Else, at, next)
  {
    hide FlatSub, IsSub;
    var first, first' := FlatSub(x.thn, Then, at, at + 1), FlatSub(y.thn, Then, at, at + 1);
    var second := FlatSub(x.els, Else, at, at + 1 + |first|);
    var second' := FlatSub(y.els, Else, at, at + 1 + |first'|);
    SubFirst(x.thn, Then, at, at + 1);
    SubFirst(y.thn, Then, at, at + 1);
    SubFirst(x.els, Else, at, at + 1 + |first|);
    SubFirst(y.els, Else, at, at + 1 + |first'|);
    assert FlatItem(x, home, at)[1..] == first + second && FlatItem(y, home, at)[1..] == first' + second';
    ThenUnique(first, second, first', second', at);
  }

  lemma {:induction false} FlatItemUnique(x: Item, y: Item, home: int, at: nat)
    requires FlatItem(x, home, at) == FlatItem(y, home, at)
    ensures x == y
    decreases x, 1
  {
    assert FlatItem(x, home, at)[0] == FlatItem(y, home, at)[0];
    match x
    case Branch(thn, els) =>
      var notes, head := FlatItem(x, home, at)[1..], [Note(home, Fork)];
      BranchUnique(x, y, home, at);
      SubUnique(thn, y.thn, Then, at, at + 1);
      SubUnique(els, y.els, Else, at, at + 1 + |FlatSub(thn, Then, at, at + 1)|);
    case For(_, _, _, _, body) =>
      BodyUnique(body, y.body, FlatItem(x, home, at)[0], at);
      FlatUnique(body, y.body, at, at + 1);
    case Def(_, _, _, _, body) =>
      BodyUnique(body, y.body, FlatItem(x, home, at)[0], at);
      FlatUnique(body, y.body, at, at + 1);
    case Bypass(body) =>
      BodyUnique(body, y.body, FlatItem(x, home, at)[0], at);
      FlatUnique(body, y.body, at, at + 1);
    case _ =>
  }

  lemma {:induction false} SubUnique(x: Sub, y: Sub, content: Content, fork: int, at: nat)
    requires FlatSub(x, content, fork, at) == FlatSub(y, content, fork, at)
    ensures x == y
    decreases x, 1
  {
    if x.Present? {
      BodyUnique(x.body, y.body, Note(fork, content), at);
      FlatUnique(x.body, y.body, at, at + 1);
    }
  }

  // ---- the story of a run

  /** A scope that is open: the note that opened it, and the fork that may still get an else. */
  datatype Open = Open(head: int, fork: int)

  datatype Told = Told(notes: seq<Note>, open: seq<Open>)

  /** At least the file itself is open. */
  type Tale = t: Told | t.open != [] witness Told([], [Open(FILE, FILE)])

  const START: Tale := Told([], [Open(FILE, FILE)])

  function Here(t: Tale): Open { t.open[|t.open| - 1] }

  /** The scopes that are still open in `p`. */
  function Kept(t: Tale, p: Parser): Tale
    requires Running(p)
  {
    if |p.blockstack| < |t.open| then t.(open := t.open[..|p.blockstack|]) else t
  }

  function Noted(t: Tale, item: Item): Tale { t.(notes := t.notes + [Note(Here(t).head, Says(item))]) }

  /** The last note opens a scope. */
  function Opened(t: Tale): Tale { t.(open := t.open + [Open(|t.notes| - 1, FILE)]) }

  function Marked(p: Parser, t: Tale): Tale {
    if p.markLine != 0 then Noted(t, Line(p.markLine % 0x10000)) else t
  }

  /** The operator in front; an "and" says nothing behind an else or the head of a block. */
  function Linked(p: Parser, t: Tale): Tale {
    match p.op
    case NoOperator => t
    case AndOperator => if p.state == StCond then Noted(t, Op(AND)) else t
    case OrOperator => Noted(t, Op(OR))
  }

  function Negated(p: Parser, t: Tale): Tale { if p.invert % 2 == 1 then Noted(t, Op(NOT)) else t }

  /** A test stands in the innermost scope that the start of its line leaves open. */
  function Tested(p: Parser, t: Tale, item: Item): Tale
    requires Running(p)
  {
    Noted(Negated(p, Linked(p, Marked(p, Kept(t, FlushScopes(p))))), item)
  }

  /** What follows a test stands in a then block of its own. */
  function ThenOpened(p: Parser, t: Tale): Tale
    requires Running(p)
  {
    if p.state == StCond then
      var fork := |t.notes|;
      Opened(Told(t.notes + [Note(Here(t).head, Fork), Note(fork, Then)],
                  t.open[|t.open| - 1 := Here(t).(fork := fork)]))
    else
      Kept(t, FlushScopes(p))
  }

  /** The else of the fork that waits in the innermost of the first `n` scopes; the others end. */
  function ElseIn(t: Tale, n: nat): Tale
    requires 0 < n <= |t.open|
  {
    Opened(Told(t.notes + [Note(t.open[n - 1].fork, Else)], t.open[..n]))
  }

  /** An else belongs to the test in front of it, or to the innermost branch that can still have one. */
  function ElseOpened(p: Parser, t: Tale): Tale
    requires Running(p)
  {
    if p.canElse && (!Top(p).special || Top(p).braceLevel > 0) then
      Opened(t.(notes := t.notes + [Note(Here(t).head, Fork), Note(|t.notes|, Else)]))
    else
      var n := |FinalizeElse(p).blockstack| - 1;
      if 0 < n <= |t.open| then ElseIn(t, n) else t
  }

  function CondTold(p: Parser, t: Tale, words: nat, e: Expr): Tale
    requires Running(p)
  {
    if words != 1 then t else if IsElse(e) then ElseOpened(p, t) else Tested(p, t, Item.Cond(e))
  }

  function LoopTold(p: Parser, t: Tale, loop: seq<Item>): Tale
    requires Running(p)
  {
    if loop == [] then t else Opened(Noted(Marked(p, ThenOpened(p, t)), loop[0]))
  }

  /** The head of a block that starts where the line starts. */
  function HeadTold(p: Parser, t: Tale, head: Item): Tale
    requires Running(p)
  {
    Opened(Noted(Linked(p, Marked(p, Kept(t, FlushScopes(p)))), head))
  }

  function DefTold(p: Parser, t: Tale, tok: DefTok, args: Expr): Tale
    requires Running(p)
  {
    if args.Str? then HeadTold(p, t, Def(tok, HashLow(args.text), HashHigh(args.text), args.text, [])) else t
  }

  function CallTold(p: Parser, t: Tale, e: Expr, args: Expr): Tale
    requires Running(p)
  {
    match KeywordOf(e)
    case KwFor => LoopTold(DropColon(p), t, LoopOf(args))
    case KwDefineReplace => DefTold(p, t, REPLACE_DEF, args)
    case KwDefineTest => DefTold(p, t, TEST_DEF, args)
    case KwBypass => HeadTold(p, t, Bypass([]))
    case KwReturn => Tested(p, t, Ret(args))
    case KwNext => Tested(p, t, Jump(NEXT))
    case KwBreak => Tested(p, t, Jump(BREAK))
    case KwOption => t
    case KwNone => Tested(p, t, Call(e, args))
  }

  function AssignmentTold(p: Parser, t: Tale, e: Expr, tok: AssignTok, valueWords: nat, value: Expr): Tale
    requires Running(p)
  {
    Noted(Marked(p, ThenOpened(p, t)), Assign(e, tok, SizeHint(valueWords, value), value))
  }

  /** What an event says in the state `p`. */
  function EventTold(p: Parser, t: Tale, ev: Event): Tale
    requires Running(p)
  {
    match ev
    case Bang => t
    case CommentLine => t
    case Continuation => t
    case Unclosed => t
    case OpenBrace(words, e) =>
      ThenOpened(FailOperator(DropColon(FinalizeCond(p, words, e))), CondTold(p, t, words, e))
    case CloseBrace(words, e) =>
      Kept(CondTold(p, t, words, e), CloseScope(FinalizeCond(p, words, e).(state := StNew)))
    case Assignment(words, e, tok, valueWords, value, closing) =>
      var s := AssignmentTold(p, t, e, tok, valueWords, value);
      if closing then Kept(s, CloseScope(PutAssignment(p, words, e, tok, valueWords, value))) else s
    case Invocation(words, e, args) => if words == 1 then CallTold(p, t, e, args) else t
    case _ => CondTold(p, t, ev.words, ev.e)
  }

  /** The story `t` after `evs` more events. */
  function Story(p: Parser, t: Tale, evs: seq<Event>): Tale
    requires Running(p)
  {
    if evs == [] then t
    else
      var before := evs[..|evs| - 1];
      EventTold(Run(p, before), Story(p, t, before), evs[|evs| - 1])
  }
}
