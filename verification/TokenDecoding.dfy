/** The stream determines the tree: two trees with the same units differ only in whether a line mark in
    front of an expression counts as an item of its own. */
module TokenDecoding {
  import opened ProTokens
  import opened TokenWalk

  // ---- normal form

  function Lines(e: Expr): seq<Item> { if e.LineMark? then [Line(e.n)] + Lines(e.rest) else [] }

  /** The expression without the line marks in front. */
  function Core(e: Expr): (r: Expr)
    ensures !r.LineMark? && Seps(r) == Seps(e)
  {
    if e.LineMark? then Core(e.rest) else e
  }

  /** Line marks in front of an expression are items of their own. */
  function Normal(items: seq<Item>): seq<Item>
    decreases items, 0
  {
    if items == [] then [] else NormalItem(items[0]) + Normal(items[1..])
  }

  function NormalSub(sub: Sub): Sub { if sub.Absent? then Absent else Present(Normal(sub.body)) }

  function NormalItem(item: Item): seq<Item> {
    match item
    case Branch(thn, els) => [Item.Branch(NormalSub(thn), NormalSub(els))]
    case For(h0, h1, name, list, body) => [For(h0, h1, name, list, Normal(body))]
    case Def(t, h0, h1, name, body) => [Def(t, h0, h1, name, Normal(body))]
    case Bypass(body) => [Bypass(Normal(body))]
    case _ => if HasExpr(item) then Lines(item.e) + [WithExpr(item, Core(item.e))] else [item]
  }

  predicate IsNormal(items: seq<Item>)
    decreases items, 0
  {
    items == [] || (IsNormalItem(items[0]) && IsNormal(items[1..]))
  }

  predicate IsNormalSub(sub: Sub) { sub.Present? ==> IsNormal(sub.body) }

  predicate IsNormalItem(item: Item) {
    match item
    case Branch(thn, els) => IsNormalSub(thn) && IsNormalSub(els)
    case For(_, _, _, _, body) => IsNormal(body)
    case Def(_, _, _, _, body) => IsNormal(body)
    case Bypass(body) => IsNormal(body)
    case _ => HasExpr(item) ==> !item.e.LineMark?
  }

  lemma {:induction false} NormalAppend(xs: seq<Item>, ys: seq<Item>)
    ensures IsNormal(xs + ys) <==> IsNormal(xs) && IsNormal(ys)
    ensures Separated(xs + ys) <==> Separated(xs) && Separated(ys)
  {
    if xs == [] {
      assert xs + ys == ys;
    } else {
      NormalAppend(xs[1..], ys);
      assert (xs + ys)[1..] == xs[1..] + ys;
    }
  }

  lemma One(item: Item)
    ensures EncItems([item]) == EncItem(item)
    ensures IsNormal([item]) <==> IsNormalItem(item)
    ensures Separated([item]) <==> SeparatedItem(item)
  {
    assert [item][1..] == [];
  }

  lemma {:induction false} LinesEnc(e: Expr)
    ensures EncExpr(e) == EncItems(Lines(e)) + EncExpr(Core(e))
    ensures IsNormal(Lines(e)) && Separated(Lines(e))
  {
    if e.LineMark? {
      LinesEnc(e.rest);
      assert Lines(e)[1..] == Lines(e.rest);
      var lines, core := EncItems(Lines(e.rest)), EncExpr(Core(e.rest));
      assert [LINE, e.n] + (lines + core) == ([LINE, e.n] + lines) + core;
    } else {
      assert [] + EncExpr(e) == EncExpr(e);
    }
  }

  lemma CoreTail(item: Item)
    requires HasExpr(item)
    ensures var core := WithExpr(item, Core(item.e));
      core.e == Core(item.e) && Action(core) == Action(item) && Tail(core) == Tail(item)
  {
  }

  lemma CoreEnc(item: Item)
    requires HasExpr(item)
    ensures EncItem(item) == EncItems(Lines(item.e)) + EncItem(WithExpr(item, Core(item.e)))
  {
    hide EncExpr, EncItem, EncItems, Lines, Core, WithExpr, Tail, Action;
    LinesEnc(item.e);
    ActionEnc(item);
    ActionEnc(WithExpr(item, Core(item.e)));
    CoreTail(item);
    var lines, e, tail := EncItems(Lines(item.e)), EncExpr(Core(item.e)), [Action(item)] + Tail(item);
    assert lines + (e + tail) == (lines + e) + tail;
  }

  lemma {:induction false} ExprNormal(item: Item)
    requires HasExpr(item)
    ensures EncItems(NormalItem(item)) == EncItem(item) && IsNormal(NormalItem(item))
    ensures SeparatedItem(item) ==> Separated(NormalItem(item))
  {
    hide EncItem, EncItems, Lines, Separated, IsNormal;
    var core := WithExpr(item, Core(item.e));
    LinesEnc(item.e);
    CoreEnc(item);
    One(core);
    EncItemsAppend(Lines(item.e), [core]);
    NormalAppend(Lines(item.e), [core]);
  }

  /** The normal form has the same units. */
  lemma {:induction false} NormalSame(items: seq<Item>)
    ensures EncItems(Normal(items)) == EncItems(items) && IsNormal(Normal(items))
    ensures Separated(items) ==> Separated(Normal(items))
    decreases items, 0
  {
    if items != [] {
      NormalItemSame(items[0]);
      NormalSame(items[1..]);
      EncItemsAppend(NormalItem(items[0]), Normal(items[1..]));
      NormalAppend(NormalItem(items[0]), Normal(items[1..]));
    }
  }

  lemma {:induction false} NormalSubSame(sub: Sub)
    ensures EncSub(NormalSub(sub)) == EncSub(sub) && IsNormalSub(NormalSub(sub))
    ensures SeparatedSub(sub) ==> SeparatedSub(NormalSub(sub))
    decreases sub, 1
  {
    if sub.Present? {
      NormalSame(sub.body);
    }
  }

  lemma {:induction false} NormalItemSame(item: Item)
    ensures EncItems(NormalItem(item)) == EncItem(item) && IsNormal(NormalItem(item))
    ensures SeparatedItem(item) ==> Separated(NormalItem(item))
    decreases item, 1
  {
    if HasExpr(item) {
      ExprNormal(item);
    } else {
      One(NormalItem(item)[0]);
      match item
      case Branch(thn, els) =>
        NormalSubSame(thn);
        NormalSubSame(els);
      case For(_, _, _, _, body) => NormalSame(body);
      case Def(_, _, _, _, body) => NormalSame(body);
      case Bypass(body) => NormalSame(body);
      case _ =>
    }
  }

  // ---- unique decoding

  predicate Stops(stop: Unit) { IsStop(stop) && stop != ARG_SEPARATOR }

  lemma {:induction false} ExprUnique(toks: seq<Unit>, p: nat, x: Expr, y: Expr, s: Unit, s': Unit)
    requires At(toks, p, EncExpr(x) + [s]) && At(toks, p, EncExpr(y) + [s']) && Stops(s) && Stops(s')
    ensures x == y && s == s'
    decreases x
  {
    hide At, EncExpr;
    ExprHead(toks, p, x, s);
    ExprHead(toks, p, y, s');
    match x
    case End =>
    case Sep(rest) =>
      HeadSep(toks, p, x, s);
      HeadSep(toks, p, y, s');
      ExprUnique(toks, p + 1, rest, y.rest, s, s');
    case LineMark(_, rest) =>
      HeadLine(toks, p, x, s);
      HeadLine(toks, p, y, s');
      ExprUnique(toks, p + 2, rest, y.rest, s, s');
    case Str(t, f, text, rest) =>
      HeadStr(toks, p, x, s);
      HeadStr(toks, p, y, s');
      TokUnique(t, f, y.str, y.flags);
      ExprUnique(toks, p + 2 + |text|, rest, y.rest, s, s');
    case Hashed(t, f, _, _, text, rest) =>
      HashedUnique(toks, p, x, y, s, s');
      TokUnique(t, f, y.hashed, y.flags);
      ExprUnique(toks, p + 4 + |text|, rest, y.rest, s, s');
    case Func(f, _, _, text, args, rest) =>
      FuncUnique(toks, p, x, y, s, s');
      TokUnique(FUNC_NAME, f, FUNC_NAME, y.flags);
      ExprUnique(toks, p + 4 + |text|, args, y.args, FUNC_TERMINATOR, FUNC_TERMINATOR);
      ExprUnique(toks, p + 5 + |text| + |EncExpr(args)|, rest, y.rest, s, s');
  }

  lemma TokUnique(a: Unit, f: Flags, b: Unit, g: Flags)
    requires a < MASK && b < MASK && Tok(a, f) == Tok(b, g)
    ensures a == b && f == g
  {
  }

  /** The hash units in front of a text. */
  lemma HashUnits(toks: seq<Unit>, p: nat, h0: Unit, h1: Unit, s: Text, tail: seq<Unit>)
    requires At(toks, p, EncHash(h0, h1, s) + tail)
    ensures p + 3 + |s| <= |toks| && toks[p] == h0 && toks[p + 1] == h1 && toks[p + 2] == |s|
    ensures toks[p + 3..p + 3 + |s|] == s && At(toks, p + 3 + |s|, tail)
  {
    HashAt(toks, p, h0, h1, s, tail);
    assert EncHash(h0, h1, s) + tail == [h0, h1] + ([|s|] + s + tail);
    AtPair(toks, p, h0, h1, [|s|] + s + tail);
  }

  lemma HashedUnits(toks: seq<Unit>, p: nat, e: Expr, stop: Unit)
    requires e.Hashed? && At(toks, p, EncExpr(e) + [stop])
    ensures p + 4 + |e.text| <= |toks| && toks[p + 1] == e.h0 && toks[p + 2] == e.h1
  {
    var tail := EncExpr(e.rest) + [stop];
    assert EncExpr(e) + [stop] == [Tok(e.hashed, e.flags)] + (EncHash(e.h0, e.h1, e.text) + tail);
    AtSplit(toks, p, [Tok(e.hashed, e.flags)], EncHash(e.h0, e.h1, e.text) + tail);
    HashUnits(toks, p + 1, e.h0, e.h1, e.text, tail);
  }

  lemma HashedUnique(toks: seq<Unit>, p: nat, x: Expr, y: Expr, s: Unit, s': Unit)
    requires x.Hashed? && y.Hashed? && At(toks, p, EncExpr(x) + [s]) && At(toks, p, EncExpr(y) + [s'])
    ensures x.h0 == y.h0 && x.h1 == y.h1 && x.text == y.text && Tok(x.hashed, x.flags) == Tok(y.hashed, y.flags)
    ensures var q := p + 4 + |x.text|; At(toks, q, EncExpr(x.rest) + [s]) && At(toks, q, EncExpr(y.rest) + [s'])
  {
    hide At, EncExpr;
    HeadHashed(toks, p, x, s);
    HeadHashed(toks, p, y, s');
    HashedUnits(toks, p, x, s);
    HashedUnits(toks, p, y, s');
  }

  lemma FuncUnits(toks: seq<Unit>, p: nat, e: Expr, stop: Unit)
    requires e.Func? && At(toks, p, EncExpr(e) + [stop])
    ensures p + 4 + |e.text| <= |toks| && toks[p + 1] == e.h0 && toks[p + 2] == e.h1
  {
    var tail := EncExpr(e.args) + [FUNC_TERMINATOR] + EncExpr(e.rest) + [stop];
    assert EncExpr(e) + [stop] == [Tok(FUNC_NAME, e.flags)] + (EncHash(e.h0, e.h1, e.text) + tail);
    AtSplit(toks, p, [Tok(FUNC_NAME, e.flags)], EncHash(e.h0, e.h1, e.text) + tail);
    HashUnits(toks, p + 1, e.h0, e.h1, e.text, tail);
  }

  lemma FuncUnique(toks: seq<Unit>, p: nat, x: Expr, y: Expr, s: Unit, s': Unit)
    requires x.Func? && y.Func? && At(toks, p, EncExpr(x) + [s]) && At(toks, p, EncExpr(y) + [s'])
    ensures x.h0 == y.h0 && x.h1 == y.h1 && x.text == y.text && Tok(FUNC_NAME, x.flags) == Tok(FUNC_NAME, y.flags)
    ensures var q := p + 4 + |x.text|;
      && At(toks, q, EncExpr(x.args) + [FUNC_TERMINATOR]) && At(toks, q, EncExpr(y.args) + [FUNC_TERMINATOR])
      && At(toks, q + 1 + |EncExpr(x.args)|, EncExpr(x.rest) + [s])
      && At(toks, q + 1 + |EncExpr(y.args)|, EncExpr(y.rest) + [s'])
  {
    hide At, EncExpr;
    HeadFunc(toks, p, x, s);
    HeadFunc(toks, p, y, s');
    FuncUnits(toks, p, x, s);
    FuncUnits(toks, p, y, s');
  }

  /** The unit at the start tells items with an expression from the others. */
  lemma SameKind(toks: seq<Unit>, p: nat, x: Item, y: Item, ax: seq<Unit>, ay: seq<Unit>)
    requires At(toks, p, EncItem(x) + ax) && At(toks, p, EncItem(y) + ay)
    requires SeparatedItem(x) && SeparatedItem(y) && IsNormalItem(x) && IsNormalItem(y)
    ensures HasExpr(x) <==> HasExpr(y)
    ensures !HasExpr(x) && !HasExpr(y) ==> FirstUnit(x) == FirstUnit(y)
  {
    hide At, EncItem, SeparatedItem;
    ItemHead(toks, p, x, ax);
    ItemHead(toks, p, y, ay);
  }

  lemma TailUnique(toks: seq<Unit>, p: nat, x: Item, y: Item, ax: seq<Unit>, ay: seq<Unit>)
    requires HasExpr(x) && HasExpr(y) && x.e == y.e && Action(x) == Action(y)
    requires At(toks, p, Tail(x) + ax) && At(toks, p, Tail(y) + ay)
    ensures x == y
  {
    hide At, EncExpr;
    match x
    case Cond(_) =>
    case Ret(_) =>
    case Call(_, args) =>
      AtSplit(toks, p, EncExpr(args) + [FUNC_TERMINATOR], ax);
      AtSplit(toks, p, EncExpr(y.args) + [FUNC_TERMINATOR], ay);
      ExprUnique(toks, p, args, y.args, FUNC_TERMINATOR, FUNC_TERMINATOR);
    case Assign(_, _, hint, value) =>
      AtSplit(toks, p, [hint] + (EncExpr(value) + [VALUE_TERMINATOR]), ax);
      AtSplit(toks, p, [y.hint] + (EncExpr(y.value) + [VALUE_TERMINATOR]), ay);
      AtSplit(toks, p, [hint], EncExpr(value) + [VALUE_TERMINATOR]);
      AtSplit(toks, p, [y.hint], EncExpr(y.value) + [VALUE_TERMINATOR]);
      ExprUnique(toks, p + 1, value, y.value, VALUE_TERMINATOR, VALUE_TERMINATOR);
  }

  lemma WithExprUnique(toks: seq<Unit>, p: nat, x: Item, y: Item, ax: seq<Unit>, ay: seq<Unit>)
    requires HasExpr(x) && HasExpr(y) && At(toks, p, EncItem(x) + ax) && At(toks, p, EncItem(y) + ay)
    ensures x == y
  {
    hide At, EncExpr, EncItem;
    ActionAt(toks, p, x, ax);
    ActionAt(toks, p, y, ay);
    ExprUnique(toks, p, x.e, y.e, Action(x), Action(y));
    TailUnique(toks, p + |EncExpr(x.e)| + 1, x, y, ax, ay);
  }

  lemma {:induction false} ItemsUnique(toks: seq<Unit>, p: nat, xs: seq<Item>, ys: seq<Item>)
    requires |toks| < 0x1_0000_0000 && Separated(xs) && Separated(ys) && IsNormal(xs) && IsNormal(ys)
    requires At(toks, p, EncItems(xs) + [TERMINATOR]) && At(toks, p, EncItems(ys) + [TERMINATOR])
    ensures xs == ys
    decreases xs, 0
  {
    hide At, EncItem, SeparatedItem, IsNormalItem;
    ItemsAt(toks, p, xs);
    ItemsAt(toks, p, ys);
    if xs != [] && ys != [] {
      var ax, ay := EncItems(xs[1..]) + [TERMINATOR], EncItems(ys[1..]) + [TERMINATOR];
      ItemUnique(toks, p, xs[0], ys[0], ax, ay);
      AtSplit(toks, p, EncItem(xs[0]), ax);
      AtSplit(toks, p, EncItem(ys[0]), ay);
      ItemsUnique(toks, p + |EncItem(xs[0])|, xs[1..], ys[1..]);
      assert xs == [xs[0]] + xs[1..] && ys == [ys[0]] + ys[1..];
    } else if xs != [] {
      ItemHead(toks, p, xs[0], EncItems(xs[1..]) + [TERMINATOR]);
    } else if ys != [] {
      ItemHead(toks, p, ys[0], EncItems(ys[1..]) + [TERMINATOR]);
    }
  }

  lemma {:induction false} BodyUnique(toks: seq<Unit>, p: nat, x: seq<Item>, y: seq<Item>, ax: seq<Unit>, ay: seq<Unit>)
    requires |toks| < 0x1_0000_0000 && Separated(x) && Separated(y) && IsNormal(x) && IsNormal(y)
    requires At(toks, p, EncBody(x) + ax) && At(toks, p, EncBody(y) + ay)
    ensures x == y
    decreases x, 1
  {
    hide At;
    BodyAt(toks, p, x, ax);
    BodyAt(toks, p, y, ay);
    ItemsUnique(toks, p + 2, x, y);
  }

  lemma {:induction false} SubUnique(toks: seq<Unit>, p: nat, x: Sub, y: Sub, ax: seq<Unit>, ay: seq<Unit>)
    requires |toks| < 0x1_0000_0000 && SeparatedSub(x) && SeparatedSub(y) && IsNormalSub(x) && IsNormalSub(y)
    requires At(toks, p, EncSub(x) + ax) && At(toks, p, EncSub(y) + ay)
    ensures x == y && At(toks, p + |EncSub(x)|, ax) && At(toks, p + |EncSub(x)|, ay)
    decreases x, 1
  {
    hide At;
    SubAt(toks, p, x, ax);
    SubAt(toks, p, y, ay);
    if x.Present? {
      ItemsUnique(toks, p + 2, x.body, y.body);
    }
  }

  lemma ForParts(toks: seq<Unit>, p: nat, item: Item, after: seq<Unit>)
    requires item.For? && At(toks, p, EncItem(item) + after)
    ensures p + 4 + |item.name| <= |toks|
    ensures toks[p + 1] == item.h0 && toks[p + 2] == item.h1 && toks[p + 3] == |item.name|
    ensures toks[p + 4..p + 4 + |item.name|] == item.name
  {
    hide EncExpr, EncBody, EncLen, EncItem;
    RemainderAt(toks, p, item, after);
    var expr := EncExpr(item.list) + [VALUE_TERMINATOR];
    var len: seq<Unit> := EncLen(|EncExpr(item.list)| + 1);
    Regroup(EncHash(item.h0, item.h1, item.name), len, expr, EncBody(item.body), after);
    HashUnits(toks, p + 1, item.h0, item.h1, item.name, len + (expr + (EncBody(item.body) + after)));
  }

  lemma DefParts(toks: seq<Unit>, p: nat, item: Item, after: seq<Unit>)
    requires item.Def? && At(toks, p, EncItem(item) + after)
    ensures p + 4 + |item.name| <= |toks|
    ensures toks[p + 1] == item.h0 && toks[p + 2] == item.h1 && toks[p + 3] == |item.name|
    ensures toks[p + 4..p + 4 + |item.name|] == item.name
  {
    hide EncBody, EncItem;
    RemainderAt(toks, p, item, after);
    var hash := EncHash(item.h0, item.h1, item.name);
    assert Remainder(item) + after == hash + (EncBody(item.body) + after);
    HashUnits(toks, p + 1, item.h0, item.h1, item.name, EncBody(item.body) + after);
  }

  lemma {:induction false} ForUnique(toks: seq<Unit>, p: nat, x: Item, y: Item, ax: seq<Unit>, ay: seq<Unit>)
    requires |toks| < 0x1_0000_0000 && SeparatedItem(x) && SeparatedItem(y) && IsNormalItem(x) && IsNormalItem(y)
    requires x.For? && y.For? && At(toks, p, EncItem(x) + ax) && At(toks, p, EncItem(y) + ay)
    ensures x == y
    decreases x, 1
  {
    hide At, EncExpr, EncItem, EncBody;
    ForAt(toks, p, x, ax);
    ForAt(toks, p, y, ay);
    ForParts(toks, p, x, ax);
    ForParts(toks, p, y, ay);
    var q := p + 6 + |x.name|;
    ExprUnique(toks, q, x.list, y.list, VALUE_TERMINATOR, VALUE_TERMINATOR);
    BodyUnique(toks, q + 1 + |EncExpr(x.list)|, x.body, y.body, ax, ay);
  }

  lemma {:induction false} DefUnique(toks: seq<Unit>, p: nat, x: Item, y: Item, ax: seq<Unit>, ay: seq<Unit>)
    requires |toks| < 0x1_0000_0000 && SeparatedItem(x) && SeparatedItem(y) && IsNormalItem(x) && IsNormalItem(y)
    requires x.Def? && y.Def? && At(toks, p, EncItem(x) + ax) && At(toks, p, EncItem(y) + ay)
    ensures x == y
    decreases x, 1
  {
    hide At, EncItem, EncBody;
    DefAt(toks, p, x, ax);
    DefAt(toks, p, y, ay);
    DefParts(toks, p, x, ax);
    DefParts(toks, p, y, ay);
    BodyUnique(toks, p + 4 + |x.name|, x.body, y.body, ax, ay);
  }

  lemma {:induction false} BranchUnique(toks: seq<Unit>, p: nat, x: Item, y: Item, ax: seq<Unit>, ay: seq<Unit>)
    requires |toks| < 0x1_0000_0000 && SeparatedItem(x) && SeparatedItem(y) && IsNormalItem(x) && IsNormalItem(y)
    requires x.Branch? && y.Branch? && At(toks, p, EncItem(x) + ax) && At(toks, p, EncItem(y) + ay)
    ensures x == y
    decreases x, 1
  {
    hide At, EncItem, EncSub;
    BranchAt(toks, p, x, ax);
    BranchAt(toks, p, y, ay);
    SubUnique(toks, p + 1, x.thn, y.thn, EncSub(x.els) + ax, EncSub(y.els) + ay);
    SubUnique(toks, p + 1 + |EncSub(x.thn)|, x.els, y.els, ax, ay);
  }

  lemma {:induction false} ItemUnique(toks: seq<Unit>, p: nat, x: Item, y: Item, ax: seq<Unit>, ay: seq<Unit>)
    requires |toks| < 0x1_0000_0000 && SeparatedItem(x) && SeparatedItem(y) && IsNormalItem(x) && IsNormalItem(y)
    requires At(toks, p, EncItem(x) + ax) && At(toks, p, EncItem(y) + ay)
    ensures x == y
    decreases x, 2
  {
    hide At, EncItem, EncBody, EncSub;
    SameKind(toks, p, x, y, ax, ay);
    if HasExpr(x) {
      WithExprUnique(toks, p, x, y, ax, ay);
    } else {
      match x
      case Line(n) => LineUnique(toks, p, x, y, ax, ay);
      case Op(_) =>
      case Jump(_) =>
      case Branch(_, _) => BranchUnique(toks, p, x, y, ax, ay);
      case For(_, _, _, _, _) => ForUnique(toks, p, x, y, ax, ay);
      case Def(_, _, _, _, _) => DefUnique(toks, p, x, y, ax, ay);
      case Bypass(body) =>
        RemainderAt(toks, p, x, ax);
        RemainderAt(toks, p, y, ay);
        BodyUnique(toks, p + 1, body, y.body, ax, ay);
    }
  }

  lemma LineUnique(toks: seq<Unit>, p: nat, x: Item, y: Item, ax: seq<Unit>, ay: seq<Unit>)
    requires x.Line? && y.Line? && At(toks, p, EncItem(x) + ax) && At(toks, p, EncItem(y) + ay)
    ensures x == y
  {
    AtPair(toks, p, LINE, x.n, ax);
    AtPair(toks, p, LINE, y.n, ay);
  }

  /** A stream is the encoding of one tree in normal form. */
  lemma DecodesUniquely(xs: seq<Item>, ys: seq<Item>)
    requires Separated(xs) && Separated(ys) && |EncItems(xs)| < 0xFFFF_FFFF
    ensures EncItems(xs) == EncItems(ys) <==> Normal(xs) == Normal(ys)
  {
    NormalSame(xs);
    NormalSame(ys);
    if EncItems(xs) == EncItems(ys) {
      var toks: seq<Unit> := EncItems(xs) + [TERMINATOR];
      assert toks[..|toks|] == toks;
      ItemsUnique(toks, 0, Normal(xs), Normal(ys));
    }
  }
}
