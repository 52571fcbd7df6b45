/** Reading a token stream by position: what stands where a tree is encoded. */
module TokenWalk {
  import opened ProTokens

  /** `enc` stands at `p`. */
  predicate At(toks: seq<Unit>, p: nat, enc: seq<Unit>) {
    p + |enc| <= |toks| && toks[p..p + |enc|] == enc
  }

  lemma AtSplit(toks: seq<Unit>, p: nat, a: seq<Unit>, b: seq<Unit>)
    requires At(toks, p, a + b)
    ensures At(toks, p, a) && At(toks, p + |a|, b)
    ensures a != [] ==> toks[p] == a[0]
  {
    assert toks[p..p + |a + b|][..|a|] == (a + b)[..|a|] == a;
    assert toks[p..p + |a + b|][|a|..] == (a + b)[|a|..] == b;
    if a != [] {
      assert toks[p..p + |a|][0] == a[0];
    }
  }

  function Masked(tok: Unit): Unit { tok % 0x100 }

  predicate IsQuoted(tok: Unit) { (tok / 0x100) % 2 == 1 }

  predicate IsNewStr(tok: Unit) { (tok / 0x200) % 2 == 1 }

  predicate IsElement(tok: Unit) { LITERAL <= Masked(tok) <= FUNC_NAME }

  /** A token that ends an expression. */
  predicate IsStop(tok: Unit) { tok < MASK && tok != LINE && !IsElement(tok) }

  lemma TokBits(base: Unit, f: Flags)
    requires base < MASK
    ensures Masked(Tok(base, f)) == base
    ensures IsQuoted(Tok(base, f)) <==> f % 2 == 1
    ensures IsNewStr(Tok(base, f)) <==> f >= 2
  {
  }

  /** The elements up to the first separator. */
  function Rest(e: Expr): (r: Expr)
    ensures r.End? || r.Sep?
    ensures Seps(r) == Seps(e)
    ensures |EncExpr(r)| <= |EncExpr(e)|
  {
    match e
    case End => e
    case Sep(_) => e
    case LineMark(_, rest) => Rest(rest)
    case Str(_, _, _, rest) => Rest(rest)
    case Hashed(_, _, _, _, _, rest) => Rest(rest)
    case Func(_, _, _, _, _, rest) => Rest(rest)
  }

  lemma HeadEnd(toks: seq<Unit>, p: nat, stop: Unit)
    requires At(toks, p, EncExpr(End) + [stop])
    ensures p < |toks| && toks[p] == stop
  {
    AtSplit(toks, p, EncExpr(End), [stop]);
  }

  lemma HeadSep(toks: seq<Unit>, p: nat, e: Expr, stop: Unit)
    requires e.Sep? && At(toks, p, EncExpr(e) + [stop])
    ensures p < |toks| && toks[p] == ARG_SEPARATOR && At(toks, p + 1, EncExpr(e.rest) + [stop])
    ensures |EncExpr(e)| == 1 + |EncExpr(e.rest)|
  {
    assert EncExpr(e) + [stop] == [ARG_SEPARATOR] + (EncExpr(e.rest) + [stop]);
    AtSplit(toks, p, [ARG_SEPARATOR], EncExpr(e.rest) + [stop]);
  }

  lemma HeadLine(toks: seq<Unit>, p: nat, e: Expr, stop: Unit)
    requires e.LineMark? && At(toks, p, EncExpr(e) + [stop])
    ensures p + 1 < |toks| && toks[p] == LINE && toks[p + 1] == e.n && At(toks, p + 2, EncExpr(e.rest) + [stop])
    ensures |EncExpr(e)| == 2 + |EncExpr(e.rest)|
  {
    assert EncExpr(e) + [stop] == [LINE] + ([e.n] + (EncExpr(e.rest) + [stop]));
    AtSplit(toks, p, [LINE], [e.n] + (EncExpr(e.rest) + [stop]));
    AtSplit(toks, p + 1, [e.n], EncExpr(e.rest) + [stop]);
  }

  lemma HeadStr(toks: seq<Unit>, p: nat, e: Expr, stop: Unit)
    requires e.Str? && At(toks, p, EncExpr(e) + [stop])
    ensures p < |toks| && toks[p] == Tok(e.str, e.flags) && p + 2 + |e.text| <= |toks| && toks[p + 1] == |e.text|
    ensures |EncExpr(e)| == 2 + |e.text| + |EncExpr(e.rest)| && toks[p + 2..p + 2 + |e.text|] == e.text
    ensures At(toks, p + 2 + |e.text|, EncExpr(e.rest) + [stop])
  {
    var tail := EncExpr(e.rest) + [stop];
    assert EncExpr(e) + [stop] == [Tok(e.str, e.flags)] + ([|e.text|] + (e.text + tail));
    AtSplit(toks, p, [Tok(e.str, e.flags)], [|e.text|] + (e.text + tail));
    AtSplit(toks, p + 1, [|e.text|], e.text + tail);
    AtSplit(toks, p + 2, e.text, tail);
  }

  /** A hash, then a text with its length in front. */
  lemma HashAt(toks: seq<Unit>, p: nat, h0: Unit, h1: Unit, s: Text, tail: seq<Unit>)
    requires At(toks, p, EncHash(h0, h1, s) + tail)
    ensures p + 3 + |s| <= |toks| && toks[p + 2] == |s| && toks[p + 3..p + 3 + |s|] == s
    ensures At(toks, p + 3 + |s|, tail)
  {
    assert EncHash(h0, h1, s) + tail == [h0, h1] + ([|s|] + (s + tail));
    AtSplit(toks, p, [h0, h1], [|s|] + (s + tail));
    AtSplit(toks, p + 2, [|s|], s + tail);
    AtSplit(toks, p + 3, s, tail);
  }

  lemma HeadHashed(toks: seq<Unit>, p: nat, e: Expr, stop: Unit)
    requires e.Hashed? && At(toks, p, EncExpr(e) + [stop])
    ensures p < |toks| && toks[p] == Tok(e.hashed, e.flags) && p + 4 + |e.text| <= |toks| && toks[p + 3] == |e.text|
    ensures |EncExpr(e)| == 4 + |e.text| + |EncExpr(e.rest)| && toks[p + 4..p + 4 + |e.text|] == e.text
    ensures At(toks, p + 4 + |e.text|, EncExpr(e.rest) + [stop])
  {
    var tail := EncExpr(e.rest) + [stop];
    var hash := EncHash(e.h0, e.h1, e.text);
    assert EncExpr(e) + [stop] == [Tok(e.hashed, e.flags)] + (hash + tail);
    AtSplit(toks, p, [Tok(e.hashed, e.flags)], hash + tail);
    HashAt(toks, p + 1, e.h0, e.h1, e.text, tail);
  }

  lemma HeadFunc(toks: seq<Unit>, p: nat, e: Expr, stop: Unit)
    requires e.Func? && At(toks, p, EncExpr(e) + [stop])
    ensures p < |toks| && toks[p] == Tok(FUNC_NAME, e.flags) && p + 4 + |e.text| <= |toks| && toks[p + 3] == |e.text|
    ensures |EncExpr(e)| == 5 + |e.text| + |EncExpr(e.args)| + |EncExpr(e.rest)|
    ensures toks[p + 4..p + 4 + |e.text|] == e.text
    ensures At(toks, p + 4 + |e.text|, EncExpr(e.args) + [FUNC_TERMINATOR])
    ensures At(toks, p + 5 + |e.text| + |EncExpr(e.args)|, EncExpr(e.rest) + [stop])
  {
    var inner, tail := EncExpr(e.args) + [FUNC_TERMINATOR], EncExpr(e.rest) + [stop];
    var hash := EncHash(e.h0, e.h1, e.text);
    assert EncExpr(e) + [stop] == [Tok(FUNC_NAME, e.flags)] + (hash + (inner + tail));
    AtSplit(toks, p, [Tok(FUNC_NAME, e.flags)], hash + (inner + tail));
    HashAt(toks, p + 1, e.h0, e.h1, e.text, inner + tail);
    AtSplit(toks, p + 4 + |e.text|, inner, tail);
  }

  /** The unit at the start of an expression says which constructor it has. */
  lemma ExprHead(toks: seq<Unit>, p: nat, e: Expr, stop: Unit)
    requires At(toks, p, EncExpr(e) + [stop]) && IsStop(stop)
    ensures p < |toks|
    ensures e.LineMark? <==> toks[p] == LINE
    ensures e.Func? <==> Masked(toks[p]) == FUNC_NAME
    ensures e.Str? <==> Masked(toks[p]) == LITERAL || Masked(toks[p]) == ENV_VAR
    ensures e.Hashed? <==> HASH_LITERAL <= Masked(toks[p]) <= PROPERTY
    ensures e.End? ==> toks[p] == stop && EncExpr(e) == []
    ensures !e.End? ==> |EncExpr(e)| > 0
    ensures e.Sep? ==> toks[p] == ARG_SEPARATOR
    ensures e.End? || e.Sep? ==> IsStop(toks[p])
    ensures !e.LineMark? ==> Masked(toks[p]) != LINE
  {
    match e
    case End => HeadEnd(toks, p, stop);
    case Sep(_) => HeadSep(toks, p, e, stop);
    case LineMark(_, _) => HeadLine(toks, p, e, stop);
    case Str(t, f, _, _) => HeadStr(toks, p, e, stop); TokBits(t, f);
    case Hashed(t, f, _, _, _, _) => HeadHashed(toks, p, e, stop); TokBits(t, f);
    case Func(f, _, _, _, _, _) => HeadFunc(toks, p, e, stop); TokBits(FUNC_NAME, f);
  }

  /** Items that start with an expression and end in what is to be done with it. */
  predicate HasExpr(item: Item) { item.Cond? || item.Call? || item.Ret? || item.Assign? }

  function Action(item: Item): (r: Unit)
    requires HasExpr(item)
    ensures IsStop(r)
  {
    match item
    case Cond(_) => CONDITION
    case Call(_, _) => TEST_CALL
    case Ret(_) => RETURN
    case Assign(_, t, _, _) => t
  }

  /** What is left of an item of which only `e` remains to be expanded. */
  function WithExpr(item: Item, e: Expr): (r: Item)
    requires HasExpr(item)
    ensures HasExpr(r) && r.e == e && Action(r) == Action(item)
  {
    item.(e := e)
  }

  /** What follows the action token of an item. */
  function Tail(item: Item): seq<Unit>
    requires HasExpr(item)
  {
    match item
    case Cond(_) => []
    case Call(_, args) => EncExpr(args) + [FUNC_TERMINATOR]
    case Ret(_) => []
    case Assign(_, _, hint, value) => [hint] + (EncExpr(value) + [VALUE_TERMINATOR])
  }

  lemma ActionEnc(item: Item)
    requires HasExpr(item)
    ensures EncItem(item) == EncExpr(item.e) + ([Action(item)] + Tail(item))
  {
  }

  /** An item of which nothing remains to be expanded. */
  lemma ExpandedEnc(item: Item)
    requires HasExpr(item)
    ensures EncItem(WithExpr(item, End)) == [Action(item)] + Tail(item)
  {
    ActionEnc(WithExpr(item, End));
  }

  lemma AtMiddle(toks: seq<Unit>, p: nat, e: seq<Unit>, a: Unit, t: seq<Unit>, after: seq<Unit>)
    requires At(toks, p, e + ([a] + t) + after)
    ensures At(toks, p, e + [a]) && p + |e| < |toks| && toks[p + |e|] == a
    ensures At(toks, p + |e|, [a] + t + after) && At(toks, p + |e| + 1, t + after)
  {
    assert e + ([a] + t) + after == (e + [a]) + (t + after) == e + ([a] + t + after);
    AtSplit(toks, p, e + [a], t + after);
    AtSplit(toks, p, e, [a] + t + after);
    assert [a] + t + after == [a] + (t + after);
    AtSplit(toks, p + |e|, [a], t + after);
  }

  lemma ActionAt(toks: seq<Unit>, p: nat, item: Item, after: seq<Unit>)
    requires HasExpr(item) && At(toks, p, EncItem(item) + after)
    ensures At(toks, p, EncExpr(item.e) + [Action(item)])
    ensures p + |EncExpr(item.e)| < |toks| && toks[p + |EncExpr(item.e)|] == Action(item)
    ensures At(toks, p + |EncExpr(item.e)|, EncItem(WithExpr(item, End)) + after)
    ensures At(toks, p + |EncExpr(item.e)| + 1, Tail(item) + after)
  {
    ActionEnc(item);
    ExpandedEnc(item);
    AtMiddle(toks, p, EncExpr(item.e), Action(item), Tail(item), after);
  }

  lemma AtPair(toks: seq<Unit>, p: nat, a: Unit, b: Unit, rest: seq<Unit>)
    requires At(toks, p, [a, b] + rest)
    ensures p + 1 < |toks| && toks[p] == a && toks[p + 1] == b && At(toks, p + 2, rest)
  {
    AtSplit(toks, p, [a, b], rest);
    assert toks[p..p + 2] == [a, b];
    assert toks[p..p + 2][1] == b;
  }

  lemma LineEnc(item: Item)
    requires HasExpr(item) && item.e.LineMark?
    ensures EncItem(item) == [LINE, item.e.n] + EncItem(WithExpr(item, item.e.rest))
  {
    var rest := WithExpr(item, item.e.rest);
    ActionEnc(item);
    ActionEnc(rest);
    assert Tail(rest) == Tail(item);
    var e, t := EncExpr(item.e.rest), [Action(item)] + Tail(item);
    assert EncExpr(item.e) == [LINE, item.e.n] + e;
    assert [LINE, item.e.n] + e + t == [LINE, item.e.n] + (e + t);
  }

  lemma LineAt(toks: seq<Unit>, p: nat, item: Item, after: seq<Unit>)
    requires HasExpr(item) && item.e.LineMark? && At(toks, p, EncItem(item) + after)
    ensures p + 1 < |toks| && toks[p] == LINE && toks[p + 1] == item.e.n
    ensures At(toks, p + 2, EncItem(WithExpr(item, item.e.rest)) + after)
  {
    LineEnc(item);
    var enc: seq<Unit> := EncItem(WithExpr(item, item.e.rest));
    assert EncItem(item) + after == [LINE, item.e.n] + (enc + after);
    AtPair(toks, p, LINE, item.e.n, enc + after);
  }

  lemma ItemsAt(toks: seq<Unit>, p: nat, items: seq<Item>)
    requires At(toks, p, EncItems(items) + [TERMINATOR])
    ensures p < |toks|
    ensures items == [] ==> toks[p] == TERMINATOR
    ensures items != [] ==> At(toks, p, EncItem(items[0]) + (EncItems(items[1..]) + [TERMINATOR]))
  {
    if items == [] {
      AtSplit(toks, p, EncItems(items), [TERMINATOR]);
    } else {
      assert EncItems(items) + [TERMINATOR] == EncItem(items[0]) + (EncItems(items[1..]) + [TERMINATOR]);
    }
  }

  lemma FirstAt(toks: seq<Unit>, p: nat, item: Item, first: Unit, rest: seq<Unit>, after: seq<Unit>)
    requires At(toks, p, EncItem(item) + after) && EncItem(item) == [first] + rest
    ensures toks[p] == first && At(toks, p + 1, rest + after)
  {
    assert EncItem(item) + after == [first] + (rest + after);
    AtSplit(toks, p, [first], rest + after);
  }

  /** The unit at the start of an item without expression. */
  function FirstUnit(item: Item): Unit
    requires !HasExpr(item)
  {
    match item
    case Line(_) => LINE
    case Op(t) => t
    case Jump(t) => t
    case Branch(_, _) => BRANCH
    case For(_, _, _, _, _) => FOR_LOOP
    case Def(t, _, _, _, _) => t
    case Bypass(_) => BYPASS_NESTING
  }

  /** What follows it. */
  function Remainder(item: Item): seq<Unit>
    requires !HasExpr(item)
  {
    match item
    case Line(n) => [n]
    case Op(_) => []
    case Jump(_) => []
    case Branch(thn, els) => EncSub(thn) + EncSub(els)
    case For(h0, h1, name, list, body) =>
      EncHash(h0, h1, name) + (EncLen(|EncExpr(list)| + 1) + (EncExpr(list) + [VALUE_TERMINATOR] + EncBody(body)))
    case Def(_, h0, h1, name, body) => EncHash(h0, h1, name) + EncBody(body)
    case Bypass(body) => EncBody(body)
  }

  lemma RemainderEnc(item: Item)
    requires !HasExpr(item)
    ensures EncItem(item) == [FirstUnit(item)] + Remainder(item)
  {
    if item.For? {
      hide EncExpr, EncBody, EncHash, EncLen;
      var len, body: seq<Unit> := EncLen(|EncExpr(item.list)| + 1), EncBody(item.body);
      var expr := EncExpr(item.list) + [VALUE_TERMINATOR];
      var hash := EncHash(item.h0, item.h1, item.name);
      assert EncForHead(item.h0, item.h1, item.name, item.list) == [FOR_LOOP] + (hash + (len + expr));
      assert (hash + (len + expr)) + body == hash + (len + (expr + body));
    }
  }

  lemma RemainderAt(toks: seq<Unit>, p: nat, item: Item, after: seq<Unit>)
    requires !HasExpr(item) && At(toks, p, EncItem(item) + after)
    ensures p < |toks| && toks[p] == FirstUnit(item) && At(toks, p + 1, Remainder(item) + after)
  {
    RemainderEnc(item);
    FirstAt(toks, p, item, FirstUnit(item), Remainder(item), after);
  }

  /** The unit at the start of an item says what kind of item it is. */
  lemma ItemHead(toks: seq<Unit>, p: nat, item: Item, after: seq<Unit>)
    requires At(toks, p, EncItem(item) + after) && SeparatedItem(item)
    ensures p < |toks| && toks[p] != TERMINATOR
    ensures !HasExpr(item) ==> toks[p] == FirstUnit(item)
    ensures HasExpr(item) && item.e.End? ==> toks[p] == Action(item)
    ensures HasExpr(item) && item.e.LineMark? ==> toks[p] == LINE
    ensures HasExpr(item) && !item.e.End? && !item.e.LineMark? ==> IsElement(toks[p])
  {
    if HasExpr(item) {
      ActionAt(toks, p, item, after);
      ExprHead(toks, p, item.e, Action(item));
    } else {
      RemainderAt(toks, p, item, after);
    }
  }

  /** A stored length skips exactly its block. */
  lemma BodyAt(toks: seq<Unit>, p: nat, body: seq<Item>, after: seq<Unit>)
    requires At(toks, p, EncBody(body) + after) && |toks| < 0x1_0000_0000
    ensures p + 1 < |toks| && Num(toks[p], toks[p + 1]) == |EncItems(body)| + 1
    ensures At(toks, p + 2, EncItems(body) + [TERMINATOR])
    ensures At(toks, p + 3 + |EncItems(body)|, after)
  {
    var len: seq<Unit> := EncLen(|EncItems(body)| + 1);
    var block := EncItems(body) + [TERMINATOR];
    assert EncBody(body) + after == [len[0]] + ([len[1]] + (block + after));
    AtSplit(toks, p, [len[0]], [len[1]] + (block + after));
    AtSplit(toks, p + 1, [len[1]], block + after);
    AtSplit(toks, p + 2, block, after);
  }

  lemma AbsentAt(toks: seq<Unit>, p: nat, after: seq<Unit>)
    requires At(toks, p, NO_BLOCK + after)
    ensures p + 1 < |toks| && Num(toks[p], toks[p + 1]) == 0 && At(toks, p + 2, after)
  {
    AtSplit(toks, p, NO_BLOCK, after);
    assert toks[p..p + 2] == NO_BLOCK;
  }

  /** The length stored for a block, as a number. */
  function SubLen(sub: Sub): nat { if sub.Absent? then 0 else |EncItems(sub.body)| + 1 }

  lemma SubAt(toks: seq<Unit>, p: nat, sub: Sub, after: seq<Unit>)
    requires At(toks, p, EncSub(sub) + after) && |toks| < 0x1_0000_0000
    ensures p + 1 < |toks|
    ensures Num(toks[p], toks[p + 1]) == SubLen(sub)
    ensures sub.Present? ==> At(toks, p + 2, EncItems(sub.body) + [TERMINATOR])
    ensures At(toks, p + 2 + SubLen(sub), after)
  {
    match sub
    case Absent => AbsentAt(toks, p, after);
    case Present(body) => BodyAt(toks, p, body, after);
  }

  lemma LengthAt(toks: seq<Unit>, p: nat, n: nat, rest: seq<Unit>)
    requires At(toks, p, EncLen(n) + rest) && n < 0x1_0000_0000
    ensures p + 1 < |toks| && Num(toks[p], toks[p + 1]) == n && At(toks, p + 2, rest)
  {
    var len: seq<Unit> := EncLen(n);
    assert EncLen(n) + rest == [len[0], len[1]] + rest;
    AtPair(toks, p, len[0], len[1], rest);
  }

  lemma Regroup(a: seq<Unit>, b: seq<Unit>, c: seq<Unit>, d: seq<Unit>, e: seq<Unit>)
    ensures (a + (b + (c + d))) + e == a + (b + (c + (d + e)))
  {
    assert (c + d) + e == c + (d + e);
    assert (b + (c + d)) + e == b + ((c + d) + e);
  }

  lemma ForAt(toks: seq<Unit>, p: nat, item: Item, after: seq<Unit>)
    requires item.For? && At(toks, p, EncItem(item) + after) && |toks| < 0x1_0000_0000
    ensures var x := p + 4 + |item.name|;
      && x + 2 + |EncExpr(item.list)| < |toks| && toks[p] == FOR_LOOP && toks[p + 3] == |item.name|
      && toks[p + 4..x] == item.name
      && Num(toks[x], toks[x + 1]) == |EncExpr(item.list)| + 1
      && At(toks, x + 2, EncExpr(item.list) + [VALUE_TERMINATOR])
      && At(toks, x + 3 + |EncExpr(item.list)|, EncBody(item.body) + after)
  {
    hide At, EncExpr, EncItems, EncBody, EncHash, EncLen, EncItem;
    RemainderAt(toks, p, item, after);
    var expr, body := EncExpr(item.list) + [VALUE_TERMINATOR], EncBody(item.body);
    var len: seq<Unit> := EncLen(|EncExpr(item.list)| + 1);
    var hash := EncHash(item.h0, item.h1, item.name);
    Regroup(hash, len, expr, body, after);
    HashAt(toks, p + 1, item.h0, item.h1, item.name, len + (expr + (body + after)));
    LengthAt(toks, p + 4 + |item.name|, |EncExpr(item.list)| + 1, expr + (body + after));
    AtSplit(toks, p + 6 + |item.name|, expr, body + after);
  }

  lemma DefAt(toks: seq<Unit>, p: nat, item: Item, after: seq<Unit>)
    requires item.Def? && At(toks, p, EncItem(item) + after) && |toks| < 0x1_0000_0000
    ensures p + 4 + |item.name| <= |toks| && toks[p] == item.def && toks[p + 3] == |item.name|
    ensures toks[p + 4..p + 4 + |item.name|] == item.name
    ensures At(toks, p + 4 + |item.name|, EncBody(item.body) + after)
  {
    RemainderAt(toks, p, item, after);
    var hash, body := EncHash(item.h0, item.h1, item.name), EncBody(item.body);
    assert Remainder(item) + after == hash + (body + after);
    HashAt(toks, p + 1, item.h0, item.h1, item.name, body + after);
  }

  lemma BranchAt(toks: seq<Unit>, p: nat, item: Item, after: seq<Unit>)
    requires item.Branch? && At(toks, p, EncItem(item) + after) && |toks| < 0x1_0000_0000
    ensures At(toks, p + 1, EncSub(item.thn) + (EncSub(item.els) + after))
  {
    RemainderAt(toks, p, item, after);
    assert Remainder(item) + after == EncSub(item.thn) + (EncSub(item.els) + after);
  }
}
