/** Quoting a value so that reading it back gives the value: the quoting loop, the expansion of escapes,
    and the round trip through reader and evaluator. */
module QuoteValue {
  import opened ProTokens
  import opened TokenWalk
  import opened VarStack
  import opened ConditionChain
  import opened ExprValues
  import opened ProSemantics
  import ParserScopes
  import R = ValueReader

  const CR: Unit := 13
  const LF: Unit := 10
  const LETTER_R: Unit := 114
  const LETTER_N: Unit := 110
  const LETTER_T: Unit := 116
  const LETTER_X: Unit := 120

  const ESCAPE_EXPAND: Text :=
    [101, 115, 99, 97, 112, 101, 95, 101, 120, 112, 97, 110, 100]

  const CALL: Chars := [R.DOLLAR, R.DOLLAR] + ESCAPE_EXPAND + [R.OPEN]

  const HASH_VARIABLE: Chars := [R.DOLLAR, R.DOLLAR, R.OPEN_BRACE] + R.HASH_NAME + [R.CLOSE_BRACE]

  predicate IsControl(c: Unit) { c < 32 }

  predicate IsLineControl(c: Unit) { c == CR || c == LF || c == R.TAB }

  function Hex(n: Unit): Unit
    requires n < 16
  {
    if n < 10 then 48 + n else 87 + n
  }

  /** What stands for a control character behind the backslash. */
  function Letters(c: Unit): (r: Chars)
    requires IsControl(c)
    ensures |r| > 0
  {
    if c == CR then [LETTER_R]
    else if c == LF then [LETTER_N]
    else if c == R.TAB then [LETTER_T]
    else [LETTER_X, Hex(c / 16), Hex(c % 16)]
  }

  function QuotedChar(c: Unit): Chars {
    if c == R.BACKSLASH || c == R.DOUBLE_QUOTE || c == R.SINGLE_QUOTE || c == R.DOLLAR then [R.BACKSLASH, c]
    else if c == R.HASH then HASH_VARIABLE
    else [c]
  }

  /** The quoted text so far, and whether a call that expands escapes is open in it. */
  datatype Quoting = Quoting(text: Chars, escaping: bool)

  function Delta(escaping: bool, c: Unit): Chars {
    if IsControl(c) then (if escaping then [] else CALL) + [R.BACKSLASH, R.BACKSLASH] + Letters(c)
    else (if escaping then [R.CLOSE] else []) + QuotedChar(c)
  }

  function QuoteAll(v: Chars): Quoting {
    if v == [] then Quoting([], false)
    else
      var q, c := QuoteAll(v[..|v| - 1]), v[|v| - 1];
      Quoting(q.text + Delta(q.escaping, c), IsControl(c))
  }

  function Quoted(v: Chars): Chars {
    var q := QuoteAll(v);
    var text := q.text + if q.escaping then [R.CLOSE] else [];
    if v == [] || R.BLANK in v then [R.DOUBLE_QUOTE] + text + [R.DOUBLE_QUOTE] else text
  }

  method QuoteOne(text: Chars, open: bool, c: Unit) returns (ret: Chars, escaping: bool)
    ensures ret == text + Delta(open, c) && escaping == IsControl(c)
  {
    hide Letters, QuotedChar;
    ret, escaping := text, open;
    if c < 32 {
      if !escaping {
        escaping := true;
        ret := ret + CALL;
      }
      var start, code := if open then [] else CALL, [R.BACKSLASH, R.BACKSLASH];
      assert text + (start + code + Letters(c)) == text + start + (code + Letters(c));
      ret := ret + ([R.BACKSLASH, R.BACKSLASH] + Letters(c));
    } else {
      if escaping {
        escaping := false;
        ret := ret + [R.CLOSE];
      }
      var end := if open then [R.CLOSE] else [];
      assert text + (end + QuotedChar(c)) == text + end + QuotedChar(c);
      ret := ret + QuotedChar(c);
    }
  }

  method QuoteString(v: Chars) returns (ret: Chars)
    ensures ret == Quoted(v)
  {
    ret := [];
    var quote, escaping := v == [], false;
    var i := 0;
    while i < |v|
      invariant 0 <= i <= |v|
      invariant QuoteAll(v[..i]) == Quoting(ret, escaping)
      invariant quote == (v == [] || R.BLANK in v[..i])
    {
      assert v[..i + 1][..i] == v[..i];
      ret, escaping := QuoteOne(ret, escaping, v[i]);
      quote := quote || v[i] == R.BLANK;
      i := i + 1;
    }
    assert v[..i] == v;
    if escaping {
      ret := ret + [R.CLOSE];
    }
    if quote {
      ret := [R.DOUBLE_QUOTE] + ret + [R.DOUBLE_QUOTE];
    }
  }

  // ---- expanding escapes

  /** The character that a letter behind a backslash stands for, if it does. */
  function Mapped(c: Unit): seq<Unit> {
    if c == LETTER_N then [LF] else if c == LETTER_T then [R.TAB] else if c == LETTER_R then [CR] else []
  }

  function EscapeExpand(s: Chars): Chars {
    if s == [] then []
    else if s[0] == R.BACKSLASH && |s| > 1 then
      if s[1] == R.BACKSLASH then s[..2] + EscapeExpand(s[2..])
      else if Mapped(s[1]) != [] then Mapped(s[1]) + EscapeExpand(s[2..])
      else s[..1] + EscapeExpand(s[1..])
    else s[..1] + EscapeExpand(s[1..])
  }

  /** How much of a text is expanded at once, and what it becomes. */
  function Chunk(s: Chars): (r: (nat, Chars))
    requires s != []
    ensures 1 <= r.0 <= |s|
  {
    if s[0] == R.BACKSLASH && |s| > 1 then
      if s[1] == R.BACKSLASH then (2, s[..2])
      else if Mapped(s[1]) != [] then (2, Mapped(s[1]))
      else (1, s[..1])
    else (1, s[..1])
  }

  lemma ExpandChunk(head: Chars, s: Chars)
    requires s != []
    ensures head + EscapeExpand(s) == head + Chunk(s).1 + EscapeExpand(s[Chunk(s).0..])
  {
    assert head + (Chunk(s).1 + EscapeExpand(s[Chunk(s).0..])) == head + Chunk(s).1 + EscapeExpand(s[Chunk(s).0..]);
  }

  /** In place: a mapped pair is overwritten by one character, and the rest moves down. */
  method ExpandInPlace(a: array<Unit>) returns (len: nat)
    modifies a
    ensures len <= a.Length && a[..len] == EscapeExpand(old(a[..]))
  {
    hide EscapeExpand;
    len := a.Length;
    var x := 0;
    assert a[0..len] == a[..];
    while x < len
      invariant 0 <= x <= len <= a.Length
      invariant a[..x] + EscapeExpand(a[x..len]) == EscapeExpand(old(a[..]))
    {
      ExpandChunk(a[..x], a[x..len]);
      x, len := ExpandHere(a, x, len);
    }
    assert a[x..len] == [];
    ExpandNothing();
  }

  lemma ExpandNothing()
    ensures EscapeExpand([]) == []
  {
  }

  method ExpandHere(a: array<Unit>, x: nat, len: nat) returns (next: nat, end: nat)
    requires x < len <= a.Length
    modifies a
    ensures x < next <= end <= len && end - next < len - x
    ensures a[..next] == old(a[..x]) + Chunk(old(a[x..len])).1
    ensures a[next..end] == old(a[x..len])[Chunk(old(a[x..len])).0..]
  {
    next, end := x + 1, len;
    if a[x] == R.BACKSLASH && x < len - 1 {
      if a[x + 1] == R.BACKSLASH {
        next := x + 2;
      } else if a[x + 1] == LETTER_N || a[x + 1] == LETTER_T || a[x + 1] == LETTER_R {
        a[x] := if a[x + 1] == LETTER_N then LF else if a[x + 1] == LETTER_T then R.TAB else CR;
        MoveDown(a, x + 1, len);
        end := len - 1;
      }
    }
  }

  /** The characters behind `at` move down by one. */
  method MoveDown(a: array<Unit>, at: nat, len: nat)
    requires at < len <= a.Length
    modifies a
    ensures a[..at] == old(a[..at]) && a[at..len - 1] == old(a[at + 1..len])
  {
    var i := at;
    while i < len - 1
      invariant at <= i <= len - 1
      invariant forall k | 0 <= k < a.Length :: a[k] == if at <= k < i then old(a[k + 1]) else old(a[k])
    {
      a[i] := a[i + 1];
      i := i + 1;
    }
  }

  function ExpandEach(args: Values): (r: Values)
    ensures |r| == |args|
  {
    if args == [] then [] else ExpandEach(args[..|args| - 1]) + [EscapeExpand(args[|args| - 1])]
  }

  // ---- the pieces a quoted value consists of

  /** Literal text, a hash sign, or a run of control characters. */
  datatype Piece = Lit(text: Chars) | Sharp | Ctl(controls: Chars)

  /** The pieces read completely, and the one being read. */
  datatype Parts = Parts(done: seq<Piece>, cur: Piece)

  function Closed(s: Parts): seq<Piece> { if s.cur == Lit([]) then s.done else s.done + [s.cur] }

  function Add(s: Parts, c: Unit): Parts {
    if IsControl(c) then
      if s.cur.Ctl? then s.(cur := Ctl(s.cur.controls + [c])) else Parts(Closed(s), Ctl([c]))
    else if c == R.HASH then Parts(Closed(s) + [Sharp], Lit([]))
    else if s.cur.Lit? then s.(cur := Lit(s.cur.text + [c]))
    else Parts(Closed(s), Lit([c]))
  }

  function Split(v: Chars): Parts {
    if v == [] then Parts([], Lit([])) else Add(Split(v[..|v| - 1]), v[|v| - 1])
  }

  /** What the call's argument is, once read: one backslash for each control character. */
  function Escapes(controls: Chars): Chars {
    if controls == [] then []
    else
      var c := controls[|controls| - 1];
      Escapes(controls[..|controls| - 1]) + if IsControl(c) then [R.BACKSLASH] + Letters(c) else []
  }

  predicate GoodPiece(p: Piece) {
    match p
    case Lit(text) => text != []
    case Sharp => true
    case Ctl(controls) => controls != [] && forall i | 0 <= i < |controls| :: IsControl(controls[i])
  }

  predicate GoodParts(s: Parts) {
    && (forall i | 0 <= i < |s.done| :: GoodPiece(s.done[i]))
    && (s.cur == Lit([]) || (!s.cur.Sharp? && GoodPiece(s.cur)))
  }

  lemma {:induction false} SplitGood(v: Chars)
    ensures GoodParts(Split(v))
  {
    if v != [] {
      SplitGood(v[..|v| - 1]);
    }
  }

  /** The literals, and the arguments of the calls, have lengths that fit one unit. */
  predicate PieceFits(p: Piece) {
    match p
    case Lit(text) => |text| < 0x10000
    case Sharp => true
    case Ctl(controls) => |Escapes(controls)| < 0x10000
  }

  predicate AllFit(pieces: seq<Piece>) { forall i | 0 <= i < |pieces| :: PieceFits(pieces[i]) }

  // ---- reading

  function CallHead(sep: bool, q: Unit): Chars {
    var tok: Unit := FUNC_NAME + MASK * R.Flag(sep, q != 0);
    [tok, ParserScopes.HashLow(ESCAPE_EXPAND), ParserScopes.HashHigh(ESCAPE_EXPAND), 13] + ESCAPE_EXPAND
  }

  function EncPiece(p: Piece, sep: bool, q: Unit): Chars {
    match p
    case Lit(text) => R.EncLiteral(text, sep)
    case Sharp => R.EncLiteral([R.HASH], sep)
    case Ctl(controls) => CallHead(sep, q) + R.EncLiteral(Escapes(controls), true) + [FUNC_TERMINATOR]
  }

  function Enc(pieces: seq<Piece>, q: Unit): Chars {
    if pieces == [] then []
    else Enc(pieces[..|pieces| - 1], q) + EncPiece(pieces[|pieces| - 1], |pieces| == 1, q)
  }

  lemma EncSnoc(pieces: seq<Piece>, p: Piece, q: Unit)
    ensures Enc(pieces + [p], q) == Enc(pieces, q) + EncPiece(p, pieces == [], q)
  {
    assert (pieces + [p])[..|pieces|] == pieces;
  }

  /** The reader in the middle of a quoted value. */
  function Snapshot(s: Parts, q: Unit): R.Reader {
    match s.cur
    case Lit(text) => R.Reader(Enc(s.done, q), text, s.done == [], q, 0, [], true)
    case Sharp => R.START
    case Ctl(controls) =>
      R.Reader(Enc(s.done, q) + CallHead(s.done == [], q), Escapes(controls), true, 0, 0, [R.Held(0, q, 0)], true)
  }

  /** Only these quotes are open around a quoted value. */
  predicate IsOuter(q: Unit) { q == 0 || q == R.DOUBLE_QUOTE }

  lemma ReadStep(s: Chars, r: R.Reader, place: R.Place)
    requires s != []
    ensures R.Read(s, r, place) == R.Read(R.ReadOne(s, r, place).rest, R.ReadOne(s, r, place).reader, place)
  {
  }

  /** A plain character in the argument of the call. */
  lemma ReadLetter(c: Unit, t: Chars, r: R.Reader, place: R.Place)
    requires r.stack != [] && r.quote == 0 && (97 <= c <= 122 || 48 <= c <= 57)
    ensures R.Read([c] + t, r, place) == R.Read(t, R.Put(r, c), place)
  {
    assert ([c] + t)[1..] == t;
    ReadStep([c] + t, r, place);
  }

  lemma ReadBackslash(c: Unit, t: Chars, r: R.Reader, place: R.Place)
    requires R.IsSymbol(c)
    ensures R.Read([R.BACKSLASH, c] + t, r, place) == R.Read(t, R.Put(r, c), place)
  {
    var s := [R.BACKSLASH, c] + t;
    assert s[1..] == [c] + t && s[1..][1..] == t;
    ReadStep(s, r, place);
  }

  /** Several characters at once. */
  function PutAll(r: R.Reader, s: Chars): R.Reader { r.(lit := r.lit + s) }

  lemma ReadControl(c: Unit, t: Chars, r: R.Reader, place: R.Place)
    requires IsControl(c) && r.stack != [] && r.quote == 0
    ensures R.Read([R.BACKSLASH, R.BACKSLASH] + Letters(c) + t, r, place)
         == R.Read(t, PutAll(r, [R.BACKSLASH] + Letters(c)), place)
  {
    hide R.Read;
    var letters := Letters(c);
    assert [R.BACKSLASH, R.BACKSLASH] + letters + t == [R.BACKSLASH, R.BACKSLASH] + (letters + t);
    ReadBackslash(R.BACKSLASH, letters + t, r, place);
    var r1 := R.Put(r, R.BACKSLASH);
    if IsLineControl(c) {
      ReadLetter(letters[0], t, r1, place);
      assert R.Put(r1, letters[0]) == PutAll(r, [R.BACKSLASH] + letters);
    } else {
      var a, b := letters[1], letters[2];
      assert letters + t == [LETTER_X] + ([a] + ([b] + t));
      ReadLetter(LETTER_X, [a] + ([b] + t), r1, place);
      ReadLetter(a, [b] + t, R.Put(r1, LETTER_X), place);
      ReadLetter(b, t, R.Put(R.Put(r1, LETTER_X), a), place);
      assert R.Put(R.Put(R.Put(r1, LETTER_X), a), b) == PutAll(r, [R.BACKSLASH] + letters);
    }
  }

  lemma {:induction false} NameLenIs(name: Chars, t: Chars, term: Unit)
    requires forall i | 0 <= i < |name| :: R.IsNameChar(name[i], term)
    requires t != [] && !R.IsNameChar(t[0], term)
    ensures R.NameLen(name + t, term) == |name|
    decreases |name|
  {
    if name == [] {
      assert name + t == t;
    } else {
      assert (name + t)[1..] == name[1..] + t;
      NameLenIs(name[1..], t, term);
    }
  }

  /** The call opens; its argument starts with a backslash. */
  lemma ReadCall(t: Chars, r: R.Reader, place: R.Place)
    requires t != [] && t[0] == R.BACKSLASH
    ensures var f := R.Flush(r);
      R.Read(CALL + t, r, place) ==
      R.Read(t, f.(out := f.out + CallHead(f.sep, f.quote), sep := true, quote := 0, parens := 0,
                   stack := f.stack + [R.Held(f.parens, f.quote, 0)]), place)
  {
    hide R.Read, R.Flush, R.NameLen, R.Special, ParserScopes.HashLow, ParserScopes.HashHigh;
    var s := CALL + t;
    var tail := [R.OPEN] + t;
    assert s[1..][1..] == ESCAPE_EXPAND + tail;
    assert s[0] == R.DOLLAR && s[1..][0] == R.DOLLAR;
    NameLenIs(ESCAPE_EXPAND, tail, 0);
    assert (ESCAPE_EXPAND + tail)[..13] == ESCAPE_EXPAND && (ESCAPE_EXPAND + tail)[13..] == tail;
    assert tail[1..] == t;
    NotSpecial(place);
    NoSpaces(t);
    assert (ESCAPE_EXPAND + tail)[0] == 101;
    ReadStep(s, r, place);
    assert R.ReadOne(s, r, place) == R.ReadExpansion(ESCAPE_EXPAND + tail, r, place);
  }

  lemma NoSpaces(t: Chars)
    requires t != [] && t[0] == R.BACKSLASH
    ensures R.SkipSpaces(t) == t
  {
  }

  lemma NotSpecial(place: R.Place)
    ensures R.Special(ESCAPE_EXPAND, place) == [] && R.Special(R.HASH_NAME, place) == [[R.HASH]]
  {
    assert ESCAPE_EXPAND[0] == 101;
    assert R.HASH_NAME[0] == 76;
    assert R.LINE_NAME[0] == 95 && R.FILE_NAME[0] == 95;
    assert R.DOLLAR_NAME[0] == 76 && R.WHITESPACE_NAME[0] == 76;
  }

  lemma ReadHash(t: Chars, r: R.Reader, place: R.Place)
    ensures var f := R.Flush(r);
      R.Read(HASH_VARIABLE + t, r, place) ==
      R.Read(t, f.(out := f.out + R.EncLiteral([R.HASH], f.sep), sep := false), place)
  {
    hide R.Read, R.Flush, R.NameLen, R.Special;
    var s := HASH_VARIABLE + t;
    var tail := [R.CLOSE_BRACE] + t;
    var text := R.HASH_NAME + tail;
    assert s[1..][1..] == [R.OPEN_BRACE] + text && ([R.OPEN_BRACE] + text)[1..] == text;
    assert s[0] == R.DOLLAR && s[1..][0] == R.DOLLAR;
    NameLenIs(R.HASH_NAME, tail, R.CLOSE_BRACE);
    assert text[..12] == R.HASH_NAME && text[12..] == tail && tail[1..] == t;
    NotSpecial(place);
    ReadStep(s, r, place);
  }

  /** The call closes. */
  lemma ReadClose(s: Parts, q: Unit, t: Chars, place: R.Place)
    requires s.cur.Ctl? && GoodParts(s) && IsOuter(q)
    ensures R.Read([R.CLOSE] + t, Snapshot(s, q), place) == R.Read(t, Snapshot(Parts(Closed(s), Lit([])), q), place)
  {
    hide R.Read, Enc, R.EncLiteral, CallHead, Escapes;
    assert ([R.CLOSE] + t)[1..] == t;
    EscapesNonempty(s.cur.controls);
    EncSnoc(s.done, s.cur, q);
    var r := Snapshot(s, q);
    ReadStep([R.CLOSE] + t, r, place);
    assert R.ReadOne([R.CLOSE] + t, r, place) == R.EndCall(t, r.(parens := -1));
    var out, lit, head := Enc(s.done, q), R.EncLiteral(Escapes(s.cur.controls), true), CallHead(s.done == [], q);
    assert (out + head) + lit + [FUNC_TERMINATOR] == out + (head + lit + [FUNC_TERMINATOR]);
  }

  lemma EscapesNonempty(controls: Chars)
    requires controls != [] && forall i | 0 <= i < |controls| :: IsControl(controls[i])
    ensures Escapes(controls) != []
  {
  }

  /** Flushing the literal completes its piece. */
  lemma FlushSnapshot(s: Parts, q: Unit)
    requires s.cur.Lit?
    ensures R.Flush(Snapshot(s, q)) == Snapshot(Parts(Closed(s), Lit([])), q)
  {
    if s.cur != Lit([]) {
      EncSnoc(s.done, s.cur, q);
    }
  }

  lemma ReadPlain(s: Parts, c: Unit, q: Unit, t: Chars, place: R.Place)
    requires s.cur.Lit? && !IsControl(c) && IsOuter(q)
    ensures R.Read(QuotedChar(c) + t, Snapshot(s, q), place) == R.Read(t, Snapshot(Add(s, c), q), place)
  {
    var r := Snapshot(s, q);
    if c == R.HASH {
      ReadHash(t, r, place);
      FlushSnapshot(s, q);
      EncSnoc(Closed(s), Sharp, q);
    } else if |QuotedChar(c)| == 2 {
      ReadBackslash(c, t, r, place);
    } else {
      assert ([c] + t)[1..] == t;
      ReadStep([c] + t, r, place);
    }
  }

  lemma InCall(s: Parts, q: Unit)
    requires s.cur.Ctl?
    ensures Snapshot(s, q).stack != [] && Snapshot(s, q).quote == 0
  {
  }

  lemma AddAfterCall(s: Parts, c: Unit)
    requires s.cur.Ctl? && !IsControl(c)
    ensures Add(Parts(Closed(s), Lit([])), c) == Add(s, c)
  {
    assert [] + [c] == [c];
  }

  /** One more control character in an open call. */
  lemma SnapshotControl(s: Parts, c: Unit, q: Unit)
    requires s.cur.Ctl? && IsControl(c)
    ensures PutAll(Snapshot(s, q), [R.BACKSLASH] + Letters(c)) == Snapshot(s.(cur := Ctl(s.cur.controls + [c])), q)
  {
    EscapesSnoc(s.cur.controls, c);
  }

  lemma SnapshotCall(done: seq<Piece>, q: Unit)
    ensures var f := Snapshot(Parts(done, Lit([])), q);
      f.(out := f.out + CallHead(f.sep, f.quote), sep := true, quote := 0, parens := 0,
         stack := f.stack + [R.Held(f.parens, f.quote, 0)]) == Snapshot(Parts(done, Ctl([])), q)
  {
    var f := Snapshot(Parts(done, Lit([])), q);
    assert f.stack + [R.Held(f.parens, f.quote, 0)] == [R.Held(0, q, 0)];
  }

  lemma ReadFirstControl(s: Parts, c: Unit, q: Unit, t: Chars, place: R.Place)
    requires s.cur.Lit? && IsOuter(q) && IsControl(c)
    ensures R.Read(CALL + ([R.BACKSLASH, R.BACKSLASH] + Letters(c) + t), Snapshot(s, q), place)
         == R.Read(t, Snapshot(Add(s, c), q), place)
  {
    hide R.Read, Letters, CallHead, R.Flush, Snapshot, Enc;
    var code := [R.BACKSLASH, R.BACKSLASH] + Letters(c);
    ReadCall(code + t, Snapshot(s, q), place);
    FlushSnapshot(s, q);
    var begun := Parts(Closed(s), Ctl([]));
    SnapshotCall(Closed(s), q);
    InCall(begun, q);
    ReadControl(c, t, Snapshot(begun, q), place);
    SnapshotControl(begun, c, q);
    assert [] + [c] == [c];
  }

  /** Reading what one character of the value was quoted as. */
  lemma ReadDelta(s: Parts, c: Unit, q: Unit, t: Chars, place: R.Place)
    requires GoodParts(s) && IsOuter(q)
    ensures R.Read(Delta(s.cur.Ctl?, c) + t, Snapshot(s, q), place) == R.Read(t, Snapshot(Add(s, c), q), place)
  {
    hide R.Read, Letters, QuotedChar, PutAll, R.Put, Snapshot, Enc, Closed;
    if IsControl(c) {
      var code := [R.BACKSLASH, R.BACKSLASH] + Letters(c);
      if s.cur.Ctl? {
        assert [] + [R.BACKSLASH, R.BACKSLASH] + Letters(c) + t == code + t;
        InCall(s, q);
        ReadControl(c, t, Snapshot(s, q), place);
        SnapshotControl(s, c, q);
      } else {
        assert CALL + [R.BACKSLASH, R.BACKSLASH] + Letters(c) + t == CALL + (code + t);
        ReadFirstControl(s, c, q, t, place);
      }
    } else if s.cur.Ctl? {
      assert [R.CLOSE] + QuotedChar(c) + t == [R.CLOSE] + (QuotedChar(c) + t);
      ReadClose(s, q, QuotedChar(c) + t, place);
      ReadPlain(Parts(Closed(s), Lit([])), c, q, t, place);
      AddAfterCall(s, c);
    } else {
      assert [] + QuotedChar(c) + t == QuotedChar(c) + t;
      ReadPlain(s, c, q, t, place);
    }
  }

  lemma EscapesSnoc(controls: Chars, c: Unit)
    requires IsControl(c)
    ensures Escapes(controls + [c]) == Escapes(controls) + ([R.BACKSLASH] + Letters(c))
  {
    assert (controls + [c])[..|controls|] == controls;
  }

  lemma AddCall(s: Parts, c: Unit)
    ensures Add(s, c).cur.Ctl? == IsControl(c)
  {
  }

  lemma {:induction false} ReadQuoted(v: Chars, q: Unit, t: Chars, place: R.Place)
    requires IsOuter(q)
    ensures QuoteAll(v).escaping == Split(v).cur.Ctl?
    ensures R.Read(QuoteAll(v).text + t, Snapshot(Parts([], Lit([])), q), place)
         == R.Read(t, Snapshot(Split(v), q), place)
    decreases |v|
  {
    hide R.Read, Delta, Snapshot, Closed;
    if v == [] {
      assert [] + t == t;
    } else {
      var u, c := v[..|v| - 1], v[|v| - 1];
      var d := Delta(QuoteAll(u).escaping, c);
      ReadQuoted(u, q, d + t, place);
      SplitGood(u);
      ReadDelta(Split(u), c, q, t, place);
      AddCall(Split(u), c);
      assert QuoteAll(v).text + t == QuoteAll(u).text + (d + t);
    }
  }

  /** All of the quoted text, up to the closing quote. */
  lemma ReadAll(v: Chars, q: Unit, t: Chars, place: R.Place)
    requires IsOuter(q)
    ensures var text := QuoteAll(v).text + if QuoteAll(v).escaping then [R.CLOSE] else [];
      var s := if Split(v).cur.Ctl? then Parts(Closed(Split(v)), Lit([])) else Split(v);
      && s.cur.Lit? && Closed(s) == Closed(Split(v))
      && R.Read(text + t, Snapshot(Parts([], Lit([])), q), place) == R.Read(t, Snapshot(s, q), place)
  {
    hide R.Read, Snapshot, QuoteAll, Split;
    SplitGood(v);
    var text := QuoteAll(v).text;
    if Split(v).cur.Ctl? {
      ReadQuoted(v, q, [R.CLOSE] + t, place);
      ReadClose(Split(v), q, t, place);
      assert text + [R.CLOSE] + t == text + ([R.CLOSE] + t);
    } else {
      ReadQuoted(v, q, t, place);
      assert text + [] + t == text + t;
    }
  }

  function OuterQuote(v: Chars): Unit { if v == [] || R.BLANK in v then R.DOUBLE_QUOTE else 0 }

  lemma FinishSnapshot(s: Parts, q: Unit)
    requires s.cur.Lit?
    ensures R.Finish(Snapshot(s, q).(quote := 0)) == R.Parsed(Enc(Closed(s), q) + [VALUE_TERMINATOR], true)
  {
    FlushSnapshot(s, q);
  }

  lemma ReadQuote(r: R.Reader, t: Chars, place: R.Place)
    requires IsOuter(r.quote) && r.stack == []
    ensures R.Read([R.DOUBLE_QUOTE] + t, r, place)
         == R.Read(t, r.(quote := if r.quote == 0 then R.DOUBLE_QUOTE else 0), place)
  {
    assert ([R.DOUBLE_QUOTE] + t)[1..] == t;
    ReadStep([R.DOUBLE_QUOTE] + t, r, place);
  }

  lemma SnapshotStart(q: Unit)
    ensures Snapshot(Parts([], Lit([])), q) == R.START.(quote := q)
  {
  }

  lemma ParseQuoted(v: Chars, place: R.Place)
    ensures R.Parse(Quoted(v), place) == R.Parsed(Enc(Closed(Split(v)), OuterQuote(v)) + [VALUE_TERMINATOR], true)
  {
    hide R.ReadOne, QuoteAll, Split, R.Flush, Enc, R.Finish;
    var q := OuterQuote(v);
    var text := QuoteAll(v).text + if QuoteAll(v).escaping then [R.CLOSE] else [];
    var s := if Split(v).cur.Ctl? then Parts(Closed(Split(v)), Lit([])) else Split(v);
    SnapshotStart(q);
    if q == 0 {
      ReadAll(v, q, [], place);
      assert text + [] == text;
    } else {
      var t := [R.DOUBLE_QUOTE];
      ReadAll(v, q, t, place);
      assert Quoted(v) == t + (text + t) && t + [] == t;
      ReadQuote(R.START, text + t, place);
      ReadQuote(Snapshot(s, q), [], place);
    }
    FinishSnapshot(s, q);
  }

  // ---- evaluating

  function Node(p: Piece, sep: bool, q: Unit, rest: Expr): Expr
    requires PieceFits(p)
  {
    match p
    case Lit(text) => Str(LITERAL, R.Flag(sep, false), text, rest)
    case Sharp => Str(LITERAL, R.Flag(sep, false), [R.HASH], rest)
    case Ctl(controls) =>
      Func(R.Flag(sep, q != 0), ParserScopes.HashLow(ESCAPE_EXPAND), ParserScopes.HashHigh(ESCAPE_EXPAND),
           ESCAPE_EXPAND, Str(LITERAL, FRESH, Escapes(controls), End), rest)
  }

  /** The tree that a quoted value is read as. */
  function Tree(pieces: seq<Piece>, sep: bool, q: Unit): Expr
    requires AllFit(pieces)
  {
    if pieces == [] then End else Node(pieces[0], sep, q, Tree(pieces[1..], false, q))
  }

  lemma EncArgument(text: Text)
    ensures EncExpr(Str(LITERAL, FRESH, text, End)) == R.EncLiteral(text, true)
  {
  }

  lemma CallEnc(sep: bool, q: Unit, args: Expr, rest: Expr)
    ensures EncExpr(Func(R.Flag(sep, q != 0), ParserScopes.HashLow(ESCAPE_EXPAND), ParserScopes.HashHigh(ESCAPE_EXPAND),
                         ESCAPE_EXPAND, args, rest))
         == CallHead(sep, q) + EncExpr(args) + [FUNC_TERMINATOR] + EncExpr(rest)
  {
    hide ParserScopes.HashLow, ParserScopes.HashHigh;
  }

  lemma NodeEnc(p: Piece, sep: bool, q: Unit, rest: Expr)
    requires PieceFits(p)
    ensures EncExpr(Node(p, sep, q, rest)) == EncPiece(p, sep, q) + EncExpr(rest)
  {
    hide Escapes, CallHead;
    match p
    case Lit(_) =>
    case Sharp =>
    case Ctl(controls) =>
      EncArgument(Escapes(controls));
      CallEnc(sep, q, Str(LITERAL, FRESH, Escapes(controls), End), rest);
  }

  lemma EncEnd()
    ensures EncExpr(End) == []
  {
  }

  lemma {:induction false} TreeEncSnoc(pieces: seq<Piece>, p: Piece, sep: bool, q: Unit)
    requires AllFit(pieces) && PieceFits(p)
    ensures AllFit(pieces + [p])
    ensures EncExpr(Tree(pieces + [p], sep, q)) == EncExpr(Tree(pieces, sep, q)) + EncPiece(p, sep && pieces == [], q)
    decreases |pieces|
  {
    hide EncExpr, EncPiece, Node;
    if pieces == [] {
      assert [] + [p] == [p] && [p][1..] == [];
      EncEnd();
      NodeEnc(p, sep, q, End);
    } else {
      assert (pieces + [p])[1..] == pieces[1..] + [p];
      TreeEncSnoc(pieces[1..], p, false, q);
      NodeEnc(pieces[0], sep, q, Tree(pieces[1..] + [p], false, q));
      NodeEnc(pieces[0], sep, q, Tree(pieces[1..], false, q));
      var a, b, c := EncPiece(pieces[0], sep, q), EncExpr(Tree(pieces[1..], false, q)), EncPiece(p, false, q);
      assert a + (b + c) == (a + b) + c;
    }
  }

  lemma {:induction false} TreeEnc(pieces: seq<Piece>, q: Unit)
    requires AllFit(pieces)
    ensures EncExpr(Tree(pieces, true, q)) == Enc(pieces, q)
    decreases |pieces|
  {
    if pieces != [] {
      hide EncPiece, EncExpr, Tree;
      var n := |pieces| - 1;
      TreeEnc(pieces[..n], q);
      TreeEncSnoc(pieces[..n], pieces[n], true, q);
      assert pieces[..n] + [pieces[n]] == pieces;
    }
  }

  /** What a control character comes back as. */
  function RenderedChar(c: Unit): (r: Chars)
    ensures r == [c] <==> !IsControl(c) || IsLineControl(c)
    ensures |r| >= 1
  {
    if IsControl(c) && !IsLineControl(c) then [R.BACKSLASH] + Letters(c) else [c]
  }

  function Rendered(v: Chars): Chars {
    if v == [] then [] else Rendered(v[..|v| - 1]) + RenderedChar(v[|v| - 1])
  }

  function PieceText(p: Piece): Chars {
    match p
    case Lit(text) => text
    case Sharp => [R.HASH]
    case Ctl(controls) => EscapeExpand(Escapes(controls))
  }

  function AllText(pieces: seq<Piece>): Chars {
    if pieces == [] then [] else PieceText(pieces[0]) + AllText(pieces[1..])
  }

  lemma {:induction false} AllTextSnoc(pieces: seq<Piece>, p: Piece)
    ensures AllText(pieces + [p]) == AllText(pieces) + PieceText(p)
    decreases |pieces|
  {
    if pieces == [] {
      assert [] + [p] == [p] && [p][1..] == [];
    } else {
      assert (pieces + [p])[1..] == pieces[1..] + [p];
      AllTextSnoc(pieces[1..], p);
    }
  }

  /** The escape of a control character, expanded behind escapes. */
  lemma {:induction false} EscapeExpandSnoc(controls: Chars, c: Unit)
    requires IsControl(c) && forall i | 0 <= i < |controls| :: IsControl(controls[i])
    ensures EscapeExpand(Escapes(controls + [c])) == EscapeExpand(Escapes(controls)) + RenderedChar(c)
  {
    EscapesSnoc(controls, c);
    EscapeExpandAppend(controls, [R.BACKSLASH] + Letters(c));
    ExpandOne(c);
  }

  lemma NoEscapes()
    ensures Escapes([]) == []
  {
  }

  lemma ExpandNoControls()
    ensures EscapeExpand(Escapes([])) == []
  {
  }

  lemma ExpandOne(c: Unit)
    requires IsControl(c)
    ensures EscapeExpand([R.BACKSLASH] + Letters(c)) == RenderedChar(c)
  {
    var s := [R.BACKSLASH] + Letters(c);
    if IsLineControl(c) {
      assert s[2..] == [];
    } else {
      NoEscape(s[1..]);
    }
  }

  lemma {:induction false} NoEscape(s: Chars)
    requires forall i | 0 <= i < |s| :: s[i] != R.BACKSLASH
    ensures EscapeExpand(s) == s
    decreases |s|
  {
    if s != [] {
      NoEscape(s[1..]);
    }
  }

  /** Escapes stay apart: what follows them is expanded on its own. */
  lemma {:induction false} EscapeExpandAppend(controls: Chars, t: Chars)
    requires forall i | 0 <= i < |controls| :: IsControl(controls[i])
    ensures EscapeExpand(Escapes(controls) + t) == EscapeExpand(Escapes(controls)) + EscapeExpand(t)
    decreases |controls|
  {
    hide EscapeExpand, Escapes, Letters;
    if controls == [] {
      NoEscapes();
      ExpandNothing();
      assert [] + t == t;
    } else {
      var u, c := controls[..|controls| - 1], controls[|controls| - 1];
      var code := [R.BACKSLASH] + Letters(c);
      assert u + [c] == controls;
      EscapesSnoc(u, c);
      EscapeExpandAppend(u, code + t);
      EscapeExpandAppend(u, code);
      assert Escapes(controls) + t == Escapes(u) + (code + t);
      ExpandCode(c, t);
      var x, y, z := EscapeExpand(Escapes(u)), EscapeExpand(code), EscapeExpand(t);
      assert x + (y + z) == (x + y) + z;
    }
  }

  lemma ExpandCode(c: Unit, t: Chars)
    requires IsControl(c)
    ensures EscapeExpand([R.BACKSLASH] + Letters(c) + t) == EscapeExpand([R.BACKSLASH] + Letters(c)) + EscapeExpand(t)
  {
    hide EscapeExpand, Hex;
    ExpandNothing();
    var code := [R.BACKSLASH] + Letters(c);
    assert code + [] == code;
    if IsLineControl(c) {
      assert code == [R.BACKSLASH, Letters(c)[0]];
      ExpandMapped(Letters(c)[0], t);
      ExpandMapped(Letters(c)[0], []);
      assert Mapped(Letters(c)[0]) + [] == Mapped(Letters(c)[0]);
    } else {
      HexDigit(c / 16);
      HexDigit(c % 16);
      assert code == [R.BACKSLASH, LETTER_X, Hex(c / 16), Hex(c % 16)];
      ExpandRaw(Hex(c / 16), Hex(c % 16), t);
      ExpandRaw(Hex(c / 16), Hex(c % 16), []);
    }
  }

  lemma HexDigit(n: Unit)
    requires n < 16
    ensures Hex(n) != R.BACKSLASH
  {
  }

  lemma ExpandMapped(letter: Unit, t: Chars)
    requires Mapped(letter) != []
    ensures EscapeExpand([R.BACKSLASH, letter] + t) == Mapped(letter) + EscapeExpand(t)
  {
    assert ([R.BACKSLASH, letter] + t)[2..] == t;
  }

  /** An unknown escape stays. */
  lemma ExpandRaw(a: Unit, b: Unit, t: Chars)
    requires a != R.BACKSLASH && b != R.BACKSLASH
    ensures EscapeExpand([R.BACKSLASH, LETTER_X, a, b] + t) == [R.BACKSLASH, LETTER_X, a, b] + EscapeExpand(t)
  {
    hide EscapeExpand;
    var s := [LETTER_X] + ([a] + ([b] + t));
    assert [R.BACKSLASH, LETTER_X, a, b] + t == [R.BACKSLASH] + s;
    ExpandOther(s);
    ExpandPlain(LETTER_X, [a] + ([b] + t));
    ExpandPlain(a, [b] + t);
    ExpandPlain(b, t);
  }

  lemma ExpandPlain(c: Unit, t: Chars)
    requires c != R.BACKSLASH
    ensures EscapeExpand([c] + t) == [c] + EscapeExpand(t)
  {
    assert ([c] + t)[1..] == t && ([c] + t)[..1] == [c];
  }

  lemma ExpandOther(s: Chars)
    requires s != [] && s[0] == LETTER_X
    ensures EscapeExpand([R.BACKSLASH] + s) == [R.BACKSLASH] + EscapeExpand(s)
  {
    assert ([R.BACKSLASH] + s)[1..] == s && ([R.BACKSLASH] + s)[..1] == [R.BACKSLASH];
  }

  /** Adding a character to the pieces adds what it comes back as to their text. */
  lemma AddText(s: Parts, c: Unit)
    requires GoodParts(s)
    ensures AllText(Closed(Add(s, c))) == AllText(Closed(s)) + RenderedChar(c)
  {
    hide EscapeExpand, Escapes, AllText;
    if IsControl(c) {
      if s.cur.Ctl? {
        EscapeExpandSnoc(s.cur.controls, c);
        AllTextSnoc(s.done, s.cur);
        AllTextSnoc(s.done, Ctl(s.cur.controls + [c]));
      } else {
        EscapeExpandSnoc([], c);
        ExpandNoControls();
        assert [] + [c] == [c];
        AllTextSnoc(Closed(s), Ctl([c]));
      }
    } else if c == R.HASH {
      AllTextSnoc(Closed(s), Sharp);
    } else if s.cur.Lit? {
      AllTextSnoc(s.done, Lit(s.cur.text + [c]));
      AllTextSnoc(s.done, s.cur);
    } else {
      AllTextSnoc(Closed(s), Lit([c]));
    }
  }

  lemma {:induction false} SplitText(v: Chars)
    ensures AllText(Closed(Split(v))) == Rendered(v)
    decreases |v|
  {
    if v != [] {
      SplitText(v[..|v| - 1]);
      SplitGood(v[..|v| - 1]);
      AddText(Split(v[..|v| - 1]), v[|v| - 1]);
    }
  }

  /** The builtin function escape_expand is there, and does what it does. */
  ghost predicate Standard(w: World) {
    && ESCAPE_EXPAND in w.expands && w.expands[ESCAPE_EXPAND].minArgs == 0 && w.expands[ESCAPE_EXPAND].maxArgs >= 1
    && forall paths, args, frames ::
      w.expand(paths, ESCAPE_EXPAND, args, frames) == Outcome(Yes, Top(frames), ExpandEach(args))
  }

  lemma CallEscape(w: World, b: nat, st: State, text: Text)
    requires Standard(w) && text != []
    ensures CallExpand(w, b, st, ESCAPE_EXPAND, Str(LITERAL, FRESH, text, End))
         == Listed(ReturnTrue, st, [EscapeExpand(text)])
  {
    var e := Str(LITERAL, FRESH, text, End);
    assert Expand(w, b, st, e, Acc([[]], false), true) == Got(ReturnTrue, st, Acc([text], true)) by {
      assert AddPlain(w, Acc([[]], false), LITERAL, FRESH, text, true) == Acc([text], true);
    }
    var none: Values := [];
    assert none + [[]] == [[]];
    assert ExpandJoined(w, b, st, e, []) == Listed(ReturnTrue, st, [text]);
    assert ExpandEach([text]) == [EscapeExpand(text)] by { assert [text][..0] == []; }
    assert st.frames[|st.frames| - 1 := Top(st.frames)] == st.frames;
    assert w.expand(st.paths, ESCAPE_EXPAND, [text], st.frames) == Outcome(Yes, Top(st.frames), [EscapeExpand(text)]);
  }

  lemma ExpandEscapesNonempty(controls: Chars)
    requires controls != [] && forall i | 0 <= i < |controls| :: IsControl(controls[i])
    ensures EscapeExpand(Escapes(controls)) != []
  {
    hide EscapeExpand, Escapes;
    var u, c := controls[..|controls| - 1], controls[|controls| - 1];
    assert u + [c] == controls;
    EscapeExpandSnoc(u, c);
  }

  /** Between pieces, either nothing has been said yet or the next piece continues the word. */
  predicate Continues(last: Chars, pending: bool, sep: bool) { last == [] || (pending && !sep) }

  lemma AddLiteral(w: World, text: Text, sep: bool, last: Chars, pending: bool)
    requires text != [] && Continues(last, pending, sep)
    ensures AddPlain(w, Acc([last], pending), LITERAL, R.Flag(sep, false), text, true) == Acc([last + text], true)
  {
    if last == [] {
      assert last + text == text;
    }
  }

  lemma EvaluateNode(w: World, b: nat, st: State, p: Piece, sep: bool, q: Unit, rest: Expr, last: Chars, pending: bool)
    requires Standard(w) && PieceFits(p) && GoodPiece(p) && Continues(last, pending, sep)
    ensures Expand(w, b, st, Node(p, sep, q, rest), Acc([last], pending), true)
         == Expand(w, b, st, rest, Acc([last + PieceText(p)], true), true)
  {
    match p
    case Lit(text) => AddLiteral(w, text, sep, last, pending);
    case Sharp => AddLiteral(w, [R.HASH], sep, last, pending);
    case Ctl(controls) => EvaluateCall(w, b, st, controls, sep, q, rest, last, pending);
  }

  lemma EvaluateCall(w: World, b: nat, st: State, controls: Chars, sep: bool, q: Unit, rest: Expr, last: Chars,
                     pending: bool)
    requires PieceFits(Ctl(controls)) && GoodPiece(Ctl(controls))
    requires Standard(w) && Continues(last, pending, sep)
    ensures Expand(w, b, st, Node(Ctl(controls), sep, q, rest), Acc([last], pending), true)
         == Expand(w, b, st, rest, Acc([last + EscapeExpand(Escapes(controls))], true), true)
  {
    hide EscapeExpand, Escapes, AddStrList, Standard, CallExpand, R.Flag, Continues;
    EscapesNonempty(controls);
    ExpandEscapesNonempty(controls);
    CallEscape(w, b, st, Escapes(controls));
    AddExpanded(EscapeExpand(Escapes(controls)), sep, q, last, pending);
  }

  lemma AddExpanded(text: Chars, sep: bool, q: Unit, last: Chars, pending: bool)
    requires text != [] && Continues(last, pending, sep)
    ensures var flags := R.Flag(sep, q != 0);
      AddStrList(Started(Acc([last], pending), flags), [text], flags % 2 == 1, true) == Acc([last + text], true)
  {
    assert [text][1..] == [] && [text][0..] == [text];
    assert Spaced([text], false) == text;
    assert [[]][0 := last + text] == [last + text];
  }

  lemma ExpandEnd(w: World, b: nat, st: State, acc: Acc)
    requires Open(acc, true)
    ensures Expand(w, b, st, End, acc, true) == Got(ReturnTrue, st, acc)
  {
  }

  lemma {:induction false} EvaluateTree(w: World, b: nat, st: State, pieces: seq<Piece>, sep: bool, q: Unit,
                                        last: Chars, pending: bool)
    requires Standard(w) && AllFit(pieces) && Continues(last, pending, sep)
    requires forall i | 0 <= i < |pieces| :: GoodPiece(pieces[i])
    ensures var g := Expand(w, b, st, Tree(pieces, sep, q), Acc([last], pending), true);
      g.vr == ReturnTrue && g.st == st && g.acc.ret == [last + AllText(pieces)]
    decreases |pieces|
  {
    hide Standard, PieceText, Node, R.Flag, Expand, PieceFits, GoodPiece;
    if pieces == [] {
      ExpandEnd(w, b, st, Acc([last], pending));
      assert last + [] == last;
    } else {
      EvaluateNode(w, b, st, pieces[0], sep, q, Tree(pieces[1..], false, q), last, pending);
      EvaluateTree(w, b, st, pieces[1..], false, q, last + PieceText(pieces[0]), true);
      assert last + PieceText(pieces[0]) + AllText(pieces[1..]) == last + AllText(pieces);
    }
  }

  lemma {:induction false} TreeSeps(pieces: seq<Piece>, sep: bool, q: Unit)
    requires AllFit(pieces)
    ensures Seps(Tree(pieces, sep, q)) == 0
    decreases |pieces|
  {
    if pieces != [] {
      TreeSeps(pieces[1..], false, q);
    }
  }

  lemma {:induction false} RenderedIs(v: Chars)
    ensures |Rendered(v)| >= |v|
    ensures Rendered(v) == v <==> forall i | 0 <= i < |v| :: IsControl(v[i]) ==> IsLineControl(v[i])
    decreases |v|
  {
    if v != [] {
      var n := |v| - 1;
      RenderedIs(v[..n]);
      assert v == v[..n] + [v[n]];
      if Rendered(v) == v {
        assert |RenderedChar(v[n])| == 1 && Rendered(v)[..n] == Rendered(v[..n]);
        assert RenderedChar(v[n]) == [v[n]];
      }
    }
  }

  lemma ClosedGood(v: Chars)
    ensures forall i | 0 <= i < |Closed(Split(v))| :: GoodPiece(Closed(Split(v))[i])
  {
    SplitGood(v);
  }

  lemma JoinedOnce(w: World, b: nat, st: State, e: Expr)
    requires Seps(e) == 0
    ensures var g := Expand(w, b, st, e, Acc([[]], false), true);
      ExpandJoined(w, b, st, e, []) == Listed(g.vr, g.st, g.acc.ret)
  {
    var none: Values := [];
    assert none + [[]] == [[]];
  }

  /** A quoted value whose pieces fit is read without error, and evaluating it gives one string: the
      value itself exactly if its control characters are carriage returns, line feeds and tabs. */
  lemma RoundTrip(w: World, b: nat, st: State, v: Chars, place: R.Place)
    requires Standard(w) && AllFit(Closed(Split(v)))
    ensures var e := Tree(Closed(Split(v)), true, OuterQuote(v));
      && R.Parse(Quoted(v), place) == R.Parsed(EncExpr(e) + [VALUE_TERMINATOR], true)
      && ExpandJoined(w, b, st, e, []) == Listed(ReturnTrue, st, [Rendered(v)])
      && (Rendered(v) == v <==> forall i | 0 <= i < |v| :: IsControl(v[i]) ==> IsLineControl(v[i]))
  {
    hide R.Parse, Quoted, Enc, EncExpr, Split, Closed, Expand, Tree, Rendered, Standard;
    var pieces, q := Closed(Split(v)), OuterQuote(v);
    ParseQuoted(v, place);
    TreeEnc(pieces, q);
    TreeSeps(pieces, true, q);
    ClosedGood(v);
    EvaluateTree(w, b, st, pieces, true, q, [], false);
    JoinedOnce(w, b, st, Tree(pieces, true, q));
    SplitText(v);
    assert [] + AllText(pieces) == AllText(pieces);
    RenderedIs(v);
  }
}
