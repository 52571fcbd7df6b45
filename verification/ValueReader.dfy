/** The tokenizer's value grammar: a text without line structure, read as one list of pieces. */
module ValueReader {
  import opened ProTokens
  import ParserScopes

  const TAB: Unit := 9
  const BLANK: Unit := 32
  const DOUBLE_QUOTE: Unit := 34
  const HASH: Unit := 35
  const DOLLAR: Unit := 36
  const SINGLE_QUOTE: Unit := 39
  const OPEN: Unit := 40
  const CLOSE: Unit := 41
  const COMMA: Unit := 44
  const SLASH: Unit := 47
  const OPEN_SQUARE: Unit := 91
  const BACKSLASH: Unit := 92
  const CLOSE_SQUARE: Unit := 93
  const OPEN_BRACE: Unit := 123
  const CLOSE_BRACE: Unit := 125

  const LINE_NAME: Chars := [95, 76, 73, 78, 69, 95]
  const FILE_NAME: Chars := [95, 70, 73, 76, 69, 95]
  const HASH_NAME: Chars := [76, 73, 84, 69, 82, 65, 76, 95, 72, 65, 83, 72]
  const DOLLAR_NAME: Chars := [76, 73, 84, 69, 82, 65, 76, 95, 68, 79, 76, 76, 65, 82]
  const WHITESPACE_NAME: Chars := [76, 73, 84, 69, 82, 65, 76, 95, 87, 72, 73, 84, 69, 83, 80, 65, 67, 69]

  /** Where the text stands, as `_FILE_` and `_LINE_` expand. */
  datatype Place = Place(file: Chars, line: Chars)

  /** The reading position in a call is inside its arguments; the outer quote and terminator wait. */
  datatype Held = Held(parens: int, quote: Unit, term: Unit)

  /** `lit` is the literal not written yet, `sep` whether the next token starts a word, `quote` 0 or
      the open quote; the arguments of a call are read while `stack` is not empty. */
  datatype Reader = Reader(out: Chars, lit: Chars, sep: bool, quote: Unit, parens: int, stack: seq<Held>, ok: bool)

  const START := Reader([], [], true, 0, 0, [], true)

  predicate IsSpace(c: Unit) { c == BLANK || c == TAB }

  predicate IsSymbol(c: Unit) {
    c == OPEN_SQUARE || c == CLOSE_SQUARE || c == OPEN_BRACE || c == CLOSE_BRACE || c == OPEN || c == CLOSE
    || c == DOLLAR || c == BACKSLASH || c == SINGLE_QUOTE || c == DOUBLE_QUOTE
    || c == 0 // the search for a symbol also finds the end of the list of symbols
  }

  predicate IsNameChar(c: Unit, term: Unit) {
    c >= 0x100 || c == 46 || c == 95 || 97 <= c <= 122 || 65 <= c <= 90 || 48 <= c <= 57 || (c == SLASH && term != 0)
  }

  /** The character at the start; the text is followed by a zero. */
  function First(s: Chars): Unit { if s == [] then 0 else s[0] }

  function Put(r: Reader, c: Unit): Reader { r.(lit := r.lit + [c]) }

  function Flag(sep: bool, quoted: bool): Flags { (if sep then 2 else 0) + (if quoted then 1 else 0) }

  /** A literal with its length in one unit: longer ones lose the high part of their length. */
  function EncLiteral(text: Chars, sep: bool): Chars {
    [Tok(LITERAL, Flag(sep, false)), |text| % 0x10000] + text
  }

  function Flush(r: Reader): Reader {
    if r.lit == [] then r else r.(out := r.out + EncLiteral(r.lit, r.sep), lit := [], sep := false)
  }

  function NameLen(s: Chars, term: Unit): (n: nat)
    ensures n <= |s|
  {
    if s == [] || !IsNameChar(s[0], term) then 0 else 1 + NameLen(s[1..], term)
  }

  function SkipSpaces(s: Chars): (r: Chars)
    ensures |r| <= |s|
  {
    if s == [] || !IsSpace(s[0]) then s else SkipSpaces(s[1..])
  }

  /** The few names that the parser itself expands. */
  function Special(name: Chars, place: Place): seq<Chars> {
    if name == LINE_NAME then [place.line]
    else if name == FILE_NAME then [place.file]
    else if name == HASH_NAME then [[HASH]]
    else if name == DOLLAR_NAME then [[DOLLAR]]
    else if name == WHITESPACE_NAME then [[TAB]]
    else []
  }

  /** The bracket in front of a name: what ends the name, and what is named. */
  function Terminator(c: Unit): Unit {
    if c == OPEN_SQUARE then CLOSE_SQUARE else if c == OPEN_BRACE then CLOSE_BRACE else if c == OPEN then CLOSE else 0
  }

  function Named(c: Unit): Unit {
    if c == OPEN_SQUARE then PROPERTY else if c == OPEN then ENV_VAR else VARIABLE
  }

  function EncName(r: Reader, named: Unit, call: bool, name: Chars, place: Place): Chars {
    var tok: Unit := (if call then FUNC_NAME else named % MASK) + MASK * Flag(r.sep, r.quote != 0);
    if named == VARIABLE && Special(name, place) != [] then EncLiteral(Special(name, place)[0], r.sep)
    else if named == ENV_VAR then [tok, |name| % 0x10000] + name
    else [tok, ParserScopes.HashLow(name), ParserScopes.HashHigh(name), |name| % 0x10000] + name
  }

  /** Where reading goes on, and with what. */
  datatype Point = Point(rest: Chars, reader: Reader)

  /** An expansion; `s` starts behind the two dollars. */
  function ReadExpansion(s: Chars, r: Reader, place: Place): (x: Point)
    ensures |x.rest| <= |s|
  {
    var term, named := Terminator(First(s)), Named(First(s));
    var text := if term != 0 then s[1..] else s;
    var n := NameLen(text, term);
    var name, tail := text[..n], text[n..];
    var call := named == VARIABLE && First(tail) == OPEN;
    var f := Flush(r);
    var w := f.(out := f.out + EncName(f, named, call, name, place));
    if call then
      Point(SkipSpaces(tail[1..]),
            w.(sep := true, quote := 0, parens := 0, stack := w.stack + [Held(w.parens, w.quote, term)]))
    else
      CheckTerm(tail, w.(sep := false), term)
  }

  function CheckTerm(s: Chars, r: Reader, term: Unit): (x: Point)
    ensures |x.rest| <= |s|
  {
    if term == 0 then Point(s, r)
    else if First(s) != term then Point(s, r.(ok := false))
    else Point(if s == [] then s else s[1..], r)
  }

  /** The end of a call's arguments. */
  function EndCall(s: Chars, r: Reader): (x: Point)
    requires r.stack != []
    ensures |x.rest| <= |s|
  {
    var f := Flush(r);
    var held := f.stack[|f.stack| - 1];
    CheckTerm(s, f.(out := f.out + [FUNC_TERMINATOR], sep := false, quote := held.quote, parens := held.parens,
                    stack := f.stack[..|f.stack| - 1]), held.term)
  }

  /** A character inside the arguments of a call; `s` is behind it. */
  function ReadArg(c: Unit, s: Chars, r: Reader): (x: Point)
    requires r.stack != []
    ensures |x.rest| <= |s|
  {
    if IsSpace(c) then Point(SkipSpaces(s), Flush(r).(sep := true))
    else if c == OPEN then Point(s, Put(r.(parens := r.parens + 1), c))
    else if c == CLOSE then
      if r.parens - 1 < 0 then EndCall(s, r.(parens := r.parens - 1)) else Point(s, Put(r.(parens := r.parens - 1), c))
    else if r.parens == 0 && c == COMMA then
      var f := Flush(r);
      Point(SkipSpaces(s), f.(out := f.out + [ARG_SEPARATOR], sep := true))
    else Point(s, Put(r, c))
  }

  /** The next character, or a whole expansion. */
  function ReadOne(s: Chars, r: Reader, place: Place): (x: Point)
    requires s != []
    ensures |x.rest| < |s|
  {
    var c, t := s[0], s[1..];
    if c == DOLLAR && First(t) == DOLLAR then ReadExpansion(t[1..], r, place)
    else if c == DOLLAR then Point(t, Put(r, c))
    else if c == BACKSLASH then
      if t != [] && IsSymbol(t[0]) then Point(t[1..], Put(r, t[0])) else Point(t, Put(r, c))
    else if r.quote != 0 then
      if c == r.quote then Point(t, r.(quote := 0)) else Point(t, Put(r, c))
    else if c == SINGLE_QUOTE || c == DOUBLE_QUOTE then Point(t, r.(quote := c))
    else if r.stack != [] then ReadArg(c, t, r)
    else Point(t, Put(r, c))
  }

  function Read(s: Chars, r: Reader, place: Place): Reader
    decreases |s|
  {
    if s == [] then r
    else
      var x := ReadOne(s, r, place);
      Read(x.rest, x.reader, place)
  }

  datatype Parsed = Parsed(toks: Chars, ok: bool)

  /** At the end of the text: nothing is kept of it if a quote or a call is open. */
  function Finish(r: Reader): Parsed {
    if r.quote != 0 || r.stack != [] then Parsed([VALUE_TERMINATOR], false)
    else Parsed(Flush(r).out + [VALUE_TERMINATOR], r.ok)
  }

  function Parse(text: Chars, place: Place): Parsed { Finish(Read(text, START, place)) }

  /** The reader as it advances through the text. */
  method ReadValue(text: Chars, place: Place) returns (toks: Chars, ok: bool)
    ensures Parsed(toks, ok) == Parse(text, place)
  {
    var cur, r := 0, START;
    while cur < |text|
      invariant 0 <= cur <= |text|
      invariant Read(text[cur..], r, place) == Read(text, START, place)
    {
      ghost var was := text[cur..];
      var c := text[cur];
      cur := cur + 1;
      assert was[1..] == text[cur..];
      if c == DOLLAR {
        if cur < |text| && text[cur] == DOLLAR {
          assert was[1..][1..] == text[cur + 1..];
          cur, r := Expand(text, cur + 1, r, place);
        } else {
          r := Put(r, c);
        }
      } else if c == BACKSLASH {
        if cur < |text| && IsSymbol(text[cur]) {
          assert was[1..][1..] == text[cur + 1..];
          r := Put(r, text[cur]);
          cur := cur + 1;
        } else {
          r := Put(r, c);
        }
      } else if r.quote != 0 {
        r := if c == r.quote then r.(quote := 0) else Put(r, c);
      } else if c == SINGLE_QUOTE || c == DOUBLE_QUOTE {
        r := r.(quote := c);
      } else if r.stack != [] {
        cur, r := Argument(text, cur, c, r);
      } else {
        r := Put(r, c);
      }
    }
    if r.quote != 0 || r.stack != [] {
      return [VALUE_TERMINATOR], false;
    }
    r := Flush(r);
    return r.out + [VALUE_TERMINATOR], r.ok;
  }

  method PassSpaces(text: Chars, start: nat) returns (cur: nat)
    requires start <= |text|
    ensures start <= cur <= |text| && text[cur..] == SkipSpaces(text[start..])
  {
    cur := start;
    while cur < |text| && IsSpace(text[cur])
      invariant start <= cur <= |text| && SkipSpaces(text[cur..]) == SkipSpaces(text[start..])
    {
      assert text[cur..][1..] == text[cur + 1..];
      cur := cur + 1;
    }
  }

  method PassName(text: Chars, start: nat, term: Unit) returns (cur: nat)
    requires start <= |text|
    ensures start <= cur <= |text| && cur == start + NameLen(text[start..], term)
  {
    cur := start;
    while cur < |text| && IsNameChar(text[cur], term)
      invariant start <= cur <= |text|
      invariant NameLen(text[start..], term) == cur - start + NameLen(text[cur..], term)
    {
      assert text[cur..][1..] == text[cur + 1..];
      cur := cur + 1;
    }
  }

  method Expand(text: Chars, start: nat, r0: Reader, place: Place) returns (cur: nat, r: Reader)
    requires start <= |text|
    ensures start <= cur <= |text| && Point(text[cur..], r) == ReadExpansion(text[start..], r0, place)
  {
    hide EncName, Flush, NameLen, SkipSpaces, CheckTerm;
    r, cur := Flush(r0), start;
    var c := if cur < |text| then text[cur] else 0;
    var term, named := Terminator(c), Named(c);
    if term != 0 {
      cur := cur + 1;
    }
    var from := cur;
    cur := PassName(text, cur, term);
    c := if cur < |text| then text[cur] else 0;
    assert text[from..][cur - from..] == text[cur..];
    assert text[from..][..cur - from] == text[from..cur];
    var call := named == VARIABLE && c == OPEN;
    r := r.(out := r.out + EncName(r, named, call, text[from..cur], place));
    if call {
      r := r.(sep := true, quote := 0, parens := 0, stack := r.stack + [Held(r.parens, r.quote, term)]);
      ghost var tail := text[cur..];
      assert tail[1..] == text[cur + 1..];
      cur := PassSpaces(text, cur + 1);
    } else {
      r := r.(sep := false);
      cur, r := Terminated(text, cur, r, term);
    }
  }

  method Terminated(text: Chars, start: nat, r0: Reader, term: Unit) returns (cur: nat, r: Reader)
    requires start <= |text|
    ensures start <= cur <= |text| && Point(text[cur..], r) == CheckTerm(text[start..], r0, term)
  {
    cur, r := start, r0;
    if term != 0 {
      var c := if cur < |text| then text[cur] else 0;
      if c != term {
        r := r.(ok := false);
      } else {
        cur := cur + 1;
      }
    }
  }

  method Argument(text: Chars, start: nat, c: Unit, r0: Reader) returns (cur: nat, r: Reader)
    requires start <= |text| && r0.stack != []
    ensures start <= cur <= |text| && Point(text[cur..], r) == ReadArg(c, text[start..], r0)
  {
    cur, r := start, r0;
    if IsSpace(c) {
      r := Flush(r).(sep := true);
      cur := PassSpaces(text, cur);
    } else if c == OPEN {
      r := Put(r.(parens := r.parens + 1), c);
    } else if c == CLOSE {
      r := r.(parens := r.parens - 1);
      if r.parens < 0 {
        r := Flush(r);
        var held := r.stack[|r.stack| - 1];
        r := r.(out := r.out + [FUNC_TERMINATOR], sep := false, quote := held.quote, parens := held.parens,
                stack := r.stack[..|r.stack| - 1]);
        cur, r := Terminated(text, cur, r, held.term);
      } else {
        r := Put(r, c);
      }
    } else if r.parens == 0 && c == COMMA {
      r := Flush(r);
      r := r.(out := r.out + [ARG_SEPARATOR], sep := true);
      cur := PassSpaces(text, cur);
    } else {
      r := Put(r, c);
    }
  }
}
