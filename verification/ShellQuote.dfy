/** Quoting an argument for a command line, against what reads it back: for Windows first the command
    interpreter, then the started process; for Unix the shell. */
module ShellQuote {

  type Table = t: seq<nat> | |t| == 16 witness seq(16, i => 0)

  const WIN_QUOTE: Table :=
    [0xff, 0xff, 0xff, 0xff, 0x45, 0x13, 0x00, 0x78, 0x00, 0x00, 0x00, 0x40, 0x00, 0x00, 0x00, 0x10]
  const WIN_META: Table :=
    [0x00, 0x00, 0x00, 0x00, 0x40, 0x03, 0x00, 0x50, 0x00, 0x00, 0x00, 0x40, 0x00, 0x00, 0x00, 0x10]
  const UNIX_QUOTE: Table :=
    [0xff, 0xff, 0xff, 0xff, 0xdf, 0x07, 0x00, 0xd8, 0x00, 0x00, 0x00, 0x38, 0x01, 0x00, 0x00, 0x78]

  /** Bit `k` of a byte. */
  function Bit(byte: nat, k: nat): nat
    requires k < 8
  {
    var weight := match k
      case 0 => 1 case 1 => 2 case 2 => 4 case 3 => 8 case 4 => 16 case 5 => 32 case 6 => 64 case _ => 128;
    byte / weight % 2
  }

  /** A bit for each of the first 128 characters. */
  predicate IsSpecialChar(c: char, t: Table) {
    c as int < 128 && Bit(t[c as int / 8], c as int % 8) == 1
  }

  predicate IsWinQuoted(c: char) {
    c <= ' '
    || c == '\"' || c == '&' || c == '(' || c == ')' || c == ',' || c == ';' || c == '<' || c == '='
    || c == '>' || c == '^' || c == '|'
  }

  predicate IsWinMeta(c: char) {
    c == '&' || c == '(' || c == ')' || c == '<' || c == '>' || c == '^' || c == '|'
  }

  predicate IsUnixQuoted(c: char) {
    c <= ' '
    || c == '\\' || c == '\'' || c == '\"' || c == '$' || c == '`' || c == '<' || c == '>' || c == '|'
    || c == ';' || c == '&' || c == '(' || c == ')' || c == '{' || c == '}' || c == '*' || c == '?'
    || c == '#' || c == '!' || c == '~' || c == '[' || c == ']'
  }

  lemma EmptyBytes()
    ensures forall k | 0 <= k < 8 :: Bit(0x00, k) == 0 && Bit(0xff, k) == 1
  {
  }

  lemma WinQuoteTable(c: char)
    ensures IsSpecialChar(c, WIN_QUOTE) <==> IsWinQuoted(c)
  {
    EmptyBytes();
    if c as int < 64 {
      assert c as int / 8 < 8;
    } else if c as int < 128 {
      assert 8 <= c as int / 8 < 16;
    }
  }

  lemma WinMetaTable(c: char)
    ensures IsSpecialChar(c, WIN_META) <==> IsWinMeta(c)
  {
    EmptyBytes();
    if c as int < 64 {
      assert c as int / 8 < 8;
    } else if c as int < 128 {
      assert 8 <= c as int / 8 < 16;
    }
  }

  lemma UnixQuoteTable(c: char)
    ensures IsSpecialChar(c, UNIX_QUOTE) <==> IsUnixQuoted(c)
  {
    EmptyBytes();
    if c as int < 64 {
      assert c as int / 8 < 8;
    } else if c as int < 128 {
      assert 8 <= c as int / 8 < 16;
    }
  }

  predicate HasSpecialChars(arg: string, t: Table) { exists i :: 0 <= i < |arg| && IsSpecialChar(arg[i], t) }

  method LookForSpecialChars(arg: string, t: Table) returns (r: bool)
    ensures r == HasSpecialChars(arg, t)
  {
    var x := |arg| - 1;
    while x >= 0
      invariant -1 <= x < |arg| && forall i | x < i < |arg| :: !IsSpecialChar(arg[i], t)
    {
      if IsSpecialChar(arg[x], t) {
        return true;
      }
      x := x - 1;
    }
    return false;
  }

  function Repeat(n: nat): (s: string)
    ensures |s| == n && forall i | 0 <= i < n :: s[i] == '\\'
  {
    if n == 0 then "" else ['\\'] + Repeat(n - 1)
  }

  /** The length of the run of backslashes at the start. */
  function Run(s: string): (n: nat)
    ensures n <= |s| && (n < |s| ==> s[n] != '\\') && s[..n] == Repeat(n)
  {
    if s == "" || s[0] != '\\' then 0 else 1 + Run(s[1..])
  }

  lemma {:induction false} RunOf(n: nat, t: string)
    requires t == "" || t[0] != '\\'
    ensures Run(Repeat(n) + t) == n && (Repeat(n) + t)[n..] == t
    decreases n
  {
    if n == 0 {
      assert "" + t == t;
    } else {
      assert (Repeat(n) + t)[1..] == Repeat(n - 1) + t;
      RunOf(n - 1, t);
    }
  }

  lemma {:induction false} RepeatAdd(a: nat, b: nat)
    ensures Repeat(a) + Repeat(b) == Repeat(a + b)
    decreases a
  {
    if a > 0 {
      RepeatAdd(a - 1, b);
      assert Repeat(a) + Repeat(b) == ['\\'] + (Repeat(a - 1) + Repeat(b));
    }
  }

  /** Every quote is escaped, and the backslashes in front of it are doubled. */
  function EscapeQuotes(s: string): string
    decreases |s|
  {
    var n := Run(s);
    if n == |s| then s
    else if s[n] == '"' then Repeat(2 * n) + "\\\"" + EscapeQuotes(s[n + 1..])
    else s[..n + 1] + EscapeQuotes(s[n + 1..])
  }

  /** Backslashes at the end are doubled; a final line feed does not count for the end. */
  function DoubleTrailing(s: string): string
    decreases |s|
  {
    var n := Run(s);
    if n == |s| then Repeat(2 * n)
    else if n > 0 && s[n..] == "\n" then Repeat(2 * n) + "\n"
    else s[..n + 1] + DoubleTrailing(s[n + 1..])
  }

  /** The quoting state of the command interpreter behind a text. */
  function Toggled(s: string, quoted: bool): bool {
    if s == "" then quoted else Toggled(s[..|s| - 1], quoted) != (s[|s| - 1] == '"')
  }

  function Escaped(c: char, quoted: bool): string {
    if c != '"' && !quoted && IsWinMeta(c) then ['^', c] else [c]
  }

  /** Where the interpreter takes text as not quoted, its meta characters get a circumflex. */
  function EscapeMeta(s: string, quoted: bool): string {
    if s == "" then ""
    else
      var c := s[|s| - 1];
      EscapeMeta(s[..|s| - 1], quoted) + Escaped(c, Toggled(s[..|s| - 1], quoted))
  }

  function Prepared(arg: string): string { DoubleTrailing(EscapeQuotes(arg)) }

  function ShellQuoteWin(arg: string): string {
    if arg == "" then "\"\""
    else if !HasSpecialChars(arg, WIN_QUOTE) then arg
    else
      var ret := Prepared(arg);
      "\"" + EscapeMeta(ret, true) + (if Toggled(ret, true) then "" else "^") + "\""
  }

  lemma EscapeNext(s: string, k: nat, quoted: bool)
    requires k < |s|
    ensures Toggled(s[..k + 1], quoted) == (Toggled(s[..k], quoted) != (s[k] == '"'))
    ensures EscapeMeta(s[..k + 1], quoted) == EscapeMeta(s[..k], quoted) + Escaped(s[k], Toggled(s[..k], quoted))
  {
    assert s[..k + 1][..k] == s[..k];
  }

  /** One character of the loop: `done` is finished, `rest` still to be looked at. */
  method StepOver(text: string, i: nat, open: bool, ghost done: string, ghost rest: string)
    returns (ret: string, next: nat, quoted: bool)
    requires text == done + rest && i == |done| && rest != ""
    ensures ret == done + Escaped(rest[0], open) + rest[1..] && next == |done| + |Escaped(rest[0], open)|
    ensures quoted == (open != (rest[0] == '"'))
  {
    hide IsSpecialChar, IsWinMeta;
    ret, next, quoted := text, i, open;
    var c := ret[next];
    WinMetaTable(c);
    if c == '"' {
      quoted := !quoted;
    } else if !quoted && IsSpecialChar(c, WIN_META) {
      ret := ret[..next] + ['^'] + ret[next..];
      next := next + 1;
    }
    next := next + 1;
  }

  /** The circumflexes are inserted in place. */
  method InsertCircumflexes(whole: string) returns (ret: string, quoted: bool)
    ensures ret == EscapeMeta(whole, true) && quoted == Toggled(whole, true)
  {
    ret, quoted := whole, true;
    var i := 0;
    ghost var done, k, rest := "", 0, whole;
    assert whole[..0] == "" && EscapeMeta("", true) == "" && Toggled("", true);
    hide EscapeMeta, Toggled, Escaped;
    while i < |ret|
      invariant 0 <= k <= |whole| && i == |done| && done == EscapeMeta(whole[..k], true)
      invariant ret == done + rest && rest == whole[k..]
      invariant quoted == Toggled(whole[..k], true)
      decreases |rest|
    {
      EscapeNext(whole, k, true);
      assert rest[0] == whole[k];
      ret, i, quoted := StepOver(ret, i, quoted, done, rest);
      done, k, rest := done + Escaped(whole[k], Toggled(whole[..k], true)), k + 1, rest[1..];
    }
    assert rest == "" && whole[..k] == whole;
  }

  method QuoteWin(arg: string) returns (ret: string)
    ensures ret == ShellQuoteWin(arg)
  {
    if |arg| == 0 {
      return "\"\"";
    }
    ret := arg;
    var special := LookForSpecialChars(ret, WIN_QUOTE);
    if special {
      ret := EscapeQuotes(ret);
      ret := DoubleTrailing(ret);
      var quoted;
      ret, quoted := InsertCircumflexes(ret);
      if !quoted {
        ret := ret + "^";
      }
      ret := ret + "\"";
      ret := "\"" + ret;
    }
  }

  // ---- the command interpreter

  /** What the interpreter passes on; nothing if a meta character acts on it, or an escape is left open.
      A quote toggles the quoting; where it is off, a circumflex escapes the next character. */
  datatype Passed = Acts | Passes(text: string)

  function Cmd(s: string, quoted: bool): Passed {
    if s == "" then Passes("")
    else if s[0] == '"' then Then("\"", Cmd(s[1..], !quoted))
    else if quoted then Then(s[..1], Cmd(s[1..], quoted))
    else if s[0] == '^' then if |s| == 1 then Acts else Then(s[1..2], Cmd(s[2..], quoted))
    else if IsWinMeta(s[0]) then Acts
    else Then(s[..1], Cmd(s[1..], quoted))
  }

  function Then(head: string, rest: Passed): Passed {
    match rest case Acts => Acts case Passes(text) => Passes(head + text)
  }

  /** The interpreter passes on what was there before the circumflexes were put in. */
  lemma {:induction false} CmdUndoes(s: string, quoted: bool, t: string)
    ensures Cmd(EscapeMeta(s, quoted) + t, quoted) == Then(s, Cmd(t, Toggled(s, quoted)))
    decreases |s|
  {
    if s == "" {
      assert EscapeMeta(s, quoted) + t == t;
      ThenEmpty(Cmd(t, quoted));
    } else {
      var u, c := s[..|s| - 1], s[|s| - 1];
      var piece := Escaped(c, Toggled(u, quoted));
      assert EscapeMeta(s, quoted) + t == EscapeMeta(u, quoted) + (piece + t);
      CmdUndoes(u, quoted, piece + t);
      CmdPiece(c, Toggled(u, quoted), t);
      ThenThen(u, [c], Cmd(t, Toggled(s, quoted)));
      assert u + [c] == s;
    }
  }

  lemma ThenEmpty(rest: Passed)
    ensures Then("", rest) == rest
  {
    if rest.Passes? {
      assert "" + rest.text == rest.text;
    }
  }

  lemma ThenThen(a: string, b: string, rest: Passed)
    ensures Then(a, Then(b, rest)) == Then(a + b, rest)
  {
    if rest.Passes? {
      assert a + (b + rest.text) == a + b + rest.text;
    }
  }

  lemma CmdPiece(c: char, quoted: bool, t: string)
    ensures Cmd(Escaped(c, quoted) + t, quoted) == Then([c], Cmd(t, quoted != (c == '"')))
  {
    if c != '"' && !quoted && IsWinMeta(c) {
      var s := ['^', c] + t;
      assert s[1..2] == [c] && s[2..] == t;
    } else {
      var s := [c] + t;
      assert s[..1] == [c] && s[1..] == t;
    }
  }

  // ---- the started process

  predicate IsBlank(c: char) { c == ' ' || c == '\t' }

  function Ended(current: string, open: bool): seq<string> { if open then [current] else [] }

  /** The arguments: backslashes stand for themselves, but in front of a quote two of them stand for one,
      and an odd one escapes the quote; other quotes toggle the quoting; blanks outside quotes separate. */
  function Arguments(s: string, quoted: bool, current: string, open: bool): seq<string>
    decreases |s|
  {
    var n := Run(s);
    if n == |s| then Ended(current + s, open || n > 0)
    else if s[n] == '"' then
      if n % 2 == 0 then Arguments(s[n + 1..], !quoted, current + Repeat(n / 2), true)
      else Arguments(s[n + 1..], quoted, current + Repeat(n / 2) + "\"", true)
    else if n > 0 then Arguments(s[n..], quoted, current + Repeat(n), true)
    else if !quoted && IsBlank(s[0]) then Ended(current, open) + Arguments(s[1..], false, "", false)
    else Arguments(s[1..], quoted, current + s[..1], true)
  }

  /** The process's reading of what the interpreter passes on. */
  function Received(line: string): seq<string> {
    match Cmd(line, false)
    case Acts => []
    case Passes(text) => Arguments(text, false, "", false)
  }

  /** The one kind of argument that does not survive. */
  predicate EndsInBackslashLineFeed(s: string) {
    |s| >= 2 && s[|s| - 2] == '\\' && s[|s| - 1] == '\n'
  }

  /** Both steps of the preparation at once. */
  function Encoded(s: string): string
    decreases |s|
  {
    var n := Run(s);
    if n == |s| then Repeat(2 * n)
    else if s[n] == '"' then Repeat(2 * n + 1) + "\"" + Encoded(s[n + 1..])
    else if n > 0 && s[n..] == "\n" then Repeat(2 * n) + "\n"
    else s[..n + 1] + Encoded(s[n + 1..])
  }

  lemma {:induction false} EscapeQuotesEmpty(s: string)
    ensures EscapeQuotes(s) == "" <==> s == ""
    ensures EscapeQuotes(s) == "\n" <==> s == "\n"
    decreases |s|
  {
    var n := Run(s);
    if n < |s| && s[n] != '"' {
      EscapeQuotesEmpty(s[n + 1..]);
      assert s == s[..n + 1] + s[n + 1..];
    }
  }

  lemma DoublePlain(m: nat, c: char, t: string)
    requires c != '\\' && !(m > 0 && c == '\n' && t == "")
    ensures DoubleTrailing(Repeat(m) + ([c] + t)) == Repeat(m) + [c] + DoubleTrailing(t)
  {
    hide Repeat, Run;
    var s := Repeat(m) + ([c] + t);
    RunOf(m, [c] + t);
    assert s[m..] == [c] + t && s[..m + 1] == Repeat(m) + [c] && s[m + 1..] == t;
    if t != "" {
      assert |[c] + t| > 1;
    } else {
      assert ([c] + t)[0] == c;
    }
  }

  lemma DoubleLineFeed(m: nat)
    requires m > 0
    ensures DoubleTrailing(Repeat(m) + "\n") == Repeat(2 * m) + "\n"
  {
    RunOf(m, "\n");
  }

  lemma DoubleEscaped(n: nat, rest: string)
    ensures DoubleTrailing(Repeat(2 * n) + "\\\"" + rest) == Repeat(2 * n + 1) + "\"" + DoubleTrailing(rest)
  {
    hide DoubleTrailing, Repeat;
    OneMore(2 * n);
    assert Repeat(2 * n) + "\\\"" + rest == (Repeat(2 * n) + "\\") + (['"'] + rest);
    DoublePlain(2 * n + 1, '"', rest);
  }

  lemma {:induction false} PreparedIsEncoded(s: string)
    ensures Prepared(s) == Encoded(s)
    decreases |s|
  {
    hide DoubleTrailing, Run, Repeat;
    var n := Run(s);
    if n == |s| {
      AllBackslashes(s);
    } else {
      var rest := EscapeQuotes(s[n + 1..]);
      PreparedIsEncoded(s[n + 1..]);
      EscapeQuotesEmpty(s[n + 1..]);
      assert s[..n + 1] == Repeat(n) + [s[n]];
      if s[n] == '"' {
        DoubleEscaped(n, rest);
      } else {
        LineFeedTail(s, n);
        Group(Repeat(n), [s[n]], rest, "");
        if n > 0 && s[n..] == "\n" {
          assert [s[n]] + rest == "\n";
          DoubleLineFeed(n);
        } else {
          DoublePlain(n, s[n], rest);
        }
      }
    }
  }

  lemma OneMore(n: nat)
    ensures Repeat(n) + "\\" == Repeat(n + 1)
  {
    RepeatAdd(n, 1);
    assert Repeat(1) == "\\";
  }

  lemma AllBackslashes(s: string)
    requires Run(s) == |s|
    ensures s == Repeat(|s|) && EscapeQuotes(s) == s && DoubleTrailing(s) == Repeat(2 * |s|)
  {
  }

  /** What comes back of an argument that was quoted. */
  function Restored(s: string): string
    decreases |s|
  {
    var n := Run(s);
    if n == |s| then s
    else if n > 0 && s[n..] == "\n" then Repeat(2 * n) + "\n"
    else s[..n + 1] + Restored(s[n + 1..])
  }

  /** All comes back but what ends in a backslash and a line feed. */
  lemma {:induction false} RestoredIs(s: string)
    ensures Restored(s) == s <==> !EndsInBackslashLineFeed(s)
    ensures |Restored(s)| >= |s|
    decreases |s|
  {
    hide Repeat;
    var n := Run(s);
    if n < |s| {
      if n > 0 && s[n..] == "\n" {
        assert s[..n][n - 1] == '\\' && s[n..][0] == '\n';
      } else {
        RestoredIs(s[n + 1..]);
        assert s == s[..n + 1] + s[n + 1..];
        EndsLater(s, n);
      }
    } else if |s| >= 2 {
      assert s[..n][n - 1] == '\\';
    }
  }

  lemma LineFeedTail(s: string, n: nat)
    requires n < |s|
    ensures s[n..] == "\n" <==> n == |s| - 1 && s[n] == '\n'
  {
    if s[n..] == "\n" {
      assert s[n..][0] == s[n];
    }
  }

  lemma EndsLater(s: string, n: nat)
    requires n < |s| && s[n] != '\\' && !(n > 0 && s[n..] == "\n")
    ensures EndsInBackslashLineFeed(s) <==> EndsInBackslashLineFeed(s[n + 1..])
  {
    LineFeedTail(s, n);
  }

  lemma Group(a: string, b: string, c: string, d: string)
    ensures a + b + c + d == a + (b + (c + d))
    ensures a + (b + c) == a + b + c
  {
  }

  lemma HeadIs(s: string, n: nat)
    requires n == Run(s) < |s|
    ensures s[..n + 1] == Repeat(n) + [s[n]]
  {
  }

  lemma EncodedEscaped(s: string, n: nat)
    requires n == Run(s) < |s| && s[n] == '"'
    ensures Encoded(s) == Repeat(2 * n + 1) + "\"" + Encoded(s[n + 1..])
    ensures Restored(s) == s[..n + 1] + Restored(s[n + 1..])
  {
    hide Repeat, Run;
    LineFeedTail(s, n);
  }

  lemma EncodedPlain(s: string, n: nat)
    requires n == Run(s) < |s| && s[n] != '"' && !(n > 0 && s[n..] == "\n")
    ensures Encoded(s) == s[..n + 1] + Encoded(s[n + 1..]) && Restored(s) == s[..n + 1] + Restored(s[n + 1..])
  {
  }

  lemma UndoEscaped(s: string, n: nat, current: string)
    requires n == Run(s) < |s| && s[n] == '"'
    requires Arguments(Encoded(s[n + 1..]) + "\"", true, current + Repeat(n) + "\"", true)
          == [current + Repeat(n) + "\"" + Restored(s[n + 1..])]
    ensures Arguments(Encoded(s) + "\"", true, current, true) == [current + Restored(s)]
  {
    hide Run, Repeat, Arguments, Encoded, Restored;
    var rest, tail := Encoded(s[n + 1..]), Restored(s[n + 1..]);
    EncodedEscaped(s, n);
    HeadIs(s, n);
    Group(Repeat(2 * n + 1), "\"", rest, "\"");
    ReadEscaped(n, rest + "\"", current);
    Group(current, Repeat(n), "\"", tail);
    Group(Repeat(n), "\"", tail, "");
  }

  lemma UndoLineFeed(s: string, n: nat, current: string)
    requires n == Run(s) < |s| && n > 0 && s[n..] == "\n"
    ensures Arguments(Encoded(s) + "\"", true, current, true) == [current + Restored(s)]
  {
    hide Run, Repeat, Arguments;
    assert s[n] == s[n..][0];
    assert Encoded(s) == Repeat(2 * n) + "\n";
    assert Repeat(2 * n) + "\n" + "\"" == Repeat(2 * n) + (['\n'] + "\"");
    ReadPlainRun(2 * n, '\n', "\"", current);
    NoBackslashes();
    ReadEnd(0, current + Repeat(2 * n) + ['\n']);
    assert current + Repeat(2 * n) + ['\n'] + Repeat(0) == current + (Repeat(2 * n) + "\n");
  }

  lemma UndoPlain(s: string, n: nat, current: string)
    requires n == Run(s) < |s| && s[n] != '"' && !(n > 0 && s[n..] == "\n")
    requires Arguments(Encoded(s[n + 1..]) + "\"", true, current + s[..n + 1], true)
          == [current + s[..n + 1] + Restored(s[n + 1..])]
    ensures Arguments(Encoded(s) + "\"", true, current, true) == [current + Restored(s)]
  {
    hide Run, Repeat, Arguments, Encoded, Restored;
    var rest, tail := Encoded(s[n + 1..]), Restored(s[n + 1..]);
    EncodedPlain(s, n);
    HeadIs(s, n);
    Group(Repeat(n), [s[n]], rest, "\"");
    ReadPlainRun(n, s[n], rest + "\"", current);
    Group(current, Repeat(n), [s[n]], tail);
    Group(current, s[..n + 1], tail, "");
  }

  /** Reading the prepared argument and the closing quote, inside quotes. */
  lemma {:induction false} ArgumentsUndo(s: string, current: string)
    ensures Arguments(Encoded(s) + "\"", true, current, true) == [current + Restored(s)]
    decreases |s|
  {
    hide Run, Repeat, Arguments, Encoded, Restored;
    var n := Run(s);
    if n == |s| {
      AllRestored(s);
      ReadEnd(n, current);
    } else if s[n] == '"' {
      ArgumentsUndo(s[n + 1..], current + Repeat(n) + "\"");
      UndoEscaped(s, n, current);
    } else if n > 0 && s[n..] == "\n" {
      UndoLineFeed(s, n, current);
    } else {
      ArgumentsUndo(s[n + 1..], current + s[..n + 1]);
      UndoPlain(s, n, current);
    }
  }

  lemma AllRestored(s: string)
    requires Run(s) == |s|
    ensures s == Repeat(|s|) && Restored(s) == s && Encoded(s) == Repeat(2 * |s|)
  {
  }

  lemma NoBackslashes()
    ensures Repeat(0) == "" && "" + "\"" == "\""
  {
  }

  lemma ArgumentsEnd(current: string)
    ensures Arguments("", false, current, true) == [current]
  {
    assert current + "" == current;
  }

  /** The closing quote behind doubled backslashes. */
  lemma ReadEnd(n: nat, current: string)
    ensures Arguments(Repeat(2 * n) + "\"", true, current, true) == [current + Repeat(n)]
  {
    hide Repeat, Run;
    var s := Repeat(2 * n) + "\"";
    RunOf(2 * n, "\"");
    assert s[2 * n + 1..] == "" && s[2 * n] == '"';
    ArgumentsEnd(current + Repeat(n));
  }

  lemma ReadEscaped(n: nat, rest: string, current: string)
    ensures Arguments(Repeat(2 * n + 1) + ("\"" + rest), true, current, true)
         == Arguments(rest, true, current + Repeat(n) + "\"", true)
  {
    hide Repeat, Run;
    var s := Repeat(2 * n + 1) + ("\"" + rest);
    RunOf(2 * n + 1, "\"" + rest);
    assert s[2 * n + 1] == '"' && s[2 * n + 2..] == rest;
  }

  lemma ReadPlainRun(n: nat, c: char, rest: string, current: string)
    requires c != '\\' && c != '"'
    ensures Arguments(Repeat(n) + ([c] + rest), true, current, true)
         == Arguments(rest, true, current + Repeat(n) + [c], true)
  {
    var t := [c] + rest;
    RunOf(n, t);
    RunOf(0, t);
    assert "" + t == t && Repeat(0) + t == t;
    assert t[1..] == rest && t[..1] == [c];
    assert current + Repeat(0) == current;
  }

  /** An argument without special characters is passed on as it is. */
  lemma {:induction false} PlainPasses(s: string)
    requires forall i | 0 <= i < |s| :: !IsWinQuoted(s[i])
    ensures Cmd(s, false) == Passes(s)
    decreases |s|
  {
    if s != "" {
      PlainPasses(s[1..]);
      assert s == s[..1] + s[1..];
    }
  }

  /** And received as it is. */
  lemma {:induction false} PlainReceived(s: string, current: string, open: bool)
    requires forall i | 0 <= i < |s| :: !IsWinQuoted(s[i])
    ensures Arguments(s, false, current, open) == Ended(current + s, open || s != "")
    decreases |s|
  {
    hide Repeat, Run;
    var n := Run(s);
    if n < |s| {
      if n == 0 {
        PlainReceived(s[1..], current + s[..1], true);
        Group(current, s[..1], s[1..], "");
        assert s == s[..1] + s[1..];
      } else {
        PlainReceived(s[n..], current + Repeat(n), true);
        Group(current, Repeat(n), s[n..], "");
        assert s == s[..n] + s[n..];
      }
    }
  }

  /** Interpreter and process give back exactly one argument, the quoted one; but a final line feed behind
      a backslash takes that for the end of the argument, and the backslashes come back doubled. */
  lemma WinRoundTrip(arg: string)
    ensures |Received(ShellQuoteWin(arg))| == 1
    ensures Received(ShellQuoteWin(arg)) == [arg] <==> !EndsInBackslashLineFeed(arg)
  {
    hide Run, Repeat, EscapeMeta, Toggled, Prepared, IsSpecialChar;
    if arg == "" {
      ReceivedEmpty();
    } else if !HasSpecialChars(arg, WIN_QUOTE) {
      forall i | 0 <= i < |arg| ensures !IsWinQuoted(arg[i]) {
        WinQuoteTable(arg[i]);
      }
      PlainPasses(arg);
      PlainReceived(arg, "", false);
      assert "" + arg == arg;
    } else {
      var ret := Prepared(arg);
      CmdQuoted(ret);
      PreparedIsEncoded(arg);
      ArgumentsUndo(arg, "");
      StartQuoted(Encoded(arg) + "\"");
      RestoredIs(arg);
      assert "" + Restored(arg) == Restored(arg);
    }
  }

  lemma ReceivedEmpty()
    ensures Received("\"\"") == [""]
  {
    var s := "\"\"";
    assert s == "\"" + "\"" && s[1..] == "\"" && s[1..][1..] == "";
    assert Cmd("", false) == Passes("");
    assert Cmd("\"", true) == Passes("\"");
    assert Cmd(s, false) == Passes(s);
    NoBackslashes();
    ReadEnd(0, "");
    StartQuoted("\"");
    assert "" + Repeat(0) == "";
  }

  lemma StartQuoted(t: string)
    ensures Arguments("\"" + t, false, "", false) == Arguments(t, true, "", true)
  {
    var s := "\"" + t;
    assert s[1..] == t && s[0] == '"';
    assert Run(s) == 0;
    assert "" + Repeat(0) == "";
  }

  lemma CmdQuoted(ret: string)
    ensures Cmd("\"" + EscapeMeta(ret, true) + (if Toggled(ret, true) then "" else "^") + "\"", false)
         == Passes("\"" + (ret + "\""))
  {
    var t := (if Toggled(ret, true) then "" else "^") + "\"";
    var s := EscapeMeta(ret, true) + t;
    assert "\"" + EscapeMeta(ret, true) + (if Toggled(ret, true) then "" else "^") + "\"" == "\"" + s;
    assert ("\"" + s)[1..] == s;
    CmdUndoes(ret, true, t);
    if Toggled(ret, true) {
      assert t == "\"" && t[1..] == "";
    } else {
      assert t == "^\"" && t[1..2] == "\"" && t[2..] == "";
    }
    assert Cmd(t, Toggled(ret, true)) == Passes("\"");
  }

  // ---- Unix

  /** Every apostrophe leaves the quotes, stands escaped, and enters them again. */
  function Apostrophes(s: string): string {
    if s == "" then ""
    else Apostrophes(s[..|s| - 1]) + if s[|s| - 1] == '\'' then "'\\''" else s[|s| - 1..]
  }

  function ShellQuoteUnix(arg: string): string {
    if arg == "" then "''"
    else if !HasSpecialChars(arg, UNIX_QUOTE) then arg
    else "'" + Apostrophes(arg) + "'"
  }

  /** The shell's words: in single quotes all stands for itself; outside, a backslash escapes the next
      character, blanks separate, and any other special character acts. */
  datatype Words = Special | Words(list: seq<string>)

  function Shell(s: string, quoted: bool, current: string, open: bool): Words
    decreases |s|
  {
    if s == "" then if quoted then Special else Words(Ended(current, open))
    else if s[0] == '\'' then Shell(s[1..], !quoted, current, true)
    else if quoted then Shell(s[1..], quoted, current + s[..1], true)
    else if s[0] == '\\' then if |s| == 1 then Special else Shell(s[2..], quoted, current + s[1..2], true)
    else if IsBlank(s[0]) then
      match Shell(s[1..], quoted, "", false)
      case Special => Special
      case Words(list) => Words(Ended(current, open) + list)
    else if IsUnixQuoted(s[0]) then Special
    else Shell(s[1..], quoted, current + s[..1], true)
  }

  lemma {:induction false} ShellPlain(s: string, current: string, open: bool)
    requires forall i | 0 <= i < |s| :: !IsUnixQuoted(s[i])
    ensures Shell(s, false, current, open) == Words(Ended(current + s, open || s != ""))
    decreases |s|
  {
    if s == "" {
      assert current + s == current;
    } else {
      ShellPlain(s[1..], current + s[..1], true);
      assert current + s == current + s[..1] + s[1..];
    }
  }

  lemma {:induction false} ShellApostrophes(s: string, t: string, current: string)
    ensures Shell(Apostrophes(s) + t, true, current, true) == Shell(t, true, current + s, true)
    decreases |s|
  {
    if s == "" {
      assert Apostrophes(s) + t == t && current + s == current;
    } else {
      var u, c := s[..|s| - 1], s[|s| - 1];
      assert current + u + [c] == current + s && s[|s| - 1..] == [c];
      if c == '\'' {
        var piece := "'\\''";
        assert Apostrophes(s) + t == Apostrophes(u) + (piece + t);
        ShellApostrophes(u, piece + t, current);
        var p := piece + t;
        assert p[1..] == "\\''" + t && p[1..][1..2] == "'" && p[1..][2..] == "'" + t && ("'" + t)[1..] == t;
        assert Shell(p[1..], false, current + u, true) == Shell("'" + t, false, current + u + "'", true);
      } else {
        assert Apostrophes(s) + t == Apostrophes(u) + ([c] + t);
        ShellApostrophes(u, [c] + t, current);
        assert ([c] + t)[1..] == t && ([c] + t)[..1] == [c];
      }
    }
  }

  /** The shell gives back exactly one word, the quoted argument, whatever it holds. */
  lemma UnixRoundTrip(arg: string)
    ensures Shell(ShellQuoteUnix(arg), false, "", false) == Words([arg])
  {
    hide IsSpecialChar, Apostrophes;
    if arg == "" {
      assert "''"[1..] == "'" && "'"[1..] == "";
    } else if !HasSpecialChars(arg, UNIX_QUOTE) {
      forall i | 0 <= i < |arg| ensures !IsUnixQuoted(arg[i]) {
        UnixQuoteTable(arg[i]);
      }
      ShellPlain(arg, "", false);
      assert "" + arg == arg;
    } else {
      var s := Apostrophes(arg) + "'";
      assert "'" + Apostrophes(arg) + "'" == "'" + s && ("'" + s)[1..] == s;
      ShellApostrophes(arg, "'", "");
      assert "'"[1..] == "" && "" + arg == arg;
    }
  }
}
