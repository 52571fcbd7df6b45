/** Matching text that may be split over lines by backslash-newline, without joining the lines first. */
module LineSplice {

  predicate IsEndOfLine(c: char) { c == '\r' || c == '\n' }

  /** The length of the backslash-newline at the start; 0 if there is none. */
  function SpliceLen(s: string): (n: nat)
    ensures n <= |s|
  {
    if |s| < 2 || s[0] != '\\' || !IsEndOfLine(s[1]) then 0
    else if |s| > 2 && s[1] == '\r' && s[2] == '\n' then 3
    else 2
  }

  /** Translation phase 2: every backslash-newline is deleted. */
  function Spliced(s: string): string {
    if s == "" then ""
    else if SpliceLen(s) > 0 then Spliced(s[SpliceLen(s)..])
    else [s[0]] + Spliced(s[1..])
  }

  /** How many backslash-newlines there are. */
  function Splices(s: string): nat {
    if s == "" then 0
    else if SpliceLen(s) > 0 then 1 + Splices(s[SpliceLen(s)..])
    else Splices(s[1..])
  }

  method SkipEscapedLineEnds(buffer: string, start: nat, lines: nat) returns (offset: nat, count: nat)
    requires start <= |buffer|
    ensures start <= offset <= |buffer| && SpliceLen(buffer[offset..]) == 0
    ensures Spliced(buffer[offset..]) == Spliced(buffer[start..])
    ensures count + Splices(buffer[offset..]) == lines + Splices(buffer[start..])
    ensures lines <= count && 2 * (count - lines) <= offset - start <= 3 * (count - lines)
  {
    offset, count := start, lines;
    while offset + 1 < |buffer| && buffer[offset] == '\\' && IsEndOfLine(buffer[offset + 1])
      invariant start <= offset <= |buffer|
      invariant Spliced(buffer[offset..]) == Spliced(buffer[start..])
      invariant count + Splices(buffer[offset..]) == lines + Splices(buffer[start..])
      invariant lines <= count && 2 * (count - lines) <= offset - start <= 3 * (count - lines)
      decreases |buffer| - offset
    {
      ghost var rest := buffer[offset..];
      offset := offset + 2;
      count := count + 1;
      if offset < |buffer| && buffer[offset - 1] == '\r' && buffer[offset] == '\n' {
        offset := offset + 1;
      }
      assert rest[SpliceLen(rest)..] == buffer[offset..];
    }
  }

  lemma NextChar(s: string)
    requires SpliceLen(s) == 0
    ensures s == "" ==> Spliced(s) == ""
    ensures s != "" ==> Spliced(s) == [s[0]] + Spliced(s[1..]) && Splices(s) == Splices(s[1..])
  {
  }

  lemma Consumed(needle: string, n: nat, whole: string, rest: string)
    requires n < |needle| && whole == [needle[n]] + rest
    ensures needle[..n] + whole == needle[..n + 1] + rest
  {
    assert needle[..n + 1] == needle[..n] + [needle[n]];
  }

  lemma Mismatch(needle: string, n: nat, rest: string)
    requires n < |needle| && (rest == "" || rest[0] != needle[n])
    ensures !(needle <= needle[..n] + rest)
  {
    var s := needle[..n] + rest;
    if |s| > n {
      assert s[n] == rest[0];
    }
  }

  /** The match succeeds exactly if the needle is what the joined text starts with; it spans all that the
      needle was taken from, with the backslash-newlines in it and behind it, of two or three characters each. */
  method MatchWhileUnsplitting(buffer: string, start: nat, needle: string, lines: nat)
    returns (ok: bool, matchlen: nat, count: nat)
    requires start <= |buffer| && SpliceLen(buffer[start..]) == 0
    ensures ok <==> needle <= Spliced(buffer[start..])
    ensures ok ==>
      && start + matchlen <= |buffer| && SpliceLen(buffer[start + matchlen..]) == 0
      && Spliced(buffer[start..]) == needle + Spliced(buffer[start + matchlen..])
      && count + Splices(buffer[start + matchlen..]) == lines + Splices(buffer[start..])
      && lines <= count && |needle| + 2 * (count - lines) <= matchlen <= |needle| + 3 * (count - lines)
  {
    hide Spliced, Splices, SpliceLen;
    var x: nat := start;
    matchlen, count := 0, lines;
    var n := 0;
    while n < |needle|
      invariant 0 <= n <= |needle| && start <= x <= |buffer| && SpliceLen(buffer[x..]) == 0
      invariant Spliced(buffer[start..]) == needle[..n] + Spliced(buffer[x..])
      invariant count + Splices(buffer[x..]) == lines + Splices(buffer[start..])
      invariant lines <= count && n + 2 * (count - lines) <= x - start <= n + 3 * (count - lines)
    {
      ghost var rest := buffer[x..];
      NextChar(rest);
      if x >= |buffer| || buffer[x] != needle[n] {
        Mismatch(needle, n, Spliced(rest));
        return false, 0, count;
      }
      assert rest[1..] == buffer[x + 1..];
      Consumed(needle, n, Spliced(rest), Spliced(rest[1..]));
      x, count := SkipEscapedLineEnds(buffer, x + 1, count);
      n := n + 1;
    }
    assert needle[..n] == needle;
    return true, x - start, count;
  }
}
