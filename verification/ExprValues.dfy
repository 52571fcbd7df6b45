/** How the pieces of an expression become a list of strings: the space between joined words, the
    quoted expansion that stays one word, and the pending word that the next piece continues. */
module ExprValues {
  import opened ProTokens

  const SPACE: Unit := 32

  datatype Acc = Acc(ret: seq<Chars>, pending: bool)

  /** Append to a string; a non-empty string that is not pending is followed by a space first. */
  function AppendText(last: Chars, other: Chars, pending: bool): (Chars, bool) {
    if other == [] then (last, pending)
    else (if last == [] then other else if pending then last + other else last + [SPACE] + other, true)
  }

  /** The strings of a list with spaces between them, and in front if `space`. */
  function Spaced(list: seq<Chars>, space: bool): Chars
    decreases |list|
  {
    if list == [] then [] else (if space then [SPACE] else []) + list[0] + Spaced(list[1..], true)
  }

  function AppendList(last: Chars, list: seq<Chars>, pending: bool, skipEmptyFirst: bool): (Chars, bool)
    requires list != []
  {
    var start := if !pending && skipEmptyFirst && list[0] == [] then 1 else 0;
    if start == |list| then (last, pending)
    else (last + Spaced(list[start..], !pending && last != []), true)
  }

  function SetLast(ret: seq<Chars>, last: Chars): (r: seq<Chars>)
    requires ret != []
  {
    ret[|ret| - 1 := last]
  }

  predicate Open(acc: Acc, joined: bool) { joined || acc.pending ==> acc.ret != [] }

  function AddStr(acc: Acc, str: Chars, joined: bool): (r: Acc)
    requires Open(acc, joined)
    ensures Open(r, joined) && (joined ==> |r.ret| == |acc.ret|)
  {
    if joined then
      var (last, pending) := AppendText(acc.ret[|acc.ret| - 1], str, acc.pending);
      Acc(SetLast(acc.ret, last), pending)
    else if acc.pending then
      Acc(SetLast(acc.ret, acc.ret[|acc.ret| - 1] + str), true)
    else
      Acc(acc.ret + [str], true)
  }

  function AddStrList(acc: Acc, list: seq<Chars>, quoted: bool, joined: bool): (r: Acc)
    requires Open(acc, joined)
    ensures Open(r, joined) && (joined ==> |r.ret| == |acc.ret|)
  {
    if list == [] then acc
    else if joined then
      var (last, pending) := AppendList(acc.ret[|acc.ret| - 1], list, acc.pending, !quoted);
      Acc(SetLast(acc.ret, last), pending)
    else if quoted then
      var ret := if acc.pending then acc.ret else acc.ret + [[]];
      Acc(SetLast(ret, ret[|ret| - 1] + Spaced(list, false)), true)
    else if acc.pending then
      Acc(SetLast(acc.ret, acc.ret[|acc.ret| - 1] + list[0]) + list[1..], true)
    else if list[0] != [] then
      Acc(acc.ret + list, true)
    else
      Acc(acc.ret + list[1..], |list| > 1)
  }

  function RemoveEmpty(list: seq<Chars>): (r: seq<Chars>)
    ensures forall s :: s in r <==> s in list && s != []
  {
    if list == [] then []
    else RemoveEmpty(list[..|list| - 1]) + (if list[|list| - 1] == [] then [] else [list[|list| - 1]])
  }

  lemma {:induction false} RemoveEmptyHead(list: seq<Chars>)
    requires list != []
    ensures RemoveEmpty(list) == (if list[0] == [] then [] else [list[0]]) + RemoveEmpty(list[1..])
    decreases |list|
  {
    var n := |list| - 1;
    if n > 0 {
      RemoveEmptyHead(list[..n]);
      assert list[..n][1..] == list[1..][..n - 1];
    }
  }

  function InsertUnique(list: seq<Chars>, value: seq<Chars>): (r: seq<Chars>)
    ensures forall s :: s in r <==> s in list || (s in value && s != [])
    ensures list <= r
  {
    if value == [] then list
    else
      var r := InsertUnique(list, value[..|value| - 1]);
      var s := value[|value| - 1];
      if s != [] && s !in r then r + [s] else r
  }

  function RemoveEach(list: seq<Chars>, value: seq<Chars>): (r: seq<Chars>)
    ensures forall s :: s in r <==> s in list && (s in value ==> s == [])
  {
    if list == [] then []
    else
      var s := list[|list| - 1];
      RemoveEach(list[..|list| - 1], value) + (if s != [] && s in value then [] else [s])
  }
}
