/** The evaluator's stack of variable maps: a frame per running function. A variable is copied down
    into the top frame when it is written; an unset variable leaves a tombstone. */
module VarStack {
  import opened ProTokens

  type Key = seq<Unit>
  type Values = seq<seq<Unit>>

  datatype Entry = Gone | Val(list: Values)

  type Frame = map<Key, Entry>

  /** Never empty; the last frame is the top. */
  type Stack = s: seq<Frame> | |s| > 0 witness [map[]]

  function Top(st: Stack): Frame { st[|st| - 1] }

  function SetTop(st: Stack, key: Key, entry: Entry): (r: Stack)
    ensures |r| == |st|
  {
    st[|st| - 1 := Top(st)[key := entry]]
  }

  lemma SetTopTwice(st: Stack, key: Key, a: Entry, b: Entry)
    ensures SetTop(SetTop(st, key, a), key, b) == SetTop(st, key, b)
  {
    assert Top(st)[key := a][key := b] == Top(st)[key := b];
  }

  function Pop(st: Stack): (r: Stack)
    requires |st| > 1
  {
    st[..|st| - 1]
  }

  /** The arguments of a function: names of digits only, the empty name included. */
  predicate IsFunctParam(key: Key) { forall i | 0 <= i < |key| :: 48 <= key[i] <= 57 }

  /** The frame in which a lookup stops, searched from the top; -1 if there is none. */
  function Holder(st: seq<Frame>, key: Key): (i: int)
    ensures -1 <= i < |st|
    ensures i >= 0 ==> key in st[i]
    ensures forall j | i < j < |st| :: key !in st[j]
  {
    if st == [] then -1
    else if key in st[|st| - 1] then |st| - 1
    else Holder(st[..|st| - 1], key)
  }

  /** Dynamic scoping: a function sees its callers' variables, but not their arguments. */
  predicate Sees(st: Stack, key: Key) {
    var i := Holder(st, key);
    i >= 0 && (IsFunctParam(key) ==> i == |st| - 1)
  }

  /** What a variable means. */
  function Meaning(st: Stack, key: Key): Values {
    if Found(st, key) >= 0 then st[Found(st, key)][key].list else []
  }

  /** The frame in which a variable has a value; -1 if it is not set. */
  function Found(st: Stack, key: Key): (i: int)
    ensures -1 <= i < |st|
    ensures i >= 0 ==> key in st[i] && st[i][key].Val?
  {
    if Sees(st, key) && st[Holder(st, key)][key].Val? then Holder(st, key) else -1
  }

  /** Copy a variable down into the top frame. */
  function CopyDown(st: Stack, key: Key): Stack { SetTop(st, key, Val(Meaning(st, key))) }

  function Cleared(st: Stack, key: Key): Stack {
    if Found(st, key) < 0 then st else SetTop(st, key, Val([]))
  }

  function Dropped(st: Stack, key: Key): Stack {
    if Found(st, key) < 0 then st
    else if |st| == 1 then [st[0] - {key}]
    else SetTop(st, key, Gone)
  }

  /** Move the innermost local value of a variable to the bottom frame; deletions arrive as an empty value. */
  function Exported(st: Stack, key: Key): Stack {
    var i := Holder(st, key);
    if i <= 0 then st
    else
      var entry := if st[i][key].Gone? then Val([]) else st[i][key];
      seq(|st|, j requires 0 <= j < |st| => if j == 0 then st[0][key := entry] else st[j] - {key})
  }

  lemma {:induction false} HolderIs(st: seq<Frame>, key: Key, i: int)
    requires -1 <= i < |st| && (i >= 0 ==> key in st[i])
    requires forall j | i < j < |st| :: key !in st[j]
    ensures Holder(st, key) == i
  {
  }

  /** Stacks that agree on a key in every frame, and have the same height, give it the same meaning. */
  lemma SameMeaning(a: Stack, b: Stack, key: Key)
    requires |a| == |b|
    requires forall j | 0 <= j < |a| :: (key in a[j] <==> key in b[j]) && (key in a[j] ==> a[j][key] == b[j][key])
    ensures Meaning(a, key) == Meaning(b, key) && Found(a, key) == Found(b, key)
  {
    HolderIs(b, key, Holder(a, key));
  }

  /** Writing an entry in the top frame decides that variable's meaning and no other's. */
  lemma SetTopMeaning(st: Stack, key: Key, entry: Entry, other: Key)
    ensures Meaning(SetTop(st, key, entry), key) == if entry.Val? then entry.list else []
    ensures Found(SetTop(st, key, entry), key) == if entry.Val? then |st| - 1 else -1
    ensures other != key ==> Meaning(SetTop(st, key, entry), other) == Meaning(st, other)
    ensures SetTop(st, key, entry)[..|st| - 1] == st[..|st| - 1]
  {
    HolderIs(SetTop(st, key, entry), key, |st| - 1);
    if other != key {
      SameMeaning(SetTop(st, key, entry), st, other);
    }
  }

  /** Copying down changes the meaning of no variable and no lower frame. */
  lemma CopyDownMeaning(st: Stack, key: Key, other: Key)
    ensures Meaning(CopyDown(st, key), other) == Meaning(st, other)
    ensures Top(CopyDown(st, key))[key] == Val(Meaning(st, key))
    ensures CopyDown(st, key)[..|st| - 1] == st[..|st| - 1]
  {
    SetTopMeaning(st, key, Val(Meaning(st, key)), other);
  }

  /** Unsetting is visible at once, and undone for the caller when the function returns. */
  lemma DroppedMeaning(st: Stack, key: Key, other: Key)
    ensures Meaning(Dropped(st, key), key) == [] && Found(Dropped(st, key), key) == -1
    ensures other != key ==> Meaning(Dropped(st, key), other) == Meaning(st, other)
    ensures |st| > 1 ==> Pop(Dropped(st, key)) == Pop(st)
  {
    if Found(st, key) >= 0 {
      if |st| == 1 {
        HolderIs(Dropped(st, key), key, -1);
        if other != key {
          SameMeaning(Dropped(st, key), st, other);
        }
      } else {
        SetTopMeaning(st, key, Gone, other);
      }
    }
  }

  lemma ClearedMeaning(st: Stack, key: Key, other: Key)
    ensures Meaning(Cleared(st, key), key) == [] && (Found(Cleared(st, key), key) >= 0 <==> Found(st, key) >= 0)
    ensures other != key ==> Meaning(Cleared(st, key), other) == Meaning(st, other)
    ensures |st| > 1 ==> Pop(Cleared(st, key)) == Pop(st)
  {
    SetTopMeaning(st, key, Val([]), other);
  }

  lemma ExportedHolder(st: Stack, key: Key)
    requires Holder(st, key) > 0
    ensures forall m | 0 < m <= |st| :: Holder(Exported(st, key)[..m], key) == 0
  {
    forall m | 0 < m <= |st| ensures Holder(Exported(st, key)[..m], key) == 0 {
      HolderIs(Exported(st, key)[..m], key, 0);
    }
  }

  /** An exported variable keeps its visible value, now and after any number of function returns. */
  lemma ExportedMeaning(st: Stack, key: Key, other: Key, m: nat)
    requires !IsFunctParam(key) && 0 < m <= |st|
    ensures Meaning(Exported(st, key)[..m], key) == Meaning(st, key)
    ensures other != key ==> Meaning(Exported(st, key)[..m], other) == Meaning(st[..m], other)
  {
    var i := Holder(st, key);
    if i > 0 {
      ExportedHolder(st, key);
    } else {
      HolderIs(st[..m], key, i);
    }
    if other != key {
      SameMeaning(Exported(st, key)[..m], st[..m], other);
    }
  }

  /** An argument of the running function loses its value when exported, unless it was empty or the
      function has no such argument. */
  lemma ExportedArgument(st: Stack, key: Key)
    requires IsFunctParam(key)
    ensures Meaning(Exported(st, key), key) == Meaning(st, key) <==>
      |st| == 1 || key !in Top(st) || Top(st)[key] == Gone || Top(st)[key] == Val([])
  {
    var i := Holder(st, key);
    if i > 0 {
      ExportedHolder(st, key);
      assert Exported(st, key)[..|st|] == Exported(st, key);
    }
  }

  /** The variable maps as the evaluator keeps them. */
  class VarMaps {
    var frames: Stack

    constructor ()
      ensures frames == [map[]]
    {
      frames := [map[]];
    }

    method Values(key: Key) returns (r: Values)
      ensures r == Meaning(frames, key)
    {
      var i := |frames| - 1;
      while true
        invariant 0 <= i < |frames|
        invariant forall j | i < j < |frames| :: key !in frames[j]
        invariant i < |frames| - 1 ==> !IsFunctParam(key)
        decreases i
      {
        if key in frames[i] {
          HolderIs(frames, key, i);
          return match frames[i][key] case Gone => [] case Val(list) => list;
        }
        if i == 0 || (i == |frames| - 1 && IsFunctParam(key)) {
          break;
        }
        i := i - 1;
      }
      if i == 0 {
        HolderIs(frames, key, -1);
      }
      return [];
    }

    method FindValues(key: Key) returns (i: int)
      ensures i == Found(frames, key)
    {
      i := |frames| - 1;
      while true
        invariant 0 <= i < |frames|
        invariant forall j | i < j < |frames| :: key !in frames[j]
        invariant i < |frames| - 1 ==> !IsFunctParam(key)
        decreases i
      {
        if key in frames[i] {
          HolderIs(frames, key, i);
          return if frames[i][key].Gone? then -1 else i;
        }
        if i == 0 || (i == |frames| - 1 && IsFunctParam(key)) {
          break;
        }
        i := i - 1;
      }
      if i == 0 {
        HolderIs(frames, key, -1);
      }
      return -1;
    }

    /** Make the variable writable in the top frame; `r` is what the reference shows. */
    method ValuesRef(key: Key) returns (r: Values)
      modifies this
      ensures frames == CopyDown(old(frames), key) && r == Meaning(old(frames), key)
    {
      var top := |frames| - 1;
      if key in frames[top] {
        HolderIs(frames, key, top);
        r := match frames[top][key] case Gone => [] case Val(list) => list;
        frames := SetTop(frames, key, Val(r));
        return;
      }
      if !IsFunctParam(key) {
        var i := top;
        while i > 0
          invariant 0 <= i <= top
          invariant forall j | i <= j < |frames| :: key !in frames[j]
          invariant frames == old(frames)
        {
          i := i - 1;
          if key in frames[i] {
            HolderIs(frames, key, i);
            r := match frames[i][key] case Gone => [] case Val(list) => list;
            frames := SetTop(frames, key, Val(r));
            return;
          }
        }
        HolderIs(frames, key, -1);
      }
      r := [];
      frames := SetTop(frames, key, Val([]));
    }

    method Assign(key: Key, list: Values)
      modifies this
      ensures frames == SetTop(old(frames), key, Val(list))
    {
      frames := SetTop(frames, key, Val(list));
    }

    method Clear(key: Key) returns (ok: bool)
      modifies this
      ensures frames == Cleared(old(frames), key) && ok == (Found(old(frames), key) >= 0)
    {
      var i := FindValues(key);
      ok := i >= 0;
      if ok {
        frames := SetTop(frames, key, Val([]));
      }
    }

    method Unset(key: Key) returns (ok: bool)
      modifies this
      ensures frames == Dropped(old(frames), key) && ok == (Found(old(frames), key) >= 0)
    {
      var i := FindValues(key);
      ok := i >= 0;
      if ok {
        frames := if |frames| == 1 then [frames[0] - {key}] else SetTop(frames, key, Gone);
      }
    }

    method Export(key: Key)
      modifies this
      ensures frames == Exported(old(frames), key)
    {
      var i := |frames| - 1;
      while i > 0 && key !in frames[i]
        invariant 0 <= i < |frames| && frames == old(frames)
        invariant forall j | i < j < |frames| :: key !in frames[j]
      {
        i := i - 1;
      }
      if i > 0 {
        HolderIs(frames, key, i);
        var entry := if frames[i][key].Gone? then Val([]) else frames[i][key];
        frames := frames[0 := frames[0][key := entry]];
        frames := frames[i := frames[i] - {key}];
        var k := i;
        while k > 1
          invariant 1 <= k <= i && |frames| == |old(frames)| && frames[0] == old(frames[0])[key := entry]
          invariant forall j | 1 <= j < |frames| ::
            frames[j] == if k <= j <= i then old(frames[j]) - {key} else old(frames[j])
        {
          k := k - 1;
          frames := frames[k := frames[k] - {key}];
        }
        assert frames == Exported(old(frames), key) by {
          assert forall j | i < j < |frames| :: old(frames[j]) - {key} == old(frames[j]);
        }
      } else {
        HolderIs(frames, key, if key in frames[0] then 0 else -1);
      }
    }
  }
}
