/** A running median over the last seven values, cached: the cache is given up only when a new value
    lies on the other side of the cached median than the value it overwrites. */
module RunningMedian {

  const SIZE := 7

  /** How many values are below `m`. */
  function Below(values: seq<real>, m: real): (n: nat)
    ensures n <= |values|
  {
    if values == [] then 0
    else Below(values[..|values| - 1], m) + if values[|values| - 1] < m then 1 else 0
  }

  /** How many are at most `m`. */
  function AtMost(values: seq<real>, m: real): (n: nat)
    ensures Below(values, m) <= n <= |values|
  {
    if values == [] then 0
    else AtMost(values[..|values| - 1], m) + if values[|values| - 1] <= m then 1 else 0
  }

  /** `m` is the fourth smallest of seven values. */
  predicate IsMedian(values: seq<real>, m: real) { Below(values, m) <= 3 && AtMost(values, m) >= 4 }

  lemma {:induction false} CountsUpdate(values: seq<real>, i: nat, v: real, m: real)
    requires i < |values|
    ensures Below(values[i := v], m) == Below(values, m) - (if values[i] < m then 1 else 0) + if v < m then 1 else 0
    ensures AtMost(values[i := v], m) == AtMost(values, m) - (if values[i] <= m then 1 else 0) + if v <= m then 1 else 0
    decreases |values|
  {
    var n := |values| - 1;
    if i == n {
      assert values[i := v][..n] == values[..n];
    } else {
      CountsUpdate(values[..n], i, v, m);
      assert values[i := v][..n] == values[..n][i := v];
    }
  }

  predicate Ascending(s: seq<real>) { forall i, j | 0 <= i < j < |s| :: s[i] <= s[j] }

  lemma {:induction false} CountsAscending(s: seq<real>, k: nat, m: real)
    requires Ascending(s) && k < |s|
    ensures s[k] >= m ==> Below(s, m) <= k
    ensures s[k] <= m ==> AtMost(s, m) >= k + 1
    ensures s[k] > m ==> AtMost(s, m) <= k
    ensures s[k] < m ==> Below(s, m) >= k + 1
    decreases |s|
  {
    var n := |s| - 1;
    if k < n {
      CountsAscending(s[..n], k, m);
    } else if n > 0 {
      CountsAscending(s[..n], n - 1, m);
    }
  }

  /** In sorted values the median is in the middle, and it is the only one. */
  lemma MedianInMiddle(s: seq<real>, m: real)
    requires |s| == SIZE && Ascending(s)
    ensures IsMedian(s, m) <==> m == s[3]
  {
    CountsAscending(s, 3, m);
  }

  function Insert(s: seq<real>, v: real): (r: seq<real>)
    ensures |r| == |s| + 1
  {
    if s == [] || v <= s[0] then [v] + s else [s[0]] + Insert(s[1..], v)
  }

  function Sorted(values: seq<real>): (r: seq<real>)
    ensures |r| == |values|
  {
    if values == [] then [] else Insert(Sorted(values[..|values| - 1]), values[|values| - 1])
  }

  lemma {:induction false} InsertAscending(s: seq<real>, v: real)
    requires Ascending(s)
    ensures Ascending(Insert(s, v))
    ensures forall x :: x in Insert(s, v) <==> x in s || x == v
    decreases |s|
  {
    if s != [] && s[0] < v {
      InsertAscending(s[1..], v);
      var r := Insert(s[1..], v);
      forall j | 0 <= j < |r| ensures s[0] <= r[j] {
        assert r[j] in r;
      }
    }
  }

  lemma {:induction false} CountsPrepend(x: real, s: seq<real>, m: real)
    ensures Below([x] + s, m) == Below(s, m) + if x < m then 1 else 0
    ensures AtMost([x] + s, m) == AtMost(s, m) + if x <= m then 1 else 0
    decreases |s|
  {
    if s == [] {
      assert [x] + s == [x];
      assert [x][..0] == [];
    } else {
      var n := |s| - 1;
      CountsPrepend(x, s[..n], m);
      assert ([x] + s)[..|s|] == [x] + s[..n];
    }
  }

  lemma {:induction false} CountsInsert(s: seq<real>, v: real, m: real)
    ensures Below(Insert(s, v), m) == Below(s, m) + if v < m then 1 else 0
    ensures AtMost(Insert(s, v), m) == AtMost(s, m) + if v <= m then 1 else 0
    decreases |s|
  {
    if s == [] || v <= s[0] {
      CountsPrepend(v, s, m);
    } else {
      CountsInsert(s[1..], v, m);
      CountsPrepend(s[0], Insert(s[1..], v), m);
      CountsPrepend(s[0], s[1..], m);
      assert [s[0]] + s[1..] == s;
    }
  }

  lemma {:induction false} SortedCounts(values: seq<real>, m: real)
    ensures Ascending(Sorted(values))
    ensures Below(Sorted(values), m) == Below(values, m) && AtMost(Sorted(values), m) == AtMost(values, m)
    decreases |values|
  {
    if values != [] {
      var n := |values| - 1;
      SortedCounts(values[..n], m);
      InsertAscending(Sorted(values[..n]), values[n]);
      CountsInsert(Sorted(values[..n]), values[n], m);
    }
  }

  /** Sorting finds the median. */
  lemma SortedMedian(values: seq<real>, m: real)
    requires |values| == SIZE
    ensures IsMedian(values, m) <==> m == Sorted(values)[3]
  {
    SortedCounts(values, m);
    MedianInMiddle(Sorted(values), m);
  }

  // ---- the cache

  datatype State = State(values: seq<real>, median: real, index: nat, valid: bool, dirty: bool)

  const ZEROS: seq<real> := [0.0, 0.0, 0.0, 0.0, 0.0, 0.0, 0.0]

  const START := State(ZEROS, 0.0, 0, false, true)

  predicate InShape(s: State) { |s.values| == SIZE && s.index < SIZE }

  function Slot(s: State): nat { if s.index + 1 == SIZE then 0 else s.index + 1 }

  function AfterReset(s: State): State { State(ZEROS, s.median, 0, false, true) }

  function AfterAdd(s: State, v: real): (r: State)
    requires InShape(s)
    ensures InShape(r)
  {
    var i := Slot(s);
    var was := s.values[i];
    var crossed := (was > s.median > v) || (s.median > was && v > s.median);
    State(s.values[i := v], s.median, i, s.valid || i == 0, s.dirty || crossed)
  }

  function AfterAsk(s: State): (r: State)
    requires InShape(s)
    ensures InShape(r)
  {
    if s.dirty then s.(dirty := false, median := Sorted(s.values)[3]) else s
  }

  /** The cached median is the median, unless it is known not to be up to date. */
  predicate Correct(s: State) { s.dirty || IsMedian(s.values, s.median) }

  /** The new value overwrites one that equals the cached median, and just that one was needed there. */
  predicate Unnoticed(s: State, v: real)
    requires InShape(s)
  {
    && !s.dirty && s.values[Slot(s)] == s.median
    && ((v > s.median && AtMost(s.values, s.median) == 4) || (v < s.median && Below(s.values, s.median) == 3))
  }

  /** Adding a value keeps the cache correct exactly if the change is not such an unnoticed one. */
  lemma AddKeepsCorrect(s: State, v: real)
    requires InShape(s) && Correct(s)
    ensures Correct(AfterAdd(s, v)) <==> !Unnoticed(s, v)
  {
    CountsUpdate(s.values, Slot(s), v, s.median);
  }

  lemma AskIsCorrect(s: State)
    requires InShape(s) && Correct(s)
    ensures Correct(AfterAsk(s)) && AfterAsk(s).median == Sorted(s.values)[3]
  {
    SortedMedian(s.values, AfterAsk(s).median);
  }

  datatype Op = Add(v: real) | Median | ResetAll

  function Apply(s: State, op: Op): (r: State)
    requires InShape(s)
    ensures InShape(r)
  {
    match op
    case Add(v) => AfterAdd(s, v)
    case Median => AfterAsk(s)
    case ResetAll => AfterReset(s)
  }

  function Run(ops: seq<Op>): (r: State)
    ensures InShape(r)
  {
    if ops == [] then START else Apply(Run(ops[..|ops| - 1]), ops[|ops| - 1])
  }

  /** The values added since the last reset. */
  function Added(ops: seq<Op>): nat {
    if ops == [] then 0
    else
      var n := Added(ops[..|ops| - 1]);
      match ops[|ops| - 1]
      case Add(_) => n + 1
      case Median => n
      case ResetAll => 0
  }

  /** No value overwrites one that equals the cached median while the cache is in use. */
  predicate NoneOverwritten(ops: seq<Op>) {
    forall i | 0 <= i < |ops| && ops[i].Add? :: (var s := Run(ops[..i]); s.dirty || s.values[Slot(s)] != s.median)
  }

  predicate NoneUnnoticed(ops: seq<Op>) {
    forall i | 0 <= i < |ops| && ops[i].Add? :: !Unnoticed(Run(ops[..i]), ops[i].v)
  }

  /** Over every run without unnoticed changes, in particular over every run in which no value equal to
      the cached median is overwritten, the cached median is the fourth smallest value, or known to be old. */
  lemma {:induction false} RunCorrect(ops: seq<Op>)
    requires NoneUnnoticed(ops)
    ensures Correct(Run(ops))
    decreases |ops|
  {
    if ops != [] {
      var n := |ops| - 1;
      assert ops[..|ops|] == ops;
      forall i | 0 <= i < n && ops[..n][i].Add? ensures !Unnoticed(Run(ops[..n][..i]), ops[..n][i].v) {
        assert ops[..n][..i] == ops[..i];
      }
      RunCorrect(ops[..n]);
      match ops[n]
      case Add(v) => AddKeepsCorrect(Run(ops[..n]), v);
      case Median => AskIsCorrect(Run(ops[..n]));
      case ResetAll =>
    }
  }

  lemma NoneOverwrittenSuffices(ops: seq<Op>)
    requires NoneOverwritten(ops)
    ensures NoneUnnoticed(ops)
  {
  }

  /** The first change that goes unnoticed makes the cache wrong. */
  lemma UnnoticedGoesStale(ops: seq<Op>, v: real)
    requires NoneUnnoticed(ops) && Unnoticed(Run(ops), v)
    ensures var s := Run(ops + [Add(v)]); !s.dirty && !IsMedian(s.values, s.median)
  {
    RunCorrect(ops);
    assert (ops + [Add(v)])[..|ops|] == ops;
    AddKeepsCorrect(Run(ops), v);
  }

  lemma NextSlot(n: nat)
    ensures (n + 1) % SIZE == if n % SIZE + 1 == SIZE then 0 else n % SIZE + 1
    ensures n % SIZE + 1 == SIZE ==> n + 1 >= SIZE
    ensures n + 1 == SIZE ==> n % SIZE + 1 == SIZE
  {
  }

  /** The median counts as valid exactly from the seventh value after a reset. */
  lemma {:induction false} ValidFromSeventh(ops: seq<Op>)
    ensures Run(ops).valid <==> Added(ops) >= SIZE
    ensures Run(ops).index == Added(ops) % SIZE
    decreases |ops|
  {
    if ops != [] {
      ValidFromSeventh(ops[..|ops| - 1]);
      NextSlot(Added(ops[..|ops| - 1]));
      hide AfterAsk;
    }
  }

  /** Such a run: seven values with 4 as their median, then a 9 in place of the 4. */
  function StaleRun(): seq<Op> {
    [Add(4.0), Add(1.0), Add(2.0), Add(3.0), Add(5.0), Add(6.0), Add(7.0), Median]
  }

  lemma StaleRunIsStale()
    ensures Run(StaleRun()) == State([7.0, 4.0, 1.0, 2.0, 3.0, 5.0, 6.0], 4.0, 0, true, false)
    ensures Unnoticed(Run(StaleRun()), 9.0)
    ensures var s := Run(StaleRun() + [Add(9.0)]); !s.dirty && s.median == 4.0 && Sorted(s.values)[3] == 5.0
  {
    var ops := StaleRun();
    var values := [7.0, 4.0, 1.0, 2.0, 3.0, 5.0, 6.0];
    StaleSteps();
    var full := Run(ops[..7]);
    assert ops[..7] == ops[..8][..7] && ops[..8] == ops;
    assert full == State(values, 0.0, 0, true, true);
    StaleCounts();
    SortedMedian(values, 4.0);
    var s := Run(ops);
    assert s == State(values, 4.0, 0, true, false);
    assert (ops + [Add(9.0)])[..8] == ops;
    assert values[1 := 9.0] == [7.0, 9.0, 1.0, 2.0, 3.0, 5.0, 6.0];
    SortedMedian(values[1 := 9.0], 5.0);
  }

  lemma CountsOf(a: real, b: real, c: real, d: real, e: real, f: real, g: real, m: real)
    ensures Below([a, b, c, d, e, f, g], m) ==
      (if a < m then 1 else 0) + (if b < m then 1 else 0) + (if c < m then 1 else 0) + (if d < m then 1 else 0)
      + (if e < m then 1 else 0) + (if f < m then 1 else 0) + (if g < m then 1 else 0)
    ensures AtMost([a, b, c, d, e, f, g], m) ==
      (if a <= m then 1 else 0) + (if b <= m then 1 else 0) + (if c <= m then 1 else 0) + (if d <= m then 1 else 0)
      + (if e <= m then 1 else 0) + (if f <= m then 1 else 0) + (if g <= m then 1 else 0)
  {
    CountsPrepend(a, [b, c, d, e, f, g], m);
    CountsPrepend(b, [c, d, e, f, g], m);
    CountsPrepend(c, [d, e, f, g], m);
    CountsPrepend(d, [e, f, g], m);
    CountsPrepend(e, [f, g], m);
    CountsPrepend(f, [g], m);
    CountsPrepend(g, [], m);
    assert [g] + [] == [g] && [f] + [g] == [f, g] && [e] + [f, g] == [e, f, g] && [d] + [e, f, g] == [d, e, f, g];
    assert [c] + [d, e, f, g] == [c, d, e, f, g] && [b] + [c, d, e, f, g] == [b, c, d, e, f, g];
    assert [a] + [b, c, d, e, f, g] == [a, b, c, d, e, f, g];
  }

  lemma StaleCounts()
    ensures var v := [7.0, 4.0, 1.0, 2.0, 3.0, 5.0, 6.0];
      IsMedian(v, 4.0) && AtMost(v, 4.0) == 4 && IsMedian(v[1 := 9.0], 5.0)
  {
    CountsOf(7.0, 4.0, 1.0, 2.0, 3.0, 5.0, 6.0, 4.0);
    CountsOf(7.0, 9.0, 1.0, 2.0, 3.0, 5.0, 6.0, 5.0);
    var v := [7.0, 4.0, 1.0, 2.0, 3.0, 5.0, 6.0];
    assert v[1 := 9.0] == [7.0, 9.0, 1.0, 2.0, 3.0, 5.0, 6.0];
  }

  lemma RunNext(ops: seq<Op>, k: nat)
    requires k < |ops|
    ensures Run(ops[..k + 1]) == Apply(Run(ops[..k]), ops[k])
  {
    assert ops[..k + 1][..k] == ops[..k];
  }

  /** Another value of a run that starts with values only. */
  lemma AddNext(ops: seq<Op>, k: nat, values: seq<real>, v: real)
    requires |values| == SIZE && k < SIZE && k < |ops| && ops[k] == Add(v)
    requires Run(ops[..k]) == State(values, 0.0, k, false, true)
    ensures var i := (k + 1) % SIZE;
      Run(ops[..k + 1]) == State(values[i := v], 0.0, i, i == 0, true)
  {
    RunNext(ops, k);
  }

  lemma StaleStart()
    ensures Run(StaleRun()[..4]) == State([0.0, 4.0, 1.0, 2.0, 3.0, 0.0, 0.0], 0.0, 4, false, true)
  {
    var ops := StaleRun();
    assert ops[..0] == [] && Run([]) == START;
    hide Run;
    AddNext(ops, 0, ZEROS, 4.0);
    AddNext(ops, 1, [0.0, 4.0, 0.0, 0.0, 0.0, 0.0, 0.0], 1.0);
    AddNext(ops, 2, [0.0, 4.0, 1.0, 0.0, 0.0, 0.0, 0.0], 2.0);
    AddNext(ops, 3, [0.0, 4.0, 1.0, 2.0, 0.0, 0.0, 0.0], 3.0);
  }

  lemma StaleSteps()
    ensures Run(StaleRun()[..7]) == State([7.0, 4.0, 1.0, 2.0, 3.0, 5.0, 6.0], 0.0, 0, true, true)
  {
    var ops := StaleRun();
    hide Run;
    StaleStart();
    AddNext(ops, 4, [0.0, 4.0, 1.0, 2.0, 3.0, 0.0, 0.0], 5.0);
    AddNext(ops, 5, [0.0, 4.0, 1.0, 2.0, 3.0, 5.0, 0.0], 6.0);
    AddNext(ops, 6, [0.0, 4.0, 1.0, 2.0, 3.0, 5.0, 6.0], 7.0);
  }

  lemma RunSnoc(ops: seq<Op>, op: Op)
    ensures Run(ops + [op]) == Apply(Run(ops), op)
  {
    assert (ops + [op])[..|ops|] == ops;
  }

  lemma AddMeaning(ops: seq<Op>, v: real)
    ensures Run(ops + [Add(v)]) == AfterAdd(Run(ops), v)
    ensures Run(ops + [Add(v)]).valid <==> Added(ops + [Add(v)]) >= SIZE
    ensures Correct(Run(ops)) ==> (Correct(Run(ops + [Add(v)])) <==> !Unnoticed(Run(ops), v))
    ensures NoneUnnoticed(ops + [Add(v)]) ==> Correct(Run(ops + [Add(v)]))
  {
    RunSnoc(ops, Add(v));
    ValidFromSeventh(ops + [Add(v)]);
    hide Run, Added, Correct, Unnoticed, NoneUnnoticed, AfterAdd;
    if Correct(Run(ops)) {
      AddKeepsCorrect(Run(ops), v);
    }
    if NoneUnnoticed(ops + [Add(v)]) {
      RunCorrect(ops + [Add(v)]);
    }
  }

  /** What asking finds is the median exactly if the cache was right or known to be old. */
  lemma AskMeaning(s: State)
    requires InShape(s)
    ensures IsMedian(AfterAsk(s).values, AfterAsk(s).median) <==> Correct(s)
  {
    SortedMedian(s.values, AfterAsk(s).median);
  }

  /** The median as it is kept; `history` is all that was done with it. */
  class Median {
    const values: array<real>
    var currentMedian: real
    var currentIndex: nat
    var valid: bool
    var dirty: bool
    ghost var history: seq<Op>

    ghost predicate Shaped()
      reads this, values
    {
      values.Length == SIZE && currentIndex < SIZE
    }

    ghost function Model(): (s: State)
      reads this, values
      requires Shaped()
      ensures InShape(s)
    {
      State(values[..], currentMedian, currentIndex, valid, dirty)
    }

    ghost predicate Valid()
      reads this, values
    {
      Shaped() && Model() == Run(history)
    }

    constructor ()
      ensures Valid() && fresh(values) && history == []
    {
      values := new real[SIZE](i => 0.0);
      currentMedian, currentIndex, valid, dirty := 0.0, 0, false, true;
      history := [];
      new;
      assert values[..] == ZEROS;
    }

    method Reset()
      requires Valid()
      modifies this, values
      ensures Valid() && history == old(history) + [ResetAll]
      ensures Model() == AfterReset(old(Model()))
    {
      var i := 0;
      while i < SIZE
        invariant 0 <= i <= SIZE && forall k | 0 <= k < i :: values[k] == 0.0
        modifies values
      {
        values[i] := 0.0;
        i := i + 1;
      }
      currentIndex, valid, dirty := 0, false, true;
      assert values[..] == ZEROS;
      RunSnoc(history, ResetAll);
      history := history + [ResetAll];
    }

    /** The median counts as valid exactly from the seventh value since the last reset; as long as no change
        went unnoticed, it is the median of the last seven values unless it is marked as old. */
    method AddValue(value: real)
      requires Valid()
      modifies this, values
      ensures Valid() && history == old(history) + [Add(value)]
      ensures Model() == AfterAdd(old(Model()), value)
      ensures valid <==> Added(history) >= SIZE
      ensures old(Correct(Model())) ==> (Correct(Model()) <==> !old(Unnoticed(Model(), value)))
      ensures NoneUnnoticed(history) ==> dirty || IsMedian(values[..], currentMedian)
    {
      hide Run, Below, AtMost, IsMedian, Added, Unnoticed, NoneUnnoticed;
      AddMeaning(history, value);
      currentIndex := currentIndex + 1;
      if currentIndex == SIZE {
        currentIndex := 0;
        valid := true;
      }
      var currentIndexValue := values[currentIndex];
      if (currentIndexValue > currentMedian && currentMedian > value)
         || (currentMedian > currentIndexValue && value > currentMedian) {
        dirty := true;
      }
      values[currentIndex] := value;
      history := history + [Add(value)];
      assert Model() == AfterAdd(old(Model()), value);
    }

    /** The answer is the median of the last seven values exactly if the cache was right or marked as old. */
    method Ask() returns (m: real)
      requires Valid()
      modifies this
      ensures Valid() && history == old(history) + [Op.Median]
      ensures Model() == AfterAsk(old(Model())) && m == currentMedian && !dirty
      ensures IsMedian(values[..], m) <==> old(Correct(Model()))
      ensures NoneUnnoticed(old(history)) ==> IsMedian(values[..], m)
    {
      AskMeaning(Model());
      if NoneUnnoticed(history) {
        RunCorrect(history);
      }
      if dirty {
        dirty := false;
        currentMedian := Sorted(values[..])[SIZE / 2];
      }
      m := currentMedian;
      RunSnoc(history, Op.Median);
      history := history + [Op.Median];
    }
  }
}

/** How many indexes a thread claims at once: doubled while claiming takes too long compared with the work. */
module BlockSize {
  import opened RunningMedian

  const TARGET_RATIO := 100.0

  /** Claiming takes more than a hundredth of the work, by the medians of both. */
  predicate Doubles(control: State, user: State)
    requires InShape(control) && InShape(user)
  {
    control.valid && !(AfterAsk(control).median * TARGET_RATIO < AfterAsk(user).median)
  }

  function Doubled(size: int, most: int): int { if size * 2 < most then size * 2 else most }

  lemma Quotient(n: nat, d: int)
    requires d >= 1
    ensures 0 <= n / d <= n
  {
  }

  class BlockSizeManager {
    const maxBlockSize: int
    const controlPartElapsed: Median
    const userPartElapsed: Median
    var beforeUser: int
    var afterUser: int
    var blockSize: int

    ghost predicate Valid()
      reads this, controlPartElapsed, controlPartElapsed.values, userPartElapsed, userPartElapsed.values
    {
      && controlPartElapsed != userPartElapsed && controlPartElapsed.values != userPartElapsed.values
      && controlPartElapsed.Valid() && userPartElapsed.Valid()
      && 1 <= blockSize <= Largest()
    }

    /** The bound on the block size. */
    function Largest(): int { if maxBlockSize < 1 then 1 else maxBlockSize }

    constructor (threads: int, iterationCount: nat)
      ensures Valid() && blockSize == 1
      ensures maxBlockSize == iterationCount / ((if threads < 1 then 1 else threads) * 2)
      ensures fresh(controlPartElapsed) && fresh(userPartElapsed)
      ensures fresh(controlPartElapsed.values) && fresh(userPartElapsed.values)
      ensures iterationCount >= 1 ==> Largest() <= iterationCount
    {
      var n := if threads < 1 then 1 else threads;
      maxBlockSize := iterationCount / (n * 2);
      controlPartElapsed := new Median();
      userPartElapsed := new Median();
      beforeUser, afterUser, blockSize := 0, 0, 1;
      new;
      Quotient(iterationCount, n * 2);
    }

    predicate Maxed()
      reads this
    {
      blockSize >= maxBlockSize
    }

    /** Unless the block size has reached its bound, the time spent between two blocks is recorded. */
    method TimeBeforeUser(now: int)
      requires Valid()
      modifies this`beforeUser, controlPartElapsed, controlPartElapsed.values
      ensures Valid()
      ensures Maxed() ==>
        beforeUser == old(beforeUser) && controlPartElapsed.history == old(controlPartElapsed.history)
      ensures !Maxed() ==>
        && beforeUser == now
        && controlPartElapsed.history == old(controlPartElapsed.history) + [Add((now - afterUser) as real)]
    {
      if Maxed() {
        return;
      }
      beforeUser := now;
      controlPartElapsed.AddValue((beforeUser - afterUser) as real);
    }

    /** Unless the block size has reached its bound, the time spent on a block is recorded. The block size never
        shrinks; it doubles, up to the bound, exactly if the medians say so, and then both start again. */
    method TimeAfterUser(now: int)
      requires Valid()
      modifies this`afterUser, this`blockSize, controlPartElapsed, controlPartElapsed.values
      modifies userPartElapsed, userPartElapsed.values
      ensures Valid() && blockSize >= old(blockSize)
      ensures old(Maxed()) ==>
        && blockSize == old(blockSize) && afterUser == old(afterUser)
        && controlPartElapsed.history == old(controlPartElapsed.history)
        && userPartElapsed.history == old(userPartElapsed.history)
      ensures !old(Maxed()) ==>
        var control, user := old(controlPartElapsed.Model()), old(userPartElapsed.Model());
        var grows := Doubles(control, AfterAdd(user, (now - beforeUser) as real));
        && afterUser == now
        && blockSize == (if grows then Doubled(old(blockSize), maxBlockSize) else old(blockSize))
        && controlPartElapsed.valid == (control.valid && !grows)
        && userPartElapsed.valid == (AfterAdd(user, (now - beforeUser) as real).valid && !grows)
    {
      hide Run, Below, AtMost, IsMedian, Added, Unnoticed, NoneUnnoticed, Correct, Sorted;
      if Maxed() {
        return;
      }
      afterUser := now;
      userPartElapsed.AddValue((afterUser - beforeUser) as real);
      if !controlPartElapsed.valid {
        return;
      }
      var control := controlPartElapsed.Ask();
      var user := userPartElapsed.Ask();
      if control * TARGET_RATIO < user {
        return;
      }
      blockSize := if blockSize * 2 < maxBlockSize then blockSize * 2 else maxBlockSize;
      controlPartElapsed.Reset();
      userPartElapsed.Reset();
    }
  }
}
