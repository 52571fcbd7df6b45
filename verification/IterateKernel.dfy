/** The parallel iteration over an index range: each thread claims a block of indexes with one atomic
    addition. A step of the system is one atomic operation, or the user code, of one thread. */
module ForIteration {
  import opened Sequences

  datatype Block = Block(begin: int, end: int)

  /** Where a thread stands in the loop. */
  datatype Pc =
    | Out                  // not in the thread function
    | Top                  // in front of the check for cancellation
    | Sized(size: int)     // in front of the load of the current index
    | Claiming(size: int)  // in front of the atomic addition
    | Holding(k: nat)      // has made claim `k`; may wait, or start another thread
    | Processed(k: nat)    // user code is done with claim `k`
    | Reported             // in front of the question about throttling

  /** `claims` are the blocks claimed so far, `runs` the claims that user code was called with, both in
      order; `finished`: some thread found no work left. */
  datatype System = System(
    currentIndex: int,
    completed: int,
    threads: seq<Pc>,
    claims: seq<Block>,
    runs: seq<nat>,
    finished: bool)

  /** What the surroundings decide in a step. */
  datatype Choice = Choice(canceled: bool, size: int, throttle: bool)

  /** The range, and the largest block size. */
  datatype Range = Range(count: nat, maxSize: int)

  predicate Allowed(r: Range, c: Choice) { 1 <= c.size <= r.maxSize }

  function Min(a: int, b: int): int { if a < b then a else b }

  function Init(threads: nat): System { System(0, 0, seq(threads, i => Out), [], [], false) }

  function Size(b: Block): int { b.end - b.begin }

  function Step(r: Range, s: System, i: nat, c: Choice): System
    requires i < |s.threads| && KnownClaims(s)
  {
    match s.threads[i]
    case Out => s.(threads := s.threads[i := Top])
    case Top => s.(threads := s.threads[i := if c.canceled then Out else Sized(c.size)])
    case Sized(size) =>
      if s.currentIndex >= r.count then s.(threads := s.threads[i := Out], finished := true)
      else s.(threads := s.threads[i := Claiming(size)])
    case Claiming(size) =>
      var b := Block(s.currentIndex, Min(s.currentIndex + size, r.count));
      var t := s.(currentIndex := s.currentIndex + size);
      if b.begin >= b.end then t.(threads := s.threads[i := Out], finished := true)
      else t.(threads := s.threads[i := Holding(|s.claims|)], claims := s.claims + [b])
    case Holding(k) => s.(threads := s.threads[i := Processed(k)], runs := s.runs + [k])
    case Processed(k) => s.(threads := s.threads[i := Reported], completed := s.completed + Size(s.claims[k]))
    case Reported => s.(threads := s.threads[i := if c.throttle then Out else Top])
  }

  /** The blocks cover everything below `limit`, in order and without gap. */
  predicate Tiles(claims: seq<Block>, limit: int) {
    && (forall k | 0 <= k < |claims| :: claims[k].begin < claims[k].end)
    && (forall k | 0 <= k < |claims| :: claims[k].begin == EndBefore(claims, k))
    && limit == EndBefore(claims, |claims|)
  }

  function EndBefore(claims: seq<Block>, k: nat): int
    requires k <= |claims|
  {
    if k == 0 then 0 else claims[k - 1].end
  }

  predicate KnownClaims(s: System) {
    && (forall i | 0 <= i < |s.threads| && s.threads[i].Holding? :: s.threads[i].k < |s.claims|)
    && (forall i | 0 <= i < |s.threads| && s.threads[i].Processed? :: s.threads[i].k < |s.claims|)
    && (forall j | 0 <= j < |s.runs| :: s.runs[j] < |s.claims|)
  }

  /** Each claim is held by one thread, or has been run once. */
  predicate OneRun(s: System) {
    && (forall j, m | 0 <= j < m < |s.runs| :: s.runs[j] != s.runs[m])
    && (forall i, j | 0 <= i < |s.threads| && s.threads[i].Holding? && 0 <= j < |s.runs| :: s.threads[i].k != s.runs[j])
    && (forall i, m | 0 <= i < m < |s.threads| && s.threads[i].Holding? && s.threads[m].Holding? ::
          s.threads[i].k != s.threads[m].k)
    && (forall k | 0 <= k < |s.claims| :: k in s.runs || exists i :: 0 <= i < |s.threads| && s.threads[i] == Holding(k))
  }

  function Claimers(threads: seq<Pc>): nat {
    if threads == [] then 0
    else Claimers(threads[..|threads| - 1]) + if threads[|threads| - 1].Claiming? then 1 else 0
  }

  /** What has been processed but not reported as progress. */
  function Unreported(threads: seq<Pc>, claims: seq<Block>): int
    requires forall i | 0 <= i < |threads| && threads[i].Processed? :: threads[i].k < |claims|
  {
    if threads == [] then 0
    else
      var t := threads[|threads| - 1];
      Unreported(threads[..|threads| - 1], claims) + if t.Processed? then Size(claims[t.k]) else 0
  }

  function Total(runs: seq<nat>, claims: seq<Block>): int
    requires forall j | 0 <= j < |runs| :: runs[j] < |claims|
  {
    if runs == [] then 0 else Total(runs[..|runs| - 1], claims) + Size(claims[runs[|runs| - 1]])
  }

  predicate SizesAllowed(r: Range, s: System) {
    forall i | 0 <= i < |s.threads| :: match s.threads[i]
      case Sized(size) => 1 <= size <= r.maxSize
      case Claiming(size) => 1 <= size <= r.maxSize
      case _ => true
  }

  /** How far the index can run past the end of the range. */
  predicate Bounded(r: Range, s: System) {
    r.count >= 1 ==> s.currentIndex + r.maxSize * Claimers(s.threads) <= r.count - 1 + r.maxSize * |s.threads|
  }

  predicate Valid(r: Range, s: System) {
    && KnownClaims(s) && s.currentIndex >= 0
    && Tiles(s.claims, Min(s.currentIndex, r.count))
    && OneRun(s) && SizesAllowed(r, s) && Bounded(r, s)
    && (s.finished ==> s.currentIndex >= r.count)
    && s.completed + Unreported(s.threads, s.claims) == Total(s.runs, s.claims)
  }

  lemma {:induction false} ClaimersUpdate(threads: seq<Pc>, i: nat, t: Pc)
    requires i < |threads|
    ensures Claimers(threads[i := t]) ==
      Claimers(threads) - (if threads[i].Claiming? then 1 else 0) + if t.Claiming? then 1 else 0
    ensures threads[i].Claiming? ==> Claimers(threads) > 0
    ensures Claimers(threads) <= |threads|
    decreases |threads|
  {
    var n := |threads| - 1;
    ClaimersMost(threads);
    if i == n {
      assert threads[i := t][..n] == threads[..n];
    } else {
      ClaimersUpdate(threads[..n], i, t);
      assert threads[i := t][..n] == threads[..n][i := t];
    }
  }

  lemma {:induction false} ClaimersMost(threads: seq<Pc>)
    ensures Claimers(threads) <= |threads|
    decreases |threads|
  {
    if threads != [] {
      ClaimersMost(threads[..|threads| - 1]);
    }
  }

  lemma {:induction false} UnreportedUpdate(threads: seq<Pc>, claims: seq<Block>, i: nat, t: Pc)
    requires forall j | 0 <= j < |threads| && threads[j].Processed? :: threads[j].k < |claims|
    requires i < |threads| && (t.Processed? ==> t.k < |claims|)
    ensures Unreported(threads[i := t], claims) == Unreported(threads, claims)
      - (if threads[i].Processed? then Size(claims[threads[i].k]) else 0)
      + if t.Processed? then Size(claims[t.k]) else 0
    decreases |threads|
  {
    var n := |threads| - 1;
    if i == n {
      assert threads[i := t][..n] == threads[..n];
    } else {
      UnreportedUpdate(threads[..n], claims, i, t);
      assert threads[i := t][..n] == threads[..n][i := t];
    }
  }

  lemma {:induction false} UnreportedMore(threads: seq<Pc>, claims: seq<Block>, b: Block)
    requires forall j | 0 <= j < |threads| && threads[j].Processed? :: threads[j].k < |claims|
    ensures Unreported(threads, claims + [b]) == Unreported(threads, claims)
    decreases |threads|
  {
    if threads != [] {
      UnreportedMore(threads[..|threads| - 1], claims, b);
    }
  }

  lemma {:induction false} TotalMore(runs: seq<nat>, claims: seq<Block>, b: Block)
    requires forall j | 0 <= j < |runs| :: runs[j] < |claims|
    ensures Total(runs, claims + [b]) == Total(runs, claims)
    decreases |runs|
  {
    if runs != [] {
      TotalMore(runs[..|runs| - 1], claims, b);
    }
  }

  lemma {:induction false} NobodyCounts(n: nat)
    ensures Claimers(seq(n, i => Out)) == 0 && Unreported(seq(n, i => Out), []) == 0
  {
    if n > 0 {
      NobodyCounts(n - 1);
      assert seq(n, i => Out)[..n - 1] == seq(n - 1, i => Out);
    }
  }

  lemma InitValid(r: Range, threads: nat)
    requires r.maxSize >= 1
    ensures Valid(r, Init(threads))
  {
    NobodyCounts(threads);
    assert r.maxSize * threads >= 0;
  }

  /** A thread moves on without touching claims or counters. */
  lemma MoveValid(r: Range, s: System, i: nat, t: Pc)
    requires Valid(r, s) && i < |s.threads|
    requires !s.threads[i].Holding? && !s.threads[i].Processed? && !t.Holding? && !t.Processed?
    requires s.threads[i].Claiming? ==> t.Claiming?
    requires t.Sized? ==> 1 <= t.size <= r.maxSize
    requires t.Claiming? ==> 1 <= t.size <= r.maxSize && s.currentIndex < r.count
    ensures Valid(r, s.(threads := s.threads[i := t]))
  {
    var s' := s.(threads := s.threads[i := t]);
    ClaimersUpdate(s.threads, i, t);
    UnreportedUpdate(s.threads, s.claims, i, t);
    ClaimersMost(s'.threads);
    if t.Claiming? && r.count >= 1 {
      Mul(r.maxSize, Claimers(s'.threads), |s.threads|);
    }
    forall k | 0 <= k < |s.claims|
      ensures k in s.runs || exists j :: 0 <= j < |s.threads| && s'.threads[j] == Holding(k)
    {
      if k !in s.runs {
        var j :| 0 <= j < |s.threads| && s.threads[j] == Holding(k);
        assert s'.threads[j] == Holding(k);
      }
    }
  }

  lemma Mul(a: int, x: int, y: int)
    requires a >= 0 && x <= y
    ensures a * x <= a * y
  {
  }

  lemma MulLess(a: int, x: int)
    ensures a * (x - 1) == a * x - a
  {
  }

  lemma ClaimTiles(r: Range, s: System, i: nat, c: Choice)
    requires Valid(r, s) && i < |s.threads| && s.threads[i].Claiming?
    ensures var s' := Step(r, s, i, c);
      && Tiles(s'.claims, Min(s'.currentIndex, r.count)) && s'.currentIndex >= s.currentIndex
      && (s'.finished ==> s'.currentIndex >= r.count)
  {
    hide OneRun, Claimers, Unreported, Total;
    var s' := Step(r, s, i, c);
    forall k | 0 <= k < |s'.claims|
      ensures s'.claims[k].begin < s'.claims[k].end && s'.claims[k].begin == EndBefore(s'.claims, k)
    {
      if k < |s.claims| {
        assert s'.claims[k] == s.claims[k] && EndBefore(s'.claims, k) == EndBefore(s.claims, k);
      }
    }
  }

  lemma ClaimBounded(r: Range, s: System, i: nat, c: Choice)
    requires Valid(r, s) && i < |s.threads| && s.threads[i].Claiming?
    ensures Bounded(r, Step(r, s, i, c)) && SizesAllowed(r, Step(r, s, i, c))
  {
    hide OneRun, Tiles, Unreported, Total;
    var s' := Step(r, s, i, c);
    ClaimersUpdate(s.threads, i, s'.threads[i]);
    MulLess(r.maxSize, Claimers(s.threads));
  }

  lemma ClaimProgress(r: Range, s: System, i: nat, c: Choice)
    requires Valid(r, s) && i < |s.threads| && s.threads[i].Claiming?
    ensures var s' := Step(r, s, i, c);
      KnownClaims(s') && s'.completed + Unreported(s'.threads, s'.claims) == Total(s'.runs, s'.claims)
  {
    hide OneRun, Tiles, Claimers;
    var s' := Step(r, s, i, c);
    UnreportedUpdate(s.threads, s.claims, i, s'.threads[i]);
    if |s'.claims| > |s.claims| {
      var b := s'.claims[|s.claims|];
      UnreportedUpdate(s.threads, s'.claims, i, s'.threads[i]);
      UnreportedMore(s.threads, s.claims, b);
      TotalMore(s.runs, s.claims, b);
    }
  }

  /** The atomic addition: no other thread gets any of these indexes. */
  lemma ClaimValid(r: Range, s: System, i: nat, c: Choice)
    requires Valid(r, s) && i < |s.threads| && s.threads[i].Claiming?
    ensures Valid(r, Step(r, s, i, c))
  {
    hide OneRun, Tiles, Claimers, Bounded, SizesAllowed, Unreported, Total, KnownClaims;
    ClaimTiles(r, s, i, c);
    ClaimBounded(r, s, i, c);
    ClaimProgress(r, s, i, c);
    ClaimHeld(r, s, i, c);
  }

  lemma ClaimHeld(r: Range, s: System, i: nat, c: Choice)
    requires Valid(r, s) && i < |s.threads| && s.threads[i].Claiming?
    ensures OneRun(Step(r, s, i, c))
  {
    hide Tiles, Claimers, Unreported, Total;
    var s' := Step(r, s, i, c);
    forall k | 0 <= k < |s'.claims|
      ensures k in s'.runs || exists j :: 0 <= j < |s'.threads| && s'.threads[j] == Holding(k)
    {
      if k == |s.claims| {
        assert s'.threads[i] == Holding(k);
      } else if k !in s.runs {
        var j :| 0 <= j < |s.threads| && s.threads[j] == Holding(k);
        assert s'.threads[j] == Holding(k);
      }
    }
  }

  lemma RunHeld(r: Range, s: System, i: nat, c: Choice)
    requires Valid(r, s) && i < |s.threads| && s.threads[i].Holding?
    ensures OneRun(Step(r, s, i, c))
  {
    hide Tiles, Claimers, Unreported, Total;
    var s' := Step(r, s, i, c);
    forall m | 0 <= m < |s'.claims|
      ensures m in s'.runs || exists j :: 0 <= j < |s'.threads| && s'.threads[j] == Holding(m)
    {
      if m == s.threads[i].k {
        assert s'.runs[|s.runs|] == m;
      } else if m in s.runs {
        var j :| 0 <= j < |s.runs| && s.runs[j] == m;
        assert s'.runs[j] == m;
      } else {
        var j :| 0 <= j < |s.threads| && s.threads[j] == Holding(m);
        assert s'.threads[j] == Holding(m);
      }
    }
  }

  lemma RunValid(r: Range, s: System, i: nat, c: Choice)
    requires Valid(r, s) && i < |s.threads| && s.threads[i].Holding?
    ensures Valid(r, Step(r, s, i, c))
  {
    hide OneRun, Tiles;
    var k := s.threads[i].k;
    var s' := Step(r, s, i, c);
    ClaimersUpdate(s.threads, i, Processed(k));
    UnreportedUpdate(s.threads, s.claims, i, Processed(k));
    assert s'.runs[..|s'.runs| - 1] == s.runs;
    RunHeld(r, s, i, c);
  }

  lemma ReportValid(r: Range, s: System, i: nat, c: Choice)
    requires Valid(r, s) && i < |s.threads| && s.threads[i].Processed?
    ensures Valid(r, Step(r, s, i, c))
  {
    var s' := Step(r, s, i, c);
    ClaimersUpdate(s.threads, i, Reported);
    UnreportedUpdate(s.threads, s.claims, i, Reported);
    forall m | 0 <= m < |s'.claims|
      ensures m in s'.runs || exists j :: 0 <= j < |s'.threads| && s'.threads[j] == Holding(m)
    {
      if m !in s.runs {
        var j :| 0 <= j < |s.threads| && s.threads[j] == Holding(m);
        assert s'.threads[j] == Holding(m);
      }
    }
  }

  lemma StepValid(r: Range, s: System, i: nat, c: Choice)
    requires Valid(r, s) && i < |s.threads| && Allowed(r, c)
    ensures Valid(r, Step(r, s, i, c)) && |Step(r, s, i, c).threads| == |s.threads|
  {
    hide Valid;
    match s.threads[i]
    case Claiming(_) => ClaimValid(r, s, i, c);
    case Holding(_) => RunValid(r, s, i, c);
    case Processed(_) => ReportValid(r, s, i, c);
    case _ =>
      PlainStep(r, s, i, c);
  }

  lemma PlainStep(r: Range, s: System, i: nat, c: Choice)
    requires Valid(r, s) && i < |s.threads| && Allowed(r, c)
    requires !s.threads[i].Claiming? && !s.threads[i].Holding? && !s.threads[i].Processed?
    ensures Valid(r, Step(r, s, i, c))
  {
    MoveValid(r, s, i, Step(r, s, i, c).threads[i]);
  }

  // ---- runs

  datatype Event = Event(thread: nat, choice: Choice)

  /** Any interleaving: in each step some thread does its next operation. */
  ghost predicate IsRun(r: Range, threads: nat, events: seq<Event>, s: System)
    decreases |events|
  {
    if events == [] then s == Init(threads)
    else
      var e := events[|events| - 1];
      exists p ::
        && IsRun(r, threads, events[..|events| - 1], p)
        && KnownClaims(p) && e.thread < |p.threads| && Allowed(r, e.choice) && s == Step(r, p, e.thread, e.choice)
  }

  lemma {:induction false} RunIsValid(r: Range, threads: nat, events: seq<Event>, s: System)
    requires r.maxSize >= 1 && IsRun(r, threads, events, s)
    ensures Valid(r, s) && |s.threads| == threads
    decreases |events|
  {
    hide Valid, Step;
    if events == [] {
      InitValid(r, threads);
    } else {
      var e := events[|events| - 1];
      var p :| IsRun(r, threads, events[..|events| - 1], p) && KnownClaims(p) && e.thread < |p.threads|
               && Allowed(r, e.choice) && s == Step(r, p, e.thread, e.choice);
      RunIsValid(r, threads, events[..|events| - 1], p);
      StepValid(r, p, e.thread, e.choice);
    }
  }

  predicate Contains(b: Block, x: int) { b.begin <= x < b.end }

  lemma {:induction false} TilesOrdered(claims: seq<Block>, limit: int, k: nat, m: nat)
    requires Tiles(claims, limit) && k < m < |claims|
    ensures claims[k].end <= claims[m].begin
    decreases m
  {
    if k < m - 1 {
      TilesOrdered(claims, limit, k, m - 1);
    }
  }

  lemma {:induction false} TilesBelow(claims: seq<Block>, limit: int, k: nat)
    requires Tiles(claims, limit) && k < |claims|
    ensures 0 <= claims[k].begin < claims[k].end <= limit
    decreases k
  {
    if k > 0 {
      TilesBelow(claims, limit, k - 1);
    }
    if k < |claims| - 1 {
      TilesOrdered(claims, limit, k, |claims| - 1);
    }
  }

  lemma {:induction false} TilesCover(claims: seq<Block>, limit: int, x: int) returns (k: nat)
    requires Tiles(claims, limit) && 0 <= x < limit
    ensures k < |claims| && Contains(claims[k], x)
    decreases |claims|
  {
    var n := |claims| - 1;
    if x >= claims[n].begin {
      k := n;
    } else {
      assert forall m | 0 <= m < n :: claims[..n][m] == claims[m] && EndBefore(claims[..n], m) == EndBefore(claims, m);
      k := TilesCover(claims[..n], claims[n].begin, x);
    }
  }

  /** In every interleaving: the ranges that user code is called with are within the iteration range and
      pairwise disjoint, and the index runs past the end by less than a block for each thread. */
  lemma RangesDisjoint(r: Range, threads: nat, events: seq<Event>, s: System)
    requires r.maxSize >= 1 && IsRun(r, threads, events, s)
    ensures KnownClaims(s)
    ensures forall j | 0 <= j < |s.runs| ::
      0 <= s.claims[s.runs[j]].begin < s.claims[s.runs[j]].end <= r.count
    ensures forall j, m, x | 0 <= j < m < |s.runs| && Contains(s.claims[s.runs[j]], x) ::
      !Contains(s.claims[s.runs[m]], x)
    ensures r.count >= 1 ==> s.currentIndex <= r.count - 1 + threads * r.maxSize
  {
    hide IsRun, Tiles;
    RunIsValid(r, threads, events, s);
    var limit := Min(s.currentIndex, r.count);
    forall j | 0 <= j < |s.runs| ensures 0 <= s.claims[s.runs[j]].begin < s.claims[s.runs[j]].end <= r.count {
      TilesBelow(s.claims, limit, s.runs[j]);
    }
    forall j, m, x | 0 <= j < m < |s.runs| && Contains(s.claims[s.runs[j]], x)
      ensures !Contains(s.claims[s.runs[m]], x)
    {
      if s.runs[j] < s.runs[m] {
        TilesOrdered(s.claims, limit, s.runs[j], s.runs[m]);
      } else {
        TilesOrdered(s.claims, limit, s.runs[m], s.runs[j]);
      }
    }
    assert r.maxSize * Claimers(s.threads) >= 0;
  }

  lemma EndIsLimit(claims: seq<Block>, limit: int)
    requires Tiles(claims, limit)
    ensures EndBefore(claims, |claims|) == limit
  {
  }

  lemma LastBlock(claims: seq<Block>, limit: int, n: nat)
    requires Tiles(claims, limit) && 0 < n <= |claims|
    ensures EndBefore(claims, n) == claims[n - 1].end && EndBefore(claims, n - 1) == claims[n - 1].begin
  {
  }

  lemma {:induction false} TotalAppend(a: seq<nat>, b: seq<nat>, claims: seq<Block>)
    requires forall j | 0 <= j < |a + b| :: (a + b)[j] < |claims|
    ensures (forall j | 0 <= j < |a| :: a[j] < |claims|) && forall j | 0 <= j < |b| :: b[j] < |claims|
    ensures Total(a + b, claims) == Total(a, claims) + Total(b, claims)
    decreases |b|
  {
    assert forall j | 0 <= j < |a| :: a[j] == (a + b)[j];
    assert forall j | 0 <= j < |b| :: b[j] == (a + b)[|a| + j];
    if b == [] {
      assert a + b == a;
    } else {
      var n := |b| - 1;
      assert (a + b)[..|a| + n] == a + b[..n];
      TotalAppend(a, b[..n], claims);
    }
  }

  predicate AllBelow(order: seq<nat>, n: nat) { forall j | 0 <= j < |order| :: order[j] < n }

  /** It does not matter to the total where a block stands. */
  lemma TotalMove(a: seq<nat>, k: nat, b: seq<nat>, claims: seq<Block>)
    requires AllBelow(a + b, |claims|) && k < |claims|
    ensures AllBelow(a + ([k] + b), |claims|)
    ensures Total(a + ([k] + b), claims) == Total(a + b, claims) + Size(claims[k])
  {
    assert forall j | 0 <= j < |a| :: a[j] == (a + b)[j];
    assert forall j | 0 <= j < |b| :: b[j] == (a + b)[|a| + j];
    TotalAppend(a, b, claims);
    TotalAppend([k], b, claims);
    TotalAppend(a, [k] + b, claims);
    assert [k][..0] == [];
  }

  /** The blocks together are as long as the range they tile, in whatever order they were run. */
  lemma {:induction false} TotalIsAll(claims: seq<Block>, limit: int, order: seq<nat>, n: nat)
    requires Tiles(claims, limit) && n <= |claims| && EachOnce(order, n)
    ensures AllBelow(order, |claims|) && Total(order, claims) == EndBefore(claims, n)
    decreases n
  {
    if n == 0 {
      EachOnceOfNone(order, n);
    } else {
      hide EachOnce, Tiles, EndBefore, Total, AllBelow;
      var j := FindLast(order, n);
      var a, b := order[..j], order[j + 1..];
      assert order == a + ([n - 1] + b);
      Without(order, n, j);
      TotalIsAll(claims, limit, a + b, n - 1);
      TotalMove(a, n - 1, b, claims);
      LastBlock(claims, limit, n);
    }
  }

  lemma {:induction false} NothingUnreported(threads: seq<Pc>, claims: seq<Block>)
    requires forall i | 0 <= i < |threads| :: threads[i].Out?
    ensures Unreported(threads, claims) == 0
    decreases |threads|
  {
    if threads != [] {
      NothingUnreported(threads[..|threads| - 1], claims);
    }
  }

  /** User code was called for `x` in run `j` and in no other. */
  predicate OnlyRun(s: System, x: int, j: nat)
    requires KnownClaims(s)
  {
    && j < |s.runs| && Contains(s.claims[s.runs[j]], x)
    && forall m | 0 <= m < |s.runs| && Contains(s.claims[s.runs[m]], x) :: m == j
  }

  predicate ProcessedOnce(s: System, x: int)
    requires KnownClaims(s)
  {
    exists j | 0 <= j < |s.runs| :: OnlyRun(s, x, j)
  }

  /** Once no thread is running and one of them found no work left, user code was called for each index
      exactly once, and the reported progress is complete. */
  lemma AllProcessedOnce(r: Range, threads: nat, events: seq<Event>, s: System)
    requires r.maxSize >= 1 && IsRun(r, threads, events, s)
    requires s.finished && (forall i | 0 <= i < |s.threads| :: s.threads[i].Out?)
    ensures KnownClaims(s) && forall x | 0 <= x < r.count :: ProcessedOnce(s, x)
    ensures s.completed == r.count
  {
    hide IsRun, Tiles;
    RunIsValid(r, threads, events, s);
    RangesDisjoint(r, threads, events, s);
    forall x | 0 <= x < r.count ensures ProcessedOnce(s, x) {
      var k := TilesCover(s.claims, r.count, x);
      assert k in s.runs;
      var j :| 0 <= j < |s.runs| && s.runs[j] == k;
      assert OnlyRun(s, x, j);
    }
    NothingUnreported(s.threads, s.claims);
    TotalIsAll(s.claims, r.count, s.runs, |s.claims|);
    EndIsLimit(s.claims, r.count);
  }
}

/** The iteration over a sequence that can only be walked: one shared position, guarded by a flag that
    threads try to take and never wait for. */
module WhileIteration {

  datatype Pc =
    | Out                             // not in the thread function
    | Entering                        // in front of the first try to take the flag
    | Looking                         // holds the flag; compares the position with the end
    | Took(element: nat)              // holds the flag; has moved the position past this element
    | Indexed(element: nat, index: nat) // holds the flag; knows the element's index
    | Free(element: nat, index: nat)  // has given the flag back; user code is next
    | Ran                             // in front of the question about throttling
    | Again                           // in front of the next try

  datatype Visit = Visit(element: nat, index: nat)

  /** `runs` are the calls of user code so far. `started`, `throttled`: some thread ever was. */
  datatype System = System(
    current: nat,
    currentIndex: nat,
    flag: bool,
    threads: seq<Pc>,
    runs: seq<Visit>,
    started: bool,
    throttled: bool)

  function Init(threads: nat): System { System(0, 0, false, seq(threads, i => Out), [], false, false) }

  function Move(s: System, i: nat, t: Pc): System
    requires i < |s.threads|
  {
    s.(threads := s.threads[i := t])
  }

  function Step(end: nat, s: System, i: nat, throttle: bool): System
    requires i < |s.threads|
  {
    match s.threads[i]
    case Out => Move(s, i, Entering).(started := true)
    case Entering => if s.flag then Move(s, i, Out) else Move(s, i, Looking).(flag := true)
    case Looking =>
      if s.current == end then Move(s, i, Out)
      else Move(s, i, Took(s.current)).(current := s.current + 1)
    case Took(element) => Move(s, i, Indexed(element, s.currentIndex)).(currentIndex := s.currentIndex + 1)
    case Indexed(element, index) => Move(s, i, Free(element, index)).(flag := false)
    case Free(element, index) => Move(s, i, Ran).(runs := s.runs + [Visit(element, index)])
    case Ran => if throttle then Move(s, i, Out).(throttled := true) else Move(s, i, Again)
    case Again => if s.flag then Move(s, i, Out) else Move(s, i, Looking).(flag := true)
  }

  /** Owns the shared position. */
  predicate Owns(t: Pc) { t.Looking? || t.Took? || t.Indexed? }

  /** Has taken an element that user code has not seen yet. */
  predicate Carries(t: Pc) { t.Took? || t.Indexed? || t.Free? }

  predicate OneOwner(s: System) {
    && (forall i | 0 <= i < |s.threads| && Owns(s.threads[i]) :: s.flag)
    && (forall i, j | 0 <= i < j < |s.threads| && Owns(s.threads[i]) :: !Owns(s.threads[j]))
  }

  /** The flag is taken for good: nobody owns it, and the sequence is at its end. */
  predicate Closed(end: nat, s: System) {
    s.flag && s.current == end && forall i | 0 <= i < |s.threads| :: !Owns(s.threads[i])
  }

  /** The index counts the elements: it is behind by one while an element has no index yet. */
  predicate Counted(end: nat, s: System) {
    && s.current <= end
    && (forall i | 0 <= i < |s.threads| && s.threads[i].Took? ::
          s.threads[i].element == s.currentIndex && s.current == s.currentIndex + 1)
    && (NoneTook(s) ==> s.current == s.currentIndex)
    && (forall i | 0 <= i < |s.threads| && s.threads[i].Indexed? ::
          s.threads[i].element == s.threads[i].index < s.currentIndex)
    && (forall i | 0 <= i < |s.threads| && s.threads[i].Free? ::
          s.threads[i].element == s.threads[i].index < s.currentIndex)
    && (forall j | 0 <= j < |s.runs| :: s.runs[j].element == s.runs[j].index < s.currentIndex)
  }

  /** Each element taken is carried by one thread or has been visited once. */
  predicate OneVisit(s: System) {
    && Apart(s)
    && (forall x | 0 <= x < s.current :: Visited(s, x) || Carried(s, x))
  }

  predicate Visited(s: System, x: nat) { exists j :: 0 <= j < |s.runs| && s.runs[j].element == x }

  predicate Carried(s: System, x: nat) {
    exists i :: 0 <= i < |s.threads| && Carries(s.threads[i]) && s.threads[i].element == x
  }

  /** A free flag will be tried for again by some thread, unless one was throttled. */
  predicate Tended(s: System) {
    !s.flag && s.started && !s.throttled ==> exists i :: 0 <= i < |s.threads| && !s.threads[i].Out?
  }

  /** A taken flag has an owner, or is taken for good. */
  predicate Held(end: nat, s: System) {
    s.flag ==> Closed(end, s) || exists i :: 0 <= i < |s.threads| && Owns(s.threads[i])
  }

  predicate Valid(end: nat, s: System) {
    OneOwner(s) && Counted(end, s) && OneVisit(s) && Tended(s) && Held(end, s)
  }

  lemma InitValid(end: nat, threads: nat)
    ensures Valid(end, Init(threads))
  {
  }

  lemma StepOneOwner(end: nat, s: System, i: nat, throttle: bool)
    requires OneOwner(s) && i < |s.threads|
    ensures OneOwner(Step(end, s, i, throttle))
  {
  }

  predicate NoneTook(s: System) { forall i | 0 <= i < |s.threads| :: !s.threads[i].Took? }

  lemma LookCounted(end: nat, s: System, i: nat)
    requires OneOwner(s) && Counted(end, s) && i < |s.threads| && s.threads[i].Looking?
    ensures Counted(end, Step(end, s, i, false))
  {
    assert NoneTook(s);
    var s' := Step(end, s, i, false);
    if s.current == end {
      assert NoneTook(s');
    } else {
      assert s'.threads[i].Took?;
      assert forall j | 0 <= j < |s.threads| && j != i :: s'.threads[j] == s.threads[j];
    }
  }

  lemma TakeCounted(end: nat, s: System, i: nat)
    requires OneOwner(s) && Counted(end, s) && i < |s.threads| && s.threads[i].Took?
    ensures Counted(end, Step(end, s, i, false))
  {
    assert NoneTook(Step(end, s, i, false));
  }

  /** No other thread is concerned when one hands its element on. */
  lemma HandCounted(end: nat, s: System, i: nat)
    requires OneOwner(s) && Counted(end, s) && i < |s.threads| && (s.threads[i].Indexed? || s.threads[i].Free?)
    ensures Counted(end, Step(end, s, i, false))
  {
    var s' := Step(end, s, i, false);
    NoneTookBefore(s, s', i);
  }

  lemma NoneTookBefore(s: System, s': System, i: nat)
    requires |s'.threads| == |s.threads| && i < |s.threads| && !s.threads[i].Took?
    requires forall j | 0 <= j < |s.threads| && j != i :: s'.threads[j] == s.threads[j]
    ensures NoneTook(s') ==> NoneTook(s)
  {
    if NoneTook(s') {
      forall j | 0 <= j < |s.threads| ensures !s.threads[j].Took? {
        assert j != i ==> s'.threads[j] == s.threads[j];
      }
    }
  }

  lemma FlagCounted(end: nat, s: System, i: nat, throttle: bool)
    requires Counted(end, s) && i < |s.threads|
    requires s.threads[i].Out? || s.threads[i].Entering? || s.threads[i].Ran? || s.threads[i].Again?
    ensures Counted(end, Step(end, s, i, throttle))
  {
    NoneTookBefore(s, Step(end, s, i, throttle), i);
  }

  lemma StepCounted(end: nat, s: System, i: nat, throttle: bool)
    requires OneOwner(s) && Counted(end, s) && i < |s.threads|
    ensures Counted(end, Step(end, s, i, throttle))
  {
    hide OneOwner, Counted;
    match s.threads[i]
    case Looking => LookCounted(end, s, i);
    case Took(_) => TakeCounted(end, s, i);
    case Indexed(_, _) => HandCounted(end, s, i);
    case Free(_, _) => HandCounted(end, s, i);
    case _ => FlagCounted(end, s, i, throttle);
  }

  lemma ElementsBelow(end: nat, s: System)
    requires Counted(end, s)
    ensures forall j | 0 <= j < |s.threads| && Carries(s.threads[j]) :: s.threads[j].element < s.current
    ensures forall j | 0 <= j < |s.runs| :: s.runs[j].element < s.current
  {
    if !NoneTook(s) {
      var i :| 0 <= i < |s.threads| && s.threads[i].Took?;
    }
  }

  /** No two have the same element. */
  predicate Apart(s: System) {
    && (forall j, m | 0 <= j < m < |s.runs| :: s.runs[j].element != s.runs[m].element)
    && (forall i, j | 0 <= i < |s.threads| && Carries(s.threads[i]) && 0 <= j < |s.runs| ::
          s.threads[i].element != s.runs[j].element)
    && (forall i, m | 0 <= i < m < |s.threads| && Carries(s.threads[i]) && Carries(s.threads[m]) ::
          s.threads[i].element != s.threads[m].element)
  }

  lemma LookApart(end: nat, s: System, i: nat)
    requires Counted(end, s) && Apart(s) && i < |s.threads| && s.threads[i].Looking?
    ensures Apart(Step(end, s, i, false))
  {
    ElementsBelow(end, s);
  }

  /** A thread that carries no other element than before. */
  lemma MoveApart(s: System, s': System, i: nat, t: Pc)
    requires Apart(s) && i < |s.threads| && s'.threads == s.threads[i := t] && s'.runs == s.runs
    requires Carries(t) ==> Carries(s.threads[i]) && t.element == s.threads[i].element
    ensures Apart(s')
  {
  }

  lemma RunApart(end: nat, s: System, i: nat)
    requires Apart(s) && i < |s.threads| && s.threads[i].Free?
    ensures Apart(Step(end, s, i, false))
  {
    MoveApart(s, Move(s, i, Ran), i, Ran);
  }

  lemma StepApart(end: nat, s: System, i: nat, throttle: bool)
    requires Counted(end, s) && Apart(s) && i < |s.threads|
    ensures Apart(Step(end, s, i, throttle))
  {
    hide Counted, Apart;
    if s.threads[i].Looking? {
      LookApart(end, s, i);
    } else if s.threads[i].Free? {
      RunApart(end, s, i);
    } else {
      var s' := Step(end, s, i, throttle);
      MoveApart(s, s', i, s'.threads[i]);
    }
  }

  lemma StepOneVisit(end: nat, s: System, i: nat, throttle: bool)
    requires Counted(end, s) && OneVisit(s) && i < |s.threads|
    ensures OneVisit(Step(end, s, i, throttle))
  {
    hide Counted, Apart, Visited, Carried;
    StepApart(end, s, i, throttle);
    var s' := Step(end, s, i, throttle);
    forall x | 0 <= x < s'.current ensures Visited(s', x) || Carried(s', x) {
      VisitedStays(end, s, i, throttle, x);
    }
  }

  lemma CarriedStays(end: nat, s: System, i: nat, throttle: bool, x: nat)
    requires i < |s.threads| && Carried(s, x)
    ensures Visited(Step(end, s, i, throttle), x) || Carried(Step(end, s, i, throttle), x)
  {
    var s' := Step(end, s, i, throttle);
    var j :| 0 <= j < |s.threads| && Carries(s.threads[j]) && s.threads[j].element == x;
    if j != i {
      assert s'.threads[j] == s.threads[j];
    } else if s.threads[i].Free? {
      assert s'.runs[|s.runs|].element == x;
    } else {
      assert Carries(s'.threads[i]) && s'.threads[i].element == x;
    }
  }

  lemma VisitedStays(end: nat, s: System, i: nat, throttle: bool, x: nat)
    requires OneVisit(s) && i < |s.threads| && x < Step(end, s, i, throttle).current
    ensures Visited(Step(end, s, i, throttle), x) || Carried(Step(end, s, i, throttle), x)
  {
    hide Apart;
    var s' := Step(end, s, i, throttle);
    if x == s.current {
      assert s'.threads[i] == Took(x);
    } else if Visited(s, x) {
      var j :| 0 <= j < |s.runs| && s.runs[j].element == x;
      assert s'.runs[j].element == x;
    } else {
      CarriedStays(end, s, i, throttle, x);
    }
  }

  lemma StepTended(end: nat, s: System, i: nat, throttle: bool)
    requires OneOwner(s) && Tended(s) && i < |s.threads|
    ensures Tended(Step(end, s, i, throttle))
  {
    var s' := Step(end, s, i, throttle);
    if !s'.flag && s'.started && !s'.throttled {
      assert !s'.threads[i].Out?;
    }
  }

  lemma StepHeld(end: nat, s: System, i: nat, throttle: bool)
    requires OneOwner(s) && Counted(end, s) && Held(end, s) && i < |s.threads|
    ensures Held(end, Step(end, s, i, throttle))
  {
    var s' := Step(end, s, i, throttle);
    if s'.flag {
      if Owns(s'.threads[i]) {
      } else if Owns(s.threads[i]) {
        assert s.current == end;
      } else if Closed(end, s) {
        assert Closed(end, s');
      } else {
        var j :| 0 <= j < |s.threads| && Owns(s.threads[j]);
        assert s'.threads[j] == s.threads[j];
      }
    }
  }

  lemma StepValid(end: nat, s: System, i: nat, throttle: bool)
    requires Valid(end, s) && i < |s.threads|
    ensures Valid(end, Step(end, s, i, throttle)) && |Step(end, s, i, throttle).threads| == |s.threads|
  {
    StepOneOwner(end, s, i, throttle);
    StepCounted(end, s, i, throttle);
    StepOneVisit(end, s, i, throttle);
    StepTended(end, s, i, throttle);
    StepHeld(end, s, i, throttle);
  }

  /** Once the flag is taken for good it stays so: no thread takes an element any more. */
  lemma ClosedForever(end: nat, s: System, i: nat, throttle: bool)
    requires Closed(end, s) && i < |s.threads|
    ensures Closed(end, Step(end, s, i, throttle))
  {
  }

  // ---- runs

  datatype Event = Event(thread: nat, throttle: bool)

  ghost predicate IsRun(end: nat, threads: nat, events: seq<Event>, s: System)
    decreases |events|
  {
    if events == [] then s == Init(threads)
    else
      var e := events[|events| - 1];
      exists p ::
        && IsRun(end, threads, events[..|events| - 1], p)
        && e.thread < |p.threads| && s == Step(end, p, e.thread, e.throttle)
  }

  lemma {:induction false} RunIsValid(end: nat, threads: nat, events: seq<Event>, s: System)
    requires IsRun(end, threads, events, s)
    ensures Valid(end, s) && |s.threads| == threads
    decreases |events|
  {
    hide Valid, Step;
    if events == [] {
      InitValid(end, threads);
    } else {
      var e := events[|events| - 1];
      var p :| IsRun(end, threads, events[..|events| - 1], p) && e.thread < |p.threads|
               && s == Step(end, p, e.thread, e.throttle);
      RunIsValid(end, threads, events[..|events| - 1], p);
      StepValid(end, p, e.thread, e.throttle);
    }
  }

  /** In every interleaving: at most one thread works on the shared position, no element is visited
      twice, and each is visited with its own position as index. */
  lemma VisitedOnce(end: nat, threads: nat, events: seq<Event>, s: System)
    requires IsRun(end, threads, events, s)
    ensures forall i, j | 0 <= i < j < |s.threads| && Owns(s.threads[i]) :: !Owns(s.threads[j])
    ensures forall j | 0 <= j < |s.runs| :: s.runs[j].index == s.runs[j].element < end
    ensures forall j, m | 0 <= j < m < |s.runs| :: s.runs[j].element != s.runs[m].element
  {
    RunIsValid(end, threads, events, s);
  }

  /** Once no thread is running, if one was started and none was throttled, every element was visited. */
  lemma AllVisited(end: nat, threads: nat, events: seq<Event>, s: System, x: nat)
    requires IsRun(end, threads, events, s) && s.started && !s.throttled && x < end
    requires forall i | 0 <= i < |s.threads| :: s.threads[i].Out?
    ensures Visited(s, x)
  {
    RunIsValid(end, threads, events, s);
    assert Closed(end, s);
    assert !Carried(s, x);
  }
}
