/** Parallel filtering: each claimed block is filtered by itself, and the kept items of the blocks are
    reduced one block after the other, in the order of the blocks or in any order. */
module FilterKernel {
  import opened ForIteration
  import opened Sequences

  function Filter<T>(keep: T -> bool, items: seq<T>): seq<T> {
    if items == [] then []
    else Filter(keep, items[..|items| - 1]) + if keep(items[|items| - 1]) then [items[|items| - 1]] else []
  }

  function Fold<T, R>(reduce: (R, T) -> R, start: R, items: seq<T>): R {
    if items == [] then start else reduce(Fold(reduce, start, items[..|items| - 1]), items[|items| - 1])
  }

  lemma {:induction false} FilterAppend<T>(keep: T -> bool, a: seq<T>, b: seq<T>)
    ensures Filter(keep, a + b) == Filter(keep, a) + Filter(keep, b)
    decreases |b|
  {
    if b == [] {
      assert a + b == a;
    } else {
      var n := |b| - 1;
      assert (a + b)[..|a| + n] == a + b[..n];
      FilterAppend(keep, a, b[..n]);
    }
  }

  lemma {:induction false} FoldAppend<T, R>(reduce: (R, T) -> R, start: R, a: seq<T>, b: seq<T>)
    ensures Fold(reduce, start, a + b) == Fold(reduce, Fold(reduce, start, a), b)
    decreases |b|
  {
    if b == [] {
      assert a + b == a;
    } else {
      var n := |b| - 1;
      assert (a + b)[..|a| + n] == a + b[..n];
      FoldAppend(reduce, start, a, b[..n]);
    }
  }

  /** What user code is for the filter: the kept items of a block, in their order. */
  method RunIterations<T>(keep: T -> bool, items: seq<T>, begin: nat, end: nat) returns (vector: seq<T>)
    requires begin <= end <= |items|
    ensures vector == Filter(keep, items[begin..end])
  {
    vector := [];
    for i := begin to end
      invariant vector == Filter(keep, items[begin..i])
    {
      assert items[begin..i + 1][..i - begin] == items[begin..i];
      if keep(items[i]) {
        vector := vector + [items[i]];
      }
    }
  }

  /** The result so far, with the kept items of one block folded in. */
  class Reducer<T, R> {
    const reduce: (R, T) -> R
    var reducedResult: R

    constructor (reduce: (R, T) -> R, initial: R)
      ensures this.reduce == reduce && reducedResult == initial
    {
      this.reduce, reducedResult := reduce, initial;
    }

    method ReduceResult(vector: seq<T>)
      modifies this
      ensures reducedResult == Fold(reduce, old(reducedResult), vector)
    {
      var i := 0;
      while i < |vector|
        invariant 0 <= i <= |vector| && reducedResult == Fold(reduce, old(reducedResult), vector[..i])
      {
        assert vector[..i + 1][..i] == vector[..i];
        reducedResult := reduce(reducedResult, vector[i]);
        i := i + 1;
      }
      assert vector[..i] == vector;
    }
  }

  predicate InRange<T>(claims: seq<Block>, items: seq<T>) {
    forall k | 0 <= k < |claims| :: 0 <= claims[k].begin <= claims[k].end <= |items|
  }

  function KeptOf<T>(keep: T -> bool, items: seq<T>, b: Block): seq<T>
    requires 0 <= b.begin <= b.end <= |items|
  {
    Filter(keep, items[b.begin..b.end])
  }

  predicate KnownOrder(claims: seq<Block>, order: seq<nat>) { forall j | 0 <= j < |order| :: order[j] < |claims| }

  /** The kept items of the blocks, in the order in which the blocks are reduced. */
  function Reduced<T>(keep: T -> bool, items: seq<T>, claims: seq<Block>, order: seq<nat>): seq<T>
    requires InRange(claims, items) && KnownOrder(claims, order)
  {
    if order == [] then []
    else
      Reduced(keep, items, claims, order[..|order| - 1]) + KeptOf(keep, items, claims[order[|order| - 1]])
  }

  /** Block after block folded into the result. */
  function FoldBlocks<T, R>(keep: T -> bool, items: seq<T>, claims: seq<Block>, order: seq<nat>, reduce: (R, T) -> R,
                            start: R): R
    requires InRange(claims, items) && KnownOrder(claims, order)
  {
    if order == [] then start
    else
      var n := |order| - 1;
      Fold(reduce, FoldBlocks(keep, items, claims, order[..n], reduce, start), KeptOf(keep, items, claims[order[n]]))
  }

  lemma {:induction false} FoldBlocksIs<T, R>(keep: T -> bool, items: seq<T>, claims: seq<Block>, order: seq<nat>,
                                              reduce: (R, T) -> R, start: R)
    requires InRange(claims, items) && KnownOrder(claims, order)
    ensures FoldBlocks(keep, items, claims, order, reduce, start)
         == Fold(reduce, start, Reduced(keep, items, claims, order))
    decreases |order|
  {
    if order != [] {
      var n := |order| - 1;
      FoldBlocksIs(keep, items, claims, order[..n], reduce, start);
      FoldAppend(reduce, start, Reduced(keep, items, claims, order[..n]), KeptOf(keep, items, claims[order[n]]));
    }
  }

  function Identity(n: nat): (r: seq<nat>)
    ensures |r| == n && forall j | 0 <= j < n :: r[j] == j
  {
    seq(n, j => j)
  }

  lemma {:induction false} TilesConcat<T>(keep: T -> bool, items: seq<T>, claims: seq<Block>, limit: int, n: nat)
    requires InRange(claims, items) && Tiles(claims, limit) && n <= |claims|
    ensures 0 <= EndBefore(claims, n) <= |items|
    ensures Reduced(keep, items, claims, Identity(n)) == Filter(keep, items[..EndBefore(claims, n)])
    decreases n
  {
    hide Filter, KeptOf;
    if n == 0 {
      FilterNothing(keep, items[..0]);
    } else {
      TilesConcat(keep, items, claims, limit, n - 1);
      assert Identity(n)[..n - 1] == Identity(n - 1);
      var b := claims[n - 1];
      KeptAppend(keep, items, b);
    }
  }

  lemma FilterNothing<T>(keep: T -> bool, items: seq<T>)
    requires items == []
    ensures Filter(keep, items) == []
  {
  }

  lemma KeptAppend<T>(keep: T -> bool, items: seq<T>, b: Block)
    requires 0 <= b.begin <= b.end <= |items|
    ensures Filter(keep, items[..b.begin]) + KeptOf(keep, items, b) == Filter(keep, items[..b.end])
  {
    FilterAppend(keep, items[..b.begin], items[b.begin..b.end]);
    assert items[..b.begin] + items[b.begin..b.end] == items[..b.end];
  }

  lemma KnownParts(claims: seq<Block>, a: seq<nat>, b: seq<nat>)
    requires KnownOrder(claims, a + b)
    ensures KnownOrder(claims, a) && KnownOrder(claims, b)
  {
    assert forall j | 0 <= j < |a| :: a[j] == (a + b)[j];
    assert forall j | 0 <= j < |b| :: b[j] == (a + b)[|a| + j];
  }

  lemma {:induction false} ReducedAppend<T>(keep: T -> bool, items: seq<T>, claims: seq<Block>, a: seq<nat>,
                                            b: seq<nat>)
    requires InRange(claims, items) && KnownOrder(claims, a + b)
    ensures KnownOrder(claims, a) && KnownOrder(claims, b)
    ensures Reduced(keep, items, claims, a + b) == Reduced(keep, items, claims, a) + Reduced(keep, items, claims, b)
    decreases |b|
  {
    hide KeptOf;
    KnownParts(claims, a, b);
    if b == [] {
      assert a + b == a;
    } else {
      var n := |b| - 1;
      assert (a + b)[..|a| + n] == a + b[..n];
      KnownParts(claims, a + b[..n], [b[n]]);
      assert a + b[..n] + [b[n]] == a + b;
      ReducedAppend(keep, items, claims, a, b[..n]);
    }
  }

  /** In any order of the blocks, the same items are kept, equally often. */
  lemma {:induction false} AnyOrderKeeps<T>(keep: T -> bool, items: seq<T>, claims: seq<Block>, limit: int,
                                            order: seq<nat>, n: nat)
    requires InRange(claims, items) && Tiles(claims, limit) && n <= |claims| && EachOnce(order, n)
    ensures KnownOrder(claims, order) && 0 <= EndBefore(claims, n) <= |items|
    ensures multiset(Reduced(keep, items, claims, order)) == multiset(Filter(keep, items[..EndBefore(claims, n)]))
    decreases n
  {
    hide Filter, KeptOf, EachOnce, Reduced, Tiles, KnownOrder;
    KnownEach(claims, order, n);
    TilesConcat(keep, items, claims, limit, n);
    if n == 0 {
      ReducedNothing(keep, items, claims, order);
    } else {
      var j := FindLast(order, n);
      var a, b := order[..j], order[j + 1..];
      Without(order, n, j);
      AnyOrderKeeps(keep, items, claims, limit, a + b, n - 1);
      MoveLast(keep, items, claims, a, n - 1, b);
      assert order == a + ([n - 1] + b);
      TilesConcat(keep, items, claims, limit, n - 1);
      LastBlock(claims, limit, n);
      KeptAppend(keep, items, claims[n - 1]);
    }
  }

  lemma KnownEach(claims: seq<Block>, order: seq<nat>, n: nat)
    requires EachOnce(order, n) && n <= |claims|
    ensures KnownOrder(claims, order) && (n == 0 ==> order == [])
  {
    if order != [] {
      assert order[0] < n;
    }
  }

  lemma ReducedNothing<T>(keep: T -> bool, items: seq<T>, claims: seq<Block>, order: seq<nat>)
    requires InRange(claims, items) && order == []
    ensures KnownOrder(claims, order) && Reduced(keep, items, claims, order) == []
    ensures Filter(keep, items[..0]) == []
  {
  }

  /** It does not matter to which items are kept where a block stands. */
  lemma MoveLast<T>(keep: T -> bool, items: seq<T>, claims: seq<Block>, a: seq<nat>, k: nat, b: seq<nat>)
    requires InRange(claims, items) && KnownOrder(claims, a + b) && k < |claims|
    ensures KnownOrder(claims, a + ([k] + b))
    ensures multiset(Reduced(keep, items, claims, a + ([k] + b)))
         == multiset(Reduced(keep, items, claims, a + b)) + multiset(KeptOf(keep, items, claims[k]))
  {
    hide KeptOf;
    KnownParts(claims, a, b);
    ReducedAppend(keep, items, claims, a, [k] + b);
    ReducedAppend(keep, items, claims, [k], b);
    ReducedAppend(keep, items, claims, a, b);
    assert [k][..0] == [];
    assert Reduced(keep, items, claims, [k]) == KeptOf(keep, items, claims[k]);
  }

  // ---- on the runs of the iteration

  /** The run is over, and no work is left. */
  predicate Over(s: System) { s.finished && forall i | 0 <= i < |s.threads| :: s.threads[i].Out? }

  lemma OverCovers(r: Range, threads: nat, events: seq<Event>, s: System)
    requires r.maxSize >= 1 && IsRun(r, threads, events, s) && Over(s)
    ensures Tiles(s.claims, r.count) && EachOnce(s.runs, |s.claims|)
    ensures forall k | 0 <= k < |s.claims| :: 0 <= s.claims[k].begin < s.claims[k].end <= r.count
  {
    hide IsRun;
    RunIsValid(r, threads, events, s);
    forall k | 0 <= k < |s.claims| ensures k in s.runs && 0 <= s.claims[k].begin < s.claims[k].end <= r.count {
      TilesBelow(s.claims, r.count, k);
    }
  }

  /** For every interleaving of the threads: if the blocks that were run are reduced in any order, such as
      that in which they were run, the same items are kept. */
  lemma UnorderedReduce<T>(r: Range, threads: nat, events: seq<Event>, s: System, keep: T -> bool, items: seq<T>,
                           order: seq<nat>)
    requires r.maxSize >= 1 && IsRun(r, threads, events, s) && Over(s) && r.count == |items|
    requires EachOnce(order, |s.claims|)
    ensures InRange(s.claims, items) && KnownOrder(s.claims, order) && EachOnce(s.runs, |s.claims|)
    ensures multiset(Reduced(keep, items, s.claims, order)) == multiset(Filter(keep, items))
  {
    OverCovers(r, threads, events, s);
    AnyOrderKeeps(keep, items, s.claims, r.count, order, |s.claims|);
    assert items[..r.count] == items;
  }
}
