/** The reducer that the worker threads share: each hands in the results of its blocks, one at a time does
    the reducing, with the lock released while user code runs. A step is a critical section together with
    the user code before it. Here the blocks are reduced in the order of where they begin. */
module OrderedReduction {
  import opened ForIteration
  import opened FilterKernel

  datatype Worker =
    | Idle
    | Reducing(k: nat)  // the results of its own block `k`
    | Draining(k: nat)  // the results of block `k`, stored by another thread and still in the map

  /** `offered` are the blocks handed in so far, `log` those reduced, in order. */
  datatype Queue = Queue(progress: int, waiting: set<nat>, workers: seq<Worker>, offered: set<nat>, log: seq<nat>)

  function Init(workers: nat): Queue { Queue(0, {}, seq(workers, i => Idle), {}, []) }

  datatype Event = Offer(worker: nat, k: nat) | Done(worker: nat)

  predicate IsFirst(claims: seq<Block>, waiting: set<nat>, k: nat) {
    && k in waiting && (forall m | m in waiting :: m < |claims|)
    && forall m | m in waiting :: claims[k].begin <= claims[m].begin
  }

  /** What a thread does after a block: go on with the first stored one if that is the next. */
  predicate GoesOn(claims: seq<Block>, waiting: set<nat>, progress: int, t: Worker) {
    match t
    case Draining(k) => IsFirst(claims, waiting, k) && claims[k].begin == progress
    case Idle => forall k | k in waiting && IsFirst(claims, waiting, k) :: claims[k].begin != progress
    case Reducing(_) => false
  }

  predicate Step(claims: seq<Block>, s: Queue, e: Event, s': Queue) {
    && e.worker < |s.workers|
    && match e
       case Offer(i, k) =>
         && s.workers[i].Idle? && k < |claims| && k !in s.offered
         && s' == if s.progress == claims[k].begin
                  then s.(workers := s.workers[i := Reducing(k)], offered := s.offered + {k})
                  else s.(waiting := s.waiting + {k}, offered := s.offered + {k})
       case Done(i) =>
         && !s.workers[i].Idle? && s.workers[i].k < |claims|
         && var k := s.workers[i].k;
            var waiting := if s.workers[i].Draining? then s.waiting - {k} else s.waiting;
            var progress := s.progress + (claims[k].end - claims[k].begin);
            && |s'.workers| == |s.workers| && GoesOn(claims, waiting, progress, s'.workers[i])
            && s' == s.(progress := progress, waiting := waiting, log := s.log + [k],
                        workers := s.workers[i := s'.workers[i]])
  }

  predicate Busy(t: Worker) { !t.Idle? }

  predicate OneBusy(s: Queue) {
    && (forall i | 0 <= i < |s.workers| && Busy(s.workers[i]) ::
          && s.workers[i].k == |s.log| && |s.log| in s.offered
          && (s.workers[i].Draining? <==> |s.log| in s.waiting))
    && (forall i, j | 0 <= i < j < |s.workers| && Busy(s.workers[i]) :: !Busy(s.workers[j]))
  }

  predicate SomeBusy(s: Queue) { exists i :: 0 <= i < |s.workers| && Busy(s.workers[i]) }

  predicate Valid(claims: seq<Block>, s: Queue) {
    && |s.log| <= |claims| && s.log == Identity(|s.log|) && s.progress == EndBefore(claims, |s.log|)
    && OneBusy(s)
    && (forall k | k in s.offered :: k < |claims|) && s.waiting <= s.offered
    && (forall k | k in s.waiting :: k >= |s.log|)
    && (forall k: nat | k < |s.log| :: k in s.offered)
    && (forall k | k in s.offered && k > |s.log| :: k in s.waiting)
    && (|s.log| in s.offered ==> SomeBusy(s))
  }

  lemma {:induction false} EndsAscend(claims: seq<Block>, limit: int, k: nat, m: nat)
    requires Tiles(claims, limit) && k < m <= |claims|
    ensures EndBefore(claims, k) < EndBefore(claims, m)
    decreases m
  {
    assert claims[m - 1].begin < claims[m - 1].end && claims[m - 1].begin == EndBefore(claims, m - 1);
    if k < m - 1 {
      EndsAscend(claims, limit, k, m - 1);
    }
  }

  /** The block to be reduced next is told by where it begins. */
  lemma NextByBegin(claims: seq<Block>, limit: int, k: nat, n: nat)
    requires Tiles(claims, limit) && k < |claims| && n <= |claims|
    ensures claims[k].begin == EndBefore(claims, n) <==> k == n
  {
    if k < n {
      EndsAscend(claims, limit, k, n);
    } else if n < k {
      EndsAscend(claims, limit, n, k);
    }
  }

  lemma OfferValid(claims: seq<Block>, limit: int, s: Queue, i: nat, k: nat, s': Queue)
    requires Tiles(claims, limit) && Valid(claims, s) && Step(claims, s, Offer(i, k), s')
    ensures Valid(claims, s')
  {
    NextByBegin(claims, limit, k, |s.log|);
    if k == |s.log| {
      assert Busy(s'.workers[i]);
      assert forall j | 0 <= j < |s.workers| :: !Busy(s.workers[j]);
    } else if |s.log| in s.offered {
      var j :| 0 <= j < |s.workers| && Busy(s.workers[j]);
      assert Busy(s'.workers[j]);
    }
  }

  /** A stored block is the first one exactly if it is the next one. */
  lemma FirstIsNext(claims: seq<Block>, limit: int, waiting: set<nat>, n: nat)
    requires Tiles(claims, limit) && n <= |claims| && forall m | m in waiting :: n <= m < |claims|
    ensures n in waiting ==> IsFirst(claims, waiting, n) && claims[n].begin == EndBefore(claims, n)
  {
    if n in waiting {
      forall m | m in waiting ensures claims[n].begin <= claims[m].begin {
        if n < m {
          EndsAscend(claims, limit, n, m);
        }
      }
    }
  }

  lemma BeginIs(claims: seq<Block>, limit: int, n: nat)
    requires Tiles(claims, limit)
    ensures n < |claims| ==> claims[n].begin == EndBefore(claims, n) && claims[n].end == EndBefore(claims, n + 1)
  {
  }

  lemma DoneValid(claims: seq<Block>, limit: int, s: Queue, i: nat, s': Queue)
    requires Tiles(claims, limit) && Valid(claims, s) && Step(claims, s, Done(i), s')
    ensures Valid(claims, s')
  {
    hide Tiles;
    var n := |s.log|;
    BeginIs(claims, limit, n);
    assert Busy(s.workers[i]) && s.workers[i].k == n;
    assert s'.log == Identity(n + 1);
    assert s'.progress == EndBefore(claims, n + 1);
    FirstIsNext(claims, limit, s'.waiting, n + 1);
    if s'.workers[i].Draining? {
      NextByBegin(claims, limit, s'.workers[i].k, n + 1);
      assert Busy(s'.workers[i]);
    }
  }

  ghost predicate IsRun(claims: seq<Block>, workers: nat, events: seq<Event>, s: Queue)
    decreases |events|
  {
    if events == [] then s == Init(workers)
    else
      var e, before := events[|events| - 1], events[..|events| - 1];
      exists p :: IsRun(claims, workers, before, p) && Step(claims, p, e, s)
  }

  lemma {:induction false} RunIsValid(claims: seq<Block>, limit: int, workers: nat, events: seq<Event>, s: Queue)
    requires Tiles(claims, limit) && IsRun(claims, workers, events, s)
    ensures Valid(claims, s)
    decreases |events|
  {
    if events != [] {
      var e := events[|events| - 1];
      var p :| IsRun(claims, workers, events[..|events| - 1], p) && Step(claims, p, e, s);
      RunIsValid(claims, limit, workers, events[..|events| - 1], p);
      match e
      case Offer(i, k) => OfferValid(claims, limit, p, i, k, s);
      case Done(i) => DoneValid(claims, limit, p, i, s);
    }
  }

  /** In every interleaving the blocks are reduced in the order of the sequence; when all have been handed
      in and no thread is reducing, all have been reduced, and nothing is left in the map. */
  lemma ReducedInOrder(claims: seq<Block>, limit: int, workers: nat, events: seq<Event>, s: Queue)
    requires Tiles(claims, limit) && IsRun(claims, workers, events, s)
    ensures |s.log| <= |claims| && s.log == Identity(|s.log|)
    ensures !SomeBusy(s) && (forall k: nat | k < |claims| :: k in s.offered) ==>
      s.log == Identity(|claims|) && s.waiting == {}
  {
    RunIsValid(claims, limit, workers, events, s);
  }
}

/** The same where the blocks may be reduced in any order: the thread that finds nobody reducing reduces
    its own block, then all that have been stored meanwhile, until none is left. */
module UnorderedReduction {
  import opened Sequences

  datatype Worker =
    | Idle
    | Own(k: nat)
    | Batch(rest: seq<nat>)  // stored blocks, taken out of the map at once

  /** `progress` is 0, or -1 while a thread reduces. */
  datatype Queue = Queue(progress: int, waiting: set<nat>, workers: seq<Worker>, offered: set<nat>, log: seq<nat>)

  function Init(workers: nat): Queue { Queue(0, {}, seq(workers, i => Idle), {}, []) }

  datatype Event = Offer(worker: nat, k: nat) | Done(worker: nat)

  /** The blocks in their order in the map. */
  predicate Lists(rest: seq<nat>, waiting: set<nat>) {
    && (forall k | k in rest :: k in waiting) && (forall k | k in waiting :: k in rest)
    && forall j, m | 0 <= j < m < |rest| :: rest[j] < rest[m]
  }

  predicate Well(t: Worker) { t.Batch? ==> t.rest != [] }

  /** With the lock held: take all stored blocks, or stop if there are none. */
  predicate Refills(s: Queue, i: nat, s': Queue)
    requires i < |s.workers|
  {
    if s.waiting == {} then s' == s.(progress := 0, workers := s.workers[i := Idle])
    else
      && |s'.workers| == |s.workers| && s'.workers[i].Batch? && Lists(s'.workers[i].rest, s.waiting)
      && s' == s.(waiting := {}, workers := s.workers[i := s'.workers[i]])
  }

  predicate Step(n: nat, s: Queue, e: Event, s': Queue) {
    && e.worker < |s.workers|
    && match e
       case Offer(i, k) =>
         && s.workers[i].Idle? && k < n && k !in s.offered
         && s' == if s.progress == 0
                  then s.(progress := -1, workers := s.workers[i := Own(k)], offered := s.offered + {k})
                  else s.(waiting := s.waiting + {k}, offered := s.offered + {k})
       case Done(i) =>
         match s.workers[i]
         case Idle => false
         case Own(k) => Refills(s.(log := s.log + [k]), i, s')
         case Batch(rest) =>
           && rest != []
           && var logged := s.(log := s.log + [rest[0]]);
              if |rest| > 1 then s' == logged.(workers := s.workers[i := Batch(rest[1..])])
              else Refills(logged, i, s')
  }

  predicate Busy(t: Worker) { !t.Idle? }

  function Held(t: Worker): seq<nat> {
    match t case Idle => [] case Own(k) => [k] case Batch(rest) => rest
  }

  predicate OneBusy(s: Queue) {
    && (forall i | 0 <= i < |s.workers| && Busy(s.workers[i]) :: s.progress == -1 && Well(s.workers[i]))
    && (forall i, j | 0 <= i < j < |s.workers| && Busy(s.workers[i]) :: !Busy(s.workers[j]))
  }

  predicate SomeBusy(s: Queue) { exists i :: 0 <= i < |s.workers| && Busy(s.workers[i]) }

  predicate Holds(s: Queue, k: nat) { exists i :: 0 <= i < |s.workers| && k in Held(s.workers[i]) }

  /** A block handed in is stored, being reduced or reduced: one of these, and once. */
  predicate Valid(n: nat, s: Queue) {
    && OneBusy(s) && (s.progress == 0 || s.progress == -1)
    && (s.progress == 0 ==> s.waiting == {})
    && (s.progress == -1 ==> SomeBusy(s))
    && Distinct(s.log) && (forall i | 0 <= i < |s.workers| :: Distinct(Held(s.workers[i])))
    && (forall k | k in s.offered :: k < n && (k in s.log || k in s.waiting || Holds(s, k)))
    && (forall k | k in s.log :: k in s.offered && k !in s.waiting && !Holds(s, k))
    && (forall k | k in s.waiting :: k in s.offered && !Holds(s, k))
    && (forall i, k | 0 <= i < |s.workers| && k in Held(s.workers[i]) :: k in s.offered)
  }

  lemma OfferValid(n: nat, s: Queue, i: nat, k: nat, s': Queue)
    requires Valid(n, s) && Step(n, s, Offer(i, k), s')
    ensures Valid(n, s')
  {
    if s.progress == 0 {
      assert forall j | 0 <= j < |s.workers| :: s.workers[j].Idle?;
      assert Busy(s'.workers[i]) && k in Held(s'.workers[i]);
    } else {
      var j :| 0 <= j < |s.workers| && Busy(s.workers[j]);
      assert Busy(s'.workers[j]);
    }
    forall m | m in s'.offered ensures m < n && (m in s'.log || m in s'.waiting || Holds(s', m)) {
      if m != k && m !in s.log && m !in s.waiting {
        var j :| 0 <= j < |s.workers| && m in Held(s.workers[j]);
        assert m in Held(s'.workers[j]);
      }
    }
    forall m | Holds(s', m) ensures Holds(s, m) || m == k {
      var j :| 0 <= j < |s'.workers| && m in Held(s'.workers[j]);
      if j != i {
        assert m in Held(s.workers[j]);
      }
    }
  }

  /** The only busy thread holds all that is being reduced. */
  lemma OnlyHolder(s: Queue, i: nat, k: nat)
    requires OneBusy(s) && i < |s.workers| && Busy(s.workers[i])
    ensures Holds(s, k) <==> k in Held(s.workers[i])
  {
    if Holds(s, k) {
      var j :| 0 <= j < |s.workers| && k in Held(s.workers[j]);
      assert Busy(s.workers[j]);
    }
  }

  lemma RestDistinct(s: seq<nat>)
    requires Distinct(s) && s != []
    ensures Distinct(s[1..]) && forall k :: k in s[1..] <==> k in s && k != s[0]
  {
    forall k | k in s && k != s[0] ensures k in s[1..] {
      var j :| 0 <= j < |s| && s[j] == k;
      assert s[1..][j - 1] == k;
    }
    forall k | k in s[1..] ensures k != s[0] {
      var j :| 0 <= j < |s[1..]| && s[1..][j] == k;
      assert s[j + 1] == k;
    }
  }

  /** The parts of `Valid` about where the blocks are. */
  predicate Placed(n: nat, s: Queue, held: seq<nat>) {
    && Distinct(s.log) && Distinct(held)
    && (forall k | k in s.offered :: k < n && (k in s.log || k in s.waiting || k in held))
    && (forall k | k in s.log :: k in s.offered && k !in s.waiting && k !in held)
    && (forall k | k in s.waiting :: k in s.offered && k !in held)
    && (forall k | k in held :: k in s.offered)
  }

  lemma ValidPlaced(n: nat, s: Queue, i: nat)
    requires Valid(n, s) && i < |s.workers| && Busy(s.workers[i])
    ensures Placed(n, s, Held(s.workers[i]))
  {
    forall k ensures Holds(s, k) <==> k in Held(s.workers[i]) {
      OnlyHolder(s, i, k);
    }
  }

  /** The thread hands over to what it holds next; all others are idle. */
  lemma PlacedValid(n: nat, s: Queue, i: nat)
    requires i < |s.workers| && forall j | 0 <= j < |s.workers| && j != i :: s.workers[j].Idle?
    requires Placed(n, s, Held(s.workers[i])) && Well(s.workers[i])
    requires s.progress == if Busy(s.workers[i]) then -1 else 0
    requires !Busy(s.workers[i]) ==> s.waiting == {}
    ensures Valid(n, s)
  {
    forall k ensures Holds(s, k) <==> k in Held(s.workers[i]) {
      if Holds(s, k) {
        var j :| 0 <= j < |s.workers| && k in Held(s.workers[j]);
        assert Busy(s.workers[j]);
      }
    }
  }

  lemma ListsDistinct(rest: seq<nat>, waiting: set<nat>)
    requires Lists(rest, waiting) && waiting != {}
    ensures Distinct(rest) && rest != []
  {
  }

  lemma DoneValid(n: nat, s: Queue, i: nat, s': Queue)
    requires Valid(n, s) && Step(n, s, Done(i), s')
    ensures Valid(n, s')
  {
    var held := Held(s.workers[i]);
    ValidPlaced(n, s, i);
    RestDistinct(held);
    assert forall j | 0 <= j < |s.workers| && j != i :: s.workers[j].Idle?;
    assert forall j | 0 <= j < |s.workers| && j != i :: s'.workers[j] == s.workers[j];
    var logged := s.(log := s.log + [held[0]]);
    assert held[0] in held;
    forall j | 0 <= j < |s.log| ensures s.log[j] != held[0] {
      assert s.log[j] in s.log;
    }
    assert Placed(n, logged, held[1..]);
    if |held| == 1 {
      assert held[1..] == [];
      if s.waiting != {} {
        ListsDistinct(s'.workers[i].rest, s.waiting);
        assert Placed(n, s', s'.workers[i].rest);
      } else {
        assert Placed(n, s', []);
      }
    }
    PlacedValid(n, s', i);
  }

  ghost predicate IsRun(n: nat, workers: nat, events: seq<Event>, s: Queue)
    decreases |events|
  {
    if events == [] then s == Init(workers)
    else
      var e, before := events[|events| - 1], events[..|events| - 1];
      exists p :: IsRun(n, workers, before, p) && Step(n, p, e, s)
  }

  lemma {:induction false} RunIsValid(n: nat, workers: nat, events: seq<Event>, s: Queue)
    requires IsRun(n, workers, events, s)
    ensures Valid(n, s)
    decreases |events|
  {
    if events != [] {
      var e := events[|events| - 1];
      var p :| IsRun(n, workers, events[..|events| - 1], p) && Step(n, p, e, s);
      RunIsValid(n, workers, events[..|events| - 1], p);
      match e
      case Offer(i, k) => OfferValid(n, p, i, k, s);
      case Done(i) => DoneValid(n, p, i, s);
    }
  }

  /** In every interleaving, when all blocks have been handed in and no thread is reducing, each has been
      reduced once, and nothing is left in the map. */
  lemma ReducedOnce(n: nat, workers: nat, events: seq<Event>, s: Queue)
    requires IsRun(n, workers, events, s)
    requires !SomeBusy(s) && forall k: nat | k < n :: k in s.offered
    ensures EachOnce(s.log, n) && s.waiting == {}
  {
    RunIsValid(n, workers, events, s);
    assert forall i | 0 <= i < |s.workers| :: !Busy(s.workers[i]);
    assert forall k: nat | k < n :: !Holds(s, k);
    forall j | 0 <= j < |s.log| ensures s.log[j] < n {
      assert s.log[j] in s.log;
    }
  }
}

/** Threads iterate, filter and reduce: the result against the sequential one. */
module ParallelFilter {
  import opened ForIteration
  import opened FilterKernel
  import OrderedReduction
  import UnorderedReduction
  import WhileIteration

  /** For every interleaving of the iteration and every one of the ordered reduction: the filter keeps what
      the sequential filter keeps, in its order, and filter-reduce is its left fold. */
  lemma OrderedFilter<T, R>(r: Range, threads: nat, events: seq<Event>, s: System, workers: nat,
                            offers: seq<OrderedReduction.Event>, queue: OrderedReduction.Queue,
                            keep: T -> bool, items: seq<T>, reduce: (R, T) -> R, initial: R)
    requires r.maxSize >= 1 && IsRun(r, threads, events, s) && Over(s) && r.count == |items|
    requires OrderedReduction.IsRun(s.claims, workers, offers, queue)
    requires !OrderedReduction.SomeBusy(queue) && forall k | k in s.runs :: k in queue.offered
    ensures InRange(s.claims, items) && KnownOrder(s.claims, queue.log)
    ensures Reduced(keep, items, s.claims, queue.log) == Filter(keep, items)
    ensures FoldBlocks(keep, items, s.claims, queue.log, reduce, initial) == Fold(reduce, initial, Filter(keep, items))
  {
    hide IsRun, OrderedReduction.IsRun, Tiles;
    OverCovers(r, threads, events, s);
    forall k: nat | k < |s.claims| ensures k in queue.offered {
      assert k in s.runs;
    }
    OrderedReduction.ReducedInOrder(s.claims, r.count, workers, offers, queue);
    TilesConcat(keep, items, s.claims, r.count, |s.claims|);
    EndIsLimit(s.claims, r.count);
    assert items[..r.count] == items;
    FoldBlocksIs(keep, items, s.claims, queue.log, reduce, initial);
  }

  /** And with the unordered reduction: the same items, in some order. */
  lemma UnorderedFilter<T>(r: Range, threads: nat, events: seq<Event>, s: System, workers: nat,
                           offers: seq<UnorderedReduction.Event>, queue: UnorderedReduction.Queue,
                           keep: T -> bool, items: seq<T>)
    requires r.maxSize >= 1 && IsRun(r, threads, events, s) && Over(s) && r.count == |items|
    requires UnorderedReduction.IsRun(|s.claims|, workers, offers, queue)
    requires !UnorderedReduction.SomeBusy(queue) && forall k | k in s.runs :: k in queue.offered
    ensures InRange(s.claims, items) && KnownOrder(s.claims, queue.log)
    ensures multiset(Reduced(keep, items, s.claims, queue.log)) == multiset(Filter(keep, items))
  {
    hide IsRun, UnorderedReduction.IsRun, Tiles;
    OverCovers(r, threads, events, s);
    forall k: nat | k < |s.claims| ensures k in queue.offered {
      assert k in s.runs;
    }
    UnorderedReduction.ReducedOnce(|s.claims|, workers, offers, queue);
    UnorderedReduce(r, threads, events, s, keep, items, queue.log);
  }

  // ---- with one shared iterator

  /** Each element is a block of its own. */
  function Singles(end: nat): (r: seq<Block>)
    ensures |r| == end && forall k | 0 <= k < end :: r[k] == Block(k, k + 1)
  {
    seq(end, k => Block(k, k + 1))
  }

  lemma SinglesTile(end: nat)
    ensures Tiles(Singles(end), end)
  {
  }

  /** No thread is left, one was started, and none was throttled. */
  predicate AllOut(s: WhileIteration.System) {
    s.started && !s.throttled && forall i | 0 <= i < |s.threads| :: s.threads[i].Out?
  }

  /** Every block was run, so every block that was run being handed in means that all were. */
  lemma AllHandedIn(end: nat, threads: nat, events: seq<WhileIteration.Event>, s: WhileIteration.System,
                    offered: set<nat>)
    requires WhileIteration.IsRun(end, threads, events, s) && AllOut(s)
    requires forall j | 0 <= j < |s.runs| :: s.runs[j].index in offered
    ensures forall k: nat | k < end :: k in offered
  {
    hide WhileIteration.IsRun;
    WhileIteration.VisitedOnce(end, threads, events, s);
    forall k: nat | k < end ensures k in offered {
      WhileIteration.AllVisited(end, threads, events, s, k);
      var j :| 0 <= j < |s.runs| && s.runs[j].element == k;
      assert s.runs[j].index == k;
    }
  }

  /** For every interleaving of threads that share one iterator and every one of the ordered reduction: the
      sequential filter and its left fold. */
  lemma OrderedFilterWhile<T, R>(end: nat, threads: nat, events: seq<WhileIteration.Event>, s: WhileIteration.System,
                                 workers: nat, offers: seq<OrderedReduction.Event>, queue: OrderedReduction.Queue,
                                 keep: T -> bool, items: seq<T>, reduce: (R, T) -> R, initial: R)
    requires WhileIteration.IsRun(end, threads, events, s) && AllOut(s) && end == |items|
    requires OrderedReduction.IsRun(Singles(end), workers, offers, queue)
    requires !OrderedReduction.SomeBusy(queue) && forall j | 0 <= j < |s.runs| :: s.runs[j].index in queue.offered
    ensures InRange(Singles(end), items) && KnownOrder(Singles(end), queue.log)
    ensures Reduced(keep, items, Singles(end), queue.log) == Filter(keep, items)
    ensures FoldBlocks(keep, items, Singles(end), queue.log, reduce, initial)
         == Fold(reduce, initial, Filter(keep, items))
  {
    hide WhileIteration.IsRun, OrderedReduction.IsRun, Tiles;
    AllHandedIn(end, threads, events, s, queue.offered);
    SinglesTile(end);
    OrderedReduction.ReducedInOrder(Singles(end), end, workers, offers, queue);
    TilesConcat(keep, items, Singles(end), end, end);
    EndIsLimit(Singles(end), end);
    assert items[..end] == items;
    FoldBlocksIs(keep, items, Singles(end), queue.log, reduce, initial);
  }

  /** And with the unordered reduction: the same items, in some order. */
  lemma UnorderedFilterWhile<T>(end: nat, threads: nat, events: seq<WhileIteration.Event>, s: WhileIteration.System,
                                workers: nat, offers: seq<UnorderedReduction.Event>, queue: UnorderedReduction.Queue,
                                keep: T -> bool, items: seq<T>)
    requires WhileIteration.IsRun(end, threads, events, s) && AllOut(s) && end == |items|
    requires UnorderedReduction.IsRun(end, workers, offers, queue)
    requires !UnorderedReduction.SomeBusy(queue) && forall j | 0 <= j < |s.runs| :: s.runs[j].index in queue.offered
    ensures InRange(Singles(end), items) && KnownOrder(Singles(end), queue.log)
    ensures multiset(Reduced(keep, items, Singles(end), queue.log)) == multiset(Filter(keep, items))
  {
    hide WhileIteration.IsRun, UnorderedReduction.IsRun, Tiles;
    AllHandedIn(end, threads, events, s, queue.offered);
    SinglesTile(end);
    UnorderedReduction.ReducedOnce(end, workers, offers, queue);
    AnyOrderKeeps(keep, items, Singles(end), end, queue.log, end);
    EndIsLimit(Singles(end), end);
    assert items[..end] == items;
  }
}
