/** resolve_depends() and sort_depends(): the graph of dependencies is discovered depth-first, then
    ordered by taking, again and again, the node of lowest priority that waits for nothing. */
module DependsSort {
  import opened Sequences
  import opened ProTokens
  import opened VarStack

  /** What a call asks for. The dependencies of an item are the values of variables named after it. */
  datatype Question = Question(
    stack: Stack, prefix: Key, suffixes: seq<Key>, priosfx: Key, toInt: seq<Unit> -> int)

  function Combined(q: Question, item: Key, suffixes: seq<Key>): Values {
    if suffixes == [] then []
    else
      Combined(q, item, suffixes[..|suffixes| - 1]) + Meaning(q.stack, q.prefix + item + suffixes[|suffixes| - 1])
  }

  /** The nodes that a node depends on. */
  function Edges(q: Question, item: Key): Values { Combined(q, item, q.suffixes) }

  function Priority(q: Question, item: Key): int {
    var list := Meaning(q.stack, q.prefix + item + q.priosfx);
    q.toInt(if list == [] then [] else list[0])
  }

  // ---- the graph

  predicate IsPath(q: Question, p: seq<Key>) {
    |p| > 0 && forall i | 0 <= i < |p| - 1 :: p[i + 1] in Edges(q, p[i])
  }

  ghost predicate Reachable(q: Question, roots: seq<Key>, k: Key) {
    exists p :: IsPath(q, p) && p[0] in roots && p[|p| - 1] == k
  }

  /** Some path from here comes back to where it has been. */
  ghost predicate ReachesCycle(q: Question, k: Key) {
    exists p :: IsPath(q, p) && p[0] == k && !Distinct(p)
  }

  lemma ReachableStep(q: Question, roots: seq<Key>, k: Key, d: Key)
    requires Reachable(q, roots, k) && d in Edges(q, k)
    ensures Reachable(q, roots, d)
  {
    var p :| IsPath(q, p) && p[0] in roots && p[|p| - 1] == k;
    assert IsPath(q, p + [d]);
  }

  lemma ReachableRoot(q: Question, roots: seq<Key>, k: Key)
    requires k in roots
    ensures Reachable(q, roots, k)
  {
    assert IsPath(q, [k]);
  }

  /** A set that holds the roots and whatever its members depend on holds all that is reachable. */
  lemma ReachableInClosed(q: Question, roots: seq<Key>, nodes: set<Key>, k: Key)
    requires forall r | r in roots :: r in nodes
    requires forall n, d | n in nodes && d in Edges(q, n) :: d in nodes
    requires Reachable(q, roots, k)
    ensures k in nodes
  {
    var p :| IsPath(q, p) && p[0] in roots && p[|p| - 1] == k;
    for i := 0 to |p| - 1
      invariant p[i] in nodes
    {
    }
  }

  /** A set cannot hold more distinct nodes than it has. */
  lemma {:induction false} Pigeonhole(p: seq<Key>, nodes: set<Key>)
    requires Distinct(p) && forall i | 0 <= i < |p| :: p[i] in nodes
    ensures |p| <= |nodes|
    decreases |p|
  {
    if p != [] {
      var n := |p| - 1;
      forall i | 0 <= i < n ensures p[..n][i] in nodes - {p[n]} {
      }
      assert |nodes - {p[n]}| == |nodes| - 1;
      Pigeonhole(p[..n], nodes - {p[n]});
    }
  }

  predicate HasNext(q: Question, nodes: set<Key>, k: Key) { exists d :: d in Edges(q, k) && d in nodes }

  /** Each of these nodes has a dependency among `nodes`. */
  ghost predicate GoOn(q: Question, nodes: set<Key>, some: set<Key>)
    decreases |some|
  {
    some == {} || exists k :: k in some && HasNext(q, nodes, k) && GoOn(q, nodes, some - {k})
  }

  lemma {:induction false} AllGoOn(q: Question, nodes: set<Key>, some: set<Key>)
    requires forall k | k in some :: HasNext(q, nodes, k)
    ensures GoOn(q, nodes, some)
    decreases |some|
  {
    hide HasNext;
    if some != {} {
      var k :| k in some;
      AllGoOn(q, nodes, some - {k});
    }
  }

  lemma {:induction false} NextNode(q: Question, nodes: set<Key>, some: set<Key>, k: Key) returns (d: Key)
    requires GoOn(q, nodes, some) && k in some
    ensures d in Edges(q, k) && d in nodes
    decreases |some|
  {
    var m :| m in some && HasNext(q, nodes, m) && GoOn(q, nodes, some - {m});
    if m == k {
      d :| d in Edges(q, k) && d in nodes;
    } else {
      d := NextNode(q, nodes, some - {m}, k);
    }
  }

  /** Where every node has a dependency that stays inside, there are paths of any length. */
  lemma {:induction false} LongPath(q: Question, nodes: set<Key>, k: Key, n: nat) returns (p: seq<Key>)
    requires k in nodes && GoOn(q, nodes, nodes)
    ensures IsPath(q, p) && p[0] == k && |p| == n + 1
    ensures forall i | 0 <= i < |p| :: p[i] in nodes
    decreases n
  {
    hide GoOn;
    if n == 0 {
      p := [k];
    } else {
      var d := NextNode(q, nodes, nodes, k);
      var rest := LongPath(q, nodes, d, n - 1);
      p := [k] + rest;
    }
  }

  lemma StuckReachesCycle(q: Question, nodes: set<Key>, k: Key)
    requires k in nodes && GoOn(q, nodes, nodes)
    ensures ReachesCycle(q, k)
  {
    hide GoOn;
    var p := LongPath(q, nodes, k, |nodes|);
    if Distinct(p) {
      Pigeonhole(p, nodes);
    }
  }

  /** Each node comes after all it depends on. */
  predicate Settled(q: Question, done: seq<Key>) {
    forall j, d | 0 <= j < |done| && d in Edges(q, done[j]) :: d in done[..j]
  }

  lemma PathTail(q: Question, p: seq<Key>)
    requires IsPath(q, p) && |p| > 1
    ensures IsPath(q, p[1..])
  {
    forall i | 0 <= i < |p[1..]| - 1 ensures p[1..][i + 1] in Edges(q, p[1..][i]) {
      assert p[1..][i + 1] == p[i + 2] && p[1..][i] == p[i + 1];
    }
  }

  /** A path goes down through the settled nodes: at position `i` it is at `at[i]` among them. */
  lemma {:induction false} SettledPath(q: Question, done: seq<Key>, p: seq<Key>, j: nat) returns (at: seq<nat>)
    requires Settled(q, done) && IsPath(q, p) && j < |done| && done[j] == p[0]
    ensures |at| == |p| && at[0] == j
    ensures forall i | 0 <= i < |p| :: at[i] < |done| && done[at[i]] == p[i]
    ensures forall i, m | 0 <= i < m < |p| :: at[m] < at[i]
    decreases |p|
  {
    if |p| == 1 {
      at := [j];
    } else {
      assert p[1] in done[..j];
      var m :| 0 <= m < j && done[m] == p[1];
      PathTail(q, p);
      var rest := SettledPath(q, done, p[1..], m);
      at := [j] + rest;
      forall i | 0 <= i < |p| ensures at[i] < |done| && done[at[i]] == p[i] {
        if i > 0 {
          assert p[1..][i - 1] == p[i];
        }
      }
    }
  }

  lemma SettledNoCycle(q: Question, done: seq<Key>, k: Key)
    requires Settled(q, done) && Distinct(done) && k in done
    ensures !ReachesCycle(q, k)
  {
    var j :| 0 <= j < |done| && done[j] == k;
    forall p | IsPath(q, p) && p[0] == k ensures Distinct(p) {
      var at := SettledPath(q, done, p, j);
      forall i, m | 0 <= i < m < |p| ensures p[i] != p[m] {
        assert at[m] < at[i] && done[at[m]] == p[m] && done[at[i]] == p[i];
      }
    }
  }

  // ---- the nodes are finitely many

  function ValueSet(st: Stack): set<Key> {
    set i, key, j | 0 <= i < |st| && key in st[i] && st[i][key].Val? && 0 <= j < |st[i][key].list| :: st[i][key].list[j]
  }

  lemma MeaningInValueSet(st: Stack, key: Key)
    ensures forall v | v in Meaning(st, key) :: v in ValueSet(st)
  {
    var i := Found(st, key);
    if i >= 0 {
      forall v | v in Meaning(st, key) ensures v in ValueSet(st) {
        var j :| 0 <= j < |st[i][key].list| && st[i][key].list[j] == v;
      }
    }
  }

  lemma {:induction false} CombinedInValueSet(q: Question, item: Key, suffixes: seq<Key>)
    ensures forall d | d in Combined(q, item, suffixes) :: d in ValueSet(q.stack)
    decreases |suffixes|
  {
    if suffixes != [] {
      CombinedInValueSet(q, item, suffixes[..|suffixes| - 1]);
      MeaningInValueSet(q.stack, q.prefix + item + suffixes[|suffixes| - 1]);
    }
  }

  function Universe(q: Question, roots: seq<Key>): set<Key> { ValueSet(q.stack) + set r | r in roots }

  // ---- the nodes that wait for nothing, lowest priority first

  datatype Ready = Ready(priority: int, item: Key)

  /** Insert in front of all entries of the same or a higher priority. */
  function Insert(list: seq<Ready>, e: Ready): (r: seq<Ready>)
    ensures |r| == |list| + 1
    ensures multiset(r) == multiset(list) + multiset{e}
  {
    if list == [] || e.priority <= list[0].priority then [e] + list
    else
      assert list == [list[0]] + list[1..];
      [list[0]] + Insert(list[1..], e)
  }

  predicate ByPriority(list: seq<Ready>) {
    forall i, j | 0 <= i < j < |list| :: list[i].priority <= list[j].priority
  }

  lemma {:induction false} InsertAscending(list: seq<Ready>, e: Ready)
    requires ByPriority(list)
    ensures ByPriority(Insert(list, e))
    decreases |list|
  {
    if list != [] && list[0].priority < e.priority {
      InsertAscending(list[1..], e);
      var r := Insert(list[1..], e);
      forall j | 0 <= j < |r| ensures list[0].priority <= r[j].priority {
        assert r[j] in multiset(r);
        assert r[j] in list[1..] || r[j] == e;
      }
    }
  }

  // ---- the order

  /** `k` waits for nothing once `done` is done. */
  predicate IsFree(q: Question, done: seq<Key>, k: Key) { forall d | d in Edges(q, k) :: d in done }

  /** Each node was taken when it was free, and none of lower priority was free then. */
  ghost predicate TakenLowest(q: Question, roots: seq<Key>, done: seq<Key>) {
    forall i, k | 0 <= i < |done| && Reachable(q, roots, k) && k !in done[..i] && IsFree(q, done[..i], k) ::
      Priority(q, done[i]) <= Priority(q, k)
  }

  /** The nodes in the opposite order; only those of `list` unless all are asked for. */
  function Kept(done: seq<Key>, list: seq<Key>, all: bool): (r: seq<Key>)
    ensures forall k :: k in r <==> k in done && (all || k in list)
  {
    if done == [] then []
    else
      var n := |done| - 1;
      (if all || done[n] in list then [done[n]] else []) + Kept(done[..n], list, all)
  }

  /** All that a node depends on comes up behind it, as far as it is asked for. */
  predicate Follows(q: Question, r: seq<Key>, list: seq<Key>, all: bool) {
    forall i | 0 <= i < |r| :: forall d | d in Edges(q, r[i]) && (all || d in list) :: d in r[i + 1..]
  }

  lemma {:induction false} KeptFollows(q: Question, done: seq<Key>, list: seq<Key>, all: bool)
    requires Settled(q, done)
    ensures Follows(q, Kept(done, list, all), list, all)
    decreases |done|
  {
    hide Edges;
    if done != [] {
      var n := |done| - 1;
      var u := done[..n];
      forall j, d | 0 <= j < n && d in Edges(q, u[j]) ensures d in u[..j] {
        assert u[j] == done[j] && u[..j] == done[..j];
      }
      KeptFollows(q, u, list, all);
      FollowsMore(q, done[n], Kept(u, list, all), list, all) by {
        forall d | d in Edges(q, done[n]) && (all || d in list) ensures d in Kept(u, list, all) {
          assert d in done[..n];
        }
      }
    }
  }

  lemma FollowsMore(q: Question, k: Key, r: seq<Key>, list: seq<Key>, all: bool)
    requires Follows(q, r, list, all) && forall d | d in Edges(q, k) && (all || d in list) :: d in r
    ensures Follows(q, [k] + r, list, all) && [] + r == r
  {
    hide Edges;
    var s := [k] + r;
    forall i | 0 <= i < |s| ensures forall d | d in Edges(q, s[i]) && (all || d in list) :: d in s[i + 1..] {
      if i == 0 {
        assert s[1..] == r;
      } else {
        assert s[i] == r[i - 1] && s[i + 1..] == r[i - 1 + 1..];
      }
    }
  }

  lemma {:induction false} KeptOrder(q: Question, done: seq<Key>, list: seq<Key>, all: bool)
    requires Settled(q, done) && Distinct(done)
    ensures var r := Kept(done, list, all);
      Distinct(r) && forall i, j | 0 <= i < |r| && 0 <= j < |r| && r[j] in Edges(q, r[i]) :: i < j
    decreases |done|
  {
    hide Edges;
    if done != [] {
      var n := |done| - 1;
      var u, k := done[..n], done[n];
      forall j, d | 0 <= j < n && d in Edges(q, u[j]) ensures d in u[..j] {
        assert u[j] == done[j] && u[..j] == done[..j];
      }
      KeptOrder(q, u, list, all);
      var r, t := Kept(done, list, all), Kept(u, list, all);
      if r != t {
        assert r == [k] + t;
        forall j | 0 <= j < |t| ensures t[j] != k {
          assert t[j] in u;
        }
        forall i, j | 0 <= i < |r| && 0 <= j < |r| && r[j] in Edges(q, r[i]) ensures i < j {
          if i == 0 {
            assert r[j] in done[..n];
          } else {
            FreeOf(q, done, n, r[i]);
          }
        }
      }
    }
  }

  /** No node settled before `done[n]` depends on it. */
  lemma FreeOf(q: Question, done: seq<Key>, n: nat, k: Key)
    requires Settled(q, done) && Distinct(done) && n < |done| && k in done[..n]
    ensures done[n] !in Edges(q, k)
  {
    var j :| 0 <= j < n && done[..n][j] == k;
    assert done[j] == k;
    forall d | d in Edges(q, k) ensures d != done[n] {
      assert d in done[..j];
      var m :| 0 <= m < j && done[..j][m] == d;
      assert done[m] == d;
    }
  }

  function SetOf(s: seq<Key>): set<Key> { set k | k in s }

  function Dependees(m: map<Key, seq<Key>>, k: Key): seq<Key> { if k in m then m[k] else [] }

  function ReadyFor(q: Question, k: Key): Ready { Ready(Priority(q, k), k) }

  /** `list` holds each node of `free`, once, in the order of priority. */
  ghost predicate Roots(q: Question, list: seq<Ready>, free: set<Key>) {
    && ByPriority(list)
    && forall e :: multiset(list)[e] == if e.item in free && e == ReadyFor(q, e.item) then 1 else 0
  }

  lemma RootsInsert(q: Question, list: seq<Ready>, free: set<Key>, k: Key)
    requires Roots(q, list, free) && k !in free
    ensures Roots(q, Insert(list, ReadyFor(q, k)), free + {k})
  {
    hide Insert;
    InsertAscending(list, ReadyFor(q, k));
  }

  lemma RootsTail(q: Question, list: seq<Ready>, free: set<Key>)
    requires Roots(q, list, free) && list != []
    ensures list[0].item in free && Roots(q, list[1..], free - {list[0].item})
    ensures forall k | k in free :: Priority(q, list[0].item) <= Priority(q, k)
  {
    var e, t := list[0], list[1..];
    assert list == [e] + t;
    assert multiset(list)[e] > 0;
    forall k | k in free ensures Priority(q, e.item) <= Priority(q, k) {
      assert multiset(list)[ReadyFor(q, k)] > 0;
      var j :| 0 <= j < |list| && list[j] == ReadyFor(q, k);
    }
  }

  /** The known nodes that wait for nothing and are not done. */
  function Free(q: Question, keys: set<Key>, done: seq<Key>): set<Key> {
    set k | k in keys && k !in done && IsFree(q, done, k)
  }

  /** Who waits for whom, from the other end; as often as the dependency is listed. */
  ghost predicate Edged(q: Question, keys: set<Key>, m: map<Key, seq<Key>>) {
    forall d, k :: multiset(Dependees(m, d))[k] == if k in keys then multiset(Edges(q, k))[d] else 0
  }

  /** `item` has come to be listed as a dependee, as often as each dependency is in `deps`. */
  ghost predicate Listed(m: map<Key, seq<Key>>, n: map<Key, seq<Key>>, item: Key, deps: multiset<Key>) {
    forall d, k :: multiset(Dependees(n, d))[k] == multiset(Dependees(m, d))[k] + if k == item then deps[d] else 0
  }

  lemma ListedNothing(m: map<Key, seq<Key>>, item: Key)
    ensures Listed(m, m, item, multiset([]))
  {
  }

  lemma ListedMore(m: map<Key, seq<Key>>, n: map<Key, seq<Key>>, item: Key, deps: multiset<Key>, dep: Key)
    requires Listed(m, n, item, deps)
    ensures Listed(m, n[dep := Dependees(n, dep) + [item]], item, deps + multiset{dep})
  {
  }

  lemma EdgedGrows(q: Question, keys: set<Key>, m: map<Key, seq<Key>>, item: Key, n: map<Key, seq<Key>>)
    requires Edged(q, keys, m) && item !in keys
    requires Listed(m, n, item, multiset(Edges(q, item)))
    ensures Edged(q, keys + {item}, n)
  {
    hide Edges;
  }

  lemma EdgedIn(q: Question, keys: set<Key>, m: map<Key, seq<Key>>, d: Key)
    requires Edged(q, keys, m)
    ensures forall k :: k in Dependees(m, d) <==> k in keys && d in Edges(q, k)
  {
    hide Edges;
    forall k ensures k in Dependees(m, d) <==> k in keys && d in Edges(q, k) {
      assert k in Dependees(m, d) <==> multiset(Dependees(m, d))[k] > 0;
      assert d in Edges(q, k) <==> multiset(Edges(q, k))[d] > 0;
    }
  }

  lemma {:induction false} DistinctCounts<T>(s: seq<T>)
    ensures Distinct(s) <==> forall x :: multiset(s)[x] <= 1
    decreases |s|
  {
    if s != [] {
      var n := |s| - 1;
      DistinctCounts(s[..n]);
      assert s == s[..n] + [s[n]];
      if Distinct(s) {
        assert s[n] !in s[..n];
      } else if Distinct(s[..n]) {
        var i, j :| 0 <= i < j < |s| && s[i] == s[j];
        assert j == n && s[i] in s[..n];
        assert multiset(s)[s[n]] >= 2;
      } else {
        var x :| multiset(s[..n])[x] > 1;
        assert multiset(s)[x] > 1;
      }
    }
  }

  ghost predicate Counted(q: Question, dependencies: map<Key, set<Key>>, done: seq<Key>) {
    forall k | k in dependencies :: dependencies[k] == SetOf(Edges(q, k)) - SetOf(done)
  }

  lemma FreeGrows(q: Question, keys: set<Key>, item: Key)
    requires item !in keys
    ensures Free(q, keys + {item}, []) == Free(q, keys, []) + if Edges(q, item) == [] then {item} else {}
  {
    hide Edges;
    if Edges(q, item) != [] {
      assert Edges(q, item)[0] in Edges(q, item);
    }
  }

  lemma EmptyIsFree(q: Question, now: seq<Key>, k: Key)
    ensures SetOf(Edges(q, k)) - SetOf(now) == {} <==> IsFree(q, now, k)
  {
    if SetOf(Edges(q, k)) - SetOf(now) == {} {
      forall d | d in Edges(q, k) ensures d in now {
        assert d in SetOf(Edges(q, k)) && d !in SetOf(Edges(q, k)) - SetOf(now);
      }
    }
  }

  /** Of the nodes in `list`, those that are free now. */
  function Freed(q: Question, list: seq<Key>, now: seq<Key>): set<Key> { set k | k in list && IsFree(q, now, k) }

  /** What is free once `item` is done was free before or waited for it. */
  lemma FreeAfter(q: Question, keys: set<Key>, m: map<Key, seq<Key>>, done: seq<Key>, item: Key)
    requires Edged(q, keys, m) && item !in done && IsFree(q, done, item)
    requires forall k | k in done :: IsFree(q, done, k)
    ensures Free(q, keys, done + [item])
         == Free(q, keys, done) - {item} + Freed(q, Dependees(m, item), done + [item])
    ensures forall k | k in keys && k !in Dependees(m, item) ::
      SetOf(Edges(q, k)) - SetOf(done + [item]) == SetOf(Edges(q, k)) - SetOf(done)
    ensures forall k | k in Dependees(m, item) :: k in keys && k !in Free(q, keys, done)
  {
    hide Edges;
    EdgedIn(q, keys, m, item);
    var now := done + [item];
    forall k | k in keys && k !in Dependees(m, item)
      ensures IsFree(q, now, k) <==> IsFree(q, done, k)
      ensures SetOf(Edges(q, k)) - SetOf(now) == SetOf(Edges(q, k)) - SetOf(done)
    {
      assert item !in Edges(q, k);
    }
    forall k | k in Dependees(m, item) ensures k in keys && k !in now && !IsFree(q, done, k) {
      assert item in Edges(q, k);
    }
  }

  lemma FreeInKeys(q: Question, keys: set<Key>, k: Key)
    requires k !in keys
    ensures k !in Free(q, keys, [])
  {
  }

  /** The nodes that have become known since `before` have all their dependencies known. */
  ghost predicate Closed(q: Question, before: set<Key>, keys: set<Key>) {
    forall k, d | k in keys && k !in before && d in Edges(q, k) :: d in keys
  }

  lemma ClosedTrans(q: Question, a: set<Key>, b: set<Key>, c: set<Key>)
    requires Closed(q, a, b) && Closed(q, b, c) && b <= c
    ensures Closed(q, a, c)
  {
    hide Edges;
  }

  lemma NothingNew(q: Question, keys: set<Key>)
    ensures Closed(q, keys, keys)
  {
  }

  ghost predicate Known(q: Question, roots: seq<Key>, keys: set<Key>) {
    forall k | k in keys :: Reachable(q, roots, k)
  }

  // ---- releasing

  datatype Tables = Tables(dependencies: map<Key, set<Key>>, rootSet: seq<Ready>)

  function ReleasedOne(q: Question, t: Tables, item: Key, dep: Key): Tables
    requires dep in t.dependencies
  {
    var left := t.dependencies[dep] - {item};
    Tables(t.dependencies[dep := left], if left == {} then Insert(t.rootSet, ReadyFor(q, dep)) else t.rootSet)
  }

  /** The nodes in `list`, one after the other, wait no longer for `item`. */
  function Released(q: Question, t: Tables, item: Key, list: seq<Key>): (r: Tables)
    requires forall k | k in list :: k in t.dependencies
    ensures r.dependencies.Keys == t.dependencies.Keys
  {
    if list == [] then t
    else ReleasedOne(q, Released(q, t, item, list[..|list| - 1]), item, list[|list| - 1])
  }

  /** How often `e` is queued. */
  function Queued(q: Question, t: Tables, item: Key, list: seq<Key>, e: Ready): nat
    requires forall k | k in list :: k in t.dependencies
  {
    if e.item in list && e == ReadyFor(q, e.item) && t.dependencies[e.item] - {item} == {} then multiset(list)[e.item]
    else 0
  }

  lemma {:induction false} ReleasedDependencies(q: Question, t: Tables, item: Key, list: seq<Key>)
    requires forall k | k in list :: k in t.dependencies
    ensures var r := Released(q, t, item, list);
      forall k | k in t.dependencies ::
        r.dependencies[k] == if k in list then t.dependencies[k] - {item} else t.dependencies[k]
    decreases |list|
  {
    hide Insert, ReadyFor;
    if list != [] {
      var n := |list| - 1;
      ReleasedDependencies(q, t, item, list[..n]);
      assert list == list[..n] + [list[n]];
    }
  }

  lemma QueuedMore(q: Question, t: Tables, item: Key, list: seq<Key>, k: Key, e: Ready)
    requires (forall d | d in list :: d in t.dependencies) && k in t.dependencies
    ensures Queued(q, t, item, list + [k], e) == Queued(q, t, item, list, e)
      + if e == ReadyFor(q, k) && t.dependencies[k] - {item} == {} then 1 else 0
  {
    hide Priority;
  }

  lemma {:induction false} ReleasedSorted(q: Question, t: Tables, item: Key, list: seq<Key>)
    requires (forall k | k in list :: k in t.dependencies) && ByPriority(t.rootSet)
    ensures ByPriority(Released(q, t, item, list).rootSet)
    decreases |list|
  {
    hide Insert, ByPriority, ReadyFor;
    if list != [] {
      var before, k := Released(q, t, item, list[..|list| - 1]), list[|list| - 1];
      ReleasedSorted(q, t, item, list[..|list| - 1]);
      InsertAscending(before.rootSet, ReadyFor(q, k));
    }
  }

  /** A node is queued as often as it lists the item that is done, if it waits for nothing else; otherwise not
      at all. */
  lemma {:induction false} ReleasedQueues(q: Question, t: Tables, item: Key, list: seq<Key>, e: Ready)
    requires forall k | k in list :: k in t.dependencies
    ensures multiset(Released(q, t, item, list).rootSet)[e] == multiset(t.rootSet)[e] + Queued(q, t, item, list, e)
    decreases |list|
  {
    hide Insert, Queued, ReadyFor;
    if list == [] {
      QueuedNone(q, t, item);
    } else {
      var n := |list| - 1;
      var k := list[n];
      ReleasedQueues(q, t, item, list[..n], e);
      ReleasedDependencies(q, t, item, list[..n]);
      assert list == list[..n] + [k];
      assert t.dependencies[k] - {item} - {item} == t.dependencies[k] - {item};
      QueuedMore(q, t, item, list[..n], k, e);
    }
  }

  lemma QueuedNone(q: Question, t: Tables, item: Key)
    ensures forall e :: Queued(q, t, item, [], e) == 0
  {
  }

  /** Where no node that waited for it alone waits twice: the first of the free nodes is done, and what waited for it
      alone is free. */
  lemma ReleasedValid(q: Question, t: Tables, m: map<Key, seq<Key>>, done: seq<Key>, item: Key)
    requires Counted(q, t.dependencies, done) && Edged(q, t.dependencies.Keys, m)
    requires forall k | k in Dependees(m, item) && IsFree(q, done + [item], k) :: multiset(Dependees(m, item))[k] == 1
    requires item !in done && IsFree(q, done, item) && forall k | k in done :: IsFree(q, done, k)
    requires Roots(q, t.rootSet, Free(q, t.dependencies.Keys, done) - {item})
    ensures forall k | k in Dependees(m, item) :: k in t.dependencies
    ensures var r := Released(q, t, item, Dependees(m, item));
      && Counted(q, r.dependencies, done + [item])
      && Roots(q, r.rootSet, Free(q, t.dependencies.Keys, done + [item]))
  {
    hide Edges, Free, IsFree, Insert, Released;
    var keys, list, now := t.dependencies.Keys, Dependees(m, item), done + [item];
    EdgedIn(q, keys, m, item);
    FreeAfter(q, keys, m, done, item);
    ReleasedDependencies(q, t, item, list);
    ReleasedSorted(q, t, item, list);
    forall e ensures multiset(Released(q, t, item, list).rootSet)[e]
        == multiset(t.rootSet)[e] + Queued(q, t, item, list, e)
    {
      ReleasedQueues(q, t, item, list, e);
    }
    forall k | k in list ensures t.dependencies[k] - {item} == SetOf(Edges(q, k)) - SetOf(now) {
    }
    forall k | k in list ensures t.dependencies[k] - {item} == {} <==> IsFree(q, now, k) {
      EmptyIsFree(q, now, k);
    }
  }

  // ---- the loop, on any graph

  datatype Progress = Progress(tables: Tables, ret: seq<Key>)

  ghost predicate Linked(m: map<Key, seq<Key>>, keys: set<Key>) { forall d, k | k in Dependees(m, d) :: k in keys }

  /** Take the first of the queued nodes. */
  ghost function TakeOne(q: Question, m: map<Key, seq<Key>>, p: Progress, list: seq<Key>, all: bool): (r: Progress)
    requires Linked(m, p.tables.dependencies.Keys) && p.tables.rootSet != []
    ensures r.tables.dependencies.Keys == p.tables.dependencies.Keys
  {
    var item := p.tables.rootSet[0].item;
    var tables := p.tables.(rootSet := p.tables.rootSet[1..]);
    Progress(Released(q, tables, item, Dependees(m, item)), (if all || item in list then [item] else []) + p.ret)
  }

  ghost function Took(q: Question, m: map<Key, seq<Key>>, start: Tables, list: seq<Key>, all: bool, rounds: nat)
    : (r: Progress)
    requires Linked(m, start.dependencies.Keys)
    ensures r.tables.dependencies.Keys == start.dependencies.Keys
  {
    if rounds == 0 then Progress(start, [])
    else
      var p := Took(q, m, start, list, all, rounds - 1);
      if p.tables.rootSet == [] then p else TakeOne(q, m, p, list, all)
  }

  // ---- with repeated dependencies

  /** `list` holds only nodes that are free or done, and each free node at least once, in the order of priority. */
  ghost predicate Queue(q: Question, list: seq<Ready>, keys: set<Key>, done: seq<Key>) {
    && ByPriority(list)
    && (forall e | e in list :: e == ReadyFor(q, e.item) && e.item in keys && IsFree(q, done, e.item))
    && (forall k | k in Free(q, keys, done) :: ReadyFor(q, k) in list)
  }

  lemma RootsQueue(q: Question, list: seq<Ready>, keys: set<Key>, done: seq<Key>)
    requires Roots(q, list, Free(q, keys, done))
    ensures Queue(q, list, keys, done)
  {
    hide IsFree;
    forall e | e in list ensures e == ReadyFor(q, e.item) && e.item in keys && IsFree(q, done, e.item) {
      assert multiset(list)[e] > 0;
      assert e.item in Free(q, keys, done);
    }
    forall k | k in Free(q, keys, done) ensures ReadyFor(q, k) in list {
      assert multiset(list)[ReadyFor(q, k)] == 1;
      assert ReadyFor(q, k) in multiset(list);
    }
  }

  /** The first entry has the lowest priority of all that is free. */
  lemma QueueFirst(q: Question, list: seq<Ready>, keys: set<Key>, done: seq<Key>)
    requires Queue(q, list, keys, done) && list != []
    ensures list[0].item in keys && IsFree(q, done, list[0].item)
    ensures list[0].item !in done ==> list[0].item in Free(q, keys, done)
    ensures forall k | k in Free(q, keys, done) :: Priority(q, list[0].item) <= Priority(q, k)
  {
    hide IsFree;
    assert list[0] in list;
    forall k | k in Free(q, keys, done) ensures Priority(q, list[0].item) <= Priority(q, k) {
      var j :| 0 <= j < |list| && list[j] == ReadyFor(q, k);
    }
  }

  /** What is done when `item` has been taken, perhaps again. */
  function DoneWith(done: seq<Key>, item: Key): seq<Key> { if item in done then done else done + [item] }

  lemma FreeStays(q: Question, done: seq<Key>, item: Key, k: Key)
    requires IsFree(q, done, k)
    ensures IsFree(q, DoneWith(done, item), k)
  {
    hide Edges;
  }

  /** Taking a node keeps the tables right, whether it was done before or not. */
  lemma ReleasedQueue(q: Question, t: Tables, m: map<Key, seq<Key>>, done: seq<Key>, item: Key)
    requires Counted(q, t.dependencies, done) && Edged(q, t.dependencies.Keys, m)
    requires ByPriority(t.rootSet)
    requires forall e | e in t.rootSet ::
      e == ReadyFor(q, e.item) && e.item in t.dependencies && IsFree(q, done, e.item)
    requires forall k | k in Free(q, t.dependencies.Keys, done) && k != item :: ReadyFor(q, k) in t.rootSet
    ensures forall k | k in Dependees(m, item) :: k in t.dependencies
    ensures var r, now := Released(q, t, item, Dependees(m, item)), DoneWith(done, item);
      Counted(q, r.dependencies, now) && Queue(q, r.rootSet, t.dependencies.Keys, now)
  {
    hide Edges, Released, Edged, Priority;
    var keys, list, now := t.dependencies.Keys, Dependees(m, item), DoneWith(done, item);
    EdgedIn(q, keys, m, item);
    var r := Released(q, t, item, list);
    ReleasedDependencies(q, t, item, list);
    ReleasedSorted(q, t, item, list);
    forall k | k in keys ensures r.dependencies[k] == SetOf(Edges(q, k)) - SetOf(now) {
      assert k in list <==> item in Edges(q, k);
    }
    forall e | e in r.rootSet ensures e == ReadyFor(q, e.item) && e.item in keys && IsFree(q, now, e.item) {
      EntryFrom(q, t, item, list, e);
      if e in t.rootSet {
        FreeStays(q, done, item, e.item);
      } else {
        EmptyIsFree(q, now, e.item);
      }
    }
    forall k | k in Free(q, keys, now) ensures ReadyFor(q, k) in r.rootSet {
      FreeFrom(q, keys, done, item, k);
      EmptyIsFree(q, now, k);
      EntryStays(q, t, item, list, ReadyFor(q, k));
    }
  }

  lemma EntryFrom(q: Question, t: Tables, item: Key, list: seq<Key>, e: Ready)
    requires (forall k | k in list :: k in t.dependencies) && e in Released(q, t, item, list).rootSet
    ensures e in t.rootSet ||
      (e == ReadyFor(q, e.item) && e.item in list && t.dependencies[e.item] - {item} == {})
  {
    hide Released, Priority;
    assert e in multiset(Released(q, t, item, list).rootSet);
    ReleasedQueues(q, t, item, list, e);
    assert e in t.rootSet <==> e in multiset(t.rootSet);
  }

  lemma EntryStays(q: Question, t: Tables, item: Key, list: seq<Key>, e: Ready)
    requires forall k | k in list :: k in t.dependencies
    requires e in t.rootSet ||
      (e == ReadyFor(q, e.item) && e.item in list && t.dependencies[e.item] - {item} == {})
    ensures e in Released(q, t, item, list).rootSet
  {
    hide Released, Priority;
    ReleasedQueues(q, t, item, list, e);
    assert e in t.rootSet <==> e in multiset(t.rootSet);
    assert e.item in list <==> e.item in multiset(list);
    assert e in multiset(Released(q, t, item, list).rootSet);
  }

  /** What is free now was free before or waited for the item alone. */
  lemma FreeFrom(q: Question, keys: set<Key>, done: seq<Key>, item: Key, k: Key)
    requires k in Free(q, keys, DoneWith(done, item))
    ensures (k in Free(q, keys, done) && k != item) || (k in keys && item in Edges(q, k))
    ensures IsFree(q, DoneWith(done, item), k)
  {
    hide Edges;
    if item !in Edges(q, k) {
      assert IsFree(q, done, k);
    }
  }

  // ---- an end to it

  ghost function Power(c: nat, n: nat): (r: nat)
    ensures c > 0 ==> r > 0
  {
    if n == 0 then 1 else MulPositive(c, Power(c, n - 1)); c * Power(c, n - 1)
  }

  lemma MulPositive(a: nat, b: nat)
    ensures a > 0 && b > 0 ==> a * b > 0
  {
  }

  lemma {:induction false} PowerGrows(c: nat, a: nat, b: nat)
    requires c > 0 && a <= b
    ensures Power(c, a) <= Power(c, b)
    decreases b
  {
    if a < b {
      PowerGrows(c, a, b - 1);
      MulLeast(c, Power(c, b - 1));
    }
  }

  lemma MulLeast(c: nat, x: nat)
    requires c > 0
    ensures x <= c * x
  {
  }

  /** The place of a node in the order; the nodes that are not done come last. */
  function Rank(done: seq<Key>, k: Key): (r: nat)
    ensures r <= |done| && (r < |done| ==> done[r] == k) && (r < |done| <==> k in done) && k !in done[..r]
  {
    if done == [] then 0
    else
      var r := Rank(done[..|done| - 1], k);
      if r < |done| - 1 || done[|done| - 1] == k then
        assert done[..|done| - 1][..r] == done[..r];
        r
      else |done|
  }

  /** An entry weighs more than any number below `c` of entries that come later in the order. */
  ghost function Weight(c: nat, n: nat, done: seq<Key>, list: seq<Ready>): nat
    requires |done| <= n
  {
    if list == [] then 0 else Power(c, n - Rank(done, list[0].item)) + Weight(c, n, done, list[1..])
  }

  lemma WeightHead(c: nat, n: nat, done: seq<Key>, list: seq<Ready>)
    requires |done| <= n && list != []
    ensures Weight(c, n, done, list) == Power(c, n - Rank(done, list[0].item)) + Weight(c, n, done, list[1..])
  {
  }

  lemma {:induction false} WeightInsert(c: nat, n: nat, done: seq<Key>, list: seq<Ready>, e: Ready)
    requires |done| <= n
    ensures Weight(c, n, done, Insert(list, e)) == Weight(c, n, done, list) + Power(c, n - Rank(done, e.item))
    decreases |list|
  {
    hide Power, Rank;
    if list == [] || e.priority <= list[0].priority {
      assert ([e] + list)[1..] == list;
    } else {
      WeightInsert(c, n, done, list[1..], e);
      assert ([list[0]] + Insert(list[1..], e))[1..] == Insert(list[1..], e);
    }
  }

  lemma MulNext(a: nat, x: nat)
    ensures (a + 1) * x == a * x + x
  {
  }

  lemma {:induction false} WeightReleased(q: Question, c: nat, n: nat, done: seq<Key>, t: Tables, item: Key,
                                          list: seq<Key>, most: nat)
    requires (forall k | k in list :: k in t.dependencies) && |done| <= n
    requires forall k | k in list :: Power(c, n - Rank(done, k)) <= most
    ensures Weight(c, n, done, Released(q, t, item, list).rootSet) <= Weight(c, n, done, t.rootSet) + |list| * most
    decreases |list|
  {
    hide Power, Rank, Insert, Weight;
    if list != [] {
      var m := |list| - 1;
      WeightReleased(q, c, n, done, t, item, list[..m], most);
      WeightInsert(c, n, done, Released(q, t, item, list[..m]).rootSet, ReadyFor(q, list[m]));
      assert list[m] in list;
      MulNext(m, most);
    }
  }

  lemma RankLeast(done: seq<Key>, k: Key, n: nat)
    requires n <= |done| && k in done[..n]
    ensures Rank(done, k) < n
  {
    var r := Rank(done, k);
    var j :| 0 <= j < n && done[j] == k;
    assert forall i | 0 <= i < r :: done[..r][i] == done[i];
  }

  /** A node comes behind all that it depends on. */
  lemma RankAfter(q: Question, done: seq<Key>, item: Key, k: Key)
    requires Settled(q, done) && item in done && item in Edges(q, k)
    ensures Rank(done, item) < Rank(done, k)
  {
    hide Edges;
    var r := Rank(done, k);
    if r < |done| {
      RankLeast(done, item, r);
    }
  }

  /** Taking a node once more makes the queue lighter. */
  lemma TakenAgain(q: Question, c: nat, n: nat, done: seq<Key>, t: Tables, m: map<Key, seq<Key>>, item: Key)
    requires |done| <= n && Settled(q, done) && item in done && Edged(q, t.dependencies.Keys, m)
    requires |Dependees(m, item)| < c
    ensures forall k | k in Dependees(m, item) :: k in t.dependencies
    ensures Weight(c, n, done, Released(q, t, item, Dependees(m, item)).rootSet)
          < Weight(c, n, done, t.rootSet) + Power(c, n - Rank(done, item))
  {
    hide Edges, Edged, Weight, Released, Settled, Rank;
    var list, rank := Dependees(m, item), Rank(done, item);
    EdgedIn(q, t.dependencies.Keys, m, item);
    RankOf(done, item);
    var most := Power(c, n - rank - 1);
    forall k | k in list ensures Power(c, n - Rank(done, k)) <= most {
      RankAfter(q, done, item, k);
      RankOf(done, k);
      PowerGrows(c, n - Rank(done, k), n - rank - 1);
    }
    WeightReleased(q, c, n, done, t, item, list, most);
    assert Power(c, n - rank) == c * most;
    MulLess(|list|, c, most);
  }

  lemma RankOf(done: seq<Key>, k: Key)
    ensures Rank(done, k) <= |done| && (k in done ==> Rank(done, k) < |done|)
  {
  }

  lemma MulLess(a: nat, b: nat, x: nat)
    requires a < b && x > 0
    ensures a * x < b * x
  {
  }

  /** How many nodes at most list the same dependency. */
  ghost function Most(m: map<Key, seq<Key>>): (r: nat)
    ensures forall d :: |Dependees(m, d)| <= r
    decreases |m|
  {
    if m == map[] then 0
    else
      var k :| k in m;
      var rest := m - {k};
      var r := Most(rest);
      assert forall d | d != k :: Dependees(m, d) == Dependees(rest, d);
      if |m[k]| > r then |m[k]| else r
  }

  lemma TookNothing(q: Question, m: map<Key, seq<Key>>, start: Tables, list: seq<Key>, all: bool)
    requires Linked(m, start.dependencies.Keys)
    ensures Took(q, m, start, list, all, 0) == Progress(start, [])
  {
  }

  lemma TookNext(q: Question, m: map<Key, seq<Key>>, start: Tables, list: seq<Key>, all: bool, rounds: nat)
    requires Linked(m, start.dependencies.Keys) && Took(q, m, start, list, all, rounds).tables.rootSet != []
    ensures Took(q, m, start, list, all, rounds + 1) == TakeOne(q, m, Took(q, m, start, list, all, rounds), list, all)
  {
  }

  /** Nothing more is taken once nothing is queued. */
  lemma {:induction false} TookOver(q: Question, m: map<Key, seq<Key>>, start: Tables, list: seq<Key>, all: bool,
                                    a: nat, b: nat)
    requires Linked(m, start.dependencies.Keys) && a <= b && Took(q, m, start, list, all, a).tables.rootSet == []
    ensures Took(q, m, start, list, all, b) == Took(q, m, start, list, all, a)
    decreases b
  {
    if a < b {
      TookOver(q, m, start, list, all, a, b - 1);
    }
  }

  /** What is known of the graph before the first node is taken. */
  ghost predicate Discovered(q: Question, roots: seq<Key>, m: map<Key, seq<Key>>, t: Tables) {
    && (forall k :: k in t.dependencies <==> Reachable(q, roots, k))
    && Linked(m, t.dependencies.Keys) && Edged(q, t.dependencies.Keys, m)
    && Counted(q, t.dependencies, []) && Roots(q, t.rootSet, Free(q, t.dependencies.Keys, []))
  }

  lemma EdgedLinked(q: Question, keys: set<Key>, m: map<Key, seq<Key>>)
    requires Edged(q, keys, m)
    ensures Linked(m, keys)
  {
    hide Edges;
    forall d, k | k in Dependees(m, d) ensures k in keys {
      EdgedIn(q, keys, m, d);
    }
  }

  const A: Key := [97]
  const B: Key := [98]
  const SUFFIX: Key := [46, 100]

  /** `A` lists `B` twice as what it depends on. */
  function ListedTwice(priosfx: Key, toInt: seq<Unit> -> int): Question {
    Question([map[A + SUFFIX := Val([B, B])]], [], [SUFFIX], priosfx, toInt)
  }

  lemma ListedTwiceEdges(q: Question)
    requires q == ListedTwice(q.priosfx, q.toInt)
    ensures Edges(q, A) == [B, B] && Edges(q, B) == []
  {
    assert [SUFFIX][..0] == [];
    assert [] + A + SUFFIX == A + SUFFIX && [] + B + SUFFIX == B + SUFFIX;
    assert (A + SUFFIX)[0] != (B + SUFFIX)[0];
    assert Combined(q, A, []) == [] && Combined(q, B, []) == [];
    HolderIs(q.stack, A + SUFFIX, 0);
    HolderIs(q.stack, B + SUFFIX, -1);
  }

  lemma OnlyOne(s: seq<Ready>, e: Ready)
    requires multiset(s) == multiset{e}
    ensures s == [e]
  {
    assert |s| == |multiset(s)| == 1;
    assert s == [s[0]] && s[0] in multiset(s);
  }

  lemma OnlyTwo(s: seq<Key>, k: Key)
    requires multiset(s) == multiset{k, k}
    ensures s == [k, k]
  {
    assert |s| == |multiset(s)| == 2;
    assert s[0] in multiset(s) && s[1] in multiset(s);
  }

  /** What discovering such a graph leaves. */
  lemma ListedTwiceStart(q: Question, m: map<Key, seq<Key>>, t: Tables, a: Key, b: Key)
    requires a != b && Edges(q, a) == [b, b] && Edges(q, b) == [] && t.dependencies.Keys == {a, b}
    requires Counted(q, t.dependencies, []) && Edged(q, {a, b}, m) && Roots(q, t.rootSet, Free(q, {a, b}, []))
    ensures t.dependencies == map[a := {b}, b := {}] && t.rootSet == [ReadyFor(q, b)]
    ensures Dependees(m, a) == [] && Dependees(m, b) == [a, a]
  {
    hide Edges, Dependees, Priority;
    TwiceDependencies(q, t.dependencies, a, b);
    TwiceRoots(q, t.rootSet, a, b);
    TwiceDependees(q, m, a, b);
  }

  lemma TwiceDependencies(q: Question, dependencies: map<Key, set<Key>>, a: Key, b: Key)
    requires a != b && Edges(q, a) == [b, b] && Edges(q, b) == [] && dependencies.Keys == {a, b}
    requires Counted(q, dependencies, [])
    ensures dependencies == map[a := {b}, b := {}]
  {
    hide Edges;
    assert SetOf([b, b]) - SetOf([]) == {b} && SetOf([]) - SetOf([]) == {};
    assert a in dependencies && b in dependencies;
  }

  lemma TwiceRoots(q: Question, list: seq<Ready>, a: Key, b: Key)
    requires a != b && Edges(q, a) == [b, b] && Edges(q, b) == [] && Roots(q, list, Free(q, {a, b}, []))
    ensures list == [ReadyFor(q, b)]
  {
    hide Edges, Priority;
    assert b in Edges(q, a) && b !in [];
    assert Free(q, {a, b}, []) == {b};
    assert multiset(list) == multiset{ReadyFor(q, b)};
    OnlyOne(list, ReadyFor(q, b));
  }

  lemma EdgedAt(q: Question, keys: set<Key>, m: map<Key, seq<Key>>, d: Key, k: Key)
    requires Edged(q, keys, m)
    ensures multiset(Dependees(m, d))[k] == if k in keys then multiset(Edges(q, k))[d] else 0
  {
    hide Edges, Dependees;
  }

  lemma TwiceDependees(q: Question, m: map<Key, seq<Key>>, a: Key, b: Key)
    requires a != b && Edges(q, a) == [b, b] && Edges(q, b) == [] && Edged(q, {a, b}, m)
    ensures Dependees(m, a) == [] && Dependees(m, b) == [a, a]
  {
    hide Edges, Dependees, Edged;
    forall k ensures multiset(Dependees(m, b))[k] == multiset{a, a}[k] && multiset(Dependees(m, a))[k] == 0 {
      EdgedAt(q, {a, b}, m, b, k);
      EdgedAt(q, {a, b}, m, a, k);
      if k == a {
        assert multiset([b, b])[b] == 2 && multiset([b, b])[a] == 0;
      }
    }
    assert multiset(Dependees(m, b)) == multiset{a, a};
    OnlyTwo(Dependees(m, b), a);
    assert multiset(Dependees(m, a)) == multiset{};
    assert |Dependees(m, a)| == |multiset(Dependees(m, a))|;
  }

  /** Releasing `b` queues `a` twice. */
  lemma TwiceReleased(q: Question, t: Tables, a: Key, b: Key)
    requires a != b && t == Tables(map[a := {b}, b := {}], [])
    ensures Released(q, t, b, [a, a]) == Tables(map[a := {}, b := {}], [ReadyFor(q, a), ReadyFor(q, a)])
  {
    hide Priority;
    var once := Tables(map[a := {}, b := {}], [ReadyFor(q, a)]);
    assert [a][..0] == [] && [a, a][..1] == [a];
    assert Released(q, t, b, [a]) == ReleasedOne(q, t, b, a) == once;
    assert ReleasedOne(q, once, b, a) == Tables(map[a := {}, b := {}], [ReadyFor(q, a), ReadyFor(q, a)]);
  }

  lemma TwiceTaken(q: Question, m: map<Key, seq<Key>>, t: Tables, a: Key, b: Key)
    requires a != b && t == Tables(map[a := {b}, b := {}], [ReadyFor(q, b)]) && Linked(m, {a, b})
    requires Dependees(m, a) == [] && Dependees(m, b) == [a, a]
    ensures t.dependencies.Keys == {a, b}
    ensures var p := Took(q, m, t, [a], true, 3); p.tables.rootSet == [] && p.ret == [a, a, b]
  {
    hide Priority, Dependees, Released, Linked;
    assert t.dependencies.Keys == {a, b};
    var x, y := ReadyFor(q, a), ReadyFor(q, b);
    assert [y][1..] == [] && [x, x][1..] == [x] && [x][1..] == [];
    TwiceReleased(q, t.(rootSet := []), a, b);
    var done := map[a := {}, b := {}];
    NothingReleased(q, Tables(done, [x]), a);
    NothingReleased(q, Tables(done, []), a);
    assert Took(q, m, t, [a], true, 0) == Progress(t, []);
    assert Took(q, m, t, [a], true, 1) == Progress(Tables(done, [x, x]), [b]);
    assert Took(q, m, t, [a], true, 2) == Progress(Tables(done, [x]), [a, b]);
  }

  lemma NothingReleased(q: Question, t: Tables, item: Key)
    ensures Released(q, t, item, []) == t
  {
  }

  lemma TwiceReached(q: Question, a: Key, b: Key)
    requires Edges(q, a) == [b, b] && Edges(q, b) == []
    ensures forall k :: Reachable(q, [a], k) <==> k in {a, b}
  {
    hide Edges;
    ReachableRoot(q, [a], a);
    assert b in Edges(q, a);
    ReachableStep(q, [a], a, b);
    forall k | Reachable(q, [a], k) ensures k in {a, b} {
      ReachableInClosed(q, [a], {a, b}, k);
    }
  }

  /** Taking from such a graph, until nothing is queued, returns `a` twice. */
  lemma TwiceReturned(q: Question, m: map<Key, seq<Key>>, t: Tables, a: Key, b: Key, rounds: nat)
    requires a != b && Edges(q, a) == [b, b] && Edges(q, b) == [] && Discovered(q, [a], m, t)
    requires Took(q, m, t, [a], true, rounds).tables.rootSet == []
    ensures Took(q, m, t, [a], true, rounds).ret == [a, a, b]
  {
    hide Edges, Edged, Counted, Roots, Free, Priority, Took, Dependees, Linked, Reachable;
    TwiceReached(q, a, b);
    assert t.dependencies.Keys == {a, b};
    ListedTwiceStart(q, m, t, a, b);
    TwiceTaken(q, m, t, a, b);
    if rounds <= 3 {
      TookOver(q, m, t, [a], true, rounds, 3);
    } else {
      TookOver(q, m, t, [a], true, 3, rounds);
    }
  }

  // ---- taking

  lemma Shrinks(all: set<Key>, before: set<Key>, after: set<Key>, item: Key)
    requires before <= after && item in after && item !in before && item in all
    ensures |all - after| < |all - before|
  {
    SubsetSize(all - after, all - before - {item});
  }

  lemma TakenShrinks(keys: set<Key>, done: seq<Key>, item: Key)
    requires item in keys && item !in done
    ensures |keys - SetOf(done + [item])| < |keys - SetOf(done)|
  {
    Shrinks(keys, SetOf(done), SetOf(done + [item]), item);
  }

  lemma {:induction false} SubsetSize(a: set<Key>, b: set<Key>)
    requires a <= b
    ensures |a| <= |b|
    decreases |a|
  {
    if a != {} {
      var k :| k in a;
      SubsetSize(a - {k}, b - {k});
    }
  }

  lemma ReachableInUniverse(q: Question, roots: seq<Key>, k: Key)
    requires Reachable(q, roots, k)
    ensures k in Universe(q, roots)
  {
    forall n, d | n in Universe(q, roots) && d in Edges(q, n) ensures d in Universe(q, roots) {
      CombinedInValueSet(q, n, q.suffixes);
    }
    ReachableInClosed(q, roots, Universe(q, roots), k);
  }

  lemma NothingTaken(q: Question, roots: seq<Key>, all: bool)
    ensures Settled(q, []) && TakenLowest(q, roots, [])
    ensures var none: seq<Key> := []; Distinct(none)
    ensures Kept([], roots, all) == []
  {
  }

  /** When nothing is free any more, all that is left reaches a cycle. */
  lemma LeftReachesCycle(q: Question, keys: set<Key>, done: seq<Key>, k: Key)
    requires forall n, d | n in keys && d in Edges(q, n) :: d in keys
    requires Free(q, keys, done) == {} && k in keys && k !in done
    ensures ReachesCycle(q, k)
  {
    hide Edges, ReachesCycle;
    var left := set n | n in keys && n !in done;
    forall n | n in left ensures HasNext(q, left, n) {
      assert n !in Free(q, keys, done);
      var d :| d in Edges(q, n) && d !in done;
      assert d in left;
    }
    AllGoOn(q, left, left);
    StuckReachesCycle(q, left, k);
  }

  lemma NoneFree(q: Question, keys: set<Key>, done: seq<Key>, list: seq<Ready>)
    requires Queue(q, list, keys, done) && list == []
    ensures Free(q, keys, done) == {}
  {
    hide Free;
    forall k ensures k !in Free(q, keys, done) {
      assert ReadyFor(q, k) !in list;
    }
  }

  lemma AllTaken(q: Question, roots: seq<Key>, keys: set<Key>, done: seq<Key>, list: seq<Ready>)
    requires Queue(q, list, keys, done) && list == []
    requires forall k, d | k in keys && d in Edges(q, k) :: d in keys
    requires forall k :: k in keys <==> Reachable(q, roots, k)
    requires Settled(q, done) && Distinct(done) && forall k | k in done :: k in keys
    ensures forall k :: k in done <==> Reachable(q, roots, k) && !ReachesCycle(q, k)
  {
    NoneFree(q, keys, done, list);
    hide Edges, Settled, Distinct, ReachesCycle, Reachable, IsFree, Free, Roots;
    forall k | k in keys && k !in done ensures ReachesCycle(q, k) {
      LeftReachesCycle(q, keys, done, k);
    }
    forall k | k in done ensures !ReachesCycle(q, k) {
      SettledNoCycle(q, done, k);
    }
  }

  lemma TakeStep(q: Question, roots: seq<Key>, keys: set<Key>, done: seq<Key>, item: Key)
    requires item in Free(q, keys, done)
    requires forall k | k in Free(q, keys, done) :: Priority(q, item) <= Priority(q, k)
    requires forall k :: k in keys <==> Reachable(q, roots, k)
    requires Settled(q, done) && Distinct(done) && TakenLowest(q, roots, done)
    ensures item in keys && item !in done && IsFree(q, done, item) && forall k | k in done :: IsFree(q, done, k)
    ensures Distinct(done + [item]) && Settled(q, done + [item]) && TakenLowest(q, roots, done + [item])
  {
    hide Edges, Reachable, Priority;
    var now := done + [item];
    forall j, d | 0 <= j < |now| && d in Edges(q, now[j]) ensures d in now[..j] {
      assert now[..j] == done[..j];
    }
    forall k | k in done ensures IsFree(q, done, k) {
      var j :| 0 <= j < |done| && done[j] == k;
      forall d | d in Edges(q, k) ensures d in done {
        assert d in done[..j];
      }
    }
    forall i, k | 0 <= i < |now| && Reachable(q, roots, k) && k !in now[..i] && IsFree(q, now[..i], k)
      ensures Priority(q, now[i]) <= Priority(q, k)
    {
      assert now[..i] == done[..i];
      if i == |done| {
        assert done[..i] == done && k in Free(q, keys, done);
      }
    }
  }

  // ---- what the loop keeps

  ghost predicate SameKeys(a: seq<Key>, b: seq<Key>) { forall k :: k in a <==> k in b }

  // ---- the order is determined

  lemma NextFree(q: Question, a: seq<Key>, i: nat)
    requires Settled(q, a) && Distinct(a) && i < |a|
    ensures IsFree(q, a[..i], a[i]) && a[i] !in a[..i]
  {
    hide Edges;
  }

  lemma LowestNext(q: Question, roots: seq<Key>, a: seq<Key>, i: nat, k: Key)
    requires TakenLowest(q, roots, a) && i < |a| && Reachable(q, roots, k) && k !in a[..i] && IsFree(q, a[..i], k)
    ensures Priority(q, a[i]) <= Priority(q, k)
  {
    hide Edges, Priority, Reachable, IsFree;
  }

  /** Of two nodes that can be taken next, the one of lower priority is. */
  lemma SameNext(q: Question, roots: seq<Key>, a: seq<Key>, b: seq<Key>, i: nat)
    requires Settled(q, a) && Settled(q, b) && Distinct(a) && Distinct(b)
    requires TakenLowest(q, roots, a) && TakenLowest(q, roots, b)
    requires i < |a| && i < |b| && a[..i] == b[..i] && Reachable(q, roots, a[i]) && Reachable(q, roots, b[i])
    ensures Priority(q, a[i]) == Priority(q, b[i])
  {
    hide Settled, Distinct, TakenLowest, Priority, Reachable, IsFree;
    NextFree(q, a, i);
    NextFree(q, b, i);
    LowestNext(q, roots, a, i, b[i]);
    LowestNext(q, roots, b, i, a[i]);
  }

  lemma {:induction false} SamePrefix(q: Question, roots: seq<Key>, a: seq<Key>, b: seq<Key>, n: nat)
    requires Settled(q, a) && Settled(q, b) && Distinct(a) && Distinct(b)
    requires TakenLowest(q, roots, a) && TakenLowest(q, roots, b)
    requires forall k | k in a || k in b :: Reachable(q, roots, k)
    requires forall j, k | j in a && k in b && Priority(q, j) == Priority(q, k) :: j == k
    requires n <= |a| && n <= |b|
    ensures a[..n] == b[..n]
    decreases n
  {
    hide Settled, Distinct, TakenLowest, Priority, Reachable;
    if n > 0 {
      SamePrefix(q, roots, a, b, n - 1);
      SameNext(q, roots, a, b, n - 1);
      assert a[..n] == a[..n - 1] + [a[n - 1]] && b[..n] == b[..n - 1] + [b[n - 1]];
    }
  }

  lemma {:induction false} SetOfSize(s: seq<Key>)
    ensures |SetOf(s)| <= |s|
    decreases |s|
  {
    if s != [] {
      var n := |s| - 1;
      SetOfSize(s[..n]);
      assert SetOf(s) == SetOf(s[..n]) + {s[n]};
    }
  }

  /** If no two nodes have the same priority, the order in which they are first taken is determined. */
  lemma OrderUnique(q: Question, roots: seq<Key>, a: seq<Key>, b: seq<Key>)
    requires Settled(q, a) && Settled(q, b) && Distinct(a) && Distinct(b) && SameKeys(a, b)
    requires TakenLowest(q, roots, a) && TakenLowest(q, roots, b)
    requires forall k | k in a :: Reachable(q, roots, k)
    requires forall j, k | j in a && k in a && Priority(q, j) == Priority(q, k) :: j == k
    ensures a == b
  {
    hide Settled, TakenLowest, Priority, Reachable;
    Pigeonhole(a, SetOf(b));
    Pigeonhole(b, SetOf(a));
    SetOfSize(a);
    SetOfSize(b);
    SamePrefix(q, roots, a, b, |a|);
    assert a == a[..|a|] && b == b[..|a|];
  }

  /** The dependency that is done last is listed once. */
  predicate LastOnce(q: Question, done: seq<Key>, k: Key) {
    forall d | d in Edges(q, k) && (forall e | e in Edges(q, k) :: Rank(done, e) <= Rank(done, d)) ::
      multiset(Edges(q, k))[d] == 1
  }

  predicate Once(q: Question, keys: set<Key>, done: seq<Key>) {
    forall k | k in keys && IsFree(q, done, k) :: LastOnce(q, done, k)
  }

  /** Some node has been taken or is queued a second time. */
  ghost predicate Repeats(q: Question, list: seq<Ready>, taken: seq<Key>) {
    exists k :: multiset(taken)[k] + multiset(list)[ReadyFor(q, k)] >= 2
  }

  /** `taken` are the nodes taken so far, `first` the same without repetitions. */
  ghost predicate Loops(q: Question, m: map<Key, seq<Key>>, keys: set<Key>, roots: seq<Key>, t: Tables,
                        taken: seq<Key>, first: seq<Key>)
  {
    && t.dependencies.Keys == keys && Counted(q, t.dependencies, first) && Edged(q, keys, m)
    && Queue(q, t.rootSet, keys, first)
    && Settled(q, taken) && Settled(q, first) && Distinct(first) && TakenLowest(q, roots, first)
    && SameKeys(taken, first) && (forall k | k in first :: k in keys)
    && (if Once(q, keys, first) then taken == first && Roots(q, t.rootSet, Free(q, keys, first))
        else Repeats(q, t.rootSet, taken))
  }

  lemma OnceNothing(q: Question, keys: set<Key>)
    ensures Once(q, keys, [])
  {
    hide Edges;
  }

  lemma LoopsStart(q: Question, m: map<Key, seq<Key>>, keys: set<Key>, roots: seq<Key>, t: Tables)
    requires t.dependencies.Keys == keys && Counted(q, t.dependencies, []) && Edged(q, keys, m)
    requires Roots(q, t.rootSet, Free(q, keys, []))
    ensures Loops(q, m, keys, roots, t, [], [])
  {
    hide Counted, Edged, Roots, Free, Queue, Once;
    RootsQueue(q, t.rootSet, keys, []);
    NothingTaken(q, roots, true);
    OnceNothing(q, keys);
  }

  lemma {:induction false} RankSnoc(done: seq<Key>, item: Key, k: Key)
    requires item !in done
    ensures k in done ==> Rank(done + [item], k) == Rank(done, k)
    ensures Rank(done + [item], item) == |done|
  {
    assert (done + [item])[..|done|] == done;
  }

  lemma LastOnceStays(q: Question, done: seq<Key>, item: Key, k: Key)
    requires item !in done && IsFree(q, done, k)
    ensures LastOnce(q, done + [item], k) <==> LastOnce(q, done, k)
  {
    hide Edges, Rank;
    forall e | e in Edges(q, k) ensures Rank(done + [item], e) == Rank(done, e) {
      RankSnoc(done, item, e);
    }
  }

  /** For a node that becomes free now, `item` is the dependency that is done last. */
  lemma LastOnceNow(q: Question, done: seq<Key>, item: Key, k: Key)
    requires item !in done && IsFree(q, done + [item], k) && item in Edges(q, k)
    ensures LastOnce(q, done + [item], k) <==> multiset(Edges(q, k))[item] == 1
  {
    hide Edges, Rank;
    var now := done + [item];
    forall e | e in Edges(q, k) ensures e == item || Rank(now, e) < Rank(now, item) {
      RankSnoc(done, item, e);
      RankOf(done, e);
    }
  }

  /** Whether all goes on without a repetition is decided by the nodes that become free now. */
  lemma OnceNow(q: Question, keys: set<Key>, m: map<Key, seq<Key>>, done: seq<Key>, item: Key)
    requires Edged(q, keys, m) && item !in done
    ensures Once(q, keys, done + [item]) <==>
      Once(q, keys, done)
      && forall k | k in Dependees(m, item) && IsFree(q, done + [item], k) :: multiset(Dependees(m, item))[k] == 1
  {
    hide Edges, LastOnce, Edged, IsFree;
    EdgedIn(q, keys, m, item);
    forall k | k in keys && IsFree(q, done, k)
      ensures IsFree(q, done + [item], k) && (LastOnce(q, done + [item], k) <==> LastOnce(q, done, k))
      ensures item !in Edges(q, k)
    {
      FreeStays(q, done, item, k);
      LastOnceStays(q, done, item, k);
      FreeHas(q, done, k);
    }
    forall k | k in Dependees(m, item) && IsFree(q, done + [item], k)
      ensures k in keys && (LastOnce(q, done + [item], k) <==> multiset(Dependees(m, item))[k] == 1)
    {
      LastOnceNow(q, done, item, k);
      EdgedAt(q, keys, m, item, k);
    }
    forall k | k in keys && IsFree(q, done + [item], k) && item !in Edges(q, k) ensures IsFree(q, done, k) {
      FreeWithout(q, done, item, k);
    }
  }

  lemma FreeHas(q: Question, done: seq<Key>, k: Key)
    requires IsFree(q, done, k)
    ensures forall d | d in Edges(q, k) :: d in done
  {
  }

  lemma FreeWithout(q: Question, done: seq<Key>, item: Key, k: Key)
    requires IsFree(q, done + [item], k) && item !in Edges(q, k)
    ensures IsFree(q, done, k)
  {
    hide Edges;
  }

  lemma TakenSettled(q: Question, taken: seq<Key>, first: seq<Key>, item: Key)
    requires Settled(q, taken) && SameKeys(taken, first) && IsFree(q, first, item)
    ensures Settled(q, taken + [item]) && SameKeys(taken + [item], DoneWith(first, item))
  {
    hide Edges;
    var now := taken + [item];
    forall j, d | 0 <= j < |now| && d in Edges(q, now[j]) ensures d in now[..j] {
      assert now[..j] == taken[..j];
      assert j == |taken| ==> taken[..j] == taken;
    }
  }

  /** The tables without the first of the queued nodes. */
  function Tail(t: Tables): Tables
    requires t.rootSet != []
  {
    t.(rootSet := t.rootSet[1..])
  }

  lemma TailQueue(q: Question, t: Tables, keys: set<Key>, done: seq<Key>)
    requires t.rootSet != [] && Queue(q, t.rootSet, keys, done)
    ensures ByPriority(Tail(t).rootSet)
    ensures forall e | e in Tail(t).rootSet :: e == ReadyFor(q, e.item) && e.item in keys && IsFree(q, done, e.item)
    ensures forall k | k in Free(q, keys, done) && k != t.rootSet[0].item :: ReadyFor(q, k) in Tail(t).rootSet
  {
    hide IsFree, Free, Priority;
    assert t.rootSet == [t.rootSet[0]] + t.rootSet[1..];
  }

  /** A repetition stays one: a node goes from the queue to those that were taken. */
  lemma RepeatsStay(q: Question, t: Tables, taken: seq<Key>, item: Key, list: seq<Key>)
    requires t.rootSet != [] && t.rootSet[0] == ReadyFor(q, item) && forall k | k in list :: k in t.dependencies
    requires Repeats(q, t.rootSet, taken)
    ensures Repeats(q, Released(q, Tail(t), item, list).rootSet, taken + [item])
  {
    hide Released, Priority;
    var k :| multiset(taken)[k] + multiset(t.rootSet)[ReadyFor(q, k)] >= 2;
    assert t.rootSet == [t.rootSet[0]] + Tail(t).rootSet;
    ReleasedQueues(q, Tail(t), item, list, ReadyFor(q, k));
    assert multiset(taken + [item])[k] + multiset(Released(q, Tail(t), item, list).rootSet)[ReadyFor(q, k)] >= 2;
  }

  /** A node that waited for the item alone and lists it twice is queued twice. */
  lemma RepeatsNow(q: Question, t: Tables, m: map<Key, seq<Key>>, done: seq<Key>, taken: seq<Key>, item: Key, k: Key)
    requires Counted(q, t.dependencies, done) && Edged(q, t.dependencies.Keys, m)
    requires k in Dependees(m, item) && IsFree(q, done + [item], k) && multiset(Dependees(m, item))[k] != 1
    ensures forall d | d in Dependees(m, item) :: d in t.dependencies
    ensures Repeats(q, Released(q, t, item, Dependees(m, item)).rootSet, taken)
  {
    hide Released, Priority, Edges, IsFree;
    var list := Dependees(m, item);
    EdgedIn(q, t.dependencies.Keys, m, item);
    EmptyIsFree(q, done + [item], k);
    assert t.dependencies[k] - {item} == SetOf(Edges(q, k)) - SetOf(done + [item]);
    assert multiset(list)[k] >= 2 by {
      assert k in multiset(list);
    }
    ReleasedQueues(q, t, item, list, ReadyFor(q, k));
    assert multiset(taken)[k] + multiset(Released(q, t, item, list).rootSet)[ReadyFor(q, k)] >= 2;
  }

  /** The loop's invariant is kept by each node that is taken. */
  lemma LoopsOn(q: Question, m: map<Key, seq<Key>>, keys: set<Key>, roots: seq<Key>, t: Tables,
                taken: seq<Key>, first: seq<Key>)
    requires Loops(q, m, keys, roots, t, taken, first) && t.rootSet != []
    requires forall k :: k in keys <==> Reachable(q, roots, k)
    ensures var item := t.rootSet[0].item;
      && (forall k | k in Dependees(m, item) :: k in keys)
      && Loops(q, m, keys, roots, Released(q, Tail(t), item, Dependees(m, item)), taken + [item], DoneWith(first, item))
  {
    hide Counted, Edged, Queue, Settled, Distinct, TakenLowest, SameKeys, Roots, Free, IsFree, Released, Edges;
    hide Reachable, Once, Repeats;
    var item := t.rootSet[0].item;
    QueueFirst(q, t.rootSet, keys, first);
    TailQueue(q, t, keys, first);
    ReleasedQueue(q, Tail(t), m, first, item);
    TakenSettled(q, taken, first, item);
    if item !in first {
      TakeStep(q, roots, keys, first, item);
    }
    RepetitionOn(q, m, keys, t, taken, first);
  }

  /** Either nothing repeats, or something does. */
  lemma RepetitionOn(q: Question, m: map<Key, seq<Key>>, keys: set<Key>, t: Tables, taken: seq<Key>, first: seq<Key>)
    requires t.dependencies.Keys == keys && Counted(q, t.dependencies, first) && Edged(q, keys, m)
    requires Queue(q, t.rootSet, keys, first) && t.rootSet != [] && Settled(q, first)
    requires if Once(q, keys, first) then taken == first && Roots(q, t.rootSet, Free(q, keys, first))
             else Repeats(q, t.rootSet, taken)
    ensures var item, now := t.rootSet[0].item, DoneWith(first, t.rootSet[0].item);
      && (forall k | k in Dependees(m, item) :: k in keys)
      && var r := Released(q, Tail(t), item, Dependees(m, item));
      if Once(q, keys, now) then taken + [item] == now && Roots(q, r.rootSet, Free(q, keys, now))
      else Repeats(q, r.rootSet, taken + [item])
  {
    hide Counted, Edged, Settled, Roots, Free, IsFree, Released, Edges, Once, Repeats;
    var item := t.rootSet[0].item;
    QueueFirst(q, t.rootSet, keys, first);
    assert t.rootSet[0] in t.rootSet;
    hide Queue;
    EdgedIn(q, keys, m, item);
    if !Once(q, keys, first) {
      RepeatsStay(q, t, taken, item, Dependees(m, item));
      if item !in first {
        OnceNow(q, keys, m, first, item);
      }
    } else {
      RootsTail(q, t.rootSet, Free(q, keys, first));
      PlainFresh(q, keys, first, item);
      OnceNow(q, keys, m, first, item);
      FreeBefore(q, first);
      if Once(q, keys, first + [item]) {
        ReleasedValid(q, Tail(t), m, first, item);
      } else {
        var k :| k in Dependees(m, item) && IsFree(q, first + [item], k) && multiset(Dependees(m, item))[k] != 1;
        RepeatsNow(q, Tail(t), m, first, taken + [item], item, k);
      }
    }
  }

  lemma PlainFresh(q: Question, keys: set<Key>, done: seq<Key>, item: Key)
    requires item in Free(q, keys, done)
    ensures item !in done
  {
  }

  lemma FreeBefore(q: Question, done: seq<Key>)
    requires Settled(q, done)
    ensures forall k | k in done :: IsFree(q, done, k)
  {
    hide Edges;
    forall k | k in done ensures IsFree(q, done, k) {
      var j :| 0 <= j < |done| && done[j] == k;
      forall d | d in Edges(q, k) ensures d in done {
        assert d in done[..j];
      }
    }
  }

  /** Each node that is taken brings the loop nearer to its end. */
  lemma LoopsEnd(q: Question, m: map<Key, seq<Key>>, keys: set<Key>, roots: seq<Key>, t: Tables,
                 taken: seq<Key>, first: seq<Key>, c: nat)
    requires Loops(q, m, keys, roots, t, taken, first) && t.rootSet != [] && c == Most(m) + 1
    ensures var item := t.rootSet[0].item;
      && |first| <= |keys| && (item in keys)
      && (item !in first ==> |keys - SetOf(first + [item])| < |keys - SetOf(first)|)
      && (forall k | k in Dependees(m, item) :: k in keys)
      && (item in first ==>
            Weight(c, |keys|, first, Released(q, Tail(t), item, Dependees(m, item)).rootSet)
            < Weight(c, |keys|, first, t.rootSet))
  {
    hide Counted, Edged, Queue, Settled, TakenLowest, SameKeys, Roots, Free, IsFree, Released, Edges, SetOf, Most;
    hide Power, Once, Repeats, Distinct, Rank, Weight, Dependees;
    var item := t.rootSet[0].item;
    QueueFirst(q, t.rootSet, keys, first);
    Pigeonhole(first, keys);
    EdgedIn(q, keys, m, item);
    if item in first {
      WeightHead(c, |keys|, first, t.rootSet);
      TakenAgain(q, c, |keys|, first, Tail(t), m, item);
    } else {
      TakenShrinks(keys, first, item);
    }
  }

  lemma TakesOne(q: Question, m: map<Key, seq<Key>>, p: Progress, taken: seq<Key>, list: seq<Key>, all: bool)
    requires Linked(m, p.tables.dependencies.Keys) && p.tables.rootSet != [] && p.ret == Kept(taken, list, all)
    ensures var item := p.tables.rootSet[0].item;
      && (forall k | k in Dependees(m, item) :: k in p.tables.dependencies)
      && TakeOne(q, m, p, list, all).tables == Released(q, Tail(p.tables), item, Dependees(m, item))
      && TakeOne(q, m, p, list, all).ret == Kept(taken + [item], list, all)
  {
    hide Released;
    var item := p.tables.rootSet[0].item;
    assert (taken + [item])[..|taken|] == taken;
  }

  lemma FirstFits(q: Question, m: map<Key, seq<Key>>, keys: set<Key>, roots: seq<Key>, t: Tables,
                  taken: seq<Key>, first: seq<Key>)
    requires Loops(q, m, keys, roots, t, taken, first)
    ensures |first| <= |keys|
  {
    hide Counted, Edged, Queue, Settled, TakenLowest, SameKeys, Roots, Free, Once, Repeats;
    Pigeonhole(first, keys);
  }

  /** Nodes come out once exactly if each node lists the dependency that comes out last only once. */
  predicate EachLastOnce(q: Question, done: seq<Key>) { forall k | k in done :: LastOnce(q, done, k) }

  lemma LoopsOver(q: Question, m: map<Key, seq<Key>>, keys: set<Key>, roots: seq<Key>, t: Tables,
                  taken: seq<Key>, first: seq<Key>)
    requires Loops(q, m, keys, roots, t, taken, first) && t.rootSet == []
    requires forall k, d | k in keys && d in Edges(q, k) :: d in keys
    requires forall k :: k in keys <==> Reachable(q, roots, k)
    ensures forall k :: k in first <==> Reachable(q, roots, k) && !ReachesCycle(q, k)
    ensures Settled(q, taken) && SameKeys(taken, first) && Settled(q, first) && Distinct(first)
    ensures TakenLowest(q, roots, first)
    ensures Distinct(taken) <==> EachLastOnce(q, first)
    ensures EachLastOnce(q, first) ==> taken == first
  {
    hide Counted, Edged, Settled, TakenLowest, SameKeys, Roots, Edges, Reachable, ReachesCycle, Distinct, LastOnce;
    hide IsFree;
    AllTaken(q, roots, keys, first, t.rootSet);
    NoneFree(q, keys, first, t.rootSet);
    FreeBefore(q, first);
    forall k | k in keys && IsFree(q, first, k) ensures k in first {
      assert k !in Free(q, keys, first);
    }
    assert Once(q, keys, first) <==> EachLastOnce(q, first);
    DistinctCounts(taken);
  }

  /** Where no dependency is listed twice, neither is the last one. */
  lemma DistinctOnce(q: Question, done: seq<Key>)
    requires forall k | k in done :: Distinct(Edges(q, k))
    ensures EachLastOnce(q, done)
  {
    hide Edges, Rank, Distinct;
    forall k, d | k in done && d in Edges(q, k) ensures multiset(Edges(q, k))[d] == 1 {
      DistinctCounts(Edges(q, k));
      assert d in multiset(Edges(q, k));
    }
  }

  predicate Holds(keys: set<Key>, list: seq<Key>) { forall d | d in list :: d in keys }

  lemma HoldsNone(keys: set<Key>, list: seq<Key>)
    ensures Holds(keys, list[..0])
  {
  }

  lemma HoldsNext(a: set<Key>, b: set<Key>, list: seq<Key>, i: nat)
    requires i < |list| && Holds(a, list[..i]) && a <= b && list[i] in b
    ensures Holds(b, list[..i + 1])
  {
    assert list[..i + 1] == list[..i] + [list[i]];
  }

  lemma HoldsAll(keys: set<Key>, list: seq<Key>)
    requires Holds(keys, list[..|list|])
    ensures forall d | d in list :: d in keys
  {
    assert list[..|list|] == list;
  }

  /** The builtin's tables. */
  class DependsSorter {
    const q: Question
    var dependencies: map<Key, set<Key>>
    var dependees: map<Key, seq<Key>>
    var rootSet: seq<Ready>

    constructor (q: Question)
      ensures this.q == q && Valid([]) && dependencies == map[]
    {
      this.q := q;
      dependencies, dependees, rootSet := map[], map[], [];
    }

    /** The tables when the nodes in `done` are done. */
    ghost predicate Valid(done: seq<Key>)
      reads this
    {
      && Counted(q, dependencies, done)
      && Edged(q, dependencies.Keys, dependees)
      && Roots(q, rootSet, Free(q, dependencies.Keys, done))
    }

    method Collect(item: Key) returns (depends: Values)
      ensures depends == Edges(q, item)
    {
      depends := [];
      var i := 0;
      while i < |q.suffixes|
        invariant 0 <= i <= |q.suffixes| && depends == Combined(q, item, q.suffixes[..i])
      {
        assert q.suffixes[..i + 1][..i] == q.suffixes[..i];
        depends := depends + Meaning(q.stack, q.prefix + item + q.suffixes[i]);
        i := i + 1;
      }
      assert q.suffixes[..i] == q.suffixes;
    }

    method AddEdges(item: Key, depends: seq<Key>)
      requires item in dependencies && dependencies[item] == {}
      modifies this`dependencies, this`dependees
      ensures dependencies == old(dependencies)[item := SetOf(depends)]
      ensures Listed(old(dependees), dependees, item, multiset(depends))
    {
      hide Listed, Dependees;
      var i := 0;
      assert SetOf(depends[..0]) == {};
      ListedNothing(dependees, item);
      while i < |depends|
        invariant 0 <= i <= |depends|
        invariant dependencies == old(dependencies)[item := SetOf(depends[..i])]
        invariant Listed(old(dependees), dependees, item, multiset(depends[..i]))
      {
        var dep := depends[i];
        assert depends[..i + 1] == depends[..i] + [dep];
        assert SetOf(depends[..i + 1]) == SetOf(depends[..i]) + {dep};
        dependencies := dependencies[item := dependencies[item] + {dep}];
        ListedMore(old(dependees), dependees, item, multiset(depends[..i]), dep);
        dependees := dependees[dep := Dependees(dependees, dep) + [item]];
        i := i + 1;
      }
      assert depends[..i] == depends;
    }

    /** A new node with its dependencies. */
    method AddNode(item: Key) returns (depends: Values)
      requires Valid([]) && item !in dependencies
      modifies this
      ensures depends == Edges(q, item)
      ensures Valid([]) && dependencies.Keys == old(dependencies.Keys) + {item}
    {
      hide Edges, Roots, Edged, Insert, Free, Listed;
      ghost var keys, was := dependencies.Keys, dependees;
      FreeGrows(q, keys, item);
      dependencies := dependencies[item := {}];
      depends := Collect(item);
      if depends == [] {
        FreeInKeys(q, keys, item);
        ListedNothing(dependees, item);
        RootsInsert(q, rootSet, Free(q, keys, []), item);
        rootSet := Insert(rootSet, ReadyFor(q, item));
      } else {
        AddEdges(item, depends);
        assert Free(q, keys, []) + {} == Free(q, keys, []);
      }
      EdgedGrows(q, keys, was, item, dependees);
      assert dependencies.Keys == keys + {item};
      assert SetOf(Edges(q, item)) - SetOf([]) == SetOf(Edges(q, item));
    }

    /** Discover all nodes that the listed ones depend on. */
    method PopulateDeps(deps: seq<Key>, ghost roots: seq<Key>)
      requires Valid([]) && Known(q, roots, dependencies.Keys)
      requires forall d | d in deps :: Reachable(q, roots, d)
      modifies this
      ensures Valid([]) && Known(q, roots, dependencies.Keys) && Closed(q, old(dependencies.Keys), dependencies.Keys)
      ensures old(dependencies.Keys) <= dependencies.Keys && forall d | d in deps :: d in dependencies
      decreases |Universe(q, roots) - dependencies.Keys|, 1
    {
      hide Valid, Closed, Known, Reachable, Universe, Edges, Distinct, Holds;
      HoldsNone(dependencies.Keys, deps);
      ghost var before := dependencies.Keys;
      NothingNew(q, before);
      var i := 0;
      while i < |deps|
        invariant 0 <= i <= |deps| && Valid([])
        invariant Known(q, roots, dependencies.Keys) && Closed(q, before, dependencies.Keys)
        invariant before <= dependencies.Keys && Holds(dependencies.Keys, deps[..i])
      {
        ghost var known := dependencies.Keys;
        if deps[i] !in dependencies {
          ghost var now := dependencies.Keys;
          SubsetSize(Universe(q, roots) - now, Universe(q, roots) - before);
          PopulateItem(deps[i], roots);
          ClosedTrans(q, before, now, dependencies.Keys);
        }
        HoldsNext(known, dependencies.Keys, deps, i);
        i := i + 1;
      }
      HoldsAll(dependencies.Keys, deps);
    }

    method PopulateItem(item: Key, ghost roots: seq<Key>)
      requires Valid([]) && Known(q, roots, dependencies.Keys) && item !in dependencies && Reachable(q, roots, item)
      modifies this
      ensures Valid([]) && Known(q, roots, dependencies.Keys) && Closed(q, old(dependencies.Keys), dependencies.Keys)
      ensures old(dependencies.Keys) <= dependencies.Keys && item in dependencies
      decreases |Universe(q, roots) - dependencies.Keys|, 0
    {
      hide Edges, Counted, Edged, Roots, Free, Distinct, Reachable, Universe;
      ghost var before := dependencies.Keys;
      ReachableInUniverse(q, roots, item);
      var depends := AddNode(item);
      forall d | d in depends ensures Reachable(q, roots, d) {
        ReachableStep(q, roots, item, d);
      }
      Shrinks(Universe(q, roots), before, dependencies.Keys, item);
      if depends != [] {
        PopulateDeps(depends, roots);
      }
    }

    ghost function Model(): Tables
      reads this
    {
      Tables(dependencies, rootSet)
    }

    /** What waits for `item` waits no longer; what waits for nothing any more is queued. */
    method Release(item: Key)
      requires forall k | k in Dependees(dependees, item) :: k in dependencies
      modifies this`dependencies, this`rootSet
      ensures Model() == Released(q, old(Model()), item, Dependees(dependees, item))
    {
      var list := Dependees(dependees, item);
      var i := 0;
      while i < |list|
        invariant 0 <= i <= |list| && dependencies.Keys == old(dependencies.Keys)
        invariant Model() == Released(q, old(Model()), item, list[..i])
      {
        var dep := list[i];
        assert list[..i + 1][..i] == list[..i];
        dependencies := dependencies[dep := dependencies[dep] - {item}];
        if dependencies[dep] == {} {
          rootSet := Insert(rootSet, ReadyFor(q, dep));
        }
        i := i + 1;
      }
      assert list[..i] == list;
    }

    /** Take the first of the queued nodes. */
    method TakeFirst(orgList: seq<Key>, all: bool, before: seq<Key>) returns (ret: seq<Key>)
      requires Linked(dependees, dependencies.Keys) && rootSet != []
      modifies this`dependencies, this`rootSet
      ensures Progress(Model(), ret) == TakeOne(q, dependees, Progress(old(Model()), before), orgList, all)
    {
      hide Released, Insert;
      var item := rootSet[0].item;
      rootSet := rootSet[1..];
      ret := before;
      if all || item in orgList {
        ret := [item] + ret;
      }
      Release(item);
    }

    /** Take the queued nodes until there is none. */
    method TakeAll(orgList: seq<Key>, all: bool)
      returns (ret: seq<Key>, ghost taken: seq<Key>, ghost first: seq<Key>)
      requires Valid([])
      requires forall k, d | k in dependencies && d in Edges(q, k) :: d in dependencies
      requires forall k :: k in dependencies <==> Reachable(q, orgList, k)
      modifies this
      ensures Linked(dependees, old(dependencies.Keys)) && dependees == old(dependees) && rootSet == []
      ensures Took(q, dependees, old(Model()), orgList, all, |taken|) == Progress(Model(), ret)
      ensures ret == Kept(taken, orgList, all) && Settled(q, taken) && SameKeys(taken, first)
      ensures Settled(q, first) && Distinct(first) && TakenLowest(q, orgList, first)
      ensures forall k :: k in first <==> Reachable(q, orgList, k) && !ReachesCycle(q, k)
      ensures (Distinct(taken) <==> EachLastOnce(q, first)) && (EachLastOnce(q, first) ==> taken == first)
    {
      hide Edges, ReachesCycle, Reachable, Linked, Took, TakeOne, Kept, Loops, Counted, Edged, Roots, Free, Weight;
      hide SetOf;
      hide Settled, Distinct, TakenLowest, SameKeys, Released, EachLastOnce;
      ret, taken, first := [], [], [];
      ghost var keys, start, c := dependencies.Keys, Model(), Most(dependees) + 1;
      NothingTaken(q, orgList, all);
      EdgedLinked(q, keys, dependees);
      LoopsStart(q, dependees, keys, orgList, start);
      TookNothing(q, dependees, start, orgList, all);
      while rootSet != []
        invariant Loops(q, dependees, keys, orgList, Model(), taken, first)
        invariant dependencies.Keys == keys && dependees == old(dependees) && |first| <= |keys|
        invariant Took(q, dependees, start, orgList, all, |taken|) == Progress(Model(), ret)
        invariant ret == Kept(taken, orgList, all)
        decreases |keys - SetOf(first)|, Weight(c, |keys|, first, rootSet)
      {
        ghost var item, t := rootSet[0].item, Model();
        LoopsEnd(q, dependees, keys, orgList, t, taken, first, c);
        LoopsOn(q, dependees, keys, orgList, t, taken, first);
        TookNext(q, dependees, start, orgList, all, |taken|);
        TakesOne(q, dependees, Progress(t, ret), taken, orgList, all);
        ret := TakeFirst(orgList, all, ret);
        taken, first := taken + [item], DoneWith(first, item);
        FirstFits(q, dependees, keys, orgList, Model(), taken, first);
      }
      LoopsOver(q, dependees, keys, orgList, Model(), taken, first);
    }
  }

  /** resolve_depends() if `all`, else sort_depends(): the nodes that the listed ones depend on, directly or
      not, and that reach no cycle, each in front of all that it depends on. Each is taken once exactly if no
      node lists twice the dependency that is taken last; in particular if no node lists a dependency twice. */
  method SortDepends(q: Question, orgList: seq<Key>, all: bool)
    returns (ret: seq<Key>, ghost taken: seq<Key>, ghost first: seq<Key>, ghost m: map<Key, seq<Key>>,
             ghost start: Tables)
    ensures forall k :: k in ret <==> Reachable(q, orgList, k) && !ReachesCycle(q, k) && (all || k in orgList)
    ensures Follows(q, ret, orgList, all)
    ensures Discovered(q, orgList, m, start)
    ensures Took(q, m, start, orgList, all, |taken|).ret == ret
    ensures Took(q, m, start, orgList, all, |taken|).tables.rootSet == []
    ensures ret == Kept(taken, orgList, all) && Settled(q, taken)
    ensures Distinct(first) && TakenLowest(q, orgList, first) && SameKeys(taken, first)
    ensures Distinct(taken) <==> EachLastOnce(q, first)
    ensures (forall k | Reachable(q, orgList, k) :: Distinct(Edges(q, k))) ==> EachLastOnce(q, first)
    ensures EachLastOnce(q, first) ==>
      && taken == first && Distinct(ret)
      && forall i, j | 0 <= i < |ret| && 0 <= j < |ret| && ret[j] in Edges(q, ret[i]) :: i < j
  {
    hide Edges, Reachable, ReachesCycle, Settled, Distinct, TakenLowest, Follows, EachLastOnce;
    var sorter := new DependsSorter(q);
    forall d | d in orgList ensures Reachable(q, orgList, d) {
      ReachableRoot(q, orgList, d);
    }
    sorter.PopulateDeps(orgList, orgList);
    forall k | Reachable(q, orgList, k) ensures k in sorter.dependencies {
      ReachableInClosed(q, orgList, sorter.dependencies.Keys, k);
    }
    m, start := sorter.dependees, sorter.Model();
    EdgedLinked(q, start.dependencies.Keys, m);
    assert Discovered(q, orgList, m, start);
    ret, taken, first := sorter.TakeAll(orgList, all);
    KeptFollows(q, taken, orgList, all);
    if EachLastOnce(q, first) {
      KeptOrder(q, taken, orgList, all);
    }
    if forall k | Reachable(q, orgList, k) :: Distinct(Edges(q, k)) {
      DistinctOnce(q, first);
    }
  }

  /** A dependency that is listed twice makes its node come out twice. */
  method ListedTwiceReturnsTwice(q: Question) returns (ret: seq<Key>)
    requires q == ListedTwice(q.priosfx, q.toInt)
    ensures ret == [A, A, B]
  {
    hide Edges, Discovered, Took, Reachable, ReachesCycle, Settled, TakenLowest, Follows, EachLastOnce, Distinct;
    ghost var taken, first, m, start;
    ret, taken, first, m, start := SortDepends(q, [A], true);
    ListedTwiceEdges(q);
    TwiceReturned(q, m, start, A, B, |taken|);
  }
}
