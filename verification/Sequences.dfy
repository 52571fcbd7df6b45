/** What several modules say of sequences. */
module Sequences {

  predicate Distinct<T(==)>(s: seq<T>) { forall i, j | 0 <= i < j < |s| :: s[i] != s[j] }

  /** Each number below `n` once. */
  predicate EachOnce(order: seq<nat>, n: nat) {
    && (forall j | 0 <= j < |order| :: order[j] < n)
    && (forall j, m | 0 <= j < m < |order| :: order[j] != order[m])
    && (forall k | 0 <= k < n :: k in order)
  }

  lemma EachOnceOfNone(order: seq<nat>, n: nat)
    requires EachOnce(order, n)
    ensures n == 0 ==> order == []
  {
    if order != [] {
      assert order[0] < n;
    }
  }

  lemma Without(order: seq<nat>, n: nat, j: nat)
    requires EachOnce(order, n) && j < |order| && n > 0 && order[j] == n - 1
    ensures EachOnce(order[..j] + order[j + 1..], n - 1)
  {
    var rest := order[..j] + order[j + 1..];
    forall k | 0 <= k < n - 1 ensures k in rest {
      assert k in order;
      var m :| 0 <= m < |order| && order[m] == k;
      assert rest[if m < j then m else m - 1] == k;
    }
    forall i | 0 <= i < |rest| ensures rest[i] < n - 1 {
      var m := if i < j then i else i + 1;
      assert rest[i] == order[m] && m != j;
    }
  }

  lemma FindLast(order: seq<nat>, n: nat) returns (j: nat)
    requires EachOnce(order, n) && n > 0
    ensures j < |order| && order[j] == n - 1
  {
    assert (n - 1) as nat in order;
    j :| 0 <= j < |order| && order[j] == n - 1;
  }
}
