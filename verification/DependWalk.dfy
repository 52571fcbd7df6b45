/** All files that a source file depends on: a walk over the graph of files that marks each file it has
    seen, and clears the marks afterwards by the list of what it found. */
module DependWalk {
  import opened Sequences

  class SourceFile {
    var present: bool
    var deps: seq<SourceFile>
    var traversed: bool
  }

  /** The list that the walk fills. */
  class SourceDependChildren {
    var children: seq<SourceFile>

    constructor ()
      ensures children == []
    {
      children := [];
    }

    method AddChild(s: SourceFile)
      modifies this
      ensures children == old(children) + [s]
    {
      children := children + [s];
    }
  }

  ghost predicate Closed(files: set<SourceFile>)
    reads files`deps
  {
    forall f, d | f in files && d in f.deps :: d in files
  }

  /** The files at the end of a path of at most `k` + 1 edges, on which all files but the first exist. */
  ghost function Within(files: set<SourceFile>, start: SourceFile, k: nat): set<SourceFile>
    reads files`deps, files`present, start`deps
  {
    if k == 0 then set d | d in files && d in start.deps && d.present
    else
      var near := Within(files, start, k - 1);
      near + set f, d | f in near && f in files && d in files && d in f.deps && d.present :: d
  }

  ghost predicate Reachable(files: set<SourceFile>, start: SourceFile, f: SourceFile)
    reads files`deps, files`present, start`deps
  {
    exists k: nat :: f in Within(files, start, k)
  }

  /** The marks say what is in the list. */
  ghost predicate Marked(files: set<SourceFile>, found: seq<SourceFile>)
    reads files`traversed
  {
    && Distinct(found) && (forall f | f in found :: f in files)
    && forall f | f in files :: f.traversed <==> f in found
  }

  ghost predicate AllReachable(files: set<SourceFile>, start: SourceFile, found: seq<SourceFile>)
    reads files`deps, files`present, start`deps
  {
    forall f | f in found :: f in files && f.present && Reachable(files, start, f)
  }

  /** The files in `from` to `found` have all their existing dependencies in `found`. */
  ghost predicate Complete(files: set<SourceFile>, from: seq<SourceFile>, found: seq<SourceFile>)
    reads files`deps, files`present
  {
    forall f, d | f in files && f in found && f !in from && d in files && d in f.deps && d.present :: d in found
  }

  lemma ReachableChild(files: set<SourceFile>, start: SourceFile, f: SourceFile, d: SourceFile)
    requires f in files && d in files && d in f.deps && d.present && Reachable(files, start, f)
    ensures Reachable(files, start, d)
  {
    var k: nat :| f in Within(files, start, k);
    assert d in Within(files, start, k + 1);
  }

  lemma {:induction false} WithinComplete(files: set<SourceFile>, start: SourceFile, found: seq<SourceFile>, k: nat)
    requires Complete(files, [], found)
    requires forall d | d in files && d in start.deps && d.present :: d in found
    ensures forall f | f in Within(files, start, k) :: f in found
    decreases k
  {
    if k > 0 {
      WithinComplete(files, start, found, k - 1);
    }
  }

  method DependTreeWalker(node: SourceFile, place: SourceDependChildren, ghost files: set<SourceFile>,
                          ghost start: SourceFile)
    requires node in files && start in files && Closed(files)
    requires Marked(files, place.children) && AllReachable(files, start, place.children)
    requires node.present ==> Reachable(files, start, node)
    modifies files`traversed, place
    ensures Marked(files, place.children) && AllReachable(files, start, place.children)
    ensures old(place.children) <= place.children && (node.present ==> node in place.children)
    ensures Complete(files, old(place.children), place.children)
    decreases |files| - |place.children|, 0
  {
    hide Reachable, Within, Distinct;
    ghost var before := place.children;
    if node.traversed || !node.present {
      return;
    }
    AddNode(node, place, files, start);
    ghost var marked := place.children;
    var i := 0;
    while i < |node.deps|
      invariant 0 <= i <= |node.deps|
      invariant Marked(files, place.children) && AllReachable(files, start, place.children)
      invariant marked <= place.children
      invariant forall d | d in node.deps[..i] && d.present :: d in place.children
      invariant Complete(files, marked, place.children)
    {
      WalkChild(node, i, place, files, start, marked);
      assert node.deps[..i + 1] == node.deps[..i] + [node.deps[i]];
      i := i + 1;
    }
    assert node.deps[..i] == node.deps;
  }

  /** The file is not listed yet. */
  method AddNode(node: SourceFile, place: SourceDependChildren, ghost files: set<SourceFile>, ghost start: SourceFile)
    requires node in files && start in files && !node.traversed && node.present
    requires Marked(files, place.children) && AllReachable(files, start, place.children)
    requires Reachable(files, start, node)
    modifies node`traversed, place
    ensures Marked(files, place.children) && AllReachable(files, start, place.children)
    ensures place.children == old(place.children) + [node] && |place.children| <= |files|
    ensures Complete(files, place.children, place.children)
  {
    hide Reachable, Within;
    place.AddChild(node);
    node.traversed := true;
    Fits(files, place.children);
  }

  /** Go on with the dependency `node.deps[i]`; `from` was listed when the loop began. */
  method WalkChild(node: SourceFile, i: nat, place: SourceDependChildren, ghost files: set<SourceFile>,
                   ghost start: SourceFile, ghost from: seq<SourceFile>)
    requires node in files && start in files && Closed(files) && i < |node.deps|
    requires Marked(files, place.children) && AllReachable(files, start, place.children)
    requires node == start || (node in place.children)
    requires from <= place.children && Complete(files, from, place.children)
    modifies files`traversed, place
    ensures Marked(files, place.children) && AllReachable(files, start, place.children)
    ensures old(place.children) <= place.children && (node.deps[i].present ==> node.deps[i] in place.children)
    ensures Complete(files, from, place.children)
    ensures forall d | d in node.deps[..i + 1] && d in old(place.children) :: d in place.children
    decreases |files| - |place.children|, 1
  {
    hide Within, Distinct;
    assert node.deps[i] in node.deps;
    if node.deps[i].present {
      if node == start {
        FirstReachable(files, start, node.deps[i]);
      } else {
        ReachableChild(files, start, node, node.deps[i]);
      }
    }
    ghost var found := place.children;
    DependTreeWalker(node.deps[i], place, files, start);
    CompleteTrans(files, from, found, place.children);
    PrefixHolds(found, place.children);
  }

  lemma FirstReachable(files: set<SourceFile>, start: SourceFile, d: SourceFile)
    requires d in files && d in start.deps && d.present
    ensures Reachable(files, start, d)
  {
    assert d in Within(files, start, 0);
  }

  lemma PrefixHolds(a: seq<SourceFile>, b: seq<SourceFile>)
    requires a <= b
    ensures forall f | f in a :: f in b
  {
    forall f | f in a ensures f in b {
      var i :| 0 <= i < |a| && a[i] == f;
      assert b[i] == f;
    }
  }

  lemma CompleteTrans(files: set<SourceFile>, a: seq<SourceFile>, b: seq<SourceFile>, c: seq<SourceFile>)
    requires Complete(files, a, b) && Complete(files, b, c) && b <= c
    ensures Complete(files, a, c)
  {
    forall f | f in b ensures f in c {
      var i :| 0 <= i < |b| && b[i] == f;
      assert c[i] == f;
    }
  }

  lemma {:induction false} Fits(files: set<SourceFile>, found: seq<SourceFile>)
    requires Distinct(found) && forall f | f in found :: f in files
    ensures |found| <= |files|
    decreases |found|
  {
    if found != [] {
      var n := |found| - 1;
      forall f | f in found[..n] ensures f in files - {found[n]} {
      }
      assert found[n] in found;
      assert |files - {found[n]}| == |files| - 1;
      Fits(files - {found[n]}, found[..n]);
    }
  }

  /** On any graph, cyclic or not: what is listed is what the file reaches by at least one edge over
      existing files, once each; the file itself is listed if it lies on a cycle. No mark stays. */
  method Dependencies(node: SourceFile, ghost files: set<SourceFile>) returns (ret: seq<SourceFile>)
    requires node in files && Closed(files) && forall f | f in files :: !f.traversed
    modifies files`traversed
    ensures Distinct(ret) && forall f | f in files :: f in ret <==> Reachable(files, node, f)
    ensures forall f | f in ret :: f in files
    ensures forall f | f in files :: !f.traversed
  {
    hide Reachable, Within;
    var place := new SourceDependChildren();
    var i := 0;
    while i < |node.deps|
      invariant 0 <= i <= |node.deps| && fresh(place)
      invariant Marked(files, place.children) && AllReachable(files, node, place.children)
      invariant forall d | d in node.deps[..i] && d.present :: d in place.children
      invariant Complete(files, [], place.children)
    {
      WalkChild(node, i, place, files, node, []);
      assert node.deps[..i + 1] == node.deps[..i] + [node.deps[i]];
      i := i + 1;
    }
    assert node.deps[..i] == node.deps;
    AllFound(files, node, place.children);
    ret := ClearMarks(place, files);
  }

  lemma AllFound(files: set<SourceFile>, start: SourceFile, found: seq<SourceFile>)
    requires Complete(files, [], found)
    requires forall d | d in files && d in start.deps && d.present :: d in found
    ensures forall f | Reachable(files, start, f) :: f in found
  {
    forall f | Reachable(files, start, f) ensures f in found {
      var k: nat :| f in Within(files, start, k);
      WithinComplete(files, start, found, k);
    }
  }

  method ClearMarks(place: SourceDependChildren, ghost files: set<SourceFile>) returns (ret: seq<SourceFile>)
    requires Marked(files, place.children)
    modifies files`traversed
    ensures ret == place.children && forall f | f in files :: !f.traversed
  {
    ret := [];
    var i := 0;
    while i < |place.children|
      invariant 0 <= i <= |place.children| && ret == place.children[..i]
      invariant forall f | f in files :: f.traversed <==> f in place.children[i..]
    {
      assert place.children[i..] == [place.children[i]] + place.children[i + 1..];
      assert place.children[i] in place.children;
      place.children[i].traversed := false;
      ret := ret + [place.children[i]];
      i := i + 1;
    }
  }
}
