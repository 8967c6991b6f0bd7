/**
 Cycles of parent pointers. Every node names at most one parent, which need not exist. The memoised walk
 finds exactly the nodes that reach themselves, and puts each node on a path once.
 */
module SpanCycles {
  import opened Wrappers
  import opened Sequences

  type Parents = map<string, Option<string>>

  /** The node k parent steps above n, if the steps stay among known nodes. */
  function Up(p: Parents, n: string, k: nat): Option<string> {
    if k == 0 then Some(n)
    else match Up(p, n, k - 1)
      case None => None
      case Some(m) => if m in p then p[m] else None
  }

  /** n reaches itself through one or more parent steps. */
  ghost predicate OnCycle(p: Parents, n: string) {
    exists k :: k > 0 && Up(p, n, k) == Some(n)
  }

  /** A parent step from the set stays in it or leaves the known nodes. */
  predicate Closed(p: Parents, s: set<string>) {
    forall n :: n in s ==> n in p && (p[n].Some? && p[n].value in p ==> p[n].value in s)
  }

  lemma {:induction false} UpComposes(p: Parents, n: string, a: nat, b: nat)
    ensures Up(p, n, a + b) == match Up(p, n, a) case None => None case Some(m) => Up(p, m, b)
  {
    if b > 0 {
      UpComposes(p, n, a, b - 1);
      assert a + b - 1 == a + (b - 1);
    }
  }

  /** A node whose parent step leads into a closed set that it is not in, or nowhere, is on no cycle. */
  lemma LeavesForGood(p: Parents, n: string, s: set<string>)
    requires Closed(p, s) && n in p && n !in s
    requires p[n].Some? && p[n].value in p ==> p[n].value in s
    ensures !OnCycle(p, n)
  {
    forall k: nat | k > 0 ensures Up(p, n, k) != Some(n) {
      StaysInside(p, n, s, k);
    }
  }

  lemma {:induction false} StaysInside(p: Parents, n: string, s: set<string>, k: nat)
    requires Closed(p, s) && n in p && k > 0
    requires p[n].Some? && p[n].value in p ==> p[n].value in s
    ensures Up(p, n, k).Some? && Up(p, n, k).value in p ==> Up(p, n, k).value in s
  {
    assert Up(p, n, 0) == Some(n);
    if k > 1 {
      StaysInside(p, n, s, k - 1);
    }
  }

  /** Each node of the path is the parent of the one before it. */
  predicate Chain(p: Parents, path: seq<string>) {
    && (forall i :: 0 <= i < |path| ==> path[i] in p)
    && forall i :: 0 <= i < |path| - 1 ==> p[path[i]] == Some(path[i + 1])
  }

  lemma {:induction false} AlongChain(p: Parents, path: seq<string>, i: nat, k: nat)
    requires Chain(p, path) && i + k < |path|
    ensures Up(p, path[i], k) == Some(path[i + k])
  {
    if k > 0 {
      AlongChain(p, path, i, k - 1);
      assert p[path[i + k - 1]] == Some(path[i + k - 1 + 1]);
    }
  }

  /** A chain whose last parent is its node at position c is a cycle from there on. */
  lemma ChainCloses(p: Parents, path: seq<string>, c: nat, j: nat)
    requires Chain(p, path) && c <= j < |path| && p[path[|path| - 1]] == Some(path[c])
    ensures OnCycle(p, path[j])
  {
    var last := |path| - 1;
    AlongChain(p, path, j, last - j);
    AlongChain(p, path, c, j - c);
    UpComposes(p, path[j], last - j, 1);
    assert Up(p, path[last], 0) == Some(path[last]);
    assert Up(p, path[last], 1) == Some(path[c]);
    UpComposes(p, path[j], last - j + 1, j - c);
    assert Up(p, path[j], last - j + 1 + (j - c)) == Some(path[j]);
  }

  /** What the walk knows when it stops: `closing` is where the path returned to itself, or its length. */
  lemma PathIsClassified(p: Parents, complete: set<string>, path: seq<string>, closing: nat)
    requires Closed(p, complete) && Chain(p, path) && Distinct(path) && closing <= |path|
    requires forall x :: x in path ==> x !in complete
    requires path != [] && closing < |path| ==> p[path[|path| - 1]] == Some(path[closing])
    requires path != [] && closing == |path| ==>
               (p[path[|path| - 1]].Some? && p[path[|path| - 1]].value in p ==> p[path[|path| - 1]].value in complete)
    ensures Closed(p, complete + Elements(path))
    ensures forall j :: 0 <= j < |path| ==> (OnCycle(p, path[j]) <==> closing <= j)
  {
    forall j | 0 <= j < |path| ensures OnCycle(p, path[j]) <==> closing <= j {
      if closing <= j {
        ChainCloses(p, path, closing, j);
      } else {
        var s := complete + Elements(path[j + 1..]);
        SuffixCloses(p, complete, path, closing, j);
        assert path[j] !in s;
        assert j < |path| - 1 ==> path[j + 1] == path[j + 1..][0];
        LeavesForGood(p, path[j], s);
      }
    }
    forall n | n in complete + Elements(path)
      ensures n in p && (p[n].Some? && p[n].value in p ==> p[n].value in complete + Elements(path))
    {
      if n !in complete {
        var i :| 0 <= i < |path| && path[i] == n;
        if i < |path| - 1 {
          assert path[i + 1] in path;
        } else if closing < |path| {
          assert path[closing] in path;
        }
      }
    }
  }

  lemma SuffixCloses(p: Parents, complete: set<string>, path: seq<string>, closing: nat, j: nat)
    requires Closed(p, complete) && Chain(p, path) && j < closing <= |path|
    requires closing < |path| ==> p[path[|path| - 1]] == Some(path[closing])
    requires closing == |path| ==>
               (p[path[|path| - 1]].Some? && p[path[|path| - 1]].value in p ==> p[path[|path| - 1]].value in complete)
    ensures Closed(p, complete + Elements(path[j + 1..]))
  {
    var tail := path[j + 1..];
    forall n | n in complete + Elements(tail)
      ensures n in p && (p[n].Some? && p[n].value in p ==> p[n].value in complete + Elements(tail))
    {
      if n !in complete {
        var i :| 0 <= i < |tail| && tail[i] == n;
        assert path[j + 1 + i] == n;
        if i < |tail| - 1 {
          assert tail[i + 1] in tail && p[path[j + 1 + i]] == Some(path[j + 1 + i + 1]);
        } else if closing < |path| {
          assert path[closing] == tail[closing - j - 1];
        }
      }
    }
  }

  /**
   A path of new nodes along parents, whose last parent is missing, completed, or the node at position
   `closing` of the path.
   */
  predicate Traced(p: Parents, complete: set<string>, path: seq<string>, closing: nat) {
    && Chain(p, path) && Distinct(path) && closing <= |path|
    && (forall x :: x in path ==> x !in complete)
    && (path != [] ==>
          var last := p[path[|path| - 1]];
          if closing < |path| then last == Some(path[closing])
          else last.Some? && last.value in p ==> last.value in complete)
  }

  /**
   The inner loop: follow parents from `start` until they end, reach a completed node, or return to the path,
   at position `closing` of it.
   */
  method TracePath(parents: Parents, start: string, complete: set<string>) returns (path: seq<string>, closing: nat)
    requires start in parents
    ensures Traced(parents, complete, path, closing)
    ensures start in complete || start in path
  {
    path, closing := [], 0;
    var positions: map<string, nat> := map[];
    var current := Some(start);
    while current.Some? && current.value in parents && current.value !in complete
      invariant Chain(parents, path) && Distinct(path) && closing == |path|
      invariant forall x :: x in path ==> x !in complete
      invariant path == [] ==> current == Some(start)
      invariant path != [] ==> start in path && parents[path[|path| - 1]] == current
      invariant forall x :: x in positions <==> x in path
      invariant forall x :: x in positions ==> positions[x] < |path| && path[positions[x]] == x
      decreases parents.Keys - Elements(path)
    {
      var node := current.value;
      if node in positions {
        closing := positions[node];
        break;
      }
      ghost var shorter := path;
      positions := positions[node := |path|];
      path := path + [node];
      closing := |path|;
      assert Elements(path) == Elements(shorter) + {node};
      assert forall x :: x in path <==> x in shorter || x == node;
      current := parents[node];
    }
  }

  /** `_cycle_nodes`, for the keys listed in any order. `pushes` counts the nodes put on a path. */
  method CycleNodes(parents: Parents, keys: seq<string>) returns (cycles: set<string>, pushes: nat)
    requires Elements(keys) == parents.Keys
    ensures forall n :: n in cycles <==> n in parents && OnCycle(parents, n)
    ensures pushes == |parents.Keys|
  {
    hide Classified, Traced;
    cycles, pushes := {}, 0;
    var complete: set<string> := {};
    NothingClassified(parents);
    for i := 0 to |keys|
      invariant Classified(parents, complete, cycles) && Elements(keys[..i]) <= complete
      invariant pushes == |complete|
    {
      var start := keys[i];
      assert keys[..i + 1] == keys[..i] + [start];
      assert start in Elements(keys);
      var path, closing := TracePath(parents, start, complete);
      PathClassifies(parents, complete, cycles, path, closing);
      cycles := cycles + Elements(path[closing..]);
      pushes := pushes + |path|;
      complete := complete + Elements(path);
    }
    assert keys[..|keys|] == keys;
    AllClassified(parents, complete, cycles);
  }

  /** Of the completed nodes exactly those on a cycle were collected. */
  ghost predicate Classified(p: Parents, complete: set<string>, cycles: set<string>) {
    Closed(p, complete) && forall n :: n in cycles <==> n in complete && OnCycle(p, n)
  }

  lemma NothingClassified(p: Parents)
    ensures Classified(p, {}, {})
  {
  }

  lemma AllClassified(p: Parents, complete: set<string>, cycles: set<string>)
    requires Classified(p, complete, cycles) && p.Keys <= complete
    ensures complete == p.Keys && forall n :: n in cycles <==> n in p && OnCycle(p, n)
  {
  }

  lemma PathClassifies(p: Parents, complete: set<string>, cycles: set<string>, path: seq<string>, closing: nat)
    requires Classified(p, complete, cycles) && Traced(p, complete, path, closing)
    ensures closing <= |path|
    ensures Classified(p, complete + Elements(path), cycles + Elements(path[closing..]))
    ensures |complete + Elements(path)| == |complete| + |path|
  {
    PathIsClassified(p, complete, path, closing);
    DistinctIsSetSize(path);
    Disjointly(complete, path);
    CyclesGrow(p, complete, path, closing, cycles, cycles + Elements(path[closing..]));
  }

  lemma Disjointly(a: set<string>, path: seq<string>)
    requires forall x :: x in path ==> x !in a
    ensures |a + Elements(path)| == |a| + |Elements(path)|
  {
    assert a * Elements(path) == {};
  }

  lemma CyclesGrow(p: Parents, complete: set<string>, path: seq<string>, closing: nat, before: set<string>,
                   after: set<string>)
    requires closing <= |path| && Distinct(path) && forall x :: x in path ==> x !in complete
    requires forall n :: n in before <==> n in complete && OnCycle(p, n)
    requires forall j :: 0 <= j < |path| ==> (OnCycle(p, path[j]) <==> closing <= j)
    requires after == before + Elements(path[closing..])
    ensures forall n :: n in after <==> n in complete + Elements(path) && OnCycle(p, n)
  {
  }
}
