/**
 Levels of a forest given by parent pointers, and the stack algorithm that builds its tree items down to a
 depth limit. Items are kept in one list and refer to each other by position.
 */
module SpanForests {
  import opened Wrappers
  import opened Sequences
  import opened SpanCycles

  /** All nodes, and the parent of each node that hangs below another one. */
  datatype Graph = Graph(all: set<string>, up: map<string, string>)

  ghost predicate WellFormed(g: Graph) {
    && g.up.Keys <= g.all
    && forall n :: n in g.up ==> g.up[n] in g.all
  }

  /** The nodes d - 1 steps below a root. */
  function Level(g: Graph, d: nat): set<string>
    requires d > 0
  {
    if d == 1 then g.all - g.up.Keys
    else set n | n in g.up && g.up[n] in Level(g, d - 1)
  }

  lemma {:induction false} LevelsAreDisjoint(g: Graph, n: string, d: nat, e: nat)
    requires d > 0 && e > 0 && n in Level(g, d) && n in Level(g, e)
    ensures d == e
    decreases d
  {
    if d > 1 && e > 1 {
      LevelsAreDisjoint(g, g.up[n], d - 1, e - 1);
    }
  }

  lemma {:induction false} LevelIsKnown(g: Graph, n: string, d: nat)
    requires WellFormed(g) && d > 0 && n in Level(g, d)
    ensures n in g.all
  {
  }

  /** An empty level has only empty levels below it. */
  lemma {:induction false} NothingBelowEmpty(g: Graph, d: nat, e: nat)
    requires 0 < d <= e && Level(g, d) == {}
    ensures Level(g, e) == {}
  {
    if d < e {
      NothingBelowEmpty(g, d, e - 1);
    }
  }

  // ---- every node has a level, unless parents form a cycle --------------------------------------------

  /** The parent pointers of the graph as the cycle finder sees them. */
  function Pointers(g: Graph): Parents {
    map n | n in g.up :: Some(g.up[n])
  }

  ghost predicate Acyclic(g: Graph) { forall n :: n in g.up ==> !OnCycle(Pointers(g), n) }

  /** Following parents inside a finite set that they never leave ends in a cycle. */
  lemma {:induction false} NeverLeavingCycles(p: Parents, s: set<string>, path: seq<string>) returns (c: string)
    requires forall n :: n in s ==> n in p && p[n].Some? && p[n].value in s
    requires path != [] && Chain(p, path) && Distinct(path) && Elements(path) <= s
    ensures c in s && OnCycle(p, c)
    decreases |s - Elements(path)|
  {
    var last := path[|path| - 1];
    assert last in Elements(path);
    var next := p[last].value;
    if next in path {
      var k :| 0 <= k < |path| && path[k] == next;
      ChainCloses(p, path, k, |path| - 1);
      c := last;
    } else {
      ChainExtends(p, path, next);
      hide Chain, OnCycle, Distinct;
      SmallerSet(s - Elements(path + [next]), s - Elements(path), next);
      c := NeverLeavingCycles(p, s, path + [next]);
    }
  }

  lemma ChainExtends(p: Parents, path: seq<string>, next: string)
    requires path != [] && Chain(p, path) && Distinct(path) && next !in path && next in p
    requires p[path[|path| - 1]] == Some(next)
    ensures Chain(p, path + [next]) && Distinct(path + [next])
    ensures Elements(path + [next]) == Elements(path) + {next}
  {
  }

  lemma SmallerSet(a: set<string>, b: set<string>, x: string)
    requires a <= b && x in b && x !in a
    ensures |a| < |b|
  {
    assert |b| == |b - {x}| + 1;
    SubsetSize(a, b - {x});
  }

  lemma {:induction false} SubsetSize(a: set<string>, b: set<string>)
    requires a <= b
    ensures |a| <= |b|
  {
    if a != {} {
      var x :| x in a;
      SubsetSize(a - {x}, b - {x});
    }
  }

  ghost predicate HasLevel(g: Graph, n: string) { exists d :: d > 0 && n in Level(g, d) }

  lemma LevelBelow(g: Graph, n: string)
    requires n in g.up && HasLevel(g, g.up[n])
    ensures HasLevel(g, n)
  {
    var d :| d > 0 && g.up[n] in Level(g, d);
    assert n in Level(g, d + 1);
  }

  /** Without cycles every node hangs below a root. */
  lemma EveryNodeHasLevel(g: Graph, n: string)
    requires WellFormed(g) && Acyclic(g) && n in g.all
    ensures HasLevel(g, n)
  {
    if !HasLevel(g, n) {
      var lost := set x | x in g.all && !HasLevel(g, x);
      forall x | x in lost ensures x in g.up && g.up[x] in lost {
        assert x !in g.up ==> x in Level(g, 1);
        if x in g.up && HasLevel(g, g.up[x]) {
          LevelBelow(g, x);
        }
      }
      var c := NeverLeavingCycles(Pointers(g), lost, [n]);
    }
  }

  /** If the level below the limit is empty, every node is on a level within the limit. */
  lemma WithinLimit(g: Graph, n: string, limit: nat) returns (d: nat)
    requires WellFormed(g) && Acyclic(g) && n in g.all && Level(g, limit + 1) == {}
    ensures 0 < d <= limit && n in Level(g, d)
  {
    EveryNodeHasLevel(g, n);
    d :| d > 0 && n in Level(g, d);
    if d > limit {
      NothingBelowEmpty(g, limit + 1, d);
    }
  }

  // ---- the stack algorithm ------------------------------------------------------------------------------

  datatype Item = Item(id: string, children: seq<nat>, truncated: bool)

  /** A position in the list of items that is still to be expanded, and its depth. */
  datatype Visit = Visit(item: nat, depth: nat)

  datatype Forest = Forest(items: seq<Item>, pending: seq<Visit>, omitted: nat)

  /** The children of each node, in the order they are to appear. */
  type Kids = map<string, seq<string>>

  ghost predicate KidsOf(g: Graph, kids: Kids) {
    && kids.Keys == g.all
    && forall p :: p in kids ==> Distinct(kids[p]) && forall c :: c in kids[p] <==> c in g.up && g.up[c] == p
  }

  predicate IsPending(f: Forest, i: nat) { exists k :: 0 <= k < |f.pending| && f.pending[k].item == i }

  predicate Fresh(f: Forest, g: Graph, t: Visit, limit: nat) {
    && t.item < |f.items| && f.items[t.item] == Item(f.items[t.item].id, [], false)
    && 0 < t.depth <= limit && f.items[t.item].id in Level(g, t.depth)
  }

  predicate AtChildren(f: Forest, i: nat, ids: seq<string>)
    requires i < |f.items|
  {
    && |f.items[i].children| == |ids|
    && forall j :: 0 <= j < |ids| ==> f.items[i].children[j] < |f.items| && f.items[f.items[i].children[j]].id == ids[j]
  }

  /** An expanded item has exactly the items of its children, or is cut at the limit. */
  ghost predicate Finished(f: Forest, g: Graph, kids: Kids, i: nat, limit: nat)
    requires i < |f.items|
  {
    var item := f.items[i];
    item.id in kids &&
    if item.truncated then limit > 0 && item.id in Level(g, limit) && kids[item.id] != [] && item.children == []
    else AtChildren(f, i, kids[item.id]) && exists d :: 0 < d <= limit && item.id in Level(g, d) && (d == limit ==> kids[item.id] == [])
  }

  predicate ShownAt(f: Forest, n: string, i: nat) { i < |f.items| && f.items[i].id == n }

  ghost predicate Shown(f: Forest, n: string) { exists i: nat :: ShownAt(f, n, i) }

  /** The nodes left out: children of cut items. */
  function CutOff(f: Forest, g: Graph): set<string> {
    set n | n in g.up && exists i :: 0 <= i < |f.items| && f.items[i].id == g.up[n] && f.items[i].truncated
  }

  predicate DistinctIds(f: Forest) { forall i, j :: 0 <= i < j < |f.items| ==> f.items[i].id != f.items[j].id }

  predicate DistinctVisits(f: Forest) { forall k, l :: 0 <= k < l < |f.pending| ==> f.pending[k].item != f.pending[l].item }

  /** The parent of every shown node was expanded before it. */
  ghost predicate ParentsExpanded(f: Forest, g: Graph) {
    forall i :: 0 <= i < |f.items| && f.items[i].id in g.up ==>
      exists m: nat :: ShownAt(f, g.up[f.items[i].id], m) && !IsPending(f, m)
  }

  ghost predicate Invariant(f: Forest, g: Graph, kids: Kids, limit: nat) {
    && DistinctIds(f) && DistinctVisits(f)
    && (forall i :: 0 <= i < |f.items| ==> f.items[i].id in g.all)
    && (forall k :: 0 <= k < |f.pending| ==> Fresh(f, g, f.pending[k], limit))
    && (forall i :: 0 <= i < |f.items| && !IsPending(f, i) ==> Finished(f, g, kids, i, limit))
    && (forall n :: n in Level(g, 1) ==> Shown(f, n))
    && ParentsExpanded(f, g)
    && f.omitted == |CutOff(f, g)|
  }

  function Pop(s: seq<Visit>): seq<Visit>
    requires s != []
  {
    s[..|s| - 1]
  }

  function NewItems(ids: seq<string>): (r: seq<Item>)
    ensures |r| == |ids| && forall j :: 0 <= j < |ids| ==> r[j] == Item(ids[j], [], false)
  {
    seq(|ids|, j requires 0 <= j < |ids| => Item(ids[j], [], false))
  }

  function Positions(from: nat, n: nat): (r: seq<nat>)
    ensures |r| == n && forall j :: 0 <= j < n ==> r[j] == from + j
  {
    seq(n, j requires 0 <= j < n => from + j)
  }

  function NewVisits(from: nat, n: nat, depth: nat): (r: seq<Visit>)
    ensures |r| == n && forall j :: 0 <= j < n ==> r[j] == Visit(from + j, depth)
  {
    seq(n, j requires 0 <= j < n => Visit(from + j, depth))
  }

  /** Taking the last visit: cut its item, or append its children. */
  function Cut(f: Forest, kids: Kids): Forest
    requires f.pending != [] && f.pending[|f.pending| - 1].item < |f.items|
    requires f.items[f.pending[|f.pending| - 1].item].id in kids
  {
    var x := f.pending[|f.pending| - 1].item;
    Forest(f.items[x := f.items[x].(truncated := true)], Pop(f.pending), f.omitted + |kids[f.items[x].id]|)
  }

  function Grown(f: Forest, kids: Kids): Forest
    requires f.pending != [] && f.pending[|f.pending| - 1].item < |f.items|
    requires f.items[f.pending[|f.pending| - 1].item].id in kids
  {
    var t := f.pending[|f.pending| - 1];
    var ids := kids[f.items[t.item].id];
    Forest(f.items[t.item := f.items[t.item].(children := Positions(|f.items|, |ids|))] + NewItems(ids),
           Pop(f.pending) + NewVisits(|f.items|, |ids|, t.depth + 1), f.omitted)
  }

  lemma PopPending(f: Forest, h: Forest)
    requires f.pending != [] && h.pending == Pop(f.pending) && DistinctVisits(f)
    ensures forall i: nat :: IsPending(h, i) <==> IsPending(f, i) && i != f.pending[|f.pending| - 1].item
    ensures DistinctVisits(h)
  {
  }

  lemma CutKeeps(f: Forest, g: Graph, kids: Kids, limit: nat)
    requires WellFormed(g) && KidsOf(g, kids) && Invariant(f, g, kids, limit) && f.pending != []
    requires var t := f.pending[|f.pending| - 1]; t.depth == limit && kids[f.items[t.item].id] != []
    ensures Invariant(Cut(f, kids), g, kids, limit)
  {
    var t := f.pending[|f.pending| - 1];
    var h, x, id := Cut(f, kids), t.item, f.items[t.item].id;
    assert Fresh(f, g, t, limit);
    PopPending(f, h);
    assert forall i :: 0 <= i < |h.items| ==> h.items[i].id == f.items[i].id;
    forall k | 0 <= k < |h.pending| ensures Fresh(h, g, h.pending[k], limit) {
      assert h.pending[k] == f.pending[k] && Fresh(f, g, f.pending[k], limit);
      assert IsPending(h, h.pending[k].item);
    }
    forall i | 0 <= i < |h.items| && !IsPending(h, i) ensures Finished(h, g, kids, i, limit) {
      if i != x {
        assert Finished(f, g, kids, i, limit);
      }
    }
    forall n | n in Level(g, 1) ensures Shown(h, n) {
      var i: nat :| ShownAt(f, n, i);
      assert ShownAt(h, n, i);
    }
    forall i | 0 <= i < |h.items| && h.items[i].id in g.up
      ensures exists m: nat :: ShownAt(h, g.up[h.items[i].id], m) && !IsPending(h, m)
    {
      var m: nat :| ShownAt(f, g.up[f.items[i].id], m) && !IsPending(f, m);
      assert ShownAt(h, g.up[h.items[i].id], m);
    }
    CutCounts(f, h, g, kids, x, id);
  }

  lemma CutCounts(f: Forest, h: Forest, g: Graph, kids: Kids, x: nat, id: string)
    requires WellFormed(g) && KidsOf(g, kids) && DistinctIds(f)
    requires x < |f.items| && f.items[x].id == id && id in kids && !f.items[x].truncated
    requires h.items == f.items[x := f.items[x].(truncated := true)]
    ensures |CutOff(h, g)| == |CutOff(f, g)| + |kids[id]|
  {
    var own := Elements(kids[id]);
    forall n ensures n in CutOff(h, g) <==> n in CutOff(f, g) || n in own {
      if n in CutOff(f, g) {
        var i :| 0 <= i < |f.items| && f.items[i].id == g.up[n] && f.items[i].truncated;
        assert h.items[i].id == g.up[n] && h.items[i].truncated;
      }
      if n in own {
        assert h.items[x].id == g.up[n] && h.items[x].truncated;
      }
    }
    assert CutOff(h, g) == CutOff(f, g) + own;
    forall i | 0 <= i < |f.items| && f.items[i].truncated ensures f.items[i].id != id {
      assert i < x || x < i;
    }
    assert CutOff(f, g) * own == {};
    DistinctIsSetSize(kids[id]);
  }

  lemma GrownKeeps(f: Forest, g: Graph, kids: Kids, limit: nat)
    requires WellFormed(g) && KidsOf(g, kids) && Invariant(f, g, kids, limit) && f.pending != []
    requires var t := f.pending[|f.pending| - 1]; t.depth < limit || kids[f.items[t.item].id] == []
    ensures Invariant(Grown(f, kids), g, kids, limit)
  {
    var t := f.pending[|f.pending| - 1];
    assert forall k :: 0 <= k < |f.pending| ==> Fresh(f, g, f.pending[k], limit);
    var h := Grown(f, kids);
    GrownPending(f, h, kids);
    GrownIds(f, h, g, kids, limit);
    GrownFresh(f, h, g, kids, limit);
    GrownShows(f, h, g, kids, limit);
    forall i | 0 <= i < |h.items| && !IsPending(h, i) ensures Finished(h, g, kids, i, limit) {
      GrownFinished(f, h, g, kids, limit, i);
    }
  }

  lemma GrownFresh(f: Forest, h: Forest, g: Graph, kids: Kids, limit: nat)
    requires KidsOf(g, kids) && f.pending != [] && DistinctVisits(f)
    requires forall k :: 0 <= k < |f.pending| ==> Fresh(f, g, f.pending[k], limit)
    requires var t := f.pending[|f.pending| - 1];
             t.item < |f.items| && f.items[t.item].id in kids && (t.depth < limit || kids[f.items[t.item].id] == [])
    requires h == Grown(f, kids)
    ensures forall k :: 0 <= k < |h.pending| ==> Fresh(h, g, h.pending[k], limit)
  {
  }

  lemma GrownItems(f: Forest, h: Forest, kids: Kids)
    requires f.pending != [] && f.pending[|f.pending| - 1].item < |f.items|
    requires f.items[f.pending[|f.pending| - 1].item].id in kids && h == Grown(f, kids)
    ensures |f.items| <= |h.items|
    ensures forall i :: 0 <= i < |f.items| ==>
      h.items[i].id == f.items[i].id && h.items[i].truncated == f.items[i].truncated
    ensures forall i :: |f.items| <= i < |h.items| ==>
              h.items[i].id in kids[f.items[f.pending[|f.pending| - 1].item].id] && !h.items[i].truncated
  {
  }

  lemma GrownShows(f: Forest, h: Forest, g: Graph, kids: Kids, limit: nat)
    requires WellFormed(g) && KidsOf(g, kids) && Invariant(f, g, kids, limit) && f.pending != []
    requires Fresh(f, g, f.pending[|f.pending| - 1], limit) && h == Grown(f, kids)
    requires forall i: nat :: IsPending(h, i) <==>
              (IsPending(f, i) && i != f.pending[|f.pending| - 1].item) || |f.items| <= i < |h.items|
    ensures forall n :: n in Level(g, 1) ==> Shown(h, n)
    ensures ParentsExpanded(h, g) && CutOff(h, g) == CutOff(f, g)
  {
    GrownItems(f, h, kids);
    GrownParents(f, h, g, kids);
    hide Grown, IsPending, Fresh, KidsOf, ParentsExpanded, Finished, DistinctIds, DistinctVisits;
    forall n | n in Level(g, 1) ensures Shown(h, n) {
      var i: nat :| ShownAt(f, n, i);
      assert ShownAt(h, n, i);
    }
    CutOffStays(f, h, g);
  }

  lemma CutOffStays(f: Forest, h: Forest, g: Graph)
    requires |f.items| <= |h.items|
    requires forall i :: 0 <= i < |f.items| ==>
      h.items[i].id == f.items[i].id && h.items[i].truncated == f.items[i].truncated
    requires forall i :: |f.items| <= i < |h.items| ==> !h.items[i].truncated
    ensures CutOff(h, g) == CutOff(f, g)
  {
  }

  lemma GrownParents(f: Forest, h: Forest, g: Graph, kids: Kids)
    requires WellFormed(g) && KidsOf(g, kids) && ParentsExpanded(f, g) && f.pending != []
    requires f.pending[|f.pending| - 1].item < |f.items|
    requires f.items[f.pending[|f.pending| - 1].item].id in kids && h == Grown(f, kids)
    requires forall i: nat :: IsPending(h, i) <==>
              (IsPending(f, i) && i != f.pending[|f.pending| - 1].item) || |f.items| <= i < |h.items|
    ensures ParentsExpanded(h, g)
  {
    GrownItems(f, h, kids);
    hide Grown, IsPending;
    var x := f.pending[|f.pending| - 1].item;
    forall i | 0 <= i < |h.items| && h.items[i].id in g.up
      ensures exists m: nat :: ShownAt(h, g.up[h.items[i].id], m) && !IsPending(h, m)
    {
      if i < |f.items| {
        var a: nat :| ShownAt(f, g.up[f.items[i].id], a) && !IsPending(f, a);
        assert ShownAt(h, g.up[h.items[i].id], a) && !IsPending(h, a);
      } else {
        assert ShownAt(h, g.up[h.items[i].id], x) && !IsPending(h, x);
      }
    }
  }

  lemma GrownPending(f: Forest, h: Forest, kids: Kids)
    requires f.pending != [] && f.pending[|f.pending| - 1].item < |f.items|
    requires f.items[f.pending[|f.pending| - 1].item].id in kids
    requires h == Grown(f, kids) && DistinctVisits(f)
    requires forall k :: 0 <= k < |f.pending| ==> f.pending[k].item < |f.items|
    ensures DistinctVisits(h)
    ensures forall i: nat :: IsPending(h, i) <==>
              (IsPending(f, i) && i != f.pending[|f.pending| - 1].item) || |f.items| <= i < |h.items|
  {
    var m, n := |f.items|, |f.pending| - 1;
    forall i: nat ensures IsPending(h, i) <==> (IsPending(f, i) && i != f.pending[n].item) || m <= i < |h.items| {
      if IsPending(f, i) && i != f.pending[n].item {
        var k :| 0 <= k < |f.pending| && f.pending[k].item == i;
        assert h.pending[k].item == i;
      }
      if m <= i < |h.items| {
        assert h.pending[n + (i - m)].item == i;
      }
    }
  }

  lemma GrownIds(f: Forest, h: Forest, g: Graph, kids: Kids, limit: nat)
    requires WellFormed(g) && KidsOf(g, kids) && Invariant(f, g, kids, limit) && f.pending != []
    requires Fresh(f, g, f.pending[|f.pending| - 1], limit)
    requires h == Grown(f, kids)
    ensures DistinctIds(h) && forall i :: 0 <= i < |h.items| ==> h.items[i].id in g.all
  {
  }

  lemma GrownFinished(f: Forest, h: Forest, g: Graph, kids: Kids, limit: nat, i: nat)
    requires WellFormed(g) && KidsOf(g, kids) && Invariant(f, g, kids, limit) && f.pending != []
    requires var t := f.pending[|f.pending| - 1];
             Fresh(f, g, t, limit) && (t.depth < limit || kids[f.items[t.item].id] == [])
    requires h == Grown(f, kids) && i < |h.items| && !IsPending(h, i)
    requires forall i: nat :: IsPending(h, i) <==>
              (IsPending(f, i) && i != f.pending[|f.pending| - 1].item) || |f.items| <= i < |h.items|
    ensures Finished(h, g, kids, i, limit)
  {
    var t := f.pending[|f.pending| - 1];
    assert i < |f.items| && t.item < |f.items| && f.items[t.item].id in kids;
    hide Invariant, Fresh, Grown;
    if i == t.item {
      GrownExpanded(f, h, g, kids, limit);
    } else {
      GrownOthers(f, h, kids, i);
      assert !IsPending(f, i) && Finished(f, g, kids, i, limit) by { PendingOrFinished(f, g, kids, limit, i); }
      FinishedStays(f, h, g, kids, i, limit);
    }
  }

  lemma PendingOrFinished(f: Forest, g: Graph, kids: Kids, limit: nat, i: nat)
    requires Invariant(f, g, kids, limit) && i < |f.items| && !IsPending(f, i)
    ensures Finished(f, g, kids, i, limit)
  {
    hide Finished;
  }

  lemma GrownOthers(f: Forest, h: Forest, kids: Kids, i: nat)
    requires f.pending != [] && f.pending[|f.pending| - 1].item < |f.items|
    requires f.items[f.pending[|f.pending| - 1].item].id in kids
    requires h == Grown(f, kids) && i < |f.items| && i != f.pending[|f.pending| - 1].item
    ensures |f.items| <= |h.items| && h.items[i] == f.items[i]
    ensures forall k :: 0 <= k < |f.items| ==> h.items[k].id == f.items[k].id
  {
  }

  lemma GrownExpanded(f: Forest, h: Forest, g: Graph, kids: Kids, limit: nat)
    requires f.pending != []
    requires var t := f.pending[|f.pending| - 1];
             Fresh(f, g, t, limit) && f.items[t.item].id in kids && (t.depth < limit || kids[f.items[t.item].id] == [])
    requires h == Grown(f, kids)
    ensures f.pending[|f.pending| - 1].item < |h.items| && Finished(h, g, kids, f.pending[|f.pending| - 1].item, limit)
  {
    GrownChildren(f, h, kids);
    hide Level, AtChildren, Grown;
    var t := f.pending[|f.pending| - 1];
    assert 0 < t.depth <= limit && h.items[t.item].id in Level(g, t.depth);
  }

  lemma GrownChildren(f: Forest, h: Forest, kids: Kids)
    requires f.pending != [] && f.pending[|f.pending| - 1].item < |f.items|
    requires f.items[f.pending[|f.pending| - 1].item].id in kids && h == Grown(f, kids)
    ensures var x := f.pending[|f.pending| - 1].item;
            && x < |h.items| && h.items[x].id == f.items[x].id && h.items[x].truncated == f.items[x].truncated
            && AtChildren(h, x, kids[f.items[x].id])
  {
  }

  lemma FinishedStays(f: Forest, h: Forest, g: Graph, kids: Kids, i: nat, limit: nat)
    requires i < |f.items| <= |h.items| && h.items[i] == f.items[i] && Finished(f, g, kids, i, limit)
    requires forall k :: 0 <= k < |f.items| ==> h.items[k].id == f.items[k].id
    ensures Finished(h, g, kids, i, limit)
  {
  }

  /** The work left: nodes not yet shown, then tasks. */
  lemma ItemsAreNodes(f: Forest, g: Graph)
    requires DistinctIds(f) && forall i :: 0 <= i < |f.items| ==> f.items[i].id in g.all
    ensures |f.items| <= |g.all|
  {
    var ids := seq(|f.items|, i requires 0 <= i < |f.items| => f.items[i].id);
    assert Distinct(ids);
    DistinctIsSetSize(ids);
    assert Elements(ids) <= g.all;
    SubsetSize(Elements(ids), g.all);
  }

  /** The loop over the pending stack in `build_span_tree`. */
  method Expand(ghost g: Graph, kids: Kids, start: Forest, limit: nat) returns (f: Forest)
    requires WellFormed(g) && KidsOf(g, kids) && Invariant(start, g, kids, limit)
    ensures f.pending == [] && Invariant(f, g, kids, limit)
    ensures |start.items| <= |f.items| && forall i :: 0 <= i < |start.items| ==> f.items[i].id == start.items[i].id
  {
    f := start;
    while f.pending != []
      invariant Invariant(f, g, kids, limit)
      invariant |start.items| <= |f.items| && forall i :: 0 <= i < |start.items| ==> f.items[i].id == start.items[i].id
      decreases |g.all| - |f.items|, |f.pending|
    {
      var t := f.pending[|f.pending| - 1];
      assert Fresh(f, g, t, limit);
      ItemsAreNodes(f, g);
      var children := kids[f.items[t.item].id];
      if t.depth >= limit && children != [] {
        CutKeeps(f, g, kids, limit);
        f := Cut(f, kids);
      } else {
        GrownKeeps(f, g, kids, limit);
        ghost var grown := Grown(f, kids);
        ItemsAreNodes(grown, g);
        f := AppendChildren(f, kids);
      }
    }
  }

  /** The inner loop: one new item and one new visit for each child. */
  method AppendChildren(f: Forest, kids: Kids) returns (r: Forest)
    requires f.pending != [] && f.pending[|f.pending| - 1].item < |f.items|
    requires f.items[f.pending[|f.pending| - 1].item] == Item(f.items[f.pending[|f.pending| - 1].item].id, [], false)
    requires f.items[f.pending[|f.pending| - 1].item].id in kids
    ensures r == Grown(f, kids)
  {
    var t := f.pending[|f.pending| - 1];
    var children, m := kids[f.items[t.item].id], |f.items|;
    r := f.(pending := Pop(f.pending));
    for j := 0 to |children|
      invariant r.omitted == f.omitted
      invariant r.items == f.items[t.item := f.items[t.item].(children := Positions(m, j))] + NewItems(children[..j])
      invariant r.pending == Pop(f.pending) + NewVisits(m, j, t.depth + 1)
    {
      var position := |r.items|;
      var item := r.items[t.item];
      assert Positions(m, j + 1) == Positions(m, j) + [position];
      assert NewItems(children[..j + 1]) == NewItems(children[..j]) + [Item(children[j], [], false)];
      assert NewVisits(m, j + 1, t.depth + 1) == NewVisits(m, j, t.depth + 1) + [Visit(position, t.depth + 1)];
      r := Forest(r.items[t.item := item.(children := item.children + [position])] + [Item(children[j], [], false)],
                  r.pending + [Visit(position, t.depth + 1)], r.omitted);
    }
    assert children[..|children|] == children;
  }

  // ---- what the finished forest shows ---------------------------------------------------------------------

  /** Every node within the limit is shown, and no other. */
  lemma {:induction false} ShowsLevels(f: Forest, g: Graph, kids: Kids, limit: nat, n: string, d: nat)
    requires WellFormed(g) && KidsOf(g, kids) && Invariant(f, g, kids, limit) && f.pending == []
    requires 0 < d <= limit && n in Level(g, d)
    ensures Shown(f, n)
    decreases d
  {
    if d > 1 {
      var p := g.up[n];
      ShowsLevels(f, g, kids, limit, p, d - 1);
      var i: nat :| ShownAt(f, p, i);
      assert Finished(f, g, kids, i, limit);
      if f.items[i].truncated {
        LevelsAreDisjoint(g, p, d - 1, limit);
      }
      assert n in kids[p];
      var j :| 0 <= j < |kids[p]| && kids[p][j] == n;
      assert ShownAt(f, n, f.items[i].children[j]);
    }
  }

  lemma ShownIsWithin(f: Forest, g: Graph, kids: Kids, limit: nat, i: nat)
    requires Invariant(f, g, kids, limit) && f.pending == [] && kids.Keys == g.all && i < |f.items|
    ensures exists d :: 0 < d <= limit && f.items[i].id in Level(g, d)
  {
    assert Finished(f, g, kids, i, limit);
  }

  /** The omitted edges lead to exactly the nodes one step below the limit. */
  lemma OmittedIsNextLevel(f: Forest, g: Graph, kids: Kids, limit: nat)
    requires WellFormed(g) && KidsOf(g, kids) && Invariant(f, g, kids, limit) && f.pending == [] && limit > 0
    ensures f.omitted == |Level(g, limit + 1)|
  {
    forall n ensures n in CutOff(f, g) <==> n in Level(g, limit + 1) {
      if n in CutOff(f, g) {
        var i :| 0 <= i < |f.items| && f.items[i].id == g.up[n] && f.items[i].truncated;
        assert Finished(f, g, kids, i, limit);
      }
      if n in Level(g, limit + 1) {
        var p := g.up[n];
        ShowsLevels(f, g, kids, limit, p, limit);
        var i: nat :| ShownAt(f, p, i);
        assert Finished(f, g, kids, i, limit);
        assert n in kids[p];
        if !f.items[i].truncated {
          var d :| 0 < d <= limit && p in Level(g, d) && (d == limit ==> kids[p] == []);
          LevelsAreDisjoint(g, p, d, limit);
        }
        assert f.items[i].id == g.up[n] && f.items[i].truncated;
      }
    }
    assert CutOff(f, g) == Level(g, limit + 1);
  }
}
