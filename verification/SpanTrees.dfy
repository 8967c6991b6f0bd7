/**
 Rebuilding the forest of spans of a trace from untrusted records: duplicate, malformed and cyclic parent
 pointers included.
 */
module SpanTrees {
  import opened Wrappers
  import opened Sequences
  import opened Orderings
  import opened SpanCycles
  import opened SpanForests

  const MAX_TREE_DEPTH := 128

  /** A field of a record: missing (or null, or zero), a string or integer in its text form, or anything else. */
  datatype Value = Missing | Text(s: string) | Other

  datatype Raw = NotAnObject | Span(id: Value, parent: Value, data: int)

  predicate Digit(c: char) { '0' <= c <= '9' }

  predicate Hex(c: char) { Digit(c) || 'a' <= c <= 'f' || 'A' <= c <= 'F' }

  function Lower(s: string): (r: string)
    ensures |r| == |s|
    ensures forall i :: 0 <= i < |s| ==> r[i] == if 'A' <= s[i] <= 'Z' then s[i] - 'A' + 'a' else s[i]
  {
    if s == [] then [] else [if 'A' <= s[0] <= 'Z' then s[0] - 'A' + 'a' else s[0]] + Lower(s[1..])
  }

  predicate All(s: string, p: char -> bool) { forall c :: c in s ==> p(c) }

  /** `_safe_span_id`: sixteen hexadecimal digits, in lower case, or up to twenty decimal ones; never all zero. */
  function SafeSpanId(v: Value): Option<string> {
    if !v.Text? || !((|v.s| == 16 && All(v.s, Hex)) || (1 <= |v.s| <= 20 && All(v.s, Digit))) then None
    else if AllZero(v.s) then None
    else if |v.s| == 16 && All(v.s, Hex) then Some(Lower(v.s))
    else Some(v.s)
  }

  predicate AllZero(s: string) { forall c :: c in s ==> c == '0' }

  lemma LowerHex(s: string)
    requires All(s, Hex)
    ensures All(Lower(s), Hex) && Lower(Lower(s)) == Lower(s) && (AllZero(Lower(s)) ==> AllZero(s))
  {
    var l := Lower(s);
    forall i | 0 <= i < |s| ensures Hex(l[i]) && !('A' <= l[i] <= 'Z') && (l[i] == '0' <==> s[i] == '0') {
      assert s[i] in s;
    }
    forall c | c in l ensures Hex(c) {
      var i :| 0 <= i < |l| && l[i] == c;
    }
    if AllZero(l) {
      forall c | c in s ensures c == '0' {
        var i :| 0 <= i < |s| && s[i] == c;
        assert l[i] in l;
      }
    }
  }

  /**
   A safe id is its own spelling. Only the letter case of ids of sixteen hexadecimal digits is unified: the decimal ids
   "7" and "007" are both accepted and stay different.
   */
  lemma SafeIdsAreCanonical(v: Value)
    ensures SafeSpanId(v).Some? ==> SafeSpanId(Text(SafeSpanId(v).value)) == SafeSpanId(v)
  {
    if SafeSpanId(v).Some? && |v.s| == 16 && All(v.s, Hex) {
      LowerHex(v.s);
      hide Lower, Hex, Digit;
    }
  }

  // ---- what an id is ---------------------------------------------------------------------------------

  predicate SixteenHex(s: string) { |s| == 16 && forall i :: 0 <= i < 16 ==> Hex(s[i]) }

  predicate Decimal(s: string) { 1 <= |s| <= 20 && forall i :: 0 <= i < |s| ==> Digit(s[i]) }

  predicate UpToCase(c: char, d: char) {
    c == d || ('A' <= c <= 'F' && d == c - 'A' + 'a') || ('A' <= d <= 'F' && c == d - 'A' + 'a')
  }

  /** The texts are equal, or sixteen hexadecimal digits that agree up to letter case. */
  predicate SameId(s: string, t: string) {
    s == t || (SixteenHex(s) && SixteenHex(t) && forall i :: 0 <= i < 16 ==> UpToCase(s[i], t[i]))
  }

  predicate IsId(s: string) {
    (SixteenHex(s) || Decimal(s)) && exists i :: 0 <= i < |s| && s[i] != '0'
  }

  lemma AllHex(s: string)
    ensures |s| == 16 && All(s, Hex) <==> SixteenHex(s)
  {
    if |s| == 16 && All(s, Hex) {
      assert forall i :: 0 <= i < 16 ==> s[i] in s;
    }
  }

  lemma AllDigits(s: string)
    ensures 1 <= |s| <= 20 && All(s, Digit) <==> Decimal(s)
  {
    if All(s, Digit) {
      assert forall i :: 0 <= i < |s| ==> s[i] in s;
    }
  }

  lemma NotAllZero(s: string)
    ensures !AllZero(s) <==> exists i :: 0 <= i < |s| && s[i] != '0'
  {
    if AllZero(s) {
      assert forall i :: 0 <= i < |s| ==> s[i] in s;
    }
  }

  lemma LowerIsId(s: string)
    requires IsId(s) && SixteenHex(s)
    ensures IsId(Lower(s)) && SameId(s, Lower(s))
  {
    assert SixteenHex(Lower(s)) && forall i :: 0 <= i < 16 ==> UpToCase(s[i], Lower(s)[i]);
    var i :| 0 <= i < 16 && s[i] != '0';
    assert Lower(s)[i] != '0';
  }

  /** Every text of sixteen hexadecimal digits is an id, and every decimal one up to twenty, unless it is all zero. */
  lemma AcceptsExactlyIds(v: Value)
    ensures SafeSpanId(v).Some? <==> v.Text? && IsId(v.s)
    ensures SafeSpanId(v).Some? ==> SameId(v.s, SafeSpanId(v).value) && IsId(SafeSpanId(v).value)
  {
    if v.Text? {
      AllHex(v.s);
      AllDigits(v.s);
      NotAllZero(v.s);
      hide All, AllZero, Lower, SixteenHex, Decimal;
      if IsId(v.s) && SixteenHex(v.s) {
        LowerIsId(v.s);
      }
    }
  }

  /** Two texts have the same id exactly if they are the same up to the letter case of hexadecimal ones. */
  lemma IdsAgreeExactly(s: string, t: string)
    requires IsId(s) && IsId(t)
    ensures SafeSpanId(Text(s)) == SafeSpanId(Text(t)) <==> SameId(s, t)
  {
    AcceptsExactlyIds(Text(s));
    AcceptsExactlyIds(Text(t));
    HexIds(s);
    HexIds(t);
    if SixteenHex(s) && SixteenHex(t) {
      LowersAgree(s, t);
    }
  }

  lemma HexIds(s: string)
    requires IsId(s)
    ensures SafeSpanId(Text(s)) == Some(if SixteenHex(s) then Lower(s) else s)
  {
    AllHex(s);
    AllDigits(s);
    NotAllZero(s);
    hide All, AllZero, Lower, SixteenHex, Decimal;
  }

  lemma LowersAgree(s: string, t: string)
    requires SixteenHex(s) && SixteenHex(t)
    ensures Lower(s) == Lower(t) <==> forall i :: 0 <= i < 16 ==> UpToCase(s[i], t[i])
  {
    forall i | 0 <= i < 16 ensures Lower(s)[i] == Lower(t)[i] <==> UpToCase(s[i], t[i]) {
      LowerAgrees(s[i], t[i]);
    }
    hide UpToCase, Lower, Hex;
    if forall i :: 0 <= i < 16 ==> UpToCase(s[i], t[i]) {
      assert forall i :: 0 <= i < 16 ==> Lower(s)[i] == Lower(t)[i];
    }
  }

  lemma LowerAgrees(c: char, d: char)
    requires Hex(c) && Hex(d)
    ensures UpToCase(c, d) <==>
      (if 'A' <= c <= 'Z' then c - 'A' + 'a' else c) == (if 'A' <= d <= 'Z' then d - 'A' + 'a' else d)
  {
  }

  datatype Node = Node(parentPresent: bool, parent: Option<string>, data: int)

  function NodeOf(r: Raw): Node
    requires r.Span?
  {
    Node(r.parent != Missing && r.parent != Text("") && r.parent != Text("0"), SafeSpanId(r.parent), r.data)
  }

  function IdOf(r: Raw): Option<string> { if r.Span? then SafeSpanId(r.id) else None }

  datatype ParentStatus = IsRoot | InCycle | MissingParent | BoundedParentMissing | InvalidParentId | Connected

  // ---- collecting the nodes ---------------------------------------------------------------------------

  function CountOthers(raw: seq<Raw>): nat {
    if raw == [] then 0 else CountOthers(raw[..|raw| - 1]) + if raw[|raw| - 1].NotAnObject? then 1 else 0
  }

  function CountInvalid(raw: seq<Raw>): nat {
    if raw == [] then 0
    else CountInvalid(raw[..|raw| - 1]) + if raw[|raw| - 1].Span? && IdOf(raw[|raw| - 1]).None? then 1 else 0
  }

  /** The record at i is the first one with its id. */
  predicate FirstAt(raw: seq<Raw>, i: nat, id: string) {
    i < |raw| && IdOf(raw[i]) == Some(id) && forall k :: 0 <= k < i ==> IdOf(raw[k]) != Some(id)
  }

  /** Exactly the ids that occur, each with the data of its first record. */
  ghost predicate Collected(raw: seq<Raw>, nodes: map<string, Node>) {
    && (forall i :: 0 <= i < |raw| && IdOf(raw[i]).Some? ==> IdOf(raw[i]).value in nodes)
    && forall id :: id in nodes ==> exists i: nat :: FirstAt(raw, i, id) && nodes[id] == NodeOf(raw[i])
  }

  lemma CollectedStep(raw: seq<Raw>, i: nat, nodes: map<string, Node>)
    requires i < |raw| && Collected(raw[..i], nodes)
    ensures IdOf(raw[i]).None? || IdOf(raw[i]).value in nodes ==> Collected(raw[..i + 1], nodes)
    ensures IdOf(raw[i]).Some? && IdOf(raw[i]).value !in nodes ==>
              Collected(raw[..i + 1], nodes[IdOf(raw[i]).value := NodeOf(raw[i])])
  {
    var a, b := raw[..i], raw[..i + 1];
    assert b == a + [raw[i]];
    forall id, k: nat | FirstAt(a, k, id) ensures FirstAt(b, k, id) {
    }
    forall id | id in nodes ensures exists k: nat :: FirstAt(b, k, id) && nodes[id] == NodeOf(b[k]) {
      var k: nat :| FirstAt(a, k, id) && nodes[id] == NodeOf(a[k]);
      assert FirstAt(b, k, id) && nodes[id] == NodeOf(b[k]);
    }
    if IdOf(raw[i]).Some? && IdOf(raw[i]).value !in nodes {
      var id := IdOf(raw[i]).value;
      assert FirstAt(b, i, id);
    }
  }

  /** The first loop of `build_span_tree`. */
  method Collect(selected: seq<Raw>) returns (order: seq<string>, nodes: map<string, Node>, duplicates: nat,
                 invalid: nat)
    ensures Collected(selected, nodes) && Distinct(order) && Elements(order) == nodes.Keys
    ensures invalid == CountInvalid(selected)
    ensures |nodes| + duplicates + invalid + CountOthers(selected) == |selected|
  {
    hide Collected, Distinct, SafeSpanId, CountOthers, CountInvalid, NodeOf, Elements;
    order, nodes, duplicates, invalid := [], map[], 0, 0;
    NothingCollected(selected);
    for i := 0 to |selected|
      invariant Collected(selected[..i], nodes) && Distinct(order) && Elements(order) == nodes.Keys
      invariant |order| == |nodes|
      invariant invalid == CountInvalid(selected[..i])
      invariant |order| + duplicates + invalid + CountOthers(selected[..i]) == i
    {
      var span := selected[i];
      CollectedStep(selected, i, nodes);
      CountStep(selected, i);
      if span.Span? {
        var id := SafeSpanId(span.id);
        if id.None? {
          invalid := invalid + 1;
        } else if id.value in nodes {
          duplicates := duplicates + 1;
        } else {
          NewIsDistinct(order, id.value);
          nodes := nodes[id.value := NodeOf(span)];
          order := order + [id.value];
        }
      }
    }
    assert selected[..|selected|] == selected;
  }

  lemma CountStep(raw: seq<Raw>, i: nat)
    requires i < |raw|
    ensures CountOthers(raw[..i + 1]) == CountOthers(raw[..i]) + if raw[i].NotAnObject? then 1 else 0
    ensures CountInvalid(raw[..i + 1]) == CountInvalid(raw[..i]) + if raw[i].Span? && IdOf(raw[i]).None? then 1 else 0
  {
    assert raw[..i + 1][..i] == raw[..i];
  }

  lemma NothingCollected(raw: seq<Raw>)
    ensures Collected(raw[..0], map[]) && Distinct<string>([]) && Elements<string>([]) == {}
    ensures CountInvalid(raw[..0]) == 0 == CountOthers(raw[..0])
  {
  }

  lemma NewIsDistinct(s: seq<string>, x: string)
    requires Distinct(s) && x !in Elements(s)
    ensures Distinct(s + [x]) && Elements(s + [x]) == Elements(s) + {x}
  {
    assert forall i :: 0 <= i < |s| ==> s[i] in Elements(s);
  }

  // ---- classifying parents ----------------------------------------------------------------------------

  function ParentIds(nodes: map<string, Node>): Parents {
    map n | n in nodes :: nodes[n].parent
  }

  function Status(nodes: map<string, Node>, bounded: bool, cycles: set<string>, n: string): ParentStatus
    requires n in nodes
  {
    if nodes[n].parentPresent && nodes[n].parent.None? then InvalidParentId
    else if !nodes[n].parentPresent then IsRoot
    else if n in cycles then InCycle
    else if nodes[n].parent.value !in nodes then (if bounded then BoundedParentMissing else MissingParent)
    else Connected
  }

  /** Connected nodes below their parents; every other node is a root. */
  function GraphOf(nodes: map<string, Node>, bounded: bool, cycles: set<string>): Graph {
    Graph(nodes.Keys, map n | n in nodes && Status(nodes, bounded, cycles, n) == Connected :: nodes[n].parent.value)
  }

  ghost predicate FindsCycles(nodes: map<string, Node>, cycles: set<string>) {
    forall n :: n in cycles <==> n in nodes && OnCycle(ParentIds(nodes), n)
  }

  lemma {:induction false} PointersFollowParents(nodes: map<string, Node>, bounded: bool, cycles: set<string>,
                                                 n: string, k: nat)
    requires Up(Pointers(GraphOf(nodes, bounded, cycles)), n, k).Some?
    ensures Up(ParentIds(nodes), n, k) == Up(Pointers(GraphOf(nodes, bounded, cycles)), n, k)
  {
    if k > 0 {
      PointersFollowParents(nodes, bounded, cycles, n, k - 1);
    }
  }

  lemma GraphIsAcyclic(nodes: map<string, Node>, bounded: bool, cycles: set<string>)
    requires FindsCycles(nodes, cycles)
    ensures WellFormed(GraphOf(nodes, bounded, cycles)) && Acyclic(GraphOf(nodes, bounded, cycles))
  {
    var g := GraphOf(nodes, bounded, cycles);
    forall n | n in g.up ensures !OnCycle(Pointers(g), n) {
      forall k | k > 0 && Up(Pointers(g), n, k) == Some(n) ensures OnCycle(ParentIds(nodes), n) {
        PointersFollowParents(nodes, bounded, cycles, n, k);
      }
    }
  }

  /** A node on a cycle is a root and no node's child; every other present, known parent is followed. */
  lemma CycleMembersAreRoots(nodes: map<string, Node>, bounded: bool, cycles: set<string>, n: string)
    requires FindsCycles(nodes, cycles) && n in nodes
    ensures var g := GraphOf(nodes, bounded, cycles);
            && (OnCycle(ParentIds(nodes), n) ==> n in Level(g, 1))
            && (n in g.up <==> nodes[n].parentPresent && nodes[n].parent.Some? && nodes[n].parent.value in nodes
                               && !OnCycle(ParentIds(nodes), n))
  {
  }

  // ---- from the records to the tree -----------------------------------------------------------------------

  /** The record's id is a spelling of n. */
  predicate Spells(r: Raw, n: string) { r.Span? && r.id.Text? && IsId(r.id.s) && SameId(r.id.s, n) }

  /** The record's parent is a spelling of n. */
  predicate NamesParent(r: Raw, n: string) { r.Span? && r.parent.Text? && IsId(r.parent.s) && SameId(r.parent.s, n) }

  /** Record i is the first one of span n. */
  predicate Reads(raw: seq<Raw>, i: nat, n: string) {
    i < |raw| && Spells(raw[i], n) && forall k :: 0 <= k < i ==> !Spells(raw[k], n)
  }

  predicate ReadsWith(raw: seq<Raw>, i: nat, n: string, data: int) { Reads(raw, i, n) && raw[i].data == data }

  predicate ReadsBelow(raw: seq<Raw>, i: nat, n: string, p: string) { Reads(raw, i, n) && NamesParent(raw[i], p) }

  lemma CanonicalIsOne(v: Value, n: string)
    requires SafeSpanId(Text(n)) == Some(n)
    ensures SafeSpanId(v) == Some(n) <==> v.Text? && IsId(v.s) && SameId(v.s, n)
  {
    AcceptsExactlyIds(v);
    AcceptsExactlyIds(Text(n));
    if v.Text? && IsId(v.s) {
      IdsAgreeExactly(v.s, n);
    }
    hide SafeSpanId, IsId, SameId;
  }

  lemma NodesAreCanonical(raw: seq<Raw>, nodes: map<string, Node>, n: string) returns (i: nat)
    requires Collected(raw, nodes) && n in nodes
    ensures SafeSpanId(Text(n)) == Some(n) && Reads(raw, i, n) && nodes[n] == NodeOf(raw[i])
  {
    hide SafeSpanId, IsId, SameId, NodeOf;
    i :| FirstAt(raw, i, n) && nodes[n] == NodeOf(raw[i]);
    SafeIdsAreCanonical(raw[i].id);
    forall k | 0 <= k <= i ensures IdOf(raw[k]) == Some(n) <==> Spells(raw[k], n) {
      if raw[k].Span? {
        CanonicalIsOne(raw[k].id, n);
      }
    }
  }

  /** The nodes are the spans that the records spell, each with the data of its first record. */
  ghost predicate NodesRead(raw: seq<Raw>, nodes: map<string, Node>) {
    && (forall n :: n in nodes ==> exists i: nat :: ReadsWith(raw, i, n, nodes[n].data))
    && forall i :: 0 <= i < |raw| ==> IsRead(raw[i], nodes)
  }

  ghost predicate IsRead(r: Raw, nodes: map<string, Node>) {
    r.Span? && r.id.Text? && IsId(r.id.s) ==> exists n :: n in nodes && Spells(r, n)
  }

  lemma NodesAreRead(raw: seq<Raw>, nodes: map<string, Node>)
    requires Collected(raw, nodes)
    ensures NodesRead(raw, nodes)
  {
    hide SafeSpanId, IsId, SameId, Spells, Reads, ReadsWith, FirstAt, NodeOf;
    forall n | n in nodes ensures exists i: nat :: ReadsWith(raw, i, n, nodes[n].data) {
      var i := NodesAreCanonical(raw, nodes, n);
      DataIsKept(raw, i, n);
    }
    forall i | 0 <= i < |raw| ensures IsRead(raw[i], nodes) {
      SpelledByItsId(raw[i]);
    }
  }

  lemma DataIsKept(raw: seq<Raw>, i: nat, n: string)
    requires Reads(raw, i, n)
    ensures i < |raw| && raw[i].Span? && ReadsWith(raw, i, n, NodeOf(raw[i]).data)
  {
  }

  lemma SpelledByItsId(r: Raw)
    ensures r.Span? && r.id.Text? && IsId(r.id.s) ==> IdOf(r).Some? && Spells(r, IdOf(r).value)
  {
    hide SafeSpanId, IsId, SameId;
    if r.Span? {
      AcceptsExactlyIds(r.id);
    }
  }

  /**
   A span hangs below another exactly if its first record names it as the parent, in whatever letter case, some record
   is of that parent, and the span is on no cycle.
   */
  lemma ParentsAreFollowed(raw: seq<Raw>, nodes: map<string, Node>, bounded: bool, cycles: set<string>, n: string,
                           p: string)
    requires Collected(raw, nodes) && FindsCycles(nodes, cycles) && n in nodes && p in nodes
    ensures var g := GraphOf(nodes, bounded, cycles);
      n in g.up && g.up[n] == p <==>
        !OnCycle(ParentIds(nodes), n) && exists i: nat :: ReadsBelow(raw, i, n, p)
  {
    hide SafeSpanId, IsId, SameId, OnCycle;
    CycleMembersAreRoots(nodes, bounded, cycles, n);
    ConnectedIsUp(nodes, bounded, cycles, n);
    var i := NodesAreCanonical(raw, nodes, n);
    var k := NodesAreCanonical(raw, nodes, p);
    CanonicalIsOne(raw[i].parent, p);
    ZeroIsNoId();
    assert nodes[n].parent == Some(p) <==> NamesParent(raw[i], p);
    assert NamesParent(raw[i], p) ==> nodes[n].parentPresent;
    assert NamesParent(raw[i], p) ==> ReadsBelow(raw, i, n, p);
    forall h: nat | ReadsBelow(raw, h, n, p) ensures h == i {
    }
  }

  /** So of every two nodes. */
  ghost predicate ParentsFollowed(raw: seq<Raw>, nodes: map<string, Node>, bounded: bool, cycles: set<string>) {
    forall n, p :: n in nodes && p in nodes ==>
      (HangsBelow(GraphOf(nodes, bounded, cycles), n, p) <==>
       !OnCycle(ParentIds(nodes), n) && exists i: nat :: ReadsBelow(raw, i, n, p))
  }

  predicate HangsBelow(g: Graph, n: string, p: string) { n in g.up && g.up[n] == p }

  lemma TreeIsRead(raw: seq<Raw>, nodes: map<string, Node>, bounded: bool, cycles: set<string>)
    requires Collected(raw, nodes) && FindsCycles(nodes, cycles)
    ensures NodesRead(raw, nodes) && ParentsFollowed(raw, nodes, bounded, cycles)
  {
    hide Collected, FindsCycles, OnCycle, GraphOf, ReadsBelow, NodesRead;
    NodesAreRead(raw, nodes);
    forall n, p | n in nodes && p in nodes
      ensures HangsBelow(GraphOf(nodes, bounded, cycles), n, p) <==>
              !OnCycle(ParentIds(nodes), n) && exists i: nat :: ReadsBelow(raw, i, n, p)
    {
      ParentsAreFollowed(raw, nodes, bounded, cycles, n, p);
    }
  }

  lemma ZeroIsNoId()
    ensures !IsId("") && !IsId("0")
  {
    assert forall i :: 0 <= i < |"0"| ==> "0"[i] == '0';
  }

  /** What is reported about the parent of each span. */
  lemma StatusMeans(raw: seq<Raw>, nodes: map<string, Node>, bounded: bool, cycles: set<string>, n: string)
    requires Collected(raw, nodes) && FindsCycles(nodes, cycles) && n in nodes
    ensures var parent := nodes[n].parent;
      match Status(nodes, bounded, cycles, n)
      case IsRoot => !nodes[n].parentPresent
      case InvalidParentId => nodes[n].parentPresent && parent.None?
      case InCycle => OnCycle(ParentIds(nodes), n)
      case Connected => parent.Some? && parent.value in nodes && !OnCycle(ParentIds(nodes), n)
      case MissingParent => parent.Some? && parent.value !in nodes && !bounded
      case BoundedParentMissing => parent.Some? && parent.value !in nodes && bounded
    ensures exists i: nat :: Reads(raw, i, n) && ParentOf(raw[i], nodes[n])
  {
    hide SafeSpanId, IsId, SameId, OnCycle;
    var i := NodesAreCanonical(raw, nodes, n);
    AcceptsExactlyIds(raw[i].parent);
    ZeroIsNoId();
  }

  /** A parent is given unless the field is missing, empty or zero; it is known if it is an id. */
  predicate ParentOf(r: Raw, node: Node) {
    && r.Span? && (node.parentPresent <==> r.parent !in {Missing, Text(""), Text("0")})
    && (node.parent.Some? <==> r.parent.Text? && IsId(r.parent.s))
    && (node.parent.Some? ==> SameId(r.parent.s, node.parent.value))
  }

  // ---- children ------------------------------------------------------------------------------------------

  /** The children of each node, sorted by id. */
  method SortedChildren(ghost g: Graph, nodes: map<string, Node>, order: seq<string>, bounded: bool,
                        cycles: set<string>)
    returns (kids: Kids)
    requires g == GraphOf(nodes, bounded, cycles) && Distinct(order) && Elements(order) == nodes.Keys
    ensures KidsOf(g, kids) && forall p :: p in kids ==> Sorted(kids[p])
  {
    assert g.all == nodes.Keys == Elements(order) && g.up.Keys <= g.all;
    kids := map n | n in nodes :: [];
    assert KidsAmong(g, kids, order[..0]);
    hide GraphOf, Status, Sort, Sorted, KidsOf, SortedKids, KidsAmong, Level, Elements, Distinct;
    for i := 0 to |order|
      invariant kids.Keys == nodes.Keys && KidsAmong(g, kids, order[..i])
    {
      var c := order[i];
      TakeOne(order, i);
      KidsStep(g, kids, order[..i], c);
      ConnectedIsUp(nodes, bounded, cycles, c);
      if Status(nodes, bounded, cycles, c) == Connected {
        var p := nodes[c].parent.value;
        kids := kids[p := kids[p] + [c]];
      }
    }
    assert order[..|order|] == order;
    KidsSorted(g, kids, order);
    kids := SortedKids(kids);
  }

  lemma TakeOne(order: seq<string>, i: nat)
    requires i < |order|
    ensures order[i] in Elements(order) && order[..i + 1] == order[..i] + [order[i]]
  {
  }

  function SortedKids(kids: Kids): Kids { map p | p in kids :: Sort(kids[p]) }

  lemma ConnectedIsUp(nodes: map<string, Node>, bounded: bool, cycles: set<string>, n: string)
    requires n in nodes
    ensures var g := GraphOf(nodes, bounded, cycles);
            && (Status(nodes, bounded, cycles, n) == Connected <==> n in g.up)
            && (n in g.up ==>
                  nodes[n].parent.Some? && nodes[n].parent.value in nodes && g.up[n] == nodes[n].parent.value)
            && (n in Level(g, 1) <==> n !in g.up)
  {
  }

  /** Each list holds the nodes among `seen` that hang below its node. */
  ghost predicate KidsAmong(g: Graph, kids: Kids, seen: seq<string>) {
    forall p :: p in kids ==> forall c :: c in kids[p] <==> c in seen && c in g.up && g.up[c] == p
  }

  lemma KidsStep(g: Graph, kids: Kids, seen: seq<string>, c: string)
    requires KidsAmong(g, kids, seen)
    ensures c !in g.up ==> KidsAmong(g, kids, seen + [c])
    ensures c in g.up && g.up[c] in kids ==> KidsAmong(g, kids[g.up[c] := kids[g.up[c]] + [c]], seen + [c])
  {
  }

  lemma KidsSorted(g: Graph, kids: Kids, order: seq<string>)
    requires KidsAmong(g, kids, order) && kids.Keys == g.all == Elements(order) && g.up.Keys <= g.all
    ensures KidsOf(g, SortedKids(kids)) && forall p :: p in SortedKids(kids) ==> Sorted(SortedKids(kids)[p])
  {
    var sorted := SortedKids(kids);
    forall c | c in g.up ensures c in order {
      assert c in Elements(order);
    }
    forall p | p in sorted
      ensures Sorted(sorted[p]) && Distinct(sorted[p]) && forall c :: c in sorted[p] <==> c in g.up && g.up[c] == p
    {
      SortSorts(kids[p]);
      SortedIsDistinct(sorted[p]);
    }
  }

  lemma SortedIsDistinct(s: seq<string>)
    requires Sorted(s)
    ensures Distinct(s)
  {
    forall i, j | 0 <= i < j < |s| ensures s[i] != s[j] {
      LessTotal(s[i], s[j]);
    }
  }

  // ---- the whole function ----------------------------------------------------------------------------------

  datatype SpanTree = SpanTree(
    order: seq<string>, nodes: map<string, Node>, cycles: set<string>, bounded: bool,
    roots: seq<string>, forest: Forest, duplicates: nat, invalid: nat)

  function GraphIn(t: SpanTree): Graph { GraphOf(t.nodes, t.bounded, t.cycles) }

  /** The roots as first items, in the order their spans were collected. */
  method RootItems(ghost g: Graph, kids: Kids, nodes: map<string, Node>, order: seq<string>, bounded: bool,
                   cycles: set<string>)
    returns (f: Forest, roots: seq<string>)
    requires g == GraphOf(nodes, bounded, cycles) && KidsOf(g, kids)
    requires Distinct(order) && Elements(order) == nodes.Keys
    ensures Invariant(f, g, kids, MAX_TREE_DEPTH)
    ensures Distinct(roots) && Elements(roots) == Level(g, 1) && |roots| == |f.items|
    ensures forall i :: 0 <= i < |roots| ==> f.items[i].id == roots[i]
  {
    assert g.all == nodes.Keys == Elements(order) && Level(g, 1) <= g.all;
    hide GraphOf, Status, Level, KidsOf, Invariant;
    f, roots := Forest([], [], 0), [];
    for i := 0 to |order|
      invariant |f.items| == |f.pending| == |roots| && f.omitted == 0
      invariant Distinct(roots) && forall n :: n in roots <==> n in order[..i] && n in Level(g, 1)
      invariant forall k :: 0 <= k < |roots| ==> f.items[k] == Item(roots[k], [], false) && f.pending[k] == Visit(k, 1)
    {
      var n := order[i];
      assert n in Elements(order);
      assert order[..i + 1] == order[..i] + [n];
      assert n !in order[..i];
      ConnectedIsUp(nodes, bounded, cycles, n);
      if Status(nodes, bounded, cycles, n) != Connected {
        f := Forest(f.items + [Item(n, [], false)], f.pending + [Visit(|f.items|, 1)], 0);
        roots := roots + [n];
      }
    }
    assert order[..|order|] == order;
    forall n ensures n in Elements(roots) <==> n in Level(g, 1) {
      assert n in order <==> n in Elements(order);
    }
    RootsSatisfy(f, g, kids, roots);
  }

  lemma RootsSatisfy(f: Forest, g: Graph, kids: Kids, roots: seq<string>)
    requires |f.items| == |f.pending| == |roots| && f.omitted == 0 && Distinct(roots) && Elements(roots) == Level(g, 1)
    requires forall k :: 0 <= k < |roots| ==> f.items[k] == Item(roots[k], [], false) && f.pending[k] == Visit(k, 1)
    ensures Invariant(f, g, kids, MAX_TREE_DEPTH)
  {
    assert Level(g, 1) == g.all - g.up.Keys;
    forall i | 0 <= i < |f.items| ensures f.items[i].id in g.all && f.items[i].id !in g.up && IsPending(f, i) {
      assert roots[i] in Elements(roots);
      assert f.pending[i].item == i;
    }
    forall k | 0 <= k < |f.pending| ensures Fresh(f, g, f.pending[k], MAX_TREE_DEPTH) {
      assert roots[k] in Elements(roots);
    }
    forall n | n in Level(g, 1) ensures Shown(f, n) {
      assert n in Elements(roots);
      var i :| 0 <= i < |roots| && roots[i] == n;
      assert ShownAt(f, n, i);
    }
    assert CutOff(f, g) == {};
  }

  /** `build_span_tree`, without the attributes copied from span to node. */
  method BuildSpanTree(raw: seq<Raw>, maxSpans: nat) returns (t: SpanTree, ghost kids: Kids)
    ensures var selected := if |raw| > maxSpans then raw[..maxSpans] else raw;
            && t.bounded == (|raw| > maxSpans) && Collected(selected, t.nodes)
            && Distinct(t.order) && Elements(t.order) == t.nodes.Keys
            && |t.nodes| + t.duplicates + t.invalid + CountOthers(selected) == |selected|
            && t.invalid == CountInvalid(selected)
    ensures FindsCycles(t.nodes, t.cycles)
    ensures var selected := if |raw| > maxSpans then raw[..maxSpans] else raw;
            NodesRead(selected, t.nodes) && ParentsFollowed(selected, t.nodes, t.bounded, t.cycles)
    ensures WellFormed(GraphIn(t)) && Acyclic(GraphIn(t)) && KidsOf(GraphIn(t), kids)
    ensures forall p :: p in kids ==> Sorted(kids[p])
    ensures t.forest.pending == [] && Invariant(t.forest, GraphIn(t), kids, MAX_TREE_DEPTH)
    ensures Distinct(t.roots) && Elements(t.roots) == Level(GraphIn(t), 1) && |t.roots| <= |t.forest.items|
    ensures forall i :: 0 <= i < |t.roots| ==> t.forest.items[i].id == t.roots[i]
  {
    hide Collected, Distinct, FindsCycles, Acyclic, Invariant, KidsOf, GraphOf, Level, SpanForests.WellFormed,
         NodesRead, ParentsFollowed, CountInvalid, CountOthers, Sorted;
    var bounded := |raw| > maxSpans;
    var selected := if bounded then raw[..maxSpans] else raw;
    var order, nodes, duplicates, invalid := Collect(selected);
    assert ParentIds(nodes).Keys == nodes.Keys;
    var cycles, pushes := CycleNodes(ParentIds(nodes), order);
    AreFound(nodes, cycles);
    TreeIsRead(selected, nodes, bounded, cycles);
    GraphIsAcyclic(nodes, bounded, cycles);
    ghost var g := GraphOf(nodes, bounded, cycles);
    var children := SortedChildren(g, nodes, order, bounded, cycles);
    var start, roots := RootItems(g, children, nodes, order, bounded, cycles);
    var forest := Expand(g, children, start, MAX_TREE_DEPTH);
    t := SpanTree(order, nodes, cycles, bounded, roots, forest, duplicates, invalid);
    kids := children;
  }

  lemma AreFound(nodes: map<string, Node>, cycles: set<string>)
    requires forall n :: n in cycles <==> n in ParentIds(nodes) && OnCycle(ParentIds(nodes), n)
    ensures FindsCycles(nodes, cycles)
  {
  }

  /** What `BuildSpanTree` promises of the forest. */
  ghost predicate IsBuilt(t: SpanTree, kids: Kids) {
    && WellFormed(GraphIn(t)) && Acyclic(GraphIn(t)) && KidsOf(GraphIn(t), kids)
    && t.forest.pending == [] && Invariant(t.forest, GraphIn(t), kids, MAX_TREE_DEPTH)
  }

  /**
   The shown spans are exactly the accepted ones at depth 128 or less, each once; the rest are counted one step below.
   */
  lemma ShowsUpToTheLimit(t: SpanTree, kids: Kids, n: string)
    requires IsBuilt(t, kids)
    ensures Shown(t.forest, n) <==> exists d :: 0 < d <= 128 && n in Level(GraphIn(t), d)
    ensures DistinctIds(t.forest)
    ensures t.forest.omitted == |Level(GraphIn(t), 129)|
  {
    var g := GraphIn(t);
    if i: nat :| ShownAt(t.forest, n, i) {
      ShownIsWithin(t.forest, g, kids, MAX_TREE_DEPTH, i);
    }
    if d :| 0 < d <= MAX_TREE_DEPTH && n in Level(g, d) {
      ShowsLevels(t.forest, g, kids, MAX_TREE_DEPTH, n, d);
    }
    OmittedIsNextLevel(t.forest, g, kids, MAX_TREE_DEPTH);
  }

  /** Without a depth cut every accepted span is shown, once. */
  lemma ShowsEverything(t: SpanTree, kids: Kids)
    requires IsBuilt(t, kids)
    ensures t.forest.omitted == 0 <==> forall n :: n in t.nodes ==> Shown(t.forest, n)
  {
    var g := GraphIn(t);
    OmittedIsNextLevel(t.forest, g, kids, MAX_TREE_DEPTH);
    if t.forest.omitted == 0 {
      forall n | n in t.nodes ensures Shown(t.forest, n) {
        var d := WithinLimit(g, n, MAX_TREE_DEPTH);
        ShowsLevels(t.forest, g, kids, MAX_TREE_DEPTH, n, d);
      }
    } else {
      var n :| n in Level(g, MAX_TREE_DEPTH + 1);
      LevelIsKnown(g, n, MAX_TREE_DEPTH + 1);
      ShowsUpToTheLimit(t, kids, n);
      forall d | 0 < d <= MAX_TREE_DEPTH ensures n !in Level(g, d) {
        if n in Level(g, d) {
          LevelsAreDisjoint(g, n, d, MAX_TREE_DEPTH + 1);
        }
      }
    }
  }
}
