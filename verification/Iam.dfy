/**
 Edits of a shared access policy under etags. A policy is read, one grant is added or taken out, and the result is
 written back with the etag that was read; other writers come in between as they please, and the answer to a write may
 be a failure although the write was accepted.
 */
module Iam {
  import opened Results
  import opened Wrappers

  /** A binding without members reads as one with an empty list, one without a condition as `None`. */
  datatype Binding = Binding(role: string, condition: Option<string>, members: seq<string>)

  /** `rest` stands for every other field of the policy. */
  datatype Policy = Policy(etag: Option<string>, version: Option<int>, bindings: seq<Binding>, rest: string)

  datatype Grant = Grant(role: string, condition: Option<string>, member: string)

  const MAX_ETAG_ATTEMPTS := 5

  predicate Same(b: Binding, g: Grant) { b.role == g.role && b.condition == g.condition }

  predicate Gives(b: Binding, g: Grant) { Same(b, g) && g.member in b.members }

  /** `policy_has` */
  predicate Has(bs: seq<Binding>, g: Grant) { exists b :: b in bs && Gives(b, g) }

  /** The grants a policy makes, however its bindings are split, ordered or repeated. */
  function Grants(bs: seq<Binding>): set<Grant> {
    set b, m | b in bs && m in b.members :: Grant(b.role, b.condition, m)
  }

  lemma GrantsAreGiven(bs: seq<Binding>, g: Grant)
    ensures g in Grants(bs) <==> Has(bs, g)
  {
  }

  /** An etag that is absent or empty does not count as one. */
  predicate Tagged(p: Policy) { p.etag.Some? && p.etag.value != "" }

  /** The first binding with the role and the condition of the grant. */
  function Exact(bs: seq<Binding>, g: Grant): (r: Option<nat>)
    ensures r.Some? ==> r.value < |bs| && Same(bs[r.value], g) && forall j :: 0 <= j < r.value ==> !Same(bs[j], g)
    ensures r.None? ==> forall b :: b in bs ==> !Same(b, g)
  {
    if bs == [] then None
    else if Same(bs[0], g) then Some(0)
    else match Exact(bs[1..], g)
      case None => None
      case Some(i) => Some(i + 1)
  }

  predicate AlreadyGiven(bs: seq<Binding>, g: Grant) {
    Exact(bs, g).Some? && g.member in bs[Exact(bs, g).value].members
  }

  /** The member holds the role under another condition. */
  predicate Conflicting(bs: seq<Binding>, g: Grant) {
    exists b :: b in bs && b.role == g.role && g.member in b.members && b.condition != g.condition
  }

  /** The policy `policy` writes: conditions need version 3. */
  function WithGrant(p: Policy, g: Grant): Policy {
    var version := if g.condition.Some? then Some(Max(p.version.UnwrapOr(1), 3)) else p.version;
    var bindings := match Exact(p.bindings, g)
      case Some(i) => p.bindings[i := p.bindings[i].(members := p.bindings[i].members + [g.member])]
      case None => p.bindings + [Binding(g.role, g.condition, [g.member])];
    p.(version := version, bindings := bindings)
  }

  function Max(a: int, b: int): int { if a < b then b else a }

  function RemoveFirst(s: seq<string>, x: string): (r: seq<string>)
    requires x in s
    ensures |r| == |s| - 1
    ensures multiset(r) == multiset(s) - multiset{x}
  {
    assert s == [s[0]] + s[1..];
    if s[0] == x then s[1..] else [s[0]] + RemoveFirst(s[1..], x)
  }

  /** The policy `remove_policy_member` writes: one occurrence less, and no binding left empty by that. */
  function WithoutGrant(p: Policy, g: Grant): Policy
    requires AlreadyGiven(p.bindings, g)
  {
    var i := Exact(p.bindings, g).value;
    var members := RemoveFirst(p.bindings[i].members, g.member);
    p.(bindings := if members == [] then p.bindings[..i] + p.bindings[i + 1..] else p.bindings[i := p.bindings[i].(members := members)])
  }

  // ---- what the edits do to the grants -----------------------------------------------------------------

  lemma SplitHas(bs: seq<Binding>, i: nat, x: Grant)
    requires i < |bs|
    ensures Has(bs, x) <==> Has(bs[..i], x) || Gives(bs[i], x) || Has(bs[i + 1..], x)
  {
  }

  /** The occurrences of a grant: repeated members and repeated bindings count. */
  function Occurrences(bs: seq<Binding>, g: Grant): nat {
    if bs == [] then 0
    else Occurrences(bs[..|bs| - 1], g) + if Same(bs[|bs| - 1], g) then multiset(bs[|bs| - 1].members)[g.member] else 0
  }

  lemma {:induction false} OccurrencesConcat(a: seq<Binding>, b: seq<Binding>, g: Grant)
    ensures Occurrences(a + b, g) == Occurrences(a, g) + Occurrences(b, g)
  {
    if b == [] {
      assert a + b == a;
    } else {
      var n := |b| - 1;
      assert (a + b)[..|a| + n] == a + b[..n];
      OccurrencesConcat(a, b[..n], g);
    }
  }

  lemma SplitOccurrences(bs: seq<Binding>, i: nat, g: Grant)
    requires i < |bs|
    ensures Occurrences(bs, g) == Occurrences(bs[..i], g) + Occurrences([bs[i]], g) + Occurrences(bs[i + 1..], g)
    ensures Occurrences([bs[i]], g) == if Same(bs[i], g) then multiset(bs[i].members)[g.member] else 0
  {
    assert bs == bs[..i] + [bs[i]] + bs[i + 1..];
    OccurrencesConcat(bs[..i] + [bs[i]], bs[i + 1..], g);
    OccurrencesConcat(bs[..i], [bs[i]], g);
    assert [bs[i]][..0] == [];
  }

  lemma {:induction false} OccurringIsGiven(bs: seq<Binding>, g: Grant)
    ensures Occurrences(bs, g) > 0 <==> Has(bs, g)
  {
    if bs != [] {
      var n := |bs| - 1;
      OccurringIsGiven(bs[..n], g);
      SplitHas(bs, n, g);
      assert bs[n + 1..] == [];
    }
  }

  /** Adding adds exactly the desired grant. */
  lemma AddsOneGrant(p: Policy, g: Grant)
    ensures Grants(WithGrant(p, g).bindings) == Grants(p.bindings) + {g}
    ensures WithGrant(p, g).etag == p.etag && WithGrant(p, g).rest == p.rest
    ensures var version := WithGrant(p, g).version;
      if g.condition.None? then version == p.version
      else version == (if p.version.Some? && p.version.value >= 3 then p.version else Some(3))
  {
    var was, now := p.bindings, WithGrant(p, g).bindings;
    forall x ensures x in Grants(now) <==> x in Grants(was) || x == g {
      AddsOneOccurrence(p, g, x);
      GrantsAreGiven(was, x);
      GrantsAreGiven(now, x);
      OccurringIsGiven(was, x);
      OccurringIsGiven(now, x);
    }
  }

  /** Removing takes out one occurrence of the desired grant and touches no other. */
  lemma RemovesOneOccurrence(p: Policy, g: Grant, x: Grant)
    requires AlreadyGiven(p.bindings, g)
    ensures Occurrences(WithoutGrant(p, g).bindings, x) == Occurrences(p.bindings, x) - if x == g then 1 else 0
  {
    var was, now := p.bindings, WithoutGrant(p, g).bindings;
    var i := Exact(was, g).value;
    var members := RemoveFirst(was[i].members, g.member);
    SplitOccurrences(was, i, x);
    if members == [] {
      OccurrencesConcat(was[..i], was[i + 1..], x);
      assert multiset(members)[x.member] == 0;
    } else {
      SplitOccurrences(now, i, x);
      assert now[..i] == was[..i] && now[i + 1..] == was[i + 1..];
    }
  }

  /** No other grant is lost; the desired one is gone exactly if it occurred once. */
  lemma RemovesAtMostOneGrant(p: Policy, g: Grant)
    requires AlreadyGiven(p.bindings, g)
    ensures Grants(WithoutGrant(p, g).bindings) ==
      if Occurrences(p.bindings, g) == 1 then Grants(p.bindings) - {g} else Grants(p.bindings)
  {
    var was, now := p.bindings, WithoutGrant(p, g).bindings;
    forall x
      ensures x in Grants(now) <==> x in Grants(was) && (x == g ==> Occurrences(was, g) > 1)
    {
      RemovesOneOccurrence(p, g, x);
      GrantsAreGiven(was, x);
      GrantsAreGiven(now, x);
      OccurringIsGiven(was, x);
      OccurringIsGiven(now, x);
    }
    OccurringIsGiven(was, g);
    var i := Exact(was, g).value;
    assert was[i] in was && Gives(was[i], g);
  }

  /** Removing what was added gives back the grants, and the bindings too unless there was an empty one to add to. */
  lemma RemoveUndoesAdd(p: Policy, g: Grant)
    requires !AlreadyGiven(p.bindings, g)
    ensures AlreadyGiven(WithGrant(p, g).bindings, g)
    ensures Grants(WithoutGrant(WithGrant(p, g), g).bindings) == Grants(p.bindings)
    ensures WithoutGrant(WithGrant(p, g), g).bindings == p.bindings <==>
      Exact(p.bindings, g).None? || p.bindings[Exact(p.bindings, g).value].members != []
  {
    ExactAfterAdd(p, g);
    BindingsRestored(p, g);
    hide WithGrant, WithoutGrant, Grants, Occurrences, Exact, AlreadyGiven;
    var added := WithGrant(p, g);
    var restored := WithoutGrant(added, g).bindings;
    forall x ensures x in Grants(restored) <==> x in Grants(p.bindings) {
      AddsOneOccurrence(p, g, x);
      RemovesOneOccurrence(added, g, x);
      SameOccurrencesSameGrants(restored, p.bindings, x);
    }
  }

  lemma BindingsRestored(p: Policy, g: Grant)
    requires !AlreadyGiven(p.bindings, g) && AlreadyGiven(WithGrant(p, g).bindings, g)
    ensures WithoutGrant(WithGrant(p, g), g).bindings == p.bindings <==>
      Exact(p.bindings, g).None? || p.bindings[Exact(p.bindings, g).value].members != []
  {
    hide WithGrant, WithoutGrant;
    match Exact(p.bindings, g)
    case Some(i) => RestoredInPlace(p, g, i);
    case None => RestoredAtEnd(p, g);
  }

  lemma RestoredInPlace(p: Policy, g: Grant, i: nat)
    requires Exact(p.bindings, g) == Some(i) && g.member !in p.bindings[i].members
    requires AlreadyGiven(WithGrant(p, g).bindings, g)
    ensures WithoutGrant(WithGrant(p, g), g).bindings == p.bindings <==> p.bindings[i].members != []
  {
    hide Exact, RemoveFirst, Same;
    ExactAfterAdd(p, g);
    RemoveLast(p.bindings[i].members, g.member);
    var was, restored := p.bindings, WithoutGrant(WithGrant(p, g), g).bindings;
    if was[i].members == [] {
      assert |restored| == |was| - 1;
    } else {
      assert restored == was[i := was[i].(members := was[i].members)] == was;
    }
  }

  lemma RestoredAtEnd(p: Policy, g: Grant)
    requires Exact(p.bindings, g).None? && AlreadyGiven(WithGrant(p, g).bindings, g)
    ensures WithoutGrant(WithGrant(p, g), g).bindings == p.bindings
  {
    hide Exact, RemoveFirst, Same;
    ExactAfterAdd(p, g);
    RemoveLast([], g.member);
    var was, added := p.bindings, WithGrant(p, g);
    assert added.bindings[|was|].members == [] + [g.member];
    assert WithoutGrant(added, g).bindings == was;
  }

  lemma OneMore(s: seq<string>, x: string, y: string)
    ensures multiset(s + [x])[y] == multiset(s)[y] + if x == y then 1 else 0
  {
  }

  /** One more occurrence of the added grant, wherever it is put, and of no other. */
  lemma AddsOneOccurrence(p: Policy, g: Grant, x: Grant)
    ensures Occurrences(WithGrant(p, g).bindings, x) == Occurrences(p.bindings, x) + if x == g then 1 else 0
  {
    hide Occurrences, Exact;
    var was, now := p.bindings, WithGrant(p, g).bindings;
    match Exact(was, g)
    case Some(i) =>
      SplitOccurrences(was, i, x);
      SplitOccurrences(now, i, x);
      assert now[..i] == was[..i] && now[i + 1..] == was[i + 1..];
      assert now[i] == was[i].(members := was[i].members + [g.member]);
      OneMore(was[i].members, g.member, x.member);
    case None =>
      var added := Binding(g.role, g.condition, [g.member]);
      assert now == was + [added];
      OccurrencesConcat(was, [added], x);
      OneOccurrence(added, x);
      OneMore([], g.member, x.member);
      assert [] + [g.member] == [g.member];
  }

  lemma OneOccurrence(b: Binding, g: Grant)
    ensures Occurrences([b], g) == if Same(b, g) then multiset(b.members)[g.member] else 0
  {
    assert [b][..0] == [];
  }

  lemma SameOccurrencesSameGrants(a: seq<Binding>, b: seq<Binding>, x: Grant)
    requires Occurrences(a, x) == Occurrences(b, x)
    ensures x in Grants(a) <==> x in Grants(b)
  {
  }

  lemma ExactAfterAdd(p: Policy, g: Grant)
    ensures AlreadyGiven(WithGrant(p, g).bindings, g)
    ensures Exact(WithGrant(p, g).bindings, g) == Some(Exact(p.bindings, g).UnwrapOr(|p.bindings|))
  {
    var now := WithGrant(p, g).bindings;
    var at := Exact(p.bindings, g).UnwrapOr(|p.bindings|);
    assert Same(now[at], g) && now[at] in now;
    assert forall j :: 0 <= j < at ==> now[j] == p.bindings[j] && p.bindings[j] in p.bindings;
  }

  lemma {:induction false} RemoveLast(s: seq<string>, x: string)
    requires x !in s
    ensures RemoveFirst(s + [x], x) == s
  {
    if s != [] {
      assert (s + [x])[1..] == s[1..] + [x];
      RemoveLast(s[1..], x);
    }
  }

  // ---- readback -------------------------------------------------------------------------------------------

  type Key = (string, Option<string>)

  function MembersAt(m: map<Key, set<string>>, k: Key): set<string> { if k in m then m[k] else {} }

  /** The members of each role and condition, over all bindings. */
  method Merged(bs: seq<Binding>) returns (m: map<Key, set<string>>)
    ensures forall k, x :: x in MembersAt(m, k) <==> Grant(k.0, k.1, x) in Grants(bs)
  {
    m := map[];
    for i := 0 to |bs|
      invariant forall k, x :: x in MembersAt(m, k) <==> Has(bs[..i], Grant(k.0, k.1, x))
    {
      ghost var before := m;
      var item := bs[i];
      var key := (item.role, item.condition);
      m := m[key := MembersAt(m, key) + set x | x in item.members];
      forall k: Key, x ensures x in MembersAt(m, k) <==> Has(bs[..i + 1], Grant(k.0, k.1, x)) {
        SplitHas(bs[..i + 1], i, Grant(k.0, k.1, x));
        assert bs[..i + 1][..i] == bs[..i] && bs[..i + 1][i + 1..] == [];
        assert MembersAt(m, k) == if k == key then MembersAt(before, k) + set y | y in item.members else MembersAt(before, k);
      }
    }
    assert bs[..|bs|] == bs;
    forall k: Key, x ensures x in MembersAt(m, k) <==> Grant(k.0, k.1, x) in Grants(bs) {
      GrantsAreGiven(bs, Grant(k.0, k.1, x));
    }
  }

  /** `policy_preserves`: no grant of the first policy is missing in the second. */
  method Preserves(before: seq<Binding>, after: seq<Binding>) returns (ok: bool)
    ensures ok <==> Grants(before) <= Grants(after)
  {
    var o := Merged(before);
    var n := Merged(after);
    ok := forall k :: k in o ==> o[k] <= MembersAt(n, k);
    if ok {
      forall g | g in Grants(before) ensures g in Grants(after) {
        assert g.member in MembersAt(o, (g.role, g.condition));
      }
    } else {
      var k :| k in o && !(o[k] <= MembersAt(n, k));
      var x :| x in o[k] && x !in MembersAt(n, k);
      assert x in MembersAt(o, k);
      assert Grant(k.0, k.1, x) in Grants(before) && Grant(k.0, k.1, x) !in Grants(after);
    }
  }

  // ---- the shared policy ------------------------------------------------------------------------------------

  datatype Author = Others | Adding(g: Grant) | Removing(g: Grant)

  /** An accepted write: the policy that was current, the policy that became so, and whose write it was. */
  datatype Write = Write(before: Policy, after: Policy, author: Author)

  /** Up to the etag, which the server gives anew, an own write turns the current policy into the edited one. */
  ghost predicate Lawful(w: Write) {
    w.author.Others? || Edits(w.before, w.after, w.author)
  }

  ghost predicate Edits(before: Policy, after: Policy, author: Author)
    requires !author.Others?
  {
    && !Conflicting(before.bindings, author.g)
    && (author.Adding? <==> !AlreadyGiven(before.bindings, author.g))
    && after == (if author.Adding? then WithGrant(before, author.g) else WithoutGrant(before, author.g)).(etag := after.etag)
  }

  /** Every write starts from what the one before it left. */
  ghost predicate Linked(first: Policy, log: seq<Write>) {
    && (|log| > 0 ==> log[0].before == first)
    && forall i :: 0 < i < |log| ==> log[i].before == log[i - 1].after
  }

  ghost function Latest(first: Policy, log: seq<Write>): Policy {
    if log == [] then first else log[|log| - 1].after
  }

  /** The accepted writes that are not the others'. */
  ghost function Own(log: seq<Write>): seq<Write> {
    if log == [] then []
    else Own(log[..|log| - 1]) + if log[|log| - 1].author.Others? then [] else [log[|log| - 1]]
  }

  lemma {:induction false} OwnConcat(a: seq<Write>, b: seq<Write>)
    ensures Own(a + b) == Own(a) + Own(b)
  {
    if b == [] {
      assert a + b == a;
    } else {
      var n := |b| - 1;
      assert (a + b)[..|a| + n] == a + b[..n];
      OwnConcat(a, b[..n]);
    }
  }

  /**
   Whatever the others do, no own write takes away a grant but the one it is meant to remove, nor makes one but the
   one it is meant to add: a grant that no other writer touches stays as it is.
   */
  lemma {:induction false} UntouchedGrantsStay(first: Policy, log: seq<Write>, x: Grant)
    requires Linked(first, log)
    requires forall w :: w in log ==> Lawful(w)
    requires forall w :: w in log && w.author.Others? ==>
      (x in Grants(w.before.bindings) <==> x in Grants(w.after.bindings))
    requires forall w :: w in log && !w.author.Others? ==> w.author.g != x
    ensures x in Grants(Latest(first, log).bindings) <==> x in Grants(first.bindings)
  {
    if log != [] {
      var n := |log| - 1;
      var w := log[n];
      UntouchedGrantsStay(first, log[..n], x);
      assert w in log && w.before == Latest(first, log[..n]);
      if !w.author.Others? {
        OwnWriteTouchesOne(w, x);
      }
    }
  }

  lemma OwnWriteTouchesOne(w: Write, x: Grant)
    requires Lawful(w) && !w.author.Others? && x != w.author.g
    ensures x in Grants(w.after.bindings) <==> x in Grants(w.before.bindings)
    ensures w.after.rest == w.before.rest
  {
    if w.author.Adding? {
      AddsOneGrant(w.before, w.author.g);
    } else {
      RemovesAtMostOneGrant(w.before, w.author.g);
    }
  }

  /**
   How a write or a reading was answered. A success is only reported for an accepted write; failures are reported for
   any.
   */
  datatype Answer = Accepted | Conflict | OtherFailure | ReadAs(policy: Policy) | Unread

  function Reading(read: Option<Policy>): Answer {
    match read case None => Unread case Some(p) => ReadAs(p)
  }

  /** The policy on the server, as it is changed by everyone. An etag is never given to two policies. */
  class Server {
    var current: Policy
    var tagged: map<string, Policy>
    ghost const first: Policy
    ghost var log: seq<Write>
    /** How the writes and readings of all calls were answered. */
    ghost var answers: seq<Answer>

    ghost predicate Valid() reads this {
      && Linked(first, log) && current == Latest(first, log)
      && (forall w :: w in log ==> Lawful(w))
      && Known(current) && forall w :: w in log ==> Known(w.before) && Known(w.after)
    }

    /** The etag of the policy was given to it. */
    ghost predicate Known(p: Policy) reads this {
      p.etag.Some? ==> p.etag.value in tagged && tagged[p.etag.value] == p
    }

    /** Any number of other writers replace the policy. */
    method Interfere() returns (ghost others: seq<Write>)
      requires Valid()
      modifies this
      ensures answers == old(answers)
      ensures Valid() && log == old(log) + others && Own(others) == [] && current == Latest(old(current), others)
      ensures forall e :: e in old(tagged) ==> e in tagged && tagged[e] == old(tagged)[e]
    {
      hide Lawful, Linked;
      others := [];
      var n: nat :| true;
      for i := 0 to n
        invariant answers == old(answers)
        invariant Valid() && log == old(log) + others && Own(others) == [] && current == Latest(old(current), others)
        invariant forall e :: e in old(tagged) ==> e in tagged && tagged[e] == old(tagged)[e]
      {
        assert current.(etag := None).etag.None?;
        var p: Policy :| p.etag.Some? ==> p.etag.value !in tagged;
        ghost var w := Write(current, p, Others);
        OwnConcat(others, [w]);
        LawfulOthers(w);
        assert [w][..0] == [];
        others := others + [w];
        Install(p, w);
      }
    }

    method Install(p: Policy, ghost w: Write)
      requires Valid() && w.before == current && w.after == p && Lawful(w)
      requires p.etag.Some? ==> p.etag.value !in tagged
      modifies this
      ensures answers == old(answers)
      ensures Valid() && log == old(log) + [w] && current == p
      ensures forall e :: e in old(tagged) ==> e in tagged && tagged[e] == old(tagged)[e]
    {
      log := log + [w];
      current := p;
      if p.etag.Some? {
        tagged := tagged[p.etag.value := p];
      }
    }

    /** The policy as it is at some moment of the call, or a failure. */
    method Read() returns (r: Option<Policy>, ghost others: seq<Write>)
      requires Valid()
      modifies this
      ensures answers == old(answers) + [Reading(r)]
      ensures Valid() && log == old(log) + others && Own(others) == [] && current == Latest(old(current), others)
      ensures forall e :: e in old(tagged) ==> e in tagged && tagged[e] == old(tagged)[e]
      ensures r.Some? ==> r.value == current
      ensures r.Some? && r.value.etag.Some? ==> r.value.etag.value in tagged && tagged[r.value.etag.value] == r.value
    {
      others := Interfere();
      r := Some(current);
      if * {
        r := None;
      }
      answers := answers + [Reading(r)];
    }

    /** The policy is replaced by what was sent, under another etag. */
    method Process(p: Policy, ghost author: Author) returns (ghost w: Write)
      requires Valid() && !author.Others? && current.etag == p.etag && Edits(current, p, author)
      modifies this
      ensures answers == old(answers) && w.author == author && w.before == old(current) && w.after == current
      ensures Valid() && log == old(log) + [w]
      ensures forall e :: e in old(tagged) ==> e in tagged && tagged[e] == old(tagged)[e]
    {
      hide Linked, Edits;
      assert p.(etag := None) == p.(etag := None);
      var q: Policy :| q == p.(etag := q.etag) && (q.etag.Some? ==> q.etag.value !in tagged);
      w := Write(current, q, author);
      EditsAnyEtag(current, p, q, author);
      Install(q, w);
    }

    /**
     A write is accepted only while the policy still has the etag sent; the policy gets another one. A success is
     reported only for an accepted write, a failure for any.
     */
    method Set(p: Policy, ghost author: Author) returns (answer: Answer, ghost more: seq<Write>)
      requires Valid() && !author.Others?
      requires p.etag.Some? && p.etag.value in tagged && Edits(tagged[p.etag.value], p, author)
      modifies this
      ensures answers == old(answers) + [answer] && !answer.ReadAs? && !answer.Unread?
      ensures Valid() && log == old(log) + more && current == Latest(old(current), more)
      ensures forall e :: e in old(tagged) ==> e in tagged && tagged[e] == old(tagged)[e]
      ensures OneWrite(more, author, old(tagged)[p.etag.value])
      ensures answer.Accepted? ==>
        |Own(more)| == 1 && Own(more)[0].author == author && Own(more)[0].before == old(tagged)[p.etag.value]
    {
      hide Linked, Edits;
      more := Interfere();
      answer :| answer.Conflict? || answer.OtherFailure?;
      var processed: bool := *;
      if processed && current.etag == p.etag {
        ghost var others := more;
        ghost var w;
        w := Process(p, author);
        OwnConcat(others, [w]);
        assert [w][..0] == [];
        more := others + [w];
        assert log == old(log) + more;
        if * {
          answer := Accepted;
        }
      }
      answers := answers + [answer];
    }
  }

  lemma LawfulOthers(w: Write)
    requires w.author.Others?
    ensures Lawful(w)
  {
  }

  lemma EditsAnyEtag(before: Policy, p: Policy, q: Policy, author: Author)
    requires !author.Others? && Edits(before, p, author) && q == p.(etag := q.etag)
    ensures Edits(before, q, author)
  {
  }

  // ---- the provisioner ----------------------------------------------------------------------------------

  datatype Status =
    | Prepared | ExistingVerified | DifferentCondition | MissingEtag | ConflictRereading | UpdateFailed
    | ReadbackPending | ReadbackUnknown | ReadbackMismatch | VerifiedAddition | AlreadyAbsent | VerifiedRemoval

  /** The evidence of one edit; `attempts` holds the policies read before writing. */
  datatype Entry = Entry(binding: Grant, attempts: seq<Policy>, status: Status, after: Option<Policy>, byThisRun: Option<bool>)

  datatype EditError =
    | NotSaved | ReadFailed | ConditionDiffers | NoEtag | UpdateRefused | ReadbackFailed | ReadbackDiffers | KeptChanging

  /** Starting from `start`, the policy was the one in force before, between or after the writes. */
  ghost predicate Held(start: Policy, writes: seq<Write>, p: Policy) {
    exists i :: 0 <= i <= |writes| && Latest(start, writes[..i]) == p
  }

  /** The own writes are edits of this kind, each of a policy that had been read and recorded. */
  ghost predicate OwnEdits(writes: seq<Write>, author: Author, attempts: seq<Policy>) {
    && |Own(writes)| <= |attempts|
    && forall w :: w in Own(writes) ==>
         w.author == author && w.before in attempts && w.before.etag.Some? && w.before.etag.value != ""
  }

  /** The writes of one call so far: own ones as recorded, and the last policy that was read. */
  ghost predicate Progress(start: Policy, writes: seq<Write>, author: Author, attempts: seq<Policy>) {
    OwnEdits(writes, author, attempts) && forall p :: p in attempts ==> Held(start, writes, p)
  }

  lemma NoProgress(start: Policy, author: Author)
    ensures Progress(start, [], author, [])
  {
  }

  lemma HeldLater(start: Policy, writes: seq<Write>, more: seq<Write>, p: Policy)
    requires Held(start, writes, p)
    ensures Held(start, writes + more, p)
  {
    var i :| 0 <= i <= |writes| && Latest(start, writes[..i]) == p;
    assert (writes + more)[..i] == writes[..i];
  }

  lemma HeldLast(start: Policy, writes: seq<Write>, more: seq<Write>)
    ensures Held(start, writes + more, Latest(Latest(start, writes), more))
  {
    assert (writes + more)[..|writes + more|] == writes + more;
  }

  /** Others' writes, after which the policy may be read and recorded. */
  lemma ProgressByOthers(start: Policy, writes: seq<Write>, others: seq<Write>, author: Author, attempts: seq<Policy>)
    requires Progress(start, writes, author, attempts) && Own(others) == []
    ensures Progress(start, writes + others, author, attempts) && Own(writes + others) == Own(writes)
    ensures Progress(start, writes + others, author, attempts + [Latest(Latest(start, writes), others)])
    ensures Held(start, writes + others, Latest(Latest(start, writes), others))
  {
    hide Held;
    OwnConcat(writes, others);
    HeldLast(start, writes, others);
    forall p | p in attempts ensures Held(start, writes + others, p) {
      HeldLater(start, writes, others, p);
    }
  }

  /** At most one own write for a policy just recorded; fewer were accepted than recorded before. */
  lemma ProgressByWrite(start: Policy, writes: seq<Write>, more: seq<Write>, author: Author, attempts: seq<Policy>,
                        read: Policy)
    requires Progress(start, writes, author, attempts) && Progress(start, writes, author, attempts + [read])
    requires OneWrite(more, author, read) && read.etag.Some? && read.etag.value != ""
    ensures Progress(start, writes + more, author, attempts + [read]) && Own(writes + more) == Own(writes) + Own(more)
  {
    hide Held, Own;
    OwnConcat(writes, more);
    forall p | p in attempts + [read] ensures Held(start, writes + more, p) {
      HeldLater(start, writes, more, p);
    }
  }

  /** Others' writes, and possibly an own one of the policy that was read. */
  ghost predicate OneWrite(more: seq<Write>, author: Author, read: Policy) {
    Own(more) == [] || (|Own(more)| == 1 && Own(more)[0].author == author && Own(more)[0].before == read)
  }

  /** The grants conflict exactly if the member holds the role under another condition. */
  lemma ConflictsExactly(bs: seq<Binding>, g: Grant)
    ensures Conflicting(bs, g) <==> exists c :: c != g.condition && Grant(g.role, c, g.member) in Grants(bs)
  {
    if Conflicting(bs, g) {
      var b :| b in bs && b.role == g.role && g.member in b.members && b.condition != g.condition;
      assert Gives(b, Grant(g.role, b.condition, g.member));
      GrantsAreGiven(bs, Grant(g.role, b.condition, g.member));
    }
    if c :| c != g.condition && Grant(g.role, c, g.member) in Grants(bs) {
      GrantsAreGiven(bs, Grant(g.role, c, g.member));
    }
  }

  /**
   What the outcome of an addition says. A success returns a policy that was in force during the call and makes the
   grant: either one read before any own write was reported accepted, or one read after such a write and with every
   grant of the policy that write replaced.
   */
  ghost predicate Added(r: Result<Policy, EditError>, e: Entry, g: Grant, start: Policy, writes: seq<Write>) {
    match r
    case Success(p) =>
      && e.after == Some(p) && Held(start, writes, p) && Has(p.bindings, g)
      && ((e.status == ExistingVerified && e.byThisRun == Some(false) && AlreadyGiven(p.bindings, g))
          || (e.status == VerifiedAddition && e.byThisRun == Some(true) && Tagged(p) && KeptByLast(writes, p)))
    case Failure(ConditionDiffers) =>
      e.status == DifferentCondition && e.after.Some? && Held(start, writes, e.after.value)
        && Conflicting(e.after.value.bindings, g)
    case Failure(NoEtag) =>
      e.status == MissingEtag && |e.attempts| > 0 && !Tagged(e.attempts[|e.attempts| - 1])
    case Failure(UpdateRefused) => e.status == UpdateFailed
    case Failure(ReadbackFailed) => e.status == ReadbackUnknown && Own(writes) != []
    case Failure(ReadbackDiffers) => e.status == ReadbackMismatch && Own(writes) != []
    case Failure(ReadFailed) => e.status in {Prepared, ConflictRereading}
    case Failure(NotSaved) => true
    case Failure(KeptChanging) => false
  }

  /** The policies one after the other. */
  ghost function States(start: Policy, writes: seq<Write>): seq<Policy> {
    [start] + seq(|writes|, i requires 0 <= i < |writes| => writes[i].after)
  }

  /** No etag belongs to two policies. */
  ghost predicate Identified(ps: seq<Policy>) {
    forall p, q :: p in ps && q in ps && p.etag.Some? && p.etag == q.etag ==> p == q
  }

  /** One way the policy can have gone: with these writes the entry and the result are as they are. */
  ghost predicate Explains(start: Policy, writes: seq<Write>, e: Entry, g: Grant, p: Policy) {
    && Linked(start, writes) && (forall w :: w in writes ==> Lawful(w)) && Identified(States(start, writes))
    && Progress(start, writes, Adding(g), e.attempts) && Added(Success(p), e, g, start, writes)
  }

  /** The policy has an etag, the grant is not there, and the member does not hold the role under another condition. */
  predicate Addable(p: Policy, g: Grant) { Tagged(p) && !AlreadyGiven(p.bindings, g) && !Conflicting(p.bindings, g) }

  predicate AllAddable(ps: seq<Policy>, g: Grant) { forall i :: 0 <= i < |ps| ==> Addable(ps[i], g) }

  lemma OneMoreAddable(ps: seq<Policy>, p: Policy, g: Grant)
    requires AllAddable(ps, g) && Addable(p, g)
    ensures AllAddable(ps + [p], g)
  {
  }

  /**
   The policies recorded by a call that succeeded: the grant could be added to all but the last, and one found there was
   found in the last.
   */
  ghost predicate Recorded(e: Entry, g: Grant, p: Policy) {
    && e.attempts != [] && Identified(e.attempts)
    && AllAddable(e.attempts[..|e.attempts| - 1], g)
    && (e.status == ExistingVerified ==> e.attempts[|e.attempts| - 1] == p)
  }

  /** The entry says that the grant was there in p without this run. */
  predicate FoundGiven(e: Entry, g: Grant, p: Policy) {
    e.status == ExistingVerified && e.byThisRun == Some(false) && e.after == Some(p) && AlreadyGiven(p.bindings, g)
  }

  /** Others' writes, through the policies that were read. */
  ghost function Through(ps: seq<Policy>): (writes: seq<Write>)
    requires ps != []
    ensures |writes| == |ps| - 1
  {
    seq(|ps| - 1, i requires 0 <= i < |ps| - 1 => Write(ps[i], ps[i + 1], Others))
  }

  lemma {:induction false} ThroughIsOthers(ps: seq<Policy>)
    requires ps != []
    ensures Own(Through(ps)) == [] && Linked(ps[0], Through(ps))
    ensures Latest(ps[0], Through(ps)) == ps[|ps| - 1] && States(ps[0], Through(ps)) == ps
  {
    if |ps| > 1 {
      var n := |ps| - 1;
      assert Through(ps)[..n - 1] == Through(ps[..n]);
      ThroughIsOthers(ps[..n]);
    }
  }

  /** An own write of the last policy to be replaced, answered with a conflict although accepted, and another writer. */
  ghost function Hidden(read: seq<Policy>, g: Grant, p: Policy): (writes: seq<Write>)
    requires read != []
  {
    var q := WithGrant(read[|read| - 1], g).(etag := None);
    Through(read) + [Write(read[|read| - 1], q, Adding(g)), Write(q, p, Others)]
  }

  lemma HiddenIsLawful(read: seq<Policy>, g: Grant, p: Policy)
    requires read != [] && Addable(read[|read| - 1], g)
    ensures Linked(read[0], Hidden(read, g, p)) && forall w :: w in Hidden(read, g, p) ==> Lawful(w)
  {
    hide AlreadyGiven, Conflicting, WithGrant, Edits, States, Own;
    var last := read[|read| - 1];
    AddingEdits(last, g);
    EditsAnyEtag(last, WithGrant(last, g), WithGrant(last, g).(etag := None), Adding(g));
    ThroughIsOthers(read);
  }

  lemma HiddenIsIdentified(read: seq<Policy>, g: Grant, p: Policy)
    requires read != [] && Identified(read + [p])
    ensures Identified(States(read[0], Hidden(read, g, p)))
  {
    hide AlreadyGiven, Conflicting, WithGrant;
    var q := WithGrant(read[|read| - 1], g).(etag := None);
    assert States(read[0], Hidden(read, g, p)) == read + [q, p];
    forall a | a in read + [q, p] ensures a in read + [p] || a == q {
    }
  }

  lemma HiddenIsOneWrite(read: seq<Policy>, g: Grant, p: Policy)
    requires read != []
    ensures |Own(Hidden(read, g, p))| == 1
    ensures Own(Hidden(read, g, p))[0].author == Adding(g) && Own(Hidden(read, g, p))[0].before == read[|read| - 1]
  {
    hide AlreadyGiven, Conflicting, WithGrant;
    var q := WithGrant(read[|read| - 1], g).(etag := None);
    var own, other := Write(read[|read| - 1], q, Adding(g)), Write(q, p, Others);
    ThroughIsOthers(read);
    OwnConcat(Through(read), [own, other]);
    assert [own, other] == [own] + [other];
    OwnConcat([own], [other]);
    assert [own][..0] == [] && [other][..0] == [];
  }

  lemma HiddenHolds(read: seq<Policy>, g: Grant, p: Policy)
    requires read != []
    ensures forall a :: a in read + [p] ==> Held(read[0], Hidden(read, g, p), a)
  {
    hide WithGrant;
    var n, writes := |read|, Hidden(read, g, p);
    forall i | 0 <= i < n ensures Held(read[0], writes, read[i]) {
      assert Latest(read[0], writes[..i]) == read[i];
    }
    assert writes[..n + 1] == writes && Latest(read[0], writes[..n + 1]) == p;
  }

  lemma HiddenWriteExplains(e: Entry, g: Grant, p: Policy) returns (start: Policy, writes: seq<Write>)
    requires FoundGiven(e, g, p) && Recorded(e, g, p) && |e.attempts| > 1
    ensures Explains(start, writes, e, g, p) && Own(writes) != []
  {
    hide AlreadyGiven, Conflicting, Has, Held, Hidden, Lawful, Linked, States, Identified, Own;
    var read := e.attempts[..|e.attempts| - 1];
    assert e.attempts == read + [p];
    start, writes := read[0], Hidden(read, g, p);
    HiddenIsLawful(read, g, p);
    HiddenIsIdentified(read, g, p);
    HiddenIsOneWrite(read, g, p);
    HiddenHolds(read, g, p);
    assert Addable(e.attempts[|read| - 1], g);
    GivenExactly(p.bindings, g);
  }

  lemma NothingWritten(e: Entry, g: Grant, p: Policy, start: Policy, writes: seq<Write>)
    requires Explains(start, writes, e, g, p) && e.attempts == [p] && AlreadyGiven(p.bindings, g)
    ensures Own(writes) == []
  {
    hide AlreadyGiven, Conflicting, Held, Added, Linked, States, Identified, Latest;
    OwnIsInLog(writes);
    FirstIsIn(Own(writes));
  }

  lemma FirstIsIn(s: seq<Write>)
    ensures s != [] ==> s[0] in s
  {
  }

  lemma {:induction false} OwnIsInLog(writes: seq<Write>)
    ensures forall w :: w in Own(writes) ==> w in writes && !w.author.Others?
  {
    if writes != [] {
      OwnIsInLog(writes[..|writes| - 1]);
    }
  }

  /**
   `byThisRun` says true only after an own write was accepted. It says false rightly, however the policy may have gone,
   exactly if the first policy read already made the grant. With two or more, the ones before the last were written to,
   and a write answered with a conflict may have been accepted.
   */
  lemma ByThisRunIsRight(e: Entry, g: Grant, p: Policy)
    requires Recorded(e, g, p)
    ensures e.byThisRun == Some(true) ==> forall start, writes :: Explains(start, writes, e, g, p) ==> Own(writes) != []
    ensures FoundGiven(e, g, p) ==>
      ((forall start, writes :: Explains(start, writes, e, g, p) ==> Own(writes) == []) <==> |e.attempts| == 1)
  {
    hide AlreadyGiven, Conflicting, Lawful, Held, Grants, Has;
    if FoundGiven(e, g, p) {
      if |e.attempts| > 1 {
        var start, writes := HiddenWriteExplains(e, g, p);
      } else {
        forall start, writes | Explains(start, writes, e, g, p) ensures Own(writes) == [] {
          NothingWritten(e, g, p, start, writes);
        }
      }
    }
  }

  /** The outcome, unless it could not be saved. */
  predicate Unless(r: Result<Policy, EditError>, x: Result<Policy, EditError>) { r == x || r == Failure(NotSaved) }

  predicate HasEtag(p: Policy) { p.etag !in {None, Some("")} }

  /** What a policy that was read leads to at once; nothing, if it is to be written to. */
  ghost function AtOnce(author: Author, p: Policy): Option<Result<Policy, EditError>> {
    match author
    case Others => None
    case Adding(g) =>
      if AlreadyGiven(p.bindings, g) then Some(Success(p))
      else if exists c :: c != g.condition && Grant(g.role, c, g.member) in Grants(p.bindings) then Some(Failure(ConditionDiffers))
      else if !HasEtag(p) then Some(Failure(NoEtag)) else None
    case Removing(g) =>
      if exists c :: c != g.condition && Grant(g.role, c, g.member) in Grants(p.bindings) then Some(Failure(ConditionDiffers))
      else if !AlreadyGiven(p.bindings, g) then Some(Success(p))
      else if !HasEtag(p) then Some(Failure(NoEtag)) else None
  }

  /** The policy read after an accepted write is the one wanted, and keeps what it is to keep. */
  ghost predicate Accepts(author: Author, before: Policy, after: Policy) {
    HasEtag(after) && match author
    case Others => false
    case Adding(g) => g in Grants(after.bindings) && Grants(before.bindings) <= Grants(after.bindings)
    case Removing(g) =>
      && AlreadyGiven(before.bindings, g) && g !in Grants(after.bindings)
      && Grants(WithoutGrant(before, g).bindings) <= Grants(after.bindings)
  }

  /** What the reading after an accepted write leads to. */
  ghost predicate Confirms(author: Author, before: Policy, answer: Answer, r: Result<Policy, EditError>) {
    match answer
    case Unread => Unless(r, Failure(ReadbackFailed))
    case ReadAs(p) => Unless(r, if Accepts(author, before, p) then Success(p) else Failure(ReadbackDiffers))
    case _ => false
  }

  /**
   The outcome of an edit is what these answers lead to, with so many attempts left: a policy is read, and either
   decides or is written to once; a conflict leads to another attempt, the last conflict and every other failure to a
   refusal, and an accepted write to one more reading, which decides. Only a save that fails ends it otherwise.
   */
  ghost predicate Leads(author: Author, talk: seq<Answer>, left: nat, r: Result<Policy, EditError>)
    decreases |talk|
  {
    talk != [] && match talk[0]
    case Unread => |talk| == 1 && r == Failure(ReadFailed)
    case ReadAs(p) =>
      || (|talk| == 1 && r == Failure(NotSaved))
      || match AtOnce(author, p) {
           case Some(x) => |talk| == 1 && r == x
           case None =>
             |talk| > 1 && match talk[1]
             case OtherFailure => |talk| == 2 && Unless(r, Failure(UpdateRefused))
             case Conflict =>
               if left <= 1 then |talk| == 2 && Unless(r, Failure(UpdateRefused))
               else (|talk| == 2 && r == Failure(NotSaved)) || Leads(author, talk[2..], left - 1, r)
             case Accepted => (|talk| == 2 && r == Failure(NotSaved)) || (|talk| == 3
                                                                          && Confirms(author, p, talk[2], r))
             case _ => false
         }
    case _ => false
  }

  /** So many times a policy was written to and the write met a conflict. */
  ghost predicate Rounds(author: Author, talk: seq<Answer>, n: nat) {
    if n == 0 then talk == []
    else
      && |talk| >= 2 && talk[0].ReadAs? && AtOnce(author, talk[0].policy).None? && talk[1].Conflict?
      && Rounds(author, talk[2..], n - 1)
  }

  lemma {:induction false} AnotherRound(author: Author, talk: seq<Answer>, n: nat, p: Policy)
    requires Rounds(author, talk, n) && AtOnce(author, p).None?
    ensures Rounds(author, talk + [ReadAs(p), Conflict], n + 1)
  {
    hide AtOnce;
    var more := [ReadAs(p), Conflict];
    if n == 0 {
      assert talk + more == more;
    } else {
      AnotherRound(author, talk[2..], n - 1, p);
      assert (talk + more)[2..] == talk[2..] + more;
    }
  }

  lemma {:induction false} RoundsLead(author: Author, talk: seq<Answer>, rest: seq<Answer>, n: nat, left: nat,
                                      r: Result<Policy, EditError>)
    requires Rounds(author, talk, n) && n < left && Leads(author, rest, left - n, r)
    ensures Leads(author, talk + rest, left, r)
  {
    hide AtOnce, Confirms;
    if n == 0 {
      assert talk + rest == rest;
    } else {
      RoundsLead(author, talk[2..], rest, n - 1, left - 1, r);
      assert (talk + rest)[2..] == talk[2..] + rest;
    }
  }

  /** As the answers stand before, between and after the last part of a call. */
  lemma CallLeads(author: Author, before: seq<Answer>, between: seq<Answer>, now: seq<Answer>, n: nat,
                  r: Result<Policy, EditError>)
    requires before <= between <= now && Rounds(author, between[|before|..], n) && n < 5
    requires Leads(author, now[|between|..], 5 - n, r)
    ensures before <= now && Leads(author, now[|before|..], 5, r)
  {
    hide Leads, Rounds;
    RoundsLead(author, between[|before|..], now[|between|..], n, 5, r);
    assert now[|before|..] == between[|before|..] + now[|between|..];
  }

  lemma CallGoesOn(author: Author, before: seq<Answer>, between: seq<Answer>, now: seq<Answer>, n: nat, p: Policy)
    requires before <= between && Rounds(author, between[|before|..], n) && AtOnce(author, p).None?
    requires now == between + [ReadAs(p)] + [Conflict]
    ensures before <= now && Rounds(author, now[|before|..], n + 1)
  {
    hide Rounds;
    AnotherRound(author, between[|before|..], n, p);
    assert now[|before|..] == between[|before|..] + [ReadAs(p), Conflict];
  }

  lemma OneAnswer(before: seq<Answer>, answer: Answer, now: seq<Answer>)
    requires before + [answer] <= now
    ensures now[|before|..] == [answer] + now[|before| + 1..]
    ensures now == before + [answer] ==> now[|before|..] == [answer]
  {
  }

  lemma ReadingLeads(author: Author, answer: Answer, left: nat, r: Result<Policy, EditError>)
    requires match answer
      case Unread => r == Failure(ReadFailed)
      case ReadAs(p) => r == Failure(NotSaved) || AtOnce(author, p) == Some(r)
      case _ => false
    ensures Leads(author, [answer], left, r)
  {
  }

  lemma WriteLeads(author: Author, p: Policy, answer: Answer, left: nat, r: Result<Policy, EditError>)
    requires AtOnce(author, p).None?
    requires match answer
      case OtherFailure => Unless(r, Failure(UpdateRefused))
      case Conflict => if left <= 1 then Unless(r, Failure(UpdateRefused)) else r == Failure(NotSaved)
      case Accepted => r == Failure(NotSaved)
      case _ => false
    ensures Leads(author, [ReadAs(p)] + [answer], left, r)
  {
  }

  lemma ReadbackLeads(author: Author, p: Policy, answer: Answer, left: nat, r: Result<Policy, EditError>)
    requires AtOnce(author, p).None? && Confirms(author, p, answer, r)
    ensures Leads(author, [ReadAs(p)] + [Accepted, answer], left, r)
  {
  }

  /** Every grant of the policy that the last own write replaced is still made. */
  ghost predicate KeptByLast(writes: seq<Write>, p: Policy) {
    exists before :: LastReplaced(Own(writes), before) && Grants(before.bindings) <= Grants(p.bindings)
  }

  ghost predicate LastReplaced(own: seq<Write>, before: Policy) {
    own != [] && own[|own| - 1].before == before
  }

  /**
   What the outcome of a removal says. A success returns a policy that was in force during the call: one read whose
   first binding for the role and condition does not name the member, or one read after an own write, without the grant
   and with every grant that write left.
   */
  ghost predicate Removed(r: Result<Policy, EditError>, e: Entry, g: Grant, start: Policy, writes: seq<Write>) {
    match r
    case Success(p) =>
      && Held(start, writes, p)
      && ((e.status == AlreadyAbsent && e.byThisRun == Some(false) && !AlreadyGiven(p.bindings, g)
           && !Conflicting(p.bindings, g))
          || (e.status == VerifiedRemoval && e.byThisRun == Some(true) && e.after == Some(p) && Tagged(p)
              && !Has(p.bindings, g) && LeftByLast(writes, p, g)))
    case Failure(ConditionDiffers) => |e.attempts| > 0 && Conflicting(e.attempts[|e.attempts| - 1].bindings, g)
    case Failure(NoEtag) => |e.attempts| > 0 && !Tagged(e.attempts[|e.attempts| - 1])
    case Failure(ReadbackFailed) => Own(writes) != []
    case Failure(ReadbackDiffers) => Own(writes) != []
    case Failure(KeptChanging) => false
    case Failure(_) => true
  }

  /** Every grant that the last own removal left is still made. */
  ghost predicate LeftByLast(writes: seq<Write>, p: Policy, g: Grant) {
    exists before :: LastReplaced(Own(writes), before) && LeftBy(before, p, g)
  }

  ghost predicate LeftBy(before: Policy, p: Policy, g: Grant) {
    AlreadyGiven(before.bindings, g) && Grants(WithoutGrant(before, g).bindings) <= Grants(p.bindings)
  }

  lemma GivenExactly(bs: seq<Binding>, g: Grant)
    requires AlreadyGiven(bs, g)
    ensures Has(bs, g)
  {
    assert bs[Exact(bs, g).value] in bs;
  }

  lemma AddingEdits(p: Policy, g: Grant)
    requires !AlreadyGiven(p.bindings, g) && !Conflicting(p.bindings, g)
    ensures WithGrant(p, g).etag == p.etag && Edits(p, WithGrant(p, g), Adding(g))
  {
  }

  lemma LatestConcat(start: Policy, a: seq<Write>, b: seq<Write>)
    ensures Latest(start, a + b) == Latest(Latest(start, a), b)
  {
  }

  /** The state of a call that began when the log was `log0` and the policy `start`. */
  ghost predicate Run(server: Server, log0: seq<Write>, start: Policy, author: Author,
                      attempts: seq<Policy>) reads server {
    && server.Valid() && log0 <= server.log && start == Latest(server.first, log0)
    && server.current == Latest(start, server.log[|log0|..])
    && Progress(start, server.log[|log0|..], author, attempts) && AllKnown(server, attempts)
  }

  ghost predicate AllKnown(server: Server, ps: seq<Policy>) reads server {
    forall p :: p in ps ==> server.Known(p)
  }

  /** The writes since then. */
  ghost function Recent(server: Server, log0: seq<Write>): seq<Write>
    requires log0 <= server.log
    reads server
  {
    server.log[|log0|..]
  }

  lemma Continues(log0: seq<Write>, log: seq<Write>, more: seq<Write>)
    requires log0 <= log
    ensures log0 <= log + more && (log + more)[|log0|..] == log[|log0|..] + more
  {
  }

  /** A reading within a call. */
  method Fetch(server: Server, ghost log0: seq<Write>, ghost start: Policy, ghost author: Author,
               ghost attempts: seq<Policy>)
    returns (read: Option<Policy>)
    requires Run(server, log0, start, author, attempts)
    modifies server
    ensures Run(server, log0, start, author, attempts)
    ensures server.answers == old(server.answers) + [Reading(read)]
    ensures Own(Recent(server, log0)) == old(Own(Recent(server, log0)))
    ensures read.Some? ==>
      && Run(server, log0, start, author, attempts + [read.value]) && server.Known(read.value)
      && Held(start, Recent(server, log0), read.value)
  {
    hide Progress, Held, Own, Server.Valid;
    ghost var writes := Recent(server, log0);
    ghost var others;
    read, others := server.Read();
    Continues(log0, old(server.log), others);
    LatestConcat(start, writes, others);
    ProgressByOthers(start, writes, others, author, attempts);
  }

  /** A write within a call, of an edit of the policy read last. */
  method Send(server: Server, p: Policy, ghost before: Policy, ghost log0: seq<Write>, ghost start: Policy,
              ghost author: Author,
              ghost attempts: seq<Policy>) returns (answer: Answer)
    requires Run(server, log0, start, author, attempts) && Run(server, log0, start, author, attempts + [before])
    requires !author.Others? && Edits(before, p, author) && p.etag == before.etag && Tagged(before)
    requires server.Known(before)
    modifies server
    ensures Run(server, log0, start, author, attempts + [before])
    ensures server.answers == old(server.answers) + [answer] && !answer.ReadAs? && !answer.Unread?
    ensures answer.Accepted? ==> LastReplaced(Own(Recent(server, log0)), before)
  {
    hide Progress, Held, Own, Server.Valid, Edits, OneWrite, LastReplaced;
    ghost var writes := Recent(server, log0);
    ghost var more;
    answer, more := server.Set(p, author);
    Continues(log0, old(server.log), more);
    LatestConcat(start, writes, more);
    ProgressByWrite(start, writes, more, author, attempts, before);
    if answer.Accepted? {
      LastIsNew(Own(writes), Own(more), author, before);
    }
  }

  lemma LastIsNew(own: seq<Write>, more: seq<Write>, author: Author, before: Policy)
    requires |more| == 1 && more[0].author == author && more[0].before == before
    ensures LastReplaced(own + more, before)
  {
  }

  lemma NotReadAdds(r: Result<Policy, EditError>, e: Entry, g: Grant, start: Policy, writes: seq<Write>)
    requires r == Failure(NotSaved) || (r == Failure(ReadFailed) && e.status in {Prepared, ConflictRereading})
    ensures Added(r, e, g, start, writes)
  {
  }

  /** The writes that were made are one way the policy can have gone. */
  lemma Explained(server: Server, log0: seq<Write>, start: Policy, earlier: seq<Policy>, e: Entry, g: Grant,
                  r: Result<Policy, EditError>)
    requires Run(server, log0, start, Adding(g), e.attempts) && Added(r, e, g, start, Recent(server, log0))
    requires AllAddable(earlier, g) && earlier < e.attempts && |e.attempts| == |earlier| + 1
    requires r.Success? && e.status == ExistingVerified ==> e.attempts[|e.attempts| - 1] == r.value
    ensures r.Success? ==> Recorded(e, g, r.value) && Explains(start, Recent(server, log0), e, g, r.value)
  {
    hide Added, Addable, Lawful, Linked, Progress, Server.Known, Server.Valid, States, Latest, AllKnown, Identified;
    RecentIsLawful(server, log0, start);
    IdentifiedIfKnown(server, e.attempts);
    IdentifiedIfKnown(server, States(start, Recent(server, log0)));
  }

  lemma RecentIsLawful(server: Server, log0: seq<Write>, start: Policy)
    requires server.Valid() && log0 <= server.log && start == Latest(server.first, log0)
    ensures Linked(start, Recent(server, log0)) && forall w :: w in Recent(server, log0) ==> Lawful(w)
    ensures AllKnown(server, States(start, Recent(server, log0)))
  {
    hide Lawful, Server.Known;
    var writes := Recent(server, log0);
    assert forall i :: 0 <= i < |writes| ==> writes[i] == server.log[|log0| + i];
    assert |writes| > 0 && |log0| > 0 ==> writes[0].before == log0[|log0| - 1].after;
    assert forall w :: w in writes ==> w in server.log;
    assert server.Known(start);
  }

  lemma IdentifiedIfKnown(server: Server, ps: seq<Policy>)
    requires AllKnown(server, ps)
    ensures Identified(ps)
  {
  }

  /** The evidence of one edit: in memory, and as last saved. */
  class Evidence {
    var entry: Entry
    var durable: Entry
    /** How often a save failed. */
    ghost var failures: nat

    constructor (desired: Grant)
      ensures entry == durable == Entry(desired, [], Prepared, None, None) && failures == 0
    {
      failures := 0;
      entry := Entry(desired, [], Prepared, None, None);
      durable := Entry(desired, [], Prepared, None, None);
    }

    /** An update is saved at once; saving may fail, which ends the run, so a run may end after each update. */
    method Mark(e: Entry) returns (saved: bool)
      modifies this
      ensures entry == e && durable == (if saved then e else old(durable))
      ensures failures == old(failures) + if saved then 0 else 1
    {
      entry := e;
      saved :| true;
      if saved {
        durable := entry;
      } else {
        failures := failures + 1;
      }
    }

    /** The last update of a run, with its outcome. */
    method End(e: Entry, outcome: Result<Policy, EditError>) returns (r: Result<Policy, EditError>)
      modifies this
      ensures entry == e
      ensures if failures == old(failures) then r == outcome && durable == e else r == Failure(NotSaved) && durable == old(durable)
      ensures old(failures) <= failures <= old(failures) + 1
    {
      var saved := Mark(e);
      r := if saved then outcome else Failure(NotSaved);
    }

    /** A reading, recorded durably before anything is done with it. */
    method Reread(server: Server, ghost log0: seq<Write>, ghost start: Policy,
                  ghost author: Author, ghost left: nat) returns (r: Result<Policy, EditError>)
      requires Run(server, log0, start, author, entry.attempts) && durable == entry
      modifies this, server
      ensures r.Success? ==>
        && durable == entry == old(entry).(attempts := old(entry.attempts) + [r.value]) && server.Known(r.value)
        && Run(server, log0, start, author, entry.attempts) && Held(start, Recent(server, log0), r.value)
      ensures r.Failure? ==>
        && (r.error == NotSaved || (r.error == ReadFailed && entry == old(entry)))
        && entry.binding == old(entry.binding) && durable == old(durable)
        && |durable.attempts| <= |entry.attempts| <= |durable.attempts| + 1
      ensures Run(server, log0, start, author, old(entry.attempts))
      ensures r.Success? ==> server.answers == old(server.answers) + [ReadAs(r.value)]
      ensures r.Failure? ==>
        old(server.answers) <= server.answers && Leads(author, server.answers[|old(server.answers)|..], left, r)
      ensures failures == old(failures) + if r == Failure(NotSaved) then 1 else 0
    {
      hide Leads, AtOnce;
      hide Held, Progress, Own, Server.Known, Recent, Server.Valid;
      var read := Fetch(server, log0, start, author, entry.attempts);
      assert server.answers[|old(server.answers)|..] == [Reading(read)];
      if read.None? {
        ReadingLeads(author, Unread, left, Failure(ReadFailed));
        return Failure(ReadFailed);
      }
      r := End(entry.(attempts := entry.attempts + [read.value]), Success(read.value));
      if r.Failure? {
        ReadingLeads(author, ReadAs(read.value), left, r);
      }
    }

    /** The reading after an accepted write, which is to make the grant and every grant of the policy it replaced. */
    method Readback(server: Server, before: Policy, desired: Grant, ghost log0: seq<Write>, ghost start: Policy)
      returns (r: Result<Policy, EditError>)
      requires Run(server, log0, start, Adding(desired), entry.attempts) && durable.attempts == entry.attempts
      requires LastReplaced(Own(Recent(server, log0)), before)
      modifies this, server
      ensures Run(server, log0, start, Adding(desired), entry.attempts)
      ensures entry.binding == old(entry.binding) && entry.attempts == durable.attempts == old(entry.attempts)
      ensures Added(r, entry, desired, start, Recent(server, log0))
      ensures old(server.answers) <= server.answers && |server.answers| == |old(server.answers)| + 1
      ensures Confirms(Adding(desired), before, server.answers[|server.answers| - 1], r)
      ensures failures == old(failures) + if r == Failure(NotSaved) then 1 else 0
      ensures r.Success? ==> durable == entry && entry.status == VerifiedAddition
    {
      hide Latest, Conflicting, AlreadyGiven, WithGrant, Grants, Has, Held, Progress, Own, Edits;
      hide AllKnown, Recent, Server.Known, Server.Valid;
      var read := Fetch(server, log0, start, Adding(desired), entry.attempts);
      if read.None? {
        r := End(entry.(status := ReadbackUnknown), Failure(ReadbackFailed));
        return;
      }
      var after := read.value;
      var kept := Preserves(before.bindings, after.bindings);
      GrantsAreGiven(after.bindings, desired);
      if !Tagged(after) || !Has(after.bindings, desired) || !kept {
        r := End(entry.(status := ReadbackMismatch, after := Some(after)), Failure(ReadbackDiffers));
        return;
      }
      r := End(entry.(status := VerifiedAddition, after := Some(after), byThisRun := Some(true)), Success(after));
    }

    /** The policies that are not written to: the grant is there, the member holds another condition, no etag. */
    method Settle(server: Server, before: Policy, desired: Grant, ghost log0: seq<Write>, ghost start: Policy)
      returns (settled: bool, r: Result<Policy, EditError>)
      requires log0 <= server.log && Held(start, Recent(server, log0), before)
      requires durable == entry && |entry.attempts| > 0 && entry.attempts[|entry.attempts| - 1] == before
      modifies this
      ensures entry.binding == old(entry.binding) && entry.attempts == durable.attempts == old(entry.attempts)
      ensures settled ==> r == Failure(NotSaved) || AtOnce(Adding(desired), before) == Some(r)
      ensures !settled ==> AtOnce(Adding(desired), before).None?
      ensures failures == old(failures) + if settled && r == Failure(NotSaved) then 1 else 0
      ensures settled ==> Added(r, entry, desired, start, Recent(server, log0))
      ensures settled && r.Success? ==> durable == entry && r.value == before
      ensures !settled ==>
        && entry == durable == old(entry)
        && Addable(before, desired)
    {
      ConflictsExactly(before.bindings, desired);
      hide Conflicting, AlreadyGiven, Has, Held, Recent, Grants;
      if AlreadyGiven(before.bindings, desired) {
        GivenExactly(before.bindings, desired);
        r := End(entry.(status := ExistingVerified, after := Some(before), byThisRun := Some(false)), Success(before));
        return true, r;
      }
      if Conflicting(before.bindings, desired) {
        r := End(entry.(status := DifferentCondition, after := Some(before), byThisRun := Some(false)),
                 Failure(ConditionDiffers));
        return true, r;
      }
      if !Tagged(before) {
        r := End(entry.(status := MissingEtag), Failure(NoEtag));
        return true, r;
      }
      return false, Failure(KeptChanging);
    }

    /** One write; a conflict leads to another attempt if one is left, a success to a reading. */
    method Replace(server: Server, before: Policy, desired: Grant, more: bool, ghost left: nat, ghost log0: seq<Write>,
                   ghost start: Policy,
                   ghost attempts: seq<Policy>) returns (again: bool, r: Result<Policy, EditError>)
      requires (more <==> left > 1) && AtOnce(Adding(desired), before).None?
      requires Run(server, log0, start, Adding(desired), attempts)
      requires Run(server, log0, start, Adding(desired), entry.attempts)
      requires durable == entry && entry.attempts == attempts + [before] && server.Known(before)
      requires Addable(before, desired)
      modifies this, server
      ensures Run(server, log0, start, Adding(desired), entry.attempts)
      ensures entry.binding == old(entry.binding) && entry.attempts == durable.attempts == old(entry.attempts)
      ensures old(server.answers) <= server.answers
      ensures again ==> server.answers == old(server.answers) + [Conflict]
      ensures !again ==> Leads(Adding(desired), [ReadAs(before)] + server.answers[|old(server.answers)|..], left, r)
      ensures failures == old(failures) + if !again && r == Failure(NotSaved) then 1 else 0
      ensures again ==> more && durable == entry && entry.status == ConflictRereading
      ensures !again ==> Added(r, entry, desired, start, Recent(server, log0))
      ensures !again && r.Success? ==> durable == entry && entry.status == VerifiedAddition
    {
      AddingEdits(before, desired);
      hide Latest, Conflicting, AlreadyGiven, WithGrant, Grants, Has, Held, Progress, Own, KeptByLast, LastReplaced,
           Edits;
      hide AllKnown, Recent, Server.Known, Server.Valid, Leads, AtOnce, Confirms;
      hide Added;
      ghost var answers := server.answers;
      again := false;
      var answer := Send(server, WithGrant(before, desired), before, log0, start, Adding(desired), attempts);
      ghost var sent := server.answers;
      if !answer.Accepted? {
        OneAnswer(answers, answer, sent);
        again, r := NotAccepted(answer, more, left, before, desired, start, Recent(server, log0));
        return;
      }
      r := AfterWrite(server, before, desired, left, log0, start);
      OneAnswer(answers, answer, server.answers);
    }

    /** An accepted write is recorded, and read back. */
    method AfterWrite(server: Server, before: Policy, desired: Grant, ghost left: nat, ghost log0: seq<Write>,
                      ghost start: Policy)
      returns (r: Result<Policy, EditError>)
      requires Run(server, log0, start, Adding(desired), entry.attempts) && durable.attempts == entry.attempts
      requires LastReplaced(Own(Recent(server, log0)), before) && AtOnce(Adding(desired), before).None?
      modifies this, server
      ensures Run(server, log0, start, Adding(desired), entry.attempts)
      ensures entry.binding == old(entry.binding) && entry.attempts == durable.attempts == old(entry.attempts)
      ensures Added(r, entry, desired, start, Recent(server, log0))
      ensures old(server.answers) <= server.answers
      ensures Leads(Adding(desired), [ReadAs(before)] + ([Accepted] + server.answers[|old(server.answers)|..]), left, r)
      ensures failures == old(failures) + if r == Failure(NotSaved) then 1 else 0
      ensures r.Success? ==> durable == entry && entry.status == VerifiedAddition
    {
      hide Latest, Grants, Has, Held, Progress, Own, KeptByLast, LastReplaced;
      hide AllKnown, Recent, Server.Known, Server.Valid, Leads, AtOnce, Confirms;
      var saved := Mark(entry.(status := ReadbackPending));
      if !saved {
        r := Failure(NotSaved);
        WriteLeads(Adding(desired), before, Accepted, left, r);
        assert [Accepted] + server.answers[|old(server.answers)|..] == [Accepted];
        return;
      }
      r := Readback(server, before, desired, log0, start);
      ghost var last := server.answers[|server.answers| - 1];
      assert [Accepted] + server.answers[|old(server.answers)|..] == [Accepted, last];
      ReadbackLeads(Adding(desired), before, last, left, r);
    }

    /** A conflict is recorded, and leads to another attempt if one is left; everything else ends the edit. */
    method NotAccepted(answer: Answer, more: bool, ghost left: nat, ghost before: Policy, ghost desired: Grant,
                       ghost start: Policy, ghost writes: seq<Write>) returns (again: bool, r: Result<Policy, EditError>)
      requires (more <==> left > 1) && AtOnce(Adding(desired), before).None? && durable == entry
      requires answer.Conflict? || answer.OtherFailure?
      modifies this
      ensures entry.binding == old(entry.binding) && entry.attempts == durable.attempts == old(entry.attempts)
      ensures !again ==> Leads(Adding(desired), [ReadAs(before)] + [answer], left, r)
      ensures failures == old(failures) + if !again && r == Failure(NotSaved) then 1 else 0
      ensures again ==> answer.Conflict? && more && durable == entry && entry.status == ConflictRereading
      ensures !again ==> r.Failure? && Added(r, entry, desired, start, writes)
    {
      hide Leads, AtOnce;
      again := false;
      if answer.Conflict? && more {
        again := Mark(entry.(status := ConflictRereading));
        r := Failure(NotSaved);
      } else {
        r := End(entry.(status := UpdateFailed), Failure(UpdateRefused));
      }
      if !again {
        WriteLeads(Adding(desired), before, answer, left, r);
      }
    }

    /**
     `policy`: add the grant unless it is there. The limit on attempts is met by giving up on the last conflict, so the
     message that the policy kept changing is never given.
     */
    method AddMember(server: Server, desired: Grant) returns (r: Result<Policy, EditError>)
      requires server.Valid() && entry == durable == Entry(desired, [], Prepared, None, None)
      modifies this, server
      ensures server.Valid() && old(server.log) <= server.log
      ensures entry.binding == desired && |durable.attempts| <= |entry.attempts| <= 5
      ensures old(server.answers) <= server.answers
      ensures Leads(Adding(desired), server.answers[|old(server.answers)|..], 5, r)
      ensures r == Failure(NotSaved) <==> failures > old(failures)
      ensures Progress(old(server.current), Recent(server, old(server.log)), Adding(desired), durable.attempts)
      ensures Added(r, entry, desired, old(server.current), Recent(server, old(server.log)))
      ensures r.Success? ==>
        && durable == entry && Recorded(entry, desired, r.value)
        && Explains(old(server.current), Recent(server, old(server.log)), entry, desired, r.value)
    {
      ghost var log0, start, author := server.log, server.current, Adding(desired);
      BeginsAt(server, author);
      hide Leads, AtOnce, Rounds, Added, Addable, AllAddable, Identified, Recorded, Explains, Linked, Lawful, Latest,
           Progress, Recent, Server.Valid;
      ghost var answers0 := server.answers;
      var attempt := 0;
      while attempt < MAX_ETAG_ATTEMPTS
        invariant Run(server, log0, start, author, entry.attempts) && durable == entry
        invariant entry.binding == desired && attempt == |entry.attempts| < MAX_ETAG_ATTEMPTS
        invariant entry.status in {Prepared, ConflictRereading} && AllAddable(entry.attempts, desired)
        invariant answers0 <= server.answers && Rounds(author, server.answers[|answers0|..], attempt)
        invariant failures == old(failures)
        decreases MAX_ETAG_ATTEMPTS - attempt
      {
        ghost var answers := server.answers;
        var again;
        again, r := AddOnce(server, desired, attempt + 1 < MAX_ETAG_ATTEMPTS, MAX_ETAG_ATTEMPTS - attempt, log0, start);
        if !again {
          CallLeads(author, answers0, answers, server.answers, attempt, r);
          return;
        }
        CallGoesOn(author, answers0, answers, server.answers, attempt, entry.attempts[attempt]);
        attempt := attempt + 1;
      }
      assert false;
    }

    /** One attempt to add the grant; `again` after a conflict. */
    method AddOnce(server: Server, desired: Grant, more: bool, ghost left: nat, ghost log0: seq<Write>,
                   ghost start: Policy)
      returns (again: bool, r: Result<Policy, EditError>)
      requires (more <==> left > 1) && Run(server, log0, start, Adding(desired), entry.attempts) && durable == entry
      requires entry.status in {Prepared, ConflictRereading} && AllAddable(entry.attempts, desired)
      modifies this, server
      ensures Run(server, log0, start, Adding(desired), durable.attempts) && entry.binding == old(entry.binding)
      ensures |durable.attempts| <= |entry.attempts| <= |old(entry.attempts)| + 1
      ensures old(server.answers) <= server.answers
      ensures !again ==> Leads(Adding(desired), server.answers[|old(server.answers)|..], left, r)
      ensures failures == old(failures) + if !again && r == Failure(NotSaved) then 1 else 0
      ensures again ==>
        && more && durable == entry && entry.status == ConflictRereading && AllAddable(entry.attempts, desired)
        && |entry.attempts| == |old(entry.attempts)| + 1
        && var p := entry.attempts[|entry.attempts| - 1];
        && AtOnce(Adding(desired), p).None? && server.answers == old(server.answers) + [ReadAs(p)] + [Conflict]
      ensures !again ==> Added(r, entry, desired, start, Recent(server, log0))
      ensures !again && r.Success? ==>
        durable == entry && Recorded(entry, desired, r.value)
          && Explains(start, Recent(server, log0), entry, desired, r.value)
    {
      hide Leads, AtOnce, Rounds, Added, Addable, AllAddable, Identified, Recorded, Explains, Linked, Lawful;
      hide Latest, Conflicting, AlreadyGiven, WithGrant, Grants, Has, Held, Progress, Own, KeptByLast, LastReplaced,
           Edits;
      hide AllKnown, Recent, Server.Known, Server.Valid;
      ghost var author, attempts, answers := Adding(desired), entry.attempts, server.answers;
      again := false;
      r := Reread(server, log0, start, author, left);
      if r.Failure? {
        NotReadAdds(r, entry, desired, start, Recent(server, log0));
        return;
      }
      var before := r.value;
      ghost var read := server.answers;
      var settled;
      settled, r := Settle(server, before, desired, log0, start);
      if settled {
        ReadingLeads(author, ReadAs(before), left, r);
        assert server.answers[|answers|..] == [ReadAs(before)];
        Explained(server, log0, start, attempts, entry, desired, r);
        return;
      }
      again, r := Replace(server, before, desired, more, left, log0, start, attempts);
      if !again {
        assert server.answers[|answers|..] == [ReadAs(before)] + server.answers[|read|..];
        Explained(server, log0, start, attempts, entry, desired, r);
        return;
      }
      OneMoreAddable(attempts, before, desired);
    }

    /** `remove_policy_member`: take the grant out unless it is absent. Only what was read and the end are recorded. */
    method RemoveMember(server: Server, desired: Grant) returns (r: Result<Policy, EditError>)
      requires server.Valid() && entry == durable == Entry(desired, [], Prepared, None, None)
      modifies this, server
      ensures server.Valid() && old(server.log) <= server.log
      ensures entry.binding == desired && |durable.attempts| <= |entry.attempts| <= 5
      ensures old(server.answers) <= server.answers
      ensures Leads(Removing(desired), server.answers[|old(server.answers)|..], 5, r)
      ensures r == Failure(NotSaved) <==> failures > old(failures)
      ensures Progress(old(server.current), Recent(server, old(server.log)), Removing(desired), durable.attempts)
      ensures Removed(r, entry, desired, old(server.current), Recent(server, old(server.log)))
      ensures r.Success? ==> durable == entry
    {
      ghost var log0, start, author := server.log, server.current, Removing(desired);
      BeginsAt(server, author);
      hide Leads, AtOnce, Rounds, Removed, Latest, Progress, Recent, Server.Valid;
      ghost var answers0 := server.answers;
      var attempt := 0;
      while attempt < MAX_ETAG_ATTEMPTS
        invariant Run(server, log0, start, author, entry.attempts) && durable == entry
        invariant entry.binding == desired && attempt == |entry.attempts| < MAX_ETAG_ATTEMPTS
        invariant answers0 <= server.answers && Rounds(author, server.answers[|answers0|..], attempt)
        invariant failures == old(failures)
        decreases MAX_ETAG_ATTEMPTS - attempt
      {
        ghost var answers := server.answers;
        var again;
        again, r := RemoveOnce(server, desired, attempt + 1 < MAX_ETAG_ATTEMPTS, MAX_ETAG_ATTEMPTS - attempt, log0, start);
        if !again {
          CallLeads(author, answers0, answers, server.answers, attempt, r);
          return;
        }
        CallGoesOn(author, answers0, answers, server.answers, attempt, entry.attempts[attempt]);
        attempt := attempt + 1;
      }
      assert false;
    }

    /** One attempt to take the grant out; `again` after a conflict. */
    method RemoveOnce(server: Server, desired: Grant, more: bool, ghost left: nat, ghost log0: seq<Write>,
                      ghost start: Policy) returns (again: bool, r: Result<Policy, EditError>)
      requires (more <==> left > 1) && Run(server, log0, start, Removing(desired), entry.attempts) && durable == entry
      modifies this, server
      ensures Run(server, log0, start, Removing(desired), durable.attempts) && entry.binding == old(entry.binding)
      ensures |durable.attempts| <= |entry.attempts| <= |old(entry.attempts)| + 1
      ensures old(server.answers) <= server.answers
      ensures !again ==> Leads(Removing(desired), server.answers[|old(server.answers)|..], left, r)
      ensures failures == old(failures) + if !again && r == Failure(NotSaved) then 1 else 0
      ensures again ==>
        && more && durable == entry && |entry.attempts| == |old(entry.attempts)| + 1
        && var p := entry.attempts[|entry.attempts| - 1];
        && AtOnce(Removing(desired), p).None? && server.answers == old(server.answers) + [ReadAs(p)] + [Conflict]
      ensures !again ==> Removed(r, entry, desired, start, Recent(server, log0)) && (r.Success? ==> durable == entry)
    {
      hide Leads, AtOnce, Rounds;
      hide Latest, Conflicting, AlreadyGiven, WithoutGrant, Grants, Has, Held, Progress, Own, LeftByLast,
           LastReplaced, Edits;
      hide AllKnown, Recent, Server.Known, Server.Valid;
      ghost var author, attempts, answers := Removing(desired), entry.attempts, server.answers;
      again := false;
      r := Reread(server, log0, start, author, left);
      if r.Failure? {
        return;
      }
      var before := r.value;
      ghost var read := server.answers;
      var settled;
      settled, r := Keep(server, before, desired, log0, start);
      if settled {
        ReadingLeads(author, ReadAs(before), left, r);
        assert server.answers[|answers|..] == [ReadAs(before)];
        return;
      }
      again, r := Withdraw(server, before, desired, more, left, log0, start, attempts);
      if !again {
        assert server.answers[|answers|..] == [ReadAs(before)] + server.answers[|read|..];
      }
    }

    /** The policies that nothing is taken out of: the member holds another condition, the grant is absent, no etag. */
    method Keep(server: Server, before: Policy, desired: Grant, ghost log0: seq<Write>, ghost start: Policy)
      returns (settled: bool, r: Result<Policy, EditError>)
      requires log0 <= server.log && Held(start, Recent(server, log0), before)
      requires durable == entry && |entry.attempts| > 0 && entry.attempts[|entry.attempts| - 1] == before
      modifies this
      ensures entry.binding == old(entry.binding) && entry.attempts == durable.attempts == old(entry.attempts)
      ensures settled ==> r == Failure(NotSaved) || AtOnce(Removing(desired), before) == Some(r)
      ensures !settled ==> AtOnce(Removing(desired), before).None?
      ensures failures == old(failures) + if settled && r == Failure(NotSaved) then 1 else 0
      ensures settled ==> Removed(r, entry, desired, start, Recent(server, log0)) && (r.Success? ==> durable == entry)
      ensures !settled ==>
        && entry == durable == old(entry) && Tagged(before)
        && AlreadyGiven(before.bindings, desired) && !Conflicting(before.bindings, desired)
    {
      ConflictsExactly(before.bindings, desired);
      hide Conflicting, AlreadyGiven, Has, Held, Recent, Grants, WithoutGrant;
      settled := true;
      if Conflicting(before.bindings, desired) {
        r := Failure(ConditionDiffers);
      } else if !AlreadyGiven(before.bindings, desired) {
        r := End(entry.(status := AlreadyAbsent, byThisRun := Some(false)), Success(before));
      } else if !Tagged(before) {
        r := Failure(NoEtag);
      } else {
        settled, r := false, Failure(KeptChanging);
      }
    }

    /** One removal; a conflict leads to another attempt if one is left, a success to a reading. */
    method Withdraw(server: Server, before: Policy, desired: Grant, more: bool, ghost left: nat, ghost log0: seq<Write>,
                    ghost start: Policy,
                    ghost attempts: seq<Policy>) returns (again: bool, r: Result<Policy, EditError>)
      requires (more <==> left > 1) && AtOnce(Removing(desired), before).None?
      requires Run(server, log0, start, Removing(desired), attempts)
      requires Run(server, log0, start, Removing(desired), entry.attempts)
      requires durable == entry && entry.attempts == attempts + [before] && server.Known(before)
      requires AlreadyGiven(before.bindings, desired) && !Conflicting(before.bindings, desired) && Tagged(before)
      modifies this, server
      ensures Run(server, log0, start, Removing(desired), entry.attempts)
      ensures entry.binding == old(entry.binding) && entry.attempts == durable.attempts == old(entry.attempts)
      ensures old(server.answers) <= server.answers
      ensures again ==> server.answers == old(server.answers) + [Conflict]
      ensures !again ==> Leads(Removing(desired), [ReadAs(before)] + server.answers[|old(server.answers)|..], left, r)
      ensures failures == old(failures) + if !again && r == Failure(NotSaved) then 1 else 0
      ensures again ==> more && durable == entry
      ensures !again ==> Removed(r, entry, desired, start, Recent(server, log0)) && (r.Success? ==> durable == entry)
    {
      RemovingEdits(before, desired);
      hide Latest, Conflicting, AlreadyGiven, WithoutGrant, Grants, Has, Held, Progress, Own, LeftByLast,
           LastReplaced, Edits;
      hide AllKnown, Recent, Server.Known, Server.Valid, Leads, AtOnce, Confirms;
      hide Removed;
      ghost var answers := server.answers;
      var updated := WithoutGrant(before, desired);
      var answer := Send(server, updated, before, log0, start, Removing(desired), attempts);
      again := !answer.Accepted? && answer.Conflict? && more;
      if !answer.Accepted? {
        r := Failure(UpdateRefused);
        RefusedRemoves(entry, desired, start);
        OneAnswer(answers, answer, server.answers);
        if !again {
          WriteLeads(Removing(desired), before, answer, left, r);
        }
        return;
      }
      r := AfterRemoval(server, before, updated, desired, left, log0, start);
      OneAnswer(answers, answer, server.answers);
    }

    method AfterRemoval(server: Server, ghost before: Policy, expected: Policy, desired: Grant, ghost left: nat,
                        ghost log0: seq<Write>, ghost start: Policy)
      returns (r: Result<Policy, EditError>)
      requires Run(server, log0, start, Removing(desired), entry.attempts) && durable.attempts == entry.attempts
      requires LastReplaced(Own(Recent(server, log0)), before) && AtOnce(Removing(desired), before).None?
      requires AlreadyGiven(before.bindings, desired) && expected == WithoutGrant(before, desired)
      modifies this, server
      ensures Run(server, log0, start, Removing(desired), entry.attempts)
      ensures entry.binding == old(entry.binding) && entry.attempts == durable.attempts == old(entry.attempts)
      ensures Removed(r, entry, desired, start, Recent(server, log0))
      ensures old(server.answers) <= server.answers
      ensures Leads(Removing(desired), [ReadAs(before)] + ([Accepted] + server.answers[|old(server.answers)|..]), left, r)
      ensures failures == old(failures) + if r == Failure(NotSaved) then 1 else 0
      ensures r.Success? ==> durable == entry
    {
      hide Latest, Grants, Has, Held, Progress, Own, LeftByLast, LastReplaced, Removed;
      hide AllKnown, Recent, Server.Known, Server.Valid, Leads, AtOnce, Confirms;
      r := Confirm(server, before, expected, desired, log0, start);
      ghost var last := server.answers[|server.answers| - 1];
      assert [Accepted] + server.answers[|old(server.answers)|..] == [Accepted, last];
      ReadbackLeads(Removing(desired), before, last, left, r);
    }

    lemma RefusedRemoves(e: Entry, g: Grant, start: Policy)
      ensures forall writes :: Removed(Failure(UpdateRefused), e, g, start, writes)
    {
    }

    /** The reading after an accepted removal. */
    method Confirm(server: Server, ghost before: Policy, expected: Policy, desired: Grant, ghost log0: seq<Write>,
                   ghost start: Policy)
      returns (r: Result<Policy, EditError>)
      requires Run(server, log0, start, Removing(desired), entry.attempts) && durable.attempts == entry.attempts
      requires LastReplaced(Own(Recent(server, log0)), before)
      requires AlreadyGiven(before.bindings, desired) && expected == WithoutGrant(before, desired)
      modifies this, server
      ensures Run(server, log0, start, Removing(desired), entry.attempts)
      ensures entry.binding == old(entry.binding) && entry.attempts == durable.attempts == old(entry.attempts)
      ensures Removed(r, entry, desired, start, Recent(server, log0))
      ensures old(server.answers) <= server.answers && |server.answers| == |old(server.answers)| + 1
      ensures Confirms(Removing(desired), before, server.answers[|server.answers| - 1], r)
      ensures failures == old(failures) + if r == Failure(NotSaved) then 1 else 0
      ensures r.Success? ==> durable == entry
    {
      hide Latest, Conflicting, AlreadyGiven, WithoutGrant, Grants, Has, Held, Progress, Own, Edits;
      hide AllKnown, Recent, Server.Known, Server.Valid;
      var read := Fetch(server, log0, start, Removing(desired), entry.attempts);
      if read.None? {
        return Failure(ReadbackFailed);
      }
      var after := read.value;
      var kept := Preserves(expected.bindings, after.bindings);
      GrantsAreGiven(after.bindings, desired);
      if !Tagged(after) || Has(after.bindings, desired) || !kept {
        return Failure(ReadbackDiffers);
      }
      assert LeftBy(before, after, desired);
      r := End(entry.(status := VerifiedRemoval, after := Some(after), byThisRun := Some(true)), Success(after));
    }
  }

  lemma RemovingEdits(p: Policy, g: Grant)
    requires AlreadyGiven(p.bindings, g) && !Conflicting(p.bindings, g)
    ensures WithoutGrant(p, g).etag == p.etag && Edits(p, WithoutGrant(p, g), Removing(g))
  {
  }

  /** A grant in a later binding of the same role and condition is overlooked: the cleanup calls it absent. */
  lemma AbsenceMayBeOverlooked()
    ensures
      var g := Grant("roles/viewer", None, "a");
      var bs := [Binding("roles/viewer", None, ["b"]), Binding("roles/viewer", None, ["a"])];
      Has(bs, g) && !AlreadyGiven(bs, g) && !Conflicting(bs, g)
  {
    var g := Grant("roles/viewer", None, "a");
    var bs := [Binding("roles/viewer", None, ["b"]), Binding("roles/viewer", None, ["a"])];
    assert bs[1] in bs && Gives(bs[1], g);
  }

  predicate Matches(b: Binding, role: string, condition: Option<string>) { b.role == role && b.condition == condition }

  predicate IsFirst(bs: seq<Binding>, j: int, role: string, condition: Option<string>) {
    0 <= j < |bs| && Matches(bs[j], role, condition) && forall i :: 0 <= i < j ==> !Matches(bs[i], role, condition)
  }

  /** The grant is reported as absent: it is not in the first binding for it, and the role is not held otherwise. */
  predicate ReportedAbsent(bs: seq<Binding>, g: Grant) { !AlreadyGiven(bs, g) && !Conflicting(bs, g) }

  /**
   Who is named by a later binding for the role and condition is named by the first one or holds the role otherwise.
   */
  ghost predicate FirstNamesAll(bs: seq<Binding>, role: string, condition: Option<string>) {
    forall j, k, m :: IsFirst(bs, j, role, condition) && j < k < |bs| && Matches(bs[k], role, condition) && m in bs[k].members ==>
      m in bs[j].members || Conflicting(bs, Grant(role, condition, m))
  }

  lemma ExactIsFirst(bs: seq<Binding>, g: Grant)
    ensures Exact(bs, g).Some? ==> IsFirst(bs, Exact(bs, g).value, g.role, g.condition)
    ensures forall j :: IsFirst(bs, j, g.role, g.condition) ==> Exact(bs, g) == Some(j)
  {
    forall j | IsFirst(bs, j, g.role, g.condition) ensures Exact(bs, g) == Some(j) {
      assert bs[j] in bs;
    }
  }

  /** For a role and a condition, absence is reported rightly of all members exactly if the first binding names all. */
  lemma AbsenceIsRight(bs: seq<Binding>, role: string, condition: Option<string>)
    ensures (forall m :: ReportedAbsent(bs, Grant(role, condition, m)) ==> !Has(bs, Grant(role, condition, m)))
            <==> FirstNamesAll(bs, role, condition)
  {
    hide Exact, Conflicting;
    if forall m :: ReportedAbsent(bs, Grant(role, condition, m)) ==> !Has(bs, Grant(role, condition, m)) {
      forall j, k, m | IsFirst(bs, j, role, condition) && j < k < |bs| && Matches(bs[k], role, condition)
        && m in bs[k].members
        ensures m in bs[j].members || Conflicting(bs, Grant(role, condition, m))
      {
        var g := Grant(role, condition, m);
        ExactIsFirst(bs, g);
        assert bs[k] in bs && Gives(bs[k], g);
        assert !ReportedAbsent(bs, Grant(role, condition, m));
      }
    }
    if FirstNamesAll(bs, role, condition) {
      forall m | Has(bs, Grant(role, condition, m)) ensures !ReportedAbsent(bs, Grant(role, condition, m)) {
        var g := Grant(role, condition, m);
        GivenIsNamed(bs, g);
      }
    }
  }

  lemma GivenIsNamed(bs: seq<Binding>, g: Grant)
    requires Has(bs, g) && FirstNamesAll(bs, g.role, g.condition)
    ensures AlreadyGiven(bs, g) || Conflicting(bs, g)
  {
    hide Conflicting;
    var b :| b in bs && Gives(b, g);
    var k :| 0 <= k < |bs| && bs[k] == b;
    ExactIsFirst(bs, g);
    var j := Exact(bs, g).value;
    assert IsFirst(bs, j, g.role, g.condition) && j <= k;
    if j < k {
      assert g.member in bs[j].members || Conflicting(bs, Grant(g.role, g.condition, g.member));
    }
  }

  lemma BeginsAt(server: Server, author: Author)
    requires server.Valid()
    ensures Run(server, server.log, server.current, author, [])
  {
    assert server.log[|server.log|..] == [];
    NoProgress(server.current, author);
  }
}

