/**
 Several release attempts on one environment. `runtime_guard` compares an attempt's own checkpoint with
 the newest one uploaded by any attempt. The log is the sequence of events of all attempts, each stamped
 with its plan. Entrypoints are serialised; a process may die after any event and its last events with it.

 Assumption: `latest` yields the newest uploaded checkpoint whose name starts with `lwc-state-`, which is
 every checkpoint saved with a status other than prepared and ready.
 */
module Fences {
  import opened Wrappers
  import opened Sequences
  import opened Checkpoints
  import opened Journals
  import opened Engines

  datatype Stamp = Stamp(plan: string, event: Event)

  /** The newest runtime checkpoint among the first k events. */
  function LatestAt(log: seq<Stamp>, k: nat): Option<Checkpoint>
    requires k <= |log|
  {
    if k == 0 then None
    else if log[k - 1].event.Saved? then Some(log[k - 1].event.cp)
    else LatestAt(log, k - 1)
  }

  function Latest(log: seq<Stamp>): Option<Checkpoint> { LatestAt(log, |log|) }

  /** The newest runtime checkpoint of one plan among the first k events. */
  function LastOfAt(log: seq<Stamp>, k: nat, plan: string): Option<Checkpoint>
    requires k <= |log|
  {
    if k == 0 then None
    else if log[k - 1].event.Saved? && log[k - 1].plan == plan then Some(log[k - 1].event.cp)
    else LastOfAt(log, k - 1, plan)
  }

  function LastOf(log: seq<Stamp>, plan: string): Option<Checkpoint> { LastOfAt(log, |log|, plan) }

  predicate Unresolved(cp: Option<Checkpoint>) { cp.Some? && !Resolved(cp.value.status) }

  /** Saves carry their own plan, and only runtime checkpoints are uploaded under the state prefix. */
  predicate Stamped(log: seq<Stamp>) {
    forall i :: 0 <= i < |log| && log[i].event.Saved? ==>
      log[i].event.cp.plan == log[i].plan && !BeforeRuntime(log[i].event.cp.status)
  }

  /** Only the owner of the newest checkpoint may be unresolved. */
  ghost predicate OwnerOnly(log: seq<Stamp>, k: nat)
    requires k <= |log|
  {
    forall p :: Unresolved(LastOfAt(log, k, p)) ==> LatestAt(log, k).Some? && LatestAt(log, k).value.plan == p
  }

  /** Everybody but p is resolved after the first k events. */
  ghost predicate OthersResolved(log: seq<Stamp>, k: nat, p: string)
    requires k <= |log|
  {
    forall q :: q != p ==> !Unresolved(LastOfAt(log, k, q))
  }

  /** No attempt saves or calls a provider while another attempt is unresolved. */
  ghost predicate Fenced(log: seq<Stamp>) {
    && Stamped(log)
    && (forall k :: 0 <= k <= |log| ==> OwnerOnly(log, k))
    && (forall k :: 0 <= k < |log| ==> OthersResolved(log, k, log[k].plan))
  }

  datatype Verdict = Pass | Bypass | Refuse

  /** `runtime_guard` for an operation other than readback. `deploying` and `development` matter for force only. */
  function Guard(latest: Option<Checkpoint>, plan: string, own: Checkpoint, deploying: bool, development: bool,
                 force: bool): Verdict {
    if force && !(deploying && development && own.status == Ready) then Refuse
    else match latest
      case None => if own.status == Ready then Pass else Refuse
      case Some(record) =>
        if own.status != Ready then
          if record.plan == plan && record.sequence == own.sequence then Pass else Refuse
        else if record.plan == plan && !BeforeRuntime(record.status) then Refuse
        else if Resolved(record.status) then Pass
        else if force && deploying && record.plan != plan then Bypass
        else Refuse
  }

  /** Without a bypass, passing the guard means that nobody else is unresolved. */
  lemma GuardFences(log: seq<Stamp>, plan: string, own: Checkpoint, deploying: bool, development: bool, force: bool)
    requires Fenced(log) && Guard(Latest(log), plan, own, deploying, development, force) == Pass
    ensures OthersResolved(log, |log|, plan)
  {
    assert OwnerOnly(log, |log|);
    if Latest(log).Some? && Resolved(Latest(log).value.status) {
      LatestIsLastOf(log, |log|);
    }
    forall q | q != plan ensures !Unresolved(LastOfAt(log, |log|, q)) {
      if Latest(log).None? {
        LatestNone(log, |log|, q);
      }
    }
  }

  /** A plan that has not run may begin exactly if no attempt is unresolved; with force it bypasses those of others. */
  lemma BeginsExactly(log: seq<Stamp>, plan: string, own: Checkpoint, development: bool)
    requires Fenced(log) && own.status == Ready && LastOf(log, plan).None?
    ensures Guard(Latest(log), plan, own, true, development, false) == Pass <==>
      forall q :: !Unresolved(LastOf(log, q))
    ensures Guard(Latest(log), plan, own, true, development, true) ==
      if !development then Refuse else if forall q :: !Unresolved(LastOf(log, q)) then Pass else Bypass
  {
    if Latest(log).Some? {
      LatestIsLastOf(log, |log|);
      assert LastOf(log, Latest(log).value.plan) == Latest(log);
    }
    if Guard(Latest(log), plan, own, true, development, false) == Pass {
      GuardFences(log, plan, own, true, development, false);
      forall q ensures !Unresolved(LastOf(log, q)) {
        assert q == plan || !Unresolved(LastOfAt(log, |log|, q));
      }
    }
  }

  /** The newest checkpoint always lets its own attempt go on, unless the attempt has not run. */
  lemma NewestPasses(log: seq<Stamp>, deploying: bool, development: bool)
    requires Latest(log).Some? && !BeforeRuntime(Latest(log).value.status)
    ensures var own := Latest(log).value; Guard(Latest(log), own.plan, own, deploying, development, false) == Pass
  {
  }

  /**
   Who is refused: a copy of another plan or sequence, any copy that has run if none is newest, and force elsewhere.
   */
  lemma GuardRefuses(latest: Option<Checkpoint>, plan: string, own: Checkpoint, deploying: bool, development: bool)
    ensures own.status != Ready && latest.None? ==> Guard(latest, plan, own, deploying, development, false) == Refuse
    ensures own.status != Ready && latest.Some? && (latest.value.plan != plan || latest.value.sequence != own.sequence) ==>
      Guard(latest, plan, own, deploying, development, false) == Refuse
    ensures own.status == Ready && latest.Some? && latest.value.plan == plan && latest.value.status !in {Ready, Prepared} ==>
      forall force :: Guard(latest, plan, own, deploying, development, force) == Refuse
    ensures own.status != Ready || !deploying || !development ==>
      Guard(latest, plan, own, deploying, development, true) == Refuse
    ensures Guard(latest, plan, own, deploying, development, false) != Bypass
  {
  }

  lemma {:induction false} LatestIsLastOf(log: seq<Stamp>, k: nat)
    requires Stamped(log) && k <= |log| && LatestAt(log, k).Some?
    ensures LastOfAt(log, k, LatestAt(log, k).value.plan) == LatestAt(log, k)
  {
    if !log[k - 1].event.Saved? {
      LatestIsLastOf(log, k - 1);
    }
  }

  lemma {:induction false} LatestNone(log: seq<Stamp>, k: nat, p: string)
    requires k <= |log| && LatestAt(log, k).None?
    ensures LastOfAt(log, k, p).None?
  {
    if k > 0 {
      LatestNone(log, k - 1, p);
    }
  }

  lemma {:induction false} AppendKeeps(log: seq<Stamp>, more: seq<Stamp>, k: nat, p: string)
    requires k <= |log|
    ensures LatestAt(log + more, k) == LatestAt(log, k)
    ensures LastOfAt(log + more, k, p) == LastOfAt(log, k, p)
  {
    if k > 0 {
      AppendKeeps(log, more, k - 1, p);
    }
  }

  function StampAll(plan: string, events: seq<Event>): (r: seq<Stamp>)
    ensures |r| == |events|
    ensures forall i :: 0 <= i < |r| ==> r[i] == Stamp(plan, events[i])
  {
    seq(|events|, i requires 0 <= i < |events| => Stamp(plan, events[i]))
  }

  predicate RuntimeSaves(plan: string, events: seq<Event>) {
    forall e :: e in events && e.Saved? ==> e.cp.plan == plan && !BeforeRuntime(e.cp.status)
  }

  /** One more event of the attempt that may run keeps the fence. */
  lemma AppendOne(log: seq<Stamp>, s: Stamp)
    requires Fenced(log) && OthersResolved(log, |log|, s.plan)
    requires s.event.Saved? ==> s.event.cp.plan == s.plan && !BeforeRuntime(s.event.cp.status)
    ensures Fenced(log + [s]) && OthersResolved(log + [s], |log| + 1, s.plan)
  {
    var l := log + [s];
    forall k | 0 <= k < |l| ensures OthersResolved(l, k, l[k].plan) {
      assert k < |log| ==> OthersResolved(log, k, log[k].plan);
      forall q ensures LastOfAt(l, k, q) == LastOfAt(log, k, q) {
        AppendKeeps(log, [s], k, q);
      }
    }
    forall q | q != s.plan ensures !Unresolved(LastOfAt(l, |l|, q)) {
      AppendKeeps(log, [s], |log|, q);
      assert !Unresolved(LastOfAt(log, |log|, q));
    }
    forall k | 0 <= k <= |l| ensures OwnerOnly(l, k) {
      if k <= |log| {
        assert OwnerOnly(log, k);
        forall q ensures LastOfAt(l, k, q) == LastOfAt(log, k, q) && LatestAt(l, k) == LatestAt(log, k) {
          AppendKeeps(log, [s], k, q);
        }
      } else {
        assert OwnerOnly(log, |log|);
        AppendKeeps(log, [s], |log|, s.plan);
      }
    }
  }

  lemma {:induction false} AppendAll(log: seq<Stamp>, plan: string, events: seq<Event>)
    requires Fenced(log) && OthersResolved(log, |log|, plan) && RuntimeSaves(plan, events)
    ensures Fenced(log + StampAll(plan, events))
    decreases |events|
  {
    if events == [] {
      assert log + StampAll(plan, events) == log;
    } else {
      AppendOne(log, Stamp(plan, events[0]));
      AppendAll(log + [Stamp(plan, events[0])], plan, events[1..]);
      assert log + StampAll(plan, events) == log + [Stamp(plan, events[0])] + StampAll(plan, events[1..]);
    }
  }

  /** Every save after the first of a lawful journal is a runtime save of the plan. */
  lemma LaterSavesAreRuntime(plan: Plan, past: seq<Event>, j: seq<Event>, n: nat)
    requires Lawful(plan, j) && past <= j && past != [] && |past| <= n <= |j|
    ensures RuntimeSaves(plan.id, j[|past|..n])
  {
    forall e | e in j[|past|..n] && e.Saved? ensures e.cp.plan == plan.id && !BeforeRuntime(e.cp.status) {
      var k :| |past| <= k < n && j[k] == e;
      assert AllowedAt(plan, j, k);
      DurablePlan(plan, j, k);
    }
  }

  lemma PastIsNonEmpty(past: seq<Event>)
    ensures Durable(past).Some? ==> past != []
  {
  }

  // ---- lines of checkpoints -----------------------------------------------------------------------

  /** The saves of plan p carry strictly increasing sequence numbers. */
  predicate Linear(log: seq<Stamp>, p: string) {
    forall i, k :: 0 <= i < k < |log| && log[i].plan == p && log[k].plan == p && log[i].event.Saved? && log[k].event.Saved? ==>
      log[i].event.cp.sequence < log[k].event.cp.sequence
  }

  predicate InLog(log: seq<Stamp>, p: string, cp: Checkpoint) { Stamp(p, Saved(cp)) in log }

  lemma {:induction false} LastOfIsInLog(log: seq<Stamp>, k: nat, p: string) returns (i: nat)
    requires k <= |log| && LastOfAt(log, k, p).Some?
    ensures i < k && log[i] == Stamp(p, Saved(LastOfAt(log, k, p).value))
  {
    if log[k - 1].event.Saved? && log[k - 1].plan == p {
      i := k - 1;
    } else {
      i := LastOfIsInLog(log, k - 1, p);
    }
  }

  /**
   On a linear log the guard admits exactly the newest checkpoint: a retained copy that passes is the
   newest one, not only one with its sequence number.
   */
  lemma LinearCopiesAreNewest(log: seq<Stamp>, plan: string, own: Checkpoint, deploying: bool, development: bool)
    requires Stamped(log) && Linear(log, plan) && InLog(log, plan, own)
    ensures Guard(Latest(log), plan, own, deploying, development, false) == Pass <==> Latest(log) == Some(own)
  {
    var i :| 0 <= i < |log| && log[i] == Stamp(plan, Saved(own));
    assert own.plan == plan && !BeforeRuntime(own.status);
    if Latest(log).Some? {
      LatestIsLastOf(log, |log|);
      var k := LastOfIsInLog(log, |log|, Latest(log).value.plan);
      if i < k && Latest(log).value.plan == plan {
        assert log[i].event.cp.sequence < log[k].event.cp.sequence;
      } else if k < i && Latest(log).value.plan == plan {
        assert log[k].event.cp.sequence < log[i].event.cp.sequence;
      }
    }
  }

  /** No retained copy but the newest checkpoint itself passes the guard. */
  ghost predicate NoStaleCopy(log: seq<Stamp>, deploying: bool, development: bool) {
    forall p, own :: InLog(log, p, own) && Guard(Latest(log), p, own, deploying, development, false) == Pass ==>
      Latest(log) == Some(own)
  }

  /** No other retained checkpoint of the plan has this one's sequence number. */
  ghost predicate NoTwin(log: seq<Stamp>, cp: Checkpoint) {
    forall own :: InLog(log, cp.plan, own) && own.sequence == cp.sequence ==> own == cp
  }

  /** The guard admits no stale copy exactly if the newest checkpoint has no twin. */
  lemma StaleCopiesAreTwins(log: seq<Stamp>, deploying: bool, development: bool)
    requires Stamped(log)
    ensures NoStaleCopy(log, deploying, development) <==> Latest(log).None? || NoTwin(log, Latest(log).value)
  {
    forall p, own | InLog(log, p, own)
      ensures own.plan == p && !BeforeRuntime(own.status)
      ensures Latest(log).None? ==> Guard(Latest(log), p, own, deploying, development, false) == Refuse
    {
      var i :| 0 <= i < |log| && log[i] == Stamp(p, Saved(own));
    }
  }

  /** The saves of one plan are told apart by their sequence numbers. */
  predicate SequencesIdentify(log: seq<Stamp>) {
    forall i, k :: 0 <= i < k < |log| && SameSequence(log[i], log[k]) ==> log[i].event.cp == log[k].event.cp
  }

  predicate SameSequence(a: Stamp, b: Stamp) {
    a.plan == b.plan && a.event.Saved? && b.event.Saved? && a.event.cp.sequence == b.event.cp.sequence
  }

  /**
   No stale copy ever passes, at any moment of the log, exactly if sequence numbers identify the saves of each plan.
   */
  lemma NoStaleCopyEver(log: seq<Stamp>, deploying: bool, development: bool)
    requires Stamped(log)
    ensures (forall n :: 0 <= n <= |log| ==> NoStaleCopy(log[..n], deploying, development)) <==> SequencesIdentify(log)
  {
    if forall n :: 0 <= n <= |log| ==> NoStaleCopy(log[..n], deploying, development) {
      forall i, k | 0 <= i < k < |log| && SameSequence(log[i], log[k])
        ensures log[i].event.cp == log[k].event.cp
      {
        var l := log[..k + 1];
        assert NoStaleCopy(log[..k + 1], deploying, development);
        StaleCopiesAreTwins(l, deploying, development);
        assert Latest(l) == Some(log[k].event.cp);
        assert l[i] == Stamp(log[i].plan, Saved(log[i].event.cp));
        assert InLog(l, log[i].plan, log[i].event.cp);
      }
    }
    if SequencesIdentify(log) {
      forall n | 0 <= n <= |log| ensures NoStaleCopy(log[..n], deploying, development) {
        NewestHasNoTwin(log, n);
        StaleCopiesAreTwins(log[..n], deploying, development);
      }
    }
  }

  lemma NewestHasNoTwin(log: seq<Stamp>, n: nat)
    requires Stamped(log) && SequencesIdentify(log) && n <= |log|
    ensures Latest(log[..n]).None? || NoTwin(log[..n], Latest(log[..n]).value)
  {
    var l := log[..n];
    if Latest(l).Some? {
      var cp := Latest(l).value;
      LatestIsLastOf(l, n);
      var k := LastOfIsInLog(l, n, cp.plan);
      forall own | InLog(l, cp.plan, own) && own.sequence == cp.sequence ensures own == cp {
        var i :| 0 <= i < n && l[i] == Stamp(cp.plan, Saved(own));
        assert log[i] == l[i] && log[k] == l[k];
      }
    }
  }

  /** Resuming from the newest checkpoint, or starting a plan that never ran, keeps the log linear. */
  lemma ResumingKeepsLinear(log: seq<Stamp>, plan: Plan, past: seq<Event>, j: seq<Event>, n: nat, own: Checkpoint)
    requires Stamped(log) && Linear(log, plan.id) && Lawful(plan, j) && past <= j && |past| <= n <= |j|
    requires Durable(past) == Some(own)
    requires (Latest(log) == Some(own) && own.plan == plan.id) || LastOf(log, plan.id).None?
    ensures Linear(log + StampAll(plan.id, j[|past|..n]), plan.id)
  {
    hide Lawful, ViewAt, Keeps;
    var tail := StampAll(plan.id, j[|past|..n]);
    var l := log + tail;
    var m := |log|;
    ViewOfPrefix(past, j, |past|);
    var b := LastSave(j, |past|);
    forall i, k | 0 <= i < k < |l| && l[i].plan == plan.id && l[k].plan == plan.id && l[i].event.Saved?
      && l[k].event.Saved?
      ensures l[i].event.cp.sequence < l[k].event.cp.sequence
    {
      if k >= m {
        assert l[k] == tail[k - m] && l[k].event == j[|past| + k - m];
        if i >= m {
          assert l[i] == tail[i - m] && l[i].event == j[|past| + i - m];
          SavesOnlyAdvance(plan, j, |past| + i - m, |past| + k - m);
        } else {
          SavesOnlyAdvance(plan, j, b, |past| + k - m);
          NotLaterThanLast(log, |log|, plan.id, i);
          LatestIsLastOf(log, |log|);
        }
      }
    }
  }

  lemma {:induction false} NotLaterThanLast(log: seq<Stamp>, k: nat, p: string, i: nat)
    requires Linear(log, p) && k <= |log| && i < k && log[i].plan == p && log[i].event.Saved?
    ensures LastOfAt(log, k, p).Some? && log[i].event.cp.sequence <= LastOfAt(log, k, p).value.sequence
  {
    if !(log[k - 1].event.Saved? && log[k - 1].plan == p) {
      NotLaterThanLast(log, k - 1, p, i);
    }
  }

  // ---- the journal of one attempt within the log ---------------------------------------------------

  /** The events of one plan, in order. */
  function Project(log: seq<Stamp>, p: string): seq<Event> {
    if log == [] then []
    else
      var s := log[|log| - 1];
      Project(log[..|log| - 1], p) + (if s.plan == p then [s.event] else [])
  }

  lemma {:induction false} ProjectAppends(log: seq<Stamp>, more: seq<Stamp>, p: string)
    ensures Project(log + more, p) == Project(log, p) + Project(more, p)
  {
    if more == [] {
      assert log + more == log;
    } else {
      var n := |more| - 1;
      assert (log + more)[..|log| + n] == log + more[..n];
      ProjectAppends(log, more[..n], p);
    }
  }

  lemma {:induction false} ProjectStamped(plan: string, events: seq<Event>, p: string)
    ensures Project(StampAll(plan, events), p) == if p == plan then events else []
  {
    if events != [] {
      var n := |events| - 1;
      assert StampAll(plan, events)[..n] == StampAll(plan, events[..n]);
      ProjectStamped(plan, events[..n], p);
    }
  }

  /** Where the i-th event of the log is in its plan's projection: the projection keeps content and order. */
  lemma {:induction false} ProjectAt(log: seq<Stamp>, i: nat)
    requires i < |log|
    ensures var p := log[i].plan;
            |Project(log[..i], p)| < |Project(log, p)| && Project(log, p)[|Project(log[..i], p)|] == log[i].event
  {
    var p := log[i].plan;
    assert log == log[..i] + log[i..] && log[i..] == [log[i]] + log[i + 1..];
    ProjectAppends(log[..i], log[i..], p);
    ProjectAppends([log[i]], log[i + 1..], p);
    assert [log[i]][..0] == [];
    assert Project([log[i]], p) == [log[i].event];
  }

  lemma ProjectOrdered(log: seq<Stamp>, i: nat, k: nat)
    requires i < k < |log| && log[i].plan == log[k].plan
    ensures |Project(log[..i], log[i].plan)| < |Project(log[..k], log[k].plan)|
  {
    ProjectAt(log[..k], i);
    assert log[..k][..i] == log[..i];
  }

  /** The newest checkpoint of a plan is what its own journal leaves durable. */
  lemma {:induction false} ProjectedDurable(log: seq<Stamp>, p: string, ready: Checkpoint)
    ensures Durable([Saved(ready)] + Project(log, p)) == if LastOf(log, p).Some? then LastOf(log, p) else Some(ready)
  {
    hide Durable;
    if log != [] {
      var n := |log| - 1;
      ProjectedDurable(log[..n], p, ready);
      AppendKeeps(log[..n], log[n..], n, p);
      assert log == log[..n] + log[n..];
      var before := Project(log[..n], p);
      var j := [Saved(ready)] + before;
      assert LastOf(log[..n], p) == LastOfAt(log, n, p);
      if log[n].plan == p {
        DurableSnoc(j, log[n].event);
        assert [Saved(ready)] + (before + [log[n].event]) == j + [log[n].event];
      } else {
        assert before + [] == before;
      }
    } else {
      assert [Saved(ready)] + [] == [Saved(ready)];
      DurableSnoc([], Saved(ready));
      assert [] + [Saved(ready)] == [Saved(ready)];
    }
  }

  lemma DurableSnoc(j: seq<Event>, e: Event)
    ensures Durable(j + [e]) == if e.Saved? then Some(e.cp) else Durable(j)
  {
    ViewOfPrefix(j, j + [e], |j|);
    NextCalls(ViewOf(j), e);
    hide Next;
  }

  /** An attempt: its plan and the ready checkpoint it was prepared with. */
  datatype Attempt = Attempt(plan: Plan, ready: Checkpoint)

  ghost predicate AllPrepared(attempts: map<string, Attempt>) {
    forall p :: p in attempts ==>
      attempts[p].plan.id == p && ValidPlan(attempts[p].plan) && IsReady(attempts[p].plan, attempts[p].ready)
  }

  /** What the store and the provider saw of one attempt. */
  function JournalOf(log: seq<Stamp>, a: Attempt): seq<Event> { [Saved(a.ready)] + Project(log, a.plan.id) }

  /**
   A copy of the attempt that can be had: one that was uploaded, or the ready artifact of an attempt without uploads.
   */
  predicate Available(log: seq<Stamp>, a: Attempt, own: Checkpoint) {
    InLog(log, a.plan.id, own) || (own == a.ready && LastOf(log, a.plan.id).None?)
  }

  /** Every attempt's own events are a lawful journal, and its saves are in order. */
  ghost predicate Consistent(log: seq<Stamp>, attempts: map<string, Attempt>) {
    && Fenced(log)
    && forall p :: p in attempts ==> Lawful(attempts[p].plan, JournalOf(log, attempts[p])) && Linear(log, p)
  }

  /** A copy that passes the guard is what the attempt's journal leaves durable. */
  lemma PassingIsDurable(log: seq<Stamp>, a: Attempt, own: Checkpoint, deploying: bool, development: bool)
    requires Stamped(log) && Linear(log, a.plan.id) && Available(log, a, own)
    requires Guard(Latest(log), a.plan.id, own, deploying, development, false) == Pass
    ensures Durable(JournalOf(log, a)) == Some(own)
    ensures (Latest(log) == Some(own) && own.plan == a.plan.id) || LastOf(log, a.plan.id).None?
  {
    hide Durable, Guard;
    ProjectedDurable(log, a.plan.id, a.ready);
    if InLog(log, a.plan.id, own) {
      LinearCopiesAreNewest(log, a.plan.id, own, deploying, development);
      LatestIsLastOf(log, |log|);
    }
  }

  /** Events of other attempts do not show in an attempt's journal. */
  lemma OthersUnmoved(log: seq<Stamp>, plan: string, events: seq<Event>, p: string)
    requires p != plan && Linear(log, p)
    ensures Project(log + StampAll(plan, events), p) == Project(log, p) && Linear(log + StampAll(plan, events), p)
  {
    hide Project, Linear;
    ProjectAppends(log, StampAll(plan, events), p);
    ProjectStamped(plan, events, p);
    assert Project(log, p) + [] == Project(log, p);
    OthersLinear(log, plan, events, p);
  }

  lemma OthersLinear(log: seq<Stamp>, plan: string, events: seq<Event>, p: string)
    requires p != plan && Linear(log, p)
    ensures Linear(log + StampAll(plan, events), p)
  {
    var l := log + StampAll(plan, events);
    assert forall i :: 0 <= i < |l| && l[i].plan == p ==> i < |log| && l[i] == log[i];
  }

  /** A continuation of an attempt's journal, cut anywhere, is its next journal. */
  lemma ContinuationIsLawful(log: seq<Stamp>, a: Attempt, j: seq<Event>, n: nat)
    requires Lawful(a.plan, j) && JournalOf(log, a) <= j && |JournalOf(log, a)| <= n <= |j|
    ensures var more := log + StampAll(a.plan.id, j[|JournalOf(log, a)|..n]);
            JournalOf(more, a) == j[..n] && Lawful(a.plan, JournalOf(more, a))
  {
    hide Lawful, Project;
    var past, id := JournalOf(log, a), a.plan.id;
    var tail := j[|past|..n];
    ProjectAppends(log, StampAll(id, tail), id);
    ProjectStamped(id, tail, id);
    assert [Saved(a.ready)] + (Project(log, id) + tail) == past + tail;
    assert past + tail == j[..n];
    PrefixLawful(a.plan, j, n);
  }

  lemma StaysConsistent(log: seq<Stamp>, attempts: map<string, Attempt>, p: string, own: Checkpoint, j: seq<Event>,
                        n: nat)
    requires Consistent(log, attempts) && AllPrepared(attempts) && p in attempts
    requires var a := attempts[p];
             && Durable(JournalOf(log, a)) == Some(own)
             && ((Latest(log) == Some(own) && own.plan == p) || LastOf(log, p).None?)
             && Lawful(a.plan, j) && JournalOf(log, a) <= j && |JournalOf(log, a)| <= n <= |j|
             && Fenced(log + StampAll(p, j[|JournalOf(log, a)|..n]))
    ensures Consistent(log + StampAll(p, j[|JournalOf(log, attempts[p])|..n]), attempts)
  {
    hide Lawful, Durable, Linear, Fenced, JournalOf;
    var a := attempts[p];
    var past := JournalOf(log, a);
    var more := log + StampAll(p, j[|past|..n]);
    forall q | q in attempts ensures Lawful(attempts[q].plan, JournalOf(more, attempts[q])) && Linear(more, q) {
      if q == p {
        ContinuationIsLawful(log, a, j, n);
        assert Stamped(log) by { FencedIsStamped(log); }
        ResumingKeepsLinear(log, a.plan, past, j, n, own);
      } else {
        OthersUnmoved(log, p, j[|past|..n], q);
        JournalUnmoved(log, more, attempts[q]);
      }
    }
  }

  lemma FencedIsStamped(log: seq<Stamp>)
    requires Fenced(log)
    ensures Stamped(log)
  {
  }

  lemma JournalUnmoved(log: seq<Stamp>, more: seq<Stamp>, a: Attempt)
    requires Project(more, a.plan.id) == Project(log, a.plan.id)
    ensures JournalOf(more, a) == JournalOf(log, a)
  {
  }

  /**
   So what holds of every lawful journal holds of each attempt in the log: here, one published version per service.
   */
  lemma PublishedOnceInLog(log: seq<Stamp>, attempts: map<string, Attempt>, p: string, c: Component, i: nat, k: nat)
    requires Consistent(log, attempts) && AllPrepared(attempts) && p in attempts && i < |log| && k < |log|
    requires log[i] == log[k] == Stamp(p, ConfigAdd(c))
    ensures i == k
  {
    hide Lawful, Fenced, Linear;
    ProjectAt(log, i);
    ProjectAt(log, k);
    var j, at, to := JournalOf(log, attempts[p]), |Project(log[..i], p)|, |Project(log[..k], p)|;
    PublishedAtMostOnce(attempts[p].plan, j, c, at + 1, to + 1);
    if i < k {
      ProjectOrdered(log, i, k);
    } else if k < i {
      ProjectOrdered(log, k, i);
    }
  }

  function Life(plan: string, status: Status, prior: string, sequence: nat): Stamp {
    Stamp(plan, Saved(Checkpoint(plan, status,
      map[Bff := Entry(Unstarted, Prior(false, prior), EMPTY_CANDIDATE, EMPTY_QUOTA)], sequence)))
  }

  /** Plan p is rolled back, plan q runs and is rolled back, and p starts again from its old ready artifact. */
  function TwoLives(): seq<Stamp> {
    [Life("p", Snapshotted, "first", 4), Life("p", RollingBack, "first", 5), Life("p", RolledBack, "first", 6),
     Life("q", Snapshotted, "first", 4), Life("q", RollingBack, "first", 5), Life("q", RolledBack, "first", 6),
     Life("p", Snapshotted, "second", 4)]
  }

  /**
   The guard compares the plan and the sequence, not the content. When a plan was started from its ready
   artifact twice, a copy kept from the first life passes although the newest checkpoint is a different one.
   `StaleCopiesAreTwins` and `NoStaleCopyEver` say exactly when this happens.
   */
  lemma StaleCopyPasses()
    ensures Fenced(TwoLives()) && InLog(TwoLives(), "p", TwoLives()[0].event.cp)
    ensures Guard(Latest(TwoLives()), "p", TwoLives()[0].event.cp, true, true, false) == Pass
    ensures Latest(TwoLives()) != Some(TwoLives()[0].event.cp)
    ensures !Linear(TwoLives(), "p")
  {
    var l := TwoLives();
    TwoLivesFenced(|l|);
    assert l[..|l|] == l;
    assert TwoLives()[0].event.cp.components[Bff].prior != TwoLives()[6].event.cp.components[Bff].prior;
    assert l[0].event.cp.sequence == l[6].event.cp.sequence;
  }

  lemma {:induction false} TwoLivesFenced(n: nat)
    requires n <= |TwoLives()|
    ensures Fenced(TwoLives()[..n])
    ensures n < |TwoLives()| ==> OthersResolved(TwoLives()[..n], n, TwoLives()[n].plan)
  {
    hide Fenced;
    var l := TwoLives();
    if n == 0 {
      EmptyIsFenced();
      assert l[..0] == [];
    } else {
      TwoLivesFenced(n - 1);
      assert l[..n] == l[..n - 1] + [l[n - 1]];
      AppendOne(l[..n - 1], l[n - 1]);
      if n < |l| {
        forall q | q != l[n].plan ensures !Unresolved(LastOfAt(l[..n], n, q)) {
          assert l[..n] + l[n..] == l;
          AppendKeeps(l[..n], l[n..], n, q);
          LastAmongLives(n, q);
        }
      }
    }
  }

  lemma EmptyIsFenced()
    ensures Fenced([])
  {
  }

  /** The last checkpoint of attempt q after n events. */
  function LastInLives(n: nat, q: string): Option<Checkpoint>
    requires n <= |TwoLives()|
  {
    var l := TwoLives();
    if q == "p" then if n == 0 then None else Some(l[if n <= 3 then n - 1 else if n <= 6 then 2 else 6].event.cp)
    else if q == "q" && 3 < n then Some(l[if n <= 6 then n - 1 else 5].event.cp)
    else None
  }

  lemma {:induction false} LastAmongLives(n: nat, q: string)
    requires n <= |TwoLives()|
    ensures LastOfAt(TwoLives(), n, q) == LastInLives(n, q)
  {
    if n > 0 {
      LastAmongLives(n - 1, q);
    }
  }

  /**
   An entrypoint: the plan, a retained copy of a checkpoint its lineage `past` once left durable, and the operation.
   */
  datatype Call = Call(plan: Plan, project: Option<string>, own: Checkpoint, past: seq<Event>, op: Operation, development: bool)

  /** An entrypoint of a prepared attempt, from a copy of one of its checkpoints. */
  datatype Entrypoint = Entrypoint(plan: string, project: Option<string>, own: Checkpoint, op: Operation, development: bool)

  predicate ValidCall(call: Call) {
    ValidPlan(call.plan) && Lawful(call.plan, call.past) && Durable(call.past) == Some(call.own)
  }

  /** What the calls logged one after the other. */
  ghost function Logged(calls: seq<Call>, lives: seq<seq<Event>>): seq<Stamp>
    requires |calls| == |lives|
  {
    if calls == [] then []
    else
      var n := |calls| - 1;
      Logged(calls[..n], lives[..n]) + StampAll(calls[n].plan.id, lives[n])
  }

  class Environment {
    /** Everything the checkpoint store and the provider saw, of all attempts. */
    var log: seq<Stamp>

    constructor ()
      ensures log == []
    {
      log := [];
    }

    /** One entrypoint, started from a copy however old. The process may die after any event. */
    method Invoke(call: Call) returns (ghost life: seq<Event>)
      requires ValidCall(call) && Fenced(log)
      modifies this
      ensures Fenced(log) && old(log) <= log
      ensures Guard(Latest(old(log)), call.plan.id, call.own, call.op.DeployOp?, call.development, false) != Pass ==>
                log == old(log)
      ensures Lawful(call.plan, call.past + life) && log == old(log) + StampAll(call.plan.id, life)
      ensures Concludes(call.past, call.past + life)
    {
      hide Lawful, ViewAt, Fenced, Concludes;
      var plan, past := call.plan, call.past;
      if Guard(Latest(log), plan.id, call.own, call.op.DeployOp?, call.development, false) != Pass {
        assert log == log + StampAll(plan.id, []) && past + [] == past;
        NothingConcludes(past);
        return [];
      }
      PastIsNonEmpty(past);
      var engine := new Engine(plan, call.project, call.own, past);
      ghost var begun := engine.journal;
      var ended, changed, base, calls := engine.Operate(call.op);
      ConcludesAt(begun, engine.journal);
      var n :| |past| <= n <= |engine.journal|;
      LaterSavesAreRuntime(plan, past, engine.journal, n);
      GuardFences(log, plan.id, call.own, call.op.DeployOp?, call.development, false);
      AppendAll(log, plan.id, engine.journal[|past|..n]);
      PrefixLawful(plan, engine.journal, n);
      CutConcludes(past, engine.journal, n);
      life := engine.journal[|past|..n];
      assert engine.journal[..n] == past + life;
      log := log + StampAll(plan.id, engine.journal[|past|..n]);
    }

    /**
     Any sequence of entrypoints of any attempts, from copies of any age, with a crash in each, stays fenced. What each
     one logs goes on lawfully from the events its copy was saved after, even where a plan is started twice.
     */
    method Run(calls: seq<Call>) returns (ghost lives: seq<seq<Event>>)
      requires log == [] && forall c :: c in calls ==> ValidCall(c)
      modifies this
      ensures Fenced(log)
      ensures |lives| == |calls| && log == Logged(calls, lives)
      ensures forall i :: 0 <= i < |calls| ==> Lawful(calls[i].plan, calls[i].past + lives[i])
      ensures forall i :: 0 <= i < |calls| ==> Concludes(calls[i].past, calls[i].past + lives[i])
    {
      hide Lawful, ViewAt, ValidCall, Fenced, Concludes;
      NothingIsFenced();
      lives := [];
      for i := 0 to |calls|
        invariant Fenced(log)
        invariant |lives| == i && log == Logged(calls[..i], lives)
        invariant forall k :: 0 <= k < i ==> Lawful(calls[k].plan, calls[k].past + lives[k])
        invariant forall k :: 0 <= k < i ==> Concludes(calls[k].past, calls[k].past + lives[k])
      {
        ghost var life := Invoke(calls[i]);
        assert calls[..i + 1][..i] == calls[..i] && (lives + [life])[..i] == lives;
        lives := lives + [life];
      }
      assert calls[..|calls|] == calls;
    }

    /** An entrypoint of a prepared attempt from any copy that can be had. */
    method Resume(attempts: map<string, Attempt>, entry: Entrypoint)
      requires Consistent(log, attempts) && AllPrepared(attempts) && entry.plan in attempts
      requires Available(log, attempts[entry.plan], entry.own)
      modifies this
      ensures Consistent(log, attempts) && old(log) <= log
    {
      hide Lawful, Durable, Fenced, Linear, JournalOf, Guard;
      var p, own := entry.plan, entry.own;
      ghost var before := log;
      var a := attempts[p];
      var past := JournalOf(log, a);
      FencedIsStamped(log);
      if Guard(Latest(log), p, own, entry.op.DeployOp?, entry.development, false) == Pass {
        PassingIsDurable(log, a, own, entry.op.DeployOp?, entry.development);
        ghost var life := Invoke(Call(a.plan, entry.project, own, past, entry.op, entry.development));
        ghost var j := past + life;
        assert j[|past|..|j|] == life;
        StaysConsistent(before, attempts, p, own, j, |j|);
      }
    }

    /**
     All attempts on one environment, interleaved in any way, from copies of any age, with a crash in each entrypoint:
     nobody runs beside an unresolved attempt, and the events of each attempt are one lawful journal.
     */
    method RunAttempts(attempts: map<string, Attempt>, entries: seq<Entrypoint>)
      requires log == [] && AllPrepared(attempts)
      modifies this
      ensures Consistent(log, attempts)
    {
      hide Consistent, AllPrepared, Available;
      NothingRan(attempts);
      for i := 0 to |entries|
        invariant Consistent(log, attempts)
      {
        var entry := entries[i];
        if entry.plan in attempts && Available(log, attempts[entry.plan], entry.own) {
          Resume(attempts, entry);
        }
      }
    }
  }

  lemma NothingConcludes(j: seq<Event>)
    ensures Concludes(j, j)
  {
  }

  /** Of a process that took over after j and may have died anywhere. */
  lemma CutConcludes(j: seq<Event>, l: seq<Event>, n: nat)
    requires |j| <= n <= |l| && Concludes(j + [Started], l)
    ensures Concludes(j, l[..n])
  {
    forall k | |j| <= k < n - 1 ensures Passes(l[..n], k) {
      if k == |j| {
        assert l[k] == (j + [Started])[k];
      } else {
        assert Passes(l, k);
        ViewOfPrefix(l[..n], l, k);
      }
    }
  }

  lemma NothingIsFenced()
    ensures Fenced([])
  {
  }

  lemma NothingRan(attempts: map<string, Attempt>)
    requires AllPrepared(attempts)
    ensures Consistent([], attempts)
  {
    forall p | p in attempts ensures Lawful(attempts[p].plan, JournalOf([], attempts[p])) && Linear([], p) {
      StartIsLawful(attempts[p].plan, attempts[p].ready);
      assert [Saved(attempts[p].ready)] + [] == [Saved(attempts[p].ready)];
    }
  }
}
