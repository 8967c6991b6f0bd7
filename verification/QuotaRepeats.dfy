/**
 The rejection history does not count rejections: `_save_quota_retry` keeps one of several equal
 records, while each rejection arms a retry. Below, one front-end is submitted any number of times
 within one epoch while its history holds a single record.
 */
module QuotaRepeats {
  import opened Wrappers
  import opened Sequences
  import opened Checkpoints
  import opened Journals
  import opened Engines

  const PLAN := Plan("p", "commit", "sha", [Frontend], [])

  const REJECTION := QuotaRecord(ProviderCli, "p", "sha", Cause(true, "api-deployments-free-per-day"))

  const EMPTY_LISTING := Some(Reconciliation("project", true, 1, 0))

  /** The history after these rejections, recorded one after the other. */
  function HistoryAfter(rejections: seq<QuotaRecord>): seq<QuotaRecord> {
    if rejections == [] then []
    else WithRecord(HistoryAfter(rejections[..|rejections| - 1]), rejections[|rejections| - 1])
  }

  /** It holds each different rejection once, so it is as long as there are different ones. */
  lemma {:induction false} HistoryHoldsOneOfEach(rejections: seq<QuotaRecord>)
    ensures Distinct(HistoryAfter(rejections)) && Elements(HistoryAfter(rejections)) == Elements(rejections)
    ensures |HistoryAfter(rejections)| == |Elements(rejections)|
    ensures |HistoryAfter(rejections)| == |rejections| <==> Distinct(rejections)
  {
    if rejections != [] {
      var n := |rejections| - 1;
      var h, r := HistoryAfter(rejections[..n]), rejections[n];
      HistoryHoldsOneOfEach(rejections[..n]);
      assert rejections == rejections[..n] + [r];
      assert Elements(rejections) == Elements(rejections[..n]) + {r};
      OneMoreRecord(h, r);
    }
    DistinctIsSetSize(HistoryAfter(rejections));
    DistinctIsSetSize(rejections);
  }

  lemma OneMoreRecord(h: seq<QuotaRecord>, r: QuotaRecord)
    requires Distinct(h)
    ensures Distinct(WithRecord(h, r)) && Elements(WithRecord(h, r)) == Elements(h) + {r}
  {
  }

  function Front(status: EntryStatus, quota: Quota): map<Component, Entry> {
    map[Frontend := Entry(status, Prior(false, "before"), EMPTY_CANDIDATE, quota)]
  }

  const NO_REJECTION := Quota([], false, None)

  const ARMED := Recorded(NO_REJECTION, Some(REJECTION), true, EMPTY_LISTING)

  const SPENT := Recorded(ARMED, Some(REJECTION), false, EMPTY_LISTING)

  function Cp(status: Status, entry: EntryStatus, quota: Quota, n: nat): Checkpoint {
    Checkpoint("p", status, Front(entry, quota), n)
  }

  /** What the proof below follows of a view. */
  predicate At(v: View, cp: Checkpoint, stage: RejectionStage, last: Event) {
    && v.durable == Some(cp) && v.stage == stage && v.last == Some(last) && !v.owed
    && (stage == Confirmed ==> v.rejected == Some(REJECTION))
  }

  /** The quotas that occur. */
  predicate Occurs(q: Quota) { q == NO_REJECTION || q == ARMED || q == SPENT }

  lemma Quotas()
    ensures NO_REJECTION.rejections == [] && ARMED.rejections == SPENT.rejections == [REJECTION]
    ensures !NO_REJECTION.retryPending && ARMED.retryPending && !SPENT.retryPending
    ensures forall q :: Occurs(q) ==> RecordsValid(PLAN, q)
  {
  }

  lemma FormsAreValid(status: Status, entry: EntryStatus, q: Quota, n: nat)
    requires status in {Snapshotted, Deploying, Unknown} && Occurs(q)
    ensures WellFormed(PLAN, Cp(status, entry, q, n))
  {
    Quotas();
    hide RecordsValid, Occurs;
    assert Elements(PLAN.selected) == {Frontend};
  }

  /** A save from one of these forms to another. */
  lemma FormStep(v: View, s: Status, e: EntryStatus, p: Quota, t: Status, f: EntryStatus, q: Quota, n: nat)
    requires !v.owed && v.durable == Some(Cp(s, e, p, n)) && t in {Deploying, Unknown} && f in {Pending, EntryUnknown}
    requires e in {Unstarted, Pending, EntryUnknown} && Occurs(p) && Occurs(q)
    requires q == p || (p == NO_REJECTION && q == ARMED) || (p == SPENT && q == ARMED) || (p == ARMED && q == SPENT)
    requires q == ARMED && p != ARMED ==> v.stage == Confirmed && v.rejected == Some(REJECTION)
    ensures var a, b := Cp(s, e, p, n), Cp(t, f, q, n + 1);
            && Allowed(PLAN, v, Saved(b))
            && Next(v, Saved(b)).durable == Some(b) && Next(v, Saved(b)).last == Some(Saved(b))
            && (v.stage == NoRejection || (q == ARMED && p != ARMED) ==> Next(v, Saved(b)).stage == NoRejection)
            && (Grants(v, b) || StartsEpoch(v, b) ==> Next(v, Saved(b)).funded)
            && (StartsEpoch(v, b) <==> e == Unstarted)
            && (v.last == Some(Listed([])) && p == ARMED && q == SPENT ==> Grants(v, b))
            && (q == p || q == ARMED ==> !Next(v, Saved(b)).owed)
  {
    hide Next, Allowed, WellFormed, Recorded, RecordsValid, NO_REJECTION, ARMED, SPENT, Occurs, Cp, RetryPending,
         OpenIn, NewLegacy,
         HistoryLaw, History, CreationOf, EntryAdvances;
    FormsAreValid(t, f, q, n + 1);
    Quotas();
    FormMeans(s, e, p, n);
    FormMeans(t, f, q, n + 1);
    FormLaw(v, s, e, p, t, f, q, n);
    FormAdvances(e, p, f, q);
    FormGrants(v, s, e, p, t, f, q, n);
    SaveStep(v, Cp(s, e, p, n), Cp(t, f, q, n + 1));
  }

  lemma FormGrants(v: View, s: Status, e: EntryStatus, p: Quota, t: Status, f: EntryStatus, q: Quota, n: nat)
    requires v.durable == Some(Cp(s, e, p, n)) && Occurs(p) && Occurs(q)
    ensures q == p || q == ARMED ==> !Grants(v, Cp(t, f, q, n + 1))
  {
    Quotas();
    hide Recorded, RecordsValid;
    assert REJECTION.source.ProviderCli?;
  }

  lemma FormAdvances(e: EntryStatus, p: Quota, f: EntryStatus, q: Quota)
    requires e in {Unstarted, Pending, EntryUnknown} && f in {Pending, EntryUnknown}
    requires q == p || (p == NO_REJECTION && q == ARMED) || (p == SPENT && q == ARMED) || (p == ARMED && q == SPENT)
    ensures EntryAdvances(Entry(e, Prior(false, "before"), EMPTY_CANDIDATE, p), Entry(f, Prior(false, "before"), EMPTY_CANDIDATE, q))
  {
    Quotas();
  }

  lemma FormLaw(v: View, s: Status, e: EntryStatus, p: Quota, t: Status, f: EntryStatus, q: Quota, n: nat)
    requires Occurs(p) && Occurs(q)
    requires q == p || (p == NO_REJECTION && q == ARMED) || (p == SPENT && q == ARMED) || (p == ARMED && q == SPENT)
    requires q == ARMED && p != ARMED ==> v.stage == Confirmed && v.rejected == Some(REJECTION)
    ensures HistoryLaw(v, Cp(s, e, p, n), Cp(t, f, q, n + 1))
    ensures CreationOf(Cp(s, e, p, n)) == CreationOf(Cp(t, f, q, n + 1)) == None
  {
    Quotas();
    assert REJECTION.source.ProviderCli?;
    assert History(Cp(s, e, p, n)) == p.rejections && History(Cp(t, f, q, n + 1)) == q.rejections;
    hide Recorded, NO_REJECTION, ARMED, SPENT, REJECTION, RecordsValid, TakesLegacy;
  }

  lemma FormMeans(s: Status, e: EntryStatus, q: Quota, n: nat)
    ensures var cp := Cp(s, e, q, n);
            && cp.status == s && cp.sequence == n && cp.components.Keys == {Frontend}
            && cp.components[Frontend] == Entry(e, Prior(false, "before"), EMPTY_CANDIDATE, q)
            && RetryPending(cp) == q.retryPending
            && (OpenIn(Some(cp), Frontend) <==> e in {Pending, EntryUnknown})
  {
  }

  /** A save that keeps the prior and the candidate and lets the history grow. */
  lemma SaveStep(v: View, a: Checkpoint, b: Checkpoint)
    requires !v.owed && v.durable == Some(a) && WellFormed(PLAN, b) && !BeforeRuntime(b.status)
    requires !ClaimsRuntime(b.status)
    requires a.components.Keys == b.components.Keys == {Frontend} && a.sequence < b.sequence
    requires EntryAdvances(a.components[Frontend], b.components[Frontend])
    requires b.components[Frontend].status in {Pending, EntryUnknown}
    requires HistoryLaw(v, a, b) && CreationOf(a) == CreationOf(b) == None
    requires a.components[Frontend].candidate == b.components[Frontend].candidate
    ensures Allowed(PLAN, v, Saved(b))
    ensures Next(v, Saved(b)).durable == Some(b) && Next(v, Saved(b)).last == Some(Saved(b))
    ensures v.stage == NoRejection || (RetryPending(b) && !RetryPending(a)) ==> Next(v, Saved(b)).stage == NoRejection
    ensures Grants(v, b) || StartsEpoch(v, b) ==> Next(v, Saved(b)).funded
    ensures Next(v, Saved(b)).owed == Grants(v, b)
  {
  }

  /** One submission that is rejected, from a save that paid for it to the handler's last save. */
  function Rejection(n: nat): seq<Event> {
    [DeployCall(Frontend), QuotaRejected(REJECTION), Listed([]), Saved(Cp(Deploying, Pending, ARMED, n)),
     Saved(Cp(Unknown, EntryUnknown, ARMED, n + 1))]
  }

  /** A process takes over and finds the receipts usable. */
  const BEGIN: seq<Event> := [Started, ArtifactsRead(true)]

  /** All that a process taking over changes about what the laws know. */
  function Begun(v: View): View { v.(owed := false, last := Some(ArtifactsRead(true))) }

  lemma BeginRuns(plan: Plan, j: seq<Event>)
    requires Lawful(plan, j) && Durable(j).Some?
    ensures Lawful(plan, j + BEGIN) && ViewOf(j + BEGIN) == Begun(ViewOf(j))
  {
    hide Lawful, ViewAt;
    BeginSteps(plan, ViewOf(j));
    Append(plan, j, Started);
    Append(plan, j + [Started], ArtifactsRead(true));
    assert j + BEGIN == j + [Started] + [ArtifactsRead(true)];
  }

  lemma BeginSteps(plan: Plan, v: View)
    requires v.durable.Some?
    ensures Allowed(plan, v, Started) && Allowed(plan, Next(v, Started), ArtifactsRead(true))
    ensures Next(v, Started) == v.(owed := false, last := Some(Started))
    ensures Next(Next(v, Started), ArtifactsRead(true)) == Begun(v)
  {
  }

  /** The resumption before it: pending again, an empty listing, the authorisation spent. */
  function Resumption(n: nat): seq<Event> { BEGIN + Respending(n) }

  function Respending(n: nat): seq<Event> {
    [Saved(Cp(Deploying, Pending, ARMED, n)), Listed([]), Saved(Cp(Deploying, Pending, SPENT, n + 1))]
  }

  const READY := Checkpoint("p", Ready, map[], 0)

  function Opening(): seq<Event> {
    [Saved(READY), Started, ArtifactsRead(true), ArtifactsRead(true), PriorSeen(Frontend, Prior(false, "before")),
     Saved(Cp(Snapshotted, Unstarted, NO_REJECTION, 1)),
     Saved(Cp(Deploying, Pending, NO_REJECTION, 2))]
  }

  /** The first submission and k resubmissions: the events after the one that opens the epoch. */
  function EpochOf(k: nat): seq<Event> {
    if k == 0 then Rejection(3)
    else EpochOf(k - 1) + Resumption(4 * k + 1) + Rejection(4 * k + 3)
  }

  function Repeated(k: nat): seq<Event> { Opening() + EpochOf(k) }

  predicate Paid(v: View, q: Quota, n: nat) {
    v.durable == Some(Cp(Deploying, Pending, q, n)) && v.funded
  }

  predicate Left(v: View, n: nat) {
    v.durable == Some(Cp(Unknown, EntryUnknown, ARMED, n)) && v.stage == NoRejection && !v.owed
  }

  lemma CallStep(v: View, q: Quota, n: nat)
    requires Paid(v, q, n)
    ensures Allowed(PLAN, v, DeployCall(Frontend))
    ensures Allowed(PLAN, Next(v, DeployCall(Frontend)), QuotaRejected(REJECTION))
    ensures Allowed(PLAN, Next(Next(v, DeployCall(Frontend)), QuotaRejected(REJECTION)), Listed([]))
    ensures At(Next(Next(Next(v, DeployCall(Frontend)), QuotaRejected(REJECTION)), Listed([])),
               Cp(Deploying, Pending, q, n), Confirmed, Listed([]))
  {
    hide Next, Allowed, Cp, OpenIn;
    var call, report, listing := DeployCall(Frontend), QuotaRejected(REJECTION), Listed([]);
    var w := Next(v, call);
    var x := Next(w, report);
    NextCalls(v, call);
    NextAccounts(v, call);
    OwedStep(v, call);
    NextCalls(w, report);
    NextAccounts(w, report);
    OwedStep(w, report);
    NextCalls(x, listing);
    NextAccounts(x, listing);
    OwedStep(x, listing);
    PaidAllows(v, q, n);
    OpenAllows(w, q, n);
    OpenAllows(x, q, n);
  }

  lemma PaidAllows(v: View, q: Quota, n: nat)
    requires Paid(v, q, n)
    ensures Allowed(PLAN, v, DeployCall(Frontend))
  {
    FormMeans(Deploying, Pending, q, n);
    hide Cp, OpenIn, RetryPending;
  }

  lemma OpenAllows(v: View, q: Quota, n: nat)
    requires v.durable == Some(Cp(Deploying, Pending, q, n))
    ensures Allowed(PLAN, v, QuotaRejected(REJECTION)) && Allowed(PLAN, v, Listed([]))
  {
    FormMeans(Deploying, Pending, q, n);
    hide Cp, OpenIn, RetryPending;
  }

  lemma ArmStep(v: View, q: Quota, n: nat)
    requires q in {NO_REJECTION, SPENT} && At(v, Cp(Deploying, Pending, q, n), Confirmed, Listed([]))
    ensures Allowed(PLAN, v, Saved(Cp(Deploying, Pending, ARMED, n + 1)))
    ensures var w := Next(v, Saved(Cp(Deploying, Pending, ARMED, n + 1)));
            At(w, Cp(Deploying, Pending, ARMED, n + 1), NoRejection, Saved(Cp(Deploying, Pending, ARMED, n + 1)))
  {
    Quotas();
    hide Next, Allowed, WellFormed, Cp, NO_REJECTION, ARMED, SPENT;
    FormStep(v, Deploying, Pending, q, Deploying, Pending, ARMED, n);
  }

  lemma HandlerStep(v: View, n: nat)
    requires v.durable == Some(Cp(Deploying, Pending, ARMED, n)) && v.stage == NoRejection && !v.owed
    ensures Allowed(PLAN, v, Saved(Cp(Unknown, EntryUnknown, ARMED, n + 1)))
    ensures Left(Next(v, Saved(Cp(Unknown, EntryUnknown, ARMED, n + 1))), n + 1)
  {
    hide Next, Allowed, WellFormed, Cp, NO_REJECTION, ARMED, SPENT;
    FormStep(v, Deploying, Pending, ARMED, Unknown, EntryUnknown, ARMED, n);
  }

  lemma PendingStep(v: View, n: nat)
    requires Left(v, n)
    ensures Allowed(PLAN, v, Saved(Cp(Deploying, Pending, ARMED, n + 1)))
    ensures var w := Next(v, Saved(Cp(Deploying, Pending, ARMED, n + 1)));
            w.durable == Some(Cp(Deploying, Pending, ARMED, n + 1)) && w.stage == NoRejection && !w.owed
  {
    hide Next, Allowed, WellFormed, Cp, NO_REJECTION, ARMED, SPENT;
    FormStep(v, Unknown, EntryUnknown, ARMED, Deploying, Pending, ARMED, n);
  }

  lemma ListingStep(v: View, n: nat)
    requires v.durable == Some(Cp(Deploying, Pending, ARMED, n)) && v.stage == NoRejection && !v.owed
    ensures Allowed(PLAN, v, Listed([]))
    ensures At(Next(v, Listed([])), Cp(Deploying, Pending, ARMED, n), NoRejection, Listed([]))
  {
    OwedStep(v, Listed([]));
  }

  lemma SpendStep(v: View, n: nat)
    requires At(v, Cp(Deploying, Pending, ARMED, n), NoRejection, Listed([]))
    ensures Allowed(PLAN, v, Saved(Cp(Deploying, Pending, SPENT, n + 1)))
    ensures Paid(Next(v, Saved(Cp(Deploying, Pending, SPENT, n + 1))), SPENT, n + 1)
  {
    hide Next, Allowed, WellFormed, Cp, NO_REJECTION, ARMED, SPENT, Grants;
    FormStep(v, Deploying, Pending, ARMED, Deploying, Pending, SPENT, n);
  }

  lemma RejectionRuns(j: seq<Event>, q: Quota, n: nat)
    requires n > 0 && Lawful(PLAN, j) && Paid(ViewOf(j), q, n - 1) && q in {NO_REJECTION, SPENT}
    ensures Lawful(PLAN, j + Rejection(n)) && Left(ViewOf(j + Rejection(n)), n + 1)
  {
    hide ViewAt, Lawful, Next, Allowed, Cp, Paid, Left;
    var e := Rejection(n);
    var j1, j2, j3 := j + [e[0]], j + [e[0]] + [e[1]], j + [e[0]] + [e[1]] + [e[2]];
    var j4 := j3 + [e[3]];
    CallStep(ViewOf(j), q, n - 1);
    Append(PLAN, j, e[0]);
    Append(PLAN, j1, e[1]);
    Append(PLAN, j2, e[2]);
    ArmStep(ViewOf(j3), q, n - 1);
    Append(PLAN, j3, e[3]);
    HandlerStep(ViewOf(j4), n);
    Append(PLAN, j4, e[4]);
    assert j + e == j4 + [e[4]];
  }

  lemma ResumptionRuns(j: seq<Event>, n: nat)
    requires n > 0 && Lawful(PLAN, j) && Left(ViewOf(j), n - 1)
    ensures Lawful(PLAN, j + Resumption(n)) && Paid(ViewOf(j + Resumption(n)), SPENT, n + 1)
  {
    hide ViewAt, Lawful, Next, Allowed, Cp, Paid;
    BeginRuns(PLAN, j);
    var e, j0 := Respending(n), j + BEGIN;
    var j1, j2 := j0 + [e[0]], j0 + [e[0]] + [e[1]];
    PendingStep(ViewOf(j0), n - 1);
    Append(PLAN, j0, e[0]);
    ListingStep(ViewOf(j1), n);
    Append(PLAN, j1, e[1]);
    SpendStep(ViewOf(j2), n);
    Append(PLAN, j2, e[2]);
    assert j + Resumption(n) == j2 + [e[2]];
  }

  lemma OpenStep(v: View)
    requires v.durable == Some(Cp(Snapshotted, Unstarted, NO_REJECTION, 1)) && !v.owed
    ensures Allowed(PLAN, v, Saved(Cp(Deploying, Pending, NO_REJECTION, 2)))
    ensures StartsEpoch(v, Cp(Deploying, Pending, NO_REJECTION, 2))
    ensures Paid(Next(v, Saved(Cp(Deploying, Pending, NO_REJECTION, 2))), NO_REJECTION, 2)
  {
    hide Next, Allowed, WellFormed, Cp, NO_REJECTION, ARMED, SPENT, StartsEpoch;
    FormStep(v, Snapshotted, Unstarted, NO_REJECTION, Deploying, Pending, NO_REJECTION, 1);
  }

  lemma FirstSteps()
    ensures Allowed(PLAN, BLANK, Saved(READY)) && Next(BLANK, Saved(READY)).durable == Some(READY)
    ensures !Next(BLANK, Saved(READY)).owed
    ensures forall v: View :: v.durable == Some(READY) && !v.owed ==>
      var w := Next(v, PriorSeen(Frontend, Prior(false, "before")));
      var cp := Cp(Snapshotted, Unstarted, NO_REJECTION, 1);
      && Allowed(PLAN, v, PriorSeen(Frontend, Prior(false, "before"))) && w.durable == Some(READY)
      && Allowed(PLAN, w, Saved(cp)) && Next(w, Saved(cp)).durable == Some(cp) && !Next(w, Saved(cp)).owed
  {
    hide Next, SaveAllowed, Grants;
    ReadyFirst();
    NextCalls(BLANK, Saved(READY));
    OwedStep(BLANK, Saved(READY));
    var cp := Cp(Snapshotted, Unstarted, NO_REJECTION, 1);
    forall v: View | v.durable == Some(READY) && !v.owed
      ensures var w := Next(v, PriorSeen(Frontend, Prior(false, "before")));
              && w.durable == Some(READY) && SaveAllowed(PLAN, w, cp) && Next(w, Saved(cp)).durable == Some(cp)
              && !Next(w, Saved(cp)).owed
    {
      var e := PriorSeen(Frontend, Prior(false, "before"));
      PriorHeard(v, e);
      OwedStep(v, e);
      SnapshotFirst(Next(v, e));
      NextCalls(Next(v, e), Saved(cp));
      OwedStep(Next(v, e), Saved(cp));
    }
  }

  lemma ReadyFirst()
    ensures SaveAllowed(PLAN, BLANK, Saved(READY).cp) && !Grants(BLANK, READY)
  {
  }

  lemma SnapshotFirst(v: View)
    requires v.durable == Some(READY) && (Frontend, Prior(false, "before")) in v.priors && !v.owed
    ensures SaveAllowed(PLAN, v, Cp(Snapshotted, Unstarted, NO_REJECTION, 1))
    ensures !Grants(v, Cp(Snapshotted, Unstarted, NO_REJECTION, 1))
  {
    FormsAreValid(Snapshotted, Unstarted, NO_REJECTION, 1);
    hide WellFormed, TouchedBy;
  }

  lemma OpeningRuns()
    ensures Lawful(PLAN, Opening()) && Paid(ViewOf(Opening()), NO_REJECTION, 2)
    ensures StartsEpoch(ViewAt(Opening(), 6), Opening()[6].cp)
  {
    hide Lawful, ViewAt, Next, Allowed, Cp, StartsEpoch, READY;
    var e := Opening();
    FirstSteps();
    NothingYet([]);
    assert [] + [e[0]] == [e[0]];
    EmptyIsLawful();
    Append(PLAN, [], e[0]);
    BeginRuns(PLAN, [e[0]]);
    var j1 := [e[0]] + BEGIN;
    var j2, j3, j4 := j1 + [e[3]], j1 + [e[3]] + [e[4]], j1 + [e[3]] + [e[4]] + [e[5]];
    SecondReading(ViewOf(j1));
    Append(PLAN, j1, e[3]);
    Append(PLAN, j2, e[4]);
    Append(PLAN, j3, e[5]);
    OpenStep(ViewOf(j4));
    Append(PLAN, j4, e[6]);
    assert e == j4 + [e[6]];
    ViewOfPrefix(j4, e, 6);
  }

  lemma SecondReading(v: View)
    requires v.durable.Some?
    ensures Allowed(PLAN, v, ArtifactsRead(true))
    ensures Next(v, ArtifactsRead(true)) == v.(last := Some(ArtifactsRead(true)))
  {
  }

  lemma EmptyIsLawful()
    ensures Lawful(PLAN, [])
  {
  }

  lemma {:induction false} CountAppends(a: seq<Event>, b: seq<Event>, e: Event)
    ensures Count(a + b, e) == Count(a, e) + Count(b, e)
  {
    if b == [] {
      assert a + b == a;
    } else {
      var n := |b| - 1;
      assert (a + b)[..|a| + n] == a + b[..n];
      CountAppends(a, b[..n], e);
    }
  }

  lemma SavesStayOpen(n: nat, e: Event)
    requires e in Rejection(n) || e in Resumption(n)
    ensures e.Saved? ==> OpenIn(Some(e.cp), Frontend)
  {
  }

  lemma RepeatedUnfolds(k: nat)
    requires k > 0
    ensures Repeated(k) == Repeated(k - 1) + Resumption(4 * k + 1) + Rejection(4 * k + 3)
  {
  }

  lemma RepeatedZero()
    ensures Repeated(0) == Opening() + Rejection(3)
  {
  }

  lemma {:induction false} RepeatedRuns(k: nat)
    ensures Lawful(PLAN, Repeated(k)) && Left(ViewOf(Repeated(k)), 4 * k + 4)
  {
    hide ViewAt, Lawful, Left, Paid, Rejection, Resumption, Opening, Cp, Repeated, Next, Allowed;
    OpeningRuns();
    if k == 0 {
      RepeatedZero();
      RejectionRuns(Opening(), NO_REJECTION, 3);
    } else {
      RepeatedRuns(k - 1);
      var a, b := Resumption(4 * k + 1), Rejection(4 * k + 3);
      ResumptionRuns(Repeated(k - 1), 4 * k + 1);
      RejectionRuns(Repeated(k - 1) + a, SPENT, 4 * k + 3);
      RepeatedUnfolds(k);
    }
  }

  lemma {:induction false} RepeatedStaysOpen(k: nat, e: Event)
    requires e in EpochOf(k) && e.Saved?
    ensures OpenIn(Some(e.cp), Frontend)
  {
    hide OpenIn, Rejection, Resumption;
    if k == 0 || e in Rejection(4 * k + 3) {
      SavesStayOpen(4 * k + 3, e);
    } else if e in Resumption(4 * k + 1) {
      SavesStayOpen(4 * k + 1, e);
    } else {
      RepeatedStaysOpen(k - 1, e);
    }
  }

  lemma {:induction false} RepeatedCalls(k: nat)
    ensures Count(EpochOf(k), DeployCall(Frontend)) == k + 1
  {
    hide Rejection, Resumption, Count;
    CountsOne(4 * k + 3);
    if k > 0 {
      RepeatedCalls(k - 1);
      var a, b := Resumption(4 * k + 1), Rejection(4 * k + 3);
      CountAppends(EpochOf(k - 1) + a, b, DeployCall(Frontend));
      CountAppends(EpochOf(k - 1), a, DeployCall(Frontend));
    }
  }

  /**
   For every k there is a lawful attempt with one epoch, k + 1 submissions and a history of one record:
   the history does not bound the submissions.
   */
  lemma RepeatsAreFree(k: nat)
    ensures Lawful(PLAN, Repeated(k)) && IsEpoch(Repeated(k), 6, |Repeated(k)|)
    ensures Count(EpochOf(k), DeployCall(Frontend)) == k + 1
    ensures HistoryOf(Durable(Repeated(k))) == 1
  {
    hide ViewAt, Lawful, OpenIn, StartsEpoch, Left, EpochOf;
    var j := Repeated(k);
    OpeningRuns();
    RepeatedRuns(k);
    RepeatedCalls(k);
    LeftHistory(ViewOf(j), 4 * k + 4);
    forall m | 6 < m < |j| && j[m].Saved? ensures OpenIn(Some(j[m].cp), Frontend) {
      assert j[m] == EpochOf(k)[m - 7];
      RepeatedStaysOpen(k, j[m]);
    }
    assert j[6] == Opening()[6];
    ViewOfPrefix(Opening(), j, 6);
  }

  lemma LeftHistory(v: View, n: nat)
    requires Left(v, n)
    ensures HistoryOf(v.durable) == 1
  {
    Quotas();
  }

  lemma CountsOne(n: nat)
    ensures Count(Rejection(n), DeployCall(Frontend)) == 1
    ensures n >= 2 ==> Count(Resumption(n - 2), DeployCall(Frontend)) == 0
  {
    var call := DeployCall(Frontend);
    var r := Rejection(n);
    assert r == [call] + r[1..];
    CountAppends([call], r[1..], call);
    assert Count([call], call) == 1 by { assert [call][..0] == []; }
    NoneCounted(r[1..], call);
    if n >= 2 {
      NoneCounted(Resumption(n - 2), call);
    }
  }

  lemma {:induction false} NoneCounted(s: seq<Event>, e: Event)
    requires e !in s
    ensures Count(s, e) == 0
  {
    if s != [] {
      NoneCounted(s[..|s| - 1], e);
    }
  }
}
