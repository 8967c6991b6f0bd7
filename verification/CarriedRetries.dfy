/**
 A retry that was armed and not used when the front-end settled is still pending when its entry is opened again, and
 pays for a submission of the new epoch. Below: exactly which openings allow that, and a run in which it happens.
 */
module CarriedRetries {
  import opened Wrappers
  import opened Sequences
  import opened Checkpoints
  import opened Journals
  import opened Engines
  import opened QuotaRepeats

  /** The last event of j opens the front-end entry. */
  ghost predicate Opens(j: seq<Event>) { j != [] && IsEpoch(j, |j| - 1, |j|) }

  function Opened(j: seq<Event>): Checkpoint
    requires j != [] && j[|j| - 1].Saved?
  {
    j[|j| - 1].cp
  }

  /**
   However the epoch goes on: no more submissions than the opening, the rejections reported in the epoch, and evidence
   of an older run, if nothing is recorded yet, account for.
   */
  ghost predicate PaidByItsOwn(plan: Plan, j: seq<Event>)
    requires j != [] && j[|j| - 1].Saved?
  {
    forall l :: Lawful(plan, j + l) && IsEpoch(j + l, |j| - 1, |j + l|) ==>
      Count(l, DeployCall(Frontend)) <= 1 + Rejections(l) + One(History(Opened(j)) == [])
  }

  /** A retry is pending in the opening save and no deployment is known that would make it needless. */
  predicate Carries(cp: Checkpoint) {
    RetryPending(cp) && cp.components[Frontend].candidate.deployment.None?
  }

  /** An epoch pays for its own submissions exactly unless its opening save carries a pending retry. */
  lemma CarriedPaysExactly(plan: Plan, j: seq<Event>)
    requires Lawful(plan, j) && Opens(j)
    ensures PaidByItsOwn(plan, j) <==> !Carries(Opened(j))
  {
    hide Lawful, Count, Rejections, IsEpoch, History, Carries, RetryPending, ViewAt;
    OpensWithSave(j);
    if Carries(Opened(j)) {
      TwiceRuns(plan, j);
      var l := Twice(Opened(j));
      assert Lawful(plan, j + l) && IsEpoch(j + l, |j| - 1, |j + l|);
    } else {
      forall l | Lawful(plan, j + l) && IsEpoch(j + l, |j| - 1, |j + l|)
        ensures Count(l, DeployCall(Frontend)) <= 1 + Rejections(l) + One(History(Opened(j)) == [])
      {
        WithoutCarrying(plan, j, l);
      }
    }
  }

  lemma OpensWithSave(j: seq<Event>)
    requires Opens(j)
    ensures j[|j| - 1].Saved? && OpenIn(Some(Opened(j)), Frontend)
  {
  }

  lemma WithoutCarrying(plan: Plan, j: seq<Event>, l: seq<Event>)
    requires Opens(j) && j[|j| - 1].Saved? && !Carries(Opened(j))
    requires Lawful(plan, j + l) && IsEpoch(j + l, |j| - 1, |j + l|)
    ensures Count(l, DeployCall(Frontend)) <= 1 + Rejections(l) + One(History(Opened(j)) == [])
  {
    hide Lawful, Count, Rejections, IsEpoch, History, RetryPending, ViewAt, OpenIn;
    OpensWithSave(j);
    if RetryPending(Opened(j)) {
      KnownIsNotSubmitted(plan, j, l);
    } else {
      assert (j + l)[|j|..|j + l|] == l;
      SubmissionsArePaidFor(plan, j + l, |j| - 1, |j + l|);
    }
  }

  /** Once a deployment is recorded nothing is submitted. */
  lemma KnownIsNotSubmitted(plan: Plan, j: seq<Event>, l: seq<Event>)
    requires j != [] && j[|j| - 1].Saved? && OpenIn(Some(Opened(j)), Frontend) && Lawful(plan, j + l)
    requires Opened(j).components[Frontend].candidate.deployment.Some?
    ensures Count(l, DeployCall(Frontend)) == 0
  {
    hide Lawful, Count, ViewAt, OpenIn;
    var all := j + l;
    forall m | 0 <= m < |l| ensures l[m] != DeployCall(Frontend) {
      KnownAt(plan, all, |j| - 1, |j| + m);
    }
    NoneCounted(l, DeployCall(Frontend));
  }

  lemma KnownAt(plan: Plan, j: seq<Event>, i: nat, m: nat)
    requires Lawful(plan, j) && i < m < |j| && j[i].Saved? && OpenIn(Some(j[i].cp), Frontend)
    requires j[i].cp.components[Frontend].candidate.deployment.Some?
    ensures j[m] != DeployCall(Frontend)
  {
    hide Lawful, ViewAt, OpenIn, Keeps, Allowed;
    StepOf(plan, j, m + 1);
    DurableAdvances(plan, j, i, m);
    KnownForbids(plan, ViewAt(j, m), j[i].cp, j[m]);
  }

  lemma KnownForbids(plan: Plan, v: View, cp: Checkpoint, e: Event)
    requires v.durable.Some? && Keeps(cp, v.durable.value) && OpenIn(Some(cp), Frontend)
    requires cp.components[Frontend].candidate.deployment.Some? && Allowed(plan, v, e)
    ensures e != DeployCall(Frontend)
  {
    hide SaveAllowed;
  }

  // ---- two submissions without a rejection ---------------------------------------------------------

  function Later(cp: Checkpoint, status: EntryStatus, overall: Status): Checkpoint
    requires Frontend in cp.components
  {
    cp.(components := cp.components[Frontend := cp.components[Frontend].(status := status)], status := overall,
        sequence := cp.sequence + 1)
  }

  function LastRecord(history: seq<QuotaRecord>): Option<QuotaRecord> {
    if history == [] then None else Some(history[|history| - 1])
  }

  /** The authorisation is used up: the last rejection is recorded with a listing as empty as the one that armed it. */
  function Spent(cp: Checkpoint): Checkpoint
    requires Frontend in cp.components
  {
    var e := cp.components[Frontend];
    var q := Recorded(e.quota, LastRecord(e.quota.rejections), false, e.quota.reconciliation);
    WithEntry(cp, Frontend, e.(quota := q)).(sequence := cp.sequence + 1)
  }

  /** The opening save as the engine makes it. */
  predicate IsPending(cp: Checkpoint) {
    Frontend in cp.components && cp.components[Frontend].status == Pending && cp.status == Deploying
  }

  /**
   A submission's answer is unknown and the listing is empty, which ends the process; the next one finds the listing
   empty again, spends the old authorisation and submits once more.
   */
  function Resubmission(pending: Checkpoint): seq<Event>
    requires Frontend in pending.components
  {
    var unknown := Later(pending, EntryUnknown, Unknown);
    var again := Later(unknown, Pending, Deploying);
    [DeployCall(Frontend), Errored(Frontend, Changing, UNKNOWN), Listed([]), Saved(unknown)] + BEGIN
    + [Saved(again), Listed([]), Saved(Spent(again)), DeployCall(Frontend)]
  }

  /** The entry is made pending by another process, if the opening save has not done so. */
  function Twice(cp: Checkpoint): seq<Event>
    requires Frontend in cp.components
  {
    var pending := Later(cp, Pending, Deploying);
    if IsPending(cp) then Resubmission(cp) else BEGIN + [Saved(pending)] + Resubmission(pending)
  }

  /** Ready to submit: pending, durable, and no deployment known. */
  ghost predicate Submittable(plan: Plan, v: View, cp: Checkpoint) {
    && v.durable == Some(cp) && WellFormed(plan, cp) && WorkingIn(plan, v, cp, Frontend)
    && Frontend in cp.components && cp.components[Frontend].status == Pending
    && cp.components[Frontend].candidate.deployment.None? && RetryPending(cp)
    && History(cp) != []
  }

  lemma PendsAgain(plan: Plan, v: View, cp: Checkpoint)
    requires v.durable == Some(cp) && WellFormed(plan, cp) && OpenIn(Some(cp), Frontend) && Carries(cp)
    requires History(cp) != [] && !v.owed
    ensures var t := Later(cp, Pending, Deploying);
            && Allowed(plan, v, Saved(t)) && Submittable(plan, Next(v, Saved(t)), t)
            && (v.funded ==> Next(v, Saved(t)).funded) && OpenIn(Some(t), Frontend) && !Next(v, Saved(t)).owed
  {
    hide SaveAllowed, WellFormed, WorkingIn, Next, BeforeRuntime, ClaimsRuntime, Grants;
    var t := Later(cp, Pending, Deploying);
    OwedStep(v, Saved(t));
    assert !BeforeRuntime(Deploying) && !ClaimsRuntime(Deploying) by { Statuses(); }
    EntrySaves(plan, v, cp, t, Frontend, Pending);
    PendingIsWork(plan, Next(v, Saved(t)), t, Frontend);
    SaveIsMild(v, t);
  }

  lemma Statuses()
    ensures forall s :: s in {Deploying, Unknown, RollingBack, RolledBack} ==> !BeforeRuntime(s) && !ClaimsRuntime(s)
  {
  }

  /** A submission, its unknown answer, the empty listing and the handler's save. */
  lemma EndsUnknown(plan: Plan, v: View, cp: Checkpoint)
    requires Submittable(plan, v, cp) && v.funded
    ensures var w := Next(v, DeployCall(Frontend));
            var x := Next(w, Errored(Frontend, Changing, UNKNOWN));
            var y := Next(x, Listed([]));
            var t := Later(cp, EntryUnknown, Unknown);
            && Allowed(plan, v, DeployCall(Frontend)) && Allowed(plan, w, Errored(Frontend, Changing, UNKNOWN))
            && Allowed(plan, x, Listed([])) && Allowed(plan, y, Saved(t))
            && Next(y, Saved(t)).durable == Some(t) && WellFormed(plan, t) && OpenIn(Some(t), Frontend) && Carries(t)
            && History(t) == History(cp)
  {
    hide SaveAllowed, WellFormed, WorkingIn, Next, BeforeRuntime, ClaimsRuntime, Allowed, RetryPending;
    SubmitAllowed(plan, v, cp);
    var w := Next(v, DeployCall(Frontend));
    OwedStep(v, DeployCall(Frontend));
    OwedStep(w, Errored(Frontend, Changing, UNKNOWN));
    WorkCalls(plan, v, cp, Frontend, DeployCall(Frontend));
    WorkCalls(plan, w, cp, Frontend, Errored(Frontend, Changing, UNKNOWN));
    var x := Next(w, Errored(Frontend, Changing, UNKNOWN));
    OwedStep(x, Listed([]));
    WorkCalls(plan, x, cp, Frontend, Listed([]));
    assert IsAnswer(plan, Errored(Frontend, Changing, UNKNOWN), Frontend) && IsAnswer(plan, Listed([]), Frontend);
    Statuses();
    LaterKeeps(cp, EntryUnknown, Unknown);
    UnknownSaves(plan, Next(x, Listed([])), cp);
  }

  lemma SubmitAllowed(plan: Plan, v: View, cp: Checkpoint)
    requires v.durable == Some(cp) && WorkingIn(plan, v, cp, Frontend) && v.funded
    requires cp.components[Frontend].candidate.deployment.None?
    ensures Allowed(plan, v, DeployCall(Frontend)) && Frontend in cp.components
  {
    hide WellFormed, Allowed, SameBut, RecordLaws;
    MayDeploy(plan, v, cp, Frontend);
    HoldingAdvances(plan, v, cp, Frontend);
  }

  lemma LaterKeeps(cp: Checkpoint, status: EntryStatus, overall: Status)
    requires Frontend in cp.components
    ensures RetryPending(Later(cp, status, overall)) == RetryPending(cp)
    ensures Frontend in Later(cp, status, overall).components
    ensures OpenIn(Some(Later(cp, status, overall)), Frontend) <==> status in {Pending, EntryUnknown}
  {
  }

  lemma UnknownSaves(plan: Plan, v: View, cp: Checkpoint)
    requires !v.owed && v.durable == Some(cp) && WellFormed(plan, cp) && Frontend in cp.components
    requires cp.components[Frontend].status == Pending
    ensures var t := Later(cp, EntryUnknown, Unknown);
            Allowed(plan, v, Saved(t)) && Next(v, Saved(t)).durable == Some(t) && WellFormed(plan, t)
  {
    hide SaveAllowed, WellFormed, Next, BeforeRuntime, ClaimsRuntime;
    Statuses();
    EntrySaves(plan, v, cp, Later(cp, EntryUnknown, Unknown), Frontend, EntryUnknown);
  }

  /** An empty listing, the authorisation spent, and the submission that it pays for. */
  lemma SpendsAndSubmits(plan: Plan, v: View, cp: Checkpoint)
    requires Submittable(plan, v, cp) && !v.owed
    ensures var w := Next(v, Listed([]));
            var x := Next(w, Saved(Spent(cp)));
            && Frontend in cp.components && Allowed(plan, v, Listed([])) && Allowed(plan, w, Saved(Spent(cp)))
            && Allowed(plan, x, DeployCall(Frontend)) && OpenIn(Some(Spent(cp)), Frontend)
  {
    hide SaveAllowed, WellFormed, WorkingIn, Next, DeployAllowed, OpenIn;
    WorkCalls(plan, v, cp, Frontend, Listed([]));
    assert IsAnswer(plan, Listed([]), Frontend);
    var w := Next(v, Listed([]));
    OwedStep(v, Listed([]));
    var e := cp.components[Frontend];
    var record := LastRecord(e.quota.rejections);
    var s := WithEntry(cp, Frontend, e.(quota := Recorded(e.quota, record, false, e.quota.reconciliation)));
    LastIsValid(plan, cp);
    WorkRecords(plan, w, cp, record, false, e.quota.reconciliation);
    WorkSaves(plan, w, s, Spent(cp), Frontend);
    ListingShows(v, []);
    SpendingPays(plan, w, cp, Spent(cp));
    SubmitAllowed(plan, Next(w, Saved(Spent(cp))), Spent(cp));
    SpentIsOpen(plan, w, cp);
  }

  lemma LastIsValid(plan: Plan, cp: Checkpoint)
    requires WellFormed(plan, cp) && History(cp) != []
    ensures RecordValid(plan, History(cp)[|History(cp)| - 1])
  {
  }

  lemma SpentIsOpen(plan: Plan, v: View, cp: Checkpoint)
    requires WorkingIn(plan, v, cp, Frontend)
    ensures Frontend in cp.components && OpenIn(Some(Spent(cp)), Frontend)
  {
  }

  lemma OpeningIsFunded(plan: Plan, j: seq<Event>)
    requires Lawful(plan, j) && Opens(j)
    ensures ViewOf(j).funded && ViewOf(j).durable == Some(Opened(j)) && WellFormed(plan, Opened(j))
  {
    hide Lawful, ViewAt, WellFormed;
    ViewSnoc(j, |j|);
    DurablePlan(plan, j, |j|);
    FundedByOpening(ViewAt(j, |j| - 1), Opened(j));
  }

  lemma FundedByOpening(v: View, cp: Checkpoint)
    requires StartsEpoch(v, cp)
    ensures Next(v, Saved(cp)).funded && Next(v, Saved(cp)).durable == Some(cp)
  {
  }

  /** The events of a resubmission are allowed one after the other. */
  lemma ResubmissionRuns(plan: Plan, j: seq<Event>, cp: Checkpoint)
    requires Lawful(plan, j) && Submittable(plan, ViewOf(j), cp) && ViewOf(j).funded
    ensures Lawful(plan, j + Resubmission(cp))
    ensures forall e :: e in Resubmission(cp) && e.Saved? ==> OpenIn(Some(e.cp), Frontend)
  {
    hide Lawful, ViewAt, Next, Allowed, WellFormed, WorkingIn, OpenIn, RetryPending, Later, Spent;
    var l := Resubmission(cp);
    var j1, j2, j3 := j + [l[0]], j + [l[0]] + [l[1]], j + [l[0]] + [l[1]] + [l[2]];
    var j4 := j3 + [l[3]];
    EndsUnknown(plan, ViewOf(j), cp);
    Append(plan, j, l[0]);
    Append(plan, j1, l[1]);
    Append(plan, j2, l[2]);
    Append(plan, j3, l[3]);
    BeginRuns(plan, j4);
    var j5 := j4 + BEGIN;
    var j6, j7, j8 := j5 + [l[6]], j5 + [l[6]] + [l[7]], j5 + [l[6]] + [l[7]] + [l[8]];
    PendsAgain(plan, ViewOf(j5), l[3].cp);
    Append(plan, j5, l[6]);
    SpendsAndSubmits(plan, ViewOf(j6), l[6].cp);
    Append(plan, j6, l[7]);
    Append(plan, j7, l[8]);
    Append(plan, j8, l[9]);
    assert j + l == j8 + [l[9]];
  }

  lemma TwiceRuns(plan: Plan, j: seq<Event>)
    requires Lawful(plan, j) && Opens(j) && Carries(Opened(j))
    ensures var l := Twice(Opened(j));
            && Lawful(plan, j + l) && IsEpoch(j + l, |j| - 1, |j + l|)
            && Count(l, DeployCall(Frontend)) == 2 && Rejections(l) == 0 && History(Opened(j)) != []
  {
    hide Lawful, ViewAt, Next, Allowed, WellFormed, OpenIn, IsEpoch, RetryPending, Submittable, Later, Resubmission,
         Count, Rejections, StartsEpoch, Opened;
    OpensWithSave(j);
    var o := Opened(j);
    OpeningIsFunded(plan, j);
    CarriesPending(o);
    PendingIsRecorded(plan, j, |j|);
    var l := Twice(o);
    if IsPending(o) {
      OpensSubmittable(plan, ViewOf(j), o);
      ResubmissionRuns(plan, j, o);
      ResubmissionCounts(o);
    } else {
      var pending := Later(o, Pending, Deploying);
      LaterKeeps(o, Pending, Deploying);
      BeginRuns(plan, j);
      PendsAgain(plan, ViewOf(j + BEGIN), o);
      Append(plan, j + BEGIN, Saved(pending));
      ResubmissionRuns(plan, j + BEGIN + [Saved(pending)], pending);
      assert j + l == j + BEGIN + [Saved(pending)] + Resubmission(pending);
      ResubmissionCounts(pending);
      NoneCounted(BEGIN + [Saved(pending)], DeployCall(Frontend));
      CountAppends(BEGIN + [Saved(pending)], Resubmission(pending), DeployCall(Frontend));
    }
    NoneRejected(l);
    StillOpen(j, l);
  }

  lemma OpensSubmittable(plan: Plan, v: View, cp: Checkpoint)
    requires v.durable == Some(cp) && WellFormed(plan, cp) && IsPending(cp) && Carries(cp) && History(cp) != []
    ensures Submittable(plan, v, cp)
  {
    hide WellFormed, WorkingIn;
    PendingIsWork(plan, v, cp, Frontend);
  }

  lemma CarriesPending(cp: Checkpoint)
    requires Carries(cp)
    ensures RetryIn(Some(cp))
  {
  }

  /** An epoch goes on while every save leaves the entry open. */
  lemma StillOpen(j: seq<Event>, l: seq<Event>)
    requires Opens(j) && forall e :: e in l && e.Saved? ==> OpenIn(Some(e.cp), Frontend)
    ensures IsEpoch(j + l, |j| - 1, |j + l|)
  {
    hide OpenIn, StartsEpoch, ViewAt;
    ViewOfPrefix(j, j + l, |j| - 1);
    forall m | |j| - 1 < m < |j + l| && (j + l)[m].Saved? ensures OpenIn(Some((j + l)[m].cp), Frontend) {
      assert (j + l)[m] == l[m - |j|];
    }
  }

  lemma ResubmissionCounts(cp: Checkpoint)
    requires Frontend in cp.components
    ensures Count(Resubmission(cp), DeployCall(Frontend)) == 2
    ensures forall e :: e in Resubmission(cp) ==> !e.QuotaRejected?
  {
    hide Later, Spent;
    var l, call := Resubmission(cp), DeployCall(Frontend);
    forall e | e in l[1..9] ensures e != call {
      var i :| 1 <= i < 9 && l[i] == e;
    }
    assert l == [call] + l[1..9] + [call];
    NoneCounted(l[1..9], call);
    assert [call][..0] == [];
    CountAppends([call], l[1..9], call);
    CountAppends([call] + l[1..9], [call], call);
  }

  lemma {:induction false} NoneRejected(l: seq<Event>)
    requires forall e :: e in l ==> !e.QuotaRejected?
    ensures Rejections(l) == 0
  {
    if l != [] {
      NoneRejected(l[..|l| - 1]);
    }
  }

  // ---- a run that gets there ------------------------------------------------------------------------

  const BEFORE := Prior(false, "before")

  /** The next process rolls the front-end back. */
  function RolledBackAfter(): seq<Event> {
    [Started, Saved(Cp(RollingBack, EntryUnknown, ARMED, 5)), Saved(Cp(RollingBack, RollbackPending, ARMED, 6)),
     ReadPrior(Frontend, BEFORE, true), Saved(Cp(RollingBack, EntryRolledBack, ARMED, 7)),
     Saved(Cp(RolledBack, EntryRolledBack, ARMED, 8))]
  }

  /** After a rejection has armed a retry: the front-end is rolled back, and a new deploy opens its entry. */
  function Carried(): seq<Event> {
    Repeated(0) + RolledBackAfter() + BEGIN + [Saved(Cp(Deploying, Pending, ARMED, 9))]
  }

  /** A save that changes the status of the entry and of the attempt. */
  lemma EntryStep(v: View, s: Status, e: EntryStatus, t: Status, f: EntryStatus, n: nat)
    requires !v.owed && v.durable == Some(Cp(s, e, ARMED, n)) && WellFormed(PLAN, Cp(s, e, ARMED, n))
    requires t in {RollingBack, RolledBack, Deploying} && f in {EntryUnknown, RollbackPending, EntryRolledBack, Pending}
    requires e in {EntryUnknown, RollbackPending, EntryRolledBack} && (e == RollbackPending ==> f == EntryRolledBack)
    requires f == EntryRolledBack ==> TouchedBy(v, Frontend, ReadPrior(Frontend, BEFORE, true))
    ensures var b := Cp(t, f, ARMED, n + 1);
            && Allowed(PLAN, v, Saved(b)) && Next(v, Saved(b)).durable == Some(b) && WellFormed(PLAN, b)
            && Next(v, Saved(b)).touched == v.touched && !Next(v, Saved(b)).owed
  {
    hide WellFormed, SaveAllowed, ARMED, BeforeRuntime, ClaimsRuntime, TouchedBy, StartsEpoch, Grants, Arms,
         NewLegacy, StageIn;
    Statuses();
    var a, b := Cp(s, e, ARMED, n), Cp(t, f, ARMED, n + 1);
    assert b.components == a.components[Frontend := a.components[Frontend].(status := f)];
    EntrySaves(PLAN, v, a, b, Frontend, f);
    OwedStep(v, Saved(b));
  }

  lemma PriorStep(v: View)
    requires v.durable.Some?
    ensures Allowed(PLAN, v, ReadPrior(Frontend, BEFORE, true))
    ensures var w := Next(v, ReadPrior(Frontend, BEFORE, true));
            && w.durable == v.durable && TouchedBy(w, Frontend, ReadPrior(Frontend, BEFORE, true))
            && (!v.owed ==> !w.owed)
  {
  }

  lemma LeftForm(v: View)
    requires Left(v, 4)
    ensures v.durable == Some(Cp(Unknown, EntryUnknown, ARMED, 4))
    ensures WellFormed(PLAN, Cp(Unknown, EntryUnknown, ARMED, 4))
  {
    FormsAreValid(Unknown, EntryUnknown, ARMED, 4);
  }

  lemma LastOpens(v: View)
    requires v.durable == Some(Cp(RolledBack, EntryRolledBack, ARMED, 8))
    ensures StartsEpoch(v, Cp(Deploying, Pending, ARMED, 9)) && Carries(Cp(Deploying, Pending, ARMED, 9))
    ensures OpenIn(Some(Cp(Deploying, Pending, ARMED, 9)), Frontend)
  {
    Quotas();
  }

  /**
   A rejection arms a retry; the front-end is rolled back; the next deploy opens the entry with the retry still pending.
   */
  lemma CarriedRuns()
    ensures Lawful(PLAN, Carried()) && Opens(Carried()) && Carries(Opened(Carried()))
  {
    hide Lawful, ViewAt, Next, Allowed, WellFormed, Cp, ARMED, Left, Repeated, StartsEpoch, OpenIn, TouchedBy,
         Carries;
    var j, e := Repeated(0), RolledBackAfter();
    RepeatedRuns(0);
    LeftForm(ViewOf(j));
    BeginSteps(PLAN, ViewOf(j));
    Append(PLAN, j, e[0]);
    var j1, j2, j3 := j + [e[0]], j + [e[0]] + [e[1]], j + [e[0]] + [e[1]] + [e[2]];
    var j4, j5, j6 := j3 + [e[3]], j3 + [e[3]] + [e[4]], j3 + [e[3]] + [e[4]] + [e[5]];
    EntryStep(ViewOf(j1), Unknown, EntryUnknown, RollingBack, EntryUnknown, 4);
    Append(PLAN, j1, e[1]);
    EntryStep(ViewOf(j2), RollingBack, EntryUnknown, RollingBack, RollbackPending, 5);
    Append(PLAN, j2, e[2]);
    PriorStep(ViewOf(j3));
    Append(PLAN, j3, e[3]);
    EntryStep(ViewOf(j4), RollingBack, RollbackPending, RollingBack, EntryRolledBack, 6);
    Append(PLAN, j4, e[4]);
    StillTouched(ViewOf(j4), ViewOf(j5));
    EntryStep(ViewOf(j5), RollingBack, EntryRolledBack, RolledBack, EntryRolledBack, 7);
    Append(PLAN, j5, e[5]);
    OpensAgain(j6);
    assert Carried() == j6 + BEGIN + [Saved(Cp(Deploying, Pending, ARMED, 9))];
  }

  /** The next deploy opens the entry that was rolled back. */
  lemma OpensAgain(j: seq<Event>)
    requires Lawful(PLAN, j) && Durable(j) == Some(Cp(RolledBack, EntryRolledBack, ARMED, 8))
    requires WellFormed(PLAN, Cp(RolledBack, EntryRolledBack, ARMED, 8))
    ensures var l := j + BEGIN + [Saved(Cp(Deploying, Pending, ARMED, 9))];
            Lawful(PLAN, l) && Opens(l) && Carries(Opened(l))
  {
    hide Lawful, ViewAt, Next, Allowed, WellFormed, Cp, ARMED, StartsEpoch, OpenIn, Carries;
    BeginRuns(PLAN, j);
    var j1, last := j + BEGIN, Cp(Deploying, Pending, ARMED, 9);
    EntryStep(ViewOf(j1), RolledBack, EntryRolledBack, Deploying, Pending, 8);
    Append(PLAN, j1, Saved(last));
    LastOpens(ViewOf(j1));
    ViewOfPrefix(j1, j1 + [Saved(last)], |j1|);
  }

  lemma StillTouched(v: View, w: View)
    requires w.touched == v.touched && TouchedBy(v, Frontend, ReadPrior(Frontend, BEFORE, true))
    ensures TouchedBy(w, Frontend, ReadPrior(Frontend, BEFORE, true))
  {
  }

  /** In the epoch so opened the front-end is submitted twice although no rejection is reported in it. */
  lemma OldRejectionPaysAgain()
    ensures var j, l := Carried(), Twice(Opened(Carried()));
            && Lawful(PLAN, j + l) && IsEpoch(j + l, |j| - 1, |j + l|)
            && Count(l, DeployCall(Frontend)) == 2 && Rejections(l) == 0
  {
    CarriedRuns();
    hide Carried, Lawful, Carries, Opens, Twice, Count, Rejections;
    TwiceRuns(PLAN, Carried());
  }
}
