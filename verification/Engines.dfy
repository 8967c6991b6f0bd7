/**
 The release engine over an adversarial provider. Every provider answer is arbitrary (`*`): a call
 may succeed, fail or end unknown, and a readback may match or not. An upload of a checkpoint may
 fail, before or after it took effect. `journal` is what the checkpoint store and the provider saw; it
 is not part of the engine's own state. A crash is a restart from the last save of any prefix of it.
 */
module Engines {
  import opened Wrappers
  import opened Sequences
  import opened Checkpoints
  import opened Journals
  import Paginations

  const FAILED := Breakpoint(IsFailed, None)

  const UNKNOWN := Breakpoint(IsUnknown, None)

  datatype Outcome<T> = Ok(value: T) | Raised(exc: Exc)

  /** Only the submission call carries the stage that makes a cause a quota rejection. */
  function ElsewhereRaised(e: Exc): Exc {
    if e.Breakpoint? then Breakpoint(e.severity, None) else e
  }

  /** `is_frontend_quota_rejection(failure.cause)` on the failure of a deploy call. */
  predicate IsQuotaRejection(e: Exc) { e.Breakpoint? && e.cause.Some? && e.cause.value.quota }

  /** How one component left the deploy loop. `NotSaved` is an error the loop does not handle. */
  datatype Step = Skipped | Deployed | RefusedRecovery | Broken(exc: Exc) | NotSaved

  datatype RestoreResult = Restored | Incomplete | NoSnapshot | RestoreHalted

  datatype TagResult = Tagged | TagIncomplete | TagForbidden | TagHalted

  /** How a deploy invocation ended. */
  datatype DeployResult =
      /** Nothing was begun: an artifact, the snapshot or an entry was missing. */
    | Stopped
      /** A save failed, which ends the process with what is durable so far. */
    | Halted
      /** A chosen entry is under recovery; what was attempted before it stays as it is. */
    | Refused
      /** A known failure; everything changed was read back at its prior. */
    | Compensated
      /** A known failure; at least one compensation is not confirmed. */
    | Uncompensated
      /** The provider's answer is unknown; nothing was compensated. */
    | LeftUnknown
      /** Every chosen component is verified. */
    | Finished(tag: TagResult)
    | Partial

  datatype Operation =
    | DeployOp(chosen: set<Component>) | ReactivateOp(chosen: set<Component>) | RollbackOp(chosen: set<Component>) | TagOp

  datatype OperationResult =
    DeployEnded(deploy: DeployResult) | RestoreEnded(restore: RestoreResult) | TagEnded(tag: TagResult)

  datatype Resumption = AlreadyVerified | Proceed(authorised: bool)

  /** Readings `poll` makes before it reports a mismatch. */
  const POLL_READS := 12

  /** `_quota_reconciliation_valid` with a required number of matches. */
  predicate ReconciliationValid(r: Option<Reconciliation>, project: Option<string>, matches: int) {
    && r.Some? && project.Some? && project.value != ""
    && r.value.project == project.value && r.value.complete
    && r.value.pagesRead > 0 && r.value.matches == matches
  }

  /** The two checkpoints differ at most in c's candidate, quota and status, and in the sequence. */
  predicate SameBut(a: Checkpoint, b: Checkpoint, c: Component) {
    && a.plan == b.plan && a.status == b.status
    && a.components.Keys == b.components.Keys && c in a.components
    && a.components[c].prior == b.components[c].prior
    && forall d :: d in a.components && d != c ==> a.components[d] == b.components[d]
  }

  /** c is being deployed: the checkpoint s in memory may be ahead of the last save in c's entry only. */
  predicate HoldingIn(plan: Plan, v: View, s: Checkpoint, c: Component) {
    && v.durable.Some? && WellFormed(plan, v.durable.value) && WellFormed(plan, s)
    && var d := v.durable.value;
    && SameBut(d, s, c) && EntryAdvances(d.components[c], s.components[c])
    && d.sequence <= s.sequence && s.status == Deploying
    && d.components[c].status in {Pending, Verified} && s.components[c].status in {Pending, Verified}
    && RecordLaws(v, d, s) && (c == DocumentImport ==> s.components[c].candidate.createIfAbsent.Some?)
  }

  predicate WorkingIn(plan: Plan, v: View, s: Checkpoint, c: Component) {
    HoldingIn(plan, v, s, c) && DurablyPending(v, c) && s.components[c].status == Pending
  }

  /** The same plan, status and entries but for c's candidate, quota and status, over several steps. */
  lemma SameButSteps(a: Checkpoint, c: Component)
    ensures c in a.components ==> SameBut(a, a, c)
    ensures forall x, y :: SameBut(a, x, c) && SameBut(x, y, c) ==> SameBut(a, y, c)
    ensures forall x :: SameBut(a, x, c) ==> c in x.components
  {
  }

  /** Follows in the same epoch: nothing new was called and a paid submission is still paid for. */
  predicate Follows(v: View, w: View) {
    && w.called <= v.called && w.unreconciled <= v.unreconciled && (v.funded ==> w.funded)
    && w.rejected == v.rejected && (v.absent ==> w.absent) && (v.owned ==> w.owned)
    && v.named <= w.named && v.versions <= w.versions && v.proofs <= w.proofs
  }

  /** And no candidate was read. */
  predicate Milder(v: View, w: View) { Follows(v, w) && w.readings == v.readings }

  lemma MilderSteps(v: View)
    ensures Milder(v, v) && Follows(v, v)
    ensures forall w, x :: Milder(v, w) && Milder(w, x) ==> Milder(v, x)
    ensures forall w, x :: Follows(v, w) && Follows(w, x) ==> Follows(v, x)
    ensures forall w :: Milder(v, w) ==> Follows(v, w) && w.readings == v.readings
  {
  }

  /** What becomes verified or rolled back was read back just before. */
  ghost predicate Backed(v: View, t: Checkpoint) {
    forall c :: c in t.components ==>
      && (NewlyIn(v, t, c, Verified) ==> TouchedBy(v, c, ReadCandidate(c, t.components[c].candidate, true)))
      && (NewlyIn(v, t, c, EntryRolledBack) ==> TouchedBy(v, c, ReadPrior(c, t.components[c].prior, true)))
  }

  /** s uses up an authorisation that d still has. */
  predicate Spends(d: Option<Checkpoint>, s: Checkpoint) {
    || (!RetryPending(s) && d.Some? && RetryPending(d.value))
    || (LegacyUsed(s) && !(d.Some? && LegacyUsed(d.value)))
  }

  lemma NoSpendingNoGrant(v: View, t: Checkpoint)
    requires !Spends(v.durable, t)
    ensures !Grants(v, t)
  {
    hide LegacyUsed, RetryPending;
  }

  lemma UnlistedGrantsNothing(v: View, s: Checkpoint, t: Checkpoint)
    requires Spends(v.durable, s) ==> v.last == Some(SaveErrored)
    requires Spends(v.durable, s) == Spends(v.durable, t)
    ensures !Grants(v, t)
  {
    hide LegacyUsed, RetryPending;
  }

  /** A checkpoint with the same records, or the quota entry it was saved with, uses up nothing. */
  lemma SpendsNothing(s: Checkpoint, t: Checkpoint)
    requires RetryPending(t) == RetryPending(s) && LegacyUsed(t) == LegacyUsed(s)
    ensures !Spends(Some(s), t) && !Spends(Some(s), s)
    ensures forall d :: Spends(d, s) == Spends(d, t)
  {
    hide LegacyUsed, RetryPending;
  }

  /** A save in the course of a deployment. */
  lemma Saves(plan: Plan, v: View, d: Checkpoint, t: Checkpoint)
    requires !v.owed
    requires v.durable == Some(d) && d.sequence < t.sequence && d.components.Keys == t.components.Keys
    requires WellFormed(plan, t) && ComponentsAdvance(d.components, t.components) && Backed(v, t)
    requires !BeforeRuntime(t.status) && (t.status == Success ==> d.status == Success)
    requires RecordLaws(v, d, t)
    ensures SaveAllowed(plan, v, t)
  {
    hide WellFormed, ComponentsAdvance, NewlyIn, TouchedBy, RecordLaws;
  }

  lemma SaveIsMild(v: View, t: Checkpoint)
    ensures Milder(v, Next(v, Saved(t))) && Next(v, Saved(t)).durable == Some(t)
  {
    hide StartsEpoch, Grants, Arms, NewLegacy, StageIn;
  }

  lemma LaterHolds(plan: Plan, v: View, s: Checkpoint, t: Checkpoint, c: Component)
    requires WorkingIn(plan, v, s, c) && t == s.(sequence := s.sequence + 1)
    ensures WorkingIn(plan, v, t, c) && SameBut(s, t, c) && WellFormed(plan, t)
    ensures t.status == Deploying && t.components[c].status == Pending
    ensures RecordLaws(v, v.durable.value, t)
  {
    hide EntryAdvances, RecordsValid;
  }

  /** A save that reports a failure, whether it took effect or not. */
  lemma WorkMayFail(plan: Plan, v: View, s: Checkpoint, t: Checkpoint, c: Component)
    requires !v.owed && WorkingIn(plan, v, s, c) && t == s.(sequence := s.sequence + 1)
    ensures WorkingIn(plan, Next(v, SaveErrored), t, c) && Milder(v, Next(v, SaveErrored))
    ensures var w := Next(Next(v, Saved(t)), SaveErrored); WorkingIn(plan, w, t, c) && Milder(v, w) && w.durable == Some(t)
    ensures v.durable.Some? && WellFormed(plan, v.durable.value) && Next(v, SaveErrored).durable == v.durable
  {
    hide WorkingIn, Next, Milder, SaveAllowed, SameBut, WellFormed, Allowed;
    WorkSaves(plan, v, s, t, c);
    WorkCalls(plan, v, t, c, SaveErrored);
    WorkCalls(plan, Next(v, Saved(t)), t, c, SaveErrored);
    MilderSteps(v);
    WorkIsSound(plan, v, s, c);
  }

  lemma WorkIsSound(plan: Plan, v: View, s: Checkpoint, c: Component)
    requires WorkingIn(plan, v, s, c)
    ensures v.durable.Some? && WellFormed(plan, v.durable.value)
  {
  }

  /** Bumping the sequence of a checkpoint in memory and saving it, or failing to. */
  lemma WorkSaves(plan: Plan, v: View, s: Checkpoint, t: Checkpoint, c: Component)
    requires !v.owed && WorkingIn(plan, v, s, c) && t == s.(sequence := s.sequence + 1)
    ensures SaveAllowed(plan, v, t) && SameBut(s, t, c)
    ensures WorkingIn(plan, v, t, c) && WorkingIn(plan, Next(v, Saved(t)), t, c)
    ensures Next(v, Saved(t)).durable == Some(t) && WellFormed(plan, t) && Milder(v, Next(v, Saved(t)))
    ensures !Resolved(t.status) && forall d :: Spends(d, s) == Spends(d, t)
  {
    hide HoldingIn, WellFormed, SameBut, ComponentsAdvance, RecordLaws, Next, TouchedBy, SaveAllowed, Milder;
    SpendsNothing(s, t);
    LaterHolds(plan, v, s, t, c);
    HoldingAdvances(plan, v, s, c);
    SaveIsMild(v, t);
    SavedHolds(plan, v, t, c);
    var d := v.durable.value;
    assert Backed(v, t) by {
      forall x | x in t.components ensures !NewlyIn(v, t, x, Verified) && !NewlyIn(v, t, x, EntryRolledBack) {
      }
    }
    Saves(plan, v, d, t);
  }

  function WithEntry(s: Checkpoint, c: Component, e: Entry): Checkpoint {
    s.(components := s.components[c := e])
  }

  /** A creation state that is new was seen to be justified, and an identity that is new was answered. */
  predicate MayLearn(v: View, c: Component, a: Candidate, b: Candidate) {
    && (|| b.creation == a.creation
        || (b.creation == Some(Creating) && v.absent) || (b.creation == Some(Created) && v.owned))
    && Learned(v, c, a, b)
  }

  /** Replacing c's candidate in memory. */
  lemma WorkLearns(plan: Plan, v: View, s: Checkpoint, c: Component, candidate: Candidate)
    requires WorkingIn(plan, v, s, c) && CandidateAdvances(s.components[c].candidate, candidate)
    requires MayLearn(v, c, s.components[c].candidate, candidate)
    ensures var t := WithEntry(s, c, s.components[c].(candidate := candidate));
            WorkingIn(plan, v, t, c) && SameBut(s, t, c) && v.durable.Some?
  {
    hide RecordLaws, WellFormed, EntryAdvances, SameBut, CandidateAdvances, MayLearn, CreationOf, History,
         RetryPending, LegacyUsed, DecidedBySnapshot;
    SameButSteps(v.durable.value, c);
    var d, t := v.durable.value, WithEntry(s, c, s.components[c].(candidate := candidate));
    DecisionStays(plan, s, c, candidate);
    LearnedForm(plan, s, t, c, candidate);
    LearnedAdvances(d.components[c], s.components[c], candidate);
    LearnedLaws(v, d, s, t, c, candidate);
  }

  lemma DecisionStays(plan: Plan, s: Checkpoint, c: Component, candidate: Candidate)
    requires WellFormed(plan, s) && c in s.components && CandidateAdvances(s.components[c].candidate, candidate)
    requires c == DocumentImport ==> s.components[c].candidate.createIfAbsent.Some?
    ensures c == DocumentImport ==>
      candidate.createIfAbsent.Some? && DecidedBySnapshot(s.components[c].(candidate := candidate))
  {
  }

  lemma LearnedForm(plan: Plan, s: Checkpoint, t: Checkpoint, c: Component, candidate: Candidate)
    requires WellFormed(plan, s) && c in s.components && !ClaimsRuntime(s.status)
    requires c == DocumentImport ==> DecidedBySnapshot(s.components[c].(candidate := candidate))
    requires t == WithEntry(s, c, s.components[c].(candidate := candidate))
    ensures WellFormed(plan, t) && SameBut(s, t, c) && t.components[c] == s.components[c].(candidate := candidate)
    ensures History(t) == History(s) && RetryPending(t) == RetryPending(s) && LegacyUsed(t) == LegacyUsed(s)
    ensures CreationOf(t) == if c == DocumentImport then candidate.creation else CreationOf(s)
  {
    assert t.components.Keys == s.components.Keys;
    assert RecordsValid(plan, s.components[c].quota);
  }

  lemma LearnedAdvances(a: Entry, b: Entry, candidate: Candidate)
    requires EntryAdvances(a, b) && CandidateAdvances(b.candidate, candidate)
    ensures EntryAdvances(a, b.(candidate := candidate))
  {
  }

  lemma LearnedLaws(v: View, d: Checkpoint, s: Checkpoint, t: Checkpoint, c: Component, candidate: Candidate)
    requires RecordLaws(v, d, s) && c in s.components
    requires t.components == s.components[c := s.components[c].(candidate := candidate)]
    requires History(t) == History(s) && RetryPending(t) == RetryPending(s) && LegacyUsed(t) == LegacyUsed(s)
    requires MayLearn(v, c, s.components[c].candidate, candidate)
    requires CreationOf(t) == if c == DocumentImport then candidate.creation else CreationOf(s)
    ensures RecordLaws(v, d, t)
  {
    LearnedIdentities(v, d, s, t, c, candidate);
    hide History, RetryPending, LegacyUsed, IdentityLaw, Learned;
  }

  lemma LearnedIdentities(v: View, d: Checkpoint, s: Checkpoint, t: Checkpoint, c: Component, candidate: Candidate)
    requires IdentityLaw(v, d, s) && c in s.components
    requires t.components == s.components[c := s.components[c].(candidate := candidate)]
    requires Learned(v, c, s.components[c].candidate, candidate)
    ensures IdentityLaw(v, d, t)
  {
    forall x | x in t.components ensures Learned(v, x, CandidateIn(d, x), t.components[x].candidate) {
      assert x in s.components && Learned(v, x, CandidateIn(d, x), s.components[x].candidate);
    }
  }

  /** What a reading or the answer to a call about c may be. A quota rejection is an event of its own. */
  predicate IsAnswer(plan: Plan, e: Event, c: Component) {
    match e
    case VersionAdded(d, _) => d == c
    case Named(d, _) => d == c
    case Steer(d) => d == c
    case AliasRead(_, _) => c == Frontend
    case ReadCandidate(d, _, _) => d == c
    case RevisionRead(d, _, _) => d == c
    case Errored(d, task, exc) =>
      d == c && (c == Frontend && task == Changing ==> !exc.Breakpoint? || exc.cause.None? || !exc.cause.value.quota)
    case JobRead(_) => true
    case EvidenceRead(proved) => proved.Some? ==> proved.value.source.RetainedResult? && RecordValid(plan, proved.value)
    case Listed(_) => true
    case _ => false
  }

  /** Any event but a save leaves c being deployed, unless it drops a rejection not yet saved. */
  lemma WorkCalls(plan: Plan, v: View, s: Checkpoint, c: Component, e: Event)
    requires WorkingIn(plan, v, s, c) && !e.Saved?
    requires e.QuotaRejected? || e.DeployCall? ==> v.durable == Some(s)
    ensures WorkingIn(plan, Next(v, e), s, c) && Next(v, e).durable == v.durable
    ensures !e.DeployCall? && !e.QuotaRejected? ==> Follows(v, Next(v, e))
    ensures !e.DeployCall? && !e.QuotaRejected? && !e.ReadCandidate? ==> Milder(v, Next(v, e))
    ensures Next(v, e).readings == v.readings + One(e.ReadCandidate?)
    ensures Allowed(plan, v, Steer(c)) && Allowed(plan, v, SaveErrored) && SameBut(s, s, c)
    ensures forall e :: IsAnswer(plan, e, c) ==> Allowed(plan, v, e)
    ensures forall record: QuotaRecord ::
      c == Frontend && record.source.ProviderCli? && RecordValid(plan, record) ==>
        Allowed(plan, v, QuotaRejected(record))
  {
    assert SameBut(s, s, c) && DurablyPending(v, c) && v.durable.Some? by { hide Next, WellFormed, Allowed; }
    CallFrame(v, e);
    HoldingFrame(plan, v, Next(v, e), s, c);
    CallsAllowed(plan, v, c);
    OwedStep(v, e);
    hide Next, HoldingIn, WellFormed, RetryPending, Allowed, Follows;
  }

  lemma VersionHeard(v: View, c: Component, answer: Option<nat>)
    ensures answer.Some? ==> (c, answer.value) in Next(v, VersionAdded(c, answer)).versions
  {
  }

  lemma NameHeard(v: View, c: Component, name: string)
    ensures (c, name) in Next(v, Named(c, name)).named
  {
  }

  lemma RevisionHeard(v: View, c: Component, name: string, matched: bool)
    ensures var w := Next(v, RevisionRead(c, name, matched));
            (matched ==> (c, name) in w.named) && (!matched ==> c !in w.unreconciled)
  {
  }

  lemma ProofHeard(v: View, record: QuotaRecord)
    ensures record in Next(v, EvidenceRead(Some(record))).proofs
  {
  }

  lemma ReadTouches(v: View, c: Component, candidate: Candidate, matched: bool)
    ensures TouchedBy(Next(v, ReadCandidate(c, candidate, matched)), c, ReadCandidate(c, candidate, matched))
  {
  }

  lemma JobSeen(v: View, found: Option<bool>)
    ensures found.None? ==> Next(v, JobRead(found)).absent
    ensures found == Some(true) ==> Next(v, JobRead(found)).owned
  {
  }

  lemma CallsAllowed(plan: Plan, v: View, c: Component)
    requires DurablyPending(v, c)
    ensures Allowed(plan, v, Steer(c)) && Allowed(plan, v, SaveErrored)
    ensures forall e :: IsAnswer(plan, e, c) ==> Allowed(plan, v, e)
    ensures forall record: QuotaRecord ::
      c == Frontend && record.source.ProviderCli? && RecordValid(plan, record) ==>
        Allowed(plan, v, QuotaRejected(record))
  {
  }

  /**
   An event that is no save changes neither the durable state nor, unless it is about the quota, what is known of a
   rejection.
   */
  lemma CallFrame(v: View, e: Event)
    requires !e.Saved?
    ensures Next(v, e).durable == v.durable && (!e.DeployCall? && !e.QuotaRejected? ==> Follows(v, Next(v, e)))
    ensures !e.QuotaRejected? && !e.DeployCall? && v.stage == Confirmed ==> Next(v, e).stage == Confirmed
  {
    hide Next;
    NextCalls(v, e);
    NextAccounts(v, e);
    NextAnswers(v, e);
    JobFlags(v, e);
  }

  lemma HoldingFrame(plan: Plan, v: View, w: View, s: Checkpoint, c: Component)
    requires HoldingIn(plan, v, s, c) && w.durable == v.durable
    requires v.durable == Some(s) || (Follows(v, w) && (v.stage == Confirmed ==> w.stage == Confirmed))
    ensures HoldingIn(plan, w, s, c)
  {
    hide WellFormed, SameBut, EntryAdvances, RecordLaws, Follows;
    LawsHold(w, s);
    if v.durable != Some(s) {
      LawsLater(v, w, v.durable.value, s);
    }
  }

  lemma LawsLater(v: View, w: View, d: Checkpoint, s: Checkpoint)
    requires RecordLaws(v, d, s) && Follows(v, w) && (v.stage == Confirmed ==> w.stage == Confirmed)
    ensures RecordLaws(w, d, s)
  {
    hide RetryPending, History, CreationOf, CandidateIn, LegacyUsed;
    forall c | c in s.components ensures Learned(w, c, CandidateIn(d, c), s.components[c].candidate) {
      assert Learned(v, c, CandidateIn(d, c), s.components[c].candidate);
    }
  }

  lemma LawsHold(v: View, s: Checkpoint)
    ensures RecordLaws(v, s, s)
  {
  }

  lemma MayDeploy(plan: Plan, v: View, s: Checkpoint, c: Component)
    requires WorkingIn(plan, v, s, c) && v.durable == Some(s)
    requires IsJob(c) ==> c !in v.called
    requires c == Frontend ==> v.funded && s.components[c].candidate.deployment.None?
    requires c == DocumentImport && s.components[c].candidate.createIfAbsent == Some(true) ==>
      s.components[c].candidate.creation.Some?
    requires IsService(c) ==> c !in v.unreconciled && s.components[c].candidate.revision.None?
                              && ConfigStageOf(s.components[c].candidate) == Some(Published)
    ensures Allowed(plan, v, DeployCall(c))
  {
  }

  /** The save that moves a record into publishing allows one addition. */
  lemma MayPublish(plan: Plan, v: View, s: Checkpoint, c: Component)
    requires WorkingIn(plan, v, s, c) && IsService(c)
    requires ConfigStageOf(s.components[c].candidate) == Some(Publishing)
    requires StageIn(v.durable, c) in {None, Some(Preparing)}
    ensures Allowed(plan, Next(v, Saved(s)), ConfigAdd(c))
  {
  }

  /** The entry a quota save leaves: the record, when new, at the end of the history. */
  function Recorded(q: Quota, record: Option<QuotaRecord>, pending: bool,
                    reconciliation: Option<Reconciliation>): Quota {
    Quota(if record.Some? then WithRecord(q.rejections, record.value) else q.rejections, pending, reconciliation)
  }

  /**
   A retry is armed by the confirmed rejection; otherwise a record is known already or the first retained evidence.
   */
  predicate MayRecord(v: View, history: seq<QuotaRecord>, record: Option<QuotaRecord>, pending: bool) {
    if pending then v.stage == Confirmed && record.Some? && record == v.rejected && record.value.source.ProviderCli?
    else record.Some? ==>
      record.value in history || (history == [] && record.value.source.RetainedResult? && record.value in v.proofs)
  }

  /** Replacing the front-end's quota bookkeeping in memory. */
  lemma WorkRecords(plan: Plan, v: View, s: Checkpoint, record: Option<QuotaRecord>, pending: bool,
                    reconciliation: Option<Reconciliation>)
    requires WorkingIn(plan, v, s, Frontend) && v.durable == Some(s)
    requires record.Some? ==> RecordValid(plan, record.value)
    requires MayRecord(v, s.components[Frontend].quota.rejections, record, pending)
    ensures var e := s.components[Frontend];
            var t := WithEntry(s, Frontend, e.(quota := Recorded(e.quota, record, pending, reconciliation)));
            WorkingIn(plan, v, t, Frontend) && SameBut(s, t, Frontend)
  {
    var e := s.components[Frontend];
    var q := Recorded(e.quota, record, pending, reconciliation);
    var t := WithEntry(s, Frontend, e.(quota := q));
    assert t.components.Keys == s.components.Keys;
    assert EntryAdvances(v.durable.value.components[Frontend], e);
    assert RecordsValid(plan, e.quota);
    assert e.quota.rejections <= q.rejections;
    forall r | r in q.rejections ensures RecordValid(plan, r) {
      assert r in e.quota.rejections || Some(r) == record;
    }
    forall x | x in t.components ensures RecordsValid(plan, t.components[x].quota) {
      assert x != Frontend ==> RecordsValid(plan, s.components[x].quota);
    }
    RecordedLaws(v, s, t, record, pending, reconciliation);
    hide RecordLaws;
  }

  lemma RecordedLaws(v: View, s: Checkpoint, t: Checkpoint, record: Option<QuotaRecord>, pending: bool,
                     reconciliation: Option<Reconciliation>)
    requires Frontend in s.components && MayRecord(v, s.components[Frontend].quota.rejections, record, pending)
    requires var e := s.components[Frontend];
             t == WithEntry(s, Frontend, e.(quota := Recorded(e.quota, record, pending, reconciliation)))
    ensures RecordLaws(v, s, t)
  {
    assert forall c :: c in t.components ==>
      c in s.components && t.components[c].candidate == s.components[c].candidate;
    hide RecordValid, LegacyUsed;
  }

  /**
   Spending a pending authorisation, or recording the first legacy rejection, after an empty listing pays for a call.
   */
  lemma SpendingPays(plan: Plan, v: View, s: Checkpoint, t: Checkpoint)
    requires v.durable == Some(s) && v.last == Some(Listed([]))
    requires Frontend in s.components && Frontend in t.components
    requires (RetryPending(s) && !RetryPending(t)) || (!LegacyUsed(s) && LegacyUsed(t))
    ensures Next(v, Saved(t)).funded
  {
  }

  /** Arming a retry uses up nothing. */
  lemma ArmingGrantsNothing(v: View, t: Checkpoint, q: Quota, record: QuotaRecord, found: Option<Reconciliation>)
    requires v.durable.Some? && Frontend in v.durable.value.components && Frontend in t.components
    requires v.durable.value.components[Frontend].quota == q && record.source.ProviderCli?
    requires t.components[Frontend].quota == Recorded(q, Some(record), true, found)
    ensures !Grants(v, t) && !Spends(v.durable, t) && !Spends(Some(t), t)
  {
    assert forall r :: r in WithRecord(q.rejections, record) ==> r in q.rejections || r == record;
    NoSpendingNoGrant(v, t);
    hide WithRecord;
  }

  /** While c is being deployed, a checkpoint that verifies c only after a matching readback may be saved. */
  lemma HoldingSaves(plan: Plan, v: View, t: Checkpoint, c: Component)
    requires !v.owed && HoldingIn(plan, v, t, c) && v.durable.value.sequence < t.sequence
    requires TouchedBy(v, c, ReadCandidate(c, t.components[c].candidate, true)) || t.components[c].status == Pending
    ensures SaveAllowed(plan, v, t)
  {
    hide HoldingIn, WellFormed, ComponentsAdvance, RecordLaws, TouchedBy, SaveAllowed;
    HoldingAdvances(plan, v, t, c);
    var d := v.durable.value;
    assert Backed(v, t) by {
      forall x | x in t.components && x != c ensures !NewlyIn(v, t, x, Verified) && !NewlyIn(v, t, x, EntryRolledBack) {
      }
    }
    Saves(plan, v, d, t);
  }

  lemma OwedIsFunded(v: View, t: Checkpoint)
    ensures Next(v, Saved(t)).owed ==> Next(v, Saved(t)).funded
  {
    hide Grants, StartsEpoch, Arms, NewLegacy, StageIn;
  }

  lemma LastOfView(j: seq<Event>)
    requires j != []
    ensures ViewOf(j).last == Some(j[|j| - 1])
  {
    hide Next;
    OwedStep(ViewAt(j, |j| - 1), j[|j| - 1]);
  }

  lemma WorkVerifies(plan: Plan, v: View, s: Checkpoint, t: Checkpoint, c: Component)
    requires WorkingIn(plan, v, s, c)
    requires t == WithEntry(s, c, s.components[c].(status := Verified)).(sequence := s.sequence + 1)
    ensures SameBut(s, t, c) && HoldingIn(plan, v, t, c) && v.durable.value.sequence < t.sequence
    ensures !Resolved(t.status) && forall d :: Spends(d, s) == Spends(d, t)
  {
    hide RecordLaws, WellFormed, EntryAdvances, SameBut, SameRecords, Spends;
    var d := v.durable.value;
    SameButSteps(d, c);
    VerifiedForm(plan, s, t, c);
    RecordsAgree(s, t);
    VerifiedAdvances(d.components[c], s.components[c]);
    LawsCarry(v, d, s, t);
  }

  lemma RecordsAgree(s: Checkpoint, t: Checkpoint)
    requires SameRecords(s, t)
    ensures forall d :: Spends(d, s) == Spends(d, t)
  {
    SpendsNothing(s, t);
  }

  lemma VerifiedAdvances(a: Entry, b: Entry)
    requires EntryAdvances(a, b) && a.status in {Pending, Verified}
    ensures EntryAdvances(a, b.(status := Verified))
  {
    hide CandidateAdvances;
  }

  lemma VerifiedForm(plan: Plan, s: Checkpoint, t: Checkpoint, c: Component)
    requires WellFormed(plan, s) && c in s.components && s.status == Deploying
    requires t == WithEntry(s, c, s.components[c].(status := Verified)).(sequence := s.sequence + 1)
    ensures WellFormed(plan, t) && SameRecords(s, t) && SameBut(s, t, c)
    ensures t.components[c] == s.components[c].(status := Verified)
  {
    assert t.components.Keys == s.components.Keys;
    assert RecordsValid(plan, s.components[c].quota);
  }

  lemma SavedHolds(plan: Plan, v: View, t: Checkpoint, c: Component)
    requires HoldingIn(plan, v, t, c)
    ensures HoldingIn(plan, Next(v, Saved(t)), t, c) && Next(v, Saved(t)).durable == Some(t) && WellFormed(plan, t)
  {
    hide WellFormed, RecordLaws, CandidateAdvances, Next;
    SavedIsDurable(v, t);
    LawsHold(Next(v, Saved(t)), t);
    EntryStays(t.components[c]);
  }

  lemma SavedIsDurable(v: View, t: Checkpoint)
    ensures Next(v, Saved(t)).durable == Some(t)
  {
  }

  lemma HandlerForms(plan: Plan, v: View, s: Checkpoint, t: Checkpoint, c: Component, status: EntryStatus)
    requires HoldingIn(plan, v, s, c) && status in {EntryUnknown, EntryFailed}
    requires t.plan == s.plan && t.status in {Unknown, Failed}
    requires t.components == s.components[c := s.components[c].(status := status)]
    ensures WellFormed(plan, t)
  {
    hide HoldingIn, ComponentsAdvance, WellFormed, RecordLaws, SameRecords;
    HoldingAdvances(plan, v, s, c);
    StatusForms(plan, s, t, c, status);
  }

  lemma StatusRecords(s: Checkpoint, t: Checkpoint, c: Component, status: EntryStatus)
    requires c in s.components && t.components == s.components[c := s.components[c].(status := status)]
    ensures t.components.Keys == s.components.Keys && SameRecords(s, t)
    ensures RetryPending(t) == RetryPending(s) && LegacyUsed(t) == LegacyUsed(s)
  {
    assert t.components.Keys == s.components.Keys;
    hide HasLegacy;
  }

  /** The form of a checkpoint does not depend on the status of an entry, unless it claims the runtime. */
  lemma StatusForms(plan: Plan, s: Checkpoint, t: Checkpoint, c: Component, status: EntryStatus)
    requires WellFormed(plan, s) && c in s.components && t.plan == s.plan && !BeforeRuntime(t.status)
    requires !ClaimsRuntime(t.status)
    requires t.components == s.components[c := s.components[c].(status := status)]
    ensures WellFormed(plan, t) && t.components.Keys == s.components.Keys && SameRecords(s, t)
  {
    StatusRecords(s, t, c, status);
    hide SameRecords;
    forall x | x in t.components ensures RecordsValid(plan, t.components[x].quota) {
      assert RecordsValid(plan, s.components[x].quota);
      hide RecordsValid;
    }
    hide RecordsValid;
  }

  /** What the handler may rely on about the entries. */
  lemma HoldingAdvances(plan: Plan, v: View, s: Checkpoint, c: Component)
    requires HoldingIn(plan, v, s, c)
    ensures v.durable.Some?
    ensures var d := v.durable.value;
            && c in s.components && d.components.Keys == s.components.Keys != {} && d.sequence <= s.sequence
            && ComponentsAdvance(d.components, s.components)
            && !InRecovery(d.components[c]) && d.components[c].status != Unstarted
            && (forall x :: x in s.components && x != c ==> d.components[x].status == s.components[x].status)
            && RecordLaws(v, d, s)
    ensures s.status == Deploying && WellFormed(plan, s) && s.components[c].status in {Pending, Verified}
  {
    hide RecordLaws, WellFormed, EntryAdvances;
    var d := v.durable.value;
    assert c in s.components;
    forall x | x in d.components ensures EntryAdvances(d.components[x], s.components[x]) {
      EntryStays(d.components[x]);
    }
  }

  /** The error handler of a deployment may save whatever the entry held. */
  lemma HandlerSaves(plan: Plan, v: View, s: Checkpoint, t: Checkpoint, c: Component, status: EntryStatus)
    requires !v.owed && HoldingIn(plan, v, s, c) && status in {EntryUnknown, EntryFailed}
    requires t.plan == s.plan && t.status in {Unknown, Failed} && t.sequence == s.sequence + 1
    requires t.components == s.components[c := s.components[c].(status := status)]
    ensures SaveAllowed(plan, v, t) && forall d :: Spends(d, s) == Spends(d, t)
  {
    HandlerForms(plan, v, s, t, c, status);
    HoldingAdvances(plan, v, s, c);
    var d := v.durable.value;
    HandlerAdvances(d.components, s.components, t.components, c, status);
    HandlerNews(v, d, s, t, c, status);
    LawsCarry(v, d, s, t);
    SpendsNothing(s, t);
    hide *;
    assert v.durable == Some(d) && t.status != Success && !BeforeRuntime(t.status) by { HandlerStatus(t); }
    Saves(plan, v, d, t);
  }

  lemma HandlerNews(v: View, d: Checkpoint, s: Checkpoint, t: Checkpoint, c: Component, status: EntryStatus)
    requires v.durable == Some(d) && d.components.Keys == s.components.Keys && c in s.components
    requires forall x :: x in s.components && x != c ==> d.components[x].status == s.components[x].status
    requires t.components == s.components[c := s.components[c].(status := status)]
    requires status in {EntryUnknown, EntryFailed}
    ensures Backed(v, t) && SameRecords(s, t) && d.components.Keys == t.components.Keys
  {
    hide TouchedBy, SameRecords;
    StatusRecords(s, t, c, status);
  }

  /** The quota and the creation records are the same. */
  predicate SameRecords(s: Checkpoint, t: Checkpoint) {
    && History(t) == History(s) && RetryPending(t) == RetryPending(s) && LegacyUsed(t) == LegacyUsed(s)
    && CreationOf(t) == CreationOf(s)
    && forall c :: c in t.components ==> c in s.components && t.components[c].candidate == s.components[c].candidate
  }

  lemma LawsCarry(v: View, d: Checkpoint, s: Checkpoint, t: Checkpoint)
    requires RecordLaws(v, d, s) && SameRecords(s, t)
    ensures RecordLaws(v, d, t)
  {
    hide History, RetryPending, LegacyUsed, CreationOf, Learned;
    forall c | c in t.components ensures Learned(v, c, CandidateIn(d, c), t.components[c].candidate) {
      assert Learned(v, c, CandidateIn(d, c), s.components[c].candidate);
    }
  }

  lemma HandlerStatus(t: Checkpoint)
    requires t.status in {Unknown, Failed}
    ensures t.status != Success && !BeforeRuntime(t.status)
  {
  }

  lemma HandlerAdvances(a: map<Component, Entry>, b: map<Component, Entry>, t: map<Component, Entry>, c: Component,
                        status: EntryStatus)
    requires ComponentsAdvance(a, b) && a.Keys == b.Keys && c in a && !InRecovery(a[c])
    requires t == b[c := b[c].(status := status)] && status in {EntryUnknown, EntryFailed}
    ensures ComponentsAdvance(a, t)
  {
  }

  /** A save that changes the status of one entry, and perhaps of the attempt. */
  lemma EntrySaves(plan: Plan, v: View, s: Checkpoint, t: Checkpoint, c: Component, status: EntryStatus)
    requires v.durable == Some(s) && !v.owed && WellFormed(plan, s) && c in s.components
    requires t.plan == s.plan && s.sequence < t.sequence && !BeforeRuntime(t.status) && !ClaimsRuntime(t.status)
    requires t.components == s.components[c := s.components[c].(status := status)]
    requires InRecovery(s.components[c]) ==>
      status in {RollbackPending, RollbackUnknown, RollbackFailed, EntryRolledBack}
    requires status !in {Unstarted, Verified}
    requires status == EntryRolledBack ==> TouchedBy(v, c, ReadPrior(c, s.components[c].prior, true))
    ensures SaveAllowed(plan, v, t) && WellFormed(plan, t) && Next(v, Saved(t)).durable == Some(t) && !Grants(v, t)
  {
    EntryForms(plan, v, s, t, c, status);
    SpendsNothing(s, t);
    NoSpendingNoGrant(v, t);
    hide WellFormed, SaveAllowed, ComponentsAdvance, Backed, RecordLaws, Next, InRecovery;
    Saves(plan, v, s, t);
    SavedIsDurable(v, t);
  }

  lemma EntryForms(plan: Plan, v: View, s: Checkpoint, t: Checkpoint, c: Component, status: EntryStatus)
    requires v.durable == Some(s) && WellFormed(plan, s) && c in s.components
    requires t.plan == s.plan && !BeforeRuntime(t.status) && !ClaimsRuntime(t.status)
    requires t.components == s.components[c := s.components[c].(status := status)]
    requires InRecovery(s.components[c]) ==>
      status in {RollbackPending, RollbackUnknown, RollbackFailed, EntryRolledBack}
    requires status !in {Unstarted, Verified}
    requires status == EntryRolledBack ==> TouchedBy(v, c, ReadPrior(c, s.components[c].prior, true))
    ensures WellFormed(plan, t) && t.components.Keys == s.components.Keys
    ensures ComponentsAdvance(s.components, t.components) && Backed(v, t)
    ensures RecordLaws(v, s, t)
    ensures RetryPending(t) == RetryPending(s) && LegacyUsed(t) == LegacyUsed(s)
  {
    StatusRecords(s, t, c, status);
    hide WellFormed, RecordLaws, TouchedBy, CandidateAdvances, SameRecords, RetryPending, LegacyUsed;
    StatusForms(plan, s, t, c, status);
    LawsHold(v, s);
    LawsCarry(v, s, s, t);
    forall x | x in t.components
      ensures EntryAdvances(s.components[x], t.components[x])
      ensures NewlyIn(v, t, x, EntryRolledBack) ==> TouchedBy(v, x, ReadPrior(x, t.components[x].prior, true))
      ensures !NewlyIn(v, t, x, Verified)
    {
      assert x != c ==> s.components[x] == t.components[x];
      EntryStays(s.components[x]);
    }
  }

  /** A save that changes only the status of the attempt. */
  lemma StatusSaves(plan: Plan, v: View, t: Checkpoint)
    requires v.durable.Some? && WellFormed(plan, v.durable.value) && WellFormed(plan, t) && !BeforeRuntime(t.status)
    requires !v.owed && v.durable.value.sequence < t.sequence && t.components == v.durable.value.components
    requires t.status == Success && v.durable.value.status != Success ==>
      v.last.Some? && TagSeen(v.last.value, plan.source)
    ensures SaveAllowed(plan, v, t) && Next(v, Saved(t)).durable == Some(t) && !Grants(v, t)
  {
  }

  lemma DecisionForms(plan: Plan, s: Checkpoint, candidate: Candidate)
    requires WellFormed(plan, s) && DocumentImport in s.components
    requires var e := s.components[DocumentImport];
             candidate == if e.candidate.createIfAbsent.None? then e.candidate.(createIfAbsent := Some(e.prior.absent)) else e.candidate
    ensures DecidedBySnapshot(s.components[DocumentImport].(candidate := candidate))
    ensures CandidateAdvances(s.components[DocumentImport].candidate, candidate)
  {
  }

  /** A save that decides only whether c is to be created. */
  lemma CandidateSaves(plan: Plan, v: View, s: Checkpoint, t: Checkpoint, c: Component, candidate: Candidate)
    requires !v.owed && v.durable == Some(s) && WellFormed(plan, s) && c in s.components
    requires candidate == s.components[c].candidate.(createIfAbsent := candidate.createIfAbsent)
    requires CandidateAdvances(s.components[c].candidate, candidate)
    requires c == DocumentImport ==> DecidedBySnapshot(s.components[c].(candidate := candidate))
    requires t == WithEntry(s, c, s.components[c].(candidate := candidate)).(sequence := s.sequence + 1)
    ensures SaveAllowed(plan, v, t) && Next(v, Saved(t)).durable == Some(t) && WellFormed(plan, t) && !Grants(v, t)
  {
    CandidateForms(plan, v, s, t, c, candidate);
    SpendsNothing(s, t);
    NoSpendingNoGrant(v, t);
    hide WellFormed, SaveAllowed, ComponentsAdvance, Backed, RecordLaws, Next;
    Saves(plan, v, s, t);
    SavedIsDurable(v, t);
  }

  lemma CandidateForms(plan: Plan, v: View, s: Checkpoint, t: Checkpoint, c: Component, candidate: Candidate)
    requires v.durable == Some(s) && WellFormed(plan, s) && c in s.components
    requires candidate == s.components[c].candidate.(createIfAbsent := candidate.createIfAbsent)
    requires CandidateAdvances(s.components[c].candidate, candidate)
    requires c == DocumentImport ==> DecidedBySnapshot(s.components[c].(candidate := candidate))
    requires t == WithEntry(s, c, s.components[c].(candidate := candidate)).(sequence := s.sequence + 1)
    ensures WellFormed(plan, t) && !BeforeRuntime(t.status) && t.components.Keys == s.components.Keys
    ensures ComponentsAdvance(s.components, t.components) && Backed(v, t)
    ensures RecordLaws(v, s, t)
    ensures RetryPending(t) == RetryPending(s) && LegacyUsed(t) == LegacyUsed(s)
  {
    assert t.components.Keys == s.components.Keys;
    assert RecordsValid(plan, s.components[c].quota);
    LawsHold(v, s);
    LearnedLaws(v, s, s, t, c, candidate);
    hide RecordLaws, TouchedBy, CandidateAdvances;
    forall x | x in t.components
      ensures EntryAdvances(s.components[x], t.components[x])
      ensures !NewlyIn(v, t, x, EntryRolledBack) && !NewlyIn(v, t, x, Verified)
    {
      assert x != c ==> s.components[x] == t.components[x];
      EntryStays(s.components[x]);
    }
  }

  lemma EntryStays(e: Entry)
    ensures EntryAdvances(e, e) && CandidateAdvances(e.candidate, e.candidate)
  {
  }

  /** The first save with entries: one untouched entry for every selected component. */
  lemma SnapshotSaves(plan: Plan, v: View, t: Checkpoint)
    requires !v.owed && v.durable.Some? && v.durable.value.components == map[] && v.durable.value.sequence < t.sequence
    requires t.plan == plan.id && t.status == Snapshotted && t.components.Keys == Elements(plan.selected)
    requires forall c :: c in t.components ==> Untouched(t.components[c]) && (c, t.components[c].prior) in v.priors
    ensures SaveAllowed(plan, v, t) && Next(v, Saved(t)).durable == Some(t) && WellFormed(plan, t) && !Grants(v, t)
  {
  }

  /** A settled entry that is opened has no call behind it, and an opened front-end is paid for. */
  lemma OpeningView(plan: Plan, v: View, s: Checkpoint, t: Checkpoint, c: Component)
    requires v.durable == Some(s) && c in s.components && !Open(s.components[c]) && c !in v.called + v.unreconciled
    requires t.components == s.components[c := s.components[c].(status := Pending)]
    ensures c !in Next(v, Saved(t)).called && c !in Next(v, Saved(t)).unreconciled
    ensures c == Frontend ==> Next(v, Saved(t)).funded
  {
  }

  /** Right after c's entry was saved as pending. */
  lemma PendingIsWork(plan: Plan, v: View, s: Checkpoint, c: Component)
    requires v.durable == Some(s) && WellFormed(plan, s) && s.status == Deploying
    requires c in s.components && s.components[c].status == Pending
    requires c == DocumentImport ==> s.components[c].candidate.createIfAbsent.Some?
    ensures WorkingIn(plan, v, s, c)
  {
  }

  /** Two orders of the same components: later in the plan first. */
  predicate Descending(s: seq<Component>) {
    forall i, j :: 0 <= i < j < |s| ==> Index(s[i]) > Index(s[j])
  }

  predicate Untouched(e: Entry) { e == Entry(Unstarted, e.prior, EMPTY_CANDIDATE, EMPTY_QUOTA) }

  lemma ReadyIsEmpty(plan: Plan, s: Checkpoint)
    requires WellFormed(plan, s) && s.status == Ready
    ensures s.components == map[] && s.plan == plan.id
  {
  }

  lemma PriorHeard(v: View, e: Event)
    requires e.PriorSeen? || e.Errored?
    ensures Next(v, e).durable == v.durable
    ensures forall x :: x in v.priors ==> x in Next(v, e).priors
    ensures e.PriorSeen? ==> (e.component, e.prior) in Next(v, e).priors
  {
  }

  /** Since j nothing happened but readings of what there is. */
  predicate OnlyReadings(j: seq<Event>, l: seq<Event>) {
    j <= l && forall i :: |j| <= i < |l| ==> l[i].PriorSeen? || l[i].Errored? || l[i].ArtifactsRead?
  }

  lemma ReadingsSteps(j: seq<Event>)
    ensures OnlyReadings(j, j)
  {
  }

  lemma ReadingsMore(j: seq<Event>, l: seq<Event>)
    requires OnlyReadings(j, l)
    ensures forall e: Event :: e.PriorSeen? || e.Errored? || e.ArtifactsRead? ==> OnlyReadings(j, l + [e])
  {
  }

  lemma BarredOn(j: seq<Event>, x: seq<Event>, y: seq<Event>)
    requires x <= y
    ensures Barred(j, x, false) ==> forall refused :: Barred(j, y, refused)
  {
  }

  lemma ReadingsChain(j: seq<Event>, x: seq<Event>, y: seq<Event>)
    requires OnlyReadings(j, x)
    ensures OnlyReadings(x, y) ==> OnlyReadings(j, y)
  {
  }

  /** Why nothing was begun: an artifact is not usable, or what a component was cannot be read. */
  predicate IsRefusal(e: Event) { e == ArtifactsRead(false) || (e.Errored? && e.task == Observing) }

  /** Whatever came after j came after the receipts were found usable; if they were not, that was all. */
  predicate Barred(j: seq<Event>, l: seq<Event>, refused: bool) {
    && j < l && l[|j|].ArtifactsRead?
    && (!l[|j|].usable ==> refused && l == j + [ArtifactsRead(false)])
  }

  lemma BarredLater(j: seq<Event>, read: seq<Event>, l: seq<Event>)
    requires read == j + [ArtifactsRead(true)] && read <= l
    ensures l[|j|] == ArtifactsRead(true) && forall refused :: Barred(j, l, refused)
  {
    assert l[|j|] == read[|j|];
  }

  lemma NewIsUntouched(prior: Prior)
    ensures Untouched(Entry(Unstarted, prior, EMPTY_CANDIDATE, EMPTY_QUOTA))
  {
  }

  /** The changed components are verified on their recorded priors; every other entry is as in `base`. */
  predicate DeployedIn(base: map<Component, Entry>, b: map<Component, Entry>, changed: seq<Component>) {
    && base.Keys == b.Keys && (forall c :: c in changed ==> c in base)
    && forall c :: c in base ==>
         if c in changed then b[c].prior == base[c].prior && b[c].status == Verified else b[c] == base[c]
  }

  /** As DeployedIn, with the last changed component left in the given status. */
  predicate BrokenIn(base: map<Component, Entry>, b: map<Component, Entry>, changed: seq<Component>,
                     status: EntryStatus) {
    && base.Keys == b.Keys && changed != [] && (forall c :: c in changed ==> c in base)
    && b[changed[|changed| - 1]].status == status
    && forall c :: c in base ==>
         && (c in changed ==> b[c].prior == base[c].prior)
         && (c in changed[..|changed| - 1] ==> b[c].status == Verified)
         && (c !in changed ==> b[c] == base[c])
  }

  /** After compensation: the changed components, and no others, were brought to `status`es of recovery. */
  predicate CompensatedIn(base: map<Component, Entry>, b: map<Component, Entry>, changed: seq<Component>) {
    && base.Keys == b.Keys && (forall c :: c in changed ==> c in base)
    && forall c :: c in base ==>
         if c in changed
         then b[c].prior == base[c].prior && b[c].status in {EntryRolledBack, RollbackUnknown, RollbackFailed}
         else b[c] == base[c]
  }

  // ---- what the events say about how an attempt at a component ended ---------------------------------

  predicate IsError(e: Event, c: Component, task: Task) { e.Errored? && e.component == c && e.task == task }

  predicate EndsWith(j: seq<Event>, e: Event) { j != [] && j[|j| - 1] == e }

  /** The last n events are all e. */
  predicate EndsInRun(j: seq<Event>, n: nat, e: Event) { n <= |j| && forall i :: |j| - n <= i < |j| ==> j[i] == e }

  /** The upload of a checkpoint was the last thing, and reported a failure. */
  predicate Unsaved(j: seq<Event>) { EndsWith(j, SaveErrored) }

  /** The last event is no reading of a candidate, matching, differing or failed. */
  predicate NothingRead(j: seq<Event>) {
    j != [] && var e := j[|j| - 1]; !e.ReadCandidate? && !(e.Errored? && e.task == Observing)
  }

  /**
   The candidate is known not to be in place: twelve readings in a row found something else; or, when an open entry is
   resumed, one reading did and the component is a job or nothing is known to resume, or that reading failed plainly.
   */
  predicate KnownFailure(j: seq<Event>, c: Component, candidate: Candidate, pending: bool) {
    || EndsInRun(j, 12, ReadCandidate(c, candidate, false))
    || (pending && EndsWith(j, ReadCandidate(c, candidate, false)) && (IsJob(c) || !NonEmpty(candidate)))
    || (pending && j != [] && IsError(j[|j| - 1], c, Observing) && !LeavesUnknown(j[|j| - 1].exc))
  }

  /** A version may have been added that nobody can name. */
  predicate Stuck(candidate: Candidate) {
    || ConfigStageOf(candidate) in {Some(Publishing), Some(Unconfirmed)}
    || (ConfigStageOf(candidate) == Some(Published) && candidate.config.value.version.None?)
  }

  predicate Unobservable(c: Component, candidate: Candidate) { c == Frontend && candidate.deployment.None? }

  /** An answer that leaves open what became of a submission, or refuses to go on with it. */
  predicate LeavesOpen(e: Event) {
    match e
    case Errored(_, task, exc) => task != Observing || LeavesUnknown(exc)
    case JobRead(found) => found == Some(false)
    case Listed(found) => |found| != 1
    case EvidenceRead(proved) => proved.None?
    case Saved(cp) => RetryPending(cp)
    case _ => false
  }

  predicate NoAnswer(j: seq<Event>, c: Component, candidate: Candidate) {
    Stuck(candidate) || Unobservable(c, candidate) || (j != [] && LeavesOpen(j[|j| - 1]))
  }

  /** The severity of the exception is what the events say, unless it is that of a failed save. */
  predicate Decides(j: seq<Event>, c: Component, candidate: Candidate, pending: bool, e: Exc) {
    || Unsaved(j)
    || ((LeavesUnknown(e) <==> !KnownFailure(j, c, candidate, pending)) && (LeavesUnknown(e) ==> NoAnswer(j, c, candidate)))
  }

  lemma NothingReadIsUnknown(j: seq<Event>, c: Component, candidate: Candidate, pending: bool)
    requires NothingRead(j)
    ensures !KnownFailure(j, c, candidate, pending)
  {
  }

  predicate IsResolved(e: Event) { e.Saved? && Resolved(e.cp.status) }

  /** The save leaves the attempt with the status it had. */
  predicate Lingers(j: seq<Event>, k: nat)
    requires k < |j|
  {
    j[k].Saved? && DurableAt(j, k).Some? && DurableAt(j, k).value.status == j[k].cp.status
  }

  /** A save that makes the attempt a resolved one is reported as failed. */
  predicate Passes(j: seq<Event>, k: nat)
    requires k < |j|
  {
    IsResolved(j[k]) ==> Lingers(j, k) || (k + 1 < |j| && j[k + 1] == SaveErrored)
  }

  /** Events are only added, and none of them makes the attempt a resolved one. */
  predicate Continues(j: seq<Event>, l: seq<Event>) { j <= l && forall k :: |j| <= k < |l| ==> Passes(l, k) }

  /** Events are only added, and none but the last makes the attempt a resolved one. */
  predicate Concludes(j: seq<Event>, l: seq<Event>) { j <= l && forall k :: |j| <= k < |l| - 1 ==> Passes(l, k) }

  lemma PassesLater(j: seq<Event>, l: seq<Event>, k: nat)
    requires j <= l && k < |j| && Passes(j, k)
    ensures Passes(l, k)
  {
    ViewOfPrefix(j, l, k);
  }

  lemma NothingContinues(j: seq<Event>)
    ensures Continues(j, j)
  {
  }

  lemma ContinuingConcludes(j: seq<Event>, l: seq<Event>)
    requires Continues(j, l)
    ensures Concludes(j, l)
  {
  }

  lemma ContinuesOn(j: seq<Event>, x: seq<Event>, y: seq<Event>)
    requires Continues(j, x)
    ensures Continues(x, y) ==> Continues(j, y)
    ensures Concludes(x, y) ==> Concludes(j, y)
  {
    hide Passes;
    if x <= y {
      forall k | |j| <= k < |x| ensures Passes(y, k) {
        PassesLater(x, y, k);
      }
    }
  }

  lemma ConcludingSteps(j: seq<Event>)
    ensures forall x, y :: Continues(j, x) && Concludes(x, y) ==> Concludes(j, y)
    ensures forall x :: Continues(j, x) ==> Concludes(j, x)
    ensures forall x :: Concludes(j, x) && Unsaved(x) ==> Continues(j, x)
  {
    hide Passes;
    forall x, y | Continues(j, x) && Concludes(x, y) ensures Concludes(j, y) {
      ContinuesOn(j, x, y);
    }
    forall x | Concludes(j, x) && Unsaved(x) ensures Continues(j, x) {
      NoSavePasses(x, |x| - 1);
    }
  }

  lemma ConcludesAt(j: seq<Event>, l: seq<Event>)
    requires Concludes(j, l)
    ensures j <= l
  {
  }

  lemma NoSavePasses(j: seq<Event>, k: nat)
    requires k < |j| && !IsResolved(j[k])
    ensures Passes(j, k)
  {
  }

  /** One save, or a failed attempt at it. */
  lemma SaveConcludes(j: seq<Event>, l: seq<Event>, cp: Checkpoint)
    requires l == j + [Saved(cp)] || l == j + [SaveErrored] || l == j + [Saved(cp), SaveErrored]
    ensures Concludes(j, l)
    ensures !Resolved(cp.status) || (Durable(j).Some? && Durable(j).value.status == cp.status) ==> Continues(j, l)
  {
    ViewOfPrefix(j, l, |j|);
  }

  /** c was submitted after the first `from` events. */
  predicate Submitted(j: seq<Event>, from: nat, c: Component) { exists k :: from <= k < |j| && j[k] == DeployCall(c) }

  /** Something known about c was adjusted after the first `from` events. */
  predicate Steered(j: seq<Event>, from: nat, c: Component) { exists k :: from <= k < |j| && j[k] == Steer(c) }

  /** The alias was found to lead to the deployment, or a call to move it followed at once. */
  predicate AliasSet(j: seq<Event>, k: nat, alias: string)
    requires k < |j|
  {
    j[k] == AliasRead(alias, true) || (j[k] == AliasRead(alias, false) && k + 1 < |j| && j[k + 1] == Steer(Frontend))
  }

  lemma AliasIsSet(j: seq<Event>, l: seq<Event>, alias: string)
    ensures l == j + [AliasRead(alias, true)] ==> AliasSet(l, |j|, alias)
    ensures l == j + [AliasRead(alias, false)] + [Steer(Frontend)] ==> AliasSet(l, |j|, alias)
  {
  }

  predicate SetSince(j: seq<Event>, from: nat, alias: string) { exists k :: from <= k < |j| && AliasSet(j, k, alias) }

  predicate Aligned(j: seq<Event>, from: nat, aliases: seq<string>) {
    forall alias :: alias in aliases ==> SetSince(j, from, alias)
  }

  /** An answer, or a failed save, on which a deployment call gives up. */
  predicate GivesUp(e: Event) {
    || (e.Errored? && e.task == Changing) || e == SaveErrored || e.QuotaRejected?
    || (e.JobRead? && e.owned.Some?)
  }

  predicate GaveUp(j: seq<Event>, from: nat) { exists k :: from <= k < |j| && GivesUp(j[k]) }

  /**
   What a deployment call consists of: c is submitted unless what it makes is known; then traffic is routed to the
   revision of a service, and the aliases of the front-end are moved.
   */
  predicate Made(aliases: seq<string>, j: seq<Event>, from: nat, c: Component, known: bool) {
    && (known || Submitted(j, from, c)) && (IsService(c) ==> Steered(j, from, c))
    && (c == Frontend ==> Aligned(j, from, aliases))
  }

  /** The deployment call was made, or gave up on an answer. */
  predicate TriedSince(aliases: seq<string>, j: seq<Event>, from: nat, c: Component, known: bool) {
    Made(aliases, j, from, c, known) || GaveUp(j, from) || (IsJob(c) && Submitted(j, from, c))
  }

  /** An earlier submission was found after the first `from` events. */
  predicate FoundSince(j: seq<Event>, from: nat, c: Component) { exists k :: from <= k < |j| && Finds(j[k], c) }

  predicate Finds(e: Event, c: Component) {
    (c == Frontend && e.Listed? && e.found != []) || (e.RevisionRead? && e.component == c && e.matched)
  }

  lemma NoneAligned(j: seq<Event>)
    ensures Aligned(j, |j|, [])
  {
  }

  lemma OneMoreAligned(j: seq<Event>, l: seq<Event>, from: nat, aliases: seq<string>, alias: string)
    requires from <= |j| < |l| && j <= l && Aligned(j, from, aliases) && AliasSet(l, |j|, alias)
    ensures Aligned(l, from, aliases + [alias])
  {
    AlignedFrom(aliases, j, l, from, from);
    assert SetSince(l, from, alias);
  }

  /** Each of these components that was not open before was tried. */
  predicate AllTried(aliases: seq<string>, j: seq<Event>, from: nat, base: map<Component, Entry>,
                     changed: seq<Component>) {
    forall c :: c in changed && c in base && !Open(base[c]) ==>
      TriedSince(aliases, j, from, c, InPlace(c, base[c].candidate))
  }

  lemma NoneTried(aliases: seq<string>, j: seq<Event>, base: map<Component, Entry>)
    ensures AllTried(aliases, j, |j|, base, [])
  {
  }

  /** Over more events and from an earlier one: what happened, happened. */
  lemma TriedFrom(aliases: seq<string>, j: seq<Event>, l: seq<Event>, from: nat, since: nat, c: Component, known: bool)
    requires since <= from && j <= l && TriedSince(aliases, j, from, c, known)
    ensures TriedSince(aliases, l, since, c, known)
  {
    hide GivesUp;
    assert forall k :: 0 <= k < |j| ==> l[k] == j[k];
    if Aligned(j, from, aliases) {
      AlignedFrom(aliases, j, l, from, since);
    }
    hide Aligned;
  }

  lemma AlignedFrom(aliases: seq<string>, j: seq<Event>, l: seq<Event>, from: nat, since: nat)
    requires since <= from && j <= l && Aligned(j, from, aliases)
    ensures Aligned(l, since, aliases)
  {
    forall alias | alias in aliases ensures SetSince(l, since, alias) {
      assert SetSince(j, from, alias);
      var k :| from <= k < |j| && AliasSet(j, k, alias);
      assert AliasSet(l, k, alias);
    }
  }

  lemma TriedEarlier(aliases: seq<string>, j: seq<Event>, l: seq<Event>, from: nat, since: nat,
                     base: map<Component, Entry>, changed: seq<Component>)
    requires since <= from && AllTried(aliases, j, from, base, changed) && j <= l
    ensures AllTried(aliases, l, since, base, changed)
  {
    hide TriedSince, Open, InPlace;
    forall c | c in changed && c in base && !Open(base[c])
      ensures TriedSince(aliases, l, since, c, InPlace(c, base[c].candidate))
    {
      TriedFrom(aliases, j, l, from, since, c, InPlace(c, base[c].candidate));
    }
  }

  lemma OneMoreTried(aliases: seq<string>, past: seq<Event>, j: seq<Event>, l: seq<Event>, base: map<Component, Entry>,
                     changed: seq<Component>, c: Component)
    requires past <= j <= l && AllTried(aliases, j, |past|, base, changed)
    requires c in base && !Open(base[c]) ==> TriedSince(aliases, l, |j|, c, InPlace(c, base[c].candidate))
    ensures AllTried(aliases, l, |past|, base, changed + [c])
  {
    hide TriedSince, Open, InPlace;
    TriedEarlier(aliases, j, l, |past|, |past|, base, changed);
    if c in base && !Open(base[c]) {
      TriedFrom(aliases, l, l, |j|, |past|, c, InPlace(c, base[c].candidate));
    }
  }

  lemma KnownMeans(aliases: seq<string>, j: seq<Event>, from: nat, c: Component, before: bool, after: bool)
    requires before ==> after
    ensures TriedSince(aliases, j, from, c, before) ==> TriedSince(aliases, j, from, c, after)
  {
    hide Submitted, GaveUp, Steered, Aligned;
  }

  /** What was begun after a resumption is made, or was found by it. */
  lemma ResumedMakes(aliases: seq<string>, past: seq<Event>, begun: seq<Event>, j: seq<Event>, c: Component,
                     before: bool, after: bool)
    requires Continues(past, begun) && Continues(begun, j) && TriedSince(aliases, j, |begun|, c, after)
    requires after ==> before || FoundSince(begun, |past|, c)
    ensures past <= begun <= j && Continues(past, j)
    ensures TriedSince(aliases, j, |past|, c, before || FoundSince(j, |past|, c))
    ensures Submitted(j, |begun|, c) ==> Submitted(j, |past|, c)
  {
    hide Continues, TriedSince, FoundSince, Submitted;
    ContinuesAt(past, begun);
    ContinuesAt(begun, j);
    ContinuesOn(past, begun, j);
    SubmittedLater(j, j, |begun|, |past|, c);
    TriedFrom(aliases, j, j, |begun|, |past|, c, after);
    FoundFrom(begun, j, |past|, c);
    KnownMeans(aliases, j, |past|, c, after, before || FoundSince(j, |past|, c));
  }

  lemma MoreGaveUp(j: seq<Event>, from: nat, since: nat)
    requires since <= from && GaveUp(j, from)
    ensures GaveUp(j, since)
  {
  }

  /** What was made stays made. */
  lemma StillMade(aliases: seq<string>, past: seq<Event>, made: seq<Event>, j: seq<Event>, c: Component, known: bool)
    requires Continues(past, made) && Continues(made, j) && TriedSince(aliases, made, |past|, c, known)
    ensures past <= made <= j && Continues(past, j) && TriedSince(aliases, j, |past|, c, known)
    ensures Submitted(made, |past|, c) ==> Submitted(j, |past|, c)
  {
    hide Continues, TriedSince, Submitted;
    ContinuesAt(past, made);
    ContinuesAt(made, j);
    ContinuesOn(past, made, j);
    SubmittedLater(made, j, |past|, |past|, c);
    TriedFrom(aliases, made, j, |past|, |past|, c, known);
  }

  lemma SubmittedLater(j: seq<Event>, l: seq<Event>, from: nat, since: nat, c: Component)
    requires j <= l && since <= from
    ensures Submitted(j, from, c) ==> Submitted(l, since, c)
  {
    if k :| from <= k < |j| && j[k] == DeployCall(c) {
      assert l[k] == j[k];
    }
  }

  lemma WorkHolds(plan: Plan, v: View, s: Checkpoint, c: Component)
    requires WorkingIn(plan, v, s, c)
    ensures HoldingIn(plan, v, s, c) && c in s.components
  {
  }

  lemma HeldIsThere(plan: Plan, v: View, s: Checkpoint, c: Component)
    requires HoldingIn(plan, v, s, c)
    ensures c in s.components
  {
  }

  lemma FoundFrom(j: seq<Event>, l: seq<Event>, from: nat, c: Component)
    requires j <= l
    ensures FoundSince(j, from, c) ==> FoundSince(l, from, c)
  {
    if k :| from <= k < |j| && Finds(j[k], c) {
      assert l[k] == j[k];
    }
  }

  /** The parts of a deployment call, over several steps. */
  lemma MakingSteps(j: seq<Event>)
    ensures forall aliases, x, y, c, known ::
      Continues(j, x) && Continues(x, y) && TriedSince(aliases, y, |x|, c, known) ==>
        TriedSince(aliases, y, |j|, c, known)
    ensures forall aliases, x, y, c, known ::
      TriedSince(aliases, x, |j|, c, known) && Continues(x, y) ==> TriedSince(aliases, y, |j|, c, known)
    ensures forall x, y, c :: Continues(j, x) && Steered(y, |x|, c) ==> Steered(y, |j|, c)
    ensures forall aliases, x, y :: Continues(j, x) && Continues(x, y) && Aligned(y, |x|, aliases) ==>
      Aligned(y, |j|, aliases)
    ensures forall x, y, c :: Continues(j, x) && FoundSince(y, |x|, c) ==> FoundSince(y, |j|, c)
    ensures forall x, y, c :: FoundSince(x, |j|, c) && Continues(x, y) ==> FoundSince(y, |j|, c)
  {
    hide TriedSince, Passes, Aligned, Finds;
    forall aliases, x, y, c, known | Continues(j, x) && Continues(x, y) && TriedSince(aliases, y, |x|, c, known)
      ensures TriedSince(aliases, y, |j|, c, known)
    {
      TriedFrom(aliases, y, y, |x|, |j|, c, known);
    }
    forall aliases, x, y, c, known | TriedSince(aliases, x, |j|, c, known) && Continues(x, y)
      ensures TriedSince(aliases, y, |j|, c, known)
    {
      TriedFrom(aliases, x, y, |j|, |j|, c, known);
    }
    forall aliases, x, y | Continues(j, x) && Continues(x, y) && Aligned(y, |x|, aliases)
      ensures Aligned(y, |j|, aliases) {
      AlignedFrom(aliases, y, y, |x|, |j|);
    }
    forall x, y, c | FoundSince(x, |j|, c) && Continues(x, y) ensures FoundSince(y, |j|, c) {
      var k :| |j| <= k < |x| && Finds(x[k], c);
      assert y[k] == x[k];
    }
  }

  lemma ContinuesSteps(j: seq<Event>)
    ensures Continues(j, j) && forall x, y :: Continues(j, x) && Continues(x, y) ==> Continues(j, y)
    ensures forall x :: Continues(j, x) ==> |j| <= |x|
    ensures forall x, y, c :: Continues(j, x) && Submitted(y, |x|, c) ==> Submitted(y, |j|, c)
    ensures forall x, y, c :: Submitted(x, |j|, c) && Continues(x, y) ==> Submitted(y, |j|, c)
    ensures forall x, y :: Continues(j, x) && GaveUp(y, |x|) ==> GaveUp(y, |j|)
    ensures forall x, y :: GaveUp(x, |j|) && Continues(x, y) ==> GaveUp(y, |j|)
  {
    hide Passes;
    forall x, y | Continues(j, x) && Continues(x, y) ensures Continues(j, y) {
      ContinuesOn(j, x, y);
    }
    forall x, y, c | Submitted(x, |j|, c) && Continues(x, y) ensures Submitted(y, |j|, c) {
      var k :| |j| <= k < |x| && x[k] == DeployCall(c);
      assert y[k] == DeployCall(c);
    }
    forall x, y | GaveUp(x, |j|) && Continues(x, y) ensures GaveUp(y, |j|) {
      var k :| |j| <= k < |x| && GivesUp(x[k]);
      assert GivesUp(y[k]);
    }
  }

  lemma LastEvent(j: seq<Event>, e: Event)
    ensures GivesUp(e) ==> GaveUp(j + [e], |j|)
    ensures e.DeployCall? ==> Submitted(j + [e], |j|, e.component)
    ensures e.Steer? ==> Steered(j + [e], |j|, e.component)
    ensures e.Listed? && e.found != [] ==> FoundSince(j + [e], |j|, Frontend)
    ensures e.RevisionRead? && e.matched ==> FoundSince(j + [e], |j|, e.component)
  {
    assert (j + [e])[|j|] == e;
  }

  lemma SaveGaveUp(j: seq<Event>, l: seq<Event>, cp: Checkpoint)
    requires l == j + [SaveErrored] || l == j + [Saved(cp), SaveErrored]
    ensures GaveUp(l, |j|)
  {
    assert l[|l| - 1] == SaveErrored;
  }

  /** The entries differ in the configuration record at most. */
  predicate OnlyConfig(a: Entry, b: Entry) { b == a.(candidate := a.candidate.(config := b.candidate.config)) }

  /** What the deployment call is to make is known already. */
  predicate InPlace(c: Component, candidate: Candidate) {
    (c == Frontend && candidate.deployment.Some?) || (IsService(c) && candidate.revision.Some?)
  }

  lemma NotInPlace(candidate: Candidate)
    ensures candidate.deployment.None? ==> !InPlace(Frontend, candidate)
  {
  }

  lemma ContinuesSnoc(j: seq<Event>, e: Event)
    requires !IsResolved(e)
    ensures Continues(j, j + [e])
  {
  }

  lemma ContinuesAt(j: seq<Event>, l: seq<Event>)
    requires Continues(j, l)
    ensures j <= l && |j| <= |l| && forall i :: 0 <= i < |j| ==> l[i] == j[i]
  {
  }

  lemma ErrorBlames(j: seq<Event>, c: Component, e: Exc)
    ensures EndsWith(j, Errored(c, Changing, e)) ==> Blamed(j, c, e)
    ensures Unsaved(j) ==> Blamed(j, c, FAILED)
  {
  }

  /** A deployment call that raised: what raised an answer nobody can represent is the last event. */
  predicate Blamed(j: seq<Event>, c: Component, e: Exc) {
    NothingRead(j) && (e.Unrepresentable? ==> EndsWith(j, Errored(c, Changing, e)))
  }

  predicate ListsOrFails(e: Event) { e.Listed? || IsError(e, Frontend, Discovering) }

  /**
   The look-up found that the rejected submission left nothing: a retry is armed durably, and the attempt ends unknown.
   */
  predicate RetryArmed(j: seq<Event>, s: Checkpoint, record: QuotaRecord) {
    EndsWith(j, Saved(s)) && RetryPending(s) && record in History(s)
  }

  /**
   Event k is a reported rejection. The deployments are listed right after it, and if none is there the attempt ends
   unknown with a retry armed, unless that cannot be saved.
   */
  predicate RejectionHandled(j: seq<Event>, k: nat, s: Checkpoint, failure: Option<Exc>) {
    && k + 1 < |j| && j[k].QuotaRejected? && ListsOrFails(j[k + 1])
    && (j[k + 1] == Listed([]) ==>
          failure.Some? && (Unsaved(j) || (LeavesUnknown(failure.value) && RetryArmed(j, s, j[k].record))))
  }

  ghost predicate HandledRejection(j: seq<Event>, from: nat, s: Checkpoint, failure: Option<Exc>) {
    exists k: nat :: from <= k && RejectionHandled(j, k, s, failure)
  }

  lemma HandledSince(j: seq<Event>, since: nat, from: nat, s: Checkpoint, failure: Option<Exc>)
    requires from <= since
    ensures HandledRejection(j, since, s, failure) ==> HandledRejection(j, from, s, failure)
  {
    hide RejectionHandled;
  }

  /** A rejection that was not followed by an empty listing stays handled, whatever comes next. */
  lemma HandledOnwards(j: seq<Event>, l: seq<Event>, from: nat, s: Checkpoint, t: Checkpoint, failure: Option<Exc>)
    requires Continues(j, l)
    ensures HandledRejection(j, from, s, None) ==> HandledRejection(l, from, t, failure)
  {
    if HandledRejection(j, from, s, None) {
      var k: nat :| from <= k && RejectionHandled(j, k, s, None);
      assert RejectionHandled(l, k, t, failure);
    }
  }

  lemma SameLength(j: seq<Event>, l: seq<Event>)
    requires Continues(j, l)
    ensures |l| >= |j| && (|l| == |j| ==> l == j)
  {
  }

  lemma NewRejection(j: seq<Event>, l: seq<Event>, m: seq<Event>, s: Checkpoint, failure: Option<Exc>)
    requires Continues(j, l)
    requires Rejections(l) > Rejections(j) && l != [] ==> RejectionHandled(m, |l| - 1, s, failure)
    ensures Rejections(l) > Rejections(j) ==> HandledRejection(m, |j|, s, failure)
  {
    hide Continues, Rejections, RejectionHandled;
    if Rejections(l) > Rejections(j) {
      SameLength(j, l);
    }
  }

  /** There is something an earlier submission may have left to be found. */
  predicate Sought(c: Component, candidate: Candidate) {
    || (c == DocumentImport && candidate.createIfAbsent == Some(true))
    || (IsService(c) && candidate.revision.None? && ConfigStageOf(candidate) == Some(Published))
    || (c == Frontend && candidate.deployment.None?)
  }

  /** The look-up of what an earlier submission of c left. */
  predicate LooksUp(e: Event, c: Component) {
    || (c == DocumentImport && e in {JobRead(None), JobRead(Some(true))})
    || (IsService(c) && e.RevisionRead? && e.component == c)
    || (c == Frontend && e.Listed?)
  }

  /** The look-up was made after the first `from` events. */
  predicate LookedUp(j: seq<Event>, from: nat, c: Component) { exists k :: from <= k < |j| && LooksUp(j[k], c) }

  lemma FoundStays(j: seq<Event>, l: seq<Event>, from: nat, c: Component)
    requires Continues(j, l)
    ensures LookedUp(j, from, c) ==> LookedUp(l, from, c)
  {
    if LookedUp(j, from, c) {
      var k :| from <= k < |j| && LooksUp(j[k], c);
      assert l[k] == j[k];
    }
  }

  /** n readings of the event, and what ended them. */
  function Readings(e: Event, n: nat, end: seq<Event>): (r: seq<Event>)
    ensures |r| == n + |end|
  {
    seq(n, i => e) + end
  }

  lemma ReadingsEnd(j: seq<Event>, e: Event, n: nat)
    ensures EndsInRun(j + Readings(e, n, []), n, e)
    ensures forall x :: j + Readings(e, n, []) + [x] == j + Readings(e, n, [x])
    ensures j + Readings(e, n, [e]) == j + Readings(e, n + 1, [])
  {
  }

  /**
   Rollback calls in the order of compensation, last of the plan first and so one each, none outside what was changed.
   */
  predicate CallsIn(calls: seq<Component>, changed: seq<Component>) {
    Descending(calls) && forall c :: c in calls ==> c in changed
  }

  /**
   A reading of the prior: it matches, or raises, or is answered at once by the rollback call to that prior.
   */
  predicate PriorRead(j: seq<Event>, k: nat, c: Component, prior: Prior) {
    && k < |j|
    && (j[k] == ReadPrior(c, prior, true) || IsError(j[k], c, Observing)
        || (j[k] == ReadPrior(c, prior, false) && k + 1 < |j| && j[k + 1] == RollbackCall(c, prior)))
  }

  /**
   A compensation of c begun by event k: a durable marker, the first reading of the prior, and the call if it differs.
   */
  predicate Undone(j: seq<Event>, k: nat, c: Component, prior: Prior) {
    && k < |j| && j[k].Saved? && c in j[k].cp.components && j[k].cp.components[c].status == RollbackPending
    && PriorRead(j, k + 1, c, prior)
  }

  /**
   The prior is known not to be back: twelve readings in a row found something else, or the first reading failed
   plainly.
   */
  predicate PriorMissed(j: seq<Event>, c: Component, prior: Prior) {
    || EndsInRun(j, 12, ReadPrior(c, prior, false))
    || (j != [] && IsError(j[|j| - 1], c, Observing) && !LeavesUnknown(j[|j| - 1].exc))
  }

  /** The status a compensation ends with is what the last reading says. */
  predicate SettledAs(j: seq<Event>, c: Component, prior: Prior, end: EntryStatus) {
    && end in {EntryRolledBack, RollbackFailed, RollbackUnknown} && j != []
    && (end == EntryRolledBack <==> EndsWith(j, ReadPrior(c, prior, true)))
    && (end == RollbackFailed <==> PriorMissed(j, c, prior))
    && (end == RollbackUnknown ==> j[|j| - 1].Errored? && j[|j| - 1].component == c)
  }

  /** Event m records the end of c's compensation. */
  predicate Concluded(j: seq<Event>, m: nat, c: Component, prior: Prior, end: EntryStatus) {
    && m < |j| && j[m].Saved? && c in j[m].cp.components && j[m].cp.components[c].status == end
    && SettledAs(j[..m], c, prior, end)
  }

  /**
   It was compensated after the first `from` events: called if and only if the first reading differed, and recorded as
   ended.
   */
  ghost predicate CompensatedSince(j: seq<Event>, from: nat, c: Component, prior: Prior, called: bool,
                                   end: EntryStatus) {
    exists k: nat, m: nat ::
      from <= k < m && Undone(j, k, c, prior) && (called <==> j[k + 1] == ReadPrior(c, prior, false)) && Concluded(j, m, c, prior, end)
  }

  /** Every given component among `done` that was started has been compensated since, with exactly these calls. */
  ghost predicate Accounted(j: seq<Event>, from: nat, a: map<Component, Entry>, b: map<Component, Entry>,
                            components: set<Component>, done: set<Component>, calls: seq<Component>) {
    forall c :: c in a && c in components && c in done && ToRestore(a[c]) ==>
      c in b && CompensatedSince(j, from, c, a[c].prior, c in calls, b[c].status)
  }

  lemma BroughtBack(j: seq<Event>, k: nat, m: nat, c: Component, prior: Prior, end: EntryStatus)
    requires k < m < |j| && j[k].Saved? && c in j[k].cp.components && j[k].cp.components[c].status == RollbackPending
    requires PriorRead(j, k + 1, c, prior) && Concluded(j, m, c, prior, end)
    ensures CompensatedSince(j, k, c, prior, j[k + 1] == ReadPrior(c, prior, false), end)
  {
    assert Undone(j, k, c, prior);
  }

  lemma CompensatedLater(j: seq<Event>, l: seq<Event>, since: nat, from: nat, c: Component, prior: Prior, called: bool,
                         end: EntryStatus)
    requires j <= l && from <= since && CompensatedSince(j, since, c, prior, called, end)
    ensures CompensatedSince(l, from, c, prior, called, end)
  {
    hide SettledAs;
    var k: nat, m: nat :| since <= k < m && Undone(j, k, c, prior)
      && (called <==> j[k + 1] == ReadPrior(c, prior, false)) && Concluded(j, m, c, prior, end);
    assert Undone(l, k, c, prior);
    assert l[..m] == j[..m];
    assert Concluded(l, m, c, prior, end);
  }

  lemma AccountedLater(j: seq<Event>, l: seq<Event>, from: nat, a: map<Component, Entry>, b: map<Component, Entry>,
                       b': map<Component, Entry>, components: set<Component>, done: set<Component>, calls: seq<Component>,
                       more: seq<Component>, c: Component)
    requires j <= l && Accounted(j, from, a, b, components, done, calls) && c !in done && (more == [] || more == [c])
    requires b'.Keys == b.Keys && forall d :: d in b && d != c ==> b'[d] == b[d]
    requires c in a && c in components && ToRestore(a[c]) ==>
      c in b' && CompensatedSince(l, from, c, a[c].prior, more == [c], b'[c].status)
    requires c in calls ==> c in done
    ensures Accounted(l, from, a, b', components, done + {c}, calls + more)
  {
    hide CompensatedSince;
    forall d | d in a && d in components && d in done + {c} && ToRestore(a[d])
      ensures d in b' && CompensatedSince(l, from, d, a[d].prior, d in calls + more, b'[d].status)
    {
      if d != c {
        CompensatedLater(j, l, from, from, d, a[d].prior, d in calls, b[d].status);
      }
    }
  }

  /**
   Event h is the save in which the error handler records c as failed or unknown, and the events before it decide which.
   Twelve readings that found something else never end unknown, and an answer that leaves the outcome open never as
   failed.
   */
  predicate Handled(j: seq<Event>, h: nat, c: Component, base: map<Component, Entry>, status: EntryStatus) {
    && h < |j| && j[h].Saved? && c in j[h].cp.components && j[h].cp.components[c].status == status && c in base
    && var candidate, pending := j[h].cp.components[c].candidate, Open(base[c]);
    && (|| Unsaved(j[..h])
        || ((status == EntryUnknown <==> !KnownFailure(j[..h], c, candidate, pending))
            && (status == EntryUnknown ==> NoAnswer(j[..h], c, candidate))))
  }

  ghost predicate FailedSince(j: seq<Event>, from: nat, c: Component, base: map<Component, Entry>,
                              status: EntryStatus) {
    exists h: nat :: from <= h && Handled(j, h, c, base, status)
  }

  lemma DecisionIsHandled(j: seq<Event>, c: Component, base: map<Component, Entry>, e: Exc)
    requires j != [] && j[|j| - 1].Saved? && c in base && c in j[|j| - 1].cp.components
    requires var entry := j[|j| - 1].cp.components[c];
             && Decides(j[..|j| - 1], c, entry.candidate, Open(base[c]), e)
             && entry.status == if LeavesUnknown(e) then EntryUnknown else EntryFailed
    ensures Handled(j, |j| - 1, c, base, if LeavesUnknown(e) then EntryUnknown else EntryFailed)
  {
    hide KnownFailure, NoAnswer;
  }

  lemma HandledLater(j: seq<Event>, l: seq<Event>, h: nat, from: nat, c: Component, base: map<Component, Entry>,
                     status: EntryStatus)
    requires j <= l && from <= h && Handled(j, h, c, base, status)
    ensures FailedSince(l, from, c, base, status)
  {
    hide KnownFailure, NoAnswer;
    assert l[..h] == j[..h];
    assert Handled(l, h, c, base, status);
  }

  lemma HandledEarlier(j: seq<Event>, since: nat, from: nat, c: Component, base: map<Component, Entry>,
                       status: EntryStatus)
    requires from <= since && FailedSince(j, since, c, base, status)
    ensures FailedSince(j, from, c, base, status)
  {
    hide Handled;
  }

  lemma StillAccounted(j: seq<Event>, l: seq<Event>, since: nat, from: nat, a: map<Component, Entry>,
                       b: map<Component, Entry>,
                       components: set<Component>, done: set<Component>, calls: seq<Component>)
    requires j <= l && from <= since && Accounted(j, since, a, b, components, done, calls)
    ensures Accounted(l, from, a, b, components, done, calls)
  {
    hide CompensatedSince;
    forall d | d in a && d in components && d in done && ToRestore(a[d])
      ensures d in b && CompensatedSince(l, from, d, a[d].prior, d in calls, b[d].status)
    {
      CompensatedLater(j, l, since, from, d, a[d].prior, d in calls, b[d].status);
    }
  }

  lemma CompensatedEarlier(j: seq<Event>, since: nat, from: nat, base: map<Component, Entry>, b: map<Component, Entry>,
                           changed: seq<Component>, calls: seq<Component>)
    requires AllCompensated(j, since, base, b, changed, calls) && from <= since
    ensures AllCompensated(j, from, base, b, changed, calls)
  {
    hide CompensatedSince, CallsIn;
    forall c | c in changed ensures CompensatedSince(j, from, c, base[c].prior, c in calls, b[c].status) {
      CompensatedLater(j, j, since, from, c, base[c].prior, c in calls, b[c].status);
    }
  }

  lemma NothingCalled(changed: seq<Component>)
    ensures CallsIn([], changed)
  {
  }

  /**
   Every changed component was compensated since, with exactly these calls, last of the plan first, and ended as its
   last reading says.
   */
  ghost predicate AllCompensated(j: seq<Event>, from: nat, base: map<Component, Entry>, b: map<Component, Entry>,
                                 changed: seq<Component>, calls: seq<Component>) {
    && CallsIn(calls, changed)
    && forall c :: c in changed ==>
         c in base && c in b && CompensatedSince(j, from, c, base[c].prior, c in calls, b[c].status)
  }

  lemma NoneAccounted(j: seq<Event>, from: nat, a: map<Component, Entry>, components: set<Component>)
    ensures Accounted(j, from, a, a, components, {}, [])
  {
  }

  /** Every selected component is verified. */
  predicate Complete(plan: Plan, m: map<Component, Entry>) {
    m.Keys == Elements(plan.selected) && forall c :: c in m ==> m[c].status == Verified
  }

  /** The chosen components among the first i of the selection are verified. */
  predicate ChosenVerified(selected: seq<Component>, i: nat, chosen: set<Component>, b: map<Component, Entry>)
    requires i <= |selected|
  {
    forall k :: 0 <= k < i && selected[k] in chosen ==> selected[k] in b && b[selected[k]].status == Verified
  }

  lemma ChosenStep(selected: seq<Component>, i: nat, chosen: set<Component>, a: map<Component, Entry>,
                   b: map<Component, Entry>)
    requires Ascending(selected) && i < |selected| && ChosenVerified(selected, i, chosen, a)
    requires a == b || OnlyEntry(a, b, selected[i])
    requires selected[i] in chosen ==> selected[i] in b && b[selected[i]].status == Verified
    ensures ChosenVerified(selected, i + 1, chosen, b)
  {
    assert forall k :: 0 <= k < i ==> Index(selected[k]) < Index(selected[i]);
  }

  /** The changed components are, in order, among the chosen of the first i. */
  predicate ChangedAmong(changed: seq<Component>, selected: seq<Component>, i: nat, chosen: set<Component>)
    requires i <= |selected|
  {
    Ascending(changed) && forall c :: c in changed ==> c in chosen && c in selected[..i]
  }

  lemma ChangedStep(changed: seq<Component>, selected: seq<Component>, i: nat, chosen: set<Component>)
    requires Ascending(selected) && i < |selected| && ChangedAmong(changed, selected, i, chosen)
    ensures ChangedAmong(changed, selected, i + 1, chosen) && selected[i] !in changed
    ensures selected[i] in chosen ==> ChangedAmong(changed + [selected[i]], selected, i + 1, chosen)
    ensures Within(changed, selected, chosen)
    ensures selected[i] in chosen ==> Within(changed + [selected[i]], selected, chosen)
  {
    assert forall k :: 0 <= k < i ==> Index(selected[k]) < Index(selected[i]);
    assert selected[..i + 1] == selected[..i] + [selected[i]];
    forall c | c in changed ensures Index(c) < Index(selected[i]) {
      assert c in selected[..i];
    }
  }

  /** In plan order, chosen and selected. */
  predicate Within(changed: seq<Component>, selected: seq<Component>, chosen: set<Component>) {
    Ascending(changed) && forall c :: c in changed ==> c in chosen && c in selected
  }

  predicate AllRolledBack(b: map<Component, Entry>, changed: seq<Component>) {
    forall c :: c in changed && c in b ==> b[c].status == EntryRolledBack
  }

  /** Entries a restore of `components` acts on. */
  predicate ToRestore(e: Entry) { e.status != Unstarted && e.status != EntryRolledBack }

  /** One entry after its compensation: confirmed, or left marked. */
  predicate Compensation(a: Entry, b: Entry) {
    b == a.(status := b.status) && b.status in {EntryRolledBack, RollbackUnknown, RollbackFailed}
  }

  /** The entries of `done` have been dealt with; every other entry is untouched. */
  predicate RestoredIn(a: map<Component, Entry>, b: map<Component, Entry>, components: set<Component>,
                       done: set<Component>) {
    && a.Keys == b.Keys
    && forall c :: c in a ==>
         if c in done && c in components && ToRestore(a[c]) then Compensation(a[c], b[c]) else b[c] == a[c]
  }

  /** Every given component among `done` is back at its prior, or was never started. */
  predicate AllBack(b: map<Component, Entry>, components: set<Component>, done: set<Component>) {
    forall c :: c in b && c in done && c in components ==> !ToRestore(b[c])
  }

  lemma RestoreStep(a: map<Component, Entry>, b: map<Component, Entry>, b': map<Component, Entry>,
                    components: set<Component>, done: set<Component>, c: Component)
    requires RestoredIn(a, b, components, done) && c in a && c !in done && b'.Keys == b.Keys
    requires forall d :: d in b && d != c ==> b'[d] == b[d]
    requires if c in components && ToRestore(b[c]) then Compensation(b[c], b'[c]) else b'[c] == b[c]
    ensures RestoredIn(a, b', components, done + {c})
    ensures AllBack(b', components, done + {c}) <==>
      AllBack(b, components, done) && (c in components ==> !ToRestore(b'[c]))
  {
  }

  /** Calls made so far, in descending plan order, each for an entry that was to be restored. */
  predicate CallsFor(calls: seq<Component>, a: map<Component, Entry>, components: set<Component>,
                     done: set<Component>) {
    Descending(calls) && forall c :: c in calls ==> c in done && c in components && c in a && ToRestore(a[c])
  }

  lemma NothingRestored(a: map<Component, Entry>, components: set<Component>)
    ensures RestoredIn(a, a, components, {}) && AllBack(a, components, {})
  {
  }

  lemma NoCalls(a: map<Component, Entry>, components: set<Component>, done: set<Component>)
    ensures CallsFor([], a, components, done)
  {
  }

  lemma CallsWithin(calls: seq<Component>, a: map<Component, Entry>, components: set<Component>,
                    done: set<Component>, more: set<Component>)
    requires CallsFor(calls, a, components, done) && done <= more
    ensures CallsFor(calls, a, components, more)
  {
  }

  /** c was restored, with the calls `more`. */
  lemma OneMoreRestored(j: seq<Event>, l: seq<Event>, from: nat, a: map<Component, Entry>, b: map<Component, Entry>,
                        b': map<Component, Entry>, components: set<Component>, done: set<Component>,
                        calls: seq<Component>, more: seq<Component>, c: Component)
    requires j <= l && from <= |j| && Accounted(j, from, a, b, components, done, calls)
    requires RestoredIn(a, b, components, done)
    requires c in b && c !in done && (c in calls ==> c in done) && (more == [] || more == [c])
    requires c in components && ToRestore(b[c])
    requires b'.Keys == b.Keys && (forall d :: d in b && d != c ==> b'[d] == b[d]) && Compensation(b[c], b'[c])
    requires CompensatedSince(l, |j|, c, b[c].prior, more == [c], b'[c].status)
    ensures Accounted(l, from, a, b', components, done + {c}, calls + more) && RestoredIn(a, b', components, done + {c})
    ensures AllBack(b', components, done + {c}) <==> AllBack(b, components, done) && b'[c].status == EntryRolledBack
  {
    hide Accounted, RestoredIn, AllBack, CompensatedSince;
    UntouchedYet(a, b, components, done, c);
    CompensatedLater(l, l, |j|, from, c, a[c].prior, more == [c], b'[c].status);
    AccountedLater(j, l, from, a, b, b', components, done, calls, more, c);
    RestoreStep(a, b, b', components, done, c);
  }

  /** There was nothing to restore of c. */
  lemma NothingToRestore(j: seq<Event>, from: nat, a: map<Component, Entry>, b: map<Component, Entry>,
                         components: set<Component>, done: set<Component>, calls: seq<Component>, c: Component)
    requires Accounted(j, from, a, b, components, done, calls) && RestoredIn(a, b, components, done)
    requires CallsFor(calls, a, components, done)
    requires c !in done && (c in calls ==> c in done) && (c in b && c in components ==> !ToRestore(b[c]))
    ensures Accounted(j, from, a, b, components, done + {c}, calls) && RestoredIn(a, b, components, done + {c})
    ensures CallsFor(calls, a, components, done + {c})
    ensures AllBack(b, components, done + {c}) <==> AllBack(b, components, done)
  {
    hide Accounted, AllBack, CompensatedSince, CallsFor;
    assert a.Keys == b.Keys;
    hide RestoredIn;
    if c in b {
      UntouchedYet(a, b, components, done, c);
      RestoreStep(a, b, b, components, done, c);
    } else {
      AbsentStep(a, b, components, done, c);
    }
    CallsWithin(calls, a, components, done, done + {c});
    AccountedLater(j, j, from, a, b, b, components, done, calls, [], c);
    assert calls + [] == calls;
  }

  lemma CallsStep(calls: seq<Component>, more: seq<Component>, a: map<Component, Entry>, components: set<Component>,
                  done: set<Component>, c: Component)
    requires CallsFor(calls, a, components, done) && c in components && c in a && ToRestore(a[c])
    requires (more == [] || more == [c]) && forall d :: d in done ==> Index(c) < Index(d)
    ensures CallsFor(calls + more, a, components, done + {c})
  {
  }

  lemma CallsAmong(calls: seq<Component>, a: map<Component, Entry>, components: set<Component>, done: set<Component>,
                   c: Component)
    requires CallsFor(calls, a, components, done)
    ensures c in calls ==> c in done
  {
  }

  lemma UntouchedYet(a: map<Component, Entry>, b: map<Component, Entry>, components: set<Component>,
                     done: set<Component>, c: Component)
    requires RestoredIn(a, b, components, done) && c in b && c !in done
    ensures c in a && a[c] == b[c]
  {
  }

  lemma AbsentStep(a: map<Component, Entry>, b: map<Component, Entry>, components: set<Component>,
                   done: set<Component>, c: Component)
    requires RestoredIn(a, b, components, done) && c !in b
    ensures RestoredIn(a, b, components, done + {c})
    ensures AllBack(b, components, done + {c}) <==> AllBack(b, components, done)
  {
  }

  lemma SuffixStep(s: seq<Component>, i: nat)
    requires Ascending(s) && i < |s|
    ensures Elements(s[i..]) == Elements(s[i + 1..]) + {s[i]} && s[i] !in Elements(s[i + 1..])
    ensures Elements(s[i..]) <= Elements(s)
    ensures forall d :: d in Elements(s[i + 1..]) ==> Index(s[i]) < Index(d)
  {
    assert s[i..] == [s[i]] + s[i + 1..];
  }

  /** b is a with c's entry replaced. */
  predicate OnlyEntry(a: map<Component, Entry>, b: map<Component, Entry>, c: Component) {
    && a.Keys == b.Keys && c in a && a[c].prior == b[c].prior
    && forall d :: d in a && d != c ==> a[d] == b[d]
  }

  lemma StatusOnly(m: map<Component, Entry>, c: Component, status: EntryStatus)
    requires c in m
    ensures OnlyEntry(m, m[c := m[c].(status := status)], c)
  {
  }

  lemma OnlyEntrySteps(a: map<Component, Entry>, c: Component)
    requires c in a
    ensures OnlyEntry(a, a, c)
    ensures forall x, y :: OnlyEntry(a, x, c) && OnlyEntry(x, y, c) ==> OnlyEntry(a, y, c)
    ensures forall x :: OnlyEntry(a, x, c) ==> c in x && x.Keys == a.Keys && x[c].prior == a[c].prior
  {
  }

  lemma OnlyChanges(a: map<Component, Entry>, s: Checkpoint, t: Checkpoint, c: Component)
    requires OnlyEntry(a, s.components, c) && SameBut(s, t, c)
    ensures OnlyEntry(a, t.components, c) && s.status == t.status
  {
  }

  lemma OneMoreDeployed(base: map<Component, Entry>, a: map<Component, Entry>, b: map<Component, Entry>,
                        changed: seq<Component>, c: Component)
    requires DeployedIn(base, a, changed) && OnlyEntry(a, b, c) && c !in changed
    ensures b[c].status == Verified ==> DeployedIn(base, b, changed + [c])
    ensures BrokenIn(base, b, changed + [c], b[c].status)
  {
    assert (changed + [c])[..|changed|] == changed;
  }

  /** The deploy loop cannot take up an entry whose compensation is open. */
  predicate Refuses(e: Entry) { InRecovery(e) }

  /** The chosen components among the first i that the deploy loop takes up rather than skips. */
  function Taken(selected: seq<Component>, i: nat, chosen: set<Component>, base: map<Component, Entry>,
                 reactivate: bool): seq<Component>
    requires i <= |selected|
  {
    if i == 0 then []
    else
      var c := selected[i - 1];
      Taken(selected, i - 1, chosen, base, reactivate) +
      (if c in chosen && c in base && (base[c].status != Verified || reactivate) then [c] else [])
  }

  /** i is the first position whose chosen entry the loop refuses. */
  predicate RefusedAt(selected: seq<Component>, i: nat, chosen: set<Component>, base: map<Component, Entry>) {
    && i < |selected| && selected[i] in chosen && selected[i] in base && Refuses(base[selected[i]])
    && forall k :: 0 <= k < i && selected[k] in chosen ==> selected[k] in base && !Refuses(base[selected[k]])
  }

  /** The loop passes the first i entries. */
  ghost predicate NoneRefused(selected: seq<Component>, i: nat, chosen: set<Component>, base: map<Component, Entry>)
    requires i <= |selected|
  {
    forall k :: 0 <= k < i && selected[k] in chosen ==> selected[k] in base && !Refuses(base[selected[k]])
  }

  lemma TakenStep(selected: seq<Component>, i: nat, chosen: set<Component>, base: map<Component, Entry>,
                  reactivate: bool)
    requires i < |selected| && NoneRefused(selected, i, chosen, base)
    ensures var c := selected[i];
            && (c in chosen && c in base && (base[c].status != Verified || reactivate) ==>
                  Taken(selected, i + 1, chosen, base, reactivate) == Taken(selected, i, chosen, base, reactivate) + [c])
            && (!(c in chosen && c in base && (base[c].status != Verified || reactivate)) ==>
                  Taken(selected, i + 1, chosen, base, reactivate) == Taken(selected, i, chosen, base, reactivate))
            && (c in chosen && c in base && Refuses(base[c]) ==> RefusedAt(selected, i, chosen, base))
            && ((c in chosen ==> c in base && !Refuses(base[c])) ==> NoneRefused(selected, i + 1, chosen, base))
  {
  }

  /**
   A refusal leaves nothing half done exactly when every chosen component before the refused one is
   already verified and need not be reactivated. Those taken up before it stay deployed.
   */
  lemma {:induction false} RefusalIsClean(selected: seq<Component>, i: nat, chosen: set<Component>,
                                          base: map<Component, Entry>, reactivate: bool)
    requires i <= |selected| && forall k :: 0 <= k < i && selected[k] in chosen ==> selected[k] in base
    ensures Taken(selected, i, chosen, base, reactivate) == [] <==>
              forall k :: 0 <= k < i && selected[k] in chosen ==> base[selected[k]].status == Verified && !reactivate
  {
    if i > 0 {
      RefusalIsClean(selected, i - 1, chosen, base, reactivate);
    }
  }

  /**
   After an incomplete restore, `deploy` takes bff up and then refuses the front-end: bff stays deployed, uncompensated.
   */
  lemma RefusalLeavesChanges(before: Prior)
    ensures var selected := [Bff, Frontend];
            var a := map[Bff := Entry(Verified, before, EMPTY_CANDIDATE, EMPTY_QUOTA),
                         Frontend := Entry(EntryUnknown, before, EMPTY_CANDIDATE, EMPTY_QUOTA)];
            var b := map[Bff := a[Bff].(status := EntryRolledBack), Frontend := a[Frontend].(status := RollbackFailed)];
            RestoredIn(a, b, {Bff, Frontend}, Elements(selected)) &&
            RefusedAt(selected, 1, {Bff, Frontend}, b) && Taken(selected, 1, {Bff, Frontend}, b, false) == [Bff]
  {
  }

  /**
   A compensated attempt counts as resolved. It has no open entry left exactly when the invocation that
   failed had itself taken up every entry that was open before it.
   */
  lemma CompensationMayLeaveOpen(base: map<Component, Entry>, b: map<Component, Entry>, changed: seq<Component>)
    requires CompensatedIn(base, b, changed)
    ensures (forall c :: c in b ==> !Open(b[c])) <==> (forall c :: c in base && Open(base[c]) ==> c in changed)
  {
    forall c | c in base ensures Open(b[c]) <==> Open(base[c]) && c !in changed {
    }
  }

  /**
   Worker is unknown; a deploy of bff alone fails and is compensated: the attempt counts as resolved, Worker is still
   open.
   */
  lemma CompensationLeavesWorkerOpen(before: Prior)
    ensures var a := map[Bff := Entry(Unstarted, before, EMPTY_CANDIDATE, EMPTY_QUOTA),
                         Worker := Entry(EntryUnknown, before, EMPTY_CANDIDATE, EMPTY_QUOTA)];
            var b := map[Bff := a[Bff].(status := EntryRolledBack), Worker := a[Worker]];
            Taken([Bff, Worker], 2, {Bff}, a, false) == [Bff] && CompensatedIn(a, b, [Bff]) && Open(b[Worker])
  {
    var a := map[Bff := Entry(Unstarted, before, EMPTY_CANDIDATE, EMPTY_QUOTA),
                 Worker := Entry(EntryUnknown, before, EMPTY_CANDIDATE, EMPTY_QUOTA)];
    assert Taken([Bff, Worker], 0, {Bff}, a, false) == [];
    assert Taken([Bff, Worker], 1, {Bff}, a, false) == [Bff];
  }

  /**
   Wherever a deploy that takes up `taken` fails: every way of compensating what it had taken up leaves nothing open.
   */
  ghost predicate NeverLeavesOpen(base: map<Component, Entry>, taken: seq<Component>) {
    forall n, b :: 1 <= n <= |taken| && CompensatedIn(base, b, taken[..n]) ==> forall c :: c in b ==> !Open(b[c])
  }

  /**
   Known before the call: compensation is sure to leave nothing open exactly if what is open is the first taken up.
   */
  lemma OnlyTheFirstMayBeOpen(selected: seq<Component>, chosen: set<Component>, base: map<Component, Entry>,
                              reactivate: bool)
    ensures var taken := Taken(selected, |selected|, chosen, base, reactivate);
            NeverLeavesOpen(base, taken) <==> taken == [] || forall c :: c in base && Open(base[c]) ==> c == taken[0]
  {
    var taken := Taken(selected, |selected|, chosen, base, reactivate);
    TakenIsListed(selected, |selected|, chosen, base, reactivate);
    hide Taken, CompensatedIn, Open;
    if taken != [] {
      var first := taken[0];
      assert taken[..1] == [first] && first in taken;
      var b := map c | c in base :: if c == first then base[c].(status := EntryRolledBack) else base[c];
      CompensatedFirst(base, b, first);
      if NeverLeavesOpen(base, taken) {
        assert CompensatedIn(base, b, taken[..1]);
        forall c | c in base && Open(base[c]) ensures c == first {
          assert c in b && !Open(b[c]);
        }
      }
      if forall c :: c in base && Open(base[c]) ==> c == first {
        forall n, b' | 1 <= n <= |taken| && CompensatedIn(base, b', taken[..n])
          ensures forall c :: c in b' ==> !Open(b'[c]) {
          assert taken[..n][0] == first;
          CompensationMayLeaveOpen(base, b', taken[..n]);
        }
      }
    }
  }

  lemma CompensatedFirst(base: map<Component, Entry>, b: map<Component, Entry>, first: Component)
    requires first in base && b.Keys == base.Keys
    requires forall c :: c in base ==> b[c] == if c == first then base[c].(status := EntryRolledBack) else base[c]
    ensures CompensatedIn(base, b, [first])
  {
  }

  lemma {:induction false} TakenIsListed(selected: seq<Component>, i: nat, chosen: set<Component>,
                                         base: map<Component, Entry>,
                                         reactivate: bool)
    requires i <= |selected|
    ensures forall c :: c in Taken(selected, i, chosen, base, reactivate) ==> c in base && c in chosen
  {
    if i > 0 {
      TakenIsListed(selected, i - 1, chosen, base, reactivate);
    }
  }

  lemma LoopStarts(base: map<Component, Entry>, selected: seq<Component>, chosen: set<Component>, reactivate: bool)
    ensures Looping(selected, 0, chosen, base, base, [], reactivate)
  {
  }

  lemma UnchangedYet(base: map<Component, Entry>, b: map<Component, Entry>, changed: seq<Component>, c: Component)
    requires DeployedIn(base, b, changed) && c in b && c !in changed
    ensures c in base && base[c] == b[c]
  {
  }

  /** The deploy loop before its i-th entry. */
  ghost predicate Looping(selected: seq<Component>, i: nat, chosen: set<Component>, base: map<Component, Entry>,
                          now: map<Component, Entry>, changed: seq<Component>, reactivate: bool)
    requires i <= |selected|
  {
    && DeployedIn(base, now, changed) && ChangedAmong(changed, selected, i, chosen) && Within(changed, selected, chosen)
    && ChosenVerified(selected, i, chosen, now)
    && changed == Taken(selected, i, chosen, base, reactivate) && NoneRefused(selected, i, chosen, base)
  }

  /** The i-th entry is not chosen, skipped or refused. */
  lemma LoopPasses(selected: seq<Component>, i: nat, chosen: set<Component>, base: map<Component, Entry>,
                   now: map<Component, Entry>, changed: seq<Component>, reactivate: bool)
    requires Ascending(selected) && i < |selected| && Looping(selected, i, chosen, base, now, changed, reactivate)
    ensures selected[i] !in chosen ==> Looping(selected, i + 1, chosen, base, now, changed, reactivate)
    ensures selected[i] in chosen && selected[i] in now && now[selected[i]].status == Verified && !reactivate ==>
              Looping(selected, i + 1, chosen, base, now, changed, reactivate)
    ensures selected[i] in chosen && selected[i] in now && Refuses(now[selected[i]]) ==>
      RefusedAt(selected, i, chosen, base)
    ensures Within(changed, selected, chosen)
    ensures (selected[i] in chosen ==> Within(changed + [selected[i]], selected, chosen))
    ensures selected[i] in chosen && selected[i] in now && (now[selected[i]].status != Verified || reactivate) ==>
              Taken(selected, i + 1, chosen, base, reactivate) == changed + [selected[i]]
    ensures DeployedIn(base, now, changed) && changed == Taken(selected, i, chosen, base, reactivate)
    ensures selected[i] in now ==> selected[i] in base && base[selected[i]] == now[selected[i]]
  {
    hide DeployedIn, ChangedAmong, Within, ChosenVerified, Taken, NoneRefused, RefusedAt;
    var c := selected[i];
    ChangedStep(changed, selected, i, chosen);
    TakenStep(selected, i, chosen, base, reactivate);
    if c in now {
      UnchangedYet(base, now, changed, c);
    }
    if c !in chosen || (c in now && now[c].status == Verified) {
      ChosenStep(selected, i, chosen, now, now);
    }
  }

  /** The i-th entry is taken up, with the result in `later`. */
  lemma LoopTakes(selected: seq<Component>, i: nat, chosen: set<Component>, base: map<Component, Entry>,
                  now: map<Component, Entry>, later: map<Component, Entry>, changed: seq<Component>, reactivate: bool)
    requires Ascending(selected) && i < |selected| && Looping(selected, i, chosen, base, now, changed, reactivate)
    requires selected[i] in chosen && selected[i] in now && OnlyEntry(now, later, selected[i])
    requires !Refuses(now[selected[i]]) && (now[selected[i]].status == Verified ==> reactivate)
    ensures later[selected[i]].status == Verified ==>
              Looping(selected, i + 1, chosen, base, later, changed + [selected[i]], reactivate)
    ensures BrokenIn(base, later, changed + [selected[i]], later[selected[i]].status)
    ensures Within(changed + [selected[i]], selected, chosen)
  {
    hide DeployedIn, ChangedAmong, Within, ChosenVerified, Taken, NoneRefused, RefusedAt, BrokenIn, Refuses;
    var c := selected[i];
    ChangedStep(changed, selected, i, chosen);
    TakenStep(selected, i, chosen, base, reactivate);
    UnchangedYet(base, now, changed, c);
    OneMoreDeployed(base, now, later, changed, c);
    if later[c].status == Verified {
      ChosenStep(selected, i, chosen, now, later);
    }
  }

  lemma FirstListed(changed: seq<Component>, base: map<Component, Entry>)
    requires forall c :: c in changed ==> c in base
    ensures changed == [] || changed[0] in base
  {
  }

  /** An entry can only be missing when there are none. */
  lemma LoopMisses(plan: Plan, s: Checkpoint, selected: seq<Component>, i: nat, chosen: set<Component>,
                   base: map<Component, Entry>, changed: seq<Component>, reactivate: bool)
    requires selected == plan.selected && i < |selected| && WellFormed(plan, s) && selected[i] !in s.components
    requires Looping(selected, i, chosen, base, s.components, changed, reactivate)
    ensures changed == [] && selected[i] !in base && [] <= Taken(selected, |selected|, chosen, base, reactivate)
  {
    assert selected[i] in Elements(selected);
    FirstListed(changed, base);
  }

  lemma {:induction false} TakenPrefix(selected: seq<Component>, i: nat, k: nat, chosen: set<Component>,
                                       base: map<Component, Entry>, reactivate: bool)
    requires i <= k <= |selected|
    ensures Taken(selected, i, chosen, base, reactivate) <= Taken(selected, k, chosen, base, reactivate)
    decreases k
  {
    if i < k {
      TakenPrefix(selected, i, k - 1, chosen, base, reactivate);
    }
  }

  /** What is taken up by the i-th entry is the beginning of what may be taken up in all. */
  lemma TakenGrows(selected: seq<Component>, i: nat, chosen: set<Component>, base: map<Component, Entry>,
                   reactivate: bool)
    requires i < |selected|
    ensures Taken(selected, i, chosen, base, reactivate) <= Taken(selected, |selected|, chosen, base, reactivate)
    ensures Taken(selected, i + 1, chosen, base, reactivate) <= Taken(selected, |selected|, chosen, base, reactivate)
  {
    hide Taken;
    TakenPrefix(selected, i, |selected|, chosen, base, reactivate);
    TakenPrefix(selected, i + 1, |selected|, chosen, base, reactivate);
  }

  /** Compensating what was changed touches exactly that, and all of it. */
  lemma Compensates(base: map<Component, Entry>, a: map<Component, Entry>, b: map<Component, Entry>,
                    changed: seq<Component>, status: EntryStatus, selected: set<Component>)
    requires BrokenIn(base, a, changed, status) && status in {EntryUnknown, EntryFailed}
    requires base.Keys == selected && RestoredIn(a, b, Elements(changed), selected)
    ensures CompensatedIn(base, b, changed)
    ensures AllBack(b, Elements(changed), selected) <==> AllRolledBack(b, changed)
  {
  }

  lemma CompensatesAll(j: seq<Event>, from: nat, base: map<Component, Entry>, a: map<Component, Entry>,
                       b: map<Component, Entry>,
                       changed: seq<Component>, selected: set<Component>, calls: seq<Component>)
    requires BrokenIn(base, a, changed, EntryFailed) && base.Keys == selected
    requires Accounted(j, from, a, b, Elements(changed), selected, calls)
    requires CallsFor(calls, a, Elements(changed), selected)
    ensures AllCompensated(j, from, base, b, changed, calls)
  {
    hide CompensatedSince;
    forall c | c in changed
      ensures c in base && c in b && CompensatedSince(j, from, c, base[c].prior, c in calls, b[c].status) {
      assert c in changed[..|changed| - 1] || c == changed[|changed| - 1];
      assert a[c].prior == base[c].prior && ToRestore(a[c]);
    }
  }

  /** The walk of the whole listing found these deployments of the attempt, by identity and in order. */
  ghost predicate FoundIn(api: Paginations.Api, found: seq<string>, pages: nat) {
    && pages > 0 && Paginations.CompleteListing(api, pages)
    && var all := Paginations.Walked(api, pages);
    && found == Paginations.Identities(Paginations.Wanted(all)) && (found == [] <==> Paginations.NoneWanted(all))
  }

  lemma ListingFound(api: Paginations.Api, found: seq<Paginations.Deployment>, pages: nat)
    requires Paginations.CompleteListing(api, pages) && found == Paginations.Wanted(Paginations.Walked(api, pages))
    ensures FoundIn(api, Paginations.Identities(found), pages) && pages > 0
  {
    Paginations.MatchesAreWanted(Paginations.Walked(api, pages));
    hide Paginations.Wanted, Paginations.Walked, Paginations.NoneWanted;
  }

  lemma ListingShows(v: View, names: seq<string>)
    ensures Next(v, Listed(names)).last == Some(Listed(names))
    ensures forall x :: x in names ==> (Frontend, x) in Next(v, Listed(names)).named
    ensures names == [] && v.stage == Reported ==> Next(v, Listed(names)).stage == Confirmed
  {
  }

  // ---- how the endings of a method decide ----------------------------------------------------------

  lemma ObservationDecides(j: seq<Event>, c: Component, candidate: Candidate, e: Exc)
    requires EndsWith(j, Errored(c, Observing, e))
    ensures Decides(j, c, candidate, true, e)
  {
  }

  lemma ProofIsOpen(j: seq<Event>, candidate: Candidate)
    requires EndsWith(j, EvidenceRead(None))
    ensures NoAnswer(j, Frontend, candidate)
  {
  }

  lemma BlameDecides(j: seq<Event>, c: Component, candidate: Candidate, pending: bool, e: Exc)
    requires Blamed(j, c, e) && e.Unrepresentable?
    ensures Decides(j, c, candidate, pending, e)
  {
    NothingReadIsUnknown(j, c, candidate, pending);
  }

  lemma UnknownDecides(j: seq<Event>, c: Component, candidate: Candidate, pending: bool, e: Exc)
    requires NothingRead(j) && (Unsaved(j) || (LeavesUnknown(e) && NoAnswer(j, c, candidate)))
    ensures Decides(j, c, candidate, pending, e)
  {
    NothingReadIsUnknown(j, c, candidate, pending);
  }

  lemma PollDecides(before: seq<Event>, j: seq<Event>, c: Component, candidate: Candidate, pending: bool, e: Exc,
                    misses: nat)
    requires e == FAILED ==> j == before + Readings(ReadCandidate(c, candidate, false), misses, []) && misses == 12
    requires e != FAILED ==> LeavesUnknown(e)
    requires e != FAILED && Unobservable(c, candidate) ==> NothingRead(before) && j == before
    requires e != FAILED && !Unobservable(c, candidate) ==>
      exists x :: j == before + Readings(ReadCandidate(c, candidate, false), misses, [Errored(c, Polling, x)])
    ensures Decides(j, c, candidate, pending, e)
  {
    if e == FAILED {
      ReadingsEnd(before, ReadCandidate(c, candidate, false), misses);
    } else if Unobservable(c, candidate) {
      NothingReadIsUnknown(j, c, candidate, pending);
    } else {
      var x :| j == before + Readings(ReadCandidate(c, candidate, false), misses, [Errored(c, Polling, x)]);
      assert j[|j| - 1] == Errored(c, Polling, x);
      NothingReadIsUnknown(j, c, candidate, pending);
    }
  }

  lemma SaveDecides(j: seq<Event>, c: Component, candidate: Candidate, pending: bool, e: Exc)
    ensures Unsaved(j) ==> Decides(j, c, candidate, pending, e)
  {
  }

  /** One reading that differs is enough for a pending job, and when nothing is known to go on with. */
  lemma MissDecides(j: seq<Event>, c: Component, candidate: Candidate)
    requires EndsWith(j, ReadCandidate(c, candidate, false)) && (IsJob(c) || !NonEmpty(candidate))
    ensures Decides(j, c, candidate, true, FAILED)
  {
  }

  /** The status that the outcome of bringing a component back leads to. */
  function EndOf(r: Outcome<()>): EntryStatus {
    if r.Ok? then EntryRolledBack else if LeavesUnknown(r.exc) then RollbackUnknown else RollbackFailed
  }

  lemma PriorUnread(j: seq<Event>, c: Component, prior: Prior, e: Exc, task: Task)
    requires EndsWith(j, Errored(c, task, e)) && (task != Observing ==> LeavesUnknown(e))
    ensures SettledAs(j, c, prior, EndOf(Raised(e)))
  {
  }

  lemma PriorPolled(before: seq<Event>, j: seq<Event>, c: Component, prior: Prior, r: Outcome<()>, misses: nat)
    requires r == Raised(FAILED) <==> misses == 12
    requires r.Raised? && misses != 12 ==> LeavesUnknown(r.exc)
    requires r.Ok? ==> j == before + Readings(ReadPrior(c, prior, false), misses, [ReadPrior(c, prior, true)])
    requires r == Raised(FAILED) ==> j == before + Readings(ReadPrior(c, prior, false), misses, [])
    requires r.Raised? && r != Raised(FAILED) ==>
      exists e :: j == before + Readings(ReadPrior(c, prior, false), misses, [Errored(c, Polling, e)])
    ensures SettledAs(j, c, prior, EndOf(r))
  {
    if r.Ok? {
      assert j[|j| - 1] == ReadPrior(c, prior, true);
    } else if r == Raised(FAILED) {
      ReadingsEnd(before, ReadPrior(c, prior, false), misses);
      assert j[|j| - 1] == ReadPrior(c, prior, false);
    } else {
      var e :| j == before + Readings(ReadPrior(c, prior, false), misses, [Errored(c, Polling, e)]);
      assert j[|j| - 1] == Errored(c, Polling, e);
    }
  }

  lemma PriorReadLater(j: seq<Event>, l: seq<Event>, k: nat, c: Component, prior: Prior)
    requires j <= l && PriorRead(j, k, c, prior)
    ensures PriorRead(l, k, c, prior)
  {
  }

  /** What the last lines of a deploy may save. */
  lemma CloseForms(plan: Plan, s: Checkpoint)
    requires WellFormed(plan, s) && ValidPlan(plan)
    ensures Complete(plan, s.components) <==>
      |s.components| == |plan.selected| && forall c :: c in s.components ==> s.components[c].status == Verified
    ensures WellFormed(plan, s.(status := PartiallyReactivated)) && !BeforeRuntime(PartiallyReactivated)
    ensures Complete(plan, s.components) ==> WellFormed(plan, s.(status := RuntimeSuccess))
    ensures !BeforeRuntime(RuntimeSuccess) && ClaimsRuntime(RuntimeSuccess)
  {
    assert |s.components| == |s.components.Keys|;
    SelectionSize(plan);
    hide Ascending;
  }

  lemma SelectionSize(plan: Plan)
    requires ValidPlan(plan)
    ensures |Elements(plan.selected)| == |plan.selected| > 0
  {
    DistinctIsSetSize(plan.selected);
  }

  lemma ClaimForms(plan: Plan, s: Checkpoint)
    requires WellFormed(plan, s) && ClaimsRuntime(s.status)
    ensures forall status :: ClaimsRuntime(status) ==> WellFormed(plan, s.(status := status))
    ensures !BeforeRuntime(Success) && !BeforeRuntime(TagFailed)
  {
  }

  /** The tag was seen after the first `from` events, as the last thing before the last event. */
  predicate SeenBeforeLast(j: seq<Event>, from: nat, sha: string) { |j| - 2 >= from && TagSeen(j[|j| - 2], sha) }

  lemma SavedLast(j: seq<Event>, e: Event, from: nat, sha: string)
    ensures SeenBeforeLast(j + [e], from, sha) <==> |j| > from && TagSeen(j[|j| - 1], sha)
  {
  }

  /** From `from` on, one object of the tag leads to the next: all but the last are annotated tags. */
  predicate TagChain(j: seq<Event>, from: nat) {
    && from < |j| && (forall k :: from <= k < |j| ==> j[k].TagObject?)
    && forall k :: from <= k < |j| - 1 ==> j[k].annotated
  }

  /** At most four annotated tags were followed after j, to the end of the chain unless one was not read. */
  predicate Chained(j: seq<Event>, l: seq<Event>) {
    && j < l && |l| <= |j| + 5
    && ((TagChain(l, |j|) && (l[|l| - 1].annotated ==> |l| == |j| + 5))
        || (l[|l| - 1] == TagUnread && TagChain(l[..|l| - 1], |j|) && l[|l| - 2].annotated))
  }

  /**
   How the tag was looked for after j: not read; or there are several; or there is none, and it was tried to create it;
   or there is one, and it was followed.
   */
  ghost predicate TagSought(j: seq<Event>, l: seq<Event>, source: string) {
    || l == j + [TagUnread]
    || (exists n: nat :: n > 1 && l == j + [TagRefs(n)])
    || l == j + [TagRefs(0), TagCreated(source)] || l == j + [TagRefs(0), TagNotCreated(source)]
    || Chained(j + [TagRefs(1)], l)
  }

  lemma SoughtOnce(j: seq<Event>, source: string)
    ensures TagSought(j, j + [TagUnread], source)
    ensures forall n: nat :: n > 1 ==> TagSought(j, j + [TagRefs(n)], source)
    ensures forall e :: e in {TagCreated(source), TagNotCreated(source)} ==> TagSought(j, j + [TagRefs(0), e], source)
  {
  }

  lemma ChainIsSought(j: seq<Event>, l: seq<Event>, source: string)
    ensures Chained(j + [TagRefs(1)], l) ==> TagSought(j, l, source)
    ensures Chained(j + [TagRefs(1)], l) && l[|l| - 1] != TagUnread ==> l[|l| - 1].TagObject?
  {
  }

  lemma ChainBegins(j: seq<Event>, e: Event)
    requires e.TagObject?
    ensures TagChain(j + [e], |j|)
  {
  }

  lemma ChainGrows(j: seq<Event>, from: nat, e: Event)
    requires TagChain(j, from) && j[|j| - 1].annotated && e.TagObject?
    ensures TagChain(j + [e], from)
  {
  }

  /** The tag was looked for; after that there were saves only, the last failed or not, and one alone if none failed. */
  ghost predicate TagTried(j: seq<Event>, l: seq<Event>, source: string) {
    exists n :: |j| < n <= |l| && TagSought(j, l[..n], source) && SavesFrom(l, n)
  }

  predicate SavesFrom(l: seq<Event>, n: nat) {
    && (forall k :: n <= k < |l| ==> l[k].Saved? || l[k] == SaveErrored)
    && (|l| <= n + 1 || exists k :: n <= k < |l| && l[k] == SaveErrored)
  }

  /** Each attempt at a save leaves it, or the report that it failed, or both. */
  lemma SavesMore(j: seq<Event>, l: seq<Event>, n: nat, cp: Checkpoint)
    requires n <= |j| && (forall k :: n <= k < |j| ==> j[k].Saved? || j[k] == SaveErrored)
    requires l == j + [Saved(cp)] || l == j + [SaveErrored] || l == j + [Saved(cp), SaveErrored]
    requires |j| == n || SaveErrored in j[n..]
    ensures SavesFrom(l, n)
  {
    if |j| > n {
      var k :| 0 <= k < |j[n..]| && j[n..][k] == SaveErrored;
      assert l[n + k] == SaveErrored;
    } else if l != j + [Saved(cp)] {
      assert l[|l| - 1] == SaveErrored;
    }
  }

  lemma NothingSaved(j: seq<Event>)
    ensures SavesFrom(j, |j|)
  {
  }

  lemma SoughtThenSaved(j: seq<Event>, read: seq<Event>, l: seq<Event>, source: string)
    requires j < read <= l && TagSought(j, read, source) && SavesFrom(l, |read|)
    ensures TagTried(j, l, source)
  {
    assert l[..|read|] == read;
  }

  lemma SaveViews(v: View, t: Checkpoint)
    ensures Next(v, Saved(t)).durable == Some(t) && Next(v, SaveErrored).durable == v.durable
    ensures Next(Next(v, Saved(t)), SaveErrored).durable == Some(t)
  {
    hide Next;
    NextCalls(v, Saved(t));
    NextCalls(v, SaveErrored);
    NextCalls(Next(v, Saved(t)), SaveErrored);
  }

  lemma HoldingErrs(plan: Plan, v: View, t: Checkpoint, c: Component)
    requires HoldingIn(plan, v, t, c)
    ensures HoldingIn(plan, Next(v, SaveErrored), t, c) && Next(v, SaveErrored).durable == v.durable && v.durable.Some?
    ensures WellFormed(plan, v.durable.value)
  {
    CallFrame(v, SaveErrored);
    HoldingFrame(plan, v, Next(v, SaveErrored), t, c);
    hide Next, Follows, Milder, WellFormed, SameBut, RecordLaws;
  }

  lemma StartsUnowed(v: View)
    ensures !Next(v, Started).owed && Next(v, Started).durable == v.durable
  {
    OwedStep(v, Started);
    NextCalls(v, Started);
  }

  class Engine {
    const plan: Plan
    const project: Option<string>
    var state: Checkpoint
    var journal: seq<Event>

    ghost predicate Lives()
      reads this
    {
      && ValidPlan(plan) && Lawful(plan, journal)
      && Durable(journal).Some? && WellFormed(plan, Durable(journal).value)
    }

    /** And no submission is owed. */
    ghost predicate Sound()
      reads this
    {
      Lives() && !ViewOf(journal).owed
    }

    /** Memory and the last save agree. */
    ghost predicate Synced()
      reads this
    {
      Sound() && Durable(journal) == Some(state)
    }

    ghost predicate Holding(c: Component)
      reads this
    {
      && Sound() && HoldingIn(plan, ViewOf(journal), state, c)
      && (Spends(Durable(journal), state) ==> ViewOf(journal).last == Some(SaveErrored))
    }

    ghost predicate Working(c: Component)
      reads this
    {
      Sound() && WorkingIn(plan, ViewOf(journal), state, c) && !Spends(Durable(journal), state)
    }

    /** An authorisation was just used up: the front-end is to be submitted before anything else is saved. */
    ghost predicate Licensed()
      reads this
    {
      && Lives() && Durable(journal) == Some(state) && WorkingIn(plan, ViewOf(journal), state, Frontend)
      && ViewOf(journal).owed && ViewOf(journal).funded && state.components[Frontend].candidate.deployment.None?
    }

    /** The deployment call for c may be made. */
    ghost predicate Able(c: Component)
      reads this
    {
      (Working(c) && Synced()) || (c == Frontend && Licensed())
    }

    /** The process starts from the checkpoint that the events so far left durable. */
    constructor (plan: Plan, project: Option<string>, checkpoint: Checkpoint, past: seq<Event>)
      requires ValidPlan(plan) && Lawful(plan, past) && Durable(past) == Some(checkpoint)
      ensures Synced() && journal == past + [Started] && state == checkpoint && this.plan == plan
    {
      this.plan, this.project, state, journal := plan, project, checkpoint, past + [Started];
      new;
      DurablePlan(plan, past, |past|);
      Append(plan, past, Started);
      StartsUnowed(ViewOf(past));
    }

    method Note(e: Event)
      requires Lawful(plan, journal) && Allowed(plan, ViewOf(journal), e)
      modifies this`journal
      ensures journal == old(journal) + [e] && Lawful(plan, journal)
      ensures ViewOf(journal) == Next(ViewOf(old(journal)), e)
      ensures Rollbacks(journal) == Rollbacks(old(journal)) + if e.RollbackCall? then [e.component] else []
      ensures Rejections(journal) == Rejections(old(journal)) + One(e.QuotaRejected?)
      ensures !e.Saved? && !ViewOf(old(journal)).owed ==> !ViewOf(journal).owed
      ensures !e.Saved? ==> Grows() && Durable(journal) == Durable(old(journal))
    {
      hide Lawful, ViewAt, Next, Allowed, Continues;
      Append(plan, journal, e);
      OwedStep(ViewOf(journal), e);
      NextCalls(ViewOf(journal), e);
      if !e.Saved? {
        ContinuesSnoc(journal, e);
      }
      assert (journal + [e])[..|journal|] == journal;
      journal := journal + [e];
    }

    /** `save`: bump the sequence, write, upload. A failed upload may have taken effect. */
    method Save() returns (ok: bool)
      requires Lawful(plan, journal) && Durable(journal).Some?
      requires SaveAllowed(plan, ViewOf(journal), state.(sequence := state.sequence + 1))
      modifies this
      ensures state == old(state).(sequence := old(state).sequence + 1)
      ensures Lawful(plan, journal) && Rollbacks(journal) == Rollbacks(old(journal)) && Closes()
      ensures !Resolved(state.status) || Durable(old(journal)).value.status == state.status ==> Grows()
      ensures Rejections(journal) == Rejections(old(journal))
      ensures ok ==> journal == old(journal) + [Saved(state)]
      ensures !ok ==> journal == old(journal) + [SaveErrored] || journal == old(journal) + [Saved(state), SaveErrored]
      ensures ViewOf(journal) ==
        if ok then Next(ViewOf(old(journal)), Saved(state))
        else if |journal| == |old(journal)| + 1 then Next(ViewOf(old(journal)), SaveErrored)
        else Next(Next(ViewOf(old(journal)), Saved(state)), SaveErrored)
      ensures ViewOf(journal).owed == (ok && Grants(ViewOf(old(journal)), state))
      ensures ViewOf(journal).last == Some(if ok then Saved(state) else SaveErrored)
      ensures ViewOf(journal).readings == ViewOf(old(journal)).readings
      ensures Durable(journal) == if ok || |journal| > |old(journal)| + 1 then Some(state) else Durable(old(journal))
    {
      hide ViewAt, Lawful, ValidPlan, Next, WellFormed, Grants, Rollbacks, Rejections, Continues, Concludes,
           ComponentsAdvance, RecordLaws, PriorLaw, TouchedBy, NewlyIn;
      ghost var before := journal;
      state := state.(sequence := state.sequence + 1);
      OwedStep(ViewOf(journal), Saved(state));
      NextCalls(ViewOf(journal), Saved(state));
      ok :| true;
      var uploaded: bool :| true;
      if ok || uploaded {
        Note(Saved(state));
      }
      if !ok {
        OwedStep(ViewOf(journal), SaveErrored);
        Note(SaveErrored);
      }
      SaveConcludes(before, journal, state);
    }

    twostate predicate Grows()
      reads this
    {
      Continues(old(journal), journal)
    }

    /** As Grows, but the last save may make the attempt a resolved one. */
    twostate predicate Closes()
      reads this
    {
      Concludes(old(journal), journal)
    }

    /** Since the old state: only calls that are not rollbacks, and only c's entry changed. */
    twostate predicate Moved(c: Component)
      reads this
    {
      && Grows() && Rollbacks(journal) == Rollbacks(old(journal))
      && SameBut(old(state), state, c)
    }

    /** And no submission was reported as rejected for the quota. */
    twostate predicate Forward(c: Component)
      reads this
    {
      Moved(c) && Rejections(journal) == Rejections(old(journal))
    }

    /** A save in the middle of deploying c. */
    method SaveWork(c: Component) returns (ok: bool)
      requires Working(c)
      modifies this
      ensures Working(c) && Forward(c) && state == old(state).(sequence := old(state).sequence + 1)
      ensures Milder(ViewOf(old(journal)), ViewOf(journal)) && NothingRead(journal)
      ensures if ok then Synced() && EndsWith(journal, Saved(state)) else Unsaved(journal) && GaveUp(journal, |old(journal)|)
      ensures ok ==>
        WorkingIn(plan, ViewOf(old(journal)), state, c) && ViewOf(journal) == Next(ViewOf(old(journal)), Saved(state))
    {
      hide ViewAt, Lawful, ValidPlan, Next, SaveAllowed, WorkingIn, WellFormed, SameBut, Milder, Spends, Grants,
           Continues;
      ghost var t := state.(sequence := state.sequence + 1);
      SpendsNothing(t, t);
      WorkSaves(plan, ViewOf(journal), state, t, c);
      NoSpendingNoGrant(ViewOf(journal), t);
      WorkMayFail(plan, ViewOf(journal), state, t, c);
      ghost var j0 := journal;
      ok := Save();
      if !ok {
        SaveGaveUp(j0, journal, state);
      }
    }

    /** Put a new candidate into c's entry and save it. */
    method SaveCandidate(c: Component, candidate: Candidate) returns (ok: bool)
      requires Working(c) && CandidateAdvances(state.components[c].candidate, candidate)
      requires MayLearn(ViewOf(journal), c, state.components[c].candidate, candidate)
      modifies this
      ensures Working(c) && Forward(c)
      ensures state ==
        WithEntry(old(state), c,
                  old(state).components[c].(candidate := candidate)).(sequence := old(state).sequence + 1)
      ensures Milder(ViewOf(old(journal)), ViewOf(journal)) && NothingRead(journal)
      ensures if ok then Synced() && EndsWith(journal, Saved(state)) else Unsaved(journal) && GaveUp(journal, |old(journal)|)
      ensures ok ==>
        WorkingIn(plan, ViewOf(old(journal)), state, c) && ViewOf(journal) == Next(ViewOf(old(journal)), Saved(state))
    {
      hide ViewAt, Lawful, ValidPlan, Next, SaveAllowed, HoldingIn, WellFormed;
      WorkLearns(plan, ViewOf(journal), state, c, candidate);
      state := WithEntry(state, c, state.components[c].(candidate := candidate));
      ok := SaveWork(c);
    }

    // ---- provider calls ------------------------------------------------------------------------

    /** A reading or the answer to a call. */
    method Hear(c: Component, e: Event)
      requires Working(c) && IsAnswer(plan, e, c)
      modifies this`journal
      ensures journal == old(journal) + [e] && Working(c) && Forward(c) && Durable(journal) == Durable(old(journal))
      ensures GivesUp(e) ==> GaveUp(journal, |old(journal)|)
      ensures e.Steer? ==> Steered(journal, |old(journal)|, c)
      ensures Finds(e, c) ==> FoundSince(journal, |old(journal)|, c)
      ensures Follows(ViewOf(old(journal)), ViewOf(journal)) && ViewOf(journal) == Next(ViewOf(old(journal)), e)
      ensures ViewOf(journal).readings == ViewOf(old(journal)).readings + One(e.ReadCandidate?)
      ensures !e.ReadCandidate? ==> Milder(ViewOf(old(journal)), ViewOf(journal))
    {
      hide ViewAt, Lawful, ValidPlan, Next, Allowed, WorkingIn, WellFormed, Follows, Milder, Spends, Continues;
      WorkCalls(plan, ViewOf(journal), state, c, e);
      LastEvent(journal, e);
      Note(e);
    }

    /** Traffic, grant or upload calls on an identity already known, so many at least; any of them may raise. */
    method SteerCalls(c: Component, least: nat) returns (r: Outcome<()>)
      requires Working(c)
      modifies this`journal
      ensures Working(c) && Forward(c) && Durable(journal) == Durable(old(journal))
      ensures Milder(ViewOf(old(journal)), ViewOf(journal))
      ensures r.Raised? ==> EndsWith(journal, Errored(c, Changing, r.exc)) && !IsQuotaRejection(r.exc)
      ensures r.Raised? ==> GaveUp(journal, |old(journal)|)
      ensures r.Ok? && least > 0 ==> Steered(journal, |old(journal)|, c)
      ensures NothingRead(old(journal)) ==> NothingRead(journal)
    {
      hide ViewAt, Lawful, ValidPlan, Next, Allowed, WorkingIn, WellFormed, SameBut, Follows, Milder, Continues,
           Submitted, GaveUp, Steered, Spends;
      ContinuesSteps(journal);
      MakingSteps(journal);
      var n :| least <= n;
      WorkCalls(plan, ViewOf(journal), state, c, Steer(c));
      MilderSteps(ViewOf(journal));
      SameButSteps(state, c);
      for i := 0 to n
        invariant Working(c) && Forward(c) && Durable(journal) == Durable(old(journal))
        invariant Milder(ViewOf(old(journal)), ViewOf(journal))
        invariant i > 0 ==> Steered(journal, |old(journal)|, c)
        invariant NothingRead(old(journal)) ==> NothingRead(journal)
      {
        r := SteerCall(c);
        if r.Raised? {
          return;
        }
      }
      return Ok(());
    }

    method SteerCall(c: Component) returns (r: Outcome<()>)
      requires Working(c)
      modifies this`journal
      ensures Working(c) && Forward(c) && Durable(journal) == Durable(old(journal))
      ensures Milder(ViewOf(old(journal)), ViewOf(journal)) && NothingRead(journal)
      ensures r.Raised? ==> EndsWith(journal, Errored(c, Changing, r.exc)) && !IsQuotaRejection(r.exc)
      ensures r.Raised? ==> GaveUp(journal, |old(journal)|)
      ensures r.Ok? ==> journal == old(journal) + [Steer(c)] && Steered(journal, |old(journal)|, c)
    {
      hide ViewAt, Lawful, ValidPlan, Next, Allowed, WorkingIn, WellFormed, SameBut, Follows, Milder, Continues,
           GaveUp, Steered, Spends;
      ContinuesSteps(journal);
      MilderSteps(ViewOf(journal));
      SameButSteps(state, c);
      Hear(c, Steer(c));
      r :| true;
      if r.Raised? {
        r := Raised(ElsewhereRaised(r.exc));
        Hear(c, Errored(c, Changing, r.exc));
      }
    }

    /** The stable aliases, one after the other: each that does not lead to the deployment is moved. */
    method MoveAliases() returns (r: Outcome<()>)
      requires Working(Frontend)
      modifies this`journal
      ensures Working(Frontend) && Forward(Frontend) && Durable(journal) == Durable(old(journal))
      ensures Milder(ViewOf(old(journal)), ViewOf(journal))
      ensures r.Raised? ==> EndsWith(journal, Errored(Frontend, Changing, r.exc)) && !IsQuotaRejection(r.exc)
      ensures r.Raised? ==> GaveUp(journal, |old(journal)|)
      ensures r.Ok? ==> Aligned(journal, |old(journal)|, plan.aliases)
      ensures NothingRead(old(journal)) ==> NothingRead(journal)
    {
      hide ViewAt, Lawful, ValidPlan, Next, Allowed, WorkingIn, WellFormed, SameBut, Follows, Milder, Continues,
           GaveUp, Steered, Spends, Aligned, AliasSet, Rejections, Rollbacks, RetryValid;
      NothingContinues(journal);
      MilderSteps(ViewOf(journal));
      WorkCalls(plan, ViewOf(journal), state, Frontend, Steer(Frontend));
      SameButSteps(state, Frontend);
      NoneAligned(journal);
      for i := 0 to |plan.aliases|
        invariant Working(Frontend) && Forward(Frontend) && Durable(journal) == Durable(old(journal))
        invariant Milder(ViewOf(old(journal)), ViewOf(journal))
        invariant Aligned(journal, |old(journal)|, plan.aliases[..i])
        invariant NothingRead(old(journal)) ==> NothingRead(journal)
      {
        ghost var before := journal;
        ContinuesAt(old(journal), before);
        r := MoveAlias(plan.aliases[i]);
        ContinuesOn(old(journal), before, journal);
        if r.Raised? {
          MoreGaveUp(journal, |before|, |old(journal)|);
          return;
        }
        OneMoreAligned(before, journal, |old(journal)|, plan.aliases[..i], plan.aliases[i]);
        assert plan.aliases[..i + 1] == plan.aliases[..i] + [plan.aliases[i]];
      }
      assert plan.aliases[..|plan.aliases|] == plan.aliases;
      return Ok(());
    }

    method MoveAlias(alias: string) returns (r: Outcome<()>)
      requires Working(Frontend)
      modifies this`journal
      ensures Working(Frontend) && Forward(Frontend) && Durable(journal) == Durable(old(journal))
      ensures Milder(ViewOf(old(journal)), ViewOf(journal)) && NothingRead(journal)
      ensures r.Raised? ==> EndsWith(journal, Errored(Frontend, Changing, r.exc)) && !IsQuotaRejection(r.exc)
      ensures r.Raised? ==> GaveUp(journal, |old(journal)|)
      ensures old(journal) <= journal
      ensures (r.Ok? ==> |journal| > |old(journal)| && AliasSet(journal, |old(journal)|, alias))
    {
      hide ViewAt, Lawful, ValidPlan, Next, Allowed, WorkingIn, WellFormed, SameBut, Follows, Milder, Continues,
           GaveUp, Steered, Spends, Rejections, Rollbacks, RetryValid, AliasSet;
      var leads: Outcome<bool> :| true;
      if leads.Raised? {
        r := Raised(ElsewhereRaised(leads.exc));
        Hear(Frontend, Errored(Frontend, Changing, r.exc));
        return;
      }
      SameButSteps(state, Frontend);
      MilderSteps(ViewOf(journal));
      Hear(Frontend, AliasRead(alias, leads.value));
      AliasIsSet(old(journal), journal, alias);
      if leads.value {
        return Ok(());
      }
      ghost var read := journal;
      r := SteerCall(Frontend);
      ContinuesAt(read, journal);
      ContinuesOn(old(journal), read, journal);
      if r.Ok? {
        AliasIsSet(old(journal), journal, alias);
      } else {
        MoreGaveUp(journal, |read|, |old(journal)|);
      }
    }

    /**
     `prepare_bff_config_version` and `prepare_auth_config_version`: publish one secret version, at most once. A record
     whose publication has begun leads to no call.
     */
    method PrepareConfig(c: Component) returns (r: Outcome<nat>)
      requires Working(c) && Synced() && IsService(c)
      modifies this
      ensures Working(c) && Forward(c)
      ensures OnlyConfig(old(state).components[c], state.components[c])
      ensures r.Ok? ==> Synced() && state.components[c].candidate.config == Some(ConfigRecord(Published, Some(r.value)))
      ensures r.Raised? ==> Blamed(journal, c, r.exc) && GaveUp(journal, |old(journal)|)
      ensures Milder(ViewOf(old(journal)), ViewOf(journal))
      ensures ConfigStageOf(old(state.components[c].candidate)) in {Some(Publishing), Some(Unconfirmed)} ==> r.Raised?
      ensures ConfigStageOf(old(state.components[c].candidate)) in {Some(Publishing), Some(Unconfirmed), Some(Published)} ==>
        state == old(state) && journal == old(journal) + if r.Raised? then [Errored(c, Changing, r.exc)] else []
    {
      hide ViewAt, Lawful, ValidPlan, Next, Allowed, HoldingIn, WellFormed, SameBut, Milder, Continues, Blamed,
           Submitted, GaveUp, Spends;
      var readable: bool :| true;  // runtime inputs, resource name, project number and recorded identity
      if !readable {
        Hear(c, Errored(c, Changing, FAILED));
        ErrorBlames(journal, c, FAILED);
        return Raised(FAILED);
      }
      MilderSteps(ViewOf(journal));
      SameButSteps(state, c);
      ContinuesSteps(journal);
      var begun := OpenRecord(c);
      if !begun {
        ErrorBlames(journal, c, FAILED);
        return Raised(FAILED);
      }
      r := ActOnRecord(c);
    }

    /** What the record of the publication asks for. */
    method ActOnRecord(c: Component) returns (r: Outcome<nat>)
      requires Working(c) && Synced() && IsService(c) && state.components[c].candidate.config.Some?
      modifies this
      ensures Working(c) && Forward(c)
      ensures OnlyConfig(old(state).components[c], state.components[c])
      ensures r.Ok? ==> Synced() && state.components[c].candidate.config == Some(ConfigRecord(Published, Some(r.value)))
      ensures r.Raised? ==> Blamed(journal, c, r.exc) && GaveUp(journal, |old(journal)|)
      ensures Milder(ViewOf(old(journal)), ViewOf(journal))
      ensures ConfigStageOf(old(state.components[c].candidate)) in {Some(Publishing), Some(Unconfirmed)} ==> r.Raised?
      ensures ConfigStageOf(old(state.components[c].candidate)) in {Some(Publishing), Some(Unconfirmed), Some(Published)} ==>
        state == old(state) && journal == old(journal) + if r.Raised? then [Errored(c, Changing, r.exc)] else []
    {
      hide ViewAt, Lawful, ValidPlan, Next, Allowed, HoldingIn, WorkingIn, WellFormed, Milder, Blamed, Spends,
           Submitted, GaveUp, Continues, SameBut, Rejections, Rollbacks;
      WorkHolds(plan, ViewOf(journal), state, c);
      var record := state.components[c].candidate.config.value;
      var materialised: bool :| true;
      var raised := FAILED;
      if record.stage == Published {
        if record.version.Some? {
          MilderSteps(ViewOf(journal));
          SameButSteps(state, c);
          ContinuesSteps(journal);
          return Ok(record.version.value);
        }
      } else if record.stage != Preparing {
        raised := UNKNOWN;
      } else if record.version.None? && materialised {
        r := Publish(c);
        return;
      }
      Hear(c, Errored(c, Changing, raised));
      ErrorBlames(journal, c, raised);
      return Raised(raised);
    }

    /** There is a record of the publication, at least one in preparation. */
    method OpenRecord(c: Component) returns (ok: bool)
      requires Working(c) && Synced()
      modifies this
      ensures Working(c) && Forward(c) && Milder(ViewOf(old(journal)), ViewOf(journal))
      ensures OnlyConfig(old(state).components[c], state.components[c])
      ensures if ok then Synced() && state.components[c].candidate.config.Some? else Unsaved(journal) && GaveUp(journal, |old(journal)|)
      ensures old(state).components[c].candidate.config.Some? ==> ok && state == old(state) && journal == old(journal)
      ensures old(state).components[c].candidate.config.None? ==>
        ConfigStageOf(state.components[c].candidate) == Some(Preparing)
    {
      hide ViewAt, Lawful, ValidPlan, Next, Allowed, HoldingIn, WellFormed, SameBut, Milder, Continues, Submitted,
           GaveUp;
      WorkCalls(plan, ViewOf(journal), state, c, Steer(c));
      ContinuesSteps(journal);
      SameButSteps(state, c);
      MilderSteps(ViewOf(journal));
      ok := true;
      if state.components[c].candidate.config.None? {
        ok := SaveCandidate(c, state.components[c].candidate.(config := Some(ConfigRecord(Preparing, None))));
      }
    }

    /** `secrets versions add`: the version in the answer, or None if the call failed or the answer is unusable. */
    method AddVersion(c: Component) returns (answer: Option<nat>)
      requires Working(c) && Synced() && Allowed(plan, ViewOf(journal), ConfigAdd(c))
      modifies this`journal
      ensures Working(c) && Synced() && Forward(c) && Milder(ViewOf(old(journal)), ViewOf(journal))
      ensures journal == old(journal) + [ConfigAdd(c), VersionAdded(c, answer)]
      ensures answer.Some? ==> (c, answer.value) in ViewOf(journal).versions
    {
      hide ViewAt, Lawful, ValidPlan, Next, Allowed, WorkingIn, WellFormed, Milder;
      MilderSteps(ViewOf(journal));
      WorkCalls(plan, ViewOf(journal), state, c, ConfigAdd(c));
      Note(ConfigAdd(c));
      answer :| true;
      VersionHeard(ViewOf(journal), c, answer);
      Hear(c, VersionAdded(c, answer));
    }

    /** Mark the record publishing, durably; add the version; record what came back. */
    method Publish(c: Component) returns (r: Outcome<nat>)
      requires Working(c) && Synced() && IsService(c)
      requires ConfigStageOf(state.components[c].candidate) == Some(Preparing)
      modifies this
      ensures Working(c) && Forward(c)
      ensures OnlyConfig(old(state).components[c], state.components[c])
      ensures r.Ok? ==> Synced() && state.components[c].candidate.config == Some(ConfigRecord(Published, Some(r.value)))
      ensures r.Raised? ==> Blamed(journal, c, r.exc) && GaveUp(journal, |old(journal)|)
      ensures Milder(ViewOf(old(journal)), ViewOf(journal))
    {
      hide ViewAt, Lawful, ValidPlan, Next, Allowed, HoldingIn, WellFormed, Milder, SameBut, Continues, Submitted,
           GaveUp;
      ContinuesSteps(journal);
      SameButSteps(state, c);
      ghost var v0 := ViewOf(journal);
      MilderSteps(v0);
      var saved := SaveCandidate(c, state.components[c].candidate.(config := Some(ConfigRecord(Publishing, None))));
      if !saved {
        return Raised(FAILED);
      }
      MayPublish(plan, v0, state, c);
      var answer := AddVersion(c);
      r := RecordVersion(c, answer);
    }

    /** The version that came back is recorded as published; without one the publication is unconfirmed. */
    method RecordVersion(c: Component, answer: Option<nat>) returns (r: Outcome<nat>)
      requires Working(c) && IsService(c) && ConfigStageOf(state.components[c].candidate) == Some(Publishing)
      requires answer.Some? ==> (c, answer.value) in ViewOf(journal).versions
      modifies this
      ensures Working(c) && Forward(c)
      ensures OnlyConfig(old(state).components[c], state.components[c])
      ensures r.Ok? ==> Synced() && state.components[c].candidate.config == Some(ConfigRecord(Published, Some(r.value)))
      ensures r.Raised? ==> Blamed(journal, c, r.exc) && GaveUp(journal, |old(journal)|)
      ensures Milder(ViewOf(old(journal)), ViewOf(journal))
    {
      hide ViewAt, Lawful, ValidPlan, Next, Allowed, HoldingIn, WellFormed, Milder, SameBut, Continues, Submitted,
           GaveUp, Spends, Rejections, Rollbacks, RetryValid, WorkingIn;
      WorkCalls(plan, ViewOf(journal), state, c, Steer(c));
      ContinuesSteps(journal);
      SameButSteps(state, c);
      MilderSteps(ViewOf(journal));
      var record :=
        match answer case None => ConfigRecord(Unconfirmed, None) case Some(v) => ConfigRecord(Published, Some(v));
      var saved := SaveCandidate(c, state.components[c].candidate.(config := Some(record)));
      if !saved {
        return Raised(FAILED);
      }
      if answer.None? {
        Hear(c, Errored(c, Changing, UNKNOWN));
        return Raised(UNKNOWN);
      }
      return Ok(answer.value);
    }

    method CallDeploy(c: Component)
      requires Able(c) && Allowed(plan, ViewOf(journal), DeployCall(c))
      modifies this`journal
      ensures Working(c) && Synced() && Forward(c) && journal == old(journal) + [DeployCall(c)]
      ensures Submitted(journal, |old(journal)|, c)
    {
      hide ViewAt, Lawful, ValidPlan, Next, Allowed, WorkingIn, WellFormed, Spends, Continues;
      WorkCalls(plan, ViewOf(journal), state, c, DeployCall(c));
      LastEvent(journal, DeployCall(c));
      OwedStep(ViewOf(journal), DeployCall(c));
      SpendsNothing(state, state);
      Note(DeployCall(c));
    }

    /** The mutation that creates or updates c. The answer is arbitrary and may be an error after it took effect. */
    method Submit(c: Component) returns (r: Outcome<string>)
      requires Able(c) && Allowed(plan, ViewOf(journal), DeployCall(c))
      modifies this`journal
      ensures Working(c) && Synced() && Moved(c) && NothingRead(journal)
      ensures Rejections(journal) == Rejections(old(journal)) + One(r.Raised? && IsQuotaRejection(r.exc))
      ensures r.Raised? ==> Blamed(journal, c, r.exc) && GaveUp(journal, |old(journal)|)
      ensures Submitted(journal, |old(journal)|, c)
      ensures r.Raised? && r.exc.Breakpoint? && r.exc.cause.Some? && r.exc.cause.value.quota ==>
        c == Frontend && journal[|journal| - 1].QuotaRejected?
      ensures r.Ok? && IsService(c) ==> (c, r.value) in ViewOf(journal).named
      ensures r.Raised? && IsQuotaRejection(r.exc) ==>
        c == Frontend && Rejects(r.exc) && EndsWith(journal, QuotaRejected(RecordOf(r.exc)))
    {
      hide ViewAt, Lawful, ValidPlan, Next, Allowed, WorkingIn, WellFormed, Continues, SameBut, Submitted, GaveUp,
           HoldingIn, Spends, RetryValid, Rejections, Rollbacks, InPlace, Open;
      ContinuesSteps(journal);
      SameButSteps(state, c);
      CallDeploy(c);
      r :| true;
      match r {
        case Ok(name) =>
          if IsService(c) {
            NameHeard(ViewOf(journal), c, name);
            Hear(c, Named(c, name));
          }
        case Raised(e) =>
          if c == Frontend && IsQuotaRejection(e) {
            NoteRejection(RecordOf(e));
          } else if c == Frontend {
            Hear(c, Errored(c, Changing, e));
          } else {
            r := Raised(ElsewhereRaised(e));
            Hear(c, Errored(c, Changing, ElsewhereRaised(e)));
          }
      }
    }

    /** The record of a reported rejection. */
    function RecordOf(e: Exc): QuotaRecord
      requires IsQuotaRejection(e)
    {
      QuotaRecord(ProviderCli, plan.id, plan.artifact, e.cause.value)
    }

    /** The rejection is the last one reported. */
    ghost predicate Rejects(e: Exc)
      requires IsQuotaRejection(e)
      reads this
    {
      ViewOf(journal).stage == Reported && ViewOf(journal).rejected == Some(RecordOf(e))
    }

    method NoteRejection(record: QuotaRecord)
      requires Working(Frontend) && Synced() && record.source.ProviderCli? && RecordValid(plan, record)
      modifies this`journal
      ensures Working(Frontend) && Synced() && Moved(Frontend) && journal == old(journal) + [QuotaRejected(record)]
      ensures Rejections(journal) == Rejections(old(journal)) + 1 && GaveUp(journal, |old(journal)|)
      ensures ViewOf(journal).stage == Reported && ViewOf(journal).rejected == Some(record)
    {
      hide ViewAt, Lawful, ValidPlan, Allowed, WorkingIn, WellFormed;
      WorkCalls(plan, ViewOf(journal), state, Frontend, QuotaRejected(record));
      LastEvent(journal, QuotaRejected(record));
      Note(QuotaRejected(record));
    }

    /** `Providers.deploy` for the front-end: submit once, then move the stable aliases. */
    method DeployFrontend() returns (r: Outcome<()>)
      requires Able(Frontend) && (ViewOf(journal).funded || state.components[Frontend].candidate.deployment.Some?)
      modifies this
      ensures Working(Frontend) && Moved(Frontend)
      ensures Rejections(journal) == Rejections(old(journal)) + One(r.Raised? && IsQuotaRejection(r.exc))
      ensures state.components[Frontend].quota == old(state).components[Frontend].quota
      ensures r.Raised? ==> Blamed(journal, Frontend, r.exc) && GaveUp(journal, |old(journal)|)
      ensures InPlace(Frontend, old(state).components[Frontend].candidate) || Submitted(journal, |old(journal)|, Frontend)
      ensures r.Ok? ==> Aligned(journal, |old(journal)|, plan.aliases)
      ensures r.Ok? && state.components[Frontend].candidate.deployment.None? ==> NothingRead(journal)
      ensures r.Raised? && IsQuotaRejection(r.exc) ==>
        && Synced() && Rejects(r.exc) && EndsWith(journal, QuotaRejected(RecordOf(r.exc)))
        && state.components[Frontend].candidate.deployment.None?
    {
      hide ViewAt, Lawful, ValidPlan, Next, Allowed, HoldingIn, WellFormed, SameBut, Follows, Milder, Continues,
           Submitted, GaveUp, Aligned, Spends, Rejections, Rollbacks, RetryValid;
      SameButSteps(state, Frontend);
      NothingContinues(journal);
      if state.components[Frontend].candidate.deployment.None? {
        r := CreateDeployment();
        if r.Raised? {
          return;
        }
      }
      ghost var made := journal;
      ContinuesAt(old(journal), made);
      r := MoveAliases();
      ContinuesAt(made, journal);
      ContinuesOn(old(journal), made, journal);
      SubmittedLater(made, journal, |old(journal)|, |old(journal)|, Frontend);
      if r.Raised? {
        MoreGaveUp(journal, |made|, |old(journal)|);
      } else {
        AlignedFrom(plan.aliases, journal, journal, |made|, |old(journal)|);
      }
    }

    /** Submit the front-end, and keep what came back as its identity. */
    method CreateDeployment() returns (r: Outcome<()>)
      requires Able(Frontend) && ViewOf(journal).funded && state.components[Frontend].candidate.deployment.None?
      modifies this
      ensures Working(Frontend) && Moved(Frontend) && Submitted(journal, |old(journal)|, Frontend)
      ensures Rejections(journal) == Rejections(old(journal)) + One(r.Raised? && IsQuotaRejection(r.exc))
      ensures state.components[Frontend].quota == old(state).components[Frontend].quota
      ensures r.Raised? ==> Blamed(journal, Frontend, r.exc) && GaveUp(journal, |old(journal)|)
      ensures r.Ok? ==> NothingRead(journal)
      ensures r.Raised? && IsQuotaRejection(r.exc) ==>
        && Synced() && Rejects(r.exc) && EndsWith(journal, QuotaRejected(RecordOf(r.exc)))
        && state.components[Frontend].candidate.deployment.None?
    {
      hide ViewAt, Lawful, ValidPlan, Next, Allowed, HoldingIn, WellFormed, SameBut, Follows, Milder, Continues,
           Submitted, GaveUp, Spends, Rejections, Rollbacks, RetryValid;
      SameButSteps(state, Frontend);
      ContinuesSteps(journal);
      MayDeploy(plan, ViewOf(journal), state, Frontend);
      var submitted := Submit(Frontend);
      if submitted.Raised? {
        return Raised(submitted.exc);
      }
      var read := ReadDeployment();
      if read.Raised? {
        return Raised(read.exc);
      }
      var ok;
      if read.value == "" {
        ok := SaveWork(Frontend);
      } else {
        ok := SaveCandidate(Frontend, state.components[Frontend].candidate.(deployment := Some(read.value)));
      }
      if !ok {
        return Raised(FAILED);
      }
      return Ok(());
    }

    /** The identity of the deployment behind the address that a submission returned. */
    method ReadDeployment() returns (r: Outcome<string>)
      requires Working(Frontend) && Synced()
      modifies this`journal
      ensures Working(Frontend) && Synced() && Forward(Frontend) && NothingRead(journal)
      ensures r.Ok? ==> (Frontend, r.value) in ViewOf(journal).named
      ensures r.Raised? ==>
        Blamed(journal, Frontend, r.exc) && !IsQuotaRejection(r.exc) && GaveUp(journal, |old(journal)|)
    {
      hide ViewAt, Lawful, ValidPlan, Next, Allowed, WorkingIn, WellFormed;
      r :| true;
      match r {
        case Ok(name) =>
          NameHeard(ViewOf(journal), Frontend, name);
          Hear(Frontend, Named(Frontend, name));
        case Raised(e) =>
          r := Raised(ElsewhereRaised(e));
          Hear(Frontend, Errored(Frontend, Changing, ElsewhereRaised(e)));
      }
    }

    /** `Providers.deploy` for auth and bff: publish the configuration, create the revision once, route traffic. */
    method DeployService(c: Component) returns (r: Outcome<()>)
      requires Working(c) && Synced() && IsService(c)
      requires c !in ViewOf(journal).unreconciled || state.components[c].candidate.revision.Some?
      modifies this
      ensures Working(c) && Forward(c) && state.components[c].quota == old(state).components[c].quota
      ensures r.Raised? ==> Blamed(journal, c, r.exc) && GaveUp(journal, |old(journal)|)
      ensures r.Ok? ==> InPlace(c, old(state).components[c].candidate) || Submitted(journal, |old(journal)|, c)
      ensures r.Ok? ==> Steered(journal, |old(journal)|, c)
    {
      hide ViewAt, Lawful, ValidPlan, Next, Allowed, HoldingIn, WellFormed, SameBut, Continues, Submitted, GaveUp,
           Steered, Spends;
      ContinuesSteps(journal);
      MakingSteps(journal);
      SameButSteps(state, c);
      var version := PrepareConfig(c);
      if version.Raised? {
        return Raised(version.exc);
      }
      if state.components[c].candidate.revision.None? {
        MayDeploy(plan, ViewOf(journal), state, c);
        var submitted := Submit(c);
        if submitted.Raised? {
          return Raised(submitted.exc);
        }
        var ok := SaveCandidate(c, state.components[c].candidate.(revision := Some(submitted.value)));
        if !ok {
          return Raised(FAILED);
        }
      }
      r := RouteTraffic(c);
    }

    /** The retained revision must be the candidate; then all traffic goes to it. */
    method RouteTraffic(c: Component) returns (r: Outcome<()>)
      requires Working(c) && IsService(c)
      modifies this`journal
      ensures Working(c) && Forward(c) && (r.Raised? ==> Blamed(journal, c, r.exc) && GaveUp(journal, |old(journal)|))
      ensures r.Ok? ==> Steered(journal, |old(journal)|, c)
    {
      hide ViewAt, Lawful, ValidPlan, Next, Allowed, WorkingIn, WellFormed, SameBut, Continues, Submitted, GaveUp,
           Steered, Follows, Milder, Spends;
      ContinuesSteps(journal);
      WorkCalls(plan, ViewOf(journal), state, c, Steer(c));
      SameButSteps(state, c);
      var ready: Outcome<bool> :| true;
      if ready != Ok(true) {
        var e := if ready.Raised? then ready.exc else FAILED;
        Hear(c, Errored(c, Changing, e));
        return Raised(e);
      }
      r := SteerCalls(c, 1);
    }

    /** `document_import_job_if_exists`, with whether an existing job is the one this attempt created. */
    method ReadJob(c: Component, task: Task) returns (r: Outcome<Option<bool>>)
      requires Working(c) && c == DocumentImport && task != Observing
      modifies this`journal
      ensures Working(c) && Forward(c) && Durable(journal) == Durable(old(journal))
      ensures Milder(ViewOf(old(journal)), ViewOf(journal))
      ensures journal == old(journal) + [if r.Ok? then JobRead(r.value) else Errored(c, task, r.exc)]
      ensures if r.Ok? then r.value.Some? ==> GaveUp(journal, |old(journal)|)
              else task == Changing ==> GaveUp(journal, |old(journal)|)
      ensures r.Ok? && r.value.None? ==> ViewOf(journal).absent
      ensures r.Ok? && r.value == Some(true) ==> ViewOf(journal).owned
    {
      hide ViewAt, Lawful, ValidPlan, Next, Allowed, WorkingIn, WellFormed;
      r :| true;
      if r.Ok? {
        JobSeen(ViewOf(journal), r.value);
        Hear(c, JobRead(r.value));
      } else {
        Hear(c, Errored(c, task, r.exc));
      }
    }

    /** The job must be absent still; its creation is marked durably. */
    method MarkCreation() returns (r: Outcome<()>)
      requires Working(DocumentImport) && Synced()
      requires state.components[DocumentImport].candidate.creation != Some(Created)
      modifies this
      ensures Working(DocumentImport) && Forward(DocumentImport) && Milder(ViewOf(old(journal)), ViewOf(journal))
      ensures state.components[DocumentImport].quota == old(state).components[DocumentImport].quota
      ensures state.components[DocumentImport].candidate.creation != Some(Created)
      ensures r.Ok? ==> Synced() && state.components[DocumentImport].candidate.creation == Some(Creating)
      ensures r.Raised? ==> Blamed(journal, DocumentImport, r.exc) && GaveUp(journal, |old(journal)|)
    {
      hide ViewAt, Lawful, ValidPlan, Next, Allowed, HoldingIn, WellFormed, SameBut, CandidateAdvances, Milder,
           Continues, Submitted, GaveUp;
      ContinuesSteps(journal);
      SameButSteps(state, DocumentImport);
      MilderSteps(ViewOf(journal));
      CreationAdvances(state.components[DocumentImport].candidate);
      var absent := ReadJob(DocumentImport, Changing);
      if absent.Raised? {
        return Raised(absent.exc);
      }
      if absent.value.Some? {
        return Raised(FAILED);
      }
      var ok := SaveCandidate(DocumentImport, state.components[DocumentImport].candidate.(creation := Some(Creating)));
      return if ok then Ok(()) else Raised(FAILED);
    }

    /** The job created is read back as this attempt's own, and marked so. */
    method ConfirmCreation() returns (r: Outcome<()>)
      requires Working(DocumentImport) && state.components[DocumentImport].candidate.creation != Some(Created)
      modifies this
      ensures Working(DocumentImport) && Forward(DocumentImport)
      ensures state.components[DocumentImport].quota == old(state).components[DocumentImport].quota
      ensures state.components[DocumentImport].candidate.creation == Some(Created) ==> ViewOf(journal).owned
      ensures r.Ok? ==>
        state.components[DocumentImport].candidate.creation == Some(Created) && Durable(journal) == Some(state)
      ensures r.Raised? ==> Blamed(journal, DocumentImport, r.exc)
    {
      hide ViewAt, Lawful, ValidPlan, Next, Allowed, HoldingIn, WellFormed, SameBut, CandidateAdvances, Continues,
           Submitted, GaveUp;
      ContinuesSteps(journal);
      WorkCalls(plan, ViewOf(journal), state, DocumentImport, Steer(DocumentImport));
      SameButSteps(state, DocumentImport);
      CreationAdvances(state.components[DocumentImport].candidate);
      var owned := ReadJob(DocumentImport, Changing);
      if owned.Raised? {
        return Raised(owned.exc);
      }
      if owned.value != Some(true) {
        return Raised(FAILED);
      }
      var ok := SaveCandidate(DocumentImport, state.components[DocumentImport].candidate.(creation := Some(Created)));
      if !ok {
        return Raised(FAILED);
      }
      r := SteerCalls(DocumentImport, 0);
    }

    lemma CreationAdvances(a: Candidate)
      ensures a.creation != Some(Created) ==> CandidateAdvances(a, a.(creation := Some(Creating)))
      ensures CandidateAdvances(a, a.(creation := Some(Created)))
    {
    }

    /**
     `document_import_create`: only when the prior snapshot saw no job and none appeared since. Creation is marked, the
     job created once, and marked as created when it is read back as this attempt's own.
     */
    method CreateDocumentImport() returns (r: Outcome<()>)
      requires Working(DocumentImport) && Synced() && DocumentImport !in ViewOf(journal).called
      requires state.components[DocumentImport].candidate.creation != Some(Created)
      modifies this
      ensures Working(DocumentImport) && Forward(DocumentImport)
      ensures state.components[DocumentImport].quota == old(state).components[DocumentImport].quota
      ensures state.components[DocumentImport].candidate.creation == Some(Created) ==> ViewOf(journal).owned
      ensures r.Ok? ==>
        state.components[DocumentImport].candidate.creation == Some(Created) && Durable(journal) == Some(state)
      ensures Submitted(journal, |old(journal)|, DocumentImport) || GaveUp(journal, |old(journal)|)
      ensures r.Ok? ==> Submitted(journal, |old(journal)|, DocumentImport)
      ensures r.Raised? ==> Blamed(journal, DocumentImport, r.exc)
    {
      hide ViewAt, Lawful, ValidPlan, Next, Allowed, HoldingIn, WellFormed, SameBut, Continues, Submitted, GaveUp;
      ContinuesSteps(journal);
      SameButSteps(state, DocumentImport);
      r := MarkCreation();
      if r.Raised? {
        return;
      }
      MayDeploy(plan, ViewOf(journal), state, DocumentImport);
      var submitted := Submit(DocumentImport);
      if submitted.Raised? {
        return Raised(submitted.exc);
      }
      r := ConfirmCreation();
    }

    /** `Providers.deploy` for an existing job: uploads, then one update. */
    method DeployJob(c: Component) returns (r: Outcome<()>)
      requires Working(c) && Synced() && IsJob(c) && c !in ViewOf(journal).called
      requires c == DocumentImport && state.components[c].candidate.createIfAbsent == Some(true) ==>
        state.components[c].candidate.creation == Some(Created)
      modifies this
      ensures Working(c) && Forward(c) && state.components[c].quota == old(state).components[c].quota
      ensures r.Raised? ==> Blamed(journal, c, r.exc) && GaveUp(journal, |old(journal)|)
      ensures r.Ok? ==> Submitted(journal, |old(journal)|, c)
    {
      hide ViewAt, Lawful, ValidPlan, Next, Allowed, HoldingIn, WellFormed, SameBut, Continues, Submitted, GaveUp;
      ContinuesSteps(journal);
      SameButSteps(state, c);
      if c == Worker {
        r := SteerCalls(c, 0);
        if r.Raised? {
          return;
        }
      }
      MayDeploy(plan, ViewOf(journal), state, c);
      var submitted := Submit(c);
      return if submitted.Raised? then Raised(submitted.exc) else Ok(());
    }

    method ProviderDeploy(c: Component) returns (r: Outcome<()>)
      requires Able(c)
      requires IsJob(c) ==> c !in ViewOf(journal).called
      requires IsService(c) ==> c !in ViewOf(journal).unreconciled || state.components[c].candidate.revision.Some?
      requires c == Frontend ==> ViewOf(journal).funded || state.components[c].candidate.deployment.Some?
      modifies this
      ensures Working(c) && Moved(c) && state.components[c].quota == old(state).components[c].quota
      ensures r.Raised? ==> Blamed(journal, c, r.exc)
      ensures TriedSince(plan.aliases, journal, |old(journal)|, c, InPlace(c, old(state).components[c].candidate))
      ensures old(Licensed()) && c == Frontend ==> Submitted(journal, |old(journal)|, c)
      ensures r.Ok? && Unobservable(c, state.components[c].candidate) ==> NothingRead(journal)
      ensures Rejections(journal) == Rejections(old(journal)) + One(c == Frontend && r.Raised?
                                                                    && IsQuotaRejection(r.exc))
      ensures r.Raised? && IsQuotaRejection(r.exc) && c == Frontend ==>
        && Synced() && Rejects(r.exc) && EndsWith(journal, QuotaRejected(RecordOf(r.exc)))
        && state.components[Frontend].candidate.deployment.None?
    {
      hide ViewAt, Lawful, ValidPlan, Next, Allowed, HoldingIn, WellFormed, Spends, GaveUp, Submitted, Steered,
           Aligned, Continues, SameBut, Rejections;
      var candidate := state.components[c].candidate;
      if c == Frontend {
        r := DeployFrontend();
      } else if c == DocumentImport && candidate.createIfAbsent == Some(true) && candidate.creation != Some(Created) {
        r := CreateDocumentImport();
      } else if IsService(c) {
        r := DeployService(c);
      } else {
        r := DeployJob(c);
      }
    }

    // ---- readback --------------------------------------------------------------------------------

    /** `observe` on the candidate. A front-end without a deployment cannot be observed. */
    method Observe(c: Component, task: Task) returns (r: Outcome<bool>)
      requires Working(c) && task != Changing
      modifies this`journal
      ensures Working(c) && Forward(c) && Durable(journal) == Durable(old(journal))
      ensures Follows(ViewOf(old(journal)), ViewOf(journal))
      ensures ViewOf(journal).readings <= ViewOf(old(journal)).readings + 1
      ensures
        if Unobservable(c, state.components[c].candidate) then r == Raised(UNKNOWN) && journal == old(journal)
        else journal == old(journal)
               + [if r.Ok? then ReadCandidate(c, state.components[c].candidate, r.value) else Errored(c, task, r.exc)]
      ensures r.Ok? ==> TouchedBy(ViewOf(journal), c, ReadCandidate(c, state.components[c].candidate, r.value))
    {
      hide ViewAt, Lawful, ValidPlan, Next, Allowed, WorkingIn, WellFormed;
      WorkCalls(plan, ViewOf(journal), state, c, Steer(c));
      var candidate := state.components[c].candidate;
      if c == Frontend && candidate.deployment.None? {
        return Raised(UNKNOWN);
      }
      r :| true;
      if r.Ok? {
        ReadTouches(ViewOf(journal), c, candidate, r.value);
        Hear(c, ReadCandidate(c, candidate, r.value));
      } else {
        Hear(c, Errored(c, task, r.exc));
      }
    }

    /**
     `poll`: it succeeds with the first reading that matches, fails plainly exactly after twelve readings that do not,
     and otherwise ends unknown with the first reading that raises.
     */
    method Poll(c: Component) returns (r: Outcome<()>, ghost misses: nat)
      requires Working(c)
      modifies this`journal
      ensures Working(c) && Forward(c) && Durable(journal) == Durable(old(journal))
      ensures misses <= 12 && (r == Raised(FAILED) <==> misses == 12)
      ensures r.Raised? && misses < 12 ==> LeavesUnknown(r.exc)
      ensures var candidate := state.components[c].candidate;
        && (r.Ok? ==>
              && journal == old(journal) + Readings(ReadCandidate(c, candidate, false), misses, [ReadCandidate(c, candidate, true)])
              && TouchedBy(ViewOf(journal), c, ReadCandidate(c, candidate, true)))
        && (r == Raised(FAILED) ==> journal == old(journal) + Readings(ReadCandidate(c, candidate, false), misses, []))
        && (r.Raised? && r != Raised(FAILED) ==>
              if Unobservable(c, candidate) then journal == old(journal)
              else exists e :: journal == old(journal) + Readings(ReadCandidate(c, candidate, false), misses, [Errored(c, Polling, e)]))
    {
      hide ViewAt, Lawful, ValidPlan, Next, Allowed, WorkingIn, WellFormed, SameBut, Milder, Readings, Spends,
           Continues, HoldingIn, Rejections, Rollbacks, TouchedBy;
      WorkCalls(plan, ViewOf(journal), state, c, Steer(c));
      SameButSteps(state, c);
      ContinuesSteps(journal);
      ghost var miss := ReadCandidate(c, state.components[c].candidate, false);
      misses := 0;
      NoReadings(journal, miss);
      for n := 0 to POLL_READS
        invariant Working(c) && Forward(c) && Durable(journal) == Durable(old(journal)) && misses == n
        invariant journal == old(journal) + Readings(miss, misses, [])
        invariant Unobservable(c, state.components[c].candidate) ==> n == 0
      {
        ReadingsEnd(old(journal), miss, misses);
        var seen := Observe(c, Polling);
        match seen {
          case Ok(true) => return Ok(()), misses;
          case Ok(false) => misses := misses + 1;
          case Raised(e) => return Raised(if e.Breakpoint? then UNKNOWN else e), misses;
        }
      }
      return Raised(FAILED), misses;
    }

    lemma NoReadings(j: seq<Event>, e: Event)
      ensures j + Readings(e, 0, []) == j
    {
    }

    /** Record c as verified. */
    method Finish(c: Component) returns (r: Outcome<()>)
      requires Working(c) && TouchedBy(ViewOf(journal), c, ReadCandidate(c, state.components[c].candidate, true))
      modifies this
      ensures Holding(c) && Forward(c)
      ensures r.Ok? ==> Synced() && state.components[c] == old(state).components[c].(status := Verified)
      ensures r.Raised? ==> r == Raised(FAILED) && Unsaved(journal)
      ensures ViewOf(journal).readings == ViewOf(old(journal)).readings
    {
      hide ViewAt, Lawful, ValidPlan, Next, SaveAllowed, HoldingIn, WellFormed, Spends, Grants, Continues, Resolved;
      WorkCalls(plan, ViewOf(journal), state, c, Steer(c));
      ghost var t := WithEntry(state, c, state.components[c].(status := Verified)).(sequence := state.sequence + 1);
      WorkVerifies(plan, ViewOf(journal), state, t, c);
      HoldingSaves(plan, ViewOf(journal), t, c);
      NoSpendingNoGrant(ViewOf(journal), t);
      SpendsNothing(t, t);
      SavedHolds(plan, ViewOf(journal), t, c);
      HoldingErrs(plan, ViewOf(journal), t, c);
      HoldingErrs(plan, Next(ViewOf(journal), Saved(t)), t, c);
      state := WithEntry(state, c, state.components[c].(status := Verified));
      assert state.(sequence := state.sequence + 1) == t;
      var ok := Save();
      return if ok then Ok(()) else Raised(FAILED);
    }

    // ---- reconciliation and quota ------------------------------------------------------------------

    /**
     The deployments of this attempt in a complete listing and the pages read, or an error. `api` is the provider's
     answer to every request of the walk.
     */
    method ListDeployments() returns (r: Outcome<(seq<string>, nat)>, ghost api: Paginations.Api)
      requires Working(Frontend)
      modifies this`journal
      ensures Working(Frontend) && Forward(Frontend) && Durable(journal) == Durable(old(journal))
      ensures Milder(ViewOf(old(journal)), ViewOf(journal))
      ensures r.Ok? <==> project.Some? && project.value != "" && Paginations.Enumerable(api)
      ensures journal == old(journal) + [if r.Ok? then Listed(r.value.0) else Errored(Frontend, Discovering, FAILED)]
      ensures r.Raised? ==> r == Raised(FAILED)
      ensures r.Ok? ==> FoundIn(api, r.value.0, r.value.1) && r.value.1 > 0
      ensures r.Ok? ==> ViewOf(journal).last == Some(Listed(r.value.0))
      ensures r.Ok? && r.value.0 != [] ==> FoundSince(journal, |old(journal)|, Frontend)
      ensures r.Ok? ==> forall x :: x in r.value.0 ==> (Frontend, x) in ViewOf(journal).named
      ensures r.Ok? && r.value.0 == [] && ViewOf(old(journal)).stage == Reported ==> ViewOf(journal).stage == Confirmed
    {
      hide ViewAt, Lawful, ValidPlan, Allowed, Next, WorkingIn, WellFormed, Milder, Paginations.Enumerable,
           Paginations.CompleteListing,
           Paginations.Walked, Paginations.Wanted, FoundIn, FoundSince, Spends, Follows, Continues;
      MilderSteps(ViewOf(journal));
      var answers: Paginations.Api := *;
      api := answers;
      if project.None? || project.value == "" {
        Hear(Frontend, Errored(Frontend, Discovering, FAILED));
        return Raised(FAILED), api;
      }
      var listed := Paginations.DeploymentMatches(answers);
      if listed.Failure? {
        Hear(Frontend, Errored(Frontend, Discovering, FAILED));
        return Raised(FAILED), api;
      }
      var found, pages := listed.value.0, listed.value.1;
      ListingFound(api, found, pages);
      var names := Paginations.Identities(found);
      ListingShows(ViewOf(journal), names);
      Hear(Frontend, Listed(names));
      r := Ok((names, pages));
    }

    /**
     `reconcile`: discover an accepted creation, never repeat it. Every error ends unknown, and rests on an answer or on
     a publication that was not confirmed.
     */
    method Reconcile(c: Component, rejection: bool) returns (r: Outcome<Option<Reconciliation>>)
      requires Working(c) && NothingRead(journal)
      modifies this
      ensures Working(c) && Forward(c) && state.components[c].quota == old(state).components[c].quota
      ensures Milder(ViewOf(old(journal)), ViewOf(journal)) && NothingRead(journal)
      ensures old(Synced()) && r.Ok? ==> Synced()
      ensures r.Raised? ==>
        r == Raised(UNKNOWN) && (Unsaved(journal) || NoAnswer(journal, c, state.components[c].candidate))
      ensures r.Ok? && Sought(c, old(state).components[c].candidate) ==>
        |journal| > |old(journal)| && LooksUp(journal[|old(journal)|], c)
      ensures Unobservable(c, old(state).components[c].candidate) ==>
        |journal| > |old(journal)| && ListsOrFails(journal[|old(journal)|])
      ensures Unobservable(c, old(state).components[c].candidate) && rejection && journal[|old(journal)|] == Listed([]) ==>
        r.Ok? && r.value.Some? && r.value.value.matches == 0
      ensures r.Ok? && IsService(c) ==>
        ServiceFound(c, old(state).components[c].candidate, state.components[c].candidate)
      ensures r.Ok? && r.value.Some? ==> c == Frontend && r.value.value.matches in {0, 1}
      ensures r.Ok? && r.value.Some? && r.value.value.matches == 0 ==>
        && rejection && state == old(state) && ViewOf(journal).last == Some(Listed([]))
        && ReconciliationValid(r.value, project, 0) && state.components[c].candidate.deployment.None?
        && (ViewOf(old(journal)).stage == Reported ==> ViewOf(journal).stage == Confirmed)
      ensures r.Ok? && r.value.Some? && r.value.value.matches == 1 ==>
        state.components[c].candidate.deployment.Some? && EndsWith(journal, Saved(state))
      ensures r == Ok(None) && c == Frontend ==> journal == old(journal) && state == old(state)
      ensures r.Ok? && InPlace(c, state.components[c].candidate) ==>
        InPlace(c, old(state).components[c].candidate) || FoundSince(journal, |old(journal)|, c)
      ensures r.Ok? && c == Frontend ==> r.value.Some? || state.components[c].candidate.deployment.Some?
    {
      hide ViewAt, Lawful, ValidPlan, Next, Allowed, HoldingIn, WellFormed, SameBut, Follows, Milder,
           CandidateAdvances, Stuck, Spends, Continues, FoundSince;
      ContinuesSteps(journal);
      SameButSteps(state, c);
      MilderSteps(ViewOf(journal));
      WorkCalls(plan, ViewOf(journal), state, c, Steer(c));
      var candidate := state.components[c].candidate;
      if c == DocumentImport && candidate.createIfAbsent == Some(true) {
        r := ReconcileJob();
      } else if IsService(c) {
        r := ReconcileRevision(c);
      } else if c == Frontend && candidate.deployment.None? {
        r := ReconcileDeployment(rejection);
      } else {
        return Ok(None);
      }
    }

    /** A job that this attempt created is marked as created. */
    method ReconcileJob() returns (r: Outcome<Option<Reconciliation>>)
      requires Working(DocumentImport)
      modifies this
      ensures Working(DocumentImport) && Forward(DocumentImport)
      ensures state.components[DocumentImport].quota == old(state).components[DocumentImport].quota
      ensures Milder(ViewOf(old(journal)), ViewOf(journal)) && NothingRead(journal)
      ensures old(Synced()) && r.Ok? ==> Synced()
      ensures r == Raised(UNKNOWN) || r == Ok(None)
      ensures r.Raised? ==> Unsaved(journal) || LeavesOpen(journal[|journal| - 1])
      ensures r.Ok? ==> |journal| > |old(journal)| && LooksUp(journal[|old(journal)|], DocumentImport)
    {
      hide ViewAt, Lawful, ValidPlan, Next, Allowed, HoldingIn, WellFormed, SameBut, Milder, CandidateAdvances,
           Spends, Rejections, Rollbacks, RetryValid;
      WorkCalls(plan, ViewOf(journal), state, DocumentImport, Steer(DocumentImport));
      SameButSteps(state, DocumentImport);
      MilderSteps(ViewOf(journal));
      var found := ReadJob(DocumentImport, Discovering);
      if found.Raised? {
        return Raised(UNKNOWN);
      }
      if found.value.None? {
        return Ok(None);
      }
      if !found.value.value {
        return Raised(UNKNOWN);
      }
      ghost var read := journal;
      r := TakeOverJob();
      assert read <= journal && journal[|old(journal)|] == read[|old(journal)|];
    }

    /** The job is this attempt's own: it is marked as created, and its invoker granted. */
    method TakeOverJob() returns (r: Outcome<Option<Reconciliation>>)
      requires Working(DocumentImport) && ViewOf(journal).owned && NothingRead(journal)
      modifies this
      ensures Working(DocumentImport) && Forward(DocumentImport)
      ensures state.components[DocumentImport].quota == old(state).components[DocumentImport].quota
      ensures Milder(ViewOf(old(journal)), ViewOf(journal)) && NothingRead(journal)
      ensures r == Raised(UNKNOWN) || (r == Ok(None) && Synced())
      ensures r.Raised? ==> Unsaved(journal) || LeavesOpen(journal[|journal| - 1])
    {
      hide ViewAt, Lawful, ValidPlan, Next, Allowed, HoldingIn, WellFormed, SameBut, Milder, CandidateAdvances,
           Continues, Spends, Rejections, Rollbacks, RetryValid, Finds, WorkingIn;
      WorkHolds(plan, ViewOf(journal), state, DocumentImport);
      SameButSteps(state, DocumentImport);
      MilderSteps(ViewOf(journal));
      CreationAdvances(state.components[DocumentImport].candidate);
      var ok := SaveCandidate(DocumentImport, state.components[DocumentImport].candidate.(creation := Some(Created)));
      if !ok {
        return Raised(UNKNOWN);
      }
      ghost var kept := journal;
      var granted := SteerCalls(DocumentImport, 0);
      ContinuesOn(old(journal), kept, journal);
      return if granted.Raised? then Raised(UNKNOWN) else Ok(None);
    }

    /** After a reconciliation that returned, a service is known, known not to be there, or was never submitted. */
    ghost predicate ServiceFound(c: Component, a: Candidate, b: Candidate)
      reads this
    {
      && b.config == a.config && (a.revision.Some? ==> b.revision == a.revision)
      && (a.revision.None? ==> !Stuck(a))
      && (b.revision.Some? || c !in ViewOf(journal).unreconciled || ConfigStageOf(b) != Some(Published))
    }

    /** The newest revision is taken over if it is exactly the candidate; otherwise the submission made none. */
    method ReconcileRevision(c: Component) returns (r: Outcome<Option<Reconciliation>>)
      requires Working(c) && IsService(c) && NothingRead(journal)
      modifies this
      ensures Working(c) && Forward(c) && state.components[c].quota == old(state).components[c].quota
      ensures Milder(ViewOf(old(journal)), ViewOf(journal)) && NothingRead(journal)
      ensures old(Synced()) && r.Ok? ==> Synced()
      ensures r == Raised(UNKNOWN) || r == Ok(None)
      ensures r.Raised? ==>
        Unsaved(journal) || Stuck(state.components[c].candidate) || LeavesOpen(journal[|journal| - 1])
      ensures r.Ok? ==> ServiceFound(c, old(state).components[c].candidate, state.components[c].candidate)
      ensures r.Ok? && InPlace(c, state.components[c].candidate) ==>
        InPlace(c, old(state).components[c].candidate) || FoundSince(journal, |old(journal)|, c)
      ensures r.Ok? && Sought(c, old(state).components[c].candidate) ==>
        |journal| > |old(journal)| && LooksUp(journal[|old(journal)|], c)
    {
      hide ViewAt, Lawful, ValidPlan, Next, Allowed, HoldingIn, WellFormed, SameBut, Follows, Milder, Continues,
           Spends, FoundSince;
      ContinuesSteps(journal);
      MakingSteps(journal);
      SameButSteps(state, c);
      MilderSteps(ViewOf(journal));
      WorkCalls(plan, ViewOf(journal), state, c, Steer(c));
      var candidate := state.components[c].candidate;
      if candidate.revision.Some? {
        return Ok(None);
      }
      if ConfigStageOf(candidate) in {Some(Publishing), Some(Unconfirmed)} {
        return Raised(UNKNOWN);
      }
      if ConfigStageOf(candidate) != Some(Published) {
        return Ok(None);
      }
      if candidate.config.value.version.None? {
        return Raised(UNKNOWN);
      }
      var latest := ReadRevision(c);
      match latest
      case Raised(_) => return Raised(UNKNOWN);
      case Ok((name, matches)) =>
        if matches {
          ghost var read := journal;
          var ok := SaveCandidate(c, candidate.(revision := Some(name)));
          ContinuesAt(read, journal);
          if !ok {
            return Raised(UNKNOWN);
          }
        }
        return Ok(None);
    }

    /** The newest revision of the service, and whether it is exactly the candidate. */
    method ReadRevision(c: Component) returns (r: Outcome<(string, bool)>)
      requires Working(c)
      modifies this`journal
      ensures Working(c) && Forward(c) && Durable(journal) == Durable(old(journal))
      ensures Milder(ViewOf(old(journal)), ViewOf(journal))
      ensures journal == old(journal) + [if r.Ok? then RevisionRead(c, r.value.0, r.value.1) else Errored(c, Discovering, r.exc)]
      ensures r.Ok? && r.value.1 ==> (c, r.value.0) in ViewOf(journal).named && FoundSince(journal, |old(journal)|, c)
      ensures r.Ok? && !r.value.1 ==> c !in ViewOf(journal).unreconciled
    {
      hide ViewAt, Lawful, ValidPlan, Next, Allowed, WorkingIn, WellFormed;
      r :| true;
      if r.Ok? {
        RevisionHeard(ViewOf(journal), c, r.value.0, r.value.1);
        Hear(c, RevisionRead(c, r.value.0, r.value.1));
      } else {
        Hear(c, Errored(c, Discovering, r.exc));
      }
    }

    method ReconcileDeployment(rejection: bool) returns (r: Outcome<Option<Reconciliation>>)
      requires Working(Frontend) && state.components[Frontend].candidate.deployment.None?
      modifies this
      ensures Working(Frontend) && Forward(Frontend)
      ensures state.components[Frontend].quota == old(state).components[Frontend].quota
      ensures Milder(ViewOf(old(journal)), ViewOf(journal)) && NothingRead(journal)
      ensures old(Synced()) && r.Ok? ==> Synced()
      ensures r.Raised? ==> r == Raised(UNKNOWN) && (Unsaved(journal) || LeavesOpen(journal[|journal| - 1]))
      ensures r.Ok? ==> |journal| > |old(journal)| && LooksUp(journal[|old(journal)|], Frontend)
      ensures |journal| > |old(journal)| && ListsOrFails(journal[|old(journal)|])
      ensures rejection && journal[|old(journal)|] == Listed([]) ==>
        r.Ok? && r.value.Some? && r.value.value.matches == 0
      ensures r.Ok? ==> r.value.Some? && r.value.value.matches in {0, 1}
      ensures r.Ok? && r.value.value.matches == 0 ==>
        && rejection && state == old(state) && ViewOf(journal).last == Some(Listed([]))
        && ReconciliationValid(r.value, project, 0)
        && (ViewOf(old(journal)).stage == Reported ==> ViewOf(journal).stage == Confirmed)
      ensures r.Ok? && r.value.value.matches == 1 ==>
        && state.components[Frontend].candidate.deployment.Some? && EndsWith(journal, Saved(state))
        && FoundSince(journal, |old(journal)|, Frontend)
    {
      hide ViewAt, Lawful, ValidPlan, Next, Allowed, HoldingIn, WellFormed, SameBut, Follows, Milder, Continues,
           FoundIn, Paginations.Enumerable, CandidateAdvances, Submitted, GaveUp, FoundSince, Spends, Rejections,
           Rollbacks, RetryValid, Open;
      SameButSteps(state, Frontend);
      MilderSteps(ViewOf(journal));
      var listed, api := ListDeployments();
      match listed
      case Raised(_) => return Raised(UNKNOWN);
      case Ok((matches, pages)) =>
        var found := Reconciliation(project.value, true, pages, |matches|);
        if matches == [] && rejection {
          return Ok(Some(found));
        }
        if |matches| != 1 {
          return Raised(UNKNOWN);
        }
        ghost var read := journal;
        DeploymentAdvances(state.components[Frontend].candidate, matches[0]);
        var ok := SaveCandidate(Frontend, state.components[Frontend].candidate.(deployment := Some(matches[0])));
        ContinuesAt(read, journal);
        ContinuesOn(old(journal), read, journal);
        FoundFrom(read, journal, |old(journal)|, Frontend);
        return if ok then Ok(Some(found)) else Raised(UNKNOWN);
    }

    lemma DeploymentAdvances(a: Candidate, name: string)
      requires a.deployment.None?
      ensures CandidateAdvances(a, a.(deployment := Some(name)))
    {
    }

    /**
     `_save_quota_retry`: append the record unless an equal one is kept, set the pending flag, save. A save that uses up
     an authorisation after an empty listing licenses a submission.
     */
    method SaveQuotaRetry(record: Option<QuotaRecord>, pending: bool, reconciliation: Option<Reconciliation>)
      returns (r: Outcome<()>)
      requires Working(Frontend) && Synced()
      requires MayRecord(ViewOf(journal), state.components[Frontend].quota.rejections, record, pending)
      modifies this
      ensures Forward(Frontend)
      ensures state.components[Frontend].candidate == old(state).components[Frontend].candidate
      ensures Milder(ViewOf(old(journal)), ViewOf(journal))
      ensures r.Ok? ==>
        && Lives() && WorkingIn(plan, ViewOf(journal), state, Frontend) && Durable(journal) == Some(state)
        && EndsWith(journal, Saved(state)) && ViewOf(journal) == Next(ViewOf(old(journal)), Saved(state))
        && ViewOf(journal).owed == Grants(ViewOf(old(journal)), state)
      ensures r.Ok? ==>
        state.components[Frontend].quota == Recorded(old(state).components[Frontend].quota, record, pending, reconciliation)
      ensures r.Raised? ==> Holding(Frontend)
      ensures r.Raised? && (record.Some? ==> RecordValid(plan, record.value)) ==> Unsaved(journal)
    {
      hide ViewAt, Lawful, ValidPlan, Next, Allowed, SaveAllowed, HoldingIn, WellFormed, Milder, SameBut, MayRecord,
           Spends, Grants, Continues;
      SameButSteps(state, Frontend);
      MilderSteps(ViewOf(journal));
      ContinuesSteps(journal);
      WorkCalls(plan, ViewOf(journal), state, Frontend, Steer(Frontend));
      SpendsNothing(state, state);
      if record.Some? && !RecordValid(plan, record.value) {
        return Raised(FAILED);
      }
      var entry := state.components[Frontend];
      WorkRecords(plan, ViewOf(journal), state, record, pending, reconciliation);
      state := WithEntry(state, Frontend, entry.(quota := Recorded(entry.quota, record, pending, reconciliation)));
      ghost var s, t := state, state.(sequence := state.sequence + 1);
      WorkSaves(plan, ViewOf(journal), s, t, Frontend);
      WorkMayFail(plan, ViewOf(journal), s, t, Frontend);
      var ok := Save();
      return if ok then Ok(()) else Raised(FAILED);
    }

    /** `_pending_quota_rejection`: the last record, if a retry was armed after a complete empty listing. */
    function PendingRejection(q: Quota): Option<QuotaRecord> {
      if q.retryPending && q.rejections != [] && RecordsValid(plan, q) && ReconciliationValid(q.reconciliation, project, 0)
      then Some(q.rejections[|q.rejections| - 1]) else None
    }

    /**
     A retry is pending that was armed, after a complete empty listing of the project, by a rejection of this plan.
     */
    predicate RetryValid(q: Quota) {
      && q.retryPending && q.rejections != [] && (forall r :: r in q.rejections ==> RecordValid(plan, r))
      && q.reconciliation.Some?
      && var l := q.reconciliation.value;
      && project == Some(l.project) && l.project != "" && l.complete && l.pagesRead > 0 && l.matches == 0
    }

    /** What is armed after a rejection can be used by a later run of the same project. */
    lemma ArmedIsValid(q: Quota, record: QuotaRecord, found: Option<Reconciliation>)
      requires Frontend in state.components && WellFormed(plan, state)
      requires state.components[Frontend].quota == Recorded(q, Some(record), true, found)
      requires ReconciliationValid(found, project, 0)
      ensures RetryValid(state.components[Frontend].quota)
    {
      assert RecordsValid(plan, state.components[Frontend].quota);
      assert record in state.components[Frontend].quota.rejections;
    }

    /** `_retained_quota_rejection`: evidence of an older run, only while no rejection is recorded. */
    method RetainedRejection(q: Quota) returns (r: Outcome<Option<QuotaRecord>>)
      requires Working(Frontend) && Synced() && NothingRead(journal)
      modifies this`journal
      ensures Working(Frontend) && Synced() && Forward(Frontend) && NothingRead(journal)
      ensures r.Raised? ==> r == Raised(UNKNOWN) && EndsWith(journal, EvidenceRead(None))
      ensures r.Ok? && r.value.Some? ==>
        && q.rejections == [] && RecordValid(plan, r.value.value) && r.value.value.source.RetainedResult?
        && r.value.value in ViewOf(journal).proofs
      ensures ViewOf(old(journal)).last != Some(Listed([])) ==> ViewOf(journal).last != Some(Listed([]))
      ensures Milder(ViewOf(old(journal)), ViewOf(journal))
    {
      hide ViewAt, Lawful, ValidPlan, Next, Allowed, WorkingIn, WellFormed, Milder, Follows, Spends, Continues;
      ContinuesSteps(journal);
      MilderSteps(ViewOf(journal));
      SameButSteps(state, Frontend);
      WorkCalls(plan, ViewOf(journal), state, Frontend, Steer(Frontend));
      var given: bool :| true;
      if !given || q.rejections != [] {
        return Ok(None);
      }
      var genuine: bool :| true;
      if !genuine {
        OwedStep(ViewOf(journal), EvidenceRead(None));
        Hear(Frontend, EvidenceRead(None));
        return Raised(UNKNOWN);
      }
      var artifactId: string, text: string :| true;
      var record := QuotaRecord(RetainedResult(artifactId), plan.id, plan.artifact, Cause(true, text));
      ProofHeard(ViewOf(journal), record);
      OwedStep(ViewOf(journal), EvidenceRead(Some(record)));
      Hear(Frontend, EvidenceRead(Some(record)));
      return Ok(Some(record));
    }

    /** The rejection that may pay for a retry, from the entry or from retained evidence. */
    method RetryRecord() returns (r: Outcome<Option<QuotaRecord>>)
      requires Working(Frontend) && Synced() && NothingRead(journal)
      modifies this`journal
      ensures Working(Frontend) && Synced() && Forward(Frontend) && NothingRead(journal)
      ensures r.Raised? ==> r == Raised(UNKNOWN) && EndsWith(journal, EvidenceRead(None))
      ensures r.Ok? && r.value.Some? ==> RecordValid(plan, r.value.value) && Pays(r.value.value)
      ensures RetryValid(state.components[Frontend].quota) ==> r.Ok? && r.value.Some? && journal == old(journal)
      ensures ViewOf(old(journal)).last != Some(Listed([])) ==> ViewOf(journal).last != Some(Listed([]))
      ensures Milder(ViewOf(old(journal)), ViewOf(journal))
    {
      hide ViewAt, Lawful, ValidPlan, WellFormed, Milder, Continues, Spends;
      ContinuesSteps(journal);
      MilderSteps(ViewOf(journal));
      SameButSteps(state, Frontend);
      var q := state.components[Frontend].quota;
      var pending := PendingRejection(q);
      if pending.Some? {
        assert q.rejections[|q.rejections| - 1] in q.rejections;
        return Ok(pending);
      }
      r := RetainedRejection(q);
    }

    /** What a front-end resumption does about quota: spend the authorisation durably before anything is retried. */
    method ResumeFrontend() returns (r: Outcome<bool>)
      requires Working(Frontend) && Synced() && NothingRead(journal) && ViewOf(journal).last != Some(Listed([]))
      modifies this
      ensures Forward(Frontend) && NothingRead(journal)
      ensures ViewOf(journal).readings == ViewOf(old(journal)).readings
      ensures r.Ok? && Sought(Frontend, old(state).components[Frontend].candidate) ==>
        exists k :: |old(journal)| <= k < |journal| && journal[k].Listed?
      ensures r == Ok(true) ==> Licensed() && !RetryPending(state)
      ensures r == Ok(false) ==> Working(Frontend) && Synced() && state.components[Frontend].candidate.deployment.Some?
      ensures r == Ok(false) ==>
        old(state).components[Frontend].candidate.deployment.Some? || FoundSince(journal, |old(journal)|, Frontend)
      ensures r.Raised? ==> Holding(Frontend)
      ensures r.Raised? ==>
        Unsaved(journal) || (LeavesUnknown(r.exc) && NoAnswer(journal, Frontend, state.components[Frontend].candidate))
      ensures var e := old(state).components[Frontend];
        RetryValid(e.quota) && e.candidate.deployment.None? ==>
          && |journal| > |old(journal)| && ListsOrFails(journal[|old(journal)|])
          && (journal[|old(journal)|] == Listed([]) ==> r == Ok(true) || (r.Raised? && Unsaved(journal)))
    {
      hide ViewAt, Lawful, ValidPlan, Next, Allowed, HoldingIn, WellFormed, SameBut, NoAnswer, Milder, MayRecord,
           Spends, Continues, FoundSince, RetryValid;
      ContinuesSteps(journal);
      MakingSteps(journal);
      SameButSteps(state, Frontend);
      MilderSteps(ViewOf(journal));
      var retry := RetryRecord();
      if retry.Raised? {
        ProofIsOpen(journal, state.components[Frontend].candidate);
        SpendsNothing(state, state);
        return Raised(UNKNOWN);
      }
      r := SpendRecord(retry.value);
    }

    /** Look for the earlier submission; an empty listing lets the record pay for another one. */
    method SpendRecord(record: Option<QuotaRecord>) returns (r: Outcome<bool>)
      requires Working(Frontend) && Synced() && NothingRead(journal) && ViewOf(journal).last != Some(Listed([]))
      requires record.Some? ==> RecordValid(plan, record.value) && Pays(record.value)
      modifies this
      ensures Forward(Frontend) && NothingRead(journal)
      ensures ViewOf(journal).readings == ViewOf(old(journal)).readings
      ensures r.Ok? && Sought(Frontend, old(state).components[Frontend].candidate) ==>
        exists k :: |old(journal)| <= k < |journal| && journal[k].Listed?
      ensures r == Ok(true) ==> Licensed() && !RetryPending(state)
      ensures r == Ok(false) ==> Working(Frontend) && Synced() && state.components[Frontend].candidate.deployment.Some?
      ensures r == Ok(false) ==>
        old(state).components[Frontend].candidate.deployment.Some? || FoundSince(journal, |old(journal)|, Frontend)
      ensures r.Raised? ==> Holding(Frontend)
      ensures r.Raised? ==>
        Unsaved(journal) || (LeavesUnknown(r.exc) && NoAnswer(journal, Frontend, state.components[Frontend].candidate))
      ensures record.Some? && old(state).components[Frontend].candidate.deployment.None? ==>
        && |journal| > |old(journal)| && ListsOrFails(journal[|old(journal)|])
        && (journal[|old(journal)|] == Listed([]) ==> r == Ok(true) || (r.Raised? && Unsaved(journal)))
    {
      hide ViewAt, Lawful, ValidPlan, Next, Allowed, HoldingIn, WellFormed, SameBut, NoAnswer, Milder, MayRecord,
           Spends, Continues, FoundSince, Grants, Recorded, Rejections, Rollbacks, RetryValid;
      ContinuesSteps(journal);
      MakingSteps(journal);
      SameButSteps(state, Frontend);
      MilderSteps(ViewOf(journal));
      var reconciled := Reconcile(Frontend, record.Some? && record.value.cause.quota);
      if reconciled.Raised? {
        return Raised(UNKNOWN);
      }
      ghost var listed := journal;
      PaysLater(ViewOf(journal), record);
      LastOfView(journal);
      r := UseRecord(record, reconciled.value);
      ContinuesAt(listed, journal);
    }

    /** The record is used up if the listing was empty. */
    method UseRecord(record: Option<QuotaRecord>, found: Option<Reconciliation>) returns (r: Outcome<bool>)
      requires Working(Frontend) && Synced() && NothingRead(journal)
      requires record.Some? ==>
        && RecordValid(plan, record.value) && Pays(record.value)
        && MayRecord(ViewOf(journal), state.components[Frontend].quota.rejections, record, false)
      requires ViewOf(journal).last == Some(Listed([])) <==> record.Some? && ReconciliationValid(found, project, 0)
      requires state.components[Frontend].candidate.deployment.None? <==> ViewOf(journal).last == Some(Listed([]))
      modifies this
      ensures Forward(Frontend) && NothingRead(journal)
      ensures ViewOf(journal).readings == ViewOf(old(journal)).readings
      ensures r.Ok? ==> r.value == (ViewOf(old(journal)).last == Some(Listed([])))
      ensures r == Ok(true) ==> Licensed() && !RetryPending(state)
      ensures r == Ok(false) ==> Working(Frontend) && Synced()
      ensures state.components[Frontend].candidate == old(state).components[Frontend].candidate
      ensures r.Raised? ==> Unsaved(journal) && Holding(Frontend)
    {
      hide ViewAt, Lawful, ValidPlan, Next, Allowed, HoldingIn, WellFormed, SameBut, MayRecord, Spends, Continues;
      WorkCalls(plan, ViewOf(journal), state, Frontend, Steer(Frontend));
      SameButSteps(state, Frontend);
      var authorised := record.Some? && ReconciliationValid(found, project, 0);
      var saved := RecordResumption(record, found);
      return if saved.Ok? then Ok(authorised) else Raised(saved.exc);
    }

    /** The pending flag goes with the record that is used up, or once a deployment was found. */
    method RecordResumption(record: Option<QuotaRecord>, found: Option<Reconciliation>) returns (r: Outcome<()>)
      requires Working(Frontend) && Synced() && NothingRead(journal)
      requires record.Some? ==>
        && RecordValid(plan, record.value) && Pays(record.value)
        && MayRecord(ViewOf(journal), state.components[Frontend].quota.rejections, record, false)
      requires ViewOf(journal).last == Some(Listed([])) ==> record.Some? && found.Some?
      modifies this
      ensures Forward(Frontend) && NothingRead(journal)
      ensures ViewOf(journal).readings == ViewOf(old(journal)).readings
      ensures state.components[Frontend].candidate == old(state).components[Frontend].candidate
      ensures r.Raised? ==> Unsaved(journal) && Holding(Frontend)
      ensures r.Ok? && ViewOf(old(journal)).last != Some(Listed([])) ==> Working(Frontend) && Synced()
      ensures r.Ok? && ViewOf(old(journal)).last == Some(Listed([])) ==>
        && Lives() && Durable(journal) == Some(state) && WorkingIn(plan, ViewOf(journal), state, Frontend)
        && ViewOf(journal).owed && ViewOf(journal).funded && !RetryPending(state)
      ensures r.Ok? && found.Some? && record.Some? ==>
        && ViewOf(journal) == Next(ViewOf(old(journal)), Saved(state))
        && state.components[Frontend].quota == Recorded(old(state).components[Frontend].quota, record, false, found)
    {
      hide ViewAt, Lawful, ValidPlan, Next, Allowed, HoldingIn, WellFormed, SameBut, Milder, Continues, Spends,
           Rejections, Rollbacks, RetryValid, Open;
      NothingContinues(journal);
      MilderSteps(ViewOf(journal));
      SameButSteps(state, Frontend);
      var q := state.components[Frontend].quota;
      r := Ok(());
      if found.Some? {
        if record.Some? {
          ghost var v := ViewOf(journal);
          r := SaveQuotaRetry(record, false, found);
          OwedIsFunded(v, state);
        } else if q.retryPending && found.value.matches == 1 {
          r := SaveQuotaRetry(None, false, found);
        }
      } else if q.retryPending {
        r := SaveQuotaRetry(None, false, q.reconciliation);
      }
      SpendsNothing(state, state);
    }

    /** The record is known while a retry is pending, or is the first of all and proved. */
    ghost predicate Pays(record: QuotaRecord)
      reads this
    {
      Frontend in state.components
      && ((RetryPending(state) && record in state.components[Frontend].quota.rejections)
          || (!LegacyUsed(state) && record.source.RetainedResult?
              && state.components[Frontend].quota.rejections == [] && record in ViewOf(journal).proofs))
    }

    twostate lemma PaysLater(new v1: View, record: Option<QuotaRecord>)
      requires v1 == ViewOf(journal) && Milder(ViewOf(old(journal)), v1)
      requires Frontend in old(state).components && Frontend in state.components
      requires state.components[Frontend].quota == old(state).components[Frontend].quota
      requires record.Some? ==> old(Pays(record.value))
      ensures record.Some? ==> MayRecord(v1, state.components[Frontend].quota.rejections, record, false)
      ensures record.Some? ==> Pays(record.value)
    {
    }

    /**
     A pending component: what its submission left is looked up, and it is read back, once, first. A job never goes on;
     others only with an identity or an authorisation.
     */
    method Resume(c: Component) returns (r: Outcome<Resumption>)
      requires Working(c) && Synced() && NothingRead(journal) && ViewOf(journal).last != Some(Listed([]))
      modifies this
      ensures Forward(c) && ViewOf(journal).readings <= ViewOf(old(journal)).readings + 1
      ensures r == Ok(AlreadyVerified) ==> Holding(c) && Synced() && state.components[c].status == Verified
      ensures r.Ok? && Sought(c, old(state).components[c].candidate) ==>
        LookedUp(journal, |old(journal)|, c)
      ensures r == Ok(Proceed(true)) ==> c == Frontend && Licensed()
      ensures r == Ok(Proceed(false)) ==>
        && Working(c) && Synced() && c in {Auth, Bff, Frontend} && state.components[c].candidate != EMPTY_CANDIDATE
        && EndsWith(journal, ReadCandidate(c, state.components[c].candidate, false))
        && (c == Frontend ==> state.components[c].candidate.deployment.Some?)
        && (IsService(c) ==> c !in ViewOf(journal).unreconciled || state.components[c].candidate.revision.Some?)
        && (InPlace(c, state.components[c].candidate) ==>
              InPlace(c, old(state).components[c].candidate) || FoundSince(journal, |old(journal)|, c))
      ensures r.Raised? ==> Holding(c) && Decides(journal, c, state.components[c].candidate, true, r.exc)
      ensures var e := old(state).components[c];
        c == Frontend && RetryValid(e.quota) && e.candidate.deployment.None? ==>
          && |journal| > |old(journal)| && ListsOrFails(journal[|old(journal)|])
          && (journal[|old(journal)|] == Listed([]) ==> r == Ok(Proceed(true)) || Unsaved(journal))
    {
      hide ViewAt, Lawful, ValidPlan, Next, Allowed, HoldingIn, WellFormed, SameBut, Sought, LookedUp, NoAnswer,
           Continues, Decides, Spends, FoundSince, RetryValid;
      ContinuesSteps(journal);
      MakingSteps(journal);
      SameButSteps(state, c);
      var found := FindEarlier(c);
      if found.Raised? {
        UnknownDecides(journal, c, state.components[c].candidate, true, found.exc);
        return Raised(found.exc);
      }
      if found.value {
        return Ok(Proceed(true));
      }
      ghost var sought := journal;
      ContinuesSteps(sought);
      ContinuesAt(old(journal), sought);
      r := ReadOnce(c);
      ContinuesAt(sought, journal);
      FoundStays(sought, journal, |old(journal)|, c);
    }

    /** One reading of what was submitted before: in place, known not to be, or to be gone on with. */
    method ReadOnce(c: Component) returns (r: Outcome<Resumption>)
      requires Working(c) && Synced() && !Unobservable(c, state.components[c].candidate)
      modifies this
      ensures Holding(c) && Forward(c) && ViewOf(journal).readings <= ViewOf(old(journal)).readings + 1
      ensures r == Ok(AlreadyVerified) ==> Synced() && state.components[c].status == Verified
      ensures r.Ok? && r != Ok(AlreadyVerified) ==>
        && r == Ok(Proceed(false)) && Working(c) && Synced() && !IsJob(c) && state == old(state)
        && Follows(ViewOf(old(journal)), ViewOf(journal))
        && NonEmpty(state.components[c].candidate)
        && EndsWith(journal, ReadCandidate(c, state.components[c].candidate, false))
      ensures r.Raised? ==> Decides(journal, c, state.components[c].candidate, true, r.exc)
    {
      hide ViewAt, Lawful, ValidPlan, Next, Allowed, HoldingIn, WellFormed, SameBut, Continues, Decides, Follows,
           Milder, Spends;
      ContinuesSteps(journal);
      SameButSteps(state, c);
      WorkCalls(plan, ViewOf(journal), state, c, Steer(c));
      var seen := Observe(c, Observing);
      if seen.Raised? {
        ObservationDecides(journal, c, state.components[c].candidate, seen.exc);
        return Raised(seen.exc);
      }
      if seen.value {
        var finished := Finish(c);
        SaveDecides(journal, c, state.components[c].candidate, true, FAILED);
        return if finished.Raised? then Raised(FAILED) else Ok(AlreadyVerified);
      }
      WorkCalls(plan, ViewOf(journal), state, c, Steer(c));
      if IsJob(c) || !NonEmpty(state.components[c].candidate) {
        MissDecides(journal, c, state.components[c].candidate);
        return Raised(FAILED);
      }
      return Ok(Proceed(false));
    }

    /** What an earlier submission left; for the front-end, whether an authorisation was spent on another one. */
    method FindEarlier(c: Component) returns (r: Outcome<bool>)
      requires Working(c) && Synced() && NothingRead(journal) && ViewOf(journal).last != Some(Listed([]))
      modifies this
      ensures Forward(c) && NothingRead(journal) && ViewOf(journal).readings == ViewOf(old(journal)).readings
      ensures r == Ok(true) ==> c == Frontend && Licensed()
      ensures r == Ok(false) ==>
        && Working(c) && Synced() && (c == Frontend ==> state.components[c].candidate.deployment.Some?)
        && (IsService(c) ==> c !in ViewOf(journal).unreconciled || state.components[c].candidate.revision.Some?)
        && (InPlace(c, state.components[c].candidate) ==>
              InPlace(c, old(state).components[c].candidate) || FoundSince(journal, |old(journal)|, c))
      ensures r.Ok? && Sought(c, old(state).components[c].candidate) ==>
        LookedUp(journal, |old(journal)|, c)
      ensures r.Raised? ==>
        && Holding(c)
        && (Unsaved(journal) || (LeavesUnknown(r.exc) && NoAnswer(journal, c, state.components[c].candidate)))
      ensures var e := old(state).components[c];
        c == Frontend && RetryValid(e.quota) && e.candidate.deployment.None? ==>
          && |journal| > |old(journal)| && ListsOrFails(journal[|old(journal)|])
          && (journal[|old(journal)|] == Listed([]) ==> r == Ok(true) || (r.Raised? && Unsaved(journal)))
    {
      hide ViewAt, Lawful, ValidPlan, Next, Allowed, HoldingIn, WellFormed, SameBut, NoAnswer, Follows, Milder,
           Spends, Continues, FoundSince, RetryValid;
      ContinuesSteps(journal);
      MilderSteps(ViewOf(journal));
      SameButSteps(state, c);
      if c == Frontend {
        r := ResumeFrontend();
      } else {
        var reconciled := Reconcile(c, false);
        if reconciled.Raised? {
          return Raised(reconciled.exc);
        }
        if IsService(c) && ConfigStageOf(state.components[c].candidate) != Some(Published) {
          NeverSubmitted(c);
        }
        return Ok(false);
      }
    }

    /** A service whose configuration is not published has no submission to be found. */
    lemma NeverSubmitted(c: Component)
      requires Synced() && IsService(c) && c in state.components
      requires ConfigStageOf(state.components[c].candidate) != Some(Published)
      ensures c !in ViewOf(journal).unreconciled
    {
      hide ViewAt, Lawful, ValidPlan, WellFormed;
      if c in ViewOf(journal).unreconciled {
        UnreconciledIsPublished(plan, journal, c, |journal|);
        assert false;
      }
    }

    /**
     After a failed deploy call: reconcile, and arm one retry if it was a quota rejection that left nothing behind.
     */
    method AfterRejection(c: Component, e: Exc, ghost pending: bool) returns (r: Outcome<()>)
      requires Working(c) && e.Breakpoint? && NothingRead(journal)
      requires IsQuotaRejection(e) && c == Frontend ==>
        Synced() && Rejects(e) && state.components[c].candidate.deployment.None?
      modifies this
      ensures Holding(c) && Forward(c) && NothingRead(journal) && (r.Ok? ==> Working(c))
      ensures r.Ok? ==> !Unobservable(c, state.components[c].candidate)
      ensures IsQuotaRejection(e) && c == Frontend && EndsWith(old(journal), QuotaRejected(RecordOf(e))) ==>
        RejectionHandled(journal, |old(journal)| - 1, state, if r.Raised? then Some(r.exc) else None)
      ensures IsQuotaRejection(e) && c == Frontend && |journal| > |old(journal)| && journal[|old(journal)|] == Listed([]) ==>
        r.Raised? && (Unsaved(journal) || RetryValid(state.components[Frontend].quota))
      ensures r.Raised? ==>
        Unsaved(journal) || (LeavesUnknown(r.exc) && NoAnswer(journal, c, state.components[c].candidate))
      ensures r.Raised? ==> Decides(journal, c, state.components[c].candidate, pending, r.exc)
    {
      hide ViewAt, Lawful, ValidPlan, Next, Allowed, HoldingIn, WellFormed, SameBut, Spends, Continues, Decides;
      SameButSteps(state, c);
      var rejected := c == Frontend && IsQuotaRejection(e);
      var reconciled := Reconcile(c, rejected);
      ghost var listed := journal;
      ContinuesAt(old(journal), listed);
      if reconciled.Raised? {
        UnknownDecides(journal, c, state.components[c].candidate, pending, UNKNOWN);
        return Raised(UNKNOWN);
      }
      if rejected && ReconciliationValid(reconciled.value, project, 0) {
        r := Arm(e, reconciled.value);
        ContinuesAt(listed, journal);
        ContinuesOn(old(journal), listed, journal);
        UnknownDecides(journal, c, state.components[c].candidate, pending, r.exc);
        return;
      }
      return Ok(());
    }

    /** Arm one retry after a rejection that left nothing behind. */
    method Arm(e: Exc, reconciliation: Option<Reconciliation>) returns (r: Outcome<()>)
      requires Working(Frontend) && Synced() && IsQuotaRejection(e) && NothingRead(journal)
      requires ViewOf(journal).stage == Confirmed && ViewOf(journal).rejected == Some(RecordOf(e))
      requires ReconciliationValid(reconciliation, project, 0)
      requires Unobservable(Frontend, state.components[Frontend].candidate)
      modifies this
      ensures Holding(Frontend) && Forward(Frontend) && NothingRead(journal)
      ensures state.components[Frontend].candidate == old(state).components[Frontend].candidate
      ensures r.Raised?
      ensures Unsaved(journal) || (LeavesUnknown(r.exc) && RetryArmed(journal, state, RecordOf(e)))
      ensures Unsaved(journal) || RetryValid(state.components[Frontend].quota)
    {
      hide ViewAt, Lawful, ValidPlan, Next, Allowed, HoldingIn, WellFormed, SameBut, Spends, Continues;
      ghost var q := state.components[Frontend].quota;
      var saved := SaveQuotaRetry(Some(RecordOf(e)), true, reconciliation);
      if saved.Ok? {
        ArmingGrantsNothing(ViewOf(old(journal)), state, q, RecordOf(e), reconciliation);
        ArmedIsValid(q, RecordOf(e), reconciliation);
      }
      return Raised(if saved.Raised? then saved.exc else UNKNOWN);
    }

    /**
     The body of the deploy loop's `try`: resume or submit, then read back. What it raises is decided by the last
     answers, whatever the deployment call itself reported. A rejection reported for the quota arms a retry if it left
     nothing.
     */
    method Attempt(c: Component, wasPending: bool) returns (r: Outcome<()>)
      requires Working(c) && Synced() && NothingRead(journal) && ViewOf(journal).last != Some(Listed([]))
      requires !wasPending ==>
        c !in ViewOf(journal).called && c !in ViewOf(journal).unreconciled && (c == Frontend ==> ViewOf(journal).funded)
      modifies this
      ensures Holding(c) && Moved(c)
      ensures r.Ok? ==> Synced() && state.components[c].status == Verified
      ensures !wasPending || ViewOf(journal).readings > ViewOf(old(journal)).readings + 1 ==>
        TriedSince(plan.aliases, journal, |old(journal)|, c,
                   InPlace(c, old(state).components[c].candidate) || (wasPending && FoundSince(journal, |old(journal)|, c)))
      ensures var e := old(state).components[c];
        wasPending && c == Frontend && RetryValid(e.quota) && e.candidate.deployment.None? ==>
          && |journal| > |old(journal)| && ListsOrFails(journal[|old(journal)|])
          && (journal[|old(journal)|] == Listed([]) ==>
                Submitted(journal, |old(journal)|, Frontend) || Unsaved(journal))
      ensures r.Raised? ==> Decides(journal, c, state.components[c].candidate, wasPending, r.exc)
      ensures Rejections(journal) > Rejections(old(journal)) ==>
        HandledRejection(journal, |old(journal)|, state, if r.Raised? then Some(r.exc) else None)
    {
      hide ViewAt, Lawful, ValidPlan, Next, Allowed, HoldingIn, WellFormed, SameBut, Decides, Continues,
           HandledRejection, Rejections, Submitted, GaveUp, TriedSince, FoundSince, Spends, RetryValid, Follows,
           Milder;
      if wasPending {
        r := Reattempt(c);
      } else {
        r := DeployAndRead(c, false);
      }
    }

    /** Resume what is pending, and deploy it if it may go on. */
    method Reattempt(c: Component) returns (r: Outcome<()>)
      requires Working(c) && Synced() && NothingRead(journal) && ViewOf(journal).last != Some(Listed([]))
      modifies this
      ensures Holding(c) && Moved(c)
      ensures r.Ok? ==> Synced() && state.components[c].status == Verified
      ensures ViewOf(journal).readings > ViewOf(old(journal)).readings + 1 ==>
        TriedSince(plan.aliases, journal, |old(journal)|, c,
                   InPlace(c, old(state).components[c].candidate) || FoundSince(journal, |old(journal)|, c))
      ensures var e := old(state).components[c];
        c == Frontend && RetryValid(e.quota) && e.candidate.deployment.None? ==>
          && |journal| > |old(journal)| && ListsOrFails(journal[|old(journal)|])
          && (journal[|old(journal)|] == Listed([]) ==>
                Submitted(journal, |old(journal)|, Frontend) || Unsaved(journal))
      ensures r.Raised? ==> Decides(journal, c, state.components[c].candidate, true, r.exc)
      ensures Rejections(journal) > Rejections(old(journal)) ==>
        HandledRejection(journal, |old(journal)|, state, if r.Raised? then Some(r.exc) else None)
    {
      hide ViewAt, Lawful, ValidPlan, Next, Allowed, HoldingIn, WorkingIn, WellFormed, SameBut, Decides, Continues,
           InPlace, NonEmpty, HandledRejection, Rejections, Submitted, GaveUp, TriedSince, FoundSince, Spends,
           RetryValid, Follows, Milder;
      SameButSteps(state, c);
      WorkHolds(plan, ViewOf(journal), state, c);
      var resumed := Resume(c);
      match resumed
      case Raised(e) => return Raised(e);
      case Ok(AlreadyVerified) => return Ok(());
      case Ok(Proceed(_)) =>
      ghost var begun, candidate := journal, state.components[c].candidate;
      NotInPlace(candidate);
      r := DeployAndRead(c, true);
      ResumedMakes(plan.aliases, old(journal), begun, journal, c, InPlace(c, old(state).components[c].candidate),
                   InPlace(c, candidate));
      HandledSince(journal, |begun|, |old(journal)|, state, if r.Raised? then Some(r.exc) else None);
    }

    /** The deployment call and the readback. */
    method DeployAndRead(c: Component, ghost pending: bool) returns (r: Outcome<()>)
      requires Able(c)
      requires IsJob(c) ==> c !in ViewOf(journal).called
      requires IsService(c) ==> c !in ViewOf(journal).unreconciled || state.components[c].candidate.revision.Some?
      requires c == Frontend ==> ViewOf(journal).funded || state.components[c].candidate.deployment.Some?
      modifies this
      ensures Holding(c) && Moved(c)
      ensures r.Ok? ==> Synced() && state.components[c].status == Verified
      ensures TriedSince(plan.aliases, journal, |old(journal)|, c, InPlace(c, old(state).components[c].candidate))
      ensures old(Licensed()) && c == Frontend ==> Submitted(journal, |old(journal)|, c)
      ensures r.Raised? ==> Decides(journal, c, state.components[c].candidate, pending, r.exc)
      ensures Rejections(journal) > Rejections(old(journal)) ==>
        HandledRejection(journal, |old(journal)|, state, if r.Raised? then Some(r.exc) else None)
    {
      hide ViewAt, Lawful, ValidPlan, Next, Allowed, HoldingIn, WellFormed, SameBut, Decides, Continues, InPlace,
           HandledRejection, Rejections, Submitted, GaveUp, TriedSince, Spends, Follows, Milder;
      SameButSteps(state, c);
      r := DeployAndSettle(c, pending);
      if r.Raised? {
        return;
      }
      ghost var s, settled := state, journal;
      r := ReadBack(c, pending);
      StillMade(plan.aliases, old(journal), settled, journal, c, InPlace(c, old(state).components[c].candidate));
      HandledOnwards(settled, journal, |old(journal)|, s, state, if r.Raised? then Some(r.exc) else None);
    }

    /** The deployment call; if it failed, the look-up of what it left. The call's own answer does not decide. */
    method DeployAndSettle(c: Component, ghost pending: bool) returns (r: Outcome<()>)
      requires Able(c)
      requires IsJob(c) ==> c !in ViewOf(journal).called
      requires IsService(c) ==> c !in ViewOf(journal).unreconciled || state.components[c].candidate.revision.Some?
      requires c == Frontend ==> ViewOf(journal).funded || state.components[c].candidate.deployment.Some?
      modifies this
      ensures Holding(c) && Moved(c) && (r.Ok? ==> Working(c))
      ensures TriedSince(plan.aliases, journal, |old(journal)|, c, InPlace(c, old(state).components[c].candidate))
      ensures old(Licensed()) && c == Frontend ==> Submitted(journal, |old(journal)|, c)
      ensures r.Ok? && Unobservable(c, state.components[c].candidate) ==> NothingRead(journal)
      ensures r.Raised? ==> Decides(journal, c, state.components[c].candidate, pending, r.exc)
      ensures Rejections(journal) > Rejections(old(journal)) ==>
        HandledRejection(journal, |old(journal)|, state, if r.Raised? then Some(r.exc) else None)
    {
      hide ViewAt, Lawful, ValidPlan, Next, Allowed, HoldingIn, WellFormed, SameBut, Decides, Continues,
           RejectionHandled, Rejections, Submitted, GaveUp, TriedSince, Spends, Follows, Milder, WorkingIn,
           Unobservable, Rejects, RetryValid, NoAnswer, LeavesUnknown, Unsaved, InPlace, Durable;
      SameButSteps(state, c);
      WorkHolds(plan, ViewOf(journal), state, c);
      var deployed := ProviderDeploy(c);
      WorkHolds(plan, ViewOf(journal), state, c);
      if deployed.Ok? {
        return Ok(());
      }
      if deployed.exc.Unrepresentable? {
        BlameDecides(journal, c, state.components[c].candidate, pending, deployed.exc);
        return Raised(deployed.exc);
      }
      ghost var failed := journal;
      // No second update: the readback decides between a known failure and an unknown outcome.
      r := AfterRejection(c, deployed.exc, pending);
      HeldIsThere(plan, ViewOf(journal), state, c);
      StillMade(plan.aliases, old(journal), failed, journal, c, InPlace(c, old(state).components[c].candidate));
      NewRejection(old(journal), failed, journal, state, if r.Raised? then Some(r.exc) else None);
    }

    /** The readback after the deployment call. */
    method ReadBack(c: Component, ghost pending: bool) returns (r: Outcome<()>)
      requires Working(c) && (Unobservable(c, state.components[c].candidate) ==> NothingRead(journal))
      modifies this
      ensures Holding(c) && Forward(c)
      ensures r.Ok? ==> Synced() && state.components[c].status == Verified
      ensures r.Raised? ==> Decides(journal, c, state.components[c].candidate, pending, r.exc)
    {
      hide ViewAt, Lawful, ValidPlan, Next, Allowed, HoldingIn, WellFormed, SameBut, Decides, Readings, Continues,
           Spends;
      ContinuesSteps(journal);
      SameButSteps(state, c);
      ghost var before := journal;
      var polled, misses := Poll(c);
      if polled.Raised? {
        PollDecides(before, journal, c, state.components[c].candidate, pending, polled.exc, misses);
        return Raised(polled.exc);
      }
      r := Finish(c);
      if r.Raised? {
        SaveDecides(journal, c, state.components[c].candidate, pending, r.exc);
      }
    }

    // ---- compensation ------------------------------------------------------------------------------

    /** Save the status of c's entry, with the attempt's own status. */
    method SaveEntry(c: Component, status: EntryStatus, overall: Status) returns (ok: bool)
      requires Synced() && c in state.components && !BeforeRuntime(overall) && !ClaimsRuntime(overall)
      requires !Resolved(overall)
      requires InRecovery(state.components[c]) ==>
        status in {RollbackPending, RollbackUnknown, RollbackFailed, EntryRolledBack}
      requires status !in {Unstarted, Verified}
      requires status == EntryRolledBack ==>
        TouchedBy(ViewOf(journal), c, ReadPrior(c, state.components[c].prior, true))
      modifies this
      ensures Sound() && Grows() && Rollbacks(journal) == Rollbacks(old(journal))
      ensures state == old(state).(components := old(state).components[c := old(state).components[c].(status := status)],
                                  status := overall, sequence := old(state).sequence + 1)
      ensures ok ==> Synced() && ViewOf(journal) == Next(ViewOf(old(journal)), Saved(state))
      ensures if ok then journal == old(journal) + [Saved(state)] else Unsaved(journal)
    {
      hide ViewAt, Lawful, ValidPlan, Next, SaveAllowed, WellFormed, Continues, Concludes, Resolved;
      ghost var t := state.(components := state.components[c := state.components[c].(status := status)],
                            status := overall, sequence := state.sequence + 1);
      EntrySaves(plan, ViewOf(journal), state, t, c, status);
      SaveViews(ViewOf(journal), t);
      state := state.(components := state.components[c := state.components[c].(status := status)], status := overall);
      assert state.(sequence := state.sequence + 1) == t;
      ok := Save();
    }

    /** Memory and the last save have the same entries. */
    ghost predicate Level()
      reads this
    {
      && Sound() && WellFormed(plan, state)
      && var d := Durable(journal).value;
      && d.components == state.components && d.sequence <= state.sequence
    }

    /** Save the attempt's own status. */
    method SaveStatus(overall: Status) returns (ok: bool)
      requires Level() && !BeforeRuntime(overall) && WellFormed(plan, state.(status := overall))
      requires overall == Success && Durable(journal).value.status != Success ==>
        ViewOf(journal).last.Some? && TagSeen(ViewOf(journal).last.value, plan.source)
      modifies this
      ensures Level() && Closes() && Rollbacks(journal) == Rollbacks(old(journal))
      ensures !Resolved(overall) || !ok ==> Grows()
      ensures state == old(state).(status := overall, sequence := old(state).sequence + 1)
      ensures if ok then Synced() && journal == old(journal) + [Saved(state)] else Unsaved(journal)
      ensures journal in {old(journal) + [Saved(state)], old(journal) + [SaveErrored], old(journal) + [Saved(state), SaveErrored]}
    {
      hide ViewAt, Lawful, ValidPlan, Next, SaveAllowed, Grants, Continues, Concludes, Resolved;
      ConcludingSteps(journal);
      ghost var t := state.(status := overall, sequence := state.sequence + 1);
      StatusSaves(plan, ViewOf(journal), t);
      SaveViews(ViewOf(journal), t);
      state := state.(status := overall);
      assert state.(sequence := state.sequence + 1) == t;
      ok := Save();
    }

    /** Reading back the recorded prior of c, or an error. */
    method ObservePrior(c: Component, task: Task) returns (r: Outcome<bool>)
      requires Synced() && c in state.components
      modifies this`journal
      ensures Synced() && Grows() && Rollbacks(journal) == Rollbacks(old(journal))
      ensures journal == old(journal) + [if r.Ok? then ReadPrior(c, state.components[c].prior, r.value) else Errored(c, task, r.exc)]
      ensures r.Ok? ==> TouchedBy(ViewOf(journal), c, ReadPrior(c, state.components[c].prior, r.value))
    {
      hide ViewAt, Lawful, ValidPlan, WellFormed, Continues;
      r :| true;
      if r.Ok? {
        Note(ReadPrior(c, state.components[c].prior, r.value));
      } else {
        Note(Errored(c, task, r.exc));
      }
    }

    /** `poll` on the prior: like that on the candidate. */
    method PollPrior(c: Component) returns (r: Outcome<()>, ghost misses: nat)
      requires Synced() && c in state.components
      modifies this`journal
      ensures Synced() && Grows() && Rollbacks(journal) == Rollbacks(old(journal))
      ensures misses <= 12 && (r == Raised(FAILED) <==> misses == 12)
      ensures r.Raised? && misses < 12 ==> LeavesUnknown(r.exc)
      ensures var prior := state.components[c].prior;
        && (r.Ok? ==>
              && journal == old(journal) + Readings(ReadPrior(c, prior, false), misses, [ReadPrior(c, prior, true)])
              && TouchedBy(ViewOf(journal), c, ReadPrior(c, prior, true)))
        && (r == Raised(FAILED) ==> journal == old(journal) + Readings(ReadPrior(c, prior, false), misses, []))
        && (r.Raised? && r != Raised(FAILED) ==>
              exists e :: journal == old(journal) + Readings(ReadPrior(c, prior, false), misses, [Errored(c, Polling, e)]))
    {
      hide ViewAt, Lawful, ValidPlan, WellFormed, Next, Readings, Rollbacks, TouchedBy, Continues;
      ContinuesSteps(journal);
      ghost var miss := ReadPrior(c, state.components[c].prior, false);
      misses := 0;
      NoReadings(journal, miss);
      for n := 0 to POLL_READS
        invariant Synced() && Grows() && Rollbacks(journal) == Rollbacks(old(journal)) && misses == n
        invariant journal == old(journal) + Readings(miss, misses, [])
      {
        ReadingsEnd(old(journal), miss, misses);
        var seen := ObservePrior(c, Polling);
        match seen {
          case Ok(true) => return Ok(()), misses;
          case Ok(false) => misses := misses + 1;
          case Raised(e) => return Raised(if e.Breakpoint? then UNKNOWN else e), misses;
        }
      }
      return Raised(FAILED), misses;
    }

    /** Read the prior; unless it is in place, call the rollback once; only the readback after that counts. */
    method BringBack(c: Component) returns (r: Outcome<()>)
      requires Synced() && c in state.components && state.components[c].status == RollbackPending
      requires state.status == RollingBack
      modifies this`journal
      ensures Synced() && Grows() && |journal| > |old(journal)|
      ensures PriorRead(journal, |old(journal)|, c, state.components[c].prior)
      ensures Rollbacks(journal) == Rollbacks(old(journal))
                + if journal[|old(journal)|] == ReadPrior(c, state.components[c].prior, false) then [c] else []
      ensures r.Ok? ==> TouchedBy(ViewOf(journal), c, ReadPrior(c, state.components[c].prior, true))
      ensures SettledAs(journal, c, state.components[c].prior, EndOf(r))
    {
      hide ViewAt, Lawful, ValidPlan, WellFormed, Next, Rollbacks, TouchedBy, SettledAs, Readings, Continues;
      ContinuesSteps(journal);
      ghost var prior := state.components[c].prior;
      var seen := ObservePrior(c, Observing);
      if seen.Raised? {
        PriorUnread(journal, c, prior, seen.exc, Observing);
        return Raised(seen.exc);
      }
      if !seen.value {
        CallBack(c);
        var called: Outcome<()> :| true;
        if called.Raised? {
          NoteError(c, called.exc);
          if called.exc.Unrepresentable? {
            PriorUnread(journal, c, prior, called.exc, Changing);
            return Raised(called.exc);
          }
        }
      }
      ghost var before := journal;
      ghost var misses;
      r, misses := PollPrior(c);
      ContinuesAt(before, journal);
      PriorPolled(before, journal, c, prior, r, misses);
    }

    method NoteError(c: Component, e: Exc)
      requires Synced()
      modifies this`journal
      ensures Synced() && Grows() && journal == old(journal) + [Errored(c, Changing, e)]
      ensures Rollbacks(journal) == Rollbacks(old(journal))
    {
      hide ViewAt, Lawful, ValidPlan, WellFormed, Continues;
      Note(Errored(c, Changing, e));
    }

    method CallBack(c: Component)
      requires Synced() && c in state.components && state.components[c].status == RollbackPending
      requires state.status == RollingBack
      modifies this`journal
      ensures Synced() && Grows() && journal == old(journal) + [RollbackCall(c, state.components[c].prior)]
      ensures Rollbacks(journal) == Rollbacks(old(journal)) + [c]
    {
      hide ViewAt, Lawful, ValidPlan, WellFormed, Continues;
      Note(RollbackCall(c, state.components[c].prior));
    }

    /** Compensate one component under a durable marker, and record what the last reading said. */
    method RestoreOne(c: Component) returns (ok: bool, ghost calls: seq<Component>)
      requires Synced() && c in state.components && state.status == RollingBack
      modifies this
      ensures Sound() && Grows() && (!ok ==> Unsaved(journal))
      ensures Rollbacks(journal) == Rollbacks(old(journal)) + calls && (calls == [] || calls == [c])
      ensures ok ==> Synced() && state.status == RollingBack && state.components.Keys == old(state).components.Keys
      ensures ok ==>
        CompensatedSince(journal, |old(journal)|, c, old(state).components[c].prior, calls == [c], state.components[c].status)
      ensures ok ==> Compensation(old(state).components[c], state.components[c])
      ensures ok ==> forall d :: d in state.components && d != c ==> state.components[d] == old(state).components[d]
    {
      hide ViewAt, Lawful, ValidPlan, Next, WellFormed, Rollbacks, CompensatedSince, TouchedBy, PriorRead, SettledAs,
           Ascending, Continues, Open, InRecovery, Spends;
      calls := [];
      ghost var k, prior := |journal|, state.components[c].prior;
      ok := SaveEntry(c, RollbackPending, RollingBack);
      if !ok {
        return;
      }
      ghost var marked := journal;
      var r := BringBack(c);
      calls := if journal[|marked|] == ReadPrior(c, prior, false) then [c] else [];
      ghost var read := journal;
      ContinuesAt(marked, read);
      ok := SaveEntry(c, EndOf(r), RollingBack);
      ContinuesOn(marked, read, journal);
      ContinuesOn(old(journal), marked, journal);
      if ok {
        assert journal[..|read|] == read && journal[|read|] == Saved(state);
        PriorReadLater(read, journal, |marked|, c, prior);
        BroughtBack(journal, k, |read|, c, prior, EndOf(r));
      }
    }

    /** `restore`: compensate the given components, last of the plan first. */
    method Restore(components: set<Component>, automatic: bool) returns (r: RestoreResult, ghost calls: seq<Component>)
      requires Synced()
      modifies this
      ensures Sound() && Closes() && (r.Incomplete? || r.RestoreHalted? ==> Grows())
      ensures r.Restored? ==> Resolved(state.status)
      ensures r.Incomplete? ==> !Resolved(state.status)
      ensures r.NoSnapshot? <==> !(components <= old(state).components.Keys)
      ensures r.NoSnapshot? ==> journal == old(journal) && state == old(state)
      ensures r.RestoreHalted? ==> Unsaved(journal)
      ensures Rollbacks(journal) == Rollbacks(old(journal)) + calls
      ensures CallsFor(calls, old(state).components, components, Elements(plan.selected))
      ensures r.Restored? || r.Incomplete? ==>
                && Synced()
                && Accounted(journal, |old(journal)|, old(state).components, state.components, components,
                             Elements(plan.selected), calls)
                && RestoredIn(old(state).components, state.components, components, Elements(plan.selected))
                && (r.Restored? <==> AllBack(state.components, components, Elements(plan.selected)))
                && state.status == (if r.Incomplete? then RecoveryFailed else if automatic then FailedRolledBack else RolledBack)
    {
      hide ViewAt, Lawful, Next, SaveAllowed, RestoredIn, AllBack, CallsFor, Rollbacks, Accounted, Ascending,
           Continues, Concludes;
      ContinuesSteps(journal);
      ConcludingSteps(journal);
      calls := [];
      assert Rollbacks(old(journal)) + calls == Rollbacks(old(journal));
      NoCalls(state.components, components, Elements(plan.selected));
      if !(components <= state.components.Keys) {
        return NoSnapshot, calls;
      }
      ghost var entries := state.components;
      var ok := SaveStatus(RollingBack);
      if !ok {
        return RestoreHalted, calls;
      }
      ghost var since := |journal|;
      var errors: bool;
      errors, ok, calls := RestoreAll(components);
      if !ok {
        return RestoreHalted, calls;
      }
      ghost var restored := journal;
      ok := SaveStatus(if errors then RecoveryFailed else if automatic then FailedRolledBack else RolledBack);
      ConcludesAt(restored, journal);
      StillAccounted(restored, journal, since, |old(journal)|, entries, state.components, components,
                     Elements(plan.selected), calls);
      r := if !ok then RestoreHalted else if errors then Incomplete else Restored;
    }

    /** The loop of `restore` over the reversed selection. */
    method RestoreAll(components: set<Component>) returns (errors: bool, ok: bool, ghost calls: seq<Component>)
      requires Synced() && components <= state.components.Keys && state.status == RollingBack
      modifies this
      ensures Sound() && Grows() && Rollbacks(journal) == Rollbacks(old(journal)) + calls
      ensures CallsFor(calls, old(state).components, components, Elements(plan.selected))
      ensures !ok ==> Unsaved(journal)
      ensures ok ==> Synced() && state.status == RollingBack
      ensures ok ==>
        Accounted(journal, |old(journal)|, old(state).components, state.components, components, Elements(plan.selected),
                  calls)
      ensures ok ==> RestoredIn(old(state).components, state.components, components, Elements(plan.selected))
      ensures ok ==> (!errors <==> AllBack(state.components, components, Elements(plan.selected)))
    {
      hide ViewAt, Lawful, Next, SaveAllowed, RestoredIn, AllBack, WellFormed, Rollbacks, Accounted, CompensatedSince,
           CallsFor, Ascending, Continues, Spends, Open, InRecovery, Rejections, Durable, ViewOf, Index;
      NothingContinues(journal);
      errors, ok, calls := false, true, [];
      ghost var entries, from := state.components, |journal|;
      NoneAccounted(journal, from, entries, components);
      ghost var done: set<Component> := {};
      NothingRestored(entries, components);
      NoCalls(entries, components, done);
      var i := |plan.selected|;
      while i > 0
        invariant 0 <= i <= |plan.selected| && done == Elements(plan.selected[i..])
        invariant Synced() && Grows() && state.status == RollingBack && ok
        invariant Rollbacks(journal) == Rollbacks(old(journal)) + calls
        invariant CallsFor(calls, entries, components, done) && state.components.Keys == entries.Keys
        invariant Accounted(journal, from, entries, state.components, components, done, calls)
        invariant RestoredIn(entries, state.components, components, done)
        invariant !errors <==> AllBack(state.components, components, done)
      {
        i := i - 1;
        var c := plan.selected[i];
        SuffixStep(plan.selected, i);
        CallsAmong(calls, entries, components, done, c);
        if c in components && state.components[c].status != Unstarted && state.components[c].status != EntryRolledBack {
          ghost var before, sofar := state.components, journal;
          UntouchedYet(entries, before, components, done, c);
          ghost var more;
          ok, more := RestoreOne(c);
          assert (Rollbacks(old(journal)) + calls) + more == Rollbacks(old(journal)) + (calls + more);
          ContinuesAt(old(journal), sofar);
          ContinuesOn(old(journal), sofar, journal);
          CallsStep(calls, more, entries, components, done, c);
          if !ok {
            calls := calls + more;
            CallsWithin(calls, entries, components, done + {c}, Elements(plan.selected));
            return;
          }
          if state.components[c].status != EntryRolledBack {
            errors := true;
          }
          ContinuesAt(sofar, journal);
          OneMoreRestored(sofar, journal, from, entries, before, state.components, components, done, calls, more, c);
          calls := calls + more;
        } else {
          NothingToRestore(journal, from, entries, state.components, components, done, calls, c);
        }
        done := done + {c};
      }
      assert plan.selected[0..] == plan.selected;
    }

    // ---- tag ---------------------------------------------------------------------------------------

    /** `tag`: success only right after the tag was read at, or created at, the plan's source. */
    method Tag() returns (r: TagResult)
      requires Synced()
      modifies this
      ensures Sound() && Closes() && Rollbacks(journal) == Rollbacks(old(journal))
      ensures state.components == old(state).components
      ensures r.TagForbidden? <==> old(state).status !in {RuntimeSuccess, TagFailed, Success}
      ensures r.TagForbidden? ==> state == old(state) && journal == old(journal)
      ensures ClaimsRuntime(old(state).status) ==> ClaimsRuntime(state.status)
      ensures r.Tagged? ==> Synced() && state.status == Success && EndsWith(journal, Saved(state))
      ensures r.Tagged? ==> SeenBeforeLast(journal, |old(journal)|, plan.source)
      ensures r.TagIncomplete? ==> Synced() && state.status == TagFailed
      ensures r.TagIncomplete? ==> !SeenBeforeLast(journal, |old(journal)|, plan.source)
      ensures !r.TagForbidden? ==> TagTried(old(journal), journal, plan.source)
    {
      hide ViewAt, Lawful, ValidPlan, Next, SaveAllowed, Allowed, Ascending, WellFormed, Rollbacks, Continues,
           Concludes, TagSeen, SeenBeforeLast, TagSought, SavesFrom;
      ContinuesSteps(journal);
      ConcludingSteps(journal);
      if !ClaimsRuntime(state.status) {
        return TagForbidden;
      }
      ClaimForms(plan, state);
      var seen := TagIsAtSource();
      ghost var read := journal;
      NothingSaved(read);
      if seen.Raised? && seen.exc.Unrepresentable? {
        SoughtThenSaved(old(journal), read, journal, plan.source);
        return TagHalted;
      }
      if seen == Ok(true) {
        r := SaveTagged(|old(journal)|);
        SoughtThenSaved(old(journal), read, journal, plan.source);
        return;
      }
      var kept := SaveStatus(TagFailed);
      SavesMore(read, journal, |read|, state);
      SoughtThenSaved(old(journal), read, journal, plan.source);
      if !kept {
        return TagHalted;
      }
      SavedLast(read, Saved(state), |old(journal)|, plan.source);
      return TagIncomplete;
    }

    /** The tag was just seen: success, unless that cannot be saved. */
    method SaveTagged(ghost from: nat) returns (r: TagResult)
      requires Synced() && ClaimsRuntime(state.status) && |journal| > from
      requires TagSeen(journal[|journal| - 1], plan.source)
      requires ViewOf(journal).last == Some(journal[|journal| - 1])
      modifies this
      ensures Sound() && Closes() && Rollbacks(journal) == Rollbacks(old(journal))
      ensures state.components == old(state).components && ClaimsRuntime(state.status)
      ensures r.Tagged? || r.TagIncomplete? || r.TagHalted?
      ensures r.Tagged? ==> Synced() && state.status == Success && EndsWith(journal, Saved(state))
      ensures r.Tagged? ==> SeenBeforeLast(journal, from, plan.source)
      ensures r.TagIncomplete? ==> Synced() && state.status == TagFailed && !SeenBeforeLast(journal, from, plan.source)
      ensures old(journal) <= journal && SavesFrom(journal, |old(journal)|)
    {
      hide ViewAt, Lawful, ValidPlan, Next, SaveAllowed, Allowed, Ascending, WellFormed, Rollbacks, Continues,
           Concludes, SeenBeforeLast, SavesFrom, Spends, Rejections, LegacyUsed, RetryPending;
      ConcludingSteps(journal);
      ClaimForms(plan, state);
      ghost var seen := journal;
      var ok := SaveStatus(Success);
      SavesMore(seen, journal, |seen|, state);
      if ok {
        SavedLast(seen, Saved(state), from, plan.source);
        return Tagged;
      }
      ghost var failed := journal;
      ContinuesAt(seen, failed);
      ClaimForms(plan, state);
      assert failed[|failed| - 1] in failed[|seen|..];
      var kept := SaveStatus(TagFailed);
      SavesMore(failed, journal, |seen|, state);
      if !kept {
        return TagHalted;
      }
      SavedLast(failed, Saved(state), from, plan.source);
      return TagIncomplete;
    }

    method NoteTag(e: Event)
      requires Synced() && (e.TagRefs? || e.TagUnread? || e.TagObject? || e.TagCreated? || e.TagNotCreated?)
      modifies this`journal
      ensures Synced() && Grows() && journal == old(journal) + [e] && Rollbacks(journal) == Rollbacks(old(journal))
      ensures ViewOf(journal).last == Some(e)
    {
      hide ViewAt, Lawful, ValidPlan, WellFormed, Continues;
      LastOfView(journal + [e]);
      Note(e);
    }

    /**
     Whether the tag names the plan's source commit: read from the exact reference, following at most four annotated
     tags, or created there exactly if there is none.
     */
    method TagIsAtSource() returns (r: Outcome<bool>)
      requires Synced()
      modifies this`journal
      ensures Synced() && Grows() && Rollbacks(journal) == Rollbacks(old(journal))
      ensures old(journal) < journal && TagSought(old(journal), journal, plan.source)
      ensures r == Ok(true) <==> TagSeen(journal[|journal| - 1], plan.source)
      ensures r == Ok(false) <==> journal[|journal| - 1].TagObject? && !TagSeen(journal[|journal| - 1], plan.source)
      ensures ViewOf(journal).last == Some(journal[|journal| - 1])
    {
      hide ViewAt, Lawful, ValidPlan, WellFormed, Rollbacks, Continues, TagSought, TagChain;
      ContinuesSteps(journal);
      SoughtOnce(journal, plan.source);
      var refs: Outcome<seq<(bool, string)>> :| true;  // the exact references found, each an annotated tag or a commit
      if refs.Raised? {
        NoteTag(TagUnread);
        return Raised(refs.exc);
      }
      NoteTag(TagRefs(|refs.value|));
      if |refs.value| > 1 {
        return Raised(FAILED);
      }
      if refs.value == [] {
        var created: Outcome<()> :| true;
        NoteTag(if created.Raised? then TagNotCreated(plan.source) else TagCreated(plan.source));
        assert journal == old(journal) + [TagRefs(0), journal[|journal| - 1]];
        return if created.Raised? then Raised(created.exc) else Ok(true);
      }
      r := FollowTag(refs.value[0].0, refs.value[0].1);
      ChainIsSought(old(journal), journal, plan.source);
    }

    /** From the object that the reference names to the commit, over at most four annotated tags. */
    method FollowTag(annotated: bool, sha: string) returns (r: Outcome<bool>)
      requires Synced()
      modifies this`journal
      ensures Synced() && Grows() && Rollbacks(journal) == Rollbacks(old(journal))
      ensures old(journal) < journal && Chained(old(journal), journal)
      ensures r.Raised? <==> journal[|journal| - 1] == TagUnread
      ensures r.Ok? ==> r.value == (journal[|journal| - 1] == TagObject(false, plan.source))
      ensures ViewOf(journal).last == Some(journal[|journal| - 1])
    {
      hide ViewAt, Lawful, ValidPlan, WellFormed, Rollbacks, Continues, TagChain, Spends, SaveAllowed, Rejections,
           Ascending;
      var seen, name := annotated, sha;
      ChainBegins(journal, TagObject(seen, name));
      NoteTag(TagObject(seen, name));
      for n := 0 to 4
        invariant Synced() && Grows() && Rollbacks(journal) == Rollbacks(old(journal))
        invariant old(journal) < journal && |journal| == |old(journal)| + 1 + n
        invariant TagChain(journal, |old(journal)|) && EndsWith(journal, TagObject(seen, name))
        invariant ViewOf(journal).last == Some(TagObject(seen, name))
      {
        if !seen {
          break;
        }
        ghost var before := journal;
        var next: Outcome<(bool, string)> :| true;
        if next.Raised? {
          NoteTag(TagUnread);
          ContinuesOn(old(journal), before, journal);
          assert journal[..|journal| - 1] == before;
          return Raised(next.exc);
        }
        seen, name := next.value.0, next.value.1;
        ChainGrows(before, |old(journal)|, TagObject(seen, name));
        NoteTag(TagObject(seen, name));
        ContinuesOn(old(journal), before, journal);
      }
      return Ok(!seen && name == plan.source);
    }

    // ---- deploy ------------------------------------------------------------------------------------

    /** `barrier`: every receipt is present and applicable. */
    method Barrier() returns (usable: bool)
      requires Synced()
      modifies this`journal
      ensures Synced() && Grows() && Rollbacks(journal) == Rollbacks(old(journal))
      ensures journal == old(journal) + [ArtifactsRead(usable)]
    {
      hide ViewAt, Lawful, ValidPlan, WellFormed, Continues;
      usable :| true;
      Note(ArtifactsRead(usable));
    }

    /** Reading what a component is before the attempt touches it, or failing to. */
    method ReadBefore(c: Component) returns (r: Outcome<Prior>)
      requires Sound()
      modifies this`journal
      ensures Sound() && Grows() && Rollbacks(journal) == Rollbacks(old(journal))
      ensures Durable(journal) == Durable(old(journal))
      ensures journal == old(journal) + [if r.Ok? then PriorSeen(c, r.value) else Errored(c, Observing, r.exc)]
      ensures forall x :: x in ViewOf(old(journal)).priors ==> x in ViewOf(journal).priors
      ensures r.Ok? ==> (c, r.value) in ViewOf(journal).priors
    {
      hide ViewAt, Lawful, ValidPlan, WellFormed, Next, Continues;
      r :| true;
      ghost var e := if r.Ok? then PriorSeen(c, r.value) else Errored(c, Observing, r.exc);
      PriorHeard(ViewOf(journal), e);
      if r.Ok? {
        Note(PriorSeen(c, r.value));
      } else {
        Note(Errored(c, Observing, r.exc));
      }
    }

    /** `snapshot`: record the prior of every selected component, as it is read, then save once. */
    method Snapshot() returns (ok: bool, refused: bool)
      requires Synced() && state.status == Ready
      modifies this
      ensures Sound() && Grows() && Rollbacks(journal) == Rollbacks(old(journal))
      ensures Barred(old(journal), journal, !ok && refused)
      ensures journal[|old(journal)|] == ArtifactsRead(false) ==> state == old(state)
      ensures !ok && !refused ==> Unsaved(journal)
      ensures !ok && refused ==>
        IsRefusal(journal[|journal| - 1]) && OnlyReadings(old(journal), journal) && state.status == Ready
      ensures ok ==> Synced() && state.status == Snapshotted && state.components.Keys == Elements(plan.selected)
      ensures ok ==> forall c :: c in state.components ==> Untouched(state.components[c])
    {
      hide ViewAt, Lawful, ValidPlan, Next, SaveAllowed, WellFormed, Untouched, Rollbacks, OnlyReadings, Grants,
           Continues, Rejections, Spends, IsRefusal, Open, InRecovery;
      ReadyIsEmpty(plan, state);
      ReadingsSteps(journal);
      ReadingsMore(journal, journal);
      var usable := Barrier();
      if !usable {
        RefusedArtifacts();
        return false, true;
      }
      ghost var passed := journal;
      refused := ReadAllBefore();
      ContinuesAt(passed, journal);
      ContinuesOn(old(journal), passed, journal);
      ReadingsChain(old(journal), passed, journal);
      BarredLater(old(journal), passed, journal);
      if refused {
        return false, true;
      }
      ghost var read := journal;
      state := state.(status := Snapshotted);
      SnapshotSaves(plan, ViewOf(journal), state.(sequence := state.sequence + 1));
      SaveViews(ViewOf(journal), state.(sequence := state.sequence + 1));
      ok := Save();
      ContinuesAt(read, journal);
      ContinuesOn(old(journal), read, journal);
      BarredLater(old(journal), passed, journal);
    }

    lemma RefusedArtifacts()
      ensures IsRefusal(ArtifactsRead(false))
    {
    }

    /** Reads what each selected component is, in plan order, up to the first that cannot be read. */
    method ReadAllBefore() returns (refused: bool)
      requires Synced() && state.status == Ready && state.components == map[]
      modifies this
      ensures Sound() && Grows() && Rollbacks(journal) == Rollbacks(old(journal)) && OnlyReadings(old(journal), journal)
      ensures Durable(journal) == Some(old(state)) && state == old(state).(components := state.components)
      ensures refused ==> journal != old(journal) && IsRefusal(journal[|journal| - 1])
      ensures !refused ==> state.components.Keys == Elements(plan.selected)
      ensures forall c :: c in state.components ==>
        Untouched(state.components[c]) && (c, state.components[c].prior) in ViewOf(journal).priors
    {
      hide ViewAt, Lawful, ValidPlan, Next, WellFormed, Untouched, Rollbacks, OnlyReadings, Continues, Rejections,
           Spends;
      NothingContinues(journal);
      ReadingsSteps(journal);
      for i := 0 to |plan.selected|
        invariant Sound() && Grows() && Rollbacks(journal) == Rollbacks(old(journal))
        invariant Durable(journal) == Some(old(state)) && state == old(state).(components := state.components)
        invariant OnlyReadings(old(journal), journal)
        invariant state.components.Keys == Elements(plan.selected[..i])
        invariant forall c :: c in state.components ==>
          Untouched(state.components[c]) && (c, state.components[c].prior) in ViewOf(journal).priors
      {
        var c := plan.selected[i];
        assert plan.selected[..i + 1] == plan.selected[..i] + [c];
        if c !in state.components {
          ReadingsMore(old(journal), journal);
          ghost var sofar := journal;
          var prior := ReadBefore(c);
          ContinuesAt(old(journal), sofar);
          ContinuesOn(old(journal), sofar, journal);
          if prior.Raised? {
            return true;
          }
          NewIsUntouched(prior.value);
          state := state.(components := state.components[c := Entry(Unstarted, prior.value, EMPTY_CANDIDATE, EMPTY_QUOTA)]);
        }
      }
      assert plan.selected[..|plan.selected|] == plan.selected;
      return false;
    }

    /** `candidate.setdefault('create_if_absent', ...)` and its save. */
    method DecideCreation() returns (ok: bool)
      requires Synced() && DocumentImport in state.components
      modifies this
      ensures Sound() && Grows() && Rollbacks(journal) == Rollbacks(old(journal))
      ensures state.components.Keys == old(state).components.Keys
      ensures OnlyEntry(old(state).components, state.components, DocumentImport)
      ensures state.components[DocumentImport] ==
                old(state).components[DocumentImport].(candidate := state.components[DocumentImport].candidate)
      ensures state.components[DocumentImport].candidate.createIfAbsent.Some?
      ensures if ok then Synced() else Unsaved(journal)
    {
      hide ViewAt, Lawful, ValidPlan, Next, SaveAllowed, WellFormed, Grants, Continues, Concludes, Resolved;
      var entry := state.components[DocumentImport];
      var candidate := if entry.candidate.createIfAbsent.None?
                       then entry.candidate.(createIfAbsent := Some(entry.prior.absent)) else entry.candidate;
      ghost var t := WithEntry(state, DocumentImport, entry.(candidate := candidate)).(sequence := state.sequence + 1);
      DecisionForms(plan, state, candidate);
      CandidateSaves(plan, ViewOf(journal), state, t, DocumentImport, candidate);
      SaveViews(ViewOf(journal), t);
      state := WithEntry(state, DocumentImport, entry.(candidate := candidate));
      assert state.(sequence := state.sequence + 1) == t;
      ok := Save();
    }

    /** The loop's error handler up to the compensation. */
    method Handle(c: Component, e: Exc) returns (ok: bool)
      requires Holding(c)
      modifies this
      ensures Sound() && Grows() && Rollbacks(journal) == Rollbacks(old(journal))
      ensures OnlyEntry(old(state).components, state.components, c)
      ensures state.components[c].status == (if LeavesUnknown(e) then EntryUnknown else EntryFailed)
      ensures state.status == (if LeavesUnknown(e) then Unknown else Failed)
      ensures state.components[c].candidate == old(state).components[c].candidate
      ensures if ok then Synced() && journal == old(journal) + [Saved(state)] else Unsaved(journal)
    {
      hide ViewAt, Lawful, ValidPlan, Next, SaveAllowed, HoldingIn, WellFormed, OnlyEntry, ComponentsAdvance, Grants,
           Continues, Concludes;
      var status := if LeavesUnknown(e) then EntryUnknown else EntryFailed;
      var overall := if LeavesUnknown(e) then Unknown else Failed;
      HoldingAdvances(plan, ViewOf(journal), state, c);
      ghost var t := state.(components := state.components[c := state.components[c].(status := status)],
                            status := overall, sequence := state.sequence + 1);
      StatusOnly(state.components, c, status);
      HandlerSaves(plan, ViewOf(journal), state, t, c, status);
      HandlerForms(plan, ViewOf(journal), state, t, c, status);
      SaveViews(ViewOf(journal), t);
      UnlistedGrantsNothing(ViewOf(journal), state, t);
      state := state.(components := state.components[c := state.components[c].(status := status)], status := overall);
      assert state.(sequence := state.sequence + 1) == t;
      ok := Save();
    }

    /** Mark c's entry pending, durably, before anything is done to it. */
    method Begin(c: Component) returns (ok: bool, wasPending: bool)
      requires Synced() && c in state.components && !InRecovery(state.components[c])
      modifies this
      ensures Sound() && Grows() && Rollbacks(journal) == Rollbacks(old(journal))
      ensures OnlyEntry(old(state).components, state.components, c)
      ensures wasPending == Open(old(state).components[c])
      ensures if ok then Synced() && Working(c) && state.status == Deploying && NothingRead(journal) else Unsaved(journal)
      ensures ok && !wasPending ==>
                c !in ViewOf(journal).called && c !in ViewOf(journal).unreconciled && (c == Frontend ==> ViewOf(journal).funded)
      ensures ok ==> ViewOf(journal).last != Some(Listed([]))
      ensures ok && InPlace(c, state.components[c].candidate) ==> InPlace(c, old(state).components[c].candidate)
    {
      hide ViewAt, Lawful, ValidPlan, Next, SaveAllowed, HoldingIn, WellFormed, EntryAdvances, CandidateAdvances,
           Ascending, ComponentsAdvance,
           OnlyEntry, Continues, Rollbacks, SameBut, Spends;
      ContinuesSteps(journal);
      ok, wasPending := true, Open(state.components[c]);
      OnlyEntrySteps(state.components, c);
      if c == DocumentImport {
        ok := DecideCreation();
        if !ok {
          return;
        }
      }
      ghost var s1, v1 := state, ViewOf(journal);
      if !wasPending {
        SettledHasNoOpenCall(plan, journal, c, |journal|);
      }
      StatusOnly(state.components, c, Pending);
      ok := SaveEntry(c, Pending, Deploying);
      if ok {
        LastOfView(journal);
        SpendsNothing(state, state);
        PendingIsWork(plan, ViewOf(journal), state, c);
        if !wasPending {
          OpeningView(plan, v1, s1, state, c);
        }
      }
    }

    /** One iteration of the deploy loop for a chosen component. */
    method DeployOne(c: Component, reactivate: bool) returns (r: Step)
      requires Synced() && c in state.components
      modifies this
      ensures Sound() && Grows() && Rollbacks(journal) == Rollbacks(old(journal))
      ensures r.Skipped? || r.RefusedRecovery? ==> state == old(state) && journal == old(journal)
      ensures r.Skipped? <==> old(state).components[c].status == Verified && !reactivate
      ensures r.RefusedRecovery? <==> Refuses(old(state).components[c])
      ensures r.Deployed? || r.Broken? ==> OnlyEntry(old(state).components, state.components, c)
      ensures r.Deployed? ==> Synced() && state.components[c].status == Verified && state.status == Deploying
      ensures r.Deployed? && !Open(old(state).components[c]) ==>
        TriedSince(plan.aliases, journal, |old(journal)|, c, InPlace(c, old(state).components[c].candidate))
      ensures r.NotSaved? ==> Unsaved(journal)
      ensures r.Broken? ==> BrokenBy(c, old(state).components[c], r.exc) && |journal| > |old(journal)|
    {
      hide ViewAt, Lawful, ValidPlan, Next, SaveAllowed, WellFormed, ViewOf, Rollbacks, Durable, OnlyEntry, BrokenBy,
           TriedSince, Continues;
      ContinuesSteps(journal);
      if state.components[c].status == Verified && !reactivate {
        return Skipped;
      }
      if state.components[c].status in {RollbackPending, RollbackUnknown, RollbackFailed} {
        return RefusedRecovery;
      }
      r := TakeUp(c);
    }

    /** The handler has recorded c's failure in the last save, and the events before it decide of what kind it is. */
    ghost predicate BrokenBy(c: Component, before: Entry, e: Exc)
      reads this
    {
      && Synced() && c in state.components && EndsWith(journal, Saved(state))
      && state.components[c].status == (if LeavesUnknown(e) then EntryUnknown else EntryFailed)
      && state.status == (if LeavesUnknown(e) then Unknown else Failed)
      && Decides(journal[..|journal| - 1], c, state.components[c].candidate, Open(before), e)
    }

    /** Mark it, work on it, and record how that went. */
    method TakeUp(c: Component) returns (r: Step)
      requires Synced() && c in state.components && !InRecovery(state.components[c])
      modifies this
      ensures Sound() && Grows() && Rollbacks(journal) == Rollbacks(old(journal))
      ensures r.Deployed? || r.Broken? || r.NotSaved?
      ensures r.Deployed? || r.Broken? ==> OnlyEntry(old(state).components, state.components, c)
      ensures r.Deployed? ==> Synced() && state.components[c].status == Verified && state.status == Deploying
      ensures r.Deployed? && !Open(old(state).components[c]) ==>
        TriedSince(plan.aliases, journal, |old(journal)|, c, InPlace(c, old(state).components[c].candidate))
      ensures r.NotSaved? ==> Unsaved(journal)
      ensures r.Broken? ==> BrokenBy(c, old(state).components[c], r.exc) && |journal| > |old(journal)|
    {
      hide ViewAt, Lawful, ValidPlan, Next, SaveAllowed, HoldingIn, WellFormed, ViewOf, Rollbacks, Ascending, Durable,
           Decides, OnlyEntry, SameBut, Continues, Submitted, GaveUp, InPlace, TriedSince, RetryValid, Spends;
      OnlyEntrySteps(state.components, c);
      var begun, attempt := MarkAndAttempt(c);
      if !begun {
        return NotSaved;
      }
      if attempt.Ok? {
        return Deployed;
      }
      ghost var before := journal;
      var ok := Handle(c, attempt.exc);
      ContinuesAt(old(journal), before);
      ContinuesAt(before, journal);
      ContinuesOn(old(journal), before, journal);
      if !ok {
        return NotSaved;
      }
      assert journal[..|journal| - 1] == before;
      return Broken(attempt.exc);
    }

    method MarkAndAttempt(c: Component) returns (begun: bool, r: Outcome<()>)
      requires Synced() && c in state.components && !InRecovery(state.components[c])
      modifies this
      ensures Sound() && Grows() && Rollbacks(journal) == Rollbacks(old(journal))
      ensures OnlyEntry(old(state).components, state.components, c)
      ensures !begun ==> Unsaved(journal)
      ensures begun ==> Holding(c) && state.status == Deploying
      ensures begun && r.Ok? ==> Synced() && state.components[c].status == Verified
      ensures begun && !Open(old(state).components[c]) ==>
        TriedSince(plan.aliases, journal, |old(journal)|, c, InPlace(c, old(state).components[c].candidate))
      ensures begun && r.Raised? ==>
        Decides(journal, c, state.components[c].candidate, Open(old(state).components[c]), r.exc)
    {
      hide ViewAt, Lawful, ValidPlan, Next, SaveAllowed, HoldingIn, WorkingIn, WellFormed, Rollbacks, Ascending,
           Durable, Decides, OnlyEntry, SameBut, Continues, Submitted, GaveUp, InPlace, TriedSince, RetryValid,
           Spends, Open, HandledRejection, Rejections, InRecovery;
      ghost var entries := state.components;
      OnlyEntrySteps(entries, c);
      var ok, wasPending := Begin(c);
      if !ok {
        return false, Ok(());
      }
      ghost var s, marked := state, journal;
      begun := true;
      r := Attempt(c, wasPending);
      ContinuesAt(old(journal), marked);
      ContinuesAt(marked, journal);
      ContinuesOn(old(journal), marked, journal);
      OnlyChanges(entries, s, state, c);
      if !wasPending {
        TriedFrom(plan.aliases, journal, journal, |marked|, |old(journal)|, c, InPlace(c, s.components[c].candidate));
        KnownMeans(plan.aliases, journal, |old(journal)|, c, InPlace(c, s.components[c].candidate),
                   InPlace(c, entries[c].candidate));
      }
    }

    /**
     `deploy`: bring the chosen components up in plan order. After a known failure everything this invocation changed is
     compensated, whatever the provider answers, unless a save fails: no other way leaves the attempt failed.
     */
    method Deploy(chosen: set<Component>, reactivate: bool)
      returns (r: DeployResult, changed: seq<Component>, ghost base: map<Component, Entry>, ghost calls: seq<Component>)
      requires Synced()
      modifies this
      ensures Sound() && Closes()
      ensures Barred(old(journal), journal, r.Stopped?)
      ensures journal[|old(journal)|] == ArtifactsRead(false) ==> state == old(state)
      ensures old(state).status == Ready && journal[|old(journal)|] == ArtifactsRead(true) ==>
        Barred(old(journal) + [ArtifactsRead(true)], journal, r.Stopped?)
      ensures old(state).status != Ready ==> base == old(state).components
      ensures old(state).status == Ready && !r.Stopped? && !r.Halted? ==>
                base.Keys == Elements(plan.selected) && forall c :: c in base ==> Untouched(base[c])
      ensures Rollbacks(journal) == Rollbacks(old(journal)) + calls
      ensures Ends(r, changed, calls, base, Picked(chosen), reactivate, old(state), old(journal))
      ensures r.Stopped? ==> IsRefusal(journal[|journal| - 1]) || SomeMissing(Picked(chosen), base)
      ensures r.Partial? || (r.Finished? && (reactivate || !ClaimsRuntime(old(state).status))) ==>
        forall c :: c in plan.selected && (chosen == {} || c in chosen) ==>
          c in state.components && state.components[c].status == Verified
      ensures forall c :: c in changed ==> c in plan.selected && (chosen == {} || c in chosen)
      ensures r.Halted? ==> Unsaved(journal)
      ensures LeavesResolved(r) ==> Resolved(state.status)
      ensures LeavesUnresolved(r, changed) ==> !Resolved(state.status)
    {
      hide ViewAt, Lawful, Next, SaveAllowed, WellFormed, Ends, Rollbacks, Picked, Continues, Concludes, OnlyReadings,
           Durable, Untouched;
      ghost var picked := Picked(chosen);
      changed, base, calls := [], state.components, [];
      assert Rollbacks(old(journal)) + calls == Rollbacks(old(journal));
      ReadingsSteps(journal);
      ReadingsMore(journal, journal);
      var usable := Barrier();
      ContinuingConcludes(old(journal), journal);
      if !usable {
        NothingBegun(Stopped, base, picked, reactivate, state, old(journal));
        return Stopped, changed, base, calls;
      }
      ghost var passed := journal;
      if ClaimsRuntime(state.status) && !reactivate {
        var tag := Tag();
        ConcludesAt(passed, journal);
        ContinuesOn(old(journal), passed, journal);
        BarredLater(old(journal), passed, journal);
        NothingBegun(Finished(tag), base, picked, reactivate, old(state), old(journal));
        EndsMean(Finished(tag), changed, calls, base, picked, reactivate, old(state), old(journal));
        return Finished(tag), changed, base, calls;
      }
      ghost var state0 := state;
      if state.status == Ready {
        var ok, refused := Snapshot();
        ContinuesAt(passed, journal);
        ContinuesOn(old(journal), passed, journal);
        BarredLater(old(journal), passed, journal);
        if !ok {
          ContinuingConcludes(old(journal), journal);
          r := if refused then Stopped else Halted;
          ReadingsChain(old(journal), passed, journal);
          NothingBegun(r, base, picked, reactivate, state0, old(journal));
          return;
        }
        base := state.components;
      }
      ghost var state1, journal1 := state, journal;
      r, changed, calls := DeployLoop(Picked(chosen), reactivate);
      ConcludesAt(journal1, journal);
      ContinuesOn(old(journal), journal1, journal);
      BarredLater(old(journal), passed, journal);
      BarredOn(passed, journal1, journal);
      EndsEarlier(r, changed, calls, base, picked, reactivate, state1, journal1, state0, old(journal));
      EndsMean(r, changed, calls, base, picked, reactivate, old(state), old(journal));
      PickedMeans(r, changed, calls, base, chosen, reactivate, old(state), old(journal));
    }

    /** No choice means the whole selection. */
    function Picked(chosen: set<Component>): set<Component> {
      if chosen == {} then Elements(plan.selected) else chosen
    }

    /** What was picked is verified, and nothing else was changed. */
    lemma PickedMeans(r: DeployResult, changed: seq<Component>, calls: seq<Component>, base: map<Component, Entry>,
                      chosen: set<Component>, reactivate: bool, before: Checkpoint, past: seq<Event>)
      requires Ends(r, changed, calls, base, Picked(chosen), reactivate, before, past)
      ensures r.Partial? || (r.Finished? && (reactivate || !ClaimsRuntime(before.status))) ==>
        forall c :: c in plan.selected && (chosen == {} || c in chosen) ==>
          c in state.components && state.components[c].status == Verified
      ensures forall c :: c in changed ==> c in plan.selected && (chosen == {} || c in chosen)
    {
      hide Taken, RefusedAt, AllCompensated, CompensatedIn, Handled, FailedSince, AllTried, DeployedIn, BrokenIn,
           CallsIn;
    }

    /** A chosen component of the selection has no entry. */
    predicate SomeMissing(chosen: set<Component>, base: map<Component, Entry>) {
      exists c :: c in chosen && c in plan.selected && c !in base
    }

    /**
     How an invocation that began in the given state ended: `changed` was taken up and `calls` were made to roll back,
     from the entries `base`.
     */
    ghost predicate Ends(r: DeployResult, changed: seq<Component>, calls: seq<Component>, base: map<Component, Entry>,
                         chosen: set<Component>, reactivate: bool, before: Checkpoint, past: seq<Event>)
      reads this
    {
      && Within(changed, plan.selected, chosen) && CallsIn(calls, changed)
      && changed <= Taken(plan.selected, |plan.selected|, chosen, base, reactivate)
      && (r.Finished? || r.Partial? || r.Refused? ==>
            DeployedIn(base, state.components, changed) && AllTried(plan.aliases, journal, |past|, base, changed))
      && (r.Partial? || (r.Finished? && (reactivate || !ClaimsRuntime(before.status))) ==>
            && ChosenVerified(plan.selected, |plan.selected|, chosen, state.components)
            && changed == Taken(plan.selected, |plan.selected|, chosen, base, reactivate))
      && (r.Finished? ==> ClaimsRuntime(state.status))
      && (r.Partial? ==> state.status == PartiallyReactivated && !Complete(plan, state.components))
      && (r == Finished(Tagged) ==> state.status == Success)
      && (r == Finished(TagIncomplete) ==> state.status == TagFailed)
      && (r.Refused? ==> (changed != [] ==> state.status == Deploying)
                         && exists i: nat :: RefusedAt(plan.selected, i, chosen, base)
                              && changed == Taken(plan.selected, i, chosen, base, reactivate))
      && (r.Compensated? || r.Uncompensated? ==>
            && Synced() && changed != [] && CompensatedIn(base, state.components, changed)
            && AllCompensated(journal, |past|, base, state.components, changed, calls)
            && FailedSince(journal, |past|, changed[|changed| - 1], base, EntryFailed))
      && (r.Compensated? ==> state.status == FailedRolledBack && AllRolledBack(state.components, changed))
      && (r.Uncompensated? ==> state.status == RecoveryFailed && !AllRolledBack(state.components, changed))
      && (r.LeftUnknown? ==>
            && Synced() && state.status == Unknown && BrokenIn(base, state.components, changed, EntryUnknown)
            && |journal| > |past| && Handled(journal, |journal| - 1, changed[|changed| - 1], base, EntryUnknown))
      && (!(r.Compensated? || r.Uncompensated? || r.Halted?) ==> calls == [])
      && (r.Stopped? ==> changed == [] && OnlyReadings(past, journal))
      && (state.status == Failed && !r.Halted? ==> changed == [] && state == before && OnlyReadings(past, journal))
    }

    /** The endings after which another attempt may begin. */
    predicate LeavesResolved(r: DeployResult) { r.Compensated? || r == Finished(Tagged) }

    /** The endings after which none may. */
    predicate LeavesUnresolved(r: DeployResult, changed: seq<Component>) {
      || r.LeftUnknown? || r.Partial? || r.Uncompensated? || r == Finished(TagIncomplete)
      || (r.Refused? && changed != [])
    }

    lemma EndsMean(r: DeployResult, changed: seq<Component>, calls: seq<Component>, base: map<Component, Entry>,
                   chosen: set<Component>, reactivate: bool, before: Checkpoint, past: seq<Event>)
      requires Ends(r, changed, calls, base, chosen, reactivate, before, past)
      ensures LeavesResolved(r) ==> Resolved(state.status)
      ensures LeavesUnresolved(r, changed) ==> !Resolved(state.status)
    {
      hide Taken, RefusedAt, AllCompensated, CompensatedIn, Handled, FailedSince, AllTried, DeployedIn, BrokenIn;
    }

    lemma NothingBegun(r: DeployResult, base: map<Component, Entry>, chosen: set<Component>, reactivate: bool,
                       before: Checkpoint, past: seq<Event>)
      requires r.Stopped? || r.Halted? || (r.Finished? && ClaimsRuntime(state.status) && base == state.components)
      requires (r == Finished(Tagged) ==> state.status == Success)
      requires (r == Finished(TagIncomplete) ==> state.status == TagFailed)
      requires r.Finished? ==> !reactivate && ClaimsRuntime(before.status)
      requires r.Stopped? ==>
        OnlyReadings(past, journal) && (state == before || state.status == Ready)
      ensures Ends(r, [], [], base, chosen, reactivate, before, past)
    {
      hide Taken;
    }

    lemma EndsEarlier(r: DeployResult, changed: seq<Component>, calls: seq<Component>, base: map<Component, Entry>,
                      chosen: set<Component>, reactivate: bool, state1: Checkpoint, journal1: seq<Event>,
                      state0: Checkpoint, journal0: seq<Event>)
      requires Ends(r, changed, calls, base, chosen, reactivate, state1, journal1)
      requires r.Stopped? ==> SomeMissing(chosen, base)
      requires journal0 <= journal1
      requires (state1 == state0 && OnlyReadings(journal0, journal1))
               || (state1.status == Snapshotted && base.Keys == Elements(plan.selected))
      ensures Ends(r, changed, calls, base, chosen, reactivate, state0, journal0)
    {
      hide AllCompensated, Within, CallsIn, DeployedIn, CompensatedIn, AllRolledBack, BrokenIn, Taken, ChosenVerified,
           RefusedAt, AllTried, OnlyReadings,
           FailedSince, Handled;
      if OnlyReadings(journal0, journal1) && OnlyReadings(journal1, journal) {
        ReadingsChain(journal0, journal1, journal);
      }
      if r.Finished? || r.Partial? || r.Refused? {
        TriedEarlier(plan.aliases, journal, journal, |journal1|, |journal0|, base, changed);
      }
      if r.Compensated? || r.Uncompensated? {
        CompensatedEarlier(journal, |journal1|, |journal0|, base, state.components, changed, calls);
        HandledEarlier(journal, |journal1|, |journal0|, changed[|changed| - 1], base, EntryFailed);
      }
      assert base.Keys == Elements(plan.selected) ==> !SomeMissing(chosen, base);
    }

    lemma RefusedEnds(i: nat, changed: seq<Component>, base: map<Component, Entry>, chosen: set<Component>,
                      reactivate: bool,
                      before: Checkpoint, past: seq<Event>)
      requires RefusedAt(plan.selected, i, chosen, base) && changed == Taken(plan.selected, i, chosen, base, reactivate)
      requires Within(changed, plan.selected, chosen) && DeployedIn(base, state.components, changed)
      requires AllTried(plan.aliases, journal, |past|, base, changed)
      requires if changed == [] then state == before && journal == past else state.status == Deploying
      ensures Ends(Refused, changed, [], base, chosen, reactivate, before, past)
    {
      hide Taken, Within, DeployedIn, AllTried;
      NothingCalled(changed);
      TakenGrows(plan.selected, i, chosen, base, reactivate);
    }

    lemma HaltedEnds(changed: seq<Component>, calls: seq<Component>, base: map<Component, Entry>,
                     chosen: set<Component>,
                     reactivate: bool, before: Checkpoint, past: seq<Event>)
      requires Within(changed, plan.selected, chosen) && CallsIn(calls, changed)
      requires changed <= Taken(plan.selected, |plan.selected|, chosen, base, reactivate)
      ensures Ends(Halted, changed, calls, base, chosen, reactivate, before, past)
    {
      hide Taken, Within, CallsIn;
    }

    lemma UnknownEnds(changed: seq<Component>, base: map<Component, Entry>, chosen: set<Component>, reactivate: bool,
                      before: Checkpoint, past: seq<Event>)
      requires Within(changed, plan.selected, chosen) && BrokenIn(base, state.components, changed, EntryUnknown)
      requires Synced() && state.status == Unknown && |journal| > |past|
      requires changed != [] && Handled(journal, |journal| - 1, changed[|changed| - 1], base, EntryUnknown)
      requires changed <= Taken(plan.selected, |plan.selected|, chosen, base, reactivate)
      ensures Ends(LeftUnknown, changed, [], base, chosen, reactivate, before, past)
    {
      hide Taken, Within, BrokenIn, Synced, Handled;
      NothingCalled(changed);
    }

    lemma UndoneEnds(r: DeployResult, changed: seq<Component>, calls: seq<Component>, base: map<Component, Entry>,
                     chosen: set<Component>, reactivate: bool, since: nat, before: Checkpoint, past: seq<Event>)
      requires Within(changed, plan.selected, chosen) && CallsIn(calls, changed) && changed != [] && |past| <= since
      requires changed <= Taken(plan.selected, |plan.selected|, chosen, base, reactivate)
      requires FailedSince(journal, |past|, changed[|changed| - 1], base, EntryFailed)
      requires r in {Halted, Compensated, Uncompensated}
      requires r.Compensated? || r.Uncompensated? ==>
                 Synced() && CompensatedIn(base, state.components, changed)
                   && AllCompensated(journal, since, base, state.components, changed, calls)
      requires r.Compensated? ==> state.status == FailedRolledBack && AllRolledBack(state.components, changed)
      requires r.Uncompensated? ==> state.status == RecoveryFailed && !AllRolledBack(state.components, changed)
      ensures Ends(r, changed, calls, base, chosen, reactivate, before, past)
    {
      hide Taken, Within, CallsIn, AllCompensated, CompensatedIn, AllRolledBack, Synced, FailedSince;
      if !r.Halted? {
        CompensatedEarlier(journal, since, |past|, base, state.components, changed, calls);
      }
    }

    lemma ClosedEnds(r: DeployResult, changed: seq<Component>, base: map<Component, Entry>, chosen: set<Component>,
                     reactivate: bool, before: Checkpoint, past: seq<Event>)
      requires Looping(plan.selected, |plan.selected|, chosen, base, state.components, changed, reactivate)
      requires r.Finished? || r.Partial? || r.Halted?
      requires AllTried(plan.aliases, journal, |past|, base, changed)
      requires r.Finished? ==> ClaimsRuntime(state.status)
      requires (r == Finished(Tagged) ==> state.status == Success)
      requires (r == Finished(TagIncomplete) ==> state.status == TagFailed)
      requires r.Partial? ==> state.status == PartiallyReactivated && !Complete(plan, state.components)
      ensures Ends(r, changed, [], base, chosen, reactivate, before, past)
    {
      hide DeployedIn, ChangedAmong, ChosenVerified, Within, Taken, AllTried;
      NothingCalled(changed);
    }

    /** The loop over the selection and what follows it. */
    method DeployLoop(chosen: set<Component>, reactivate: bool)
      returns (r: DeployResult, changed: seq<Component>, ghost calls: seq<Component>)
      requires Synced()
      modifies this
      ensures Sound() && Closes() && Rollbacks(journal) == Rollbacks(old(journal)) + calls
      ensures Ends(r, changed, calls, old(state).components, chosen, reactivate, old(state), old(journal))
      ensures r.Stopped? ==> SomeMissing(chosen, old(state).components)
      ensures r.Halted? ==> Unsaved(journal)
    {
      hide ViewAt, Lawful, Next, SaveAllowed, RestoredIn, AllBack, CompensatedIn, DeployedIn, BrokenIn, WellFormed,
           OnlyEntry, ChosenVerified, Within, AllRolledBack, Rollbacks, Refuses, Taken, RefusedAt, Looping, CallsIn,
           AllCompensated, Ends, Durable, ViewOf, Ascending, Handled, FailedSince, Decides, AllTried, TriedSince,
           Continues, Concludes, OnlyReadings, InPlace, Spends, Open, InRecovery;
      NothingContinues(journal);
      ReadingsSteps(journal);
      changed, calls := [], [];
      ghost var base, before, past := state.components, state, journal;
      assert Rollbacks(past) + calls == Rollbacks(past);
      LoopStarts(base, plan.selected, chosen, reactivate);
      NoneTried(plan.aliases, journal, base);
      for i := 0 to |plan.selected|
        invariant Synced() && Grows() && Rollbacks(journal) == Rollbacks(past) && calls == []
        invariant Looping(plan.selected, i, chosen, base, state.components, changed, reactivate)
        invariant if changed == [] then state == before && journal == past else state.status == Deploying
        invariant AllTried(plan.aliases, journal, |past|, base, changed)
      {
        var c := plan.selected[i];
        ghost var entries := state.components;
        LoopPasses(plan.selected, i, chosen, base, entries, changed, reactivate);
        if c in chosen {
          if c !in state.components {
            LoopMisses(plan, state, plan.selected, i, chosen, base, changed, reactivate);
            ContinuingConcludes(past, journal);
            NothingBegun(Stopped, base, chosen, reactivate, before, past);
            return Stopped, changed, calls;
          }
          TakenGrows(plan.selected, i, chosen, base, reactivate);
          ghost var begun := journal;
          var step := DeployOne(c, reactivate);
          ContinuesAt(past, begun);
          ContinuesAt(begun, journal);
          ContinuesOn(past, begun, journal);
          ContinuingConcludes(past, journal);
          match step {
            case Skipped =>
            case RefusedRecovery =>
              RefusedEnds(i, changed, base, chosen, reactivate, before, past);
              return Refused, changed, calls;
            case NotSaved =>
              NothingCalled(changed + [c]);
              HaltedEnds(changed + [c], calls, base, chosen, reactivate, before, past);
              return Halted, changed + [c], calls;
            case Deployed =>
              OneMoreTried(plan.aliases, past, begun, journal, base, changed, c);
              LoopTakes(plan.selected, i, chosen, base, entries, state.components, changed, reactivate);
              changed := changed + [c];
            case Broken(e) =>
              LoopTakes(plan.selected, i, chosen, base, entries, state.components, changed, reactivate);
              changed := changed + [c];
              DecisionIsHandled(journal, c, base, e);
              ghost var failed := journal;
              r, calls := AfterBreak(e, base, changed, chosen, reactivate, before, past);
              ContinuesOn(past, failed, journal);
              return;
          }
        }
      }
      ghost var looped := journal;
      r := Close();
      ConcludesAt(looped, journal);
      ContinuesOn(past, looped, journal);
      TriedEarlier(plan.aliases, looped, journal, |past|, |past|, base, changed);
      ClosedEnds(r, changed, base, chosen, reactivate, before, past);
    }

    /** A component broke: what its end leaves open stays; after a known failure all that was changed is compensated. */
    method AfterBreak(e: Exc, ghost base: map<Component, Entry>, changed: seq<Component>, ghost chosen: set<Component>,
                      ghost reactivate: bool, ghost before: Checkpoint, ghost past: seq<Event>)
      returns (r: DeployResult, ghost calls: seq<Component>)
      requires Synced() && changed != [] && Within(changed, plan.selected, chosen) && |journal| > |past|
      requires changed <= Taken(plan.selected, |plan.selected|, chosen, base, reactivate)
      requires state.status == (if LeavesUnknown(e) then Unknown else Failed)
      requires var left := if LeavesUnknown(e) then EntryUnknown else EntryFailed;
        && BrokenIn(base, state.components, changed, left)
        && Handled(journal, |journal| - 1, changed[|changed| - 1], base, left)
      modifies this
      ensures Sound() && Closes() && Rollbacks(journal) == Rollbacks(old(journal)) + calls
      ensures Ends(r, changed, calls, base, chosen, reactivate, before, past)
      ensures !r.Stopped? && (r.Halted? ==> Unsaved(journal))
    {
      hide ViewAt, Lawful, Next, SaveAllowed, AllBack, CompensatedIn, BrokenIn, WellFormed, Within, AllRolledBack,
           Rollbacks, Taken, CallsIn, AllCompensated, Ends, Durable, Ascending, Handled, FailedSince, Continues,
           Concludes;
      if LeavesUnknown(e) {
        UnknownEnds(changed, base, chosen, reactivate, before, past);
        NothingContinues(journal);
        ContinuingConcludes(journal, journal);
        assert Rollbacks(journal) + [] == Rollbacks(journal);
        return LeftUnknown, [];
      }
      r, calls := Undo(base, changed);
      ConcludesAt(old(journal), journal);
      HandledLater(old(journal), journal, |old(journal)| - 1, |past|, changed[|changed| - 1], base, EntryFailed);
      UndoneEnds(r, changed, calls, base, chosen, reactivate, |old(journal)|, before, past);
    }

    /** The automatic compensation after a known failure. */
    method Undo(ghost base: map<Component, Entry>, changed: seq<Component>) returns (r: DeployResult,
                ghost calls: seq<Component>)
      requires Synced() && BrokenIn(base, state.components, changed, EntryFailed)
      modifies this
      ensures Sound() && Closes() && Rollbacks(journal) == Rollbacks(old(journal)) + calls && CallsIn(calls, changed)
      ensures r in {Halted, Compensated, Uncompensated}
      ensures r.Halted? ==> Unsaved(journal)
      ensures r.Compensated? || r.Uncompensated? ==>
                && Synced() && CompensatedIn(base, state.components, changed)
                && AllCompensated(journal, |old(journal)|, base, state.components, changed, calls)
      ensures r.Compensated? ==> state.status == FailedRolledBack && AllRolledBack(state.components, changed)
      ensures r.Uncompensated? ==> state.status == RecoveryFailed && !AllRolledBack(state.components, changed)
    {
      hide ViewAt, Lawful, Next, SaveAllowed, RestoredIn, AllBack, CompensatedIn, AllRolledBack, AllCompensated,
           CompensatedSince,
           Rollbacks, Accounted, Ascending, Continues, Concludes;
      ghost var before := state.components;
      var restored;
      restored, calls := Restore(Elements(changed), true);
      if restored.Restored? || restored.Incomplete? {
        Compensates(base, before, state.components, changed, EntryFailed, Elements(plan.selected));
        CompensatesAll(journal, |old(journal)|, base, before, state.components, changed, Elements(plan.selected),
                       calls);
      }
      r := match restored case Restored => Compensated case Incomplete => Uncompensated case _ => Halted;
    }

    /** All entries verified: claim the runtime and tag. Otherwise only a part was reactivated. */
    method Close() returns (r: DeployResult)
      requires Synced()
      modifies this
      ensures Sound() && Closes() && Rollbacks(journal) == Rollbacks(old(journal))
      ensures state.components == old(state).components
      ensures r.Finished? || r.Partial? || r.Halted?
      ensures r.Halted? ==> Unsaved(journal)
      ensures (r == Finished(Tagged) ==> state.status == Success)
      ensures (r == Finished(TagIncomplete) ==> state.status == TagFailed)
      ensures r.Partial? ==> state.status == PartiallyReactivated && !Complete(plan, state.components)
      ensures r.Finished? ==>
        ClaimsRuntime(state.status) && forall c :: c in state.components ==> state.components[c].status == Verified
    {
      hide ViewAt, Lawful, Next, SaveAllowed, WellFormed, Rollbacks, Complete, Continues, Concludes;
      ContinuesSteps(journal);
      ConcludingSteps(journal);
      CloseForms(plan, state);
      if |state.components| == |plan.selected| && forall c :: c in state.components ==> state.components[c].status == Verified {
        var ok := SaveStatus(RuntimeSuccess);
        if !ok {
          return Halted;
        }
        var tag := Tag();
        return Finished(tag);
      }
      var kept := SaveStatus(PartiallyReactivated);
      return if kept then Partial else Halted;
    }

    /**
     One runtime entrypoint: deploy, reactivate, rollback or tag. Whatever happens, the journal stays lawful. What was
     asked for is what is done.
     */
    method Operate(op: Operation)
      returns (r: OperationResult, ghost changed: seq<Component>, ghost base: map<Component, Entry>, ghost calls: seq<Component>)
      requires Synced()
      modifies this
      ensures Sound() && Closes() && Rollbacks(journal) == Rollbacks(old(journal)) + calls
      ensures op.DeployOp? || op.ReactivateOp? ==>
        && r.DeployEnded? && Barred(old(journal), journal, r.deploy.Stopped?)
        && Ends(r.deploy, changed, calls, base, Picked(op.chosen), op.ReactivateOp?, old(state), old(journal))
      ensures op.RollbackOp? ==>
        && r.RestoreEnded? && CallsFor(calls, old(state).components, op.chosen, Elements(plan.selected))
        && (r.restore.Restored? || r.restore.Incomplete? ==>
              Synced() && RestoredIn(old(state).components, state.components, op.chosen, Elements(plan.selected)))
        && (r.restore.Restored? ==> state.status == RolledBack)
        && (r.restore.Incomplete? ==> state.status == RecoveryFailed)
      ensures op.TagOp? ==>
        && r.TagEnded? && calls == [] && state.components == old(state).components
        && (r.tag.TagForbidden? <==> old(state).status !in {RuntimeSuccess, TagFailed, Success})
        && (!r.tag.TagForbidden? ==> TagTried(old(journal), journal, plan.source))
        && (r.tag.Tagged? ==> state.status == Success && SeenBeforeLast(journal, |old(journal)|, plan.source))
    {
      hide ViewAt, Lawful, Continues, Concludes, Ends, Barred, RestoredIn, CallsFor, AllBack, Accounted, Rollbacks,
           WellFormed, SeenBeforeLast, TagTried;
      changed, base, calls := [], state.components, [];
      match op {
        case DeployOp(chosen) =>
          var deployed;
          deployed, changed, base, calls := Deploy(chosen, false);
          r := DeployEnded(deployed);
        case ReactivateOp(chosen) =>
          var deployed;
          deployed, changed, base, calls := Deploy(chosen, true);
          r := DeployEnded(deployed);
        case RollbackOp(chosen) =>
          var restored;
          restored, calls := Restore(chosen, false);
          r := RestoreEnded(restored);
        case TagOp =>
          var tagged := Tag();
          r := TagEnded(tagged);
          assert Rollbacks(old(journal)) + [] == Rollbacks(old(journal));
      }
    }
  }

  /** The first save of an attempt. */
  predicate IsReady(plan: Plan, cp: Checkpoint) { WellFormed(plan, cp) && cp.status == Ready }

  lemma StartIsLawful(plan: Plan, ready: Checkpoint)
    requires IsReady(plan, ready)
    ensures Lawful(plan, [Saved(ready)]) && Durable([Saved(ready)]) == Some(ready)
  {
    Append(plan, [], Saved(ready));
    NothingYet([]);
    assert [] + [Saved(ready)] == [Saved(ready)];
  }

  /**
   One attempt from its preparation on: any sequence of runtime entrypoints, each of which may die after any event and
   is followed by a restart from what was durable by then. The whole is one lawful journal.
   */
  method RunAttempt(plan: Plan, ready: Checkpoint, operations: seq<Operation>)
    returns (journal: seq<Event>)
    requires ValidPlan(plan) && IsReady(plan, ready)
    ensures Lawful(plan, journal) && [Saved(ready)] <= journal && Durable(journal).Some?
  {
    hide Lawful, ViewAt, IsReady, ValidPlan;
    StartIsLawful(plan, ready);
    journal := [Saved(ready)];
    for i := 0 to |operations|
      invariant Lawful(plan, journal) && [Saved(ready)] <= journal && Durable(journal).Some?
    {
      var project: Option<string> :| true;
      var engine := new Engine(plan, project, Durable(journal).value, journal);
      var ended, changed, base, calls := engine.Operate(operations[i]);
      var died :| |journal| <= died <= |engine.journal|;
      PrefixLawful(plan, engine.journal, died);
      DurablePlan(plan, engine.journal, died);
      journal := engine.journal[..died];
    }
  }
}
