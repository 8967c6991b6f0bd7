/**
 The journal of a release attempt: every durable save and every provider call, in order.
 `Lawful` says which event may follow which; it is closed under taking prefixes, so it also
 speaks about an attempt that died between any two events and was resumed from its last save.
 The lemmas below say what every lawful journal guarantees.
 */
module Journals {
  import opened Wrappers
  import opened Sequences
  import opened Checkpoints

  datatype Severity = IsFailed | IsUnknown

  /** `Breakpoint` with its status and retained cause, or a KeyError/ValueError. */
  datatype Exc = Breakpoint(severity: Severity, cause: Option<Cause>) | Unrepresentable

  predicate LeavesUnknown(e: Exc) { e.Unrepresentable? || e.severity == IsUnknown }

  /**
   What the engine was at when a call raised: one reading, a poll, a change or the look-up of an earlier submission.
   */
  datatype Task = Observing | Polling | Changing | Discovering

  datatype Event =
      /** A process began, from the last durable save. */
    | Started
      /** `barrier`: whether every receipt is present and applicable. */
    | ArtifactsRead(usable: bool)
    | Saved(cp: Checkpoint)
      /** A save reported a failure; it may have taken effect. */
    | SaveErrored
      /** The mutation that creates or updates the component itself. */
    | DeployCall(component: Component)
      /** `secrets versions add` for a service's configuration. */
    | ConfigAdd(component: Component)
      /** The version the answer to it names, if the answer is usable. */
    | VersionAdded(component: Component, version: Option<nat>)
      /** What the answer to a submission calls the thing it made. */
    | Named(component: Component, name: string)
      /** An adjustment that names an identity already known: traffic, an alias, a grant, an upload. */
    | Steer(component: Component)
      /** Where a stable alias leads, compared with the deployment. */
    | AliasRead(alias: string, matched: bool)
    | RollbackCall(component: Component, prior: Prior)
    | ReadCandidate(component: Component, candidate: Candidate, matched: bool)
    | ReadPrior(component: Component, prior: Prior, matched: bool)
      /** The newest revision of a service, and whether it is exactly the candidate. */
    | RevisionRead(component: Component, revision: string, matched: bool)
      /** A call about the component raised. */
    | Errored(component: Component, task: Task, exc: Exc)
      /** What the component was found to be when the snapshot was taken. */
    | PriorSeen(component: Component, prior: Prior)
      /** The document import job was looked up: not there, or there and created by this attempt or not. */
    | JobRead(owned: Option<bool>)
      /** The command line tool reported the daily quota code for a front-end submission. */
    | QuotaRejected(record: QuotaRecord)
      /** Retained evidence of an older run was examined, and this is the rejection it proves, if any. */
    | EvidenceRead(proved: Option<QuotaRecord>)
      /** A complete deployment listing found these deployments of the attempt. */
    | Listed(found: seq<string>)
      /** The references were searched for the release tag, and so many are exactly that tag. */
    | TagRefs(count: nat)
      /** A look-up about the release tag raised. */
    | TagUnread
      /** An object the release tag leads to: an annotated tag, or the commit. */
    | TagObject(annotated: bool, sha: string)
      /** The creation of the release tag at this commit was reported to succeed. */
    | TagCreated(sha: string)
      /** The creation of the release tag at this commit was reported to fail. */
    | TagNotCreated(sha: string)

  datatype RejectionStage = NoRejection | Reported | Confirmed

  /**
   What the laws need to know about the events so far. An epoch begins with the save that opens the front-end entry.
   After a save that used up an authorisation the submission is owed.
   */
  datatype View = View(
    durable: Option<Checkpoint>,
    last: Option<Event>,
    touched: map<Component, Event>,
    called: set<Component>,
    unreconciled: set<Component>,
    entering: set<Component>,
    funded: bool,
    stage: RejectionStage,
    rejected: Option<QuotaRecord>,
    absent: bool,
    owned: bool,
    named: set<(Component, string)>,
    versions: set<(Component, nat)>,
    priors: set<(Component, Prior)>,
    proofs: set<QuotaRecord>,
    calls: nat,
    grants: nat,
    armings: nat,
    rejections: nat,
    carried: nat,
    legacy: nat,
    owed: bool,
    readings: nat)

  const BLANK := View(None, None, map[], {}, {}, {}, false, NoRejection, None, false, false, {}, {}, {}, {}, 0, 0, 0, 0, 0, 0, false, 0)

  predicate RetryPending(cp: Checkpoint) {
    Frontend in cp.components && cp.components[Frontend].quota.retryPending
  }

  predicate LegacyUsed(cp: Checkpoint) {
    Frontend in cp.components && HasLegacy(cp.components[Frontend].quota)
  }

  /** The last submission of c may still be running or unreported. */
  predicate OpenIn(d: Option<Checkpoint>, c: Component) {
    d.Some? && c in d.value.components && d.value.components[c].status in {Pending, EntryUnknown}
  }

  function StageIn(d: Option<Checkpoint>, c: Component): Option<ConfigStage> {
    if d.Some? && c in d.value.components then ConfigStageOf(d.value.components[c].candidate) else None
  }

  /** The save `cp` moves the front-end entry from settled to open. */
  predicate StartsEpoch(v: View, cp: Checkpoint) {
    OpenIn(Some(cp), Frontend) && !OpenIn(v.durable, Frontend)
  }

  predicate NewLegacy(v: View, cp: Checkpoint) {
    LegacyUsed(cp) && !(v.durable.Some? && LegacyUsed(v.durable.value))
  }

  predicate Arms(v: View, cp: Checkpoint) {
    RetryPending(cp) && !(v.durable.Some? && RetryPending(v.durable.value))
  }

  predicate Consumes(v: View, cp: Checkpoint) {
    !RetryPending(cp) && v.durable.Some? && RetryPending(v.durable.value)
  }

  /** A complete listing without a match was read and an authorisation is used up by this save. */
  predicate Grants(v: View, cp: Checkpoint) {
    v.last == Some(Listed([])) && (Consumes(v, cp) || NewLegacy(v, cp))
  }

  function One(b: bool): nat { if b then 1 else 0 }

  function AfterSave(v: View, cp: Checkpoint): View {
    var opening := StartsEpoch(v, cp);
    v.(durable := Some(cp),
       called := (set c | c in v.called && OpenIn(Some(cp), c)),
       unreconciled := (set c | c in v.unreconciled && OpenIn(Some(cp), c)),
       entering := (set c | c in cp.components && v.durable.Some? && StageIn(Some(cp), c) == Some(Publishing)
                            && StageIn(v.durable, c) in {None, Some(Preparing)}),
       funded := opening || Grants(v, cp) || v.funded,
       stage := if opening || Arms(v, cp) then NoRejection else v.stage,
       calls := if opening then 0 else v.calls,
       grants := if opening then 0 else v.grants + One(Grants(v, cp)),
       armings := if opening then 0 else v.armings + One(Arms(v, cp)),
       rejections := if opening then 0 else v.rejections,
       carried := if opening then One(RetryPending(cp)) else v.carried,
       legacy := if opening then 0 else v.legacy + One(NewLegacy(v, cp)),
       owed := Grants(v, cp))
  }

  /** The save just made is reported to have failed. */
  predicate ReportsFailure(v: View, e: Event) { e == SaveErrored && v.last.Some? && v.last.value.Saved? }

  /** The component that the event calls or reads back. */
  function Concerned(e: Event): Option<Component> {
    match e
    case DeployCall(c) => Some(c)
    case ConfigAdd(c) => Some(c)
    case Steer(c) => Some(c)
    case RollbackCall(c, _) => Some(c)
    case ReadCandidate(c, _, _) => Some(c)
    case ReadPrior(c, _, _) => Some(c)
    case _ => None
  }

  function StageAfter(v: View, e: Event): RejectionStage {
    if e == DeployCall(Frontend) then NoRejection
    else if e.QuotaRejected? then Reported
    else if e == Listed([]) && v.stage == Reported then Confirmed else v.stage
  }

  function NamedBy(e: Event): set<(Component, string)> {
    match e
    case Named(c, name) => {(c, name)}
    case RevisionRead(c, name, matched) => if matched then {(c, name)} else {}
    case Listed(found) => set x | x in found :: (Frontend, x)
    case _ => {}
  }

  function AfterEvent(v: View, e: Event): View {
    v.(touched := if Concerned(e).Some? then v.touched[Concerned(e).value := e] else v.touched,
       called := if e.DeployCall? then v.called + {e.component} else v.called,
       unreconciled :=
         if e.DeployCall? then v.unreconciled + {e.component}
         else if e.RevisionRead? && !e.matched then v.unreconciled - {e.component} else v.unreconciled,
       entering := if e.ConfigAdd? then v.entering - {e.component} else v.entering,
       funded := v.funded && e != DeployCall(Frontend),
       stage := StageAfter(v, e),
       rejected := if e.QuotaRejected? then Some(e.record) else v.rejected,
       absent := e == JobRead(None) || (v.absent && e != DeployCall(DocumentImport)),
       owned := e == JobRead(Some(true)) || (v.owned && e != DeployCall(DocumentImport)),
       named := v.named + NamedBy(e),
       versions := if e.VersionAdded? && e.version.Some? then v.versions + {(e.component, e.version.value)} else v.versions,
       priors := if e.PriorSeen? then v.priors + {(e.component, e.prior)} else v.priors,
       proofs := if e.EvidenceRead? && e.proved.Some? then v.proofs + {e.proved.value} else v.proofs,
       calls := v.calls + One(e == DeployCall(Frontend)),
       rejections := v.rejections + One(e.QuotaRejected?),
       readings := v.readings + One(e.ReadCandidate?),
       owed := v.owed && e != DeployCall(Frontend) && e != Started && !ReportsFailure(v, e))
  }

  function Next(v: View, e: Event): View {
    (if e.Saved? then AfterSave(v, e.cp) else AfterEvent(v, e)).(last := Some(e))
  }

  /** What each event does to the durable state and the submissions not yet settled or reconciled. */
  lemma NextCalls(v: View, e: Event)
    ensures Next(v, e).durable == if e.Saved? then Some(e.cp) else v.durable
    ensures Next(v, e).called ==
      if e.Saved? then set c | c in v.called && OpenIn(Some(e.cp), c) else if e.DeployCall? then v.called + {e.component} else v.called
    ensures Next(v, e).unreconciled ==
      if e.Saved? then set c | c in v.unreconciled && OpenIn(Some(e.cp), c)
      else if e.DeployCall? then v.unreconciled + {e.component}
      else if e.RevisionRead? && !e.matched then v.unreconciled - {e.component} else v.unreconciled
  {
    hide OpenIn, StageIn, StartsEpoch, Grants, Arms, NewLegacy, RetryPending;
    if e.Saved? {
      assert Next(v, e) == AfterSave(v, e.cp).(last := Some(e));
    } else {
      hide AfterSave;
    }
  }

  /** What it does to the quota accounts, outside saves. */
  lemma NextAccounts(v: View, e: Event)
    requires !e.Saved?
    ensures var w, call := Next(v, e), e == DeployCall(Frontend);
            && w.funded == (v.funded && !call) && w.calls == v.calls + One(call)
            && w.grants == v.grants && w.armings == v.armings && w.carried == v.carried && w.legacy == v.legacy
            && w.rejections == v.rejections + One(e.QuotaRejected?) && w.last == Some(e)
            && w.rejected == (if e.QuotaRejected? then Some(e.record) else v.rejected)
            && w.stage == if call then NoRejection else if e.QuotaRejected? then Reported
                          else if e == Listed([]) && v.stage == Reported then Confirmed else v.stage
  {
    hide AfterSave, NamedBy, Concerned;
  }

  /** What the provider has answered only grows. */
  lemma NextAnswers(v: View, e: Event)
    ensures v.named <= Next(v, e).named && v.versions <= Next(v, e).versions && v.proofs <= Next(v, e).proofs
    ensures v.priors <= Next(v, e).priors
  {
    hide OpenIn, StageIn, StartsEpoch, Grants, Arms, NewLegacy, RetryPending;
  }

  /** The view after the first k events. */
  function ViewAt(j: seq<Event>, k: nat): View
    requires k <= |j|
  {
    if k == 0 then BLANK else Next(ViewAt(j, k - 1), j[k - 1])
  }

  function ViewOf(j: seq<Event>): View { ViewAt(j, |j|) }

  /** The checkpoint a process started after the first k events resumes from. */
  function DurableAt(j: seq<Event>, k: nat): Option<Checkpoint>
    requires k <= |j|
  {
    ViewAt(j, k).durable
  }

  function Durable(j: seq<Event>): Option<Checkpoint> { DurableAt(j, |j|) }

  predicate NewlyIn(v: View, cp: Checkpoint, c: Component, s: EntryStatus)
    requires c in cp.components
  {
    cp.components[c].status == s &&
    !(v.durable.Some? && c in v.durable.value.components && v.durable.value.components[c].status == s)
  }

  predicate TouchedBy(v: View, c: Component, e: Event) { c in v.touched && v.touched[c] == e }

  /** A retry is pending that was armed by the rejection last reported, after an empty listing confirmed it. */
  predicate Armed(v: View, d: Checkpoint, cp: Checkpoint) {
    && RetryPending(cp) && v.stage == Confirmed
    && v.rejected.Some? && v.rejected.value.source.ProviderCli?
    && History(cp) == WithRecord(History(d), v.rejected.value)
  }

  /** Evidence that was examined is recorded, as the first record of all. */
  predicate TakesLegacy(v: View, d: Checkpoint, cp: Checkpoint) {
    && History(d) == [] && |History(cp)| == 1
    && History(cp)[0].source.RetainedResult? && History(cp)[0] in v.proofs
  }

  /** The history grows by the rejection that arms a retry or by retained evidence, one record at a time. */
  predicate HistoryLaw(v: View, d: Checkpoint, cp: Checkpoint) {
    && (RetryPending(cp) && !RetryPending(d) ==> Armed(v, d, cp))
    && (History(cp) == History(d) || Armed(v, d, cp) || TakesLegacy(v, d, cp))
  }

  /**
   Creation is begun only after the job was read as absent, and confirmed only after it was read as the attempt's own.
   */
  predicate CreationLaw(v: View, d: Checkpoint, cp: Checkpoint) {
    && (CreationOf(cp) == Some(Creating) && CreationOf(d) != Some(Creating) ==> v.absent)
    && (CreationOf(cp) == Some(Created) && CreationOf(d) != Some(Created) ==> v.owned)
  }

  function CandidateIn(cp: Checkpoint, c: Component): Candidate {
    if c in cp.components then cp.components[c].candidate else EMPTY_CANDIDATE
  }

  /** An identity that is new in b is one that an answer of the provider named. */
  predicate Learned(v: View, c: Component, a: Candidate, b: Candidate) {
    && (b.deployment.Some? && b.deployment != a.deployment ==> (c, b.deployment.value) in v.named)
    && (b.revision.Some? && b.revision != a.revision ==> (c, b.revision.value) in v.named)
    && (b.config.Some? && b.config.value.stage == Published && b.config != a.config ==>
          b.config.value.version.Some? && (c, b.config.value.version.value) in v.versions)
  }

  predicate IdentityLaw(v: View, d: Checkpoint, cp: Checkpoint) {
    forall c :: c in cp.components ==> Learned(v, c, CandidateIn(d, c), cp.components[c].candidate)
  }

  /** A new entry holds the prior that was read. */
  predicate PriorLaw(v: View, d: Checkpoint, cp: Checkpoint) {
    forall c :: c in cp.components && c !in d.components ==> (c, cp.components[c].prior) in v.priors
  }

  /** What a save adds to the records of d was answered by the provider before. */
  predicate RecordLaws(v: View, d: Checkpoint, cp: Checkpoint) {
    HistoryLaw(v, d, cp) && CreationLaw(v, d, cp) && IdentityLaw(v, d, cp)
  }

  /** The tag was read at the commit, or its creation there was reported to succeed. */
  predicate TagSeen(e: Event, sha: string) { e == TagObject(false, sha) || e == TagCreated(sha) }

  predicate SaveAllowed(plan: Plan, v: View, cp: Checkpoint) {
    && WellFormed(plan, cp) && !v.owed
    && (v.durable.None? ==> v.last.None? && cp.status == Ready)
    && (v.durable.Some? ==>
          && v.durable.value.sequence < cp.sequence
          && (v.durable.value.components.Keys == {} || v.durable.value.components.Keys == cp.components.Keys)
          && ComponentsAdvance(v.durable.value.components, cp.components)
          && !BeforeRuntime(cp.status)
          && (cp.status == Success && v.durable.value.status != Success ==>
                v.last.Some? && TagSeen(v.last.value, plan.source))
          && (forall c :: c in cp.components && NewlyIn(v, cp, c, Verified) ==>
                TouchedBy(v, c, ReadCandidate(c, cp.components[c].candidate, true)))
          && (forall c :: c in cp.components && NewlyIn(v, cp, c, EntryRolledBack) ==>
                TouchedBy(v, c, ReadPrior(c, cp.components[c].prior, true)))
          && RecordLaws(v, v.durable.value, cp) && PriorLaw(v, v.durable.value, cp))
  }

  predicate DurablyPending(v: View, c: Component) {
    && v.durable.Some? && v.durable.value.status == Deploying
    && c in v.durable.value.components && v.durable.value.components[c].status == Pending
  }

  predicate DeployAllowed(v: View, c: Component) {
    && DurablyPending(v, c)
    && (IsJob(c) ==> c !in v.called)
    && (c == DocumentImport ==>
          && v.durable.value.components[c].candidate.createIfAbsent.Some?
          && (v.durable.value.components[c].prior.absent ==> v.durable.value.components[c].candidate.creation.Some?))
    && (c == Frontend ==> v.funded && v.durable.value.components[c].candidate.deployment.None?)
    && (IsService(c) ==>
          && c !in v.unreconciled
          && v.durable.value.components[c].candidate.revision.None?
          && StageIn(v.durable, c) == Some(Published))
  }

  predicate Allowed(plan: Plan, v: View, e: Event) {
    match e
    case Saved(cp) => SaveAllowed(plan, v, cp)
    case DeployCall(c) => DeployAllowed(v, c)
    case ConfigAdd(c) => DurablyPending(v, c) && IsService(c) && c in v.entering
    case Steer(c) => DurablyPending(v, c)
    case RollbackCall(c, prior) =>
      && v.durable.Some? && v.durable.value.status == RollingBack && c in v.durable.value.components
      && v.durable.value.components[c].status == RollbackPending
      && v.durable.value.components[c].prior == prior
    case ReadCandidate(_, _, _) => v.durable.Some?
    case ReadPrior(_, _, _) => v.durable.Some?
    case SaveErrored => v.durable.Some?
    case VersionAdded(c, _) => DurablyPending(v, c)
    case Named(c, _) => DurablyPending(v, c)
    case RevisionRead(c, _, _) => DurablyPending(v, c)
    case Errored(_, _, _) => v.durable.Some?
    case PriorSeen(_, _) => v.durable.Some?
    case JobRead(_) => v.durable.Some?
    case QuotaRejected(record) => OpenIn(v.durable, Frontend) && record.source.ProviderCli? && RecordValid(plan, record)
    case EvidenceRead(proved) =>
      v.durable.Some? && (proved.Some? ==> proved.value.source.RetainedResult? && RecordValid(plan, proved.value))
    case Listed(_) => v.durable.Some?
    case TagObject(_, _) => v.durable.Some?
    case TagCreated(_) => v.durable.Some?
    case Started => v.durable.Some?
    case ArtifactsRead(_) => v.durable.Some?
    case AliasRead(_, _) => DurablyPending(v, Frontend)
    case TagRefs(_) => v.durable.Some?
    case TagUnread => v.durable.Some?
    case TagNotCreated(_) => v.durable.Some?
  }

  predicate AllowedAt(plan: Plan, j: seq<Event>, k: nat)
    requires k < |j|
  {
    Allowed(plan, ViewAt(j, k), j[k])
  }

  predicate Lawful(plan: Plan, j: seq<Event>) {
    forall k :: 0 <= k < |j| ==> AllowedAt(plan, j, k)
  }

  lemma {:induction false} ViewOfPrefix(j: seq<Event>, l: seq<Event>, k: nat)
    requires k <= |j| && j <= l
    ensures ViewAt(j, k) == ViewAt(l, k)
  {
    if k > 0 {
      ViewOfPrefix(j, l, k - 1);
    }
  }

  lemma Append(plan: Plan, j: seq<Event>, e: Event)
    ensures Lawful(plan, j + [e]) <==> Lawful(plan, j) && Allowed(plan, ViewOf(j), e)
    ensures ViewOf(j + [e]) == Next(ViewOf(j), e)
  {
    hide Allowed, Next, ViewAt;
    var l := j + [e];
    forall k | 0 <= k <= |j| ensures ViewAt(j, k) == ViewAt(l, k) {
      ViewOfPrefix(j, l, k);
    }
    ViewSnoc(l, |l|);
    if Lawful(plan, l) {
      forall k | 0 <= k < |j| ensures AllowedAt(plan, j, k) {
        assert AllowedAt(plan, l, k);
      }
      assert AllowedAt(plan, l, |j|);
    }
    if Lawful(plan, j) && Allowed(plan, ViewOf(j), e) {
      forall k | 0 <= k < |l| ensures AllowedAt(plan, l, k) {
        assert k < |j| ==> AllowedAt(plan, j, k);
      }
    }
  }

  /** Stopping an attempt anywhere leaves a lawful journal. */
  lemma PrefixLawful(plan: Plan, j: seq<Event>, n: nat)
    requires Lawful(plan, j) && n <= |j|
    ensures Lawful(plan, j[..n])
    ensures ViewOf(j[..n]) == ViewAt(j, n)
  {
    forall k | 0 <= k < n ensures AllowedAt(plan, j[..n], k) {
      ViewOfPrefix(j[..n], j, k);
      assert AllowedAt(plan, j, k);
    }
    ViewOfPrefix(j[..n], j, n);
  }

  /** The components whose rollback was called, in order. */
  function Rollbacks(j: seq<Event>): seq<Component> {
    if j == [] then []
    else
      var e := j[|j| - 1];
      Rollbacks(j[..|j| - 1]) + (if e.RollbackCall? then [e.component] else [])
  }

  /** The event changes something at the provider. */
  predicate IsMutation(e: Event) { e.DeployCall? || e.ConfigAdd? || e.Steer? || e.RollbackCall? }

  /** Whatever is changed at the provider, the newest save keeps other attempts from beginning. */
  lemma MutationsAreFenced(plan: Plan, j: seq<Event>, k: nat)
    requires Lawful(plan, j) && k < |j| && IsMutation(j[k])
    ensures DurableAt(j, k).Some? && !Resolved(DurableAt(j, k).value.status)
  {
    hide ViewAt;
    assert AllowedAt(plan, j, k);
  }

  // ---- what every later save keeps ------------------------------------------------------

  lemma BegunStep(plan: Plan, v: View, e: Event)
    requires Allowed(plan, v, e) && v.durable.Some? && !BeforeRuntime(v.durable.value.status)
    ensures Next(v, e).durable.Some? && !BeforeRuntime(Next(v, e).durable.value.status)
  {
    hide Next, WellFormed;
    NextCalls(v, e);
  }

  lemma {:induction false} BegunStays(plan: Plan, j: seq<Event>, i: nat, k: nat)
    requires Lawful(plan, j) && i <= k <= |j|
    requires DurableAt(j, i).Some? && !BeforeRuntime(DurableAt(j, i).value.status)
    ensures DurableAt(j, k).Some? && !BeforeRuntime(DurableAt(j, k).value.status)
    decreases k
  {
    hide Lawful, ViewAt, Next, Allowed;
    if i < k {
      BegunStays(plan, j, i, k - 1);
      StepOf(plan, j, k);
      BegunStep(plan, ViewAt(j, k - 1), j[k - 1]);
    }
  }

  /** A plan that is only prepared or ready stands in nobody's way: it has changed nothing at the provider. */
  lemma ReadyIsUntouched(plan: Plan, j: seq<Event>)
    requires Lawful(plan, j) && Durable(j).Some? && Durable(j).value.status in {Prepared, Ready}
    ensures Resolved(Durable(j).value.status) && forall e :: e in j ==> !IsMutation(e)
  {
    hide Lawful, ViewAt, IsMutation;
    forall e | e in j ensures !IsMutation(e) {
      var k :| 0 <= k < |j| && j[k] == e;
      if IsMutation(e) {
        MutationsAreFenced(plan, j, k);
        ResolvedBefore(DurableAt(j, k).value.status);
        BegunStays(plan, j, k, |j|);
        assert false;
      }
    }
    ResolvedBefore(Durable(j).value.status);
  }

  lemma ResolvedBefore(s: Status)
    ensures BeforeRuntime(s) ==> Resolved(s)
  {
  }

  /** Identities are set once: nothing recorded in `a` is lost or replaced in `b`. */
  predicate EntryKept(a: Entry, b: Entry) {
    && a.prior == b.prior
    && (a.candidate.deployment.Some? ==> b.candidate.deployment == a.candidate.deployment)
    && (a.candidate.revision.Some? ==> b.candidate.revision == a.candidate.revision)
    && ConfigAdvances(a.candidate.config, b.candidate.config)
    && a.quota.rejections <= b.quota.rejections
  }

  predicate Keeps(a: Checkpoint, b: Checkpoint) {
    && a.plan == b.plan
    && (a.components.Keys == {} || a.components.Keys == b.components.Keys)
    && forall c :: c in a.components ==> c in b.components && EntryKept(a.components[c], b.components[c])
  }

  lemma KeepsTransitive(a: Checkpoint, b: Checkpoint, c: Checkpoint)
    requires Keeps(a, b) && Keeps(b, c)
    ensures Keeps(a, c)
  {
  }

  lemma SaveKeeps(plan: Plan, v: View, cp: Checkpoint)
    requires SaveAllowed(plan, v, cp) && v.durable.Some? && v.durable.value.plan == plan.id
    ensures Keeps(v.durable.value, cp) && v.durable.value.sequence < cp.sequence
  {
  }

  lemma DurableStep(plan: Plan, v: View, e: Event)
    requires Allowed(plan, v, e) && (v.durable.Some? ==> WellFormed(plan, v.durable.value))
    ensures Next(v, e).durable.Some? && WellFormed(plan, Next(v, e).durable.value)
  {
    hide WellFormed, ComponentsAdvance, TouchedBy, NewlyIn, StageIn, StartsEpoch, Arms;
  }

  lemma ViewSnoc(j: seq<Event>, k: nat)
    requires 0 < k <= |j|
    ensures ViewAt(j, k) == Next(ViewAt(j, k - 1), j[k - 1])
  {
    hide Next;
  }

  lemma NothingYet(j: seq<Event>)
    ensures ViewAt(j, 0) == BLANK
  {
  }

  lemma StepOf(plan: Plan, j: seq<Event>, k: nat)
    requires Lawful(plan, j) && 0 < k <= |j|
    ensures Allowed(plan, ViewAt(j, k - 1), j[k - 1]) && ViewAt(j, k) == Next(ViewAt(j, k - 1), j[k - 1])
  {
    hide Allowed, Next;
    assert AllowedAt(plan, j, k - 1);
  }

  lemma {:induction false} DurablePlan(plan: Plan, j: seq<Event>, k: nat)
    requires Lawful(plan, j) && k <= |j|
    ensures 0 < k ==> DurableAt(j, k).Some?
    ensures DurableAt(j, k).Some? ==> WellFormed(plan, DurableAt(j, k).value)
  {
    hide ViewAt, Next, Allowed, WellFormed, Lawful;
    NothingYet(j);
    if k > 0 {
      StepOf(plan, j, k);
      DurablePlan(plan, j, k - 1);
      DurableStep(plan, ViewAt(j, k - 1), j[k - 1]);
    }
  }

  /** Over all crashes and resumptions: sequences grow, entries cover none or all, recorded identities stay. */
  lemma {:induction false} SavesOnlyAdvance(plan: Plan, j: seq<Event>, i: nat, k: nat)
    requires Lawful(plan, j) && i < k < |j| && j[i].Saved? && j[k].Saved?
    ensures Keeps(j[i].cp, j[k].cp) && j[i].cp.sequence < j[k].cp.sequence
  {
    DurableAdvances(plan, j, i, k);
    assert AllowedAt(plan, j, k);
    DurablePlan(plan, j, k);
    SaveKeeps(plan, ViewAt(j, k), j[k].cp);
    KeepsTransitive(j[i].cp, DurableAt(j, k).value, j[k].cp);
  }

  lemma {:induction false} DurableAdvances(plan: Plan, j: seq<Event>, i: nat, k: nat)
    requires Lawful(plan, j) && i < k <= |j| && j[i].Saved?
    ensures DurableAt(j, k).Some?
    ensures Keeps(j[i].cp, DurableAt(j, k).value) && j[i].cp.sequence <= DurableAt(j, k).value.sequence
    decreases k
  {
    hide Lawful, ViewAt, Next, SaveAllowed, Keeps, WellFormed;
    StepOf(plan, j, k);
    NextCalls(ViewAt(j, k - 1), j[k - 1]);
    if k - 1 > i {
      DurableAdvances(plan, j, i, k - 1);
      if j[k - 1].Saved? {
        DurableIsOf(plan, j, k - 1);
        SaveKeeps(plan, ViewAt(j, k - 1), j[k - 1].cp);
        KeepsTransitive(j[i].cp, DurableAt(j, k - 1).value, j[k - 1].cp);
      }
    } else {
      KeepsItself(j[i].cp);
    }
  }

  /** What is resumed from is of this plan, names its components or none, and keeps no rejection of another archive. */
  lemma DurableIsThePlans(plan: Plan, j: seq<Event>, k: nat)
    requires Lawful(plan, j) && k <= |j| && DurableAt(j, k).Some?
    ensures var cp := DurableAt(j, k).value;
      && cp.plan == plan.id && (cp.components.Keys == {} || cp.components.Keys == Elements(plan.selected))
      && (forall r :: r in History(cp) ==> r.plan == plan.id && r.artifact == plan.artifact && r.cause.quota)
      && (cp.status in {RuntimeSuccess, TagFailed, Success} ==>
            cp.components.Keys == Elements(plan.selected)
              && forall c :: c in cp.components ==> cp.components[c].status == Verified)
      && (cp.status in {Prepared, Ready} ==> cp.components == map[])
  {
    hide Lawful, ViewAt;
    DurablePlan(plan, j, k);
  }

  lemma DurableIsOf(plan: Plan, j: seq<Event>, k: nat)
    requires Lawful(plan, j) && k <= |j| && DurableAt(j, k).Some?
    ensures DurableAt(j, k).value.plan == plan.id
  {
    hide Lawful, ViewAt;
    DurablePlan(plan, j, k);
  }

  lemma KeepsItself(cp: Checkpoint)
    ensures Keeps(cp, cp)
  {
  }

  /** The compensation of c was begun and is not confirmed. */
  predicate RecoveringIn(cp: Checkpoint, c: Component) {
    c in cp.components && cp.components[c].status in {RollbackPending, RollbackUnknown, RollbackFailed}
  }

  predicate RolledBackIn(cp: Checkpoint, c: Component) {
    c in cp.components && cp.components[c].status == EntryRolledBack
  }

  lemma RecoveryStep(plan: Plan, v: View, e: Event, c: Component)
    requires Allowed(plan, v, e) && v.durable.Some? && RecoveringIn(v.durable.value, c)
    requires e.Saved? ==> !RolledBackIn(e.cp, c)
    ensures Next(v, e).durable.Some? && RecoveringIn(Next(v, e).durable.value, c)
  {
    hide Next, WellFormed, RecordLaws, CandidateAdvances;
    NextCalls(v, e);
    if e.Saved? {
      SavedAdvances(plan, v, e.cp, c);
    }
  }

  /**
   Recovery is not forgotten: an entry whose compensation was begun stays so until a save records it as rolled back.
   */
  lemma {:induction false} RecoveryStays(plan: Plan, j: seq<Event>, c: Component, i: nat, k: nat)
    requires Lawful(plan, j) && i < k <= |j| && j[i].Saved? && RecoveringIn(j[i].cp, c)
    requires forall m :: i < m < k && j[m].Saved? ==> !RolledBackIn(j[m].cp, c)
    ensures DurableAt(j, k).Some? && RecoveringIn(DurableAt(j, k).value, c)
    decreases k
  {
    hide ViewAt, Next, Lawful, Allowed, InRecovery;
    StepOf(plan, j, k);
    NextCalls(ViewAt(j, k - 1), j[k - 1]);
    if k - 1 > i {
      RecoveryStays(plan, j, c, i, k - 1);
      RecoveryStep(plan, ViewAt(j, k - 1), j[k - 1], c);
    }
  }

  // ---- no blind replay --------------------------------------------------------------------

  predicate SettledBetween(j: seq<Event>, c: Component, i: nat, k: nat)
    requires k <= |j|
  {
    exists m :: i < m < k && j[m].Saved? && !OpenIn(Some(j[m].cp), c)
  }

  lemma CalledStep(v: View, e: Event, c: Component)
    requires e == DeployCall(c) || (c in v.called && (e.Saved? ==> OpenIn(Some(e.cp), c)))
    ensures c in Next(v, e).called
  {
  }

  lemma {:induction false} CalledUntilSettled(plan: Plan, j: seq<Event>, c: Component, i: nat, k: nat)
    requires Lawful(plan, j) && i < k <= |j| && j[i] == DeployCall(c)
    requires forall m :: i < m < k && j[m].Saved? ==> OpenIn(Some(j[m].cp), c)
    ensures c in ViewAt(j, k).called
    decreases k
  {
    assert ViewAt(j, k) == Next(ViewAt(j, k - 1), j[k - 1]);
    if k - 1 > i {
      CalledUntilSettled(plan, j, c, i, k - 1);
    }
    CalledStep(ViewAt(j, k - 1), j[k - 1], c);
    hide ViewAt, Next, Lawful;
  }

  /** A job is submitted again only after a save that recorded its earlier submission as settled. */
  lemma JobsNeverReplayed(plan: Plan, j: seq<Event>, c: Component, i: nat, k: nat)
    requires Lawful(plan, j) && i < k < |j|
    requires c in {DocumentImport, ExportJob, Worker} && j[i] == DeployCall(c) && j[k] == DeployCall(c)
    ensures SettledBetween(j, c, i, k)
  {
    assert AllowedAt(plan, j, k);
    if !SettledBetween(j, c, i, k) {
      CalledUntilSettled(plan, j, c, i, k);
    }
  }

  /** After event i and before k the newest revision of c was read and is not the candidate. */
  predicate FoundOtherBetween(j: seq<Event>, c: Component, i: nat, k: nat)
    requires k <= |j|
  {
    exists m :: i < m < k && IsOtherRevision(j[m], c)
  }

  predicate IsOtherRevision(e: Event, c: Component) { e.RevisionRead? && e.component == c && !e.matched }

  lemma UnreconciledStep(v: View, e: Event, c: Component)
    requires e == DeployCall(c) || (c in v.unreconciled && !IsOtherRevision(e, c) && (e.Saved? ==> OpenIn(Some(e.cp), c)))
    ensures c in Next(v, e).unreconciled
  {
    hide Next, OpenIn;
    NextCalls(v, e);
  }

  lemma {:induction false} UnreconciledUntil(plan: Plan, j: seq<Event>, c: Component, i: nat, k: nat)
    requires Lawful(plan, j) && i < k <= |j| && j[i] == DeployCall(c)
    requires forall m :: i < m < k && j[m].Saved? ==> OpenIn(Some(j[m].cp), c)
    requires forall m :: i < m < k ==> !IsOtherRevision(j[m], c)
    ensures c in ViewAt(j, k).unreconciled
    decreases k
  {
    hide ViewAt, Next, Lawful, Allowed, OpenIn;
    StepOf(plan, j, k);
    if k - 1 > i {
      UnreconciledUntil(plan, j, c, i, k - 1);
    }
    UnreconciledStep(ViewAt(j, k - 1), j[k - 1], c);
  }

  /**
   A service is submitted again only after its earlier submission was settled, or after a reading that came later than
   it showed that the newest revision is not the candidate; and then with a published configuration and no revision
   known.
   */
  lemma ServicesReconcileFirst(plan: Plan, j: seq<Event>, c: Component, i: nat, k: nat)
    requires Lawful(plan, j) && i < k < |j|
    requires c in {Auth, Bff} && j[i] == DeployCall(c) && j[k] == DeployCall(c)
    ensures SettledBetween(j, c, i, k) || FoundOtherBetween(j, c, i, k)
    ensures DurablyPending(ViewAt(j, k), c) && StageIn(DurableAt(j, k), c) == Some(Published)
    ensures DurableAt(j, k).value.components[c].candidate.revision.None?
  {
    hide ViewAt, WellFormed;
    assert AllowedAt(plan, j, k);
    if !SettledBetween(j, c, i, k) && !FoundOtherBetween(j, c, i, k) {
      UnreconciledUntil(plan, j, c, i, k);
    }
  }

  lemma PublishedStep(plan: Plan, v: View, e: Event, c: Component)
    requires Allowed(plan, v, e) && IsService(c) && c in Next(v, e).unreconciled
    requires c in v.unreconciled ==> StageIn(v.durable, c) == Some(Published)
    ensures StageIn(Next(v, e).durable, c) == Some(Published)
  {
    hide Next, WellFormed, HistoryLaw, CreationLaw, IdentityLaw;
    NextCalls(v, e);
    if e.Saved? {
      SavedAdvances(plan, v, e.cp, c);
    }
  }

  /** A service whose submission is neither settled nor reconciled has its configuration published. */
  lemma {:induction false} UnreconciledIsPublished(plan: Plan, j: seq<Event>, c: Component, k: nat)
    requires Lawful(plan, j) && k <= |j| && IsService(c) && c in ViewAt(j, k).unreconciled
    ensures StageIn(DurableAt(j, k), c) == Some(Published)
    decreases k
  {
    hide ViewAt, Next, Lawful, Allowed, StageIn;
    NothingYet(j);
    if k > 0 {
      StepOf(plan, j, k);
      if c in ViewAt(j, k - 1).unreconciled {
        UnreconciledIsPublished(plan, j, c, k - 1);
      }
      PublishedStep(plan, ViewAt(j, k - 1), j[k - 1], c);
    }
  }

  lemma PendingIsOpen(v: View, c: Component)
    requires DurablyPending(v, c)
    ensures OpenIn(v.durable, c)
  {
  }

  lemma SettledStep(plan: Plan, v: View, e: Event, c: Component)
    requires Allowed(plan, v, e) && !OpenIn(Next(v, e).durable, c)
    ensures e.Saved? || (c !in v.called && c !in v.unreconciled) ==>
      c !in Next(v, e).called && c !in Next(v, e).unreconciled
    ensures !e.Saved? ==> !OpenIn(v.durable, c)
  {
    NextCalls(v, e);
    hide Next, SaveAllowed, OpenIn;
    if e.DeployCall? {
      PendingIsOpen(v, e.component);
    }
  }

  /** While a component is durably settled nothing of it has been called since. */
  lemma {:induction false} SettledHasNoOpenCall(plan: Plan, j: seq<Event>, c: Component, k: nat)
    requires Lawful(plan, j) && k <= |j| && !OpenIn(DurableAt(j, k), c)
    ensures c !in ViewAt(j, k).called && c !in ViewAt(j, k).unreconciled
    decreases k
  {
    hide Lawful, ViewAt, Next, Allowed, OpenIn;
    if k > 0 {
      StepOf(plan, j, k);
      SettledStep(plan, ViewAt(j, k - 1), j[k - 1], c);
      if !j[k - 1].Saved? {
        SettledHasNoOpenCall(plan, j, c, k - 1);
      }
    } else {
      NothingYet(j);
    }
  }

  /** Event i is the save that a process started after the first k events resumes from. */
  predicate ResumesFrom(j: seq<Event>, i: nat, k: nat)
    requires k <= |j|
  {
    && i < k && j[i].Saved? && DurableAt(j, k) == Some(j[i].cp)
    && forall m :: i < m < k ==> !j[m].Saved?
  }

  lemma {:induction false} LastSave(j: seq<Event>, k: nat) returns (i: nat)
    requires k <= |j| && DurableAt(j, k).Some?
    ensures ResumesFrom(j, i, k)
    decreases k
  {
    if j[k - 1].Saved? {
      i := k - 1;
    } else {
      i := LastSave(j, k - 1);
    }
  }

  /** Every provider mutation happens under a durable marker of that component and a recorded prior. */
  lemma MutationsAreMarked(plan: Plan, j: seq<Event>, k: nat)
    requires Lawful(plan, j) && k < |j|
    ensures j[k].DeployCall? || j[k].ConfigAdd? || j[k].Steer? ==>
              exists i: nat :: ResumesFrom(j, i, k) && j[k].component in j[i].cp.components
                && j[i].cp.components[j[k].component].status == Pending
    ensures j[k].RollbackCall? ==>
              exists i: nat :: ResumesFrom(j, i, k) && j[k].component in j[i].cp.components
                && j[i].cp.components[j[k].component].status == RollbackPending
                && j[i].cp.components[j[k].component].prior == j[k].prior
  {
    assert AllowedAt(plan, j, k);
    if DurableAt(j, k).Some? {
      var i := LastSave(j, k);
    }
  }

  // ---- the document import job ----------------------------------------------------------------

  /** Event e occurred before k, and no submission of the document import since. */
  predicate ReadSince(j: seq<Event>, k: nat, e: Event)
    requires k <= |j|
  {
    exists i :: 0 <= i < k && j[i] == e && forall m :: i < m < k ==> j[m] != DeployCall(DocumentImport)
  }

  /** The k-th event is a save that moves the creation record to this state. */
  predicate NewlyCreation(j: seq<Event>, k: nat, creation: Creation)
    requires k < |j|
  {
    && j[k].Saved? && DurableAt(j, k).Some?
    && CreationOf(j[k].cp) == Some(creation) && CreationOf(DurableAt(j, k).value) != Some(creation)
  }

  lemma JobFlags(v: View, e: Event)
    ensures Next(v, e).absent <==> e == JobRead(None) || (v.absent && e != DeployCall(DocumentImport))
    ensures Next(v, e).owned <==> e == JobRead(Some(true)) || (v.owned && e != DeployCall(DocumentImport))
  {
    hide OpenIn, StageIn, StartsEpoch, Grants, Arms, NewLegacy, RetryPending;
  }

  lemma {:induction false} JobWasRead(j: seq<Event>, k: nat)
    requires k <= |j|
    ensures ViewAt(j, k).absent <==> ReadSince(j, k, JobRead(None))
    ensures ViewAt(j, k).owned <==> ReadSince(j, k, JobRead(Some(true)))
  {
    if k > 0 {
      JobWasRead(j, k - 1);
      JobFlags(ViewAt(j, k - 1), j[k - 1]);
      ReadLater(j, k, JobRead(None));
      ReadLater(j, k, JobRead(Some(true)));
    }
    hide Next, ReadSince;
  }

  lemma ReadLater(j: seq<Event>, k: nat, e: Event)
    requires 0 < k <= |j| && e.JobRead?
    ensures ReadSince(j, k, e) <==> j[k - 1] == e || (ReadSince(j, k - 1, e) && j[k - 1] != DeployCall(DocumentImport))
  {
    if j[k - 1] == e {
      assert ReadSince(j, k, e);
    }
    if ReadSince(j, k, e) && j[k - 1] != e {
      var i :| 0 <= i < k && j[i] == e && forall m :: i < m < k ==> j[m] != DeployCall(DocumentImport);
      assert i < k - 1;
    }
  }

  /**
   A job is submitted only after it was decided durably, by what the snapshot saw, whether it is to be created; one that
   was absent in the snapshot only under a durable record of its creation. That record begins
   only after the job was read as absent, and ends as created only after it was read as the attempt's own, in both cases
   with no submission in between.
   */
  lemma CreationIsRecorded(plan: Plan, j: seq<Event>, k: nat)
    requires Lawful(plan, j) && k < |j|
    ensures j[k] == DeployCall(DocumentImport) ==>
              DurablyPending(ViewAt(j, k), DocumentImport)
              && var entry := DurableAt(j, k).value.components[DocumentImport];
                 entry.candidate.createIfAbsent == Some(entry.prior.absent)
                 && (entry.prior.absent ==> CreationOf(DurableAt(j, k).value).Some?)
    ensures NewlyCreation(j, k, Creating) ==> ReadSince(j, k, JobRead(None))
    ensures NewlyCreation(j, k, Created) ==> ReadSince(j, k, JobRead(Some(true)))
  {
    hide ViewAt, ReadSince, Lawful, HistoryLaw, IdentityLaw;
    StepOf(plan, j, k + 1);
    JobWasRead(j, k);
    DurablePlan(plan, j, k);
  }

  // ---- what is recorded was answered -------------------------------------------------------------

  /** The event is an answer of the provider that names x as something c's submission made. */
  predicate Names(e: Event, c: Component, x: string) {
    || e == Named(c, x) || (e.RevisionRead? && e.component == c && e.revision == x && e.matched)
    || (e.Listed? && c == Frontend && x in e.found)
  }

  predicate NamedBefore(j: seq<Event>, k: nat, c: Component, x: string)
    requires k <= |j|
  {
    exists m :: 0 <= m < k && Names(j[m], c, x)
  }

  lemma AnswersStep(v: View, e: Event)
    ensures forall c, x :: (c, x) in Next(v, e).named ==> (c, x) in v.named || Names(e, c, x)
    ensures forall c, n :: (c, n) in Next(v, e).versions ==> (c, n) in v.versions || e == VersionAdded(c, Some(n))
    ensures forall r :: r in Next(v, e).proofs ==> r in v.proofs || e == EvidenceRead(Some(r))
    ensures forall c, p :: (c, p) in Next(v, e).priors ==> (c, p) in v.priors || e == PriorSeen(c, p)
  {
    hide OpenIn, StageIn, StartsEpoch, Grants, Arms, NewLegacy, RetryPending, StageAfter, Concerned, ReportsFailure;
    if !e.Saved? {
      hide AfterSave;
      assert Next(v, e) == AfterEvent(v, e).(last := Some(e));
    }
  }

  lemma {:induction false} AnswersAreEvents(j: seq<Event>, k: nat)
    requires k <= |j|
    ensures forall c, x :: (c, x) in ViewAt(j, k).named ==> NamedBefore(j, k, c, x)
    ensures forall c, n :: (c, n) in ViewAt(j, k).versions ==> VersionAdded(c, Some(n)) in j[..k]
    ensures forall r :: r in ViewAt(j, k).proofs ==> EvidenceRead(Some(r)) in j[..k]
    ensures forall c, p :: (c, p) in ViewAt(j, k).priors ==> PriorSeen(c, p) in j[..k]
  {
    hide ViewAt, Next, Names;
    NothingYet(j);
    if k > 0 {
      AnswersAreEvents(j, k - 1);
      ViewSnoc(j, k);
      AnswersStep(ViewAt(j, k - 1), j[k - 1]);
      assert j[..k] == j[..k - 1] + [j[k - 1]];
      forall c, x | (c, x) in ViewAt(j, k).named ensures NamedBefore(j, k, c, x) {
        if (c, x) in ViewAt(j, k - 1).named {
          assert NamedBefore(j, k - 1, c, x);
        }
      }
    }
  }

  /**
   Every deployment, revision and version that a save records anew was named by an answer of the provider before, and
   every piece of legacy evidence was examined.
   */
  lemma IdentitiesAreAnswered(plan: Plan, j: seq<Event>, k: nat, c: Component)
    requires Lawful(plan, j) && k < |j| && j[k].Saved? && c in j[k].cp.components && DurableAt(j, k).Some?
    ensures var a, b := CandidateIn(DurableAt(j, k).value, c), j[k].cp.components[c].candidate;
            && (b.deployment.Some? && b.deployment != a.deployment ==> NamedBefore(j, k, c, b.deployment.value))
            && (b.revision.Some? && b.revision != a.revision ==> NamedBefore(j, k, c, b.revision.value))
            && (b.config.Some? && b.config.value.stage == Published && b.config != a.config ==>
                  b.config.value.version.Some? && VersionAdded(c, b.config.value.version) in j[..k])
    ensures NewLegacy(ViewAt(j, k), j[k].cp) ==> exists r :: r in History(j[k].cp) && EvidenceRead(Some(r)) in j[..k]
  {
    hide ViewAt, Lawful, WellFormed, CreationLaw, NamedBefore;
    StepOf(plan, j, k + 1);
    AnswersAreEvents(j, k);
    var v, d, cp := ViewAt(j, k), DurableAt(j, k).value, j[k].cp;
    assert Learned(v, c, CandidateIn(d, c), cp.components[c].candidate);
    LegacyIsProved(v, d, cp);
  }

  lemma PriorStep(plan: Plan, j: seq<Event>, k: nat, c: Component)
    requires Lawful(plan, j) && 0 < k <= |j| && DurableAt(j, k).Some? && c in DurableAt(j, k).value.components
    ensures
      || (DurableAt(j, k - 1).Some? && c in DurableAt(j, k - 1).value.components
          && DurableAt(j, k - 1).value.components[c].prior == DurableAt(j, k).value.components[c].prior)
      || PriorSeen(c, DurableAt(j, k).value.components[c].prior) in j[..k]
  {
    hide ViewAt, Lawful, Next, SaveAllowed;
    StepOf(plan, j, k);
    NextCalls(ViewAt(j, k - 1), j[k - 1]);
    AnswersAreEvents(j, k - 1);
    assert j[..k] == j[..k - 1] + [j[k - 1]];
    if j[k - 1].Saved? {
      EntryIsKnown(plan, ViewAt(j, k - 1), j[k - 1].cp, c);
    }
  }

  /** The entry was there before, with its prior, or the prior was read. */
  lemma EntryIsKnown(plan: Plan, v: View, cp: Checkpoint, c: Component)
    requires SaveAllowed(plan, v, cp) && c in cp.components
    ensures v.durable.Some?
    ensures || (c in v.durable.value.components && v.durable.value.components[c].prior == cp.components[c].prior)
            || (c, cp.components[c].prior) in v.priors
  {
    hide RecordLaws, CandidateAdvances, TouchedBy;
  }

  /** The prior in every durable entry is what the snapshot read. */
  lemma {:induction false} PriorsWereRead(plan: Plan, j: seq<Event>, k: nat, c: Component)
    requires Lawful(plan, j) && k <= |j| && DurableAt(j, k).Some? && c in DurableAt(j, k).value.components
    ensures PriorSeen(c, DurableAt(j, k).value.components[c].prior) in j[..k]
    decreases k
  {
    hide ViewAt, Lawful, Next;
    NothingYet(j);
    if k > 0 {
      PriorStep(plan, j, k, c);
      assert j[..k] == j[..k - 1] + [j[k - 1]];
      if DurableAt(j, k - 1).Some? && c in DurableAt(j, k - 1).value.components {
        PriorsWereRead(plan, j, k - 1, c);
      }
    }
  }

  lemma LegacyIsProved(v: View, d: Checkpoint, cp: Checkpoint)
    requires HistoryLaw(v, d, cp)
    ensures LegacyUsed(cp) && !LegacyUsed(d) ==> exists r :: r in History(cp) && r in v.proofs
  {
    LegacyByHistory(d, cp);
    hide LegacyUsed, RetryPending, History;
    if TakesLegacy(v, d, cp) {
      assert History(cp)[0] in History(cp);
    }
  }

  // ---- at most one published secret version -------------------------------------------------

  /** Publication of c has started and cannot start again. */
  predicate Launched(v: View, c: Component) {
    c !in v.entering && StageIn(v.durable, c) in {Some(Publishing), Some(Unconfirmed), Some(Published)}
  }

  lemma LaunchedStep(plan: Plan, v: View, e: Event, c: Component)
    requires Allowed(plan, v, e) && Launched(v, c)
    ensures Launched(Next(v, e), c)
  {
    if e.Saved? {
      LaunchedEntry(plan, v, e.cp, c);
      EnteringAfter(v, e.cp, c);
      hide Next, AfterSave, Allowed, SaveAllowed, StageIn;
    }
  }

  lemma SavedAdvances(plan: Plan, v: View, cp: Checkpoint, c: Component)
    requires SaveAllowed(plan, v, cp) && v.durable.Some? && c in v.durable.value.components
    ensures c in cp.components && EntryAdvances(v.durable.value.components[c], cp.components[c])
  {
    hide WellFormed, TouchedBy, NewlyIn, RecordLaws, EntryAdvances;
  }

  lemma ConfigsAdvance(a: Entry, b: Entry)
    requires EntryAdvances(a, b)
    ensures ConfigAdvances(a.candidate.config, b.candidate.config)
  {
    hide ConfigAdvances;
  }

  lemma LaunchedEntry(plan: Plan, v: View, cp: Checkpoint, c: Component)
    requires SaveAllowed(plan, v, cp) && Launched(v, c)
    ensures StageIn(Some(cp), c) in {Some(Publishing), Some(Unconfirmed), Some(Published)}
  {
    hide SaveAllowed, EntryAdvances, CandidateAdvances;
    SavedAdvances(plan, v, cp, c);
    assert ConfigAdvances(v.durable.value.components[c].candidate.config, cp.components[c].candidate.config) by {
      ConfigsAdvance(v.durable.value.components[c], cp.components[c]);
    }
  }

  lemma EnteringAfter(v: View, cp: Checkpoint, c: Component)
    ensures Next(v, Saved(cp)).durable == Some(cp)
    ensures c in Next(v, Saved(cp)).entering ==> StageIn(v.durable, c) in {None, Some(Preparing)}
  {
  }

  lemma {:induction false} PublishingNeverReopens(plan: Plan, j: seq<Event>, c: Component, i: nat, k: nat)
    requires Lawful(plan, j) && i < k <= |j| && j[i] == ConfigAdd(c)
    ensures Launched(ViewAt(j, k), c)
    decreases k
  {
    assert AllowedAt(plan, j, k - 1);
    if k - 1 > i {
      PublishingNeverReopens(plan, j, c, i, k - 1);
      LaunchedStep(plan, ViewAt(j, k - 1), j[k - 1], c);
    } else {
      EnteringIsPublishing(j, c, i);
    }
  }

  lemma EnteringStep(v: View, e: Event, c: Component)
    requires c in Next(v, e).entering
    ensures e.Saved? ==> StageIn(Next(v, e).durable, c) == Some(Publishing)
    ensures !e.Saved? ==> c in v.entering && Next(v, e).durable == v.durable
  {
  }

  lemma {:induction false} EnteringIsPublishing(j: seq<Event>, c: Component, k: nat)
    requires k <= |j| && c in ViewAt(j, k).entering
    ensures StageIn(DurableAt(j, k), c) == Some(Publishing)
  {
    hide Next, StageIn, ViewAt;
    NothingYet(j);
    if k > 0 {
      ViewSnoc(j, k);
      EnteringStep(ViewAt(j, k - 1), j[k - 1], c);
      if !j[k - 1].Saved? {
        EnteringIsPublishing(j, c, k - 1);
      }
    }
  }

  /** Over all crashes and re-entries sharing one candidate, one version is added at most. */
  lemma PublishedAtMostOnce(plan: Plan, j: seq<Event>, c: Component, i: nat, k: nat)
    requires Lawful(plan, j) && i < |j| && k < |j|
    requires j[i] == ConfigAdd(c) && j[k] == ConfigAdd(c)
    ensures i == k
  {
    assert AllowedAt(plan, j, k) && AllowedAt(plan, j, i);
    if i < k {
      PublishingNeverReopens(plan, j, c, i, k);
    } else if k < i {
      PublishingNeverReopens(plan, j, c, k, i);
    }
  }

  // ---- quota: every rejection pays for one resubmission ---------------------------------------

  function Count(s: seq<Event>, e: Event): nat {
    if s == [] then 0 else Count(s[..|s| - 1], e) + One(s[|s| - 1] == e)
  }

  /** The rejections reported among the events. */
  function Rejections(s: seq<Event>): nat {
    if s == [] then 0 else Rejections(s[..|s| - 1]) + One(s[|s| - 1].QuotaRejected?)
  }

  predicate RetryIn(d: Option<Checkpoint>) { d.Some? && RetryPending(d.value) }

  predicate LegacyIn(d: Option<Checkpoint>) { d.Some? && LegacyUsed(d.value) }

  /** The accounts of the current epoch balance. */
  predicate Balanced(v: View) {
    OpenIn(v.durable, Frontend) ==>
      && v.calls + One(v.funded) <= 1 + v.grants
      && v.grants + One(RetryIn(v.durable)) <= v.armings + v.carried + v.legacy
      && v.armings + One(v.stage != NoRejection) <= v.rejections
      && v.legacy <= One(LegacyIn(v.durable))
  }

  lemma BalanceStep(plan: Plan, v: View, e: Event)
    requires Balanced(v) && Allowed(plan, v, e)
    ensures Balanced(Next(v, e))
  {
    if e.Saved? {
      BalanceSave(plan, v, e.cp);
    } else {
      BalanceCall(plan, v, e);
    }
    hide Allowed, Next, Balanced;
  }

  lemma BalanceCall(plan: Plan, v: View, e: Event)
    requires Balanced(v) && Allowed(plan, v, e) && !e.Saved?
    ensures Balanced(Next(v, e))
  {
    NextCalls(v, e);
    NextAccounts(v, e);
    hide Next, SaveAllowed, RetryPending, LegacyUsed, StageIn, RecordValid, OpenIn;
  }

  lemma BalanceSave(plan: Plan, v: View, cp: Checkpoint)
    requires Balanced(v) && SaveAllowed(plan, v, cp)
    ensures Balanced(Next(v, Saved(cp)))
  {
  }

  lemma {:induction false} LawfulIsBalanced(plan: Plan, j: seq<Event>, k: nat)
    requires Lawful(plan, j) && k <= |j|
    ensures Balanced(ViewAt(j, k))
  {
    if k > 0 {
      assert AllowedAt(plan, j, k - 1);
      LawfulIsBalanced(plan, j, k - 1);
      BalanceStep(plan, ViewAt(j, k - 1), j[k - 1]);
    }
  }

  /** Event i opens the front-end entry and no save between i and k settles it again. */
  predicate IsEpoch(j: seq<Event>, i: nat, k: nat)
    requires i < k <= |j|
  {
    && j[i].Saved? && StartsEpoch(ViewAt(j, i), j[i].cp)
    && forall m :: i < m < k && j[m].Saved? ==> OpenIn(Some(j[m].cp), Frontend)
  }

  /** The counters of an epoch opened by `start` agree with the number of calls and rejections in it. */
  predicate Counted(v: View, start: Checkpoint, calls: nat, rejections: nat) {
    && OpenIn(v.durable, Frontend)
    && v.calls == calls && v.rejections == rejections
    && v.carried == One(RetryPending(start))
    && (History(start) != [] ==> v.legacy == 0 && History(v.durable.value) != [])
  }

  lemma CountedStep(plan: Plan, v: View, e: Event, start: Checkpoint, calls: nat, rejections: nat)
    requires Allowed(plan, v, e) && Counted(v, start, calls, rejections)
    requires e.Saved? ==> OpenIn(Some(e.cp), Frontend)
    ensures Counted(Next(v, e), start, calls + One(e == DeployCall(Frontend)), rejections + One(e.QuotaRejected?))
  {
    hide Next, SaveAllowed, OpenIn, RetryPending, LegacyUsed;
    NextCalls(v, e);
    if e.Saved? {
      CountedSave(plan, v, e.cp, start, calls, rejections);
    } else {
      NextAccounts(v, e);
    }
  }

  lemma CountedSave(plan: Plan, v: View, cp: Checkpoint, start: Checkpoint, calls: nat, rejections: nat)
    requires SaveAllowed(plan, v, cp) && Counted(v, start, calls, rejections) && OpenIn(Some(cp), Frontend)
    ensures Counted(Next(v, Saved(cp)), start, calls, rejections)
  {
    if History(start) != [] {
      HistoryStays(plan, v, cp);
    }
    hide SaveAllowed, OpenIn, RetryPending, LegacyUsed, StageIn, Arms, History;
  }

  /** Evidence counts only while nothing is recorded. */
  lemma HistoryStays(plan: Plan, v: View, cp: Checkpoint)
    requires SaveAllowed(plan, v, cp) && v.durable.Some? && History(v.durable.value) != []
    ensures History(cp) != [] && !NewLegacy(v, cp)
  {
    LegacyByHistory(v.durable.value, cp);
    hide WellFormed, TouchedBy, CreationLaw, IdentityLaw, LegacyUsed, RetryPending;
  }

  lemma CountSnoc(j: seq<Event>, from: nat, k: nat, e: Event)
    requires from < k <= |j|
    ensures Count(j[from..k], e) == Count(j[from..k - 1], e) + One(j[k - 1] == e)
    ensures Rejections(j[from..k]) == Rejections(j[from..k - 1]) + One(j[k - 1].QuotaRejected?)
  {
    assert j[from..k][..k - from - 1] == j[from..k - 1];
  }

  lemma EpochShrinks(j: seq<Event>, i: nat, k: nat)
    requires i < k - 1 < |j| && IsEpoch(j, i, k)
    ensures IsEpoch(j, i, k - 1) && j[i].Saved? && (j[k - 1].Saved? ==> OpenIn(Some(j[k - 1].cp), Frontend))
  {
    hide StartsEpoch;
  }

  lemma EpochStep(plan: Plan, j: seq<Event>, i: nat, k: nat, calls: nat, rejections: nat)
    requires Lawful(plan, j) && i < k - 1 < |j| && IsEpoch(j, i, k)
    requires Counted(ViewAt(j, k - 1), j[i].cp, calls, rejections)
    ensures Counted(ViewAt(j, k), j[i].cp, calls + One(j[k - 1] == DeployCall(Frontend)), rejections + One(j[k - 1].QuotaRejected?))
  {
    assert ViewAt(j, k) == Next(ViewAt(j, k - 1), j[k - 1]);
    assert AllowedAt(plan, j, k - 1);
    EpochShrinks(j, i, k);
    hide ViewAt, Next, Allowed, Counted, Lawful, IsEpoch, OpenIn;
    CountedStep(plan, ViewAt(j, k - 1), j[k - 1], j[i].cp, calls, rejections);
  }

  lemma {:induction false} EpochCounts(plan: Plan, j: seq<Event>, i: nat, k: nat)
    requires Lawful(plan, j) && i < k <= |j| && IsEpoch(j, i, k)
    ensures Counted(ViewAt(j, k), j[i].cp, Count(j[i + 1..k], DeployCall(Frontend)), Rejections(j[i + 1..k]))
    decreases k
  {
    hide ViewAt, Next, Allowed, Counted, Lawful, StartsEpoch, OpenIn;
    if k - 1 > i {
      EpochShrinks(j, i, k);
      CountSnoc(j, i + 1, k, DeployCall(Frontend));
      var calls, rejections := Count(j[i + 1..k - 1], DeployCall(Frontend)), Rejections(j[i + 1..k - 1]);
      hide Count, Rejections, IsEpoch;
      EpochCounts(plan, j, i, k - 1);
      EpochStep(plan, j, i, k, calls, rejections);
    } else {
      assert j[i + 1..k] == [];
      EpochOpens(j, i);
    }
  }

  lemma EpochOpens(j: seq<Event>, i: nat)
    requires i < |j| && IsEpoch(j, i, i + 1)
    ensures Counted(ViewAt(j, i + 1), j[i].cp, 0, 0)
  {
    hide StageIn, RetryPending, LegacyUsed, History;
  }

  /**
   Within one epoch, over all crashes, the front-end is submitted at most once plus once for each
   quota rejection reported in it, plus once for an authorisation left over from an earlier epoch,
   plus once for evidence of an older run if nothing is recorded yet.
   */
  lemma SubmissionsArePaidFor(plan: Plan, j: seq<Event>, i: nat, k: nat)
    requires Lawful(plan, j) && i < k <= |j| && IsEpoch(j, i, k)
    ensures Count(j[i + 1..k], DeployCall(Frontend))
              <= 1 + Rejections(j[i + 1..k]) + One(RetryPending(j[i].cp)) + One(History(j[i].cp) == [])
  {
    hide Lawful, ViewAt, IsEpoch, Rejections, Count, OpenIn, RetryPending, History;
    EpochFirst(j, i, k);
    LawfulIsBalanced(plan, j, k);
    EpochCounts(plan, j, i, k);
  }

  lemma UnfundedStep(v: View, e: Event)
    requires e == DeployCall(Frontend) || (!v.funded && (e.Saved? ==> !Grants(v, e.cp) && !StartsEpoch(v, e.cp)))
    ensures !Next(v, e).funded
  {
    hide Grants, StartsEpoch, StageIn, Arms, NewLegacy;
  }

  lemma {:induction false} UnfundedUntilPaid(plan: Plan, j: seq<Event>, i: nat, k: nat)
    requires Lawful(plan, j) && i < k <= |j| && j[i] == DeployCall(Frontend)
    requires forall m :: i < m < k && j[m].Saved? ==>
               !Grants(ViewAt(j, m), j[m].cp) && !StartsEpoch(ViewAt(j, m), j[m].cp)
    ensures !ViewAt(j, k).funded
    decreases k
  {
    hide Lawful, ViewAt, Next, Grants, StartsEpoch;
    StepOf(plan, j, k);
    if k - 1 > i {
      UnfundedUntilPaid(plan, j, i, k - 1);
    }
    UnfundedStep(ViewAt(j, k - 1), j[k - 1]);
  }

  /**
   Between two submissions of the front-end a save either opened a new epoch, or, directly after an empty
   complete listing, durably spent an authorisation or recorded the legacy rejection.
   */
  lemma RetriesAreGranted(plan: Plan, j: seq<Event>, i: nat, k: nat)
    requires Lawful(plan, j) && i < k < |j| && j[i] == DeployCall(Frontend) && j[k] == DeployCall(Frontend)
    ensures exists m :: i < m < k && j[m].Saved?
              && (StartsEpoch(ViewAt(j, m), j[m].cp) || Grants(ViewAt(j, m), j[m].cp))
  {
    assert AllowedAt(plan, j, k);
    if forall m :: i < m < k && j[m].Saved? ==> !Grants(ViewAt(j, m), j[m].cp) && !StartsEpoch(ViewAt(j, m), j[m].cp) {
      UnfundedUntilPaid(plan, j, i, k);
    }
  }

  /** The save used up an authorisation after an empty listing. */
  ghost predicate GrantsAt(j: seq<Event>, i: nat)
    requires i < |j|
  {
    j[i].Saved? && Grants(ViewAt(j, i), j[i].cp)
  }

  lemma OwedStep(v: View, e: Event)
    ensures Next(v, e).owed ==
      if e.Saved? then Grants(v, e.cp)
      else v.owed && e != DeployCall(Frontend) && e != Started && !ReportsFailure(v, e)
    ensures Next(v, e).last == Some(e) && Next(v, e).readings == v.readings + One(e.ReadCandidate?)
  {
    hide Grants, StartsEpoch, StageIn, Arms, NewLegacy;
  }

  lemma {:induction false} OwedUntilSubmitted(plan: Plan, j: seq<Event>, i: nat, k: nat)
    requires Lawful(plan, j) && i < k <= |j| && GrantsAt(j, i) && (i + 1 < k ==> j[i + 1] != SaveErrored)
    requires forall m :: i < m < k ==> j[m] != DeployCall(Frontend) && j[m] != Started && !j[m].Saved?
    ensures ViewAt(j, k).owed && (i + 1 < k ==> ViewAt(j, k).last == Some(j[k - 1]))
    decreases k
  {
    hide Lawful, ViewAt, Next, Grants;
    StepOf(plan, j, k);
    if k - 1 > i {
      OwedUntilSubmitted(plan, j, i, k - 1);
    }
    OwedStep(ViewAt(j, k - 1), j[k - 1]);
  }

  /**
   What is used up is used: after a save that used up an authorisation nothing else is saved before the submission that
   it pays for, unless that save was reported to have failed or the process ended.
   */
  lemma {:induction false} GrantsAreUsed(plan: Plan, j: seq<Event>, i: nat, k: nat)
    requires Lawful(plan, j) && i < k < |j| && GrantsAt(j, i) && j[k].Saved?
    ensures j[i + 1] == SaveErrored || exists m :: i < m < k && j[m] in {DeployCall(Frontend), Started}
    decreases k
  {
    hide ViewAt, Grants, WellFormed, GrantsAt, Lawful;
    StepOf(plan, j, k + 1);
    if m :| i < m < k && j[m].Saved? {
      GrantsAreUsed(plan, j, i, m);
    } else if j[i + 1] != SaveErrored && forall m :: i < m < k ==> j[m] !in {DeployCall(Frontend), Started} {
      OwedUntilSubmitted(plan, j, i, k);
    }
  }

  /** Retained evidence of an older run is spent of the whole attempt at most. */
  lemma LegacySpentOnce(plan: Plan, j: seq<Event>, i: nat, k: nat)
    requires Lawful(plan, j) && i < k < |j| && j[i].Saved? && j[k].Saved?
    requires NewLegacy(ViewAt(j, i), j[i].cp)
    ensures !NewLegacy(ViewAt(j, k), j[k].cp)
  {
    DurableAdvances(plan, j, i, k);
    var a, b := j[i].cp.components[Frontend], DurableAt(j, k).value.components[Frontend];
    assert EntryKept(a, b);
    var r :| r in a.quota.rejections && r.source.RetainedResult?;
    assert r in b.quota.rejections;
  }

  function HistoryOf(d: Option<Checkpoint>): nat {
    if d.Some? then |History(d.value)| else 0
  }

  /** What a save does to the quota bookkeeping. */
  datatype Mark =
    | Arming
      /** An arming by a rejection that is already in the history. */
    | Repeat
      /** A new rejection recorded while an authorisation is pending anyway. */
    | Renewal
    | Legacy
      /** The front-end entry is opened. */
    | Opening
      /** An authorisation is spent. */
    | Granting

  predicate Marked(v: View, e: Event, mark: Mark) {
    && e.Saved? && v.durable.Some?
    && match mark
       case Arming => Arms(v, e.cp)
       case Repeat => Arms(v, e.cp) && v.rejected.Some? && v.rejected.value in History(v.durable.value)
       case Renewal => !Arms(v, e.cp) && !NewLegacy(v, e.cp) && |History(e.cp)| > |History(v.durable.value)|
       case Legacy => NewLegacy(v, e.cp)
       case Opening => StartsEpoch(v, e.cp)
       case Granting => Grants(v, e.cp)
  }

  /** The saves of one kind after the first i and before the k-th event. */
  function Tally(j: seq<Event>, i: nat, k: nat, mark: Mark): nat
    requires k <= |j|
  {
    if k <= i then 0 else Tally(j, i, k - 1, mark) + One(Marked(ViewAt(j, k - 1), j[k - 1], mark))
  }

  lemma TallySnoc(j: seq<Event>, i: nat, k: nat, mark: Mark)
    requires k <= |j|
    ensures k <= i ==> Tally(j, i, k, mark) == 0
    ensures k > i ==> Tally(j, i, k, mark) == Tally(j, i, k - 1, mark) + One(Marked(ViewAt(j, k - 1), j[k - 1], mark))
  {
    hide ViewAt, Marked;
  }

  lemma TalliesSnoc(j: seq<Event>, i: nat, k: nat)
    requires k <= |j|
    ensures forall mark :: k <= i ==> Tally(j, i, k, mark) == 0
    ensures forall mark ::
      k > i ==> Tally(j, i, k, mark) == Tally(j, i, k - 1, mark) + One(Marked(ViewAt(j, k - 1), j[k - 1], mark))
  {
    forall mark ensures k <= i ==> Tally(j, i, k, mark) == 0
      ensures k > i ==> Tally(j, i, k, mark) == Tally(j, i, k - 1, mark) + One(Marked(ViewAt(j, k - 1), j[k - 1], mark))
    {
      TallySnoc(j, i, k, mark);
    }
  }

  lemma EpochFirst(j: seq<Event>, i: nat, k: nat)
    requires i < k <= |j| && IsEpoch(j, i, k)
    ensures j[i].Saved? && StartsEpoch(ViewAt(j, i), j[i].cp)
  {
    hide StartsEpoch, ViewAt, OpenIn;
  }

  /**
   One save grows the history by one record exactly if it arms with a new rejection, renews or takes legacy evidence.
   */
  lemma HistoryStep(plan: Plan, v: View, cp: Checkpoint)
    requires SaveAllowed(plan, v, cp) && v.durable.Some?
    ensures var e := Saved(cp);
            |History(cp)| + One(Marked(v, e, Repeat)) == |History(v.durable.value)|
              + One(Marked(v, e, Arming)) + One(Marked(v, e, Renewal)) + One(Marked(v, e, Legacy))
  {
    var d := v.durable.value;
    assert HistoryLaw(v, d, cp);
    LegacyByHistory(d, cp);
    hide SaveAllowed, LegacyUsed, RetryPending, History;
  }

  /** Legacy evidence is among the records, and only retained evidence is. */
  lemma LegacyByHistory(d: Checkpoint, cp: Checkpoint)
    ensures History(cp) == History(d) ==> LegacyUsed(cp) == LegacyUsed(d)
    ensures forall v :: TakesLegacy(v, d, cp) ==> LegacyUsed(cp) && !LegacyUsed(d)
    ensures forall r: QuotaRecord :: r.source.ProviderCli? && History(cp) == WithRecord(History(d), r) ==>
      LegacyUsed(cp) == LegacyUsed(d)
    ensures forall r: QuotaRecord :: r.source.ProviderCli? && History(cp) == WithRecord(History(d), r) ==>
      forall v :: !TakesLegacy(v, d, cp)
  {
    assert forall x: Checkpoint :: LegacyUsed(x) <==> exists r :: r in History(x) && r.source.RetainedResult?;
  }

  /** The exact account of the retained history over any stretch of an attempt, crashes included. */
  lemma {:induction false} HistoryAccount(plan: Plan, j: seq<Event>, i: nat, k: nat)
    requires Lawful(plan, j) && i < k <= |j| && j[i].Saved?
    ensures HistoryOf(DurableAt(j, k)) + Tally(j, i + 1, k, Repeat) ==
              HistoryOf(Some(j[i].cp)) + Tally(j, i + 1, k,
                                               Arming) + Tally(j, i + 1, k, Renewal) + Tally(j, i + 1, k, Legacy)
    decreases k
  {
    hide Lawful, ViewAt, Allowed, Next, HistoryOf, Tally, Marked, One;
    StepOf(plan, j, k);
    TalliesSnoc(j, i + 1, k);
    if k - 1 > i {
      HistoryAccount(plan, j, i, k - 1);
      DurableLater(plan, j, k - 1);
      AccountStep(plan, ViewAt(j, k - 1), j[k - 1]);
    } else {
      EnteringAfter(ViewAt(j, i), j[i].cp, Frontend);
    }
  }

  lemma DurableLater(plan: Plan, j: seq<Event>, k: nat)
    requires Lawful(plan, j) && 0 < k <= |j|
    ensures ViewAt(j, k).durable.Some?
  {
    hide Lawful, ViewAt, WellFormed;
    DurablePlan(plan, j, k);
  }

  lemma AccountStep(plan: Plan, v: View, e: Event)
    requires Allowed(plan, v, e) && v.durable.Some?
    ensures HistoryOf(Next(v, e).durable) + One(Marked(v, e, Repeat)) ==
              HistoryOf(v.durable) + One(Marked(v, e, Arming)) + One(Marked(v, e, Renewal)) + One(Marked(v, e, Legacy))
  {
    if e.Saved? {
      HistoryStep(plan, v, e.cp);
      EnteringAfter(v, e.cp, Frontend);
    }
    hide SaveAllowed, AfterSave, History, Arms, NewLegacy;
  }

  /** Every rejection that arms a retry is new to the history at that moment: the guard under which it is appended. */
  predicate NoneRepeats(j: seq<Event>, i: nat, k: nat)
    requires k <= |j|
  {
    forall m :: i <= m < k && Marked(ViewAt(j, m), j[m], Arming) ==> IsNew(ViewAt(j, m))
  }

  /** `record not in history`, for the rejection last reported. */
  predicate IsNew(v: View) { v.durable.Some? && v.rejected.Some? && v.rejected.value !in History(v.durable.value) }

  lemma {:induction false} RepeatsAreTallied(plan: Plan, j: seq<Event>, i: nat, k: nat)
    requires Lawful(plan, j) && k <= |j|
    ensures Tally(j, i, k, Repeat) == 0 <==> NoneRepeats(j, i, k)
    decreases k
  {
    hide ViewAt, Lawful, Next, Allowed, History, Marked, IsNew;
    if k > i {
      RepeatsAreTallied(plan, j, i, k - 1);
      StepOf(plan, j, k);
      ArmingIsRejected(plan, ViewAt(j, k - 1), j[k - 1]);
    }
  }

  lemma ArmingIsRejected(plan: Plan, v: View, e: Event)
    requires Allowed(plan, v, e)
    ensures Marked(v, e, Repeat) <==> Marked(v, e, Arming) && !IsNew(v)
  {
    hide WellFormed, ComponentsAdvance, History;
  }

  /** The retained history accounts for every arming exactly if no rejection that armed one was already in it. */
  lemma HistoryCountsArmings(plan: Plan, j: seq<Event>, i: nat, k: nat)
    requires Lawful(plan, j) && i < k <= |j| && j[i].Saved?
    ensures var recorded := Tally(j, i + 1, k, Arming) + Tally(j, i + 1, k, Renewal) + Tally(j, i + 1, k, Legacy);
            HistoryOf(DurableAt(j, k)) == HistoryOf(Some(j[i].cp)) + recorded <==> NoneRepeats(j, i + 1, k)
  {
    hide Lawful, ViewAt, HistoryOf, Tally, NoneRepeats;
    HistoryAccount(plan, j, i, k);
    RepeatsAreTallied(plan, j, i + 1, k);
  }

  /** In one epoch the view counts what the tallies count. */
  lemma {:induction false} EpochTallies(plan: Plan, j: seq<Event>, i: nat, k: nat)
    requires Lawful(plan, j) && i < k <= |j| && IsEpoch(j, i, k)
    ensures ViewAt(j, k).armings == Tally(j, i + 1, k, Arming) && ViewAt(j, k).legacy == Tally(j, i + 1, k, Legacy)
    decreases k
  {
    hide Lawful, ViewAt, Allowed, Next, IsEpoch, StartsEpoch, OpenIn, Tally, Marked, One, Counted;
    EpochFirst(j, i, k);
    StepOf(plan, j, k);
    TalliesSnoc(j, i + 1, k);
    if k - 1 > i {
      EpochShrinks(j, i, k);
      EpochTallies(plan, j, i, k - 1);
      EpochIsOpen(plan, j, i, k - 1);
      TallyStep(ViewAt(j, k - 1), j[k - 1]);
    } else {
      OpeningTallies(ViewAt(j, i), j[i].cp);
    }
  }

  lemma EpochIsOpen(plan: Plan, j: seq<Event>, i: nat, k: nat)
    requires Lawful(plan, j) && i < k <= |j| && IsEpoch(j, i, k)
    ensures OpenIn(ViewAt(j, k).durable, Frontend)
  {
    hide Lawful, ViewAt, IsEpoch, OpenIn;
    EpochFirst(j, i, k);
    EpochCounts(plan, j, i, k);
  }

  lemma TallyStep(v: View, e: Event)
    requires OpenIn(v.durable, Frontend)
    ensures Next(v, e).armings == v.armings + One(Marked(v, e, Arming))
    ensures Next(v, e).legacy == v.legacy + One(Marked(v, e, Legacy))
  {
    if e.Saved? {
      TallySave(v, e.cp);
    } else {
      NextAccounts(v, e);
    }
    hide Next;
  }

  lemma TallySave(v: View, cp: Checkpoint)
    requires OpenIn(v.durable, Frontend)
    ensures var w := Next(v, Saved(cp));
            w.armings == v.armings + One(Arms(v, cp)) && w.legacy == v.legacy + One(NewLegacy(v, cp))
  {
    hide StageIn, RetryPending, LegacyUsed, OpenIn, Grants;
  }

  lemma OpeningTallies(v: View, cp: Checkpoint)
    requires StartsEpoch(v, cp)
    ensures Next(v, Saved(cp)).armings == 0 && Next(v, Saved(cp)).legacy == 0
  {
  }

  /**
   The retained history bounds the submissions of an epoch up to the rejections that repeat earlier ones: they arm a
   retry and leave no record.
   */
  lemma HistoryAndRepeatsBoundSubmissions(plan: Plan, j: seq<Event>, i: nat, k: nat)
    requires Lawful(plan, j) && i < k <= |j| && IsEpoch(j, i, k)
    ensures Count(j[i + 1..k], DeployCall(Frontend)) + HistoryOf(Some(j[i].cp)) + Tally(j, i + 1, k, Renewal)
              <= 1 + HistoryOf(DurableAt(j, k)) + One(RetryPending(j[i].cp)) + Tally(j, i + 1, k, Repeat)
  {
    hide Lawful, ViewAt, IsEpoch, Tally, HistoryOf, RetryPending, Rejections, Count, OpenIn;
    EpochFirst(j, i, k);
    LawfulIsBalanced(plan, j, k);
    EpochCounts(plan, j, i, k);
    EpochTallies(plan, j, i, k);
    HistoryAccount(plan, j, i, k);
  }

  /** So without such a rejection the history bounds them. `RepeatsAreFree` shows that this cannot be dropped. */
  lemma HistoryBoundsSubmissions(plan: Plan, j: seq<Event>, i: nat, k: nat)
    requires Lawful(plan, j) && i < k <= |j| && IsEpoch(j, i, k) && NoneRepeats(j, i + 1, k)
    ensures Count(j[i + 1..k], DeployCall(Frontend)) + HistoryOf(Some(j[i].cp))
              <= 1 + HistoryOf(DurableAt(j, k)) + One(RetryPending(j[i].cp))
  {
    hide Lawful, ViewAt, IsEpoch, NoneRepeats, Tally, HistoryOf, RetryPending, Count;
    EpochFirst(j, i, k);
    HistoryAndRepeatsBoundSubmissions(plan, j, i, k);
    RepeatsAreTallied(plan, j, i + 1, k);
  }

  // ---- over all epochs ---------------------------------------------------------------------------

  /** The accounts of the whole attempt: what was paid for, by what, and where that came from. */
  predicate Covered(v: View, calls: nat, openings: nat, grants: nat, armings: nat, legacies: nat, rejections: nat) {
    && calls + One(v.funded) <= openings + grants
    && grants + One(RetryIn(v.durable)) <= armings + legacies
    && armings + One(v.stage != NoRejection) <= rejections
    && legacies <= One(LegacyIn(v.durable))
  }

  lemma CoveredStep(plan: Plan, v: View, e: Event, calls: nat, openings: nat, grants: nat, armings: nat, legacies: nat,
                    rejections: nat)
    requires Allowed(plan, v, e) && Covered(v, calls, openings, grants, armings, legacies, rejections)
    requires v.durable.Some?
    ensures Covered(Next(v, e), calls + One(e == DeployCall(Frontend)), openings + One(Marked(v, e, Opening)),
                    grants + One(Marked(v, e, Granting)), armings + One(Marked(v, e, Arming)),
                    legacies + One(Marked(v, e, Legacy)), rejections + One(e.QuotaRejected?))
  {
    hide Next, RetryPending, LegacyUsed, SaveAllowed, Covered;
    if e.Saved? {
      CoveredSave(plan, v, e.cp, calls, openings, grants, armings, legacies, rejections);
    } else {
      CoveredCall(plan, v, e, calls, openings, grants, armings, legacies, rejections);
    }
  }

  lemma CoveredCall(plan: Plan, v: View, e: Event, calls: nat, openings: nat, grants: nat, armings: nat, legacies: nat,
                    rejections: nat)
    requires Allowed(plan, v, e) && Covered(v, calls, openings, grants, armings, legacies, rejections) && !e.Saved?
    ensures Covered(Next(v, e), calls + One(e == DeployCall(Frontend)), openings, grants, armings, legacies,
                    rejections + One(e.QuotaRejected?))
  {
    hide Next, RetryPending, LegacyUsed, SaveAllowed;
    NextCalls(v, e);
    NextAccounts(v, e);
  }

  lemma CoveredSave(plan: Plan, v: View, cp: Checkpoint, calls: nat, openings: nat, grants: nat, armings: nat,
                    legacies: nat, rejections: nat)
    requires SaveAllowed(plan, v, cp) && Covered(v, calls, openings, grants, armings, legacies, rejections)
    requires v.durable.Some?
    ensures Covered(Next(v, Saved(cp)), calls, openings + One(StartsEpoch(v, cp)), grants + One(Grants(v, cp)),
                    armings + One(Arms(v, cp)), legacies + One(NewLegacy(v, cp)), rejections)
  {
    LegacyKept(plan, v, cp);
    hide SaveAllowed, OpenIn, RetryPending, LegacyUsed, StageIn;
  }

  lemma LegacyKept(plan: Plan, v: View, cp: Checkpoint)
    requires SaveAllowed(plan, v, cp) && v.durable.Some?
    ensures LegacyUsed(v.durable.value) ==> LegacyUsed(cp)
  {
    LegacyByHistory(v.durable.value, cp);
    hide WellFormed, TouchedBy, CreationLaw, IdentityLaw, LegacyUsed, RetryPending, History;
  }

  lemma {:induction false} AttemptIsCovered(plan: Plan, j: seq<Event>, k: nat)
    requires Lawful(plan, j) && 0 < k <= |j|
    ensures Covered(ViewAt(j, k), Count(j[..k], DeployCall(Frontend)), Tally(j, 0, k, Opening), Tally(j, 0, k, Granting),
                    Tally(j, 0, k, Arming), Tally(j, 0, k, Legacy), Rejections(j[..k]))
  {
    hide ViewAt, Lawful, Next, Allowed, Marked, Covered, Tally, Count, Rejections;
    StepOf(plan, j, k);
    TalliesSnoc(j, 0, k);
    CountSnoc(j, 0, k, DeployCall(Frontend));
    assert j[0..k] == j[..k] && j[0..k - 1] == j[..k - 1];
    if k > 1 {
      AttemptIsCovered(plan, j, k - 1);
      DurableLater(plan, j, k - 1);
      CoveredStep(plan, ViewAt(j, k - 1), j[k - 1], Count(j[..k - 1], DeployCall(Frontend)),
                  Tally(j, 0, k - 1, Opening),
                  Tally(j, 0, k - 1, Granting), Tally(j, 0, k - 1,
                                                      Arming), Tally(j, 0, k - 1, Legacy), Rejections(j[..k - 1]));
    } else {
      NothingYet(j);
      TalliesSnoc(j, 0, 0);
      FirstIsCovered(plan, j[0]);
      assert j[..0] == [];
      NothingCounted();
    }
  }

  lemma NothingCounted()
    ensures Count([], DeployCall(Frontend)) == 0 && Rejections([]) == 0
  {
  }

  lemma FirstIsCovered(plan: Plan, e: Event)
    requires Allowed(plan, BLANK, e)
    ensures e.Saved? && Covered(Next(BLANK, e), 0, 0, 0, 0, 0, 0) && forall mark :: !Marked(BLANK, e, mark)
  {
    assert e.Saved? && e.cp.components == map[] by {
      hide RecordLaws, PriorLaw;
    }
    hide WellFormed, SaveAllowed, TouchedBy, NewlyIn, RecordLaws, PriorLaw, ComponentsAdvance, NamedBy, AfterEvent;
  }

  /**
   Over the whole attempt, whatever crashed, was rolled back or started again: every submission of the front-end is paid
   for by the save that opened its entry, by a rejection reported somewhere in the attempt, or by the evidence of an
   older run, and nothing pays twice.
   */
  lemma AllSubmissionsArePaidFor(plan: Plan, j: seq<Event>)
    requires Lawful(plan, j) && j != []
    ensures Count(j, DeployCall(Frontend)) <= Tally(j, 0, |j|, Opening) + Rejections(j) + One(LegacyIn(Durable(j)))
  {
    hide Lawful, ViewAt, Count, Rejections, Tally, LegacyIn;
    AttemptIsCovered(plan, j, |j|);
    assert j[..|j|] == j;
  }

  /** A pending retry was armed by a rejection that is still recorded. */
  lemma {:induction false} PendingIsRecorded(plan: Plan, j: seq<Event>, k: nat)
    requires Lawful(plan, j) && k <= |j| && RetryIn(DurableAt(j, k))
    ensures History(DurableAt(j, k).value) != []
    decreases k
  {
    hide Lawful, ViewAt, Next, Allowed, RetryPending, History;
    NothingYet(j);
    if k > 0 {
      StepOf(plan, j, k);
      NextCalls(ViewAt(j, k - 1), j[k - 1]);
      if RetryIn(DurableAt(j, k - 1)) {
        PendingIsRecorded(plan, j, k - 1);
      }
      PendingStep(plan, ViewAt(j, k - 1), j[k - 1]);
    }
  }

  lemma PendingStep(plan: Plan, v: View, e: Event)
    requires Allowed(plan, v, e) && RetryIn(Next(v, e).durable)
    requires RetryIn(v.durable) ==> History(v.durable.value) != []
    ensures History(Next(v, e).durable.value) != []
  {
    hide Next, TouchedBy, CreationLaw, IdentityLaw;
    NextCalls(v, e);
  }

  // ---- success ----------------------------------------------------------------------------------

  /** Success is first saved only right after the tag was seen at the plan's source, with every entry verified. */
  lemma SuccessIsEarned(plan: Plan, j: seq<Event>, k: nat)
    requires Lawful(plan, j) && k < |j| && j[k].Saved? && j[k].cp.status == Success
    ensures k > 0
    ensures TagSeen(j[k - 1], plan.source) || (DurableAt(j, k).Some? && DurableAt(j, k).value.status == Success)
    ensures j[k].cp.components.Keys == Elements(plan.selected)
    ensures forall c :: c in plan.selected ==> c in j[k].cp.components && j[k].cp.components[c].status == Verified
  {
    assert AllowedAt(plan, j, k);
    DurablePlan(plan, j, k);
    assert ViewAt(j, k).last == Some(j[k - 1]);
    assert forall c :: c in plan.selected ==> c in Elements(plan.selected);
  }

  /** The event is a call or readback of the component. */
  predicate Concerns(e: Event, c: Component) { Concerned(e) == Some(c) }

  /** Event e occurred before k and is the latest one concerning c. */
  predicate LatestIs(j: seq<Event>, k: nat, c: Component, e: Event)
    requires k <= |j|
  {
    exists i :: 0 <= i < k && j[i] == e && Concerns(e, c) && forall m :: i < m < k ==> !Concerns(j[m], c)
  }

  lemma {:induction false} TouchedIsLatest(j: seq<Event>, k: nat, c: Component)
    requires k <= |j| && c in ViewAt(j, k).touched
    ensures LatestIs(j, k, c, ViewAt(j, k).touched[c])
  {
    var v, last := ViewAt(j, k - 1), j[k - 1];
    TouchedStep(v, last, c);
    hide ViewAt, Next;
    if !Concerns(last, c) {
      TouchedIsLatest(j, k - 1, c);
      LatestStays(j, k - 1, c, v.touched[c]);
    }
  }

  lemma TouchedStep(v: View, e: Event, c: Component)
    ensures Concerns(e, c) ==> TouchedBy(Next(v, e), c, e)
    ensures !Concerns(e, c) ==> ((c in Next(v, e).touched) <==> (c in v.touched))
    ensures !Concerns(e, c) && c in v.touched ==> Next(v, e).touched[c] == v.touched[c]
  {
  }

  lemma LatestStays(j: seq<Event>, k: nat, c: Component, e: Event)
    requires k < |j| && LatestIs(j, k, c, e) && !Concerns(j[k], c)
    ensures LatestIs(j, k + 1, c, e)
  {
    var i :| 0 <= i < k && j[i] == e && Concerns(e, c) && forall m :: i < m < k ==> !Concerns(j[m], c);
    assert forall m :: i < m < k + 1 ==> !Concerns(j[m], c);
  }

  /**
   An entry becomes verified only when the last thing the provider was asked about the component was a
   readback that matched the very candidate recorded, and rolled back only when it was a readback that
   matched the recorded prior.
   */
  lemma SettlingIsReadBack(plan: Plan, j: seq<Event>, k: nat, c: Component)
    requires Lawful(plan, j) && 0 < k < |j| && j[k].Saved? && c in j[k].cp.components
    ensures NewlyIn(ViewAt(j, k), j[k].cp, c, Verified) ==>
              LatestIs(j, k, c, ReadCandidate(c, j[k].cp.components[c].candidate, true))
    ensures NewlyIn(ViewAt(j, k), j[k].cp, c, EntryRolledBack) ==>
              LatestIs(j, k, c, ReadPrior(c, j[k].cp.components[c].prior, true))
  {
    assert AllowedAt(plan, j, k);
    DurablePlan(plan, j, k);
    if c in ViewAt(j, k).touched {
      TouchedIsLatest(j, k, c);
    }
  }
}
