/**
 The durable record of a release attempt: the plan it belongs to, the entry of each
 component, and what one save may change with respect to the save before it.
 */
module Checkpoints {

  import opened Wrappers
  import opened Sequences

  /** The deployable components, in the order the engine handles them. */
  datatype Component = DocumentImport | ExportJob | Auth | Bff | Worker | Frontend

  const ORDER: seq<Component> := [DocumentImport, ExportJob, Auth, Bff, Worker, Frontend]

  /** Components that are run-to-completion jobs: a pending job is never submitted again. */
  predicate IsJob(c: Component) { c == Worker || c == ExportJob || c == DocumentImport }

  predicate IsService(c: Component) { c == Auth || c == Bff }

  /** What a provider error says: the retained text and whether it is the daily quota rejection code. */
  datatype Cause = Cause(quota: bool, text: string)

  datatype RejectionSource = ProviderCli | RetainedResult(artifactId: string)

  datatype QuotaRecord = QuotaRecord(source: RejectionSource, plan: string, artifact: string, cause: Cause)

  /** A finished walk of the provider's deployment listing. */
  datatype Reconciliation = Reconciliation(project: string, complete: bool, pagesRead: int, matches: int)

  datatype Quota = Quota(rejections: seq<QuotaRecord>, retryPending: bool, reconciliation: Option<Reconciliation>)

  datatype ConfigStage = Preparing | Publishing | Unconfirmed | Published

  /** Progress of publishing one secret version; the version is known only once published. */
  datatype ConfigRecord = ConfigRecord(stage: ConfigStage, version: Option<nat>)

  datatype Creation = Creating | Created

  /** What the attempt learnt about the thing it is creating. Every field is set once. */
  datatype Candidate = Candidate(
    deployment: Option<string>,
    revision: Option<string>,
    config: Option<ConfigRecord>,
    createIfAbsent: Option<bool>,
    creation: Option<Creation>)

  const EMPTY_CANDIDATE := Candidate(None, None, None, None, None)

  const EMPTY_QUOTA := Quota([], false, None)

  /** The state read from the provider before the attempt touched the component. */
  datatype Prior = Prior(absent: bool, identity: string)

  datatype EntryStatus =
    | Unstarted | Pending | EntryUnknown | EntryFailed | Verified
    | RollbackPending | RollbackUnknown | RollbackFailed | EntryRolledBack

  datatype Entry = Entry(status: EntryStatus, prior: Prior, candidate: Candidate, quota: Quota)

  datatype Status =
    | Prepared | Ready | Snapshotted | Deploying | Failed | Unknown
    | RollingBack | RecoveryFailed | FailedRolledBack | RuntimeSuccess
    | PartiallyReactivated | RolledBack | TagFailed | Success

  datatype Checkpoint = Checkpoint(plan: string, status: Status, components: map<Component, Entry>, sequence: nat)

  /**
   The immutable plan. `artifact` is the digest of the front-end archive it deploys, `aliases` the stable aliases of the
   front-end.
   */
  datatype Plan = Plan(id: string, source: string, artifact: string, selected: seq<Component>, aliases: seq<string>)

  function Index(c: Component): (i: nat)
    ensures i < |ORDER| && ORDER[i] == c
  {
    match c
    case DocumentImport => 0
    case ExportJob => 1
    case Auth => 2
    case Bff => 3
    case Worker => 4
    case Frontend => 5
  }

  predicate Ascending(s: seq<Component>) {
    forall i, j :: 0 <= i < j < |s| ==> Index(s[i]) < Index(s[j])
  }

  predicate ValidPlan(plan: Plan) { plan.selected != [] && Ascending(plan.selected) }

  /** An entry whose last submission may still be running or unreported. */
  predicate Open(e: Entry) { e.status == Pending || e.status == EntryUnknown }

  /** An entry whose compensation was begun and not confirmed. */
  predicate InRecovery(e: Entry) {
    e.status == RollbackPending || e.status == RollbackUnknown || e.status == RollbackFailed
  }

  /** The record names this plan and archive, has a known origin, and carries the quota code. */
  predicate RecordValid(plan: Plan, r: QuotaRecord) {
    r.plan == plan.id && r.artifact == plan.artifact && r.cause.quota
  }

  predicate RecordsValid(plan: Plan, q: Quota) {
    forall r :: r in q.rejections ==> RecordValid(plan, r)
  }

  /** The history with the record: one of several equal records is kept. */
  function WithRecord(history: seq<QuotaRecord>, r: QuotaRecord): seq<QuotaRecord> {
    if r in history then history else history + [r]
  }

  function History(cp: Checkpoint): seq<QuotaRecord> {
    if Frontend in cp.components then cp.components[Frontend].quota.rejections else []
  }

  function CreationOf(cp: Checkpoint): Option<Creation> {
    if DocumentImport in cp.components then cp.components[DocumentImport].candidate.creation else None
  }

  predicate HasLegacy(q: Quota) { exists r :: r in q.rejections && r.source.RetainedResult? }

  /** A non-empty candidate dictionary. */
  predicate NonEmpty(c: Candidate) { c != EMPTY_CANDIDATE }

  function ConfigStageOf(c: Candidate): Option<ConfigStage> {
    match c.config case None => None case Some(r) => Some(r.stage)
  }

  /** Statuses that claim the runtime of the whole release is in place. */
  predicate ClaimsRuntime(s: Status) { s == RuntimeSuccess || s == TagFailed || s == Success }

  /** RESOLVED_TARGET_STATUSES: another attempt may begin. */
  predicate Resolved(s: Status) { s in {Success, RolledBack, FailedRolledBack, Ready, Prepared} }

  /** Statuses of a plan that has not touched the runtime. */
  predicate BeforeRuntime(s: Status) { s == Prepared || s == Ready }

  /** What every checkpoint of a plan satisfies, whichever operation saved it. */
  predicate WellFormed(plan: Plan, cp: Checkpoint) {
    && cp.plan == plan.id
    && (cp.components.Keys == {} || cp.components.Keys == Elements(plan.selected))
    && (BeforeRuntime(cp.status) ==> cp.components == map[])
    && (ClaimsRuntime(cp.status) ==>
          && cp.components.Keys == Elements(plan.selected)
          && forall c :: c in cp.components ==> cp.components[c].status == Verified)
    && (forall c :: c in cp.components ==> RecordsValid(plan, cp.components[c].quota))
    && (DocumentImport in cp.components ==> DecidedBySnapshot(cp.components[DocumentImport]))
  }

  /** Whether the job is to be created is decided once, by what the snapshot saw. */
  predicate DecidedBySnapshot(e: Entry) { e.candidate.createIfAbsent in {None, Some(e.prior.absent)} }

  predicate ConfigAdvances(a: Option<ConfigRecord>, b: Option<ConfigRecord>) {
    a.Some? ==>
      && b.Some?
      && (a.value.stage == Published ==> b == a)
      && ((a.value.stage == Publishing || a.value.stage == Unconfirmed) ==> b.value.stage != Preparing)
      && (a.value.stage == Unconfirmed ==> b.value.stage == Unconfirmed)
  }

  predicate CandidateAdvances(a: Candidate, b: Candidate) {
    && (a.deployment.Some? ==> b.deployment == a.deployment)
    && (a.revision.Some? ==> b.revision == a.revision)
    && ConfigAdvances(a.config, b.config)
    && (a.createIfAbsent.Some? ==> b.createIfAbsent == a.createIfAbsent)
    && (a.creation.Some? ==> b.creation.Some?) && (a.creation == Some(Created) ==> b.creation == Some(Created))
  }

  /** What may happen to one entry between two saves, or between a save and the state in memory. */
  predicate EntryAdvances(a: Entry, b: Entry) {
    && a.prior == b.prior
    && CandidateAdvances(a.candidate, b.candidate)
    && a.quota.rejections <= b.quota.rejections
    && (InRecovery(a) ==> InRecovery(b) || b.status == EntryRolledBack)
    && (b.status == Unstarted ==> a.status == Unstarted)
  }

  predicate ComponentsAdvance(a: map<Component, Entry>, b: map<Component, Entry>) {
    && a.Keys <= b.Keys
    && forall c :: c in a ==> EntryAdvances(a[c], b[c])
  }

  /** `selection`: the listed components in engine order. Repeated names are refused. */
  function Selection(values: seq<Component>): (r: Option<seq<Component>>)
    ensures r.Some? <==> values != [] && forall i, j :: 0 <= i < j < |values| ==> values[i] != values[j]
    ensures r.Some? ==> Ascending(r.value) && Elements(r.value) == Elements(values) && |r.value| == |values|
  {
    if values == [] || |Elements(values)| != |values| then
      DistinctIsSetSize(values);
      None
    else
      DistinctIsSetSize(values);
      var kept := Kept(values, 0);
      KeptIsAscending(values);
      DistinctIsSetSize(kept);
      Some(kept)
  }

  /** The entries of ORDER from position i on that are listed. */
  function Kept(values: seq<Component>, i: nat): seq<Component>
    requires i <= |ORDER|
    decreases |ORDER| - i
  {
    if i == |ORDER| then []
    else (if ORDER[i] in values then [ORDER[i]] else []) + Kept(values, i + 1)
  }

  lemma {:induction false} KeptHas(values: seq<Component>, i: nat, c: Component)
    requires i <= |ORDER|
    ensures c in Kept(values, i) <==> c in values && i <= Index(c)
    decreases |ORDER| - i
  {
    if i < |ORDER| {
      KeptHas(values, i + 1, c);
      InOrder(i, c);
      hide ORDER, Index;
    } else {
      assert Index(c) < |ORDER|;
    }
  }

  lemma InOrder(i: nat, c: Component)
    requires i < |ORDER|
    ensures ORDER[i] == c <==> Index(c) == i
  {
  }

  lemma AscendingCons(c: Component, rest: seq<Component>)
    requires Ascending(rest) && forall x :: x in rest ==> Index(c) < Index(x)
    ensures Ascending([c] + rest)
  {
    hide Index;
  }

  lemma {:induction false} KeptAscends(values: seq<Component>, i: nat)
    requires i <= |ORDER|
    ensures Ascending(Kept(values, i))
    decreases |ORDER| - i
  {
    hide ORDER, Index, Ascending;
    if i < |ORDER| {
      KeptAscends(values, i + 1);
      var c, rest := ORDER[i], Kept(values, i + 1);
      InOrder(i, c);
      forall x | x in rest ensures Index(c) < Index(x) {
        KeptHas(values, i + 1, x);
      }
      AscendingCons(c, rest);
      assert [] + rest == rest;
    } else {
      NothingAscends();
    }
  }

  lemma NothingAscends()
    ensures Ascending([])
  {
  }

  lemma KeptIsAscending(values: seq<Component>)
    ensures Ascending(Kept(values, 0)) && Elements(Kept(values, 0)) == Elements(values)
    ensures forall a, b :: 0 <= a < b < |Kept(values, 0)| ==> Kept(values, 0)[a] != Kept(values, 0)[b]
  {
    KeptAscends(values, 0);
    forall c: Component ensures c in Kept(values, 0) <==> c in values {
      KeptHas(values, 0, c);
    }
  }
}
