/**
 The preparation of one container image: the record of its cloud build, the journal of what became durable and what was
 asked of the provider, and the laws that hold for it over every run, cut off by a crash wherever it may be.
 */
module Builds {
  import opened Wrappers
  import opened Checkpoints

  datatype BuildStatus =
    | Submitting | SubmitUnknown | SubmitRejected | IdentityInvalid | IdentityMismatch | Submitted
    | Queueing | Working | Succeeded | BuildFailed | InternalError | TimedOut | Cancelled | Expired | StatusUnknown

  /** `id` is a well-formed build identity in lower case. */
  datatype Build = Build(project: string, location: string, id: Option<string>, verified: bool, status: BuildStatus)

  const LOCATION := "global"

  const MAX_READS := 120

  const POLL_SECONDS := 600

  predicate FailedStatus(s: BuildStatus) {
    s in {BuildFailed, InternalError, TimedOut, Cancelled, Expired}
  }

  /** The statuses a provider reports; every other answer reads as unknown. */
  predicate Reportable(s: BuildStatus) { s in {Queueing, Working, Succeeded, StatusUnknown} || FailedStatus(s) }

  /** The build is over without an image; a new one may be submitted. */
  predicate Terminal(b: Build) { FailedStatus(b.status) || b.status == SubmitRejected }

  predicate Done(b: Build) { b.status == Succeeded && b.verified }

  /** The record made durable before a submission. */
  predicate Fresh(b: Build) { b.id.None? && !b.verified && b.status == Submitting && b.location == LOCATION }

  // ---- what a response says about a build ---------------------------------------------------------------

  /** A resource name; its project may be given by number. */
  datatype ResourceName = ResourceName(project: string, location: string, id: Option<string>)

  /** Identities that are no build identities read as `None`, and so does a name of another form. */
  datatype Response =
    | NotADict
    | Described(id: Option<string>, project: Option<string>, name: Option<ResourceName>, location: Option<string>, status: BuildStatus)

  /** The response is about this build of the project: its fields and its resource name agree. */
  predicate Identifies(r: Response, project: string, number: string, id: string) {
    && r.Described? && r.id == Some(id) && r.project == Some(project)
    && r.name.Some? && r.name.value.project in {project, number} && r.name.value.location == LOCATION
    && r.name.value.id == Some(id)
    && (r.location.None? || r.location == Some(LOCATION))
  }

  /** `_build_record` */
  function BuildRecord(r: Response, project: string, number: string, expected: Option<string>): (b: Build)
    ensures b.verified <==> exists id :: Identifies(r, project, number, id) && (expected.None? || expected == Some(id))
    ensures b.verified ==> b.status == Submitted && b.id.Some? && Identifies(r, project, number, b.id.value)
    ensures !b.verified ==>
      b.status in {IdentityInvalid, IdentityMismatch} && (b.id.None? <==> b.status == IdentityInvalid)
    ensures b.project == project && b.location == LOCATION
  {
    var blank := Build(project, LOCATION, None, false, IdentityInvalid);
    if r.NotADict? then blank
    else
      var named := if r.name.Some? then r.name.value.id else None;
      var id := if r.id.Some? then r.id else named;
      var valid :=
        && r.id.Some? && r.project == Some(project)
        && r.name.Some? && (r.name.value.project == project || r.name.value.project == number)
        && r.name.value.location == LOCATION && named == r.id
        && (r.location.None? || r.location == Some(LOCATION))
        && (expected.None? || expected == r.id);
      if valid then assert Identifies(r, project, number, id.value); blank.(id := id, verified := true, status := Submitted)
      else if id.None? then blank
      else blank.(id := id, status := IdentityMismatch)
  }

  // ---- the journal ----------------------------------------------------------------------------------------

  /** The project that builds belong to, and its number once the provider told it. */
  datatype Home = Home(project: string, number: string)

  /** What is reported of a submission: a response, or one of four failures. */
  datatype SubmitAnswer = Answered(r: Response) | Unreadable | Denied | ProjectUnidentified | SubmitFailed

  datatype ReadAnswer = Unavailable | Malformed | Answer(r: Response)

  /** The submission is taken as not made. */
  predicate Refuses(a: SubmitAnswer) { a.Denied? || a.ProjectUnidentified? }

  /** The answer is about the recorded build and gives this status. */
  predicate Shows(h: Home, b: Build, a: ReadAnswer, status: BuildStatus) {
    b.id.Some? && a.Answer? && Identifies(a.r, h.project, h.number, b.id.value) && a.r.status == status
  }

  /** The answer is a response that is not about the recorded build. */
  predicate ShowsOther(h: Home, b: Build, a: ReadAnswer) {
    b.id.Some? && a.Answer? && !Identifies(a.r, h.project, h.number, b.id.value)
  }

  /** Nobody can tell from the answer whether a build was made, or which. */
  ghost predicate Unidentified(h: Home, a: SubmitAnswer) {
    a.Unreadable? || a.SubmitFailed? || (a.Answered? && forall id :: !Identifies(a.r, h.project, h.number, id))
  }

  /**
   A durable record, a submission (accepted or not) and what is reported of it, the answer to a reading of the recorded
   build, or the look-up of the image.
   */
  datatype Event =
    | Recorded(b: Build) | Submission(accepted: bool) | Reported(answer: SubmitAnswer) | Read(reading: ReadAnswer) | Resolved

  datatype View = View(record: Option<Build>, tried: Option<bool>, reported: Option<SubmitAnswer>, read: Option<ReadAnswer>)

  const NOTHING := View(None, None, None, None)

  ghost function Next(v: View, e: Event): View {
    match e
    case Recorded(b) => if b.status == Submitting && v.record != Some(b) then NOTHING.(record := Some(b)) else v.(record := Some(b))
    case Submission(accepted) => v.(tried := Some(accepted))
    case Reported(answer) => v.(reported := Some(answer))
    case Read(answer) => v.(read := Some(answer))
    case Resolved => v
  }

  ghost function ViewOf(j: seq<Event>): View {
    if j == [] then NOTHING else Next(ViewOf(j[..|j| - 1]), j[|j| - 1])
  }

  ghost predicate Starts(v: View, b: Build) { (v.record.None? || Terminal(v.record.value)) && Fresh(b) }

  /**
   The record after a submission was answered: verified only by a response that identifies a build, and rejected exactly
   after a refusal.
   */
  ghost predicate Answers(h: Home, v: View, b: Build) {
    && v.record.Some? && v.record.value.status == Submitting && v.reported.Some?
    && b.status in {SubmitRejected, SubmitUnknown, IdentityInvalid, IdentityMismatch, Submitted}
    && (b.verified <==> b.status == Submitted)
    && (b.verified ==>
          && v.reported.value.Answered? && b.id.Some?
          && Identifies(v.reported.value.r, h.project, h.number, b.id.value))
    && (b.status == SubmitRejected <==> Refuses(v.reported.value))
  }

  /**
   The record after its build was read: a status is taken over only from an answer about that build, and the
   verification withdrawn only after a response about something else.
   */
  ghost predicate Reads(h: Home, v: View, b: Build) {
    && v.record.Some? && v.record.value.verified && !Terminal(v.record.value) && !Done(v.record.value)
    && b == v.record.value.(verified := b.verified, status := b.status)
    && (b.status != StatusUnknown ==>
          && b.verified && Reportable(b.status)
          && v.read.Some? && Shows(h, v.record.value, v.read.value, b.status))
    && (!b.verified ==> v.read.Some? && ShowsOther(h, v.record.value, v.read.value))
  }

  ghost predicate Allowed(h: Home, v: View, e: Event) {
    match e
    case Recorded(b) => v.record == Some(b) || Starts(v, b) || Answers(h, v, b) || Reads(h, v, b)
    case Submission(_) => v.record.Some? && Fresh(v.record.value) && v.tried.None? && v.reported.None?
    case Reported(answer) =>
      && v.record.Some? && Fresh(v.record.value) && v.reported.None?
      && (answer.Answered? ==> v.tried.Some?) && (answer.ProjectUnidentified? ==> v.tried.None?)
    case Read(_) => v.record.Some? && v.record.value.verified && !Terminal(v.record.value) && !Done(v.record.value)
    case Resolved => v.record.Some? && Done(v.record.value)
  }

  ghost predicate Lawful(h: Home, j: seq<Event>) {
    j == [] || (Lawful(h, j[..|j| - 1]) && Allowed(h, ViewOf(j[..|j| - 1]), j[|j| - 1]))
  }

  /** A crash at any moment leaves a lawful journal. */
  lemma {:induction false} PrefixLawful(h: Home, j: seq<Event>, n: nat)
    requires Lawful(h, j) && n <= |j|
    ensures Lawful(h, j[..n])
    decreases |j|
  {
    if n < |j| {
      assert j[..|j| - 1][..n] == j[..n];
      PrefixLawful(h, j[..|j| - 1], n);
    } else {
      assert j[..n] == j;
    }
  }

  lemma Extends(h: Home, j: seq<Event>, e: Event)
    requires Lawful(h, j) && Allowed(h, ViewOf(j), e)
    ensures Lawful(h, j + [e]) && ViewOf(j + [e]) == Next(ViewOf(j), e)
    ensures Submissions(j + [e]) == Submissions(j) + if e.Submission? then 1 else 0
  {
    hide Allowed, Next;
    assert (j + [e])[..|j|] == j;
  }

  lemma StepAt(h: Home, j: seq<Event>, i: nat)
    requires Lawful(h, j) && i < |j|
    ensures Allowed(h, ViewOf(j[..i]), j[i]) && ViewOf(j[..i + 1]) == Next(ViewOf(j[..i]), j[i])
  {
    hide Allowed, Next;
    PrefixLawful(h, j, i + 1);
    assert j[..i + 1][..i] == j[..i];
  }

  /** What a lawful journal shows at any point. */
  ghost predicate Sound(h: Home, v: View) {
    && (v.record.None? ==> v == NOTHING)
    && (v.record.Some? && (FailedStatus(v.record.value.status) || Done(v.record.value)) ==>
          v.read.Some? && Shows(h, v.record.value, v.read.value, v.record.value.status))
    && (v.record.Some? && v.record.value.status == Submitting ==> Fresh(v.record.value) && v.read.None?)
  }

  lemma SoundStep(h: Home, v: View, e: Event)
    requires Sound(h, v) && Allowed(h, v, e)
    ensures Sound(h, Next(v, e))
  {
    hide Identifies;
  }

  lemma {:induction false} LawfulIsSound(h: Home, j: seq<Event>)
    requires Lawful(h, j)
    ensures Sound(h, ViewOf(j))
  {
    hide Allowed, Next, Sound;
    if j != [] {
      LawfulIsSound(h, j[..|j| - 1]);
      SoundStep(h, ViewOf(j[..|j| - 1]), j[|j| - 1]);
    } else {
      NothingIsSound(h);
    }
  }

  lemma NothingIsSound(h: Home)
    ensures Sound(h, NOTHING)
  {
  }

  lemma SoundAt(h: Home, j: seq<Event>, i: nat)
    requires Lawful(h, j) && i <= |j|
    ensures Sound(h, ViewOf(j[..i]))
  {
    PrefixLawful(h, j, i);
    LawfulIsSound(h, j[..i]);
  }

  ghost predicate Ends(e: Event) { e.Recorded? && Terminal(e.b) }

  /** A submission was made and its build is not over. */
  ghost predicate Busy(v: View) {
    v.record.Some? && !Terminal(v.record.value) && (v.record.value.status == Submitting ==> v.tried.Some?)
  }

  lemma BusyStep(h: Home, v: View, e: Event)
    requires Allowed(h, v, e) && Sound(h, v) && !Ends(e) && (Busy(v) || e.Submission?)
    ensures Busy(Next(v, e)) && (!e.Submission? ==> Next(v, e).tried == v.tried)
  {
    hide Identifies;
  }

  lemma BusyForbids(h: Home, v: View, e: Event)
    requires Busy(v) && e.Submission?
    ensures !Allowed(h, v, e)
  {
  }

  lemma {:induction false} BusyUntilTheEnd(h: Home, j: seq<Event>, i: nat, k: nat)
    requires Lawful(h, j) && i < k <= |j| && j[i].Submission?
    requires forall m :: i < m < k ==> !Ends(j[m])
    ensures Busy(ViewOf(j[..k])) && ViewOf(j[..k]).tried == Some(j[i].accepted)
    decreases k
  {
    hide Allowed, Busy, Sound, Lawful, ViewOf;
    StepAt(h, j, k - 1);
    SoundAt(h, j, k - 1);
    var v, e := ViewOf(j[..k - 1]), j[k - 1];
    if k - 1 > i {
      BusyUntilTheEnd(h, j, i, k - 1);
      if e.Submission? {
        BusyForbids(h, v, e);
        assert false;
      }
    }
    BusyStep(h, v, e);
  }

  ghost predicate EndsBetween(j: seq<Event>, i: int, k: int) { exists m :: 0 <= i < m < k <= |j| && Ends(j[m]) }

  /** Over all crashes and restarts, a second submission is made only after the build before it was recorded as over. */
  lemma SubmittedOncePerEnd(h: Home, j: seq<Event>, i: nat, k: nat)
    requires Lawful(h, j) && i < k < |j| && j[i].Submission? && j[k].Submission?
    ensures EndsBetween(j, i, k)
  {
    if !EndsBetween(j, i, k) {
      BusyUntilTheEnd(h, j, i, k);
      StepAt(h, j, k);
      assert false;
    }
  }

  /** The reading at k is an answer about the build then recorded, with this status. */
  ghost predicate ShownAt(h: Home, j: seq<Event>, k: int, status: BuildStatus) {
    && 0 <= k < |j| && j[k].Read?
    && ViewOf(j[..k]).record.Some? && Shows(h, ViewOf(j[..k]).record.value, j[k].reading, status)
  }

  /**
   The image is looked up only for a recorded build that a reading showed to have succeeded: a response whose fields and
   resource name identify that very build of the project.
   */
  lemma ResolvedAfterSuccess(h: Home, j: seq<Event>, i: nat)
    requires Lawful(h, j) && i < |j| && j[i].Resolved?
    ensures var v := ViewOf(j[..i]);
            && v.record.Some? && v.record.value.id.Some?
            && exists k, r :: 0 <= k < i && j[k] == Read(Answer(r))
                 && Identifies(r, h.project, h.number, v.record.value.id.value) && r.status == Succeeded
  {
    hide Lawful, ViewOf, Identifies;
    StepAt(h, j, i);
    SoundAt(h, j, i);
    var v := ViewOf(j[..i]);
    EmptyStart(j);
    var k := ReadIsAnEvent(h, j, i, 0);
    assert j[k] == Read(Answer(v.read.value.r));
  }

  lemma EmptyStart(j: seq<Event>)
    ensures ViewOf(j[..0]) == NOTHING
  {
  }

  /** What was read last is an event of the journal, if nothing was read before position `from`. */
  lemma {:induction false} ReadIsAnEvent(h: Home, j: seq<Event>, n: nat, from: nat) returns (k: nat)
    requires Lawful(h, j) && from <= n <= |j| && ViewOf(j[..n]).read.Some? && ViewOf(j[..from]).read.None?
    ensures from <= k < n && j[k] == Read(ViewOf(j[..n]).read.value)
    decreases n
  {
    hide Lawful, Allowed, ViewOf;
    StepAt(h, j, n - 1);
    if j[n - 1].Read? {
      k := n - 1;
    } else {
      k := ReadIsAnEvent(h, j, n - 1, from);
    }
  }

  ghost function Submissions(j: seq<Event>): nat {
    if j == [] then 0 else Submissions(j[..|j| - 1]) + if j[|j| - 1].Submission? then 1 else 0
  }

  /** A submission was asked for after the first `from` events; whether it was made is not known from a failure. */
  predicate Asked(j: seq<Event>, from: nat) { exists k :: from <= k < |j| && j[k].Reported? }

  lemma StillAsked(j: seq<Event>, l: seq<Event>, from: nat)
    requires j <= l && Asked(j, from)
    ensures Asked(l, from)
  {
    var k :| from <= k < |j| && j[k].Reported?;
    assert l[k] == j[k];
  }

  /** No submission that was accepted is recorded as rejected. */
  ghost predicate HonestRejections(j: seq<Event>) {
    forall m :: 0 <= m < |j| && j[m].Recorded? && j[m].b.status == SubmitRejected && ViewOf(j[..m]).record != Some(j[m].b) ==>
      ViewOf(j[..m]).tried != Some(true)
  }

  /** A reading showed the build then recorded to have failed. */
  ghost predicate SeenFailed(h: Home, j: seq<Event>, i: int, k: int) {
    exists m, status :: i < m < k <= |j| && FailedStatus(status) && ShownAt(h, j, m, status)
  }

  /** Event m is the first after i that records the build as over. */
  ghost predicate FirstEnds(j: seq<Event>, i: int, m: int) {
    0 <= i < m < |j| && Ends(j[m]) && forall n :: i < n < m ==> !Ends(j[n])
  }

  /** The record in force is past its submission and not over. */
  ghost predicate PastSubmission(v: View) { v.record.Some? && !Terminal(v.record.value) && v.record.value.status != Submitting }

  lemma PastStep(h: Home, v: View, e: Event)
    requires Allowed(h, v, e) && Sound(h, v) && !Ends(e) && (PastSubmission(v) || e.Read?)
    ensures PastSubmission(Next(v, e)) && v.record.Some? && Next(v, e).record.value.id == v.record.value.id
  {
    hide Identifies;
  }

  /** From a reading to the end of the build the record is past its submission and keeps its identity. */
  lemma {:induction false} PastUntilTheEnd(h: Home, j: seq<Event>, n: nat, m: nat)
    requires Lawful(h, j) && n < m <= |j| && j[n].Read? && forall x :: n <= x < m ==> !Ends(j[x])
    ensures PastSubmission(ViewOf(j[..m])) && ViewOf(j[..n]).record.Some?
    ensures ViewOf(j[..m]).record.value.id == ViewOf(j[..n]).record.value.id
    decreases m
  {
    hide Allowed, Sound, Lawful, ViewOf, Next;
    StepAt(h, j, m - 1);
    SoundAt(h, j, m - 1);
    if m - 1 > n {
      PastUntilTheEnd(h, j, n, m - 1);
    }
    PastStep(h, ViewOf(j[..m - 1]), j[m - 1]);
  }

  lemma EndingStep(h: Home, v: View, b: Build)
    requires Allowed(h, v, Recorded(b)) && Terminal(b) && Busy(v) && Sound(h, v)
    ensures v.record.Some?
    ensures b.status == SubmitRejected ==> !PastSubmission(v) && v.reported.Some? && Refuses(v.reported.value)
    ensures b.status != SubmitRejected ==>
      FailedStatus(b.status) && v.read.Some? && Shows(h, v.record.value, v.read.value, b.status)
  {
    hide Identifies;
  }

  /**
   A build that was submitted was seen to fail before it is recorded as over, exactly unless the record says that the
   submission was rejected.
   */
  lemma FailureIsSeenUnlessRejected(h: Home, j: seq<Event>, i: nat, m: nat)
    requires Lawful(h, j) && i < m < |j| && j[i].Submission? && FirstEnds(j, i, m)
    ensures SeenFailed(h, j, i, m) <==> j[m].b.status != SubmitRejected
  {
    hide Allowed, Sound, Lawful, ViewOf, Next, Busy, Terminal, FailedStatus, Shows, PastSubmission;
    BusyUntilTheEnd(h, j, i, m);
    StepAt(h, j, m);
    SoundAt(h, j, m);
    EndingStep(h, ViewOf(j[..m]), j[m].b);
    if j[m].b.status == SubmitRejected {
      if SeenFailed(h, j, i, m) {
        var n, status :| i < n < m && FailedStatus(status) && ShownAt(h, j, n, status);
        PastUntilTheEnd(h, j, n, m);
      }
    } else {
      FailureWasRead(h, j, i, m, j[m].b.status);
    }
  }

  lemma FailureWasRead(h: Home, j: seq<Event>, i: nat, m: nat, status: BuildStatus)
    requires Lawful(h, j) && i < m < |j| && j[i].Submission? && FirstEnds(j, i, m) && FailedStatus(status)
    requires var v := ViewOf(j[..m]); v.record.Some? && v.read.Some? && Shows(h, v.record.value, v.read.value, status)
    ensures SeenFailed(h, j, i, m)
  {
    hide Lawful, ViewOf, Identifies, FailedStatus, Ends;
    SubmittedIsUnread(h, j, i);
    var n := ReadIsAnEvent(h, j, m, i);
    PastUntilTheEnd(h, j, n, m);
    assert ShownAt(h, j, n, status);
  }

  lemma SubmittedIsUnread(h: Home, j: seq<Event>, i: nat)
    requires Lawful(h, j) && i < |j| && j[i].Submission?
    ensures ViewOf(j[..i]).read.None? && ViewOf(j[..i]).reported.None?
  {
    hide Lawful, ViewOf;
    StepAt(h, j, i);
    SoundAt(h, j, i);
  }

  /** The record is over, or nothing was submitted for it yet. */
  ghost predicate Idle(v: View) {
    && v.record.Some?
    && (Terminal(v.record.value)
        || (!v.record.value.verified && v.tried.None? && (v.reported.Some? ==> !v.reported.value.Answered?)))
  }

  lemma IdleStep(h: Home, v: View, e: Event)
    requires Allowed(h, v, e) && !e.Submission? && (Idle(v) || Ends(e))
    ensures Idle(Next(v, e)) && !e.Read?
  {
    hide Identifies;
  }

  lemma {:induction false} IdleAfterTheEnd(h: Home, j: seq<Event>, m: nat, k: nat)
    requires Lawful(h, j) && m < k <= |j| && Ends(j[m]) && forall n :: m <= n < k ==> !j[n].Submission?
    ensures Idle(ViewOf(j[..k])) && forall n :: m <= n < k ==> !j[n].Read?
    decreases k
  {
    hide Allowed, Lawful, ViewOf, Idle, Next, Ends;
    StepAt(h, j, k - 1);
    if k - 1 > m {
      IdleAfterTheEnd(h, j, m, k - 1);
    }
    IdleStep(h, ViewOf(j[..k - 1]), j[k - 1]);
  }

  /**
   Between two consecutive submissions the first build was seen to fail exactly if the record that ended it is not the
   one written when a submission is reported as rejected.
   */
  lemma ReplacedBuildsFailed(h: Home, j: seq<Event>, i: nat, m: nat, k: nat)
    requires Lawful(h, j) && i < k < |j| && j[i].Submission? && j[k].Submission? && FirstEnds(j, i, m)
    requires forall n :: i < n < k ==> !j[n].Submission?
    ensures m < k && (SeenFailed(h, j, i, k) <==> j[m].b.status != SubmitRejected)
  {
    hide Lawful, Ends, FailedStatus, ViewOf, Shows;
    SubmittedOncePerEnd(h, j, i, k);
    FirstIsFirst(j, i, m, k);
    FailureIsSeenUnlessRejected(h, j, i, m);
    IdleAfterTheEnd(h, j, m, k);
    if SeenFailed(h, j, i, k) {
      var n, status :| i < n < k <= |j| && FailedStatus(status) && ShownAt(h, j, n, status);
      assert n < m;
    }
  }

  lemma FirstIsFirst(j: seq<Event>, i: nat, m: nat, k: nat)
    requires EndsBetween(j, i, k) && FirstEnds(j, i, m) && k < |j| && j[k].Submission?
    ensures m < k
  {
  }

  /** So if rejections are honest, of all accepted builds of a component only the last one can be alive. */
  lemma AcceptedBuildsAreOver(h: Home, j: seq<Event>, i: nat, k: nat)
    requires Lawful(h, j) && HonestRejections(j)
    requires i < k < |j| && j[i] == Submission(true) && j[k].Submission?
    ensures SeenFailed(h, j, i, k)
  {
    SubmittedOncePerEnd(h, j, i, k);
    var m := FirstEnd(j, i, k);
    BusyUntilTheEnd(h, j, i, m);
    FailureIsSeenUnlessRejected(h, j, i, m);
    hide Lawful, ViewOf, Shows;
  }

  lemma {:induction false} FirstEnd(j: seq<Event>, i: nat, k: nat) returns (m: nat)
    requires EndsBetween(j, i, k)
    ensures i < m < k <= |j| && Ends(j[m]) && forall n :: i < n < m ==> !Ends(j[n])
  {
    m := i + 1;
    while !Ends(j[m])
      invariant i < m < k <= |j| && EndsBetween(j, m - 1, k)
      invariant forall n :: i < n < m ==> !Ends(j[n])
      decreases k - m
    {
      m := m + 1;
    }
  }

  // ---- what may be submitted again -------------------------------------------------------------------------

  /** After event i and before k a submission was reported as refused. */
  ghost predicate RefusedBetween(j: seq<Event>, i: int, k: int) {
    exists m :: 0 <= i < m < k <= |j| && j[m].Reported? && Refuses(j[m].answer)
  }

  lemma {:induction false} ReportIsAnEvent(h: Home, j: seq<Event>, n: nat, from: nat) returns (k: nat)
    requires Lawful(h, j) && from <= n <= |j| && ViewOf(j[..n]).reported.Some? && ViewOf(j[..from]).reported.None?
    ensures from <= k < n && j[k] == Reported(ViewOf(j[..n]).reported.value)
    decreases n
  {
    hide Lawful, Allowed, ViewOf;
    StepAt(h, j, n - 1);
    if j[n - 1].Reported? {
      k := n - 1;
    } else {
      k := ReportIsAnEvent(h, j, n - 1, from);
    }
  }

  /**
   A second submission rests on an answer that came after the first one: it was reported as refused, or a reading that
   identifies its build showed it to have failed.
   */
  lemma ResubmittedOnAnAnswer(h: Home, j: seq<Event>, i: nat, k: nat)
    requires Lawful(h, j) && i < k < |j| && j[i].Submission? && j[k].Submission?
    ensures RefusedBetween(j, i, k) || SeenFailed(h, j, i, k)
  {
    hide Lawful, ViewOf, Shows, Ends, FailedStatus, Busy, Sound, Allowed, Next;
    SubmittedOncePerEnd(h, j, i, k);
    var m := FirstEnd(j, i, k);
    FailureIsSeenUnlessRejected(h, j, i, m);
    if j[m].b.status == SubmitRejected {
      BusyUntilTheEnd(h, j, i, m);
      StepAt(h, j, m);
      SoundAt(h, j, m);
      EndIsTerminal(j[m]);
      EndingStep(h, ViewOf(j[..m]), j[m].b);
      SubmittedIsUnread(h, j, i);
      var n := ReportIsAnEvent(h, j, m, i);
    }
  }

  lemma EndIsTerminal(e: Event)
    requires Ends(e)
    ensures e.Recorded? && Terminal(e.b)
  {
  }

  /** The outcome of the submission in force was reported as unknown. */
  ghost predicate LeftUnknown(h: Home, v: View) {
    && v.record.Some? && !Terminal(v.record.value) && !v.record.value.verified
    && v.reported.Some? && Unidentified(h, v.reported.value)
  }

  lemma UnknownStep(h: Home, v: View, e: Event)
    requires Allowed(h, v, e) && (LeftUnknown(h, v) || (e.Reported? && Unidentified(h, e.answer)))
    ensures LeftUnknown(h, Next(v, e)) && !e.Submission?
  {
    hide Identifies;
  }

  lemma {:induction false} UnknownUntil(h: Home, j: seq<Event>, m: nat, k: nat)
    requires Lawful(h, j) && m < k <= |j| && j[m].Reported? && Unidentified(h, j[m].answer)
    ensures LeftUnknown(h, ViewOf(j[..k])) && forall n :: m < n < k ==> !j[n].Submission?
    decreases k
  {
    hide Allowed, Lawful, ViewOf, LeftUnknown, Next, Unidentified;
    StepAt(h, j, k - 1);
    if k - 1 > m {
      UnknownUntil(h, j, m, k - 1);
    }
    UnknownStep(h, ViewOf(j[..k - 1]), j[k - 1]);
  }

  /**
   After a submission that failed without a refusal, or was answered by something that identifies no build, nothing is
   ever submitted again, over all crashes and restarts.
   */
  lemma UnknownIsNeverRepeated(h: Home, j: seq<Event>, m: nat, k: nat)
    requires Lawful(h, j) && m < k < |j| && j[m].Reported? && Unidentified(h, j[m].answer)
    ensures !j[k].Submission?
  {
    hide Lawful, ViewOf, Unidentified;
    UnknownUntil(h, j, m, |j|);
  }

  // ---- a rejection that was none ---------------------------------------------------------------------------

  /** A rejected submission that was accepted all the same, and the one after it. */
  ghost function TwoAccepted(b: Build): seq<Event> {
    [Recorded(b), Submission(true), Reported(Denied), Recorded(b.(status := SubmitRejected)), Recorded(b),
     Submission(true)]
  }

  lemma TwoAcceptedAt(b: Build, n: nat)
    requires n <= 6
    ensures TwoAccepted(b)[..0] == []
    ensures n < 6 ==> TwoAccepted(b)[..n + 1] == TwoAccepted(b)[..n] + [TwoAccepted(b)[n]]
  {
  }

  lemma NothingRecorded(h: Home)
    ensures Lawful(h, []) && ViewOf([]) == NOTHING
  {
  }

  lemma {:induction false} TwoAcceptedLawful(h: Home, b: Build, n: nat)
    requires Fresh(b) && n <= 6
    ensures Lawful(h, TwoAccepted(b)[..n])
    ensures ViewOf(TwoAccepted(b)[..n]) ==
      if n == 0 then NOTHING
      else View(Some(if n == 4 then b.(status := SubmitRejected) else b), if n in {1, 5} then None else Some(true),
                if n in {3, 4} then Some(Denied) else None, None)
    decreases n
  {
    hide Lawful, ViewOf;
    TwoAcceptedAt(b, n);
    if n == 0 {
      NothingRecorded(h);
    } else {
      TwoAcceptedLawful(h, b, n - 1);
      TwoAcceptedAt(b, n - 1);
      Extends(h, TwoAccepted(b)[..n - 1], TwoAccepted(b)[n - 1]);
    }
  }

  /** A permission error reported for a submission that was accepted all the same leaves two builds alive. */
  lemma RejectionsMayNotBeHonest(h: Home)
    ensures var j := TwoAccepted(Build(h.project, LOCATION, None, false, Submitting));
            && Lawful(h, j) && !HonestRejections(j) && !SeenFailed(h, j, 1, 5)
            && j[1] == j[5] == Submission(true)
  {
    hide Lawful, ViewOf;
    var b := Build(h.project, LOCATION, None, false, Submitting);
    var j := TwoAccepted(b);
    TwoAcceptedLawful(h, b, 6);
    TwoAcceptedLawful(h, b, 3);
    assert j[..6] == j;
    assert j[3] == Recorded(b.(status := SubmitRejected)) && ViewOf(j[..3]).tried == Some(true);
  }

  // ---- the preparation --------------------------------------------------------------------------------------

  /** While a build is polled: its record is the durable one, or carries what was read of it. */
  ghost predicate Polled(h: Home, v: View, durable: Build, b: Build) {
    && v.record == Some(durable) && !Terminal(durable) && !Done(durable)
    && (b == durable || Reads(h, v, b))
  }

  lemma PolledIsAllowed(h: Home, v: View, durable: Build, b: Build)
    requires Polled(h, v, durable, b)
    ensures Allowed(h, v, Recorded(b)) && Next(v, Recorded(b)).record == Some(b)
  {
  }

  lemma PolledNothing(h: Home, v: View, durable: Build)
    requires v.record == Some(durable) && !Terminal(durable) && !Done(durable)
    ensures Polled(h, v, durable, durable) && !FailedStatus(durable.status)
  {
  }

  lemma UnknownIsPolled(h: Home, durable: Build)
    requires durable.verified && !Terminal(durable) && !Done(durable)
    ensures !FailedStatus(StatusUnknown) && !FailedStatus(Succeeded)
    ensures forall v: View :: v.record == Some(durable) ==> Polled(h, v, durable, durable.(status := StatusUnknown))
  {
  }

  /** What the answer makes of the record. */
  lemma AnswerIsPolled(h: Home, v: View, durable: Build, a: ReadAnswer)
    requires v.record == Some(durable) && durable.verified && durable.id.Some? && !Terminal(durable) && !Done(durable)
    ensures var w := Next(v, Read(a));
            && Allowed(h, v, Read(a)) && w.record == v.record && w.tried == v.tried
            && (ShowsOther(h, durable, a) ==>
                  Polled(h, w, durable, durable.(verified := false, status := StatusUnknown)))
            && (forall s :: Shows(h, durable, a, s) && Reportable(s) ==> Polled(h, w, durable, durable.(status := s)))
  {
  }

  datatype Stop =
    | IdentityUnverified | IdentityDiffers | SubmitDenied | ProjectNotIdentified | SubmitOutcomeUnknown
    | BuildOver | StatusNotKnown | DeadlinePassed | ImageUnusable | NotSaved

  datatype Outcome = Image | Stopped(why: Stop)

  /** What the last reading says about the end of a poll of build b. */
  ghost predicate Concludes(h: Home, b: Build, a: ReadAnswer, stop: Option<Stop>) {
    && (stop.None? <==> Shows(h, b, a, Succeeded))
    && (stop == Some(BuildOver) <==> exists s :: FailedStatus(s) && Shows(h, b, a, s))
    && (stop == Some(IdentityDiffers) <==> ShowsOther(h, b, a))
    && (stop == Some(DeadlinePassed) <==> Shows(h, b, a, Queueing) || Shows(h, b, a, Working))
    && (stop == Some(StatusNotKnown) <==>
          !a.Answer? || exists s :: Shows(h, b, a, s) && s !in {Queueing, Working, Succeeded} && !FailedStatus(s))
  }

  /** What the answer to a submission says of it, if it does not name a build. */
  ghost predicate Denies(h: Home, a: SubmitAnswer, stop: Stop) {
    match a
    case Denied => stop == SubmitDenied
    case ProjectUnidentified => stop == ProjectNotIdentified
    case _ => stop == SubmitOutcomeUnknown && Unidentified(h, a)
  }

  ghost predicate DeniedSince(h: Home, j: seq<Event>, from: nat, stop: Stop) {
    exists k :: from <= k < |j| && j[k].Reported? && Denies(h, j[k].answer, stop)
  }

  /** The poll was of a build just submitted. */
  ghost predicate NewExplained(h: Home, j: seq<Event>, from: nat, stop: Stop) {
    exists b: Build :: b.verified && b.status == Submitted && Explained(h, b, j, from, stop)
  }

  lemma Unproven(h: Home, b: Build, j: seq<Event>)
    requires !b.verified || b.id.None?
    ensures Explained(h, b, j, |j|, IdentityUnverified)
  {
  }

  lemma ExplainedFrom(h: Home, b: Build, j: seq<Event>, since: nat, from: nat, stop: Stop)
    requires since <= from && Explained(h, b, j, from, stop)
    ensures Explained(h, b, j, since, stop)
  {
  }

  /** Why the poll of build b ended without an image: a reading says so, unless it could not begin or took too long. */
  ghost predicate Explained(h: Home, b: Build, j: seq<Event>, from: nat, stop: Stop) {
    || stop in {NotSaved, ProjectNotIdentified, DeadlinePassed}
    || (stop == IdentityUnverified && (!b.verified || b.id.None? || b.project != h.project || b.location != "global"))
    || exists k :: from <= k < |j| && j[k].Read? && Concludes(h, b, j[k].reading, Some(stop))
  }

  /** The image preparation of one component. */
  class Preparer {
    const home: Home
    var build: Option<Build>
    ghost var journal: seq<Event>
    /** How often a save failed. */
    ghost var failures: nat

    /** Memory and the durable record agree, as they do when a run starts. */
    ghost predicate Synced() reads this { Lawful(home, journal) && ViewOf(journal).record == build }

    constructor (home: Home)
      ensures Synced() && journal == [] && build.None? && this.home == home
    {
      this.home := home;
      build := None;
      journal, failures := [], 0;
    }

    /** A new run starts from the durable record, whatever was in memory. */
    method Restart(record: Option<Build>)
      requires Lawful(home, journal) && record == ViewOf(journal).record
      modifies this`build
      ensures Synced()
    {
      build := record;
    }

    method Note(ghost e: Event)
      requires Lawful(home, journal) && Allowed(home, ViewOf(journal), e)
      modifies this`journal
      ensures Lawful(home, journal) && journal == old(journal) + [e] && ViewOf(journal) == Next(ViewOf(old(journal)), e)
      ensures Submissions(journal) == Submissions(old(journal)) + if e.Submission? then 1 else 0
    {
      Extends(home, journal, e);
      journal := journal + [e];
    }

    /** Saving stops the run if it fails, and may have taken effect even then. */
    method Save() returns (ok: bool)
      requires Lawful(home, journal) && build.Some? && Allowed(home, ViewOf(journal), Recorded(build.value))
      modifies this`journal, this`failures
      ensures Lawful(home, journal) && old(journal) <= journal && Submissions(journal) == Submissions(old(journal))
      ensures ok ==> ViewOf(journal) == Next(ViewOf(old(journal)), Recorded(build.value))
      ensures failures == old(failures) + if ok then 0 else 1
    {
      hide Allowed, Next, Lawful, ViewOf, Submissions;
      ok :| true;
      if !ok {
        failures := failures + 1;
      }
      var kept: bool :| true;
      if ok || kept {
        Note(Recorded(build.value));
      }
    }

    /** `submit_build`: a failure may come before or after the submission, and tells nothing about its effect. */
    method Submit() returns (answer: SubmitAnswer)
      requires Lawful(home, journal) && ViewOf(journal).record.Some? && Fresh(ViewOf(journal).record.value)
      requires ViewOf(journal).tried.None? && ViewOf(journal).reported.None?
      modifies this`journal
      ensures Lawful(home, journal) && old(journal) <= journal && Submissions(journal) <= Submissions(old(journal)) + 1
      ensures ViewOf(journal) == ViewOf(old(journal)).(tried := ViewOf(journal).tried, reported := Some(answer))
      ensures answer.Answered? ==> ViewOf(journal).tried.Some?
      ensures answer.ProjectUnidentified? ==> ViewOf(journal).tried.None?
      ensures |journal| > |old(journal)| && journal[|journal| - 1] == Reported(answer)
    {
      hide Lawful, ViewOf, Submissions;
      answer :| true;
      var made: bool :| answer.Answered? ==> made;
      if made && !answer.ProjectUnidentified? {
        var accepted: bool :| true;
        Note(Submission(accepted));
      }
      Note(Reported(answer));
    }

    /** `gcloud builds describe` on the recorded build. */
    method ReadBuild() returns (answer: ReadAnswer)
      requires Lawful(home, journal) && Allowed(home, ViewOf(journal), Read(Unavailable))
      modifies this`journal
      ensures Lawful(home, journal) && journal == old(journal) + [Read(answer)]
      ensures Submissions(journal) == Submissions(old(journal))
      ensures ViewOf(journal) == Next(ViewOf(old(journal)), Read(answer))
    {
      hide Lawful, ViewOf, Submissions, Next;
      answer :| true;
      Note(Read(answer));
    }

    /**
     `poll_build`. `readings` counts the times the build is read; the last one decides how the poll ends, and a status
     is taken over from a response that identifies the build only. A build seen running is given up after 120 readings
     or ten minutes only.
     */
    method Poll() returns (stop: Option<Stop>, ghost readings: nat, ghost waited: nat)
      requires Synced() && build.Some? && !Terminal(build.value) && !Done(build.value)
      modifies this
      ensures Lawful(home, journal) && Submissions(journal) == Submissions(old(journal))
      ensures old(journal) <= journal && |journal| == |old(journal)| + readings && readings <= 120
      ensures readings > 0 ==>
        journal[|journal| - 1].Read? && Concludes(home, old(build.value), journal[|journal| - 1].reading, stop)
      ensures readings == 0 ==> stop in {Some(IdentityUnverified), Some(ProjectNotIdentified), Some(DeadlinePassed)}
      ensures stop == Some(IdentityUnverified) <==>
        var b := old(build.value); !b.verified || b.id.None? || b.project != home.project || b.location != "global"
      ensures stop !in {Some(NotSaved), Some(ImageUnusable)}
      ensures stop == Some(DeadlinePassed) ==> readings == 120 || waited >= 600
      ensures failures == old(failures)
      ensures build.Some? && Polled(home, ViewOf(journal), old(build.value), build.value)
      ensures ViewOf(journal).record == old(build)
      ensures stop.None? ==> Done(build.value)
      ensures stop == Some(BuildOver) <==> FailedStatus(build.value.status)
      ensures build.value.verified <==> old(build.value.verified) && stop != Some(IdentityDiffers)
    {
      hide Lawful, ViewOf, FailedStatus, Allowed, Polled, Identifies, Submissions, Concludes, Next;
      readings, waited := 0, 0;
      var b := build.value;
      PolledNothing(home, ViewOf(journal), b);
      if !b.verified || b.id.None? || b.project != home.project || b.location != LOCATION {
        return Some(IdentityUnverified), readings, waited;
      }
      UnknownIsPolled(home, b);
      var numbered: bool :| true;
      if !numbered {
        build := Some(b.(status := StatusUnknown));
        return Some(ProjectNotIdentified), readings, waited;
      }
      var clock: nat :| true;
      ghost var start := clock;
      var deadline := clock + POLL_SECONDS;
      for i := 0 to MAX_READS
        invariant clock >= start && failures == old(failures)
        invariant readings == i && |journal| == |old(journal)| + readings
        invariant Lawful(home, journal) && old(journal) <= journal && Submissions(journal) == Submissions(old(journal))
        invariant ViewOf(journal).record == old(build)
        invariant build.Some? && build.value == b.(status := build.value.status) && !FailedStatus(build.value.status)
        invariant Polled(home, ViewOf(journal), b, build.value)
        invariant readings > 0 ==>
          journal[|journal| - 1].Read? && Concludes(home, b, journal[|journal| - 1].reading, Some(DeadlinePassed))
      {
        var now: nat :| now >= clock;
        clock, waited := now, now - start;
        if clock >= deadline {
          break;
        }
        AnswerIsPolled(home, ViewOf(journal), b, Unavailable);
        ghost var v := ViewOf(journal);
        var answer := ReadBuild();
        readings := readings + 1;
        AnswerIsPolled(home, v, b, answer);
        UnreadConcludes(home, b, answer);
        if !answer.Answer? {
          build := Some(b.(status := StatusUnknown));
          return Some(StatusNotKnown), readings, waited;
        }
        var observed := BuildRecord(answer.r, home.project, home.number, b.id);
        ObservedShows(home, b, answer, observed);
        if !observed.verified {
          build := Some(b.(verified := false, status := StatusUnknown));
          return Some(IdentityDiffers), readings, waited;
        }
        var status := if answer.r.Described? && Reportable(answer.r.status) then answer.r.status else StatusUnknown;
        build := Some(b.(status := status));
        ShownConcludes(home, b, answer, status);
        if status == Succeeded {
          return None, readings, waited;
        }
        if FailedStatus(status) {
          return Some(BuildOver), readings, waited;
        }
        if status == StatusUnknown {
          return Some(StatusNotKnown), readings, waited;
        }
        var woken: nat :| woken >= clock;
        clock := woken;
      }
      build := Some(b.(status := StatusUnknown));
      return Some(DeadlinePassed), readings, waited;
    }

    /** Polling, and the record of what it found. */
    method PollAndSave() returns (stop: Option<Stop>)
      requires Synced() && build.Some? && !Terminal(build.value) && !Done(build.value)
      modifies this
      ensures Lawful(home, journal) && old(journal) <= journal && Submissions(journal) == Submissions(old(journal))
      ensures stop.None? ==> Synced() && build.Some? && Done(build.value)
      ensures failures == old(failures) + (if stop == Some(NotSaved) then 1 else 0) && stop != Some(ImageUnusable)
      ensures stop.Some? ==> Explained(home, old(build.value), journal, |old(journal)|, stop.value)
    {
      hide Lawful, ViewOf, Next, Allowed, Polled, Submissions, Concludes, FailedStatus;
      ghost var durable := build.value;
      ghost var readings, waited;
      stop, readings, waited := Poll();
      PolledIsAllowed(home, ViewOf(journal), durable, build.value);
      ghost var polled := journal;
      var saved := Save();
      if readings > 0 && stop.Some? {
        assert journal[|polled| - 1] == polled[|polled| - 1];
        assert journal[|polled| - 1].Read? && Concludes(home, durable, journal[|polled| - 1].reading, Some(stop.value));
      }
      if !saved {
        stop := Some(NotSaved);
      }
    }

    /** The durable intent, the submission, and the record of its answer. */
    method SubmitAndSave() returns (stop: Option<Stop>)
      requires Synced() && (build.None? || Terminal(build.value))
      modifies this
      ensures Lawful(home, journal) && old(journal) <= journal && Submissions(journal) <= Submissions(old(journal)) + 1
      ensures stop != Some(NotSaved) ==> Asked(journal, |old(journal)|)
      ensures failures == old(failures) + (if stop == Some(NotSaved) then 1 else 0) && stop != Some(ImageUnusable)
      ensures stop.Some? && stop != Some(NotSaved) ==>
        DeniedSince(home, journal, |old(journal)|, stop.value)
      ensures stop.None? ==> Synced() && build.Some? && build.value.verified && build.value.status == Submitted
    {
      hide Lawful, ViewOf, Next, Allowed, Submissions, Identifies;
      var intent := Build(home.project, LOCATION, None, false, Submitting);
      StartIsAllowed(home, ViewOf(journal), intent);
      build := Some(intent);
      var saved := Save();
      if !saved {
        return Some(NotSaved);
      }
      var answer := Submit();
      ghost var asked := journal;
      match answer {
        case Answered(r) =>
          var record := BuildRecord(r, home.project, home.number, None);
          build := Some(record);
          stop := if record.verified then None else Some(SubmitOutcomeUnknown);
        case Unreadable =>
          build := Some(intent.(status := SubmitUnknown));
          stop := Some(SubmitOutcomeUnknown);
        case Denied =>
          build := Some(intent.(status := SubmitRejected));
          stop := Some(SubmitDenied);
        case ProjectUnidentified =>
          build := Some(intent.(status := SubmitRejected));
          stop := Some(ProjectNotIdentified);
        case SubmitFailed =>
          build := Some(intent.(status := SubmitUnknown));
          stop := Some(SubmitOutcomeUnknown);
      }
      AnswerIsAllowed(home, ViewOf(journal), build.value);
      saved := Save();
      assert asked[|asked| - 1] == journal[|asked| - 1] == Reported(answer);
      assert stop.Some? ==> Denies(home, answer, stop.value);
      return if saved then stop else Some(NotSaved);
    }

    /** A new build is submitted and polled. */
    method BuildAnew() returns (stop: Option<Stop>)
      requires Synced() && (build.None? || Terminal(build.value))
      modifies this
      ensures Lawful(home, journal) && old(journal) <= journal && Submissions(journal) <= Submissions(old(journal)) + 1
      ensures stop != Some(NotSaved) ==> Asked(journal, |old(journal)|)
      ensures failures == old(failures) + (if stop == Some(NotSaved) then 1 else 0) && stop != Some(ImageUnusable)
      ensures stop.Some? && stop != Some(NotSaved) ==>
        || DeniedSince(home, journal, |old(journal)|, stop.value)
        || NewExplained(home, journal, |old(journal)|, stop.value)
      ensures stop.None? ==> Synced() && build.Some? && Done(build.value)
    {
      hide Lawful, ViewOf, Next, Allowed, Submissions, FailedStatus, Explained, DeniedSince, Asked;
      stop := SubmitAndSave();
      if stop.Some? {
        return;
      }
      SubmittedIsOpen(build.value);
      ghost var asked, submitted := journal, build.value;
      stop := PollAndSave();
      if stop.Some? {
        ExplainedFrom(home, submitted, journal, |old(journal)|, |asked|, stop.value);
      }
      StillAsked(asked, journal, |old(journal)|);
    }

    /**
     `prepare_container`. An open build is polled, never replaced; one whose identity is not proven is not even polled.
     */
    method PrepareContainer() returns (r: Outcome)
      requires Synced()
      modifies this
      ensures Lawful(home, journal) && old(journal) <= journal
      ensures Submissions(journal) <= Submissions(old(journal)) + if old(build.None? || Terminal(build.value)) then 1 else 0
      ensures old(build.None? || Terminal(build.value)) && r != Stopped(NotSaved) ==> Asked(journal, |old(journal)|)
      ensures failures == old(failures) + if r == Stopped(NotSaved) then 1 else 0
      ensures r == Stopped(ImageUnusable) ==> |journal| > 0 && journal[|journal| - 1] == Resolved
      ensures r.Stopped? && r.why !in {NotSaved, ImageUnusable} ==>
        if old(build.None? || Terminal(build.value))
        then DeniedSince(home, journal, |old(journal)|, r.why)
             || NewExplained(home, journal, |old(journal)|, r.why)
        else Explained(home, old(build.value), journal, |old(journal)|, r.why)
      ensures r.Image? ==>
        Synced() && build.Some? && Done(build.value) && |journal| > 0 && journal[|journal| - 1] == Resolved
      ensures old(build.Some? && Done(build.value)) ==> journal == old(journal) + [Resolved] && build == old(build)
      ensures old(build.Some? && !Terminal(build.value) && !build.value.verified) ==>
        r == Stopped(IdentityUnverified) && journal == old(journal) && build == old(build)
    {
      hide Lawful, ViewOf, Next, Allowed, Submissions, Explained, DeniedSince, Asked;
      var stop: Option<Stop> := None;
      DoneIsOpen(build);
      if build.None? || Terminal(build.value) {
        stop := BuildAnew();
      } else if !Done(build.value) {
        if !build.value.verified || build.value.id.None? {
          Unproven(home, build.value, journal);
          return Stopped(IdentityUnverified);
        }
        stop := PollAndSave();
      }
      if stop.Some? {
        return Stopped(stop.value);
      }
      ResolvingIsAllowed(home, ViewOf(journal));
      ghost var polled := journal;
      Note(Resolved);
      if Asked(polled, |old(journal)|) {
        StillAsked(polled, journal, |old(journal)|);
      }
      if * {
        return Stopped(ImageUnusable);
      }
      return Image;
    }
  }

  lemma UnreadConcludes(h: Home, b: Build, a: ReadAnswer)
    ensures !a.Answer? ==> Concludes(h, b, a, Some(StatusNotKnown))
  {
  }

  lemma ObservedShows(h: Home, b: Build, a: ReadAnswer, observed: Build)
    requires b.id.Some? && a.Answer? && observed == BuildRecord(a.r, h.project, h.number, b.id)
    ensures observed.verified ==> Shows(h, b, a, a.r.status) && a.r.Described?
    ensures !observed.verified ==> ShowsOther(h, b, a) && Concludes(h, b, a, Some(IdentityDiffers))
  {
    hide BuildRecord;
  }

  lemma ShownConcludes(h: Home, b: Build, a: ReadAnswer, status: BuildStatus)
    requires b.id.Some? && a.Answer? && a.r.Described? && Shows(h, b, a, a.r.status)
    requires status == if Reportable(a.r.status) then a.r.status else StatusUnknown
    ensures Concludes(h, b, a,
              if status == Succeeded then None else if FailedStatus(status) then Some(BuildOver)
              else if status == StatusUnknown then Some(StatusNotKnown) else Some(DeadlinePassed))
  {
    hide Identifies;
  }

  lemma StartIsAllowed(h: Home, v: View, b: Build)
    requires Starts(v, b)
    ensures Allowed(h, v, Recorded(b))
    ensures Next(v, Recorded(b)) == NOTHING.(record := Some(b))
  {
  }

  lemma AnswerIsAllowed(h: Home, v: View, b: Build)
    requires Answers(h, v, b)
    ensures Allowed(h, v, Recorded(b)) && Next(v, Recorded(b)).record == Some(b)
  {
  }

  lemma DoneIsOpen(b: Option<Build>)
    ensures b.Some? && Done(b.value) ==> !Terminal(b.value)
  {
  }

  lemma SubmittedIsOpen(b: Build)
    requires b.status == Submitted
    ensures !Terminal(b) && !Done(b)
  {
  }

  lemma ResolvingIsAllowed(h: Home, v: View)
    requires v.record.Some? && Done(v.record.value)
    ensures Allowed(h, v, Resolved) && Next(v, Resolved) == v
  {
  }

  // ---- a changed plan -----------------------------------------------------------------------------------------

  /** The components whose image the new plan would build from the source the retained builds were made for. */
  function UsesOldSource(selected: set<Component>, promotion: bool): set<Component> {
    if promotion then {Frontend} * selected else selected
  }

  /** The build may be running still, and the new plan has no image of the component. */
  predicate Unsettled(c: Component, b: Build, receipts: set<Component>) {
    && b.status !in {BuildFailed, InternalError, TimedOut, Cancelled, Expired, SubmitRejected}
    && c !in receipts
  }

  /**
   The loop of `resume_or_validate_reuse` over the builds of a retained checkpoint of another plan. `promotion`: the
   plan is for production and refers to a development release; `receipts`: the components with an applicable receipt.
   The first build that holds the plan up is named.
   */
  method ChangedPlan(builds: seq<(Component, Build)>, selected: set<Component>, promotion: bool,
                     receipts: set<Component>)
    returns (unresolved: Option<Component>)
    ensures !promotion ==>
      (unresolved.None? <==> forall c, b :: (c, b) in builds && c in selected ==> !Unsettled(c, b, receipts))
    ensures promotion ==>
      (unresolved.None? <==> forall b :: (Frontend, b) in builds && Frontend in selected ==> !Unsettled(Frontend, b, receipts))
    ensures unresolved.Some? ==>
      && unresolved.value in selected && (promotion ==> unresolved.value == Frontend)
      && exists i ::
           && 0 <= i < |builds| && builds[i].0 == unresolved.value && Unsettled(builds[i].0, builds[i].1, receipts)
           && forall j :: 0 <= j < i && builds[j].0 in selected && (promotion ==> builds[j].0 == Frontend) ==>
                !Unsettled(builds[j].0, builds[j].1, receipts)
  {
    for i := 0 to |builds|
      invariant forall j :: 0 <= j < i && builds[j].0 in selected && (promotion ==> builds[j].0 == Frontend) ==>
        !Unsettled(builds[j].0, builds[j].1, receipts)
    {
      var (component, build) := builds[i];
      if component !in UsesOldSource(selected, promotion) || Terminal(build) {
        continue;
      }
      if component !in receipts {
        assert (component, build) in builds;
        return Some(component);
      }
    }
    forall c, b | (c, b) in builds && c in selected && (promotion ==> c == Frontend)
      ensures !Unsettled(c, b, receipts) {
      var j :| 0 <= j < |builds| && builds[j] == (c, b);
    }
    return None;
  }

  /** A retained checkpoint holds builds of containers only, so a promotion passes whatever builds are open. */
  method PromotionsPass(builds: seq<(Component, Build)>, selected: set<Component>, receipts: set<Component>)
    returns (unresolved: Option<Component>)
    requires forall c, b :: (c, b) in builds ==> c in {Auth, Bff, DocumentImport}
    ensures unresolved.None?
  {
    unresolved := ChangedPlan(builds, selected, true, receipts);
  }

  /** A build that is running holds up every other plan that uses its component, until there is a receipt. */
  method RunningBuildHoldsUp(c: Component, b: Build, selected: set<Component>, receipts: set<Component>)
    returns (unresolved: Option<Component>)
    requires b.status in {Submitting, SubmitUnknown, Submitted, Queueing, Working, StatusUnknown}
    ensures unresolved == if c in selected && c !in receipts then Some(c) else None
  {
    assert (c, b) in [(c, b)];
    unresolved := ChangedPlan([(c, b)], selected, false, receipts);
  }
}
