/**
 The image of a first-time provisioning: its build is submitted at most once per evidence file, over all runs that share
 the file, and an image is returned only after its build and the registry were read back.
 */
module Provisioning {
  import opened Results
  import opened Wrappers

  datatype BuildState = Submitting | Submitted | Unknown | Verified | Failed

  datatype Reason =
    | NoReason | NoIdentity | IdentityDiffers | NoUniqueDigest | RegistryDiffers | ReadbackFailed | NotTerminal

  /** `id` is a well-formed build identity. */
  datatype BuildEvidence = BuildEvidence(state: BuildState, id: Option<string>, source: string, tag: string, reason: Reason)

  datatype ImageState = NoImage | ImagePending | ImageUnknown | ImageFailed | ImageVerified(reference: string)

  datatype Evidence = Evidence(source: string, build: Option<BuildEvidence>, image: ImageState)

  datatype ProviderStatus = Succeeded | Over | Running

  /** A reading of the build; `digests` are the well-formed digests of its images with the tag. */
  datatype Observation = Observation(id: string, project: string, tag: string, source: string, status: ProviderStatus, digests: seq<string>)

  datatype Answer = CallFailed | NotJson | NoObject | Observed(o: Observation)

  datatype Error =
    | SourceDiffers | NoProvenOperation | ProvenanceDiffers | EarlierMismatch | SubmissionUnknown | StatusUnknown
    | BuildIdentityDiffers | DigestMissing | DigestDiffers | BuildOver | NotFinished | Stopped

  const IMAGE := "llm-wiki-bff-export-job"

  const POLL_SECONDS := 600

  const INTERVAL := 5

  /** The reading is about this build of this source. */
  predicate About(o: Observation, id: string, project: string, tag: string, source: string) {
    o.id == id && o.project == project && o.tag == tag && o.source == source
  }

  class Provisioner {
    const project: string
    const registry: string
    /** What the provisioner holds, what the file holds, and what was submitted since the file exists. */
    var evidence: Evidence
    var file: Evidence
    ghost var submissions: nat
    /** The identity that the last submission reported, and how often a save failed. */
    ghost var named: Option<string>
    ghost var failures: nat

    /** No more than one submission was made, and only after the file said so. */
    ghost predicate Valid() reads this {
      submissions <= if file.build.Some? then 1 else 0
    }

    constructor (project: string, registry: string)
      ensures Valid() && evidence == file == Evidence("", None, NoImage) && submissions == 0
      ensures this.project == project && this.registry == registry
    {
      this.project, this.registry := project, registry;
      evidence := Evidence("", None, NoImage);
      file := Evidence("", None, NoImage);
      submissions, named, failures := 0, None, 0;
    }

    /** A new run reads the file, wherever the run before it stopped. */
    method Load()
      requires Valid()
      modifies this`evidence
      ensures Valid() && evidence == file
    {
      evidence := file;
    }

    /** The file is replaced as a whole; a run that fails to, or stops right after, goes no further. */
    method Save() returns (ok: bool)
      requires Valid() && (file.build.Some? ==> evidence.build.Some?)
      modifies this`file, this`failures
      ensures Valid() && (file == old(file) || file == evidence)
      ensures ok ==> file == evidence
      ensures failures == old(failures) + if ok then 0 else 1
    {
      ok :| true;
      var replaced: bool :| true;
      if ok || replaced {
        file := evidence;
      }
      if !ok {
        failures := failures + 1;
      }
    }

    method Update(b: BuildEvidence) returns (ok: bool)
      requires Valid()
      modifies this`evidence, this`file, this`failures
      ensures Valid() && evidence == old(evidence).(build := Some(b)) && (file == old(file) || file == evidence)
      ensures ok ==> file == evidence
      ensures failures == old(failures) + if ok then 0 else 1
    {
      evidence := evidence.(build := Some(b));
      ok := Save();
    }

    /** A recorded build keeps its identity, source and tag. */
    twostate predicate KeepsBuild()
      reads this
    {
      && old(file.build.Some?) ==>
        && file.build.Some? && file.build.value.source == old(file.build.value.source)
        && file.build.value.tag == old(file.build.value.tag)
        && (old(file.build.value.id.Some?) ==> file.build.value.id == old(file.build.value.id))
    }

    function Tag(sha: string): string { registry + "/" + IMAGE + ":" + sha }

    function Reference(digest: string): string { registry + "/" + IMAGE + "@" + digest }

    /** A recorded build without an identity, given up, of another source or tag, or that once read back differently. */
    predicate Unusable(b: BuildEvidence, source: string, sha: string) {
      || source !in {"", sha} || b.state !in {Verified, Submitted, Unknown} || b.id.None?
      || b.source != sha || b.tag != Tag(sha) || b.reason in {IdentityDiffers, NoUniqueDigest, RegistryDiffers}
    }

    /** The recorded build is unusable whatever source is asked for. */
    predicate GivenUp()
      reads this
    {
      && file.build.Some?
      && var b := file.build.value;
      || b.id.None? || b.state !in {Verified, Submitted, Unknown}
      || b.reason in {IdentityDiffers, NoUniqueDigest, RegistryDiffers}
    }

    /** The endings after which no run over the file returns an image. */
    predicate EndsIt(r: Result<string, Error>) {
      r.Failure? && r.error in {SubmissionUnknown, BuildIdentityDiffers, DigestMissing, DigestDiffers, BuildOver}
    }

    /** What an image returned for a source rests on. */
    ghost predicate Backed(image: string, sha: string, last: Answer, registered: Option<string>) reads this {
      && file.build.Some? && file.build.value.state == Verified && file.image == ImageVerified(image)
      && file.build.value.id.Some? && file.build.value.source == sha && file.build.value.tag == Tag(sha)
      && last.Observed? && last.o.id == file.build.value.id.value && last.o.project == project
      && last.o.source == sha && last.o.tag == registry + "/" + "llm-wiki-bff-export-job" + ":" + sha
      && last.o.status == Succeeded && |last.o.digests| == 1 && registered == Some(last.o.digests[0])
      && image == registry + "/" + "llm-wiki-bff-export-job" + "@" + last.o.digests[0]
    }

    /**
     `build_image`. `last` is the last reading of the build, `registered` what the registry said of the tag. A file that
     records a build is never followed by another submission, and a build that cannot be used is not even read.
     */
    method BuildImage(sha: string) returns (r: Result<string, Error>, ghost readings: nat, ghost last: Answer,
                      ghost registered: Option<string>)
      requires Valid() && evidence == file && sha != ""
      modifies this
      ensures Valid() && old(submissions) <= submissions <= 1 && KeepsBuild()
      ensures old(file.build.Some?) ==> submissions == old(submissions)
      ensures old(file.build.None?) && r != Failure(Stopped) ==>
        submissions == 1 && if named.None? then r == Failure(SubmissionUnknown) else readings > 0 && file.build.value.id == named
      ensures old(file.build.Some? && Unusable(file.build.value, file.source, sha)) ==>
        r.Failure? && readings == 0 && file.build == old(file.build)
      ensures r.Failure? && r.error in {SourceDiffers, NoProvenOperation, ProvenanceDiffers, EarlierMismatch} ==>
        old(file.build.Some? && Unusable(file.build.value, file.source, sha))
      ensures r.Success? ==> Backed(r.value, sha, last, registered)
      ensures r != Failure(Stopped) && old(file.build.Some? && !Unusable(file.build.value, file.source, sha)) ==>
        readings > 0
      ensures readings > 0 ==> EndsWithReading(r, last, registered, sha)
      ensures readings <= if old(file.build.Some? && file.build.value.state == Verified) then 1 else 121
      ensures r == Failure(Stopped) ==> failures > old(failures) || (readings > 0 && last.NoObject?)
      ensures EndsIt(r) ==> GivenUp()
      ensures old(GivenUp()) ==> GivenUp() && r.Failure? && readings == 0 && submissions == old(submissions)
    {
      readings, last, registered := 0, CallFailed, None;
      var tag := Tag(sha);
      var saved;
      if evidence.source == "" {
        evidence := evidence.(source := sha);
        saved := Save();
        if !saved {
          return Failure(Stopped), readings, last, registered;
        }
      }
      if evidence.build.Some? {
        var build := evidence.build.value;
        if evidence.source != sha {
          return Failure(SourceDiffers), readings, last, registered;
        }
        if build.state !in {Verified, Submitted, Unknown} || build.id.None? {
          return Failure(NoProvenOperation), readings, last, registered;
        }
        if build.source != sha || build.tag != tag {
          return Failure(ProvenanceDiffers), readings, last, registered;
        }
        if build.reason in {IdentityDiffers, NoUniqueDigest, RegistryDiffers} {
          return Failure(EarlierMismatch), readings, last, registered;
        }
        ghost var waited;
        r, readings, last, registered, waited := VerifyBuild(sha, build.state != Verified);
        return;
      }
      evidence := evidence.(build := Some(BuildEvidence(Submitting, None, sha, tag, NoReason)), image := ImagePending);
      saved := Save();
      if !saved {
        return Failure(Stopped), readings, last, registered;
      }
      var id := Submit();
      if id.None? {
        evidence := evidence.(image := ImageUnknown);
        saved := Update(evidence.build.value.(state := Unknown, reason := NoIdentity));
        return Failure(if saved then SubmissionUnknown else Stopped), readings, last, registered;
      }
      saved := Update(evidence.build.value.(state := Submitted, id := id));
      if !saved {
        return Failure(Stopped), readings, last, registered;
      }
      ghost var waited;
      r, readings, last, registered, waited := VerifyBuild(sha, true);
    }

    /** The submission; an identity may be found in its output even if it reports a failure. */
    method Submit() returns (id: Option<string>)
      requires submissions == 0 && file.build.Some?
      modifies this`submissions, this`named
      ensures submissions == 1 && named == id
    {
      submissions := submissions + 1;
      id :| true;
      named := id;
    }

    /**
     How the last reading, and what the registry said of the tag, decide: a failed call, another build, a failure, too
     long, and of a success none or several digests, no answer, another digest, or the image. Only a save that failed or
     a reading of no build at all ends it otherwise.
     */
    ghost predicate EndsWithReading(r: Result<string, Error>, last: Answer, registered: Option<string>, sha: string)
      reads this
    {
      && file.build.Some? && file.build.value.id.Some?
      && (r == Failure(Stopped) || match last
          case CallFailed => r == Failure(StatusUnknown)
          case NotJson => r == Failure(StatusUnknown)
          case NoObject => false
          case Observed(o) =>
            if o.id != file.build.value.id.value || o.project != project || o.source != sha || o.tag != Tag(sha)
            then r == Failure(BuildIdentityDiffers)
            else match o.status
              case Over => r == Failure(BuildOver)
              case Running => r == Failure(NotFinished)
              case Succeeded =>
                if |o.digests| != 1 then r == Failure(DigestMissing)
                else if registered.None? then r == Failure(StatusUnknown)
                else if registered.value != o.digests[0] then r == Failure(DigestDiffers)
                else r == Success(Reference(o.digests[0])))
    }

    /** `_verify_build` */
    method VerifyBuild(sha: string, poll: bool)
      returns (r: Result<string, Error>, ghost readings: nat, ghost last: Answer, ghost registered: Option<string>,
               ghost waited: nat)
      requires Valid() && evidence == file && file.build.Some? && file.build.value.id.Some?
      requires file.build.value.source == sha && file.build.value.tag == Tag(sha)
      modifies this`evidence, this`file, this`failures
      ensures Valid() && KeepsBuild() && file.build.Some?
      ensures r.Success? ==> Backed(r.value, sha, last, registered)
      ensures r.Failure? ==> r.error !in {SourceDiffers, NoProvenOperation, ProvenanceDiffers, EarlierMismatch}
      ensures EndsIt(r) ==> GivenUp()
      ensures EndsWithReading(r, last, registered, sha)
      ensures r == Failure(Stopped) ==> failures > old(failures) || last.NoObject?
      ensures 0 < readings <= if poll then 121 else 1
      ensures poll && r == Failure(NotFinished) ==> waited >= 600
    {
      readings, last, registered, waited := 0, CallFailed, None, 0;
      var id := file.build.value.id.value;
      var clock: nat :| true;
      ghost var start := clock;
      var deadline := clock + if poll then POLL_SECONDS else 0;
      while true
        invariant Valid() && evidence == file && file.build.Some? && file.build.value.id == Some(id) && KeepsBuild()
        invariant file.build.value.source == sha && file.build.value.tag == Tag(sha) && failures == old(failures)
        invariant INTERVAL * readings <= clock - start && readings <= if poll then POLL_SECONDS / INTERVAL else 0
        decreases POLL_SECONDS / INTERVAL - readings
      {
        var answer: Answer :| true;
        var now: nat :| now >= clock;
        readings, last, clock, waited := readings + 1, answer, now, now - start;
        var done;
        done, r, registered := Judge(sha, answer, !poll || clock >= deadline);
        if done {
          return;
        }
        var woken: nat :| woken >= clock + INTERVAL;
        clock := woken;
      }
    }

    /** What holds of every ending of the readings. */
    ghost predicate Concluded(r: Result<string, Error>, last: Answer, registered: Option<string>, sha: string)
      reads this
    {
      && EndsWithReading(r, last, registered, sha) && (EndsIt(r) ==> GivenUp())
      && (r.Failure? ==> r.error !in {SourceDiffers, NoProvenOperation, ProvenanceDiffers, EarlierMismatch})
      && (r.Success? ==> Backed(r.value, sha, last, registered))
    }

    /** What a reading leads to, unless it shows a running build and there is time left. */
    method Judge(sha: string, answer: Answer, late: bool)
      returns (done: bool, r: Result<string, Error>, ghost registered: Option<string>)
      requires Valid() && evidence == file && file.build.Some? && file.build.value.id.Some?
      requires file.build.value.source == sha && file.build.value.tag == Tag(sha)
      modifies this`evidence, this`file, this`failures
      ensures Valid() && KeepsBuild() && file.build.Some?
      ensures done ==> Concluded(r, answer, registered, sha)
      ensures done && r == Failure(Stopped) ==> failures > old(failures) || answer.NoObject?
      ensures done && r == Failure(NotFinished) ==> late
      ensures !done ==> !late && evidence == file == old(file) && failures == old(failures)
    {
      hide Backed, Tag;
      var build := evidence.build.value;
      done, registered := true, None;
      var saved;
      match answer {
        case CallFailed =>
          saved := Update(build.(state := Unknown, reason := ReadbackFailed));
          r := Failure(if saved then StatusUnknown else Stopped);
        case NotJson =>
          saved := Update(build.(state := Unknown));
          r := Failure(if saved then StatusUnknown else Stopped);
        case NoObject =>
          r := Failure(Stopped);
        case Observed(o) =>
          if !About(o, build.id.value, project, Tag(sha), sha) {
            saved := Update(build.(state := Unknown, reason := IdentityDiffers));
            return true, Failure(if saved then BuildIdentityDiffers else Stopped), None;
          }
          saved := Save();
          if !saved {
            return true, Failure(Stopped), None;
          }
          match o.status {
            case Succeeded =>
              r, registered := Register(sha, o);
            case Over =>
              evidence := evidence.(image := ImageFailed);
              saved := Update(build.(state := Failed));
              r := Failure(if saved then BuildOver else Stopped);
            case Running =>
              r := Failure(NotFinished);
              if late {
                evidence := evidence.(image := ImageUnknown);
                saved := Update(build.(state := Unknown, reason := NotTerminal));
                r := Failure(if saved then NotFinished else Stopped);
              } else {
                done := false;
              }
          }
      }
    }

    lemma RestsOn(sha: string, o: Observation)
      requires file.build.Some? && file.build.value.id.Some? && file.build.value.source == sha
      requires file.build.value.tag == Tag(sha) && file.build.value.state == Verified
      requires About(o, file.build.value.id.value, project, Tag(sha), sha) && o.status == Succeeded && |o.digests| == 1
      requires file.image == ImageVerified(Reference(o.digests[0]))
      ensures Backed(Reference(o.digests[0]), sha, Observed(o), Some(o.digests[0]))
    {
    }

    /** The digest of a successful build is taken only if it is the one, and the registry has the same for the tag. */
    method Register(sha: string, o: Observation) returns (r: Result<string, Error>, ghost registered: Option<string>)
      requires Valid() && evidence == file && file.build.Some? && file.build.value.id.Some?
      requires file.build.value.source == sha && file.build.value.tag == Tag(sha)
      requires About(o, file.build.value.id.value, project, Tag(sha), sha) && o.status == Succeeded
      modifies this`evidence, this`file, this`failures
      ensures Valid() && KeepsBuild() && file.build.Some?
      ensures r.Success? ==> Backed(r.value, sha, Observed(o), registered)
      ensures r.Failure? ==> r.error !in {SourceDiffers, NoProvenOperation, ProvenanceDiffers, EarlierMismatch}
      ensures EndsIt(r) ==> GivenUp() && r.error in {DigestMissing, DigestDiffers}
      ensures EndsWithReading(r, Observed(o), registered, sha)
      ensures r == Failure(Stopped) ==> failures > old(failures)
    {
      hide Backed, Tag;
      var build := evidence.build.value;
      registered := None;
      var saved;
      if |o.digests| != 1 {
        saved := Update(build.(state := Unknown, reason := NoUniqueDigest));
        return Failure(if saved then DigestMissing else Stopped), registered;
      }
      var found: Option<string> :| true;
      registered := found;
      if found.None? {
        saved := Save();
        return Failure(if saved then StatusUnknown else Stopped), registered;
      }
      if found.value != o.digests[0] {
        saved := Update(build.(state := Unknown, reason := RegistryDiffers));
        return Failure(if saved then DigestDiffers else Stopped), registered;
      }
      evidence := evidence.(image := ImageVerified(Reference(o.digests[0])));
      saved := Update(build.(state := Verified));
      if saved {
        RestsOn(sha, o);
      }
      return if saved then Success(Reference(o.digests[0])) else Failure(Stopped), registered;
    }

    /**
     Any runs over the file, each for some source: one submission in all, and after a run that found the build lost,
     over or different no later one returns an image.
     */
    method Runs(shas: seq<string>) returns (results: seq<Result<string, Error>>)
      requires Valid() && forall s :: s in shas ==> s != ""
      modifies this
      ensures Valid() && submissions <= 1 && |results| == |shas|
      ensures forall i, j :: 0 <= i < j < |results| && EndsIt(results[i]) ==> results[j].Failure?
    {
      results := [];
      for i := 0 to |shas|
        invariant Valid() && |results| == i
        invariant forall k :: 0 <= k < i && EndsIt(results[k]) ==> GivenUp()
        invariant forall k, j :: 0 <= k < j < i && EndsIt(results[k]) ==> results[j].Failure?
      {
        Load();
        assert shas[i] in shas;
        var r, readings, last, registered := BuildImage(shas[i]);
        results := results + [r];
      }
    }
  }
}
