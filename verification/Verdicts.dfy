/** The reports that phases leave, in terms of the bare job status, the clock and the request. */
module Verdicts {
  import opened Basics
  import opened Conditions
  import opened Cluster
  import opened Naming
  import opened BuilderJobs
  import opened StatusWriter
  import opened ImagePhase
  import opened Reconcile
  import opened JobFrames
  import opened StatusFrames
  import opened Runs
  import opened Convergence
  import opened CleanUpIsFinal
  import opened Provenance
  import opened ForceBuild

  /** A condition of that kind, status and message is stored. */
  predicate Reads(w: World, kind: Kind, status: Status, message: string)
  {
    var c := Find(w.req.conditions, kind);
    c.Some? && c.value.status == status && c.value.message == message
  }

  // The report on a builder job.

  /** As many successes as the job asks for. */
  predicate Succeeded(j: Job)
  {
    j.completions == Some(j.succeeded)
  }

  /** It asks for some number of successes, does not have it, has failed pods, and says that it has failed for good. */
  predicate FailedForGood(j: Job)
  {
    && j.completions.Some? && !Succeeded(j) && j.failed > 0
    && exists c <- j.conditions :: c.kind == JobFailed && c.status == True
  }

  /** The build timeout is set and has passed since ImageBuilding last changed. */
  predicate Overran(w: World)
  {
    var c := Find(w.req.conditions, ImageBuilding);
    && w.req.content.spec.imageBuildTimeout.Some? && c.Some?
    && c.value.since + w.req.content.spec.imageBuildTimeout.value < w.now
  }

  /** What is reported on the one job that is left. */
  ghost predicate JobVerdict(w: World, job: Job, image: string, r: ImageResult)
  {
    var it := "Image building job " + job.name;
    if Succeeded(job) then
      && r.present && r.end == Done && r.image == image
      && Reads(r.w, ImageBuilding, False, it + " is successed.") && Reads(r.w, ImageExists, True, image)
    else
      && !r.present
      && if FailedForGood(job) then
           r.end == Done && Reads(r.w, ImageBuilding, False, it + " is failed.")
           && Reads(r.w, BentoAvailable, False, it + " is failed.")
         else if Overran(w) then
           r.end == Err("image build timeout") && Reads(r.w, ImageBuilding, False, it + " is timeout")
         else
           && r.end == Done
           && if job.active > 0 then Reads(r.w, ImageBuilding, True, it + " is running")
              else Reads(r.w, ImageBuilding, Unknown, it + " is waiting")
  }

  lemma BuildFlags(job: Job)
    ensures BuildFailed(job) <==> FailedForGood(job)
    ensures BuildRunning(job) <==> !Succeeded(job) && !FailedForGood(job)
    ensures !(Succeeded(job) && FailedForGood(job))
  {
  }

  lemma SuccessReported(w: World, job: Job, image: string, env: Env)
    requires Quiet(env) && Succeeded(job)
    ensures JobVerdict(w, job, image, TrackBuild(w, job, image, env))
  {
    hide Write, Quiet, BuildRunning, BuildFailed, FailedForGood, Overran;
    BuildFlags(job);
    var it := "Image building job " + job.name;
    QuietOk(w, BuildHasSucceeded, SetConditions([
      Report(ImageBuilding, False, it + " is successed."), Report(ImageExists, True, image)]), env);
  }

  lemma FailureReported(w: World, job: Job, image: string, env: Env)
    requires Quiet(env) && FailedForGood(job)
    ensures JobVerdict(w, job, image, TrackBuild(w, job, image, env))
  {
    hide Write, Quiet, BuildRunning, BuildFailed, Overran;
    BuildFlags(job);
    var it := "Image building job " + job.name;
    QuietOk(w, BuildHasFailed, SetConditions([
      Report(ImageBuilding, False, it + " is failed."), Report(BentoAvailable, False, it + " is failed.")]), env);
  }

  lemma ProgressReported(w: World, job: Job, image: string, env: Env)
    requires Quiet(env) && !Succeeded(job) && !FailedForGood(job)
    ensures JobVerdict(w, job, image, TrackBuild(w, job, image, env))
  {
    hide Write, Quiet, BuildRunning, BuildFailed, Succeeded, FailedForGood;
    BuildFlags(job);
    if Overran(w) {
      QuietOk(w, Building, SetConditions([RunningCondition(job), TimeoutCondition(job)]), env);
    } else {
      QuietOk(w, Building, SetConditions([RunningCondition(job)]), env);
    }
  }

  lemma TrackVerdict(w: World, job: Job, image: string, env: Env)
    requires Quiet(env)
    ensures JobVerdict(w, job, image, TrackBuild(w, job, image, env))
  {
    hide JobVerdict, TrackBuild, Quiet, Succeeded, FailedForGood;
    if Succeeded(job) {
      SuccessReported(w, job, image, env);
    } else if FailedForGood(job) {
      FailureReported(w, job, image, env);
    } else {
      ProgressReported(w, job, image, env);
    }
  }

  lemma BuiltVerdict(cfg: Config, w: World, br: Request, image: string, env: Env)
    requires Quiet(env) && SameRequest(br, w.req) && Settled(cfg, w)
    ensures JobVerdict(w, OwnBuilders(cfg, w)[0], image, EnsureBuilt(cfg, w, br, IsSeparateModels(br.content), image, env))
  {
    hide BuilderSelector, NewBuilderJob, TrackBuild, DropStale, IsSeparateModels, List, Quiet, JobVerdict;
    QuietCalls(env);
    var listed := OwnBuilders(cfg, w);
    ListedIs(cfg, w, br);
    assert FirstStale(listed, HashOf(br.content)) == 1;
    assert listed[1..] == [];
    assert DeleteEach(w, [], env) == (w, true);
    TrackVerdict(w, listed[0], image, env);
  }

  /** The registry has been asked in vain, or not asked because a build is forced. */
  lemma AskedInVain(cfg: Config, w: World, image: string, env: Env)
    requires Quiet(env) && Settled(cfg, w) && Unchecked(w, image) && w.req.namespace != ""
    requires BentoImageName(cfg, w.req.namespace, w.req.content, false) == Some(image)
    requires image !in w.registry || Forced(w.req.content)
    ensures exists u: World ::
              && u == w.(req := u.req) && SameRequest(u.req, w.req) && Settled(cfg, u)
              && Find(u.req.conditions, ImageBuilding) == Find(w.req.conditions, ImageBuilding)
              && Reads(u, ImageExists, False, "Image " + image + " is not exists")
              && Reads(u, ImageExistsChecked, False, "Image not exists: " + image)
              && EnsureImageExists(cfg, w, w.req, env) == EnsureBuilt(cfg, u, u.req, IsSeparateModels(u.req.content), image, env)
  {
    hide Write, EnsureBuilt, BentoImageName, Quiet, Builders, Reads, CheckedConditions, IsSeparateModels;
    QuietCalls(env);
    var first := SetConditions([
      Report(ImageExistsChecked, Unknown, image),
      Report(BentoAvailable, Unknown, "Checking image exists")]);
    QuietOk(w, CheckingImage, first, env);
    var s := Write(w, CheckingImage, first, env);
    var second := SetConditions(CheckedConditions(false, image));
    QuietOk(s.w, CheckedImage, second, env);
    var t := Write(s.w, CheckedImage, second, env);
    assert !IsTrue(Find(w.req.conditions, ImageExistsChecked), image) by { UncheckedSays(w, image); }
    SameBuilders(cfg, w, t.w);
    VainReports(w, image, env);
    assert EnsureImageExists(cfg, w, w.req, env) == EnsureBuilt(cfg, t.w, t.w.req, IsSeparateModels(t.w.req.content), image, env);
  }

  lemma CheckReported(w: World, image: string, env: Env)
    requires Quiet(env)
    ensures var t := Write(w, CheckedImage, SetConditions(CheckedConditions(false, image)), env);
            && Find(t.w.req.conditions, ImageBuilding) == Find(w.req.conditions, ImageBuilding)
            && Reads(t.w, ImageExists, False, "Image " + image + " is not exists")
            && Reads(t.w, ImageExistsChecked, False, "Image not exists: " + image)
  {
    hide Write, Quiet;
    QuietOk(w, CheckedImage, SetConditions(CheckedConditions(false, image)), env);
  }

  lemma VainReports(w: World, image: string, env: Env)
    requires Quiet(env)
    ensures var s := Write(w, CheckingImage, SetConditions([
                Report(ImageExistsChecked, Unknown, image),
                Report(BentoAvailable, Unknown, "Checking image exists")]), env);
            var t := Write(s.w, CheckedImage, SetConditions(CheckedConditions(false, image)), env);
            && Find(t.w.req.conditions, ImageBuilding) == Find(w.req.conditions, ImageBuilding)
            && Reads(t.w, ImageExists, False, "Image " + image + " is not exists")
            && Reads(t.w, ImageExistsChecked, False, "Image not exists: " + image)
  {
    hide Write, Quiet, CheckedConditions, Reads;
    var first := SetConditions([
      Report(ImageExistsChecked, Unknown, image),
      Report(BentoAvailable, Unknown, "Checking image exists")]);
    QuietOk(w, CheckingImage, first, env);
    CheckReported(Write(w, CheckingImage, first, env).w, image, env);
  }

  /** What the report on the job leaves of the registry's answer. */
  lemma TrackKeepsAnswer(cfg: Config, w: World, br: Request, image: string, env: Env)
    requires Quiet(env) && SameRequest(br, w.req) && Settled(cfg, w)
    ensures var r := EnsureBuilt(cfg, w, br, IsSeparateModels(br.content), image, env).w;
            && (!Succeeded(OwnBuilders(cfg, w)[0]) ==> Find(r.req.conditions, ImageExists) == Find(w.req.conditions, ImageExists))
            && Find(r.req.conditions, ImageExistsChecked) == Find(w.req.conditions, ImageExistsChecked)
  {
    hide BuilderSelector, NewBuilderJob, TrackBuild, DropStale, IsSeparateModels, List, Quiet, Find;
    QuietCalls(env);
    var listed := OwnBuilders(cfg, w);
    ListedIs(cfg, w, br);
    assert FirstStale(listed, HashOf(br.content)) == 1;
    assert listed[1..] == [];
    assert DeleteEach(w, [], env) == (w, true);
    TrackLeavesAnswer(w, listed[0], image, env);
  }

  lemma TrackLeavesAnswer(w: World, job: Job, image: string, env: Env)
    ensures var r := TrackBuild(w, job, image, env).w;
            && (!Succeeded(job) ==> Find(r.req.conditions, ImageExists) == Find(w.req.conditions, ImageExists))
            && Find(r.req.conditions, ImageExistsChecked) == Find(w.req.conditions, ImageExistsChecked)
  {
    hide TrackBuild, Find;
    if BuildRunning(job) || BuildFailed(job) {
      UnfinishedLeaves(w, job, image, env, ImageExists);
      UnfinishedLeaves(w, job, image, env, ImageExistsChecked);
    } else {
      SucceededLeaves(w, job, image, env);
    }
  }

  lemma SucceededLeaves(w: World, job: Job, image: string, env: Env)
    requires !BuildRunning(job) && !BuildFailed(job)
    ensures Find(TrackBuild(w, job, image, env).w.req.conditions, ImageExistsChecked) == Find(w.req.conditions, ImageExistsChecked)
  {
    hide Write, Find, BuildRunning, BuildFailed;
    WriteLeaves(w, BuildHasSucceeded, [
      Report(ImageBuilding, False, "Image building job " + job.name + " is successed."),
      Report(ImageExists, True, image)], env, ImageExistsChecked);
  }

  /**
   An undisturbed image phase over a request with one current builder job whose image the registry
   does not list, or whose build is forced: the status says so, and reports on the job as its bare
   counters and conditions, the clock and the timeout have it.
   */
  lemma BuildVerdict(cfg: Config, w: World, image: string, env: Env)
    requires Quiet(env) && Settled(cfg, w) && Unchecked(w, image) && w.req.namespace != ""
    requires BentoImageName(cfg, w.req.namespace, w.req.content, false) == Some(image)
    requires image !in w.registry || Forced(w.req.content)
    ensures var r := EnsureImageExists(cfg, w, w.req, env);
            && JobVerdict(w, OwnBuilders(cfg, w)[0], image, r)
            && Reads(r.w, ImageExistsChecked, False, "Image not exists: " + image)
            && (!r.present ==> Reads(r.w, ImageExists, False, "Image " + image + " is not exists"))
  {
    hide EnsureImageExists, EnsureBuilt, BentoImageName, Quiet, Builders, JobVerdict, IsSeparateModels;
    AskedInVain(cfg, w, image, env);
    var u: World :| && u == w.(req := u.req) && SameRequest(u.req, w.req) && Settled(cfg, u)
              && Find(u.req.conditions, ImageBuilding) == Find(w.req.conditions, ImageBuilding)
              && Reads(u, ImageExists, False, "Image " + image + " is not exists")
              && Reads(u, ImageExistsChecked, False, "Image not exists: " + image)
              && EnsureImageExists(cfg, w, w.req, env) == EnsureBuilt(cfg, u, u.req, IsSeparateModels(u.req.content), image, env);
    SameBuilders(cfg, w, u);
    BuiltVerdict(cfg, u, u.req, image, env);
    TrackKeepsAnswer(cfg, u, u.req, image, env);
    VerdictSame(w, u, OwnBuilders(cfg, w)[0], image, EnsureImageExists(cfg, w, w.req, env));
  }

  lemma VerdictSame(w: World, u: World, job: Job, image: string, r: ImageResult)
    requires u.now == w.now && u.req.content == w.req.content
    requires Find(u.req.conditions, ImageBuilding) == Find(w.req.conditions, ImageBuilding)
    requires JobVerdict(u, job, image, r)
    ensures JobVerdict(w, job, image, r)
    ensures !r.present ==> !Succeeded(job)
  {
    hide Reads;
  }

  // The first pass.

  /** The three conditions that a request starts with. */
  lemma FirstReports(w: World, env: Env)
    requires w.req.conditions == [] && Quiet(env)
    ensures var e := Entry(w, env);
            && e.Some?
            && (forall kind <- [ModelsSeeding, ImageBuilding, ImageExists] ::
                  Reads(e.value, kind, Unknown, "Starting to reconcile BentoRequest"))
            && Reads(e.value, BentoAvailable, Unknown, "Reconciling")
  {
    hide Write, Quiet;
    QuietCalls(env);
    var s := Write(w, Initial, SetConditions(InitialReports), env);
    UndisturbedWrite(w, Initial, SetConditions(InitialReports), env) by { QuietSite(env, Initial); }
    var update := SetConditions([Report(BentoAvailable, Unknown, "Reconciling")]);
    QuietOk(s.w, Reconciling, update, env);
  }
}
