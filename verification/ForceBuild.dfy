/** The annotation that forces a build: the registry then has no say, and otherwise it does. */
module ForceBuild {
  import opened Basics
  import opened Conditions
  import opened Cluster
  import opened Naming
  import opened StatusWriter
  import opened ImagePhase
  import opened JobFrames
  import opened BuilderJobs
  import opened Convergence
  import opened Provenance
  import opened CleanUpIsFinal
  import opened CompareAndSwap
  import opened Outcomes

  /** The annotation yatai.ai/force-build-image is there and says true. */
  predicate Forced(c: Content)
  {
    ForceBuildImage in c.annotations && c.annotations[ForceBuildImage] == "true"
  }

  /** All builder jobs of the request's mode are current, and the first has as many successes as it asks for. */
  predicate JobDone(cfg: Config, w: World)
  {
    var listed := OwnBuilders(cfg, w);
    && listed != [] && (forall j <- listed :: j.hash == HashOf(w.req.content))
    && listed[0].completions == Some(listed[0].succeeded)
  }

  /**
   An undisturbed image phase that has not recorded the registry's answer yet finds the image when its
   builder job is done, and else exactly when the registry lists it and no build is forced.
   */
  lemma ImageIsFoundIff(cfg: Config, w: World, image: string, env: Env)
    requires Quiet(env) && CheckedBacked(w) && Unchecked(w, image)
    requires BentoImageName(cfg, w.req.namespace, w.req.content, false) == Some(image)
    requires w.req.namespace != ""
    ensures EnsureImageExists(cfg, w, w.req, env).present <==>
            JobDone(cfg, w) || (image in w.registry && !Forced(w.req.content))
  {
    hide EnsureImageExists, BentoImageName, Quiet, Builders, CheckedBacked;
    QuietImageIff(cfg, w, image, env);
  }

  /** What the registry's yes leaves: both conditions True for the image, and the jobs alone. */
  lemma ListedImageNeedsNoJob(cfg: Config, w: World, image: string, env: Env)
    requires Quiet(env) && Unchecked(w, image) && w.req.namespace != ""
    requires BentoImageName(cfg, w.req.namespace, w.req.content, false) == Some(image)
    requires image in w.registry && !Forced(w.req.content)
    ensures var r := EnsureImageExists(cfg, w, w.req, env);
            && r.present && r.image == image && r.w.jobs == w.jobs
            && Holds(r.w, ImageExists, image) && Holds(r.w, ImageExistsChecked, image)
  {
    hide Write, EnsureBuilt, BentoImageName, Quiet, Reflects, SameOwn, CheckedConditions, Holds;
    QuietCalls(env);
    var first := SetConditions([
      Report(ImageExistsChecked, Unknown, image),
      Report(BentoAvailable, Unknown, "Checking image exists")]);
    QuietOk(w, CheckingImage, first, env);
    var s := Write(w, CheckingImage, first, env);
    QuietOk(s.w, CheckedImage, SetConditions(CheckedConditions(true, image)), env);
    FoundHolds(s.w, image, env);
    assert !IsTrue(Find(w.req.conditions, ImageExistsChecked), image) by { UncheckedSays(w, image); }
  }

  lemma UncheckedSays(w: World, image: string)
    requires Unchecked(w, image)
    ensures !IsTrue(Find(w.req.conditions, ImageExistsChecked), image)
  {
  }

  /** What its no leads to, and a forced build whatever it says: without a job, one that builds the image. */
  lemma AbsentImageGetsJob(cfg: Config, w: World, image: string, env: Env)
    requires Quiet(env) && Unchecked(w, image) && w.req.namespace != "" && OwnBuilders(cfg, w) == []
    requires BentoImageName(cfg, w.req.namespace, w.req.content, false) == Some(image)
    requires image !in w.registry || Forced(w.req.content)
    ensures var r := EnsureImageExists(cfg, w, w.req, env);
            && !r.present && r.end == Done && |r.w.jobs| == |w.jobs| + 1 && r.w.jobs[..|w.jobs|] == w.jobs
            && var j := r.w.jobs[|w.jobs|];
               && j.image == image && j.completions == Some(1) && j.succeeded == j.failed == j.active == 0 && j.conditions == []
               && OwnBuilders(cfg, r.w) == [j]
  {
    hide Write, EnsureBuilt, BentoImageName, Quiet, Reflects, SameOwn, CheckedConditions, Builders, NewBuilderJob;
    QuietCalls(env);
    var first := SetConditions([
      Report(ImageExistsChecked, Unknown, image),
      Report(BentoAvailable, Unknown, "Checking image exists")]);
    QuietOk(w, CheckingImage, first, env);
    var s := Write(w, CheckingImage, first, env);
    var second := SetConditions(CheckedConditions(false, image));
    QuietOk(s.w, CheckedImage, second, env);
    var t := Write(s.w, CheckedImage, second, env);
    assert !IsTrue(Find(w.req.conditions, ImageExistsChecked), image) by { UncheckedSays(w, image); }
    SameBuilders(cfg, w, t.w);
    CreatesJob(cfg, t.w, t.br, image, env);
  }

  lemma CreatesJob(cfg: Config, w: World, br: Request, image: string, env: Env)
    requires Quiet(env) && SameRequest(br, w.req) && OwnBuilders(cfg, w) == []
    ensures var r := EnsureBuilt(cfg, w, br, IsSeparateModels(br.content), image, env);
            && !r.present && r.end == Done && |r.w.jobs| == |w.jobs| + 1 && r.w.jobs[..|w.jobs|] == w.jobs
            && var j := r.w.jobs[|w.jobs|];
               && j.image == image && j.completions == Some(1) && j.succeeded == j.failed == j.active == 0 && j.conditions == []
               && OwnBuilders(cfg, r.w) == [j]
  {
    hide BuilderSelector, List, DropStale, DeleteEach, TrackBuild, BuilderLabels, Quiet;
    QuietCalls(env);
    ListedIs(cfg, w, br);
    BuildersAfterCreate(cfg, w, br.content, image, IsSeparateModels(br.content));
    var job := NewBuilderJob(cfg, br.content, image, w.nextId);
    assert [] + [job] == [job];
  }

  // With a forced build nothing depends on what the registry lists.

  function With(w: World, registry: set<string>): World
  {
    w.(registry := registry)
  }

  lemma DisturbedIgnores(w: World, edits: seq<ForeignEdit>, registry: set<string>)
    ensures Disturbed(With(w, registry), edits) == With(Disturbed(w, edits), registry)
    ensures Disturbed(w, edits) == w.(req := Disturbed(w, edits).req)
  {
    hide WithForeign;
  }

  lemma SwappedIgnores(w: World, update: Update, edits: seq<ForeignEdit>, registry: set<string>)
    ensures Swapped(With(w, registry), update, edits) == With(Swapped(w, update, edits), registry)
  {
    hide Disturbed, Applied;
    var updated := w.req.(conditions := Applied(update, w.req.conditions, w.now), version := w.req.version + 1);
    DisturbedIgnores(w.(req := updated), edits, registry);
    assert With(w, registry).(req := updated) == With(w.(req := updated), registry);
  }

  lemma {:induction false} AttemptIgnores(
      w: World, site: Site, update: Update, env: Env, i: nat, br: Request, registry: set<string>)
    requires i < 3
    ensures var r := Attempt(w, site, update, env, i, br);
            Attempt(With(w, registry), site, update, env, i, br) == r.(w := With(r.w, registry))
    decreases 3 - i
  {
    hide Attempt, Swapped, Disturbed, Accepted;
    AttemptIs(w, site, update, env, i, br);
    AttemptIs(With(w, registry), site, update, env, i, br);
    SwappedIgnores(w, update, env.foreign(site, 3), registry);
    DisturbedIgnores(w, env.foreign(site, i), registry);
    if i < 2 {
      AttemptIgnores(Disturbed(w, env.foreign(site, i)), site, update, env, i + 1, Local(w, update), registry);
    }
  }

  lemma WriteIgnores(w: World, site: Site, update: Update, env: Env, registry: set<string>)
    ensures var r := Write(w, site, update, env);
            Write(With(w, registry), site, update, env) == r.(w := With(r.w, registry))
  {
    AttemptIgnores(w, site, update, env, 0, EmptyRequest, registry);
  }

  /** The same result, on a store with that registry. */
  function ResultWith(r: ImageResult, registry: set<string>): ImageResult
  {
    r.(w := With(r.w, registry))
  }

  lemma TrackIgnores(w: World, job: Job, image: string, env: Env, registry: set<string>)
    ensures TrackBuild(With(w, registry), job, image, env) == ResultWith(TrackBuild(w, job, image, env), registry)
  {
    hide Write, BuildRunning, BuildFailed, TimedOut, RunningCondition, TimeoutCondition, Reflects, SameOwn, Distinct, Find;
    var message := "Image building job " + job.name + " is failed.";
    WriteIgnores(w, Building, SetConditions([RunningCondition(job), TimeoutCondition(job)]), env, registry);
    WriteIgnores(w, Building, SetConditions([RunningCondition(job)]), env, registry);
    WriteIgnores(w, BuildHasFailed, SetConditions([
      Report(ImageBuilding, False, message), Report(BentoAvailable, False, message)]), env, registry);
    WriteIgnores(w, BuildHasSucceeded, SetConditions([
      Report(ImageBuilding, False, "Image building job " + job.name + " is successed."),
      Report(ImageExists, True, image)]), env, registry);
  }

  lemma {:induction false} DeletesIgnore(w: World, surplus: seq<Job>, env: Env, registry: set<string>)
    ensures var r := DeleteEach(w, surplus, env);
            DeleteEach(With(w, registry), surplus, env) == (With(r.0, registry), r.1)
    decreases |surplus|
  {
    if surplus != [] && !env.fails(DeleteJob(surplus[0].id)) {
      var w1 := w.(jobs := Without(w.jobs, surplus[0].id));
      DeletesIgnore(w1, surplus[1..], env, registry);
      assert With(w, registry).(jobs := Without(w.jobs, surplus[0].id)) == With(w1, registry);
    }
  }

  lemma DropIgnores(w: World, br: Request, job: Job, image: string, env: Env, registry: set<string>)
    ensures DropStale(With(w, registry), br, job, image, env) == ResultWith(DropStale(w, br, job, image, env), registry)
  {
    hide Write;
    var w1 := w.(jobs := Without(w.jobs, job.id));
    WriteIgnores(w1, BuilderStale, ToUnknown("Bento request hash changed, recreating the jobs"), env, registry);
    assert With(w, registry).(jobs := Without(w.jobs, job.id)) == With(w1, registry);
  }

  lemma BuiltIgnores(
      cfg: Config, w: World, br: Request, separateModels: bool, image: string, env: Env, registry: set<string>)
    ensures EnsureBuilt(cfg, With(w, registry), br, separateModels, image, env)
         == ResultWith(EnsureBuilt(cfg, w, br, separateModels, image, env), registry)
  {
    hide TrackBuild, DropStale, DeleteEach, NewBuilderJob, BuilderSelector, List, FirstStale;
    var listed := List(w.jobs, BuilderSelector(cfg, separateModels));
    var stale := FirstStale(listed, HashOf(br.content));
    if env.fails(ListBuilders) {
    } else if stale < |listed| {
      DropIgnores(w, br, listed[stale], image, env, registry);
      assert EnsureBuilt(cfg, w, br, separateModels, image, env) == DropStale(w, br, listed[stale], image, env);
    } else if listed != [] {
      DeletesIgnore(w, listed[1..], env, registry);
      TrackIgnores(DeleteEach(w, listed[1..], env).0, listed[0], image, env, registry);
    }
  }

  lemma CheckIgnores(cfg: Config, w: World, separateModels: bool, image: string, env: Env, registry: set<string>)
    requires Forced(w.req.content)
    ensures CheckImage(cfg, With(w, registry), separateModels, image, env)
         == ResultWith(CheckImage(cfg, w, separateModels, image, env), registry)
  {
    hide Write, EnsureBuilt, CheckedConditions, Reflects, SameOwn;
    var first := SetConditions([
      Report(ImageExistsChecked, Unknown, image),
      Report(BentoAvailable, Unknown, "Checking image exists")]);
    var s := Write(w, CheckingImage, first, env);
    WriteIgnores(w, CheckingImage, first, env, registry);
    if s.ok {
      ForcedAsksNobody(s.w, image, registry);
      var second := SetConditions(CheckedConditions(false, image));
      var t := Write(s.w, CheckedImage, second, env);
      WriteIgnores(s.w, CheckedImage, second, env, registry);
      BuiltIgnores(cfg, t.w, t.br, separateModels, image, env, registry);
    }
  }

  lemma ForcedAsksNobody(w: World, image: string, registry: set<string>)
    requires Forced(w.req.content)
    ensures !RegistryReports(w, w.req.content, image) && !RegistryReports(With(w, registry), w.req.content, image)
  {
  }

  /**
   With a forced build the image phase gives the same result on two stores that differ only in what
   the registry lists, whatever calls fail and whoever else writes.
   */
  lemma ForcedIgnoresRegistry(cfg: Config, w: World, br: Request, env: Env, registry: set<string>)
    requires Forced(w.req.content)
    ensures EnsureImageExists(cfg, With(w, registry), br, env)
         == ResultWith(EnsureImageExists(cfg, w, br, env), registry)
  {
    hide CheckImage, EnsureBuilt, BentoImageName, SecretFits;
    var name := BentoImageName(cfg, br.namespace, br.content, false);
    if name.Some? {
      CheckIgnores(cfg, w, IsSeparateModels(br.content), name.value, env, registry);
      BuiltIgnores(cfg, w, br, IsSeparateModels(br.content), name.value, env, registry);
    }
  }
}
