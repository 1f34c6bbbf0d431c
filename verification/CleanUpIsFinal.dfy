/** Once a pass has cleaned up after seeding, no later pass seeds again. */
module CleanUpIsFinal {
  import opened Conditions
  import opened Cluster
  import opened Naming
  import opened StatusWriter
  import opened ImagePhase
  import opened ModelsPhase
  import opened Reconcile
  import opened Listing
  import opened JobFrames
  import opened StatusFrames
  import opened Runs
  import opened BuilderJobs
  import opened Convergence
  import opened Provenance
  import opened Availability
  import opened SeederJobs

  /** The models are recorded as seeded under the request's own message. */
  predicate ModelsDone(cfg: Config, w: World)
  {
    && SeedsModels(w.req.content)
    && Holds(w, ModelsExists, SeededMessage(cfg, w.req.content.spec.models))
  }

  /** No builder job is stale, and there is one. */
  predicate BuildersDone(cfg: Config, w: World)
  {
    OwnBuilders(cfg, w) != [] && StaleCount(cfg, w) == 0
  }

  /** The registry's answer is recorded for the request's image. */
  predicate ImageDone(cfg: Config, w: World)
  {
    match BentoImageName(cfg, w.req.namespace, w.req.content, false)
    case None => false
    case Some(image) => Holds(w, ImageExists, image) && Holds(w, ImageExistsChecked, image)
  }

  /** Nothing is left that could make a pass seed again: neither the models nor the builder jobs are out of date. */
  predicate Cleaned(cfg: Config, w: World)
  {
    ModelsDone(cfg, w) && (ImageDone(cfg, w) || BuildersDone(cfg, w))
  }

  /** The phases find models and image, so they clean up and publish. */
  ghost predicate ReachesCleanUp(cfg: Config, w: World, env: Env)
  {
    && SeedsModels(w.req.content)
    && var models := EnsureModelsExist(cfg, w, w.req, env);
       var image := EnsureImageExists(cfg, models.w, models.br, env);
       && models.present && models.end == Done
       && image.present && image.end == Done
  }

  /** Seeder jobs and claims are among those there were. */
  ghost predicate SeedsNothing(cfg: Config, w: World, w': World)
  {
    && w'.pvcs <= w.pvcs
    && forall j <- Seeders(cfg, w') :: j in w.jobs
  }

  /** Deleting the surplus of current builder jobs leaves the first one, and none that is stale. */
  lemma SurplusDeleted(cfg: Config, w: World, env: Env)
    requires BuildersDone(cfg, w) && Tidy(w)
    ensures BuildersDone(cfg, DeleteEach(w, OwnBuilders(cfg, w)[1..], env).0)
  {
    hide BuilderSelector, IsSeparateModels, DeleteEach, List, Tidy;
    var selector := BuilderSelector(cfg, IsSeparateModels(w.req.content));
    var listed := OwnBuilders(cfg, w);
    var w1 := DeleteEach(w, listed[1..], env).0;
    ListedUnique(w, selector);
    HeadIdIsNew(listed);
    assert listed[0] in listed;
    DeleteEachKeeps(w, listed[1..], env, listed[0]);
    TidyUnique(w);
    DeleteEachLists(w, listed[1..], env, selector);
    assert listed[0] in OwnBuilders(cfg, w1);
    assert forall j <- OwnBuilders(cfg, w1) :: j in listed;
  }

  /** With a current builder job and no stale one, the job step keeps a current one and resets nothing. */
  lemma DoneEnsureBuilt(cfg: Config, w: World, br: Request, image: string, env: Env)
    requires BuildersDone(cfg, w) && Tidy(w) && SameRequest(br, w.req)
    ensures var r := EnsureBuilt(cfg, w, br, IsSeparateModels(br.content), image, env);
            && BuildersDone(cfg, r.w)
            && Find(r.w.req.conditions, ModelsExists) == Find(w.req.conditions, ModelsExists)
  {
    hide TrackBuild, DropStale, NewBuilderJob, IsSeparateModels, DeleteEach, Builders, Tidy, Find, BuilderSelector, List;
    var listed := OwnBuilders(cfg, w);
    NoneStale(listed, HashOf(br.content));
    var w1 := DeleteEach(w, listed[1..], env).0;
    SurplusDeleted(cfg, w, env);
    TrackBuildKeepsModels(w1, listed[0], image, env);
    SameDone(cfg, w1, TrackBuild(w1, listed[0], image, env).w);
    ListedIs(cfg, w, br);
  }

  lemma ListedIs(cfg: Config, w: World, br: Request)
    requires SameRequest(br, w.req)
    ensures List(w.jobs, BuilderSelector(cfg, IsSeparateModels(br.content))) == OwnBuilders(cfg, w)
  {
  }

  lemma NoneStale(jobs: seq<Job>, hash: Hash)
    requires forall j <- jobs :: j.hash == hash
    ensures FirstStale(jobs, hash) == |jobs|
  {
    assert forall k :: 0 <= k < |jobs| ==> jobs[k] in jobs;
  }

  lemma TrackBuildKeepsModels(w: World, job: Job, image: string, env: Env)
    ensures Find(TrackBuild(w, job, image, env).w.req.conditions, ModelsExists) == Find(w.req.conditions, ModelsExists)
  {
    hide Write, RunningCondition, TimeoutCondition, BuildRunning, BuildFailed, TimedOut, Find;
    if BuildRunning(job) || BuildFailed(job) {
      UnfinishedLeaves(w, job, image, env, ModelsExists);
    } else {
      WriteLeaves(w, BuildHasSucceeded, [
        Report(ImageBuilding, False, "Image building job " + job.name + " is successed."),
        Report(ImageExists, True, image)], env, ModelsExists);
    }
  }

  lemma DoneCheckImage(cfg: Config, w: World, image: string, env: Env)
    requires BuildersDone(cfg, w) && Tidy(w)
    ensures var r := CheckImage(cfg, w, IsSeparateModels(w.req.content), image, env);
            && BuildersDone(cfg, r.w)
            && Find(r.w.req.conditions, ModelsExists) == Find(w.req.conditions, ModelsExists)
  {
    hide Write, EnsureBuilt, BuildersDone, Find, Reflects, RegistryReports, IsSeparateModels, Tidy, CheckedConditions;
    hide Holds, SameOwn;
    var s := Write(w, CheckingImage, SetConditions([
      Report(ImageExistsChecked, Unknown, image),
      Report(BentoAvailable, Unknown, "Checking image exists")]), env);
    var found := RegistryReports(s.w, s.br.content, image);
    var t := Write(s.w, CheckedImage, SetConditions(CheckedConditions(found, image)), env);
    CheckingKeepsModels(w, s, t, image, found, env);
    SameDone(cfg, w, s.w);
    SameDone(cfg, w, t.w);
    TidySame(w, t.w);
    if t.ok {
      DoneEnsureBuilt(cfg, t.w, t.br, image, env);
    }
  }

  lemma SameDone(cfg: Config, w: World, w1: World)
    requires BuildersDone(cfg, w) && w1.jobs == w.jobs && w1.req.content == w.req.content
    ensures BuildersDone(cfg, w1)
  {
    SameBuilders(cfg, w, w1);
  }

  lemma CheckingKeepsModels(w: World, s: Written, t: Written, image: string, found: bool, env: Env)
    requires s == Write(w, CheckingImage, SetConditions([
      Report(ImageExistsChecked, Unknown, image),
      Report(BentoAvailable, Unknown, "Checking image exists")]), env)
    requires t == Write(s.w, CheckedImage, SetConditions(CheckedConditions(found, image)), env)
    ensures Find(s.w.req.conditions, ModelsExists) == Find(w.req.conditions, ModelsExists)
    ensures Find(t.w.req.conditions, ModelsExists) == Find(w.req.conditions, ModelsExists)
    ensures t.ok && found ==> Holds(t.w, ImageExists, image) && Holds(t.w, ImageExistsChecked, image)
  {
    hide Write, Holds;
    FoundHolds(s.w, image, env);
  }

  lemma FoundHolds(w: World, image: string, env: Env)
    ensures var t := Write(w, CheckedImage, SetConditions(CheckedConditions(true, image)), env);
            t.ok ==> Holds(t.w, ImageExists, image) && Holds(t.w, ImageExistsChecked, image)
  {
    hide Write;
  }

  lemma DoneImagePhase(cfg: Config, w: World, env: Env)
    requires Cleaned(cfg, w) && Tidy(w)
    ensures Cleaned(cfg, EnsureImageExists(cfg, w, w.req, env).w)
  {
    hide Write, EnsureBuilt, CheckImage, BentoImageName, BuildersDone, Tidy, SeedsModels, SeededMessage, IsSeparateModels;
    var name := BentoImageName(cfg, w.req.namespace, w.req.content, false);
    if BuildersDone(cfg, w) && name.Some? {
      DoneEnsureBuilt(cfg, w, w.req, name.value, env);
      DoneCheckImage(cfg, w, name.value, env);
    }
  }

  lemma DoneFinish(cfg: Config, separateModels: bool, models: ModelsResult, image: ImageResult, env: Env)
    requires Tidy(image.w)
    ensures var r := Finish(cfg, separateModels, models, image, env);
            && (Cleaned(cfg, image.w) ==> Cleaned(cfg, r.w))
            && SeedsNothing(cfg, image.w, r.w)
  {
    hide Finish, Tidy, SeedsModels, SeededMessage, BentoImageName, BuilderSelector, List;
    var r := Finish(cfg, separateModels, models, image, env);
    FinishTruths(cfg, separateModels, models, image, env, ModelsExists);
    FinishTruths(cfg, separateModels, models, image, env, ImageExists);
    FinishTruths(cfg, separateModels, models, image, env, ImageExistsChecked);
    FinishKeepsBuilders(cfg, separateModels, models, image, env, IsSeparateModels(image.w.req.content));
    FinishClaims(cfg, separateModels, models, image, env);
  }

  lemma FinishClaims(cfg: Config, separateModels: bool, models: ModelsResult, image: ImageResult, env: Env)
    ensures Finish(cfg, separateModels, models, image, env).w.pvcs <= image.w.pvcs
  {
    hide Write, CleanUp, Publish;
    CleanUpClaims(cfg, image.w, image.br, image.br.content.spec.models, 0, env);
  }

  lemma {:induction false} CleanUpClaims(cfg: Config, w: World, br: Request, models: seq<Model>, i: nat, env: Env)
    requires i <= |models|
    ensures CleanUp(cfg, w, br, models, i, env).pvcs <= w.pvcs
    decreases |models| - i
  {
    hide SeederLabels, PvcName, DeleteEach, List;
    if i < |models| {
      var tag := models[i].tag;
      var w1 := if env.fails(ListModelSeeders(i)) then w
                else DeleteEach(w, List(w.jobs, SeederLabels(cfg, br.content, tag)), env).0;
      var w2 := if env.fails(DeletePvc(i)) then w1
                else w1.(pvcs := w1.pvcs - {PvcName(cfg, br.namespace, br.content, tag)});
      CleanUpClaims(cfg, w2, br, models, i + 1, env);
    }
  }

  lemma DonePhases(cfg: Config, w: World, env: Env)
    requires Cleaned(cfg, w) && Tidy(w)
    ensures var r := Phases(cfg, w, w.req, env).w;
            Cleaned(cfg, r) && SeedsNothing(cfg, w, r)
  {
    hide EnsureImageExists, Finish, Tidy, Cleaned, SeederSelector, List;
    var models := ModelsResult(w, w.req, true, Done);
    assert EnsureModelsExist(cfg, w, w.req, env) == models && SeedsModels(w.req.content) by {
      AlreadySeeded(cfg, w, env);
    }
    var image := EnsureImageExists(cfg, w, w.req, env);
    DoneImagePhase(cfg, w, env);
    ImagePhaseKeepsSeeders(cfg, w, w.req, env);
    DoneFinish(cfg, IsSeparateModels(w.req.content), models, image, env);
    var r := Phases(cfg, w, w.req, env).w;
    forall j <- Seeders(cfg, r) ensures j in w.jobs {
      assert j in image.w.jobs;
      assert j in Seeders(cfg, image.w);
      assert j in Seeders(cfg, w);
    }
  }

  lemma AlreadySeeded(cfg: Config, w: World, env: Env)
    requires Cleaned(cfg, w)
    ensures EnsureModelsExist(cfg, w, w.req, env) == ModelsResult(w, w.req, true, Done) && SeedsModels(w.req.content)
  {
    hide SeedsModels, SeededMessage, BentoImageName, StaleCount, Write, SeedModels;
  }

  lemma CleanedSame(cfg: Config, w: World, w': World)
    requires Cleaned(cfg, w) && w'.jobs == w.jobs && SameRequest(w'.req, w.req)
    requires forall k: Kind :: k.Foreign? || k == BentoAvailable
               || Find(w'.req.conditions, k) == Find(w.req.conditions, k)
               || Find(w.req.conditions, k).None?
    ensures Cleaned(cfg, w')
  {
    hide SeedsModels, SeededMessage, BentoImageName, BuilderSelector, List;
    assert IsTrue(Find(w.req.conditions, ModelsExists), SeededMessage(cfg, w.req.content.spec.models));
    SameBuilders(cfg, w, w');
  }

  /** A pass over a cleaned-up request leaves it so and makes neither a seeder job nor a claim, whatever fails. */
  lemma PassStaysCleaned(cfg: Config, w: World, env: Env)
    requires Cleaned(cfg, w) && Tidy(w)
    ensures Cleaned(cfg, Pass(cfg, w, env)) && SeedsNothing(cfg, w, Pass(cfg, w, env))
  {
    hide Pass, Phases, Tidy, Write, Cleaned, SeederSelector, List;
    var ran, w1 := Enter(cfg, w, env);
    SameStore(w, w1);
    TidySame(w, w1);
    CleanedSame(cfg, w, w1);
    var r := Pass(cfg, w, env);
    if ran {
      DonePhases(cfg, w1, env);
      var p := Phases(cfg, w1, w1.req, env);
      ConcludedKinds(p, env);
      CleanedSame(cfg, p.w, r);
      assert forall j <- Seeders(cfg, r) :: j in Seeders(cfg, p.w);
    } else {
      CleanedSame(cfg, w1, r);
      assert forall j <- Seeders(cfg, r) :: j in w.jobs;
    }
  }

  lemma ConcludedKinds(r: BodyResult, env: Env)
    ensures forall k: Kind :: k.Foreign? || k == BentoAvailable ||
              Find(Concluded(r, env).req.conditions, k) == Find(r.w.req.conditions, k)
    ensures Concluded(r, env) == r.w.(req := Concluded(r, env).req)
    ensures SameRequest(Concluded(r, env).req, r.w.req)
  {
    hide Write;
  }

  lemma StepStaysCleaned(cfg: Config, w: World, step: Step)
    requires Cleaned(cfg, w) && Tidy(w) && !step.EditContent?
    ensures Cleaned(cfg, Next(cfg, w, step))
    ensures step.PassStep? ==> SeedsNothing(cfg, w, Next(cfg, w, step))
  {
    hide Pass, Tidy, WithForeign, SeedsModels, SeededMessage, BentoImageName, BuilderSelector;
    var selector := BuilderSelector(cfg, IsSeparateModels(w.req.content));
    match step
    case PassStep(env) => PassStaysCleaned(cfg, w, env);
    case Progress(_, _, _, _, _) =>
      ProgressKeepsStale(w.jobs, step, selector, HashOf(w.req.content));
    case Shuffle(order) =>
      if multiset(order) == multiset(w.jobs) {
        ListReordered(w.jobs, order, selector);
        StaleReordered(List(w.jobs, selector), List(order, selector), HashOf(w.req.content));
      }
    case _ =>
  }

  /**
   As long as the request is not edited, no pass of a run that starts cleaned up creates a seeder
   job or a claim, even if publishing the Bento keeps failing and finished jobs change status.
   */
  lemma {:induction false} NeverSeededAgain(cfg: Config, w: World, steps: seq<Step>)
    requires Cleaned(cfg, w) && Tidy(w) && forall s <- steps :: !s.EditContent?
    ensures Cleaned(cfg, Run(cfg, w, steps))
    ensures forall k :: 0 <= k < |steps| && steps[k].PassStep? ==>
              SeedsNothing(cfg, Run(cfg, w, steps[..k]), Run(cfg, w, steps[..k + 1]))
    decreases |steps|
  {
    hide Next, Tidy, Cleaned, SeedsNothing;
    if steps != [] {
      var n := |steps| - 1;
      var before, last := steps[..n], steps[n];
      assert last in steps;
      NeverSeededAgain(cfg, w, before);
      RunTidy(cfg, w, before);
      StepStaysCleaned(cfg, Run(cfg, w, before), last);
      assert steps[..n + 1] == steps;
      forall k | 0 <= k < |steps| && steps[k].PassStep?
        ensures SeedsNothing(cfg, Run(cfg, w, steps[..k]), Run(cfg, w, steps[..k + 1]))
      {
        if k < n {
          assert before[k] == steps[k] && before[..k] == steps[..k] && before[..k + 1] == steps[..k + 1];
        }
      }
    }
  }

  // How a request gets there.

  lemma BuiltIsDone(cfg: Config, w: World, br: Request, image: string, env: Env)
    requires Tidy(w) && SameRequest(br, w.req)
    ensures var r := EnsureBuilt(cfg, w, br, IsSeparateModels(br.content), image, env);
            r.present && r.end == Done ==>
              && BuildersDone(cfg, r.w)
              && Find(r.w.req.conditions, ModelsExists) == Find(w.req.conditions, ModelsExists)
  {
    hide TrackBuild, NewBuilderJob, BuilderSelector, IsSeparateModels, DeleteEach, List, Tidy;
    var r := EnsureBuilt(cfg, w, br, IsSeparateModels(br.content), image, env);
    if r.present {
      var listed := OwnBuilders(cfg, w);
      var hash := HashOf(br.content);
      assert FirstStale(listed, hash) == |listed| && listed != [];
      assert StaleCount(cfg, w) == 0;
      DoneEnsureBuilt(cfg, w, br, image, env);
    }
  }

  lemma PresentIsDone(cfg: Config, w: World, br: Request, env: Env)
    requires Tidy(w) && br == w.req && ModelsDone(cfg, w)
    ensures var r := EnsureImageExists(cfg, w, br, env);
            r.present && r.end == Done ==> Cleaned(cfg, r.w)
  {
    hide Write, EnsureBuilt, CheckImage, BentoImageName, BuildersDone, Tidy, SeedsModels, SeededMessage, IsSeparateModels;
    var name := BentoImageName(cfg, br.namespace, br.content, false);
    if name.Some? {
      BuiltIsDone(cfg, w, br, name.value, env);
      CheckedIsDone(cfg, w, name.value, env);
    }
  }

  lemma CheckedIsDone(cfg: Config, w: World, image: string, env: Env)
    requires Tidy(w)
    ensures var r := CheckImage(cfg, w, IsSeparateModels(w.req.content), image, env);
            r.present && r.end == Done ==>
              && Find(r.w.req.conditions, ModelsExists) == Find(w.req.conditions, ModelsExists)
              && (BuildersDone(cfg, r.w)
                  || (Holds(r.w, ImageExists, image) && Holds(r.w, ImageExistsChecked, image)))
  {
    hide Write, EnsureBuilt, BuildersDone, Reflects, RegistryReports, IsSeparateModels, Tidy, CheckedConditions, Holds;
    var s := Write(w, CheckingImage, SetConditions([
      Report(ImageExistsChecked, Unknown, image),
      Report(BentoAvailable, Unknown, "Checking image exists")]), env);
    var found := RegistryReports(s.w, s.br.content, image);
    var t := Write(s.w, CheckedImage, SetConditions(CheckedConditions(found, image)), env);
    CheckingKeepsModels(w, s, t, image, found, env);
    TidySame(w, t.w);
    if t.ok {
      BuiltIsDone(cfg, t.w, t.br, image, env);
    }
  }

  lemma PhasesLeaveCleaned(cfg: Config, w: World, env: Env)
    requires Tidy(w)
    ensures ReachesCleanUp(cfg, w, env) ==> Cleaned(cfg, Concluded(Phases(cfg, w, w.req, env), env))
  {
    hide EnsureModelsExist, EnsureImageExists, Finish, Tidy, Cleaned, ModelsDone, Concluded, SeedsModels;
    if ReachesCleanUp(cfg, w, env) {
      var models := EnsureModelsExist(cfg, w, w.req, env);
      ModelsPhaseInSync(cfg, w, env);
      ModelsPhaseReports(cfg, w, env);
      ModelsPhaseKeepsBuilders(cfg, w, w.req, env, true);
      assert ModelsDone(cfg, models.w) by { SeededMeansDone(cfg, w, models.w); }
      var image := EnsureImageExists(cfg, models.w, models.br, env);
      PresentIsDone(cfg, models.w, models.br, env);
      ImagePhaseKeepsSeeders(cfg, models.w, models.br, env);
      DoneFinish(cfg, IsSeparateModels(w.req.content), models, image, env);
      var p := Phases(cfg, w, w.req, env);
      ConcludedKinds(p, env);
      CleanedSame(cfg, p.w, Concluded(p, env));
    }
  }

  /** The pass gets to its clean-up. */
  ghost predicate CleansUp(cfg: Config, w: World, env: Env)
  {
    match Entry(w, env)
    case None => false
    case Some(w1) => ReachesCleanUp(cfg, w1, env)
  }

  /** The pass that cleans up leaves the request cleaned up, whether or not it then publishes the Bento. */
  lemma CleanUpLeavesCleaned(cfg: Config, w: World, env: Env)
    requires Tidy(w)
    ensures CleansUp(cfg, w, env) ==> Cleaned(cfg, Pass(cfg, w, env))
  {
    hide Pass, Phases, Tidy, Cleaned, Concluded, Entry, ReachesCleanUp;
    var ran, w1 := Enter(cfg, w, env);
    SameStore(w, w1);
    TidySame(w, w1);
    PhasesLeaveCleaned(cfg, w1, env);
  }

  lemma SeededMeansDone(cfg: Config, w: World, w': World)
    requires SeedsModels(w.req.content) && w'.req.content == w.req.content
    requires Holds(w', ModelsExists, SeededMessage(cfg, w.req.content.spec.models))
    ensures ModelsDone(cfg, w')
  {
  }
}
