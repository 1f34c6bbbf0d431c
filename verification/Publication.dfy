/** From the first pass to the announcement: a request that is left alone gets its Bento. */
module Publication {
  import opened Conditions
  import opened Cluster
  import opened Naming
  import opened StatusWriter
  import opened ImagePhase
  import opened ModelsPhase
  import opened Reconcile
  import opened Listing
  import opened JobFrames
  import opened Runs
  import opened BuilderJobs
  import opened Convergence
  import opened Provenance
  import opened Availability
  import opened SeederJobs
  import opened CleanUpIsFinal
  import opened Resets
  import opened Outcomes

  /** Every model has a current seeder job. */
  predicate EachHasJob(cfg: Config, w: World)
  {
    forall t <- Tags(w.req.content.spec.models) :: exists j <- CurrentSeeders(cfg, w) :: DecodedTag(j.labels) == t
  }

  /** The models need nothing but the completion of jobs that are there. */
  predicate Primed(cfg: Config, w: World)
  {
    SeedsModels(w.req.content) ==> ShortCircuits(cfg, w) || EachHasJob(cfg, w)
  }

  /** What is planned covers every later model that has no job yet. */
  lemma {:induction false} PlannedCovers(
      cfg: Config, c: Content, models: seq<Model>, i: nat, seen: set<string>, id: nat, k: nat)
    requires i <= k < |models| && models[k].tag !in seen
    ensures exists j <- Planned(cfg, c, models, i, seen, id) :: j == NewSeederJob(cfg, c, models[k].tag, j.id)
    decreases |models| - i
  {
    hide NewSeederJob;
    var planned := Planned(cfg, c, models, i, seen, id);
    if models[i].tag in seen {
      PlannedCovers(cfg, c, models, i + 1, seen, id, k);
    } else if i == k {
      var job := NewSeederJob(cfg, c, models[i].tag, id);
      NewSeederId(cfg, c, models[i].tag, id);
      assert planned[0] == job;
    } else {
      PlannedCovers(cfg, c, models, i + 1, seen, id + 1, k);
      var j :| j in planned[1..] && j == NewSeederJob(cfg, c, models[k].tag, j.id);
      assert j in planned;
    }
  }

  lemma NewSeederId(cfg: Config, c: Content, tag: string, id: nat)
    ensures NewSeederJob(cfg, c, tag, id).id == id && NewSeederJob(cfg, c, tag, id).hash == HashOf(c)
  {
  }

  /** Seeding what is missing leaves every model with a current job. */
  lemma SeededHasJobs(cfg: Config, before: World, after: World, c: Content)
    requires SeededExactly(cfg, before, after, c) && WellTagged(c) && after.req.content == c
    ensures EachHasJob(cfg, after)
  {
    hide Kept, Planned, DecodedTag, Seeders, NewSeederJob;
    var models := c.spec.models;
    var kept := Kept(Seeders(cfg, before), HashOf(c), Tags(models));
    var seen := DecodedTags(kept);
    var id: nat :| Seeders(cfg, after) == kept + Planned(cfg, c, models, 0, seen, id);
    var planned := Planned(cfg, c, models, 0, seen, id);
    forall t <- Tags(models) ensures exists j <- CurrentSeeders(cfg, after) :: DecodedTag(j.labels) == t {
      var k :| 0 <= k < |models| && Tags(models)[k] == t;
      if t in seen {
        var j :| j in kept && DecodedTag(j.labels) == t;
        assert j in CurrentSeeders(cfg, after);
      } else {
        PlannedCovers(cfg, c, models, 0, seen, id, k);
        var j :| j in planned && j == NewSeederJob(cfg, c, t, j.id);
        NewSeederNames(cfg, c, t, j.id);
        NewSeederId(cfg, c, t, j.id);
        assert j in CurrentSeeders(cfg, after);
      }
    }
  }

  lemma PrimedSame(cfg: Config, w: World, w1: World)
    requires w1.req.content == w.req.content && Seeders(cfg, w1) == Seeders(cfg, w)
    requires Find(w1.req.conditions, ModelsExists) == Find(w.req.conditions, ModelsExists)
    ensures Primed(cfg, w) ==> Primed(cfg, w1)
  {
    hide SeederSelector, List, Kept, DecodedTag, SeededMessage, SeedsModels;
    assert CurrentSeeders(cfg, w1) == CurrentSeeders(cfg, w);
  }

  // One pass.

  lemma KeepsModelsBuilt(cfg: Config, w: World, br: Request, image: string, env: Env)
    requires Tidy(w) && SameRequest(br, w.req) && StaleCount(cfg, w) == 0
    ensures Find(EnsureBuilt(cfg, w, br, IsSeparateModels(br.content), image, env).w.req.conditions, ModelsExists)
         == Find(w.req.conditions, ModelsExists)
  {
    hide NewBuilderJob, BuilderSelector, Tidy, Find, List, TrackBuild, DropStale, IsSeparateModels, DeleteEach;
    ListedIs(cfg, w, br);
    if OwnBuilders(cfg, w) != [] {
      DoneEnsureBuilt(cfg, w, br, image, env);
    }
  }

  lemma KeepsModelsChecked(cfg: Config, w: World, image: string, env: Env)
    requires Tidy(w) && StaleCount(cfg, w) == 0
    ensures Find(CheckImage(cfg, w, IsSeparateModels(w.req.content), image, env).w.req.conditions, ModelsExists)
         == Find(w.req.conditions, ModelsExists)
  {
    hide Write, EnsureBuilt, StaleCount, Find, Reflects, RegistryReports, IsSeparateModels, Tidy, CheckedConditions;
    hide Holds, SameOwn;
    var s := Write(w, CheckingImage, SetConditions([
      Report(ImageExistsChecked, Unknown, image),
      Report(BentoAvailable, Unknown, "Checking image exists")]), env);
    var found := RegistryReports(s.w, s.br.content, image);
    var t := Write(s.w, CheckedImage, SetConditions(CheckedConditions(found, image)), env);
    CheckingKeepsModels(w, s, t, image, found, env);
    SameBuilders(cfg, w, t.w);
    TidySame(w, t.w);
    if t.ok {
      KeepsModelsBuilt(cfg, t.w, t.br, image, env);
    }
  }

  /** Without a stale builder job the image phase leaves what is known about the models alone. */
  lemma ImagePhaseKeepsPrimed(cfg: Config, w: World, env: Env)
    requires Tidy(w) && StaleCount(cfg, w) == 0
    ensures Primed(cfg, w) ==> Primed(cfg, EnsureImageExists(cfg, w, w.req, env).w)
  {
    hide EnsureBuilt, CheckImage, BentoImageName, StaleCount, Find, IsSeparateModels, Tidy, Primed, SeederSelector, List;
    hide SeedsModels, EachHasJob, SecretFits;
    var name := BentoImageName(cfg, w.req.namespace, w.req.content, false);
    if name.Some? {
      KeepsModelsBuilt(cfg, w, w.req, name.value, env);
      KeepsModelsChecked(cfg, w, name.value, env);
    }
    ImagePhaseKeepsSeeders(cfg, w, w.req, env);
    PrimedSame(cfg, w, EnsureImageExists(cfg, w, w.req, env).w);
  }

  /** The end of an undisturbed pass deletes nothing unless it announces the Bento. */
  lemma FinishKeepsPrimed(cfg: Config, separateModels: bool, models: ModelsResult, image: ImageResult, env: Env)
    requires Quiet(env) && NotAvailable(image.w)
    ensures var f := Finish(cfg, separateModels, models, image, env);
            if NotAvailable(f.w) then
              && f.w.jobs == image.w.jobs
              && Find(f.w.req.conditions, ModelsExists) == Find(image.w.req.conditions, ModelsExists)
            else f.end == Done
  {
    hide Write, CleanUp, Publish, Quiet, IsStoredInS3;
    var c := image.br.content;
    var seeds := separateModels && !IsStoredInS3(c);
    QuietPublish(if seeds then CleanUp(cfg, image.w, image.br, c.spec.models, 0, env) else image.w,
                 seeds, image.br, image.image, env);
  }

  lemma PhasesPrime(cfg: Config, w: World, env: Env)
    requires Tidy(w) && Quiet(env) && StaleCount(cfg, w) == 0 && WellTagged(w.req.content) && NotAvailable(w)
    ensures var r := Phases(cfg, w, w.req, env);
            if NotAvailable(r.w) then Primed(cfg, r.w) else r.end == Done
  {
    hide EnsureModelsExist, EnsureImageExists, Finish, Quiet, NotAvailable, Tidy, ShortCircuits, SeededExactly, EachHasJob;
    hide Builders, WellTagged, SeedsModels, SeedersDone, ReportsFailure, Find, SeederSelector, List;
    var c := w.req.content;
    var models := if SeedsModels(c) then EnsureModelsExist(cfg, w, w.req, env)
                  else ModelsResult(w, w.req, false, Done);
    if SeedsModels(c) {
      QuietModelsPhase(cfg, w, env);
      ModelsPhaseKeepsOwn(cfg, w, env);
      ModelsPhaseAnnouncesNothing(cfg, w, env);
      ModelsPhaseKeepsBuilders(cfg, w, w.req, env, true);
      if !ShortCircuits(cfg, w) {
        SeededHasJobs(cfg, w, models.w, c);
      }
    }
    assert Primed(cfg, models.w);
    assert StaleCount(cfg, models.w) == 0;
    ImagePhaseKeepsPrimed(cfg, models.w, env);
    var image := EnsureImageExists(cfg, models.w, models.br, env);
    ImagePhaseAnnouncesNothing(cfg, models.w, models.br, env);
    FinishKeepsPrimed(cfg, IsSeparateModels(c), models, image, env);
    var f := Finish(cfg, IsSeparateModels(c), models, image, env);
    if NotAvailable(f.w) {
      SeedersSame(cfg, image.w, f.w);
      PrimedSame(cfg, image.w, f.w);
    }
  }

  /** An undisturbed pass that finds no stale builder job leaves the models primed, if it does not announce the Bento. */
  lemma PassPrimes(cfg: Config, w: World, env: Env)
    requires Tidy(w) && Distinct(w.req.conditions) && NotAvailable(w)
    requires Quiet(env) && StaleCount(cfg, w) == 0 && WellTagged(w.req.content)
    ensures NotAvailable(Pass(cfg, w, env)) ==> Primed(cfg, Pass(cfg, w, env))
  {
    hide Pass, Phases, Quiet, NotAvailable, Tidy, Builders, WellTagged, Primed, Distinct, Entry, Concluded, Find;
    NotAvailableSays(w);
    var ran, w1 := Enter(cfg, w, env);
    SameStore(w, w1);
    TidySame(w, w1);
    SameBuilders(cfg, w, w1);
    UnknownIsNotAvailable(w1);
    PhasesPrime(cfg, w1, env);
    var r := Phases(cfg, w1, w1.req, env);
    ConcludedPrimed(cfg, r, env);
  }

  lemma ConcludedPrimed(cfg: Config, r: BodyResult, env: Env)
    ensures var w' := Concluded(r, env);
            && (NotAvailable(r.w) && Primed(cfg, r.w) ==> Primed(cfg, w'))
            && (NotAvailable(w') && !NotAvailable(r.w) ==> r.end.Err?)
  {
    hide Write, Primed, SeederSelector, List, EachHasJob, SeedsModels;
    SeedersSame(cfg, r.w, Concluded(r, env));
    PrimedSame(cfg, r.w, Concluded(r, env));
  }

  // Runs.

  /** What everything else in the cluster leaves of it. */
  lemma OtherStepKeepsPrimed(cfg: Config, w: World, step: Step)
    requires !step.PassStep? && !step.EditContent?
    ensures Primed(cfg, w) ==> Primed(cfg, Next(cfg, w, step))
  {
    hide SeederSelector, List, Kept, DecodedTag, SeededMessage, SeedsModels, WithForeign, WithStatus, EachHasJob;
    var w' := Next(cfg, w, step);
    OtherStepKeepsConditions(cfg, w, step);
    if step.Progress? || step.Shuffle? {
      if EachHasJob(cfg, w) {
        StillHasJobs(cfg, w, step);
      }
    } else {
      SeedersSame(cfg, w, w');
      PrimedSame(cfg, w, w');
    }
  }

  lemma OtherStepKeepsConditions(cfg: Config, w: World, step: Step)
    requires !step.PassStep? && !step.EditContent?
    ensures Next(cfg, w, step).req.content == w.req.content
    ensures Find(Next(cfg, w, step).req.conditions, ModelsExists) == Find(w.req.conditions, ModelsExists)
  {
    hide WithForeign;
  }

  /** Neither a status change nor another order takes a model its job. */
  lemma StillHasJobs(cfg: Config, w: World, step: Step)
    requires (step.Progress? || step.Shuffle?) && EachHasJob(cfg, w)
    ensures EachHasJob(cfg, Next(cfg, w, step))
  {
    hide Next, CurrentSeeders, DecodedTag, Tags;
    SameAsked(cfg, w, step);
    forall t <- Tags(w.req.content.spec.models)
      ensures exists j <- CurrentSeeders(cfg, Next(cfg, w, step)) :: DecodedTag(j.labels) == t
    {
      var j :| j in CurrentSeeders(cfg, w) && DecodedTag(j.labels) == t;
      var j' := StillListed(cfg, w, step, j);
    }
  }

  lemma SameAsked(cfg: Config, w: World, step: Step)
    requires step.Progress? || step.Shuffle?
    ensures Next(cfg, w, step).req == w.req
  {
  }

  lemma StillListed(cfg: Config, w: World, step: Step, j: Job) returns (j': Job)
    requires (step.Progress? || step.Shuffle?) && j in CurrentSeeders(cfg, w)
    ensures j' in CurrentSeeders(cfg, Next(cfg, w, step)) && j'.labels == j.labels
  {
    hide Next, CurrentSeeders, Seeders;
    SameAsked(cfg, w, step);
    CurrentIsListed(cfg, w, j);
    if step.Progress? {
      j' := ProgressListed(cfg, w, step, j);
    } else {
      j' := j;
      ShuffleListed(cfg, w, step, j);
    }
    ListedIsCurrent(cfg, w, j, Next(cfg, w, step), j');
  }

  lemma CurrentIsListed(cfg: Config, w: World, j: Job)
    requires j in CurrentSeeders(cfg, w)
    ensures j in Seeders(cfg, w)
  {
    hide Seeders, DecodedTag;
  }

  lemma ProgressListed(cfg: Config, w: World, step: Step, j: Job) returns (j': Job)
    requires step.Progress? && j in Seeders(cfg, w)
    ensures j' in Seeders(cfg, Next(cfg, w, step)) && j'.labels == j.labels && j'.hash == j.hash
  {
    hide SeederSelector, List, WithStatus;
    j' := UpdatedIsListed(w.jobs, step, SeederSelector(cfg), j);
  }

  lemma UpdatedIsListed(jobs: seq<Job>, step: Step, selector: Labels, j: Job) returns (j': Job)
    requires step.Progress? && j in List(jobs, selector)
    ensures j' in List(WithStatus(jobs, step), selector) && j'.labels == j.labels && j'.hash == j.hash
  {
    hide List, WithStatus, Updated;
    ProgressUpdates(jobs, step, selector);
    var i :| 0 <= i < |List(jobs, selector)| && List(jobs, selector)[i] == j;
    j' := List(WithStatus(jobs, step), selector)[i];
    assert j' == Updated(j, step);
  }

  lemma ShuffleListed(cfg: Config, w: World, step: Step, j: Job)
    requires step.Shuffle? && j in Seeders(cfg, w)
    ensures j in Seeders(cfg, Next(cfg, w, step))
  {
    hide SeederSelector, List;
    if multiset(step.order) == multiset(w.jobs) {
      ListReordered(w.jobs, step.order, SeederSelector(cfg));
      assert j in multiset(List(w.jobs, SeederSelector(cfg)));
      assert j in multiset(List(step.order, SeederSelector(cfg)));
    }
  }

  /** Hash and labels alone decide whether a listed job is current. */
  lemma ListedIsCurrent(cfg: Config, w: World, j: Job, w': World, j': Job)
    requires j in CurrentSeeders(cfg, w) && w'.req.content == w.req.content
    requires j' in Seeders(cfg, w') && j'.labels == j.labels && j'.hash == j.hash
    ensures j' in CurrentSeeders(cfg, w')
  {
    hide Seeders, DecodedTag, Tags;
  }

  /** With enough passes behind it the run has one current builder job, and primed models unless the Bento is out. */
  lemma {:induction false} RunPrimes(cfg: Config, w: World, steps: seq<Step>, image: string)
    requires Converging(cfg, w, image) && Unchecked(w, image) && NotAvailable(w) && WellTagged(w.req.content)
    requires forall s <- steps :: Benign(s, image)
    ensures var r := Run(cfg, w, steps);
            && r.req.content == w.req.content && Converging(cfg, r, image)
            && (PassCount(steps) > StaleCount(cfg, w) ==>
                  Settled(cfg, r) && (NotAvailable(r) ==> Primed(cfg, r)))
    decreases |steps|
  {
    hide Next, Converging, Unchecked, NotAvailable, StaleCount, Settled, Quiet, WellTagged, Primed;
    Advances(cfg, w, steps, image);
    if steps != [] {
      var before, last := steps[..|steps| - 1], steps[|steps| - 1];
      assert last in steps;
      Advances(cfg, w, before, image);
      RunPrimes(cfg, w, before, image);
      var u := Run(cfg, w, before);
      SameContent(cfg, u, last);
      if PassCount(steps) > StaleCount(cfg, w) {
        SettledIsCurrent(cfg, u);
        PrimingStep(cfg, u, last, image);
      }
    }
  }

  lemma SameContent(cfg: Config, w: World, step: Step)
    requires !step.EditContent?
    ensures Next(cfg, w, step).req.content == w.req.content
  {
    hide Pass, WithForeign;
  }

  lemma SettledIsCurrent(cfg: Config, w: World)
    ensures Settled(cfg, w) ==> StaleCount(cfg, w) == 0
  {
    hide BuilderSelector, List;
  }

  lemma PrimingStep(cfg: Config, w: World, step: Step, image: string)
    requires Converging(cfg, w, image) && WellTagged(w.req.content) && Benign(step, image)
    requires if step.PassStep? then StaleCount(cfg, w) == 0 else NotAvailable(w) ==> Primed(cfg, w)
    ensures NotAvailable(Next(cfg, w, step)) ==> Primed(cfg, Next(cfg, w, step))
  {
    hide Pass, NotAvailable, StaleCount, Quiet, WellTagged, Primed, WithForeign, Tidy, Distinct, Absent, HasAffinity;
    hide SecretFits, Published;
    if step.PassStep? {
      if NotAvailable(w) {
        PassPrimes(cfg, w, step.env);
      } else {
        NotAvailableSays(w);
        AvailableAbsorbs(cfg, w, step.env);
      }
    } else {
      OtherStepKeepsPrimed(cfg, w, step);
      OtherStepKeepsPublished(cfg, w, step, w.req.content);
    }
  }

  /** The jobs of the request as it is have completed. */
  predicate JobsCompleted(cfg: Config, w: World)
  {
    && (forall j <- OwnBuilders(cfg, w) :: Completed(j))
    && (forall j <- CurrentSeeders(cfg, w) :: Completed(j))
  }

  lemma CompletedIsReady(cfg: Config, w: World, image: string)
    requires Settled(cfg, w) && Primed(cfg, w) && JobsCompleted(cfg, w)
    requires SecretFits(cfg, w.req.namespace, w.req.content)
    ensures ReadyToPublish(cfg, w, image)
  {
    hide BuilderSelector, SeederSelector, List, Completed, DecodedTag, Kept, SecretFits, SeededMessage, SeedsModels;
    hide RegistryReports, StaleSeeder;
    assert OwnBuilders(cfg, w)[0] in OwnBuilders(cfg, w);
    if EachHasJob(cfg, w) {
      forall t <- Tags(w.req.content.spec.models) ensures t in SucceededTags(CurrentSeeders(cfg, w)) {
        var j :| j in CurrentSeeders(cfg, w) && DecodedTag(j.labels) == t;
      }
    }
  }

  /**
   A request that has no affinity, fits the registry secret and is left alone gets its Bento, models
   seeded or not: after one pass more than there were stale builder jobs there is exactly one
   builder job, and a current seeder job for every model that is not recorded as seeded. Once these
   jobs have completed the next undisturbed pass publishes what the request asks for, unless an
   earlier one announced it already.
   */
  lemma RequestsArePublished(cfg: Config, w: World, steps: seq<Step>, env: Env, image: string)
    requires Converging(cfg, w, image) && Unchecked(w, image) && NotAvailable(w) && CheckedBacked(w)
    requires WellTagged(w.req.content)
    requires (forall s <- steps :: Benign(s, image)) && PassCount(steps) > StaleCount(cfg, w) && Quiet(env)
    ensures var r := Run(cfg, w, steps);
            && Settled(cfg, r) && (NotAvailable(r) ==> Primed(cfg, r))
            && (NotAvailable(r) && JobsCompleted(cfg, r) ==>
                  !NotAvailable(Pass(cfg, r, env)) && Published(cfg, Pass(cfg, r, env), w.req.content))
  {
    hide Pass, Unchecked, NotAvailable, StaleCount, Settled, Quiet, WellTagged, Primed, Published, Tidy, Distinct;
    hide HasAffinity, RegistryReports, BentoImageName, JobsCompleted, ReadyToPublish, SecretFits, CheckedBacked;
    RunPrimes(cfg, w, steps, image);
    CheckedImagesExist(cfg, w, steps);
    var r := Run(cfg, w, steps);
    if NotAvailable(r) && JobsCompleted(cfg, r) {
      CompletedIsReady(cfg, r, image);
      AnnouncesIff(cfg, r, image, env);
    }
  }
}
