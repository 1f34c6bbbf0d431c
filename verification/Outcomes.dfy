/** What undisturbed passes achieve: exactly when one announces the Bento, and what failures look like. */
module Outcomes {
  import opened Basics
  import opened Conditions
  import opened Cluster
  import opened Naming
  import opened StatusWriter
  import opened ImagePhase
  import opened ModelsPhase
  import opened Reconcile
  import opened JobFrames
  import opened StatusFrames
  import opened Runs
  import opened BuilderJobs
  import opened Convergence
  import opened Provenance
  import opened Availability
  import opened SeederJobs
  import opened CleanUpIsFinal
  import opened Resets

  // The models phase.

  /** The listed seeder jobs that are current and name a model of the request. */
  function CurrentSeeders(cfg: Config, w: World): seq<Job>
  {
    Kept(Seeders(cfg, w), HashOf(w.req.content), Tags(w.req.content.spec.models))
  }

  /** Every model has a current seeder job that has completed, and no current one has failed. */
  predicate SeedersDone(cfg: Config, w: World)
  {
    && (forall t <- Tags(w.req.content.spec.models) :: t in SucceededTags(CurrentSeeders(cfg, w)))
    && (forall j <- CurrentSeeders(cfg, w) :: !SeederFailed(j))
  }

  lemma {:induction false} QuietSeeds(
      cfg: Config, w: World, br: Request, models: seq<Model>, i: nat, seen: set<string>, env: Env)
    requires Quiet(env) && i <= |models|
    ensures SeedEach(cfg, w, br, models, i, seen, env).end == Done
    decreases |models| - i
  {
    hide PvcName, NewSeederJob, Quiet;
    QuietCalls(env);
    if i < |models| {
      if models[i].tag in seen {
        QuietSeeds(cfg, w, br, models, i + 1, seen, env);
      } else {
        QuietSeeds(cfg, SeedOne(cfg, w, br, models[i].tag, i, env).w, br, models, i + 1, seen, env);
      }
    }
  }

  /** The phase ends in an error, and reports it as ModelsExists=False. */
  predicate ReportsFailure(r: ModelsResult)
  {
    && r.end.Err?
    && Find(r.w.req.conditions, ModelsExists).Some?
    && Find(r.w.req.conditions, ModelsExists).value.status == False
    && Find(r.w.req.conditions, ModelsExists).value.message == r.end.message
  }

  lemma FailureReport(w: World, message: string, env: Env)
    requires Quiet(env)
    ensures var s := Write(w, ModelsFailed, SetConditions([
              Report(ModelsExists, False, message), Report(BentoAvailable, False, message)]), env);
            var c := Find(s.w.req.conditions, ModelsExists);
            s.ok && c.Some? && c.value.status == False && c.value.message == message
  {
    hide Write, Quiet;
    QuietOk(w, ModelsFailed, SetConditions([
      Report(ModelsExists, False, message), Report(BentoAvailable, False, message)]), env);
  }

  lemma QuietReport(cfg: Config, w: World, br: Request, models: seq<Model>, listed: seq<Job>, env: Env)
    requires Quiet(env)
    ensures var r := ReportSeeding(cfg, w, br, models, listed, env);
            if UnfinishedNames(listed, true) != [] then ReportsFailure(r) && !r.present
            else r.end == Done && (r.present <==> forall t <- Tags(models) :: t in SucceededTags(listed))
  {
    hide Write, Quiet, Join, SeededMessage, UnfinishedNames, SucceededTags, Tags, Find, Reflects, SameOwn;
    QuietCalls(env);
    var failed := UnfinishedNames(listed, true);
    var message := "Model seeder jobs failed: " + Join(failed, ", ")
      + (if env.podsUninitialised then ": no validate HF_TOKEN for seeding huggingface model" else "");
    if failed != [] {
      FailureReport(w, message, env);
    } else if forall t <- Tags(models) :: t in SucceededTags(listed) {
      QuietOk(w, ModelsReady, SetConditions([
        Report(ModelsExists, True, SeededMessage(cfg, models)),
        Report(ModelsSeeding, False, "All models have been seeded.")]), env);
    } else {
      QuietOk(w, ModelsWaiting, SetConditions([
        Report(ModelsSeeding, True,
          "Model seeder jobs are not ready: " + Join(UnfinishedNames(listed, false), ", ") + ".")]), env);
    }
  }

  /** How an undisturbed seeding ends. */
  ghost predicate SeedingEnds(cfg: Config, w: World, r: ModelsResult)
  {
    && SeededExactly(cfg, w, r.w, w.req.content)
    && (r.present <==> SeedersDone(cfg, w))
    && (if exists j <- CurrentSeeders(cfg, w) :: SeederFailed(j) then ReportsFailure(r) else r.end == Done)
  }

  lemma QuietSeedModels(cfg: Config, w: World, br: Request, env: Env)
    requires Tidy(w) && Quiet(env) && br == w.req
    ensures SeedingEnds(cfg, w, SeedModels(cfg, w, br, env))
  {
    hide Prune, SeedEach, ReportSeeding, SeederSelector, Tags, Kept, Planned, DecodedTags, Tidy, List, Quiet, SucceededTags;
    hide SeederFailed, UnfinishedNames, ReportsFailure;
    QuietCalls(env);
    var models := br.content.spec.models;
    var listed := List(w.jobs, SeederSelector(cfg));
    var hash := HashOf(br.content);
    var p := Prune(w, br, listed, hash, Tags(models), {}, env);
    QuietPrunes(w, br, listed, hash, Tags(models), {}, env);
    assert [] + listed == listed;
    TidyUnique(w);
    PruneLists(cfg, w, br, [], listed, hash, Tags(models), {}, env);
    var kept := Kept(listed, hash, Tags(models));
    assert [] + kept == kept;
    SelectedSeeders(cfg, w);
    PruneKeepsBuilders(cfg, w, br, listed, hash, Tags(models), {}, env, true);
    PruneInSync(w, br, listed, hash, Tags(models), {}, env);
    var s := SeedEach(cfg, p.w, p.br, models, 0, p.seen, env);
    QuietSeeds(cfg, p.w, p.br, models, 0, p.seen, env);
    SeedEachLists(cfg, p.w, p.br, models, 0, p.seen, env);
    assert p.seen == DecodedTags(kept);
    var planned := Planned(cfg, br.content, models, 0, p.seen, p.w.nextId);
    PlannedAreFresh(cfg, br.content, models, p.seen, p.w.nextId);
    assert List(s.w.jobs, SeederSelector(cfg)) == kept + planned;
    OnlyKeptMatter(kept, planned);
    QuietReport(cfg, s.w, p.br, models, kept + planned, env);
    var r := SeedModels(cfg, w, br, env);
    assert Seeders(cfg, r.w) == kept + Planned(cfg, br.content, models, 0, DecodedTags(kept), p.w.nextId);
  }

  /**
   An undisturbed models phase succeeds exactly when the models are recorded as seeded or all their
   current jobs have completed; one current job that failed without completing makes it end in an
   error that it reports, whatever else completed, until the record short-circuits it.
   */
  lemma QuietModelsPhase(cfg: Config, w: World, env: Env)
    requires Tidy(w) && Quiet(env)
    ensures var r := EnsureModelsExist(cfg, w, w.req, env);
            && r.br == r.w.req
            && if ShortCircuits(cfg, w) then r == ModelsResult(w, w.req, true, Done) else SeedingEnds(cfg, w, r)
  {
    hide Write, SeedModels, SeededMessage, SeedersDone, Tidy, Quiet, SeederFailed, Kept;
    ModelsPhaseInSync(cfg, w, env);
    var s := Write(w, ModelsNotReady, SetConditions([NotReady]), env);
    QuietOk(w, ModelsNotReady, SetConditions([NotReady]), env);
    TidySame(w, s.w);
    QuietSeedModels(cfg, w, w.req, env);
    QuietSeedModels(cfg, s.w, s.br, env);
    SeedingSame(cfg, w, s.w, SeedModels(cfg, s.w, s.br, env));
  }

  lemma SeedingSame(cfg: Config, w: World, w1: World, r: ModelsResult)
    requires w1.jobs == w.jobs && w1.req.content == w.req.content
    ensures SeedingEnds(cfg, w1, r) ==> SeedingEnds(cfg, w, r)
  {
    hide Kept, SucceededTags, SeederFailed, SeededExactly, ReportsFailure;
    assert CurrentSeeders(cfg, w1) == CurrentSeeders(cfg, w);
    SameExactly(cfg, w, w1, r.w, w.req.content);
  }

  /** One current seeder job that failed without completing ends the phase in an error, whatever else completed. */
  lemma FailedSeederBlocks(cfg: Config, w: World, env: Env, j: Job)
    requires Tidy(w) && Quiet(env) && !ShortCircuits(cfg, w)
    requires j in CurrentSeeders(cfg, w) && SeederFailed(j)
    ensures var r := EnsureModelsExist(cfg, w, w.req, env);
            ReportsFailure(r) && !r.present
  {
    hide EnsureModelsExist, Tidy, Quiet, ShortCircuits, SeederFailed, Kept, ReportsFailure, SeededExactly;
    QuietModelsPhase(cfg, w, env);
  }

  // What the models phase leaves of the claim that the registry has the image.

  lemma {:induction false} QuietPruneClaim(
      w: World, br: Request, listed: seq<Job>, hash: Hash, tags: seq<string>, seen: set<string>, env: Env, image: string)
    requires Quiet(env)
    ensures var w' := Prune(w, br, listed, hash, tags, seen, env).w;
            Unchecked(w', image) <==> Unchecked(w, image) || exists j <- listed :: j.hash != hash
    decreases |listed|
  {
    hide Write, DecodedTag, SameOwn, Quiet, Unchecked;
    if listed != [] {
      QuietCalls(env);
      assert listed == [listed[0]] + listed[1..];
      var job := listed[0];
      var tag := DecodedTag(job.labels);
      var w1 := w.(jobs := Without(w.jobs, job.id));
      SameClaim(w, w1, image);
      if job.hash == hash && tag in tags {
        QuietPruneClaim(w, br, listed[1..], hash, tags, seen + {tag}, env, image);
      } else if job.hash == hash {
        QuietPruneClaim(w1, br, listed[1..], hash, tags, seen, env, image);
      } else {
        var s := Write(w1, SeederStale(job.id), RESET, env);
        QuietOk(w1, SeederStale(job.id), RESET, env);
        ResetUnchecks(w1, SeederStale(job.id), env, image);
        QuietPruneClaim(s.w, s.br, listed[1..], hash, tags, seen, env, image);
      }
    }
  }

  lemma SameClaim(w: World, w1: World, image: string)
    requires Find(w1.req.conditions, ImageExistsChecked) == Find(w.req.conditions, ImageExistsChecked)
    ensures Unchecked(w1, image) <==> Unchecked(w, image)
  {
  }

  lemma ResetUnchecks(w: World, site: Site, env: Env, image: string)
    ensures Write(w, site, RESET, env).ok ==> Unchecked(Write(w, site, RESET, env).w, image)
  {
    hide Write;
  }

  lemma QuietSeedClaim(cfg: Config, w: World, br: Request, env: Env, image: string)
    requires Quiet(env) && br == w.req
    ensures var w' := SeedModels(cfg, w, br, env).w;
            Unchecked(w', image) <==> Unchecked(w, image) || exists j <- Seeders(cfg, w) :: j.hash != HashOf(br.content)
  {
    hide Prune, SeedEach, ReportSeeding, SeederSelector, Tags, List, Quiet, Unchecked;
    QuietCalls(env);
    var models := br.content.spec.models;
    var listed := List(w.jobs, SeederSelector(cfg));
    QuietPruneClaim(w, br, listed, HashOf(br.content), Tags(models), {}, env, image);
    QuietPrunes(w, br, listed, HashOf(br.content), Tags(models), {}, env);
    var p := Prune(w, br, listed, HashOf(br.content), Tags(models), {}, env);
    var s := SeedEach(cfg, p.w, p.br, models, 0, p.seen, env);
    QuietSeeds(cfg, p.w, p.br, models, 0, p.seen, env);
    var t := ReportSeeding(cfg, s.w, p.br, models, List(s.w.jobs, SeederSelector(cfg)), env);
    ReportKeepsOthers(cfg, s.w, p.br, models, List(s.w.jobs, SeederSelector(cfg)), env, ImageExistsChecked);
    SameClaim(p.w, s.w, image);
    SameClaim(s.w, t.w, image);
  }

  /** An undisturbed models phase withdraws the claim exactly when it finds a stale seeder job. */
  lemma QuietModelsClaim(cfg: Config, w: World, env: Env, image: string)
    requires Quiet(env) && SeedsModels(w.req.content)
    ensures Unchecked(EnsureModelsExist(cfg, w, w.req, env).w, image) <==> Unchecked(w, image) || StaleSeeder(cfg, w)
  {
    hide Write, SeedModels, SeededMessage, Quiet, Unchecked, SeederSelector, List, SeedsModels;
    var s := Write(w, ModelsNotReady, SetConditions([NotReady]), env);
    QuietOk(w, ModelsNotReady, SetConditions([NotReady]), env);
    NotReadyKeepsClaim(w, env);
    SameClaim(w, s.w, image);
    QuietSeedClaim(cfg, w, w.req, env, image);
    QuietSeedClaim(cfg, s.w, s.br, env, image);
  }

  lemma NotReadyKeepsClaim(w: World, env: Env)
    ensures Find(Write(w, ModelsNotReady, SetConditions([NotReady]), env).w.req.conditions, ImageExistsChecked)
         == Find(w.req.conditions, ImageExistsChecked)
  {
    hide Write;
  }

  // The image phase.

  /** The builder jobs are all current, and the first of them, which is the one that stays, has completed. */
  predicate Built(cfg: Config, w: World)
  {
    BuildersDone(cfg, w) && Completed(OwnBuilders(cfg, w)[0])
  }

  /** An undisturbed job step finds the image exactly then. */
  lemma QuietBuiltIff(cfg: Config, w: World, br: Request, image: string, env: Env)
    requires Quiet(env) && SameRequest(br, w.req)
    ensures var r := EnsureBuilt(cfg, w, br, IsSeparateModels(br.content), image, env);
            && (r.present <==> Built(cfg, w))
            && (r.present ==> r.end == Done && SameRequest(r.br, w.req))
  {
    hide BuilderSelector, NewBuilderJob, TrackBuild, DropStale, IsSeparateModels, List, Quiet, Completed;
    QuietCalls(env);
    var listed := Builders(cfg, w, IsSeparateModels(br.content));
    assert listed == OwnBuilders(cfg, w);
    if listed != [] && StaleCount(cfg, w) == 0 {
      NoneStale(listed, HashOf(br.content));
      AllDeleted(w, listed[1..], env);
      QuietTrackIff(DeleteEach(w, listed[1..], env).0, listed[0], image, env);
    } else if listed != [] {
      SomeStale(listed, HashOf(br.content));
    }
  }

  lemma SomeStale(jobs: seq<Job>, hash: Hash)
    requires StaleJobs(jobs, hash) != []
    ensures FirstStale(jobs, hash) < |jobs|
  {
    var j :| j in jobs && j.hash != hash;
    var k :| 0 <= k < |jobs| && jobs[k] == j;
    assert FirstStale(jobs, hash) <= k;
  }

  lemma QuietTrackIff(w: World, job: Job, image: string, env: Env)
    requires Quiet(env)
    ensures var r := TrackBuild(w, job, image, env);
            && (r.present <==> Completed(job))
            && (r.present ==> r.end == Done && SameRequest(r.br, w.req))
  {
    hide Write, Quiet, RunningCondition, TimeoutCondition, TimedOut, HasFailedCondition;
    QuietOk(w, BuildHasSucceeded, SetConditions([
      Report(ImageBuilding, False, "Image building job " + job.name + " is successed."),
      Report(ImageExists, True, image)]), env);
  }

  lemma QuietCheckIff(cfg: Config, w: World, image: string, env: Env)
    requires Quiet(env)
    ensures var r := CheckImage(cfg, w, IsSeparateModels(w.req.content), image, env);
            && (r.present <==> RegistryReports(w, w.req.content, image) || Built(cfg, w))
            && (r.present ==> r.end == Done && SameRequest(r.br, w.req))
  {
    hide Write, EnsureBuilt, BuildersDone, Completed, Quiet, RegistryReports, Reflects, SameOwn, IsSeparateModels;
    hide CheckedConditions, Builders;
    QuietCalls(env);
    var first := SetConditions([
      Report(ImageExistsChecked, Unknown, image),
      Report(BentoAvailable, Unknown, "Checking image exists")]);
    QuietOk(w, CheckingImage, first, env);
    var s := Write(w, CheckingImage, first, env);
    SameReports(w, s.w);
    var found := RegistryReports(s.w, s.br.content, image);
    var second := SetConditions(CheckedConditions(found, image));
    QuietOk(s.w, CheckedImage, second, env);
    var t := Write(s.w, CheckedImage, second, env);
    BuiltSame(cfg, w, t.w);
    QuietBuiltIff(cfg, t.w, t.br, image, env);
  }

  lemma BuiltSame(cfg: Config, w: World, w1: World)
    requires w1.req.content == w.req.content
    requires w1.jobs == w.jobs || OwnBuilders(cfg, w1) == OwnBuilders(cfg, w)
    ensures Built(cfg, w1) <==> Built(cfg, w)
  {
  }

  /** The image is there as far as a pass can tell: it is recorded, in the registry, or built. */
  predicate Found(cfg: Config, w: World, image: string)
  {
    Holds(w, ImageExistsChecked, image) || RegistryReports(w, w.req.content, image) || Built(cfg, w)
  }

  /** An undisturbed image phase finds the image exactly then, given a place for the registry secret. */
  lemma QuietImageIff(cfg: Config, w: World, image: string, env: Env)
    requires Quiet(env) && CheckedBacked(w)
    requires BentoImageName(cfg, w.req.namespace, w.req.content, false) == Some(image)
    ensures var r := EnsureImageExists(cfg, w, w.req, env);
            && (r.present <==> SecretFits(cfg, w.req.namespace, w.req.content) && Found(cfg, w, image))
            && (r.present ==> r.end == Done && SameRequest(r.br, w.req))
  {
    hide CheckImage, EnsureBuilt, Built, BentoImageName, Quiet, IsSeparateModels, RegistryReports, SecretFits;
    QuietCalls(env);
    QuietCheckIff(cfg, w, image, env);
  }

  // Whole passes.

  /** The models are not seeded at all, recorded as seeded, or seeded by now. */
  predicate ModelsInPlace(cfg: Config, w: World)
  {
    SeedsModels(w.req.content) ==> ShortCircuits(cfg, w) || SeedersDone(cfg, w)
  }

  /** With everything there an undisturbed pass announces the Bento, and otherwise it does not. */
  lemma QuietFinishIff(cfg: Config, separateModels: bool, models: ModelsResult, image: ImageResult, env: Env)
    requires Quiet(env) && NotAvailable(image.w) && (image.present ==> image.end == Done)
    requires models.present ==> models.end == Done
    ensures var r := Finish(cfg, separateModels, models, image, env);
            && (NotAvailable(r.w) <==>
                  !(image.present && !models.end.Err?
                    && (separateModels && !IsStoredInS3(image.br.content) ==> models.present)))
            && (!NotAvailable(r.w) ==> r.end == Done)
  {
    hide Write, CleanUp, Quiet, Publish, IsStoredInS3;
    var c := image.br.content;
    var seeds := separateModels && !IsStoredInS3(c);
    var w := if seeds then CleanUp(cfg, image.w, image.br, c.spec.models, 0, env) else image.w;
    QuietPublish(w, seeds, image.br, image.image, env);
  }

  lemma QuietPublish(w: World, seeds: bool, br: Request, image: string, env: Env)
    requires Quiet(env)
    ensures var r := Publish(w, seeds, br, image, env);
            r.end == Done && !NotAvailable(r.w)
  {
    hide Write, Quiet, BentoFor, Refreshed;
    QuietCalls(env);
    QuietAnnounce(w, env);
    var bento := BentoFor(br.content, seeds, image);
    QuietAnnounce(w.(bento := Some(bento)), env);
    if w.bento.Some? {
      QuietAnnounce(w.(bento := Some(Refreshed(w.bento.value, bento))), env);
    }
  }

  lemma QuietAnnounce(w: World, env: Env)
    requires Quiet(env)
    ensures Announce(w, env).end == Done && !NotAvailable(Announce(w, env).w)
  {
    hide Write, Quiet;
    QuietOk(w, Available, SetConditions([Report(BentoAvailable, True, "Bento is generated")]), env);
  }

  /** What a pass needs to announce: the image, as it stands after the models phase, and the models. */
  predicate ReadyToPublish(cfg: Config, w: World, image: string)
  {
    && SecretFits(cfg, w.req.namespace, w.req.content) && ModelsInPlace(cfg, w)
    && (|| (Holds(w, ImageExistsChecked, image) && !StaleSeeder(cfg, w))
        || RegistryReports(w, w.req.content, image)
        || Built(cfg, w))
  }

  lemma PhasesPublishIff(cfg: Config, w: World, image: string, env: Env)
    requires Quiet(env) && Tidy(w) && CheckedBacked(w) && NotAvailable(w)
    requires BentoImageName(cfg, w.req.namespace, w.req.content, false) == Some(image)
    ensures var r := Phases(cfg, w, w.req, env);
            && (NotAvailable(r.w) <==> !ReadyToPublish(cfg, w, image))
            && (!NotAvailable(r.w) ==> r.end == Done)
  {
    hide EnsureModelsExist, EnsureImageExists, Finish, BentoImageName, Quiet, CheckedBacked, NotAvailable, Tidy, SecretFits;
    hide Built, RegistryReports, SeededExactly, CurrentSeeders, SucceededTags, SeederFailed, ReportsFailure, ShortCircuits;
    hide Seeders, IsSeparateModels, IsStoredInS3;
    var c := w.req.content;
    var models := if SeedsModels(c) then EnsureModelsExist(cfg, w, w.req, env)
                  else ModelsResult(w, w.req, false, Done);
    if SeedsModels(c) {
      QuietModelsPhase(cfg, w, env);
      QuietModelsClaim(cfg, w, env, image);
      ModelsPhaseBacked(cfg, w, env);
      ModelsPhaseAnnouncesNothing(cfg, w, env);
      ModelsPhaseKeepsOwn(cfg, w, env);
      SameReports(w, models.w);
      BuiltSame(cfg, w, models.w);
    }
    QuietImageIff(cfg, models.w, image, env);
    ImagePhaseAnnouncesNothing(cfg, models.w, models.br, env);
    QuietFinishIff(cfg, IsSeparateModels(c), models, EnsureImageExists(cfg, models.w, models.br, env), env);
  }

  lemma ModelsPhaseKeepsOwn(cfg: Config, w: World, env: Env)
    requires Tidy(w)
    ensures OwnBuilders(cfg, EnsureModelsExist(cfg, w, w.req, env).w) == OwnBuilders(cfg, w)
  {
    hide EnsureModelsExist, Tidy;
    ModelsPhaseKeepsBuilders(cfg, w, w.req, env, IsSeparateModels(w.req.content));
  }

  /** The first writes of a pass touch nothing that publishing depends on. */
  lemma EnteredReady(cfg: Config, w: World, w1: World, image: string)
    requires Entered(w, w1)
    ensures ReadyToPublish(cfg, w1, image) <==> ReadyToPublish(cfg, w, image)
  {
    hide SeederSelector, BuilderSelector, List, SeededMessage, SecretFits, SeedsModels, Kept, SucceededTags, Tags;
    SameStore(w, w1);
    SameReports(w, w1);
    BuiltSame(cfg, w, w1);
    assert Seeders(cfg, w1) == Seeders(cfg, w);
    assert forall kind: Kind, m: string :: !kind.Foreign? && kind != BentoAvailable ==>
             (Holds(w1, kind, m) <==> Holds(w, kind, m));
  }

  /**
   An undisturbed pass over a request that is not available yet announces its Bento exactly when
   image and models are in place, and then publishes what the request asks for.
   */
  lemma AnnouncesIff(cfg: Config, w: World, image: string, env: Env)
    requires Quiet(env) && Tidy(w) && CheckedBacked(w) && Distinct(w.req.conditions) && NotAvailable(w)
    requires BentoImageName(cfg, w.req.namespace, w.req.content, false) == Some(image)
    ensures !NotAvailable(Pass(cfg, w, env)) <==> ReadyToPublish(cfg, w, image)
    ensures ReadyToPublish(cfg, w, image) ==> Published(cfg, Pass(cfg, w, env), w.req.content)
  {
    hide Pass, Phases, BentoImageName, ReadyToPublish, NotAvailable, Published, Distinct, Quiet, Concluded, Tidy, Entry;
    hide CheckedBacked;
    NotAvailableSays(w);
    var ran, w1 := Enter(cfg, w, env);
    SameStore(w, w1);
    EnteredReady(cfg, w, w1, image);
    EnteredTruths(cfg, w, w1, image);
    UnknownIsNotAvailable(w1);
    PhasesPublishIff(cfg, w1, image, env);
    ConcludedAnnounces(Phases(cfg, w1, w1.req, env), env);
    PassPublishes(cfg, w, env);
  }

  lemma ConcludedAnnounces(r: BodyResult, env: Env)
    requires !NotAvailable(r.w) ==> r.end == Done
    ensures NotAvailable(Concluded(r, env)) <==> NotAvailable(r.w)
  {
    hide Write;
  }

  /** A completed current builder job makes an undisturbed pass record the request's image as existing. */
  lemma BuiltIsRecorded(cfg: Config, w: World, image: string, env: Env)
    requires Quiet(env) && Tidy(w) && CheckedBacked(w) && Distinct(w.req.conditions) && NotAvailable(w)
    requires BentoImageName(cfg, w.req.namespace, w.req.content, false) == Some(image)
    requires Built(cfg, w) && SecretFits(cfg, w.req.namespace, w.req.content)
    ensures Holds(Pass(cfg, w, env), ImageExists, image)
  {
    hide Pass, Phases, BentoImageName, NotAvailable, Distinct, Quiet, Concluded, Tidy, Entry, CheckedBacked, SecretFits;
    hide Built, Honest, Witness, Find;
    NotAvailableSays(w);
    var ran, w1 := Enter(cfg, w, env);
    SameStore(w, w1);
    BuiltSame(cfg, w, w1);
    EnteredTruths(cfg, w, w1, image);
    PhasesRecord(cfg, w1, image, env);
    PhasesTruths(cfg, w1, env);
    ConcludedTruths(cfg, Phases(cfg, w1, w1.req, env), env);
  }

  lemma PhasesRecord(cfg: Config, w: World, image: string, env: Env)
    requires Quiet(env) && Tidy(w) && CheckedBacked(w)
    requires BentoImageName(cfg, w.req.namespace, w.req.content, false) == Some(image)
    requires Built(cfg, w) && SecretFits(cfg, w.req.namespace, w.req.content)
    ensures Holds(Phases(cfg, w, w.req, env).w, ImageExists, image)
  {
    hide EnsureModelsExist, EnsureImageExists, Finish, BentoImageName, Quiet, Tidy, SecretFits, CheckedBacked, Find;
    hide Built, RegistryReports, Grounds, SeedingEnds, ShortCircuits;
    var c := w.req.content;
    var models := if SeedsModels(c) then EnsureModelsExist(cfg, w, w.req, env)
                  else ModelsResult(w, w.req, false, Done);
    if SeedsModels(c) {
      QuietModelsPhase(cfg, w, env);
      ModelsPhaseBacked(cfg, w, env);
      ModelsPhaseKeepsOwn(cfg, w, env);
      ModelsPhaseKeepsBuilders(cfg, w, w.req, env, true);
      BuiltSame(cfg, w, models.w);
    }
    QuietImageIff(cfg, models.w, image, env);
    SyncedBacked(models.w);
    ImagePhaseTruths(cfg, models.w, models.br, env, image);
    ImagePhaseKeepsSeeders(cfg, models.w, models.br, env);
    FinishTruths(cfg, IsSeparateModels(c), models, EnsureImageExists(cfg, models.w, models.br, env), env, ImageExists);
  }

  lemma SyncedBacked(w: World)
    requires CheckedBacked(w)
    ensures Backed(w, w.req)
  {
  }

  // A failed build.

  lemma FailedTrack(w: World, job: Job, image: string, env: Env)
    requires Quiet(env) && BuildFailed(job)
    ensures var r := TrackBuild(w, job, image, env);
            && !r.present && r.end == Done
            && Find(r.w.req.conditions, ImageBuilding).Some?
            && Find(r.w.req.conditions, ImageBuilding).value.status == False
  {
    hide Write, Quiet;
    var message := "Image building job " + job.name + " is failed.";
    QuietOk(w, BuildHasFailed, SetConditions([
      Report(ImageBuilding, False, message), Report(BentoAvailable, False, message)]), env);
  }

  /** The phase says that the build has failed, though it ends without an error. */
  predicate SaysFailed(w: World, present: bool, end: End)
  {
    && !present && end == Done
    && Find(w.req.conditions, ImageBuilding).Some? && Find(w.req.conditions, ImageBuilding).value.status == False
  }

  lemma FailedStep(cfg: Config, w: World, br: Request, image: string, env: Env)
    requires Quiet(env) && SameRequest(br, w.req) && Settled(cfg, w) && BuildFailed(OwnBuilders(cfg, w)[0])
    ensures var r := EnsureBuilt(cfg, w, br, IsSeparateModels(br.content), image, env);
            SaysFailed(r.w, r.present, r.end)
  {
    hide BuilderSelector, NewBuilderJob, TrackBuild, DropStale, IsSeparateModels, List, Quiet, BuildFailed;
    QuietCalls(env);
    var listed := OwnBuilders(cfg, w);
    ListedIs(cfg, w, br);
    assert FirstStale(listed, HashOf(br.content)) == 1;
    assert listed[1..] == [];
    assert DeleteEach(w, [], env) == (w, true);
    FailedTrack(w, listed[0], image, env);
  }

  lemma FailedImagePhase(cfg: Config, w: World, image: string, env: Env)
    requires Quiet(env) && Settled(cfg, w) && BuildFailed(OwnBuilders(cfg, w)[0])
    requires Absent(cfg, w, image) && Unchecked(w, image) && SecretFits(cfg, w.req.namespace, w.req.content)
    ensures var r := EnsureImageExists(cfg, w, w.req, env);
            SaysFailed(r.w, r.present, r.end)
  {
    hide Write, EnsureBuilt, Settled, BentoImageName, BuildFailed, Quiet, Builders, IsSeparateModels, SecretFits, Reflects;
    hide CheckedConditions, SameOwn, SaysFailed;
    QuietCalls(env);
    var first := SetConditions([
      Report(ImageExistsChecked, Unknown, image),
      Report(BentoAvailable, Unknown, "Checking image exists")]);
    QuietOk(w, CheckingImage, first, env);
    var s := Write(w, CheckingImage, first, env);
    var second := SetConditions(CheckedConditions(false, image));
    QuietOk(s.w, CheckedImage, second, env);
    var t := Write(s.w, CheckedImage, second, env);
    SameBuilders(cfg, w, t.w);
    FailedStep(cfg, t.w, t.br, image, env);
  }

  lemma FailedFinish(cfg: Config, separateModels: bool, models: ModelsResult, r: ImageResult, env: Env)
    requires Quiet(env) && SaysFailed(r.w, r.present, r.end)
    ensures var f := Finish(cfg, separateModels, models, r, env);
            && SaysFailed(f.w, false, f.end)
            && Find(f.w.req.conditions, BentoAvailable).Some?
            && Find(f.w.req.conditions, BentoAvailable).value.status == Unknown
            && Find(f.w.req.conditions, BentoAvailable).value.message == "Bento image is building"
  {
    hide Write, Quiet;
    QuietOk(r.w, WaitingForImage, SetConditions([Report(BentoAvailable, Unknown, "Bento image is building")]), env);
  }

  /**
   An undisturbed pass over a request whose only builder job, a current one, has failed for good
   says so as ImageBuilding=False, but leaves BentoAvailable at "Bento image is building", which
   overwrites the verdict of the same pass; an error of the models phase is not reported either.
   */
  lemma FailedBuildReadsAsBuilding(cfg: Config, w: World, image: string, env: Env)
    requires Quiet(env) && Tidy(w) && Distinct(w.req.conditions) && NotAvailable(w)
    requires Settled(cfg, w) && BuildFailed(OwnBuilders(cfg, w)[0])
    requires Absent(cfg, w, image) && Unchecked(w, image) && SecretFits(cfg, w.req.namespace, w.req.content)
    ensures var w' := Pass(cfg, w, env);
            && Find(w'.req.conditions, BentoAvailable).Some?
            && Find(w'.req.conditions, BentoAvailable).value.status == Unknown
            && Find(w'.req.conditions, BentoAvailable).value.message == "Bento image is building"
            && Find(w'.req.conditions, ImageBuilding).Some?
            && Find(w'.req.conditions, ImageBuilding).value.status == False
  {
    hide Pass, EnsureModelsExist, EnsureImageExists, Finish, BentoImageName, Settled, NotAvailable, Distinct, Quiet, Entry;
    hide Tidy, Builders, BuildFailed, SecretFits, Find;
    NotAvailableSays(w);
    var ran, w1 := Enter(cfg, w, env);
    SameStore(w, w1);
    SameBuilders(cfg, w, w1);
    EnteredUnchecked(w, w1, image);
    TidySame(w, w1);
    var models := if SeedsModels(w1.req.content) then EnsureModelsExist(cfg, w1, w1.req, env)
                  else ModelsResult(w1, w1.req, false, Done);
    ModelsConverges(cfg, w1, w1.req, env, image);
    ModelsPhaseInSync(cfg, w1, env);
    SettledSame(cfg, w1, models.w);
    FailedImagePhase(cfg, models.w, image, env);
    FailedFinish(cfg, IsSeparateModels(w1.req.content), models, EnsureImageExists(cfg, models.w, models.br, env), env);
  }

  // Resets.

  /** Dropping a stale builder job turns every condition into Unknown with that note, in place. */
  lemma StaleDeleteResets(w: World, br: Request, job: Job, image: string, env: Env)
    requires Quiet(env) && Distinct(w.req.conditions) && forall c <- w.req.conditions :: c.since != 0
    ensures var r := DropStale(w, br, job, image, env);
            && r.w.jobs == Without(w.jobs, job.id) && !r.present && r.end == Done
            && r.w.req.conditions == AllUnknown(w.req.conditions, "Bento request hash changed, recreating the jobs")
  {
    hide Write, Quiet, Undisturbed, AllUnknown, RangeUnknown;
    QuietCalls(env);
    QuietSite(env, BuilderStale);
    var update := ToUnknown("Bento request hash changed, recreating the jobs");
    UndisturbedWrite(w.(jobs := Without(w.jobs, job.id)), BuilderStale, update, env);
    RangeUnknownIsSimultaneous(w.req.conditions, update.message, w.now);
  }

  // An edit that an existing Bento does not show.

  /** Every call succeeds except the first read of the writer that announces the Bento. */
  ghost predicate OnlyAnnouncementFails(env: Env)
  {
    && (forall call: Call :: env.fails(call) <==> call == Fetch(Available, 0))
    && (forall site: Site, attempt: nat :: env.foreign(site, attempt) == [])
  }

  /** The image of a request that seeds no models is recorded as checked and existing. */
  predicate Recorded(cfg: Config, w: World, image: string)
  {
    && !SeedsModels(w.req.content) && SecretFits(cfg, w.req.namespace, w.req.content)
    && BentoImageName(cfg, w.req.namespace, w.req.content, false) == Some(image)
    && Holds(w, ImageExistsChecked, image) && Holds(w, ImageExists, image)
  }

  /** A pass then goes straight to publishing. */
  lemma RecordedPhases(cfg: Config, w: World, image: string, env: Env)
    requires Recorded(cfg, w, image) && !env.fails(GetImageInfo)
    ensures Phases(cfg, w, w.req, env) == Publish(w, false, w.req, image, env)
  {
    hide Publish, EnsureBuilt, CheckImage, BentoImageName, SecretFits, CleanUp, Write;
  }

  lemma RecordedSame(cfg: Config, w: World, w1: World, image: string)
    requires Recorded(cfg, w, image) && w1.req.content == w.req.content && w1.req.namespace == w.req.namespace
    requires forall k: Kind :: k.Foreign? || k == BentoAvailable || Find(w1.req.conditions, k) == Find(w.req.conditions, k)
                               || Find(w.req.conditions, k).None?
    ensures Recorded(cfg, w1, image)
  {
    hide BentoImageName, SecretFits, SeedsModels;
  }

  lemma UnannouncedEntry(w: World, env: Env)
    requires OnlyAnnouncementFails(env) && Distinct(w.req.conditions) && NotAvailable(w) && w.req.conditions != []
    ensures Entry(w, env).Some?
  {
    hide Write, Distinct, Report;
    NotAvailableSays(w);
    UndisturbedWrite(w, Reconciling, SetConditions([Report(BentoAvailable, Unknown, "Reconciling")]), env);
  }

  lemma RecordedHasStatus(cfg: Config, w: World, image: string)
    requires Recorded(cfg, w, image)
    ensures w.req.conditions != []
  {
    hide BentoImageName, SecretFits, SeedsModels;
  }

  /** The pass creates the Bento and then fails to say so. */
  lemma UnannouncedPass(cfg: Config, w: World, image: string, env: Env)
    requires Recorded(cfg, w, image) && Distinct(w.req.conditions) && NotAvailable(w) && w.bento.None?
    requires OnlyAnnouncementFails(env)
    ensures var w' := Pass(cfg, w, env);
            && w'.bento == Some(BentoFor(w.req.content, false, image))
            && Recorded(cfg, w', image) && NotAvailable(w')
  {
    hide Pass, Phases, Write, BentoImageName, Distinct, NotAvailable, Entry, BentoFor, Recorded, OnlyAnnouncementFails;
    RecordedHasStatus(cfg, w, image);
    UnannouncedEntry(w, env);
    var ran, w1 := Enter(cfg, w, env);
    SameStore(w, w1);
    RecordedSame(cfg, w, w1, image);
    UnannouncedPublish(cfg, w1, image, env);
    RecordedSame(cfg, w1, Pass(cfg, w, env), image);
  }

  lemma UnannouncedPublish(cfg: Config, w: World, image: string, env: Env)
    requires Recorded(cfg, w, image) && w.bento.None? && OnlyAnnouncementFails(env)
    ensures var r := Phases(cfg, w, w.req, env);
            var w' := Concluded(r, env);
            && r.end.Err? && w'.bento == Some(BentoFor(w.req.content, false, image)) && SameRequest(w'.req, w.req)
            && NotAvailable(w')
            && forall k: Kind :: k.Foreign? || k == BentoAvailable || Find(w'.req.conditions, k) == Find(w.req.conditions, k)
  {
    hide Phases, Write, BentoFor, Recorded, Publish, NotAvailable;
    RecordedPhases(cfg, w, image, env);
    CreatedOnly(w, w.req, image, env);
    DeferredReport(w.(bento := Some(BentoFor(w.req.content, false, image))), env);
  }

  lemma CreatedOnly(w: World, br: Request, image: string, env: Env)
    requires w.bento.None? && OnlyAnnouncementFails(env)
    ensures Publish(w, false, br, image, env)
         == BodyResult(w.(bento := Some(BentoFor(br.content, false, image))), Err("update status"))
  {
    hide Write, BentoFor;
    NeverWritten(w.(bento := Some(BentoFor(br.content, false, image))), Available,
                 SetConditions([Report(BentoAvailable, True, "Bento is generated")]), env);
  }

  lemma NeverWritten(w: World, site: Site, update: Update, env: Env)
    requires env.fails(Fetch(site, 0))
    ensures Write(w, site, update, env) == Written(w, EmptyRequest, false, false)
  {
  }

  lemma DeferredReport(w: World, env: Env)
    requires Undisturbed(env, Deferred)
    ensures var w' := Write(w, Deferred, SetConditions([Report(BentoAvailable, False, "update status")]), env).w;
            && NotAvailable(w')
            && forall k: Kind :: k.Foreign? || k == BentoAvailable || Find(w'.req.conditions, k) == Find(w.req.conditions, k)
  {
    hide Write;
    UndisturbedWrite(w, Deferred, SetConditions([Report(BentoAvailable, False, "update status")]), env);
  }

  /** An undisturbed pass announces the Bento that is there, with the annotations it has. */
  lemma AnnouncedPass(cfg: Config, w: World, image: string, env: Env)
    requires Recorded(cfg, w, image) && Distinct(w.req.conditions) && NotAvailable(w) && w.bento.Some?
    requires Quiet(env)
    ensures var w' := Pass(cfg, w, env);
            !NotAvailable(w') && w'.bento == Some(Refreshed(w.bento.value, BentoFor(w.req.content, false, image)))
  {
    hide Pass, Phases, Write, BentoImageName, Distinct, NotAvailable, Entry, BentoFor, Recorded, Quiet, Refreshed, Publish;
    NotAvailableSays(w);
    RecordedHasStatus(cfg, w, image);
    var ran, w1 := Enter(cfg, w, env);
    SameStore(w, w1);
    RecordedSame(cfg, w, w1, image);
    QuietCalls(env);
    RecordedPhases(cfg, w1, image, env);
    QuietPublish(w1, false, w1.req, image, env);
    QuietRefresh(w1, false, w1.req, image, env);
    ConcludedAnnounces(Phases(cfg, w1, w1.req, env), env);
  }

  lemma QuietRefresh(w: World, seeds: bool, br: Request, image: string, env: Env)
    requires Quiet(env) && w.bento.Some?
    ensures Publish(w, seeds, br, image, env).w.bento == Some(Refreshed(w.bento.value, BentoFor(br.content, seeds, image)))
  {
    hide Write, Quiet, BentoFor, Refreshed;
    QuietCalls(env);
  }

  /**
   A pass that creates the Bento but cannot announce it, an edit of an annotation, and an undisturbed
   pass end with the announced Bento still carrying the annotation from before the edit.
   */
  lemma EditedAnnotationIsLost(cfg: Config, w: World, first: Env, edited: Content, env: Env, image: string)
    requires Recorded(cfg, w, image) && Distinct(w.req.conditions) && NotAvailable(w) && w.bento.None?
    requires OnlyAnnouncementFails(first) && Quiet(env)
    requires Recorded(cfg, w.(req := w.req.(content := edited)), image)
    requires IsStoredInS3(edited) != IsStoredInS3(w.req.content)
    ensures var r := Run(cfg, w, [PassStep(first), EditContent(edited), PassStep(env)]);
            && !NotAvailable(r) && r.req.content == edited
            && r.bento.Some? && r.bento.value.storedInS3 != IsStoredInS3(r.req.content)
  {
    hide Pass, Distinct, NotAvailable, Quiet, IsStoredInS3, OnlyAnnouncementFails;
    hide BentoImageName, SecretFits, SeedsModels;
    var w1 := Pass(cfg, w, first);
    var w2 := Next(cfg, w1, EditContent(edited));
    UnannouncedPass(cfg, w, image, first);
    SameStatus(w1, w2);
    AnnouncedPass(cfg, w2, image, env);
    ThreeSteps(cfg, w, PassStep(first), EditContent(edited), PassStep(env));
  }

  lemma SameStatus(w: World, w1: World)
    requires w1.req.conditions == w.req.conditions
    ensures NotAvailable(w1) == NotAvailable(w) && Distinct(w1.req.conditions) == Distinct(w.req.conditions)
  {
  }
}
