/** Where ImageExists=True comes from, over all runs. */
module Provenance {
  import opened Basics
  import opened Conditions
  import opened Cluster
  import opened Naming
  import opened StatusWriter
  import opened ImagePhase
  import opened ModelsPhase
  import opened Reconcile
  import opened JobFrames
  import opened StatusFrames
  import opened Runs
  import opened CompareAndSwap
  import opened LostReads
  import opened BuilderJobs

  /** A job that reports to this request as one of its image builders. */
  predicate IsBuilder(cfg: Config, labels: Labels)
  {
    && RequestLabel in labels && labels[RequestLabel] == cfg.request
    && ImageBuilderLabel in labels
  }

  /** Every builder job builds the image named by the content that its hash stands for. */
  predicate Honest(cfg: Config, w: World)
  {
    forall j <- w.jobs :: IsBuilder(cfg, j.labels) ==>
      BentoImageName(cfg, w.req.namespace, j.hash.content, false) == Some(j.image)
  }

  /** The registry lists the image, or a builder job that was made for it has completed. */
  predicate Witness(cfg: Config, w: World, image: string)
  {
    || image in w.registry
    || exists j <- w.jobs :: IsBuilder(cfg, j.labels) && Completed(j) && j.image == image
  }

  /** ImageExistsChecked=True(m) implies ImageExists=True(m). */
  predicate CheckedBacked(w: World)
  {
    var checked := Find(w.req.conditions, ImageExistsChecked);
    checked.Some? && checked.value.status == True ==> Holds(w, ImageExists, checked.value.message)
  }

  lemma SelectedIsBuilder(cfg: Config, w: World, separateModels: bool)
    ensures forall j <- List(w.jobs, BuilderSelector(cfg, separateModels)) :: IsBuilder(cfg, j.labels)
  {
    var selector := BuilderSelector(cfg, separateModels);
    assert RequestLabel in selector && ImageBuilderLabel in selector;
  }

  /** The name of the image does not depend on the affinity that pod generation changes. */
  lemma NameSurvivesPodGeneration(cfg: Config, namespace: string, c: Content)
    ensures BentoImageName(cfg, namespace, AfterPodGeneration(cfg, c), false) == BentoImageName(cfg, namespace, c, false)
  {
    var d := AfterPodGeneration(cfg, c);
    assert d.annotations == c.annotations && d.spec.bentoTag == c.spec.bentoTag && d.spec.image == c.spec.image;
  }

  /** A listed builder job of that mode and hash has completed. */
  predicate Vouched(cfg: Config, w: World, separateModels: bool, hash: Hash)
  {
    exists j <- Builders(cfg, w, separateModels) :: Completed(j) && j.hash == hash
  }

  lemma VouchedIsWitness(cfg: Config, w: World, separateModels: bool, image: string)
    requires Honest(cfg, w) && BentoImageName(cfg, w.req.namespace, w.req.content, false) == Some(image)
    ensures Vouched(cfg, w, separateModels, HashOf(w.req.content)) ==> Witness(cfg, w, image)
  {
    hide BuilderSelector, IsBuilder, Completed, BentoImageName;
    SelectedIsBuilder(cfg, w, separateModels);
  }

  /** Only jobs of the content's own mode can be current. */
  lemma VouchedInMode(cfg: Config, w: World, separateModels: bool, c: Content)
    requires Tidy(w)
    ensures Vouched(cfg, w, separateModels, HashOf(c)) ==> IsSeparateModels(c) == separateModels
  {
    hide Tidy, BuilderSelector, IsSeparateModels, List;
    ModeOfListed(cfg, w, separateModels);
  }

  /** The job step adds truth about the image only from a completed, listed, current job. */
  lemma EnsureBuiltTruths(
      cfg: Config, w: World, br: Request, separateModels: bool, image: string, env: Env, message: string)
    requires CheckedBacked(w)
    requires var checked := Find(w.req.conditions, ImageExistsChecked);
             checked.Some? && checked.value.status == True ==> checked.value.message == image
    ensures var r := EnsureBuilt(cfg, w, br, separateModels, image, env);
            && CheckedBacked(r.w)
            && (Holds(r.w, ImageExists, message) ==>
                  Holds(w, ImageExists, message)
                  || (message == image && Vouched(cfg, w, separateModels, HashOf(br.content))))
            && (r.present ==> Holds(r.w, ImageExists, image))
            && (r.present ==> Find(r.w.req.conditions, ModelsExists) == Find(w.req.conditions, ModelsExists))
            && (r.present ==> r.br == r.w.req)
            && r.image == image
  {
    hide BuilderSelector, NewBuilderJob, TrackBuild, DropStale, DeleteEach, List, Completed;
    var listed := List(w.jobs, BuilderSelector(cfg, separateModels));
    var stale := FirstStale(listed, HashOf(br.content));
    if env.fails(ListBuilders) {
    } else if stale < |listed| {
      DropStaleTruths(w, br, listed[stale], image, env, message);
    } else if listed != [] {
      var w1 := DeleteEach(w, listed[1..], env).0;
      assert listed[0] in listed && listed[0].hash == HashOf(br.content);
      TrackBuildTruths(w1, listed[0], image, env, message);
    }
  }

  /** The job step keeps builder jobs honest, exactly unless it makes one for another image. */
  lemma EnsureBuiltHonestIff(cfg: Config, w: World, br: Request, separateModels: bool, image: string, env: Env)
    requires Honest(cfg, w)
    ensures Honest(cfg, EnsureBuilt(cfg, w, br, separateModels, image, env).w) <==>
            !(&& Creates(cfg, w, separateModels, env)
              && BentoImageName(cfg, w.req.namespace, br.content, false) != Some(image))
  {
    hide BuilderSelector, NewBuilderJob, TrackBuild, DropStale, DeleteEach, BentoImageName, List, IsBuilder, Completed;
    var listed := List(w.jobs, BuilderSelector(cfg, separateModels));
    DeletedAreOld(w, if listed == [] then [] else listed[1..], env);
    NameSurvivesPodGeneration(cfg, w.req.namespace, br.content);
    NewJobFacts(cfg, br.content, image, w.nextId);
    if Creates(cfg, w, separateModels, env) {
      var job := NewBuilderJob(cfg, br.content, image, w.nextId);
      assert job in EnsureBuilt(cfg, w, br, separateModels, image, env).w.jobs;
    }
  }

  lemma NewJobFacts(cfg: Config, c: Content, image: string, id: nat)
    ensures var j := NewBuilderJob(cfg, c, image, id);
            j.image == image && j.hash.content == AfterPodGeneration(cfg, c) && IsBuilder(cfg, j.labels)
  {
  }

  lemma {:induction false} DeletedAreOld(w: World, surplus: seq<Job>, env: Env)
    ensures forall j <- DeleteEach(w, surplus, env).0.jobs :: j in w.jobs
    decreases |surplus|
  {
    if surplus != [] && !env.fails(DeleteJob(surplus[0].id)) {
      DeletedAreOld(w.(jobs := Without(w.jobs, surplus[0].id)), surplus[1..], env);
    }
  }

  lemma DropStaleTruths(w: World, br: Request, job: Job, image: string, env: Env, message: string)
    requires CheckedBacked(w)
    ensures var r := DropStale(w, br, job, image, env);
            && CheckedBacked(r.w) && r.image == image
            && (Holds(r.w, ImageExists, message) ==> Holds(w, ImageExists, message))
  {
    hide Write;
  }

  /** The report on a job that runs or has failed writes ImageBuilding and BentoAvailable, and no other. */
  lemma UnfinishedLeaves(w: World, job: Job, image: string, env: Env, kind: Kind)
    requires BuildRunning(job) || BuildFailed(job)
    requires !kind.Foreign? && kind != ImageBuilding && kind != BentoAvailable
    ensures var r := TrackBuild(w, job, image, env);
            && !r.present && r.image == image
            && Find(r.w.req.conditions, kind) == Find(w.req.conditions, kind)
  {
    hide Write, RunningCondition, TimeoutCondition, BuildFailed, BuildRunning, TimedOut, Find;
    TrackedKinds(job);
    var message := "Image building job " + job.name + " is failed.";
    WriteLeaves(w, Building, [RunningCondition(job), TimeoutCondition(job)], env, kind);
    WriteLeaves(w, Building, [RunningCondition(job)], env, kind);
    WriteLeaves(w, BuildHasFailed, [Report(ImageBuilding, False, message), Report(BentoAvailable, False, message)], env, kind);
  }

  lemma SucceededTruths(w: World, job: Job, image: string, env: Env, message: string)
    requires CheckedBacked(w) && !BuildRunning(job) && !BuildFailed(job)
    requires var checked := Find(w.req.conditions, ImageExistsChecked);
             checked.Some? && checked.value.status == True ==> checked.value.message == image
    ensures var r := TrackBuild(w, job, image, env);
            && CheckedBacked(r.w) && r.image == image
            && (Holds(r.w, ImageExists, message) ==> Holds(w, ImageExists, message) || message == image)
            && (r.present ==> Holds(r.w, ImageExists, image))
            && (r.present ==> Find(r.w.req.conditions, ModelsExists) == Find(w.req.conditions, ModelsExists))
            && (r.present ==> r.br == r.w.req)
  {
    hide Write, RunningCondition, TimeoutCondition, BuildFailed, BuildRunning, TimedOut;
  }

  lemma TrackBuildTruths(w: World, job: Job, image: string, env: Env, message: string)
    requires CheckedBacked(w)
    requires var checked := Find(w.req.conditions, ImageExistsChecked);
             checked.Some? && checked.value.status == True ==> checked.value.message == image
    ensures var r := TrackBuild(w, job, image, env);
            && CheckedBacked(r.w) && r.image == image
            && (Holds(r.w, ImageExists, message) ==>
                  Holds(w, ImageExists, message) || (message == image && Completed(job)))
            && (r.present ==> Holds(r.w, ImageExists, image))
            && (r.present ==> Find(r.w.req.conditions, ModelsExists) == Find(w.req.conditions, ModelsExists))
            && (r.present ==> r.br == r.w.req)
  {
    hide TrackBuild, BuildFailed, BuildRunning, Completed;
    TrackedKinds(job);
    if BuildRunning(job) || BuildFailed(job) {
      UnfinishedLeaves(w, job, image, env, ImageExists);
      UnfinishedLeaves(w, job, image, env, ImageExistsChecked);
    } else {
      SucceededTruths(w, job, image, env, message);
    }
  }

  lemma TrackedKinds(job: Job)
    ensures RunningCondition(job).kind == ImageBuilding && TimeoutCondition(job).kind == ImageBuilding
    ensures !BuildRunning(job) && !BuildFailed(job) ==> Completed(job)
  {
  }

  /** The registry reports the image, or a listed builder job of that mode vouches for it. */
  predicate Grounds(cfg: Config, w: World, separateModels: bool, image: string)
  {
    RegistryReports(w, w.req.content, image) || Vouched(cfg, w, separateModels, HashOf(w.req.content))
  }

  /** What an image phase leaves true about the image it was about. */
  ghost predicate Truths(cfg: Config, w: World, r: ImageResult, separateModels: bool, image: string, message: string)
  {
    && CheckedBacked(r.w)
    && (Holds(r.w, ImageExists, message) ==>
          Holds(w, ImageExists, message) || (message == image && Grounds(cfg, w, separateModels, image)))
    && (r.present && r.end == Done ==>
          && Holds(r.w, ImageExists, r.image) && r.image == image && SameRequest(r.br, w.req)
          && Find(r.w.req.conditions, ModelsExists) == Find(w.req.conditions, ModelsExists))
  }

  lemma CheckImageTruths(cfg: Config, w: World, separateModels: bool, image: string, env: Env, message: string)
    requires CheckedBacked(w)
    ensures Truths(cfg, w, CheckImage(cfg, w, separateModels, image, env), separateModels, image, message)
  {
    hide Write, EnsureBuilt, RegistryReports, CheckedConditions, Report, Reflects, SameOwn, CheckedBacked, Vouched;
    var first := SetConditions([
      Report(ImageExistsChecked, Unknown, image),
      Report(BentoAvailable, Unknown, "Checking image exists")]);
    var s := Write(w, CheckingImage, first, env);
    var found := RegistryReports(s.w, s.br.content, image);
    var t := Write(s.w, CheckedImage, SetConditions(CheckedConditions(found, image)), env);
    FirstCheckTruths(w, s, image, message);
    SecondCheckTruths(s.w, t, found, image, message);
    SameReports(w, s.w);
    if t.ok && !found {
      EnsureBuiltTruths(cfg, t.w, t.br, separateModels, image, env, message);
      VouchedSame(cfg, w, t.w, separateModels, HashOf(w.req.content));
    }
  }

  lemma VouchedSame(cfg: Config, w: World, w1: World, separateModels: bool, hash: Hash)
    requires w1.jobs == w.jobs
    ensures Vouched(cfg, w1, separateModels, hash) == Vouched(cfg, w, separateModels, hash)
  {
  }

  lemma CheckImageHonestIff(cfg: Config, w: World, separateModels: bool, image: string, env: Env)
    requires Honest(cfg, w)
    ensures Honest(cfg, CheckImage(cfg, w, separateModels, image, env).w) <==>
            !(&& ChecksImage(env) && !RegistryReports(w, w.req.content, image)
              && Creates(cfg, w, separateModels, env)
              && BentoImageName(cfg, w.req.namespace, w.req.content, false) != Some(image))
  {
    hide Write, EnsureBuilt, BentoImageName, IsBuilder, CheckedConditions, Reflects, SameOwn, Honest, BuilderSelector;
    hide WriterSucceeds, List;
    var first := SetConditions([
      Report(ImageExistsChecked, Unknown, image),
      Report(BentoAvailable, Unknown, "Checking image exists")]);
    var s := Write(w, CheckingImage, first, env);
    WriterOutcome(w, CheckingImage, first, env);
    var found := RegistryReports(s.w, s.br.content, image);
    var second := SetConditions(CheckedConditions(found, image));
    var t := Write(s.w, CheckedImage, second, env);
    WriterOutcome(s.w, CheckedImage, second, env);
    HonestSame(cfg, w, s.w);
    HonestSame(cfg, w, t.w);
    if t.ok {
      EnsureBuiltHonestIff(cfg, t.w, t.br, separateModels, image, env);
    }
  }

  lemma HonestSame(cfg: Config, w: World, w1: World)
    requires Honest(cfg, w) && w1.jobs == w.jobs && w1.req.namespace == w.req.namespace
    ensures Honest(cfg, w1)
  {
  }

  lemma FirstCheckTruths(w: World, s: Written, image: string, message: string)
    requires CheckedBacked(w)
    requires s.wrote ==> Reflects(SetConditions([
               Report(ImageExistsChecked, Unknown, image),
               Report(BentoAvailable, Unknown, "Checking image exists")]), w.req.conditions, s.w.req.conditions, w.now)
    requires !s.wrote ==> SameOwn(w.req.conditions, s.w.req.conditions)
    ensures CheckedBacked(s.w)
    ensures Find(s.w.req.conditions, ImageExists) == Find(w.req.conditions, ImageExists)
    ensures Find(s.w.req.conditions, ModelsExists) == Find(w.req.conditions, ModelsExists)
  {
  }

  lemma SecondCheckTruths(w: World, t: Written, found: bool, image: string, message: string)
    requires CheckedBacked(w)
    requires t.wrote ==> Reflects(SetConditions(CheckedConditions(found, image)), w.req.conditions, t.w.req.conditions, w.now)
    requires !t.wrote ==> SameOwn(w.req.conditions, t.w.req.conditions)
    ensures CheckedBacked(t.w)
    ensures Holds(t.w, ImageExists, message) ==> Holds(w, ImageExists, message) || (found && message == image)
    ensures t.wrote && found ==> Holds(t.w, ImageExists, image)
    ensures t.wrote && !found ==> Find(t.w.req.conditions, ImageExistsChecked).Some?
                                  && Find(t.w.req.conditions, ImageExistsChecked).value.status == False
    ensures Find(t.w.req.conditions, ModelsExists) == Find(w.req.conditions, ModelsExists)
  {
  }

  /** For the request as stored, or for the empty object in its place. */
  lemma ImagePhaseTruths(cfg: Config, w: World, br: Request, env: Env, message: string)
    requires CheckedBacked(w) && Backed(w, br) && (SameRequest(br, w.req) || br == EmptyRequest)
    ensures var r := EnsureImageExists(cfg, w, br, env);
            && CheckedBacked(r.w)
            && (match BentoImageName(cfg, br.namespace, br.content, false)
                case Some(image) => Truths(cfg, w, r, IsSeparateModels(br.content), image, message)
                case None => !r.present && r.w == w)
  {
    hide EnsureBuilt, CheckImage, BentoImageName, Write, RegistryReports, IsSeparateModels, Vouched;
    var name := BentoImageName(cfg, br.namespace, br.content, false);
    if name.Some? && !env.fails(GetImageInfo) {
      var image := name.value;
      CheckImageTruths(cfg, w, IsSeparateModels(br.content), image, env, message);
      if IsTrue(Find(br.conditions, ImageExistsChecked), image) {
        assert Claim(br.conditions, ImageExistsChecked) == Some(image);
        EnsureBuiltTruths(cfg, w, br, IsSeparateModels(br.content), image, env, message);
        BuiltRequest(cfg, w, br, IsSeparateModels(br.content), image, env);
      }
    }
  }

  lemma BuiltRequest(cfg: Config, w: World, br: Request, separateModels: bool, image: string, env: Env)
    ensures var r := EnsureBuilt(cfg, w, br, separateModels, image, env);
            SameRequest(r.w.req, w.req)
  {
    hide EnsureBuilt;
  }

  lemma ImagePhaseHonest(cfg: Config, w: World, br: Request, env: Env)
    requires Honest(cfg, w) && SameRequest(br, w.req)
    ensures Honest(cfg, EnsureImageExists(cfg, w, br, env).w)
  {
    hide EnsureBuilt, CheckImage, BentoImageName, Honest, ChecksImage, RegistryReports, Creates;
    var name := BentoImageName(cfg, br.namespace, br.content, false);
    if name.Some? {
      CheckImageHonestIff(cfg, w, IsSeparateModels(br.content), name.value, env);
      EnsureBuiltHonestIff(cfg, w, br, IsSeparateModels(br.content), name.value, env);
    }
  }

  lemma StrayPhaseHonestIff(cfg: Config, w: World, env: Env)
    requires Honest(cfg, w)
    ensures Honest(cfg, EnsureImageExists(cfg, w, EmptyRequest, env).w) <==>
            !(&& !cfg.hasCredentials && !env.fails(GetImageInfo) && StrayImage(cfg).Some?
              && !RegistryReports(w, w.req.content, StrayImage(cfg).value) && ChecksImage(env)
              && Creates(cfg, w, false, env)
              && BentoImageName(cfg, w.req.namespace, w.req.content, false) != StrayImage(cfg))
  {
    hide EnsureBuilt, CheckImage, BentoImageName, Honest, ChecksImage, RegistryReports, Creates;
    assert !IsSeparateModels(EmptyRequest.content);
    if StrayImage(cfg).Some? {
      CheckImageHonestIff(cfg, w, false, StrayImage(cfg).value, env);
    }
  }

  // The other phases neither add truth about the image nor builder jobs.

  lemma ModelsPhaseHonest(cfg: Config, w: World, br: Request, env: Env)
    requires Honest(cfg, w)
    ensures Honest(cfg, EnsureModelsExist(cfg, w, br, env).w)
    ensures forall j <- EnsureModelsExist(cfg, w, br, env).w.jobs :: j in w.jobs || !IsBuilder(cfg, j.labels)
  {
    hide Write, SeedModels, Honest, Reflects, SameOwn, IsTrue;
    var s := Write(w, ModelsNotReady, SetConditions([NotReady]), env);
    HonestSame(cfg, w, s.w);
    SeedModelsHonest(cfg, s.w, s.br, env);
    SeedModelsHonest(cfg, w, br, env);
  }

  lemma SeedModelsHonest(cfg: Config, w: World, br: Request, env: Env)
    requires Honest(cfg, w)
    ensures Honest(cfg, SeedModels(cfg, w, br, env).w)
    ensures forall j <- SeedModels(cfg, w, br, env).w.jobs :: j in w.jobs || !IsBuilder(cfg, j.labels)
  {
    hide Prune, SeedEach, ReportSeeding, List, SeederSelector, Tags, BentoImageName, IsBuilder;
    var models := br.content.spec.models;
    var listed := List(w.jobs, SeederSelector(cfg));
    var p := Prune(w, br, listed, HashOf(br.content), Tags(models), {}, env);
    PrunedAreOld(w, br, listed, HashOf(br.content), Tags(models), {}, env);
    SeededAreNotBuilders(cfg, p.w, p.br, models, 0, p.seen, env);
  }

  lemma {:induction false} PrunedAreOld(
      w: World, br: Request, listed: seq<Job>, hash: Hash, tags: seq<string>, seen: set<string>, env: Env)
    ensures forall j <- Prune(w, br, listed, hash, tags, seen, env).w.jobs :: j in w.jobs
    decreases |listed|
  {
    hide Write, DecodedTag, Reflects, SameOwn;
    if listed != [] {
      var job := listed[0];
      var tag := DecodedTag(job.labels);
      var w1 := w.(jobs := Without(w.jobs, job.id));
      if job.hash == hash && tag in tags {
        PrunedAreOld(w, br, listed[1..], hash, tags, seen + {tag}, env);
      } else if !env.fails(DeleteJob(job.id)) {
        if job.hash == hash {
          PrunedAreOld(w1, br, listed[1..], hash, tags, seen, env);
        } else {
          var s := Write(w1, SeederStale(job.id), ToUnknown("Bento request hash changed, recreating the jobs"), env);
          PrunedAreOld(s.w, s.br, listed[1..], hash, tags, seen, env);
        }
      }
    }
  }

  lemma {:induction false} SeededAreNotBuilders(
      cfg: Config, w: World, br: Request, models: seq<Model>, i: nat, seen: set<string>, env: Env)
    requires i <= |models|
    ensures forall j <- SeedEach(cfg, w, br, models, i, seen, env).w.jobs :: j in w.jobs || !IsBuilder(cfg, j.labels)
    decreases |models| - i
  {
    hide IsBuilder, NewSeederJob, SeedOne, PvcName;
    if i < |models| {
      if models[i].tag in seen {
        SeededAreNotBuilders(cfg, w, br, models, i + 1, seen, env);
      } else {
        var s := SeedOne(cfg, w, br, models[i].tag, i, env);
        SeederIsNoBuilder(cfg, br.content, models[i].tag, w.nextId);
        if !s.end.Err? {
          SeededAreNotBuilders(cfg, s.w, br, models, i + 1, seen, env);
        }
      }
    }
  }

  lemma SeederIsNoBuilder(cfg: Config, c: Content, tag: string, id: nat)
    ensures !IsBuilder(cfg, NewSeederJob(cfg, c, tag, id).labels)
  {
  }

  /** The end of a pass writes only BentoAvailable and only deletes jobs. */
  lemma FinishTruths(cfg: Config, separateModels: bool, models: ModelsResult, image: ImageResult, env: Env, kind: Kind)
    requires !kind.Foreign? && kind != BentoAvailable && Tidy(image.w)
    ensures var r := Finish(cfg, separateModels, models, image, env);
            && Find(r.w.req.conditions, kind) == Find(image.w.req.conditions, kind)
            && (forall j <- r.w.jobs :: j in image.w.jobs)
  {
    hide Write, CleanUp, Tidy, Publish;
    var c := image.br.content;
    CleanUpKeepsBuilders(cfg, image.w, image.br, c.spec.models, 0, env, true);
    var seeds := separateModels && !IsStoredInS3(c);
    var w := if seeds then CleanUp(cfg, image.w, image.br, c.spec.models, 0, env) else image.w;
    PublishTruths(w, seeds, image.br, image.image, env, kind);
  }

  lemma PublishTruths(w: World, seeds: bool, br: Request, image: string, env: Env, kind: Kind)
    requires !kind.Foreign? && kind != BentoAvailable
    ensures Find(Publish(w, seeds, br, image, env).w.req.conditions, kind) == Find(w.req.conditions, kind)
  {
    hide Write, BentoFor, Refreshed;
  }

  /** The invariant of all runs: honest builder jobs, and a checked image that exists. */
  ghost predicate ImageInvariant(cfg: Config, w: World)
  {
    Tidy(w) && Honest(cfg, w) && CheckedBacked(w)
  }

  lemma PhasesTruths(cfg: Config, w: World, env: Env)
    requires Tidy(w) && CheckedBacked(w)
    ensures Tidy(Phases(cfg, w, w.req, env).w) && CheckedBacked(Phases(cfg, w, w.req, env).w)
  {
    hide EnsureModelsExist, EnsureImageExists, Finish, Tidy, ModelsPhaseReads, BentoImageName, Truths;
    var models := if SeedsModels(w.req.content) then EnsureModelsExist(cfg, w, w.req, env)
                  else ModelsResult(w, w.req, false, Done);
    PhasesTidy(cfg, w, w.req, env);
    ModelsPhaseKeepsBuilders(cfg, w, w.req, env, true);
    ModelsPhaseKeepsRequest(cfg, w, w.req, env);
    ModelsPhaseBacked(cfg, w, env);
    var r := EnsureImageExists(cfg, models.w, models.br, env);
    ImagePhaseTruths(cfg, models.w, models.br, env, "");
    ImagePhaseKeepsSeeders(cfg, models.w, models.br, env);
    var separate := IsSeparateModels(w.req.content);
    FinishTruths(cfg, separate, models, r, env, ImageExists);
    FinishTruths(cfg, separate, models, r, env, ImageExistsChecked);
  }

  /** Truth about the image has a witness, whichever object the image phase worked on. */
  lemma PhasesWitness(cfg: Config, w: World, env: Env, message: string)
    requires ImageInvariant(cfg, w)
    ensures Holds(Phases(cfg, w, w.req, env).w, ImageExists, message) ==>
              Holds(w, ImageExists, message) || Witness(cfg, w, message)
  {
    hide EnsureModelsExist, EnsureImageExists, Finish, Tidy, ModelsPhaseReads, BentoImageName, IsBuilder, Completed, Honest;
    hide Vouched, CheckedBacked;
    var models := if SeedsModels(w.req.content) then EnsureModelsExist(cfg, w, w.req, env)
                  else ModelsResult(w, w.req, false, Done);
    ModelsPhaseKeepsBuilders(cfg, w, w.req, env, true);
    ModelsPhaseKeepsRequest(cfg, w, w.req, env);
    ModelsPhaseHonest(cfg, w, w.req, env);
    ModelsPhaseBacked(cfg, w, env);
    ModelsPhaseMakesNoneTrue(cfg, w, w.req, env, ImageExists, message);
    var r := EnsureImageExists(cfg, models.w, models.br, env);
    ImagePhaseTruths(cfg, models.w, models.br, env, message);
    ImagePhaseKeepsSeeders(cfg, models.w, models.br, env);
    GroundsAreWitness(cfg, models.w, models.br, message);
    FinishTruths(cfg, IsSeparateModels(w.req.content), models, r, env, ImageExists);
  }

  lemma GroundsAreWitness(cfg: Config, w: World, br: Request, image: string)
    requires Tidy(w) && Honest(cfg, w)
    requires SameRequest(br, w.req) || (br == EmptyRequest && SeedsModels(w.req.content))
    ensures BentoImageName(cfg, br.namespace, br.content, false) == Some(image)
              && Grounds(cfg, w, IsSeparateModels(br.content), image) ==>
              Witness(cfg, w, image)
  {
    hide Tidy, Honest, BentoImageName, Vouched;
    if BentoImageName(cfg, br.namespace, br.content, false) != Some(image) {
    } else if SameRequest(br, w.req) {
      VouchedIsWitness(cfg, w, IsSeparateModels(br.content), image);
    } else {
      VouchedInMode(cfg, w, IsSeparateModels(br.content), w.req.content);
    }
  }

  lemma PhasesHonestIff(cfg: Config, w: World, env: Env)
    requires ImageInvariant(cfg, w)
    ensures Honest(cfg, Phases(cfg, w, w.req, env).w) <==>
            !(&& MakesStray(cfg, w, env)
              && BentoImageName(cfg, w.req.namespace, w.req.content, false) != StrayImage(cfg))
  {
    hide EnsureModelsExist, EnsureImageExists, Finish, Tidy, ModelsPhaseReads, BentoImageName, IsBuilder, Completed, Honest;
    hide ChecksImage, RegistryReports, BuilderSelector, List, NewBuilderJob, CheckedBacked, Loses;
    LosesIff(cfg, w, env);
    var models := if SeedsModels(w.req.content) then EnsureModelsExist(cfg, w, w.req, env)
                  else ModelsResult(w, w.req, false, Done);
    ModelsPhaseKeepsBuilders(cfg, w, w.req, env, false);
    ModelsPhaseKeepsRequest(cfg, w, w.req, env);
    ModelsPhaseHonest(cfg, w, w.req, env);
    SameReports(w, models.w);
    var r := EnsureImageExists(cfg, models.w, models.br, env);
    ImagePhaseKeepsSeeders(cfg, models.w, models.br, env);
    FinishTruths(cfg, IsSeparateModels(w.req.content), models, r, env, ImageExists);
    var w' := Phases(cfg, w, w.req, env).w;
    if Loses(cfg, w, env) {
      StrayPhaseHonestIff(cfg, models.w, env);
      PhasesLists(cfg, w, env);
      if MakesStray(cfg, w, env) && BentoImageName(cfg, w.req.namespace, w.req.content, false) != StrayImage(cfg) {
        StrayIsDishonest(cfg, w', w.req.content, StrayImage(cfg).value, models.w.nextId);
      }
    } else {
      ImagePhaseHonest(cfg, models.w, models.br, env);
    }
    FewerHonest(cfg, r.w, w');
  }

  lemma FewerHonest(cfg: Config, w: World, w1: World)
    requires (forall j <- w1.jobs :: j in w.jobs) && w1.req.namespace == w.req.namespace
    ensures Honest(cfg, w) ==> Honest(cfg, w1)
  {
    hide IsBuilder, BentoImageName;
  }

  lemma StrayIsDishonest(cfg: Config, w: World, c: Content, image: string, id: nat)
    requires NewBuilderJob(cfg, c, image, id) in Builders(cfg, w, true)
    requires BentoImageName(cfg, w.req.namespace, c, false) != Some(image)
    ensures !Honest(cfg, w)
  {
    hide IsBuilder, BentoImageName, NewBuilderJob, BuilderSelector;
    NewJobFacts(cfg, c, image, id);
    NameSurvivesPodGeneration(cfg, w.req.namespace, c);
  }

  lemma ModelsPhaseBacked(cfg: Config, w: World, env: Env)
    requires CheckedBacked(w)
    ensures var r := EnsureModelsExist(cfg, w, w.req, env);
            CheckedBacked(r.w) && Backed(r.w, r.br)
  {
    hide EnsureModelsExist;
    ModelsPhaseClaims(cfg, w, env);
  }

  lemma EnteredTruths(cfg: Config, w: World, w1: World, message: string)
    requires Entered(w, w1) && Tidy(w) && CheckedBacked(w)
    ensures Tidy(w1) && CheckedBacked(w1)
    ensures Honest(cfg, w1) <==> Honest(cfg, w)
    ensures Holds(w1, ImageExists, message) ==> Holds(w, ImageExists, message)
    ensures Witness(cfg, w1, message) <==> Witness(cfg, w, message)
  {
    hide BentoImageName, IsBuilder, Completed;
    TidySame(w, w1);
  }

  lemma ConcludedTruths(cfg: Config, r: BodyResult, env: Env)
    requires Tidy(r.w) && CheckedBacked(r.w)
    ensures Tidy(Concluded(r, env)) && CheckedBacked(Concluded(r, env))
    ensures Honest(cfg, Concluded(r, env)) <==> Honest(cfg, r.w)
    ensures forall k: Kind :: k.Foreign? || k == BentoAvailable ||
              Find(Concluded(r, env).req.conditions, k) == Find(r.w.req.conditions, k)
  {
    hide Write, BentoImageName, IsBuilder;
    TidySame(r.w, Concluded(r, env));
  }

  /** Whatever fails, a pass keeps checked images existing. */
  lemma PassTruths(cfg: Config, w: World, env: Env)
    requires Tidy(w) && CheckedBacked(w)
    ensures Tidy(Pass(cfg, w, env)) && CheckedBacked(Pass(cfg, w, env))
  {
    hide Pass, Phases, Tidy, Write, Honest, Entry;
    var ran, w1 := Enter(cfg, w, env);
    EnteredTruths(cfg, w, w1, "");
    PassTidy(cfg, w, env);
    if ran {
      PhasesTruths(cfg, w1, env);
      ConcludedTruths(cfg, Phases(cfg, w1, w1.req, env), env);
    }
  }

  /** The pass creates a stray job, and for another image than the request's. */
  predicate Misnames(cfg: Config, w: World, env: Env)
  {
    && Strays(cfg, w, env)
    && BentoImageName(cfg, w.req.namespace, w.req.content, false) != StrayImage(cfg)
  }

  /**
   A pass keeps the invariant exactly unless it creates a stray job for another image; with registry
   credentials it always does. ImageExists=True(m) is made only with a witness for m in the state
   that the pass started from.
   */
  lemma PassProvenance(cfg: Config, w: World, env: Env, message: string)
    requires ImageInvariant(cfg, w)
    ensures var w' := Pass(cfg, w, env);
            && (ImageInvariant(cfg, w') <==> !Misnames(cfg, w, env))
            && (Holds(w', ImageExists, message) ==> Holds(w, ImageExists, message) || Witness(cfg, w, message))
    ensures cfg.hasCredentials || ModelsPhaseReads(env) ==> !Misnames(cfg, w, env)
  {
    hide Pass, Phases, Tidy, Write, ModelsPhaseReads, Witness, BentoImageName, IsBuilder, Honest, MakesStray, Entry;
    StraysNeedsNoCredentials(cfg, w, env);
    var ran, w1 := Enter(cfg, w, env);
    SameStore(w, w1);
    EnteredTruths(cfg, w, w1, message);
    PassTruths(cfg, w, env);
    if ran {
      PhasesTruths(cfg, w1, env);
      PhasesWitness(cfg, w1, env, message);
      PhasesHonestIff(cfg, w1, env);
      ConcludedTruths(cfg, Phases(cfg, w1, w1.req, env), env);
    } else {
      HonestSame(cfg, w, Pass(cfg, w, env));
    }
  }

  lemma OtherStepTruths(cfg: Config, w: World, step: Step)
    requires ImageInvariant(cfg, w) && !step.PassStep?
    ensures ImageInvariant(cfg, Next(cfg, w, step))
    ensures forall k: Kind :: k.Foreign? ||
              Find(Next(cfg, w, step).req.conditions, k) == Find(w.req.conditions, k)
  {
    hide Pass, Tidy, WithForeign, BentoImageName, IsBuilder;
    StepTidy(cfg, w, step);
    match step
    case Progress(_, _, _, _, _) =>
      var r := WithStatus(w.jobs, step);
      forall j <- r ensures IsBuilder(cfg, j.labels) ==>
                              BentoImageName(cfg, w.req.namespace, j.hash.content, false) == Some(j.image) {
        var i :| 0 <= i < |r| && r[i] == j;
        assert w.jobs[i] in w.jobs;
      }
    case Shuffle(order) =>
      if multiset(order) == multiset(w.jobs) {
        forall j <- order ensures j in w.jobs {
          assert j in multiset(order);
        }
      }
    case _ =>
  }

  /**
   Over all runs, edits, failures and concurrent writers included: the invariant holds as long as no
   pass misnames a stray job, which none does with registry credentials; and ImageExists=True(m),
   unless it was there from the start, was made by a pass that found the image in the registry or a
   completed builder job made for it.
   */
  lemma {:induction false} ImageProvenance(cfg: Config, w: World, steps: seq<Step>, message: string)
    requires ImageInvariant(cfg, w)
    requires cfg.hasCredentials || forall k :: 0 <= k < |steps| && steps[k].PassStep? ==>
               !Misnames(cfg, Run(cfg, w, steps[..k]), steps[k].env)
    ensures ImageInvariant(cfg, Run(cfg, w, steps))
    ensures Holds(Run(cfg, w, steps), ImageExists, message) && !Holds(w, ImageExists, message) ==>
              exists k :: 0 <= k < |steps| && steps[k].PassStep? && Witness(cfg, Run(cfg, w, steps[..k]), message)
    decreases |steps|
  {
    hide Next, ImageInvariant, Witness, Misnames, Holds;
    if steps != [] {
      var before, last := steps[..|steps| - 1], steps[|steps| - 1];
      forall k | 0 <= k < |before| && before[k].PassStep?
        ensures cfg.hasCredentials || !Misnames(cfg, Run(cfg, w, before[..k]), before[k].env)
      {
        assert before[k] == steps[k] && before[..k] == steps[..k];
      }
      ImageProvenance(cfg, w, before, message);
      var u := Run(cfg, w, before);
      StepProvenance(cfg, u, last, message);
      if Holds(u, ImageExists, message) && !Holds(w, ImageExists, message) {
        var k :| 0 <= k < |before| && before[k].PassStep? && Witness(cfg, Run(cfg, w, before[..k]), message);
        assert before[..k] == steps[..k];
        assert before[k] == steps[k];
      }
    }
  }

  /** No pass of the run misnames a stray job. */
  predicate NeverMisnames(cfg: Config, w: World, steps: seq<Step>)
  {
    forall k :: 0 <= k < |steps| && steps[k].PassStep? ==> !Misnames(cfg, Run(cfg, w, steps[..k]), steps[k].env)
  }

  /** The invariant holds all the way through a run exactly when no pass of it misnames a stray job. */
  lemma {:induction false} ImageInvariantIff(cfg: Config, w: World, steps: seq<Step>)
    requires ImageInvariant(cfg, w)
    ensures (forall k :: 0 <= k <= |steps| ==> ImageInvariant(cfg, Run(cfg, w, steps[..k]))) <==> NeverMisnames(cfg, w, steps)
    decreases |steps|
  {
    hide Next, ImageInvariant, Misnames;
    assert steps[..|steps|] == steps;
    if steps != [] {
      var n := |steps| - 1;
      var before, last := steps[..n], steps[n];
      assert forall k :: 0 <= k <= n ==> before[..k] == steps[..k];
      assert forall k :: 0 <= k < n ==> before[k] == steps[k];
      ImageInvariantIff(cfg, w, before);
      assert NeverMisnames(cfg, w, steps) <==>
             NeverMisnames(cfg, w, before) && (last.PassStep? ==> !Misnames(cfg, Run(cfg, w, before), last.env));
      if ImageInvariant(cfg, Run(cfg, w, before)) {
        InvariantStepIff(cfg, Run(cfg, w, before), last);
      }
    }
  }

  lemma InvariantStepIff(cfg: Config, w: World, step: Step)
    requires ImageInvariant(cfg, w)
    ensures ImageInvariant(cfg, Next(cfg, w, step)) <==> (step.PassStep? ==> !Misnames(cfg, w, step.env))
  {
    hide Pass, ImageInvariant, WithForeign, Misnames;
    if step.PassStep? {
      PassProvenance(cfg, w, step.env, "");
    } else {
      OtherStepTruths(cfg, w, step);
    }
  }

  lemma StepProvenance(cfg: Config, w: World, step: Step, message: string)
    requires ImageInvariant(cfg, w)
    requires step.PassStep? ==> cfg.hasCredentials || !Misnames(cfg, w, step.env)
    ensures ImageInvariant(cfg, Next(cfg, w, step))
    ensures Holds(Next(cfg, w, step), ImageExists, message) ==>
              Holds(w, ImageExists, message) || (step.PassStep? && Witness(cfg, w, message))
  {
    hide Pass, ImageInvariant, ModelsPhaseReads, Witness, WithForeign, Misnames;
    if step.PassStep? {
      PassProvenance(cfg, w, step.env, message);
    } else {
      OtherStepTruths(cfg, w, step);
    }
  }

  /** In every reachable state, whatever happened, ImageExistsChecked=True(m) implies ImageExists=True(m). */
  lemma {:induction false} CheckedImagesExist(cfg: Config, w: World, steps: seq<Step>)
    requires Tidy(w) && CheckedBacked(w)
    ensures Tidy(Run(cfg, w, steps)) && CheckedBacked(Run(cfg, w, steps))
    decreases |steps|
  {
    hide Next, Tidy, CheckedBacked;
    if steps != [] {
      var before, last := steps[..|steps| - 1], steps[|steps| - 1];
      CheckedImagesExist(cfg, w, before);
      StepTruths(cfg, Run(cfg, w, before), last);
    }
  }

  lemma StepTruths(cfg: Config, w: World, step: Step)
    requires Tidy(w) && CheckedBacked(w)
    ensures Tidy(Next(cfg, w, step)) && CheckedBacked(Next(cfg, w, step))
  {
    hide Pass, Tidy, WithForeign;
    StepTidy(cfg, w, step);
    if step.PassStep? {
      PassTruths(cfg, w, step.env);
    }
  }
}
