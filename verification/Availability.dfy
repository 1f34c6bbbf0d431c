/** What BentoAvailable=True guarantees in every reachable state. */
module Availability {
  import opened Basics
  import opened Conditions
  import opened Cluster
  import opened Naming
  import opened StatusWriter
  import opened ImagePhase
  import opened ModelsPhase
  import opened Reconcile
  import opened JobFrames
  import opened StatusFrames
  import opened Runs
  import opened Provenance
  import opened Convergence

  /** A Bento is stored that was made from content c, and the conditions vouch for its image and models. */
  ghost predicate Published(cfg: Config, w: World, c: Content)
  {
    && w.bento.Some?
    && var b := w.bento.value;
       && BentoImageName(cfg, w.req.namespace, c, false) == Some(b.image)
       && b.tag == c.spec.bentoTag && b.serviceName == c.spec.serviceName && b.models == c.spec.models
       && Holds(w, ImageExists, b.image)
       && (SeedsModels(c) ==> Holds(w, ModelsExists, SeededMessage(cfg, c.spec.models)))
  }

  /** Announcing needs the image, and the models where they are seeded separately. */
  lemma FinishPublishes(cfg: Config, models: ModelsResult, image: ImageResult, env: Env, c: Content)
    requires NotAvailable(image.w) && image.w.req.content == c
    requires image.present && image.end == Done && !models.end.Err? ==>
               && Holds(image.w, ImageExists, image.image)
               && BentoImageName(cfg, image.w.req.namespace, c, false) == Some(image.image)
               && image.br.content == c
               && (SeedsModels(c) && models.present ==> Holds(image.w, ModelsExists, SeededMessage(cfg, c.spec.models)))
    ensures var r := Finish(cfg, IsSeparateModels(c), models, image, env);
            NotAvailable(r.w) || Published(cfg, r.w, c)
  {
    hide Write, CleanUp, Publish, BentoImageName, SeededMessage, Published;
    var seeds := SeedsModels(c);
    if image.present && image.end == Done && !models.end.Err? && (seeds ==> models.present) {
      var w := if seeds then CleanUp(cfg, image.w, image.br, c.spec.models, 0, env) else image.w;
      PublishPublishes(cfg, w, seeds, image.br, image.image, env, c);
    }
  }

  lemma PublishPublishes(cfg: Config, w: World, seeds: bool, br: Request, image: string, env: Env, c: Content)
    requires NotAvailable(w) && br.content == c && seeds == SeedsModels(c)
    requires Holds(w, ImageExists, image) && BentoImageName(cfg, w.req.namespace, c, false) == Some(image)
    requires seeds ==> Holds(w, ModelsExists, SeededMessage(cfg, c.spec.models))
    ensures var r := Publish(w, seeds, br, image, env);
            NotAvailable(r.w) || Published(cfg, r.w, c)
  {
    hide Publish, BentoImageName, SeededMessage, NotAvailable, Find;
    AnnouncesWanted(w, seeds, br, image, env);
    PublishTruths(w, seeds, br, image, env, ImageExists);
    PublishTruths(w, seeds, br, image, env, ModelsExists);
  }

  /** Only a Bento with the wanted spec is announced. */
  lemma AnnouncesWanted(w: World, seeds: bool, br: Request, image: string, env: Env)
    requires NotAvailable(w)
    ensures var r, wanted := Publish(w, seeds, br, image, env).w, BentoFor(br.content, seeds, image);
            NotAvailable(r)
            || (r.bento.Some? && var b := r.bento.value;
                && b.tag == wanted.tag && b.image == wanted.image
                && b.serviceName == wanted.serviceName && b.models == wanted.models)
  {
    hide Write, Find;
  }

  /** The image phase never announces a Bento. */
  lemma ImagePhaseAnnouncesNothing(cfg: Config, w: World, br: Request, env: Env)
    requires NotAvailable(w)
    ensures NotAvailable(EnsureImageExists(cfg, w, br, env).w)
  {
    hide Write, EnsureBuilt, CheckImage, BentoImageName, IsTrue;
    var name := BentoImageName(cfg, br.namespace, br.content, false);
    if name.Some? {
      EnsureBuiltAnnouncesNothing(cfg, w, br, IsSeparateModels(br.content), name.value, env);
      CheckImageAnnouncesNothing(cfg, w, IsSeparateModels(br.content), name.value, env);
    }
  }

  lemma CheckImageAnnouncesNothing(cfg: Config, w: World, separateModels: bool, image: string, env: Env)
    requires NotAvailable(w)
    ensures NotAvailable(CheckImage(cfg, w, separateModels, image, env).w)
  {
    hide Write, EnsureBuilt, RegistryReports, NotAvailable, Reflects, SameOwn;
    var s := Write(w, CheckingImage, SetConditions([
      Report(ImageExistsChecked, Unknown, image),
      Report(BentoAvailable, Unknown, "Checking image exists")]), env);
    var found := RegistryReports(s.w, s.br.content, image);
    var t := Write(s.w, CheckedImage, SetConditions(CheckedConditions(found, image)), env);
    WriteAnnouncesNothing(w, CheckingImage, [
      Report(ImageExistsChecked, Unknown, image),
      Report(BentoAvailable, Unknown, "Checking image exists")], env);
    WriteAnnouncesNothing(s.w, CheckedImage, CheckedConditions(found, image), env);
    EnsureBuiltAnnouncesNothing(cfg, t.w, t.br, separateModels, image, env);
  }

  /** A writer that does not report BentoAvailable=True does not announce. */
  lemma WriteAnnouncesNothing(w: World, site: Site, news: seq<Condition>, env: Env)
    requires NotAvailable(w) && forall c <- news :: c.kind == BentoAvailable ==> c.status != True
    ensures NotAvailable(Write(w, site, SetConditions(news), env).w)
  {
    hide Write;
    var after := Find(Write(w, site, SetConditions(news), env).w.req.conditions, BentoAvailable);
    if after.Some? && after.value.status == True {
      WriteNonTrue(w, site, news, env, BentoAvailable, after.value.message);
    }
  }

  lemma DropStaleAnnouncesNothing(w: World, br: Request, job: Job, image: string, env: Env)
    requires NotAvailable(w)
    ensures NotAvailable(DropStale(w, br, job, image, env).w)
  {
    hide Write;
  }

  lemma EnsureBuiltAnnouncesNothing(
      cfg: Config, w: World, br: Request, separateModels: bool, image: string, env: Env)
    requires NotAvailable(w)
    ensures NotAvailable(EnsureBuilt(cfg, w, br, separateModels, image, env).w)
  {
    hide DropStale, NewBuilderJob, BuilderSelector, List, TrackBuild;
    var listed := List(w.jobs, BuilderSelector(cfg, separateModels));
    var stale := FirstStale(listed, HashOf(br.content));
    if stale < |listed| {
      DropStaleAnnouncesNothing(w, br, listed[stale], image, env);
    } else if listed != [] {
      TrackBuildAnnouncesNothing(DeleteEach(w, listed[1..], env).0, listed[0], image, env);
    }
  }

  lemma TrackBuildAnnouncesNothing(w: World, job: Job, image: string, env: Env)
    requires NotAvailable(w)
    ensures NotAvailable(TrackBuild(w, job, image, env).w)
  {
    hide Write, RunningCondition, TimeoutCondition, BuildRunning, BuildFailed, TimedOut;
    RunningConditionKind(job);
  }

  /** When the models phase reports success, the store says which models exist. */
  lemma ModelsPhaseReports(cfg: Config, w: World, env: Env)
    ensures var r := EnsureModelsExist(cfg, w, w.req, env);
            r.end == Done && r.present ==> Holds(r.w, ModelsExists, SeededMessage(cfg, w.req.content.spec.models))
  {
    hide Write, SeedModels, SeededMessage;
    var s := Write(w, ModelsNotReady, SetConditions([NotReady]), env);
    SeedModelsReports(cfg, w, w.req, env);
    SeedModelsReports(cfg, s.w, s.br, env);
  }

  lemma SeedModelsReports(cfg: Config, w: World, br: Request, env: Env)
    ensures var r := SeedModels(cfg, w, br, env);
            r.end == Done && r.present ==> Holds(r.w, ModelsExists, SeededMessage(cfg, br.content.spec.models))
  {
    hide Prune, SeedEach, ReportSeeding, List, SeederSelector, Tags, SeededMessage;
    var models := br.content.spec.models;
    var listed := List(w.jobs, SeederSelector(cfg));
    var p := Prune(w, br, listed, HashOf(br.content), Tags(models), {}, env);
    var s := SeedEach(cfg, p.w, p.br, models, 0, p.seen, env);
    ReportSeedingReports(cfg, s.w, p.br, models, List(s.w.jobs, SeederSelector(cfg)), env);
  }

  lemma ReportSeedingReports(cfg: Config, w: World, br: Request, models: seq<Model>, listed: seq<Job>, env: Env)
    ensures var r := ReportSeeding(cfg, w, br, models, listed, env);
            r.end == Done && r.present ==> Holds(r.w, ModelsExists, SeededMessage(cfg, models))
  {
    hide Write, UnfinishedNames, SucceededTags, Join, SeededMessage, Tags;
  }

  lemma ModelsPhaseAnnouncesNothing(cfg: Config, w: World, env: Env)
    requires NotAvailable(w)
    ensures NotAvailable(EnsureModelsExist(cfg, w, w.req, env).w)
  {
    hide EnsureModelsExist;
    var r := EnsureModelsExist(cfg, w, w.req, env).w;
    var c := Find(r.req.conditions, BentoAvailable);
    if c.Some? && c.value.status == True {
      ModelsPhaseMakesNoneTrue(cfg, w, w.req, env, BentoAvailable, c.value.message);
    }
  }

  lemma PhasesPublish(cfg: Config, w: World, env: Env)
    requires NotAvailable(w) && CheckedBacked(w)
    ensures var r := Phases(cfg, w, w.req, env);
            NotAvailable(r.w) || Published(cfg, r.w, w.req.content)
  {
    hide EnsureModelsExist, EnsureImageExists, Finish, ModelsPhaseReads, BentoImageName, CheckedBacked, Grounds;
    hide SeededMessage, NotAvailable, Published;
    var c := w.req.content;
    var models := if SeedsModels(c) then EnsureModelsExist(cfg, w, w.req, env)
                  else ModelsResult(w, w.req, false, Done);
    ModelsPhaseKeepsRequest(cfg, w, w.req, env);
    ModelsPhaseBacked(cfg, w, env);
    ModelsPhaseReports(cfg, w, env);
    ModelsPhaseAnnouncesNothing(cfg, w, env);
    var r := EnsureImageExists(cfg, models.w, models.br, env);
    ImagePhaseTruths(cfg, models.w, models.br, env, r.image);
    ImagePhaseAnnouncesNothing(cfg, models.w, models.br, env);
    FinishPublishes(cfg, models, r, env, c);
  }

  /** Whatever fails, a pass announces only what it has published, for the content it worked on. */
  lemma PassPublishes(cfg: Config, w: World, env: Env)
    requires NotAvailable(w) && Tidy(w) && CheckedBacked(w)
    ensures NotAvailable(Pass(cfg, w, env)) || Published(cfg, Pass(cfg, w, env), w.req.content)
  {
    hide Pass, Phases, Tidy, Write, BentoImageName, IsBuilder, SeededMessage, Honest, Entry;
    var ran, w1 := Enter(cfg, w, env);
    EnteredTruths(cfg, w, w1, "");
    if ran {
      PhasesPublish(cfg, w1, env);
      ConcludedPublished(cfg, Phases(cfg, w1, w1.req, env), env, w.req.content);
    }
  }

  lemma ConcludedPublished(cfg: Config, r: BodyResult, env: Env, c: Content)
    requires NotAvailable(r.w) || Published(cfg, r.w, c)
    ensures NotAvailable(Concluded(r, env)) || Published(cfg, Concluded(r, env), c)
  {
    hide Write, BentoImageName, SeededMessage;
  }

  /** The available state absorbs every pass. */
  lemma AvailableAbsorbs(cfg: Config, w: World, env: Env)
    requires SaysAvailable(w.req.conditions)
    ensures Pass(cfg, w, env) == w
  {
  }

  /** What is published stays so through everything that is not a pass. */
  lemma OtherStepKeepsPublished(cfg: Config, w: World, step: Step, c: Content)
    requires !step.PassStep?
    ensures NotAvailable(Next(cfg, w, step)) == NotAvailable(w)
    ensures Published(cfg, w, c) ==> Published(cfg, Next(cfg, w, step), c)
  {
    hide WithForeign, BentoImageName, SeededMessage, Distinct;
    OtherStepKeepsBento(cfg, w, step);
  }

  lemma OtherStepKeepsBento(cfg: Config, w: World, step: Step)
    requires !step.PassStep?
    ensures var w' := Next(cfg, w, step);
            && w'.bento == w.bento && w'.req.namespace == w.req.namespace
            && (Distinct(w.req.conditions) ==> Distinct(w'.req.conditions))
  {
    hide WithForeign, Distinct;
  }

  /** The pass at that place of a run announced the Bento, and what it published for its content still stands. */
  ghost predicate AnnouncedAt(cfg: Config, w: World, steps: seq<Step>, k: nat)
    requires k < |steps|
  {
    && steps[k].PassStep? && NotAvailable(Run(cfg, w, steps[..k]))
    && Published(cfg, Run(cfg, w, steps), Run(cfg, w, steps[..k]).req.content)
  }

  /**
   In every reachable state BentoAvailable=True means that one pass of the run announced it, and
   that the Bento stored now has the image, tag, service and models of the content this very pass
   worked on, with ImageExists=True for that image and, where its models are seeded separately,
   ModelsExists=True with the message of those models. Nothing later changes this, edits included.
   */
  lemma {:induction false} AvailableMeansPublished(cfg: Config, w: World, steps: seq<Step>)
    requires NotAvailable(w) && Tidy(w) && CheckedBacked(w) && Distinct(w.req.conditions)
    ensures Distinct(Run(cfg, w, steps).req.conditions)
    ensures NotAvailable(Run(cfg, w, steps)) || exists k :: 0 <= k < |steps| && AnnouncedAt(cfg, w, steps, k)
    decreases |steps|
  {
    hide Next, Tidy, CheckedBacked, NotAvailable, Published, Distinct;
    if steps != [] {
      var n := |steps| - 1;
      var before, last := steps[..n], steps[n];
      AvailableMeansPublished(cfg, w, before);
      CheckedImagesExist(cfg, w, before);
      var u := Run(cfg, w, before);
      StepAvailability(cfg, u, last);
      if NotAvailable(u) {
        if !NotAvailable(Run(cfg, w, steps)) {
          assert AnnouncedAt(cfg, w, steps, n);
        }
      } else {
        var k :| 0 <= k < |before| && AnnouncedAt(cfg, w, before, k);
        StillPublished(cfg, u, last, Run(cfg, w, before[..k]).req.content);
        assert before[..k] == steps[..k] && before[k] == steps[k];
        assert AnnouncedAt(cfg, w, steps, k);
      }
    }
  }

  lemma StepAvailability(cfg: Config, w: World, step: Step)
    requires Tidy(w) && CheckedBacked(w) && Distinct(w.req.conditions)
    ensures Distinct(Next(cfg, w, step).req.conditions)
    ensures NotAvailable(w) ==>
              NotAvailable(Next(cfg, w, step))
              || (step.PassStep? && Published(cfg, Next(cfg, w, step), w.req.content))
  {
    hide Pass, Tidy, CheckedBacked, WithForeign, Published, Distinct;
    if step.PassStep? {
      if NotAvailable(w) {
        PassPublishes(cfg, w, step.env);
      }
    } else {
      OtherStepKeepsPublished(cfg, w, step, w.req.content);
      OtherStepKeepsBento(cfg, w, step);
    }
  }

  lemma StillPublished(cfg: Config, w: World, step: Step, c: Content)
    requires Distinct(w.req.conditions) && !NotAvailable(w) && Published(cfg, w, c)
    ensures Published(cfg, Next(cfg, w, step), c)
  {
    hide Pass, WithForeign, Published, Distinct;
    if step.PassStep? {
      NotAvailableSays(w);
      AvailableAbsorbs(cfg, w, step.env);
    } else {
      OtherStepKeepsPublished(cfg, w, step, c);
    }
  }

  /**
   Publishing refreshes the spec of a Bento that exists, not its annotations: it ends with the
   wanted Bento exactly when there was none or its annotations already agreed.
   */
  lemma PublishedAnnotationsIff(w: World, seeds: bool, br: Request, image: string, env: Env)
    requires Publish(w, seeds, br, image, env).end == Done
    ensures Publish(w, seeds, br, image, env).w.bento == Some(BentoFor(br.content, seeds, image)) <==>
              w.bento.None? || (w.bento.value.separateModels == seeds
                                && w.bento.value.storedInS3 == IsStoredInS3(br.content))
  {
    hide Write, IsStoredInS3;
  }
}
