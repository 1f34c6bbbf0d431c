/** When an undisturbed pass announces a Bento, and which, in terms of the stored records, jobs and settings alone. */
module Announcements {
  import opened Basics
  import opened Conditions
  import opened Cluster
  import opened Naming
  import opened StatusWriter
  import opened ImagePhase
  import opened ModelsPhase
  import opened Reconcile
  import opened JobFrames
  import opened Runs
  import opened BuilderJobs
  import opened Convergence
  import opened Provenance
  import opened Availability
  import opened SeederJobs
  import opened VolumeClaims
  import opened Resets
  import opened Outcomes
  import opened ForceBuild
  import opened NamingLaws
  import opened Verdicts
  import opened SeedingReports
  import Records

  /** The status has a record of exactly the request's models, in the controller's storage class. */
  predicate HasRecord(cfg: Config, w: World)
  {
    var c := Find(w.req.conditions, ModelsExists);
    && c.Some? && c.value.status == True
    && Records.Records(c.value.message, cfg.storageClass, Tags(w.req.content.spec.models))
  }

  /** A listed seeder job of the request as it is, for one of its models. */
  predicate SeedsNow(w: World, j: Job)
  {
    j.hash == HashOf(w.req.content) && DecodedTag(j.labels) in Tags(w.req.content.spec.models)
  }

  /** Every model has such a job with as many successes as it asks for, and none of them has just failures. */
  predicate AllSeeded(cfg: Config, w: World)
  {
    var jobs := Seeders(cfg, w);
    && (forall t <- Tags(w.req.content.spec.models) :: exists j <- jobs ::
          SeedsNow(w, j) && DecodedTag(j.labels) == t && j.completions == Some(j.succeeded))
    && forall j <- jobs | SeedsNow(w, j) && j.failed > 0 :: j.completions == Some(j.succeeded)
  }

  /** The image is built, listed without a build being forced, or recorded, with no seeder job to withdraw the record. */
  predicate ImageKnown(cfg: Config, w: World, image: string)
  {
    || JobDone(cfg, w)
    || (image in w.registry && !Forced(w.req.content))
    || (Reads(w, ImageExistsChecked, True, image)
        && (Seeds(w.req.content) && !HasRecord(cfg, w) ==> forall j <- Seeders(cfg, w) :: j.hash == HashOf(w.req.content)))
  }

  predicate Announceable(cfg: Config, w: World, image: string)
  {
    var c := w.req.content;
    && (c.spec.dockerConfigSecret != "" || !cfg.hasCredentials || w.req.namespace != "")
    && (Seeds(c) ==> HasRecord(cfg, w) || AllSeeded(cfg, w))
    && ImageKnown(cfg, w, image)
  }

  lemma RecordedIff(cfg: Config, w: World)
    requires forall m <- w.req.content.spec.models :: Records.Listable(m.tag)
    ensures ShortCircuits(cfg, w) <==> HasRecord(cfg, w)
  {
    hide Records.Records, SeededMessage;
    var models := w.req.content.spec.models;
    var c := Find(w.req.conditions, ModelsExists);
    if c.Some? && c.value.status == True {
      Records.ShortCircuitsIff(cfg, w, c.value.message);
    }
  }

  lemma SeededIff(cfg: Config, w: World)
    ensures SeedersDone(cfg, w) <==> AllSeeded(cfg, w)
  {
    hide SeederSelector, List, DecodedTag;
    var current := CurrentSeeders(cfg, w);
    assert forall j :: j in current <==> j in Seeders(cfg, w) && SeedsNow(w, j);
    assert forall j: Job :: Completed(j) <==> j.completions == Some(j.succeeded);
  }

  lemma BuiltIff(cfg: Config, w: World)
    ensures Built(cfg, w) <==> JobDone(cfg, w)
  {
    hide Builders;
  }

  lemma ReadyIff(cfg: Config, w: World, image: string)
    requires forall m <- w.req.content.spec.models :: Records.Listable(m.tag)
    ensures ReadyToPublish(cfg, w, image) <==> Announceable(cfg, w, image)
  {
    hide ShortCircuits, HasRecord, SeedersDone, AllSeeded, Built, JobDone, Seeders, Find;
    RecordedIff(cfg, w);
    SeededIff(cfg, w);
    BuiltIff(cfg, w);
  }

  // The Bento.

  /** Announced in so many words, and marked as the request was when the Bento was made. */
  predicate Marked(before: Option<Bento>, c: Content, w': World)
  {
    && Reads(w', BentoAvailable, True, "Bento is generated") && w'.bento.Some?
    && var b := w'.bento.value;
       if before.None? then b.separateModels == Seeds(c) && b.storedInS3 == Says(c, StoredInS3Annotation)
       else b.separateModels == before.value.separateModels && b.storedInS3 == before.value.storedInS3
  }

  lemma AnnounceMarks(w: World, env: Env)
    ensures var r := Announce(w, env).w;
            r.bento == w.bento && (NotAvailable(w) && !NotAvailable(r) ==> Reads(r, BentoAvailable, True, "Bento is generated"))
  {
    hide Write;
  }

  lemma PublishMarks(w: World, br: Request, image: string, env: Env)
    requires NotAvailable(w)
    ensures var r := Publish(w, Seeds(br.content), br, image, env).w;
            !NotAvailable(r) ==> Marked(w.bento, br.content, r)
  {
    hide Announce, Reads, NotAvailable, Reflects, SameOwn;
    var wanted := BentoFor(br.content, Seeds(br.content), image);
    AnnounceMarks(w, env);
    StillNotAvailable(w, w.(bento := Some(wanted)));
    AnnounceMarks(w.(bento := Some(wanted)), env);
    if w.bento.Some? {
      var refreshed := Refreshed(w.bento.value, wanted);
      StillNotAvailable(w, w.(bento := Some(refreshed)));
      AnnounceMarks(w.(bento := Some(refreshed)), env);
    }
  }

  lemma StillNotAvailable(w: World, w1: World)
    requires NotAvailable(w) && w1.req == w.req
    ensures NotAvailable(w1)
  {
  }

  lemma FinishMarks(cfg: Config, models: ModelsResult, image: ImageResult, env: Env, c: Content)
    requires NotAvailable(image.w)
    requires image.present && image.end == Done ==> image.br.content == c
    ensures var r := Finish(cfg, IsSeparateModels(c), models, image, env).w;
            !NotAvailable(r) ==> Marked(image.w.bento, c, r)
  {
    hide Write, CleanUp, Publish, Marked;
    if image.present && image.end == Done {
      var w := CleanUp(cfg, image.w, image.br, c.spec.models, 0, env);
      PublishMarks(image.w, image.br, image.image, env);
      PublishMarks(w, image.br, image.image, env);
      assert Seeds(c) <==> IsSeparateModels(c) && !IsStoredInS3(c);
    }
  }

  lemma PhasesMark(cfg: Config, w: World, env: Env)
    requires NotAvailable(w) && Quiet(env)
    ensures var r := Phases(cfg, w, w.req, env).w;
            !NotAvailable(r) ==> Marked(w.bento, w.req.content, r)
  {
    hide EnsureModelsExist, EnsureImageExists, Finish, NotAvailable, Marked, Quiet;
    var c := w.req.content;
    var models := if SeedsModels(c) then EnsureModelsExist(cfg, w, w.req, env)
                  else ModelsResult(w, w.req, false, Done);
    ModelsPhaseInSync(cfg, w, env);
    ModelsPhaseAnnouncesNothing(cfg, w, env);
    ImagePhaseAnnouncesNothing(cfg, models.w, models.br, env);
    ImagePhaseInSync(cfg, models.w, models.br, env);
    FinishMarks(cfg, models, EnsureImageExists(cfg, models.w, models.br, env), env, c);
  }

  /** An error of an undisturbed pass is what BentoAvailable says in the end. */
  lemma ErrorsAreReported(r: BodyResult, env: Env)
    requires Quiet(env)
    ensures if r.end.Err? then Reads(Concluded(r, env), BentoAvailable, False, r.end.message) else Concluded(r, env) == r.w
  {
    hide Write, Quiet;
    if r.end.Err? {
      QuietOk(r.w, Deferred, SetConditions([Report(BentoAvailable, False, r.end.message)]), env);
    }
  }

  lemma FalseIsNotAvailable(w: World, message: string)
    requires Reads(w, BentoAvailable, False, message)
    ensures NotAvailable(w)
  {
  }

  /**
   An undisturbed pass over a request that is not available yet announces a Bento exactly when there
   is a place for the registry secret and image and models are in place, and then one of the
   request's tag, image, service and models. A new Bento carries the request's annotations, an
   existing one those it had.
   */
  lemma AnnouncesExactly(cfg: Config, w: World, image: string, env: Env)
    requires Quiet(env) && Tidy(w) && CheckedBacked(w) && Distinct(w.req.conditions) && NotAvailable(w)
    requires BentoImageName(cfg, w.req.namespace, w.req.content, false) == Some(image)
    requires forall m <- w.req.content.spec.models :: Records.Listable(m.tag)
    ensures var w', c := Pass(cfg, w, env), w.req.content;
            if Announceable(cfg, w, image) then
              && Marked(w.bento, c, w')
              && var b := w'.bento.value;
                 b.tag == c.spec.bentoTag && b.image == image && b.serviceName == c.spec.serviceName && b.models == c.spec.models
            else NotAvailable(w')
  {
    hide Pass, Phases, BentoImageName, ReadyToPublish, Announceable, NotAvailable, Distinct, Quiet, Tidy, Entry, CheckedBacked;
    hide Marked, Concluded, Holds, SeededMessage, SeedsModels, Reads;
    ReadyIff(cfg, w, image);
    AnnouncesIff(cfg, w, image, env);
    NotAvailableSays(w);
    var ran, w1 := Enter(cfg, w, env);
    UnknownIsNotAvailable(w1);
    PhasesMark(cfg, w1, env);
    var r := Phases(cfg, w1, w1.req, env);
    ErrorsAreReported(r, env);
    if r.end.Err? {
      FalseIsNotAvailable(Pass(cfg, w, env), r.end.message);
    }
    if Announceable(cfg, w, image) {
      assert Marked(w.bento, w.req.content, Pass(cfg, w, env));
      MarkedHasBento(w.bento, w.req.content, Pass(cfg, w, env));
    }
  }

  lemma MarkedHasBento(before: Option<Bento>, c: Content, w': World)
    requires Marked(before, c, w')
    ensures w'.bento.Some?
  {
  }

  // Waiting for the models.

  /** With the image in place an undisturbed pass finds it after its models phase. */
  lemma KnownIsFound(cfg: Config, w: World, image: string, env: Env)
    requires Quiet(env) && Tidy(w) && CheckedBacked(w) && SeedsModels(w.req.content)
    requires BentoImageName(cfg, w.req.namespace, w.req.content, false) == Some(image)
    requires SecretFits(cfg, w.req.namespace, w.req.content)
    requires (Holds(w, ImageExistsChecked, image) && !StaleSeeder(cfg, w)) || RegistryReports(w, w.req.content, image)
             || Built(cfg, w)
    ensures var models := EnsureModelsExist(cfg, w, w.req, env);
            var r := EnsureImageExists(cfg, models.w, models.br, env);
            && r.present && r.end == Done && r.br.content == w.req.content
            && Seeders(cfg, r.w) == Seeders(cfg, models.w)
  {
    hide EnsureModelsExist, EnsureImageExists, BentoImageName, Quiet, CheckedBacked, Tidy, SecretFits, SeedsModels;
    hide Built, RegistryReports, SeedingEnds, ShortCircuits, SeederSelector, List, StaleSeeder;
    var models := EnsureModelsExist(cfg, w, w.req, env);
    QuietModelsPhase(cfg, w, env);
    QuietModelsClaim(cfg, w, env, image);
    ModelsPhaseBacked(cfg, w, env);
    ModelsPhaseKeepsOwn(cfg, w, env);
    ModelsPhaseKeepsBuilders(cfg, w, w.req, env, true);
    SameReports(w, models.w);
    BuiltSame(cfg, w, models.w);
    QuietImageIff(cfg, models.w, image, env);
    ImagePhaseInSync(cfg, models.w, models.br, env);
    ImagePhaseKeepsSeeders(cfg, models.w, models.br, env);
  }

  /** What a pass says that has the image but not all the models. */
  ghost predicate SaysUnseeded(cfg: Config, w: World, end: End, w': World)
  {
    if exists j <- Seeders(cfg, w) :: SeedsNow(w, j) && Unfinished(j, true)
    then end.Err? && "ensure model exists: Model seeder jobs failed: " <= end.message
    else end == Done && Reads(w', BentoAvailable, Unknown, "Model is seeding")
  }

  lemma FinishWaits(cfg: Config, models: ModelsResult, image: ImageResult, env: Env)
    requires Quiet(env) && image.present && image.end == Done && Seeds(image.br.content) && !models.present
    ensures var r := Finish(cfg, true, models, image, env);
            if models.end.Err? then r == BodyResult(image.w, Err("ensure model exists: " + models.end.message))
            else r.end == Done && Reads(r.w, BentoAvailable, Unknown, "Model is seeding")
  {
    hide Write, Quiet, CleanUp, Publish;
    assert !IsStoredInS3(image.br.content);
    QuietOk(image.w, WaitingForModels, SetConditions([Report(BentoAvailable, Unknown, "Model is seeding")]), env);
  }

  lemma FailureBegins(text: string, after: string, jobs: seq<Job>)
    requires Lists(text, "Model seeder jobs failed: ", after, jobs, true)
    ensures "ensure model exists: Model seeder jobs failed: " <= "ensure model exists: " + text
  {
    var rest := text[|"Model seeder jobs failed: "|..];
    assert text == "Model seeder jobs failed: " + rest;
    assert "ensure model exists: " + text == ("ensure model exists: " + "Model seeder jobs failed: ") + rest;
  }

  lemma FailedIff(cfg: Config, w: World)
    ensures (exists j <- CurrentSeeders(cfg, w) :: SeederFailed(j)) <==>
            (exists j <- Seeders(cfg, w) :: SeedsNow(w, j) && Unfinished(j, true))
  {
    hide Seeders, DecodedTag;
    assert forall j: Job :: SeederFailed(j) <==> Unfinished(j, true);
    assert forall j :: j in CurrentSeeders(cfg, w) <==> j in Seeders(cfg, w) && SeedsNow(w, j);
  }

  lemma ErrorNamesJobs(cfg: Config, w: World, env: Env)
    requires Tidy(w) && Quiet(env) && !ShortCircuits(cfg, w)
    requires forall m <- w.req.content.spec.models :: Records.Listable(m.tag)
    ensures var r := EnsureModelsExist(cfg, w, w.req, env);
            r.end.Err? ==> "ensure model exists: Model seeder jobs failed: " <= "ensure model exists: " + r.end.message
  {
    hide EnsureModelsExist, Tidy, Quiet, Unfinished, Seeders, Reads, Records.Records, DecodedTag, Lists;
    ModelsVerdict(cfg, w, env);
    var r := EnsureModelsExist(cfg, w, w.req, env);
    if r.end.Err? {
      FailureBegins(r.end.message,
        if env.podsUninitialised then ": no validate HF_TOKEN for seeding huggingface model" else "", Seeders(cfg, r.w));
    }
  }

  /** The image is known and the secret has a place, but the models are neither recorded as seeded nor seeded. */
  predicate LacksModels(cfg: Config, w: World, image: string)
  {
    && SecretFits(cfg, w.req.namespace, w.req.content) && !ShortCircuits(cfg, w) && !SeedersDone(cfg, w)
    && (|| (Holds(w, ImageExistsChecked, image) && !StaleSeeder(cfg, w))
        || RegistryReports(w, w.req.content, image)
        || Built(cfg, w))
  }

  lemma PhasesWait(cfg: Config, w: World, image: string, env: Env)
    requires Quiet(env) && Tidy(w) && CheckedBacked(w) && Seeds(w.req.content)
    requires BentoImageName(cfg, w.req.namespace, w.req.content, false) == Some(image)
    requires forall m <- w.req.content.spec.models :: Records.Listable(m.tag)
    requires LacksModels(cfg, w, image)
    ensures var r := Phases(cfg, w, w.req, env);
            SaysUnseeded(cfg, w, r.end, r.w)
  {
    hide EnsureModelsExist, EnsureImageExists, BentoImageName, Quiet, CheckedBacked, Tidy, SecretFits, Finish, Reads;
    hide Built, RegistryReports, ShortCircuits, SeedersDone, Seeders, StaleSeeder, SeededExactly, Unfinished, CurrentSeeders;
    assert SeedsModels(w.req.content);
    var models := EnsureModelsExist(cfg, w, w.req, env);
    QuietModelsPhase(cfg, w, env);
    KnownIsFound(cfg, w, image, env);
    FinishWaits(cfg, models, EnsureImageExists(cfg, models.w, models.br, env), env);
    FailedIff(cfg, w);
    ErrorNamesJobs(cfg, w, env);
  }

  lemma Lacking(cfg: Config, w: World, image: string)
    requires forall m <- w.req.content.spec.models :: Records.Listable(m.tag)
    requires Seeds(w.req.content) && !HasRecord(cfg, w) && !AllSeeded(cfg, w) && ImageKnown(cfg, w, image)
    requires w.req.content.spec.dockerConfigSecret != "" || !cfg.hasCredentials || w.req.namespace != ""
    ensures LacksModels(cfg, w, image)
  {
    hide ShortCircuits, HasRecord, SeedersDone, AllSeeded, Built, JobDone, Seeders, Find;
    RecordedIff(cfg, w);
    SeededIff(cfg, w);
    BuiltIff(cfg, w);
  }

  lemma EnteredLacking(cfg: Config, w: World, w1: World, image: string)
    requires Entered(w, w1) && LacksModels(cfg, w, image)
    ensures LacksModels(cfg, w1, image)
    ensures forall j :: SeedsNow(w1, j) <==> SeedsNow(w, j)
    ensures Seeders(cfg, w1) == Seeders(cfg, w)
  {
    hide SeederSelector, BuilderSelector, List, SeededMessage, SecretFits, SeedsModels, Kept, SucceededTags, Tags;
    SameStore(w, w1);
    SameReports(w, w1);
    BuiltSame(cfg, w, w1);
    assert Seeders(cfg, w1) == Seeders(cfg, w);
    assert forall kind: Kind, m: string :: !kind.Foreign? && kind != BentoAvailable ==>
             (Holds(w1, kind, m) <==> Holds(w, kind, m));
  }

  /**
   An undisturbed pass that has the image and a place for the secret but not all the models says that
   they are being seeded, or, if a current job has failed without finishing, that it has failed, in
   BentoAvailable=False. Either way it gets as far as the image first.
   */
  lemma UnseededPass(cfg: Config, w: World, image: string, env: Env)
    requires Quiet(env) && Tidy(w) && CheckedBacked(w) && Distinct(w.req.conditions) && NotAvailable(w)
    requires BentoImageName(cfg, w.req.namespace, w.req.content, false) == Some(image)
    requires forall m <- w.req.content.spec.models :: Records.Listable(m.tag)
    requires Seeds(w.req.content) && !HasRecord(cfg, w) && !AllSeeded(cfg, w) && ImageKnown(cfg, w, image)
    requires w.req.content.spec.dockerConfigSecret != "" || !cfg.hasCredentials || w.req.namespace != ""
    ensures var w' := Pass(cfg, w, env);
            if exists j <- Seeders(cfg, w) :: SeedsNow(w, j) && Unfinished(j, true)
            then exists message :: "ensure model exists: Model seeder jobs failed: " <= message && Reads(w', BentoAvailable, False, message)
            else Reads(w', BentoAvailable, Unknown, "Model is seeding")
  {
    hide Pass, Phases, BentoImageName, NotAvailable, Distinct, Quiet, Tidy, Entry, CheckedBacked, Concluded, Reads;
    hide Unfinished, AllSeeded, HasRecord, LacksModels, Seeders, ImageKnown;
    NotAvailableSays(w);
    var ran, w1 := Enter(cfg, w, env);
    EnteredTruths(cfg, w, w1, image);
    Lacking(cfg, w, image);
    EnteredLacking(cfg, w, w1, image);
    PhasesWait(cfg, w1, image, env);
    ErrorsAreReported(Phases(cfg, w1, w1.req, env), env);
  }
}
