/**
 How the bound on builder jobs breaks: when the first read of a status writer in the models phase
 fails, the image phase goes on with an empty object in place of the request.
 */
module LostRequest {
  import opened Basics
  import opened Conditions
  import opened Cluster
  import opened Naming
  import opened StatusWriter
  import opened ImagePhase
  import opened ModelsPhase
  import opened Reconcile
  import opened Listing
  import opened JobFrames
  import opened BuilderJobs
  import opened Convergence
  import opened Provenance
  import opened Runs
  import opened Outcomes

  /** Every call succeeds except the first read of the writer that reports models as not ready. */
  ghost predicate OnlyFirstReadFails(env: Env)
  {
    && (forall call: Call :: env.fails(call) <==> call == Fetch(ModelsNotReady, 0))
    && (forall site: Site, attempt: nat :: env.foreign(site, attempt) == [])
  }

  /** A request with separate models whose models phase is about to make its first report. */
  predicate AboutToSeed(w: World)
  {
    && SeedsModels(w.req.content)
    && w.req.conditions != [] && !SaysAvailable(w.req.conditions)
    && Find(w.req.conditions, BentoAvailable).Some?
    && Find(w.req.conditions, BentoAvailable).value.status == Unknown
    && Find(w.req.conditions, ModelsExists).None?
  }

  /**
   The pass then creates one more builder job for the request, next to any that exist. It carries
   the request's labels and hash, but builds the image named after the empty object.
   */
  lemma LostRequestAddsBuilder(cfg: Config, w: World, env: Env, image: string)
    requires AboutToSeed(w) && OnlyFirstReadFails(env) && !cfg.hasCredentials
    requires StrayImage(cfg) == Some(image) && image !in w.registry && Builders(cfg, w, false) == []
    ensures var w' := Pass(cfg, w, env);
            && w'.jobs == w.jobs + [NewBuilderJob(cfg, w.req.content, image, w.nextId)]
            && Builders(cfg, w', true) == Builders(cfg, w, true) + [NewBuilderJob(cfg, w.req.content, image, w.nextId)]
            && NotAvailable(w')
  {
    hide CheckImage, Phases, Builders, NewBuilderJob, BentoImageName, SaysAvailable;
    assert Pass(cfg, w, env) == Phases(cfg, w, w.req, env).w && Phases(cfg, w, w.req, env).end == Done by {
      LostPhases(cfg, w, env, image);
    }
    CheckCreates(cfg, w, image, env);
    LostPhases(cfg, w, env, image);
    BuildersAfterCreate(cfg, w, w.req.content, image, true);
    var w1 := w.(jobs := w.jobs + [NewBuilderJob(cfg, w.req.content, image, w.nextId)], nextId := w.nextId + 1);
    SameBuilt(cfg, w1, Pass(cfg, w, env), true);
  }

  lemma SameBuilt(cfg: Config, w: World, w1: World, separateModels: bool)
    requires w1.jobs == w.jobs
    ensures Builders(cfg, w1, separateModels) == Builders(cfg, w, separateModels)
  {
  }

  /** What is left of the pass: the check of an image nobody asked for, and a note that it is being built. */
  lemma LostPhases(cfg: Config, w: World, env: Env, image: string)
    requires AboutToSeed(w) && OnlyFirstReadFails(env) && !cfg.hasCredentials
    requires StrayImage(cfg) == Some(image) && image !in w.registry && Builders(cfg, w, false) == []
    ensures var r := Phases(cfg, w, w.req, env);
            r.end == Done && r.w.jobs == CheckImage(cfg, w, false, image, env).w.jobs && NotAvailable(r.w)
  {
    hide EnsureModelsExist, EnsureImageExists, CheckImage, Finish, Builders, NewBuilderJob, BentoImageName, SaysAvailable;
    var lost := ModelsResult(w, EmptyRequest, false, Err("update status"));
    FirstReadFails(cfg, w, env);
    LostImage(cfg, w, image, env);
    CheckCreates(cfg, w, image, env);
    LostFinish(cfg, IsSeparateModels(w.req.content), lost, CheckImage(cfg, w, false, image, env), env);
  }

  lemma FirstReadFails(cfg: Config, w: World, env: Env)
    requires env.fails(Fetch(ModelsNotReady, 0)) && Find(w.req.conditions, ModelsExists).None?
    ensures EnsureModelsExist(cfg, w, w.req, env) == ModelsResult(w, EmptyRequest, false, Err("update status"))
  {
    assert Write(w, ModelsNotReady, SetConditions([NotReady]), env) == Written(w, EmptyRequest, false, false);
    hide Write, SeedModels;
  }

  lemma LostImage(cfg: Config, w: World, image: string, env: Env)
    requires OnlyFirstReadFails(env) && StrayImage(cfg) == Some(image) && !cfg.hasCredentials
    ensures EnsureImageExists(cfg, w, EmptyRequest, env) == CheckImage(cfg, w, false, image, env)
  {
    hide CheckImage, EnsureBuilt, BentoImageName;
    assert !IsSeparateModels(EmptyRequest.content);
  }

  lemma LostFinish(cfg: Config, separateModels: bool, models: ModelsResult, image: ImageResult, env: Env)
    requires OnlyFirstReadFails(env) && !image.present && image.end == Done
    ensures var r := Finish(cfg, separateModels, models, image, env);
            r.end == Done && r.w.jobs == image.w.jobs && NotAvailable(r.w)
  {
    hide Write;
    assert Undisturbed(env, WaitingForImage);
    UndisturbedWrite(image.w, WaitingForImage, SetConditions([
      Report(BentoAvailable, Unknown, "Bento image is building")]), env);
  }

  /** Nobody has built the image: it is not in the registry and the store has no builder job. */
  predicate Untouched(cfg: Config, w: World, image: string)
  {
    image !in w.registry && forall j <- w.jobs :: !IsBuilder(cfg, j.labels)
  }

  /**
   Such a job ends up vouching for the request's own image: after the pass that loses the request,
   the completion of the job it made and one undisturbed pass, ImageExists=True names an image that
   the registry never had and no job was made for, at any pass of that run.
   */
  lemma WrongImageIsBelieved(
      cfg: Config, w: World, lost: Env, wrong: string, done: Step, image: string, env: Env)
    requires AboutToSeed(w) && OnlyFirstReadFails(lost) && Quiet(env) && !cfg.hasCredentials
    requires Tidy(w) && CheckedBacked(w) && Distinct(w.req.conditions) && !HasAffinity(w.req.content)
    requires StrayImage(cfg) == Some(wrong) && wrong !in w.registry && wrong != image
    requires BentoImageName(cfg, w.req.namespace, w.req.content, false) == Some(image) && Untouched(cfg, w, image)
    requires done.Progress? && done.job == w.nextId && done.succeeded == 1
    ensures var steps := [PassStep(lost), done, PassStep(env)];
            && Holds(Run(cfg, w, steps), ImageExists, image)
            && forall k :: 0 <= k < |steps| ==> !Witness(cfg, Run(cfg, w, steps[..k]), image)
  {
    hide Pass, Tidy, CheckedBacked, Distinct, BentoImageName, Builders, NewBuilderJob, IsBuilder, Quiet, Witness, Untouched;
    hide NotAvailable, HasAffinity, Built, Holds, OnlyFirstReadFails, SaysAvailable, Find;
    var w1 := Pass(cfg, w, lost);
    var w2 := Next(cfg, w1, done);
    UntouchedLists(cfg, w, image);
    LostRequestAddsBuilder(cfg, w, lost, wrong);
    PassTidy(cfg, w, lost);
    PassTruths(cfg, w, lost);
    OneJobCompletes(cfg, w, w1, wrong, done, image);
    StepTidy(cfg, w1, done);
    StepTruths(cfg, w1, done);
    BuiltIsRecorded(cfg, w2, image, env);
    ThreeSteps(cfg, w, PassStep(lost), done, PassStep(env));
  }

  lemma UntouchedLists(cfg: Config, w: World, image: string)
    requires Untouched(cfg, w, image)
    ensures Builders(cfg, w, true) == [] && Builders(cfg, w, false) == [] && !Witness(cfg, w, image)
  {
    hide BuilderSelector, IsBuilder;
    SelectedIsBuilder(cfg, w, true);
    SelectedIsBuilder(cfg, w, false);
    NoneSelected(w.jobs, BuilderSelector(cfg, true));
    NoneSelected(w.jobs, BuilderSelector(cfg, false));
  }

  lemma {:induction false} NoneSelected(jobs: seq<Job>, selector: Labels)
    requires forall j <- jobs :: j !in List(jobs, selector)
    ensures List(jobs, selector) == []
  {
    hide Selects;
    if jobs != [] {
      assert jobs[0] in jobs;
      NoneSelected(jobs[1..], selector);
    }
  }

  /** The one builder job completes; nothing in the store speaks for the request's image. */
  lemma OneJobCompletes(cfg: Config, w: World, w1: World, wrong: string, done: Step, image: string)
    requires Untouched(cfg, w, image) && wrong != image && IsSeparateModels(w.req.content) && !HasAffinity(w.req.content)
    requires w1.jobs == w.jobs + [NewBuilderJob(cfg, w.req.content, wrong, w.nextId)]
    requires Builders(cfg, w1, true) == [NewBuilderJob(cfg, w.req.content, wrong, w.nextId)]
    requires w1.registry == w.registry && w1.req.content == w.req.content
    requires done.Progress? && done.job == w.nextId && done.succeeded == 1
    ensures !Witness(cfg, w1, image)
    ensures var w2 := Next(cfg, w1, done);
            Built(cfg, w2) && !Witness(cfg, w2, image) && (NotAvailable(w1) ==> NotAvailable(w2))
  {
    hide BuilderSelector, IsBuilder, List, NewBuilderJob, WithStatus, HasAffinity, Updated, Completed, Next;
    ProgressStep(cfg, w1, done);
    var job := NewBuilderJob(cfg, w.req.content, wrong, w.nextId);
    StrayFacts(cfg, w.req.content, wrong, w.nextId);
    ProgressUpdates(w1.jobs, done, BuilderSelector(cfg, true));
    var w2 := Next(cfg, w1, done);
    assert Builders(cfg, w2, true) == [Updated(job, done)] && Completed(Updated(job, done)) by {
      CompletedBy(job, done);
    }
    forall j <- w2.jobs ensures IsBuilder(cfg, j.labels) ==> j.image != image {
      var i :| 0 <= i < |w2.jobs| && w2.jobs[i] == j;
      assert w1.jobs[i] in w1.jobs && j.image == w1.jobs[i].image && j.labels == w1.jobs[i].labels;
    }
  }

  lemma ProgressStep(cfg: Config, w: World, done: Step)
    requires done.Progress?
    ensures Next(cfg, w, done) == w.(jobs := WithStatus(w.jobs, done))
  {
  }

  lemma StrayFacts(cfg: Config, c: Content, image: string, id: nat)
    requires !HasAffinity(c)
    ensures var job := NewBuilderJob(cfg, c, image, id);
            job.image == image && job.hash == HashOf(c) && job.id == id && job.completions == Some(1)
  {
  }

  lemma CompletedBy(job: Job, done: Step)
    requires done.Progress? && job.completions == Some(done.succeeded) && job.id == done.job
    ensures Completed(Updated(job, done)) && Updated(job, done).hash == job.hash
  {
  }

  lemma CheckCreates(cfg: Config, w: World, image: string, env: Env)
    requires OnlyFirstReadFails(env) && image !in w.registry && Builders(cfg, w, false) == []
    ensures var r := CheckImage(cfg, w, false, image, env);
            && !r.present && r.end == Done
            && r.w == w.(req := r.w.req, jobs := w.jobs + [NewBuilderJob(cfg, w.req.content, image, w.nextId)],
                         nextId := w.nextId + 1)
  {
    hide Write, EnsureBuilt, Builders, NewBuilderJob, Reflects, SameOwn, CheckedConditions, Applied;
    var first := SetConditions([
      Report(ImageExistsChecked, Unknown, image),
      Report(BentoAvailable, Unknown, "Checking image exists")]);
    assert Undisturbed(env, CheckingImage) && Undisturbed(env, CheckedImage);
    UndisturbedWrite(w, CheckingImage, first, env);
    var s := Write(w, CheckingImage, first, env);
    UndisturbedWrite(s.w, CheckedImage, SetConditions(CheckedConditions(false, image)), env);
    var t := Write(s.w, CheckedImage, SetConditions(CheckedConditions(false, image)), env);
    CreatesFirst(cfg, t.w, t.br, image, env);
    assert Builders(cfg, t.w, false) == [] by { SameBuilt(cfg, w, t.w, false); }
  }

  /** With nothing listed a job is made. */
  lemma CreatesFirst(cfg: Config, w: World, br: Request, image: string, env: Env)
    requires OnlyFirstReadFails(env)
    ensures Builders(cfg, w, false) == [] ==>
              EnsureBuilt(cfg, w, br, false, image, env)
              == ImageResult(w.(jobs := w.jobs + [NewBuilderJob(cfg, br.content, image, w.nextId)], nextId := w.nextId + 1),
                             br, image, false, Done)
  {
    hide NewBuilderJob, BuilderSelector, List, DropStale, DeleteEach, TrackBuild;
  }

  const SampleContent: Content :=
    Content(Spec("a:1", "s3://a", "", [Model("m:1", "")], "", None, None, "", ""), map[],
            map[SeparateModelsAnnotation := "true"])

  const SampleReport: Condition := Condition(BentoAvailable, Unknown, "Reconciling", "Reconciling", 1)

  /** A store with one builder job for the request and nothing else. */
  function SampleWorld(cfg: Config): World
  {
    var job := NewBuilderJob(cfg, SampleContent, "registry/bentos:yatai.a.1.nomodels", 0);
    World(Request("ns", SampleContent, [SampleReport], 1), [job], {}, None, {}, 1, 1)
  }

  lemma SampleFacts(cfg: Config)
    ensures var w := SampleWorld(cfg);
            && Tidy(w) && |Builders(cfg, w, true)| == 1 && Builders(cfg, w, false) == []
  {
    hide NewBuilderJob, BuilderSelector;
    var image := "registry/bentos:yatai.a.1.nomodels";
    var job := NewBuilderJob(cfg, SampleContent, image, 0);
    NewBuilderIsListed(cfg, SampleContent, image, 0);
    BuilderId(cfg, SampleContent, image, 0);
    ListCreated([], job, BuilderSelector(cfg, true));
    ListCreated([], job, BuilderSelector(cfg, false));
    assert [] + [job] == SampleWorld(cfg).jobs;
  }

  lemma SampleSeeds(cfg: Config)
    ensures AboutToSeed(SampleWorld(cfg)) && SampleWorld(cfg).registry == {}
  {
    hide NewBuilderJob;
    var conditions := SampleWorld(cfg).req.conditions;
    assert conditions[0] == SampleReport && conditions[1..] == [];
    assert Find(conditions[1..], ModelsExists) == None;
  }

  /** A concrete run of it: one builder job before the pass, two after, for a tidy store. */
  lemma BoundFailsWithoutTheRequest()
    ensures exists cfg: Config, w: World, env: Env ::
              && Tidy(w) && OnlyFirstReadFails(env) && !cfg.hasCredentials
              && |Builders(cfg, w, true)| == 1
              && |Builders(cfg, Pass(cfg, w, env), true)| == 2
  {
    hide Pass, Distinct, BentoImageName, Builders, Tidy, SampleWorld, AboutToSeed, NewBuilderJob;
    var cfg := Config("req", "ns", false, false, "registry/bentos", "registry/bentos", "juicefs-sc", false, s => "");
    var env := Env(call => call == Fetch(ModelsNotReady, 0), (site, attempt) => [], false);
    var w := SampleWorld(cfg);
    SampleFacts(cfg);
    SampleSeeds(cfg);
    EmptyImageName(cfg);
    LostRequestAddsBuilder(cfg, w, env, cfg.repositoryURI + ":" + "yatai..");
  }

  lemma BuilderId(cfg: Config, c: Content, image: string, id: nat)
    ensures NewBuilderJob(cfg, c, image, id).id == id
  {
  }

  /** The image of the empty object: an empty repository and an empty version. */
  lemma EmptyImageName(cfg: Config)
    requires !cfg.addNamespacePrefix && !cfg.estargz
    ensures BentoImageName(cfg, "", EmptyRequest.content, false) == Some(cfg.repositoryURI + ":" + "yatai..")
  {
    assert Partition("", ':') == ("", "");
    assert TagTail("", "", false, false, false) == ".";
    assert ImagePrefix(cfg, "", EmptyRequest.content) == "";
    assert "yatai." + "" + "." == "yatai..";
  }
}
