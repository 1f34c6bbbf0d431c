/** What the models phase reports on the seeder jobs that it leaves, in terms of their bare counters. */
module SeedingReports {
  import opened Basics
  import opened Conditions
  import opened Cluster
  import opened Naming
  import opened StatusWriter
  import opened ImagePhase
  import opened ModelsPhase
  import opened JobFrames
  import opened StatusFrames
  import opened SeederJobs
  import opened Outcomes
  import opened Verdicts
  import Records

  /** Short of the successes that it asks for, and where that is asked for with failed pods. */
  predicate Unfinished(j: Job, failed: bool)
  {
    j.completions != Some(j.succeeded) && (failed ==> j.failed > 0)
  }

  /** Between a beginning and an end the text lists the names of exactly those jobs. */
  ghost predicate Lists(text: string, before: string, after: string, jobs: seq<Job>, failed: bool)
  {
    exists names: seq<string> ::
      && text == before + Join(names, ", ") + after
      && forall n :: n in names <==> exists j <- jobs :: j.name == n && Unfinished(j, failed)
  }

  /** Some job has failed pods and is not done. */
  ghost predicate SayFailed(jobs: seq<Job>, uninitialised: bool, r: ModelsResult)
  {
    && !r.present && r.end.Err?
    && Reads(r.w, ModelsExists, False, r.end.message) && Reads(r.w, BentoAvailable, False, r.end.message)
    && Lists(r.end.message, "Model seeder jobs failed: ",
             if uninitialised then ": no validate HF_TOKEN for seeding huggingface model" else "", jobs, true)
  }

  /** All models have a job that is done. */
  predicate SaySeeded(cfg: Config, w: World, r: ModelsResult)
  {
    && r.present && r.end == Done && Reads(r.w, ModelsSeeding, False, "All models have been seeded.")
    && var c := Find(r.w.req.conditions, ModelsExists);
       && c.Some? && c.value.status == True
       && Records.Records(c.value.message, cfg.storageClass, Tags(w.req.content.spec.models))
  }

  /** Some model has none. */
  ghost predicate SayWaiting(jobs: seq<Job>, r: ModelsResult)
  {
    && !r.present && r.end == Done
    && var c := Find(r.w.req.conditions, ModelsSeeding);
       c.Some? && c.value.status == True && Lists(c.value.message, "Model seeder jobs are not ready: ", ".", jobs, false)
  }

  ghost predicate SeedingVerdict(cfg: Config, w: World, jobs: seq<Job>, uninitialised: bool, r: ModelsResult)
  {
    if exists j <- jobs :: Unfinished(j, true) then SayFailed(jobs, uninitialised, r)
    else if forall t <- Tags(w.req.content.spec.models) :: exists j <- jobs ::
              DecodedTag(j.labels) == t && j.completions == Some(j.succeeded)
    then SaySeeded(cfg, w, r)
    else SayWaiting(jobs, r)
  }

  lemma {:induction false} NamesListed(jobs: seq<Job>, failed: bool)
    ensures forall n :: n in UnfinishedNames(jobs, failed) <==> exists j <- jobs :: j.name == n && Unfinished(j, failed)
    ensures UnfinishedNames(jobs, failed) == [] <==> forall j <- jobs :: !Unfinished(j, failed)
    decreases |jobs|
  {
    if jobs != [] {
      NamesListed(jobs[1..], failed);
      assert jobs == [jobs[0]] + jobs[1..];
    }
  }

  lemma NamesAre(text: string, before: string, after: string, jobs: seq<Job>, failed: bool)
    requires text == before + Join(UnfinishedNames(jobs, failed), ", ") + after
    ensures Lists(text, before, after, jobs, failed)
  {
    hide Join, UnfinishedNames, Unfinished;
    NamesListed(jobs, failed);
  }

  lemma FailureSaid(w: World, message: string, env: Env)
    requires Quiet(env)
    ensures var s := Write(w, ModelsFailed, SetConditions([
              Report(ModelsExists, False, message), Report(BentoAvailable, False, message)]), env);
            s.ok && Reads(s.w, ModelsExists, False, message) && Reads(s.w, BentoAvailable, False, message)
  {
    hide Write, Quiet;
    QuietOk(w, ModelsFailed, SetConditions([
      Report(ModelsExists, False, message), Report(BentoAvailable, False, message)]), env);
  }

  lemma FailedVerdict(cfg: Config, w: World, br: Request, models: seq<Model>, jobs: seq<Job>, env: Env)
    requires Quiet(env) && UnfinishedNames(jobs, true) != []
    ensures SayFailed(jobs, env.podsUninitialised, ReportSeeding(cfg, w, br, models, jobs, env))
  {
    hide Write, Quiet, Join, SeededMessage, UnfinishedNames, SucceededTags, Lists, Reads, Reflects, SameOwn, Tags;
    QuietCalls(env);
    var after := if env.podsUninitialised then ": no validate HF_TOKEN for seeding huggingface model" else "";
    var message := "Model seeder jobs failed: " + Join(UnfinishedNames(jobs, true), ", ") + after;
    NamesAre(message, "Model seeder jobs failed: ", after, jobs, true);
    FailureSaid(w, message, env);
  }

  lemma SeededVerdict(cfg: Config, w: World, br: Request, models: seq<Model>, jobs: seq<Job>, env: Env)
    requires Quiet(env) && UnfinishedNames(jobs, true) == []
    requires forall t <- Tags(models) :: t in SucceededTags(jobs)
    requires models == w.req.content.spec.models && forall m <- models :: Records.Listable(m.tag)
    ensures SaySeeded(cfg, w, ReportSeeding(cfg, w, br, models, jobs, env))
  {
    hide Write, Quiet, UnfinishedNames, SucceededTags, SeededMessage, Records.Records, Tags;
    Records.RecordIsReadBack(cfg, models);
    QuietOk(w, ModelsReady, SetConditions([
      Report(ModelsExists, True, SeededMessage(cfg, models)),
      Report(ModelsSeeding, False, "All models have been seeded.")]), env);
  }

  lemma WaitingVerdict(cfg: Config, w: World, br: Request, models: seq<Model>, jobs: seq<Job>, env: Env)
    requires Quiet(env) && UnfinishedNames(jobs, true) == []
    requires !forall t <- Tags(models) :: t in SucceededTags(jobs)
    ensures SayWaiting(jobs, ReportSeeding(cfg, w, br, models, jobs, env))
  {
    hide Write, Quiet, UnfinishedNames, SucceededTags, Tags, Join, Lists;
    var message := "Model seeder jobs are not ready: " + Join(UnfinishedNames(jobs, false), ", ") + ".";
    NamesAre(message, "Model seeder jobs are not ready: ", ".", jobs, false);
    QuietOk(w, ModelsWaiting, SetConditions([Report(ModelsSeeding, True, message)]), env);
  }

  lemma SucceededSays(jobs: seq<Job>, tag: string)
    ensures tag in SucceededTags(jobs) <==> exists j <- jobs :: DecodedTag(j.labels) == tag && j.completions == Some(j.succeeded)
  {
    hide DecodedTag;
    assert forall j: Job :: Completed(j) <==> j.completions == Some(j.succeeded);
  }

  lemma ReportVerdict(cfg: Config, w: World, br: Request, models: seq<Model>, jobs: seq<Job>, env: Env)
    requires Quiet(env)
    requires models == w.req.content.spec.models && forall m <- models :: Records.Listable(m.tag)
    ensures SeedingVerdict(cfg, w, jobs, env.podsUninitialised, ReportSeeding(cfg, w, br, models, jobs, env))
  {
    hide Quiet, ReportSeeding, SayFailed, SaySeeded, SayWaiting, Unfinished, UnfinishedNames, SucceededTags, Tags;
    NamesListed(jobs, true);
    forall t <- Tags(models)
      ensures t in SucceededTags(jobs) <==> exists j <- jobs :: DecodedTag(j.labels) == t && j.completions == Some(j.succeeded)
    {
      SucceededSays(jobs, t);
    }
    if UnfinishedNames(jobs, true) != [] {
      FailedVerdict(cfg, w, br, models, jobs, env);
    } else if forall t <- Tags(models) :: t in SucceededTags(jobs) {
      SeededVerdict(cfg, w, br, models, jobs, env);
    } else {
      WaitingVerdict(cfg, w, br, models, jobs, env);
    }
  }

  /** What an undisturbed seeding reports is about the jobs that it leaves. */
  lemma SeedModelsVerdict(cfg: Config, w: World, br: Request, env: Env)
    requires Tidy(w) && Quiet(env) && br == w.req
    requires forall m <- w.req.content.spec.models :: Records.Listable(m.tag)
    ensures var r := SeedModels(cfg, w, br, env);
            SeedingVerdict(cfg, w, Seeders(cfg, r.w), env.podsUninitialised, r)
  {
    hide Prune, SeedEach, ReportSeeding, SeederSelector, Tags, List, Quiet, SeedingVerdict;
    QuietCalls(env);
    var models := br.content.spec.models;
    var listed := List(w.jobs, SeederSelector(cfg));
    var p := Prune(w, br, listed, HashOf(br.content), Tags(models), {}, env);
    QuietPrunes(w, br, listed, HashOf(br.content), Tags(models), {}, env);
    var s := SeedEach(cfg, p.w, p.br, models, 0, p.seen, env);
    QuietSeeds(cfg, p.w, p.br, models, 0, p.seen, env);
    ReportVerdict(cfg, s.w, p.br, models, List(s.w.jobs, SeederSelector(cfg)), env);
    SameVerdict(cfg, s.w, w, List(s.w.jobs, SeederSelector(cfg)), env.podsUninitialised, SeedModels(cfg, w, br, env));
  }

  lemma SameVerdict(cfg: Config, w: World, w1: World, jobs: seq<Job>, uninitialised: bool, r: ModelsResult)
    requires w1.req.content == w.req.content
    ensures SeedingVerdict(cfg, w, jobs, uninitialised, r) ==> SeedingVerdict(cfg, w1, jobs, uninitialised, r)
  {
    hide Unfinished, Lists, Reads, DecodedTag, Records.Records;
  }

  /**
   An undisturbed models phase over models that are not recorded as seeded: one of its jobs that has
   failed without finishing makes it an error that names all of these, else it succeeds when every
   model has a finished job and records that, and else says which jobs it waits for.
   */
  lemma ModelsVerdict(cfg: Config, w: World, env: Env)
    requires Tidy(w) && Quiet(env) && !ShortCircuits(cfg, w)
    requires forall m <- w.req.content.spec.models :: Records.Listable(m.tag)
    ensures var r := EnsureModelsExist(cfg, w, w.req, env);
            SeedingVerdict(cfg, w, Seeders(cfg, r.w), env.podsUninitialised, r)
  {
    hide Write, SeedModels, SeededMessage, Tidy, Quiet, SeedingVerdict, Seeders;
    var s := Write(w, ModelsNotReady, SetConditions([NotReady]), env);
    QuietOk(w, ModelsNotReady, SetConditions([NotReady]), env);
    TidySame(w, s.w);
    SeedModelsVerdict(cfg, w, w.req, env);
    SeedModelsVerdict(cfg, s.w, s.br, env);
    var r := EnsureModelsExist(cfg, w, w.req, env);
    SameVerdict(cfg, s.w, w, Seeders(cfg, r.w), env.podsUninitialised, r);
  }

  lemma WaitingLeaves(cfg: Config, w: World, br: Request, models: seq<Model>, jobs: seq<Job>, env: Env)
    requires Quiet(env)
    ensures var r := ReportSeeding(cfg, w, br, models, jobs, env);
            !r.present && r.end == Done ==> Find(r.w.req.conditions, ModelsExists) == Find(w.req.conditions, ModelsExists)
  {
    hide Write, Quiet, UnfinishedNames, SucceededTags, Tags, Join, SeededMessage, Find;
    WriteLeaves(w, ModelsWaiting, [
      Report(ModelsSeeding, True, "Model seeder jobs are not ready: " + Join(UnfinishedNames(jobs, false), ", ") + ".")],
      env, ModelsExists);
  }

  lemma FirstSeedingLeaves(cfg: Config, w: World, br: Request, env: Env)
    requires Quiet(env) && Seeders(cfg, w) == []
    ensures var r := SeedModels(cfg, w, br, env);
            !r.present && r.end == Done ==> Find(r.w.req.conditions, ModelsExists) == Find(w.req.conditions, ModelsExists)
  {
    hide SeedEach, ReportSeeding, SeederSelector, List, Quiet, Find, Tags;
    QuietCalls(env);
    var models := br.content.spec.models;
    var s := SeedEach(cfg, w, br, models, 0, {}, env);
    QuietSeeds(cfg, w, br, models, 0, {}, env);
    WaitingLeaves(cfg, s.w, br, models, List(s.w.jobs, SeederSelector(cfg)), env);
  }

  lemma NoneSeeded(cfg: Config, w: World)
    requires Seeders(cfg, w) == [] && w.req.content.spec.models != []
    ensures CurrentSeeders(cfg, w) == [] && !SeedersDone(cfg, w)
  {
    hide Seeders;
    var tag := Tags(w.req.content.spec.models)[0];
    assert tag in Tags(w.req.content.spec.models);
    SucceededSays([], tag);
  }

  /** Models that nobody has asked about yet are first reported as not there. */
  lemma UnseededModelsAreNotReady(cfg: Config, w: World, env: Env)
    requires Quiet(env) && Tidy(w) && Seeders(cfg, w) == [] && w.req.content.spec.models != []
    requires var c := Find(w.req.conditions, ModelsExists); c.None? || c.value.status == Unknown
    ensures var r := EnsureModelsExist(cfg, w, w.req, env);
            Reads(r.w, ModelsExists, False, "Models are not ready") && !r.present && r.end == Done
  {
    hide Write, Quiet, SeedModels, Seeders, Tidy, SeededMessage, SeededExactly, ReportsFailure, SeedersDone, CurrentSeeders;
    var s := Write(w, ModelsNotReady, SetConditions([NotReady]), env);
    QuietOk(w, ModelsNotReady, SetConditions([NotReady]), env);
    assert Seeders(cfg, s.w) == Seeders(cfg, w) by { SeedersSame(cfg, w, s.w); }
    QuietModelsPhase(cfg, w, env);
    NoneSeeded(cfg, w);
    FirstSeedingLeaves(cfg, s.w, s.br, env);
  }
}
