/** Towards exactly one current builder job: one stale job goes per pass, then the rest is settled. */
module Convergence {
  import opened Basics
  import opened Conditions
  import opened Cluster
  import opened Naming
  import opened StatusWriter
  import opened ImagePhase
  import opened ModelsPhase
  import opened Reconcile
  import opened Listing
  import opened JobFrames
  import opened StatusFrames
  import opened Runs
  import opened LostReads
  import opened BuilderJobs

  /** The builder jobs a pass on the stored request lists. */
  function OwnBuilders(cfg: Config, w: World): seq<Job>
  {
    Builders(cfg, w, IsSeparateModels(w.req.content))
  }

  function StaleJobs(jobs: seq<Job>, hash: Hash): (r: seq<Job>)
    ensures r == [] <==> forall j <- jobs :: j.hash == hash
  {
    if jobs == [] then []
    else if jobs[0].hash == hash then StaleJobs(jobs[1..], hash)
    else [jobs[0]] + StaleJobs(jobs[1..], hash)
  }

  function StaleCount(cfg: Config, w: World): nat
  {
    |StaleJobs(OwnBuilders(cfg, w), HashOf(w.req.content))|
  }

  /** One builder job, generated from the request as it is. */
  predicate Settled(cfg: Config, w: World)
  {
    |OwnBuilders(cfg, w)| == 1 && OwnBuilders(cfg, w)[0].hash == HashOf(w.req.content)
  }

  /** The registry does not report the request's image. */
  predicate Absent(cfg: Config, w: World, image: string)
  {
    && BentoImageName(cfg, w.req.namespace, w.req.content, false) == Some(image)
    && !RegistryReports(w, w.req.content, image)
  }

  /** No pass has found the image in the registry yet. */
  predicate Unchecked(w: World, image: string)
  {
    !Holds(w, ImageExistsChecked, image)
  }

  predicate NotAvailable(w: World)
  {
    var c := Find(w.req.conditions, BentoAvailable);
    c.None? || c.value.status != True
  }

  lemma NotAvailableSays(w: World)
    requires Distinct(w.req.conditions)
    ensures NotAvailable(w) <==> !SaysAvailable(w.req.conditions)
  {
    var cs := w.req.conditions;
    FindAbsent(cs, BentoAvailable);
    if SaysAvailable(cs) {
      var i :| 0 <= i < |cs| && cs[i].kind == BentoAvailable && cs[i].status == True;
      FindAt(cs, i);
    }
    if !NotAvailable(w) {
      var i :| 0 <= i < |cs| && cs[i].kind == BentoAvailable;
      FindAt(cs, i);
      assert cs[i] in cs;
    }
  }

  lemma UnknownIsNotAvailable(w: World)
    requires Find(w.req.conditions, BentoAvailable).Some? && Find(w.req.conditions, BentoAvailable).value.status == Unknown
    ensures NotAvailable(w)
  {
  }

  lemma SettledSame(cfg: Config, w: World, w1: World)
    requires OwnBuilders(cfg, w1) == OwnBuilders(cfg, w) && w1.req.content == w.req.content
    ensures Settled(cfg, w1) <==> Settled(cfg, w)
  {
  }

  lemma {:induction false} StaleWithout(jobs: seq<Job>, hash: Hash, i: nat)
    requires i < |jobs| && jobs[i].hash != hash && UniqueIds(jobs)
    ensures |StaleJobs(Without(jobs, jobs[i].id), hash)| == |StaleJobs(jobs, hash)| - 1
  {
    hide StaleJobs, UniqueIds, Without;
    WithoutAt(jobs, i);
    assert jobs == jobs[..i] + ([jobs[i]] + jobs[i + 1..]);
    StaleAround(jobs[..i], jobs[i], jobs[i + 1..], hash);
  }

  lemma StaleAround(before: seq<Job>, job: Job, after: seq<Job>, hash: Hash)
    ensures |StaleJobs(before + ([job] + after), hash)|
         == |StaleJobs(before + after, hash)| + if job.hash == hash then 0 else 1
  {
    hide StaleJobs;
    StaleAppend(before, after, hash);
    StaleAppend(before, [job] + after, hash);
    StaleHead(job, after, hash);
  }

  lemma StaleHead(head: Job, rest: seq<Job>, hash: Hash)
    ensures |StaleJobs([head] + rest, hash)| == (if head.hash == hash then 0 else 1) + |StaleJobs(rest, hash)|
  {
    assert ([head] + rest)[1..] == rest;
  }

  lemma {:induction false} StaleAppend(a: seq<Job>, b: seq<Job>, hash: Hash)
    ensures |StaleJobs(a + b, hash)| == |StaleJobs(a, hash)| + |StaleJobs(b, hash)|
  {
    if a == [] {
      assert a + b == b;
    } else {
      assert (a + b)[1..] == a[1..] + b;
      StaleAppend(a[1..], b, hash);
    }
  }

  /** The job step of an undisturbed pass, for a request without an affinity of its own. */
  lemma QuietEnsureBuilt(cfg: Config, w: World, br: Request, image: string, env: Env)
    requires Tidy(w) && Quiet(env) && SameRequest(br, w.req) && !HasAffinity(br.content) && Unchecked(w, image)
    ensures var r := EnsureBuilt(cfg, w, br, IsSeparateModels(br.content), image, env);
            && Unchecked(r.w, image)
            && (StaleCount(cfg, w) > 0 ==>
                  !r.present && r.end == Done && StaleCount(cfg, r.w) == StaleCount(cfg, w) - 1)
            && (StaleCount(cfg, w) == 0 ==> Settled(cfg, r.w))
  {
    hide BuilderSelector, NewBuilderJob, TrackBuild, DropStale, DeleteEach, List, Tidy, IsSeparateModels, Reflects, SameOwn;
    var own := IsSeparateModels(br.content);
    var listed := Builders(cfg, w, own);
    var hash := HashOf(br.content);
    var stale := FirstStale(listed, hash);
    ListedUnique(w, BuilderSelector(cfg, own));
    if stale < |listed| {
      assert listed[stale] in listed;
      StaleWithout(listed, hash, stale);
      ListWithout(w.jobs, listed[stale].id, BuilderSelector(cfg, own));
      QuietDropStale(w, br, listed[stale], image, env);
    } else if listed != [] {
      QuietDeletes(w, listed[1..], env, BuilderSelector(cfg, own));
      WithoutTail(listed);
      TrackBuildUnchecked(DeleteEach(w, listed[1..], env).0, listed[0], image, env);
      assert listed[0] in listed;
    } else {
      BuildersAfterCreate(cfg, w, br.content, image, own);
      FreshHash(cfg, br.content, image, w.nextId);
    }
  }

  lemma ListedUnique(w: World, selector: Labels)
    requires Tidy(w)
    ensures UniqueIds(List(w.jobs, selector))
  {
    ListKeepsUnique(w.jobs, selector);
  }

  lemma FreshHash(cfg: Config, c: Content, image: string, id: nat)
    ensures NewBuilderJob(cfg, c, image, id).hash == HashOf(c) <==> AfterPodGeneration(cfg, c) == c
    ensures !HasAffinity(c) ==> AfterPodGeneration(cfg, c) == c
  {
  }

  lemma QuietDropStale(w: World, br: Request, job: Job, image: string, env: Env)
    requires Quiet(env) && Unchecked(w, image)
    ensures var r := DropStale(w, br, job, image, env);
            && Unchecked(r.w, image) && !r.present && r.end == Done
            && r.w.jobs == Without(w.jobs, job.id)
  {
    hide Write;
    assert Undisturbed(env, BuilderStale);
    UndisturbedWrite(w.(jobs := Without(w.jobs, job.id)), BuilderStale,
                     ToUnknown("Bento request hash changed, recreating the jobs"), env);
  }

  lemma {:induction false} QuietDeletes(w: World, surplus: seq<Job>, env: Env, selector: Labels)
    requires Tidy(w) && Quiet(env)
    ensures List(DeleteEach(w, surplus, env).0.jobs, selector) == WithoutEach(List(w.jobs, selector), surplus)
    ensures DeleteEach(w, surplus, env).1
  {
    DeleteEachLists(w, surplus, env, selector);
    AllDeleted(w, surplus, env);
  }

  lemma {:induction false} AllDeleted(w: World, surplus: seq<Job>, env: Env)
    requires Quiet(env)
    ensures DeleteEach(w, surplus, env).1
    decreases |surplus|
  {
    if surplus != [] {
      AllDeleted(w.(jobs := Without(w.jobs, surplus[0].id)), surplus[1..], env);
    }
  }

  /** Tracking a job never records that the registry was asked. */
  lemma TrackBuildUnchecked(w: World, job: Job, image: string, env: Env)
    requires Unchecked(w, image)
    ensures Unchecked(TrackBuild(w, job, image, env).w, image)
  {
    hide Write, RunningCondition, TimeoutCondition, BuildRunning, BuildFailed, TimedOut;
    RunningConditionKind(job);
  }

  lemma RunningConditionKind(job: Job)
    ensures RunningCondition(job).kind == ImageBuilding && TimeoutCondition(job).kind == ImageBuilding
  {
  }

  /** What one undisturbed image phase achieves towards a single current job. */
  ghost predicate Converges(cfg: Config, w: World, w': World, present: bool, end: End, image: string)
  {
    && Unchecked(w', image)
    && (StaleCount(cfg, w) > 0 ==> !present && end == Done && StaleCount(cfg, w') == StaleCount(cfg, w) - 1)
    && (StaleCount(cfg, w) == 0 ==> Settled(cfg, w'))
  }

  lemma QuietImagePhase(cfg: Config, w: World, br: Request, image: string, env: Env)
    requires Tidy(w) && Quiet(env) && !HasAffinity(w.req.content)
    requires br == w.req && Absent(cfg, w, image) && Unchecked(w, image) && SecretFits(cfg, br.namespace, br.content)
    ensures var r := EnsureImageExists(cfg, w, br, env);
            Converges(cfg, w, r.w, r.present, r.end, image)
  {
    hide Write, EnsureBuilt, StaleCount, Settled, BentoImageName, Tidy, HasAffinity, Reflects, SameOwn;
    var separate := IsSeparateModels(br.content);
    assert EnsureImageExists(cfg, w, br, env) == CheckImage(cfg, w, separate, image, env);
    var first := SetConditions([
      Report(ImageExistsChecked, Unknown, image),
      Report(BentoAvailable, Unknown, "Checking image exists")]);
    var s := Write(w, CheckingImage, first, env);
    var t := Write(s.w, CheckedImage, SetConditions(CheckedConditions(false, image)), env);
    assert Undisturbed(env, CheckingImage) && Undisturbed(env, CheckedImage);
    UndisturbedWrite(w, CheckingImage, first, env);
    UndisturbedWrite(s.w, CheckedImage, SetConditions(CheckedConditions(false, image)), env);
    assert Find(t.w.req.conditions, ImageExistsChecked).Some?
        && Find(t.w.req.conditions, ImageExistsChecked).value.status == False;
    TidySame(w, t.w);
    QuietEnsureBuilt(cfg, t.w, t.br, image, env);
    SameBuilders(cfg, w, t.w);
  }

  /** Status writes change neither the jobs nor what they are compared with. */
  lemma SameBuilders(cfg: Config, w: World, w1: World)
    requires w1.jobs == w.jobs && w1.req.content == w.req.content
    ensures OwnBuilders(cfg, w1) == OwnBuilders(cfg, w)
    ensures StaleCount(cfg, w1) == StaleCount(cfg, w) && (Settled(cfg, w1) <==> Settled(cfg, w))
  {
  }

  /** The end of a pass keeps the builder jobs; without the image it does not announce the Bento. */
  lemma FinishConverges(
      cfg: Config, separateModels: bool, models: ModelsResult, image: ImageResult, env: Env, name: string)
    requires Tidy(image.w) && Unchecked(image.w, name)
    ensures var r := Finish(cfg, separateModels, models, image, env);
            && OwnBuilders(cfg, r.w) == OwnBuilders(cfg, image.w)
            && Unchecked(r.w, name)
            && (Quiet(env) && !image.present && image.end == Done ==> r.end == Done && NotAvailable(r.w))
  {
    hide Write, CleanUp, Tidy, Builders, Publish, Quiet;
    FinishKeepsBuilders(cfg, separateModels, models, image, env, IsSeparateModels(image.w.req.content));
    var c := image.br.content;
    var w := if separateModels && !IsStoredInS3(c) then CleanUp(cfg, image.w, image.br, c.spec.models, 0, env) else image.w;
    PublishUnchecked(w, separateModels && !IsStoredInS3(c), image.br, image.image, env, name);
    if Quiet(env) {
      assert Undisturbed(env, WaitingForImage) by { QuietSite(env, WaitingForImage); }
      UndisturbedWrite(image.w, WaitingForImage, SetConditions([
        Report(BentoAvailable, Unknown, "Bento image is building")]), env);
    }
  }

  lemma QuietSite(env: Env, site: Site)
    requires Quiet(env)
    ensures Undisturbed(env, site)
  {
  }

  lemma PublishUnchecked(w: World, seeds: bool, br: Request, image: string, env: Env, name: string)
    requires Unchecked(w, name)
    ensures Unchecked(Publish(w, seeds, br, image, env).w, name)
  {
    hide Write, BentoFor, Refreshed;
  }

  /** The models phase neither touches the builder jobs nor asks the registry. */
  lemma ModelsConverges(cfg: Config, w: World, br: Request, env: Env, name: string)
    requires Tidy(w) && Unchecked(w, name) && br == w.req
    ensures var r := EnsureModelsExist(cfg, w, br, env);
            && Tidy(r.w) && OwnBuilders(cfg, r.w) == OwnBuilders(cfg, w) && Unchecked(r.w, name)
  {
    hide EnsureModelsExist, Tidy, BuilderSelector, List;
    ModelsPhaseKeepsBuilders(cfg, w, br, env, IsSeparateModels(w.req.content));
    ModelsPhaseMakesNoneTrue(cfg, w, br, env, ImageExistsChecked, name);
  }

  lemma PhasesConverges(cfg: Config, w: World, image: string, env: Env)
    requires Tidy(w) && Quiet(env) && !HasAffinity(w.req.content)
    requires Absent(cfg, w, image) && Unchecked(w, image) && SecretFits(cfg, w.req.namespace, w.req.content)
    ensures var r := Phases(cfg, w, w.req, env);
            && Tidy(r.w)
            && Unchecked(r.w, image)
            && (StaleCount(cfg, w) > 0 ==>
                  r.end == Done && NotAvailable(r.w) && StaleCount(cfg, r.w) == StaleCount(cfg, w) - 1)
            && (StaleCount(cfg, w) == 0 ==> Settled(cfg, r.w))
  {
    hide EnsureModelsExist, EnsureImageExists, Finish, Tidy, Quiet, Builders, HasAffinity, BentoImageName, Holds;
    hide NotAvailable;
    var models := if SeedsModels(w.req.content) then EnsureModelsExist(cfg, w, w.req, env)
                  else ModelsResult(w, w.req, false, Done);
    ModelsConverges(cfg, w, w.req, env, image);
    ModelsPhaseInSync(cfg, w, env);
    var r := EnsureImageExists(cfg, models.w, models.br, env);
    QuietImagePhase(cfg, models.w, models.br, image, env);
    ImagePhaseKeepsSeeders(cfg, models.w, models.br, env);
    FinishConverges(cfg, IsSeparateModels(w.req.content), models, r, env, image);
    PhasesTidy(cfg, w, w.req, env);
  }

  /** What a run that converges keeps: the image is looked for but not found, and nothing is announced. */
  ghost predicate Converging(cfg: Config, w: World, image: string)
  {
    && Tidy(w) && Distinct(w.req.conditions) && !HasAffinity(w.req.content)
    && Absent(cfg, w, image) && SecretFits(cfg, w.req.namespace, w.req.content)
  }

  /** One stale job fewer per pass; once there is none, one current job. */
  lemma PassConverges(cfg: Config, w: World, image: string, env: Env)
    requires Converging(cfg, w, image) && Unchecked(w, image) && NotAvailable(w) && Quiet(env)
    ensures var w' := Pass(cfg, w, env);
            && Converging(cfg, w', image)
            && (StaleCount(cfg, w) > 0 ==>
                  Unchecked(w', image) && NotAvailable(w') && StaleCount(cfg, w') == StaleCount(cfg, w) - 1)
            && (StaleCount(cfg, w) == 0 ==> Settled(cfg, w'))
  {
    hide Pass, Phases, Tidy, Write, Find, Builders, BentoImageName, HasAffinity, IsTrue, StaleCount, Settled, Distinct;
    NotAvailableSays(w);
    var ran, w1 := Enter(cfg, w, env);
    var w' := Pass(cfg, w, env);
    PassTidy(cfg, w, env);
    EnteredUnchecked(w, w1, image);
    TidySame(w, w1);
    PhasesConverges(cfg, w1, image, env);
    SameBuilders(cfg, w, w1);
    SameBuilders(cfg, Phases(cfg, w1, w1.req, env).w, w');
  }

  lemma EnteredUnchecked(w: World, w1: World, image: string)
    requires Entered(w, w1) && Unchecked(w, image)
    ensures Unchecked(w1, image)
  {
  }

  // Once settled, nothing but an edit of the request changes the builder jobs.

  lemma SettledEnsureBuilt(cfg: Config, w: World, br: Request, image: string, env: Env)
    requires Settled(cfg, w) && SameRequest(br, w.req)
    ensures var r := EnsureBuilt(cfg, w, br, IsSeparateModels(br.content), image, env);
            OwnBuilders(cfg, r.w) == OwnBuilders(cfg, w)
  {
    hide TrackBuild, DropStale, NewBuilderJob, BuilderSelector, IsSeparateModels;
    var listed := OwnBuilders(cfg, w);
    var stale := FirstStale(listed, HashOf(br.content));
    assert stale == 1;
    assert listed[1..] == [];
  }

  lemma SettledImagePhase(cfg: Config, w: World, br: Request, env: Env)
    requires Settled(cfg, w) && SameRequest(br, w.req)
    ensures OwnBuilders(cfg, EnsureImageExists(cfg, w, br, env).w) == OwnBuilders(cfg, w)
  {
    hide Write, EnsureBuilt, CheckImage, BentoImageName, Settled, Builders, IsTrue, Find;
    var name := BentoImageName(cfg, br.namespace, br.content, false);
    if name.Some? {
      SettledEnsureBuilt(cfg, w, br, name.value, env);
      SettledCheckImage(cfg, w, name.value, env);
    }
  }

  lemma SettledCheckImage(cfg: Config, w: World, image: string, env: Env)
    requires Settled(cfg, w)
    ensures OwnBuilders(cfg, CheckImage(cfg, w, IsSeparateModels(w.req.content), image, env).w) == OwnBuilders(cfg, w)
  {
    hide Write, EnsureBuilt, Builders, Reflects, SameOwn, RegistryReports, CheckedConditions, IsSeparateModels;
    var s := Write(w, CheckingImage, SetConditions([
      Report(ImageExistsChecked, Unknown, image),
      Report(BentoAvailable, Unknown, "Checking image exists")]), env);
    var found := RegistryReports(s.w, s.br.content, image);
    var t := Write(s.w, CheckedImage, SetConditions(CheckedConditions(found, image)), env);
    SameBuilders(cfg, w, s.w);
    SameBuilders(cfg, w, t.w);
    if t.ok {
      SettledEnsureBuilt(cfg, t.w, t.br, image, env);
    }
  }

  lemma SettledPhases(cfg: Config, w: World, env: Env)
    requires Settled(cfg, w) && Tidy(w)
    ensures OwnBuilders(cfg, Phases(cfg, w, w.req, env).w) == OwnBuilders(cfg, w) <==> !MakesStray(cfg, w, env)
  {
    hide EnsureModelsExist, EnsureImageExists, Finish, Tidy, ModelsPhaseReads, Builders, NewBuilderJob, ChecksImage;
    hide RegistryReports, BentoImageName, Creates, Loses;
    LosesIff(cfg, w, env);
    if Loses(cfg, w, env) {
      PhasesLists(cfg, w, env);
      return;
    }
    var models := if SeedsModels(w.req.content) then EnsureModelsExist(cfg, w, w.req, env)
                  else ModelsResult(w, w.req, false, Done);
    ModelsPhaseKeepsRequest(cfg, w, w.req, env);
    ModelsPhaseKeepsBuilders(cfg, w, w.req, env, IsSeparateModels(w.req.content));
    assert Builders(cfg, models.w, IsSeparateModels(w.req.content)) == OwnBuilders(cfg, w) by {
      SameSelected(cfg, w, models.w);
    }
    SettledImagePhase(cfg, models.w, models.br, env);
    ImagePhaseKeepsSeeders(cfg, models.w, models.br, env);
    var image := EnsureImageExists(cfg, models.w, models.br, env);
    FinishKeepsBuilders(cfg, IsSeparateModels(w.req.content), models, image, env, IsSeparateModels(w.req.content));
  }

  lemma SameSelected(cfg: Config, w: World, w1: World)
    requires w1.req.content == w.req.content
    requires List(w1.jobs, BuilderSelector(cfg, IsSeparateModels(w.req.content)))
          == List(w.jobs, BuilderSelector(cfg, IsSeparateModels(w.req.content)))
    ensures OwnBuilders(cfg, w1) == OwnBuilders(cfg, w)
  {
  }

  /**
   A pass changes the listed builder jobs, whatever fails and whatever the registry says, exactly
   when it creates a stray job.
   */
  lemma SettledForever(cfg: Config, w: World, env: Env)
    requires Settled(cfg, w) && Tidy(w)
    ensures OwnBuilders(cfg, Pass(cfg, w, env)) == OwnBuilders(cfg, w) <==> !Strays(cfg, w, env)
    ensures !Strays(cfg, w, env) ==> Settled(cfg, Pass(cfg, w, env))
    ensures cfg.hasCredentials || Quiet(env) ==> !Strays(cfg, w, env)
  {
    hide Pass, Phases, Tidy, Write, BuilderSelector, List, ModelsPhaseReads, IsSeparateModels, MakesStray, Entry, Quiet;
    StraysNeedsNoCredentials(cfg, w, env);
    if Quiet(env) {
      QuietReads(env);
    }
    var ran, w1 := Enter(cfg, w, env);
    SameStore(w, w1);
    TidySame(w, w1);
    SameBuilders(cfg, w, w1);
    if ran {
      SettledPhases(cfg, w1, env);
      SameBuilders(cfg, Phases(cfg, w1, w1.req, env).w, Pass(cfg, w, env));
    } else {
      SameBuilders(cfg, w, Pass(cfg, w, env));
    }
  }

  /** Steps that leave the request alone, the image out of the registry, and the passes undisturbed. */
  ghost predicate Benign(step: Step, image: string)
  {
    && !step.EditContent?
    && (step.PassStep? ==> Quiet(step.env))
    && (step.RegistryChange? ==> image !in step.images)
  }

  function PassCount(steps: seq<Step>): nat
  {
    if steps == [] then 0
    else PassCount(steps[..|steps| - 1]) + if steps[|steps| - 1].PassStep? then 1 else 0
  }

  /** What the other steps keep of the way to a single job. */
  lemma OtherStepConverges(cfg: Config, w: World, step: Step, image: string)
    requires Converging(cfg, w, image) && Benign(step, image) && !step.PassStep?
    ensures var w' := Next(cfg, w, step);
            && Converging(cfg, w', image)
            && (Unchecked(w', image) <==> Unchecked(w, image))
            && (NotAvailable(w') <==> NotAvailable(w))
            && StaleCount(cfg, w') == StaleCount(cfg, w)
            && (Settled(cfg, w) ==> Settled(cfg, w'))
  {
    hide Tidy, BuilderSelector, BentoImageName, HasAffinity, Quiet, WithForeign, Distinct;
    StepTidy(cfg, w, step);
    var selector := BuilderSelector(cfg, IsSeparateModels(w.req.content));
    match step
    case Progress(_, _, _, _, _) =>
      ProgressKeepsStale(w.jobs, step, selector, HashOf(w.req.content));
    case Shuffle(order) =>
      if multiset(order) == multiset(w.jobs) {
        ListReordered(w.jobs, order, selector);
        StaleReordered(List(w.jobs, selector), List(order, selector), HashOf(w.req.content));
        if Settled(cfg, w) {
          SingletonReordered(List(w.jobs, selector), List(order, selector));
        }
      }
    case _ =>
  }

  lemma SingletonReordered(a: seq<Job>, b: seq<Job>)
    requires multiset(a) == multiset(b) && |a| == 1 && |b| == 1
    ensures a == b
  {
    assert a == [a[0]] && b == [b[0]];
    assert multiset(a) == multiset{a[0]};
    assert multiset(b) == multiset{b[0]};
    assert a[0] in multiset(b);
  }

  lemma {:induction false} ProgressKeepsStale(jobs: seq<Job>, step: Step, selector: Labels, hash: Hash)
    requires step.Progress?
    ensures var a, b := List(jobs, selector), List(WithStatus(jobs, step), selector);
            && |a| == |b| && (forall i :: 0 <= i < |a| ==> a[i].hash == b[i].hash)
            && |StaleJobs(a, hash)| == |StaleJobs(b, hash)|
  {
    hide List, WithStatus, Updated;
    ProgressUpdates(jobs, step, selector);
    SameHashesStale(List(jobs, selector), List(WithStatus(jobs, step), selector), hash);
  }

  lemma {:induction false} SameHashesStale(a: seq<Job>, b: seq<Job>, hash: Hash)
    requires |a| == |b| && forall i :: 0 <= i < |a| ==> a[i].hash == b[i].hash
    ensures |StaleJobs(a, hash)| == |StaleJobs(b, hash)|
  {
    if a != [] {
      SameHashesStale(a[1..], b[1..], hash);
    }
  }

  lemma StaleReordered(a: seq<Job>, b: seq<Job>, hash: Hash)
    requires multiset(a) == multiset(b)
    ensures |StaleJobs(a, hash)| == |StaleJobs(b, hash)|
  {
    forall j: Job ensures multiset(StaleJobs(a, hash))[j] == multiset(StaleJobs(b, hash))[j] {
      StaleMultiset(a, hash, j);
      StaleMultiset(b, hash, j);
    }
    assert multiset(StaleJobs(a, hash)) == multiset(StaleJobs(b, hash));
    assert |StaleJobs(a, hash)| == |multiset(StaleJobs(a, hash))|;
  }

  lemma {:induction false} StaleMultiset(jobs: seq<Job>, hash: Hash, j: Job)
    ensures multiset(StaleJobs(jobs, hash))[j] == if j.hash != hash then multiset(jobs)[j] else 0
  {
    if jobs != [] {
      StaleMultiset(jobs[1..], hash, j);
      assert jobs == [jobs[0]] + jobs[1..];
    }
  }

  /** Where a converging run stands after some passes. */
  lemma {:induction false} Advances(cfg: Config, w: World, steps: seq<Step>, image: string)
    requires Converging(cfg, w, image) && Unchecked(w, image) && NotAvailable(w)
    requires forall s <- steps :: Benign(s, image)
    ensures var r, n, stale := Run(cfg, w, steps), PassCount(steps), StaleCount(cfg, w);
            && Converging(cfg, r, image)
            && (n <= stale ==> Unchecked(r, image) && NotAvailable(r) && StaleCount(cfg, r) == stale - n)
            && (n > stale ==> Settled(cfg, r))
    decreases |steps|
  {
    hide Next, Converging, Unchecked, NotAvailable, StaleCount, Settled, Tidy, Quiet;
    if steps != [] {
      var before, last := steps[..|steps| - 1], steps[|steps| - 1];
      assert last in steps;
      Advances(cfg, w, before, image);
      var u := Run(cfg, w, before);
      ConvergingStep(cfg, u, last, image);
    }
  }

  /** One step of a converging run, whichever it is. */
  lemma ConvergingStep(cfg: Config, w: World, step: Step, image: string)
    requires Converging(cfg, w, image) && Benign(step, image)
    requires Settled(cfg, w) || (Unchecked(w, image) && NotAvailable(w))
    ensures var w' := Next(cfg, w, step);
            && Converging(cfg, w', image)
            && (Settled(cfg, w) ==> Settled(cfg, w'))
            && (!step.PassStep? && Unchecked(w, image) && NotAvailable(w) ==>
                  Unchecked(w', image) && NotAvailable(w') && StaleCount(cfg, w') == StaleCount(cfg, w))
            && (step.PassStep? && Unchecked(w, image) && NotAvailable(w) && StaleCount(cfg, w) > 0 ==>
                  Unchecked(w', image) && NotAvailable(w') && StaleCount(cfg, w') == StaleCount(cfg, w) - 1)
            && (step.PassStep? && Unchecked(w, image) && NotAvailable(w) && StaleCount(cfg, w) == 0 ==> Settled(cfg, w'))
  {
    hide Pass, Unchecked, NotAvailable, StaleCount, Settled, Tidy, BentoImageName, HasAffinity, Distinct, RegistryReports;
    if step.PassStep? {
      if Settled(cfg, w) {
        SettledForever(cfg, w, step.env);
        PassTidy(cfg, w, step.env);
        SameAbsent(cfg, w, Pass(cfg, w, step.env), image);
      }
      if Unchecked(w, image) && NotAvailable(w) {
        PassConverges(cfg, w, image, step.env);
      }
    } else {
      OtherStepConverges(cfg, w, step, image);
    }
  }

  lemma SameAbsent(cfg: Config, w: World, w': World, image: string)
    requires Absent(cfg, w, image)
    requires w'.req.content == w.req.content && w'.req.namespace == w.req.namespace && w'.registry == w.registry
    ensures Absent(cfg, w', image)
  {
  }

  /**
   Convergence: with the request left alone and the image out of the registry, after one pass more
   than there were stale builder jobs exactly one builder job is left, and it is current, however
   many there were and whatever the jobs, the clock and other writers do in between.
   */
  lemma ConvergesToOneBuilder(cfg: Config, w: World, steps: seq<Step>, image: string)
    requires Converging(cfg, w, image) && Unchecked(w, image) && NotAvailable(w)
    requires forall s <- steps :: Benign(s, image)
    requires PassCount(steps) > StaleCount(cfg, w)
    ensures Settled(cfg, Run(cfg, w, steps))
  {
    Advances(cfg, w, steps, image);
  }
}
