/** At most one image-builder job: what a pass keeps, when it does not, and how it converges. */
module BuilderJobs {
  import opened Basics
  import opened Conditions
  import opened Cluster
  import opened Naming
  import opened StatusWriter
  import opened ImagePhase
  import opened ModelsPhase
  import opened Reconcile
  import opened Listing
  import opened JobFrames
  import opened Runs
  import opened CompareAndSwap
  import opened LostReads

  /** The builder jobs of the request that carry one value of the separate-models label. */
  function Builders(cfg: Config, w: World, separateModels: bool): seq<Job>
  {
    List(w.jobs, BuilderSelector(cfg, separateModels))
  }

  function Max(a: nat, b: nat): nat
  {
    if a < b then b else a
  }

  /** No list of builder jobs grows, except from nothing to one. */
  ghost predicate Bounded(cfg: Config, w: World, w': World)
  {
    forall b: bool :: |Builders(cfg, w', b)| <= Max(1, |Builders(cfg, w, b)|)
  }

  /** The guard of the branch that creates a builder job: nothing listed and no call failing. */
  predicate Creates(cfg: Config, w: World, separateModels: bool, env: Env)
  {
    && !env.fails(ListBuilders) && !env.fails(GenerateBuilder) && !env.fails(CreateBuilder)
    && Builders(cfg, w, separateModels) == []
  }

  /**
   The job step keeps the bound exactly unless it lists by one label value, creates a job with
   the other, and a job with that other value is already there.
   */
  lemma EnsureBuiltBound(cfg: Config, w: World, br: Request, separateModels: bool, image: string, env: Env)
    requires Tidy(w)
    ensures var r := EnsureBuilt(cfg, w, br, separateModels, image, env);
            Bounded(cfg, w, r.w) <==>
              !(&& Creates(cfg, w, separateModels, env)
                && IsSeparateModels(br.content) != separateModels
                && Builders(cfg, w, IsSeparateModels(br.content)) != [])
  {
    hide BuilderSelector, NewBuilderJob, TrackBuild, DropStale, DeleteEach;
    var own := IsSeparateModels(br.content);
    var w' := EnsureBuilt(cfg, w, br, separateModels, image, env).w;
    forall b: bool
      ensures Creates(cfg, w, separateModels, env) ==>
                Builders(cfg, w', b) == if b == own then Builders(cfg, w, b) + [NewBuilderJob(cfg, br.content, image, w.nextId)]
                                        else Builders(cfg, w, b)
      ensures !Creates(cfg, w, separateModels, env) ==> |Builders(cfg, w', b)| <= |Builders(cfg, w, b)|
    {
      EnsureBuiltLists(cfg, w, br, separateModels, image, env, b);
    }
    assert |Builders(cfg, w', own)| <= Max(1, |Builders(cfg, w, own)|) <==>
           !(Creates(cfg, w, separateModels, env) && Builders(cfg, w, own) != []);
  }

  lemma EnsureBuiltLists(
      cfg: Config, w: World, br: Request, separateModels: bool, image: string, env: Env, b: bool)
    requires Tidy(w)
    ensures var w' := EnsureBuilt(cfg, w, br, separateModels, image, env).w;
            if Creates(cfg, w, separateModels, env) then
              Builders(cfg, w', b) == if b == IsSeparateModels(br.content)
                                      then Builders(cfg, w, b) + [NewBuilderJob(cfg, br.content, image, w.nextId)]
                                      else Builders(cfg, w, b)
            else if b == separateModels then |Builders(cfg, w', b)| <= |Builders(cfg, w, b)|
            else Builders(cfg, w', b) == Builders(cfg, w, b)
  {
    hide BuilderSelector, NewBuilderJob, TrackBuild, DropStale, DeleteEach, List, Tidy, Without, IsSeparateModels;
    if b != separateModels && !Creates(cfg, w, separateModels, env) {
      EnsureBuiltFrame(cfg, w, br, separateModels, image, env, BuilderSelector(cfg, b));
      return;
    }
    var listed := Builders(cfg, w, separateModels);
    var stale := FirstStale(listed, HashOf(br.content));
    if env.fails(ListBuilders) {
    } else if stale < |listed| {
      BuildersAfterDelete(cfg, w, listed[stale].id, b);
    } else if listed != [] {
      BuildersAfterDeletes(cfg, w, listed[1..], env, b);
    } else {
      BuildersAfterCreate(cfg, w, br.content, image, b);
    }
  }

  lemma BuildersAfterDelete(cfg: Config, w: World, id: nat, b: bool)
    ensures |Builders(cfg, w.(jobs := Without(w.jobs, id)), b)| <= |Builders(cfg, w, b)|
  {
    ListWithout(w.jobs, id, BuilderSelector(cfg, b));
    WithoutShrinks(Builders(cfg, w, b), id);
  }

  lemma BuildersAfterDeletes(cfg: Config, w: World, surplus: seq<Job>, env: Env, b: bool)
    requires Tidy(w)
    ensures |Builders(cfg, DeleteEach(w, surplus, env).0, b)| <= |Builders(cfg, w, b)|
  {
    DeleteEachLists(w, surplus, env, BuilderSelector(cfg, b));
  }

  lemma BuildersAfterCreate(cfg: Config, w: World, c: Content, image: string, b: bool)
    ensures var job := NewBuilderJob(cfg, c, image, w.nextId);
            Builders(cfg, w.(jobs := w.jobs + [job], nextId := w.nextId + 1), b)
            == if b == IsSeparateModels(c) then Builders(cfg, w, b) + [job] else Builders(cfg, w, b)
  {
    NewBuilderIsListed(cfg, c, image, w.nextId);
    ListCreated(w.jobs, NewBuilderJob(cfg, c, image, w.nextId), BuilderSelector(cfg, b));
  }

  /** The image phase keeps the bound when it is handed the request in the mode it is stored in. */
  lemma ImagePhaseBounded(cfg: Config, w: World, br: Request, env: Env)
    requires Tidy(w) && SameRequest(br, w.req)
    ensures Bounded(cfg, w, EnsureImageExists(cfg, w, br, env).w)
  {
    hide BentoImageName, EnsureBuilt, CheckImage, Builders, IsTrue, Find;
    var name := BentoImageName(cfg, br.namespace, br.content, false);
    if name.Some? {
      EnsureBuiltBound(cfg, w, br, IsSeparateModels(br.content), name.value, env);
      CheckImageBounded(cfg, w, IsSeparateModels(br.content), name.value, env);
    }
  }

  lemma CheckImageBounded(cfg: Config, w: World, separateModels: bool, image: string, env: Env)
    requires Tidy(w) && separateModels == IsSeparateModels(w.req.content)
    ensures Bounded(cfg, w, CheckImage(cfg, w, separateModels, image, env).w)
  {
    hide Write, EnsureBuilt, BuilderSelector, List, Reflects, SameOwn, RegistryReports, CheckedConditions, Tidy;
    var s := Write(w, CheckingImage, SetConditions([
      Report(ImageExistsChecked, Unknown, image),
      Report(BentoAvailable, Unknown, "Checking image exists")]), env);
    var found := RegistryReports(s.w, s.br.content, image);
    var t := Write(s.w, CheckedImage, SetConditions(CheckedConditions(found, image)), env);
    TidySame(w, t.w);
    EnsureBuiltBound(cfg, t.w, t.br, separateModels, image, env);
  }

  lemma FinishKeepsBuilders(cfg: Config, separateModels: bool, models: ModelsResult, image: ImageResult, env: Env, b: bool)
    requires Tidy(image.w)
    ensures Builders(cfg, Finish(cfg, separateModels, models, image, env).w, b) == Builders(cfg, image.w, b)
  {
    hide Write, Publish, CleanUp, Tidy, BuilderSelector, List;
    CleanUpKeepsBuilders(cfg, image.w, image.br, image.br.content.spec.models, 0, env, b);
  }

  // Passes that lose the request.

  /** Both reports around the registry check are written, and the check itself works. */
  predicate ChecksImage(env: Env)
  {
    && WriterSucceeds(env, CheckingImage) && WriterSucceeds(env, CheckedImage)
    && !env.fails(CheckRegistry) && !env.fails(RefetchChecked)
  }

  /** The name that is computed for the empty object. */
  function StrayImage(cfg: Config): Option<string>
  {
    BentoImageName(cfg, "", EmptyRequest.content, false)
  }

  /**
   The image phase works on the empty object and creates a job for it: the registry has no
   username to store, the image of the empty object is not there, and no job of the other mode is.
   */
  predicate MakesStray(cfg: Config, w: World, env: Env)
  {
    && Loses(cfg, w, env)
    && !cfg.hasCredentials && !env.fails(GetImageInfo) && StrayImage(cfg).Some?
    && !RegistryReports(w, w.req.content, StrayImage(cfg).value) && ChecksImage(env)
    && Creates(cfg, w, false, env)
  }

  /** Up to its job step the check of an image leaves the jobs alone; it gets there under that condition. */
  lemma CheckImageLists(cfg: Config, w: World, separateModels: bool, image: string, env: Env, b: bool)
    requires Tidy(w)
    ensures var w' := CheckImage(cfg, w, separateModels, image, env).w;
            if ChecksImage(env) && !RegistryReports(w, w.req.content, image) && Creates(cfg, w, separateModels, env) then
              Builders(cfg, w', b) == if b == IsSeparateModels(w.req.content)
                                      then Builders(cfg, w, b) + [NewBuilderJob(cfg, w.req.content, image, w.nextId)]
                                      else Builders(cfg, w, b)
            else if b == separateModels then |Builders(cfg, w', b)| <= |Builders(cfg, w, b)|
            else Builders(cfg, w', b) == Builders(cfg, w, b)
  {
    hide Write, EnsureBuilt, BuilderSelector, List, Reflects, SameOwn, CheckedConditions, Tidy, NewBuilderJob, WriterSucceeds;
    var first := SetConditions([
      Report(ImageExistsChecked, Unknown, image),
      Report(BentoAvailable, Unknown, "Checking image exists")]);
    var s := Write(w, CheckingImage, first, env);
    WriterOutcome(w, CheckingImage, first, env);
    var found := RegistryReports(s.w, s.br.content, image);
    var second := SetConditions(CheckedConditions(found, image));
    var t := Write(s.w, CheckedImage, second, env);
    WriterOutcome(s.w, CheckedImage, second, env);
    TidySame(w, t.w);
    EnsureBuiltLists(cfg, t.w, t.br, separateModels, image, env, b);
  }

  /** What an image phase on the empty object does to the builder jobs. */
  lemma StrayPhaseLists(cfg: Config, w: World, env: Env, b: bool)
    requires Tidy(w)
    ensures var w' := EnsureImageExists(cfg, w, EmptyRequest, env).w;
            if && !cfg.hasCredentials && !env.fails(GetImageInfo) && StrayImage(cfg).Some?
               && !RegistryReports(w, w.req.content, StrayImage(cfg).value) && ChecksImage(env)
               && Creates(cfg, w, false, env)
            then
              Builders(cfg, w', b) == if b == IsSeparateModels(w.req.content)
                                      then Builders(cfg, w, b) + [NewBuilderJob(cfg, w.req.content, StrayImage(cfg).value, w.nextId)]
                                      else Builders(cfg, w, b)
            else if !b then |Builders(cfg, w', b)| <= |Builders(cfg, w, b)|
            else Builders(cfg, w', b) == Builders(cfg, w, b)
  {
    hide CheckImage, EnsureBuilt, BentoImageName, Builders, NewBuilderJob, ChecksImage, RegistryReports, Creates;
    assert !IsSeparateModels(EmptyRequest.content);
    if StrayImage(cfg).Some? {
      CheckImageLists(cfg, w, false, StrayImage(cfg).value, env, b);
    }
  }

  /** The phases of a pass either create a stray job next to what is there, or keep the bound. */
  lemma PhasesLists(cfg: Config, w: World, env: Env)
    requires Tidy(w)
    ensures var w' := Phases(cfg, w, w.req, env).w;
            if MakesStray(cfg, w, env) then
              && IsSeparateModels(w.req.content) && Builders(cfg, w', false) == Builders(cfg, w, false)
              && Builders(cfg, w', true) == Builders(cfg, w, true) + [
                   NewBuilderJob(cfg, w.req.content, StrayImage(cfg).value, EnsureModelsExist(cfg, w, w.req, env).w.nextId)]
            else Bounded(cfg, w, w') && (Loses(cfg, w, env) ==> Builders(cfg, w', true) == Builders(cfg, w, true))
  {
    hide EnsureModelsExist, EnsureImageExists, Finish, Tidy, NewBuilderJob, RegistryReports, ChecksImage, BuilderSelector;
    hide List, BentoImageName, ModelsPhaseReads, Loses;
    LosesIff(cfg, w, env);
    var models := if SeedsModels(w.req.content) then EnsureModelsExist(cfg, w, w.req, env)
                  else ModelsResult(w, w.req, false, Done);
    ModelsPhaseKeepsRequest(cfg, w, w.req, env);
    ModelsPhaseKeepsBuilders(cfg, w, w.req, env, true);
    ModelsPhaseKeepsBuilders(cfg, w, w.req, env, false);
    var image := EnsureImageExists(cfg, models.w, models.br, env);
    ImagePhaseKeepsSeeders(cfg, models.w, models.br, env);
    FinishKeepsBuilders(cfg, IsSeparateModels(w.req.content), models, image, env, true);
    FinishKeepsBuilders(cfg, IsSeparateModels(w.req.content), models, image, env, false);
    if Loses(cfg, w, env) {
      SameReports(w, models.w);
      StrayPhaseLists(cfg, models.w, env, true);
      StrayPhaseLists(cfg, models.w, env, false);
    } else {
      ImagePhaseBounded(cfg, models.w, models.br, env);
    }
  }

  lemma SameReports(w: World, w1: World)
    requires w1.registry == w.registry
    ensures forall c: Content, image: string :: RegistryReports(w1, c, image) == RegistryReports(w, c, image)
  {
  }

  /** The pass creates a stray job. */
  predicate Strays(cfg: Config, w: World, env: Env)
  {
    match Entry(w, env)
    case None => false
    case Some(w1) => MakesStray(cfg, w1, env)
  }

  /** The pass creates a stray job although the request has a builder job already. */
  predicate Duplicates(cfg: Config, w: World, env: Env)
  {
    Strays(cfg, w, env) && Builders(cfg, w, true) != []
  }

  lemma StraysNeedsNoCredentials(cfg: Config, w: World, env: Env)
    ensures Strays(cfg, w, env) ==> !cfg.hasCredentials && !ModelsPhaseReads(env)
  {
    hide Entry, Loses, ChecksImage, RegistryReports, BentoImageName, ModelsPhaseReads;
    if Entry(w, env).Some? {
      LosesByFirstRead(cfg, Entry(w, env).value, env);
    }
  }

  /**
   A pass never raises the number of builder jobs above one, or above what it was, exactly unless
   it creates a stray job next to another one. With registry credentials it never does.
   */
  lemma PassBounded(cfg: Config, w: World, env: Env)
    requires Tidy(w)
    ensures Bounded(cfg, w, Pass(cfg, w, env)) <==> !Duplicates(cfg, w, env)
    ensures cfg.hasCredentials ==> !Duplicates(cfg, w, env)
  {
    hide Pass, Phases, Tidy, Write, Entered, BuilderSelector, List, MakesStray, NewBuilderJob, Entry, EnsureModelsExist;
    var ran, w1 := Enter(cfg, w, env);
    SameStore(w, w1);
    TidySame(w, w1);
    StraysNeedsNoCredentials(cfg, w, env);
    var w' := Pass(cfg, w, env);
    if ran {
      PhasesLists(cfg, w1, env);
      BoundedSame(cfg, w, w1, Phases(cfg, w1, w1.req, env).w, w');
      if MakesStray(cfg, w1, env) {
        assert |Builders(cfg, w', true)| == |Builders(cfg, w, true)| + 1;
        assert |Builders(cfg, w', false)| == |Builders(cfg, w, false)|;
      }
    } else {
      BoundedSame(cfg, w, w, w, w');
    }
  }

  lemma BoundedSame(cfg: Config, w: World, w1: World, r: World, w': World)
    requires w1.jobs == w.jobs && w'.jobs == r.jobs
    ensures forall b: bool :: Builders(cfg, w1, b) == Builders(cfg, w, b) && Builders(cfg, w', b) == Builders(cfg, r, b)
    ensures Bounded(cfg, w, w') <==> Bounded(cfg, w1, r)
  {
    hide BuilderSelector, List;
    assert forall b: bool :: Builders(cfg, w1, b) == Builders(cfg, w, b) && Builders(cfg, w', b) == Builders(cfg, r, b);
  }

  lemma StepBounded(cfg: Config, w: World, step: Step)
    requires Tidy(w) && (step.PassStep? ==> !Duplicates(cfg, w, step.env))
    ensures Bounded(cfg, w, Next(cfg, w, step))
  {
    hide Pass, WithForeign, BuilderSelector, Tidy, Duplicates;
    match step
    case PassStep(env) => PassBounded(cfg, w, env);
    case Progress(_, _, _, _, _) =>
      ProgressKeepsCount(w.jobs, step, BuilderSelector(cfg, true));
      ProgressKeepsCount(w.jobs, step, BuilderSelector(cfg, false));
    case Shuffle(order) =>
      if multiset(order) == multiset(w.jobs) {
        ListReordered(w.jobs, order, BuilderSelector(cfg, true));
        ListReordered(w.jobs, order, BuilderSelector(cfg, false));
      }
    case _ =>
  }

  lemma {:induction false} ProgressKeepsCount(jobs: seq<Job>, step: Step, selector: Labels)
    requires step.Progress?
    ensures |List(WithStatus(jobs, step), selector)| == |List(jobs, selector)|
  {
    if jobs != [] {
      ProgressKeepsCount(jobs[1..], step, selector);
      assert WithStatus(jobs, step)[1..] == WithStatus(jobs[1..], step);
    }
  }

  /**
   Safety over all runs: starting from none, there is never more than one builder job per value of
   the separate-models label, whatever the user edits between passes and whatever calls fail, as
   long as no pass creates a stray job next to another. With registry credentials none ever does.
   */
  lemma {:induction false} AtMostOneBuilderAlways(cfg: Config, w: World, steps: seq<Step>)
    requires Tidy(w) && forall b: bool :: Builders(cfg, w, b) == []
    requires cfg.hasCredentials || forall k :: 0 <= k < |steps| && steps[k].PassStep? ==>
               !Duplicates(cfg, Run(cfg, w, steps[..k]), steps[k].env)
    ensures forall b: bool :: |Builders(cfg, Run(cfg, w, steps), b)| <= 1
    decreases |steps|
  {
    hide Next, Tidy, Builders, Duplicates;
    if steps != [] {
      var before, last := steps[..|steps| - 1], steps[|steps| - 1];
      forall k | 0 <= k < |before| && before[k].PassStep?
        ensures cfg.hasCredentials || !Duplicates(cfg, Run(cfg, w, before[..k]), before[k].env)
      {
        assert before[k] == steps[k] && before[..k] == steps[..k];
      }
      AtMostOneBuilderAlways(cfg, w, before);
      RunTidy(cfg, w, before);
      if last.PassStep? {
        PassBounded(cfg, Run(cfg, w, before), last.env);
      }
      StepBounded(cfg, Run(cfg, w, before), last);
      assert Bounded(cfg, Run(cfg, w, before), Run(cfg, w, steps));
    } else {
      assert |Builders(cfg, w, true)| == 0 && |Builders(cfg, w, false)| == 0;
    }
  }

  ghost predicate AtMostOne(cfg: Config, w: World)
  {
    forall b: bool :: |Builders(cfg, w, b)| <= 1
  }

  /** No pass of the run creates a stray job next to another one. */
  predicate NeverDuplicates(cfg: Config, w: World, steps: seq<Step>)
  {
    forall k :: 0 <= k < |steps| && steps[k].PassStep? ==> !Duplicates(cfg, Run(cfg, w, steps[..k]), steps[k].env)
  }

  /** The bound holds all the way through a run exactly when no pass of it does so. */
  lemma {:induction false} AtMostOneBuilderIff(cfg: Config, w: World, steps: seq<Step>)
    requires Tidy(w) && AtMostOne(cfg, w)
    ensures (forall k :: 0 <= k <= |steps| ==> AtMostOne(cfg, Run(cfg, w, steps[..k]))) <==> NeverDuplicates(cfg, w, steps)
    decreases |steps|
  {
    hide Next, Tidy, AtMostOne, Duplicates;
    assert steps[..|steps|] == steps;
    if steps != [] {
      var n := |steps| - 1;
      var before, last := steps[..n], steps[n];
      assert forall k :: 0 <= k <= n ==> before[..k] == steps[..k];
      assert forall k :: 0 <= k < n ==> before[k] == steps[k];
      AtMostOneBuilderIff(cfg, w, before);
      RunTidy(cfg, w, before);
      assert NeverDuplicates(cfg, w, steps) <==>
             NeverDuplicates(cfg, w, before) && (last.PassStep? ==> !Duplicates(cfg, Run(cfg, w, before), last.env));
      if AtMostOne(cfg, Run(cfg, w, before)) {
        AtMostOneStepIff(cfg, Run(cfg, w, before), last);
      }
    }
  }

  lemma AtMostOneStepIff(cfg: Config, w: World, step: Step)
    requires Tidy(w) && AtMostOne(cfg, w)
    ensures AtMostOne(cfg, Next(cfg, w, step)) <==> (step.PassStep? ==> !Duplicates(cfg, w, step.env))
  {
    hide Pass, WithForeign, Builders, Tidy, Duplicates;
    var w' := Next(cfg, w, step);
    if step.PassStep? {
      PassBounded(cfg, w, step.env);
    } else {
      StepBounded(cfg, w, step);
    }
    assert forall b: bool :: Max(1, |Builders(cfg, w, b)|) == 1;
    assert Bounded(cfg, w, w') <==> AtMostOne(cfg, w');
  }
}
