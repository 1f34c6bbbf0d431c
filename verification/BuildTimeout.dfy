/** The build timeout: when its clock starts, exactly what restarts it, and when it expires. */
module BuildTimeout {
  import opened Basics
  import opened Conditions
  import opened Cluster
  import opened Naming
  import opened StatusWriter
  import opened ImagePhase
  import opened ModelsPhase
  import opened Reconcile
  import opened Listing
  import opened JobFrames
  import opened StatusFrames
  import opened Runs
  import opened CompareAndSwap
  import opened LostReads
  import opened BuilderJobs
  import opened Convergence
  import opened Availability
  import opened SeederJobs
  import opened Resets

  /** ImageBuilding has been True since the given time. */
  predicate BuildingSince(w: World, since: int)
  {
    BuildingCondition(w).Some? && BuildingCondition(w).value.status == True && BuildingCondition(w).value.since == since
  }

  /** The deadline of a condition that holds since then has passed. */
  predicate Late(w: World, since: int)
  {
    w.req.content.spec.imageBuildTimeout.Some? && since + w.req.content.spec.imageBuildTimeout.value < w.now
  }

  /** The job's pod runs and the job has neither completed nor failed for good. */
  predicate Active(job: Job)
  {
    BuildRunning(job) && job.active > 0
  }

  /** The deadline that a stored report has set has passed. */
  predicate Overdue(w: World, c: Option<Condition>)
  {
    c.Some? && Late(w, c.value.since)
  }

  /** One current, active builder job for an image nobody has seen. */
  ghost predicate Tracked(cfg: Config, w: World, image: string)
  {
    && Tidy(w) && Absent(cfg, w, image) && Unchecked(w, image)
    && Settled(cfg, w) && Active(OwnBuilders(cfg, w)[0])
    && SecretFits(cfg, w.req.namespace, w.req.content)
  }

  /** It is being tracked, on a status that has been initialised, with one entry per type and no Bento announced. */
  ghost predicate Reported(cfg: Config, w: World, image: string)
  {
    && Tracked(cfg, w, image) && Distinct(w.req.conditions) && NotAvailable(w)
    && Stamped(w) && w.req.conditions != []
  }

  /** The timer has been running since then. */
  ghost predicate Watching(cfg: Config, w: World, image: string, since: int)
  {
    Reported(cfg, w, image) && BuildingSince(w, since)
  }

  /** A timeout has been stored for the job. */
  predicate TimeoutStored(cfg: Config, w: World)
  {
    && OwnBuilders(cfg, w) != []
    && BuildingCondition(w) == Some(TimeoutCondition(OwnBuilders(cfg, w)[0]).(since := w.now))
  }

  /** What a pass leaves behind that timed out at its time. */
  ghost predicate HasTimedOut(cfg: Config, w: World)
  {
    && TimeoutStored(cfg, w)
    && Find(w.req.conditions, BentoAvailable).Some?
    && Find(w.req.conditions, BentoAvailable).value.status == False
    && Find(w.req.conditions, BentoAvailable).value.message == "ensure image exists: image build timeout"
  }

  /** What the report on an active job makes of ImageBuilding; of two conditions the later one wins. */
  function NextBuilding(c: Option<Condition>, job: Job, late: bool, now: int): Condition
  {
    if late then TimeoutCondition(job).(since := now) else Merged(c, RunningCondition(job), now)
  }

  lemma TrackTimer(w: World, job: Job, image: string, env: Env)
    requires Active(job)
    ensures var c := BuildingCondition(w);
            var next := Some(NextBuilding(c, job, Overdue(w, c), w.now));
            var r := TrackBuild(w, job, image, env);
            && !r.present
            && (BuildingCondition(r.w) == c || BuildingCondition(r.w) == next)
            && (Quiet(env) ==>
                  && BuildingCondition(r.w) == next
                  && r.end == if Overdue(w, c) then Err("image build timeout") else Done)
  {
    hide Write, BuildFailed, Quiet;
    var late := SetConditions([RunningCondition(job), TimeoutCondition(job)]);
    var running := SetConditions([RunningCondition(job)]);
    if Quiet(env) {
      QuietOk(w, Building, late, env);
      QuietOk(w, Building, running, env);
    }
  }

  /** What an image phase may leave of a tracked build. */
  ghost predicate Advanced(cfg: Config, w: World, w': World, present: bool, end: End, image: string, quiet: bool)
    requires Settled(cfg, w)
  {
    var c := BuildingCondition(w);
    var next := Some(NextBuilding(c, OwnBuilders(cfg, w)[0], Overdue(w, c), w.now));
    && !present && Unchecked(w', image) && NotAvailable(w')
    && (BuildingCondition(w') == c || BuildingCondition(w') == next)
    && (quiet ==>
          && BuildingCondition(w') == next
          && end == if Overdue(w, c) then Err("image build timeout") else Done)
  }

  lemma EnsureBuiltTimer(cfg: Config, w: World, br: Request, image: string, env: Env)
    requires Settled(cfg, w) && SameRequest(br, w.req) && Unchecked(w, image) && NotAvailable(w)
    requires Active(OwnBuilders(cfg, w)[0])
    ensures var r := EnsureBuilt(cfg, w, br, IsSeparateModels(br.content), image, env);
            Advanced(cfg, w, r.w, r.present, r.end, image, Quiet(env))
  {
    hide TrackBuild, DropStale, NewBuilderJob, BuilderSelector, IsSeparateModels, Find, Active, NextBuilding, List, Late;
    var listed := OwnBuilders(cfg, w);
    assert FirstStale(listed, HashOf(br.content)) == 1;
    assert listed[1..] == [];
    assert DeleteEach(w, [], env) == (w, true);
    TrackTimer(w, listed[0], image, env);
    TrackBuildUnchecked(w, listed[0], image, env);
    TrackBuildAnnouncesNothing(w, listed[0], image, env);
  }

  lemma CheckTimer(cfg: Config, w: World, image: string, env: Env)
    requires Settled(cfg, w) && Absent(cfg, w, image) && Unchecked(w, image) && NotAvailable(w)
    requires Active(OwnBuilders(cfg, w)[0])
    ensures var r := CheckImage(cfg, w, IsSeparateModels(w.req.content), image, env);
            Advanced(cfg, w, r.w, r.present, r.end, image, Quiet(env))
  {
    hide Write, EnsureBuilt, Settled, BentoImageName, Quiet, Builders, IsSeparateModels, Active, NextBuilding;
    hide Find, NotAvailable, Unchecked, Late, Reflects, SameOwn, CheckedConditions;
    var first := SetConditions([
      Report(ImageExistsChecked, Unknown, image),
      Report(BentoAvailable, Unknown, "Checking image exists")]);
    var s := Write(w, CheckingImage, first, env);
    var t := Write(s.w, CheckedImage, SetConditions(CheckedConditions(false, image)), env);
    CheckingChangesLittle(w, image, env);
    if Quiet(env) {
      QuietOk(w, CheckingImage, first, env);
      QuietOk(s.w, CheckedImage, SetConditions(CheckedConditions(false, image)), env);
      QuietCalls(env);
    }
    SameBuilders(cfg, w, t.w);
    SameDeadline(w, t.w);
    if t.ok {
      EnsureBuiltTimer(cfg, t.w, t.br, image, env);
    }
  }

  lemma SameDeadline(w: World, w1: World)
    requires w1.req.content == w.req.content && w1.now == w.now
    ensures forall since: int :: Late(w1, since) == Late(w, since)
  {
  }

  /** Asking the registry in vain writes neither ImageBuilding nor anything True. */
  lemma CheckingChangesLittle(w: World, image: string, env: Env)
    requires Unchecked(w, image) && NotAvailable(w)
    ensures var s := Write(w, CheckingImage, SetConditions([
                Report(ImageExistsChecked, Unknown, image),
                Report(BentoAvailable, Unknown, "Checking image exists")]), env);
            var t := Write(s.w, CheckedImage, SetConditions(CheckedConditions(false, image)), env);
            && Unchecked(s.w, image) && NotAvailable(s.w) && BuildingCondition(s.w) == BuildingCondition(w)
            && Unchecked(t.w, image) && NotAvailable(t.w) && BuildingCondition(t.w) == BuildingCondition(w)
  {
    hide Write;
  }

  lemma ImageTimer(cfg: Config, w: World, br: Request, image: string, env: Env)
    requires Settled(cfg, w) && Absent(cfg, w, image) && Unchecked(w, image) && NotAvailable(w)
    requires SameRequest(br, w.req) && !IsTrue(Find(br.conditions, ImageExistsChecked), image)
    requires SecretFits(cfg, w.req.namespace, w.req.content)
    requires Active(OwnBuilders(cfg, w)[0])
    ensures var r := EnsureImageExists(cfg, w, br, env);
            Advanced(cfg, w, r.w, r.present, r.end, image, Quiet(env))
  {
    hide CheckImage, EnsureBuilt, Settled, BentoImageName, Builders, IsSeparateModels, Active, NextBuilding;
    hide RegistryReports;
    CheckTimer(cfg, w, image, env);
  }

  // A pass that loses the request.

  lemma StrayBuiltTimer(cfg: Config, w: World, br: Request, name: string, env: Env, image: string)
    requires Tidy(w) && SameRequest(br, w.req) && IsSeparateModels(w.req.content)
    requires Stamped(w) && Unchecked(w, image) && NotAvailable(w)
    ensures var r := EnsureBuilt(cfg, w, br, false, name, env);
            && Unchecked(r.w, image) && NotAvailable(r.w)
            && if !env.fails(ListBuilders) && Builders(cfg, w, false) != []
                  && !env.fails(DeleteJob(Builders(cfg, w, false)[0].id)) && ResetStored(env, BuilderStale)
               then ResetOf(BuildingCondition(w), BuildingCondition(r.w))
               else BuildingCondition(r.w) == BuildingCondition(w)
  {
    hide TrackBuild, NewBuilderJob, BuilderSelector, DeleteEach, List, IsSeparateModels, Tidy, Find, ResetStored, Write;
    var listed := Builders(cfg, w, false);
    ModeOfListed(cfg, w, false);
    if listed != [] {
      assert listed[0] in listed && listed[0].hash != HashOf(br.content);
      assert FirstStale(listed, HashOf(br.content)) == 0;
      var w1 := w.(jobs := Without(w.jobs, listed[0].id));
      WriteResets(w1, BuilderStale, env);
      DropKeepsUnchecked(w, br, listed[0], name, env, image);
    }
  }

  lemma DropKeepsUnchecked(w: World, br: Request, job: Job, name: string, env: Env, image: string)
    requires Unchecked(w, image) && NotAvailable(w)
    ensures var r := DropStale(w, br, job, name, env);
            Unchecked(r.w, image) && NotAvailable(r.w)
  {
    hide Write;
  }

  lemma StrayCheckTimer(cfg: Config, w: World, name: string, env: Env, image: string)
    requires Tidy(w) && IsSeparateModels(w.req.content) && !RegistryReports(w, w.req.content, image)
    requires Stamped(w) && Unchecked(w, image) && NotAvailable(w)
    ensures var r := CheckImage(cfg, w, false, name, env);
            && Unchecked(r.w, image) && NotAvailable(r.w)
            && if && !RegistryReports(w, w.req.content, name) && ChecksImage(env)
                  && !env.fails(ListBuilders) && Builders(cfg, w, false) != []
                  && !env.fails(DeleteJob(Builders(cfg, w, false)[0].id)) && ResetStored(env, BuilderStale)
               then ResetOf(BuildingCondition(w), BuildingCondition(r.w))
               else BuildingCondition(r.w) == BuildingCondition(w)
  {
    hide Write, EnsureBuilt, BuilderSelector, List, IsSeparateModels, Tidy, ResetStored, RegistryReports, WriterSucceeds;
    hide NotAvailable, Unchecked, BuildingCondition, Reflects, SameOwn, CheckedConditions;
    var first := SetConditions([
      Report(ImageExistsChecked, Unknown, name),
      Report(BentoAvailable, Unknown, "Checking image exists")]);
    var s := Write(w, CheckingImage, first, env);
    WriterOutcome(w, CheckingImage, first, env);
    SameReports(w, s.w);
    var found := RegistryReports(s.w, s.br.content, name);
    var second := SetConditions(CheckedConditions(found, name));
    var t := Write(s.w, CheckedImage, second, env);
    WriterOutcome(s.w, CheckedImage, second, env);
    OtherNameLittle(w, name, found, env, image);
    TidySame(w, t.w);
    if s.ok && t.ok && !found {
      StrayBuiltTimer(cfg, t.w, t.br, name, env, image);
    }
  }

  /** Asking the registry for any image that is not this one leaves what is known of this one alone. */
  lemma OtherNameLittle(w: World, name: string, found: bool, env: Env, image: string)
    requires Unchecked(w, image) && NotAvailable(w)
    ensures var s := Write(w, CheckingImage, SetConditions([
                Report(ImageExistsChecked, Unknown, name),
                Report(BentoAvailable, Unknown, "Checking image exists")]), env);
            var t := Write(s.w, CheckedImage, SetConditions(CheckedConditions(found, name)), env);
            && Unchecked(s.w, image) && NotAvailable(s.w) && BuildingCondition(s.w) == BuildingCondition(w)
            && (!found || name != image ==> Unchecked(t.w, image)) && NotAvailable(t.w)
            && BuildingCondition(t.w) == BuildingCondition(w)
  {
    hide Write;
  }

  lemma StrayTimer(cfg: Config, w: World, env: Env, image: string)
    requires Tidy(w) && IsSeparateModels(w.req.content) && !RegistryReports(w, w.req.content, image)
    requires Stamped(w) && Unchecked(w, image) && NotAvailable(w)
    ensures var r := EnsureImageExists(cfg, w, EmptyRequest, env);
            && Unchecked(r.w, image) && NotAvailable(r.w)
            && (if StrayPhaseResets(cfg, w, env) then ResetOf(BuildingCondition(w), BuildingCondition(r.w))
                else BuildingCondition(r.w) == BuildingCondition(w))
  {
    hide CheckImage, EnsureBuilt, BentoImageName, Builders, ChecksImage, RegistryReports, ResetStored, Tidy;
    hide BuildingCondition, NotAvailable, Unchecked;
    assert !IsSeparateModels(EmptyRequest.content);
    if StrayImage(cfg).Some? {
      StrayCheckTimer(cfg, w, StrayImage(cfg).value, env, image);
    }
  }

  // Whole passes.

  /** What the report on an active job makes of a condition that has been reset. */
  function AfterReset(job: Job, late: bool, now: int): Condition
  {
    if late then TimeoutCondition(job).(since := now) else RunningCondition(job).(since := now)
  }

  /** How ImageBuilding may have moved on from c, with or without a reset, and surely has when nothing fails. */
  predicate Ticked(c: Option<Condition>, after: Option<Condition>, reset: bool, job: Job, late: bool, now: int, quiet: bool)
  {
    if reset then
      || after == Some(AfterReset(job, late, now))
      || (!quiet && ResetOf(c, after))
    else
      || after == Some(NextBuilding(c, job, late, now))
      || (!quiet && after == c)
  }

  lemma NextOfReset(c: Option<Condition>, r: Option<Condition>, job: Job, late: bool, now: int)
    requires ResetOf(c, r) && (r.Some? ==> r.value.kind == ImageBuilding) && Active(job)
    ensures NextBuilding(r, job, late, now) == AfterReset(job, late, now)
  {
  }

  lemma FinishTimer(cfg: Config, separateModels: bool, models: ModelsResult, r: ImageResult, image: string, env: Env)
    requires (!r.present || models.end.Err?) && Unchecked(r.w, image) && NotAvailable(r.w)
    ensures var f := Finish(cfg, separateModels, models, r, env);
            && f.w == r.w.(req := f.w.req)
            && Unchecked(f.w, image) && NotAvailable(f.w)
            && BuildingCondition(f.w) == BuildingCondition(r.w)
            && (r.end.Err? ==> f.end == Wrapped(r.end, "ensure image exists"))
  {
    hide Write;
  }

  /** The models phase before it, whether or not it resets. */
  lemma ModelsBefore(cfg: Config, w: World, image: string, env: Env)
    requires Tracked(cfg, w, image) && NotAvailable(w)
    requires Stamped(w) && SeedsModels(w.req.content)
    ensures var models := EnsureModelsExist(cfg, w, w.req, env);
            && Tracked(cfg, models.w, image) && NotAvailable(models.w) && OwnBuilders(cfg, models.w) == OwnBuilders(cfg, w)
            && Builders(cfg, models.w, false) == Builders(cfg, w, false)
            && HandsOn(models.br, w, models.end, env) && SameRequest(models.w.req, w.req)
            && !IsTrue(Find(models.br.conditions, ImageExistsChecked), image)
            && if ModelsReset(cfg, w, env) then ResetOf(BuildingCondition(w), BuildingCondition(models.w))
               else BuildingCondition(models.w) == BuildingCondition(w)
  {
    hide EnsureModelsExist, Tidy, Builders, BentoImageName, NotAvailable, ModelsPhaseReads, Active, Find, Settled;
    hide IsSeparateModels, ModelsReset, SecretFits, HandsOn, SeedsModels;
    ModelsConverges(cfg, w, w.req, env, image);
    ModelsPhaseMakesNoneTrue(cfg, w, w.req, env, ImageExistsChecked, image);
    ModelsPhaseKeepsRequest(cfg, w, w.req, env);
    ModelsPhaseAnnouncesNothing(cfg, w, env);
    ModelsPhaseKeepsListed(cfg, w, env);
    ModelsTimer(cfg, w, env);
    var models := EnsureModelsExist(cfg, w, w.req, env);
    SettledSame(cfg, w, models.w);
    SameAbsent(cfg, w, models.w, image);
  }

  lemma ModelsPhaseKeepsListed(cfg: Config, w: World, env: Env)
    requires Tidy(w)
    ensures Builders(cfg, EnsureModelsExist(cfg, w, w.req, env).w, false) == Builders(cfg, w, false)
  {
    hide EnsureModelsExist, Tidy;
    ModelsPhaseKeepsBuilders(cfg, w, w.req, env, false);
  }

  /** How a pass ends that times out. */
  const TimeoutEnd: End := Wrapped(Err("image build timeout"), "ensure image exists")

  /** How the phases of a pass move the timer of a tracked build on. */
  lemma PhasesTimer(cfg: Config, w: World, image: string, env: Env)
    requires Tracked(cfg, w, image) && NotAvailable(w)
    requires Stamped(w)
    ensures var c := BuildingCondition(w);
            var r := Phases(cfg, w, w.req, env);
            && Unchecked(r.w, image) && NotAvailable(r.w)
            && Ticked(c, BuildingCondition(r.w), PhasesReset(cfg, w, env), OwnBuilders(cfg, w)[0], Overdue(w, c), w.now, Quiet(env))
            && (Quiet(env) && Overdue(w, c) ==> r.end == TimeoutEnd)
  {
    hide EnsureModelsExist, EnsureImageExists, Finish, Tidy, Quiet, Builders, BentoImageName, NotAvailable, Find;
    hide ModelsPhaseReads, Active, Late, Settled, ModelsReset, StrayPhaseResets, NextBuilding, AfterReset, RegistryReports;
    hide Unchecked, SecretFits, IsSeparateModels, Loses, Wrapped;
    LosesIff(cfg, w, env);
    SettledHasJob(cfg, w);
    ModelsResetSeeds(cfg, w, env);
    var c := BuildingCondition(w);
    var job := OwnBuilders(cfg, w)[0];
    var models := if SeedsModels(w.req.content) then EnsureModelsExist(cfg, w, w.req, env)
                  else ModelsResult(w, w.req, false, Done);
    if SeedsModels(w.req.content) {
      ModelsBefore(cfg, w, image, env);
    } else {
      UncheckedRequest(w, image);
    }
    SameDeadline(w, models.w);
    StrayPhaseSame(cfg, w, models.w, env);
    var r := EnsureImageExists(cfg, models.w, models.br, env);
    if Loses(cfg, w, env) {
      StrayTimer(cfg, models.w, env, image);
      LosesLoudly(cfg, w, env);
    } else {
      ImageTimer(cfg, models.w, models.br, image, env);
      if ModelsReset(cfg, w, env) {
        NextOfReset(c, BuildingCondition(models.w), job, Overdue(w, c), w.now);
      }
    }
    FinishTimer(cfg, IsSeparateModels(w.req.content), models, r, image, env);
  }

  lemma SettledHasJob(cfg: Config, w: World)
    requires Settled(cfg, w)
    ensures OwnBuilders(cfg, w) != []
  {
  }

  lemma ModelsResetSeeds(cfg: Config, w: World, env: Env)
    ensures ModelsReset(cfg, w, env) ==> SeedsModels(w.req.content)
  {
    hide PruneResets, SeededMessage, WriterSucceeds;
  }

  lemma UncheckedRequest(w: World, image: string)
    requires Unchecked(w, image)
    ensures !IsTrue(Find(w.req.conditions, ImageExistsChecked), image)
  {
  }

  lemma LosesLoudly(cfg: Config, w: World, env: Env)
    requires Loses(cfg, w, env) && Tidy(w)
    ensures EnsureModelsExist(cfg, w, w.req, env).end.Err? && !ModelsPhaseReads(env) && !Quiet(env)
    ensures IsSeparateModels(w.req.content)
  {
    hide EnsureModelsExist, Loses, Tidy;
    LosesIff(cfg, w, env);
    LosesByFirstRead(cfg, w, env);
    ModelsPhaseKeepsRequest(cfg, w, w.req, env);
    if Quiet(env) {
      QuietReads(env);
    }
  }

  lemma EnteredReported(cfg: Config, w: World, w1: World, image: string)
    requires Reported(cfg, w, image) && Entered(w, w1)
    requires forall k: Kind :: k.Foreign? || k == BentoAvailable || Find(w1.req.conditions, k) == Find(w.req.conditions, k)
    ensures Tracked(cfg, w1, image) && BuildingCondition(w1) == BuildingCondition(w)
    ensures OwnBuilders(cfg, w1) == OwnBuilders(cfg, w)
  {
    hide Tidy, BuilderSelector, List, BentoImageName, Active, SecretFits;
    TidySame(w, w1);
    SameBuilders(cfg, w, w1);
  }

  lemma ConcludedTimer(r: BodyResult, env: Env, image: string)
    requires Unchecked(r.w, image) && NotAvailable(r.w)
    ensures var w' := Concluded(r, env);
            && Unchecked(w', image) && NotAvailable(w')
            && BuildingCondition(w') == BuildingCondition(r.w)
            && (Quiet(env) && r.end.Err? ==>
                  var c := Find(w'.req.conditions, BentoAvailable);
                  c.Some? && c.value.status == False && c.value.message == r.end.message)
  {
    hide Write, Quiet;
    if r.end.Err? && Quiet(env) {
      QuietOk(r.w, Deferred, SetConditions([Report(BentoAvailable, False, r.end.message)]), env);
    }
  }

  lemma StoppedTimer(w1: World, w': World, image: string)
    requires Unchecked(w1, image)
    requires forall k: Kind :: k.Foreign? || k == BentoAvailable || Find(w'.req.conditions, k) == Find(w1.req.conditions, k)
    ensures Unchecked(w', image) && BuildingCondition(w') == BuildingCondition(w1)
  {
  }

  lemma StillNotAvailable(w: World, w': World)
    requires NotAvailable(w)
    requires Find(w'.req.conditions, BentoAvailable) == Find(w.req.conditions, BentoAvailable)
             || (Find(w'.req.conditions, BentoAvailable).Some? && Find(w'.req.conditions, BentoAvailable).value.status != True)
    ensures NotAvailable(w')
  {
  }

  /** How one pass moves the timer of a tracked build on, whatever fails. */
  lemma PassTimer(cfg: Config, w: World, image: string, env: Env)
    requires Reported(cfg, w, image)
    ensures var c := BuildingCondition(w);
            var w' := Pass(cfg, w, env);
            && Unchecked(w', image) && NotAvailable(w')
            && Ticked(c, BuildingCondition(w'), PassResets(cfg, w, env), OwnBuilders(cfg, w)[0], Overdue(w, c), w.now, Quiet(env))
            && (Quiet(env) && Overdue(w, c) ==>
                  var a := Find(w'.req.conditions, BentoAvailable);
                  a.Some? && a.value.status == False && a.value.message == "ensure image exists: image build timeout")
  {
    hide Pass, Phases, Tidy, Write, Builders, BentoImageName, Distinct, Quiet, Entry, PhasesReset, NextBuilding, AfterReset;
    hide Active, Late, Reflects, Report, Find, NotAvailable, Unchecked, SecretFits, RegistryReports, IsSeparateModels;
    NotAvailableSays(w);
    var ran, w1 := Enter(cfg, w, env);
    var w' := Pass(cfg, w, env);
    EnteredReported(cfg, w, w1, image);
    SameStore(w, w1);
    SameDeadline(w, w1);
    if ran {
      UnknownIsNotAvailable(w1);
      PhasesTimer(cfg, w1, image, env);
      ConcludedTimer(Phases(cfg, w1, w1.req, env), env, image);
      assert TimeoutEnd == Err("ensure image exists: image build timeout") by {
        assert "ensure image exists" + ": " + "image build timeout" == "ensure image exists: image build timeout";
      }
    } else {
      StoppedTimer(w1, w', image);
      StillNotAvailable(w, w');
    }
  }

  /** What else an unreset, unstrayed pass keeps of a tracked build. */
  lemma PassTracks(cfg: Config, w: World, image: string, env: Env)
    requires Reported(cfg, w, image)
    ensures var w' := Pass(cfg, w, env);
            && Distinct(w'.req.conditions)
            && (OwnBuilders(cfg, w') == OwnBuilders(cfg, w) <==> !Strays(cfg, w, env))
            && (!Strays(cfg, w, env) ==> Tracked(cfg, w', image))
            && w'.now == w.now && SameRequest(w'.req, w.req)
    ensures Quiet(env) ==> !Strays(cfg, w, env)
  {
    hide Pass, Tidy, Builders, BentoImageName, Distinct, Quiet, Active, NotAvailable, Find, MakesStray, Entry, SecretFits;
    hide Absent;
    PassTidy(cfg, w, env);
    SettledForever(cfg, w, env);
    SameAbsent(cfg, w, Pass(cfg, w, env), image);
    PassTimer(cfg, w, image, env);
  }

  /** The pass restarts the timer, or spoils the job it runs for: a reset is stored or a stray job made. */
  predicate Disturbs(cfg: Config, w: World, env: Env)
  {
    PassResets(cfg, w, env) || Strays(cfg, w, env)
  }

  /**
   Before the deadline a pass keeps the timer running from its start exactly when it neither stores a
   reset nor makes a stray job, whatever else fails. After the deadline it may also store the timeout.
   */
  lemma PassWatches(cfg: Config, w: World, image: string, env: Env, since: int)
    requires Watching(cfg, w, image, since)
    ensures var w' := Pass(cfg, w, env);
            && (!Late(w, since) && since != w.now ==> (Watching(cfg, w', image, since) <==> !Disturbs(cfg, w, env)))
            && (!Disturbs(cfg, w, env) ==>
                  Watching(cfg, w', image, since)
                  || (Late(w, since) && TimeoutStored(cfg, w')))
  {
    hide Pass, Tidy, BentoImageName, Distinct, Quiet, NotAvailable, PassResets, Strays, Late, SecretFits, Builders, Absent;
    hide Unchecked;
    PassTimer(cfg, w, image, env);
    PassTracks(cfg, w, image, env);
    var w' := Pass(cfg, w, env);
    if Strays(cfg, w, env) && Settled(cfg, w') {
      StraySettles(cfg, w, env);
    }
  }

  /** With two builder jobs nothing is settled. */
  lemma StraySettles(cfg: Config, w: World, env: Env)
    requires Settled(cfg, w) && Tidy(w)
    ensures Strays(cfg, w, env) ==> !Settled(cfg, Pass(cfg, w, env))
  {
    hide Pass, Phases, Tidy, Entry, MakesStray, NewBuilderJob, Builders, IsSeparateModels, EnsureModelsExist;
    var ran, w1 := Enter(cfg, w, env);
    SameStore(w, w1);
    TidySame(w, w1);
    if Strays(cfg, w, env) {
      PhasesLists(cfg, w1, env);
      SameBuilders(cfg, w, w1);
      SameBuilders(cfg, Phases(cfg, w1, w1.req, env).w, Pass(cfg, w, env));
    }
  }

  /**
   An undisturbed pass over a reported build times out exactly when the deadline of that report has
   passed, resets or not; otherwise it leaves the timer running, from its old start exactly when it
   was running and no reset was stored, else from now.
   */
  lemma QuietPassTimer(cfg: Config, w: World, image: string, env: Env)
    requires Reported(cfg, w, image) && Quiet(env)
    ensures var c := BuildingCondition(w);
            var w' := Pass(cfg, w, env);
            && (HasTimedOut(cfg, w') <==> Overdue(w, c))
            && (!Overdue(w, c) ==>
                  w.now == 0
                  || Watching(cfg, w', image,
                       if c.Some? && c.value.status == True && !PassResets(cfg, w, env) then c.value.since else w.now))
  {
    hide Pass, Tidy, BentoImageName, Distinct, Quiet, NotAvailable, PassResets, Strays, Late, SecretFits, Builders, Absent;
    hide Unchecked;
    PassTimer(cfg, w, image, env);
    PassTracks(cfg, w, image, env);
  }

  /** An undisturbed pass stores a reset exactly when it finds such a seeder job. */
  lemma QuietResetsIff(cfg: Config, w: World, env: Env)
    requires Quiet(env) && Distinct(w.req.conditions) && NotAvailable(w) && w.req.conditions != []
    ensures PassResets(cfg, w, env) <==> StaleSeeder(cfg, w)
  {
    hide Pass, Quiet, Distinct, Entry, EnsureModelsExist, SeederSelector, List, SeededMessage, SeedsModels, PruneResets;
    hide StrayPhaseResets, WriterSucceeds, Find, Loses;
    NotAvailableSays(w);
    var ran, w1 := Enter(cfg, w, env);
    SameStore(w, w1);
    QuietCalls(env);
    QuietReads(env);
    LosesByFirstRead(cfg, w1, env);
    QuietPrune(Seeders(cfg, w1), HashOf(w.req.content), Tags(w.req.content.spec.models), env);
    QuietOk(w1, ModelsNotReady, SetConditions([NotReady]), env);
    WriterOutcome(w1, ModelsNotReady, SetConditions([NotReady]), env);
    assert Find(w1.req.conditions, ModelsExists) == Find(w.req.conditions, ModelsExists);
  }

  // A postponed timeout.

  const Timed: Content :=
    Content(Spec("a:1", "s3://a", "", [Model("m:1", "")], "registry/a:1", Some(10), None, "", ""), map[],
            map[SeparateModelsAnnotation := "true"])

  /** The status that passes leave while the image is building and the models are being seeded, all since time 1. */
  function TimedStatus(builder: Job, seeder: Job): seq<Condition>
  {
    var checked := CheckedConditions(false, Timed.spec.image);
    [ Report(ModelsSeeding, True, "Model seeder jobs are not ready: " + seeder.name + ".").(since := 1),
      RunningCondition(builder).(since := 1),
      checked[0].(since := 1),
      Report(BentoAvailable, Unknown, "Bento image is building").(since := 1),
      NotReady.(since := 1),
      checked[1].(since := 1)]
  }

  /** A build that has been running for nine of its ten seconds, next to a seeder job of an older request. */
  function TimedWorld(cfg: Config): World
  {
    var builder := NewBuilderJob(cfg, Timed, "", 0).(active := 1);
    var seeder := NewSeederJob(cfg, Timed.(spec := Timed.spec.(imageBuildTimeout := None)), "m:1", 1);
    World(Request("ns", Timed, TimedStatus(builder, seeder), 1), [builder, seeder], {}, None, {}, 10, 2)
  }

  lemma TimedLists(cfg: Config)
    ensures var w := TimedWorld(cfg);
            && Tidy(w) && OwnBuilders(cfg, w) == [w.jobs[0]] && Seeders(cfg, w) == [w.jobs[1]]
  {
    hide BuilderSelector, SeederSelector, BuilderLabels, SeederLabels, Generated, Selects, List, Digits;
    var builder, seeder := TimedWorld(cfg).jobs[0], TimedWorld(cfg).jobs[1];
    NewBuilderIsListed(cfg, Timed, "", 0);
    NewSeederIsListed(cfg, Timed.(spec := Timed.spec.(imageBuildTimeout := None)), "m:1", 1, true);
    assert Generated(builder) && Generated(seeder) by {
      SameGenerated(NewBuilderJob(cfg, Timed, "", 0), builder);
    }
    ListTwo(builder, seeder, BuilderSelector(cfg, true));
    ListTwo(builder, seeder, SeederSelector(cfg));
  }

  lemma SameGenerated(a: Job, b: Job)
    requires Generated(a) && b.name == a.name && b.id == a.id && b.labels == a.labels && b.hash == a.hash
    ensures Generated(b)
  {
  }

  lemma ListTwo(a: Job, b: Job, selector: Labels)
    ensures List([a, b], selector)
         == (if Selects(selector, a.labels) then [a] else []) + (if Selects(selector, b.labels) then [b] else [])
  {
    hide Selects;
    assert [a, b] == [a] + [b] && [a] == [a] + [];
    assert [b] == [b] + [];
    ListHead(a, [b], selector);
    ListHead(b, [], selector);
  }

  /**
   So the timeout of an unchanged request can be put off: with one second left an undisturbed pass
   deletes that seeder job and starts the clock of the running build again.
   */
  lemma RestartPostponesTimeout(cfg: Config, env: Env)
    requires Quiet(env)
    ensures var w, image := TimedWorld(cfg), Timed.spec.image;
            && Watching(cfg, w, image, 1) && !Late(w, 1)
            && Watching(cfg, Pass(cfg, w, env), image, 10)
  {
    hide TimedWorld, Pass, Tracked, StaleSeeder, Distinct, NotAvailable, Quiet, PassResets;
    TimedReported(cfg);
    QuietResetsIff(cfg, TimedWorld(cfg), env);
    QuietPassTimer(cfg, TimedWorld(cfg), Timed.spec.image, env);
  }

  lemma TimedConditions(builder: Job, seeder: Job)
    requires builder.active == 1
    ensures var cs := TimedStatus(builder, seeder);
            && Distinct(cs) && cs != []
            && Find(cs, ImageBuilding) == Some(RunningCondition(builder).(since := 1)) && RunningCondition(builder).status == True
            && Find(cs, BentoAvailable).Some? && Find(cs, BentoAvailable).value.status == Unknown
            && Find(cs, ModelsExists).Some? && Find(cs, ModelsExists).value.status == False
            && Find(cs, ImageExistsChecked).Some? && Find(cs, ImageExistsChecked).value.status == False
  {
    hide Find;
    var cs := TimedStatus(builder, seeder);
    FindAt(cs, 1);
    FindAt(cs, 3);
    FindAt(cs, 4);
    FindAt(cs, 5);
  }

  lemma TimedReported(cfg: Config)
    ensures Watching(cfg, TimedWorld(cfg), Timed.spec.image, 1) && StaleSeeder(cfg, TimedWorld(cfg))
    ensures TimedWorld(cfg).req.content == Timed && TimedWorld(cfg).now == 10
  {
    hide Tidy, BuilderSelector, SeederSelector, List, BuilderLabels, SeederLabels, TimedStatus, Find, Distinct;
    var w := TimedWorld(cfg);
    TimedLists(cfg);
    TimedConditions(w.jobs[0], w.jobs[1]);
    assert w.jobs[1] in Seeders(cfg, w);
  }

  // Runs.

  /** The job is still active after the step. */
  predicate KeepsActive(job: Job, step: Step)
  {
    step.Progress? && step.job == job.id ==>
      Active(job.(succeeded := step.succeeded, failed := step.failed, active := step.active, conditions := step.jobConditions))
  }

  /** The step leaves the request alone, the job active and the image unseen. */
  predicate Calm(step: Step, job: Job, image: string)
  {
    && !step.EditContent? && KeepsActive(job, step)
    && (step.RegistryChange? ==> image !in step.images)
  }

  /** The builder job that is being watched, whatever its status by now. */
  predicate SameJob(cfg: Config, w: World, job: Job)
  {
    OwnBuilders(cfg, w) != [] && OwnBuilders(cfg, w)[0].id == job.id && OwnBuilders(cfg, w)[0].completions == job.completions
  }

  lemma CalmStep(cfg: Config, w: World, step: Step, job: Job, image: string, since: int)
    requires Watching(cfg, w, image, since) && SameJob(cfg, w, job) && Calm(step, job, image)
    requires step.PassStep? ==> !Disturbs(cfg, w, step.env) && !TimeoutStored(cfg, Next(cfg, w, step))
    ensures Watching(cfg, Next(cfg, w, step), image, since) && SameJob(cfg, Next(cfg, w, step), job)
  {
    hide Watching, SameJob, Pass, Tidy, WithForeign, Disturbs, TimeoutStored;
    match step
    case PassStep(env) =>
      PassWatches(cfg, w, image, env, since);
      WatchedPass(cfg, w, image, env, job, since);
    case Progress(_, _, _, _, _) =>
      CalmProgress(cfg, w, step, job, image, since);
    case Shuffle(order) =>
      CalmShuffle(cfg, w, order, job, image, since);
    case _ =>
      CalmOther(cfg, w, step, job, image, since);
  }

  lemma WatchedPass(cfg: Config, w: World, image: string, env: Env, job: Job, since: int)
    requires Watching(cfg, w, image, since) && SameJob(cfg, w, job) && !Disturbs(cfg, w, env)
    ensures SameJob(cfg, Pass(cfg, w, env), job)
  {
    hide Pass, Tidy, Builders, BentoImageName, PassResets, Strays;
    PassTracks(cfg, w, image, env);
  }

  lemma CalmProgress(cfg: Config, w: World, step: Step, job: Job, image: string, since: int)
    requires Watching(cfg, w, image, since) && SameJob(cfg, w, job) && Calm(step, job, image) && step.Progress?
    ensures Watching(cfg, Next(cfg, w, step), image, since) && SameJob(cfg, Next(cfg, w, step), job)
  {
    hide Tidy, BuilderSelector, BentoImageName, Active, Distinct, List, WithStatus, IsSeparateModels, Updated;
    StepTidy(cfg, w, step);
    ProgressUpdates(w.jobs, step, BuilderSelector(cfg, IsSeparateModels(w.req.content)));
    var before := OwnBuilders(cfg, w)[0];
    var after := OwnBuilders(cfg, Next(cfg, w, step))[0];
    assert after == Updated(before, step);
    ActiveOf(before, job, step);
  }

  /** Activity depends on a job's completions and status alone. */
  lemma ActiveOf(j: Job, job: Job, step: Step)
    requires step.Progress? && Active(j) && KeepsActive(job, step) && j.id == job.id && j.completions == job.completions
    ensures Active(Updated(j, step))
  {
  }

  lemma CalmShuffle(cfg: Config, w: World, order: seq<Job>, job: Job, image: string, since: int)
    requires Watching(cfg, w, image, since) && SameJob(cfg, w, job)
    ensures Watching(cfg, Next(cfg, w, Shuffle(order)), image, since) && SameJob(cfg, Next(cfg, w, Shuffle(order)), job)
  {
    hide Tidy, BuilderSelector, BentoImageName, Active, Distinct, List, IsSeparateModels;
    StepTidy(cfg, w, Shuffle(order));
    if multiset(order) == multiset(w.jobs) {
      var own := BuilderSelector(cfg, IsSeparateModels(w.req.content));
      ListReordered(w.jobs, order, own);
      SingletonReordered(List(w.jobs, own), List(order, own));
    }
  }

  lemma CalmOther(cfg: Config, w: World, step: Step, job: Job, image: string, since: int)
    requires Watching(cfg, w, image, since) && SameJob(cfg, w, job) && Calm(step, job, image)
    requires !step.PassStep? && !step.Progress? && !step.Shuffle?
    ensures Watching(cfg, Next(cfg, w, step), image, since) && SameJob(cfg, Next(cfg, w, step), job)
  {
    hide Tidy, BuilderSelector, BentoImageName, Active, WithForeign, Distinct, List, IsSeparateModels;
    StepTidy(cfg, w, step);
  }

  /** No pass of the run stores a reset, makes a stray job or stores a timeout. */
  ghost predicate KeepsWatch(cfg: Config, w: World, steps: seq<Step>)
  {
    forall k :: 0 <= k < |steps| && steps[k].PassStep? ==>
      !Disturbs(cfg, Run(cfg, w, steps[..k]), steps[k].env) && !TimeoutStored(cfg, Run(cfg, w, steps[..k + 1]))
  }

  /** The timer keeps its start through such a run, whatever calls fail and whether the deadline has passed or not. */
  lemma {:induction false} TimerKeepsItsStart(
      cfg: Config, w: World, steps: seq<Step>, job: Job, image: string, since: int)
    requires Watching(cfg, w, image, since) && SameJob(cfg, w, job)
    requires (forall s <- steps :: Calm(s, job, image)) && KeepsWatch(cfg, w, steps)
    ensures Watching(cfg, Run(cfg, w, steps), image, since) && SameJob(cfg, Run(cfg, w, steps), job)
    decreases |steps|
  {
    hide Next, Watching, SameJob, Calm, Disturbs, TimeoutStored;
    if steps != [] {
      var before, last := steps[..|steps| - 1], steps[|steps| - 1];
      assert last in steps;
      forall k | 0 <= k < |before| && before[k].PassStep?
        ensures !Disturbs(cfg, Run(cfg, w, before[..k]), before[k].env) && !TimeoutStored(cfg, Run(cfg, w, before[..k + 1]))
      {
        assert before[k] == steps[k] && before[..k] == steps[..k] && before[..k + 1] == steps[..k + 1];
      }
      assert steps[..|steps|] == steps;
      TimerKeepsItsStart(cfg, w, before, job, image, since);
      CalmStep(cfg, Run(cfg, w, before), last, job, image, since);
    }
  }

  /**
   The timeout cannot be starved: over any run in which the job stays active and the request is not
   edited, in which no reset is stored and no stray job made, an undisturbed pass times out exactly
   when the deadline has passed, also when earlier passes came too late and failed to say so.
   */
  lemma TimesOutAtDeadline(
      cfg: Config, w: World, steps: seq<Step>, env: Env, job: Job, image: string, since: int)
    requires Watching(cfg, w, image, since) && SameJob(cfg, w, job)
    requires (forall s <- steps :: Calm(s, job, image)) && KeepsWatch(cfg, w, steps)
    requires Quiet(env)
    ensures var r := Run(cfg, w, steps);
            HasTimedOut(cfg, Pass(cfg, r, env)) <==> Late(r, since)
  {
    hide Pass, Calm, Late, HasTimedOut, KeepsWatch, SameJob, Reported;
    TimerKeepsItsStart(cfg, w, steps, job, image, since);
    QuietPassTimer(cfg, Run(cfg, w, steps), image, env);
  }
}
