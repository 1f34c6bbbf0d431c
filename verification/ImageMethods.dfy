/** ensureImageExists as the controller runs it against the API server. */
module ImageMethods {
  import opened Basics
  import opened Conditions
  import opened Cluster
  import opened Naming
  import opened StatusWriter
  import opened ImagePhase
  import opened ApiServer
  import opened StatusMethods
  import opened PodTemplates
  import ImageNames

  /** The fields that a phase can change, next to what it returns. */
  ghost predicate Yields(api: Server, br: Request, image: string, present: bool, end: End, r: ImageResult)
    reads api
  {
    api.State() == r.w && br == r.br && image == r.image && present == r.present && end == r.end
  }

  /** Deleting the surplus jobs in order, until one delete fails. */
  method DeleteJobs(api: Server, surplus: seq<Job>, env: Env) returns (ok: bool)
    modifies api
    ensures (api.State(), ok) == DeleteEach(old(api.State()), surplus, env)
  {
    ghost var target := DeleteEach(api.State(), surplus, env);
    for k := 0 to |surplus|
      invariant DeleteEach(api.State(), surplus[k..], env) == target
    {
      assert surplus[k..][1..] == surplus[k + 1..];
      var deleted := api.DeleteJob(surplus[k].id, env.fails(DeleteJob(surplus[k].id)));
      if !deleted {
        return false;
      }
    }
    assert surplus[|surplus|..] == [];
    ok := true;
  }

  /** Ranging over the job's conditions for a failure. */
  method FailedCondition(job: Job) returns (failed: bool)
    ensures failed == HasFailedCondition(job)
  {
    failed := false;
    for k := 0 to |job.conditions|
      invariant forall c <- job.conditions[..k] :: !(c.kind == JobFailed && c.status == True)
    {
      if job.conditions[k].kind == JobFailed && job.conditions[k].status == True {
        assert job.conditions[k] in job.conditions;
        return true;
      }
    }
    assert job.conditions[..|job.conditions|] == job.conditions;
  }

  /** The two flags the controller derives from a builder job. */
  method JobFlags(job: Job) returns (running: bool, failed: bool)
    ensures running == BuildRunning(job) && failed == BuildFailed(job)
  {
    failed := false;
    running := true;
    if job.completions.Some? {
      if job.succeeded != job.completions.value {
        if job.failed > 0 {
          failed := FailedCondition(job);
        }
        running := !failed;
      } else {
        running := false;
      }
    }
  }

  /** From the re-fetch on: report on the one job that is left. */
  method TrackBuildJob(api: Server, job: Job, image: string, env: Env)
    returns (br: Request, present: bool, end: End)
    modifies api
    ensures Yields(api, br, image, present, end, TrackBuild(old(api.State()), job, image, env))
  {
    hide Write, BuildRunning, BuildFailed;
    br := api.request;
    present := false;
    var building := Find(br.conditions, ImageBuilding);
    var running, failed := JobFlags(job);
    var ok;
    if running {
      var conditions := [];
      if job.active > 0 {
        conditions := conditions + [Report(ImageBuilding, True, "Image building job " + job.name + " is running")];
      } else {
        conditions := conditions + [Report(ImageBuilding, Unknown, "Image building job " + job.name + " is waiting")];
      }
      if br.content.spec.imageBuildTimeout.Some? {
        if building.Some? && building.value.since + br.content.spec.imageBuildTimeout.value < api.now {
          conditions := conditions + [TimeoutCondition(job)];
          assert conditions == [RunningCondition(job), TimeoutCondition(job)];
          var _, updated := SetStatusConditions(api, Building, conditions, env);
          return br, false, Err(if updated then "image build timeout" else "update status");
        }
      }
      assert conditions == [RunningCondition(job)];
      br, ok := SetStatusConditions(api, Building, conditions, env);
      return br, false, if ok then Done else Err("update status");
    }
    if failed {
      var message := "Image building job " + job.name + " is failed.";
      br, ok := SetStatusConditions(api, BuildHasFailed,
        [Report(ImageBuilding, False, message), Report(BentoAvailable, False, message)], env);
      return br, false, if ok then Done else Err("update status");
    }
    br, ok := SetStatusConditions(api, BuildHasSucceeded,
      [Report(ImageBuilding, False, "Image building job " + job.name + " is successed."),
       Report(ImageExists, True, image)], env);
    return br, ok, if ok then Done else Err("update status");
  }

  /** A stale job goes, and every condition with it becomes Unknown. */
  method DropStaleJob(api: Server, br0: Request, job: Job, image: string, env: Env)
    returns (br: Request, end: End)
    modifies api
    ensures Yields(api, br, image, false, end, DropStale(old(api.State()), br0, job, image, env))
  {
    hide Write;
    br := br0;
    var ok := api.DeleteJob(job.id, env.fails(DeleteJob(job.id)));
    if !ok {
      return br, Err("delete job");
    }
    br, ok := SetStatusConditionsToUnknown(api, BuilderStale, "Bento request hash changed, recreating the jobs", env);
    return br, if ok then Done else Err("update status");
  }

  method CreateBuilderJob(cfg: Config, api: Server, c: Content, image: string, env: Env) returns (end: End)
    modifies api
    ensures var w := old(api.State());
            if env.fails(GenerateBuilder) then
              api.State() == w && end == Err("generate image builder job")
            else if env.fails(CreateBuilder) then
              api.State() == w.(nextId := w.nextId + 1) && end == Err("create image builder job")
            else
              api.State() == w.(jobs := w.jobs + [NewBuilderJob(cfg, c, image, w.nextId)], nextId := w.nextId + 1)
              && end == Done
  {
    hide NewBuilderJob, AfterPodGeneration, HasAffinity;
    if env.fails(GenerateBuilder) {
      return Err("generate image builder job");
    }
    var id := api.TakeId();
    var request := new RequestObject(c);
    var job, _ := GenerateImageBuilderJob(cfg, request, None, image, id);
    var ok := api.CreateJob(job, env.fails(CreateBuilder));
    end := if ok then Done else Err("create image builder job");
  }

  /** From the job listing on: the first stale job goes, surplus jobs go, a missing job is made. */
  method EnsureBuiltJob(cfg: Config, api: Server, br0: Request, separateModels: bool, image: string, env: Env)
    returns (br: Request, present: bool, end: End)
    modifies api
    ensures Yields(api, br, image, present, end,
                   EnsureBuilt(cfg, old(api.State()), br0, separateModels, image, env))
  {
    hide Write, TrackBuild, NewBuilderJob, BuilderSelector, DropStale, DeleteEach, List, Distinct;
    br := br0;
    present := false;
    if env.fails(ListBuilders) {
      return br, false, Err("list jobs");
    }
    var jobs := List(api.jobs, BuilderSelector(cfg, separateModels));
    var hash := HashOf(br.content);
    var reserved := [];
    for k := 0 to |jobs|
      invariant k <= FirstStale(jobs, hash)
      invariant reserved == jobs[..k]
      invariant api.State() == old(api.State())
    {
      var job := jobs[k];
      if job.hash != hash {
        assert FirstStale(jobs, hash) == k;
        br, end := DropStaleJob(api, br, job, image, env);
        return br, false, end;
      }
      reserved := reserved + [job];
    }
    assert reserved == jobs;
    if reserved == [] {
      end := CreateBuilderJob(cfg, api, br.content, image, env);
      return br, false, end;
    }
    var ok := DeleteJobs(api, reserved[1..], env);
    if !ok {
      return br, false, Err("delete job");
    }
    if env.fails(RefetchBuilding) {
      return br, false, Err("re-fetch BentoRequest");
    }
    br, present, end := TrackBuildJob(api, reserved[0], image, env);
  }

  /** ensureImageExists */
  method EnsureImage(cfg: Config, api: Server, br0: Request, env: Env)
    returns (br: Request, image: string, present: bool, end: End)
    modifies api
    ensures Yields(api, br, image, present, end, EnsureImageExists(cfg, old(api.State()), br0, env))
  {
    hide Write, EnsureBuilt, BentoImageName, CheckedConditions;
    br := br0;
    image := "";
    present := false;
    if env.fails(GetImageInfo) || !SecretFits(cfg, br.namespace, br.content) {
      return br, "", false, Err("get image info");
    }
    var (repository, version) := Partition(br.content.spec.bentoTag, ':');
    var name := ImageNames.GetBentoImageName(cfg, br.namespace, br.content, repository, version, false);
    if name.None? {
      return br, "", false, Panic;
    }
    image := name.value;
    var checked := IsTrue(Find(br.conditions, ImageExistsChecked), image);
    var exists_ := IsTrue(Find(br.conditions, ImageExists), image);
    if !checked {
      var ok;
      br, ok := SetStatusConditions(api, CheckingImage,
        [Report(ImageExistsChecked, Unknown, image), Report(BentoAvailable, Unknown, "Checking image exists")], env);
      if !ok {
        return br, image, false, Err("update status");
      }
      if env.fails(CheckRegistry) {
        return br, image, false, Err("check image exists");
      }
      var found := RegistryReports(api.State(), br.content, image);
      if env.fails(RefetchChecked) {
        return br, image, false, Err("re-fetch BentoRequest");
      }
      br, ok := SetStatusConditions(api, CheckedImage, CheckedConditions(found, image), env);
      if !ok {
        return br, image, found, Err("update status");
      }
      exists_ := found;
    }
    if exists_ {
      return br, image, true, Done;
    }
    br, present, end := EnsureBuiltJob(cfg, api, br, IsSeparateModels(br0.content), image, env);
  }
}
