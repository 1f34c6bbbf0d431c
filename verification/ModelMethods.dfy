/** ensureModelsExists and the clean-up of seeder jobs and claims, run against the API server. */
module ModelMethods {
  import opened Basics
  import opened Conditions
  import opened Cluster
  import opened Naming
  import opened StatusWriter
  import opened ImagePhase
  import opened ModelsPhase
  import opened Reconcile
  import opened ApiServer
  import opened StatusMethods
  import opened ImageMethods
  import opened PodTemplates

  /** The tags of the models, appended one by one. */
  method CollectTags(models: seq<Model>) returns (tags: seq<string>)
    ensures tags == Tags(models)
  {
    tags := [];
    for k := 0 to |models|
      invariant tags == Tags(models[..k])
    {
      tags := tags + [models[k].tag];
      assert tags == Tags(models[..k + 1]);
    }
    assert models[..|models|] == models;
  }

  /** Over the listed seeder jobs: drop the stale and the unwanted, note which models have one. */
  method PruneJobs(api: Server, br0: Request, jobs: seq<Job>, hash: Hash, tags: seq<string>, env: Env)
    returns (br: Request, existing: set<string>, end: End)
    modifies api
    ensures Pruned(api.State(), br, existing, end) == Prune(old(api.State()), br0, jobs, hash, tags, {}, env)
  {
    hide Write, DecodedTag, Without;
    ghost var target := Prune(api.State(), br0, jobs, hash, tags, {}, env);
    br := br0;
    existing := {};
    for k := 0 to |jobs|
      invariant Prune(api.State(), br, jobs[k..], hash, tags, existing, env) == target
    {
      var job := jobs[k];
      assert jobs[k..][0] == job && jobs[k..][1..] == jobs[k + 1..];
      var ok;
      if job.hash != hash {
        ok := api.DeleteJob(job.id, env.fails(DeleteJob(job.id)));
        if !ok {
          return br, existing, Err("delete job");
        }
        br, ok := SetStatusConditionsToUnknown(api, SeederStale(job.id), "Bento request hash changed, recreating the jobs", env);
        if !ok {
          return br, existing, Err("update status");
        }
      } else {
        var tag := DecodedTag(job.labels);
        if tag in tags {
          existing := existing + {tag};
        } else {
          ok := api.DeleteJob(job.id, env.fails(DeleteJob(job.id)));
          if !ok {
            return br, existing, Err("delete job");
          }
        }
      }
    }
    assert jobs[|jobs|..] == [];
    end := Done;
  }

  /** One model without a job: its claim first, then its job. */
  method SeedModel(cfg: Config, api: Server, br: Request, tag: string, i: nat, env: Env) returns (end: End)
    modifies api
    ensures Seeded(api.State(), end) == SeedOne(cfg, old(api.State()), br, tag, i, env)
  {
    hide NewSeederJob, PvcName;
    var pvc := PvcName(cfg, br.namespace, br.content, tag);
    if env.fails(GetPvc(i)) {
      return Err("get PVC");
    }
    if pvc !in api.pvcs {
      if env.fails(CreatePvc(i)) {
        return Err("create model pvc");
      }
      api.CreatePvc(pvc);
    }
    assert api.pvcs == old(api.pvcs) + {pvc};
    if env.fails(GenerateSeeder(i)) {
      return Err("generate model seeder job");
    }
    var id := api.TakeId();
    var request := new RequestObject(br.content);
    var job, _ := GenerateModelSeederJob(cfg, request, None, tag, id);
    if env.fails(GetSeeder(i)) {
      return Err("get job");
    }
    if exists j <- api.jobs :: j.name == job.name {
      return if env.fails(UpdateSeeder(i)) then Err("update job") else Done;
    }
    var ok := api.CreateJob(job, env.fails(CreateSeeder(i)));
    end := if ok then Done else Err("create job");
  }

  method SeedModelsLoop(cfg: Config, api: Server, br: Request, models: seq<Model>, existing: set<string>, env: Env)
    returns (end: End)
    modifies api
    ensures Seeded(api.State(), end) == SeedEach(cfg, old(api.State()), br, models, 0, existing, env)
  {
    hide SeedOne;
    ghost var target := SeedEach(cfg, api.State(), br, models, 0, existing, env);
    for k := 0 to |models|
      invariant SeedEach(cfg, api.State(), br, models, k, existing, env) == target
    {
      if models[k].tag !in existing {
        end := SeedModel(cfg, api, br, models[k].tag, k, env);
        if end.Err? {
          return;
        }
      }
    }
    end := Done;
  }

  /** Sorting the listed jobs into the tags that are done and the names that are not, or that failed. */
  method Tally(jobs: seq<Job>) returns (succeeded: set<string>, failed: seq<string>, notReady: seq<string>)
    ensures succeeded == SucceededTags(jobs)
    ensures failed == UnfinishedNames(jobs, true) && notReady == UnfinishedNames(jobs, false)
  {
    hide DecodedTag, Completed, UnfinishedNames, SucceededTags;
    succeeded, failed, notReady := {}, [], [];
    NothingTallied(jobs);
    for k := 0 to |jobs|
      invariant succeeded == SucceededTags(jobs[..k])
      invariant failed + UnfinishedNames(jobs[k..], true) == UnfinishedNames(jobs, true)
      invariant notReady + UnfinishedNames(jobs[k..], false) == UnfinishedNames(jobs, false)
    {
      var job := jobs[k];
      TagsSoFar(jobs, k);
      NamesFrom(jobs, k, true);
      NamesFrom(jobs, k, false);
      if Completed(job) {
        succeeded := succeeded + {DecodedTag(job.labels)};
      } else {
        if job.failed > 0 {
          failed := failed + [job.name];
        }
        notReady := notReady + [job.name];
      }
    }
    NothingTallied(jobs);
  }

  lemma NothingTallied(jobs: seq<Job>)
    ensures SucceededTags(jobs[..0]) == {} && jobs[..|jobs|] == jobs && jobs[0..] == jobs
    ensures UnfinishedNames(jobs[|jobs|..], true) == [] && UnfinishedNames(jobs[|jobs|..], false) == []
  {
    assert jobs[|jobs|..] == [];
    assert jobs[..|jobs|] == jobs;
  }

  lemma NamesFrom(jobs: seq<Job>, k: nat, failedOnly: bool)
    requires k < |jobs|
    ensures UnfinishedNames(jobs[k..], failedOnly)
         == (if Completed(jobs[k]) || (failedOnly && jobs[k].failed <= 0) then [] else [jobs[k].name])
            + UnfinishedNames(jobs[k + 1..], failedOnly)
  {
    hide Completed;
    assert jobs[k..][0] == jobs[k] && jobs[k..][1..] == jobs[k + 1..];
  }

  lemma TagsSoFar(jobs: seq<Job>, k: nat)
    requires k < |jobs|
    ensures SucceededTags(jobs[..k + 1])
         == SucceededTags(jobs[..k]) + if Completed(jobs[k]) then {DecodedTag(jobs[k].labels)} else {}
  {
    hide DecodedTag, Completed;
    assert jobs[..k + 1] == jobs[..k] + [jobs[k]];
  }

  method FailureMessage(failed: seq<string>, env: Env) returns (message: string)
    ensures message == "Model seeder jobs failed: " + Join(failed, ", ")
              + if env.podsUninitialised then ": no validate HF_TOKEN for seeding huggingface model" else ""
  {
    hide Join;
    message := "Model seeder jobs failed: " + Join(failed, ", ");
    if env.podsUninitialised {
      message := message + ": no validate HF_TOKEN for seeding huggingface model";
    } else {
      assert message + "" == message;
    }
  }

  /** Is every model among those that are done? The loop stops at the first that is not. */
  method AllIn(models: seq<Model>, succeeded: set<string>) returns (all: bool)
    ensures all <==> forall t <- Tags(models) :: t in succeeded
  {
    all := true;
    var k := 0;
    while k < |models| && all
      invariant 0 <= k <= |models|
      invariant all <==> forall i :: 0 <= i < k ==> models[i].tag in succeeded
    {
      all := models[k].tag in succeeded;
      k := k + 1;
    }
    assert forall i :: 0 <= i < |models| ==> Tags(models)[i] == models[i].tag;
    if !all {
      assert Tags(models)[k - 1] == models[k - 1].tag;
    }
  }

  /** The verdict on the seeder jobs. */
  method ReportModels(cfg: Config, api: Server, br0: Request, models: seq<Model>, jobs: seq<Job>, env: Env)
    returns (br: Request, present: bool, end: End)
    modifies api
    ensures ModelsResult(api.State(), br, present, end) == ReportSeeding(cfg, old(api.State()), br0, models, jobs, env)
  {
    hide Write, SeededMessage, UnfinishedNames, SucceededTags, Join, DecodedTag, Tags;
    br := br0;
    var ok;
    var succeeded, failed, notReady := Tally(jobs);
    if failed != [] {
      if env.fails(ListPods) {
        return br, false, Err("list pods");
      }
      var message := FailureMessage(failed, env);
      br, ok := SetStatusConditions(api, ModelsFailed,
        [Report(ModelsExists, False, message), Report(BentoAvailable, False, message)], env);
      return br, false, Err(if ok then message else "update status");
    }
    present := AllIn(models, succeeded);
    if present {
      br, ok := SetStatusConditions(api, ModelsReady,
        [Report(ModelsExists, True, SeededMessage(cfg, models)),
         Report(ModelsSeeding, False, "All models have been seeded.")], env);
      return br, true, if ok then Done else Err("update status");
    }
    br, ok := SetStatusConditions(api, ModelsWaiting,
      [Report(ModelsSeeding, True, "Model seeder jobs are not ready: " + Join(notReady, ", ") + ".")], env);
    return br, false, if ok then Done else Err("update status");
  }

  /** ensureModelsExists */
  method EnsureModels(cfg: Config, api: Server, br0: Request, env: Env)
    returns (br: Request, present: bool, end: End)
    modifies api
    ensures ModelsResult(api.State(), br, present, end) == EnsureModelsExist(cfg, old(api.State()), br0, env)
  {
    hide Write, SeededMessage, Prune, SeedEach, ReportSeeding, SeederSelector, List;
    br := br0;
    var models := br.content.spec.models;
    var known := Find(br.conditions, ModelsExists);
    if known.None? || known.value.status == Unknown {
      var ok;
      br, ok := SetStatusConditions(api, ModelsNotReady, [NotReady], env);
      if !ok {
        return br, false, Err("update status");
      }
    } else if IsTrue(known, SeededMessage(cfg, models)) {
      return br, true, Done;
    }
    br, present, end := SeedMissing(cfg, api, br, env);
  }

  /** The part after the early return: prune, seed what is missing, and report. */
  method SeedMissing(cfg: Config, api: Server, br0: Request, env: Env)
    returns (br: Request, present: bool, end: End)
    modifies api
    ensures ModelsResult(api.State(), br, present, end) == SeedModels(cfg, old(api.State()), br0, env)
  {
    hide Write, SeededMessage, Prune, SeedEach, ReportSeeding, SeederSelector, List;
    br := br0;
    var models := br.content.spec.models;
    var tags := CollectTags(models);
    if env.fails(ListSeeders) {
      return br, false, Err("list jobs");
    }
    var jobs := List(api.jobs, SeederSelector(cfg));
    var existing;
    br, existing, end := PruneJobs(api, br, jobs, HashOf(br.content), tags, env);
    if end.Err? {
      return br, false, end;
    }
    end := SeedModelsLoop(cfg, api, br, models, existing, env);
    if end.Err? {
      return br, false, end;
    }
    if env.fails(RelistSeeders) {
      return br, false, Err("list jobs");
    }
    jobs := List(api.jobs, SeederSelector(cfg));
    br, present, end := ReportModels(cfg, api, br, models, jobs, env);
  }

  /** The clean-up loop: per model deleteModelSeederJobs, then deleteModelPVC; errors are passed over. */
  method CleanUpModels(cfg: Config, api: Server, br: Request, env: Env)
    modifies api
    ensures api.State() == CleanUp(cfg, old(api.State()), br, br.content.spec.models, 0, env)
  {
    hide SeederLabels, PvcName, DeleteEach, List;
    var models := br.content.spec.models;
    ghost var target := CleanUp(cfg, api.State(), br, models, 0, env);
    for k := 0 to |models|
      invariant CleanUp(cfg, api.State(), br, models, k, env) == target
    {
      var tag := models[k].tag;
      if !env.fails(ListModelSeeders(k)) {
        var _ := DeleteJobs(api, List(api.jobs, SeederLabels(cfg, br.content, tag)), env);
      }
      api.DeletePvc(PvcName(cfg, br.namespace, br.content, tag), env.fails(DeletePvc(k)));
    }
  }
}
