/** ensureModelsExists: one seeder job and one volume claim for each model of the request. */
module ModelsPhase {
  import opened Basics
  import opened Conditions
  import opened Cluster
  import opened Naming
  import opened StatusWriter
  import opened ImagePhase

  datatype ModelsResult = ModelsResult(w: World, br: Request, present: bool, end: End)

  const NotReady: Condition := Report(ModelsExists, False, "Models are not ready")

  function EnsureModelsExist(cfg: Config, w: World, br: Request, env: Env): (r: ModelsResult)
    ensures r.end != Panic
    ensures r.w == w.(req := r.w.req, jobs := r.w.jobs, pvcs := r.w.pvcs, nextId := r.w.nextId)
    ensures r.w.req.content == w.req.content && r.w.req.namespace == w.req.namespace
    ensures Distinct(w.req.conditions) ==> Distinct(r.w.req.conditions)
  {
    var known := Find(br.conditions, ModelsExists);
    if known.None? || known.value.status == Unknown then
      var s := Write(w, ModelsNotReady, SetConditions([NotReady]), env);
      if !s.ok then ModelsResult(s.w, s.br, false, Err("update status"))
      else SeedModels(cfg, s.w, s.br, env)
    else if IsTrue(known, SeededMessage(cfg, br.content.spec.models)) then ModelsResult(w, br, true, Done)
    else SeedModels(cfg, w, br, env)
  }

  function SeedModels(cfg: Config, w: World, br: Request, env: Env): (r: ModelsResult)
    ensures r.end != Panic
    ensures r.w == w.(req := r.w.req, jobs := r.w.jobs, pvcs := r.w.pvcs, nextId := r.w.nextId)
    ensures r.w.req.content == w.req.content && r.w.req.namespace == w.req.namespace
    ensures Distinct(w.req.conditions) ==> Distinct(r.w.req.conditions)
  {
    if env.fails(ListSeeders) then ModelsResult(w, br, false, Err("list jobs"))
    else
      var models := br.content.spec.models;
      var listed := List(w.jobs, SeederSelector(cfg));
      var p := Prune(w, br, listed, HashOf(br.content), Tags(models), {}, env);
      if p.end.Err? then ModelsResult(p.w, p.br, false, p.end)
      else
        var s := SeedEach(cfg, p.w, p.br, models, 0, p.seen, env);
        if s.end.Err? then ModelsResult(s.w, p.br, false, s.end)
        else if env.fails(RelistSeeders) then ModelsResult(s.w, p.br, false, Err("list jobs"))
        else ReportSeeding(cfg, s.w, p.br, models, List(s.w.jobs, SeederSelector(cfg)), env)
  }

  datatype Pruned = Pruned(w: World, br: Request, seen: set<string>, end: End)

  /**
   Over the listed seeder jobs: delete those with another hash and reset every condition for
   each, delete those of no current model, and remember the models that have a job.
   */
  function Prune(w: World, br: Request, listed: seq<Job>, hash: Hash, tags: seq<string>, seen: set<string>, env: Env): (r: Pruned)
    ensures r.end != Panic
    ensures r.w == w.(req := r.w.req, jobs := r.w.jobs)
    ensures r.w.req.content == w.req.content && r.w.req.namespace == w.req.namespace
    ensures Distinct(w.req.conditions) ==> Distinct(r.w.req.conditions)
    decreases |listed|
  {
    if listed == [] then Pruned(w, br, seen, Done)
    else
      var job := listed[0];
      var tag := DecodedTag(job.labels);
      if job.hash == hash && tag in tags then
        Prune(w, br, listed[1..], hash, tags, seen + {tag}, env)
      else if env.fails(DeleteJob(job.id)) then Pruned(w, br, seen, Err("delete job"))
      else
        var w1 := w.(jobs := Without(w.jobs, job.id));
        if job.hash == hash then Prune(w1, br, listed[1..], hash, tags, seen, env)
        else
          var s := Write(w1, SeederStale(job.id), ToUnknown("Bento request hash changed, recreating the jobs"), env);
          if !s.ok then Pruned(s.w, s.br, seen, Err("update status"))
          else Prune(s.w, s.br, listed[1..], hash, tags, seen, env)
  }

  datatype Seeded = Seeded(w: World, end: End)

  function NewSeederJob(cfg: Config, c: Content, tag: string, id: nat): Job
  {
    Job(id, "yatai-model-seeder-" + Digits(id), SeederLabels(cfg, c, tag),
        HashOf(c), "", Some(1), 0, 0, 0, [])
  }

  /** For each model without a job, from position i on: first its claim, then its job. */
  function SeedEach(cfg: Config, w: World, br: Request, models: seq<Model>, i: nat, seen: set<string>, env: Env): (r: Seeded)
    requires i <= |models|
    ensures r.end != Panic
    ensures r.w == w.(jobs := r.w.jobs, pvcs := r.w.pvcs, nextId := r.w.nextId)
    decreases |models| - i
  {
    if i == |models| then Seeded(w, Done)
    else if models[i].tag in seen then SeedEach(cfg, w, br, models, i + 1, seen, env)
    else
      var s := SeedOne(cfg, w, br, models[i].tag, i, env);
      if s.end.Err? then s else SeedEach(cfg, s.w, br, models, i + 1, seen, env)
  }

  function SeedOne(cfg: Config, w: World, br: Request, tag: string, i: nat, env: Env): (r: Seeded)
    ensures r.end != Panic
    ensures r.w == w.(jobs := r.w.jobs, pvcs := r.w.pvcs, nextId := r.w.nextId)
    ensures w.nextId <= r.w.nextId && w.pvcs <= r.w.pvcs
    ensures r.w.jobs == w.jobs
            || (&& r.w.jobs == w.jobs + [NewSeederJob(cfg, br.content, tag, w.nextId)]
                && r.w.nextId == w.nextId + 1
                && PvcName(cfg, br.namespace, br.content, tag) in r.w.pvcs)
  {
    var pvc := PvcName(cfg, br.namespace, br.content, tag);
    if env.fails(GetPvc(i)) then Seeded(w, Err("get PVC"))
    else if pvc !in w.pvcs && env.fails(CreatePvc(i)) then Seeded(w, Err("create model pvc"))
    else
      var w1 := w.(pvcs := w.pvcs + {pvc});
      if env.fails(GenerateSeeder(i)) then Seeded(w1, Err("generate model seeder job"))
      else
        var job := NewSeederJob(cfg, br.content, tag, w.nextId);
        var w2 := w1.(nextId := w.nextId + 1);
        if env.fails(GetSeeder(i)) then Seeded(w2, Err("get job"))
        else if exists j <- w.jobs :: j.name == job.name then
          // An update that keeps the stored labels and annotations: nothing modelled here changes.
          Seeded(w2, if env.fails(UpdateSeeder(i)) then Err("update job") else Done)
        else if env.fails(CreateSeeder(i)) then Seeded(w2, Err("create job"))
        else Seeded(w2.(jobs := w.jobs + [job]), Done)
  }

  function SucceededTags(listed: seq<Job>): (r: set<string>)
    ensures forall t :: t in r <==> exists j <- listed :: Completed(j) && DecodedTag(j.labels) == t
  {
    set j <- listed | Completed(j) :: DecodedTag(j.labels)
  }

  /** The names of the listed jobs that are not complete, or of those among them that failed. */
  function UnfinishedNames(listed: seq<Job>, failedOnly: bool): (r: seq<string>)
    ensures r == [] ==> forall j <- listed :: Completed(j) || (failedOnly && j.failed <= 0)
    ensures r != [] ==> exists j <- listed :: !Completed(j) && (failedOnly ==> j.failed > 0)
  {
    if listed == [] then []
    else
      var rest := UnfinishedNames(listed[1..], failedOnly);
      if Completed(listed[0]) || (failedOnly && listed[0].failed <= 0) then rest else [listed[0].name] + rest
  }

  function ReportSeeding(cfg: Config, w: World, br: Request, models: seq<Model>, listed: seq<Job>, env: Env): (r: ModelsResult)
    ensures r.end != Panic
    ensures r.w == w.(req := r.w.req)
    ensures r.w.req.content == w.req.content && r.w.req.namespace == w.req.namespace
    ensures Distinct(w.req.conditions) ==> Distinct(r.w.req.conditions)
  {
    var failed := UnfinishedNames(listed, true);
    if failed != [] then
      if env.fails(ListPods) then ModelsResult(w, br, false, Err("list pods"))
      else
        var message := "Model seeder jobs failed: " + Join(failed, ", ")
          + (if env.podsUninitialised then ": no validate HF_TOKEN for seeding huggingface model" else "");
        var s := Write(w, ModelsFailed, SetConditions([
          Report(ModelsExists, False, message), Report(BentoAvailable, False, message)]), env);
        ModelsResult(s.w, s.br, false, Err(if s.ok then message else "update status"))
    else if forall t <- Tags(models) :: t in SucceededTags(listed) then
      var s := Write(w, ModelsReady, SetConditions([
        Report(ModelsExists, True, SeededMessage(cfg, models)),
        Report(ModelsSeeding, False, "All models have been seeded.")]), env);
      ModelsResult(s.w, s.br, true, if s.ok then Done else Err("update status"))
    else
      var s := Write(w, ModelsWaiting, SetConditions([
        Report(ModelsSeeding, True,
          "Model seeder jobs are not ready: " + Join(UnfinishedNames(listed, false), ", ") + ".")]), env);
      ModelsResult(s.w, s.br, false, if s.ok then Done else Err("update status"))
  }
}
