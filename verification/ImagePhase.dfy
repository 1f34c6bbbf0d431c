/** ensureImageExists: is the request's image there, and if not, is exactly one job building it? */
module ImagePhase {
  import opened Basics
  import opened Conditions
  import opened Cluster
  import opened Naming
  import opened StatusWriter

  /** How a phase ends: normally, with an error, or in a panic that skips the error report. */
  datatype End = Done | Err(message: string) | Panic

  datatype ImageResult = ImageResult(w: World, br: Request, image: string, present: bool, end: End)

  /** A condition that is True with exactly this message. */
  predicate IsTrue(c: Option<Condition>, message: string)
  {
    c.Some? && c.value.status == True && c.value.message == message
  }

  predicate Holds(w: World, kind: Kind, message: string)
  {
    IsTrue(Find(w.req.conditions, kind), message)
  }

  /** checkImageExists, with the registry itself as an oracle. */
  predicate RegistryReports(w: World, c: Content, image: string)
  {
    Lookup(c.annotations, ForceBuildImage) != "true" && image in w.registry
  }

  function EnsureImageExists(cfg: Config, w: World, br: Request, env: Env): (r: ImageResult)
    ensures r.w == w.(req := r.w.req, jobs := r.w.jobs, nextId := r.w.nextId)
    ensures r.w.req.content == w.req.content && r.w.req.namespace == w.req.namespace
    ensures Distinct(w.req.conditions) ==> Distinct(r.w.req.conditions)
  {
    if env.fails(GetImageInfo) || !SecretFits(cfg, br.namespace, br.content) then
      ImageResult(w, br, "", false, Err("get image info"))
    else
      match BentoImageName(cfg, br.namespace, br.content, false)
      case None => ImageResult(w, br, "", false, Panic)
      case Some(image) =>
        if IsTrue(Find(br.conditions, ImageExistsChecked), image) then
          if IsTrue(Find(br.conditions, ImageExists), image) then ImageResult(w, br, image, true, Done)
          else EnsureBuilt(cfg, w, br, IsSeparateModels(br.content), image, env)
        else
          CheckImage(cfg, w, IsSeparateModels(br.content), image, env)
  }

  /** The registry has not answered for this image yet: ask it and record the answer. */
  function CheckImage(cfg: Config, w: World, separateModels: bool, image: string, env: Env): (r: ImageResult)
    ensures r.w == w.(req := r.w.req, jobs := r.w.jobs, nextId := r.w.nextId)
    ensures r.w.req.content == w.req.content && r.w.req.namespace == w.req.namespace
    ensures Distinct(w.req.conditions) ==> Distinct(r.w.req.conditions)
  {
    var s := Write(w, CheckingImage, SetConditions([
      Report(ImageExistsChecked, Unknown, image),
      Report(BentoAvailable, Unknown, "Checking image exists")]), env);
    if !s.ok then ImageResult(s.w, s.br, image, false, Err("update status"))
    else if env.fails(CheckRegistry) then ImageResult(s.w, s.br, image, false, Err("check image exists"))
    else if env.fails(RefetchChecked) then ImageResult(s.w, s.br, image, false, Err("re-fetch BentoRequest"))
    else
      var found := RegistryReports(s.w, s.br.content, image);
      var t := Write(s.w, CheckedImage, SetConditions(CheckedConditions(found, image)), env);
      if !t.ok then ImageResult(t.w, t.br, image, found, Err("update status"))
      else if found then ImageResult(t.w, t.br, image, true, Done)
      else EnsureBuilt(cfg, t.w, t.br, separateModels, image, env)
  }

  function CheckedConditions(found: bool, image: string): seq<Condition>
  {
    if found then
      [Report(ImageExists, True, image), Report(ImageExistsChecked, True, image)]
    else
      [Report(ImageExists, False, "Image " + image + " is not exists"),
       Report(ImageExistsChecked, False, "Image not exists: " + image)]
  }

  /** The first listed job whose recorded hash is not the request's, or the length of the list. */
  function FirstStale(jobs: seq<Job>, hash: Hash): (i: nat)
    ensures i <= |jobs|
    ensures forall k :: 0 <= k < i ==> jobs[k].hash == hash
    ensures i < |jobs| ==> jobs[i].hash != hash
  {
    if jobs == [] || jobs[0].hash != hash then 0
    else
      var i := 1 + FirstStale(jobs[1..], hash);
      assert forall k :: 1 <= k < i ==> jobs[k] == jobs[1..][k - 1];
      i
  }

  /** Deleting surplus jobs one by one; the flag tells whether every delete succeeded. */
  function DeleteEach(w: World, surplus: seq<Job>, env: Env): (r: (World, bool))
    ensures r.0 == w.(jobs := r.0.jobs)
    decreases |surplus|
  {
    if surplus == [] then (w, true)
    else if env.fails(DeleteJob(surplus[0].id)) then (w, false)
    else DeleteEach(w.(jobs := Without(w.jobs, surplus[0].id)), surplus[1..], env)
  }

  function NewBuilderJob(cfg: Config, c: Content, image: string, id: nat): Job
  {
    Job(id, "yatai-bento-image-builder-" + Digits(id), BuilderLabels(cfg, c),
        HashOf(AfterPodGeneration(cfg, c)), image, Some(1), 0, 0, 0, [])
  }

  /** From the job listing on; separateModels comes from the object the phase was handed. */
  function EnsureBuilt(cfg: Config, w: World, br: Request, separateModels: bool, image: string, env: Env): (r: ImageResult)
    ensures r.w == w.(req := r.w.req, jobs := r.w.jobs, nextId := r.w.nextId)
    ensures r.w.req.content == w.req.content && r.w.req.namespace == w.req.namespace
    ensures Distinct(w.req.conditions) ==> Distinct(r.w.req.conditions)
  {
    if env.fails(ListBuilders) then ImageResult(w, br, image, false, Err("list jobs"))
    else
      var listed := List(w.jobs, BuilderSelector(cfg, separateModels));
      var stale := FirstStale(listed, HashOf(br.content));
      if stale < |listed| then
        DropStale(w, br, listed[stale], image, env)
      else if listed != [] then
        var (w1, deleted) := DeleteEach(w, listed[1..], env);
        if !deleted then ImageResult(w1, br, image, false, Err("delete job"))
        else if env.fails(RefetchBuilding) then ImageResult(w1, br, image, false, Err("re-fetch BentoRequest"))
        else TrackBuild(w1, listed[0], image, env)
      else if env.fails(GenerateBuilder) then ImageResult(w, br, image, false, Err("generate image builder job"))
      else if env.fails(CreateBuilder) then
        ImageResult(w.(nextId := w.nextId + 1), br, image, false, Err("create image builder job"))
      else
        var job := NewBuilderJob(cfg, br.content, image, w.nextId);
        ImageResult(w.(jobs := w.jobs + [job], nextId := w.nextId + 1), br, image, false, Done)
  }

  function DropStale(w: World, br: Request, job: Job, image: string, env: Env): (r: ImageResult)
    ensures r.w == w.(req := r.w.req, jobs := r.w.jobs)
    ensures r.w.jobs == if env.fails(DeleteJob(job.id)) then w.jobs else Without(w.jobs, job.id)
    ensures !r.present
    ensures r.w.req.content == w.req.content && r.w.req.namespace == w.req.namespace
    ensures Distinct(w.req.conditions) ==> Distinct(r.w.req.conditions)
  {
    if env.fails(DeleteJob(job.id)) then ImageResult(w, br, image, false, Err("delete job"))
    else
      var s := Write(w.(jobs := Without(w.jobs, job.id)), BuilderStale,
                     ToUnknown("Bento request hash changed, recreating the jobs"), env);
      ImageResult(s.w, s.br, image, false, if s.ok then Done else Err("update status"))
  }

  predicate TimedOut(timeout: Option<int>, building: Option<Condition>, now: int)
  {
    timeout.Some? && building.Some? && building.value.since + timeout.value < now
  }

  function RunningCondition(job: Job): Condition
  {
    if job.active > 0 then
      Report(ImageBuilding, True, "Image building job " + job.name + " is running")
    else
      Report(ImageBuilding, Unknown, "Image building job " + job.name + " is waiting")
  }

  function TimeoutCondition(job: Job): Condition
  {
    Condition(ImageBuilding, False, "Timeout", "Image building job " + job.name + " is timeout", 0)
  }

  /** Report on the one builder job that is left, as it was when it was listed. */
  function TrackBuild(w: World, job: Job, image: string, env: Env): (r: ImageResult)
    ensures r.w == w.(req := r.w.req)
    ensures r.w.req.content == w.req.content && r.w.req.namespace == w.req.namespace
    ensures Distinct(w.req.conditions) ==> Distinct(r.w.req.conditions)
  {
    var building := Find(w.req.conditions, ImageBuilding);
    if BuildRunning(job) then
      if TimedOut(w.req.content.spec.imageBuildTimeout, building, w.now) then
        var s := Write(w, Building, SetConditions([RunningCondition(job), TimeoutCondition(job)]), env);
        ImageResult(s.w, w.req, image, false, Err(if s.ok then "image build timeout" else "update status"))
      else
        var s := Write(w, Building, SetConditions([RunningCondition(job)]), env);
        ImageResult(s.w, s.br, image, false, if s.ok then Done else Err("update status"))
    else if BuildFailed(job) then
      var message := "Image building job " + job.name + " is failed.";
      var s := Write(w, BuildHasFailed, SetConditions([
        Report(ImageBuilding, False, message), Report(BentoAvailable, False, message)]), env);
      ImageResult(s.w, s.br, image, false, if s.ok then Done else Err("update status"))
    else
      var s := Write(w, BuildHasSucceeded, SetConditions([
        Report(ImageBuilding, False, "Image building job " + job.name + " is successed."),
        Report(ImageExists, True, image)]), env);
      ImageResult(s.w, s.br, image, s.ok, if s.ok then Done else Err("update status"))
  }
}
