/** One pass of the BentoRequest reconciler, as a function of the state it finds. */
module Reconcile {
  import opened Basics
  import opened Conditions
  import opened Cluster
  import opened Naming
  import opened StatusWriter
  import opened ImagePhase
  import opened ModelsPhase

  const InitialReports: seq<Condition> := [
    Report(ModelsSeeding, Unknown, "Starting to reconcile BentoRequest"),
    Report(ImageBuilding, Unknown, "Starting to reconcile BentoRequest"),
    Report(ImageExists, Unknown, "Starting to reconcile BentoRequest")]

  /** Some condition entry says that the Bento is available. */
  predicate SaysAvailable(conditions: seq<Condition>)
  {
    exists c <- conditions :: c.kind == BentoAvailable && c.status == True
  }

  function Pass(cfg: Config, w: World, env: Env): (r: World)
    ensures r == w.(req := r.req, jobs := r.jobs, pvcs := r.pvcs, bento := r.bento, nextId := r.nextId)
    ensures r.req.content == w.req.content && r.req.namespace == w.req.namespace
    ensures Distinct(w.req.conditions) ==> Distinct(r.req.conditions)
  {
    if env.fails(GetRequest) || SaysAvailable(w.req.conditions) then w
    else if w.req.conditions == [] then
      var s := Write(w, Initial, SetConditions(InitialReports), env);
      if !s.ok then s.w else Guarded(cfg, s.w, s.br, env)
    else Guarded(cfg, w, w.req, env)
  }

  datatype BodyResult = BodyResult(w: World, end: End)

  /** The deferred handler reports an error, though not a panic, as BentoAvailable=False. */
  function Guarded(cfg: Config, w: World, br: Request, env: Env): (r: World)
    ensures r == w.(req := r.req, jobs := r.jobs, pvcs := r.pvcs, bento := r.bento, nextId := r.nextId)
    ensures r.req.content == w.req.content && r.req.namespace == w.req.namespace
    ensures Distinct(w.req.conditions) ==> Distinct(r.req.conditions)
  {
    var r := Body(cfg, w, br, env);
    if r.end.Err? then
      Write(r.w, Deferred, SetConditions([Report(BentoAvailable, False, r.end.message)]), env).w
    else r.w
  }

  function Body(cfg: Config, w: World, br: Request, env: Env): (r: BodyResult)
    ensures r.w == w.(req := r.w.req, jobs := r.w.jobs, pvcs := r.w.pvcs, bento := r.w.bento, nextId := r.w.nextId)
    ensures r.w.req.content == w.req.content && r.w.req.namespace == w.req.namespace
    ensures Distinct(w.req.conditions) ==> Distinct(r.w.req.conditions)
  {
    var available := Find(br.conditions, BentoAvailable);
    if available.None? || available.value.status != Unknown then
      var s := Write(w, Reconciling, SetConditions([Report(BentoAvailable, Unknown, "Reconciling")]), env);
      if !s.ok then BodyResult(s.w, Err("update status")) else Phases(cfg, s.w, s.br, env)
    else Phases(cfg, w, br, env)
  }

  /** An error of the models phase is held back until the image phase has run. */
  function Phases(cfg: Config, w: World, br: Request, env: Env): (r: BodyResult)
    ensures r.w == w.(req := r.w.req, jobs := r.w.jobs, pvcs := r.w.pvcs, bento := r.w.bento, nextId := r.w.nextId)
    ensures r.w.req.content == w.req.content && r.w.req.namespace == w.req.namespace
    ensures Distinct(w.req.conditions) ==> Distinct(r.w.req.conditions)
  {
    var models := if SeedsModels(br.content) then EnsureModelsExist(cfg, w, br, env)
                  else ModelsResult(w, br, false, Done);
    var image := EnsureImageExists(cfg, models.w, models.br, env);
    Finish(cfg, IsSeparateModels(br.content), models, image, env)
  }

  /** errors.Wrap: an error says in which phase it arose. */
  function Wrapped(end: End, phase: string): (r: End)
    ensures r.Done? <==> end.Done?
    ensures r.Err? <==> end.Err?
  {
    if end.Err? then Err(phase + ": " + end.message) else end
  }

  function Finish(cfg: Config, separateModels: bool, models: ModelsResult, image: ImageResult, env: Env): (r: BodyResult)
    ensures r.w == image.w.(req := r.w.req, jobs := r.w.jobs, pvcs := r.w.pvcs, bento := r.w.bento)
    ensures r.w.req.content == image.w.req.content && r.w.req.namespace == image.w.req.namespace
    ensures Distinct(image.w.req.conditions) ==> Distinct(r.w.req.conditions)
  {
    if !image.end.Done? then BodyResult(image.w, Wrapped(image.end, "ensure image exists"))
    else if !image.present then
      var s := Write(image.w, WaitingForImage, SetConditions([
        Report(BentoAvailable, Unknown, "Bento image is building")]), env);
      BodyResult(s.w, if s.ok then Done else Err("update status"))
    else if models.end.Err? then BodyResult(image.w, Wrapped(models.end, "ensure model exists"))
    else
      var c := image.br.content;
      var seeds := separateModels && !IsStoredInS3(c);
      if seeds && !models.present then
        var s := Write(image.w, WaitingForModels, SetConditions([
          Report(BentoAvailable, Unknown, "Model is seeding")]), env);
        BodyResult(s.w, if s.ok then Done else Err("update status"))
      else
        var w := if seeds then CleanUp(cfg, image.w, image.br, c.spec.models, 0, env) else image.w;
        Publish(w, seeds, image.br, image.image, env)
  }

  /** For each model in turn: its seeder jobs, then its claim. Errors are logged and passed over. */
  function CleanUp(cfg: Config, w: World, br: Request, models: seq<Model>, i: nat, env: Env): (r: World)
    requires i <= |models|
    ensures r == w.(jobs := r.jobs, pvcs := r.pvcs)
    decreases |models| - i
  {
    if i == |models| then w
    else
      var tag := models[i].tag;
      var w1 := if env.fails(ListModelSeeders(i)) then w
                else DeleteEach(w, List(w.jobs, SeederLabels(cfg, br.content, tag)), env).0;
      var w2 := if env.fails(DeletePvc(i)) then w1
                else w1.(pvcs := w1.pvcs - {PvcName(cfg, br.namespace, br.content, tag)});
      CleanUp(cfg, w2, br, models, i + 1, env)
  }

  function BentoFor(c: Content, seeds: bool, image: string): Bento
  {
    Bento(c.spec.bentoTag, image, c.spec.serviceName, c.spec.models, seeds, IsStoredInS3(c))
  }

  /** An existing Bento gets the new spec; its annotations stay as they were. */
  function Refreshed(old_: Bento, fresh_: Bento): Bento
  {
    fresh_.(separateModels := old_.separateModels, storedInS3 := old_.storedInS3)
  }

  function Publish(w: World, seeds: bool, br: Request, image: string, env: Env): (r: BodyResult)
    ensures r.w == w.(req := r.w.req, bento := r.w.bento)
    ensures r.w.req.content == w.req.content && r.w.req.namespace == w.req.namespace
    ensures Distinct(w.req.conditions) ==> Distinct(r.w.req.conditions)
  {
    var wanted := BentoFor(br.content, seeds, image);
    if env.fails(SetOwner) then BodyResult(w, Err("set controller reference"))
    else if br.content.spec.downloadURL == "" && env.fails(FetchBento) then BodyResult(w, Err("get bento"))
    else if env.fails(CreateBento) then BodyResult(w, Err("create Bento resource"))
    else
      match w.bento
      case None => Announce(w.(bento := Some(wanted)), env)
      case Some(b) =>
        if env.fails(GetBento) then BodyResult(w, Err("get Bento resource"))
        else if Refreshed(b, wanted) == b then Announce(w, env)
        else if env.fails(UpdateBento) then BodyResult(w, Err("update Bento resource"))
        else Announce(w.(bento := Some(Refreshed(b, wanted))), env)
  }

  function Announce(w: World, env: Env): (r: BodyResult)
    ensures r.w == w.(req := r.w.req, bento := r.w.bento)
    ensures r.w.req.content == w.req.content && r.w.req.namespace == w.req.namespace
    ensures Distinct(w.req.conditions) ==> Distinct(r.w.req.conditions)
  {
    var s := Write(w, Available, SetConditions([Report(BentoAvailable, True, "Bento is generated")]), env);
    BodyResult(s.w, if s.ok then Done else Err("update status"))
  }
}
