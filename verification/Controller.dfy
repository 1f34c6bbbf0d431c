/** The BentoRequest reconciler: one Reconcile call, run step by step against the API server. */
module Controller {
  import opened Conditions
  import opened Cluster
  import opened Naming
  import opened StatusWriter
  import opened ImagePhase
  import opened ModelsPhase
  import opened Reconcile
  import opened Runs
  import opened JobFrames
  import opened BuilderJobs
  import opened ApiServer
  import opened StatusMethods
  import opened ImageMethods
  import opened ModelMethods

  class BentoRequestReconciler {
    const cfg: Config
    const api: Server

    constructor (cfg: Config, api: Server)
      ensures this.cfg == cfg && this.api == api
    {
      this.cfg := cfg;
      this.api := api;
    }

    /** Some entry of the list says that the Bento is available. */
    method SkipsAvailable() returns (skip: bool)
      ensures skip == SaysAvailable(api.request.conditions)
    {
      var conditions := api.request.conditions;
      for k := 0 to |conditions|
        invariant forall c <- conditions[..k] :: !(c.kind == BentoAvailable && c.status == True)
      {
        if conditions[k].kind == BentoAvailable && conditions[k].status == True {
          assert conditions[k] in conditions;
          return true;
        }
      }
      assert conditions[..|conditions|] == conditions;
      skip := false;
    }

    /** Create the Bento, or bring the spec of the one that is there up to date, and announce it. */
    method PublishBento(seeds: bool, br: Request, image: string, env: Env) returns (end: End)
      modifies api
      ensures BodyResult(api.State(), end) == Publish(old(api.State()), seeds, br, image, env)
    {
      hide Write;
      var bento := BentoFor(br.content, seeds, image);
      if env.fails(SetOwner) {
        return Err("set controller reference");
      }
      if br.content.spec.downloadURL == "" && env.fails(FetchBento) {
        return Err("get bento");
      }
      if env.fails(CreateBento) {
        return Err("create Bento resource");
      }
      if api.bento.None? {
        api.PutBento(bento);
      } else {
        if env.fails(GetBento) {
          return Err("get Bento resource");
        }
        var refreshed := Refreshed(api.bento.value, bento);
        if refreshed != api.bento.value {
          if env.fails(UpdateBento) {
            return Err("update Bento resource");
          }
          api.PutBento(refreshed);
        }
      }
      var _, ok := SetStatusConditions(api, Available, [Report(BentoAvailable, True, "Bento is generated")], env);
      end := if ok then Done else Err("update status");
    }

    /** What follows the image phase. */
    method FinishPass(separateModels: bool, modelsPresent: bool, modelsEnd: End,
                      br: Request, image: string, present: bool, imageEnd: End, env: Env)
      returns (end: End)
      modifies api
      ensures var w := old(api.State());
              BodyResult(api.State(), end) == Finish(cfg, separateModels,
                ModelsResult(w, br, modelsPresent, modelsEnd), ImageResult(w, br, image, present, imageEnd), env)
    {
      hide Write, CleanUp, Publish;
      if !imageEnd.Done? {
        return Wrapped(imageEnd, "ensure image exists");
      }
      if !present {
        var _, ok := SetStatusConditions(api, WaitingForImage,
          [Report(BentoAvailable, Unknown, "Bento image is building")], env);
        return if ok then Done else Err("update status");
      }
      if modelsEnd.Err? {
        return Wrapped(modelsEnd, "ensure model exists");
      }
      var seeds := separateModels && !IsStoredInS3(br.content);
      if seeds && modelsPresent {
        CleanUpModels(cfg, api, br, env);
      }
      if seeds && !modelsPresent {
        var _, ok := SetStatusConditions(api, WaitingForModels,
          [Report(BentoAvailable, Unknown, "Model is seeding")], env);
        return if ok then Done else Err("update status");
      }
      end := PublishBento(seeds, br, image, env);
    }

    method RunPhases(br0: Request, env: Env) returns (end: End)
      modifies api
      ensures BodyResult(api.State(), end) == Phases(cfg, old(api.State()), br0, env)
    {
      hide EnsureModelsExist, EnsureImageExists, Finish;
      var br := br0;
      var separateModels := IsSeparateModels(br.content);
      var modelsPresent, modelsEnd := false, Done;
      if separateModels && !IsStoredInS3(br.content) {
        br, modelsPresent, modelsEnd := EnsureModels(cfg, api, br, env);
      }
      ghost var models := ModelsResult(api.State(), br, modelsPresent, modelsEnd);
      var image, present, imageEnd;
      br, image, present, imageEnd := EnsureImage(cfg, api, br, env);
      FinishIgnores(cfg, separateModels, models, ModelsResult(api.State(), br, modelsPresent, modelsEnd),
                    ImageResult(api.State(), br, image, present, imageEnd), env);
      end := FinishPass(separateModels, modelsPresent, modelsEnd, br, image, present, imageEnd, env);
    }

    /** Everything under the deferred error handler. */
    method RunBody(br0: Request, env: Env) returns (end: End)
      modifies api
      ensures BodyResult(api.State(), end) == Body(cfg, old(api.State()), br0, env)
    {
      hide Write, Phases;
      var br := br0;
      var available := Find(br.conditions, BentoAvailable);
      if available.None? || available.value.status != Unknown {
        var ok;
        br, ok := SetStatusConditions(api, Reconciling, [Report(BentoAvailable, Unknown, "Reconciling")], env);
        if !ok {
          return Err("update status");
        }
      }
      end := RunPhases(br, env);
    }

    /**
     Reconcile: one pass, as the specification has it. A tidy store stays tidy, and no list of
     builder jobs grows beyond one exactly unless the pass adds a stray job to another one, which
     it never does with registry credentials. A request whose Bento is available is left alone.
     */
    method Reconcile(env: Env)
      modifies api
      ensures api.State() == Pass(cfg, old(api.State()), env)
      ensures Tidy(old(api.State())) ==>
                && Tidy(api.State())
                && (Bounded(cfg, old(api.State()), api.State()) <==> !Duplicates(cfg, old(api.State()), env))
                && (cfg.hasCredentials ==> !Duplicates(cfg, old(api.State()), env))
      ensures old(SaysAvailable(api.request.conditions)) ==> api.State() == old(api.State())
    {
      hide Body, Tidy, Bounded, Duplicates, SaysAvailable, Distinct;
      ghost var before := api.State();
      if Tidy(before) {
        PassTidy(cfg, before, env);
        PassBounded(cfg, before, env);
      }
      if env.fails(GetRequest) {
        return;
      }
      var skip := SkipsAvailable();
      if skip {
        return;
      }
      var br := api.request;
      if br.conditions == [] {
        var ok;
        br, ok := SetStatusConditions(api, Initial, InitialReports, env);
        if !ok {
          return;
        }
      }
      var end := RunBody(br, env);
      if end.Err? {
        var _, _ := SetStatusConditions(api, Deferred, [Report(BentoAvailable, False, end.message)], env);
      }
    }
  }

  /** The end of a pass looks at the models phase's verdict only, not at the state it left. */
  lemma FinishIgnores(cfg: Config, separateModels: bool, a: ModelsResult, b: ModelsResult, image: ImageResult, env: Env)
    requires a.present == b.present && a.end == b.end
    ensures Finish(cfg, separateModels, a, image, env) == Finish(cfg, separateModels, b, image, env)
  {
    hide Write, CleanUp, Publish;
  }
}
