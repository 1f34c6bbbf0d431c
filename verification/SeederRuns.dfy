/** What seeder jobs are made with and what keeps them, over whole runs. */
module SeederRuns {
  import opened Conditions
  import opened Cluster
  import opened Naming
  import opened StatusWriter
  import opened ImagePhase
  import opened ModelsPhase
  import opened Reconcile
  import opened Listing
  import opened JobFrames
  import opened Runs
  import opened SeederJobs

  /** j is a job the models phase makes for a model of c, with its claim in place. */
  ghost predicate MadeFor(cfg: Config, j: Job, c: Content, namespace: string, pvcs: set<string>)
  {
    exists m <- c.spec.models ::
      j == NewSeederJob(cfg, c, m.tag, j.id) && PvcName(cfg, namespace, c, m.tag) in pvcs
  }

  /** Claims are only added, and every seeder job that is new was made with its claim. */
  ghost predicate Grows(cfg: Config, w: World, w': World, c: Content, namespace: string)
  {
    && w.pvcs <= w'.pvcs
    && forall j <- Seeders(cfg, w') :: j in Seeders(cfg, w) || MadeFor(cfg, j, c, namespace, w'.pvcs)
  }

  lemma {:induction false} SeedEachGrows(
      cfg: Config, w: World, br: Request, models: seq<Model>, i: nat, seen: set<string>, env: Env)
    requires i <= |models| && models == br.content.spec.models
    ensures Grows(cfg, w, SeedEach(cfg, w, br, models, i, seen, env).w, br.content, br.namespace)
    decreases |models| - i
  {
    hide NewSeederJob, PvcName, SeederSelector, SeedOne, MadeFor, List;
    if i < |models| {
      if models[i].tag in seen {
        SeedEachGrows(cfg, w, br, models, i + 1, seen, env);
      } else {
        var s := SeedOne(cfg, w, br, models[i].tag, i, env);
        SeedOneGrows(cfg, w, br, models[i], i, env);
        if !s.end.Err? {
          SeedEachGrows(cfg, s.w, br, models, i + 1, seen, env);
          GrowsTransitive(cfg, w, s.w, SeedEach(cfg, s.w, br, models, i + 1, seen, env).w, br.content, br.namespace);
        }
      }
    }
  }

  lemma SeedOneGrows(cfg: Config, w: World, br: Request, m: Model, i: nat, env: Env)
    requires m in br.content.spec.models
    ensures Grows(cfg, w, SeedOne(cfg, w, br, m.tag, i, env).w, br.content, br.namespace)
  {
    hide PvcName, SeederSelector, SeedOne, SeederLabels;
    var r := SeedOne(cfg, w, br, m.tag, i, env).w;
    var job := NewSeederJob(cfg, br.content, m.tag, w.nextId);
    assert job == NewSeederJob(cfg, br.content, m.tag, job.id);
    NewSeederIsListed(cfg, br.content, m.tag, w.nextId, true);
    ListCreated(w.jobs, job, SeederSelector(cfg));
    if r.jobs != w.jobs {
      assert MadeFor(cfg, job, br.content, br.namespace, r.pvcs);
    }
  }

  lemma GrowsTransitive(cfg: Config, w: World, w1: World, w2: World, c: Content, namespace: string)
    requires Grows(cfg, w, w1, c, namespace) && Grows(cfg, w1, w2, c, namespace)
    ensures Grows(cfg, w, w2, c, namespace)
  {
    hide NewSeederJob, PvcName, Seeders;
    forall j <- Seeders(cfg, w2) ensures j in Seeders(cfg, w) || MadeFor(cfg, j, c, namespace, w2.pvcs) {
      if j !in Seeders(cfg, w) && j in Seeders(cfg, w1) {
        var m :| m in c.spec.models && j == NewSeederJob(cfg, c, m.tag, j.id) && PvcName(cfg, namespace, c, m.tag) in w1.pvcs;
        assert PvcName(cfg, namespace, c, m.tag) in w2.pvcs;
      }
    }
  }

  /** Deleting jobs and writing the status is growth, too: nothing new appears. */
  lemma ShrinkingGrows(cfg: Config, w: World, w': World, c: Content, namespace: string)
    requires w'.pvcs == w.pvcs && forall j <- w'.jobs :: j in w.jobs
    ensures Grows(cfg, w, w', c, namespace)
  {
    hide SeederSelector, MadeFor;
  }

  lemma SeedModelsGrows(cfg: Config, w: World, br: Request, env: Env)
    requires br == w.req && Tidy(w)
    ensures Grows(cfg, w, SeedModels(cfg, w, br, env).w, br.content, br.namespace)
  {
    hide Prune, SeedEach, ReportSeeding, SeederSelector, Tags, Grows, Tidy, List;
    var models := br.content.spec.models;
    var listed := List(w.jobs, SeederSelector(cfg));
    var p := Prune(w, br, listed, HashOf(br.content), Tags(models), {}, env);
    SelectedSeeders(cfg, w);
    PruneKeepsBuilders(cfg, w, br, listed, HashOf(br.content), Tags(models), {}, env, true);
    PruneInSync(w, br, listed, HashOf(br.content), Tags(models), {}, env);
    ShrinkingGrows(cfg, w, p.w, br.content, br.namespace);
    ShrinkingGrows(cfg, w, w, br.content, br.namespace);
    var s := SeedEach(cfg, p.w, p.br, models, 0, p.seen, env);
    if p.end == Done {
      SeedEachGrows(cfg, p.w, p.br, models, 0, p.seen, env);
      GrowsTransitive(cfg, w, p.w, s.w, br.content, br.namespace);
      var t := ReportSeeding(cfg, s.w, p.br, models, List(s.w.jobs, SeederSelector(cfg)), env);
      ShrinkingGrows(cfg, s.w, t.w, br.content, br.namespace);
      GrowsTransitive(cfg, w, s.w, t.w, br.content, br.namespace);
    }
  }

  /** The models phase creates each job after its claim, whatever fails. */
  lemma ModelsPhaseGrows(cfg: Config, w: World, env: Env)
    requires Tidy(w)
    ensures Grows(cfg, w, EnsureModelsExist(cfg, w, w.req, env).w, w.req.content, w.req.namespace)
  {
    hide Write, SeedModels, SeededMessage, IsTrue, Find, Grows, Tidy, Reflects, SameOwn;
    var s := Write(w, ModelsNotReady, SetConditions([NotReady]), env);
    ShrinkingGrows(cfg, w, w, w.req.content, w.req.namespace);
    ShrinkingGrows(cfg, w, s.w, w.req.content, w.req.namespace);
    SeedModelsGrows(cfg, w, w.req, env);
    if s.ok {
      TidySame(w, s.w);
      SeedModelsGrows(cfg, s.w, s.br, env);
      GrowsTransitive(cfg, w, s.w, SeedModels(cfg, s.w, s.br, env).w, w.req.content, w.req.namespace);
    }
  }

  // Labels that name a model of the hashed content.

  lemma MadeForIsNamed(cfg: Config, j: Job, c: Content, namespace: string, pvcs: set<string>)
    requires MadeFor(cfg, j, c, namespace, pvcs) && WellTagged(c)
    ensures DecodedTag(j.labels) in Tags(j.hash.content.spec.models)
    ensures exists m <- c.spec.models :: DecodedTag(j.labels) == m.tag && j.labels == SeederLabels(cfg, c, m.tag)
              && PvcName(cfg, namespace, c, m.tag) in pvcs
  {
    hide DecodedTag, SeederLabels, PvcName;
    var m :| m in c.spec.models && j == NewSeederJob(cfg, c, m.tag, j.id) && PvcName(cfg, namespace, c, m.tag) in pvcs;
    TagRoundTripIff(cfg, c, m.tag);
    TagListed(c.spec.models, m);
    assert DecodedTag(j.labels) == m.tag && j.labels == SeederLabels(cfg, c, m.tag);
  }

  // A fresh seeder job is current, with or without an affinity, so the next pass keeps it.

  lemma {:induction false} PruneKeepsCurrent(
      w: World, br: Request, listed: seq<Job>, hash: Hash, tags: seq<string>, seen: set<string>, env: Env, j: Job)
    requires j in w.jobs && j.hash == hash && DecodedTag(j.labels) in tags && Agree(listed, w.jobs)
    ensures j in Prune(w, br, listed, hash, tags, seen, env).w.jobs
    decreases |listed|
  {
    hide Write, DecodedTag, Reflects, SameOwn;
    if listed != [] {
      var job := listed[0];
      assert job in listed;
      var tag := DecodedTag(job.labels);
      var w1 := w.(jobs := Without(w.jobs, job.id));
      if job.hash == hash && tag in tags {
        PruneKeepsCurrent(w, br, listed[1..], hash, tags, seen + {tag}, env, j);
      } else if !env.fails(DeleteJob(job.id)) {
        if job.hash == hash {
          PruneKeepsCurrent(w1, br, listed[1..], hash, tags, seen, env, j);
        } else {
          var s := Write(w1, SeederStale(job.id), ToUnknown("Bento request hash changed, recreating the jobs"), env);
          PruneKeepsCurrent(s.w, s.br, listed[1..], hash, tags, seen, env, j);
        }
      }
    }
  }

  lemma {:induction false} SeedEachOnlyAdds(
      cfg: Config, w: World, br: Request, models: seq<Model>, i: nat, seen: set<string>, env: Env)
    requires i <= |models|
    ensures forall j <- w.jobs :: j in SeedEach(cfg, w, br, models, i, seen, env).w.jobs
    decreases |models| - i
  {
    hide NewSeederJob, PvcName, SeedOne;
    if i < |models| {
      if models[i].tag in seen {
        SeedEachOnlyAdds(cfg, w, br, models, i + 1, seen, env);
      } else {
        var s := SeedOne(cfg, w, br, models[i].tag, i, env);
        if !s.end.Err? {
          SeedEachOnlyAdds(cfg, s.w, br, models, i + 1, seen, env);
        }
      }
    }
  }

  lemma SeedModelsKeepsCurrent(cfg: Config, w: World, br: Request, env: Env, j: Job)
    requires Tidy(w) && j in w.jobs && j.hash == HashOf(br.content) && DecodedTag(j.labels) in Tags(br.content.spec.models)
    ensures j in SeedModels(cfg, w, br, env).w.jobs
  {
    hide Prune, SeedEach, ReportSeeding, SeederSelector, Tags, Tidy, List, DecodedTag;
    var models := br.content.spec.models;
    var listed := List(w.jobs, SeederSelector(cfg));
    SelectedSeeders(cfg, w);
    PruneKeepsCurrent(w, br, listed, HashOf(br.content), Tags(models), {}, env, j);
    var p := Prune(w, br, listed, HashOf(br.content), Tags(models), {}, env);
    SeedEachOnlyAdds(cfg, p.w, p.br, models, 0, p.seen, env);
  }

  /** A models phase deletes no seeder job that is current and names a model of the request, whatever fails. */
  lemma ModelsPhaseKeepsCurrent(cfg: Config, w: World, env: Env, j: Job)
    requires Tidy(w) && j in Seeders(cfg, w)
    requires j.hash == HashOf(w.req.content) && DecodedTag(j.labels) in Tags(w.req.content.spec.models)
    ensures j in Seeders(cfg, EnsureModelsExist(cfg, w, w.req, env).w)
  {
    hide Write, SeedModels, SeededMessage, SeederSelector, Selects, DecodedTag, Tags, Tidy;
    var s := Write(w, ModelsNotReady, SetConditions([NotReady]), env);
    SeedModelsKeepsCurrent(cfg, w, w.req, env, j);
    if s.ok {
      TidySame(w, s.w);
      SeedModelsKeepsCurrent(cfg, s.w, s.br, env, j);
    }
  }

  /**
   A seeder job that a models phase has made survives every later models phase over the same content
   if its labels still name a model, whatever fails in either and whether or not the request has an
   affinity of its own.
   */
  lemma FreshSeederSurvives(cfg: Config, w: World, env: Env, later: World, laterEnv: Env, j: Job)
    requires Tidy(w) && Tidy(later)
    requires j in Seeders(cfg, EnsureModelsExist(cfg, w, w.req, env).w) && j !in Seeders(cfg, w)
    requires j in later.jobs && later.req.content == w.req.content
    ensures DecodedTag(j.labels) in Tags(w.req.content.spec.models) ==>
              j in Seeders(cfg, EnsureModelsExist(cfg, later, later.req, laterEnv).w)
  {
    hide EnsureModelsExist, SeederSelector, Selects, DecodedTag, Tags, Tidy, MadeFor;
    var r := EnsureModelsExist(cfg, w, w.req, env);
    ModelsPhaseGrows(cfg, w, env);
    MadeForIsCurrent(cfg, j, w.req.content, w.req.namespace, r.w.pvcs);
    if DecodedTag(j.labels) in Tags(w.req.content.spec.models) {
      ModelsPhaseKeepsCurrent(cfg, later, laterEnv, j);
    }
  }

  lemma MadeForIsCurrent(cfg: Config, j: Job, c: Content, namespace: string, pvcs: set<string>)
    requires MadeFor(cfg, j, c, namespace, pvcs)
    ensures j.hash == HashOf(c)
  {
    hide SeederLabels, PvcName;
  }

  lemma GrowsNamed(cfg: Config, w: World, w': World, c: Content, namespace: string)
    requires Named(cfg, w) && Grows(cfg, w, w', c, namespace) && WellTagged(c)
    ensures Named(cfg, w')
  {
    hide DecodedTag, MadeFor, Seeders;
    forall j <- Seeders(cfg, w') ensures DecodedTag(j.labels) in Tags(j.hash.content.spec.models) {
      if j !in Seeders(cfg, w) {
        MadeForIsNamed(cfg, j, c, namespace, w'.pvcs);
      }
    }
  }

  lemma NamedFewer(cfg: Config, w: World, w': World)
    requires Named(cfg, w) && forall j <- w'.jobs :: j in w.jobs || !Selects(SeederSelector(cfg), j.labels)
    ensures Named(cfg, w')
  {
    hide DecodedTag, SeederSelector;
  }

  lemma NamedSameList(cfg: Config, w: World, w': World)
    requires Named(cfg, w) && Seeders(cfg, w') == Seeders(cfg, w)
    ensures Named(cfg, w')
  {
  }

  lemma PhasesNamed(cfg: Config, w: World, env: Env)
    requires Named(cfg, w) && Tidy(w) && WellTagged(w.req.content)
    ensures Named(cfg, Phases(cfg, w, w.req, env).w)
  {
    hide EnsureModelsExist, EnsureImageExists, Finish, Tidy, Named, SeederSelector, List;
    var models := if SeedsModels(w.req.content) then EnsureModelsExist(cfg, w, w.req, env)
                  else ModelsResult(w, w.req, false, Done);
    ModelsPhaseKeepsBuilders(cfg, w, w.req, env, true);
    ModelsPhaseGrows(cfg, w, env);
    GrowsNamed(cfg, w, EnsureModelsExist(cfg, w, w.req, env).w, w.req.content, w.req.namespace);
    var image := EnsureImageExists(cfg, models.w, models.br, env);
    ImagePhaseKeepsSeeders(cfg, models.w, models.br, env);
    NamedSameList(cfg, models.w, image.w);
    FinishDeletesOnly(cfg, IsSeparateModels(w.req.content), models, image, env);
    NamedFewer(cfg, image.w, Phases(cfg, w, w.req, env).w);
  }

  lemma FinishDeletesOnly(cfg: Config, separateModels: bool, models: ModelsResult, image: ImageResult, env: Env)
    requires Tidy(image.w)
    ensures forall j <- Finish(cfg, separateModels, models, image, env).w.jobs :: j in image.w.jobs
  {
    hide Write, CleanUp, Tidy, Publish;
    CleanUpKeepsBuilders(cfg, image.w, image.br, image.br.content.spec.models, 0, env, true);
  }

  lemma StepNamed(cfg: Config, w: World, step: Step)
    requires Named(cfg, w) && Tidy(w) && WellTagged(w.req.content)
    requires step.EditContent? ==> WellTagged(step.content)
    ensures Named(cfg, Next(cfg, w, step)) && WellTagged(Next(cfg, w, step).req.content)
  {
    hide Pass, Phases, Tidy, Named, SeederSelector, List, Write, WithForeign, Entered;
    match step
    case PassStep(env) =>
      var ran, w1 := Enter(cfg, w, env);
      SameStore(w, w1);
      TidySame(w, w1);
      NamedSame(cfg, w, w1);
      if ran {
        PhasesNamed(cfg, w1, env);
        NamedSame(cfg, Phases(cfg, w1, w1.req, env).w, Pass(cfg, w, env));
      } else {
        NamedSame(cfg, w, Pass(cfg, w, env));
      }
    case Progress(_, _, _, _, _) =>
      NamedProgress(cfg, w, step);
    case Shuffle(order) =>
      if multiset(order) == multiset(w.jobs) {
        forall j <- order ensures j in w.jobs {
          assert j in multiset(order);
        }
        NamedFewer(cfg, w, Next(cfg, w, step));
      } else {
        NamedSame(cfg, w, Next(cfg, w, step));
      }
    case _ =>
      NamedSame(cfg, w, Next(cfg, w, step));
  }

  lemma NamedSame(cfg: Config, w: World, w': World)
    requires Named(cfg, w) && w'.jobs == w.jobs
    ensures Named(cfg, w')
  {
  }

  lemma NamedProgress(cfg: Config, w: World, step: Step)
    requires Named(cfg, w) && step.Progress?
    ensures Named(cfg, w.(jobs := WithStatus(w.jobs, step)))
  {
    hide DecodedTag, SeederSelector;
    var r := WithStatus(w.jobs, step);
    forall j <- List(r, SeederSelector(cfg)) ensures DecodedTag(j.labels) in Tags(j.hash.content.spec.models) {
      var i :| 0 <= i < |r| && r[i] == j;
      assert w.jobs[i] in Seeders(cfg, w);
    }
  }

  /**
   With tags that contain a colon, in every reachable state every seeder job with the current hash
   names a current model: the models phase never deletes a current job for want of its model.
   */
  lemma {:induction false} CurrentSeedersNameModels(cfg: Config, w: World, steps: seq<Step>)
    requires Named(cfg, w) && Tidy(w) && WellTagged(w.req.content)
    requires forall s <- steps :: s.EditContent? ==> WellTagged(s.content)
    ensures var r := Run(cfg, w, steps);
            && Named(cfg, r) && WellTagged(r.req.content)
            && forall j <- Seeders(cfg, r) ::
                 j.hash == HashOf(r.req.content) ==> DecodedTag(j.labels) in Tags(r.req.content.spec.models)
    decreases |steps|
  {
    hide Next, Tidy, WellTagged, Seeders, DecodedTag;
    if steps != [] {
      var before, last := steps[..|steps| - 1], steps[|steps| - 1];
      assert last in steps;
      CurrentSeedersNameModels(cfg, w, before);
      RunTidy(cfg, w, before);
      StepNamed(cfg, Run(cfg, w, before), last);
    }
  }
}
