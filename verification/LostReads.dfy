/** When the models phase loses the request: exactly which calls have to fail, and which to succeed. */
module LostReads {
  import opened Basics
  import opened Conditions
  import opened Cluster
  import opened Naming
  import opened StatusWriter
  import opened ImagePhase
  import opened ModelsPhase
  import opened JobFrames
  import opened CompareAndSwap
  import opened SeederJobs

  /** A writer that cannot read the request at all, not even once, hands on an empty object. */
  predicate NeverReads(env: Env, site: Site)
  {
    env.fails(Fetch(site, 0))
  }

  lemma WriteLoses(w: World, site: Site, update: Update, env: Env)
    requires SeedsModels(w.req.content)
    ensures Write(w, site, update, env).br == EmptyRequest <==> NeverReads(env, site)
    ensures NeverReads(env, site) ==> !Write(w, site, update, env).ok
  {
    hide Applied, Reflects, SameOwn, Disturbed;
    EmptySeedsNothing();
  }

  lemma EmptySeedsNothing()
    ensures !SeedsModels(EmptyRequest.content)
  {
  }

  /** Over listed seeder jobs: every one that has to go can be deleted, and every reset is written. */
  predicate PruneWorks(listed: seq<Job>, hash: Hash, tags: seq<string>, env: Env)
  {
    forall j <- listed ::
      && ((j.hash == hash && DecodedTag(j.labels) in tags) || !env.fails(DeleteJob(j.id)))
      && (j.hash == hash || WriterSucceeds(env, SeederStale(j.id)))
  }

  /** Pruning works up to a stale job that can be deleted, but whose reset cannot read the request. */
  predicate PruneLoses(listed: seq<Job>, hash: Hash, tags: seq<string>, env: Env)
  {
    exists k :: 0 <= k < |listed| && PruneWorks(listed[..k], hash, tags, env)
      && listed[k].hash != hash && !env.fails(DeleteJob(listed[k].id)) && NeverReads(env, SeederStale(listed[k].id))
  }

  lemma PruneWorksHead(listed: seq<Job>, k: nat, hash: Hash, tags: seq<string>, env: Env)
    requires 0 < k <= |listed|
    ensures PruneWorks(listed[..k], hash, tags, env) <==>
            PruneWorks(listed[..1], hash, tags, env) && PruneWorks(listed[1..][..k - 1], hash, tags, env)
  {
    hide DecodedTag, WriterSucceeds;
    assert listed[..k] == listed[..1] + listed[1..][..k - 1];
  }

  lemma PruneLosesHead(listed: seq<Job>, hash: Hash, tags: seq<string>, env: Env)
    requires listed != []
    ensures PruneLoses(listed, hash, tags, env) <==>
            || (&& listed[0].hash != hash && !env.fails(DeleteJob(listed[0].id))
                && NeverReads(env, SeederStale(listed[0].id)))
            || (PruneWorks(listed[..1], hash, tags, env) && PruneLoses(listed[1..], hash, tags, env))
  {
    hide PruneWorks;
    assert PruneWorks(listed[..0], hash, tags, env) by { NothingToPrune(listed, hash, tags, env); }
    if PruneLoses(listed, hash, tags, env) {
      var k :| 0 <= k < |listed| && PruneWorks(listed[..k], hash, tags, env)
        && listed[k].hash != hash && !env.fails(DeleteJob(listed[k].id)) && NeverReads(env, SeederStale(listed[k].id));
      if k > 0 {
        PruneWorksHead(listed, k, hash, tags, env);
        assert listed[1..][k - 1] == listed[k];
      }
    }
    if PruneWorks(listed[..1], hash, tags, env) && PruneLoses(listed[1..], hash, tags, env) {
      var k :| 0 <= k < |listed[1..]| && PruneWorks(listed[1..][..k], hash, tags, env)
        && listed[1..][k].hash != hash && !env.fails(DeleteJob(listed[1..][k].id))
        && NeverReads(env, SeederStale(listed[1..][k].id));
      PruneWorksHead(listed, k + 1, hash, tags, env);
      assert listed[k + 1] == listed[1..][k];
    }
  }

  lemma NothingToPrune(listed: seq<Job>, hash: Hash, tags: seq<string>, env: Env)
    ensures PruneWorks(listed[..0], hash, tags, env)
  {
  }

  /** Pruning ends well, or loses the request, exactly then. */
  lemma {:induction false} PruneLosesIff(
      w: World, br: Request, listed: seq<Job>, hash: Hash, tags: seq<string>, seen: set<string>, env: Env)
    requires SameRequest(br, w.req) && SeedsModels(w.req.content)
    ensures var p := Prune(w, br, listed, hash, tags, seen, env);
            && (p.end == Done <==> PruneWorks(listed, hash, tags, env))
            && (p.br == EmptyRequest <==> PruneLoses(listed, hash, tags, env))
            && (p.br == EmptyRequest ==> p.end.Err?)
    decreases |listed|
  {
    hide Write, DecodedTag, Reflects, SameOwn, WriterSucceeds, SeedsModels;
    EmptySeedsNothing();
    if listed != [] {
      var job := listed[0];
      var tag := DecodedTag(job.labels);
      var w1 := w.(jobs := Without(w.jobs, job.id));
      PruneLosesHead(listed, hash, tags, env);
      PruneWorksHead(listed, |listed|, hash, tags, env);
      assert listed[..|listed|] == listed && listed[1..][..|listed| - 1] == listed[1..];
      if job.hash == hash && tag in tags {
        PruneLosesIff(w, br, listed[1..], hash, tags, seen + {tag}, env);
      } else if !env.fails(DeleteJob(job.id)) {
        if job.hash == hash {
          PruneLosesIff(w1, br, listed[1..], hash, tags, seen, env);
        } else {
          var update := ToUnknown("Bento request hash changed, recreating the jobs");
          var s := Write(w1, SeederStale(job.id), update, env);
          WriteLoses(w1, SeederStale(job.id), update, env);
          WriterOutcome(w1, SeederStale(job.id), update, env);
          if s.ok {
            PruneLosesIff(s.w, s.br, listed[1..], hash, tags, seen, env);
          }
        }
      }
    }
  }

  /** For each model without a job, from position i on, claim and job can be made. */
  predicate SeedWorks(
      cfg: Config, namespace: string, c: Content, pvcs: set<string>, i: nat, seen: set<string>, env: Env)
    requires i <= |c.spec.models|
    decreases |c.spec.models| - i
  {
    if i == |c.spec.models| then true
    else if c.spec.models[i].tag in seen then SeedWorks(cfg, namespace, c, pvcs, i + 1, seen, env)
    else
      var pvc := PvcName(cfg, namespace, c, c.spec.models[i].tag);
      && !env.fails(GetPvc(i)) && (pvc in pvcs || !env.fails(CreatePvc(i)))
      && !env.fails(GenerateSeeder(i)) && !env.fails(GetSeeder(i)) && !env.fails(CreateSeeder(i))
      && SeedWorks(cfg, namespace, c, pvcs + {pvc}, i + 1, seen, env)
  }

  lemma {:induction false} SeedWorksIff(cfg: Config, w: World, br: Request, i: nat, seen: set<string>, env: Env)
    requires Tidy(w) && i <= |br.content.spec.models|
    ensures SeedEach(cfg, w, br, br.content.spec.models, i, seen, env).end == Done <==>
            SeedWorks(cfg, br.namespace, br.content, w.pvcs, i, seen, env)
    decreases |br.content.spec.models| - i
  {
    hide NewSeederJob, PvcName, Tidy, SeedOne;
    var models := br.content.spec.models;
    if i < |models| {
      if models[i].tag in seen {
        SeedWorksIff(cfg, w, br, i + 1, seen, env);
      } else {
        var s := SeedOne(cfg, w, br, models[i].tag, i, env);
        SeedOneWorks(cfg, w, br, models[i].tag, i, env);
        SeedOneKeepsBuilders(cfg, w, br, models[i].tag, i, env, true);
        if !s.end.Err? {
          SeedWorksIff(cfg, s.w, br, i + 1, seen, env);
        }
      }
    }
  }

  lemma SeedOneWorks(cfg: Config, w: World, br: Request, tag: string, i: nat, env: Env)
    requires Tidy(w)
    ensures var s := SeedOne(cfg, w, br, tag, i, env);
            var pvc := PvcName(cfg, br.namespace, br.content, tag);
            && (s.end == Done <==>
                  && !env.fails(GetPvc(i)) && (pvc in w.pvcs || !env.fails(CreatePvc(i)))
                  && !env.fails(GenerateSeeder(i)) && !env.fails(GetSeeder(i)) && !env.fails(CreateSeeder(i)))
            && (s.end == Done ==> s.w.pvcs == w.pvcs + {pvc})
  {
    hide PvcName, SeederLabels, Tidy, Digits;
    forall j <- w.jobs ensures j.name != NewSeederJob(cfg, br.content, tag, w.nextId).name {
      FreshName(w, j);
    }
  }

  /** The one report on seeding that is due cannot read the request; only kept jobs count. */
  predicate ReportLoses(kept: seq<Job>, models: seq<Model>, env: Env)
  {
    if exists j <- kept :: SeederFailed(j) then !env.fails(ListPods) && NeverReads(env, ModelsFailed)
    else if forall t <- Tags(models) :: t in SucceededTags(kept) then NeverReads(env, ModelsReady)
    else NeverReads(env, ModelsWaiting)
  }

  lemma ReportLosesIff(
      cfg: Config, w: World, br: Request, models: seq<Model>, kept: seq<Job>, planned: seq<Job>, env: Env)
    requires SameRequest(br, w.req) && SeedsModels(w.req.content)
    requires forall j <- planned :: !Completed(j) && j.failed == 0
    ensures ReportSeeding(cfg, w, br, models, kept + planned, env).br == EmptyRequest <==> ReportLoses(kept, models, env)
  {
    hide Write, Join, SeededMessage, UnfinishedNames, SucceededTags, Tags, Reflects, SameOwn, SeedsModels, SeederFailed;
    EmptySeedsNothing();
    OnlyKeptMatter(kept, planned);
    var listed := kept + planned;
    var failed := UnfinishedNames(listed, true);
    var message := "Model seeder jobs failed: " + Join(failed, ", ")
      + (if env.podsUninitialised then ": no validate HF_TOKEN for seeding huggingface model" else "");
    WriteLoses(w, ModelsFailed, SetConditions([
      Report(ModelsExists, False, message), Report(BentoAvailable, False, message)]), env);
    WriteLoses(w, ModelsReady, SetConditions([
      Report(ModelsExists, True, SeededMessage(cfg, models)),
      Report(ModelsSeeding, False, "All models have been seeded.")]), env);
    WriteLoses(w, ModelsWaiting, SetConditions([
      Report(ModelsSeeding, True,
        "Model seeder jobs are not ready: " + Join(UnfinishedNames(listed, false), ", ") + ".")]), env);
  }

  /** Seeding loses the request: while it prunes, or at the report after everything else has worked. */
  predicate SeedLoses(cfg: Config, w: World, env: Env)
  {
    var c := w.req.content;
    var hash, tags := HashOf(c), Tags(c.spec.models);
    var kept := Kept(Seeders(cfg, w), hash, tags);
    && !env.fails(ListSeeders)
    && (|| PruneLoses(Seeders(cfg, w), hash, tags, env)
        || (&& PruneWorks(Seeders(cfg, w), hash, tags, env)
            && SeedWorks(cfg, w.req.namespace, c, w.pvcs, 0, DecodedTags(kept), env)
            && !env.fails(RelistSeeders) && ReportLoses(kept, c.spec.models, env)))
  }

  lemma SeedLosesIff(cfg: Config, w: World, br: Request, env: Env)
    requires Tidy(w) && br == w.req && SeedsModels(w.req.content)
    ensures SeedModels(cfg, w, br, env).br == EmptyRequest <==> SeedLoses(cfg, w, env)
  {
    hide Prune, SeedEach, ReportSeeding, SeederSelector, Tags, Kept, Planned, DecodedTags, Tidy, List, SeedsModels;
    hide PruneWorks, PruneLoses, SeedWorks, ReportLoses;
    EmptySeedsNothing();
    var models := br.content.spec.models;
    var listed := List(w.jobs, SeederSelector(cfg));
    var hash := HashOf(br.content);
    var p := Prune(w, br, listed, hash, Tags(models), {}, env);
    PruneLosesIff(w, br, listed, hash, Tags(models), {}, env);
    assert [] + listed == listed;
    TidyUnique(w);
    PruneLists(cfg, w, br, [], listed, hash, Tags(models), {}, env);
    var kept := Kept(listed, hash, Tags(models));
    assert [] + kept == kept;
    SelectedSeeders(cfg, w);
    PruneKeepsBuilders(cfg, w, br, listed, hash, Tags(models), {}, env, true);
    PruneInSync(w, br, listed, hash, Tags(models), {}, env);
    if p.end == Done {
      assert p.seen == DecodedTags(kept);
      SeedWorksIff(cfg, p.w, p.br, 0, p.seen, env);
      SeedEachLists(cfg, p.w, p.br, models, 0, p.seen, env);
      var s := SeedEach(cfg, p.w, p.br, models, 0, p.seen, env);
      var planned := Planned(cfg, br.content, models, 0, p.seen, p.w.nextId);
      PlannedAreFresh(cfg, br.content, models, p.seen, p.w.nextId);
      if s.end == Done {
        assert List(s.w.jobs, SeederSelector(cfg)) == kept + planned;
        ReportLosesIff(cfg, s.w, p.br, models, kept, planned, env);
      }
    }
  }

  /**
   The models phase loses the request: it is not short-circuited, and either it is due to report that
   the models are not ready and cannot read the request, or it gets past that and loses it in seeding.
   */
  predicate Loses(cfg: Config, w: World, env: Env)
  {
    var known := Find(w.req.conditions, ModelsExists);
    && SeedsModels(w.req.content) && !ShortCircuits(cfg, w)
    && if known.None? || known.value.status == Unknown
       then NeverReads(env, ModelsNotReady) || (WriterSucceeds(env, ModelsNotReady) && SeedLoses(cfg, w, env))
       else SeedLoses(cfg, w, env)
  }

  /** It then hands on the empty object in place of the request, and never otherwise. */
  lemma LosesIff(cfg: Config, w: World, env: Env)
    requires Tidy(w)
    ensures Loses(cfg, w, env) <==> SeedsModels(w.req.content) && EnsureModelsExist(cfg, w, w.req, env).br == EmptyRequest
  {
    hide Write, SeedModels, SeededMessage, Tidy, SeedsModels, SeedLoses, WriterSucceeds, Reflects, SameOwn;
    EmptySeedsNothing();
    if !SeedsModels(w.req.content) {
      return;
    }
    var update := SetConditions([NotReady]);
    var s := Write(w, ModelsNotReady, update, env);
    WriteLoses(w, ModelsNotReady, update, env);
    WriterOutcome(w, ModelsNotReady, update, env);
    TidySame(w, s.w);
    SeedLosesIff(cfg, w, w.req, env);
    if s.ok {
      SeedLosesIff(cfg, s.w, s.br, env);
      SeedLosesSame(cfg, w, s.w, env);
    }
  }

  lemma SeedLosesSame(cfg: Config, w: World, w1: World, env: Env)
    requires w1.jobs == w.jobs && w1.pvcs == w.pvcs && SameRequest(w1.req, w.req)
    ensures SeedLoses(cfg, w1, env) == SeedLoses(cfg, w, env)
  {
    hide SeederSelector, List;
    SeedersSame(cfg, w, w1);
  }

  /** Whatever else happens, it takes a first read of one of the phase's writers to fail. */
  lemma LosesByFirstRead(cfg: Config, w: World, env: Env)
    ensures Loses(cfg, w, env) ==> !ModelsPhaseReads(env)
  {
    hide SeederSelector, List, Kept, Tags, DecodedTags, SeedWorks, PruneWorks, SucceededTags, WriterSucceeds, SeededMessage;
  }
}
