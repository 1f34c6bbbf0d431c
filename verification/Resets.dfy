/** When a pass turns all conditions into Unknown: the resets that a stale job's deletion brings. */
module Resets {
  import opened Basics
  import opened Conditions
  import opened Cluster
  import opened Naming
  import opened StatusWriter
  import opened ImagePhase
  import opened ModelsPhase
  import opened JobFrames
  import opened StatusFrames
  import opened Runs
  import opened CompareAndSwap
  import opened LostReads
  import opened BuilderJobs
  import opened SeederJobs

  function BuildingCondition(w: World): Option<Condition>
  {
    Find(w.req.conditions, ImageBuilding)
  }

  /** If ImageBuilding has been written, then with a transition time. */
  predicate Stamped(w: World)
  {
    BuildingCondition(w).Some? ==> BuildingCondition(w).value.since != 0
  }

  /** The reset reaches the store: one of the writer's attempts goes through. */
  predicate ResetStored(env: Env, site: Site)
  {
    exists k: nat | k < 3 :: SwapsAt(env, site, k)
  }

  const RESET: Update := ToUnknown("Bento request hash changed, recreating the jobs")

  /** What a stored reset makes of a condition: Unknown, since the same time. */
  predicate ResetOf(before: Option<Condition>, after: Option<Condition>)
  {
    && before.Some? == after.Some?
    && (before.Some? ==> after.value.status == Unknown && after.value.since == before.value.since)
  }

  /** ImageBuilding after a writer's reset: reset in place when it was stored, else untouched. */
  lemma WriteResets(w: World, site: Site, env: Env)
    requires Stamped(w)
    ensures var s := Write(w, site, RESET, env);
            if ResetStored(env, site) then ResetOf(BuildingCondition(w), BuildingCondition(s.w))
            else BuildingCondition(s.w) == BuildingCondition(w) && !s.ok
  {
    hide Write, SwapsAt, Applied, Before, Disturbed, Reflects;
    OneSwapOrNothing(w, site, RESET, env);
    var s := Write(w, site, RESET, env);
    if ResetStored(env, site) {
      var k: nat :| k < 3 && SwapsAt(env, site, k);
      var before := Before(w, site, env, k);
      BeforeIsForeign(w, site, env, k);
      DisturbedKeepsOwn(w, Edits(env, site, k));
      var updated := before.req.(conditions := Applied(RESET, before.req.conditions, before.now), version := before.req.version + 1);
      DisturbedKeepsOwn(before.(req := updated), env.foreign(site, 3));
      AppliedResets(before.req.conditions, before.now);
    }
  }

  lemma DisturbedKeepsOwn(w: World, edits: seq<ForeignEdit>)
    ensures BuildingCondition(Disturbed(w, edits)) == BuildingCondition(w)
    ensures Disturbed(w, edits).now == w.now
  {
    hide WithForeign;
  }

  lemma AppliedResets(conditions: seq<Condition>, now: int)
    requires Find(conditions, ImageBuilding).Some? ==> Find(conditions, ImageBuilding).value.since != 0
    ensures ResetOf(Find(conditions, ImageBuilding), Find(Applied(RESET, conditions, now), ImageBuilding))
  {
    hide RangeUnknown;
    if Find(conditions, ImageBuilding).Some? {
      RangeUnknownKeepsSince(conditions, 0, RESET.message, now, ImageBuilding);
    }
    RangeUnknownFinds(conditions, RESET.message, now, ImageBuilding);
  }

  /**
   Over listed seeder jobs: the first stale one that is reached is deleted and its reset is stored.
   A delete that fails before it ends the pruning, and so does a reset that cannot be stored.
   */
  predicate PruneResets(listed: seq<Job>, hash: Hash, tags: seq<string>, env: Env)
  {
    if listed == [] then false
    else
      var job := listed[0];
      if job.hash == hash && DecodedTag(job.labels) in tags then PruneResets(listed[1..], hash, tags, env)
      else if env.fails(DeleteJob(job.id)) then false
      else if job.hash == hash then PruneResets(listed[1..], hash, tags, env)
      else ResetStored(env, SeederStale(job.id))
  }

  lemma {:induction false} PruneTimer(
      w: World, br: Request, listed: seq<Job>, hash: Hash, tags: seq<string>, seen: set<string>, env: Env)
    requires Stamped(w)
    ensures var w' := Prune(w, br, listed, hash, tags, seen, env).w;
            if PruneResets(listed, hash, tags, env) then ResetOf(BuildingCondition(w), BuildingCondition(w'))
            else BuildingCondition(w') == BuildingCondition(w)
    decreases |listed|
  {
    hide Write, DecodedTag, Reflects, SameOwn, ResetStored, Find;
    if listed != [] {
      var job := listed[0];
      var tag := DecodedTag(job.labels);
      var w1 := w.(jobs := Without(w.jobs, job.id));
      if job.hash == hash && tag in tags {
        PruneTimer(w, br, listed[1..], hash, tags, seen + {tag}, env);
      } else if !env.fails(DeleteJob(job.id)) {
        if job.hash == hash {
          PruneTimer(w1, br, listed[1..], hash, tags, seen, env);
        } else {
          var s := Write(w1, SeederStale(job.id), RESET, env);
          WriteResets(w1, SeederStale(job.id), env);
          if s.ok {
            PruneTimer(s.w, s.br, listed[1..], hash, tags, seen, env);
          }
        }
      }
    }
  }

  /**
   The models phase resets the conditions: it is not short-circuited, gets as far as its listing,
   and meets a stale seeder job that it can delete.
   */
  predicate ModelsReset(cfg: Config, w: World, env: Env)
  {
    var known := Find(w.req.conditions, ModelsExists);
    && SeedsModels(w.req.content) && !ShortCircuits(cfg, w)
    && (known.None? || known.value.status == Unknown ==> WriterSucceeds(env, ModelsNotReady))
    && !env.fails(ListSeeders)
    && PruneResets(Seeders(cfg, w), HashOf(w.req.content), Tags(w.req.content.spec.models), env)
  }

  lemma SeedModelsTimer(cfg: Config, w: World, br: Request, env: Env)
    requires Stamped(w) && SameRequest(br, w.req)
    ensures var w' := SeedModels(cfg, w, br, env).w;
            if !env.fails(ListSeeders)
               && PruneResets(Seeders(cfg, w), HashOf(w.req.content), Tags(w.req.content.spec.models), env)
            then ResetOf(BuildingCondition(w), BuildingCondition(w'))
            else BuildingCondition(w') == BuildingCondition(w)
  {
    hide ReportSeeding, Prune, SeedEach, SeederSelector, List, Tags, Find, PruneResets;
    var models := br.content.spec.models;
    var listed := List(w.jobs, SeederSelector(cfg));
    PruneTimer(w, br, listed, HashOf(br.content), Tags(models), {}, env);
    var p := Prune(w, br, listed, HashOf(br.content), Tags(models), {}, env);
    var s := SeedEach(cfg, p.w, p.br, models, 0, p.seen, env);
    ReportKeepsOthers(cfg, s.w, p.br, models, List(s.w.jobs, SeederSelector(cfg)), env, ImageBuilding);
  }

  /** The report on seeding writes the conditions about models and BentoAvailable, and no other. */
  lemma ReportKeepsOthers(
      cfg: Config, w: World, br: Request, models: seq<Model>, listed: seq<Job>, env: Env, kind: Kind)
    requires !kind.Foreign? && kind != ModelsExists && kind != ModelsSeeding && kind != BentoAvailable
    ensures Find(ReportSeeding(cfg, w, br, models, listed, env).w.req.conditions, kind) == Find(w.req.conditions, kind)
  {
    hide Write, UnfinishedNames, SucceededTags, SeededMessage, Tags, Join, Find;
    var failed := UnfinishedNames(listed, true);
    var message := "Model seeder jobs failed: " + Join(failed, ", ")
      + (if env.podsUninitialised then ": no validate HF_TOKEN for seeding huggingface model" else "");
    WriteLeaves(w, ModelsFailed, [Report(ModelsExists, False, message), Report(BentoAvailable, False, message)], env, kind);
    WriteLeaves(w, ModelsReady, [
      Report(ModelsExists, True, SeededMessage(cfg, models)),
      Report(ModelsSeeding, False, "All models have been seeded.")], env, kind);
    WriteLeaves(w, ModelsWaiting, [
      Report(ModelsSeeding, True,
        "Model seeder jobs are not ready: " + Join(UnfinishedNames(listed, false), ", ") + ".")], env, kind);
  }

  /** Exactly then it makes ImageBuilding Unknown, since the same time; otherwise it leaves it alone. */
  lemma ModelsTimer(cfg: Config, w: World, env: Env)
    requires Stamped(w) && SeedsModels(w.req.content)
    ensures var w' := EnsureModelsExist(cfg, w, w.req, env).w;
            if ModelsReset(cfg, w, env) then ResetOf(BuildingCondition(w), BuildingCondition(w'))
            else BuildingCondition(w') == BuildingCondition(w)
  {
    hide Write, SeedModels, SeededMessage, Seeders, DecodedTag, SeedsModels, PruneResets, Tags, WriterSucceeds;
    var s := Write(w, ModelsNotReady, SetConditions([NotReady]), env);
    WriterOutcome(w, ModelsNotReady, SetConditions([NotReady]), env);
    SeedersSame(cfg, w, s.w);
    SeedModelsTimer(cfg, w, w.req, env);
    if s.ok {
      SeedModelsTimer(cfg, s.w, s.br, env);
    }
  }

  /**
   An image phase on the empty object resets the conditions: it gets to its job step, where every
   listed job is of the wrong mode and so stale, and the first one can be deleted.
   */
  predicate StrayPhaseResets(cfg: Config, w: World, env: Env)
  {
    && !cfg.hasCredentials && !env.fails(GetImageInfo) && StrayImage(cfg).Some?
    && !RegistryReports(w, w.req.content, StrayImage(cfg).value) && ChecksImage(env)
    && !env.fails(ListBuilders) && Builders(cfg, w, false) != []
    && !env.fails(DeleteJob(Builders(cfg, w, false)[0].id)) && ResetStored(env, BuilderStale)
  }

  lemma StrayPhaseSame(cfg: Config, w: World, w1: World, env: Env)
    requires Builders(cfg, w1, false) == Builders(cfg, w, false)
    requires w1.registry == w.registry && w1.req.content == w.req.content
    ensures StrayPhaseResets(cfg, w1, env) == StrayPhaseResets(cfg, w, env)
  {
    hide BuilderSelector, List, ChecksImage, ResetStored, BentoImageName;
  }

  /** The phases of a pass store a reset before the job that is being tracked is looked at. */
  predicate PhasesReset(cfg: Config, w: World, env: Env)
  {
    ModelsReset(cfg, w, env) || (Loses(cfg, w, env) && StrayPhaseResets(cfg, w, env))
  }

  /** The pass stores a reset. */
  predicate PassResets(cfg: Config, w: World, env: Env)
  {
    match Entry(w, env)
    case None => false
    case Some(w1) => PhasesReset(cfg, w1, env)
  }

  /** The models phase has work to do and lists a seeder job of another hash. */
  predicate StaleSeeder(cfg: Config, w: World)
  {
    && SeedsModels(w.req.content) && !ShortCircuits(cfg, w)
    && exists j <- Seeders(cfg, w) :: j.hash != HashOf(w.req.content)
  }

  lemma {:induction false} QuietPrune(listed: seq<Job>, hash: Hash, tags: seq<string>, env: Env)
    requires Quiet(env)
    ensures PruneResets(listed, hash, tags, env) <==> exists j <- listed :: j.hash != hash
  {
    hide DecodedTag, ResetStored, Quiet;
    if listed != [] {
      QuietCalls(env);
      QuietPrune(listed[1..], hash, tags, env);
      QuietStores(env, SeederStale(listed[0].id));
      assert listed == [listed[0]] + listed[1..];
    }
  }

  lemma QuietStores(env: Env, site: Site)
    requires Quiet(env)
    ensures ResetStored(env, site)
  {
    assert SwapsAt(env, site, 0) by {
      assert Undisturbed(env, site);
    }
  }
}
