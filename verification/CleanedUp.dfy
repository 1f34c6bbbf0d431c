/** What clean-up leaves: the pass that announces a seeded Bento takes its seeder jobs and claims away. */
module CleanedUp {
  import opened Conditions
  import opened Cluster
  import opened Naming
  import opened StatusWriter
  import opened ImagePhase
  import opened ModelsPhase
  import opened Reconcile
  import opened Listing
  import opened JobFrames
  import opened Runs
  import opened BuilderJobs
  import opened Convergence
  import opened Availability
  import opened SeederJobs
  import opened CleanUpIsFinal
  import opened VolumeClaims
  import opened Outcomes

  /** The seeder jobs of the request's own models carry the labels that they are created with. */
  predicate Labelled(cfg: Config, w: World)
  {
    forall j <- Seeders(cfg, w) :: DecodedTag(j.labels) in Tags(w.req.content.spec.models) ==>
      Selects(SeederLabels(cfg, w.req.content, DecodedTag(j.labels)), j.labels)
  }

  // The clean-up itself.

  lemma {:induction false} QuietDeletesExactly(w: World, surplus: seq<Job>, env: Env)
    requires Quiet(env)
    ensures forall j :: j in DeleteEach(w, surplus, env).0.jobs <==> j in w.jobs && forall d <- surplus :: d.id != j.id
    decreases |surplus|
  {
    hide Quiet;
    QuietCalls(env);
    if surplus != [] {
      assert surplus == [surplus[0]] + surplus[1..];
      QuietDeletesExactly(w.(jobs := Without(w.jobs, surplus[0].id)), surplus[1..], env);
    }
  }

  /** The claims of the models from position i on. */
  function ClaimNames(cfg: Config, namespace: string, c: Content, models: seq<Model>, i: nat): set<string>
  {
    set k | i <= k < |models| :: PvcName(cfg, namespace, c, models[k].tag)
  }

  lemma QuietCleanOne(cfg: Config, w: World, br: Request, tag: string, i: nat, env: Env)
    requires Quiet(env) && Tidy(w)
    ensures var r := CleanedOne(cfg, w, br, tag, i, env);
            && Tidy(r) && r.pvcs == w.pvcs - {PvcName(cfg, br.namespace, br.content, tag)}
            && forall j :: j in r.jobs <==> j in w.jobs && !Selects(SeederLabels(cfg, br.content, tag), j.labels)
  {
    hide Tidy, SeederLabels, PvcName, Selects, Quiet, DeleteEach;
    QuietCalls(env);
    var labels := SeederLabels(cfg, br.content, tag);
    var doomed := List(w.jobs, labels);
    var w1 := DeleteEach(w, doomed, env).0;
    QuietDeletesExactly(w, doomed, env);
    TidyAfterDeletes(w, doomed, env);
    forall j <- w.jobs ensures (forall d <- doomed :: d.id != j.id) <==> !Selects(labels, j.labels) {
      OnlyItself(w, doomed, j);
    }
    TidySame(w1, CleanedOne(cfg, w, br, tag, i, env));
  }

  lemma {:induction false} QuietCleanUp(cfg: Config, w: World, br: Request, models: seq<Model>, i: nat, env: Env)
    requires Quiet(env) && Tidy(w) && i <= |models|
    ensures var r := CleanUp(cfg, w, br, models, i, env);
            && r.pvcs == w.pvcs - ClaimNames(cfg, br.namespace, br.content, models, i)
            && forall j :: j in r.jobs <==> j in w.jobs && forall k :: i <= k < |models| ==>
                 !Selects(SeederLabels(cfg, br.content, models[k].tag), j.labels)
    decreases |models| - i
  {
    hide Tidy, SeederLabels, PvcName, Selects, Quiet, CleanedOne;
    if i < |models| {
      var tag := models[i].tag;
      var w1 := CleanedOne(cfg, w, br, tag, i, env);
      QuietCleanOne(cfg, w, br, tag, i, env);
      OneByOne(cfg, w, br, models, i, env);
      QuietCleanUp(cfg, w1, br, models, i + 1, env);
      assert ClaimNames(cfg, br.namespace, br.content, models, i)
          == {PvcName(cfg, br.namespace, br.content, tag)} + ClaimNames(cfg, br.namespace, br.content, models, i + 1);
    }
  }

  lemma OneByOne(cfg: Config, w: World, br: Request, models: seq<Model>, i: nat, env: Env)
    requires i < |models|
    ensures CleanUp(cfg, w, br, models, i, env)
         == CleanUp(cfg, CleanedOne(cfg, w, br, models[i].tag, i, env), br, models, i + 1, env)
  {
    hide SeederLabels, PvcName, DeleteEach, List;
  }

  lemma OnlyItself(w: World, listed: seq<Job>, j: Job)
    requires Tidy(w) && j in w.jobs && forall d <- listed :: d in w.jobs
    ensures (exists d <- listed :: d.id == j.id) <==> j in listed
  {
    hide Tidy;
    forall d <- listed ensures d.id == j.id ==> d == j {
      SameIdSameJob(w, d, j);
    }
  }

  // The phases before it.

  lemma {:induction false} NothingToSeed(cfg: Config, w: World, br: Request, models: seq<Model>, i: nat, seen: set<string>, env: Env)
    requires i <= |models| && forall m <- models :: m.tag in seen
    ensures SeedEach(cfg, w, br, models, i, seen, env) == Seeded(w, Done)
    decreases |models| - i
  {
    hide SeedOne;
    if i < |models| {
      assert models[i] in models;
      NothingToSeed(cfg, w, br, models, i + 1, seen, env);
    }
  }

  lemma DoneSeedsNothing(cfg: Config, w: World, br: Request, env: Env)
    requires Quiet(env) && Tidy(w) && br == w.req && SeedersDone(cfg, w)
    ensures var r := SeedModels(cfg, w, br, env);
            r.w.pvcs == w.pvcs && (forall j <- r.w.jobs :: j in w.jobs) && Seeders(cfg, r.w) == CurrentSeeders(cfg, w)
  {
    hide Prune, SeedEach, ReportSeeding, SeederSelector, Kept, Tidy, List, Quiet, Completed, DecodedTag;
    QuietCalls(env);
    var models := br.content.spec.models;
    var listed := List(w.jobs, SeederSelector(cfg));
    var hash := HashOf(br.content);
    var p := Prune(w, br, listed, hash, Tags(models), {}, env);
    QuietPrunes(w, br, listed, hash, Tags(models), {}, env);
    assert [] + listed == listed;
    TidyUnique(w);
    PruneLists(cfg, w, br, [], listed, hash, Tags(models), {}, env);
    var kept := Kept(listed, hash, Tags(models));
    assert [] + kept == kept;
    SelectedSeeders(cfg, w);
    PruneKeepsBuilders(cfg, w, br, listed, hash, Tags(models), {}, env, true);
    forall m <- models ensures m.tag in p.seen {
      TagListed(models, m);
    }
    NothingToSeed(cfg, p.w, p.br, models, 0, p.seen, env);
    SeedersSame(cfg, p.w, SeedModels(cfg, w, br, env).w);
  }

  /** A models phase that succeeds without seeding makes nothing; it drops what is not current when it runs its jobs. */
  lemma QuietModelsKeep(cfg: Config, w: World, env: Env)
    requires Quiet(env) && Tidy(w)
    ensures var r := EnsureModelsExist(cfg, w, w.req, env);
            r.present ==>
              && r.w.pvcs == w.pvcs && (forall j <- r.w.jobs :: j in w.jobs)
              && Seeders(cfg, r.w) == if ShortCircuits(cfg, w) then Seeders(cfg, w) else CurrentSeeders(cfg, w)
  {
    hide Write, SeedModels, SeededMessage, SeedersDone, Tidy, Quiet, CurrentSeeders, Seeders, SeededExactly, ReportsFailure;
    QuietModelsPhase(cfg, w, env);
    var s := Write(w, ModelsNotReady, SetConditions([NotReady]), env);
    QuietOk(w, ModelsNotReady, SetConditions([NotReady]), env);
    TidySame(w, s.w);
    CurrentSame(cfg, w, s.w);
    if EnsureModelsExist(cfg, w, w.req, env).present && !ShortCircuits(cfg, w) {
      DoneSeedsNothing(cfg, w, w.req, env);
      DoneSeedsNothing(cfg, s.w, s.br, env);
    }
  }

  lemma CurrentSame(cfg: Config, w: World, w1: World)
    requires w1.jobs == w.jobs && w1.req.content == w.req.content
    ensures CurrentSeeders(cfg, w1) == CurrentSeeders(cfg, w) && Seeders(cfg, w1) == Seeders(cfg, w)
    ensures SeedersDone(cfg, w1) == SeedersDone(cfg, w)
  {
    hide SucceededTags, Kept;
  }

  /** All own builder jobs stay, or the first one alone. */
  predicate FirstStays(before: seq<Job>, after: seq<Job>)
  {
    after == before || (before != [] && after == before[..1])
  }

  /** What an image phase that finds the image may do to the builder jobs: drop surplus jobs of its own mode. */
  predicate OnlySurplusGoes(cfg: Config, w: World, w': World)
  {
    && FirstStays(OwnBuilders(cfg, w), OwnBuilders(cfg, w'))
    && Builders(cfg, w', !IsSeparateModels(w.req.content)) == Builders(cfg, w, !IsSeparateModels(w.req.content))
  }

  lemma FoundKeepsBuilt(cfg: Config, w: World, br: Request, image: string, env: Env)
    requires Quiet(env) && Tidy(w) && SameRequest(br, w.req)
    ensures var r := EnsureBuilt(cfg, w, br, IsSeparateModels(br.content), image, env);
            r.present ==> OnlySurplusGoes(cfg, w, r.w) && forall j <- r.w.jobs :: j in w.jobs
  {
    hide BuilderSelector, NewBuilderJob, TrackBuild, DropStale, IsSeparateModels, List, Quiet, Tidy, DeleteEach;
    ListedIs(cfg, w, br);
    var listed := OwnBuilders(cfg, w);
    var selector := BuilderSelector(cfg, IsSeparateModels(w.req.content));
    if listed != [] {
      EnsureBuiltLists(cfg, w, br, IsSeparateModels(br.content), image, env, !IsSeparateModels(br.content));
      var w1 := DeleteEach(w, listed[1..], env).0;
      TidyUnique(w);
      TidyListed(w, selector);
      AllDeleted(w, listed[1..], env);
      DeleteEachLists(w, listed[1..], env, selector);
      WithoutTail(listed);
      SameBuilders(cfg, w1, TrackBuild(w1, listed[0], image, env).w);
    }
  }

  lemma FoundKeepsChecked(cfg: Config, w: World, image: string, env: Env)
    requires Quiet(env) && Tidy(w)
    ensures var r := CheckImage(cfg, w, IsSeparateModels(w.req.content), image, env);
            r.present ==> OnlySurplusGoes(cfg, w, r.w) && forall j <- r.w.jobs :: j in w.jobs
  {
    hide Write, EnsureBuilt, Builders, Quiet, RegistryReports, Reflects, SameOwn, IsSeparateModels, CheckedConditions, Tidy;
    var s := Write(w, CheckingImage, SetConditions([
      Report(ImageExistsChecked, Unknown, image),
      Report(BentoAvailable, Unknown, "Checking image exists")]), env);
    var found := RegistryReports(s.w, s.br.content, image);
    var t := Write(s.w, CheckedImage, SetConditions(CheckedConditions(found, image)), env);
    TidySame(w, t.w);
    SameBuilders(cfg, w, s.w);
    SameBuilders(cfg, w, t.w);
    SameBuilt(cfg, w, s.w);
    SameBuilt(cfg, w, t.w);
    if t.ok {
      FoundKeepsBuilt(cfg, t.w, t.br, image, env);
    }
  }

  lemma SameBuilt(cfg: Config, w: World, w1: World)
    requires w1.jobs == w.jobs
    ensures forall b: bool :: Builders(cfg, w1, b) == Builders(cfg, w, b)
  {
  }

  lemma FoundKeeps(cfg: Config, w: World, env: Env)
    requires Quiet(env) && Tidy(w)
    ensures var r := EnsureImageExists(cfg, w, w.req, env);
            && Seeders(cfg, r.w) == Seeders(cfg, w) && Tidy(r.w)
            && (r.present ==> OnlySurplusGoes(cfg, w, r.w) && forall j <- r.w.jobs :: j in w.jobs)
  {
    hide CheckImage, EnsureBuilt, BentoImageName, Quiet, Builders, IsSeparateModels, SeederSelector, List, Tidy, SecretFits;
    ImagePhaseKeepsSeeders(cfg, w, w.req, env);
    var name := BentoImageName(cfg, w.req.namespace, w.req.content, false);
    if name.Some? {
      FoundKeepsBuilt(cfg, w, w.req, name.value, env);
      FoundKeepsChecked(cfg, w, name.value, env);
    }
  }

  // Whole passes.

  /**
   What an announcement leaves of a store: no claim of the request's models, no seeder job of theirs,
   nothing new, of the other seeder jobs all those that the models phase kept, and of the own builder
   jobs all, or the first.
   */
  ghost predicate CleansExactly(cfg: Config, w: World, w': World)
  {
    var c := w.req.content;
    && w'.pvcs == w.pvcs - (set t <- Tags(c.spec.models) :: PvcName(cfg, w.req.namespace, c, t))
    && (forall j <- w'.jobs :: j in w.jobs)
    && (forall j :: j in Seeders(cfg, w') <==>
          j in Seeders(cfg, w) && ShortCircuits(cfg, w) && DecodedTag(j.labels) !in Tags(c.spec.models))
    && OnlySurplusGoes(cfg, w, w')
  }

  lemma FinishCleans(cfg: Config, models: ModelsResult, image: ImageResult, env: Env)
    requires Quiet(env) && Tidy(image.w) && NotAvailable(image.w) && SameRequest(image.br, image.w.req)
    requires image.present && image.end == Done && SeedsModels(image.w.req.content)
    requires WellTagged(image.w.req.content) && Labelled(cfg, image.w)
    ensures var r := Finish(cfg, true, models, image, env).w;
            var c := image.w.req.content;
            !NotAvailable(r) ==>
              && r.pvcs == image.w.pvcs - (set t <- Tags(c.spec.models) :: PvcName(cfg, image.w.req.namespace, c, t))
              && (forall j <- r.jobs :: j in image.w.jobs)
              && (forall j :: j in Seeders(cfg, r) <==> j in Seeders(cfg, image.w) && DecodedTag(j.labels) !in Tags(c.spec.models))
              && forall b: bool :: Builders(cfg, r, b) == Builders(cfg, image.w, b)
  {
    hide Write, CleanUp, Publish, Quiet, Tidy, Seeders, DecodedTag, PvcName, Builders, SeederLabels, Labelled, WellTagged;
    var c := image.w.req.content;
    var models_ := c.spec.models;
    var r := Finish(cfg, true, models, image, env).w;
    if !NotAvailable(r) {
      var w := CleanUp(cfg, image.w, image.br, models_, 0, env);
      assert r.jobs == w.jobs && r.pvcs == w.pvcs;
      QuietCleanUp(cfg, image.w, image.br, models_, 0, env);
      ClaimNamesOfTags(cfg, image.w.req.namespace, c);
      CleanUpKeepsBuilders(cfg, image.w, image.br, models_, 0, env, true);
      CleanUpKeepsBuilders(cfg, image.w, image.br, models_, 0, env, false);
      SeedersSame(cfg, w, r);
      SurvivingSeeders(cfg, image.w, r);
      SameLists(cfg, image.w, w, r);
    }
  }

  lemma SameLists(cfg: Config, w: World, w1: World, r: World)
    requires List(w1.jobs, BuilderSelector(cfg, true)) == List(w.jobs, BuilderSelector(cfg, true))
    requires List(w1.jobs, BuilderSelector(cfg, false)) == List(w.jobs, BuilderSelector(cfg, false))
    requires r.jobs == w1.jobs
    ensures forall b: bool :: Builders(cfg, r, b) == Builders(cfg, w, b)
  {
    forall b: bool ensures Builders(cfg, r, b) == Builders(cfg, w, b) {
    }
  }

  lemma ClaimNamesOfTags(cfg: Config, namespace: string, c: Content)
    ensures ClaimNames(cfg, namespace, c, c.spec.models, 0)
         == set t <- Tags(c.spec.models) :: PvcName(cfg, namespace, c, t)
  {
    hide PvcName;
    var models := c.spec.models;
    assert forall k :: 0 <= k < |models| ==> Tags(models)[k] in Tags(models);
  }

  /** The labels of the request's models select exactly the seeder jobs of their tags. */
  lemma SurvivingSeeders(cfg: Config, w: World, r: World)
    requires WellTagged(w.req.content) && Labelled(cfg, w)
    requires forall j :: j in r.jobs <==> j in w.jobs && forall k :: 0 <= k < |w.req.content.spec.models| ==>
               !Selects(SeederLabels(cfg, w.req.content, w.req.content.spec.models[k].tag), j.labels)
    ensures forall j :: j in Seeders(cfg, r) <==>
              j in Seeders(cfg, w) && DecodedTag(j.labels) !in Tags(w.req.content.spec.models)
  {
    hide SeederLabels, Selects, SeederSelector, DecodedTag;
    var c := w.req.content;
    var models := c.spec.models;
    forall j <- w.jobs | Selects(SeederSelector(cfg), j.labels)
      ensures (exists k :: 0 <= k < |models| && Selects(SeederLabels(cfg, c, models[k].tag), j.labels)) <==>
              DecodedTag(j.labels) in Tags(models)
    {
      if k :| 0 <= k < |models| && Selects(SeederLabels(cfg, c, models[k].tag), j.labels) {
        assert models[k] in models;
        TagOfSelected(cfg, j.labels, c, models[k].tag);
        assert Tags(models)[k] == models[k].tag;
      }
      if DecodedTag(j.labels) in Tags(models) {
        assert j in Seeders(cfg, w);
        var k :| 0 <= k < |models| && Tags(models)[k] == DecodedTag(j.labels);
        assert models[k].tag == DecodedTag(j.labels);
      }
    }
  }

  lemma LabelledFewer(cfg: Config, w: World, w1: World)
    requires Labelled(cfg, w) && w1.req.content == w.req.content && forall j <- Seeders(cfg, w1) :: j in Seeders(cfg, w)
    ensures Labelled(cfg, w1)
  {
    hide SeederLabels, Selects, SeederSelector, DecodedTag;
  }

  lemma PhasesClean(cfg: Config, w: World, env: Env)
    requires Quiet(env) && Tidy(w) && NotAvailable(w) && SeedsModels(w.req.content)
    requires WellTagged(w.req.content) && Labelled(cfg, w)
    ensures var r := Phases(cfg, w, w.req, env).w;
            !NotAvailable(r) ==> CleansExactly(cfg, w, r)
  {
    hide EnsureModelsExist, EnsureImageExists, Finish, Quiet, Tidy, NotAvailable, Labelled, WellTagged, Seeders, Builders;
    hide ShortCircuits, DecodedTag, PvcName, CurrentSeeders, SeedingEnds, FirstStays, IsSeparateModels;
    var c := w.req.content;
    var models := EnsureModelsExist(cfg, w, w.req, env);
    QuietModelsPhase(cfg, w, env);
    QuietModelsKeep(cfg, w, env);
    ModelsPhaseAnnouncesNothing(cfg, w, env);
    ModelsPhaseKeepsBuilders(cfg, w, w.req, env, true);
    ModelsPhaseKeepsBuilders(cfg, w, w.req, env, false);
    SameLists(cfg, w, models.w, models.w);
    var image := EnsureImageExists(cfg, models.w, models.br, env);
    FoundKeeps(cfg, models.w, env);
    ImagePhaseAnnouncesNothing(cfg, models.w, models.br, env);
    ImagePhaseInSync(cfg, models.w, models.br, env);
    var r := Phases(cfg, w, w.req, env).w;
    if !NotAvailable(r) {
      AnnouncingFinish(cfg, models, image, env);
      CurrentAmong(cfg, w);
      LabelledFewer(cfg, w, models.w);
      LabelledFewer(cfg, models.w, image.w);
      FinishCleans(cfg, models, image, env);
    }
  }

  /** The current jobs are listed ones whose tags are the request's. */
  lemma CurrentAmong(cfg: Config, w: World)
    ensures forall j <- CurrentSeeders(cfg, w) :: j in Seeders(cfg, w) && DecodedTag(j.labels) in Tags(w.req.content.spec.models)
  {
    hide Seeders, DecodedTag;
  }

  lemma AnnouncingFinish(cfg: Config, models: ModelsResult, image: ImageResult, env: Env)
    requires NotAvailable(image.w) && !NotAvailable(Finish(cfg, true, models, image, env).w)
    ensures image.present && image.end == Done && !models.end.Err?
    ensures !IsStoredInS3(image.br.content) ==> models.present
  {
    hide Write, CleanUp, Publish, IsStoredInS3;
  }

  /**
   The undisturbed pass that announces a Bento whose models are seeded separately leaves no seeder
   job and no claim of any of its models. It makes nothing, touches no claim of other models, no seeder
   job of theirs that the models phase has kept, and no builder job but surplus ones.
   */
  lemma AnnouncementCleansUp(cfg: Config, w: World, env: Env)
    requires Quiet(env) && Tidy(w) && Distinct(w.req.conditions) && NotAvailable(w)
    requires SeedsModels(w.req.content) && WellTagged(w.req.content) && Labelled(cfg, w)
    ensures !NotAvailable(Pass(cfg, w, env)) ==> CleansExactly(cfg, w, Pass(cfg, w, env))
  {
    hide Pass, Phases, Quiet, Tidy, NotAvailable, Labelled, WellTagged, Distinct, Entry, Concluded, SeedsModels;
    hide CleansExactly;
    NotAvailableSays(w);
    var ran, w1 := Enter(cfg, w, env);
    SameStore(w, w1);
    TidySame(w, w1);
    UnknownIsNotAvailable(w1);
    SeedersSame(cfg, w, w1);
    LabelledFewer(cfg, w, w1);
    PhasesClean(cfg, w1, env);
    var r := Phases(cfg, w1, w1.req, env);
    ConcludedKeeps(cfg, r, env);
    CleansSame(cfg, w, w1, r.w, Pass(cfg, w, env));
  }

  lemma ConcludedKeeps(cfg: Config, r: BodyResult, env: Env)
    ensures var w' := Concluded(r, env);
            && w'.jobs == r.w.jobs && w'.pvcs == r.w.pvcs && w'.req.content == r.w.req.content
            && (NotAvailable(r.w) ==> NotAvailable(w'))
  {
    hide Write;
  }

  lemma CleansSame(cfg: Config, w: World, w1: World, r: World, w': World)
    requires Entered(w, w1) && w'.jobs == r.jobs && w'.pvcs == r.pvcs && w'.req.content == r.req.content
    ensures CleansExactly(cfg, w1, r) ==> CleansExactly(cfg, w, w')
  {
    hide SeederSelector, List, BuilderSelector, DecodedTag, PvcName, SeededMessage;
    SameStore(w, w1);
    assert Holds(w1, ModelsExists, SeededMessage(cfg, w.req.content.spec.models))
       <==> Holds(w, ModelsExists, SeededMessage(cfg, w.req.content.spec.models));
  }
}
