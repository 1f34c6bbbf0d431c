/** What each phase of a pass does to the stored jobs, whatever fails along the way. */
module JobFrames {
  import opened Basics
  import opened Conditions
  import opened Cluster
  import opened Naming
  import opened StatusWriter
  import opened ImagePhase
  import opened ModelsPhase
  import opened Reconcile
  import opened Listing

  predicate SeederOrBuilder(labels: Labels)
  {
    !(ImageBuilderLabel in labels && ModelSeederLabel in labels)
  }

  /** The name has a fixed prefix and the job's own unique part; a builder job's mode is that of its hash. */
  predicate Generated(j: Job)
  {
    && (|| j.name == "yatai-model-seeder-" + Digits(j.id)
        || j.name == "yatai-bento-image-builder-" + Digits(j.id))
    && (ImageBuilderLabel in j.labels ==> ModeMatches(j))
  }

  predicate ModeMatches(j: Job)
  {
    Lookup(j.labels, SeparateModelsLabel) == BoolLabel(IsSeparateModels(j.hash.content))
  }

  /** The store as the controller keeps it: unique names, none from the future, one role per job. */
  ghost predicate Tidy(w: World)
  {
    && UniqueIds(w.jobs)
    && (forall j <- w.jobs :: j.id < w.nextId && SeederOrBuilder(j.labels) && Generated(j))
  }

  lemma TidyAfterDelete(w: World, id: nat)
    requires Tidy(w)
    ensures Tidy(w.(jobs := Without(w.jobs, id)))
  {
    WithoutKeepsUnique(w.jobs, id);
  }

  lemma TidyAfterCreate(w: World, job: Job)
    requires Tidy(w) && job.id == w.nextId && SeederOrBuilder(job.labels) && Generated(job)
    ensures Tidy(w.(jobs := w.jobs + [job], nextId := w.nextId + 1))
  {
  }

  /** Builder and seeder selectors never pick the same job, nor do the two builder selectors. */
  lemma SelectorsApart(cfg: Config, labels: Labels, separateModels: bool)
    ensures Selects(BuilderSelector(cfg, separateModels), labels) ==> ImageBuilderLabel in labels
    ensures Selects(BuilderSelector(cfg, separateModels), labels) ==>
              !Selects(BuilderSelector(cfg, !separateModels), labels)
    ensures Selects(SeederSelector(cfg), labels) ==> ModelSeederLabel in labels
  {
    if Selects(BuilderSelector(cfg, separateModels), labels) {
      assert SeparateModelsLabel in BuilderSelector(cfg, separateModels);
      assert ImageBuilderLabel in BuilderSelector(cfg, separateModels);
      assert labels[SeparateModelsLabel] == BoolLabel(separateModels);
      assert SeparateModelsLabel in BuilderSelector(cfg, !separateModels);
      assert BoolLabel(true)[0] != BoolLabel(false)[0];
    }
    if Selects(SeederSelector(cfg), labels) {
      assert ModelSeederLabel in SeederSelector(cfg);
    }
  }

  /** What a builder selector lists was generated from content of that mode. */
  lemma ModeOfListed(cfg: Config, w: World, separateModels: bool)
    requires Tidy(w)
    ensures forall j <- List(w.jobs, BuilderSelector(cfg, separateModels)) ::
              IsSeparateModels(j.hash.content) == separateModels
  {
    hide IsSeparateModels;
    var selector := BuilderSelector(cfg, separateModels);
    forall j <- List(w.jobs, selector) ensures IsSeparateModels(j.hash.content) == separateModels {
      assert SeparateModelsLabel in selector && ImageBuilderLabel in selector;
      assert BoolLabel(true)[0] != BoolLabel(false)[0];
    }
  }

  /** A new builder job is found by the selector that will look for it, and by no other. */
  lemma NewBuilderIsListed(cfg: Config, c: Content, image: string, id: nat)
    ensures var labels := NewBuilderJob(cfg, c, image, id).labels;
            && Selects(BuilderSelector(cfg, IsSeparateModels(c)), labels)
            && !Selects(BuilderSelector(cfg, !IsSeparateModels(c)), labels)
            && !Selects(SeederSelector(cfg), labels)
            && SeederOrBuilder(labels)
    ensures Generated(NewBuilderJob(cfg, c, image, id))
  {
    SelectorsApart(cfg, BuilderLabels(cfg, c), IsSeparateModels(c));
  }

  /** A new seeder job is found by the seeder selector, and by no builder selector. */
  lemma NewSeederIsListed(cfg: Config, c: Content, tag: string, id: nat, separateModels: bool)
    ensures var labels := NewSeederJob(cfg, c, tag, id).labels;
            && Selects(SeederSelector(cfg), labels)
            && !Selects(BuilderSelector(cfg, separateModels), labels)
            && SeederOrBuilder(labels)
    ensures Generated(NewSeederJob(cfg, c, tag, id))
  {
    SelectorsApart(cfg, SeederLabels(cfg, c, tag), separateModels);
  }

  /** A newly generated name is not taken. */
  lemma FreshName(w: World, j: Job)
    requires Tidy(w) && j in w.jobs
    ensures j.name != "yatai-model-seeder-" + Digits(w.nextId)
  {
    var seeder, builder := "yatai-model-seeder-", "yatai-bento-image-builder-";
    assert (seeder + Digits(w.nextId))[6] == 'm' && (builder + Digits(j.id))[6] == 'b';
    if j.name == seeder + Digits(w.nextId) {
      SamePrefix(seeder, Digits(j.id), Digits(w.nextId));
      DigitsInjective(j.id, w.nextId);
    }
  }

  // The models phase and the clean-up leave the builder jobs alone.

  lemma {:induction false} PruneKeepsBuilders(
      cfg: Config, w: World, br: Request, listed: seq<Job>, hash: Hash, tags: seq<string>, seen: set<string>, env: Env,
      separateModels: bool)
    requires Tidy(w) && Agree(listed, w.jobs)
    requires forall j <- listed :: Selects(SeederSelector(cfg), j.labels) && SeederOrBuilder(j.labels)
    ensures var r := Prune(w, br, listed, hash, tags, seen, env);
            && Tidy(r.w)
            && (forall j <- r.w.jobs :: j in w.jobs)
            && List(r.w.jobs, BuilderSelector(cfg, separateModels)) == List(w.jobs, BuilderSelector(cfg, separateModels))
    decreases |listed|
  {
    if listed != [] {
      var job := listed[0];
      var tag := DecodedTag(job.labels);
      if job.hash == hash && tag in tags {
        PruneKeepsBuilders(cfg, w, br, listed[1..], hash, tags, seen + {tag}, env, separateModels);
      } else if !env.fails(DeleteJob(job.id)) {
        var w1 := w.(jobs := Without(w.jobs, job.id));
        TidyAfterDelete(w, job.id);
        SelectorsApart(cfg, job.labels, separateModels);
        DeleteUnselected(w.jobs, job, BuilderSelector(cfg, separateModels));
        if job.hash == hash {
          PruneKeepsBuilders(cfg, w1, br, listed[1..], hash, tags, seen, env, separateModels);
        } else {
          var s := Write(w1, SeederStale(job.id), ToUnknown("Bento request hash changed, recreating the jobs"), env);
          if s.ok {
            PruneKeepsBuilders(cfg, s.w, s.br, listed[1..], hash, tags, seen, env, separateModels);
          }
        }
      }
    }
  }

  lemma {:induction false} SeedEachKeepsBuilders(
      cfg: Config, w: World, br: Request, models: seq<Model>, i: nat, seen: set<string>, env: Env, separateModels: bool)
    requires Tidy(w) && i <= |models|
    ensures var r := SeedEach(cfg, w, br, models, i, seen, env);
            && Tidy(r.w)
            && List(r.w.jobs, BuilderSelector(cfg, separateModels)) == List(w.jobs, BuilderSelector(cfg, separateModels))
    decreases |models| - i
  {
    if i == |models| {
    } else if models[i].tag in seen {
      SeedEachKeepsBuilders(cfg, w, br, models, i + 1, seen, env, separateModels);
    } else {
      var s := SeedOne(cfg, w, br, models[i].tag, i, env);
      SeedOneKeepsBuilders(cfg, w, br, models[i].tag, i, env, separateModels);
      if !s.end.Err? {
        SeedEachKeepsBuilders(cfg, s.w, br, models, i + 1, seen, env, separateModels);
      }
    }
  }

  lemma SeedOneKeepsBuilders(cfg: Config, w: World, br: Request, tag: string, i: nat, env: Env, separateModels: bool)
    requires Tidy(w)
    ensures var r := SeedOne(cfg, w, br, tag, i, env);
            && Tidy(r.w)
            && List(r.w.jobs, BuilderSelector(cfg, separateModels)) == List(w.jobs, BuilderSelector(cfg, separateModels))
  {
    var r := SeedOne(cfg, w, br, tag, i, env);
    SeederCreated(cfg, w, r.w, br.content, tag, separateModels);
  }

  lemma SeederCreated(cfg: Config, w: World, w': World, c: Content, tag: string, separateModels: bool)
    requires Tidy(w) && w.nextId <= w'.nextId
    requires w'.jobs == w.jobs
             || (w'.jobs == w.jobs + [NewSeederJob(cfg, c, tag, w.nextId)] && w'.nextId == w.nextId + 1)
    ensures Tidy(w')
    ensures List(w'.jobs, BuilderSelector(cfg, separateModels)) == List(w.jobs, BuilderSelector(cfg, separateModels))
  {
    var job := NewSeederJob(cfg, c, tag, w.nextId);
    NewSeederIsListed(cfg, c, tag, w.nextId, separateModels);
    ListCreated(w.jobs, job, BuilderSelector(cfg, separateModels));
    TidyAfterCreate(w, job);
  }

  lemma ModelsPhaseKeepsBuilders(cfg: Config, w: World, br: Request, env: Env, separateModels: bool)
    requires Tidy(w)
    ensures var r := EnsureModelsExist(cfg, w, br, env);
            && Tidy(r.w)
            && List(r.w.jobs, BuilderSelector(cfg, separateModels)) == List(w.jobs, BuilderSelector(cfg, separateModels))
  {
    var known := Find(br.conditions, ModelsExists);
    if known.None? || known.value.status == Unknown {
      var s := Write(w, ModelsNotReady, SetConditions([NotReady]), env);
      SeedModelsKeepsBuilders(cfg, s.w, s.br, env, separateModels);
    } else {
      SeedModelsKeepsBuilders(cfg, w, br, env, separateModels);
    }
  }

  lemma SelectedSeeders(cfg: Config, w: World)
    requires Tidy(w)
    ensures forall j <- List(w.jobs, SeederSelector(cfg)) ::
              Selects(SeederSelector(cfg), j.labels) && SeederOrBuilder(j.labels)
    ensures Agree(List(w.jobs, SeederSelector(cfg)), w.jobs)
  {
    UniqueAgrees(w.jobs, SeederSelector(cfg));
  }

  lemma SeedModelsKeepsBuilders(cfg: Config, w: World, br: Request, env: Env, separateModels: bool)
    requires Tidy(w)
    ensures var r := SeedModels(cfg, w, br, env);
            && Tidy(r.w)
            && List(r.w.jobs, BuilderSelector(cfg, separateModels)) == List(w.jobs, BuilderSelector(cfg, separateModels))
  {
    hide ReportSeeding, SeederSelector, BuilderSelector, Prune, SeedEach, Tidy, UniqueIds, Selects, List, SeederOrBuilder;
    var models := br.content.spec.models;
    var listed := List(w.jobs, SeederSelector(cfg));
    SelectedSeeders(cfg, w);
    var p := Prune(w, br, listed, HashOf(br.content), Tags(models), {}, env);
    PruneKeepsBuilders(cfg, w, br, listed, HashOf(br.content), Tags(models), {}, env, separateModels);
    SeedEachKeepsBuilders(cfg, p.w, p.br, models, 0, p.seen, env, separateModels);
    var s := SeedEach(cfg, p.w, p.br, models, 0, p.seen, env);
    var t := ReportSeeding(cfg, s.w, p.br, models, List(s.w.jobs, SeederSelector(cfg)), env);
    if Tidy(s.w) {
      TidySame(s.w, t.w);
    }
  }

  lemma {:induction false} CleanUpKeepsBuilders(
      cfg: Config, w: World, br: Request, models: seq<Model>, i: nat, env: Env, separateModels: bool)
    requires Tidy(w) && i <= |models|
    ensures var r := CleanUp(cfg, w, br, models, i, env);
            && Tidy(r)
            && (forall j <- r.jobs :: j in w.jobs)
            && List(r.jobs, BuilderSelector(cfg, separateModels)) == List(w.jobs, BuilderSelector(cfg, separateModels))
    decreases |models| - i
  {
    if i < |models| {
      var tag := models[i].tag;
      var labels := SeederLabels(cfg, br.content, tag);
      var doomed := List(w.jobs, labels);
      var w1 := if env.fails(ListModelSeeders(i)) then w else DeleteEach(w, doomed, env).0;
      UniqueAgrees(w.jobs, labels);
      forall j <- doomed ensures !Selects(BuilderSelector(cfg, separateModels), j.labels) {
        assert ModelSeederLabel in labels;
        SelectorsApart(cfg, j.labels, separateModels);
      }
      DeleteEachUnselected(w, doomed, env, BuilderSelector(cfg, separateModels));
      DeleteEachLists(w, doomed, env, BuilderSelector(cfg, separateModels));
      var w2 := if env.fails(DeletePvc(i)) then w1
                else w1.(pvcs := w1.pvcs - {PvcName(cfg, br.namespace, br.content, tag)});
      CleanUpKeepsBuilders(cfg, w2, br, models, i + 1, env, separateModels);
    }
  }

  // The image phase leaves the seeder jobs alone, and the builder jobs of the other mode.

  lemma ListedApart(cfg: Config, w: World, own: Labels, selector: Labels, separateModels: bool)
    requires Tidy(w) && own == BuilderSelector(cfg, separateModels)
    requires selector == SeederSelector(cfg) || selector == BuilderSelector(cfg, !separateModels)
    ensures Agree(List(w.jobs, own), w.jobs)
    ensures forall j <- List(w.jobs, own) :: !Selects(selector, j.labels)
  {
    UniqueAgrees(w.jobs, own);
    forall j <- List(w.jobs, own) ensures !Selects(selector, j.labels) {
      SelectorsApart(cfg, j.labels, separateModels);
      assert SeederOrBuilder(j.labels);
    }
  }

  lemma TidyAfterDeletes(w: World, surplus: seq<Job>, env: Env)
    requires Tidy(w)
    ensures Tidy(DeleteEach(w, surplus, env).0)
  {
    DeleteEachLists(w, surplus, env, map[]);
  }

  /** The jobs the image phase may touch are those one builder selector lists, plus one new one. */
  lemma EnsureBuiltFrame(
      cfg: Config, w: World, br: Request, separateModels: bool, image: string, env: Env, selector: Labels)
    requires Tidy(w)
    requires selector == SeederSelector(cfg)
             || (&& selector == BuilderSelector(cfg, !separateModels)
                 && (separateModels == IsSeparateModels(br.content)
                     || env.fails(ListBuilders) || env.fails(GenerateBuilder) || env.fails(CreateBuilder)
                     || List(w.jobs, BuilderSelector(cfg, separateModels)) != []))
    ensures var r := EnsureBuilt(cfg, w, br, separateModels, image, env);
            Tidy(r.w) && List(r.w.jobs, selector) == List(w.jobs, selector)
  {
    hide BuilderSelector, SeederSelector, NewBuilderJob, TrackBuild, DropStale;
    hide Tidy, UniqueIds, List, Selects, DeleteEach;
    var own := BuilderSelector(cfg, separateModels);
    var listed := List(w.jobs, own);
    var stale := FirstStale(listed, HashOf(br.content));
    ListedApart(cfg, w, own, selector, separateModels);
    if env.fails(ListBuilders) {
    } else if stale < |listed| {
      TidyAfterDelete(w, listed[stale].id);
      DeleteUnselected(w.jobs, listed[stale], selector);
      var w1 := if env.fails(DeleteJob(listed[stale].id)) then w else w.(jobs := Without(w.jobs, listed[stale].id));
      TidySame(w1, DropStale(w, br, listed[stale], image, env).w);
    } else if listed != [] {
      DeleteEachUnselected(w, listed[1..], env, selector);
      TidyAfterDeletes(w, listed[1..], env);
      TidySame(DeleteEach(w, listed[1..], env).0, EnsureBuilt(cfg, w, br, separateModels, image, env).w);
    } else if env.fails(GenerateBuilder) || env.fails(CreateBuilder) {
      TidyLater(w);
    } else {
      BuilderCreated(cfg, w, br.content, image, selector, separateModels);
    }
  }

  lemma TidyLater(w: World)
    requires Tidy(w)
    ensures Tidy(w.(nextId := w.nextId + 1))
  {
  }

  lemma BuilderCreated(cfg: Config, w: World, c: Content, image: string, selector: Labels, separateModels: bool)
    requires Tidy(w)
    requires selector == SeederSelector(cfg)
             || (selector == BuilderSelector(cfg, !separateModels) && separateModels == IsSeparateModels(c))
    ensures var w1 := w.(jobs := w.jobs + [NewBuilderJob(cfg, c, image, w.nextId)], nextId := w.nextId + 1);
            Tidy(w1) && List(w1.jobs, selector) == List(w.jobs, selector)
  {
    var job := NewBuilderJob(cfg, c, image, w.nextId);
    NewBuilderIsListed(cfg, c, image, w.nextId);
    ListCreated(w.jobs, job, selector);
    TidyAfterCreate(w, job);
  }

  lemma CheckImageKeepsSeeders(cfg: Config, w: World, separateModels: bool, image: string, env: Env)
    requires Tidy(w)
    ensures var r := CheckImage(cfg, w, separateModels, image, env);
            Tidy(r.w) && List(r.w.jobs, SeederSelector(cfg)) == List(w.jobs, SeederSelector(cfg))
  {
    hide Write, EnsureBuilt, SeederSelector, List, UniqueIds, Reflects, SameOwn, RegistryReports, CheckedConditions;
    var s := Write(w, CheckingImage, SetConditions([
      Report(ImageExistsChecked, Unknown, image),
      Report(BentoAvailable, Unknown, "Checking image exists")]), env);
    var found := RegistryReports(s.w, s.br.content, image);
    var t := Write(s.w, CheckedImage, SetConditions(CheckedConditions(found, image)), env);
    TidySame(w, t.w);
    EnsureBuiltFrame(cfg, t.w, t.br, separateModels, image, env, SeederSelector(cfg));
  }

  lemma ImagePhaseKeepsSeeders(cfg: Config, w: World, br: Request, env: Env)
    requires Tidy(w)
    ensures var r := EnsureImageExists(cfg, w, br, env);
            Tidy(r.w) && List(r.w.jobs, SeederSelector(cfg)) == List(w.jobs, SeederSelector(cfg))
  {
    hide BentoImageName, EnsureBuilt, CheckImage, SeederSelector, List, UniqueIds, Tidy;
    var name := BentoImageName(cfg, br.namespace, br.content, false);
    if name.Some? {
      EnsureBuiltFrame(cfg, w, br, IsSeparateModels(br.content), name.value, env, SeederSelector(cfg));
      CheckImageKeepsSeeders(cfg, w, IsSeparateModels(br.content), name.value, env);
    }
  }

  lemma TidySame(w: World, w1: World)
    requires Tidy(w) && w1.jobs == w.jobs && w1.nextId == w.nextId
    ensures Tidy(w1)
  {
  }

  /** The first read of every status writer of the models phase succeeds. */
  ghost predicate ModelsPhaseReads(env: Env)
  {
    && !env.fails(Fetch(ModelsNotReady, 0))
    && (forall job: nat :: !env.fails(Fetch(SeederStale(job), 0)))
    && !env.fails(Fetch(ModelsFailed, 0))
    && !env.fails(Fetch(ModelsReady, 0))
    && !env.fails(Fetch(ModelsWaiting, 0))
  }

  /** Two objects with the same spec, labels and annotations, in the same namespace. */
  predicate SameRequest(a: Request, b: Request)
  {
    a.content == b.content && a.namespace == b.namespace
  }

  /** What a phase hands on is the stored request, or the empty object after a first read that failed. */
  ghost predicate HandsOn(br: Request, w: World, end: End, env: Env)
  {
    SameRequest(br, w.req) || (br == EmptyRequest && end.Err? && !ModelsPhaseReads(env))
  }

  /** The models phase hands on the stored request, even when it ends in an error, unless a first read fails. */
  lemma ModelsPhaseKeepsRequest(cfg: Config, w: World, br: Request, env: Env)
    requires SameRequest(br, w.req)
    ensures var r := EnsureModelsExist(cfg, w, br, env);
            HandsOn(r.br, w, r.end, env) && SameRequest(r.w.req, w.req)
  {
    hide Write, SeedModels, IsTrue, Find, SeededMessage, Reflects, SameOwn;
    var s := Write(w, ModelsNotReady, SetConditions([NotReady]), env);
    SeedModelsKeepsRequest(cfg, w, br, env);
    if s.ok {
      SeedModelsKeepsRequest(cfg, s.w, s.br, env);
    }
  }

  lemma SeedModelsKeepsRequest(cfg: Config, w: World, br: Request, env: Env)
    requires SameRequest(br, w.req)
    ensures HandsOn(SeedModels(cfg, w, br, env).br, w, SeedModels(cfg, w, br, env).end, env)
  {
    hide Prune, SeedEach, ReportSeeding, List, SeederSelector, Tags;
    var models := br.content.spec.models;
    var listed := List(w.jobs, SeederSelector(cfg));
    PruneKeepsRequest(w, br, listed, HashOf(br.content), Tags(models), {}, env);
    var p := Prune(w, br, listed, HashOf(br.content), Tags(models), {}, env);
    var s := SeedEach(cfg, p.w, p.br, models, 0, p.seen, env);
    if p.end.Err? {
      return;
    }
    ReportKeepsRequest(cfg, s.w, p.br, models, List(s.w.jobs, SeederSelector(cfg)), env);
  }

  lemma {:induction false} PruneKeepsRequest(
      w: World, br: Request, listed: seq<Job>, hash: Hash, tags: seq<string>, seen: set<string>, env: Env)
    requires SameRequest(br, w.req)
    ensures var r := Prune(w, br, listed, hash, tags, seen, env);
            HandsOn(r.br, w, r.end, env)
    decreases |listed|
  {
    hide Write, Reflects, SameOwn, DecodedTag;
    if listed != [] {
      var job := listed[0];
      var tag := DecodedTag(job.labels);
      var w1 := w.(jobs := Without(w.jobs, job.id));
      if job.hash == hash && tag in tags {
        PruneKeepsRequest(w, br, listed[1..], hash, tags, seen + {tag}, env);
      } else if !env.fails(DeleteJob(job.id)) {
        if job.hash == hash {
          PruneKeepsRequest(w1, br, listed[1..], hash, tags, seen, env);
        } else {
          var s := Write(w1, SeederStale(job.id), ToUnknown("Bento request hash changed, recreating the jobs"), env);
          if s.ok {
            PruneKeepsRequest(s.w, s.br, listed[1..], hash, tags, seen, env);
          }
        }
      }
    }
  }

  lemma ReportKeepsRequest(cfg: Config, w: World, br: Request, models: seq<Model>, listed: seq<Job>, env: Env)
    requires SameRequest(br, w.req)
    ensures var r := ReportSeeding(cfg, w, br, models, listed, env);
            HandsOn(r.br, w, r.end, env)
  {
    hide Write, Reflects, SameOwn, UnfinishedNames, SucceededTags, Join, SeededMessage, Tags;
  }

  /** Whatever fails, the store stays tidy through a pass. */
  lemma FinishTidy(cfg: Config, separateModels: bool, models: ModelsResult, image: ImageResult, env: Env)
    requires Tidy(image.w)
    ensures Tidy(Finish(cfg, separateModels, models, image, env).w)
  {
    hide Write, Publish, CleanUp, Tidy;
    var c := image.br.content;
    var w := if separateModels && !IsStoredInS3(c) then CleanUp(cfg, image.w, image.br, c.spec.models, 0, env) else image.w;
    CleanUpKeepsBuilders(cfg, image.w, image.br, c.spec.models, 0, env, true);
    var r := Finish(cfg, separateModels, models, image, env).w;
    if r.jobs == w.jobs {
      TidySame(w, r);
    } else {
      TidySame(image.w, r);
    }
  }

  lemma PhasesTidy(cfg: Config, w: World, br: Request, env: Env)
    requires Tidy(w)
    ensures Tidy(Phases(cfg, w, br, env).w)
  {
    hide EnsureModelsExist, EnsureImageExists, Finish, Tidy;
    var models := if SeedsModels(br.content) then EnsureModelsExist(cfg, w, br, env)
                  else ModelsResult(w, br, false, Done);
    ModelsPhaseKeepsBuilders(cfg, w, br, env, true);
    ImagePhaseKeepsSeeders(cfg, models.w, models.br, env);
    FinishTidy(cfg, IsSeparateModels(br.content), models, EnsureImageExists(cfg, models.w, models.br, env), env);
  }

  /** Unless it fails, the models phase hands on exactly what is stored. */
  lemma ModelsPhaseInSync(cfg: Config, w: World, env: Env)
    ensures var r := EnsureModelsExist(cfg, w, w.req, env);
            r.end == Done || Quiet(env) ==> r.end != Panic && r.br == r.w.req
  {
    hide Write, SeedModels, IsTrue, Find, SeededMessage, Reflects, SameOwn, Quiet;
    var s := Write(w, ModelsNotReady, SetConditions([NotReady]), env);
    SeedModelsInSync(cfg, w, w.req, env);
    if s.ok {
      SeedModelsInSync(cfg, s.w, s.br, env);
    }
    if Quiet(env) {
      QuietOk(w, ModelsNotReady, SetConditions([NotReady]), env);
    }
  }

  lemma QuietReads(env: Env)
    requires Quiet(env)
    ensures ModelsPhaseReads(env)
  {
  }

  lemma QuietOk(w: World, site: Site, update: Update, env: Env)
    requires Quiet(env)
    ensures Write(w, site, update, env).ok
  {
    UndisturbedWrite(w, site, update, env);
  }

  lemma SeedModelsInSync(cfg: Config, w: World, br: Request, env: Env)
    requires br == w.req
    ensures var r := SeedModels(cfg, w, br, env);
            r.end == Done || Quiet(env) ==> r.end != Panic && r.br == r.w.req
  {
    hide Prune, SeedEach, ReportSeeding, List, SeederSelector, Tags, Quiet;
    var models := br.content.spec.models;
    var listed := List(w.jobs, SeederSelector(cfg));
    PruneInSync(w, br, listed, HashOf(br.content), Tags(models), {}, env);
    var p := Prune(w, br, listed, HashOf(br.content), Tags(models), {}, env);
    var s := SeedEach(cfg, p.w, p.br, models, 0, p.seen, env);
    ReportInSync(cfg, s.w, p.br, models, List(s.w.jobs, SeederSelector(cfg)), env);
    QuietPrunes(w, br, listed, HashOf(br.content), Tags(models), {}, env);
  }

  lemma ReportInSync(cfg: Config, w: World, br: Request, models: seq<Model>, listed: seq<Job>, env: Env)
    ensures var r := ReportSeeding(cfg, w, br, models, listed, env);
            br == w.req && (r.end == Done || Quiet(env)) ==> r.end != Panic && r.br == r.w.req
  {
    hide Write, Reflects, SameOwn, UnfinishedNames, SucceededTags, Join, SeededMessage, Tags, Undisturbed;
    if Quiet(env) {
      forall update: Update, site: Site ensures Write(w, site, update, env).ok {
        QuietOk(w, site, update, env);
      }
    }
  }

  lemma {:induction false} PruneInSync(
      w: World, br: Request, listed: seq<Job>, hash: Hash, tags: seq<string>, seen: set<string>, env: Env)
    requires br == w.req
    ensures var r := Prune(w, br, listed, hash, tags, seen, env);
            r.end != Panic && (r.end == Done ==> r.br == r.w.req)
    decreases |listed|
  {
    hide Write, Reflects, SameOwn, DecodedTag;
    if listed != [] {
      var job := listed[0];
      var tag := DecodedTag(job.labels);
      var w1 := w.(jobs := Without(w.jobs, job.id));
      if job.hash == hash && tag in tags {
        PruneInSync(w, br, listed[1..], hash, tags, seen + {tag}, env);
      } else if !env.fails(DeleteJob(job.id)) {
        if job.hash == hash {
          PruneInSync(w1, br, listed[1..], hash, tags, seen, env);
        } else {
          var s := Write(w1, SeederStale(job.id), ToUnknown("Bento request hash changed, recreating the jobs"), env);
          if s.ok {
            PruneInSync(s.w, s.br, listed[1..], hash, tags, seen, env);
          }
        }
      }
    }
  }

  lemma {:induction false} QuietPrunes(
      w: World, br: Request, listed: seq<Job>, hash: Hash, tags: seq<string>, seen: set<string>, env: Env)
    ensures Quiet(env) ==> Prune(w, br, listed, hash, tags, seen, env).end == Done
    decreases |listed|
  {
    hide Write, Reflects, SameOwn, DecodedTag, Undisturbed;
    if listed != [] && Quiet(env) {
      var job := listed[0];
      var tag := DecodedTag(job.labels);
      var w1 := w.(jobs := Without(w.jobs, job.id));
      if job.hash == hash && tag in tags {
        QuietPrunes(w, br, listed[1..], hash, tags, seen + {tag}, env);
      } else if job.hash == hash {
        QuietPrunes(w1, br, listed[1..], hash, tags, seen, env);
      } else {
        var update := ToUnknown("Bento request hash changed, recreating the jobs");
        QuietOk(w1, SeederStale(job.id), update, env);
        var s := Write(w1, SeederStale(job.id), update, env);
        QuietPrunes(s.w, s.br, listed[1..], hash, tags, seen, env);
      }
    }
  }
}
