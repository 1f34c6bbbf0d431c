/** Every seeder job has its volume claim, in every reachable state, and exactly when clean-up breaks that. */
module VolumeClaims {
  import opened Basics
  import opened Conditions
  import opened Cluster
  import opened Naming
  import opened StatusWriter
  import opened ImagePhase
  import opened ModelsPhase
  import opened Reconcile
  import opened Listing
  import opened JobFrames
  import opened Runs
  import opened Provenance
  import opened SeederJobs
  import opened SeederRuns

  /** What must stay fixed for claims and labels to keep their names: the bento tag and the model namespace. */
  predicate SameStorage(cfg: Config, namespace: string, a: Content, b: Content)
  {
    a.spec.bentoTag == b.spec.bentoTag && ModelNamespace(cfg, namespace, a) == ModelNamespace(cfg, namespace, b)
  }

  lemma SameStorageNames(cfg: Config, namespace: string, a: Content, b: Content, tag: string)
    requires SameStorage(cfg, namespace, a, b)
    ensures PvcName(cfg, namespace, a, tag) == PvcName(cfg, namespace, b, tag)
    ensures SeederLabels(cfg, a, tag) == SeederLabels(cfg, b, tag)
  {
  }

  /** Among the tags in use, different tags have different claims. */
  ghost predicate NamesApart(cfg: Config, namespace: string, c: Content, tags: set<string>)
  {
    forall a <- tags, b <- tags :: PvcName(cfg, namespace, c, a) == PvcName(cfg, namespace, c, b) ==> a == b
  }

  /** A request over the tags in use, stored and named as the reference content is. */
  ghost predicate Within(cfg: Config, namespace: string, c: Content, reference: Content, tags: set<string>)
  {
    && SameStorage(cfg, namespace, c, reference) && WellTagged(c)
    && forall m <- c.spec.models :: m.tag in tags
  }

  /** A seeder job carries exactly the labels of its tag, and the tag's claim is there. */
  predicate Claimed(cfg: Config, j: Job, namespace: string, reference: Content, tags: set<string>, pvcs: set<string>)
  {
    var tag := DecodedTag(j.labels);
    && tag in tags
    && Selects(SeederLabels(cfg, reference, tag), j.labels)
    && PvcName(cfg, namespace, reference, tag) in pvcs
  }

  ghost predicate AllClaimed(cfg: Config, w: World, reference: Content, tags: set<string>)
  {
    forall j <- Seeders(cfg, w) :: Claimed(cfg, j, w.req.namespace, reference, tags, w.pvcs)
  }

  lemma GrowsClaimed(cfg: Config, w: World, w': World, reference: Content, tags: set<string>)
    requires AllClaimed(cfg, w, reference, tags) && w'.req.namespace == w.req.namespace
    requires Within(cfg, w.req.namespace, w.req.content, reference, tags)
    requires Grows(cfg, w, w', w.req.content, w.req.namespace)
    ensures AllClaimed(cfg, w', reference, tags)
  {
    hide DecodedTag, MadeFor, Seeders, SeederLabels, PvcName, Selects, SameStorage;
    forall j <- Seeders(cfg, w') ensures Claimed(cfg, j, w.req.namespace, reference, tags, w'.pvcs) {
      if j in Seeders(cfg, w) {
        assert Claimed(cfg, j, w.req.namespace, reference, tags, w.pvcs);
      } else {
        MadeForIsNamed(cfg, j, w.req.content, w.req.namespace, w'.pvcs);
        var m :| m in w.req.content.spec.models && DecodedTag(j.labels) == m.tag
                 && j.labels == SeederLabels(cfg, w.req.content, m.tag)
                 && PvcName(cfg, w.req.namespace, w.req.content, m.tag) in w'.pvcs;
        SameStorageNames(cfg, w.req.namespace, w.req.content, reference, m.tag);
        SelectsItself(j.labels);
      }
    }
  }

  lemma SelectsItself(labels: Labels)
    ensures Selects(labels, labels)
  {
  }

  /** No delete of a job fails, nor the listing before it. */
  ghost predicate DeletesSucceed(env: Env)
  {
    (forall id: nat :: !env.fails(DeleteJob(id))) && (forall i: nat :: !env.fails(ListModelSeeders(i)))
  }

  lemma {:induction false} DeletedAreGone(w: World, surplus: seq<Job>, env: Env)
    requires forall id: nat :: !env.fails(DeleteJob(id))
    ensures forall j <- DeleteEach(w, surplus, env).0.jobs :: j in w.jobs && j !in surplus
    decreases |surplus|
  {
    if surplus != [] {
      var w1 := w.(jobs := Without(w.jobs, surplus[0].id));
      DeletedAreGone(w1, surplus[1..], env);
      forall j <- DeleteEach(w, surplus, env).0.jobs ensures j in w.jobs && j !in surplus {
        assert j in w1.jobs;
        assert surplus == [surplus[0]] + surplus[1..];
      }
    }
  }

  /** One model's clean-up, jobs before claim, leaves every other job with its claim. */
  lemma CleanOneClaimed(cfg: Config, w: World, c: Content, tag: string, env: Env, reference: Content, tags: set<string>)
    requires AllClaimed(cfg, w, reference, tags) && DeletesSucceed(env)
    requires SameStorage(cfg, w.req.namespace, c, reference) && tag in tags
    requires NamesApart(cfg, w.req.namespace, reference, tags)
    ensures var w1 := DeleteEach(w, List(w.jobs, SeederLabels(cfg, c, tag)), env).0;
            && AllClaimed(cfg, w1, reference, tags)
            && AllClaimed(cfg, w1.(pvcs := w1.pvcs - {PvcName(cfg, w.req.namespace, c, tag)}), reference, tags)
  {
    hide DecodedTag, SeederLabels, PvcName, SeederSelector, SameStorage;
    var doomed := List(w.jobs, SeederLabels(cfg, c, tag));
    var w1 := DeleteEach(w, doomed, env).0;
    DeletedAreGone(w, doomed, env);
    SameStorageNames(cfg, w.req.namespace, c, reference, tag);
    forall j <- Seeders(cfg, w1)
      ensures Claimed(cfg, j, w.req.namespace, reference, tags, w1.pvcs)
      ensures Claimed(cfg, j, w.req.namespace, reference, tags, w1.pvcs - {PvcName(cfg, w.req.namespace, c, tag)})
    {
      assert j in Seeders(cfg, w);
      assert Claimed(cfg, j, w.req.namespace, reference, tags, w.pvcs);
      assert j !in doomed;
      assert DecodedTag(j.labels) != tag;
    }
  }

  /** A listed job outlives its clean-up exactly when some delete fails. */
  lemma {:induction false} SurvivorIff(w: World, surplus: seq<Job>, env: Env)
    requires UniqueIds(surplus) && forall j <- surplus :: j in w.jobs
    ensures (exists j <- DeleteEach(w, surplus, env).0.jobs :: j in surplus) <==>
            (exists j <- surplus :: env.fails(DeleteJob(j.id)))
    decreases |surplus|
  {
    if surplus != [] {
      var head, rest := surplus[0], surplus[1..];
      if env.fails(DeleteJob(head.id)) {
        assert head in surplus && head in w.jobs;
      } else {
        var w1 := w.(jobs := Without(w.jobs, head.id));
        HeadIdIsNew(surplus);
        assert surplus == [head] + rest;
        SurvivorIff(w1, rest, env);
        DeletedAreOld(w1, rest, env);
        assert head !in w1.jobs;
      }
    }
  }

  /** A listing or a delete of the model's seeder jobs fails although there is one. */
  ghost predicate JobOutlives(cfg: Config, w: World, c: Content, tag: string, i: nat, env: Env)
  {
    var doomed := List(w.jobs, SeederLabels(cfg, c, tag));
    if env.fails(ListModelSeeders(i)) then doomed != [] else exists j <- doomed :: env.fails(DeleteJob(j.id))
  }

  /** A seeder job of that tag is there, and its claim is not. */
  ghost predicate Orphaned(cfg: Config, w: World, reference: Content, tag: string)
  {
    PvcName(cfg, w.req.namespace, reference, tag) !in w.pvcs && exists j <- Seeders(cfg, w) :: DecodedTag(j.labels) == tag
  }

  /** Every seeder job carries exactly the labels of one of the tags in use. */
  ghost predicate Shaped(cfg: Config, w: World, reference: Content, tags: set<string>)
  {
    forall j <- Seeders(cfg, w) ::
      DecodedTag(j.labels) in tags && Selects(SeederLabels(cfg, reference, DecodedTag(j.labels)), j.labels)
  }

  lemma ClaimedIsNotOrphaned(cfg: Config, w: World, reference: Content, tags: set<string>)
    ensures AllClaimed(cfg, w, reference, tags) <==>
            Shaped(cfg, w, reference, tags) && forall t <- tags :: !Orphaned(cfg, w, reference, t)
  {
    hide DecodedTag, SeederLabels, PvcName, Selects, Seeders;
    if AllClaimed(cfg, w, reference, tags) {
      forall j <- Seeders(cfg, w)
        ensures DecodedTag(j.labels) in tags && Selects(SeederLabels(cfg, reference, DecodedTag(j.labels)), j.labels)
        ensures PvcName(cfg, w.req.namespace, reference, DecodedTag(j.labels)) in w.pvcs
      {
        assert Claimed(cfg, j, w.req.namespace, reference, tags, w.pvcs);
      }
    } else if Shaped(cfg, w, reference, tags) {
      var j :| j in Seeders(cfg, w) && !Claimed(cfg, j, w.req.namespace, reference, tags, w.pvcs);
      assert Orphaned(cfg, w, reference, DecodedTag(j.labels));
    }
  }

  lemma TagOfSelected(cfg: Config, labels: Labels, c: Content, tag: string)
    requires Selects(SeederLabels(cfg, c, tag), labels) && ':' in tag
    ensures Selects(SeederSelector(cfg), labels) && DecodedTag(labels) == tag
  {
    hide Partition;
    TagRoundTripIff(cfg, c, tag);
    var wanted := SeederLabels(cfg, c, tag);
    assert ModelRepositoryLabel in wanted && ModelVersionLabel in wanted && RequestLabel in wanted && ModelSeederLabel in wanted;
  }

  /** In a shaped store the jobs of a tag are those its labels select. */
  lemma JobsOfTag(cfg: Config, w: World, reference: Content, tags: set<string>, tag: string)
    requires Shaped(cfg, w, reference, tags) && ':' in tag
    ensures forall j <- w.jobs :: j in List(w.jobs, SeederLabels(cfg, reference, tag)) <==>
              j in Seeders(cfg, w) && DecodedTag(j.labels) == tag
  {
    hide DecodedTag, SeederLabels, Selects, SeederSelector;
    forall j <- w.jobs
      ensures j in List(w.jobs, SeederLabels(cfg, reference, tag)) <==> j in Seeders(cfg, w) && DecodedTag(j.labels) == tag
    {
      if j in List(w.jobs, SeederLabels(cfg, reference, tag)) {
        TagOfSelected(cfg, j.labels, reference, tag);
      }
    }
  }

  /** What cleaning up one model does to the jobs. */
  lemma CleanOneJobs(cfg: Config, w: World, tag: string, i: nat, env: Env, reference: Content, tags: set<string>, w1: World)
    requires Shaped(cfg, w, reference, tags) && Tidy(w) && ':' in tag
    requires var doomed := List(w.jobs, SeederLabels(cfg, reference, tag));
             w1 == if env.fails(ListModelSeeders(i)) then w else DeleteEach(w, doomed, env).0
    ensures (forall j <- w1.jobs :: j in w.jobs) && Shaped(cfg, w1, reference, tags) && Tidy(w1)
    ensures (exists j <- Seeders(cfg, w1) :: DecodedTag(j.labels) == tag) <==> JobOutlives(cfg, w, reference, tag, i, env)
    ensures forall j <- Seeders(cfg, w) :: DecodedTag(j.labels) != tag ==> j in Seeders(cfg, w1)
  {
    hide DecodedTag, SeederLabels, Tidy, Selects, SeederSelector;
    var doomed := List(w.jobs, SeederLabels(cfg, reference, tag));
    DeletedAreOld(w, doomed, env);
    TidyAfterDeletes(w, doomed, env);
    TidyListed(w, SeederLabels(cfg, reference, tag));
    SurvivorIff(w, doomed, env);
    JobsOfTag(cfg, w, reference, tags, tag);
    forall j <- Seeders(cfg, w) | DecodedTag(j.labels) != tag ensures j in Seeders(cfg, w1) {
      forall d <- doomed ensures d.id != j.id {
        SameIdSameJob(w, d, j);
      }
      DeleteEachKeeps(w, doomed, env, j);
    }
    assert (exists j <- Seeders(cfg, w1) :: DecodedTag(j.labels) == tag) <==> exists j <- w1.jobs :: j in doomed;
  }

  lemma SameIdSameJob(w: World, a: Job, b: Job)
    requires Tidy(w) && a in w.jobs && b in w.jobs
    ensures a.id == b.id ==> a == b
  {
    UniqueAgrees(w.jobs, map[]);
    ListAll(w.jobs);
  }

  lemma {:induction false} ListAll(jobs: seq<Job>)
    ensures List(jobs, map[]) == jobs
  {
    if jobs != [] {
      ListAll(jobs[1..]);
    }
  }

  lemma TidyListed(w: World, selector: Labels)
    requires Tidy(w)
    ensures UniqueIds(List(w.jobs, selector))
  {
    ListKeepsUnique(w.jobs, selector);
  }

  /** The store after the clean-up of one model. */
  function CleanedOne(cfg: Config, w: World, br: Request, tag: string, i: nat, env: Env): World
  {
    var w1 := if env.fails(ListModelSeeders(i)) then w
              else DeleteEach(w, List(w.jobs, SeederLabels(cfg, br.content, tag)), env).0;
    if env.fails(DeletePvc(i)) then w1
    else w1.(pvcs := w1.pvcs - {PvcName(cfg, br.namespace, br.content, tag)})
  }

  lemma CleanOneOrphans(
      cfg: Config, w: World, br: Request, tag: string, i: nat, env: Env, reference: Content, tags: set<string>)
    requires Shaped(cfg, w, reference, tags) && Tidy(w) && tag in tags && ':' in tag
    requires br.namespace == w.req.namespace && SameStorage(cfg, w.req.namespace, br.content, reference)
    requires NamesApart(cfg, w.req.namespace, reference, tags) && !Orphaned(cfg, w, reference, tag)
    ensures var r := CleanedOne(cfg, w, br, tag, i, env);
            && r.req == w.req && Shaped(cfg, r, reference, tags) && Tidy(r)
            && (forall t <- tags :: t != tag ==> Orphaned(cfg, r, reference, t) == Orphaned(cfg, w, reference, t))
            && (Orphaned(cfg, r, reference, tag) <==>
                  !env.fails(DeletePvc(i)) && JobOutlives(cfg, w, br.content, tag, i, env))
            && (forall j <- r.jobs :: j in w.jobs)
            && (forall j <- Seeders(cfg, w) :: DecodedTag(j.labels) != tag ==> j in Seeders(cfg, r))
  {
    hide DecodedTag, SeederLabels, PvcName, SameStorage, Tidy, Selects, SeederSelector, DeleteEach;
    SameStorageNames(cfg, w.req.namespace, br.content, reference, tag);
    var doomed := List(w.jobs, SeederLabels(cfg, br.content, tag));
    var w1 := if env.fails(ListModelSeeders(i)) then w else DeleteEach(w, doomed, env).0;
    CleanOneJobs(cfg, w, tag, i, env, reference, tags, w1);
    var r := CleanedOne(cfg, w, br, tag, i, env);
    TidySame(w1, r);
    assert Seeders(cfg, r) == Seeders(cfg, w1);
    assert JobOutlives(cfg, w, reference, tag, i, env) == JobOutlives(cfg, w, br.content, tag, i, env);
    OutlivesNeedsJob(cfg, w, tag, i, env, reference, tags);
  }

  lemma OutlivesNeedsJob(cfg: Config, w: World, tag: string, i: nat, env: Env, reference: Content, tags: set<string>)
    requires Shaped(cfg, w, reference, tags) && ':' in tag
    ensures JobOutlives(cfg, w, reference, tag, i, env) ==> exists j <- Seeders(cfg, w) :: DecodedTag(j.labels) == tag
  {
    hide DecodedTag, SeederLabels, Selects, SeederSelector;
    JobsOfTag(cfg, w, reference, tags, tag);
    var doomed := List(w.jobs, SeederLabels(cfg, reference, tag));
    if doomed != [] {
      assert doomed[0] in doomed && doomed[0] in w.jobs;
    }
  }

  /** Whether a later model's jobs outlive its clean-up is settled before the first one's. */
  lemma OutlivesAnyway(cfg: Config, w: World, r: World, c: Content, tag: string, k: nat, env: Env, reference: Content, tags: set<string>)
    requires Shaped(cfg, w, reference, tags) && Shaped(cfg, r, reference, tags) && ':' in tag
    requires SameStorage(cfg, w.req.namespace, c, reference)
    requires forall j <- r.jobs :: j in w.jobs
    requires forall j <- Seeders(cfg, w) :: DecodedTag(j.labels) == tag ==> j in Seeders(cfg, r)
    ensures JobOutlives(cfg, r, c, tag, k, env) == JobOutlives(cfg, w, c, tag, k, env)
  {
    hide DecodedTag, SeederLabels, SameStorage, Selects, SeederSelector;
    SameStorageNames(cfg, w.req.namespace, c, reference, tag);
    JobsOfTag(cfg, w, reference, tags, tag);
    JobsOfTag(cfg, r, reference, tags, tag);
    var a, b := List(w.jobs, SeederLabels(cfg, c, tag)), List(r.jobs, SeederLabels(cfg, c, tag));
    assert forall j :: j in a <==> j in b;
    assert a == [] <==> b == [] by {
      assert a != [] ==> a[0] in b;
      assert b != [] ==> b[0] in a;
    }
  }

  /** The claim of model k is deleted although a job that needs it stays. */
  ghost predicate LeavesOrphan(cfg: Config, w: World, c: Content, models: seq<Model>, k: nat, env: Env)
    requires k < |models|
  {
    !env.fails(DeletePvc(k)) && JobOutlives(cfg, w, c, models[k].tag, k, env)
  }

  lemma {:induction false} CleanUpOrphans(
      cfg: Config, w: World, br: Request, models: seq<Model>, i: nat, env: Env, reference: Content, tags: set<string>)
    requires Shaped(cfg, w, reference, tags) && Tidy(w) && i <= |models|
    requires br.namespace == w.req.namespace && SameStorage(cfg, w.req.namespace, br.content, reference)
    requires DistinctTags(models) && forall m <- models :: m.tag in tags && ':' in m.tag
    requires NamesApart(cfg, w.req.namespace, reference, tags)
    requires forall k :: i <= k < |models| ==> !Orphaned(cfg, w, reference, models[k].tag)
    ensures var r := CleanUp(cfg, w, br, models, i, env);
            && Shaped(cfg, r, reference, tags)
            && (forall k :: i <= k < |models| ==>
                  (Orphaned(cfg, r, reference, models[k].tag) <==> LeavesOrphan(cfg, w, br.content, models, k, env)))
            && (forall t <- tags :: !NamedFrom(models, i, t) ==>
                  Orphaned(cfg, r, reference, t) == Orphaned(cfg, w, reference, t))
    decreases |models| - i
  {
    hide Shaped, Orphaned, SameStorage, NamesApart, Tidy, JobOutlives, SeederLabels, DeleteEach, List, PvcName, DecodedTag;
    if i < |models| {
      var tag := models[i].tag;
      assert models[i] in models;
      CleanOneOrphans(cfg, w, br, tag, i, env, reference, tags);
      var w1 := CleanedOne(cfg, w, br, tag, i, env);
      assert CleanUp(cfg, w, br, models, i, env) == CleanUp(cfg, w1, br, models, i + 1, env);
      forall k | i < k < |models|
        ensures !Orphaned(cfg, w1, reference, models[k].tag)
        ensures LeavesOrphan(cfg, w1, br.content, models, k, env) == LeavesOrphan(cfg, w, br.content, models, k, env)
      {
        assert models[k] in models && models[k].tag != tag;
        OutlivesAnyway(cfg, w, w1, br.content, models[k].tag, k, env, reference, tags);
      }
      CleanUpOrphans(cfg, w1, br, models, i + 1, env, reference, tags);
      LaterModels(models, i, tag);
      forall t <- tags ensures NamedFrom(models, i, t) <==> tag == t || NamedFrom(models, i + 1, t) {
        LaterModels(models, i, t);
      }
    }
  }

  /**
   Clean-up deletes a model's claim whether or not deleting its jobs succeeded. So it leaves every
   seeder job with its claim exactly when no model's claim is deleted while a job of it outlives.
   */
  lemma CleanUpOrphansIff(
      cfg: Config, w: World, br: Request, models: seq<Model>, env: Env, reference: Content, tags: set<string>)
    requires AllClaimed(cfg, w, reference, tags) && Tidy(w)
    requires br.namespace == w.req.namespace && SameStorage(cfg, w.req.namespace, br.content, reference)
    requires DistinctTags(models) && forall m <- models :: m.tag in tags && ':' in m.tag
    requires NamesApart(cfg, w.req.namespace, reference, tags)
    ensures AllClaimed(cfg, CleanUp(cfg, w, br, models, 0, env), reference, tags) <==>
            forall k :: 0 <= k < |models| ==> !LeavesOrphan(cfg, w, br.content, models, k, env)
  {
    hide Shaped, Orphaned, SameStorage, NamesApart, Tidy, LeavesOrphan, AllClaimed, CleanUp;
    ClaimedIsNotOrphaned(cfg, w, reference, tags);
    forall k | 0 <= k < |models| ensures models[k].tag in tags {
      assert models[k] in models;
    }
    CleanUpOrphans(cfg, w, br, models, 0, env, reference, tags);
    ClaimedIsNotOrphaned(cfg, CleanUp(cfg, w, br, models, 0, env), reference, tags);
  }

  lemma {:induction false} CleanUpClaimed(
      cfg: Config, w: World, br: Request, models: seq<Model>, i: nat, env: Env, reference: Content, tags: set<string>)
    requires AllClaimed(cfg, w, reference, tags) && DeletesSucceed(env) && i <= |models|
    requires br.namespace == w.req.namespace && SameStorage(cfg, w.req.namespace, br.content, reference)
    requires forall m <- models :: m.tag in tags
    requires NamesApart(cfg, w.req.namespace, reference, tags)
    ensures AllClaimed(cfg, CleanUp(cfg, w, br, models, i, env), reference, tags)
    decreases |models| - i
  {
    hide SeederLabels, PvcName, SameStorage, AllClaimed, NamesApart, DeleteEach, List;
    if i < |models| {
      var tag := models[i].tag;
      assert models[i] in models;
      CleanOneClaimed(cfg, w, br.content, tag, env, reference, tags);
      var w1 := DeleteEach(w, List(w.jobs, SeederLabels(cfg, br.content, tag)), env).0;
      var w2 := if env.fails(DeletePvc(i)) then w1
                else w1.(pvcs := w1.pvcs - {PvcName(cfg, br.namespace, br.content, tag)});
      CleanUpClaimed(cfg, w2, br, models, i + 1, env, reference, tags);
    }
  }

  lemma ClaimedSame(cfg: Config, w: World, w': World, reference: Content, tags: set<string>)
    requires AllClaimed(cfg, w, reference, tags)
    requires Seeders(cfg, w') == Seeders(cfg, w) && w'.pvcs == w.pvcs && w'.req.namespace == w.req.namespace
    ensures AllClaimed(cfg, w', reference, tags)
  {
  }

  lemma FinishClaimed(
      cfg: Config, separateModels: bool, models: ModelsResult, image: ImageResult, env: Env, reference: Content, tags: set<string>)
    requires AllClaimed(cfg, image.w, reference, tags) && DeletesSucceed(env)
    requires image.end == Done && image.present && !models.end.Err? ==>
               SameRequest(image.br, image.w.req)
    requires Within(cfg, image.w.req.namespace, image.w.req.content, reference, tags)
    requires NamesApart(cfg, image.w.req.namespace, reference, tags)
    ensures AllClaimed(cfg, Finish(cfg, separateModels, models, image, env).w, reference, tags)
  {
    hide Write, CleanUp, Publish, AllClaimed, NamesApart, DeletesSucceed, SeederSelector, List;
    var r := Finish(cfg, separateModels, models, image, env).w;
    var c := image.br.content;
    if image.end == Done && image.present && !models.end.Err? && separateModels && !IsStoredInS3(c) && models.present {
      CleanUpClaimed(cfg, image.w, image.br, c.spec.models, 0, env, reference, tags);
      ClaimedSame(cfg, CleanUp(cfg, image.w, image.br, c.spec.models, 0, env), r, reference, tags);
    } else {
      ClaimedSame(cfg, image.w, r, reference, tags);
    }
  }

  /** An image that is there was reported on the request as stored. */
  lemma ImagePhaseInSync(cfg: Config, w: World, br: Request, env: Env)
    requires SameRequest(br, w.req)
    ensures var r := EnsureImageExists(cfg, w, br, env);
            r.present && r.end == Done ==> SameRequest(r.br, r.w.req)
  {
    hide Write, EnsureBuilt, CheckImage, BentoImageName, IsTrue, Reflects, SameOwn;
    var name := BentoImageName(cfg, br.namespace, br.content, false);
    if name.Some? {
      EnsureBuiltInSync(cfg, w, br, IsSeparateModels(br.content), name.value, env);
      CheckImageInSync(cfg, w, IsSeparateModels(br.content), name.value, env);
    }
  }

  lemma CheckImageInSync(cfg: Config, w: World, separateModels: bool, image: string, env: Env)
    ensures var r := CheckImage(cfg, w, separateModels, image, env);
            r.present && r.end == Done ==> SameRequest(r.br, r.w.req)
  {
    hide Write, EnsureBuilt, RegistryReports, CheckedConditions, Reflects, SameOwn;
    var s := Write(w, CheckingImage, SetConditions([
      Report(ImageExistsChecked, Unknown, image),
      Report(BentoAvailable, Unknown, "Checking image exists")]), env);
    var found := RegistryReports(s.w, s.br.content, image);
    var t := Write(s.w, CheckedImage, SetConditions(CheckedConditions(found, image)), env);
    EnsureBuiltInSync(cfg, t.w, t.br, separateModels, image, env);
  }

  lemma EnsureBuiltInSync(cfg: Config, w: World, br: Request, separateModels: bool, image: string, env: Env)
    ensures var r := EnsureBuilt(cfg, w, br, separateModels, image, env);
            r.present && r.end == Done ==> SameRequest(r.br, r.w.req)
  {
    hide Write, NewBuilderJob, BuilderSelector, List, DropStale, RunningCondition, TimeoutCondition, Reflects, SameOwn;
  }

  lemma PhasesClaimed(cfg: Config, w: World, env: Env, reference: Content, tags: set<string>)
    requires AllClaimed(cfg, w, reference, tags) && Tidy(w)
    requires DeletesSucceed(env)
    requires Within(cfg, w.req.namespace, w.req.content, reference, tags)
    requires NamesApart(cfg, w.req.namespace, reference, tags)
    ensures AllClaimed(cfg, Phases(cfg, w, w.req, env).w, reference, tags)
  {
    hide EnsureModelsExist, EnsureImageExists, Finish, Tidy, ModelsPhaseReads, AllClaimed, NamesApart, DeletesSucceed;
    hide Within;
    hide SeederSelector, List;
    var models := if SeedsModels(w.req.content) then EnsureModelsExist(cfg, w, w.req, env)
                  else ModelsResult(w, w.req, false, Done);
    ModelsPhaseKeepsBuilders(cfg, w, w.req, env, true);
    ModelsPhaseKeepsRequest(cfg, w, w.req, env);
    ModelsPhaseGrows(cfg, w, env);
    GrowsClaimed(cfg, w, EnsureModelsExist(cfg, w, w.req, env).w, reference, tags);
    var image := EnsureImageExists(cfg, models.w, models.br, env);
    ImagePhaseKeepsSeeders(cfg, models.w, models.br, env);
    ClaimedSame(cfg, models.w, image.w, reference, tags);
    if SameRequest(models.br, models.w.req) {
      ImagePhaseInSync(cfg, models.w, models.br, env);
    }
    FinishClaimed(cfg, IsSeparateModels(w.req.content), models, image, env, reference, tags);
  }

  /** Steps that keep the storage names, leave the claims in use alone and let deletes succeed. */
  ghost predicate KeepsClaims(cfg: Config, namespace: string, step: Step, reference: Content, tags: set<string>)
  {
    && (step.PassStep? ==> DeletesSucceed(step.env))
    && (step.EditContent? ==> Within(cfg, namespace, step.content, reference, tags))
    && (step.PvcChange? ==> forall t <- tags :: PvcName(cfg, namespace, reference, t) !in step.deleted)
  }

  lemma StepClaimed(cfg: Config, w: World, step: Step, reference: Content, tags: set<string>)
    requires AllClaimed(cfg, w, reference, tags) && Tidy(w)
    requires Within(cfg, w.req.namespace, w.req.content, reference, tags)
    requires NamesApart(cfg, w.req.namespace, reference, tags)
    requires KeepsClaims(cfg, w.req.namespace, step, reference, tags)
    ensures var w' := Next(cfg, w, step);
            && AllClaimed(cfg, w', reference, tags)
            && w'.req.namespace == w.req.namespace
            && Within(cfg, w'.req.namespace, w'.req.content, reference, tags)
  {
    hide Pass, Phases, Tidy, AllClaimed, SeederSelector, List, Write, WithForeign, Entered, Within, NamesApart;
    hide DeletesSucceed, PvcName, Entry;
    match step
    case PassStep(env) =>
      var ran, w1 := Enter(cfg, w, env);
      SameStore(w, w1);
      TidySame(w, w1);
      ClaimedSame(cfg, w, w1, reference, tags);
      if ran {
        PhasesClaimed(cfg, w1, env, reference, tags);
        ClaimedSame(cfg, Phases(cfg, w1, w1.req, env).w, Pass(cfg, w, env), reference, tags);
      } else {
        ClaimedSame(cfg, w, Pass(cfg, w, env), reference, tags);
      }
    case Progress(_, _, _, _, _) =>
      ClaimedProgress(cfg, w, step, reference, tags);
    case PvcChange(created, deleted) =>
      ClaimedPvcs(cfg, w, created, deleted, reference, tags);
    case Shuffle(order) =>
      if multiset(order) == multiset(w.jobs) {
        forall j <- order ensures j in w.jobs {
          assert j in multiset(order);
        }
        ClaimedFewer(cfg, w, order, reference, tags);
      }
    case _ =>
      ClaimedSame(cfg, w, Next(cfg, w, step), reference, tags);
  }

  lemma ClaimedFewer(cfg: Config, w: World, jobs: seq<Job>, reference: Content, tags: set<string>)
    requires AllClaimed(cfg, w, reference, tags) && forall j <- jobs :: j in w.jobs
    ensures AllClaimed(cfg, w.(jobs := jobs), reference, tags)
  {
    hide Claimed, SeederSelector;
  }

  lemma ClaimedProgress(cfg: Config, w: World, step: Step, reference: Content, tags: set<string>)
    requires AllClaimed(cfg, w, reference, tags) && step.Progress?
    ensures AllClaimed(cfg, w.(jobs := WithStatus(w.jobs, step)), reference, tags)
  {
    hide DecodedTag, SeederSelector, SeederLabels, PvcName;
    var r := WithStatus(w.jobs, step);
    forall j <- List(r, SeederSelector(cfg)) ensures Claimed(cfg, j, w.req.namespace, reference, tags, w.pvcs) {
      var i :| 0 <= i < |r| && r[i] == j;
      assert w.jobs[i] in Seeders(cfg, w);
      assert Claimed(cfg, w.jobs[i], w.req.namespace, reference, tags, w.pvcs);
    }
  }

  lemma ClaimedPvcs(cfg: Config, w: World, created: set<string>, deleted: set<string>, reference: Content, tags: set<string>)
    requires AllClaimed(cfg, w, reference, tags)
    requires forall t <- tags :: PvcName(cfg, w.req.namespace, reference, t) !in deleted
    ensures AllClaimed(cfg, w.(pvcs := (w.pvcs + created) - deleted), reference, tags)
  {
    hide DecodedTag, SeederSelector, SeederLabels, PvcName, Selects, List;
    var w' := w.(pvcs := (w.pvcs + created) - deleted);
    assert Seeders(cfg, w') == Seeders(cfg, w);
    forall j <- Seeders(cfg, w') ensures Claimed(cfg, j, w.req.namespace, reference, tags, w'.pvcs) {
      assert Claimed(cfg, j, w.req.namespace, reference, tags, w.pvcs);
      assert DecodedTag(j.labels) in tags;
    }
  }

  /**
   Every seeder job has its claim in every reachable state, across creation, stale deletion,
   short-circuited passes and clean-up, as long as the storage names stay put, nobody else deletes
   the claims in use and deletes of jobs do not fail.
   */
  lemma {:induction false} SeedersKeepClaims(
      cfg: Config, w: World, steps: seq<Step>, reference: Content, tags: set<string>)
    requires AllClaimed(cfg, w, reference, tags) && Tidy(w)
    requires Within(cfg, w.req.namespace, w.req.content, reference, tags)
    requires NamesApart(cfg, w.req.namespace, reference, tags)
    requires forall s <- steps :: KeepsClaims(cfg, w.req.namespace, s, reference, tags)
    ensures var r := Run(cfg, w, steps);
            && AllClaimed(cfg, r, reference, tags) && r.req.namespace == w.req.namespace
            && Within(cfg, r.req.namespace, r.req.content, reference, tags)
    decreases |steps|
  {
    hide Next, Tidy, AllClaimed, Within, NamesApart, KeepsClaims;
    if steps != [] {
      var before, last := steps[..|steps| - 1], steps[|steps| - 1];
      assert last in steps;
      SeedersKeepClaims(cfg, w, before, reference, tags);
      RunTidy(cfg, w, before);
      StepClaimed(cfg, Run(cfg, w, before), last, reference, tags);
    }
  }
}
