/** Seeder jobs: what their labels say, which of them a pass leaves, and when models count as seeded. */
module SeederJobs {
  import opened Basics
  import opened Conditions
  import opened Cluster
  import opened Naming
  import opened StatusWriter
  import opened ImagePhase
  import opened ModelsPhase
  import opened Listing
  import opened JobFrames
  import opened StatusFrames

  /** The tag survives the trip through the two labels exactly when it contains a colon. */
  lemma TagRoundTripIff(cfg: Config, c: Content, tag: string)
    ensures DecodedTag(SeederLabels(cfg, c, tag)) == tag <==> ':' in tag
  {
    var i := IndexOf(tag, ':');
    var (repository, version) := Partition(tag, ':');
    var decoded := DecodedTag(SeederLabels(cfg, c, tag));
    assert decoded == repository + ":" + version;
    if ':' in tag {
      var k :| 0 <= k < |tag| && tag[k] == ':';
      assert tag[..|tag|] == tag;
      assert tag == tag[..i] + [tag[i]] + tag[i + 1..];
    } else {
      assert i == |tag|;
      assert |decoded| == |tag| + 1;
    }
  }

  function Seeders(cfg: Config, w: World): seq<Job>
  {
    List(w.jobs, SeederSelector(cfg))
  }

  predicate WellTagged(c: Content)
  {
    forall m <- c.spec.models :: ':' in m.tag
  }

  /** Every seeder job names a model of the content its hash stands for. */
  ghost predicate Named(cfg: Config, w: World)
  {
    forall j <- Seeders(cfg, w) :: DecodedTag(j.labels) in Tags(j.hash.content.spec.models)
  }

  /** The listed jobs that pruning keeps. */
  function Kept(listed: seq<Job>, hash: Hash, tags: seq<string>): (r: seq<Job>)
    ensures forall j :: j in r <==> j in listed && j.hash == hash && DecodedTag(j.labels) in tags
  {
    if listed == [] then []
    else if listed[0].hash == hash && DecodedTag(listed[0].labels) in tags then
      [listed[0]] + Kept(listed[1..], hash, tags)
    else Kept(listed[1..], hash, tags)
  }

  function DecodedTags(jobs: seq<Job>): (r: set<string>)
  {
    set j <- jobs :: DecodedTag(j.labels)
  }

  /** Pruning that ends without an error leaves exactly the kept jobs, and knows their models. */
  lemma {:induction false} PruneLists(
      cfg: Config, w: World, br: Request, kept: seq<Job>, listed: seq<Job>, hash: Hash, tags: seq<string>,
      seen: set<string>, env: Env)
    requires UniqueIds(w.jobs)
    requires Seeders(cfg, w) == kept + listed
    ensures var r := Prune(w, br, listed, hash, tags, seen, env);
            r.end == Done ==>
              && Seeders(cfg, r.w) == kept + Kept(listed, hash, tags)
              && r.seen == seen + DecodedTags(Kept(listed, hash, tags))
    decreases |listed|
  {
    hide Write, DecodedTag, Reflects, SameOwn, Seeders, UniqueIds, Distinct, Kept, DecodedTags;
    if listed == [] {
      assert kept + listed == kept;
      NothingKept(hash, tags);
    } else {
      var job := listed[0];
      var tag := DecodedTag(job.labels);
      KeptHead(listed, hash, tags);
      if job.hash == hash && tag in tags {
        assert kept + listed == (kept + [job]) + listed[1..];
        PruneLists(cfg, w, br, kept + [job], listed[1..], hash, tags, seen + {tag}, env);
        var rest := Kept(listed[1..], hash, tags);
        assert (kept + [job]) + rest == kept + ([job] + rest);
      } else if !env.fails(DeleteJob(job.id)) {
        var w1 := w.(jobs := Without(w.jobs, job.id));
        SeedersAfterDelete(cfg, w, kept, listed);
        if job.hash == hash {
          PruneLists(cfg, w1, br, kept, listed[1..], hash, tags, seen, env);
        } else {
          var s := Write(w1, SeederStale(job.id), ToUnknown("Bento request hash changed, recreating the jobs"), env);
          assert Seeders(cfg, s.w) == Seeders(cfg, w1) by { SeedersSame(cfg, w1, s.w); }
          if s.ok {
            PruneLists(cfg, s.w, s.br, kept, listed[1..], hash, tags, seen, env);
          }
        }
      }
    }
  }

  lemma SeedersSame(cfg: Config, w: World, w1: World)
    requires w1.jobs == w.jobs
    ensures Seeders(cfg, w1) == Seeders(cfg, w)
  {
  }

  lemma KeptHead(listed: seq<Job>, hash: Hash, tags: seq<string>)
    requires listed != []
    ensures var head, rest := listed[0], Kept(listed[1..], hash, tags);
            if head.hash == hash && DecodedTag(head.labels) in tags then
              Kept(listed, hash, tags) == [head] + rest
              && DecodedTags(Kept(listed, hash, tags)) == {DecodedTag(head.labels)} + DecodedTags(rest)
            else Kept(listed, hash, tags) == rest
  {
    hide DecodedTag;
  }

  lemma NothingKept(hash: Hash, tags: seq<string>)
    ensures Kept([], hash, tags) == [] && DecodedTags([]) == {}
  {
  }

  lemma SeedersAfterDelete(cfg: Config, w: World, kept: seq<Job>, listed: seq<Job>)
    requires UniqueIds(w.jobs) && Seeders(cfg, w) == kept + listed && listed != []
    ensures var w1 := w.(jobs := Without(w.jobs, listed[0].id));
            UniqueIds(w1.jobs) && Seeders(cfg, w1) == kept + listed[1..]
  {
    ListWithout(w.jobs, listed[0].id, SeederSelector(cfg));
    ListKeepsUnique(w.jobs, SeederSelector(cfg));
    WithoutAt(kept + listed, |kept|);
    assert (kept + listed)[..|kept|] == kept && (kept + listed)[|kept| + 1..] == listed[1..];
    WithoutKeepsUnique(w.jobs, listed[0].id);
  }

  /** The jobs that seeding creates from position i on. */
  function Planned(cfg: Config, c: Content, models: seq<Model>, i: nat, seen: set<string>, id: nat): (r: seq<Job>)
    requires i <= |models|
    ensures forall j <- r :: exists m <- models :: m.tag !in seen && j == NewSeederJob(cfg, c, m.tag, j.id)
    decreases |models| - i
  {
    if i == |models| then []
    else if models[i].tag in seen then Planned(cfg, c, models, i + 1, seen, id)
    else
      var job := NewSeederJob(cfg, c, models[i].tag, id);
      [job] + Planned(cfg, c, models, i + 1, seen, id + 1)
  }

  /** A seeder job that has failed and not completed. */
  predicate SeederFailed(j: Job)
  {
    !Completed(j) && j.failed > 0
  }

  /** A job that has just been made has neither completed nor failed. */
  lemma PlannedAreFresh(cfg: Config, c: Content, models: seq<Model>, seen: set<string>, id: nat)
    ensures forall j <- Planned(cfg, c, models, 0, seen, id) :: !Completed(j) && j.failed == 0
  {
    hide SeederLabels;
    forall j <- Planned(cfg, c, models, 0, seen, id) ensures !Completed(j) && j.failed == 0 {
      var m :| m in models && j == NewSeederJob(cfg, c, m.tag, j.id);
    }
  }

  /** Jobs that have neither completed nor failed do not matter to the report. */
  lemma OnlyKeptMatter(kept: seq<Job>, planned: seq<Job>)
    requires forall j <- planned :: !Completed(j) && j.failed == 0
    ensures UnfinishedNames(kept + planned, true) == [] <==> forall j <- kept :: !SeederFailed(j)
    ensures SucceededTags(kept + planned) == SucceededTags(kept)
  {
    hide UnfinishedNames, SucceededTags, DecodedTag, Completed;
  }

  /** Seeding that ends without an error adds exactly the planned jobs. */
  lemma {:induction false} SeedEachLists(
      cfg: Config, w: World, br: Request, models: seq<Model>, i: nat, seen: set<string>, env: Env)
    requires Tidy(w) && i <= |models|
    ensures var r := SeedEach(cfg, w, br, models, i, seen, env);
            r.end == Done ==> Seeders(cfg, r.w) == Seeders(cfg, w) + Planned(cfg, br.content, models, i, seen, w.nextId)
    decreases |models| - i
  {
    hide NewSeederJob, PvcName, SeederSelector, Tidy, SeedOne, List;
    if i == |models| {
      assert Seeders(cfg, w) + [] == Seeders(cfg, w);
    } else if models[i].tag in seen {
      SeedEachLists(cfg, w, br, models, i + 1, seen, env);
    } else {
      var tag := models[i].tag;
      var s := SeedOne(cfg, w, br, tag, i, env);
      SeedOneLists(cfg, w, br, tag, i, env);
      SeedOneKeepsBuilders(cfg, w, br, tag, i, env, true);
      if s.end == Done {
        SeedEachLists(cfg, s.w, br, models, i + 1, seen, env);
        var job := NewSeederJob(cfg, br.content, tag, w.nextId);
        var rest := Planned(cfg, br.content, models, i + 1, seen, w.nextId + 1);
        assert (Seeders(cfg, w) + [job]) + rest == Seeders(cfg, w) + ([job] + rest);
      }
    }
  }

  /** A fresh name is never taken, so seeding one model without an error creates its job. */
  lemma SeedOneLists(cfg: Config, w: World, br: Request, tag: string, i: nat, env: Env)
    requires Tidy(w)
    ensures var r := SeedOne(cfg, w, br, tag, i, env);
            r.end == Done ==>
              && Seeders(cfg, r.w) == Seeders(cfg, w) + [NewSeederJob(cfg, br.content, tag, w.nextId)]
              && r.w.nextId == w.nextId + 1
  {
    hide PvcName, SeederSelector, List, SeederLabels;
    var job := NewSeederJob(cfg, br.content, tag, w.nextId);
    forall j <- w.jobs ensures j.name != job.name {
      FreshName(w, j);
    }
    NewSeederIsListed(cfg, br.content, tag, w.nextId, true);
    ListCreated(w.jobs, job, SeederSelector(cfg));
  }

  /** What a models phase leaves when it gets through pruning and seeding without an error. */
  ghost predicate SeededExactly(cfg: Config, before: World, after: World, c: Content)
  {
    exists id: nat ::
      var kept := Kept(Seeders(cfg, before), HashOf(c), Tags(c.spec.models));
      Seeders(cfg, after) == kept + Planned(cfg, c, c.spec.models, 0, DecodedTags(kept), id)
  }

  /** The models phase ran its jobs rather than taking the models as seeded already. */
  predicate ShortCircuits(cfg: Config, w: World)
  {
    Holds(w, ModelsExists, SeededMessage(cfg, w.req.content.spec.models))
  }

  lemma SeedModelsLists(cfg: Config, w: World, br: Request, env: Env)
    requires Tidy(w) && br == w.req
    ensures var r := SeedModels(cfg, w, br, env);
            r.end == Done ==> SeededExactly(cfg, w, r.w, br.content)
  {
    hide Prune, SeedEach, ReportSeeding, SeederSelector, Tags, Kept, Planned, DecodedTags, Tidy, List;
    var models := br.content.spec.models;
    var listed := List(w.jobs, SeederSelector(cfg));
    var hash := HashOf(br.content);
    var p := Prune(w, br, listed, hash, Tags(models), {}, env);
    assert [] + listed == listed;
    TidyUnique(w);
    PruneLists(cfg, w, br, [], listed, hash, Tags(models), {}, env);
    var kept := Kept(listed, hash, Tags(models));
    assert [] + kept == kept;
    SelectedSeeders(cfg, w);
    PruneKeepsBuilders(cfg, w, br, listed, hash, Tags(models), {}, env, true);
    PruneInSync(w, br, listed, hash, Tags(models), {}, env);
    var s := SeedEach(cfg, p.w, p.br, models, 0, p.seen, env);
    SeedEachLists(cfg, p.w, p.br, models, 0, p.seen, env);
    if SeedModels(cfg, w, br, env).end == Done {
      assert p.seen == DecodedTags(kept);
      assert Seeders(cfg, s.w) == kept + Planned(cfg, br.content, models, 0, DecodedTags(kept), p.w.nextId);
    }
  }

  lemma TidyUnique(w: World)
    requires Tidy(w)
    ensures UniqueIds(w.jobs)
  {
  }

  lemma ModelsPhaseLists(cfg: Config, w: World, env: Env)
    requires Tidy(w) && !ShortCircuits(cfg, w)
    ensures var r := EnsureModelsExist(cfg, w, w.req, env);
            r.end == Done ==> SeededExactly(cfg, w, r.w, w.req.content)
  {
    hide Write, SeedModels, SeededMessage, IsTrue, Find, SeededExactly, Tidy, Reflects, SameOwn;
    var s := Write(w, ModelsNotReady, SetConditions([NotReady]), env);
    SeedModelsLists(cfg, w, w.req, env);
    if s.ok {
      TidySame(w, s.w);
      SeedModelsLists(cfg, s.w, s.br, env);
      SameExactly(cfg, w, s.w, SeedModels(cfg, s.w, s.br, env).w, w.req.content);
    }
  }

  lemma SameExactly(cfg: Config, w: World, w1: World, after: World, c: Content)
    requires w1.jobs == w.jobs
    ensures SeededExactly(cfg, w1, after, c) ==> SeededExactly(cfg, w, after, c)
  {
    hide Kept, Planned, DecodedTags;
    assert Seeders(cfg, w1) == Seeders(cfg, w);
    if SeededExactly(cfg, w1, after, c) {
      var kept := Kept(Seeders(cfg, w), HashOf(c), Tags(c.spec.models));
      var id: nat :| Seeders(cfg, after) == kept + Planned(cfg, c, c.spec.models, 0, DecodedTags(kept), id);
    }
  }

  /** The jobs whose labels name one model. */
  function ForTag(jobs: seq<Job>, tag: string): (r: seq<Job>)
    ensures r == [] <==> forall j <- jobs :: DecodedTag(j.labels) != tag
    ensures forall j <- r :: j in jobs
  {
    if jobs == [] then []
    else if DecodedTag(jobs[0].labels) == tag then [jobs[0]] + ForTag(jobs[1..], tag)
    else ForTag(jobs[1..], tag)
  }

  lemma {:induction false} ForTagAppend(a: seq<Job>, b: seq<Job>, tag: string)
    ensures ForTag(a + b, tag) == ForTag(a, tag) + ForTag(b, tag)
  {
    hide DecodedTag;
    if a == [] {
      assert a + b == b;
    } else {
      assert (a + b)[1..] == a[1..] + b;
      ForTagAppend(a[1..], b, tag);
    }
  }

  predicate DistinctTags(models: seq<Model>)
  {
    forall i, j :: 0 <= i < j < |models| ==> models[i].tag != models[j].tag
  }

  /** The current jobs of each model, before the pass, number at most one. */
  ghost predicate AtMostOneEach(cfg: Config, w: World, c: Content)
  {
    forall tag: string :: |ForTag(Kept(Seeders(cfg, w), HashOf(c), Tags(c.spec.models)), tag)| <= 1
  }

  /** One current job for each model, and nothing else, is listed. */
  ghost predicate ExactlyOneEach(cfg: Config, w: World, c: Content)
  {
    && (forall j <- Seeders(cfg, w) :: j.hash == HashOf(c) && DecodedTag(j.labels) in Tags(c.spec.models))
    && (forall m <- c.spec.models :: |ForTag(Seeders(cfg, w), m.tag)| == 1)
  }

  /** The tag belongs to a model at that position or later. */
  predicate NamedFrom(models: seq<Model>, i: nat, tag: string)
  {
    exists k :: i <= k < |models| && models[k].tag == tag
  }

  lemma {:induction false} PlannedFor(
      cfg: Config, c: Content, models: seq<Model>, i: nat, seen: set<string>, id: nat, tag: string)
    requires i <= |models| && DistinctTags(models) && forall m <- models :: ':' in m.tag
    ensures |ForTag(Planned(cfg, c, models, i, seen, id), tag)|
         == if tag !in seen && NamedFrom(models, i, tag) then 1 else 0
    decreases |models| - i
  {
    hide DecodedTag, ForTag, NewSeederJob, NamedFrom, DistinctTags;
    if i == |models| {
      NoneNamed(models, tag);
    } else {
      var m := models[i];
      assert m in models;
      LaterModels(models, i, tag);
      if m.tag in seen {
        PlannedFor(cfg, c, models, i + 1, seen, id, tag);
      } else {
        var job := NewSeederJob(cfg, c, m.tag, id);
        NewSeederNames(cfg, c, m.tag, id);
        ForTagHead(job, Planned(cfg, c, models, i + 1, seen, id + 1), tag);
        PlannedFor(cfg, c, models, i + 1, seen, id + 1, tag);
      }
    }
  }

  lemma NewSeederNames(cfg: Config, c: Content, tag: string, id: nat)
    requires ':' in tag
    ensures DecodedTag(NewSeederJob(cfg, c, tag, id).labels) == tag
  {
    hide DecodedTag, SeederLabels;
    TagRoundTripIff(cfg, c, tag);
  }

  lemma ForTagHead(head: Job, rest: seq<Job>, tag: string)
    ensures |ForTag([head] + rest, tag)| == (if DecodedTag(head.labels) == tag then 1 else 0) + |ForTag(rest, tag)|
  {
    hide DecodedTag;
    assert ([head] + rest)[1..] == rest;
  }

  /** A tag is named at a position or after it, and not both. */
  lemma LaterModels(models: seq<Model>, i: nat, tag: string)
    requires i < |models| && DistinctTags(models)
    ensures NamedFrom(models, i, tag) <==> models[i].tag == tag || NamedFrom(models, i + 1, tag)
    ensures models[i].tag == tag ==> !NamedFrom(models, i + 1, tag)
  {
  }

  lemma NoneNamed(models: seq<Model>, tag: string)
    ensures !NamedFrom(models, |models|, tag) && ForTag([], tag) == []
  {
  }

  lemma PlannedAreCurrent(cfg: Config, c: Content, seen: set<string>, id: nat)
    requires WellTagged(c)
    ensures forall j <- Planned(cfg, c, c.spec.models, 0, seen, id) ::
              j.hash == HashOf(c) && DecodedTag(j.labels) in Tags(c.spec.models) && DecodedTag(j.labels) !in seen
  {
    hide DecodedTag, SeederLabels;
    var models := c.spec.models;
    forall j <- Planned(cfg, c, models, 0, seen, id)
      ensures j.hash == HashOf(c) && DecodedTag(j.labels) in Tags(models) && DecodedTag(j.labels) !in seen
    {
      var m :| m in models && m.tag !in seen && j == NewSeederJob(cfg, c, m.tag, j.id);
      TagRoundTripIff(cfg, c, m.tag);
      TagListed(models, m);
    }
  }

  lemma TagListed(models: seq<Model>, m: Model)
    requires m in models
    ensures m.tag in Tags(models)
  {
    var k :| 0 <= k < |models| && models[k] == m;
    assert Tags(models)[k] == m.tag;
  }

  /** Seeding exactly what is missing leaves one current job for each model and no stale one. */
  lemma SeededGivesOneEach(cfg: Config, before: World, after: World, c: Content)
    requires SeededExactly(cfg, before, after, c)
    requires WellTagged(c) && DistinctTags(c.spec.models) && AtMostOneEach(cfg, before, c)
    ensures ExactlyOneEach(cfg, after, c)
  {
    hide Kept, Planned, DecodedTag, Seeders, List;
    var models := c.spec.models;
    var kept := Kept(Seeders(cfg, before), HashOf(c), Tags(models));
    var seen := DecodedTags(kept);
    var id: nat :| Seeders(cfg, after) == kept + Planned(cfg, c, models, 0, seen, id);
    var planned := Planned(cfg, c, models, 0, seen, id);
    PlannedAreCurrent(cfg, c, seen, id);
    forall m <- models ensures |ForTag(Seeders(cfg, after), m.tag)| == 1 {
      ForTagAppend(kept, planned, m.tag);
      PlannedFor(cfg, c, models, 0, seen, id, m.tag);
      var k :| 0 <= k < |models| && models[k] == m;
      assert models[k].tag == m.tag;
      if m.tag in seen {
        var j :| j in kept && DecodedTag(j.labels) == m.tag;
        assert ForTag(kept, m.tag) != [];
      } else {
        assert ForTag(kept, m.tag) == [];
      }
    }
  }

  /**
   An error-free models phase that does its work, for distinct tags that contain a colon and at
   most one current job per tag, ends with exactly one current seeder job per model and no other.
   */
  lemma ModelsPhaseSeedsExactlyOnce(cfg: Config, w: World, env: Env)
    requires Tidy(w) && !ShortCircuits(cfg, w)
    requires WellTagged(w.req.content) && DistinctTags(w.req.content.spec.models)
    requires AtMostOneEach(cfg, w, w.req.content)
    ensures var r := EnsureModelsExist(cfg, w, w.req, env);
            r.end == Done ==> ExactlyOneEach(cfg, r.w, w.req.content)
  {
    hide EnsureModelsExist, SeededExactly, AtMostOneEach, ExactlyOneEach, Tidy, ShortCircuits;
    ModelsPhaseLists(cfg, w, env);
    var r := EnsureModelsExist(cfg, w, w.req, env);
    if r.end == Done {
      SeededGivesOneEach(cfg, w, r.w, w.req.content);
    }
  }

  /** Every spec model has a completed current job, and no listed job failed without completing. */
  ghost predicate AllSeeded(cfg: Config, w: World, c: Content)
  {
    && (forall m <- c.spec.models :: exists j <- Seeders(cfg, w) ::
          Completed(j) && j.hash == HashOf(c) && DecodedTag(j.labels) == m.tag)
    && (forall j <- Seeders(cfg, w) :: j.hash == HashOf(c) && (Completed(j) || j.failed <= 0))
  }

  /** Planned jobs carry the hash of the content they are planned for. */
  lemma PlannedHash(cfg: Config, c: Content, models: seq<Model>, i: nat, seen: set<string>, id: nat)
    requires i <= |models|
    ensures forall j <- Planned(cfg, c, models, i, seen, id) :: j.hash == HashOf(c)
  {
    hide SeederLabels;
    forall j <- Planned(cfg, c, models, i, seen, id) ensures j.hash == HashOf(c) {
      var m :| m in models && m.tag !in seen && j == NewSeederJob(cfg, c, m.tag, j.id);
    }
  }

  lemma ReportNeedsSeeded(
      cfg: Config, w: World, br: Request, models: seq<Model>, env: Env, message: string)
    ensures var listed := Seeders(cfg, w);
            var r := ReportSeeding(cfg, w, br, models, listed, env);
            Holds(r.w, ModelsExists, message) && !Holds(w, ModelsExists, message) ==>
              && message == SeededMessage(cfg, models)
              && (forall m <- models :: exists j <- listed :: Completed(j) && DecodedTag(j.labels) == m.tag)
              && (forall j <- listed :: Completed(j) || j.failed <= 0)
  {
    hide Write, Join, SeededMessage, DecodedTag, Completed, Seeders, UnfinishedNames;
    var listed := Seeders(cfg, w);
    var r := ReportSeeding(cfg, w, br, models, listed, env);
    if Holds(r.w, ModelsExists, message) && !Holds(w, ModelsExists, message) {
      assert UnfinishedNames(listed, true) == [];
      forall m <- models ensures exists j <- listed :: Completed(j) && DecodedTag(j.labels) == m.tag {
        TagListed(models, m);
        assert m.tag in SucceededTags(listed);
      }
    }
  }

  lemma SeedModelsNeedsSeeded(cfg: Config, w: World, br: Request, env: Env, message: string)
    requires Tidy(w) && br == w.req
    ensures var r := SeedModels(cfg, w, br, env);
            Holds(r.w, ModelsExists, message) && !Holds(w, ModelsExists, message) ==>
              message == SeededMessage(cfg, br.content.spec.models) && AllSeeded(cfg, r.w, br.content)
  {
    hide Prune, SeedEach, ReportSeeding, SeederSelector, Tags, Kept, Planned, DecodedTags, Tidy, List, Holds, SeededMessage;
    hide DecodedTag, Completed;
    var models := br.content.spec.models;
    var listed := List(w.jobs, SeederSelector(cfg));
    var hash := HashOf(br.content);
    var p := Prune(w, br, listed, hash, Tags(models), {}, env);
    assert [] + listed == listed;
    TidyUnique(w);
    PruneLists(cfg, w, br, [], listed, hash, Tags(models), {}, env);
    var kept := Kept(listed, hash, Tags(models));
    assert [] + kept == kept;
    SelectedSeeders(cfg, w);
    PruneKeepsBuilders(cfg, w, br, listed, hash, Tags(models), {}, env, true);
    PruneMakesNoneTrue(w, br, listed, hash, Tags(models), {}, env, ModelsExists, message);
    PruneInSync(w, br, listed, hash, Tags(models), {}, env);
    var s := SeedEach(cfg, p.w, p.br, models, 0, p.seen, env);
    SeedEachLists(cfg, p.w, p.br, models, 0, p.seen, env);
    ReportNeedsSeeded(cfg, s.w, p.br, models, env, message);
    SameHolds(p.w, s.w, ModelsExists, message);
    var t := ReportSeeding(cfg, s.w, p.br, models, List(s.w.jobs, SeederSelector(cfg)), env);
    if p.end == Done && s.end == Done && Holds(t.w, ModelsExists, message) && !Holds(w, ModelsExists, message)
       && !env.fails(RelistSeeders) && !env.fails(ListSeeders) {
      PlannedHash(cfg, br.content, models, 0, DecodedTags(kept), p.w.nextId);
      assert forall j <- Seeders(cfg, s.w) :: j.hash == hash;
      assert AllSeeded(cfg, t.w, br.content);
    } else {
      SameHolds(s.w, SeedModels(cfg, w, br, env).w, ModelsExists, message);
      SameHolds(p.w, SeedModels(cfg, w, br, env).w, ModelsExists, message);
      SameHolds(w, SeedModels(cfg, w, br, env).w, ModelsExists, message);
    }
  }

  lemma SameHolds(w: World, w1: World, kind: Kind, message: string)
    ensures w1.req.conditions == w.req.conditions ==> (Holds(w1, kind, message) <==> Holds(w, kind, message))
  {
  }

  /**
   ModelsExists=True is newly written only when every model has a completed job of the current
   hash and no listed job failed without completing, whatever else goes wrong in the phase.
   */
  lemma ModelsExistNeedsSeeded(cfg: Config, w: World, env: Env, message: string)
    requires Tidy(w)
    ensures var r := EnsureModelsExist(cfg, w, w.req, env);
            Holds(r.w, ModelsExists, message) && !Holds(w, ModelsExists, message) ==>
              message == SeededMessage(cfg, w.req.content.spec.models) && AllSeeded(cfg, r.w, w.req.content)
  {
    hide Write, SeedModels, SeededMessage, AllSeeded, Tidy;
    var s := Write(w, ModelsNotReady, SetConditions([NotReady]), env);
    WriteNonTrue(w, ModelsNotReady, [NotReady], env, ModelsExists, message);
    SeedModelsNeedsSeeded(cfg, w, w.req, env, message);
    if s.ok {
      TidySame(w, s.w);
      SeedModelsNeedsSeeded(cfg, s.w, s.br, env, message);
    }
  }
}
