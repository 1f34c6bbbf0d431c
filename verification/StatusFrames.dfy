/** Which conditions a phase can make True, whatever fails along the way. */
module StatusFrames {
  import opened Basics
  import opened Conditions
  import opened Cluster
  import opened Naming
  import opened StatusWriter
  import opened ImagePhase
  import opened ModelsPhase

  /** A condition that is True in the store or in a local copy was True in the store before. */
  ghost predicate NoneMadeTrue(w: World, w': World, br: Request, kind: Kind, message: string)
  {
    && (Holds(w', kind, message) ==> Holds(w, kind, message))
    && (IsTrue(Find(br.conditions, kind), message) ==> Holds(w, kind, message))
  }

  predicate OutsideModels(kind: Kind)
  {
    !kind.Foreign? && kind != ModelsExists && kind != ModelsSeeding
  }

  /** The models phase makes only its own two condition types True. */
  lemma ModelsPhaseMakesNoneTrue(cfg: Config, w: World, br: Request, env: Env, kind: Kind, message: string)
    requires br == w.req && OutsideModels(kind)
    ensures var r := EnsureModelsExist(cfg, w, br, env);
            NoneMadeTrue(w, r.w, r.br, kind, message)
  {
    hide Write, SeedModels, SeededMessage;
    var s := Write(w, ModelsNotReady, SetConditions([NotReady]), env);
    SeedModelsMakesNoneTrue(cfg, w, br, env, kind, message);
    if s.ok {
      SeedModelsMakesNoneTrue(cfg, s.w, s.br, env, kind, message);
    }
  }

  lemma SeedModelsMakesNoneTrue(cfg: Config, w: World, br: Request, env: Env, kind: Kind, message: string)
    requires br == w.req && OutsideModels(kind)
    ensures var r := SeedModels(cfg, w, br, env);
            NoneMadeTrue(w, r.w, r.br, kind, message)
  {
    hide Prune, SeedEach, ReportSeeding, List, SeederSelector, Tags;
    var models := br.content.spec.models;
    var listed := List(w.jobs, SeederSelector(cfg));
    PruneMakesNoneTrue(w, br, listed, HashOf(br.content), Tags(models), {}, env, kind, message);
    var p := Prune(w, br, listed, HashOf(br.content), Tags(models), {}, env);
    var s := SeedEach(cfg, p.w, p.br, models, 0, p.seen, env);
    ReportMakesNoneTrue(cfg, s.w, p.br, models, List(s.w.jobs, SeederSelector(cfg)), env, kind, message);
  }

  lemma ReportMakesNoneTrue(
      cfg: Config, w: World, br: Request, models: seq<Model>, listed: seq<Job>, env: Env, kind: Kind, message: string)
    requires OutsideModels(kind)
    ensures var r := ReportSeeding(cfg, w, br, models, listed, env);
            && (Holds(r.w, kind, message) ==> Holds(w, kind, message))
            && (r.br == br || (IsTrue(Find(r.br.conditions, kind), message) ==> Holds(w, kind, message)))
  {
    hide Write, UnfinishedNames, SucceededTags, Join, SeededMessage, Tags;
  }

  lemma {:induction false} PruneMakesNoneTrue(
      w: World, br: Request, listed: seq<Job>, hash: Hash, tags: seq<string>, seen: set<string>, env: Env,
      kind: Kind, message: string)
    requires br == w.req && !kind.Foreign?
    ensures var r := Prune(w, br, listed, hash, tags, seen, env);
            NoneMadeTrue(w, r.w, r.br, kind, message)
    decreases |listed|
  {
    hide Write, DecodedTag;
    if listed != [] {
      var job := listed[0];
      var tag := DecodedTag(job.labels);
      var w1 := w.(jobs := Without(w.jobs, job.id));
      if job.hash == hash && tag in tags {
        PruneMakesNoneTrue(w, br, listed[1..], hash, tags, seen + {tag}, env, kind, message);
      } else if !env.fails(DeleteJob(job.id)) {
        if job.hash == hash {
          PruneMakesNoneTrue(w1, br, listed[1..], hash, tags, seen, env, kind, message);
        } else {
          var s := Write(w1, SeederStale(job.id), ToUnknown("Bento request hash changed, recreating the jobs"), env);
          if s.ok {
            PruneMakesNoneTrue(s.w, s.br, listed[1..], hash, tags, seen, env, kind, message);
          }
        }
      }
    }
  }

  /** The image a condition says is there, if it is True. */
  function Claim(conditions: seq<Condition>, kind: Kind): Option<string>
  {
    var c := Find(conditions, kind);
    if c.Some? && c.value.status == True then Some(c.value.message) else None
  }

  /** The object a phase is handed claims nothing about the image that the store does not. */
  predicate Backed(w: World, br: Request)
  {
    && (Claim(br.conditions, ImageExists).Some? ==> Claim(br.conditions, ImageExists) == Claim(w.req.conditions, ImageExists))
    && (Claim(br.conditions, ImageExistsChecked).Some? ==>
          Claim(br.conditions, ImageExistsChecked) == Claim(w.req.conditions, ImageExistsChecked))
  }

  /** Both claims about the image are as they were, or neither is made any more. */
  predicate KeptOrReset(before: seq<Condition>, after: seq<Condition>)
  {
    || (&& Claim(after, ImageExists) == Claim(before, ImageExists)
        && Claim(after, ImageExistsChecked) == Claim(before, ImageExistsChecked))
    || (Claim(after, ImageExists) == None && Claim(after, ImageExistsChecked) == None)
  }

  /** The models phase keeps the two claims together, in the store and in what it hands on. */
  lemma NotReadyClaims(w: World, env: Env)
    ensures var s := Write(w, ModelsNotReady, SetConditions([NotReady]), env);
            && KeptOrReset(w.req.conditions, s.w.req.conditions) && Backed(s.w, s.br)
            && (forall k: Kind :: k.Foreign? || k == ModelsExists ||
                  Find(s.w.req.conditions, k) == Find(w.req.conditions, k))
  {
    hide Write;
  }

  lemma ModelsPhaseClaims(cfg: Config, w: World, env: Env)
    ensures var r := EnsureModelsExist(cfg, w, w.req, env);
            KeptOrReset(w.req.conditions, r.w.req.conditions) && Backed(r.w, r.br)
  {
    hide Write, SeedModels, SeededMessage, IsTrue, Distinct, Claim, Reflects, SameOwn;
    var s := Write(w, ModelsNotReady, SetConditions([NotReady]), env);
    NotReadyClaims(w, env);
    SeedModelsClaims(cfg, w, w.req, env);
    if s.ok {
      SeedModelsClaims(cfg, s.w, s.br, env);
    }
  }

  lemma SeedModelsClaims(cfg: Config, w: World, br: Request, env: Env)
    requires br == w.req
    ensures var r := SeedModels(cfg, w, br, env);
            KeptOrReset(w.req.conditions, r.w.req.conditions) && Backed(r.w, r.br)
  {
    hide Prune, SeedEach, ReportSeeding, List, SeederSelector, Tags, Claim;
    var models := br.content.spec.models;
    var listed := List(w.jobs, SeederSelector(cfg));
    PruneClaims(w, br, listed, HashOf(br.content), Tags(models), {}, env);
    var p := Prune(w, br, listed, HashOf(br.content), Tags(models), {}, env);
    var s := SeedEach(cfg, p.w, p.br, models, 0, p.seen, env);
    ReportClaims(cfg, s.w, p.br, models, List(s.w.jobs, SeederSelector(cfg)), env);
  }

  lemma ReportClaims(cfg: Config, w: World, br: Request, models: seq<Model>, listed: seq<Job>, env: Env)
    requires Backed(w, br)
    ensures var r := ReportSeeding(cfg, w, br, models, listed, env);
            KeptOrReset(w.req.conditions, r.w.req.conditions) && Backed(r.w, r.br)
  {
    hide Write, UnfinishedNames, SucceededTags, Join, SeededMessage, Tags, Claim, Reflects, SameOwn;
    forall site: Site, news: seq<Condition> | ModelsReports(news)
      ensures var s := Write(w, site, SetConditions(news), env);
              KeptOrReset(w.req.conditions, s.w.req.conditions) && Backed(s.w, s.br)
    {
      ModelsWriteClaims(w, site, news, env);
    }
    NothingClaimed(w, br);
  }

  lemma NothingClaimed(w: World, br: Request)
    ensures KeptOrReset(w.req.conditions, w.req.conditions)
  {
  }

  lemma NothingFound(kind: Kind)
    ensures Find(EmptyRequest.conditions, kind) == None
  {
  }

  /** One or two reports of the kinds the models phase writes. */
  predicate ModelsReports(news: seq<Condition>)
  {
    && 1 <= |news| <= 2
    && forall c <- news :: c.kind == ModelsExists || c.kind == ModelsSeeding || c.kind == BentoAvailable
  }

  lemma ModelsWriteClaims(w: World, site: Site, news: seq<Condition>, env: Env)
    requires ModelsReports(news)
    ensures var s := Write(w, site, SetConditions(news), env);
            KeptOrReset(w.req.conditions, s.w.req.conditions) && Backed(s.w, s.br)
  {
    hide Write, SetAll, Find;
    SetAllUntouched(w.req.conditions, news, w.now, ImageExists);
    SetAllUntouched(w.req.conditions, news, w.now, ImageExistsChecked);
    assert Find(EmptyRequest.conditions, ImageExists) == None by { NothingFound(ImageExists); }
    assert Find(EmptyRequest.conditions, ImageExistsChecked) == None by { NothingFound(ImageExistsChecked); }
  }

  lemma {:induction false} PruneClaims(
      w: World, br: Request, listed: seq<Job>, hash: Hash, tags: seq<string>, seen: set<string>, env: Env)
    requires br == w.req
    ensures var r := Prune(w, br, listed, hash, tags, seen, env);
            KeptOrReset(w.req.conditions, r.w.req.conditions) && Backed(r.w, r.br)
    decreases |listed|
  {
    hide Write, DecodedTag;
    if listed != [] {
      var job := listed[0];
      var tag := DecodedTag(job.labels);
      var w1 := w.(jobs := Without(w.jobs, job.id));
      if job.hash == hash && tag in tags {
        PruneClaims(w, br, listed[1..], hash, tags, seen + {tag}, env);
      } else if !env.fails(DeleteJob(job.id)) {
        if job.hash == hash {
          PruneClaims(w1, br, listed[1..], hash, tags, seen, env);
        } else {
          var s := Write(w1, SeederStale(job.id), ToUnknown("Bento request hash changed, recreating the jobs"), env);
          if s.ok {
            PruneClaims(s.w, s.br, listed[1..], hash, tags, seen, env);
          }
        }
      }
    }
  }

  lemma {:induction false} SetAllNonTrue(conditions: seq<Condition>, news: seq<Condition>, now: int, kind: Kind, message: string)
    requires forall c <- news :: c.status == True && c.kind == kind ==> c.message != message
    ensures IsTrue(Find(SetAll(conditions, news, now), kind), message) ==> IsTrue(Find(conditions, kind), message)
    decreases |news|
  {
    if news != [] {
      assert news[0] in news;
      SetAllNonTrue(Set(conditions, news[0], now), news[1..], now, kind, message);
    }
  }

  /** Reports that are not True, or not about that, do not make it True. */
  lemma WriteNonTrue(w: World, site: Site, news: seq<Condition>, env: Env, kind: Kind, message: string)
    requires (forall c <- news :: c.status == True && c.kind == kind ==> c.message != message) && !kind.Foreign?
    ensures Holds(Write(w, site, SetConditions(news), env).w, kind, message) ==> Holds(w, kind, message)
  {
    hide Write, SetAll, Find, IsTrue;
    SetAllNonTrue(w.req.conditions, news, w.now, kind, message);
  }

  /** A writer leaves every condition type of the controller's alone that it does not report. */
  lemma WriteLeaves(w: World, site: Site, news: seq<Condition>, env: Env, kind: Kind)
    requires (forall c <- news :: c.kind != kind) && !kind.Foreign?
    ensures Find(Write(w, site, SetConditions(news), env).w.req.conditions, kind) == Find(w.req.conditions, kind)
  {
    hide Write, SetAll, Find;
    SetAllUntouched(w.req.conditions, news, w.now, kind);
  }
}
