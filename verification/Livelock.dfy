/**
 Affinity: a request with an affinity of its own never gets a builder job it recognises. The job's
 hash is taken after pod generation has grown the shared affinity, so it is stale from birth.
 */
module Livelock {
  import opened Basics
  import opened Conditions
  import opened Cluster
  import opened Naming
  import opened StatusWriter
  import opened ImagePhase
  import opened ModelsPhase
  import opened Reconcile
  import opened JobFrames
  import opened StatusFrames
  import opened Runs
  import opened BuilderJobs
  import opened Convergence
  import opened Availability

  /** Pod generation leaves the content as it was exactly when there is no affinity to share. */
  lemma PodGenerationIsNeutralIff(cfg: Config, c: Content)
    ensures AfterPodGeneration(cfg, c) == c <==> !HasAffinity(c)
  {
    if HasAffinity(c) {
      var a := c.spec.extraPodSpec.value.affinity.value;
      var b := WithTerm(cfg, a);
      if a.podAffinity.Some? {
        assert |b.podAffinity.value.preferred| == |a.podAffinity.value.preferred| + 1;
      }
      assert b != a;
      assert AfterPodGeneration(cfg, c).spec.extraPodSpec.value.affinity.value == b;
    }
  }

  /** A fresh builder job carries the hash the next pass compares with, exactly without an affinity. */
  lemma FreshJobIsCurrentIff(cfg: Config, c: Content, image: string, id: nat)
    ensures NewBuilderJob(cfg, c, image, id).hash == HashOf(c) <==> !HasAffinity(c)
  {
    PodGenerationIsNeutralIff(cfg, c);
    FreshHash(cfg, c, image, id);
  }

  /** No builder job of the request's mode is current. */
  predicate NoneCurrent(cfg: Config, w: World)
  {
    forall j <- OwnBuilders(cfg, w) :: j.hash != HashOf(w.req.content)
  }

  /** Nothing claims that the image is there, and no job is being recognised that would make it. */
  ghost predicate Doomed(cfg: Config, w: World, image: string)
  {
    && NoneCurrent(cfg, w)
    && !Holds(w, ImageExists, image) && !Holds(w, ImageExistsChecked, image)
    && NotAvailable(w)
  }

  /** Whichever mode is listed and whatever image is named, no current job is found or made. */
  lemma DoomedEnsureBuilt(
      cfg: Config, w: World, br: Request, separateModels: bool, name: string, env: Env, image: string)
    requires Doomed(cfg, w, image) && HasAffinity(w.req.content) && SameRequest(br, w.req) && Tidy(w)
    ensures var r := EnsureBuilt(cfg, w, br, separateModels, name, env);
            Doomed(cfg, r.w, image) && !r.present
  {
    hide BuilderSelector, NewBuilderJob, TrackBuild, DropStale, List, IsSeparateModels, HasAffinity, Without, IsTrue, Find;
    hide Tidy, OwnBuilders;
    var listed := Builders(cfg, w, separateModels);
    var stale := FirstStale(listed, HashOf(br.content));
    NoneListedCurrent(cfg, w, separateModels);
    if listed != [] {
      assert listed[0] in listed;
      assert stale == 0;
      DoomedDropStale(cfg, w, br, listed[0], name, env, image);
      FewerCurrent(cfg, w, DropStale(w, br, listed[0], name, env).w);
    } else {
      CreatesNoneCurrent(cfg, w, name);
      FewerCurrent(cfg, w, w.(nextId := w.nextId + 1));
    }
  }

  lemma CreatesNoneCurrent(cfg: Config, w: World, name: string)
    requires NoneCurrent(cfg, w) && HasAffinity(w.req.content)
    ensures NoneCurrent(cfg, w.(jobs := w.jobs + [NewBuilderJob(cfg, w.req.content, name, w.nextId)], nextId := w.nextId + 1))
  {
    hide NewBuilderJob, HasAffinity, BuilderSelector, List, IsSeparateModels;
    var c := w.req.content;
    BuildersAfterCreate(cfg, w, c, name, IsSeparateModels(c));
    FreshJobIsCurrentIff(cfg, c, name, w.nextId);
  }

  lemma NoneListedCurrent(cfg: Config, w: World, separateModels: bool)
    requires NoneCurrent(cfg, w) && Tidy(w)
    ensures forall j <- Builders(cfg, w, separateModels) :: j.hash != HashOf(w.req.content)
  {
    hide BuilderSelector, List, IsSeparateModels, Tidy;
    ModeOfListed(cfg, w, separateModels);
  }

  lemma FewerCurrent(cfg: Config, w: World, w1: World)
    requires NoneCurrent(cfg, w) && w1.req.content == w.req.content && forall j <- w1.jobs :: j in w.jobs
    ensures NoneCurrent(cfg, w1)
  {
    hide BuilderSelector, Selects, IsSeparateModels;
  }

  lemma DoomedDropStale(cfg: Config, w: World, br: Request, job: Job, name: string, env: Env, image: string)
    requires !Holds(w, ImageExists, image) && !Holds(w, ImageExistsChecked, image) && NotAvailable(w)
    ensures var r := DropStale(w, br, job, name, env);
            !Holds(r.w, ImageExists, image) && !Holds(r.w, ImageExistsChecked, image) && NotAvailable(r.w)
  {
    hide Write;
  }

  lemma DoomedImagePhase(cfg: Config, w: World, br: Request, image: string, env: Env)
    requires Doomed(cfg, w, image) && HasAffinity(w.req.content) && Absent(cfg, w, image)
    requires (SameRequest(br, w.req) || br == EmptyRequest) && Backed(w, br) && Tidy(w)
    ensures var r := EnsureImageExists(cfg, w, br, env);
            Doomed(cfg, r.w, image) && (SameRequest(br, w.req) ==> !r.present)
  {
    hide EnsureBuilt, CheckImage, BentoImageName, NoneCurrent, NotAvailable, HasAffinity, Write, Tidy, RegistryReports;
    var name := BentoImageName(cfg, br.namespace, br.content, false);
    if name.Some? {
      assert SameRequest(br, w.req) ==> Claim(br.conditions, ImageExistsChecked) != Some(image);
      DoomedCheckImage(cfg, w, IsSeparateModels(br.content), name.value, env, image);
    }
  }

  lemma DoomedCheckImage(cfg: Config, w: World, separateModels: bool, name: string, env: Env, image: string)
    requires Doomed(cfg, w, image) && HasAffinity(w.req.content) && Tidy(w)
    requires !RegistryReports(w, w.req.content, image)
    ensures var r := CheckImage(cfg, w, separateModels, name, env);
            Doomed(cfg, r.w, image) && (name == image ==> !r.present)
  {
    hide EnsureBuilt, OwnBuilders, HasAffinity, Write, Reflects, SameOwn, Find, Tidy, RegistryReports;
    var first := [Report(ImageExistsChecked, Unknown, name), Report(BentoAvailable, Unknown, "Checking image exists")];
    var s := Write(w, CheckingImage, SetConditions(first), env);
    var found := RegistryReports(s.w, s.br.content, name);
    SameReports(w, s.w);
    var t := Write(s.w, CheckedImage, SetConditions(CheckedConditions(found, name)), env);
    DoomedWrite(cfg, w, CheckingImage, first, env, image);
    if s.ok {
      DoomedWrite(cfg, s.w, CheckedImage, CheckedConditions(found, name), env, image);
      TidySame(w, t.w);
      if t.ok {
        DoomedEnsureBuilt(cfg, t.w, t.br, separateModels, name, env, image);
      }
    }
  }

  lemma DoomedWrite(cfg: Config, w: World, site: Site, news: seq<Condition>, env: Env, image: string)
    requires Doomed(cfg, w, image)
    requires forall c <- news :: c.status == True ==> c.kind != BentoAvailable && c.message != image
    ensures Doomed(cfg, Write(w, site, SetConditions(news), env).w, image)
  {
    hide Write, OwnBuilders, Find;
    var w' := Write(w, site, SetConditions(news), env).w;
    SameBuilders(cfg, w, w');
    WriteNonTrue(w, site, news, env, ImageExists, image);
    WriteNonTrue(w, site, news, env, ImageExistsChecked, image);
    var c := Find(w'.req.conditions, BentoAvailable);
    if c.Some? {
      WriteNonTrue(w, site, news, env, BentoAvailable, c.value.message);
    }
  }

  lemma DoomedModels(cfg: Config, w: World, image: string, env: Env)
    requires Doomed(cfg, w, image) && Tidy(w)
    ensures var r := EnsureModelsExist(cfg, w, w.req, env);
            && Doomed(cfg, r.w, image) && Tidy(r.w)
            && Backed(r.w, r.br) && SameRequest(r.w.req, w.req)
            && (SameRequest(r.br, w.req) || (r.br == EmptyRequest && r.end.Err?))
            && r.w.registry == w.registry
  {
    hide EnsureModelsExist, Tidy, ModelsPhaseReads, Claim, NotAvailable, Holds, List, BuilderSelector;
    ModelsPhaseKeepsRequest(cfg, w, w.req, env);
    ModelsPhaseKeepsBuilders(cfg, w, w.req, env, IsSeparateModels(w.req.content));
    ModelsPhaseClaims(cfg, w, env);
    ModelsPhaseMakesNoneTrue(cfg, w, w.req, env, ImageExists, image);
    ModelsPhaseMakesNoneTrue(cfg, w, w.req, env, ImageExistsChecked, image);
    ModelsPhaseAnnouncesNothing(cfg, w, env);
  }

  lemma DoomedPhases(cfg: Config, w: World, image: string, env: Env)
    requires Doomed(cfg, w, image) && HasAffinity(w.req.content) && Absent(cfg, w, image)
    requires Tidy(w)
    ensures Doomed(cfg, Phases(cfg, w, w.req, env).w, image)
  {
    hide EnsureModelsExist, EnsureImageExists, Finish, Tidy, Doomed, Backed, HasAffinity, Absent;
    var models := if SeedsModels(w.req.content) then EnsureModelsExist(cfg, w, w.req, env)
                  else ModelsResult(w, w.req, false, Done);
    DoomedModels(cfg, w, image, env);
    SelfBacked(w);
    SameAbsent(cfg, w, models.w, image);
    DoomedImagePhase(cfg, models.w, models.br, image, env);
    var r := EnsureImageExists(cfg, models.w, models.br, env);
    DoomedFinish(cfg, IsSeparateModels(w.req.content), models, r, image, env);
  }

  lemma SelfBacked(w: World)
    ensures Backed(w, w.req)
  {
  }

  lemma DoomedFinish(cfg: Config, separateModels: bool, models: ModelsResult, r: ImageResult, image: string, env: Env)
    requires Doomed(cfg, r.w, image) && (!r.present || models.end.Err?)
    ensures Doomed(cfg, Finish(cfg, separateModels, models, r, env).w, image)
  {
    hide Write, Doomed;
    DoomedWrite(cfg, r.w, WaitingForImage, [Report(BentoAvailable, Unknown, "Bento image is building")], env, image);
  }

  lemma DoomedPass(cfg: Config, w: World, image: string, env: Env)
    requires Doomed(cfg, w, image) && HasAffinity(w.req.content) && Absent(cfg, w, image)
    requires Tidy(w) && Distinct(w.req.conditions)
    ensures Doomed(cfg, Pass(cfg, w, env), image)
  {
    hide Pass, Phases, Tidy, Write, Entry, BentoImageName, HasAffinity, OwnBuilders, Distinct;
    var ran, w1 := Enter(cfg, w, env);
    SameStore(w, w1);
    TidySame(w, w1);
    SameBuilders(cfg, w, w1);
    if ran {
      DoomedPhases(cfg, w1, image, env);
      var r := Phases(cfg, w1, w1.req, env);
      SameBuilders(cfg, r.w, Concluded(r, env));
    } else {
      SameBuilders(cfg, w, Pass(cfg, w, env));
    }
  }

  lemma DoomedOtherStep(cfg: Config, w: World, step: Step, image: string)
    requires Doomed(cfg, w, image) && Tidy(w) && Distinct(w.req.conditions)
    requires !step.PassStep? && !step.EditContent?
    ensures Doomed(cfg, Next(cfg, w, step), image) && Distinct(Next(cfg, w, step).req.conditions)
  {
    hide Pass, Tidy, BuilderSelector, WithForeign, Distinct, IsSeparateModels;
    var selector := BuilderSelector(cfg, IsSeparateModels(w.req.content));
    match step
    case Progress(_, _, _, _, _) =>
      ProgressKeepsStale(w.jobs, step, selector, HashOf(w.req.content));
      var a, b := List(w.jobs, selector), List(WithStatus(w.jobs, step), selector);
      forall j <- b ensures j.hash != HashOf(w.req.content) {
        var i :| 0 <= i < |b| && b[i] == j;
        assert a[i] in a;
      }
    case Shuffle(order) =>
      if multiset(order) == multiset(w.jobs) {
        forall j <- order ensures j in w.jobs {
          assert j in multiset(order);
        }
      }
    case _ =>
  }

  /**
   A request with an affinity of its own, whose image is not in the registry, is never served by a
   builder job: in no run that leaves the request alone does any builder job become current, is the
   image reported as existing, or the Bento as available.
   */
  lemma {:induction false} AffinityNeverBuilds(cfg: Config, w: World, steps: seq<Step>, image: string)
    requires Tidy(w) && Distinct(w.req.conditions) && HasAffinity(w.req.content)
    requires Absent(cfg, w, image) && Doomed(cfg, w, image)
    requires forall s <- steps :: !s.EditContent? && (s.RegistryChange? ==> image !in s.images)
    ensures var r := Run(cfg, w, steps);
            && Tidy(r) && Distinct(r.req.conditions) && HasAffinity(r.req.content)
            && Absent(cfg, r, image) && Doomed(cfg, r, image)
    decreases |steps|
  {
    hide Pass, Tidy, BentoImageName, HasAffinity, Doomed, Distinct, WithForeign;
    if steps != [] {
      var before, last := steps[..|steps| - 1], steps[|steps| - 1];
      assert last in steps;
      AffinityNeverBuilds(cfg, w, before, image);
      var u := Run(cfg, w, before);
      StepTidy(cfg, u, last);
      if last.PassStep? {
        DoomedPass(cfg, u, image, last.env);
        SameAbsent(cfg, u, Pass(cfg, u, last.env), image);
      } else {
        DoomedOtherStep(cfg, u, last, image);
      }
    }
  }
}
