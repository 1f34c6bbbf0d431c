/** Runs: passes of the controller interleaved with whatever the rest of the cluster does. */
module Runs {
  import opened Basics
  import opened Conditions
  import opened Cluster
  import opened Naming
  import opened StatusWriter
  import opened Reconcile
  import opened Listing
  import opened JobFrames

  datatype Step =
    | PassStep(env: Env)
    | EditContent(content: Content)
    | ForeignStatus(edits: seq<ForeignEdit>)
    | Progress(job: nat, succeeded: int, failed: int, active: int, jobConditions: seq<JobCondition>)
    | RegistryChange(images: set<string>)
    | PvcChange(created: set<string>, deleted: set<string>)
    | Tick(now: int)
    | Shuffle(order: seq<Job>)

  function WithStatus(jobs: seq<Job>, step: Step): (r: seq<Job>)
    requires step.Progress?
    ensures |r| == |jobs|
    ensures forall i :: 0 <= i < |jobs| ==>
              r[i] == if jobs[i].id != step.job then jobs[i]
                      else jobs[i].(succeeded := step.succeeded, failed := step.failed,
                                    active := step.active, conditions := step.jobConditions)
  {
    if jobs == [] then []
    else
      var j := jobs[0];
      [if j.id != step.job then j
       else j.(succeeded := step.succeeded, failed := step.failed,
               active := step.active, conditions := step.jobConditions)]
      + WithStatus(jobs[1..], step)
  }

  function Updated(j: Job, step: Step): (r: Job)
    requires step.Progress?
    ensures r.labels == j.labels && r.hash == j.hash && r.id == j.id && r.completions == j.completions
    ensures j.id != step.job ==> r == j
  {
    if j.id != step.job then j
    else j.(succeeded := step.succeeded, failed := step.failed, active := step.active, conditions := step.jobConditions)
  }

  /** A status change of jobs changes nothing else about the listed ones. */
  lemma {:induction false} ProgressUpdates(jobs: seq<Job>, step: Step, selector: Labels)
    requires step.Progress?
    ensures var a, b := List(jobs, selector), List(WithStatus(jobs, step), selector);
            && |a| == |b|
            && forall i :: 0 <= i < |a| ==> b[i] == Updated(a[i], step)
  {
    hide Selects;
    if jobs != [] {
      var rest := WithStatus(jobs[1..], step);
      ProgressUpdates(jobs[1..], step, selector);
      assert WithStatus(jobs, step) == [Updated(jobs[0], step)] + rest;
      ListHead(jobs[0], jobs[1..], selector);
      ListHead(Updated(jobs[0], step), rest, selector);
    }
  }

  lemma ListHead(head: Job, rest: seq<Job>, selector: Labels)
    ensures List([head] + rest, selector)
         == if Selects(selector, head.labels) then [head] + List(rest, selector) else List(rest, selector)
    ensures rest == ([head] + rest)[1..]
  {
    assert ([head] + rest)[1..] == rest;
  }

  /** The clock does not run backwards, and reordering keeps the jobs. */
  function Next(cfg: Config, w: World, step: Step): World
  {
    match step
    case PassStep(env) => Pass(cfg, w, env)
    case EditContent(content) => w.(req := w.req.(content := content, version := w.req.version + 1))
    case ForeignStatus(edits) => Disturbed(w, edits)
    case Progress(_, _, _, _, _) => w.(jobs := WithStatus(w.jobs, step))
    case RegistryChange(images) => w.(registry := images)
    case PvcChange(created, deleted) => w.(pvcs := (w.pvcs + created) - deleted)
    case Tick(now) => w.(now := if now > w.now then now else w.now)
    case Shuffle(order) => if multiset(order) == multiset(w.jobs) then w.(jobs := order) else w
  }

  function Run(cfg: Config, w: World, steps: seq<Step>): World
    decreases |steps|
  {
    if steps == [] then w
    else Next(cfg, Run(cfg, w, steps[..|steps| - 1]), steps[|steps| - 1])
  }

  lemma ThreeSteps(cfg: Config, w: World, a: Step, b: Step, c: Step)
    ensures var steps, w1, w2 := [a, b, c], Next(cfg, w, a), Next(cfg, Next(cfg, w, a), b);
            && Run(cfg, w, steps[..0]) == w && Run(cfg, w, steps[..1]) == w1 && Run(cfg, w, steps[..2]) == w2
            && Run(cfg, w, steps) == Next(cfg, w2, c)
  {
    hide Next;
    var steps := [a, b, c];
    assert steps[..0] == [] && steps[..1] == [a] && steps[..2] == [a, b];
    assert [a][..0] == [] && [a, b][..1] == [a];
  }

  /** Conditions of the request other than BentoAvailable are as they were, or freshly initialised. */
  ghost predicate Entered(w: World, w1: World)
  {
    && w1 == w.(req := w1.req)
    && w1.req.content == w.req.content && w1.req.namespace == w.req.namespace
    && (forall k: Kind :: k.Foreign? || k == BentoAvailable
         || Find(w1.req.conditions, k) == Find(w.req.conditions, k)
         || (Find(w.req.conditions, k).None? && Find(w1.req.conditions, k).Some?
             && Find(w1.req.conditions, k).value.status == Unknown))
  }

  /** The stored state once the deferred handler has reported the error, if there is one. */
  function Concluded(r: BodyResult, env: Env): World
  {
    if r.end.Err? then
      Write(r.w, Deferred, SetConditions([Report(BentoAvailable, False, r.end.message)]), env).w
    else r.w
  }

  /** The state in which a pass runs its phases, or None when it stops before them. */
  function Entry(w: World, env: Env): Option<World>
  {
    if env.fails(GetRequest) || SaysAvailable(w.req.conditions) then None
    else
      var s := Write(w, Initial, SetConditions(InitialReports), env);
      if w.req.conditions == [] && !s.ok then None
      else
        var w0 := if w.req.conditions == [] then s.w else w;
        var available := Find(w0.req.conditions, BentoAvailable);
        if available.None? || available.value.status != Unknown then
          var t := Write(w0, Reconciling, SetConditions([Report(BentoAvailable, Unknown, "Reconciling")]), env);
          if t.ok then Some(t.w) else None
        else Some(w0)
  }

  /**
   Every pass either stops before its phases, having at most touched the status, or runs them on
   the request as stored with BentoAvailable Unknown and reports their error, if any, at the end.
   */
  lemma Enter(cfg: Config, w: World, env: Env) returns (ran: bool, w1: World)
    ensures Entered(w, w1)
    ensures Entry(w, env) == if ran then Some(w1) else None
    ensures w.req.conditions != [] ==> forall k: Kind :: k.Foreign? || k == BentoAvailable
                                         || Find(w1.req.conditions, k) == Find(w.req.conditions, k)
    ensures !ran ==> Pass(cfg, w, env) == w.(req := Pass(cfg, w, env).req)
    ensures !ran ==> forall k: Kind :: k.Foreign? || k == BentoAvailable
                       || Find(Pass(cfg, w, env).req.conditions, k) == Find(w1.req.conditions, k)
    ensures !ran ==> Find(Pass(cfg, w, env).req.conditions, BentoAvailable) == Find(w.req.conditions, BentoAvailable)
                     || (Find(Pass(cfg, w, env).req.conditions, BentoAvailable).Some?
                         && Find(Pass(cfg, w, env).req.conditions, BentoAvailable).value.status != True)
    ensures ran ==> Find(w1.req.conditions, BentoAvailable).Some?
                    && Find(w1.req.conditions, BentoAvailable).value.status == Unknown
    ensures ran ==> Pass(cfg, w, env) == Concluded(Phases(cfg, w1, w1.req, env), env)
    ensures Quiet(env) && !SaysAvailable(w.req.conditions) ==> ran
  {
    hide Phases, Write, Report, Reflects, SetAll, Find, SameOwn, Distinct, Quiet, InitialReports;
    if env.fails(GetRequest) || SaysAvailable(w.req.conditions) {
      Unmoved(w, env);
      return false, w;
    }
    var w0 := w;
    if w.req.conditions == [] {
      var s := Write(w, Initial, SetConditions(InitialReports), env);
      Initialised(w, env);
      if !s.ok {
        return false, s.w;
      }
      w0 := s.w;
    } else {
      Unmoved(w, env);
    }
    var available := Find(w0.req.conditions, BentoAvailable);
    if available.None? || available.value.status != Unknown {
      var s := Write(w0, Reconciling, SetConditions([Report(BentoAvailable, Unknown, "Reconciling")]), env);
      MadeUnknown(w, w0, env);
      return s.ok, s.w;
    }
    return true, w0;
  }

  lemma Unmoved(w: World, env: Env)
    ensures Entered(w, w)
    ensures Quiet(env) ==> !env.fails(GetRequest)
  {
  }

  /** The first write gives an untouched request three Unknown conditions. */
  lemma Initialised(w: World, env: Env)
    requires w.req.conditions == []
    ensures var s := Write(w, Initial, SetConditions(InitialReports), env);
            && Entered(w, s.w)
            && Find(s.w.req.conditions, BentoAvailable) == Find(w.req.conditions, BentoAvailable)
            && (Quiet(env) ==> s.ok)
  {
    hide Write, Distinct, Undisturbed;
    var s := Write(w, Initial, SetConditions(InitialReports), env);
    if Quiet(env) {
      QuietOk(w, Initial, SetConditions(InitialReports), env);
    }
  }

  /** The second makes BentoAvailable Unknown; when it fails, the error is reported as False. */
  lemma MadeUnknown(w: World, w0: World, env: Env)
    requires Entered(w, w0)
    ensures var s := Write(w0, Reconciling, SetConditions([Report(BentoAvailable, Unknown, "Reconciling")]), env);
            var t := Write(s.w, Deferred, SetConditions([Report(BentoAvailable, False, "update status")]), env);
            && Entered(w, s.w)
            && (forall k: Kind :: k.Foreign? || k == BentoAvailable
                  || Find(s.w.req.conditions, k) == Find(w0.req.conditions, k))
            && (s.ok ==> Find(s.w.req.conditions, BentoAvailable).Some?
                         && Find(s.w.req.conditions, BentoAvailable).value.status == Unknown)
            && t.w == w.(req := t.w.req)
            && (forall k: Kind :: k.Foreign? || k == BentoAvailable
                  || Find(t.w.req.conditions, k) == Find(s.w.req.conditions, k))
            && (Find(t.w.req.conditions, BentoAvailable) == Find(w0.req.conditions, BentoAvailable)
                || (Find(t.w.req.conditions, BentoAvailable).Some?
                    && Find(t.w.req.conditions, BentoAvailable).value.status != True))
            && (Quiet(env) ==> s.ok)
  {
    hide Write, Distinct, Undisturbed;
    var update := SetConditions([Report(BentoAvailable, Unknown, "Reconciling")]);
    var s := Write(w0, Reconciling, update, env);
    var t := Write(s.w, Deferred, SetConditions([Report(BentoAvailable, False, "update status")]), env);
    if Quiet(env) {
      QuietOk(w0, Reconciling, update, env);
    }
  }

  lemma PassTidy(cfg: Config, w: World, env: Env)
    requires Tidy(w)
    ensures Tidy(Pass(cfg, w, env))
  {
    hide Pass, Phases, Tidy, Write, Entered;
    var ran, w1 := Enter(cfg, w, env);
    if ran {
      TidySame(w, w1) by { assert Entered(w, w1); SameStore(w, w1); }
      PhasesTidy(cfg, w1, w1.req, env);
      TidySame(Phases(cfg, w1, w1.req, env).w, Pass(cfg, w, env));
    } else {
      TidySame(w, Pass(cfg, w, env));
    }
  }

  lemma SameStore(w: World, w1: World)
    requires Entered(w, w1)
    ensures w1.jobs == w.jobs && w1.nextId == w.nextId && w1.pvcs == w.pvcs && w1.bento == w.bento
    ensures w1.registry == w.registry && w1.now == w.now && SameRequest(w1.req, w.req)
  {
  }

  lemma StepTidy(cfg: Config, w: World, step: Step)
    requires Tidy(w)
    ensures Tidy(Next(cfg, w, step))
  {
    hide Pass, WithForeign;
    match step
    case PassStep(env) => PassTidy(cfg, w, env);
    case Progress(_, _, _, _, _) =>
      var r := WithStatus(w.jobs, step);
      assert forall i :: 0 <= i < |r| ==> r[i].id == w.jobs[i].id && r[i].labels == w.jobs[i].labels;
    case Shuffle(order) =>
      if multiset(order) == multiset(w.jobs) {
        ShuffledUnique(w.jobs, order);
        assert forall j <- order :: j in multiset(order);
      }
    case _ =>
  }

  lemma ShuffledUnique(jobs: seq<Job>, order: seq<Job>)
    requires UniqueIds(jobs) && multiset(jobs) == multiset(order)
    ensures UniqueIds(order)
  {
    forall i, j | 0 <= i < j < |order| ensures order[i].id != order[j].id {
      var a, b := order[i], order[j];
      OnceEach(jobs, a);
      if a == b {
        CountedTwice(order, i, j);
      }
      assert a in multiset(jobs) && b in multiset(jobs);
      var p :| 0 <= p < |jobs| && jobs[p] == a;
      var q :| 0 <= q < |jobs| && jobs[q] == b;
      assert p < q || q < p;
    }
  }

  lemma CountedTwice(jobs: seq<Job>, i: nat, j: nat)
    requires i < j < |jobs| && jobs[i] == jobs[j]
    ensures multiset(jobs)[jobs[i]] >= 2
  {
    assert jobs == jobs[..j] + jobs[j..];
    assert jobs[..j][i] == jobs[i] && jobs[j..][0] == jobs[i];
    assert jobs[i] in jobs[..j] && jobs[i] in jobs[j..];
  }

  lemma {:induction false} OnceEach(jobs: seq<Job>, a: Job)
    requires UniqueIds(jobs)
    ensures multiset(jobs)[a] <= 1
  {
    if jobs != [] {
      var rest := jobs[1..];
      assert jobs == [jobs[0]] + rest;
      assert UniqueIds(rest) by {
        assert forall k :: 0 <= k < |rest| ==> rest[k] == jobs[k + 1];
      }
      OnceEach(rest, a);
      HeadIdIsNew(jobs);
      if jobs[0] == a {
        assert a !in rest;
      }
    }
  }

  lemma {:induction false} RunTidy(cfg: Config, w: World, steps: seq<Step>)
    requires Tidy(w)
    ensures Tidy(Run(cfg, w, steps))
    decreases |steps|
  {
    hide Next, Tidy;
    if steps != [] {
      var before := steps[..|steps| - 1];
      RunTidy(cfg, w, before);
      StepTidy(cfg, Run(cfg, w, before), steps[|steps| - 1]);
    }
  }
}
