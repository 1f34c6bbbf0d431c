/**
 Writing the request's status against concurrent writers: read, change the local copy, replace
 the stored object if its version is still the one read, and retry twice when it is not.
 */
module StatusWriter {
  import opened Conditions
  import opened Cluster

  /** The places in a pass where the status is written. */
  datatype Site =
    | Initial
    | Reconciling
    | ModelsNotReady
    | SeederStale(job: nat)
    | ModelsFailed
    | ModelsReady
    | ModelsWaiting
    | CheckingImage
    | CheckedImage
    | BuilderStale
    | Building
    | BuildHasFailed
    | BuildHasSucceeded
    | WaitingForImage
    | WaitingForModels
    | Available
    | Deferred

  /** The API calls of a pass that may fail, each at its own place. */
  datatype Call =
    | GetRequest
    | Fetch(site: Site, attempt: nat)
    | Put(site: Site, attempt: nat)
    | Refetch(site: Site)
    | GetImageInfo
    | CheckRegistry
    | RefetchChecked
    | ListBuilders
    | DeleteJob(job: nat)
    | GenerateBuilder
    | CreateBuilder
    | RefetchBuilding
    | ListSeeders
    | GetPvc(model: nat)
    | CreatePvc(model: nat)
    | GenerateSeeder(model: nat)
    | GetSeeder(model: nat)
    | CreateSeeder(model: nat)
    | UpdateSeeder(model: nat)
    | RelistSeeders
    | ListPods
    | ListModelSeeders(model: nat)
    | DeletePvc(model: nat)
    | SetOwner
    | FetchBento
    | CreateBento
    | GetBento
    | UpdateBento

  /** A status write by someone else, to a condition type the controller does not own. */
  datatype ForeignEdit = ForeignEdit(name: string, status: Status, reason: string, message: string)

  /**
   What a pass cannot decide itself: which calls fail, which foreign writes land between a
   writer's read and its update (attempts 0 to 2) or after it (3), and what the pods report.
   */
  datatype Env = Env(
    fails: Call -> bool,
    foreign: (Site, nat) -> seq<ForeignEdit>,
    podsUninitialised: bool)

  datatype Update = SetConditions(conditions: seq<Condition>) | ToUnknown(message: string)

  function Applied(update: Update, conditions: seq<Condition>, now: int): seq<Condition>
  {
    match update
    case SetConditions(news) => SetAll(conditions, news, now)
    case ToUnknown(message) => RangeUnknown(conditions, 0, message, now)
  }

  function WithForeign(conditions: seq<Condition>, edits: seq<ForeignEdit>, now: int): (r: seq<Condition>)
    ensures SameOwn(conditions, r)
    ensures Distinct(conditions) ==> Distinct(r)
    decreases |edits|
  {
    if edits == [] then conditions
    else
      var e := edits[0];
      var c := Condition(Foreign(e.name), e.status, e.reason, e.message, 0);
      assert Distinct(conditions) ==> Distinct(Set(conditions, c, now)) by {
        if Distinct(conditions) {
          SetKeepsDistinct(conditions, c, now);
        }
      }
      WithForeign(Set(conditions, c, now), edits[1..], now)
  }

  lemma AppliedKeepsDistinct(update: Update, conditions: seq<Condition>, now: int)
    requires Distinct(conditions)
    ensures Distinct(Applied(update, conditions, now))
  {
    match update
    case SetConditions(news) => SetAllKeepsDistinct(conditions, news, now);
    case ToUnknown(_) =>
  }

  /** Foreign writes bump the version once each. */
  function Disturbed(w: World, edits: seq<ForeignEdit>): World
  {
    w.(req := w.req.(conditions := WithForeign(w.req.conditions, edits, w.now), version := w.req.version + |edits|))
  }

  /** wrote tells whether the store took the update; ok is what the caller sees. */
  datatype Written = Written(w: World, br: Request, ok: bool, wrote: bool)

  /** What a completed update means for the controller's own condition types. */
  ghost predicate Reflects(update: Update, before: seq<Condition>, after: seq<Condition>, now: int)
  {
    match update
    case SetConditions(news) => SameOwn(SetAll(before, news, now), after)
    case ToUnknown(message) =>
      forall k: Kind :: k.Foreign?
        || (&& (Find(after, k).Some? <==> Find(before, k).Some?)
            && (Find(after, k).Some? ==> Marked(Find(after, k).value, message)))
  }

  lemma AppliedReflects(update: Update, before: seq<Condition>, read: seq<Condition>, after: seq<Condition>, now: int)
    requires SameOwn(before, read) && SameOwn(Applied(update, read, now), after)
    ensures Reflects(update, before, after, now)
  {
    match update
    case SetConditions(news) =>
      SetAllKeepsOwn(before, read, news, now);
    case ToUnknown(message) =>
      forall k: Kind | !k.Foreign?
        ensures && (Find(after, k).Some? <==> Find(before, k).Some?)
                && (Find(after, k).Some? ==> Marked(Find(after, k).value, message))
      {
        RangeUnknownFinds(read, message, now, k);
      }
  }

  /** Attempt i of a writer; br is the object it read into, kept when a later read fails. */
  function Attempt(w: World, site: Site, update: Update, env: Env, i: nat, br: Request): (r: Written)
    requires i < 3
    ensures r.w == w.(req := r.w.req)
    ensures r.w.req.content == w.req.content && r.w.req.namespace == w.req.namespace
    ensures r.ok ==> r.wrote && r.br == r.w.req
    ensures r.br == br || (r.br.content == w.req.content && r.br.namespace == w.req.namespace)
    ensures r.br == br || Reflects(update, w.req.conditions, r.br.conditions, w.now)
    ensures !env.fails(Fetch(site, i)) ==> r.br.content == w.req.content && r.br.namespace == w.req.namespace
    ensures r.wrote ==> Reflects(update, w.req.conditions, r.w.req.conditions, w.now)
    ensures !r.wrote ==> SameOwn(w.req.conditions, r.w.req.conditions)
    ensures Distinct(w.req.conditions) ==> Distinct(r.w.req.conditions)
    decreases 3 - i
  {
    if env.fails(Fetch(site, i)) then Written(w, br, false, false)
    else
      var local := w.req.(conditions := Applied(update, w.req.conditions, w.now));
      var w1 := Disturbed(w, env.foreign(site, i));
      AppliedReflects(update, w.req.conditions, w.req.conditions, local.conditions, w.now);
      if env.fails(Put(site, i)) || local.version != w1.req.version then
        if i < 2 then
          var r := Attempt(w1, site, update, env, i + 1, local);
          assert r.wrote ==> Reflects(update, w.req.conditions, r.w.req.conditions, w.now) by {
            if r.wrote {
              ReflectsFrom(update, w.req.conditions, w1.req.conditions, r.w.req.conditions, w.now);
            }
          }
          assert r.br == local || Reflects(update, w.req.conditions, r.br.conditions, w.now) by {
            if r.br != local {
              ReflectsFrom(update, w.req.conditions, w1.req.conditions, r.br.conditions, w.now);
            }
          }
          r
        else Written(w1, local, false, false)
      else
        var stored := local.(version := local.version + 1);
        var w2 := Disturbed(w1.(req := stored), env.foreign(site, 3));
        AppliedReflects(update, w.req.conditions, w.req.conditions, w2.req.conditions, w.now);
        assert Distinct(w.req.conditions) ==> Distinct(stored.conditions) by {
          if Distinct(w.req.conditions) {
            AppliedKeepsDistinct(update, w.req.conditions, w.now);
          }
        }
        if env.fails(Refetch(site)) then Written(w2, stored, false, true)
        else Written(w2, w2.req, true, true)
  }

  /** What an update means does not depend on foreign writes before it. */
  lemma ReflectsFrom(update: Update, before: seq<Condition>, read: seq<Condition>, after: seq<Condition>, now: int)
    requires SameOwn(before, read) && Reflects(update, read, after, now)
    ensures Reflects(update, before, after, now)
  {
    if update.SetConditions? {
      SetAllKeepsOwn(before, read, update.conditions, now);
    }
  }

  /** setStatusConditions and setStatusConditionsToUnknow, from a fresh empty object. */
  function Write(w: World, site: Site, update: Update, env: Env): (r: Written)
    ensures r.w == w.(req := r.w.req)
    ensures r.w.req.content == w.req.content && r.w.req.namespace == w.req.namespace
    ensures r.ok ==> r.wrote && r.br == r.w.req
    ensures r.br == EmptyRequest || (r.br.content == w.req.content && r.br.namespace == w.req.namespace)
    ensures r.br == EmptyRequest || Reflects(update, w.req.conditions, r.br.conditions, w.now)
    ensures !env.fails(Fetch(site, 0)) ==> r.br.content == w.req.content && r.br.namespace == w.req.namespace
    ensures r.wrote ==> Reflects(update, w.req.conditions, r.w.req.conditions, w.now)
    ensures !r.wrote ==> SameOwn(w.req.conditions, r.w.req.conditions)
    ensures Distinct(w.req.conditions) ==> Distinct(r.w.req.conditions)
  {
    Attempt(w, site, update, env, 0, EmptyRequest)
  }

  /** No call of this writer fails and nobody else writes in between. */
  predicate Undisturbed(env: Env, site: Site)
  {
    && !env.fails(Fetch(site, 0)) && !env.fails(Put(site, 0)) && !env.fails(Refetch(site))
    && env.foreign(site, 0) == [] && env.foreign(site, 3) == []
  }

  /** No API call of a pass fails and no one else writes the status during it. */
  ghost predicate Quiet(env: Env)
  {
    && (forall call: Call :: !env.fails(call))
    && (forall site: Site :: Undisturbed(env, site))
  }

  lemma QuietCalls(env: Env)
    requires Quiet(env)
    ensures forall call: Call :: !env.fails(call)
  {
  }

  lemma UndisturbedWrite(w: World, site: Site, update: Update, env: Env)
    requires Undisturbed(env, site)
    ensures var r := Write(w, site, update, env);
            && r.ok
            && r.w.req.conditions == Applied(update, w.req.conditions, w.now)
  {
    hide Applied, Reflects, SameOwn;
    var local := w.req.(conditions := Applied(update, w.req.conditions, w.now));
    assert Disturbed(w, []) == w;
    var stored := local.(version := local.version + 1);
    var w2 := w.(req := stored);
    assert Disturbed(w2, []) == w2;
  }
}
