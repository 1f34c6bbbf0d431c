/** The status writers under contention: one compare-and-swap takes effect, or nothing of theirs does. */
module CompareAndSwap {
  import opened Conditions
  import opened Cluster
  import opened StatusWriter

  /** The store when attempt k reads it, the earlier attempts having lost against other writers. */
  function Before(w: World, site: Site, env: Env, k: nat): (r: World)
    ensures r == w.(req := r.req)
  {
    if k == 0 then w else Disturbed(Before(w, site, env, k - 1), env.foreign(site, k - 1))
  }

  /** The attempt reads, but its update is refused: the call fails or somebody wrote in between. */
  predicate Refused(env: Env, site: Site, k: nat)
  {
    !env.fails(Fetch(site, k)) && (env.fails(Put(site, k)) || env.foreign(site, k) != [])
  }

  /** The attempt reads and updates with nobody in between. */
  predicate Accepted(env: Env, site: Site, k: nat)
  {
    !env.fails(Fetch(site, k)) && !env.fails(Put(site, k)) && env.foreign(site, k) == []
  }

  /** Attempt k is the one that is accepted, after k refusals. */
  predicate SwapsAt(env: Env, site: Site, k: nat)
  {
    Accepted(env, site, k) && forall j: nat | j < k :: Refused(env, site, j)
  }

  /** The update applied to exactly the state it replaces, and then what others write. */
  function Swapped(w: World, update: Update, edits: seq<ForeignEdit>): World
  {
    var updated := w.req.(conditions := Applied(update, w.req.conditions, w.now), version := w.req.version + 1);
    Disturbed(w.(req := updated), edits)
  }

  lemma SwapsOnce(env: Env, site: Site, a: nat, b: nat)
    requires SwapsAt(env, site, a) && SwapsAt(env, site, b)
    ensures a == b
  {
    assert a < b ==> Refused(env, site, a);
    assert b < a ==> Refused(env, site, b);
  }

  /** How a writer ends: with one swap, or with the others' writes alone. */
  predicate SwapsOrNot(w: World, site: Site, update: Update, env: Env, r: Written)
  {
    && (r.wrote <==> exists k: nat | k < 3 :: SwapsAt(env, site, k))
    && (forall k: nat | k < 3 && SwapsAt(env, site, k) ::
          r.w == Swapped(Before(w, site, env, k), update, env.foreign(site, 3)))
    && (!r.wrote ==> exists k: nat | k <= 3 :: r.w == Before(w, site, env, k))
    && (r.ok <==> r.wrote && !env.fails(Refetch(site)))
  }

  /** The local copy after the update, which the attempt tries to store. */
  function Local(w: World, update: Update): Request
  {
    w.req.(conditions := Applied(update, w.req.conditions, w.now))
  }

  /** One attempt, by what the environment does to it. */
  lemma AttemptIs(w: World, site: Site, update: Update, env: Env, i: nat, br: Request)
    requires i < 3
    ensures var r, local := Attempt(w, site, update, env, i, br), Local(w, update);
            var swapped, next := Swapped(w, update, env.foreign(site, 3)), Disturbed(w, env.foreign(site, i));
            if env.fails(Fetch(site, i)) then r == Written(w, br, false, false)
            else if Accepted(env, site, i) then
              r == if env.fails(Refetch(site)) then Written(swapped, local.(version := local.version + 1), false, true)
                   else Written(swapped, swapped.req, true, true)
            else if i < 2 then r == Attempt(next, site, update, env, i + 1, local)
            else r == Written(next, local, false, false)
  {
    hide Disturbed, Applied, Reflects, SameOwn, Distinct;
    NoEdits(w);
    Outdated(w, env.foreign(site, i));
  }

  /** After refusals, an attempt that is neither accepted nor refused, or the last one refused, is the end of it. */
  lemma NoSwap(env: Env, site: Site, i: nat)
    requires i < 3 && (forall j: nat | j < i :: Refused(env, site, j)) && !Accepted(env, site, i)
    requires i == 2 || !Refused(env, site, i)
    ensures forall k: nat | k < 3 :: !SwapsAt(env, site, k)
  {
    forall k: nat | k < 3 ensures !SwapsAt(env, site, k) {
      assert k < i ==> Refused(env, site, k);
      assert SwapsAt(env, site, k) && k > i ==> Refused(env, site, i);
    }
  }

  lemma AcceptedEnd(w: World, site: Site, update: Update, env: Env, i: nat, r: Written)
    requires i < 3 && SwapsAt(env, site, i)
    requires r.wrote && r.w == Swapped(Before(w, site, env, i), update, env.foreign(site, 3))
    requires r.ok <==> !env.fails(Refetch(site))
    ensures SwapsOrNot(w, site, update, env, r)
  {
    hide Swapped, Before, SwapsAt;
    forall k: nat | k < 3 && SwapsAt(env, site, k) ensures k == i {
      SwapsOnce(env, site, i, k);
    }
  }

  lemma UnwrittenEnd(w: World, site: Site, update: Update, env: Env, i: nat, r: Written)
    requires i <= 3 && !r.wrote && !r.ok && r.w == Before(w, site, env, i)
    requires forall k: nat | k < 3 :: !SwapsAt(env, site, k)
    ensures SwapsOrNot(w, site, update, env, r)
  {
    hide Swapped, Before, SwapsAt;
  }

  /** From attempt i on, given that the earlier ones were refused. */
  lemma {:induction false} AttemptLaw(w: World, site: Site, update: Update, env: Env, i: nat, br: Request)
    requires i < 3 && forall j: nat | j < i :: Refused(env, site, j)
    ensures SwapsOrNot(w, site, update, env, Attempt(Before(w, site, env, i), site, update, env, i, br))
    decreases 3 - i
  {
    hide Disturbed, Swapped, Attempt, SwapsOrNot;
    var now := Before(w, site, env, i);
    var r := Attempt(now, site, update, env, i, br);
    AttemptIs(now, site, update, env, i, br);
    if Accepted(env, site, i) {
      AcceptedEnd(w, site, update, env, i, r);
    } else if Refused(env, site, i) {
      if i < 2 {
        AttemptLaw(w, site, update, env, i + 1, Local(now, update));
      } else {
        NoSwap(env, site, i);
        UnwrittenEnd(w, site, update, env, 3, r);
      }
    } else {
      NoSwap(env, site, i);
      UnwrittenEnd(w, site, update, env, i, r);
    }
  }

  lemma NoEdits(w: World)
    ensures Disturbed(w, []) == w
  {
  }

  lemma Outdated(w: World, edits: seq<ForeignEdit>)
    ensures edits != [] ==> Disturbed(w, edits).req.version != w.req.version
  {
  }

  /**
   setStatusConditions and setStatusConditionsToUnknow: the store takes the update exactly when
   one of three attempts goes through, then it is applied once, to the very state it replaces, so
   no write of anybody else is lost; otherwise the store holds the others' writes and nothing else.
   */
  lemma OneSwapOrNothing(w: World, site: Site, update: Update, env: Env)
    ensures var r := Write(w, site, update, env);
            && (r.wrote <==> exists k: nat | k < 3 :: SwapsAt(env, site, k))
            && (forall k: nat | k < 3 && SwapsAt(env, site, k) ::
                  r.w == Swapped(Before(w, site, env, k), update, env.foreign(site, 3)))
            && (!r.wrote ==> exists k: nat | k <= 3 :: r.w == Before(w, site, env, k))
            && (r.ok <==> r.wrote && !env.fails(Refetch(site)))
  {
    hide Disturbed, Applied, Reflects, SameOwn, Distinct, Attempt;
    AttemptLaw(w, site, update, env, 0, EmptyRequest);
  }

  /** The writes that reached the store before attempt k, in order. */
  function Edits(env: Env, site: Site, k: nat): seq<ForeignEdit>
  {
    if k == 0 then [] else Edits(env, site, k - 1) + env.foreign(site, k - 1)
  }

  lemma {:induction false} ForeignInOrder(conditions: seq<Condition>, a: seq<ForeignEdit>, b: seq<ForeignEdit>, now: int)
    ensures WithForeign(WithForeign(conditions, a, now), b, now) == WithForeign(conditions, a + b, now)
    decreases |a|
  {
    if a == [] {
      assert a + b == b;
    } else {
      assert (a + b)[1..] == a[1..] + b;
      var e := a[0];
      ForeignInOrder(Set(conditions, Condition(Foreign(e.name), e.status, e.reason, e.message, 0), now), a[1..], b, now);
    }
  }

  lemma DisturbedTwice(w: World, a: seq<ForeignEdit>, b: seq<ForeignEdit>)
    ensures Disturbed(Disturbed(w, a), b) == Disturbed(w, a + b)
  {
    hide WithForeign;
    ForeignInOrder(w.req.conditions, a, b, w.now);
  }

  lemma {:induction false} BeforeIsForeign(w: World, site: Site, env: Env, k: nat)
    ensures Before(w, site, env, k) == Disturbed(w, Edits(env, site, k))
  {
    hide Disturbed;
    if k == 0 {
      NoEdits(w);
    } else {
      BeforeIsForeign(w, site, env, k - 1);
      DisturbedTwice(w, Edits(env, site, k - 1), env.foreign(site, k - 1));
    }
  }

  /** Versions count the writes: every foreign one that landed, and the controller's own once if it landed. */
  lemma VersionsCountWrites(w: World, site: Site, update: Update, env: Env)
    ensures var r := Write(w, site, update, env);
            exists k: nat | k <= 3 ::
              var edits := Edits(env, site, k) + if r.wrote then env.foreign(site, 3) else [];
              r.w.req.version == w.req.version + |edits| + if r.wrote then 1 else 0
  {
    hide Applied, Reflects, SameOwn, Distinct, Attempt, Write;
    OneSwapOrNothing(w, site, update, env);
    var r := Write(w, site, update, env);
    if r.wrote {
      var k: nat :| k < 3 && SwapsAt(env, site, k);
      BeforeIsForeign(w, site, env, k);
    } else {
      var k: nat :| k <= 3 && r.w == Before(w, site, env, k);
      BeforeIsForeign(w, site, env, k);
    }
  }

  /** One of a writer's attempts goes through and the result is read back. */
  predicate WriterSucceeds(env: Env, site: Site)
  {
    (exists k: nat | k < 3 :: SwapsAt(env, site, k)) && !env.fails(Refetch(site))
  }

  lemma WriterOutcome(w: World, site: Site, update: Update, env: Env)
    ensures Write(w, site, update, env).ok <==> WriterSucceeds(env, site)
  {
    hide Write, SwapsAt, Before, Swapped;
    OneSwapOrNothing(w, site, update, env);
  }
}
