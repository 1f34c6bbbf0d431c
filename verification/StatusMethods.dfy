/** The two status writers as the controller runs them: read, change the copy, replace, three times at most. */
module StatusMethods {
  import opened Conditions
  import opened Cluster
  import opened StatusWriter
  import opened ApiServer

  /** Setting several conditions on the local copy, one after the other. */
  method SetEach(conditions: seq<Condition>, news: seq<Condition>, now: int) returns (r: seq<Condition>)
    ensures r == SetAll(conditions, news, now)
  {
    r := conditions;
    for k := 0 to |news|
      invariant SetAll(r, news[k..], now) == SetAll(conditions, news, now)
    {
      assert news[k..][1..] == news[k + 1..];
      r := Set(r, news[k], now);
    }
    assert news[|news|..] == [];
  }

  /** The local change of a writer. */
  method Change(update: Update, conditions: seq<Condition>, now: int) returns (r: seq<Condition>)
    ensures r == Applied(update, conditions, now)
  {
    match update
    case SetConditions(news) => r := SetEach(conditions, news, now);
    case ToUnknown(message) => r := MarkAllUnknown(conditions, message, now);
  }

  /** What the rest of the writer does once attempt i - 1 has been refused. */
  ghost function Remaining(w: World, site: Site, update: Update, env: Env, i: nat, br: Request): Written
    requires i <= 3
  {
    if i < 3 then Attempt(w, site, update, env, i, br) else Written(w, br, false, false)
  }

  /** What it does once an attempt has gone through. */
  ghost function Stored(w: World, site: Site, env: Env, stored: Request): Written
  {
    var w2 := Disturbed(w, env.foreign(site, 3));
    if env.fails(Refetch(site)) then Written(w2, stored, false, true) else Written(w2, w2.req, true, true)
  }

  lemma StoredEnds(w: World, site: Site, env: Env, stored: Request)
    ensures var w2 := Disturbed(w, env.foreign(site, 3));
            Stored(w, site, env, stored)
            == if env.fails(Refetch(site)) then Written(w2, stored, false, true) else Written(w2, w2.req, true, true)
  {
  }

  /** One turn of the loop. */
  lemma OneTurn(w: World, site: Site, update: Update, env: Env, i: nat, br: Request)
    requires i < 3
    ensures env.fails(Fetch(site, i)) ==> Remaining(w, site, update, env, i, br) == Written(w, br, false, false)
    ensures !env.fails(Fetch(site, i)) ==>
              var local := w.req.(conditions := Applied(update, w.req.conditions, w.now));
              var w1 := Disturbed(w, env.foreign(site, i));
              var stored := local.(version := local.version + 1);
              Remaining(w, site, update, env, i, br)
              == if env.fails(Put(site, i)) || local.version != w1.req.version
                 then Remaining(w1, site, update, env, i + 1, local)
                 else Stored(w1.(req := stored), site, env, stored)
  {
    hide Applied, Disturbed, Reflects, SameOwn, Distinct;
  }

  lemma FirstAndLastTurn(w: World, site: Site, update: Update, env: Env, br: Request)
    ensures Remaining(w, site, update, env, 0, EmptyRequest) == Write(w, site, update, env)
    ensures Remaining(w, site, update, env, 3, br) == Written(w, br, false, false)
  {
    hide Attempt;
  }

  /** setStatusConditions and setStatusConditionsToUnknow, which differ only in the local change. */
  method WriteStatus(api: Server, site: Site, update: Update, env: Env) returns (br: Request, ok: bool)
    modifies api
    ensures var r := Write(old(api.State()), site, update, env);
            api.State() == r.w && br == r.br && ok == r.ok
  {
    hide Applied, Disturbed, Reflects, SameOwn, Distinct, Attempt, Write, Remaining, Stored;
    ghost var target := Write(api.State(), site, update, env);
    br := EmptyRequest;
    ok := false;
    var i := 0;
    FirstAndLastTurn(api.State(), site, update, env, br);
    while i < 3 && !ok
      invariant 0 <= i <= 3
      invariant !ok ==> Remaining(api.State(), site, update, env, i, br) == target
      invariant ok ==> Stored(api.State(), site, env, br) == target
      decreases 3 - i, !ok
    {
      OneTurn(api.State(), site, update, env, i, br);
      if env.fails(Fetch(site, i)) {
        return br, false;
      }
      var conditions := Change(update, api.request.conditions, api.now);
      br := api.request.(conditions := conditions);
      api.Interfere(env.foreign(site, i));
      ok := api.UpdateStatus(br, env.fails(Put(site, i)));
      if ok {
        br := br.(version := br.version + 1);
      } else {
        i := i + 1;
      }
    }
    if !ok {
      FirstAndLastTurn(api.State(), site, update, env, br);
    } else {
      StoredEnds(api.State(), site, env, br);
      api.Interfere(env.foreign(site, 3));
      ok := !env.fails(Refetch(site));
      if ok {
        br := api.request;
      }
    }
  }

  method SetStatusConditions(api: Server, site: Site, news: seq<Condition>, env: Env) returns (br: Request, ok: bool)
    modifies api
    ensures var r := Write(old(api.State()), site, SetConditions(news), env);
            api.State() == r.w && br == r.br && ok == r.ok
  {
    hide Write;
    br, ok := WriteStatus(api, site, SetConditions(news), env);
  }

  method SetStatusConditionsToUnknown(api: Server, site: Site, message: string, env: Env) returns (br: Request, ok: bool)
    modifies api
    ensures var r := Write(old(api.State()), site, ToUnknown(message), env);
            api.State() == r.w && br == r.br && ok == r.ok
  {
    hide Write;
    br, ok := WriteStatus(api, site, ToUnknown(message), env);
  }
}
