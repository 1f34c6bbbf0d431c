/** The record of seeded models: what it says about them, and what becomes of one that speaks of others. */
module Records {
  import opened Basics
  import opened Conditions
  import opened Cluster
  import opened Naming
  import opened StatusWriter
  import opened ModelsPhase
  import opened JobFrames
  import opened SeederJobs
  import opened Outcomes
  import opened Publication

  /** A tag as it should be: not empty, and without the separator of the record. */
  predicate Listable(tag: string)
  {
    tag != "" && forall k :: 0 <= k < |tag| ==> !(", " <= tag[k..])
  }

  /** The tags a record speaks of, read back from its text after the storage class and the colon. */
  function TagsIn(text: string): seq<string>
  {
    if text == "" then [] else Cut(text, ", ")
  }

  lemma TagsReadBack(models: seq<Model>)
    requires forall m <- models :: Listable(m.tag)
    ensures TagsIn(Join(Tags(models), ", ")) == Tags(models)
  {
    if models != [] {
      forall t <- Tags(models) ensures FreeOf(t, ", ") {
        var k :| 0 <= k < |models| && Tags(models)[k] == t;
        assert models[k] in models;
        CommaFree(t);
      }
      CutJoined(Tags(models), ", ");
      assert models[0] in models && Tags(models)[0] == models[0].tag;
      JoinNotEmpty(Tags(models));
    }
  }

  lemma JoinNotEmpty(parts: seq<string>)
    requires parts != [] && parts[0] != ""
    ensures Join(parts, ", ") != ""
  {
  }

  /** A record of those tags in that storage class. */
  predicate Records(message: string, storageClass: string, tags: seq<string>)
  {
    storageClass + ":" <= message && TagsIn(message[|storageClass| + 1..]) == tags
  }

  /**
   The message that records a seeding starts with the storage class and speaks of exactly the
   models' tags, in order; so two messages agree exactly when the tag lists do.
   */
  lemma RecordIsReadBack(cfg: Config, models: seq<Model>)
    requires forall m <- models :: Listable(m.tag)
    ensures Records(SeededMessage(cfg, models), cfg.storageClass, Tags(models))
  {
    var message := SeededMessage(cfg, models);
    assert message[..|cfg.storageClass| + 1] == cfg.storageClass + ":";
    assert message[|cfg.storageClass| + 1..] == Join(Tags(models), ", ");
    TagsReadBack(models);
  }

  lemma RecordsAgreeIff(cfg: Config, a: seq<Model>, b: seq<Model>)
    requires forall m <- a + b :: Listable(m.tag)
    ensures SeededMessage(cfg, a) == SeededMessage(cfg, b) <==> Tags(a) == Tags(b)
  {
    forall m <- a ensures Listable(m.tag) { assert m in a + b; }
    forall m <- b ensures Listable(m.tag) { assert m in a + b; }
    RecordIsReadBack(cfg, a);
    RecordIsReadBack(cfg, b);
  }

  /** A separator in a tag is what it takes to confuse two records. */
  lemma RecordNeedsListableTags(cfg: Config)
    ensures SeededMessage(cfg, [Model("a:1, b:2", "")]) == SeededMessage(cfg, [Model("a:1", ""), Model("b:2", "")])
  {
    var one, two := [Model("a:1, b:2", "")], [Model("a:1", ""), Model("b:2", "")];
    assert Tags(one) == ["a:1, b:2"] && Tags(two) == ["a:1", "b:2"];
    assert ["a:1", "b:2"][1..] == ["b:2"];
    assert Join(["a:1", "b:2"], ", ") == "a:1" + ", " + "b:2";
  }

  /** The status has the models recorded as seeded, with that message. */
  predicate Recorded(w: World, message: string)
  {
    var c := Find(w.req.conditions, ModelsExists);
    c.Some? && c.value.status == True && c.value.message == message
  }

  /**
   The models phase takes the models as seeded exactly when the record that is there is one for the
   very tags of the request in the controller's storage class.
   */
  lemma ShortCircuitsIff(cfg: Config, w: World, message: string)
    requires Recorded(w, message) && forall m <- w.req.content.spec.models :: Listable(m.tag)
    ensures ShortCircuits(cfg, w) <==> Records(message, cfg.storageClass, Tags(w.req.content.spec.models))
  {
    var models := w.req.content.spec.models;
    RecordIsReadBack(cfg, models);
    if Records(message, cfg.storageClass, Tags(models)) {
      var text := message[|cfg.storageClass| + 1..];
      JoinedCut(text, ", ");
      assert Join(Tags(models), ", ") == text;
      assert message == cfg.storageClass + ":" + text;
    }
  }

  /**
   A record written for other models, or for another storage class, does not stop an undisturbed
   models phase: it ends with a current seeder job for every model of the request.
   */
  lemma OtherRecordSeeds(cfg: Config, w: World, env: Env, message: string)
    requires Tidy(w) && Quiet(env) && WellTagged(w.req.content)
    requires (forall m <- w.req.content.spec.models :: Listable(m.tag)) && Recorded(w, message)
    requires !Records(message, cfg.storageClass, Tags(w.req.content.spec.models))
    ensures EachHasJob(cfg, EnsureModelsExist(cfg, w, w.req, env).w)
  {
    hide EnsureModelsExist, Tidy, Quiet, WellTagged, Records, SeedersDone, ReportsFailure, SeededExactly, EachHasJob, Find;
    ShortCircuitsIff(cfg, w, message);
    QuietModelsPhase(cfg, w, env);
    SeededHasJobs(cfg, w, EnsureModelsExist(cfg, w, w.req, env).w, w.req.content);
  }
}
