/** What the names, labels and flags of a request are, in terms of what the request and the settings say. */
module NamingLaws {
  import opened Basics
  import opened Cluster
  import opened Naming
  import opened StatusWriter
  import opened ImagePhase
  import opened ModelsPhase
  import opened Reconcile
  import opened JobFrames
  import opened Runs
  import opened SeederJobs
  import opened VolumeClaims
  import opened ImageNames

  /** An annotation is there and says true. */
  predicate Says(c: Content, key: AnnotationKey)
  {
    key in c.annotations && c.annotations[key] == "true"
  }

  /** The value of an annotation if it is there and not empty, else a default. */
  function Or(c: Content, key: AnnotationKey, otherwise: string): string
  {
    if key in c.annotations && c.annotations[key] != "" then c.annotations[key] else otherwise
  }

  // Image names.

  /** The readable part of a tag: repository, version, and a suffix for each flag. */
  function ReadableTail(cfg: Config, c: Content, repository: string, version: string): string
  {
    repository + "." + version
    + (if Says(c, SeparateModelsAnnotation) then ".nomodels" else "")
    + (if cfg.estargz then ".esgz" else "")
    + (if Says(c, StoredInS3Annotation) then ".s3" else "")
  }

  /** The storage namespace of the request, or the request's own where prefixes are configured, and a dot. */
  function ReadablePrefix(cfg: Config, namespace: string, c: Content): string
  {
    var name := Or(c, BentoStorageNamespace, "");
    if name != "" then name + "." else if cfg.addNamespacePrefix then namespace + "." else ""
  }

  /**
   The image of a request is the one it names; else, for a Bento repository:version, the registry's
   URI and the tag yatai.<prefix><tail>, with the digest of the tail in its place when the tag would
   exceed 128 characters.
   */
  lemma ImageNameIs(cfg: Config, namespace: string, c: Content, repository: string, version: string, inCluster: bool)
    requires ':' !in repository && c.spec.bentoTag == repository + ":" + version && HexDigest(cfg.md5)
    ensures var prefix, tail := "yatai." + ReadablePrefix(cfg, namespace, c), ReadableTail(cfg, c, repository, version);
            var uri := if c.spec.dockerConfigSecret != "" then "" else if inCluster then cfg.repositoryURIInCluster else cfg.repositoryURI;
            var name := BentoImageName(cfg, namespace, c, inCluster);
            && (c.spec.image != "" ==> name == Some(c.spec.image))
            && (c.spec.image == "" && |prefix + tail| <= 128 ==> name == Some(uri + ":" + (prefix + tail)))
            && (c.spec.image == "" && |prefix + tail| > 128 && |prefix| <= 96 ==>
                  name == Some(uri + ":" + (prefix + cfg.md5(tail))))
  {
    assert c.spec.bentoTag == repository + [':'] + version;
    PartitionOfJoined(repository, ':', version);
    var prefix, tail := ReadablePrefix(cfg, namespace, c), ReadableTail(cfg, c, repository, version);
    assert ImagePrefix(cfg, namespace, c) == prefix;
    TailIs(cfg, c, repository, version);
    assert |cfg.md5(tail)| == 32;
    assert "yatai." + prefix + tail == ("yatai." + prefix) + tail;
  }

  lemma TailIs(cfg: Config, c: Content, repository: string, version: string)
    ensures TagTail(repository, version, IsSeparateModels(c), cfg.estargz, IsStoredInS3(c))
         == ReadableTail(cfg, c, repository, version)
  {
    var a := if Says(c, SeparateModelsAnnotation) then ".nomodels" else "";
    var b := if cfg.estargz then ".esgz" else "";
    var d := if Says(c, StoredInS3Annotation) then ".s3" else "";
    assert repository + "." + version + (a + b + d) == repository + "." + version + a + b + d;
  }

  // Claim names.

  /** What a claim's name is the digest of: storage class, model namespace if there is one, and tag. */
  function ClaimText(cfg: Config, namespace: string, c: Content, tag: string): string
  {
    var ns := Or(c, ModelStorageNamespace, if cfg.addNamespacePrefix then namespace else "");
    if ns == "" then cfg.storageClass + ":" + tag else cfg.storageClass + ":" + ns + ":" + tag
  }

  /** A claim's name is a prefix and that digest, whole, and so within the 63 characters of a name. */
  lemma ClaimNameIs(cfg: Config, namespace: string, c: Content, tag: string)
    requires HexDigest(cfg.md5)
    ensures PvcName(cfg, namespace, c, tag) == "model-seeder-" + cfg.md5(ClaimText(cfg, namespace, c, tag))
    ensures |PvcName(cfg, namespace, c, tag)| == 45
  {
    assert |cfg.md5(ClaimText(cfg, namespace, c, tag))| == 32;
  }

  /** Two models of one request share a claim exactly when they have the same tag, if their digests do not collide. */
  lemma ClaimsApartIff(cfg: Config, namespace: string, c: Content, a: string, b: string)
    requires HexDigest(cfg.md5)
    requires var x, y := ClaimText(cfg, namespace, c, a), ClaimText(cfg, namespace, c, b);
             cfg.md5(x) == cfg.md5(y) ==> x == y
    ensures PvcName(cfg, namespace, c, a) == PvcName(cfg, namespace, c, b) <==> a == b
  {
    hide PvcName, HexDigest;
    ClaimNameIs(cfg, namespace, c, a);
    ClaimNameIs(cfg, namespace, c, b);
    var x, y := ClaimText(cfg, namespace, c, a), ClaimText(cfg, namespace, c, b);
    if PvcName(cfg, namespace, c, a) == PvcName(cfg, namespace, c, b) {
      SamePrefix("model-seeder-", cfg.md5(x), cfg.md5(y));
      var ns := Or(c, ModelStorageNamespace, if cfg.addNamespacePrefix then namespace else "");
      if ns == "" {
        SamePrefix(cfg.storageClass + ":", a, b);
      } else {
        SamePrefix(cfg.storageClass + ":" + ns + ":", a, b);
      }
    }
  }

  /** Across namespaces nothing separates the model namespace from the tag. */
  lemma ClaimsMayCollide(cfg: Config, namespace: string, c: Content)
    requires !cfg.addNamespacePrefix
    ensures PvcName(cfg, namespace, c.(annotations := map[]), "a:b:c")
         == PvcName(cfg, namespace, c.(annotations := map[ModelStorageNamespace := "a"]), "b:c")
  {
    assert cfg.storageClass + ":" + "a" + ":" + "b:c" == cfg.storageClass + ":" + "a:b:c";
  }

  // Labels.

  /** The labels of a builder job: whose it is, what it is, which Bento it builds and in which mode. */
  lemma BuilderLabelsSay(cfg: Config, c: Content, repository: string, version: string, image: string, id: nat)
    requires ':' !in repository && c.spec.bentoTag == repository + ":" + version
    ensures NewBuilderJob(cfg, c, image, id).labels == map[
              RequestLabel := cfg.request,
              ImageBuilderLabel := "true",
              BentoRepositoryLabel := repository,
              BentoVersionLabel := version,
              SeparateModelsLabel := if Says(c, SeparateModelsAnnotation) then "true" else "false"]
    ensures var j := NewBuilderJob(cfg, c, image, id);
            && j.id == id && j.image == image && j.name == "yatai-bento-image-builder-" + Digits(id)
            && j.completions == Some(1) && j.succeeded == j.failed == j.active == 0 && j.conditions == []
  {
    assert c.spec.bentoTag == repository + [':'] + version;
    PartitionOfJoined(repository, ':', version);
  }

  /** The labels of a seeder job: whose it is, what it is, which Bento it is for and which model it seeds. */
  lemma SeederLabelsSay(
      cfg: Config, c: Content, repository: string, version: string, model: string, modelVersion: string, id: nat)
    requires ':' !in repository && c.spec.bentoTag == repository + ":" + version && ':' !in model
    ensures var tag := model + ":" + modelVersion;
            && NewSeederJob(cfg, c, tag, id).labels == map[
                 RequestLabel := cfg.request,
                 ModelSeederLabel := "true",
                 ModelRepositoryLabel := model,
                 ModelVersionLabel := modelVersion,
                 BentoRepositoryLabel := repository,
                 BentoVersionLabel := version]
            && DecodedTag(NewSeederJob(cfg, c, tag, id).labels) == tag
    ensures var j := NewSeederJob(cfg, c, model + ":" + modelVersion, id);
            && j.id == id && j.hash == HashOf(c) && j.name == "yatai-model-seeder-" + Digits(id)
            && j.completions == Some(1) && j.succeeded == j.failed == j.active == 0 && j.conditions == []
  {
    assert c.spec.bentoTag == repository + [':'] + version && model + ":" + modelVersion == model + [':'] + modelVersion;
    PartitionOfJoined(repository, ':', version);
    PartitionOfJoined(model, ':', modelVersion);
  }

  /** Jobs of other requests are never listed, whatever they are for. */
  lemma OthersAreNotListed(cfg: Config, other: Config, c: Content, image: string, tag: string, id: nat, separateModels: bool)
    requires other.request != cfg.request
    ensures !Selects(BuilderSelector(cfg, separateModels), NewBuilderJob(other, c, image, id).labels)
    ensures !Selects(SeederSelector(cfg), NewSeederJob(other, c, tag, id).labels)
  {
    assert RequestLabel in BuilderSelector(cfg, separateModels) && RequestLabel in SeederSelector(cfg);
  }

  // Affinity.

  /**
   The injected term is the last one, leaves everything before it as it was, and prefers, with full
   weight, the node of the pods that carry the request's label, and of no others.
   */
  lemma InjectedTerm(cfg: Config, a: Affinity, labels: Labels)
    ensures var r := WithTerm(cfg, a);
            && r.others == a.others && r.podAffinity.Some?
            && var terms := r.podAffinity.value.preferred;
               && terms != []
               && (a.podAffinity.Some? ==> r.podAffinity.value.required == a.podAffinity.value.required
                                           && terms[..|terms| - 1] == a.podAffinity.value.preferred)
               && (a.podAffinity.None? ==> r.podAffinity.value.required == "" && |terms| == 1)
               && terms[|terms| - 1].weight == 100 && terms[|terms| - 1].topologyKey == "kubernetes.io/hostname"
               && (Selects(terms[|terms| - 1].labels, labels) <==> RequestLabel in labels && labels[RequestLabel] == cfg.request)
  {
  }

  /** Only the shared affinity of the request changes, and only when it has one. */
  lemma GenerationTouchesAffinityAlone(cfg: Config, c: Content)
    ensures var r := AfterPodGeneration(cfg, c);
            && r.labels == c.labels && r.annotations == c.annotations
            && r.spec == c.spec.(extraPodSpec := r.spec.extraPodSpec)
            && (c.spec.extraPodSpec.None? || c.spec.extraPodSpec.value.affinity.None? ==> r == c)
            && (c.spec.extraPodSpec.Some? && c.spec.extraPodSpec.value.affinity.Some? ==>
                  && r.spec.extraPodSpec.Some? && r.spec.extraPodSpec.value.others == c.spec.extraPodSpec.value.others
                  && r.spec.extraPodSpec.value.affinity == Some(WithTerm(cfg, c.spec.extraPodSpec.value.affinity.value)))
  {
  }

  // The mode.

  /** The models are seeded by jobs of their own exactly when the one annotation says true and the other does not. */
  predicate Seeds(c: Content)
  {
    Says(c, SeparateModelsAnnotation) && !Says(c, StoredInS3Annotation)
  }

  /** A pass over a request of another mode touches no seeder job and no claim, whatever fails. */
  lemma OtherModesSeedNothing(cfg: Config, w: World, env: Env)
    requires Tidy(w) && !Seeds(w.req.content)
    ensures var w' := Pass(cfg, w, env);
            w'.pvcs == w.pvcs && Seeders(cfg, w') == Seeders(cfg, w)
  {
    hide Pass, Phases, Tidy, SeederSelector, List, Concluded, Entry;
    var ran, w1 := Enter(cfg, w, env);
    SameStore(w, w1);
    TidySame(w, w1);
    SeedersSame(cfg, w, w1);
    if ran {
      PhasesSeedNothing(cfg, w1, env);
      KeepsStore(Phases(cfg, w1, w1.req, env), env);
      SeedersSame(cfg, Phases(cfg, w1, w1.req, env).w, Pass(cfg, w, env));
    } else {
      SeedersSame(cfg, w, Pass(cfg, w, env));
    }
  }

  lemma KeepsStore(r: BodyResult, env: Env)
    ensures Concluded(r, env).jobs == r.w.jobs && Concluded(r, env).pvcs == r.w.pvcs
  {
    hide Write;
  }

  lemma PhasesSeedNothing(cfg: Config, w: World, env: Env)
    requires Tidy(w) && !Seeds(w.req.content)
    ensures var r := Phases(cfg, w, w.req, env).w;
            r.pvcs == w.pvcs && Seeders(cfg, r) == Seeders(cfg, w)
  {
    hide EnsureImageExists, EnsureModelsExist, Finish, Tidy, SeederSelector, List;
    assert !SeedsModels(w.req.content);
    var image := EnsureImageExists(cfg, w, w.req, env);
    ImagePhaseKeepsSeeders(cfg, w, w.req, env);
    FinishSeedsNothing(cfg, ModelsResult(w, w.req, false, Done), image, IsSeparateModels(w.req.content), w.req.content, env);
    ImageRequest(cfg, w, env);
    ImagePhaseInSync(cfg, w, w.req, env);
  }

  lemma ImageRequest(cfg: Config, w: World, env: Env)
    ensures EnsureImageExists(cfg, w, w.req, env).w.pvcs == w.pvcs
    ensures EnsureImageExists(cfg, w, w.req, env).w.req.content == w.req.content
  {
    hide EnsureImageExists;
  }

  lemma FinishSeedsNothing(cfg: Config, models: ModelsResult, image: ImageResult, separateModels: bool, c: Content, env: Env)
    requires Tidy(image.w) && !Seeds(c) && separateModels == IsSeparateModels(c)
    ensures var r := Finish(cfg, separateModels, models, image, env).w;
            (image.present && image.end == Done ==> image.br.content == c) ==>
              r.pvcs == image.w.pvcs && Seeders(cfg, r) == Seeders(cfg, image.w)
  {
    hide Write, Publish, CleanUp, SeederSelector, List;
  }
}
