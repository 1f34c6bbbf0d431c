/** The names, labels and selectors the controller derives from a request. */
module Naming {
  import opened Basics
  import opened Cluster

  /** Constant settings of one controller and the identity of the request it reconciles. */
  datatype Config = Config(
    request: string,
    namespace: string,
    addNamespacePrefix: bool,
    estargz: bool,
    repositoryURI: string,
    repositoryURIInCluster: string,
    storageClass: string,
    hasCredentials: bool,
    md5: string -> string)

  /**
   The registry secret can be kept in the request's namespace: the request brings its own, there is
   no username to store, or there is a namespace to store it in.
   */
  predicate SecretFits(cfg: Config, namespace: string, c: Content)
  {
    c.spec.dockerConfigSecret != "" || !cfg.hasCredentials || namespace != ""
  }

  predicate IsSeparateModels(c: Content)
  {
    Lookup(c.annotations, SeparateModelsAnnotation) == "true"
  }

  predicate IsStoredInS3(c: Content)
  {
    Lookup(c.annotations, StoredInS3Annotation) == "true"
  }

  /** Models are seeded by jobs of their own only in this mode. */
  predicate SeedsModels(c: Content)
  {
    IsSeparateModels(c) && !IsStoredInS3(c)
  }

  function ImagePrefix(cfg: Config, namespace: string, c: Content): string
  {
    var prefix := Lookup(c.annotations, BentoStorageNamespace);
    if prefix != "" then prefix + "."
    else if cfg.addNamespacePrefix then namespace + "."
    else ""
  }

  function ModelNamespace(cfg: Config, namespace: string, c: Content): string
  {
    var ns := Lookup(c.annotations, ModelStorageNamespace);
    if ns != "" then ns
    else if cfg.addNamespacePrefix then namespace
    else ""
  }

  /** The flags of a tag, which the length of their suffix alone determines. */
  function Suffix(separateModels: bool, estargz: bool, s3: bool): (r: string)
    ensures |r| == (if separateModels then 9 else 0) + (if estargz then 5 else 0) + (if s3 then 3 else 0)
    ensures r != "" ==> r[0] == '.'
  {
    (if separateModels then ".nomodels" else "") + (if estargz then ".esgz" else "") + (if s3 then ".s3" else "")
  }

  function TagTail(repository: string, version: string, separateModels: bool, estargz: bool, s3: bool): string
  {
    repository + "." + version + Suffix(separateModels, estargz, s3)
  }

  /**
   The image tag; None where the source slices a digest beyond its length and panics. The
   digest is used as soon as the readable tag exceeds 128 characters.
   */
  function ImageTag(cfg: Config, prefix: string, tail: string): Option<string>
  {
    var tag := "yatai." + prefix + tail;
    if |tag| <= 128 then Some(tag)
    else
      var hashed := "yatai." + prefix + cfg.md5(tail);
      if |hashed| <= 128 then Some(hashed)
      else
        var digest := cfg.md5(prefix + tail);
        if |digest| < 128 then None else Some("yatai." + digest[..128])
  }

  function ContentTag(cfg: Config, namespace: string, c: Content): Option<string>
  {
    var (repository, version) := Partition(c.spec.bentoTag, ':');
    var tail := TagTail(repository, version, IsSeparateModels(c), cfg.estargz, IsStoredInS3(c));
    ImageTag(cfg, ImagePrefix(cfg, namespace, c), tail)
  }

  /** A request with its own registry secret resolves to a registry without repository URIs. */
  function RepositoryURI(cfg: Config, c: Content, inCluster: bool): string
  {
    if c.spec.dockerConfigSecret != "" then ""
    else if inCluster then cfg.repositoryURIInCluster
    else cfg.repositoryURI
  }

  function BentoImageName(cfg: Config, namespace: string, c: Content, inCluster: bool): Option<string>
  {
    if c.spec.image != "" then Some(c.spec.image)
    else
      match ContentTag(cfg, namespace, c)
      case None => None
      case Some(tag) => Some(RepositoryURI(cfg, c, inCluster) + ":" + tag)
  }

  function BoolLabel(b: bool): string
  {
    if b then "true" else "false"
  }

  /** What ensureImageExists lists builder jobs by. */
  function BuilderSelector(cfg: Config, separateModels: bool): Labels
  {
    map[RequestLabel := cfg.request,
        ImageBuilderLabel := "true",
        SeparateModelsLabel := BoolLabel(separateModels)]
  }

  function BuilderLabels(cfg: Config, c: Content): Labels
  {
    var (repository, version) := Partition(c.spec.bentoTag, ':');
    map[RequestLabel := cfg.request,
        ImageBuilderLabel := "true",
        BentoRepositoryLabel := repository,
        BentoVersionLabel := version,
        SeparateModelsLabel := BoolLabel(IsSeparateModels(c))]
  }

  /** What ensureModelsExists lists seeder jobs by. */
  function SeederSelector(cfg: Config): Labels
  {
    map[RequestLabel := cfg.request, ModelSeederLabel := "true"]
  }

  function SeederLabels(cfg: Config, c: Content, tag: string): Labels
  {
    var (repository, version) := Partition(c.spec.bentoTag, ':');
    var (modelRepository, modelVersion) := Partition(tag, ':');
    map[RequestLabel := cfg.request,
        ModelSeederLabel := "true",
        ModelRepositoryLabel := modelRepository,
        ModelVersionLabel := modelVersion,
        BentoRepositoryLabel := repository,
        BentoVersionLabel := version]
  }

  /** The model tag read back from a seeder job's labels. */
  function DecodedTag(labels: Labels): string
  {
    Lookup(labels, ModelRepositoryLabel) + ":" + Lookup(labels, ModelVersionLabel)
  }

  function PvcName(cfg: Config, namespace: string, c: Content, tag: string): string
  {
    var ns := ModelNamespace(cfg, namespace, c);
    var name := "model-seeder-" + cfg.md5(PvcKey(cfg, ns, tag));
    if |name| > 63 then name[..63] else name
  }

  function PvcKey(cfg: Config, ns: string, tag: string): string
  {
    if ns == "" then cfg.storageClass + ":" + tag else cfg.storageClass + ":" + ns + ":" + tag
  }

  /** The ModelsExists message that records which models were seeded where. */
  function SeededMessage(cfg: Config, models: seq<Model>): string
  {
    cfg.storageClass + ":" + Join(Tags(models), ", ")
  }

  /** The preference every job's pod gets: run next to the request's other pods. */
  function RequestAffinityTerm(cfg: Config): AffinityTerm
  {
    AffinityTerm(100, map[RequestLabel := cfg.request], "kubernetes.io/hostname")
  }

  function WithTerm(cfg: Config, a: Affinity): Affinity
  {
    var pod := match a.podAffinity case None => PodAffinity("", []) case Some(p) => p;
    a.(podAffinity := Some(pod.(preferred := pod.preferred + [RequestAffinityTerm(cfg)])))
  }

  predicate HasAffinity(c: Content)
  {
    c.spec.extraPodSpec.Some? && c.spec.extraPodSpec.value.affinity.Some?
  }

  /**
   The request's content after a builder pod was generated from it: an affinity of the
   request's own is shared with the pod and grows by one term, otherwise nothing changes.
   */
  function AfterPodGeneration(cfg: Config, c: Content): Content
  {
    if HasAffinity(c) then
      var extra := c.spec.extraPodSpec.value;
      c.(spec := c.spec.(extraPodSpec := Some(extra.(affinity := Some(WithTerm(cfg, extra.affinity.value))))))
    else c
  }
}
