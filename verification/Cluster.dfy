/**
 The state a BentoRequest reconciler shares with the rest of the cluster: the request itself,
 the jobs and volume claims it owns, the Bento it produces, the image registry and the clock.
 */
module Cluster {
  import opened Basics
  import opened Conditions

  datatype LabelKey =
    | RequestLabel
    | ImageBuilderLabel
    | ModelSeederLabel
    | SeparateModelsLabel
    | ModelRepositoryLabel
    | ModelVersionLabel
    | BentoRepositoryLabel
    | BentoVersionLabel

  type Labels = map<LabelKey, string>

  datatype AnnotationKey =
    | SeparateModelsAnnotation
    | StoredInS3Annotation
    | BentoStorageNamespace
    | ModelStorageNamespace
    | ForceBuildImage
    | OtherAnnotation(name: string)

  /** A weighted pod affinity term, and the parts of an Affinity the controller does not touch. */
  datatype AffinityTerm = AffinityTerm(weight: int, labels: Labels, topologyKey: string)
  datatype PodAffinity = PodAffinity(required: string, preferred: seq<AffinityTerm>)
  datatype Affinity = Affinity(others: string, podAffinity: Option<PodAffinity>)
  datatype ExtraPodSpec = ExtraPodSpec(affinity: Option<Affinity>, others: string)

  datatype Model = Model(tag: string, source: string)

  /** The spec fields that steer the controller; the remaining ones travel in others. */
  datatype Spec = Spec(
    bentoTag: string,
    downloadURL: string,
    serviceName: string,
    models: seq<Model>,
    image: string,
    imageBuildTimeout: Option<int>,
    extraPodSpec: Option<ExtraPodSpec>,
    dockerConfigSecret: string,
    others: string)

  /** What the request hash covers: spec, labels and annotations. */
  datatype Content = Content(spec: Spec, labels: map<string, string>, annotations: map<AnnotationKey, string>)

  /** The content hash, as an injective function that is not interpreted further. */
  datatype Hash = HashOf(content: Content)

  datatype Request = Request(namespace: string, content: Content, conditions: seq<Condition>, version: nat)

  /** The Go zero value a writer is left with when its very first read fails. */
  const EmptyRequest: Request :=
    Request("", Content(Spec("", "", "", [], "", None, None, "", ""), map[], map[]), [], 0)

  datatype JobConditionKind = JobFailed | JobComplete | JobSuspended
  datatype JobCondition = JobCondition(kind: JobConditionKind, status: Status)

  /** A job; id is the generated unique part of its name, image what a builder job pushes. */
  datatype Job = Job(
    id: nat,
    name: string,
    labels: Labels,
    hash: Hash,
    image: string,
    completions: Option<int>,
    succeeded: int,
    failed: int,
    active: int,
    conditions: seq<JobCondition>)

  datatype Bento = Bento(
    tag: string, image: string, serviceName: string, models: seq<Model>,
    separateModels: bool, storedInS3: bool)

  datatype World = World(
    req: Request,
    jobs: seq<Job>,
    pvcs: set<string>,
    bento: Option<Bento>,
    registry: set<string>,
    now: int,
    nextId: nat)

  /** A job matches a selector when it carries each of its labels with that value. */
  predicate Selects(selector: Labels, labels: Labels)
  {
    forall k <- selector :: k in labels && labels[k] == selector[k]
  }

  /** List with MatchingLabels, in the order the store holds the jobs. */
  function List(jobs: seq<Job>, selector: Labels): (r: seq<Job>)
    ensures forall j :: j in r <==> j in jobs && Selects(selector, j.labels)
    ensures |r| <= |jobs|
  {
    if jobs == [] then []
    else if Selects(selector, jobs[0].labels) then [jobs[0]] + List(jobs[1..], selector)
    else List(jobs[1..], selector)
  }

  /** Delete by name: the store without the job of that id. */
  function Without(jobs: seq<Job>, id: nat): (r: seq<Job>)
    ensures forall j :: j in r <==> j in jobs && j.id != id
  {
    if jobs == [] then []
    else if jobs[0].id == id then Without(jobs[1..], id)
    else [jobs[0]] + Without(jobs[1..], id)
  }

  predicate Completed(j: Job)
  {
    j.completions.Some? && j.succeeded == j.completions.value
  }

  predicate HasFailedCondition(j: Job)
  {
    exists c <- j.conditions :: c.kind == JobFailed && c.status == True
  }

  /** The two flags ensureImageExists derives from a builder job's status. */
  predicate BuildFailed(j: Job)
  {
    j.completions.Some? && j.succeeded != j.completions.value && j.failed > 0 && HasFailedCondition(j)
  }

  predicate BuildRunning(j: Job)
  {
    j.completions.None? || (j.succeeded != j.completions.value && !BuildFailed(j))
  }

  function Tags(models: seq<Model>): (r: seq<string>)
    ensures |r| == |models|
    ensures forall i :: 0 <= i < |r| ==> r[i] == models[i].tag
  {
    if models == [] then [] else [models[0].tag] + Tags(models[1..])
  }
}
