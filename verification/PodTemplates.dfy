/**
 Generating a job's pod on the heap: the pod may point to the very Affinity object that belongs
 to the request, and the term injected into the pod then lands in the request as well.
 */
module PodTemplates {
  import opened Basics
  import opened Cluster
  import opened Naming
  import opened ImagePhase
  import opened ModelsPhase
  import opened Livelock

  class PodAffinityObject {
    var required: string
    var preferred: seq<AffinityTerm>

    constructor (p: PodAffinity)
      ensures Value() == p
    {
      required, preferred := p.required, p.preferred;
    }

    function Value(): (p: PodAffinity)
      reads this
    {
      PodAffinity(required, preferred)
    }
  }

  class AffinityObject {
    var others: string
    var podAffinity: PodAffinityObject?

    constructor (a: Affinity)
      ensures Value() == a
      ensures podAffinity != null ==> fresh(podAffinity)
    {
      others := a.others;
      podAffinity := null;
      new;
      if a.podAffinity.Some? {
        podAffinity := new PodAffinityObject(a.podAffinity.value);
      }
    }

    function Value(): (a: Affinity)
      reads this, podAffinity
    {
      Affinity(others, if podAffinity == null then None else Some(podAffinity.Value()))
    }
  }

  class PodSpecObject {
    var affinity: AffinityObject?

    constructor ()
      ensures affinity == null
    {
      affinity := null;
    }
  }

  /** The local copy of a request; the affinity of its extra pod spec is an object of its own. */
  class RequestObject {
    var content: Content
    var affinity: AffinityObject?

    constructor (c: Content)
      ensures Content() == c
      ensures Valid()
      ensures affinity != null ==> fresh(affinity) && (affinity.podAffinity != null ==> fresh(affinity.podAffinity))
    {
      content := c;
      affinity := null;
      new;
      if HasAffinity(c) {
        affinity := new AffinityObject(c.spec.extraPodSpec.value.affinity.value);
      }
    }

    /** The affinity object stands for the affinity of the extra pod spec. */
    predicate Valid()
      reads this
    {
      HasAffinity(content) <==> affinity != null
    }

    /** The content as it is now: the plain fields, with the affinity read through its reference. */
    function Content(): (c: Content)
      reads this, affinity, if affinity == null then null else affinity.podAffinity
    {
      if affinity == null || content.spec.extraPodSpec.None? then content
      else
        content.(spec := content.spec.(extraPodSpec := Some(
          content.spec.extraPodSpec.value.(affinity := Some(affinity.Value())))))
    }
  }

  /** injectPodAffinity: fill in what is missing, then append one term in place. */
  method InjectPodAffinity(pod: PodSpecObject, cfg: Config)
    modifies pod, pod.affinity, if pod.affinity == null then null else pod.affinity.podAffinity
    ensures pod.affinity != null
    ensures old(pod.affinity) != null ==> pod.affinity == old(pod.affinity)
    ensures old(pod.affinity) == null ==> fresh(pod.affinity)
    ensures pod.affinity.podAffinity != null
    ensures fresh(pod.affinity.podAffinity)
            || (old(pod.affinity) != null && pod.affinity.podAffinity == old(pod.affinity.podAffinity))
    ensures pod.affinity.Value() == WithTerm(cfg,
              if old(pod.affinity) == null then Affinity("", None) else old(pod.affinity.Value()))
  {
    if pod.affinity == null {
      pod.affinity := new AffinityObject(Affinity("", None));
    }
    if pod.affinity.podAffinity == null {
      pod.affinity.podAffinity := new PodAffinityObject(PodAffinity("", []));
    }
    pod.affinity.podAffinity.preferred := pod.affinity.podAffinity.preferred + [RequestAffinityTerm(cfg)];
  }

  /**
   generateImageBuilderJob: the pod takes the global affinity, unless the request has one of its
   own, which it then shares; the hash is taken after the injection.
   */
  method GenerateImageBuilderJob(cfg: Config, request: RequestObject, global: Option<Affinity>, image: string, id: nat)
    returns (job: Job, pod: PodSpecObject)
    requires request.Valid()
    modifies request.affinity, if request.affinity == null then null else request.affinity.podAffinity
    ensures request.Valid() && request.affinity == old(request.affinity)
    ensures request.affinity != null ==>
              fresh(request.affinity.podAffinity) || request.affinity.podAffinity == old(request.affinity.podAffinity)
    ensures request.Content() == AfterPodGeneration(cfg, old(request.Content()))
    ensures job == NewBuilderJob(cfg, old(request.Content()), image, id)
    ensures job.hash == HashOf(request.Content())
    ensures job.hash == HashOf(old(request.Content())) <==> !HasAffinity(old(request.Content()))
    ensures pod.affinity == request.affinity <==> HasAffinity(old(request.Content()))
  {
    pod := new PodSpecObject();
    if global.Some? {
      pod.affinity := new AffinityObject(global.value);
    }
    if request.content.spec.extraPodSpec.Some? {
      if request.affinity != null {
        pod.affinity := request.affinity;
      }
    }
    ghost var before := request.Content();
    InjectPodAffinity(pod, cfg);
    FreshJobIsCurrentIff(cfg, before, image, id);
    var hash := HashOf(request.Content());
    job := Job(id, "yatai-bento-image-builder-" + Digits(id), BuilderLabels(cfg, request.Content()),
               hash, image, Some(1), 0, 0, 0, []);
  }

  /** generateModelSeederJob never takes the request's affinity, so the request's heap stays as it is. */
  method GenerateModelSeederJob(cfg: Config, request: RequestObject, global: Option<Affinity>, tag: string, id: nat)
    returns (job: Job, pod: PodSpecObject)
    requires request.Valid()
    ensures job == NewSeederJob(cfg, request.Content(), tag, id)
    ensures job.hash == HashOf(request.Content())
    ensures fresh(pod) && fresh(pod.affinity)
  {
    pod := new PodSpecObject();
    if global.Some? {
      pod.affinity := new AffinityObject(global.value);
    }
    InjectPodAffinity(pod, cfg);
    job := Job(id, "yatai-model-seeder-" + Digits(id), SeederLabels(cfg, request.Content(), tag),
               HashOf(request.Content()), "", Some(1), 0, 0, 0, []);
  }
}
