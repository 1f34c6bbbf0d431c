/** The cluster as one mutable object, and the calls by which the controller reads and changes it. */
module ApiServer {
  import opened Basics
  import opened Conditions
  import opened Cluster
  import opened StatusWriter

  class Server {
    var request: Request
    var jobs: seq<Job>
    var pvcs: set<string>
    var bento: Option<Bento>
    var registry: set<string>
    var now: int
    var nextId: nat

    constructor (w: World)
      ensures State() == w
    {
      request, jobs, pvcs, bento, registry, now, nextId := w.req, w.jobs, w.pvcs, w.bento, w.registry, w.now, w.nextId;
    }

    function State(): (w: World)
      reads this
    {
      World(request, jobs, pvcs, bento, registry, now, nextId)
    }

    /** Other writers' status updates, one after the other. */
    method Interfere(edits: seq<ForeignEdit>)
      modifies this
      ensures State() == Disturbed(old(State()), edits)
    {
      ghost var before := request;
      var conditions := request.conditions;
      var k := 0;
      while k < |edits|
        invariant 0 <= k <= |edits|
        invariant WithForeign(conditions, edits[k..], now) == WithForeign(before.conditions, edits, now)
      {
        var e := edits[k];
        assert edits[k..][1..] == edits[k + 1..];
        conditions := Set(conditions, Condition(Foreign(e.name), e.status, e.reason, e.message, 0), now);
        k := k + 1;
      }
      assert edits[|edits|..] == [];
      request := request.(conditions := conditions, version := request.version + |edits|);
    }

    /** Status().Update: refused when the call fails or the stored version is not the one that was read. */
    method UpdateStatus(local: Request, fails: bool) returns (ok: bool)
      modifies this
      ensures ok <==> !fails && local.version == old(request.version)
      ensures State() == if ok then old(State()).(req := local.(version := local.version + 1)) else old(State())
    {
      ok := !fails && local.version == request.version;
      if ok {
        request := local.(version := local.version + 1);
      }
    }

    method DeleteJob(id: nat, fails: bool) returns (ok: bool)
      modifies this
      ensures ok <==> !fails
      ensures State() == if fails then old(State()) else old(State()).(jobs := Without(old(jobs), id))
    {
      ok := !fails;
      if ok {
        jobs := Without(jobs, id);
      }
    }

    /** The job's generated name is used up even when creating it fails. */
    method CreateJob(job: Job, fails: bool) returns (ok: bool)
      modifies this
      ensures ok <==> !fails
      ensures State() == if fails then old(State()) else old(State()).(jobs := old(jobs) + [job])
    {
      ok := !fails;
      if ok {
        jobs := jobs + [job];
      }
    }

    method TakeId() returns (id: nat)
      modifies this
      ensures id == old(nextId) && State() == old(State()).(nextId := old(nextId) + 1)
    {
      id := nextId;
      nextId := nextId + 1;
    }

    method CreatePvc(name: string)
      modifies this
      ensures State() == old(State()).(pvcs := old(pvcs) + {name})
    {
      pvcs := pvcs + {name};
    }

    /** A claim that is not there any more counts as deleted. */
    method DeletePvc(name: string, fails: bool)
      modifies this
      ensures State() == if fails then old(State()) else old(State()).(pvcs := old(pvcs) - {name})
    {
      if !fails {
        pvcs := pvcs - {name};
      }
    }

    method PutBento(b: Bento)
      modifies this
      ensures State() == old(State()).(bento := Some(b))
    {
      bento := Some(b);
    }
  }
}
