/** What deleting and creating jobs does to the lists that selectors pick out of the store. */
module Listing {
  import opened Cluster
  import opened StatusWriter
  import opened ImagePhase

  predicate UniqueIds(jobs: seq<Job>)
  {
    forall i, j :: 0 <= i < j < |jobs| ==> jobs[i].id != jobs[j].id
  }

  lemma {:induction false} ListAppend(a: seq<Job>, b: seq<Job>, selector: Labels)
    ensures List(a + b, selector) == List(a, selector) + List(b, selector)
  {
    if a == [] {
      assert a + b == b;
    } else {
      assert (a + b)[0] == a[0] && (a + b)[1..] == a[1..] + b;
      ListAppend(a[1..], b, selector);
    }
  }

  /** Creating a job adds it at the end of the lists that select it and leaves the others alone. */
  lemma ListCreated(jobs: seq<Job>, job: Job, selector: Labels)
    ensures List(jobs + [job], selector)
         == if Selects(selector, job.labels) then List(jobs, selector) + [job] else List(jobs, selector)
  {
    ListAppend(jobs, [job], selector);
    assert [job][1..] == [];
    assert List([job], selector) == if Selects(selector, job.labels) then [job] else [];
  }

  lemma {:induction false} ListWithout(jobs: seq<Job>, id: nat, selector: Labels)
    ensures List(Without(jobs, id), selector) == Without(List(jobs, selector), id)
  {
    if jobs != [] {
      ListWithout(jobs[1..], id, selector);
      if jobs[0].id != id {
        assert Without(jobs, id)[1..] == Without(jobs[1..], id);
      }
      if Selects(selector, jobs[0].labels) {
        assert List(jobs, selector)[1..] == List(jobs[1..], selector);
      }
    }
  }

  lemma {:induction false} WithoutAbsent(jobs: seq<Job>, id: nat)
    requires forall j <- jobs :: j.id != id
    ensures Without(jobs, id) == jobs
  {
    if jobs != [] {
      WithoutAbsent(jobs[1..], id);
    }
  }

  lemma {:induction false} WithoutAt(jobs: seq<Job>, i: nat)
    requires UniqueIds(jobs) && i < |jobs|
    ensures Without(jobs, jobs[i].id) == jobs[..i] + jobs[i + 1..]
  {
    var rest := jobs[1..];
    assert UniqueIds(rest) by {
      assert forall k :: 0 <= k < |rest| ==> rest[k] == jobs[k + 1];
    }
    if i == 0 {
      HeadIdIsNew(jobs);
      WithoutAbsent(rest, jobs[0].id);
      assert jobs[..0] + jobs[1..] == rest;
    } else {
      WithoutAt(rest, i - 1);
      assert rest[i - 1] == jobs[i];
      TailWithout(jobs, i);
    }
  }

  lemma TailWithout(jobs: seq<Job>, i: nat)
    requires 0 < i < |jobs|
    ensures [jobs[0]] + (jobs[1..][..i - 1] + jobs[1..][i..]) == jobs[..i] + jobs[i + 1..]
  {
    assert [jobs[0]] + jobs[1..][..i - 1] == jobs[..i];
    assert jobs[1..][i..] == jobs[i + 1..];
  }

  lemma {:induction false} WithoutKeepsUnique(jobs: seq<Job>, id: nat)
    requires UniqueIds(jobs)
    ensures UniqueIds(Without(jobs, id))
  {
    if jobs != [] {
      var rest := jobs[1..];
      assert UniqueIds(rest) by {
        assert forall k :: 0 <= k < |rest| ==> rest[k] == jobs[k + 1];
      }
      WithoutKeepsUnique(rest, id);
      if jobs[0].id != id {
        HeadIdIsNew(jobs);
        var r := Without(rest, id);
        assert forall k :: 0 <= k < |r| ==> r[k] in rest;
      }
    }
  }

  lemma HeadIdIsNew(jobs: seq<Job>)
    requires UniqueIds(jobs) && jobs != []
    ensures forall j <- jobs[1..] :: j.id != jobs[0].id
  {
    forall j | j in jobs[1..] ensures j.id != jobs[0].id {
      var k :| 0 <= k < |jobs| - 1 && jobs[1..][k] == j;
      assert jobs[k + 1] == j;
    }
  }

  lemma {:induction false} ListKeepsUnique(jobs: seq<Job>, selector: Labels)
    requires UniqueIds(jobs)
    ensures UniqueIds(List(jobs, selector))
  {
    if jobs != [] {
      var rest := jobs[1..];
      assert UniqueIds(rest) by {
        assert forall k :: 0 <= k < |rest| ==> rest[k] == jobs[k + 1];
      }
      ListKeepsUnique(rest, selector);
      HeadIdIsNew(jobs);
      var r := List(rest, selector);
      assert forall k :: 0 <= k < |r| ==> r[k] in rest;
    }
  }

  /** A list after every job of another list was removed from it by name. */
  function WithoutEach(jobs: seq<Job>, surplus: seq<Job>): (r: seq<Job>)
    decreases |surplus|
  {
    if surplus == [] then jobs else WithoutEach(Without(jobs, surplus[0].id), surplus[1..])
  }

  /** Deleting never lengthens a list; when every delete succeeds, exactly the surplus is gone. */
  lemma {:induction false} DeleteEachLists(w: World, surplus: seq<Job>, env: Env, selector: Labels)
    requires UniqueIds(w.jobs)
    ensures var r := DeleteEach(w, surplus, env);
            && UniqueIds(r.0.jobs)
            && (forall j <- r.0.jobs :: j in w.jobs)
            && |List(r.0.jobs, selector)| <= |List(w.jobs, selector)|
            && (forall j <- List(r.0.jobs, selector) :: j in List(w.jobs, selector))
            && (r.1 ==> List(r.0.jobs, selector) == WithoutEach(List(w.jobs, selector), surplus))
    decreases |surplus|
  {
    if surplus != [] && !env.fails(DeleteJob(surplus[0].id)) {
      var id := surplus[0].id;
      var w1 := w.(jobs := Without(w.jobs, id));
      WithoutKeepsUnique(w.jobs, id);
      ListWithout(w.jobs, id, selector);
      WithoutShrinks(List(w.jobs, selector), id);
      DeleteEachLists(w1, surplus[1..], env, selector);
    }
  }

  lemma {:induction false} DeleteEachKeeps(w: World, surplus: seq<Job>, env: Env, j: Job)
    requires j in w.jobs && forall d <- surplus :: d.id != j.id
    ensures j in DeleteEach(w, surplus, env).0.jobs
    decreases |surplus|
  {
    if surplus != [] {
      assert surplus[0] in surplus;
      DeleteEachKeeps(w.(jobs := Without(w.jobs, surplus[0].id)), surplus[1..], env, j);
    }
  }

  lemma {:induction false} WithoutShrinks(jobs: seq<Job>, id: nat)
    ensures |Without(jobs, id)| <= |jobs|
  {
    if jobs != [] {
      WithoutShrinks(jobs[1..], id);
    }
  }

  /** Removing all but the first job by name leaves the first. */
  lemma {:induction false} WithoutTail(jobs: seq<Job>)
    requires UniqueIds(jobs) && jobs != []
    ensures WithoutEach(jobs, jobs[1..]) == jobs[..1]
    decreases |jobs|
  {
    if |jobs| == 1 {
      assert jobs[1..] == [];
    } else {
      hide UniqueIds, Without;
      var next := [jobs[0]] + jobs[2..];
      WithoutAt(jobs, 1);
      WithoutKeepsUnique(jobs, jobs[1].id);
      assert jobs[..1] + jobs[2..] == next;
      assert jobs[1..][1..] == jobs[2..] == next[1..];
      WithoutTail(next);
    }
  }

  /** A listing has each selected job as often as the store has it, and no other. */
  lemma {:induction false} ListMultiset(jobs: seq<Job>, selector: Labels, j: Job)
    ensures multiset(List(jobs, selector))[j] == if Selects(selector, j.labels) then multiset(jobs)[j] else 0
  {
    if jobs != [] {
      ListMultiset(jobs[1..], selector, j);
      assert jobs == [jobs[0]] + jobs[1..];
      if Selects(selector, jobs[0].labels) {
        assert List(jobs, selector) == [jobs[0]] + List(jobs[1..], selector);
      }
    }
  }

  /** Listing order does not matter for how many jobs are listed, and which. */
  lemma ListReordered(a: seq<Job>, b: seq<Job>, selector: Labels)
    requires multiset(a) == multiset(b)
    ensures multiset(List(a, selector)) == multiset(List(b, selector))
    ensures |List(a, selector)| == |List(b, selector)|
  {
    forall j: Job
      ensures multiset(List(a, selector))[j] == multiset(List(b, selector))[j]
    {
      ListMultiset(a, selector, j);
      ListMultiset(b, selector, j);
    }
    assert |List(a, selector)| == |multiset(List(a, selector))|;
  }

  /** Jobs of one snapshot still mean the same job wherever their name turns up in a later store. */
  predicate Agree(snapshot: seq<Job>, jobs: seq<Job>)
  {
    forall a <- snapshot, b <- jobs :: a.id == b.id ==> a == b
  }

  lemma UniqueAgrees(jobs: seq<Job>, selector: Labels)
    requires UniqueIds(jobs)
    ensures Agree(List(jobs, selector), jobs)
  {
  }

  /** Deleting a job that a selector does not pick leaves that selector's list alone. */
  lemma DeleteUnselected(jobs: seq<Job>, job: Job, selector: Labels)
    requires Agree([job], jobs) && !Selects(selector, job.labels)
    ensures List(Without(jobs, job.id), selector) == List(jobs, selector)
  {
    ListWithout(jobs, job.id, selector);
    forall j <- List(jobs, selector) ensures j.id != job.id {
      assert job in [job];
    }
    WithoutAbsent(List(jobs, selector), job.id);
  }

  lemma {:induction false} DeleteEachUnselected(w: World, surplus: seq<Job>, env: Env, selector: Labels)
    requires Agree(surplus, w.jobs)
    requires forall j <- surplus :: !Selects(selector, j.labels)
    ensures List(DeleteEach(w, surplus, env).0.jobs, selector) == List(w.jobs, selector)
    decreases |surplus|
  {
    if surplus != [] && !env.fails(DeleteJob(surplus[0].id)) {
      DeleteUnselected(w.jobs, surplus[0], selector);
      DeleteEachUnselected(w.(jobs := Without(w.jobs, surplus[0].id)), surplus[1..], env, selector);
    }
  }
}
