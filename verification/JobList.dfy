/** The server's pointer-linked job list, as a queue over the heap. */
module JobList {
  import opened Bytes

  class Job {
    const JobId: string
    var status: int
    var Prev: Job?
    var Next: Job?
    constructor (id: string, s: int) ensures JobId == id && status == s && Prev == null && Next == null
    {
      JobId, status, Prev, Next := id, s, null, null;
    }
  }

  function One(j: Job?): set<Job> { if j == null then {} else {j} }

  function Last(js: seq<Job>): Job? { if js == [] then null else js[|js| - 1] }

  function At(js: seq<Job>, i: nat): Job? { if i < |js| then js[i] else null }

  ghost predicate Distinct(js: seq<Job>) { forall i, j :: 0 <= i < j < |js| ==> js[i] != js[j] }

  /** Neighbours point at each other, the first has no predecessor; `after` follows the last. */
  ghost predicate Chained(js: seq<Job>, after: Job?)
    reads js
  {
    && (js != [] ==> js[0].Prev == null && js[|js| - 1].Next == after)
    && (forall i :: 0 <= i < |js| - 1 ==> js[i].Next == js[i + 1])
    && (forall i :: 0 <= i < |js| - 1 ==> js[i + 1].Prev == js[i])
  }

  /** The jobs whose status is not `status`, in order. */
  function Without(js: seq<Job>, status: int): seq<Job>
    reads js`status
  {
    if js == [] then [] else
      Without(js[..|js| - 1], status) + if js[|js| - 1].status == status then [] else [js[|js| - 1]]
  }

  lemma {:induction false} WithoutKeeps(js: seq<Job>, status: int)
    requires Distinct(js)
    ensures var r := Without(js, status);
            && |r| <= |js| && Distinct(r) && (forall j :: j in r <==> j in js && j.status != status)
            && (r != [] && js[0].status != status ==> r[0] == js[0])
  {
    if js != [] {
      var n := |js| - 1;
      WithoutKeeps(js[..n], status);
      assert js == js[..n] + [js[n]];
    }
  }

  lemma DistinctPush(js: seq<Job>, job: Job)
    requires Distinct(js)
    ensures Distinct(js + [job]) <==> job !in js
  {
    var all := js + [job];
    if i :| 0 <= i < |js| && js[i] == job { assert all[i] == all[|js|]; }
  }

  class JobList {
    var Head: Job?
    var Size: int                  // uint32
    ghost var nodes: seq<Job>      // the queue, front first

    /** An empty list may still have a stale head. */
    ghost predicate Valid()
      reads this, nodes
    {
      && Size == |nodes| < TWO32 && Distinct(nodes)
      && (nodes != [] ==> Head == nodes[0]) && Chained(nodes, null)
    }

    constructor ()
      ensures Valid() && nodes == []
    {
      Head, Size, nodes := null, 0, [];
    }

    /** Appends; the list stays a queue unless the job is already in it or the 32-bit Size wraps. */
    method PushList(job: Job?) returns (ok: bool)
      requires Valid()
      modifies this, nodes`Next, One(job)`Prev, One(job)`Next
      ensures ok == (job != null)
      ensures nodes == if job == null then old(nodes) else old(nodes) + [job]
      ensures Valid() <==> (job == null || job !in old(nodes)) && |nodes| < TWO32
    {
      if job == null { return false; }
      LinkLast(job);
      DistinctPush(nodes, job);
      hide Distinct, Chained;
      nodes := nodes + [job];
      Size := (Size + 1) % TWO32;
      return true;
    }

    /** Sets the pointers of a job that comes last. */
    method LinkLast(job: Job)
      requires Valid()
      modifies this`Head, nodes`Next, job`Prev, job`Next
      ensures job !in nodes ==> Chained(nodes + [job], null) && Head == (nodes + [job])[0]
    {
      var tmpHead := Head;
      if Size == 0 || tmpHead == null {
        Head := job;
        job.Prev, job.Next := null, null;
      } else {
        var tail := FindTail();
        job.Next, job.Prev := null, tail;
        tail.Next := job;
      }
    }

    /** From the head along Next to the last job. */
    method FindTail() returns (tail: Job)
      requires Valid() && nodes != []
      ensures tail == nodes[|nodes| - 1]
    {
      tail := Head;
      ghost var k := 0;
      while tail.Next != null
        invariant 0 <= k < |nodes| && tail == nodes[k]
        decreases |nodes| - k
      {
        tail := tail.Next;
        k := k + 1;
      }
      assert nodes[k].Next == At(nodes, k + 1);
    }

    method PopList() returns (job: Job?)
      requires Valid()
      modifies this, nodes`Prev, nodes`Next
      ensures Valid()
      ensures job == if old(nodes) == [] then null else old(nodes)[0]
      ensures nodes == if old(nodes) == [] then [] else old(nodes)[1..]
      ensures job != null ==> job.Prev == null && job.Next == null
    {
      if Size == 0 || Head == null { return null; }
      job := Head;
      if Size > 1 {
        assert job.Next == nodes[1];
        if job.Prev != null || job.Next == null { return null; }
        var nextJob := job.Next;
        nextJob.Prev := null;
        Head := nextJob;
      }
      job.Prev, job.Next := null, null;
      Size := Size - 1;
      nodes := nodes[1..];
    }

    /** The first job with the id. */
    method GetListJob(jobId: string) returns (job: Job?)
      requires Valid()
      ensures job == null ==> forall i :: 0 <= i < |nodes| ==> nodes[i].JobId != jobId
      ensures job != null ==> exists k :: 0 <= k < |nodes| && job == nodes[k] && job.JobId == jobId
                                          && forall i :: 0 <= i < k ==> nodes[i].JobId != jobId
    {
      if Size == 0 || Head == null { return null; }
      var i, isGet := 0, false;
      job := Head;
      while true
        invariant 0 <= i <= |nodes| && job == At(nodes, i) && !isGet
        invariant forall k :: 0 <= k < i ==> nodes[k].JobId != jobId
        decreases |nodes| - i
      {
        if job == null { break; }
        if Size < i { break; }
        if job.JobId == jobId { return job; }
        job := job.Next;
        i := i + 1;
      }
      return null;
    }
  
    /**
     Unlinks every job of that status and counts them. The head pointer never moves, so what is left is
     the queue of the other jobs exactly when the head is not of that status or nothing is left.
     */
    method DelListStatsJob(status: int) returns (delNum: int)
      requires Valid()
      modifies this, nodes`Prev, nodes`Next
      ensures nodes == Without(old(nodes), status)
      ensures delNum == |old(nodes)| - |nodes| && Size == |nodes| && Chained(nodes, null) && Head == old(Head)
      ensures Valid() <==> old(nodes) == [] || old(nodes)[0].status != status
                           || forall i :: 0 <= i < |old(nodes)| ==> old(nodes)[i].status == status
    {
      hide Distinct, Chained, Unlinked, Without;
      ghost var was := nodes;
      if Size == 0 || Head == null {
        NoneLeft(status);
        return 0;
      }
      ghost var kept;
      delNum, kept := UnlinkAll(status);
      nodes := kept;
      Size := Size - delNum;
      UnlinkedEnd(was, kept);
      LeftOver(was, status);
    }

    /** The loop of the deletion; `kept` are the jobs it passes over. */
    method UnlinkAll(status: int) returns (delNum: int, ghost kept: seq<Job>)
      requires Valid() && nodes != []
      modifies nodes`Prev, nodes`Next
      ensures Unlinked(nodes, kept, |nodes|) && kept == Without(nodes, status) && delNum == |nodes| - |kept|
      ensures Distinct(nodes)
    {
      ghost var was := nodes;
      NoneLeft(status);
      hide Distinct, Chained, Unlinked, Without;
      kept := [];
      delNum := 0;
      var i := 0;
      var job := Head;
      UnlinkedStart(was);
      while i < Size
        invariant 0 <= i <= Size == |was| && nodes == was && job == At(was, i)
        invariant Unlinked(was, kept, i) && kept == Without(was[..i], status) && delNum == i - |kept|
      {
        if job == null { break; }
        WithoutStep(was, i, status);
        UnlinkedNext(was, kept, i);
        if job.status == status {
          Unlink(job, Size, was, kept, i);
          delNum := delNum + 1;
        } else {
          UnlinkedKeep(was, kept, i);
          kept := kept + [was[i]];
        }
        job := job.Next;
        i := i + 1;
      }
      assert was[..i] == was;
    }
  }

  lemma NoneLeft(status: int)
    ensures Without([], status) == []
  {
  }

  lemma WithoutStep(js: seq<Job>, i: nat, status: int)
    requires i < |js|
    ensures Without(js[..i + 1], status)
            == Without(js[..i], status) + if js[i].status == status then [] else [js[i]]
  {
    assert js[..i + 1][..i] == js[..i];
  }

  method TwoJobs(status: int, other: int) returns (list: JobList, first: Job, second: Job)
    ensures fresh(list) && fresh(first) && fresh(second) && list.Valid() && list.nodes == [first, second]
    ensures first.status == status && second.status == other
  {
    list := new JobList();
    first := new Job("first", status);
    second := new Job("second", other);
    hide Chained, Distinct;
    var _ := list.PushList(first);
    var _ := list.PushList(second);
  }

  /** A head of the status in front of another job: the deletion leaves the head pointer on the unlinked job. */
  method StaleHead(status: int, other: int) returns (list: JobList, first: Job, second: Job)
    requires other != status
    ensures !list.Valid() && list.nodes == [second] && list.Head == first != second && list.Size == 1
  {
    hide Chained, Without;
    list, first, second := TwoJobs(status, other);
    SecondLeft(first, second, status);
    var _ := list.DelListStatsJob(status);
  }

  lemma SecondLeft(first: Job, second: Job, status: int)
    requires first.status == status != second.status
    ensures Without([first, second], status) == [second]
  {
    assert [first, second][..1] == [first] && [first][..0] == [];
    assert Without([first], status) == [];
  }

  /** Nothing is left when all match; otherwise the old head leads what is left exactly when it does not match. */
  lemma LeftOver(was: seq<Job>, status: int)
    requires Distinct(was) && was != []
    ensures var kept := Without(was, status);
            && |kept| <= |was|
            && (kept == [] <==> forall i :: 0 <= i < |was| ==> was[i].status == status)
            && (kept != [] ==> (kept[0] == was[0] <==> was[0].status != status))
  {
    WithoutKeeps(was, status);
    var kept := Without(was, status);
    if kept != [] { assert kept[0] in kept; }
    if i :| 0 <= i < |was| && was[i].status != status { assert was[i] in kept; }
  }

  /** Unlinks one job from its neighbours. */
  method Unlink(job: Job, size: int, ghost was: seq<Job>, ghost kept: seq<Job>, ghost i: nat)
    requires i < |was| == size && job == was[i] && Unlinked(was, kept, i)
    modifies was`Prev, was`Next
    ensures Unlinked(was, kept, i + 1) && job.Next == At(was, i + 1)
  {
    var prevJob, nextJob := job.Prev, job.Next;
    if size > 1 {
      if prevJob != null { prevJob.Next := nextJob; }
      if nextJob != null { nextJob.Prev := prevJob; }
    }
  }

  /** The first `i` jobs have been looked at: those kept are chained to the rest, the rest is as it was. */
  ghost predicate Unlinked(was: seq<Job>, kept: seq<Job>, i: nat)
    reads was, kept
  {
    && i <= |was| && Distinct(was) && Distinct(kept) && |kept| <= i
    && (forall k :: 0 <= k < |kept| ==> kept[k] in was[..i])
    && Chained(kept, At(was, i))
    && (i < |was| ==> was[i].Prev == Last(kept))
    && (forall k :: i <= k < |was| ==> was[k].Next == At(was, k + 1))
    && (forall k :: i < k < |was| ==> was[k].Prev == was[k - 1])
  }

  lemma UnlinkedStart(was: seq<Job>)
    requires Distinct(was) && Chained(was, null)
    ensures Unlinked(was, [], 0)
  {
    forall k | 0 < k < |was| ensures was[k].Prev == was[k - 1] { assert was[k - 1 + 1].Prev == was[k - 1]; }
  }

  lemma UnlinkedNext(was: seq<Job>, kept: seq<Job>, i: nat)
    requires Unlinked(was, kept, i) && i < |was|
    ensures was[i].Next == At(was, i + 1)
  {
  }

  lemma UnlinkedKeep(was: seq<Job>, kept: seq<Job>, i: nat)
    requires Unlinked(was, kept, i) && i < |was|
    ensures Unlinked(was, kept + [was[i]], i + 1)
  {
  }

  lemma UnlinkedEnd(was: seq<Job>, kept: seq<Job>)
    requires Unlinked(was, kept, |was|)
    ensures Distinct(kept) && Chained(kept, null)
  {
  }
}
