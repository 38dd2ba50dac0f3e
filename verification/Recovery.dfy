/** Startup recovery: unfinished jobs go back in line, then their ids are delivered. */
module Recovery {
  import opened Domain
  import opened Ledger
  import opened Order

  class JobQueue {
    var waiting: seq<JobId>

    constructor ()
      ensures waiting == []
    {
      waiting := [];
    }

    method Enqueue(jobId: JobId)
      modifies this
      ensures waiting == old(waiting) + [jobId]
    {
      waiting := waiting + [jobId];
    }

    /** The next job id for a free worker. */
    method Take() returns (jobId: Option<JobId>)
      modifies this
      ensures old(waiting) == [] ==> jobId.None? && waiting == []
      ensures old(waiting) != [] ==> jobId == Some(old(waiting)[0]) && waiting == old(waiting)[1..]
    {
      if waiting == [] {
        return None;
      }
      jobId, waiting := Some(waiting[0]), waiting[1..];
    }
  }

  function Requeued(job: Job): Job {
    if job.status.IsActive() then job.(status := JobStatus.Queued) else job
  }

  /** The unfinished jobs, each once, oldest first. */
  ghost predicate IsLine(ids: seq<JobId>, jobs: map<JobId, Job>) {
    ListsByAge(ids, ActiveJobs(jobs), Ages(jobs))
  }

  ghost predicate RequeuedUpTo(before: map<JobId, Job>, jobs: map<JobId, Job>, ids: seq<JobId>, n: nat)
    requires n <= |ids|
  {
    && jobs.Keys == before.Keys
    && forall j :: j in jobs ==> jobs[j] == if j in ids[..n] then Requeued(before[j]) else before[j]
  }

  lemma RequeueOne(before: map<JobId, Job>, jobs: map<JobId, Job>, ids: seq<JobId>, n: nat)
    requires n < |ids| && RequeuedUpTo(before, jobs, ids, n) && IsLine(ids, before)
    ensures ids[n] in jobs
    ensures RequeuedUpTo(before, jobs[ids[n] := jobs[ids[n]].(status := JobStatus.Queued)], ids, n + 1)
  {
    assert ids[n] in ActiveJobs(before);
    assert ids[..n + 1] == ids[..n] + [ids[n]];
    assert ids[n] !in ids[..n];
  }

  lemma AllRequeued(before: map<JobId, Job>, jobs: map<JobId, Job>, ids: seq<JobId>)
    requires RequeuedUpTo(before, jobs, ids, |ids|) && IsLine(ids, before)
    ensures jobs.Keys == before.Keys && forall j :: j in jobs ==> jobs[j] == Requeued(before[j])
  {
    assert ids[..|ids|] == ids;
    forall j | j in jobs ensures jobs[j] == Requeued(before[j]) {
      assert j in ids <==> j in ActiveJobs(before);
    }
  }

  method RequeueAll(repo: JobRepository, queue: JobQueue, ids: seq<JobId>)
    requires repo.Valid() && IsLine(ids, repo.jobs)
    modifies repo`jobs, queue
    ensures repo.Valid() && RequeuedUpTo(old(repo.jobs), repo.jobs, ids, |ids|)
    ensures queue.waiting == old(queue.waiting) + ids
  {
    ghost var first, before := queue.waiting, repo.jobs;
    for n := 0 to |ids|
      invariant repo.Valid() && RequeuedUpTo(before, repo.jobs, ids, n)
      invariant queue.waiting == first + ids[..n]
    {
      RequeueOne(before, repo.jobs, ids, n);
      assert ids[..n + 1] == ids[..n] + [ids[n]];
      repo.Requeue(ids[n]);
      queue.Enqueue(ids[n]);
    }
    assert ids[..|ids|] == ids;
  }

  /** Every job a previous process left queued or running is queued again and delivered
      exactly once, the oldest first; every other job is left alone. */
  method RecoverUnfinished(repo: JobRepository, queue: JobQueue)
    requires repo.Valid()
    modifies repo`jobs, queue
    ensures repo.Valid() && repo.jobs.Keys == old(repo.jobs).Keys
    ensures forall j :: j in repo.jobs ==>
              var was := old(repo.jobs)[j];
              if was.status == JobStatus.Queued || was.status == JobStatus.Running then
                repo.jobs[j] == was.(status := JobStatus.Queued)
              else repo.jobs[j] == was
    ensures |queue.waiting| >= |old(queue.waiting)| && queue.waiting[..|old(queue.waiting)|] == old(queue.waiting)
    ensures IsLine(queue.waiting[|old(queue.waiting)|..], old(repo.jobs))
  {
    var ids := repo.UnfinishedJobs();
    ghost var first, before := queue.waiting, repo.jobs;
    RequeueAll(repo, queue, ids);
    AllRequeued(before, repo.jobs, ids);
    assert queue.waiting[|first|..] == ids;
  }
}
