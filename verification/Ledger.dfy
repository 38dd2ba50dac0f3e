/** The jobs table and the step ledger, one atomic operation per SQL statement. */
module Ledger {
  import opened Money
  import opened Domain
  import opened Order
  import opened Settlement

  type StepRef = (PlanId, StepId)

  datatype StepRow = StepRow(
    key: Key, jobId: JobId, body: Body, generationId: Option<nat>, status: StepStatus, cost: Amount)

  type Rows = map<StepRef, StepRow>

  datatype ClaimError = KeyChanged | BodyChanged | KeyTaken

  predicate KeyInUse(rows: Rows, key: Key) {
    exists r :: r in rows && rows[r].key == key
  }

  /** Reserve the step, or return the existing reservation. A repeat must present the
      same key and the same body; the table holds each key once. */
  function ClaimStep(rows: Rows, at: StepRef, jobId: JobId, key: Key, body: Body): Result<Rows, ClaimError> {
    if at in rows then
      if rows[at].key != key then Err(KeyChanged)
      else if rows[at].body != body then Err(BodyChanged)
      else Ok(rows)
    else if KeyInUse(rows, key) then Err(KeyTaken)
    else Ok(rows[at := StepRow(key, jobId, body, None, StepStatus.Pending, 0)])
  }

  /** `UPDATE … SET status, COALESCE(generation_id), COALESCE(cost)`: no row, no change. */
  function UpdateStep(rows: Rows, at: StepRef, status: StepStatus, id: Option<nat>, cost: Option<Amount>): Rows {
    if at !in rows then rows
    else rows[at := rows[at].(status := status, generationId := Or(id, rows[at].generationId),
        cost := GetOr(cost, rows[at].cost))]
  }

  /** A launched step without a verdict, old enough, inside a job that already ended. */
  predicate IsStale(rows: Rows, touched: map<StepRef, nat>, jobs: map<JobId, Job>, before: nat, at: StepRef) {
    && at in rows && rows[at].status.Running? && rows[at].generationId.Some?
    && at in touched && touched[at] < before
    && rows[at].jobId in jobs && jobs[rows[at].jobId].status.IsTerminal()
  }

  /** The job has come to an end, good or bad. */
  ghost predicate HasEnded(job: Job) {
    job.status != JobStatus.Pending && job.status != JobStatus.Queued && job.status != JobStatus.Running
  }

  function ActiveJobs(jobs: map<JobId, Job>): set<JobId> {
    set j | j in jobs && jobs[j].status.IsActive()
  }

  /** When each job was created. */
  function Ages(jobs: map<JobId, Job>): map<JobId, nat> {
    map j | j in jobs :: jobs[j].createdAt
  }

  /** No two ledger rows carry the same generation id. */
  ghost predicate UniqueIds(rows: Rows) {
    forall r, q ::
      r in rows && q in rows && rows[r].generationId.Some? && rows[r].generationId == rows[q].generationId ==> r == q
  }

  /** After a callback the document's step and the ledger's row agree exactly if the step had
      not succeeded before, or the callback is a success at the cost it already has: a step
      that succeeded is left alone in the document, but its row is rewritten all the same. */
  lemma CallbackAgreesWithRow(job: Job, rows: Rows, id: StepId, i: nat, gid: nat, v: Payload)
    requires IsStep(job.steps, id, i) && (job.planId, id) in rows
    ensures var s := ApplyWebhook(job, id, v).steps[i];
            var row := UpdateStep(rows, (job.planId, id), WebhookStatus(v), Some(gid), Some(WebhookCost(v)))
                       [(job.planId, id)];
            && (row.status == s.status && row.cost == s.cost <==>
                || job.steps[i].status != StepStatus.Succeeded
                || (v.phase == Success && job.steps[i].cost == if v.refunded || v.cost.None? then 0 else v.cost.value))
  {
    assert FindStep(job.steps, id) == Some(i);
  }

  class JobRepository {
    var jobs: map<JobId, Job>
    var rows: Rows
    /** When each ledger row was last written. */
    var touched: map<StepRef, nat>

    constructor ()
      ensures jobs == map[] && rows == map[] && touched == map[] && Valid()
    {
      jobs, rows, touched := map[], map[], map[];
    }

    /** Every stored document agrees with its steps. */
    ghost predicate Valid()
      reads this
    {
      forall j :: j in jobs ==> jobs[j].jobId == j && AddsUp(jobs[j])
    }

    /** Stores any document under its id; the tables stay balanced if the document is. */
    method Save(job: Job)
      modifies this`jobs
      ensures jobs == old(jobs)[job.jobId := job]
      ensures old(Valid()) && AddsUp(job) ==> Valid()
    {
      jobs := jobs[job.jobId := job];
    }

    /** Take ownership of a queued job: `false` means somebody else has it. */
    method ClaimForExecution(jobId: JobId) returns (claimed: bool)
      requires Valid()
      modifies this`jobs
      ensures Valid()
      ensures claimed <==> jobId in old(jobs) && old(jobs)[jobId].status.Queued?
      ensures jobs == if claimed then old(jobs)[jobId := old(jobs)[jobId].(status := JobStatus.Running)] else old(jobs)
    {
      claimed := jobId in jobs && jobs[jobId].status.Queued?;
      if claimed {
        jobs := jobs[jobId := jobs[jobId].(status := JobStatus.Running)];
      }
    }

    /** Put a job back in line after a restart, whatever its status. */
    method Requeue(jobId: JobId)
      requires Valid()
      modifies this`jobs
      ensures Valid()
      ensures jobs == if jobId !in old(jobs) then old(jobs)
                      else old(jobs)[jobId := old(jobs)[jobId].(status := JobStatus.Queued)]
    {
      if jobId in jobs {
        jobs := jobs[jobId := jobs[jobId].(status := JobStatus.Queued)];
      }
    }

    /** Jobs a previous process left unfinished, each once, oldest first. */
    method UnfinishedJobs() returns (ids: seq<JobId>)
      ensures ListsByAge(ids, ActiveJobs(jobs), Ages(jobs))
      ensures forall j :: j in ids <==>
                          j in jobs && (jobs[j].status == JobStatus.Queued || jobs[j].status == JobStatus.Running)
      ensures forall k, l :: 0 <= k < l < |ids| ==>
                               && ids[k] != ids[l] && ids[k] in jobs && ids[l] in jobs
                               && jobs[ids[k]].createdAt <= jobs[ids[l]].createdAt
    {
      ids := OldestFirst(ActiveJobs(jobs), Ages(jobs));
    }

    method Claim(at: StepRef, jobId: JobId, key: Key, body: Body, now: nat) returns (r: Result<StepRow, ClaimError>)
      modifies this`rows, this`touched
      ensures var claimed := ClaimStep(old(rows), at, jobId, key, body);
              if claimed.Err? then r == Err(claimed.error) && rows == old(rows)
              else rows == claimed.value && at in rows && r == Ok(rows[at])
      ensures var taken := exists q :: q in old(rows) && old(rows)[q].key == key;
              if at in old(rows) then
                && rows == old(rows)
                && var row := old(rows)[at];
                && (row.key != key ==> r == Err(KeyChanged))
                && (row.key == key && row.body != body ==> r == Err(BodyChanged))
                && (row.key == key && row.body == body ==> r == Ok(row))
              else if taken then rows == old(rows) && r == Err(KeyTaken)
              else
                var row := StepRow(key, jobId, body, None, StepStatus.Pending, 0);
                rows == old(rows)[at := row] && r == Ok(row)
      ensures touched == if at !in old(rows) && at in rows then old(touched)[at := now] else old(touched)
    {
      if at in rows {
        var existing := rows[at];
        if existing.key != key {
          return Err(KeyChanged);
        }
        if existing.body != body {
          return Err(BodyChanged);
        }
        return Ok(existing);
      }
      if KeyInUse(rows, key) {
        return Err(KeyTaken);
      }
      rows := rows[at := StepRow(key, jobId, body, None, StepStatus.Pending, 0)];
      touched := touched[at := now];
      return Ok(rows[at]);
    }

    method Update(at: StepRef, status: StepStatus, id: Option<nat>, cost: Option<Amount>, now: nat)
      modifies this`rows, this`touched
      ensures rows == UpdateStep(old(rows), at, status, id, cost)
      ensures at !in old(rows) ==> rows == old(rows)
      ensures at in old(rows) ==>
                && rows == old(rows)[at := rows[at]] && at in rows
                && var was, row := old(rows)[at], rows[at];
                && row.status == status
                && row.generationId == (if id.Some? then id else was.generationId)
                && row.cost == (if cost.Some? then cost.value else was.cost)
                && row.key == was.key && row.jobId == was.jobId && row.body == was.body
      ensures touched == if at in old(rows) then old(touched)[at := now] else old(touched)
    {
      if at in rows {
        rows := UpdateStep(rows, at, status, id, cost);
        touched := touched[at := now];
      }
    }

    /** The ledger row a callback refers to. */
    method FindByGeneration(id: nat) returns (found: Option<StepRef>)
      ensures found.Some? ==> found.value in rows && rows[found.value].generationId == Some(id)
      ensures found.None? ==> forall r :: r in rows ==> rows[r].generationId != Some(id)
    {
      if r :| r in rows && rows[r].generationId == Some(id) {
        return Some(r);
      }
      return None;
    }

    /** A callback from the platform: settles the step in the document and in the ledger.
        The step is looked up by generation id; an unknown id changes nothing. Where ids
        are unique, as they are (`NeverTwice.LedgerIdsAreThePlatforms`), every id the
        ledger knows finds its step, unless the job's document is gone. */
    method Webhook(id: nat, v: Payload, now: nat) returns (matched: Option<StepRef>)
      requires Valid()
      modifies this
      ensures Valid()
      ensures UniqueIds(old(rows)) ==>
                (matched.Some? <==>
                 exists r :: r in old(rows) && old(rows)[r].generationId == Some(id) && old(rows)[r].jobId in old(jobs))
      ensures matched.None? ==> jobs == old(jobs) && rows == old(rows) && touched == old(touched)
      ensures matched.Some? ==>
                var at := matched.value;
                && at in old(rows) && old(rows)[at].generationId == Some(id) && old(rows)[at].jobId in old(jobs)
                && var job := old(jobs)[old(rows)[at].jobId];
                && jobs == old(jobs)[job.jobId := ApplyWebhook(job, at.1, v)]
                && CalledBack(job, jobs[job.jobId], at.1, v)
                && rows == UpdateStep(old(rows), (job.planId, at.1), WebhookStatus(v), Some(id), Some(WebhookCost(v)))
                && ((job.planId, at.1) in rows ==>
                      var row := rows[(job.planId, at.1)];
                      && row.status == (if v.phase == Success then StepStatus.Succeeded else StepStatus.Failed)
                      && row.cost == (if v.refunded || v.cost.None? then 0 else v.cost.value)
                      && row.generationId == Some(id))
                && touched ==
                   if (job.planId, at.1) in rows then old(touched)[(job.planId, at.1) := now] else old(touched)
    {
      matched := None;
      var found := FindByGeneration(id);
      if found.Some? && rows[found.value].jobId in jobs {
        var job := jobs[rows[found.value].jobId];
        WebhookIsSafe(job, found.value.1, v);
        CallbackMeans(job, found.value.1, v);
        Save(ApplyWebhook(job, found.value.1, v));
        Update((job.planId, found.value.1), WebhookStatus(v), Some(id), Some(WebhookCost(v)), now);
        matched := found;
      }
    }
  }
}
