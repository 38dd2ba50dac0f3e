/** What every interleaving of the spending protocol keeps. */
module NeverTwice {
  import opened Money
  import opened Domain
  import opened Settlement
  import opened Ledger
  import opened Protocol
  import E = Execution
  import JobRun
  import Reconciler
  import P = Platform

  // ---------------------------------------------------------------------------
  // What only ever grows
  // ---------------------------------------------------------------------------

  /** A ledger row is never removed, never changes its key, its body or its job, and
      never exchanges its generation id for another. */
  ghost predicate RowsGrow(a: Rows, b: Rows) {
    forall at :: at in a ==>
      && at in b && b[at].key == a[at].key && b[at].body == a[at].body && b[at].jobId == a[at].jobId
      && (a[at].generationId.Some? ==> b[at].generationId == a[at].generationId)
  }

  /** The platform remembers what it answered under each key. */
  ghost predicate RepliesGrow(a: P.State, b: P.State) {
    forall k :: k in a.replies ==> k in b.replies && b.replies[k] == a.replies[k]
  }

  ghost predicate JobsGrow(a: map<JobId, Job>, b: map<JobId, Job>) {
    forall j :: j in a ==> j in b && b[j].planId == a[j].planId
  }

  ghost predicate Grows(s: State, t: State) {
    RowsGrow(s.rows, t.rows) && RepliesGrow(s.platform, t.platform) && JobsGrow(s.jobs, t.jobs)
  }

  // ---------------------------------------------------------------------------
  // The invariant
  // ---------------------------------------------------------------------------

  /** An id somebody keeps for this step is the platform's, under the row's key. */
  ghost predicate TrueId(rows: Rows, p: P.State, at: StepRef, id: Option<nat>) {
    id.Some? ==> at in rows && rows[at].key in p.replies && p.replies[rows[at].key].Id() == id
  }

  ghost predicate TrueRows(rows: Rows, p: P.State) {
    forall at :: at in rows ==> TrueId(rows, p, at, rows[at].generationId)
  }

  ghost predicate TrueDoc(rows: Rows, p: P.State, job: Job) {
    forall i :: 0 <= i < |job.steps| ==> TrueId(rows, p, (job.planId, job.steps[i].stepId), job.steps[i].generationId)
  }

  ghost predicate TrueDocs(rows: Rows, p: P.State, jobs: map<JobId, Job>) {
    forall j :: j in jobs ==> TrueDoc(rows, p, jobs[j])
  }

  /** One row per key, and every row inside a job of its own plan. */
  ghost predicate LedgerInv(jobs: map<JobId, Job>, rows: Rows) {
    && (forall j :: j in jobs ==> jobs[j].jobId == j)
    && (forall at :: at in rows ==>
          && rows[at].body.key == rows[at].key
          && rows[at].jobId in jobs && jobs[rows[at].jobId].planId == at.0)
    && (forall a, b :: a in rows && b in rows && rows[a].key == rows[b].key ==> a == b)
  }

  /** The platform's replies carry ids it never gives out twice. */
  ghost predicate PlatformInv(p: P.State) {
    && (forall k :: k in p.replies ==> p.replies[k].Id().Some? && p.replies[k].Id().value < p.nextId)
    && (forall k, l :: k in p.replies && l in p.replies && p.replies[k].Id() == p.replies[l].Id() ==> k == l)
  }

  /** The row behind a message, an answer or a charge. */
  ghost predicate Claimed(rows: Rows, at: StepRef, key: Key) {
    at in rows && rows[at].key == key
  }

  ghost predicate WireInv(s: State) {
    && (forall m :: m in s.network ==> Claimed(s.rows, m.at, m.body.key))
    && (forall a :: a in s.answers && a.reply.Ok? ==>
          a.body.key in s.platform.replies && s.platform.replies[a.body.key] == a.reply.value)
    && (forall k :: 0 <= k < |s.charges| ==>
          Claimed(s.rows, s.charges[k].at, s.charges[k].key) && s.charges[k].key in s.platform.replies)
    && (forall k, l :: 0 <= k < l < |s.charges| ==> s.charges[k].at != s.charges[l].at)
  }

  /** What a worker may rely on, given where it is. */
  ghost predicate PcInv(rows: Rows, p: P.State, w: Worker) {
    match w.pc
    case Loading => true
    case Loaded => true
    case Between => true
    case Reading(i, ps) => OnStep(w, i, ps)
    case Inserting(i, ps) => OnStep(w, i, ps)
    case Rereading(i, ps) => OnStep(w, i, ps) && Claimed(rows, w.At(ps), ps.key)
    case Deciding(i, ps, id) => OnStep(w, i, ps) && Claimed(rows, w.At(ps), ps.key) && TrueId(rows, p, w.At(ps), id)
    case Sending(i, ps) => OnStep(w, i, ps) && Claimed(rows, w.At(ps), ps.key)
    case Expecting(i, ps) => OnStep(w, i, ps) && Claimed(rows, w.At(ps), ps.key)
    case Recording(i, ps, reply) =>
      && OnStep(w, i, ps) && Claimed(rows, w.At(ps), ps.key)
      && ps.key in p.replies && p.replies[ps.key] == reply
    case Waiting(i, ps) => OnStep(w, i, ps) && Claimed(rows, w.At(ps), ps.key)
  }

  ghost predicate OnStep(w: Worker, i: nat, ps: PlanStep) {
    i < |w.job.steps| && w.job.steps[i].stepId == ps.stepId
  }

  ghost predicate WorkerInv(jobs: map<JobId, Job>, rows: Rows, p: P.State, w: Worker) {
    && w.job.jobId in jobs && jobs[w.job.jobId].planId == w.job.planId
    && TrueDoc(rows, p, w.job) && PcInv(rows, p, w)
  }

  ghost predicate WorkersInv(s: State) {
    forall w :: w in s.workers ==> WorkerInv(s.jobs, s.rows, s.platform, s.workers[w])
  }

  /** The job lock: a job somebody works on is not queued and not awaiting recovery, and
      nobody else works on it. */
  ghost predicate LockInv(s: State) {
    && (forall w :: w in s.workers ==>
          && s.workers[w].job.jobId in s.jobs
          && !s.jobs[s.workers[w].job.jobId].status.Queued?
          && !s.workers[w].job.status.Queued?
          && s.workers[w].job.jobId !in s.unrecovered)
    && (forall v, w :: v in s.workers && w in s.workers && s.workers[v].job.jobId == s.workers[w].job.jobId ==> v == w)
    && (forall j :: j in s.unrecovered ==> j in s.jobs)
  }

  ghost predicate Inv(s: State) {
    && LedgerInv(s.jobs, s.rows) && PlatformInv(s.platform)
    && TrueRows(s.rows, s.platform) && TrueDocs(s.rows, s.platform, s.jobs)
    && WireInv(s) && WorkersInv(s) && LockInv(s)
  }

  // ---------------------------------------------------------------------------
  // Carrying facts along
  // ---------------------------------------------------------------------------

  lemma IdStaysTrue(rows: Rows, p: P.State, rows': Rows, p': P.State, at: StepRef, id: Option<nat>)
    requires TrueId(rows, p, at, id) && RowsGrow(rows, rows') && RepliesGrow(p, p')
    ensures TrueId(rows', p', at, id)
  {
  }

  lemma DocStaysTrue(rows: Rows, p: P.State, rows': Rows, p': P.State, job: Job)
    requires TrueDoc(rows, p, job) && RowsGrow(rows, rows') && RepliesGrow(p, p')
    ensures TrueDoc(rows', p', job)
  {
    forall i | 0 <= i < |job.steps| ensures TrueId(rows', p', (job.planId, job.steps[i].stepId),
        job.steps[i].generationId) {
      IdStaysTrue(rows, p, rows', p', (job.planId, job.steps[i].stepId), job.steps[i].generationId);
    }
  }

  lemma DocsStayTrue(rows: Rows, p: P.State, rows': Rows, p': P.State, jobs: map<JobId, Job>)
    requires TrueDocs(rows, p, jobs) && RowsGrow(rows, rows') && RepliesGrow(p, p')
    ensures TrueDocs(rows', p', jobs)
  {
    forall j | j in jobs ensures TrueDoc(rows', p', jobs[j]) {
      DocStaysTrue(rows, p, rows', p', jobs[j]);
    }
  }

  lemma WorkerStays(s: State, t: State, w: Worker)
    requires WorkerInv(s.jobs, s.rows, s.platform, w) && Grows(s, t)
    ensures WorkerInv(t.jobs, t.rows, t.platform, w)
  {
    DocStaysTrue(s.rows, s.platform, t.rows, t.platform, w.job);
  }

  /** Everybody but `me` goes on as before. */
  lemma OthersStay(s: State, t: State, me: WorkerId)
    requires WorkersInv(s) && Grows(s, t)
    requires forall w :: w in t.workers && w != me ==> w in s.workers && t.workers[w] == s.workers[w]
    requires me in t.workers ==> WorkerInv(t.jobs, t.rows, t.platform, t.workers[me])
    ensures WorkersInv(t)
  {
    forall w | w in t.workers ensures WorkerInv(t.jobs, t.rows, t.platform, t.workers[w]) {
      if w != me {
        WorkerStays(s, t, s.workers[w]);
      }
    }
  }

  /** Messages, answers and charges outlive whatever else happens. */
  lemma WireStays(s: State, t: State)
    requires WireInv(s) && Grows(s, t)
    requires t.network == s.network && t.answers == s.answers && t.charges == s.charges
    ensures WireInv(t)
  {
  }

  /** A ledger update with a true id keeps the ledger true. */
  lemma UpdateKeeps(jobs: map<JobId, Job>, rows: Rows, p: P.State, at: StepRef, status: StepStatus, id: Option<nat>,
                    cost: Option<Amount>)
    requires LedgerInv(jobs, rows) && TrueRows(rows, p) && TrueId(rows, p, at, id)
    ensures var rows' := UpdateStep(rows, at, status, id, cost);
            LedgerInv(jobs, rows') && TrueRows(rows', p) && RowsGrow(rows, rows')
  {
    var rows' := UpdateStep(rows, at, status, id, cost);
    if at in rows {
      assert TrueId(rows, p, at, rows[at].generationId);
      forall b | b in rows' ensures TrueId(rows', p, b, rows'[b].generationId) {
        assert TrueId(rows, p, b, rows[b].generationId);
      }
    }
  }

  /** A document saved under its own name keeps the tables linked. */
  lemma SaveKeeps(jobs: map<JobId, Job>, rows: Rows, p: P.State, job: Job)
    requires LedgerInv(jobs, rows) && TrueDocs(rows, p, jobs) && TrueDoc(rows, p, job)
    requires job.jobId in jobs ==> jobs[job.jobId].planId == job.planId
    ensures var jobs' := jobs[job.jobId := job];
            LedgerInv(jobs', rows) && TrueDocs(rows, p, jobs') && JobsGrow(jobs, jobs')
  {
  }

  ghost predicate Keeps(s: State, t: State) {
    Inv(t) && Grows(s, t)
  }

  ghost predicate NothingQueued(a: map<JobId, Job>, b: map<JobId, Job>) {
    forall j :: j in a ==> j in b && (b[j].status.Queued? ==> a[j].status.Queued?)
  }

  ghost predicate OnlyMoves(s: State, t: State, me: WorkerId) {
    && t.platform == s.platform && t.network == s.network && t.answers == s.answers && t.charges == s.charges
    && t.unrecovered == s.unrecovered
    && (forall w :: w in t.workers ==> w in s.workers && t.workers[w].job.jobId == s.workers[w].job.jobId)
    && (forall w :: w in t.workers && w != me ==> t.workers[w] == s.workers[w])
    && (me in t.workers ==> !t.workers[me].job.status.Queued?)
  }

  /** One worker takes one step: what remains to be checked is its own. */
  lemma WorkerMoves(s: State, t: State, me: WorkerId)
    requires Inv(s) && OnlyMoves(s, t, me) && RowsGrow(s.rows, t.rows) && JobsGrow(s.jobs, t.jobs)
             && NothingQueued(s.jobs, t.jobs)
    requires LedgerInv(t.jobs, t.rows) && TrueRows(t.rows, t.platform) && TrueDocs(t.rows, t.platform, t.jobs)
    requires me in t.workers ==> WorkerInv(t.jobs, t.rows, t.platform, t.workers[me])
    ensures Keeps(s, t)
  {
    OthersStay(s, t, me);
    WireStays(s, t);
    MovesKeepLock(s, t, me);
  }

  lemma MovesKeepLock(s: State, t: State, me: WorkerId)
    requires LockInv(s) && OnlyMoves(s, t, me) && NothingQueued(s.jobs, t.jobs)
    ensures LockInv(t)
  {
  }

  // ---------------------------------------------------------------------------
  // Worker by worker, statement by statement
  // ---------------------------------------------------------------------------

  lemma SavedKeeps(s: State, me: WorkerId, job: Job)
    requires Inv(s) && me in s.workers && job.jobId == s.workers[me].job.jobId && job.planId == s.workers[me].job.planId
    requires TrueDoc(s.rows, s.platform, job) && !job.status.Queued?
    ensures var jobs := s.jobs[job.jobId := job];
            && LedgerInv(jobs, s.rows) && TrueDocs(s.rows, s.platform, jobs) && JobsGrow(s.jobs, jobs)
            && NothingQueued(s.jobs, jobs)
  {
    assert WorkerInv(s.jobs, s.rows, s.platform, s.workers[me]);
    SaveKeeps(s.jobs, s.rows, s.platform, job);
  }

  lemma AbortedStaysTrue(rows: Rows, p: P.State, job: Job, blockers: seq<Blocker>)
    requires TrueDoc(rows, p, job)
    ensures TrueDoc(rows, p, JobRun.AbortedJob(job, blockers))
  {
    var after := JobRun.AbortedJob(job, blockers);
    forall i | 0 <= i < |after.steps| ensures TrueId(rows, p, (after.planId, after.steps[i].stepId),
        after.steps[i].generationId) {
      assert TrueId(rows, p, (job.planId, job.steps[i].stepId), job.steps[i].generationId);
    }
  }

  lemma LoadKeeps(s: State, a: Action)
    requires Inv(s) && a.Load?
    ensures Keeps(s, ApplyJob(s, a))
  {
    var t := ApplyJob(s, a);
    if t != s {
      var job := s.jobs[s.workers[a.w].job.jobId];
      assert WorkerInv(s.jobs, s.rows, s.platform, s.workers[a.w]);
      assert TrueDoc(s.rows, s.platform, job);
      assert TrueDoc(s.rows, s.platform, job.(status := JobStatus.Running));
      WorkerMoves(s, t, a.w);
    }
  }

  /** A worker writes its document and leaves. */
  lemma LeavingKeeps(s: State, me: WorkerId, job: Job)
    requires Inv(s) && me in s.workers && job.jobId == s.workers[me].job.jobId && job.planId == s.workers[me].job.planId
    requires TrueDoc(s.rows, s.platform, job) && !job.status.Queued?
    ensures Keeps(s, Gone(s.(jobs := s.jobs[job.jobId := job]), me))
  {
    SavedKeeps(s, me, job);
    WorkerMoves(s, Gone(s.(jobs := s.jobs[job.jobId := job]), me), me);
  }

  lemma StopKeeps(s: State, a: Action)
    requires Inv(s) && (a.Stop? || a.Finish?)
    ensures Keeps(s, ApplyJob(s, a))
  {
    if a.w in s.workers && (if a.Stop? then s.workers[a.w].pc.Loaded? else s.workers[a.w].pc.Between?) {
      var w := s.workers[a.w];
      assert WorkerInv(s.jobs, s.rows, s.platform, w);
      if a.Stop? {
        AbortedStaysTrue(s.rows, s.platform, w.job, a.blockers);
        LeavingKeeps(s, a.w, JobRun.AbortedJob(w.job, a.blockers));
      } else {
        LeavingKeeps(s, a.w, w.job.(status := Aggregate(w.job.steps, a.aborted), cost := TotalCost(w.job.steps)));
      }
    }
  }

  /** A worker writes its document and stays. */
  lemma StayingKeeps(s: State, me: WorkerId, job: Job)
    requires Inv(s) && me in s.workers && job.jobId == s.workers[me].job.jobId && job.planId == s.workers[me].job.planId
    requires TrueDoc(s.rows, s.platform, job) && !job.status.Queued?
    ensures Keeps(s, s.(jobs := s.jobs[job.jobId := job]))
  {
    var t := s.(jobs := s.jobs[job.jobId := job]);
    SavedKeeps(s, me, job);
    assert WorkerInv(s.jobs, s.rows, s.platform, s.workers[me]);
    assert WorkerInv(t.jobs, t.rows, t.platform, t.workers[me]);
    WorkerMoves(s, t, me);
  }

  /** A worker is gone, and its copy of the document with it. */
  lemma VanishKeeps(s: State, me: WorkerId)
    requires Inv(s) && me in s.workers
    ensures Keeps(s, Gone(s, me))
  {
    WorkerMoves(s, Gone(s, me), me);
  }

  lemma SaveActionKeeps(s: State, a: Action)
    requires Inv(s) && (a.Save? || a.Vanish?)
    ensures Keeps(s, ApplyJob(s, a))
  {
    if a.w in s.workers {
      var w := s.workers[a.w];
      if a.Vanish? {
        VanishKeeps(s, a.w);
      } else if !w.pc.Loading? && !w.pc.Loaded? {
        assert WorkerInv(s.jobs, s.rows, s.platform, w);
        StayingKeeps(s, a.w, w.job.(cost := TotalCost(w.job.steps)));
      }
    }
  }

  lemma StartKeeps(s: State, a: Action)
    requires Inv(s) && a.Start?
    ensures Keeps(s, ApplyJob(s, a))
  {
    if a.w in s.workers && s.workers[a.w].pc.Loaded? {
      var w := s.workers[a.w];
      assert WorkerInv(s.jobs, s.rows, s.platform, w);
      SavedKeeps(s, a.w, w.job);
      WorkerMoves(s, ApplyJob(s, a), a.w);
    }
  }

  lemma JobKeeps(s: State, a: Action)
    requires Inv(s) && (a.Load? || a.Stop? || a.Start? || a.Save? || a.Finish? || a.Vanish?)
    ensures Keeps(s, ApplyJob(s, a))
  {
    if a.Load? {
      LoadKeeps(s, a);
    } else if a.Stop? || a.Finish? {
      StopKeeps(s, a);
    } else if a.Start? {
      StartKeeps(s, a);
    } else {
      SaveActionKeeps(s, a);
    }
  }

  /** A step rewritten in a document with a true id. */
  lemma StepStaysTrue(rows: Rows, p: P.State, job: Job, i: nat, step: JobStep)
    requires TrueDoc(rows, p, job) && i < |job.steps| && step.stepId == job.steps[i].stepId
    requires TrueId(rows, p, (job.planId, step.stepId), step.generationId)
    ensures TrueDoc(rows, p, WithStep(job, i, step))
  {
  }

  lemma SameIdStaysTrue(rows: Rows, p: P.State, job: Job, i: nat, step: JobStep)
    requires TrueDoc(rows, p, job) && i < |job.steps| && step.stepId == job.steps[i].stepId
    requires step.generationId == job.steps[i].generationId
    ensures TrueDoc(rows, p, WithStep(job, i, step))
  {
    assert TrueId(rows, p, (job.planId, job.steps[i].stepId), job.steps[i].generationId);
    StepStaysTrue(rows, p, job, i, step);
  }

  /** A worker writes to the ledger and moves on with its own copy of the document. */
  function Moved(s: State, me: WorkerId, rows: Rows, w: Worker): State {
    WithWorker(s.(rows := rows), me, w)
  }

  ghost predicate SameJob(a: Job, b: Job) {
    a.jobId == b.jobId && a.planId == b.planId && a.status == b.status
  }

  lemma MovedKeeps(s: State, me: WorkerId, rows: Rows, w: Worker)
    requires Inv(s) && me in s.workers && SameJob(s.workers[me].job, w.job)
    requires LedgerInv(s.jobs, rows) && TrueRows(rows, s.platform) && RowsGrow(s.rows, rows)
    requires TrueDoc(rows, s.platform, w.job) && PcInv(rows, s.platform, w)
    ensures Keeps(s, Moved(s, me, rows, w))
  {
    assert WorkerInv(s.jobs, s.rows, s.platform, s.workers[me]);
    DocsStayTrue(s.rows, s.platform, rows, s.platform, s.jobs);
    WorkerMoves(s, Moved(s, me, rows, w), me);
  }

  /** The same, by an update of the worker's own row with a true id. */
  lemma UpdateMoves(s: State, me: WorkerId, at: StepRef, status: StepStatus, id: Option<nat>, cost: Option<Amount>,
                    w: Worker)
    requires Inv(s) && me in s.workers && SameJob(s.workers[me].job, w.job)
    requires TrueId(s.rows, s.platform, at, id)
    requires TrueDoc(s.rows, s.platform, w.job) && PcInv(s.rows, s.platform, w)
    ensures Keeps(s, Moved(s, me, UpdateStep(s.rows, at, status, id, cost), w))
  {
    UpdateKeeps(s.jobs, s.rows, s.platform, at, status, id, cost);
    var rows := UpdateStep(s.rows, at, status, id, cost);
    DocStaysTrue(s.rows, s.platform, rows, s.platform, w.job);
    MovedKeeps(s, me, rows, w);
  }

  /** The same, leaving the ledger alone. */
  lemma StaysMoves(s: State, me: WorkerId, w: Worker)
    requires Inv(s) && me in s.workers && SameJob(s.workers[me].job, w.job)
    requires TrueDoc(s.rows, s.platform, w.job) && PcInv(s.rows, s.platform, w)
    ensures Keeps(s, WithWorker(s, me, w))
  {
    MovedKeeps(s, me, s.rows, w);
    assert Moved(s, me, s.rows, w) == WithWorker(s, me, w);
  }

  lemma BeginKeeps(s: State, a: Action)
    requires Inv(s) && a.Begin?
    ensures Keeps(s, ApplyBegin(s, a))
  {
    var t := ApplyBegin(s, a);
    if t != s {
      var w := s.workers[a.w];
      assert WorkerInv(s.jobs, s.rows, s.platform, w);
      var w' := t.workers[a.w];
      SameIdsStayTrue(s.rows, s.platform, w.job, w'.job);
      if a.ps.kind.Local? {
        UpdateMoves(s, a.w, w.At(a.ps), StepStatus.Succeeded, None, Some(0), w');
      } else {
        StaysMoves(s, a.w, w');
      }
    }
  }

  /** A claim the ledger refuses ends the worker; its document is saved first. */
  lemma RefusedKeeps(s: State, me: WorkerId)
    requires Inv(s) && me in s.workers
    ensures Keeps(s, Gone(Saved(s, s.workers[me].job), me))
  {
    var w := s.workers[me];
    assert WorkerInv(s.jobs, s.rows, s.platform, w);
    SavedKeeps(s, me, w.job.(cost := TotalCost(w.job.steps)));
    WorkerMoves(s, Gone(Saved(s, w.job), me), me);
  }

  lemma ReadKeeps(s: State, a: Action)
    requires Inv(s) && a.Read?
    ensures Keeps(s, ApplyClaimStep(s, a))
  {
    if a.w in s.workers && s.workers[a.w].pc.Reading? {
      var w := s.workers[a.w];
      assert WorkerInv(s.jobs, s.rows, s.platform, w);
      var at := w.At(w.pc.ps);
      if at !in s.rows {
        StaysMoves(s, a.w, w.(pc := Inserting(w.pc.i, w.pc.ps)));
      } else if s.rows[at].key != w.pc.ps.key || s.rows[at].body != w.pc.ps.GenerateBody() {
        RefusedKeeps(s, a.w);
      } else {
        assert TrueId(s.rows, s.platform, at, s.rows[at].generationId);
        StaysMoves(s, a.w, w.(pc := Deciding(w.pc.i, w.pc.ps, s.rows[at].generationId)));
      }
    }
  }

  lemma InsertedRowKeeps(s: State, at: StepRef, row: StepRow)
    requires Inv(s) && at !in s.rows && !KeyInUse(s.rows, row.key) && row.body.key == row.key && row.generationId.None?
    requires row.jobId in s.jobs && s.jobs[row.jobId].planId == at.0
    ensures var rows := s.rows[at := row];
            LedgerInv(s.jobs, rows) && TrueRows(rows, s.platform) && RowsGrow(s.rows, rows)
  {
    var rows := s.rows[at := row];
    forall b | b in rows ensures TrueId(rows, s.platform, b, rows[b].generationId) {
      if b != at {
        assert TrueId(s.rows, s.platform, b, s.rows[b].generationId);
      }
    }
  }

  lemma InsertKeeps(s: State, a: Action)
    requires Inv(s) && a.Insert?
    ensures Keeps(s, ApplyClaimStep(s, a))
  {
    if a.w in s.workers && s.workers[a.w].pc.Inserting? {
      var w := s.workers[a.w];
      assert WorkerInv(s.jobs, s.rows, s.platform, w);
      var at := w.At(w.pc.ps);
      if at in s.rows || KeyInUse(s.rows, w.pc.ps.key) {
        RefusedKeeps(s, a.w);
      } else {
        var row := StepRow(w.pc.ps.key, w.job.jobId, w.pc.ps.GenerateBody(), None, StepStatus.Pending, 0);
        InsertedRowKeeps(s, at, row);
        DocStaysTrue(s.rows, s.platform, s.rows[at := row], s.platform, w.job);
        MovedKeeps(s, a.w, s.rows[at := row], w.(pc := Rereading(w.pc.i, w.pc.ps)));
      }
    }
  }

  lemma RereadKeeps(s: State, a: Action)
    requires Inv(s) && a.Reread?
    ensures Keeps(s, ApplyClaimStep(s, a))
  {
    if a.w in s.workers && s.workers[a.w].pc.Rereading? {
      var w := s.workers[a.w];
      assert WorkerInv(s.jobs, s.rows, s.platform, w);
      var at := w.At(w.pc.ps);
      assert TrueId(s.rows, s.platform, at, s.rows[at].generationId);
      StaysMoves(s, a.w, w.(pc := Deciding(w.pc.i, w.pc.ps, s.rows[at].generationId)));
    }
  }

  /** The document of the same job with the same steps and generation ids. */
  ghost predicate SameIds(a: Job, b: Job) {
    && SameJob(a, b) && |a.steps| == |b.steps|
    && forall k :: 0 <= k < |a.steps| ==>
         b.steps[k].stepId == a.steps[k].stepId && b.steps[k].generationId == a.steps[k].generationId
  }

  /** What the handlers around a step leave alone, and what they write to the ledger. */
  lemma ConcludedIds(planId: PlanId, ps: PlanStep, st: E.RunState, i: nat, end: E.StepEnd)
    requires i < |st.job.steps|
    ensures var r := E.Conclude(planId, ps, st, i, end);
            && SameIds(st.job, r.job)
            && r.rows == (if end.Fault? then UpdateStep(st.rows, (planId, ps.stepId), StepStatus.Failed, None, None)
                          else st.rows)
  {
  }

  lemma MarkFailedIds(ps: PlanStep, st: E.RunState, i: nat, reason: Reason)
    requires i < |st.job.steps|
    ensures SameIds(st.job, E.MarkFailed(ps, st, i, reason).job) && E.MarkFailed(ps, st, i, reason).rows == st.rows
  {
  }

  /** A verdict changes no id, and the ledger gets the document's. */
  lemma SettledIds(planId: PlanId, ps: PlanStep, st: E.RunState, i: nat, v: Payload)
    requires i < |st.job.steps|
    ensures var r := E.Settle(planId, ps, st, i, v);
            var step := Settled(st.job.steps[i], v);
            && SameIds(st.job, r.job)
            && r.rows == UpdateStep(st.rows, (planId, ps.stepId), step.status, st.job.steps[i].generationId,
                Some(step.cost))
  {
  }

  lemma RecordedIds(planId: PlanId, ps: PlanStep, st: E.RunState, i: nat, reply: LaunchReply)
    requires i < |st.job.steps|
    ensures var r := E.Recorded(planId, ps, st, i, reply);
            && SameJob(st.job, r.job) && r.job.steps == st.job.steps[i := E.LaunchedStep(st.job.steps[i], ps, reply)]
            && r.rows == UpdateStep(st.rows, (planId, ps.stepId), StepStatus.Running, reply.Id(),
                Some(E.ChargedBy(ps, reply)))
  {
  }

  lemma DecideKeeps(s: State, a: Action)
    requires Inv(s) && a.Decide?
    ensures Keeps(s, ApplyClaimStep(s, a))
  {
    if a.w in s.workers && s.workers[a.w].pc.Deciding? {
      var w := s.workers[a.w];
      assert WorkerInv(s.jobs, s.rows, s.platform, w);
      if w.pc.id.Some? {
        StepStaysTrue(s.rows, s.platform, w.job, w.pc.i, w.job.steps[w.pc.i].(generationId := w.pc.id));
        StaysMoves(s, a.w, ApplyClaimStep(s, a).workers[a.w]);
      } else if a.affordable {
        StaysMoves(s, a.w, w.(pc := Sending(w.pc.i, w.pc.ps)));
      } else {
        ConcludedIds(w.job.planId, w.pc.ps, InRun(s, w), w.pc.i, E.BudgetStop);
        GoesOn(s, a.w, E.Conclude(w.job.planId, w.pc.ps, InRun(s, w), w.pc.i, E.BudgetStop));
      }
    }
  }

  lemma PassedOverIds(st: E.RunState, ps: PlanStep)
    ensures SameIds(st.job, E.PassOver(st, ps).job) && E.PassOver(st, ps).rows == st.rows
  {
  }

  lemma SkipKeeps(s: State, a: Action)
    requires Inv(s) && a.Skip?
    ensures Keeps(s, ApplySkip(s, a))
  {
    if a.w in s.workers && s.workers[a.w].pc.Between? {
      var st := InRun(s, s.workers[a.w]).(aborted := true);
      PassedOverIds(st, a.ps);
      GoesOn(s, a.w, E.PassOver(st, a.ps));
    }
  }

  /** The executor's handling left the ledger alone and kept the document's ids. */
  lemma GoesOn(s: State, me: WorkerId, st: E.RunState)
    requires Inv(s) && me in s.workers && SameIds(s.workers[me].job, st.job) && st.rows == s.rows
    ensures Keeps(s, GoOn(s, me, st, Between))
  {
    assert WorkerInv(s.jobs, s.rows, s.platform, s.workers[me]);
    SameIdsStayTrue(s.rows, s.platform, s.workers[me].job, st.job);
    StaysMoves(s, me, Worker(st.job, Between));
    assert s.(rows := s.rows) == s;
  }

  /** It updated the step's own row with a true id. */
  lemma GoesOnWith(s: State, me: WorkerId, at: StepRef, status: StepStatus, id: Option<nat>, cost: Option<Amount>,
                   st: E.RunState)
    requires Inv(s) && me in s.workers && SameIds(s.workers[me].job, st.job)
    requires st.rows == UpdateStep(s.rows, at, status, id, cost) && TrueId(s.rows, s.platform, at, id)
    ensures Keeps(s, GoOn(s, me, st, Between))
  {
    assert WorkerInv(s.jobs, s.rows, s.platform, s.workers[me]);
    SameIdsStayTrue(s.rows, s.platform, s.workers[me].job, st.job);
    UpdateMoves(s, me, at, status, id, cost, Worker(st.job, Between));
  }

  /** Only a claimed step is ever sent. */
  lemma SendKeeps(s: State, a: Action)
    requires Inv(s) && a.Send?
    ensures Keeps(s, ApplyLaunch(s, a))
  {
    if a.w in s.workers && s.workers[a.w].pc.Sending? {
      var w := s.workers[a.w];
      assert WorkerInv(s.jobs, s.rows, s.platform, w);
      var moved := WithWorker(s, a.w, w.(pc := Expecting(w.pc.i, w.pc.ps)));
      StaysMoves(s, a.w, w.(pc := Expecting(w.pc.i, w.pc.ps)));
      assert WireInv(moved);
      assert ApplyLaunch(s, a) == moved.(network := moved.network + {Message(w.At(w.pc.ps), w.pc.ps.GenerateBody())});
    }
  }

  lemma ReceiveKeeps(s: State, a: Action)
    requires Inv(s) && (a.Receive? || a.Resend?)
    ensures Keeps(s, ApplyLaunch(s, a))
  {
    if a.w in s.workers && s.workers[a.w].pc.Expecting? {
      var w := s.workers[a.w];
      assert WorkerInv(s.jobs, s.rows, s.platform, w);
      if a.Resend? {
        StaysMoves(s, a.w, w.(pc := Sending(w.pc.i, w.pc.ps)));
      } else if Answer(w.pc.ps.GenerateBody(), Ok(a.reply)) in s.answers {
        StaysMoves(s, a.w, w.(pc := Recording(w.pc.i, w.pc.ps, a.reply)));
      }
    }
  }

  lemma GiveUpKeeps(s: State, a: Action)
    requires Inv(s) && a.GiveUp?
    ensures Keeps(s, ApplyLaunch(s, a))
  {
    if a.w in s.workers && (s.workers[a.w].pc.Expecting? || s.workers[a.w].pc.Sending?) {
      var w := s.workers[a.w];
      assert WorkerInv(s.jobs, s.rows, s.platform, w);
      ConcludedIds(w.job.planId, w.pc.ps, InRun(s, w), w.pc.i, E.Fault(a.error));
      GoesOnWith(s, a.w, w.At(w.pc.ps), StepStatus.Failed, None, None,
                 E.Conclude(w.job.planId, w.pc.ps, InRun(s, w), w.pc.i, E.Fault(a.error)));
    }
  }

  /** A worker about to record a reply, and what recording makes of its document. */
  lemma RecordedStaysTrue(s: State, me: WorkerId)
    requires Inv(s) && me in s.workers && s.workers[me].pc.Recording?
    ensures var w := s.workers[me];
            && w.pc.i < |w.job.steps|
            && var st := E.Recorded(w.job.planId, w.pc.ps, InRun(s, w), w.pc.i, w.pc.reply);
            && SameJob(w.job, st.job) && |st.job.steps| == |w.job.steps|
            && st.job.steps[w.pc.i].stepId == w.pc.ps.stepId
            && TrueDoc(s.rows, s.platform, st.job)
            && TrueId(s.rows, s.platform, w.At(w.pc.ps), w.pc.reply.Id())
  {
    var w := s.workers[me];
    assert WorkerInv(s.jobs, s.rows, s.platform, w);
    var launched := E.LaunchedStep(w.job.steps[w.pc.i], w.pc.ps, w.pc.reply);
    assert TrueId(s.rows, s.platform, w.At(w.pc.ps), w.pc.reply.Id());
    StepStaysTrue(s.rows, s.platform, w.job, w.pc.i, launched);
    var st := E.Recorded(w.job.planId, w.pc.ps, InRun(s, w), w.pc.i, w.pc.reply);
    RecordedIds(w.job.planId, w.pc.ps, InRun(s, w), w.pc.i, w.pc.reply);
    SameIdsStayTrue(s.rows, s.platform, WithStep(w.job, w.pc.i, launched), st.job);
  }

  /** The id that is recorded is the platform's; `after` is the document then made of it. */
  lemma RecordMoves(s: State, me: WorkerId, after: E.RunState, pc: Pc)
    requires Inv(s) && me in s.workers && s.workers[me].pc.Recording? && s.workers[me].pc.i < |s.workers[me].job.steps|
    requires var w := s.workers[me];
             var st := E.Recorded(w.job.planId, w.pc.ps, InRun(s, w), w.pc.i, w.pc.reply);
             SameIds(st.job, after.job) && after.rows == st.rows
    requires pc == Between || pc == Waiting(s.workers[me].pc.i, s.workers[me].pc.ps)
    ensures Keeps(s, GoOn(s, me, after, pc))
  {
    var w := s.workers[me];
    assert WorkerInv(s.jobs, s.rows, s.platform, w);
    RecordedStaysTrue(s, me);
    RecordedIds(w.job.planId, w.pc.ps, InRun(s, w), w.pc.i, w.pc.reply);
    var st := E.Recorded(w.job.planId, w.pc.ps, InRun(s, w), w.pc.i, w.pc.reply);
    SameIdsStayTrue(s.rows, s.platform, st.job, after.job);
    UpdateMoves(s, me, w.At(w.pc.ps), StepStatus.Running, w.pc.reply.Id(), Some(E.ChargedBy(w.pc.ps, w.pc.reply)),
        Worker(after.job, pc));
  }

  lemma RecordKeeps(s: State, a: Action)
    requires Inv(s) && a.Record?
    ensures Keeps(s, ApplySettle(s, a))
  {
    if a.w in s.workers && s.workers[a.w].pc.Recording? {
      var w := s.workers[a.w];
      RecordedStaysTrue(s, a.w);
      var st := E.Recorded(w.job.planId, w.pc.ps, InRun(s, w), w.pc.i, w.pc.reply);
      match a.next {
        case Wait =>
          RecordMoves(s, a.w, st, Waiting(w.pc.i, w.pc.ps));
        case StopPlan =>
          ConcludedIds(w.job.planId, w.pc.ps, st, w.pc.i, E.BudgetStop);
          RecordMoves(s, a.w, E.Conclude(w.job.planId, w.pc.ps, st, w.pc.i, E.BudgetStop), Between);
        case NoId =>
          var failed := E.MarkFailed(w.pc.ps, st, w.pc.i, NoGenerationId);
          MarkFailedIds(w.pc.ps, st, w.pc.i, NoGenerationId);
          ConcludedIds(w.job.planId, w.pc.ps, failed, w.pc.i, E.Done);
          RecordMoves(s, a.w, E.Conclude(w.job.planId, w.pc.ps, failed, w.pc.i, E.Done), Between);
      }
    }
  }

  lemma SettleKeeps(s: State, a: Action)
    requires Inv(s) && a.Settle?
    ensures Keeps(s, ApplySettle(s, a))
  {
    if a.w in s.workers && s.workers[a.w].pc.Waiting? {
      var w := s.workers[a.w];
      assert WorkerInv(s.jobs, s.rows, s.platform, w);
      var planId, i, ps := w.job.planId, w.pc.i, w.pc.ps;
      var step := Settled(w.job.steps[i], a.v);
      assert TrueId(s.rows, s.platform, w.At(ps), w.job.steps[i].generationId);
      var st := E.Settle(planId, ps, InRun(s, w), i, a.v);
      SettledIds(planId, ps, InRun(s, w), i, a.v);
      ConcludedIds(planId, ps, st, i, E.Done);
      assert E.Waited(planId, ps, InRun(s, w), i, E.Answered(a.v)) == E.Conclude(planId, ps, st, i, E.Done);
      GoesOnWith(s, a.w, w.At(ps), step.status, w.job.steps[i].generationId, Some(step.cost),
          E.Conclude(planId, ps, st, i, E.Done));
    }
  }

  lemma ExpireKeeps(s: State, a: Action)
    requires Inv(s) && a.Expire?
    ensures Keeps(s, ApplySettle(s, a))
  {
    if a.w in s.workers && s.workers[a.w].pc.Waiting? {
      var w := s.workers[a.w];
      assert WorkerInv(s.jobs, s.rows, s.platform, w);
      var planId, i, ps := w.job.planId, w.pc.i, w.pc.ps;
      var failed := E.MarkFailed(ps, InRun(s, w), i, PollTimeout);
      MarkFailedIds(ps, InRun(s, w), i, PollTimeout);
      ConcludedIds(planId, ps, failed, i, E.Done);
      assert E.Waited(planId, ps, InRun(s, w), i, E.TimedOut) == E.Conclude(planId, ps, failed, i, E.Done);
      GoesOn(s, a.w, E.Conclude(planId, ps, failed, i, E.Done));
    }
  }

  lemma FaultKeeps(s: State, a: Action)
    requires Inv(s) && a.Fault?
    ensures Keeps(s, ApplySettle(s, a))
  {
    if a.w in s.workers && s.workers[a.w].pc.Waiting? {
      var w := s.workers[a.w];
      assert WorkerInv(s.jobs, s.rows, s.platform, w);
      var planId, i, ps := w.job.planId, w.pc.i, w.pc.ps;
      ConcludedIds(planId, ps, InRun(s, w), i, E.Fault(a.error));
      assert E.Waited(planId, ps, InRun(s, w), i, E.Faulted(a.error)) == E.Conclude(planId, ps, InRun(s, w), i,
          E.Fault(a.error));
      GoesOnWith(s, a.w, w.At(ps), StepStatus.Failed, None, None,
          E.Conclude(planId, ps, InRun(s, w), i, E.Fault(a.error)));
    }
  }

  /** The conditional update is the lock: whoever flips the job is alone with it. */
  lemma ClaimKeeps(s: State, me: WorkerId, jobId: JobId)
    requires Inv(s)
    ensures Keeps(s, ApplyClaim(s, me, jobId))
  {
    var t := ApplyClaim(s, me, jobId);
    if t != s {
      var job := s.jobs[jobId].(status := JobStatus.Running);
      assert TrueDoc(s.rows, s.platform, s.jobs[jobId]);
      assert TrueDoc(s.rows, s.platform, job);
      SaveKeeps(s.jobs, s.rows, s.platform, job);
      OthersStay(s, t, me);
      WireStays(s, t);
      ClaimLocks(s, me, jobId);
    }
  }

  lemma ClaimLocks(s: State, me: WorkerId, jobId: JobId)
    requires LockInv(s) && me !in s.workers && jobId in s.jobs && jobId !in s.unrecovered
    requires s.jobs[jobId].jobId == jobId && s.jobs[jobId].status.Queued?
    ensures LockInv(ApplyClaim(s, me, jobId))
  {
    forall w | w in s.workers ensures s.workers[w].job.jobId != jobId {
    }
  }

  // ---------------------------------------------------------------------------
  // Everything else
  // ---------------------------------------------------------------------------

  /** Somebody other than a worker writes documents and ledger rows. */
  lemma TablesKeep(s: State, t: State)
    requires Inv(s) && t == s.(jobs := t.jobs, rows := t.rows)
    requires RowsGrow(s.rows, t.rows) && JobsGrow(s.jobs, t.jobs) && NothingQueued(s.jobs, t.jobs)
    requires LedgerInv(t.jobs, t.rows) && TrueRows(t.rows, s.platform) && TrueDocs(t.rows, s.platform, t.jobs)
    ensures Keeps(s, t)
  {
    forall w | w in t.workers ensures WorkerInv(t.jobs, t.rows, t.platform, t.workers[w]) {
      WorkerStays(s, t, s.workers[w]);
    }
    WireStays(s, t);
  }

  /** A document and the ledger row behind it are rewritten together. */
  lemma RewriteKeeps(s: State, job: Job, at: StepRef, status: StepStatus, id: Option<nat>, cost: Option<Amount>)
    requires Inv(s) && job.jobId in s.jobs && s.jobs[job.jobId].planId == job.planId
    requires job.status.Queued? ==> s.jobs[job.jobId].status.Queued?
    requires TrueDoc(s.rows, s.platform, job) && TrueId(s.rows, s.platform, at, id)
    ensures Keeps(s, s.(jobs := s.jobs[job.jobId := job], rows := UpdateStep(s.rows, at, status, id, cost)))
  {
    var t := s.(jobs := s.jobs[job.jobId := job], rows := UpdateStep(s.rows, at, status, id, cost));
    SaveKeeps(s.jobs, s.rows, s.platform, job);
    UpdateKeeps(t.jobs, s.rows, s.platform, at, status, id, cost);
    DocsStayTrue(s.rows, s.platform, t.rows, s.platform, t.jobs);
    TablesKeep(s, t);
  }

  lemma SameIdsStayTrue(rows: Rows, p: P.State, a: Job, b: Job)
    requires TrueDoc(rows, p, a) && a.planId == b.planId && |a.steps| == |b.steps|
    requires forall k :: 0 <= k < |a.steps| ==>
               b.steps[k].stepId == a.steps[k].stepId && b.steps[k].generationId == a.steps[k].generationId
    ensures TrueDoc(rows, p, b)
  {
    forall k | 0 <= k < |b.steps| ensures TrueId(rows, p, (b.planId, b.steps[k].stepId), b.steps[k].generationId) {
      assert TrueId(rows, p, (a.planId, a.steps[k].stepId), a.steps[k].generationId);
    }
  }

  lemma WebhookShape(job: Job, id: StepId, v: Payload)
    ensures var after := ApplyWebhook(job, id, v);
            && after.jobId == job.jobId && after.planId == job.planId && |after.steps| == |job.steps|
            && (after.status.Queued? ==> job.status.Queued?)
            && forall k :: 0 <= k < |job.steps| ==>
                 after.steps[k].stepId == job.steps[k].stepId
                 && after.steps[k].generationId == job.steps[k].generationId
  {
  }

  lemma WebhookKeeps(c: P.Config, s: State, a: Action)
    requires Inv(s) && a.Webhook?
    ensures Keeps(s, ApplyOutside(c, s, a))
  {
    var at := a.at;
    if at in s.rows && s.rows[at].generationId.Some? {
      var row := s.rows[at];
      var job := s.jobs[row.jobId];
      var after := ApplyWebhook(job, at.1, a.v);
      assert TrueDoc(s.rows, s.platform, job);
      WebhookShape(job, at.1, a.v);
      SameIdsStayTrue(s.rows, s.platform, job, after);
      assert TrueId(s.rows, s.platform, at, row.generationId);
      RewriteKeeps(s, after, at, WebhookStatus(a.v), row.generationId, Some(WebhookCost(a.v)));
    }
  }

  lemma ReconcileKeeps(c: P.Config, s: State, a: Action)
    requires Inv(s) && a.Reconcile?
    ensures Keeps(s, ApplyOutside(c, s, a))
  {
    if ApplyOutside(c, s, a) != s {
      var st := Reconciler.Store(s.jobs, s.rows, map[]);
      var i := Reconciler.StepAt(st, a.at).value;
      var job := s.jobs[s.rows[a.at].jobId];
      var after := Reconciled(job, i, a.v);
      assert TrueDoc(s.rows, s.platform, job);
      assert TrueId(s.rows, s.platform, (job.planId, job.steps[i].stepId), job.steps[i].generationId);
      Reconciler.ReconciledKeeps(job, i, a.v, a.at.1);
      SameIdsStayTrue(s.rows, s.platform, job, after);
      RewriteKeeps(s, after, (after.planId, after.steps[i].stepId), after.steps[i].status, after.steps[i].generationId,
          Some(after.steps[i].cost));
    }
  }

  lemma AdmitKeeps(c: P.Config, s: State, a: Action)
    requires Inv(s) && a.Admit?
    ensures Keeps(s, ApplyOutside(c, s, a))
  {
    var t := ApplyOutside(c, s, a);
    if t != s {
      TablesKeep(s, t);
    }
  }

  /** Workers die together; what was under way upstream goes on. */
  lemma CrashKeeps(c: P.Config, s: State, a: Action)
    requires Inv(s) && a.Crash?
    ensures Keeps(s, ApplyOutside(c, s, a))
  {
    WireStays(s, ApplyOutside(c, s, a));
  }

  lemma RequeueKeeps(c: P.Config, s: State, a: Action)
    requires Inv(s) && a.Requeue?
    ensures Keeps(s, ApplyOutside(c, s, a))
  {
    var t := ApplyOutside(c, s, a);
    if t != s {
      assert TrueDoc(s.rows, s.platform, s.jobs[a.jobId]);
      SaveKeeps(s.jobs, s.rows, s.platform, s.jobs[a.jobId].(status := JobStatus.Queued));
      forall w | w in t.workers ensures WorkerInv(t.jobs, t.rows, t.platform, t.workers[w]) {
        WorkerStays(s, t, s.workers[w]);
      }
      WireStays(s, t);
    }
  }

  lemma PlatformKeeps(s: State, p: P.State)
    requires Inv(s) && RepliesGrow(s.platform, p) && PlatformInv(p)
    ensures Keeps(s, s.(platform := p))
  {
    var t := s.(platform := p);
    forall at | at in s.rows ensures TrueId(s.rows, p, at, s.rows[at].generationId) {
      IdStaysTrue(s.rows, s.platform, s.rows, p, at, s.rows[at].generationId);
    }
    DocsStayTrue(s.rows, s.platform, s.rows, p, s.jobs);
    forall w | w in t.workers ensures WorkerInv(t.jobs, t.rows, t.platform, t.workers[w]) {
      WorkerStays(s, t, s.workers[w]);
    }
    WireStays(s, t);
  }

  lemma ChargeRemembers(p: P.State, key: Key, q: P.Quote)
    requires PlatformInv(p) && key !in p.replies
    ensures var r := P.Charge(p, key, q);
            PlatformInv(r.0) && RepliesGrow(p, r.0) && r.1.Ok? && key in r.0.replies && r.0.replies[key] == r.1.value
  {
    var r := P.Charge(p, key, q);
    assert r.0.replies == p.replies[key := r.1.value];
    assert r.1.value.Id().Some? && p.nextId <= r.1.value.Id().value < r.0.nextId;
  }

  /** Serving a launch charges only if the key is new, and the reply is remembered. */
  lemma GenerateRemembers(c: P.Config, p: P.State, b: Body)
    requires PlatformInv(p)
    ensures var r := P.Generate(c, p, b);
            && PlatformInv(r.0) && RepliesGrow(p, r.0)
            && (r.0 != p ==> b.key !in p.replies)
            && (r.1.Ok? ==> b.key in r.0.replies && r.0.replies[b.key] == r.1.value)
            && (r.0 != p ==> r.1.Ok?)
  {
    var r := P.Generate(c, p, b);
    if r.0 != p {
      ChargeRemembers(p, b.key, c.quote(b).value);
    }
  }

  lemma ServeKeeps(c: P.Config, s: State, a: Action)
    requires Inv(s) && a.Serve?
    ensures Keeps(s, ApplyOutside(c, s, a))
  {
    if a.m in s.network {
      var r := P.Generate(c, s.platform, a.m.body);
      GenerateRemembers(c, s.platform, a.m.body);
      PlatformKeeps(s, r.0);
      ServedWire(s, r.0, a.m, r.1);
      var t := ApplyOutside(c, s, a);
      assert t == s.(platform := r.0, answers := t.answers, charges := t.charges);
    }
  }

  /** A new key has not been charged for before, and neither has its step. */
  lemma ServedWire(s: State, p: P.State, m: Message, reply: Result<LaunchReply, VibeError>)
    requires WireInv(s) && WireInv(s.(platform := p)) && m in s.network
    requires p != s.platform ==> m.body.key !in s.platform.replies && m.body.key in p.replies
    requires reply.Ok? ==> m.body.key in p.replies && p.replies[m.body.key] == reply.value
    ensures WireInv(s.(platform := p, answers := s.answers + {Answer(m.body, reply)},
                       charges := if p == s.platform then s.charges else s.charges + [Charge(m.at, m.body.key)]))
  {
    if p != s.platform {
      forall k | 0 <= k < |s.charges| ensures s.charges[k].at != m.at {
        assert Claimed(s.rows, s.charges[k].at, s.charges[k].key) && s.charges[k].key in s.platform.replies;
        assert Claimed(s.rows, m.at, m.body.key);
      }
    }
  }

  lemma StatusKeeps(c: P.Config, s: State, a: Action)
    requires Inv(s) && a.AskStatus?
    ensures Keeps(s, ApplyOutside(c, s, a))
  {
    if !a.call.CallGenerate? {
      StatusRemembers(c, s.platform, a.call);
      PlatformKeeps(s, P.Serve(c, s.platform, a.call));
    }
  }

  lemma StatusRemembers(c: P.Config, p: P.State, call: P.Call)
    requires !call.CallGenerate?
    ensures P.Serve(c, p, call).replies == p.replies && P.Serve(c, p, call).nextId == p.nextId
  {
  }

  lemma OutsideKeeps(c: P.Config, s: State, a: Action)
    requires Inv(s)
    requires a.Admit? || a.Serve? || a.Crash? || a.Requeue? || a.Webhook? || a.Reconcile? || a.AskStatus?
    ensures Keeps(s, ApplyOutside(c, s, a))
  {
    match a {
      case Admit(_, _, _) => AdmitKeeps(c, s, a);
      case Serve(_) => ServeKeeps(c, s, a);
      case Crash => CrashKeeps(c, s, a);
      case Requeue(_) => RequeueKeeps(c, s, a);
      case Webhook(_, _) => WebhookKeeps(c, s, a);
      case Reconcile(_, _) => ReconcileKeeps(c, s, a);
      case AskStatus(_) => StatusKeeps(c, s, a);
    }
  }

  lemma ClaimStepKeeps(s: State, a: Action)
    requires Inv(s) && (a.Read? || a.Insert? || a.Reread? || a.Decide?)
    ensures Keeps(s, ApplyClaimStep(s, a))
  {
    match a {
      case Read(_) => ReadKeeps(s, a);
      case Insert(_) => InsertKeeps(s, a);
      case Reread(_) => RereadKeeps(s, a);
      case Decide(_, _) => DecideKeeps(s, a);
    }
  }

  lemma WireStepKeeps(s: State, a: Action)
    requires Inv(s) && (a.Send? || a.Receive? || a.Resend? || a.GiveUp?)
    ensures Keeps(s, ApplyLaunch(s, a))
  {
    if a.Send? {
      SendKeeps(s, a);
    } else if a.GiveUp? {
      GiveUpKeeps(s, a);
    } else {
      ReceiveKeeps(s, a);
    }
  }

  lemma WriteKeeps(s: State, a: Action)
    requires Inv(s) && (a.Record? || a.Settle? || a.Expire? || a.Fault?)
    ensures Keeps(s, ApplySettle(s, a))
  {
    if a.Record? {
      RecordKeeps(s, a);
    } else if a.Settle? {
      SettleKeeps(s, a);
    } else if a.Expire? {
      ExpireKeeps(s, a);
    } else {
      FaultKeeps(s, a);
    }
  }

  lemma ApplyKeeps(c: P.Config, s: State, a: Action)
    requires Inv(s)
    ensures Keeps(s, Apply(c, s, a))
  {
    if a.Claim? {
      ClaimKeeps(s, a.w, a.jobId);
    } else if a.Load? || a.Stop? || a.Start? || a.Save? || a.Finish? || a.Vanish? {
      JobKeeps(s, a);
    } else if a.Begin? {
      BeginKeeps(s, a);
    } else if a.Skip? {
      SkipKeeps(s, a);
    } else if a.Read? || a.Insert? || a.Reread? || a.Decide? {
      ClaimStepKeeps(s, a);
    } else if a.Send? || a.Receive? || a.Resend? || a.GiveUp? {
      WireStepKeeps(s, a);
    } else if a.Record? || a.Settle? || a.Expire? || a.Fault? {
      WriteKeeps(s, a);
    } else {
      OutsideKeeps(c, s, a);
    }
  }

  // ---------------------------------------------------------------------------
  // Every run
  // ---------------------------------------------------------------------------

  lemma {:induction false} EveryRunKeepsInv(c: P.Config, balance: int, spentToday: int, actions: seq<Action>)
    ensures Inv(Run(c, Initial(balance, spentToday), actions))
  {
    if actions != [] {
      EveryRunKeepsInv(c, balance, spentToday, actions[..|actions| - 1]);
      ApplyKeeps(c, Run(c, Initial(balance, spentToday), actions[..|actions| - 1]), actions[|actions| - 1]);
    }
  }

  /** Never pay twice. Over every interleaving of workers, even for two jobs of one plan,
      of crashes at any point, restarts, lost, late and duplicated messages, callbacks and
      sweeps, the platform charges each step of each plan at most once. */
  lemma NeverPaidTwice(c: P.Config, balance: int, spentToday: int, actions: seq<Action>)
    ensures var charges := Run(c, Initial(balance, spentToday), actions).charges;
            forall k, l :: 0 <= k < l < |charges| ==> charges[k].at != charges[l].at
  {
    EveryRunKeepsInv(c, balance, spentToday, actions);
  }

  /** The platform's own record of launches is as long as the list of charges. */
  ghost predicate AllLogged(c: P.Config, s: State, balance: int, spentToday: int) {
    P.Books(c, s.platform, balance, spentToday) && |s.platform.generations| + |s.platform.voiceovers| == |s.charges|
  }

  lemma LaunchIsLogged(c: P.Config, p: P.State, b: Body)
    requires P.Numbered(p)
    ensures var q := P.Generate(c, p, b).0;
            |q.generations| + |q.voiceovers| == |p.generations| + |p.voiceovers| + if q == p then 0 else 1
  {
    if P.Generate(c, p, b).0 != p {
      ChargeIsLogged(p, b.key, c.quote(b).value);
    }
  }

  lemma ChargeIsLogged(p: P.State, key: Key, quote: P.Quote)
    requires P.Numbered(p)
    ensures var q := P.Charge(p, key, quote).0;
            q != p && |q.generations| + |q.voiceovers| == |p.generations| + |p.voiceovers| + 1
  {
    var q := P.Charge(p, key, quote).0;
    var id := q.nextId - 1;
    assert id !in p.generations && id !in p.voiceovers;
    if quote.longVoiceover {
      assert q.voiceovers == p.voiceovers[id := q.voiceovers[id]] && q.generations == p.generations;
    } else {
      assert q.generations == p.generations[id := q.generations[id]] && q.voiceovers == p.voiceovers;
    }
  }

  lemma StatusLogsNothing(c: P.Config, p: P.State, call: P.Call)
    requires !call.CallGenerate?
    ensures P.Serve(c, p, call).generations.Keys == p.generations.Keys
            && P.Serve(c, p, call).voiceovers.Keys == p.voiceovers.Keys
    ensures |P.Serve(c, p, call).generations| == |p.generations| && |P.Serve(c, p, call).voiceovers| == |p.voiceovers|
  {
    var q := P.Serve(c, p, call);
    assert |q.generations| == |q.generations.Keys| && |p.generations| == |p.generations.Keys|;
    assert |q.voiceovers| == |q.voiceovers.Keys| && |p.voiceovers| == |p.voiceovers.Keys|;
  }

  lemma OutsideLogs(c: P.Config, s: State, a: Action, balance: int, spentToday: int)
    requires AllLogged(c, s, balance, spentToday) && (a.Serve? || a.AskStatus?)
    ensures AllLogged(c, ApplyOutside(c, s, a), balance, spentToday)
  {
    if a.Serve? {
      LaunchIsLogged(c, s.platform, a.m.body);
      P.ServeKeepsBooks(c, s.platform, P.CallGenerate(a.m.body), balance, spentToday);
    } else if !a.call.CallGenerate? {
      StatusLogsNothing(c, s.platform, a.call);
      P.ServeKeepsBooks(c, s.platform, a.call, balance, spentToday);
    }
  }

  lemma OthersSpendNothing(c: P.Config, s: State, a: Action)
    requires !a.Serve? && !a.AskStatus?
    ensures Apply(c, s, a).platform == s.platform && Apply(c, s, a).charges == s.charges
  {
    if a.Admit? || a.Crash? || a.Requeue? || a.Webhook? || a.Reconcile? {
      assert ApplyOutside(c, s, a).platform == s.platform && ApplyOutside(c, s, a).charges == s.charges;
    }
  }

  lemma SameBooks(c: P.Config, s: State, t: State, balance: int, spentToday: int)
    requires AllLogged(c, s, balance, spentToday) && t.platform == s.platform && t.charges == s.charges
    ensures AllLogged(c, t, balance, spentToday)
  {
  }

  lemma StepLogs(c: P.Config, s: State, a: Action, balance: int, spentToday: int)
    requires AllLogged(c, s, balance, spentToday)
    ensures AllLogged(c, Apply(c, s, a), balance, spentToday)
  {
    if a.Serve? || a.AskStatus? {
      OutsideLogs(c, s, a, balance, spentToday);
    } else {
      OthersSpendNothing(c, s, a);
      SameBooks(c, s, Apply(c, s, a), balance, spentToday);
    }
  }

  /** The list of charges is complete: the platform holds one record per charge, and what
      is missing from its account is exactly the cost of those records less refunds. */
  lemma {:induction false} EveryChargeIsLogged(c: P.Config, balance: int, spentToday: int, actions: seq<Action>)
    requires balance >= 0 && spentToday <= c.dailyLimit
    ensures AllLogged(c, Run(c, Initial(balance, spentToday), actions), balance, spentToday)
  {
    if actions == [] {
      P.PlatformConserves(c, balance, spentToday, []);
    } else {
      EveryChargeIsLogged(c, balance, spentToday, actions[..|actions| - 1]);
      StepLogs(c, Run(c, Initial(balance, spentToday), actions[..|actions| - 1]), actions[|actions| - 1], balance,
          spentToday);
    }
  }

  /** Whatever was charged is in the ledger, under the key the platform was paid for. */
  lemma ChargesAreClaimed(c: P.Config, balance: int, spentToday: int, actions: seq<Action>, k: nat)
    requires k < |Run(c, Initial(balance, spentToday), actions).charges|
    ensures var s := Run(c, Initial(balance, spentToday), actions);
            s.charges[k].at in s.rows && s.rows[s.charges[k].at].key == s.charges[k].key
  {
    EveryRunKeepsInv(c, balance, spentToday, actions);
  }

  /** The id in a ledger row is the one the platform stored under the row's key, whoever
      wrote it: executor, sweep or callback. No two rows share one. */
  lemma LedgerIdsAreThePlatforms(c: P.Config, balance: int, spentToday: int, actions: seq<Action>, at: StepRef,
                                 other: StepRef)
    requires at in Run(c, Initial(balance, spentToday), actions).rows
    requires Run(c, Initial(balance, spentToday), actions).rows[at].generationId.Some?
    ensures var s := Run(c, Initial(balance, spentToday), actions);
            && s.rows[at].key in s.platform.replies
            && s.platform.replies[s.rows[at].key].Id() == s.rows[at].generationId
            && (other in s.rows && other != at ==> s.rows[other].generationId != s.rows[at].generationId)
  {
    EveryRunKeepsInv(c, balance, spentToday, actions);
    var s := Run(c, Initial(balance, spentToday), actions);
    assert TrueId(s.rows, s.platform, at, s.rows[at].generationId);
    if other in s.rows && s.rows[other].generationId == s.rows[at].generationId {
      assert TrueId(s.rows, s.platform, other, s.rows[other].generationId);
    }
  }

  /** So a callback's id leads to one step, and one only. */
  lemma LedgerIdsAreUnique(c: P.Config, balance: int, spentToday: int, actions: seq<Action>)
    ensures UniqueIds(Run(c, Initial(balance, spentToday), actions).rows)
  {
    var rows := Run(c, Initial(balance, spentToday), actions).rows;
    forall r, q | r in rows && q in rows && rows[r].generationId.Some? && rows[r].generationId == rows[q].generationId
      ensures r == q
    {
      LedgerIdsAreThePlatforms(c, balance, spentToday, actions, r, q);
    }
  }

  /** Ledger rows are for good: once there, a row keeps its key, its body and its job, and
      once it names a generation it names that one forever. */
  lemma {:induction false} LedgerIdsNeverChange(c: P.Config, balance: int, spentToday: int, actions: seq<Action>,
                                                n: nat)
    requires n <= |actions|
    ensures RowsGrow(Run(c, Initial(balance, spentToday), actions[..n]).rows,
        Run(c, Initial(balance, spentToday), actions).rows)
    decreases |actions|
  {
    if n == |actions| {
      assert actions[..n] == actions;
    } else {
      var before := actions[..|actions| - 1];
      assert before[..n] == actions[..n];
      LedgerIdsNeverChange(c, balance, spentToday, before, n);
      EveryRunKeepsInv(c, balance, spentToday, before);
      ApplyKeeps(c, Run(c, Initial(balance, spentToday), before), actions[|actions| - 1]);
    }
  }

  /** The job lock. However often a job id is delivered, and to however many workers, at
      most one live worker is past the claim of a job, and that job is not up for grabs. */
  lemma OneWorkerPerJob(c: P.Config, balance: int, spentToday: int, actions: seq<Action>, v: WorkerId, w: WorkerId)
    requires var s := Run(c, Initial(balance, spentToday), actions);
             v in s.workers && w in s.workers && s.workers[v].job.jobId == s.workers[w].job.jobId
    ensures v == w
    ensures var s := Run(c, Initial(balance, spentToday), actions);
            s.workers[w].job.jobId in s.jobs && !s.jobs[s.workers[w].job.jobId].status.Queued?
  {
    EveryRunKeepsInv(c, balance, spentToday, actions);
  }
}
