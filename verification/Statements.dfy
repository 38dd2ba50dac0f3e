/** What the protocol's statements do that are not part of a worker's turn, told on the
    fields of job, row and worker. */
module Statements {
  import opened Domain
  import opened Settlement
  import opened Ledger
  import opened Protocol
  import JobRun
  import Reconciler
  import P = Platform

  /** Everything but the jobs is as it was. */
  ghost predicate OnlyJobs(s: State, t: State) {
    t == s.(jobs := t.jobs)
  }

  /** Only this one job changed. */
  ghost predicate OnlyJob(s: State, t: State, j: JobId) {
    j in t.jobs && t.jobs == s.jobs[j := t.jobs[j]]
  }

  /** A new job waits, with one untouched step for every step of its plan; an id already
      taken admits nothing. */
  lemma AdmitMeans(c: P.Config, s: State, jobId: JobId, plan: Plan, now: nat)
    ensures var t := Apply(c, s, Admit(jobId, plan, now));
            && OnlyJobs(s, t) && (jobId in s.jobs ==> t == s)
            && (jobId !in s.jobs ==>
                  && OnlyJob(s, t, jobId) && t.jobs[jobId].status == JobStatus.Queued
                  && t.jobs[jobId].jobId == jobId && t.jobs[jobId].planId == plan.planId && t.jobs[jobId].cost == 0
                  && |t.jobs[jobId].steps| == |plan.steps|
                  && forall i :: 0 <= i < |plan.steps| ==>
                       && t.jobs[jobId].steps[i].stepId == plan.steps[i].stepId
                       && t.jobs[jobId].steps[i].status == StepStatus.Pending
                       && t.jobs[jobId].steps[i].generationId == None)
  {
  }

  /** A free worker takes a queued job that no restart has yet to recover, and only that;
      the job is running from then on. */
  lemma ClaimMeans(c: P.Config, s: State, w: WorkerId, jobId: JobId)
    ensures var t := Apply(c, s, Claim(w, jobId));
            var taken := w !in s.workers && jobId in s.jobs && jobId !in s.unrecovered
                         && s.jobs[jobId].status == JobStatus.Queued;
            && (!taken ==> t == s)
            && (taken ==>
                  && OnlyJob(s, t, jobId) && t.jobs[jobId] == s.jobs[jobId].(status := JobStatus.Running)
                  && w in t.workers && t.workers == s.workers[w := t.workers[w]] && t.workers[w].job == t.jobs[jobId]
                  && t.workers[w].pc == Loading && t.rows == s.rows && t.platform == s.platform
                  && t.network == s.network && t.unrecovered == s.unrecovered)
  {
  }

  /** The worker reads the document again before it begins, and stores it as running when it
      does. */
  lemma StartMeans(c: P.Config, s: State, w: WorkerId)
    requires w in s.workers
    ensures var me, loaded, started := s.workers[w], Apply(c, s, Load(w)), Apply(c, s, Start(w));
            && (me.pc == Loading && me.job.jobId in s.jobs ==>
                  loaded == s.(workers := s.workers[w := Worker(s.jobs[me.job.jobId].(status := JobStatus.Running),
                                                                Loaded)]))
            && (me.pc == Loaded ==>
                  started == s.(jobs := s.jobs[me.job.jobId := me.job], workers := s.workers[w := Worker(me.job,
                                                                                                         Between)]))
  {
  }

  /** A job stopped before the first ruble ends aborted, and its worker leaves. */
  lemma StopMeans(c: P.Config, s: State, w: WorkerId, blockers: seq<Blocker>)
    requires w in s.workers && s.workers[w].pc == Loaded
    ensures var t, job := Apply(c, s, Stop(w, blockers)), s.workers[w].job;
            && OnlyJob(s, t, job.jobId) && t.jobs[job.jobId].status == JobStatus.Aborted
            && t.workers == s.workers - {w} && t.rows == s.rows && t.platform == s.platform && t.network == s.network
            && |t.jobs[job.jobId].steps| == |job.steps|
            && forall i :: 0 <= i < |job.steps| ==>
                 t.jobs[job.jobId].steps[i].status != StepStatus.Pending
                 && t.jobs[job.jobId].steps[i].cost == job.steps[i].cost
  {
  }

  /** A message in the network may be served at any time, and stays there to be served
      again; the platform answers as it does. */
  lemma ServeMeans(c: P.Config, s: State, m: Message)
    ensures var t := Apply(c, s, Serve(m));
            && (m !in s.network ==> t == s)
            && (m in s.network ==>
                  && t.platform == P.Generate(c, s.platform, m.body).0 && t.network == s.network
                  && t.answers == s.answers + {Answer(m.body, P.Generate(c, s.platform, m.body).1)}
                  && t.jobs == s.jobs && t.rows == s.rows && t.workers == s.workers
                  && (t.platform != s.platform ==> t.charges == s.charges + [Charge(m.at, m.body.key)])
                  && (t.platform == s.platform ==> t.charges == s.charges))
  {
  }

  /** Whatever was answered may be received by whoever sent it, or never; who waits may
      send again. */
  lemma ReceiveMeans(c: P.Config, s: State, w: WorkerId, reply: LaunchReply)
    requires w in s.workers && s.workers[w].pc.Expecting?
    ensures var me := s.workers[w];
            var t, again := Apply(c, s, Receive(w, reply)), Apply(c, s, Resend(w));
            && (Answer(me.pc.ps.GenerateBody(), Ok(reply)) in s.answers ==>
                  t == s.(workers := s.workers[w := Worker(me.job, Recording(me.pc.i, me.pc.ps, reply))]))
            && (Answer(me.pc.ps.GenerateBody(), Ok(reply)) !in s.answers ==> t == s)
            && again == s.(workers := s.workers[w := Worker(me.job, Sending(me.pc.i, me.pc.ps))])
  {
  }

  /** A crash takes every worker and nothing that is stored or under way; what was queued or
      running is left for recovery. */
  lemma CrashMeans(c: P.Config, s: State)
    ensures var t := Apply(c, s, Crash);
            && t == s.(workers := map[], unrecovered := t.unrecovered)
            && forall j :: j in t.unrecovered <==>
                 j in s.jobs && (s.jobs[j].status == JobStatus.Queued || s.jobs[j].status == JobStatus.Running)
  {
  }

  lemma RequeueMeans(c: P.Config, s: State, jobId: JobId)
    ensures var t := Apply(c, s, Requeue(jobId));
            if jobId in s.unrecovered && jobId in s.jobs then
              && t == s.(jobs := t.jobs, unrecovered := s.unrecovered - {jobId}) && OnlyJob(s, t, jobId)
              && t.jobs[jobId] == s.jobs[jobId].(status := JobStatus.Queued)
            else t == s
  {
  }

  /** The callback finds the step by the id in its row. */
  ghost predicate IsKnown(s: State, at: StepRef) {
    at in s.rows && s.rows[at].generationId != None && s.rows[at].jobId in s.jobs
  }

  /** A callback about anything else does nothing. */
  lemma UnknownCallbackIsIgnored(c: P.Config, s: State, at: StepRef, v: Payload)
    requires !IsKnown(s, at)
    ensures Apply(c, s, Webhook(at, v)) == s
  {
  }

  lemma WebhookApplies(c: P.Config, s: State, at: StepRef, v: Payload)
    requires IsKnown(s, at)
    ensures var t, j := Apply(c, s, Webhook(at, v)), s.rows[at].jobId;
            t == s.(jobs := t.jobs, rows := t.rows) && t.jobs == s.jobs[j := ApplyWebhook(s.jobs[j], at.1, v)]
  {
  }

  /** A callback does to the document what the repository's handler does, whoever is at
      work, and to the row of the step. */
  lemma WebhookMeans(c: P.Config, s: State, at: StepRef, v: Payload)
    requires IsKnown(s, at)
    ensures var t, j := Apply(c, s, Webhook(at, v)), s.rows[at].jobId;
            t == s.(jobs := t.jobs, rows := t.rows) && OnlyJob(s, t, j) && CalledBack(s.jobs[j], t.jobs[j], at.1, v)
  {
    WebhookApplies(c, s, at, v);
    CallbackMeans(s.jobs[s.rows[at].jobId], at.1, v);
  }

  lemma WebhookWritesTheRow(c: P.Config, s: State, at: StepRef, v: Payload)
    requires IsKnown(s, at)
    ensures var t, row := Apply(c, s, Webhook(at, v)), (s.jobs[s.rows[at].jobId].planId, at.1);
            && (row !in s.rows ==> t.rows == s.rows)
            && (row in s.rows ==>
                  && row in t.rows && t.rows == s.rows[row := t.rows[row]]
                  && t.rows[row].status == (if v.phase == Success then StepStatus.Succeeded else StepStatus.Failed)
                  && t.rows[row].cost == (if v.refunded || v.cost.None? then 0 else v.cost.value)
                  && t.rows[row].generationId == s.rows[at].generationId)
  {
  }

  /** The sweep may look at a running row of an ended job. */
  ghost predicate MayBeSwept(s: State, at: StepRef, i: nat) {
    && Reconciler.CanBeAsked(Reconciler.Store(s.jobs, s.rows, map[]), at, i)
    && s.rows[at].status == StepStatus.Running && HasEnded(s.jobs[s.rows[at].jobId])
  }

  /** The sweep touches nothing but running rows of ended jobs. */
  lemma ReconcileIsRestrained(c: P.Config, s: State, at: StepRef, v: Payload)
    requires forall i: nat :: !MayBeSwept(s, at, i)
    ensures Apply(c, s, Reconcile(at, v)) == s
  {
    var st := Reconciler.Store(s.jobs, s.rows, map[]);
    if Reconciler.StepAt(st, at).Some? {
      var i := Reconciler.StepAt(st, at).value;
      assert Reconciler.CanBeAsked(st, at, i);
      assert !MayBeSwept(s, at, i);
    }
  }

  /** A sweep that hears a verdict about such a row writes it down, in document and row. */
  lemma ReconcileMeans(c: P.Config, s: State, at: StepRef, i: nat, v: Payload)
    requires MayBeSwept(s, at, i) && v.phase != Working
    ensures var t := Apply(c, s, Reconcile(at, v));
            && t == s.(jobs := t.jobs, rows := t.rows)
            && Reconciler.WrittenDown(Reconciler.Store(s.jobs, s.rows, map[]), Reconciler.Store(t.jobs, t.rows, map[]),
                                      at, i, Ok(v))
  {
    var st := Reconciler.Store(s.jobs, s.rows, map[]);
    SweptStepIsFound(st, at, i);
    ReconcileRewrites(c, s, at, v);
    Reconciler.RewriteRecords(st, at, i, Ok(v), 0);
    SameTables(st, Reconciler.Rewritten(st, at, v, 0), at, i, Ok(v));
  }

  lemma SweptStepIsFound(st: Reconciler.Store, at: StepRef, i: nat)
    requires Reconciler.CanBeAsked(st, at, i)
    ensures Reconciler.StepAt(st, at) == Some(i)
  {
  }

  lemma ReconcileRewrites(c: P.Config, s: State, at: StepRef, v: Payload)
    requires var st := Reconciler.Store(s.jobs, s.rows, map[]); Reconciler.StepAt(st, at).Some?
    requires s.rows[at].status == StepStatus.Running && HasEnded(s.jobs[s.rows[at].jobId])
    ensures var after := Reconciler.Rewritten(Reconciler.Store(s.jobs, s.rows, map[]), at, v, 0);
            Apply(c, s, Reconcile(at, v)) == s.(jobs := after.jobs, rows := after.rows)
  {
  }

  lemma SameTables(st: Reconciler.Store, after: Reconciler.Store, at: StepRef, i: nat,
                   reply: Result<Payload, VibeError>)
    requires Reconciler.CanBeAsked(st, at, i) && Reconciler.WrittenDown(st, after, at, i, reply)
    ensures Reconciler.WrittenDown(st, Reconciler.Store(after.jobs, after.rows, map[]), at, i, reply)
  {
  }
}
