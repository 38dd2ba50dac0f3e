/** The spending protocol under concurrency: workers, crashes, restarts, lost and
    duplicated messages, callbacks and sweeps, one SQL statement or one message at a
    time.

    The state machine allows more than the service does: any job id may be delivered at
    any time and any number of times, a worker may present any key and body to the
    ledger, skip any step and abandon its work anywhere, and the network may serve a sent launch late,
    repeatedly, or after its sender is gone. What holds here holds there. */
module Protocol {
  import opened Domain
  import opened Settlement
  import opened Ledger
  import E = Execution
  import JobRun
  import Reconciler
  import P = Platform

  type WorkerId = nat

  /** Where a worker is inside its job. `i` is the step's place in the document. */
  datatype Pc =
    | Loading                            // claimed; about to read the document again
    | Loaded                              // may still be stopped before the first ruble
    | Between                            // in the loop, between two steps
    | Reading(i: nat, ps: PlanStep)      // about to look the step up in the ledger
    | Inserting(i: nat, ps: PlanStep)    // no row seen; about to insert one
    | Rereading(i: nat, ps: PlanStep)    // inserted; about to read the row back
    | Deciding(i: nat, ps: PlanStep, id: Option<nat>)
    | Sending(i: nat, ps: PlanStep)
    | Expecting(i: nat, ps: PlanStep)    // sent; the reply may never come
    | Recording(i: nat, ps: PlanStep, reply: LaunchReply)
    | Waiting(i: nat, ps: PlanStep)

  /** A live worker and its copy of the job document. */
  datatype Worker = Worker(job: Job, pc: Pc) {
    function At(ps: PlanStep): StepRef {
      (job.planId, ps.stepId)
    }
  }

  /** A launch under way, with the step it was sent for. */
  datatype Message = Message(at: StepRef, body: Body)

  datatype Answer = Answer(body: Body, reply: Result<LaunchReply, VibeError>)

  /** The platform took money for a launch of this step. */
  datatype Charge = Charge(at: StepRef, key: Key)

  datatype State = State(
    jobs: map<JobId, Job>, rows: Rows, platform: P.State, workers: map<WorkerId, Worker>,
    network: set<Message>, answers: set<Answer>, charges: seq<Charge>, unrecovered: set<JobId>)

  /** After a reply is recorded: wait, stop the plan over an overcharge, or fail the step
      for want of an id. */
  datatype Next = Wait | StopPlan | NoId

  datatype Action =
    | Admit(jobId: JobId, plan: Plan, now: nat)
    | Claim(w: WorkerId, jobId: JobId)
    | Load(w: WorkerId)
    | Stop(w: WorkerId, blockers: seq<Blocker>)
    | Start(w: WorkerId)
    | Begin(w: WorkerId, i: nat, ps: PlanStep)
    | Skip(w: WorkerId, ps: PlanStep)
    | Read(w: WorkerId)
    | Insert(w: WorkerId)
    | Reread(w: WorkerId)
    | Decide(w: WorkerId, affordable: bool)
    | Send(w: WorkerId)
    | Serve(m: Message)
    | Receive(w: WorkerId, reply: LaunchReply)
    | Resend(w: WorkerId)
    | GiveUp(w: WorkerId, error: VibeError)
    | Record(w: WorkerId, next: Next)
    | Settle(w: WorkerId, v: Payload)
    | Expire(w: WorkerId)
    | Fault(w: WorkerId, error: VibeError)
    | Save(w: WorkerId)
    | Finish(w: WorkerId, aborted: bool)
    | Vanish(w: WorkerId)
    | Crash
    | Requeue(jobId: JobId)
    | Webhook(at: StepRef, v: Payload)
    | Reconcile(at: StepRef, v: Payload)
    | AskStatus(call: P.Call)

  function Initial(balance: int, spentToday: int): State {
    State(map[], map[], P.Fresh(balance, spentToday), map[], {}, {}, [], {})
  }

  function WithWorker(s: State, w: WorkerId, worker: Worker): State {
    s.(workers := s.workers[w := worker])
  }

  function Gone(s: State, w: WorkerId): State {
    s.(workers := s.workers - {w})
  }

  /** The document as it is written after a step: with its running total. */
  function Totalled(job: Job): Job {
    job.(cost := TotalCost(job.steps))
  }

  function Saved(s: State, job: Job): State {
    s.(jobs := s.jobs[job.jobId := Totalled(job)])
  }

  function WithStep(job: Job, i: nat, step: JobStep): Job
    requires i < |job.steps|
  {
    job.(steps := job.steps[i := step])
  }

  /** The worker's view as the executor's run state; the guard is not part of the
      protocol, so nothing is known to be committed. */
  function InRun(s: State, w: Worker): E.RunState {
    E.RunState(w.job, 0, s.rows, [], false, false)
  }

  /** The worker goes on from what the executor made of its document and the ledger. */
  function GoOn(s: State, w: WorkerId, st: E.RunState, pc: Pc): State {
    WithWorker(s.(rows := st.rows), w, Worker(st.job, pc))
  }

  /** Statements of the service that no worker executes. */
  function ApplyOutside(c: P.Config, s: State, a: Action): State
    requires a.Admit? || a.Serve? || a.Crash? || a.Requeue? || a.Webhook? || a.Reconcile? || a.AskStatus?
  {
    match a
    case Admit(jobId, plan, now) =>
      if jobId in s.jobs then s else s.(jobs := s.jobs[jobId := JobRun.NewJob(plan, jobId, now)])
    case Serve(m) =>
      if m !in s.network then s
      else
        var (platform, reply) := P.Generate(c, s.platform, m.body);
        s.(platform := platform, answers := s.answers + {Answer(m.body, reply)},
           charges := if platform == s.platform then s.charges else s.charges + [Charge(m.at, m.body.key)])
    case Crash =>
      // Everything in memory is gone; unfinished jobs await startup recovery.
      s.(workers := map[], unrecovered := set j | j in s.jobs && s.jobs[j].status.IsActive())
    case Requeue(jobId) =>
      if jobId !in s.unrecovered || jobId !in s.jobs then s
      else s.(jobs := s.jobs[jobId := s.jobs[jobId].(status := JobStatus.Queued)],
          unrecovered := s.unrecovered - {jobId})
    case Webhook(at, v) =>
      if at !in s.rows || s.rows[at].generationId.None? || s.rows[at].jobId !in s.jobs then s
      else
        var row := s.rows[at];
        var job := s.jobs[row.jobId];
        s.(jobs := s.jobs[row.jobId := ApplyWebhook(job, at.1, v)],
           rows := UpdateStep(s.rows, (job.planId, at.1), WebhookStatus(v), row.generationId, Some(WebhookCost(v))))
    case Reconcile(at, v) =>
      var st := Reconciler.Store(s.jobs, s.rows, map[]);
      if Reconciler.StepAt(st,
          at).None? || !s.rows[at].status.Running? || !s.jobs[s.rows[at].jobId].status.IsTerminal() then s
      else
        var after := Reconciler.Rewritten(st, at, v, 0);
        s.(jobs := after.jobs, rows := after.rows)
    case AskStatus(call) =>
      if call.CallGenerate? then s else s.(platform := P.Serve(c, s.platform, call))
  }

  /** A worker takes a delivered job if it is queued: one conditional update. Jobs a
      crash left behind are delivered only after startup has put them back in line. */
  function ApplyClaim(s: State, w: WorkerId, jobId: JobId): (t: State)
    ensures t.platform == s.platform && t.charges == s.charges
  {
    if w in s.workers || jobId !in s.jobs || jobId in s.unrecovered || !s.jobs[jobId].status.Queued? then s
    else
      var job := s.jobs[jobId].(status := JobStatus.Running);
      WithWorker(s.(jobs := s.jobs[jobId := job]), w, Worker(job, Loading))
  }

  /** Statements of a worker around its steps. */
  function ApplyJob(s: State, a: Action): (t: State)
    requires a.Load? || a.Stop? || a.Start? || a.Save? || a.Finish? || a.Vanish?
    ensures t.platform == s.platform && t.charges == s.charges
  {
    if a.w !in s.workers then s
    else
      var w := s.workers[a.w];
      match a
      case Load(_) =>
        if !w.pc.Loading? || w.job.jobId !in s.jobs then s
        else WithWorker(s, a.w, Worker(s.jobs[w.job.jobId].(status := JobStatus.Running), Loaded))
      case Start(_) =>
        if !w.pc.Loaded? then s
        else WithWorker(s.(jobs := s.jobs[w.job.jobId := w.job]), a.w, w.(pc := Between))
      case Stop(_, blockers) =>
        if !w.pc.Loaded? then s
        else Gone(s.(jobs := s.jobs[w.job.jobId := JobRun.AbortedJob(w.job, blockers)]), a.w)
      case Save(_) =>
        if w.pc.Loading? || w.pc.Loaded? then s else Saved(s, w.job)
      case Finish(_, aborted) =>
        if !w.pc.Between? then s
        else
          var job := w.job.(status := Aggregate(w.job.steps, aborted), cost := TotalCost(w.job.steps));
          Gone(s.(jobs := s.jobs[job.jobId := job]), a.w)
      case Vanish(_) => Gone(s, a.w)
  }

  /** A worker begins step `i`: locally at once, or by way of the ledger. */
  function ApplyBegin(s: State, a: Action): (t: State)
    requires a.Begin?
    ensures t.platform == s.platform && t.charges == s.charges
  {
    if a.w !in s.workers || !s.workers[a.w].pc.Between? then s
    else
      var w := s.workers[a.w];
      if a.i >= |w.job.steps| || w.job.steps[a.i].stepId != a.ps.stepId then s
      else
        var step := w.job.steps[a.i].(status := StepStatus.Running, attempts := w.job.steps[a.i].attempts + 1);
        if a.ps.kind.Local? then
          var done := step.(status := StepStatus.Succeeded, localOutput := a.ps.localOutput, cost := 0);
          WithWorker(s.(rows := UpdateStep(s.rows, w.At(a.ps), StepStatus.Succeeded, None, Some(0))),
                     a.w, Worker(Totalled(WithStep(w.job, a.i, done)), Between))
        else WithWorker(s, a.w, Worker(WithStep(w.job, a.i, step), Reading(a.i, a.ps)))
  }

  /** A worker passes over a step behind a budget stop: marked in its copy of the document.
      That a run was stopped is not part of the protocol: any worker may skip any step. */
  function ApplySkip(s: State, a: Action): (t: State)
    requires a.Skip?
    ensures t.platform == s.platform && t.charges == s.charges
  {
    if a.w !in s.workers || !s.workers[a.w].pc.Between? then s
    else GoOn(s, a.w, E.PassOver(InRun(s, s.workers[a.w]).(aborted := true), a.ps), Between)
  }

  /** The three statements of a ledger claim, and the decision that follows. */
  function ApplyClaimStep(s: State, a: Action): (t: State)
    requires a.Read? || a.Insert? || a.Reread? || a.Decide?
    ensures t.platform == s.platform && t.charges == s.charges
  {
    if a.w !in s.workers then s
    else
      var w := s.workers[a.w];
      match a
      case Read(_) =>
        if !w.pc.Reading? then s
        else
          var at := w.At(w.pc.ps);
          if at !in s.rows then WithWorker(s, a.w, w.(pc := Inserting(w.pc.i, w.pc.ps)))
          else if s.rows[at].key != w.pc.ps.key || s.rows[at].body != w.pc.ps.GenerateBody() then
            Gone(Saved(s, w.job), a.w)
          else WithWorker(s, a.w, w.(pc := Deciding(w.pc.i, w.pc.ps, s.rows[at].generationId)))
      case Insert(_) =>
        if !w.pc.Inserting? then s
        else
          var at := w.At(w.pc.ps);
          // Both constraints of the table: one row per step, one row per key.
          if at in s.rows || KeyInUse(s.rows, w.pc.ps.key) then Gone(Saved(s, w.job), a.w)
          else
            var row := StepRow(w.pc.ps.key, w.job.jobId, w.pc.ps.GenerateBody(), None, StepStatus.Pending, 0);
            WithWorker(s.(rows := s.rows[at := row]), a.w, w.(pc := Rereading(w.pc.i, w.pc.ps)))
      case Reread(_) =>
        if !w.pc.Rereading? || w.At(w.pc.ps) !in s.rows then s
        else WithWorker(s, a.w, w.(pc := Deciding(w.pc.i, w.pc.ps, s.rows[w.At(w.pc.ps)].generationId)))
      case Decide(_, affordable) =>
        if !w.pc.Deciding? || w.pc.i >= |w.job.steps| then s
        else if w.pc.id.Some? then
          WithWorker(s, a.w,
              Worker(WithStep(w.job, w.pc.i, w.job.steps[w.pc.i].(generationId := w.pc.id)), Waiting(w.pc.i, w.pc.ps)))
        else if affordable then WithWorker(s, a.w, w.(pc := Sending(w.pc.i, w.pc.ps)))
        else GoOn(s, a.w, E.Conclude(w.job.planId, w.pc.ps, InRun(s, w), w.pc.i, E.BudgetStop), Between)
  }

  /** The launch as the worker sees it: sent, answered or not, sent again, given up. */
  function ApplyLaunch(s: State, a: Action): (t: State)
    requires a.Send? || a.Receive? || a.Resend? || a.GiveUp?
    ensures t.platform == s.platform && t.charges == s.charges
  {
    if a.w !in s.workers then s
    else
      var w := s.workers[a.w];
      match a
      case Send(_) =>
        if !w.pc.Sending? then s
        else WithWorker(s.(network := s.network + {Message(w.At(w.pc.ps), w.pc.ps.GenerateBody())}),
                        a.w, w.(pc := Expecting(w.pc.i, w.pc.ps)))
      case Receive(_, reply) =>
        if !w.pc.Expecting? || Answer(w.pc.ps.GenerateBody(), Ok(reply)) !in s.answers then s
        else WithWorker(s, a.w, w.(pc := Recording(w.pc.i, w.pc.ps, reply)))
      case Resend(_) =>
        if !w.pc.Expecting? then s else WithWorker(s, a.w, w.(pc := Sending(w.pc.i, w.pc.ps)))
      case GiveUp(_, error) =>
        if !(w.pc.Expecting? || w.pc.Sending?) || w.pc.i >= |w.job.steps| then s
        else GoOn(s, a.w, E.Conclude(w.job.planId, w.pc.ps, InRun(s, w), w.pc.i, E.Fault(error)), Between)
  }

  /** Writing a reply down, and the end of the wait. */
  function ApplySettle(s: State, a: Action): (t: State)
    requires a.Record? || a.Settle? || a.Expire? || a.Fault?
    ensures t.platform == s.platform && t.charges == s.charges
  {
    if a.w !in s.workers then s
    else
      var w := s.workers[a.w];
      match a
      case Record(_, next) =>
        if !w.pc.Recording? || w.pc.i >= |w.job.steps| then s
        else
          var st := E.Recorded(w.job.planId, w.pc.ps, InRun(s, w), w.pc.i, w.pc.reply);
          (match next
           case Wait => GoOn(s, a.w, st, Waiting(w.pc.i, w.pc.ps))
           case StopPlan => GoOn(s, a.w, E.Conclude(w.job.planId, w.pc.ps, st, w.pc.i, E.BudgetStop), Between)
           case NoId =>
             var failed := E.MarkFailed(w.pc.ps, st, w.pc.i, NoGenerationId);
             GoOn(s, a.w, E.Conclude(w.job.planId, w.pc.ps, failed, w.pc.i, E.Done), Between))
      case Settle(_, v) =>
        if !w.pc.Waiting? || w.pc.i >= |w.job.steps| then s
        else GoOn(s, a.w, E.Waited(w.job.planId, w.pc.ps, InRun(s, w), w.pc.i, E.Answered(v)), Between)
      case Expire(_) =>
        if !w.pc.Waiting? || w.pc.i >= |w.job.steps| then s
        else GoOn(s, a.w, E.Waited(w.job.planId, w.pc.ps, InRun(s, w), w.pc.i, E.TimedOut), Between)
      case Fault(_, error) =>
        if !w.pc.Waiting? || w.pc.i >= |w.job.steps| then s
        else GoOn(s, a.w, E.Waited(w.job.planId, w.pc.ps, InRun(s, w), w.pc.i, E.Faulted(error)), Between)
  }

  function Apply(c: P.Config, s: State, a: Action): State {
    if a.Claim? then ApplyClaim(s, a.w, a.jobId)
    else if a.Load? || a.Stop? || a.Start? || a.Save? || a.Finish? || a.Vanish? then ApplyJob(s, a)
    else if a.Begin? then ApplyBegin(s, a)
    else if a.Skip? then ApplySkip(s, a)
    else if a.Read? || a.Insert? || a.Reread? || a.Decide? then ApplyClaimStep(s, a)
    else if a.Send? || a.Receive? || a.Resend? || a.GiveUp? then ApplyLaunch(s, a)
    else if a.Record? || a.Settle? || a.Expire? || a.Fault? then ApplySettle(s, a)
    else ApplyOutside(c, s, a)
  }

  function Run(c: P.Config, s: State, actions: seq<Action>): State {
    if actions == [] then s else Apply(c, Run(c, s, actions[..|actions| - 1]), actions[|actions| - 1])
  }
}
