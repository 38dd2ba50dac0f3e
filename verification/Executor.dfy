/** The executor: the loop over plan steps that claims, launches, waits and settles. */
module Executor {
  import opened Domain
  import opened Budget
  import opened Settlement
  import opened Ledger
  import opened WireModel
  import opened Execution

  function Bodies(ls: seq<Launch>): (bs: seq<Body>)
    ensures |bs| == |ls|
    ensures forall k :: 0 <= k < |ls| ==> bs[k] == ls[k].body
  {
    seq(|ls|, i requires 0 <= i < |ls| => ls[i].body)
  }

  /** From the launch on. */
  function LaunchBody<S>(wire: Wire<S>, s: S, pace: Pace, g: Limits, planId: PlanId, ps: PlanStep, st: RunState,
                         i: nat): (S, RunState, StepEnd)
    requires pace.interval > 0 && i < |st.job.steps|
  {
    var (s1, launch) := wire.generate(s, ps.GenerateBody());
    match AfterLaunch(g, planId, ps, st, i, launch)
    case Finished(st2, end) => (s1, st2, end)
    case NeedLaunch(st2) => (s1, st2, Done)
    case NeedPoll(st2, h) =>
      var (s2, poll) := Poll(wire, s1, h, pace, 0);
      var (st3, end) := AfterPoll(planId, ps, st2, i, poll);
      (s2, st3, end)
  }

  /** What one call of the step routine leads to, before the handlers around it. */
  function StepBody<S>(wire: Wire<S>, s: S, pace: Pace, g: Limits, planId: PlanId, ps: PlanStep, st: RunState,
                       i: nat): (S, RunState, StepEnd)
    requires pace.interval > 0 && i < |st.job.steps|
  {
    match Begin(g, planId, ps, st, i)
    case Finished(st1, end) => (s, st1, end)
    case NeedPoll(st1, h) =>
      var (s1, poll) := Poll(wire, s, h, pace, 0);
      var (st2, end) := AfterPoll(planId, ps, st1, i, poll);
      (s1, st2, end)
    case NeedLaunch(st1) => LaunchBody(wire, s, pace, g, planId, ps, st1, i)
  }

  lemma StepBodyConcludes<S>(wire: Wire<S>, s: S, pace: Pace, g: Limits, planId: PlanId, ps: PlanStep, st: RunState)
    requires pace.interval > 0 && ToBeRun(st, ps)
    ensures var i := FindStep(st.job.steps, ps.stepId).value;
            var b := StepBody(wire, s, pace, g, planId, ps, st, i);
            var d := DriveStep(wire, s, pace, g, planId, ps, st);
            && |b.1.job.steps| == |st.job.steps|
            && d.0 == b.0 && d.1 == Conclude(planId, ps, b.1, i, b.2)
  {
  }

  /** Nothing a step does renames the job. */
  lemma StepKeepsJobId<S>(wire: Wire<S>, s: S, pace: Pace, g: Limits, planId: PlanId, ps: PlanStep, st: RunState,
                          i: nat)
    requires pace.interval > 0 && i < |st.job.steps|
    ensures var b := StepBody(wire, s, pace, g, planId, ps, st, i);
            && b.1.job.jobId == st.job.jobId && b.1.job.planId == st.job.planId && |b.1.job.steps| == |st.job.steps|
            && b.1.aborted == st.aborted && (b.1.refused == st.refused)
  {
  }

  class Executor<S> {
    const client: Client<S>
    const repo: JobRepository
    const pace: Pace

    constructor (client: Client<S>, repo: JobRepository, pace: Pace)
      ensures this.client == client && this.repo == repo && this.pace == pace
    {
      this.client, this.repo, this.pace := client, repo, pace;
    }

    /** The objects are where the run says: `st` is the run so far, `job` the document in
        hand, `first` what had been launched before the run. */
    ghost predicate At(st: RunState, job: Job, guard: BudgetGuard, first: seq<Body>)
      reads client, repo, guard
    {
      && st.job == job && st.committed == guard.committed && st.rows == repo.rows
      && client.launches == first + Bodies(st.launches)
    }

    method Now() returns (t: nat) {
      t := *;
    }

    /** Polls until a verdict, an error or the end of the budget. */
    method Await(handle: Handle) returns (poll: PollEvent)
      requires pace.interval > 0
      modifies client`state
      ensures (client.state, poll) == Poll(client.wire, old(client.state), handle, pace, 0)
    {
      var waited := 0;
      while true
        invariant Poll(client.wire, client.state, handle, pace, waited) ==
                  Poll(client.wire, old(client.state), handle, pace, 0)
        decreases pace.timeout - waited
      {
        var reply := client.Status(handle);
        if reply.Err? {
          return Faulted(reply.error);
        }
        if !reply.value.phase.Working? {
          return Answered(reply.value);
        }
        if waited >= pace.timeout {
          return TimedOut;
        }
        waited := waited + pace.interval;
      }
    }

    /** Records the terminal outcome of a step and reconciles the money spent. */
    method SettleStep(planId: PlanId, ps: PlanStep, job: Job, i: nat, guard: BudgetGuard, v: Payload,
                      ghost st: RunState, ghost first: seq<Body>)
      returns (after: Job, ghost st': RunState)
      requires i < |job.steps| && At(st, job, guard, first)
      modifies repo`rows, repo`touched, guard`committed
      ensures st' == Settle(planId, ps, st, i, v) && At(st', after, guard, first)
    {
      var previous := job.steps[i].cost;
      var outcome := ApplyOutcome(job.steps[i], v);
      var final, s := outcome.1, outcome.0.(cost := outcome.1);
      assert s == Settled(st.job.steps[i], v);
      var errors := job.errors;
      if s.status.Failed? {
        errors := errors + [JobError(Some(ps.stepId), s.error.value)];
      }
      if final != previous {
        guard.Release(previous);
        guard.committed := guard.committed + final;
      }
      after := job.(steps := job.steps[i := s], errors := errors);
      var now := Now();
      repo.Update((planId, ps.stepId), s.status, s.generationId, Some(s.cost), now);
      st' := Settle(planId, ps, st, i, v);
    }

    /** Waits for a launched step and settles it. */
    method AwaitResult(planId: PlanId, ps: PlanStep, job: Job, i: nat, guard: BudgetGuard, handle: Handle,
                       ghost st: RunState, ghost first: seq<Body>)
      returns (after: Job, end: StepEnd, ghost st': RunState)
      requires pace.interval > 0 && i < |job.steps| && At(st, job, guard, first)
      modifies client`state, repo`rows, repo`touched, guard`committed
      ensures var p := Poll(client.wire, old(client.state), handle, pace, 0);
              && client.state == p.0 && (st', end) == AfterPoll(planId, ps, st, i, p.1)
      ensures At(st', after, guard, first)
    {
      var poll := Await(handle);
      after, end, st' := job, Done, st;
      match poll {
        case Answered(v) =>
          after, st' := SettleStep(planId, ps, job, i, guard, v, st, first);
        case TimedOut =>
          after := job.(steps := job.steps[i := job.steps[i].(status := StepStatus.Failed, error := Some(PollTimeout))],
                        errors := job.errors + [JobError(Some(ps.stepId), PollTimeout)]);
          st' := MarkFailed(ps, st, i, PollTimeout);
        case Faulted(e) =>
          end := Fault(e);
      }
    }

    /** One step: claim, launch at most once, wait, settle. Exceptional ends are returned. */
    method RunStep(planId: PlanId, ps: PlanStep, job: Job, i: nat, guard: BudgetGuard, ghost st: RunState,
                   ghost first: seq<Body>)
      returns (after: Job, end: StepEnd, ghost st': RunState)
      requires pace.interval > 0 && guard.margin.Valid() && i < |job.steps| && At(st, job, guard, first)
      modifies client, repo`rows, repo`touched, guard`committed
      ensures (client.state, st', end) == StepBody(client.wire, old(client.state), pace, old(guard.Limit()), planId,
          ps, st, i)
      ensures At(st', after, guard, first)
    {
      var s := job.steps[i].(status := StepStatus.Running, attempts := job.steps[i].attempts + 1);
      var at := (planId, ps.stepId);
      var now := Now();
      if ps.kind.Local? {
        s := s.(localOutput := ps.localOutput, status := StepStatus.Succeeded, cost := 0);
        repo.Update(at, StepStatus.Succeeded, None, Some(0), now);
        after, end := job.(steps := job.steps[i := s]), Done;
        st' := Begin(guard.Limit(), planId, ps, st, i).state;
        return;
      }
      var record := repo.Claim(at, job.jobId, ps.key, ps.GenerateBody(), now);
      after := job.(steps := job.steps[i := s]);
      st' := Begin(guard.Limit(), planId, ps, st, i).state;
      if record.Err? {
        end := Refused;
        return;
      }
      if record.value.generationId.Some? {
        s := s.(generationId := record.value.generationId);
        after := after.(steps := after.steps[i := s]);
        var handle := Handle(s.longVoiceover, s.generationId);
        after, end, st' := AwaitResult(planId, ps, after, i, guard, handle, st', first);
        return;
      }
      var refusal := CheckAll(guard.Limit(), guard.committed, ps.estimate);
      if refusal.Some? {
        end := BudgetStop;
        return;
      }
      after, end, st' := LaunchStep(planId, ps, after, i, guard, st', first);
    }

    /** From the launch on: record, commit, wait. */
    method LaunchStep(planId: PlanId, ps: PlanStep, job: Job, i: nat, guard: BudgetGuard, ghost st: RunState,
                      ghost first: seq<Body>)
      returns (after: Job, end: StepEnd, ghost st': RunState)
      requires pace.interval > 0 && guard.margin.Valid() && i < |job.steps| && At(st, job, guard, first)
      modifies client, repo`rows, repo`touched, guard`committed
      ensures (client.state, st', end) == LaunchBody(client.wire, old(client.state), pace, old(guard.Limit()), planId,
          ps, st, i)
      ensures At(st', after, guard, first)
    {
      after := job;
      var launch := client.Generate(ps.GenerateBody());
      ghost var p := AfterLaunch(guard.Limit(), planId, ps, st, i, launch);
      st' := p.state;
      assert client.launches == first + Bodies(Logged(st, ps, i,
          if launch.Ok? then ChargedBy(ps, launch.value) else 0).launches);
      if launch.Err? {
        end := Fault(launch.error);
        return;
      }
      var reply := launch.value;
      var charged := GetOr(reply.payload.cost, ps.estimate);
      var s := job.steps[i].(generationId := reply.Id(), longVoiceover := reply.longVoiceover,
                             text := Or(reply.payload.text, job.steps[i].text), cost := charged);
      after := job.(steps := job.steps[i := s]);
      var now := Now();
      repo.Update((planId, ps.stepId), StepStatus.Running, s.generationId, Some(charged), now);
      var refusal := guard.Commit(charged);
      if refusal.Some? {
        guard.committed := guard.committed + charged;
        end := BudgetStop;
        return;
      }
      ghost var recorded := Recorded(planId, ps, st, i, reply);
      if s.longVoiceover || s.generationId.Some? {
        var handle := Handle(s.longVoiceover, s.generationId);
        after, end, st' := AwaitResult(planId, ps, after, i, guard, handle, recorded, first);
      } else if reply.Terminal() {
        after, st' := SettleStep(planId, ps, after, i, guard, reply.payload, recorded, first);
        end := Done;
      } else {
        after := after.(steps := after.steps[i := s.(status := StepStatus.Failed, error := Some(NoGenerationId))],
                        errors := after.errors + [JobError(Some(ps.stepId), NoGenerationId)]);
        end := Done;
      }
    }

    /** The handlers around a step, the running total, and the save. */
    method ConcludeStep(planId: PlanId, ps: PlanStep, job: Job, i: nat, end: StepEnd, aborted: bool,
                        guard: BudgetGuard, ghost st: RunState, ghost first: seq<Body>)
      returns (after: Job, stop: bool, ghost st': RunState)
      requires i < |job.steps| && At(st, job, guard, first) && aborted == st.aborted && repo.Valid()
      modifies repo
      ensures st' == Conclude(planId, ps, st, i, end) && At(st', after, guard, first) && stop == st'.aborted
      ensures repo.Valid() && repo.jobs == old(repo.jobs)[job.jobId := after]
    {
      after, stop := job, aborted;
      match end {
        case Done =>
        case Refused =>
        case BudgetStop =>
          after := after.(steps := after.steps[i := after.steps[i].(status := StepStatus.Skipped,
              error := Some(OverBudget))],
                          errors := after.errors + [JobError(Some(ps.stepId), OverBudget)]);
          stop := true;
        case Fault(e) =>
          after := after.(steps := after.steps[i := after.steps[i].(status := StepStatus.Failed,
              error := Some(Upstream(e)))],
                          errors := after.errors + [JobError(Some(ps.stepId), Upstream(e))]);
          var now := Now();
          repo.Update((planId, ps.stepId), StepStatus.Failed, None, None, now);
          if e.BudgetRelated() {
            stop := true;
          }
      }
      after := after.(cost := TotalCost(after.steps));
      repo.Save(after);
      st' := Conclude(planId, ps, st, i, end);
    }

    /** One turn of the loop. */
    method Turn(planId: PlanId, ps: PlanStep, job: Job, aborted: bool, guard: BudgetGuard, ghost st: RunState,
                ghost first: seq<Body>)
      returns (after: Job, stop: bool, refused: bool, ghost st': RunState)
      requires pace.interval > 0 && guard.margin.Valid() && repo.Valid()
      requires At(st, job, guard, first) && aborted == st.aborted && !st.refused && job.jobId in repo.jobs
      modifies client, repo, guard`committed
      ensures IsDrivenTurn(client.wire, pace, old(guard.Limit()), planId, ps, old(client.state), st, client.state, st')
      ensures At(st', after, guard, first) && stop == st'.aborted && refused == st'.refused && after.jobId == job.jobId
      ensures repo.Valid() && job.jobId in repo.jobs && repo.jobs == old(repo.jobs)[job.jobId := repo.jobs[job.jobId]]
      ensures refused ==> repo.jobs[job.jobId] == after
    {
      after, stop, refused, st' := job, aborted, false, st;
      var found := FindStep(job.steps, ps.stepId);
      if found.None? {
        return;
      }
      var i := found.value;
      if aborted {
        after := job.(steps := job.steps[i := job.steps[i].(status := StepStatus.Skipped,
            error := Some(SkippedAfterBudget))]);
        st' := PassOver(st, ps);
        return;
      }
      if job.steps[i].status.Succeeded? {
        return;
      }
      StepKeepsJobId(client.wire, client.state, pace, guard.Limit(), planId, ps, st, i);
      StepBodyConcludes(client.wire, client.state, pace, guard.Limit(), planId, ps, st);
      var end;
      after, end, st' := RunStep(planId, ps, job, i, guard, st, first);
      after, stop, st' := ConcludeStep(planId, ps, after, i, end, aborted, guard, st', first);
      refused := end.Refused?;
    }

    /** The loop over plan steps; it ends early when the ledger refuses a claim. */
    method RunSteps(plan: Plan, job: Job, guard: BudgetGuard, ghost start: RunState, ghost first: seq<Body>)
      returns (after: Job, stop: bool, refused: bool, ghost end: RunState, ghost tr: seq<(S, RunState)>)
      requires pace.interval > 0 && guard.margin.Valid() && repo.Valid()
      requires At(start, job, guard, first) && !start.aborted && !start.refused && job.jobId in repo.jobs
      modifies client, repo, guard`committed
      ensures IsHistory(client.wire, pace, old(guard.Limit()), plan.planId, plan.steps, tr)
      ensures tr[0] == (old(client.state), start) && tr[|tr| - 1] == (client.state, end)
      ensures refused || |tr| == |plan.steps| + 1
      ensures At(end, after, guard, first) && stop == end.aborted && refused == end.refused && after.jobId == job.jobId
      ensures repo.Valid() && job.jobId in repo.jobs
      ensures repo.jobs == old(repo.jobs)[job.jobId := repo.jobs[job.jobId]]
      ensures refused ==> repo.jobs[job.jobId] == after
    {
      ghost var g, s := guard.Limit(), client.state;
      after, stop, refused, end := job, false, false, start;
      tr := [(s, start)];
      for n := 0 to |plan.steps|
        invariant guard.Limit() == g
        invariant At(end, after, guard, first) && stop == end.aborted && !refused && !end.refused
        invariant IsHistory(client.wire, pace, g, plan.planId, plan.steps, tr) && |tr| == n + 1
        invariant tr[0] == (s, start) && tr[n] == (client.state, end)
        invariant after.jobId == job.jobId && job.jobId in repo.jobs
        invariant repo.Valid() && repo.jobs == old(repo.jobs)[job.jobId := repo.jobs[job.jobId]]
      {
        after, stop, refused, end := Turn(plan.planId, plan.steps[n], after, stop, guard, end, first);
        HistoryGrows(client.wire, pace, g, plan.planId, plan.steps, tr, client.state, end);
        tr := tr + [(client.state, end)];
        if refused {
          return;
        }
      }
    }

    /** Runs the whole plan. The outcome is `None` when the ledger refused a claim: the
        error leaves the loop after the step was saved, and the job stays as it is. */
    method Run(plan: Plan, job: Job, guard: BudgetGuard)
      returns (outcome: Option<Job>, ghost end: RunState, ghost tr: seq<(S, RunState)>)
      requires pace.interval > 0 && guard.margin.Valid() && repo.Valid() && AddsUp(job)
      modifies client, repo, guard`committed
      ensures IsHistory(client.wire, pace, old(guard.Limit()), plan.planId, plan.steps, tr)
      ensures tr[0] == (old(client.state),
                        RunState(Started(job), old(guard.committed), old(repo.rows), [], false, false))
      ensures tr[|tr| - 1] == (client.state, end) && (end.refused || |tr| == |plan.steps| + 1)
      ensures guard.committed == end.committed && repo.rows == end.rows
      ensures client.launches == old(client.launches) + Bodies(end.launches)
      ensures outcome == if end.refused then None else Some(FinalJob(end))
      ensures repo.Valid() && repo.jobs == old(repo.jobs)[job.jobId := LastDocument(end)]
    {
      ghost var jobs := repo.jobs;
      var current := job.(status := JobStatus.Running);
      repo.Save(current);
      ghost var start := RunState(Started(job), guard.committed, repo.rows, [], false, false);
      assert client.launches == client.launches + Bodies(start.launches);
      var stop, refused;
      current, stop, refused, end, tr := RunSteps(plan, current, guard, start, client.launches);
      assert repo.jobs == jobs[job.jobId := repo.jobs[job.jobId]];
      if !refused {
        current := current.(status := Aggregate(current.steps, stop), cost := TotalCost(current.steps));
        repo.Save(current);
      }
      assert current == LastDocument(end);
      outcome := if refused then None else Some(current);
    }
  }
}
