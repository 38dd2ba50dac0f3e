/** Two runs of one plan that differ in one verdict, and nowhere else unless the guard
    decides differently. */
module Apartness {
  import opened Money
  import opened Domain
  import opened Budget
  import opened Settlement
  import opened Ledger
  import opened WireModel
  import opened Execution
  import opened Spending

  /** How two runs differ at step `k`: the step, its ledger row and its error entries. */
  datatype Diff = Diff(
    k: nat, at: StepRef, id: StepId, job: JobId, stepA: JobStep, stepB: JobStep, rowA: StepRow, rowB: StepRow,
    own: set<JobError>)

  ghost predicate SameErrors(d: Diff, a: seq<JobError>, b: seq<JobError>) {
    && (forall e: JobError :: e.stepId != Some(d.id) ==> (e in a <==> e in b))
    && (forall e: JobError :: e.stepId == Some(d.id) ==> (e in a <==> e in d.own))
  }

  /** The runs agree on everything else, except perhaps on what is committed. */
  ghost predicate Apart(d: Diff, a: RunState, b: RunState) {
    && d.k < |b.job.steps| && b.job.steps[d.k] == d.stepB
    && a.job.steps == b.job.steps[d.k := d.stepA]
    && a.job.jobId == b.job.jobId == d.job && a.job.planId == b.job.planId == d.at.0
    && d.at in b.rows && b.rows[d.at] == d.rowB && a.rows == b.rows[d.at := d.rowA] && d.rowA.key == d.rowB.key
    && a.aborted == b.aborted && a.refused == b.refused
    && SameErrors(d, a.job.errors, b.job.errors)
  }

  /** What was committed alike stays committed alike. */
  predicate KeepsPurse(a: RunState, b: RunState, a': RunState, b': RunState) {
    a.committed == b.committed ==> a'.committed == b'.committed
  }

  lemma ApartSetStep(d: Diff, a: RunState, b: RunState, i: nat, s: JobStep)
    requires Apart(d, a, b) && i < |b.job.steps| && i != d.k
    ensures Apart(d, SetStep(a, i, s), SetStep(b, i, s))
  {
    assert b.job.steps[d.k := d.stepA][i := s] == b.job.steps[i := s][d.k := d.stepA];
  }

  lemma ApartAddError(d: Diff, a: RunState, b: RunState, id: StepId, reason: Reason)
    requires Apart(d, a, b) && id != d.id
    ensures Apart(d, AddError(a, id, reason), AddError(b, id, reason))
  {
  }

  lemma ApartRows(d: Diff, a: RunState, b: RunState, at: StepRef, status: StepStatus, id: Option<nat>,
                  cost: Option<Amount>)
    requires Apart(d, a, b) && at != d.at
    ensures Apart(d, a.(rows := UpdateStep(a.rows, at, status, id, cost)),
        b.(rows := UpdateStep(b.rows, at, status, id, cost)))
  {
  }

  lemma ApartMarkFailed(d: Diff, ps: PlanStep, a: RunState, b: RunState, i: nat, reason: Reason)
    requires Apart(d, a, b) && i < |b.job.steps| && i != d.k && ps.stepId != d.id
    ensures Apart(d, MarkFailed(ps, a, i, reason), MarkFailed(ps, b, i, reason))
  {
    var s := b.job.steps[i].(status := StepStatus.Failed, error := Some(reason));
    ApartSetStep(d, a, b, i, s);
    ApartAddError(d, SetStep(a, i, s), SetStep(b, i, s), ps.stepId, reason);
  }

  lemma ApartSettle(d: Diff, planId: PlanId, ps: PlanStep, a: RunState, b: RunState, i: nat, v: Payload)
    requires Apart(d, a, b) && i < |b.job.steps| && i != d.k && ps.stepId != d.id && d.at == (planId, d.id)
    ensures Apart(d, Settle(planId, ps, a, i, v), Settle(planId, ps, b, i, v))
    ensures KeepsPurse(a, b, Settle(planId, ps, a, i, v), Settle(planId, ps, b, i, v))
  {
    var s := Settled(b.job.steps[i], v);
    var at := (planId, ps.stepId);
    var a1, b1 := SetStep(a, i, s), SetStep(b, i, s);
    ApartSetStep(d, a, b, i, s);
    ApartRows(d, a1, b1, at, s.status, s.generationId, Some(s.cost));
    var a2 := a1.(rows := UpdateStep(a1.rows, at, s.status, s.generationId, Some(s.cost)),
                  committed := Recommitted(a.committed, a.job.steps[i].cost, s.cost));
    var b2 := b1.(rows := UpdateStep(b1.rows, at, s.status, s.generationId, Some(s.cost)),
                  committed := Recommitted(b.committed, b.job.steps[i].cost, s.cost));
    assert Apart(d, a2, b2);
    if s.status.Failed? {
      ApartAddError(d, a2, b2, ps.stepId, s.error.value);
    }
  }

  lemma ApartConclude(d: Diff, planId: PlanId, ps: PlanStep, a: RunState, b: RunState, i: nat, end: StepEnd)
    requires Apart(d, a, b) && i < |b.job.steps| && i != d.k && ps.stepId != d.id && d.at == (planId, d.id)
    ensures Apart(d, Conclude(planId, ps, a, i, end), Conclude(planId, ps, b, i, end))
    ensures KeepsPurse(a, b, Conclude(planId, ps, a, i, end), Conclude(planId, ps, b, i, end))
  {
    match end {
      case Done =>
      case Refused =>
      case BudgetStop =>
        var s := b.job.steps[i].(status := StepStatus.Skipped, error := Some(OverBudget));
        ApartSetStep(d, a, b, i, s);
        ApartAddError(d, SetStep(a, i, s), SetStep(b, i, s), ps.stepId, OverBudget);
      case Fault(e) =>
        ApartRows(d, a, b, (planId, ps.stepId), StepStatus.Failed, None, None);
        ApartMarkFailed(d, ps, a, b, i, Upstream(e));
    }
  }

  lemma ApartWaited(d: Diff, planId: PlanId, ps: PlanStep, a: RunState, b: RunState, i: nat, poll: PollEvent)
    requires Apart(d, a, b) && i < |b.job.steps| && i != d.k && ps.stepId != d.id && d.at == (planId, d.id)
    ensures Apart(d, Waited(planId, ps, a, i, poll), Waited(planId, ps, b, i, poll))
    ensures KeepsPurse(a, b, Waited(planId, ps, a, i, poll), Waited(planId, ps, b, i, poll))
  {
    match poll {
      case Answered(v) => ApartSettle(d, planId, ps, a, b, i, v);
      case TimedOut => ApartMarkFailed(d, ps, a, b, i, PollTimeout);
      case Faulted(e) =>
    }
    var (a1, end) := AfterPoll(planId, ps, a, i, poll);
    var (b1, _) := AfterPoll(planId, ps, b, i, poll);
    ApartConclude(d, planId, ps, a1, b1, i, end);
  }

  lemma ApartRecorded(d: Diff, planId: PlanId, ps: PlanStep, a: RunState, b: RunState, i: nat, reply: LaunchReply)
    requires Apart(d, a, b) && i < |b.job.steps| && i != d.k && ps.stepId != d.id && d.at == (planId, d.id)
    ensures Apart(d, Recorded(planId, ps, a, i, reply), Recorded(planId, ps, b, i, reply))
    ensures KeepsPurse(a, b, Recorded(planId, ps, a, i, reply), Recorded(planId, ps, b, i, reply))
  {
    var charged := ChargedBy(ps, reply);
    var s := b.job.steps[i].(generationId := reply.Id(), longVoiceover := reply.longVoiceover,
                             text := Or(reply.payload.text, b.job.steps[i].text), cost := charged);
    ApartSetStep(d, Logged(a, ps, i, charged), Logged(b, ps, i, charged), i, s);
    ApartRows(d, a, b, (planId, ps.stepId), StepStatus.Running, reply.Id(), Some(charged));
  }

  /** The guard decides the same about a planned price, and about what was charged. */
  predicate Agrees(g: Limits, ps: PlanStep, x: Amount, y: Amount, launch: Result<LaunchReply, VibeError>) {
    && (CheckAll(g, x, ps.estimate).None? <==> CheckAll(g, y, ps.estimate).None?)
    && (CheckAll(g, x, ps.estimate).None? && launch.Ok? ==>
          (Check(g, x, ChargedBy(ps, launch.value)).None? <==> Check(g, y, ChargedBy(ps, launch.value)).None?))
  }

  /** With `x` committed the guard decides step `ps` as it does in state `st`, if it comes
      to that. */
  predicate DecidesAlike(g: Limits, ps: PlanStep, st: RunState, x: Amount, launch: Result<LaunchReply, VibeError>) {
    ToBeRun(st, ps) && ps.kind.Generation? ==> Agrees(g, ps, x, st.committed, launch)
  }

  /** Once the reply is recorded, both ways of closing the step at once keep the runs apart. */
  lemma ApartReplied(d: Diff, planId: PlanId, ps: PlanStep, a: RunState, b: RunState, i: nat, v: Payload)
    requires Apart(d, a, b) && i < |b.job.steps| && i != d.k && ps.stepId != d.id && d.at == (planId, d.id)
    ensures Apart(d, Settle(planId, ps, a, i, v), Settle(planId, ps, b, i, v))
    ensures Apart(d, MarkFailed(ps, a, i, NoGenerationId), MarkFailed(ps, b, i, NoGenerationId))
    ensures KeepsPurse(a, b, Settle(planId, ps, a, i, v), Settle(planId, ps, b, i, v))
    ensures KeepsPurse(a, b, MarkFailed(ps, a, i, NoGenerationId), MarkFailed(ps, b, i, NoGenerationId))
    ensures |Settle(planId, ps, b, i, v).job.steps| == |b.job.steps|
  {
    ApartSettle(d, planId, ps, a, b, i, v);
    ApartMarkFailed(d, ps, a, b, i, NoGenerationId);
  }

  /** Both runs stand at the same point of a step, apart as before. */
  ghost predicate SameWay(d: Diff, a: RunState, b: RunState, p: Progress, q: Progress) {
    && Apart(d, p.state, q.state) && KeepsPurse(a, b, p.state, q.state) && !p.NeedLaunch? && !q.NeedLaunch?
    && |q.state.job.steps| == |b.job.steps|
    && (p.Finished? <==> q.Finished?)
    && (p.Finished? ==> p.end == q.end) && (p.NeedPoll? ==> p.handle == q.handle)
  }

  lemma ApartFailed(d: Diff, g: Limits, planId: PlanId, ps: PlanStep, a: RunState, b: RunState, i: nat, e: VibeError)
    requires Apart(d, a, b) && i < |b.job.steps|
    ensures SameWay(d, a, b, AfterLaunch(g, planId, ps, a, i, Err(e)), AfterLaunch(g, planId, ps, b, i, Err(e)))
  {
  }

  /** A charge that breaks the envelope, or is found in order, in both runs. */
  lemma ApartAccepted(d: Diff, g: Limits, planId: PlanId, ps: PlanStep, a: RunState, b: RunState, i: nat,
                      reply: LaunchReply)
    requires Apart(d, a, b) && i < |b.job.steps| && i != d.k && ps.stepId != d.id && d.at == (planId, d.id)
    requires Check(g, a.committed, ChargedBy(ps, reply)).None? <==> Check(g, b.committed, ChargedBy(ps, reply)).None?
    ensures SameWay(d, a, b, AfterLaunch(g, planId, ps, a, i, Ok(reply)), AfterLaunch(g, planId, ps, b, i, Ok(reply)))
  {
    var ra, rb := Recorded(planId, ps, a, i, reply), Recorded(planId, ps, b, i, reply);
    var p, q := AfterLaunch(g, planId, ps, a, i, Ok(reply)), AfterLaunch(g, planId, ps, b, i, Ok(reply));
    ApartRecorded(d, planId, ps, a, b, i, reply);
    if Check(g, a.committed, ChargedBy(ps, reply)).Some? {
      assert p == Finished(ra, BudgetStop) && q == Finished(rb, BudgetStop);
    } else if reply.longVoiceover || reply.Id().Some? {
      assert p == NeedPoll(ra, Handle(reply.longVoiceover, reply.Id()));
      assert q == NeedPoll(rb, Handle(reply.longVoiceover, reply.Id()));
    } else {
      ApartReplied(d, planId, ps, ra, rb, i, reply.payload);
    }
  }

  /** Both runs take the same way through a launch. */
  lemma ApartLaunch(d: Diff, g: Limits, planId: PlanId, ps: PlanStep, a: RunState, b: RunState, i: nat, ev: Events)
    requires Apart(d, a, b) && i < |b.job.steps| && i != d.k && ps.stepId != d.id && d.at == (planId, d.id)
    requires CheckAll(g, a.committed, ps.estimate).None? && Agrees(g, ps, a.committed, b.committed, ev.launch)
    ensures SameWay(d, a, b, AfterLaunch(g, planId, ps, a, i, ev.launch), AfterLaunch(g, planId, ps, b, i, ev.launch))
  {
    if ev.launch.Err? {
      ApartFailed(d, g, planId, ps, a, b, i, ev.launch.error);
    } else {
      ApartAccepted(d, g, planId, ps, a, b, i, ev.launch.value);
    }
  }

  /** Both runs begin a fresh step alike. */
  lemma ApartBegin(d: Diff, g: Limits, planId: PlanId, ps: PlanStep, a: RunState, b: RunState, i: nat)
    requires Apart(d, a, b) && i < |b.job.steps| && i != d.k && ps.stepId != d.id && d.at == (planId, d.id)
    requires (planId, ps.stepId) !in b.rows && !KeyInUse(b.rows, ps.key) && !KeyInUse(a.rows, ps.key)
    requires ps.kind.Generation? ==>
               (CheckAll(g, a.committed, ps.estimate).None? <==> CheckAll(g, b.committed, ps.estimate).None?)
    ensures var p, q := Begin(g, planId, ps, a, i), Begin(g, planId, ps, b, i);
            && p.state.committed == a.committed && q.state.committed == b.committed
            && (q.NeedLaunch? ==> ps.kind.Generation? && CheckAll(g, a.committed, ps.estimate).None?)
            && Apart(d, p.state, q.state) && !q.NeedPoll? && !p.NeedPoll? && |q.state.job.steps| == |b.job.steps|
            && (p.Finished? <==> q.Finished?) && (p.Finished? ==> p.end == q.end)
  {
    FreshClaim(planId, ps, a);
    FreshClaim(planId, ps, b);
    var s := b.job.steps[i].(status := StepStatus.Running, attempts := b.job.steps[i].attempts + 1);
    ApartSetStep(d, a, b, i, s);
    if ps.kind.Local? {
      ApartSetStep(d, a, b, i, s.(localOutput := ps.localOutput, status := StepStatus.Succeeded, cost := 0));
    } else {
      var row := StepRow(ps.key, b.job.jobId, ps.GenerateBody(), None, StepStatus.Pending, 0);
      var at := (planId, ps.stepId);
      assert b.rows[d.at := d.rowA][at := row] == b.rows[at := row][d.at := d.rowA];
    }
  }

  /** A later step keeps the runs apart in the same way. */
  lemma ApartStep(d: Diff, g: Limits, planId: PlanId, ps: PlanStep, a: RunState, b: RunState, i: nat, ev: Events)
    requires Apart(d, a, b) && i < |b.job.steps| && i != d.k && ps.stepId != d.id && d.at == (planId, d.id)
    requires FindStep(a.job.steps, ps.stepId) == FindStep(b.job.steps, ps.stepId) == Some(i)
    requires (planId, ps.stepId) !in b.rows && !KeyInUse(b.rows, ps.key) && !KeyInUse(a.rows, ps.key)
    requires DecidesAlike(g, ps, b, a.committed, ev.launch)
    ensures Apart(d, OneStep(g, planId, ps, a, ev), OneStep(g, planId, ps, b, ev))
    ensures KeepsPurse(a, b, OneStep(g, planId, ps, a, ev), OneStep(g, planId, ps, b, ev))
  {
    if !ToBeRun(b, ps) {
      ApartSetStep(d, a, b, i, b.job.steps[i].(status := StepStatus.Skipped, error := Some(SkippedAfterBudget)));
    } else {
      ApartBegin(d, g, planId, ps, a, b, i);
      var p, q := Begin(g, planId, ps, a, i), Begin(g, planId, ps, b, i);
      if q.Finished? {
        ApartConclude(d, planId, ps, p.state, q.state, i, q.end);
      } else {
        ApartLaunch(d, g, planId, ps, p.state, q.state, i, ev);
        var p' := AfterLaunch(g, planId, ps, p.state, i, ev.launch);
        var q' := AfterLaunch(g, planId, ps, q.state, i, ev.launch);
        if q'.Finished? {
          ApartConclude(d, planId, ps, p'.state, q'.state, i, q'.end);
        } else {
          ApartWaited(d, planId, ps, p'.state, q'.state, i, ev.poll);
        }
      }
    }
  }

  // ---------------------------------------------------------------------------
  // Where the guard decides differently
  // ---------------------------------------------------------------------------

  /** A step the guard stops before the launch leaves a claimed row behind. */
  lemma StopsAtGuard(g: Limits, planId: PlanId, ps: PlanStep, st: RunState, i: nat, ev: Events)
    requires i < |st.job.steps| && FindStep(st.job.steps, ps.stepId) == Some(i) && ToBeRun(st, ps)
    requires (planId, ps.stepId) !in st.rows && !KeyInUse(st.rows, ps.key) && ps.kind.Generation?
    requires CheckAll(g, st.committed, ps.estimate).Some?
    ensures var r := OneStep(g, planId, ps, st, ev);
            (planId, ps.stepId) in r.rows && r.rows[(planId, ps.stepId)].status.Pending?
            && |r.job.steps| == |st.job.steps|
  {
    FreshClaim(planId, ps, st);
  }

  /** The row of a launched step says so, whatever came of it. */
  ghost predicate RowMoved(planId: PlanId, ps: PlanStep, st: RunState) {
    (planId, ps.stepId) in st.rows && !st.rows[(planId, ps.stepId)].status.Pending?
  }

  lemma WaitedRow(planId: PlanId, ps: PlanStep, st: RunState, i: nat, poll: PollEvent)
    requires i < |st.job.steps| && RowMoved(planId, ps, st)
    ensures RowMoved(planId, ps, Waited(planId, ps, st, i, poll))
    ensures |Waited(planId, ps, st, i, poll).job.steps| == |st.job.steps|
    ensures !Waited(planId, ps, st, i, poll).job.steps[i].status.Skipped?
  {
    var (st1, end) := AfterPoll(planId, ps, st, i, poll);
    assert RowMoved(planId, ps, st1);
  }

  lemma ConcludedRow(planId: PlanId, ps: PlanStep, st: RunState, i: nat, end: StepEnd)
    requires i < |st.job.steps| && (planId, ps.stepId) in st.rows && (RowMoved(planId, ps, st) || end.Fault?)
    ensures RowMoved(planId, ps, Conclude(planId, ps, st, i, end))
    ensures |Conclude(planId, ps, st, i, end).job.steps| == |st.job.steps|
    ensures end.BudgetStop? ==> Conclude(planId, ps, st, i, end).job.steps[i].status.Skipped?
    ensures end.Done? ==> Conclude(planId, ps, st, i, end).job.steps[i] == st.job.steps[i]
  {
  }

  /** What a launch that passed the guard leads to: a row that moved, and a step that is
      skipped exactly if the charge itself broke the envelope. */
  lemma LaunchOutcome(g: Limits, planId: PlanId, ps: PlanStep, st: RunState, i: nat, ev: Events)
    requires i < |st.job.steps| && (planId, ps.stepId) in st.rows
    ensures var q := AfterLaunch(g, planId, ps, st, i, ev.launch);
            && !q.NeedLaunch?
            && var r := if q.Finished? then Conclude(planId, ps, q.state, i, q.end)
                        else Waited(planId, ps, q.state, i, ev.poll);
            && RowMoved(planId, ps, r) && |r.job.steps| == |st.job.steps|
            && (ev.launch.Ok? ==>
                  (r.job.steps[i].status.Skipped? <==> Check(g, st.committed, ChargedBy(ps, ev.launch.value)).Some?))
  {
    var q := AfterLaunch(g, planId, ps, st, i, ev.launch);
    if ev.launch.Err? {
      ConcludedRow(planId, ps, q.state, i, q.end);
    } else {
      var reply := ev.launch.value;
      var recorded := Recorded(planId, ps, st, i, reply);
      assert RowMoved(planId, ps, recorded);
      if Check(g, st.committed, ChargedBy(ps, reply)).Some? {
        ConcludedRow(planId, ps, recorded, i, BudgetStop);
      } else if q.NeedPoll? {
        WaitedRow(planId, ps, recorded, i, ev.poll);
      } else if reply.Terminal() {
        WaitedRow(planId, ps, recorded, i, Answered(reply.payload));
        SettlingWait(planId, ps, recorded, i, reply.payload);
      } else {
        var failed := MarkFailed(ps, recorded, i, NoGenerationId);
        assert RowMoved(planId, ps, failed);
        ConcludedRow(planId, ps, failed, i, Done);
      }
    }
  }

  lemma PassesGuard(g: Limits, planId: PlanId, ps: PlanStep, st: RunState, i: nat, ev: Events)
    requires i < |st.job.steps| && FindStep(st.job.steps, ps.stepId) == Some(i) && ToBeRun(st, ps)
    requires (planId, ps.stepId) !in st.rows && !KeyInUse(st.rows, ps.key) && ps.kind.Generation?
    requires CheckAll(g, st.committed, ps.estimate).None?
    ensures var r := OneStep(g, planId, ps, st, ev);
            && RowMoved(planId, ps, r) && |r.job.steps| == |st.job.steps|
            && (ev.launch.Ok? ==>
                  (r.job.steps[i].status.Skipped? <==> Check(g, st.committed, ChargedBy(ps, ev.launch.value)).Some?))
  {
    FreshClaim(planId, ps, st);
    var p := Begin(g, planId, ps, st, i);
    LaunchOutcome(g, planId, ps, p.state, i, ev);
  }

  /** The runs ended up differently on step `i`: in the document or in the ledger. */
  ghost predicate Parted(at: StepRef, i: nat, a: RunState, b: RunState) {
    && i < |a.job.steps| && i < |b.job.steps|
    && ((a.job.steps[i].status.Skipped? <==> !b.job.steps[i].status.Skipped?)
        || (at in a.rows && at in b.rows && (a.rows[at].status.Pending? <==> !b.rows[at].status.Pending?)))
  }

  /** Where the guard decides differently, the runs part for good. */
  lemma DisagreeParts(g: Limits, planId: PlanId, ps: PlanStep, a: RunState, b: RunState, i: nat, ev: Events)
    requires i < |a.job.steps| == |b.job.steps| && (ToBeRun(a, ps) <==> ToBeRun(b, ps))
    requires FindStep(a.job.steps, ps.stepId) == FindStep(b.job.steps, ps.stepId) == Some(i)
    requires (planId, ps.stepId) !in a.rows && !KeyInUse(a.rows, ps.key)
    requires (planId, ps.stepId) !in b.rows && !KeyInUse(b.rows, ps.key)
    requires !DecidesAlike(g, ps, b, a.committed, ev.launch)
    ensures Parted((planId, ps.stepId), i, OneStep(g, planId, ps, a, ev), OneStep(g, planId, ps, b, ev))
  {
    if CheckAll(g, a.committed, ps.estimate).None? {
      PassesGuard(g, planId, ps, a, i, ev);
    } else {
      StopsAtGuard(g, planId, ps, a, i, ev);
    }
    if CheckAll(g, b.committed, ps.estimate).None? {
      PassesGuard(g, planId, ps, b, i, ev);
    } else {
      StopsAtGuard(g, planId, ps, b, i, ev);
    }
  }
}
