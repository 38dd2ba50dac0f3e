/** How one turn of the executor can end, told on the fields of step, row, guard and run. */
module Endings {
  import opened Money
  import opened Domain
  import opened Budget
  import opened Settlement
  import opened Ledger
  import opened WireModel
  import opened Execution
  import opened Spending

  /** What a launch was charged: what the reply names, or else the planned price. */
  ghost predicate IsCharge(ps: PlanStep, reply: LaunchReply, x: Amount) {
    && (reply.payload.cost.Some? ==> x == reply.payload.cost.value)
    && (reply.payload.cost.None? ==> x == ps.estimate)
  }

  /** The id a launch gave: the generation's, or the plain one, or the voiceover's. */
  ghost predicate IsId(reply: LaunchReply, id: Option<nat>) {
    && (reply.generationId.Some? ==> id == reply.generationId)
    && (reply.generationId.None? && reply.plainId.Some? ==> id == reply.plainId)
    && (reply.generationId.None? && reply.plainId.None? ==> id == reply.voiceoverId)
  }

  /** The errors that stop a plan: the account or the day is exhausted. */
  ghost predicate OutOfMoney(e: VibeError) {
    e.Api? && (e.code == "insufficient_balance" || e.code == "daily_spend_limit_exceeded" || e.status == 402)
  }

  /** The plan step is step `i` of the job, and the loop has come to it: it is neither done
      nor behind an abort. */
  ghost predicate ItsTurn(st: RunState, ps: PlanStep, i: nat) {
    && IsStep(st.job.steps, ps.stepId, i) && !st.aborted && !st.refused
    && st.job.steps[i].status != StepStatus.Succeeded
  }

  /** The ledger lets this step be claimed and knows of no launch for it. */
  ghost predicate Claimable(planId: PlanId, ps: PlanStep, rows: Rows) {
    var at := (planId, ps.stepId);
    if at in rows then
      rows[at].key == ps.key && rows[at].body == Body(ps.format, ps.model, ps.params, ps.key)
      && rows[at].generationId == None
    else forall r :: r in rows ==> rows[r].key != ps.key
  }

  /** The ledger already knows the step's launch by its id. */
  ghost predicate Resumable(planId: PlanId, ps: PlanStep, rows: Rows, id: nat) {
    var at := (planId, ps.stepId);
    && at in rows && rows[at].key == ps.key && rows[at].body == Body(ps.format, ps.model, ps.params, ps.key)
    && rows[at].generationId == Some(id)
  }

  /** Only step `i` and the step's own row were touched; the step was attempted once more. */
  ghost predicate TouchesOnly(planId: PlanId, ps: PlanStep, a: RunState, b: RunState, i: nat)
    requires i < |a.job.steps|
  {
    var at := (planId, ps.stepId);
    && |b.job.steps| == |a.job.steps|
    && (forall k :: 0 <= k < |a.job.steps| && k != i ==> b.job.steps[k] == a.job.steps[k])
    && (forall r :: r in b.rows && r != at ==> r in a.rows && b.rows[r] == a.rows[r])
    && (forall r :: r in a.rows ==> r in b.rows)
    && b.job.steps[i].stepId == a.job.steps[i].stepId && b.job.steps[i].attempts == a.job.steps[i].attempts + 1
  }

  /** And the job's total is that of its steps. */
  ghost predicate OnlyItsOwn(planId: PlanId, ps: PlanStep, a: RunState, b: RunState, i: nat)
    requires i < |a.job.steps|
  {
    TouchesOnly(planId, ps, a, b, i) && b.job.cost == TotalCost(b.job.steps)
  }

  /** The step ended with an error, which the job reports too. */
  ghost predicate EndedBadly(b: RunState, ps: PlanStep, i: nat, status: StepStatus, why: Reason) {
    && i < |b.job.steps| && b.job.steps[i].status == status && b.job.steps[i].error == Some(why)
    && JobError(Some(ps.stepId), why) in b.job.errors
  }

  /** One launch was sent, of this step, and it was charged `charged`. */
  ghost predicate LaunchedOnce(ps: PlanStep, a: RunState, b: RunState, i: nat, charged: Amount) {
    && |b.launches| == |a.launches| + 1 && b.launches[..|a.launches|] == a.launches
    && var l := b.launches[|a.launches|];
    && IsLaunchOf(ps, l) && l.at == i && l.before == a.committed && l.charged == charged
  }

  /** It is the turn of a billable step that may be claimed and paid for. */
  ghost predicate ReadyToLaunch(g: Limits, planId: PlanId, ps: PlanStep, st: RunState, i: nat) {
    && i < |st.job.steps| && ps.kind == Generation && ItsTurn(st, ps, i)
    && Claimable(planId, ps, st.rows) && MaySpend(g, st.committed, ps.estimate)
  }

  lemma TurnIsFound(st: RunState, ps: PlanStep, i: nat)
    requires ItsTurn(st, ps, i)
    ensures FindStep(st.job.steps, ps.stepId) == Some(i) && ToBeRun(st, ps)
  {
  }

  /** Behind an abort the step is marked skipped; a finished step is passed over, and so is
      one the job does not have. Nothing else happens. */
  lemma StepIsPassedOver(g: Limits, planId: PlanId, ps: PlanStep, st: RunState, ev: Events)
    requires !(exists i: nat :: ItsTurn(st, ps, i))
    ensures var r := OneStep(g, planId, ps, st, ev);
            && r.rows == st.rows && r.launches == st.launches && r.committed == st.committed
            && r.aborted == st.aborted && r.refused == st.refused && r.job.errors == st.job.errors
            && |r.job.steps| == |st.job.steps|
            && forall k: nat :: k < |st.job.steps| ==>
                 r.job.steps[k] == if st.aborted && !st.refused && IsStep(st.job.steps, ps.stepId, k) then
                                     st.job.steps[k].(status := StepStatus.Skipped, error := Some(SkippedAfterBudget))
                                   else st.job.steps[k]
  {
    var found := FindStep(st.job.steps, ps.stepId);
    if found.Some? {
      assert IsStep(st.job.steps, ps.stepId, found.value);
      assert !ItsTurn(st, ps, found.value);
    }
  }

  /** A local step succeeds with the plan's own output, for nothing. */
  lemma LocalStepIsFree(g: Limits, planId: PlanId, ps: PlanStep, st: RunState, i: nat, ev: Events)
    requires ItsTurn(st, ps, i) && ps.kind == Local
    ensures var r := OneStep(g, planId, ps, st, ev);
            && OnlyItsOwn(planId, ps, st, r, i)
            && r.job.steps[i].status == StepStatus.Succeeded && r.job.steps[i].localOutput == ps.localOutput
            && r.job.steps[i].cost == 0 && r.launches == st.launches && r.committed == st.committed
            && !r.aborted && !r.refused && r.job.errors == st.job.errors && r.rows.Keys == st.rows.Keys
            && ((planId, ps.stepId) in r.rows ==>
                  && r.rows[(planId, ps.stepId)].status == StepStatus.Succeeded
                  && r.rows[(planId, ps.stepId)].cost == 0)
  {
    TurnIsFound(st, ps, i);
  }

  /** Where the ledger holds the step under another key or body, or the key under another
      step, the run is broken off: nothing is launched and no row is written. */
  lemma ForeignClaimRefuses(g: Limits, planId: PlanId, ps: PlanStep, st: RunState, i: nat, ev: Events)
    requires ItsTurn(st, ps, i) && ps.kind == Generation && !Claimable(planId, ps, st.rows)
    requires forall id: nat :: !Resumable(planId, ps, st.rows, id)
    ensures var r := OneStep(g, planId, ps, st, ev);
            && OnlyItsOwn(planId, ps, st, r, i) && r.refused && !r.aborted && r.rows == st.rows
            && r.launches == st.launches && r.committed == st.committed
            && r.job.steps[i].status == StepStatus.Running && r.job.steps[i].cost == st.job.steps[i].cost
  {
    TurnIsFound(st, ps, i);
    var at := (planId, ps.stepId);
    if at in st.rows && st.rows[at].generationId.Some? {
      assert !Resumable(planId, ps, st.rows, st.rows[at].generationId.value);
    }
  }

  /** A step the guard does not let pass is skipped, and the plan stops: nothing is
      launched, nothing charged. */
  lemma UnaffordableStops(g: Limits, planId: PlanId, ps: PlanStep, st: RunState, i: nat, ev: Events)
    requires ItsTurn(st, ps, i) && ps.kind == Generation && Claimable(planId, ps, st.rows)
    requires !MaySpend(g, st.committed, ps.estimate)
    ensures var r := OneStep(g, planId, ps, st, ev);
            && OnlyItsOwn(planId, ps, st, r, i) && EndedBadly(r, ps, i, StepStatus.Skipped, OverBudget)
            && r.aborted && !r.refused && r.launches == st.launches && r.committed == st.committed
            && r.job.steps[i].cost == st.job.steps[i].cost && Claimable(planId, ps, r.rows)
  {
    TurnIsFound(st, ps, i);
    RefusalsMean(g, st.committed, ps.estimate);
  }

  /** A step whose launch the ledger knows is never launched again: it is waited for by the
      id it has, and ends by what the wait brings, from the cost it had. */
  lemma ResumedIsOnlyWaitedFor(g: Limits, planId: PlanId, ps: PlanStep, st: RunState, i: nat, ev: Events, id: nat)
    requires ItsTurn(st, ps, i) && ps.kind == Generation && Resumable(planId, ps, st.rows, id)
    ensures var r := OneStep(g, planId, ps, st, ev);
            && OnlyItsOwn(planId, ps, st, r, i) && r.launches == st.launches && !r.refused
            && r.job.steps[i].generationId == Some(id)
            && (ev.poll.Answered? ==>
                  && IsFigure(st.job.steps[i].cost, ev.poll.payload, r.job.steps[i].cost)
                  && (r.job.steps[i].status == StepStatus.Succeeded <==> ev.poll.payload.phase == Success)
                  && r.rows[(planId, ps.stepId)].cost == r.job.steps[i].cost && !r.aborted)
            && (ev.poll.TimedOut? ==>
                  && EndedBadly(r, ps, i, StepStatus.Failed, PollTimeout) && r.rows == st.rows && !r.aborted
                  && r.job.steps[i].cost == st.job.steps[i].cost && r.committed == st.committed)
            && (ev.poll.Faulted? ==>
                  && EndedBadly(r, ps, i, StepStatus.Failed, Upstream(ev.poll.error))
                  && r.job.steps[i].cost == st.job.steps[i].cost && r.committed == st.committed
                  && (r.aborted <==> OutOfMoney(ev.poll.error)))
    ensures Begin(g, planId, ps, st, i).NeedPoll?
            && Begin(g, planId, ps, st, i).handle == Handle(st.job.steps[i].longVoiceover, Some(id))
  {
    TurnIsFound(st, ps, i);
    var w := Begin(g, planId, ps, st, i).state;
    if ev.poll.Answered? {
      VerdictMeans(w.job.steps[i], ev.poll.payload);
    }
  }

  // ---------------------------------------------------------------------------
  // After the launch
  // ---------------------------------------------------------------------------

  /** A launch that is refused costs nothing and fails its step; the plan stops exactly if
      the money or the day ran out. */
  lemma RefusedLaunchCostsNothing(g: Limits, planId: PlanId, ps: PlanStep, st: RunState, i: nat, ev: Events)
    requires ReadyToLaunch(g, planId, ps, st, i) && ev.launch.Err?
    ensures var r, at := OneStep(g, planId, ps, st, ev), (planId, ps.stepId);
            && OnlyItsOwn(planId, ps, st, r, i)
            && EndedBadly(r, ps, i, StepStatus.Failed, Upstream(ev.launch.error))
            && r.job.steps[i].cost == st.job.steps[i].cost && r.committed == st.committed
            && LaunchedOnce(ps, st, r, i, 0) && !r.refused && (r.aborted <==> OutOfMoney(ev.launch.error))
            && at in r.rows && r.rows[at].status == StepStatus.Failed && r.rows[at].generationId == None
            && r.rows[at].cost == (if at in st.rows then st.rows[at].cost else 0)
  {
    TurnIsFound(st, ps, i);
    RefusalsMean(g, st.committed, ps.estimate);
  }

  /** What every accepted launch leaves behind: the charge and the id, on the step, in the
      ledger and with the guard. */
  ghost predicate PaidFor(planId: PlanId, ps: PlanStep, reply: LaunchReply, a: RunState, b: RunState, i: nat,
                          status: StepStatus) {
    var at := (planId, ps.stepId);
    && i < |b.job.steps| && at in b.rows
    && IsCharge(ps, reply, b.job.steps[i].cost) && IsId(reply, b.job.steps[i].generationId)
    && b.job.steps[i].longVoiceover == reply.longVoiceover
    && b.rows[at].cost == b.job.steps[i].cost && b.rows[at].generationId == b.job.steps[i].generationId
    && b.rows[at].status == status && b.committed == a.committed + b.job.steps[i].cost
    && LaunchedOnce(ps, a, b, i, b.job.steps[i].cost)
  }

  /** The state in which a reply has been written down. */
  ghost predicate IsPaid(planId: PlanId, ps: PlanStep, reply: LaunchReply, st: RunState, w: RunState, i: nat)
    requires i < |st.job.steps|
  {
    && TouchesOnly(planId, ps, st, w, i) && PaidFor(planId, ps, reply, st, w, i, StepStatus.Running)
    && !w.aborted && !w.refused
  }

  lemma RecordedIsPaid(g: Limits, planId: PlanId, ps: PlanStep, st: RunState, i: nat, reply: LaunchReply)
    requires ReadyToLaunch(g, planId, ps, st, i)
    ensures Begin(g, planId, ps, st, i).NeedLaunch?
    ensures IsPaid(planId, ps, reply, st, Recorded(planId, ps, Begin(g, planId, ps, st, i).state, i, reply), i)
  {
    RefusalsMean(g, st.committed, ps.estimate);
  }

  lemma StopConcludes(planId: PlanId, ps: PlanStep, reply: LaunchReply, st: RunState, w: RunState, i: nat)
    requires i < |st.job.steps| && IsPaid(planId, ps, reply, st, w, i)
    ensures var r := Conclude(planId, ps, w, i, BudgetStop);
            && OnlyItsOwn(planId, ps, st, r, i) && EndedBadly(r, ps, i, StepStatus.Skipped, OverBudget)
            && PaidFor(planId, ps, reply, st, r, i, StepStatus.Running) && r.aborted && !r.refused
  {
  }

  lemma FailureConcludes(planId: PlanId, ps: PlanStep, reply: LaunchReply, st: RunState, w: RunState, i: nat,
                         why: Reason)
    requires i < |st.job.steps| && IsPaid(planId, ps, reply, st, w, i)
    ensures var r := Conclude(planId, ps, MarkFailed(ps, w, i, why), i, Done);
            && OnlyItsOwn(planId, ps, st, r, i) && EndedBadly(r, ps, i, StepStatus.Failed, why)
            && PaidFor(planId, ps, reply, st, r, i, StepStatus.Running) && !r.aborted && !r.refused
  {
  }

  lemma FaultConcludes(planId: PlanId, ps: PlanStep, reply: LaunchReply, st: RunState, w: RunState, i: nat,
                       e: VibeError)
    requires i < |st.job.steps| && IsPaid(planId, ps, reply, st, w, i)
    ensures var r := Conclude(planId, ps, w, i, Fault(e));
            && OnlyItsOwn(planId, ps, st, r, i) && EndedBadly(r, ps, i, StepStatus.Failed, Upstream(e))
            && PaidFor(planId, ps, reply, st, r, i, StepStatus.Failed) && !r.refused && (r.aborted <==> OutOfMoney(e))
  {
  }

  /** A charge above what is left is written down as it is, and the plan stops. */
  lemma OverchargeStops(g: Limits, planId: PlanId, ps: PlanStep, st: RunState, i: nat, ev: Events, charged: Amount)
    requires ReadyToLaunch(g, planId, ps, st, i) && ev.launch.Ok? && IsCharge(ps, ev.launch.value, charged)
    requires charged < 0 || st.committed + charged > g.budget || st.committed + charged > g.spendable
    ensures var r := OneStep(g, planId, ps, st, ev);
            && OnlyItsOwn(planId, ps, st, r, i) && EndedBadly(r, ps, i, StepStatus.Skipped, OverBudget)
            && PaidFor(planId, ps, ev.launch.value, st, r, i, StepStatus.Running) && r.aborted && !r.refused
  {
    TurnIsFound(st, ps, i);
    RecordedIsPaid(g, planId, ps, st, i, ev.launch.value);
    var st1 := Begin(g, planId, ps, st, i).state;
    var w := Recorded(planId, ps, st1, i, ev.launch.value);
    BeginCommitsNothing(g, planId, ps, st, i);
    OverchargeIsSeen(g, planId, ps, st1, i, ev.launch.value, charged);
    StopConcludes(planId, ps, ev.launch.value, st, w, i);
  }

  lemma OverchargeIsSeen(g: Limits, planId: PlanId, ps: PlanStep, st: RunState, i: nat, reply: LaunchReply,
                         charged: Amount)
    requires i < |st.job.steps| && IsCharge(ps, reply, charged)
    requires charged < 0 || st.committed + charged > g.budget || st.committed + charged > g.spendable
    ensures AfterLaunch(g, planId, ps, st, i, Ok(reply)) == Finished(Recorded(planId, ps, st, i, reply), BudgetStop)
  {
  }

  /** The charge fits, and there is something to wait for. */
  ghost predicate Waits(g: Limits, planId: PlanId, ps: PlanStep, st: RunState, i: nat, reply: LaunchReply) {
    && ReadyToLaunch(g, planId, ps, st, i) && ChargeFits(g, ps, st, reply)
    && (reply.longVoiceover || !IsId(reply, None))
  }

  ghost predicate ChargeFits(g: Limits, ps: PlanStep, st: RunState, reply: LaunchReply) {
    exists charged :: IsCharge(ps, reply, charged)
                      && 0 <= charged && st.committed + charged <= g.budget && st.committed + charged <= g.spendable
  }

  /** What is waited for is asked about by the id the launch gave. */
  lemma WaitIsByTheGivenId(g: Limits, planId: PlanId, ps: PlanStep, st: RunState, i: nat, ev: Events)
    requires ev.launch.Ok? && Waits(g, planId, ps, st, i, ev.launch.value)
    ensures FindStep(st.job.steps, ps.stepId) == Some(i) && Begin(g, planId, ps, st, i).NeedLaunch?
    ensures var st1 := Begin(g, planId, ps, st, i).state;
            var q := AfterLaunch(g, planId, ps, st1, i, ev.launch);
            && q.NeedPoll? && IsId(ev.launch.value, q.handle.id) && q.handle.voiceover == ev.launch.value.longVoiceover
            && q.state == Recorded(planId, ps, st1, i, ev.launch.value)
  {
    TurnIsFound(st, ps, i);
    RefusalsMean(g, st.committed, ps.estimate);
  }

  lemma WaitEndsTheTurn(g: Limits, planId: PlanId, ps: PlanStep, st: RunState, i: nat, ev: Events)
    requires ev.launch.Ok? && Waits(g, planId, ps, st, i, ev.launch.value)
    ensures Begin(g, planId, ps, st, i).NeedLaunch?
    ensures var w := Recorded(planId, ps, Begin(g, planId, ps, st, i).state, i, ev.launch.value);
            && OneStep(g, planId, ps, st, ev) == Waited(planId, ps, w, i, ev.poll)
            && IsPaid(planId, ps, ev.launch.value, st, w, i)
  {
    TurnIsFound(st, ps, i);
    WaitIsByTheGivenId(g, planId, ps, st, i, ev);
    RecordedIsPaid(g, planId, ps, st, i, ev.launch.value);
  }

  /** A wait without an end fails the step at its charge; the row stays running, for the
      sweep to find. */
  lemma TimeoutLeavesItRunning(g: Limits, planId: PlanId, ps: PlanStep, st: RunState, i: nat, ev: Events)
    requires ev.launch.Ok? && Waits(g, planId, ps, st, i, ev.launch.value) && ev.poll == TimedOut
    ensures var r := OneStep(g, planId, ps, st, ev);
            && OnlyItsOwn(planId, ps, st, r, i) && EndedBadly(r, ps, i, StepStatus.Failed, PollTimeout)
            && PaidFor(planId, ps, ev.launch.value, st, r, i, StepStatus.Running) && !r.aborted && !r.refused
  {
    WaitEndsTheTurn(g, planId, ps, st, i, ev);
    var w := Recorded(planId, ps, Begin(g, planId, ps, st, i).state, i, ev.launch.value);
    FailureConcludes(planId, ps, ev.launch.value, st, w, i, PollTimeout);
  }

  /** An error while waiting fails the step at its charge and closes the row: no sweep will
      ask about it again. */
  lemma ErrorClosesTheRow(g: Limits, planId: PlanId, ps: PlanStep, st: RunState, i: nat, ev: Events)
    requires ev.launch.Ok? && Waits(g, planId, ps, st, i, ev.launch.value) && ev.poll.Faulted?
    ensures var r := OneStep(g, planId, ps, st, ev);
            && OnlyItsOwn(planId, ps, st, r, i)
            && EndedBadly(r, ps, i, StepStatus.Failed, Upstream(ev.poll.error))
            && PaidFor(planId, ps, ev.launch.value, st, r, i, StepStatus.Failed) && !r.refused
            && (r.aborted <==> OutOfMoney(ev.poll.error))
  {
    WaitEndsTheTurn(g, planId, ps, st, i, ev);
    var w := Recorded(planId, ps, Begin(g, planId, ps, st, i).state, i, ev.launch.value);
    FaultConcludes(planId, ps, ev.launch.value, st, w, i, ev.poll.error);
  }

  lemma MissingIdIsSeen(g: Limits, planId: PlanId, ps: PlanStep, st: RunState, i: nat, reply: LaunchReply)
    requires i < |st.job.steps| && ChargeFits(g, ps, st, reply) && !reply.longVoiceover && IsId(reply, None)
    requires reply.payload.phase == Working && reply.payload.text == None
    ensures AfterLaunch(g, planId, ps, st, i, Ok(reply)) ==
            Finished(MarkFailed(ps, Recorded(planId, ps, st, i, reply), i, NoGenerationId), Done)
  {
  }

  /** A reply that brings neither an id nor a result fails the step at its charge. */
  lemma NoIdFails(g: Limits, planId: PlanId, ps: PlanStep, st: RunState, i: nat, ev: Events)
    requires ReadyToLaunch(g, planId, ps, st, i) && ev.launch.Ok? && ChargeFits(g, ps, st, ev.launch.value)
    requires !ev.launch.value.longVoiceover && IsId(ev.launch.value, None)
    requires ev.launch.value.payload.phase == Working && ev.launch.value.payload.text == None
    ensures var r := OneStep(g, planId, ps, st, ev);
            && OnlyItsOwn(planId, ps, st, r, i) && EndedBadly(r, ps, i, StepStatus.Failed, NoGenerationId)
            && PaidFor(planId, ps, ev.launch.value, st, r, i, StepStatus.Running) && !r.aborted && !r.refused
  {
    TurnIsFound(st, ps, i);
    RecordedIsPaid(g, planId, ps, st, i, ev.launch.value);
    var st1 := Begin(g, planId, ps, st, i).state;
    BeginCommitsNothing(g, planId, ps, st, i);
    MissingIdIsSeen(g, planId, ps, st1, i, ev.launch.value);
    FailureConcludes(planId, ps, ev.launch.value, st, Recorded(planId, ps, st1, i, ev.launch.value), i, NoGenerationId);
  }

  lemma BeginCommitsNothing(g: Limits, planId: PlanId, ps: PlanStep, st: RunState, i: nat)
    requires i < |st.job.steps|
    ensures Begin(g, planId, ps, st, i).state.committed == st.committed
  {
  }

  // ---------------------------------------------------------------------------
  // A verdict
  // ---------------------------------------------------------------------------

  /** Verdict `v` reaches the step: it was waited for, or the launch was answered with it at
      once, the charge fitting the envelope. */
  ghost predicate Hears(g: Limits, planId: PlanId, ps: PlanStep, st: RunState, i: nat, ev: Events, v: Payload) {
    && ev.launch.Ok? && ReadyToLaunch(g, planId, ps, st, i) && ChargeFits(g, ps, st, ev.launch.value)
    && var reply := ev.launch.value;
    && if reply.longVoiceover || !IsId(reply, None) then ev.poll == Answered(v)
       else (reply.payload.phase != Working || reply.payload.text != None) && v == reply.payload
  }

  /** Step, row and run after the verdict: one figure, determined by charge and verdict. */
  ghost predicate Booked(planId: PlanId, ps: PlanStep, reply: LaunchReply, v: Payload, r: RunState, i: nat) {
    var at := (planId, ps.stepId);
    && i < |r.job.steps| && at in r.rows
    && var s, row := r.job.steps[i], r.rows[at];
    && (exists charged :: IsCharge(ps, reply, charged) && IsFigure(charged, v, s.cost))
    && (s.status == StepStatus.Succeeded <==> v.phase == Success)
    && (s.status == StepStatus.Failed <==> v.phase != Success)
    && s.refunded == v.refunded && (v.phase == Success && v.resultUrl.Some? ==> s.resultUrl == v.resultUrl)
    && row.cost == s.cost && row.status == s.status
    && IsId(reply, s.generationId) && row.generationId == s.generationId
    && (v.phase != Success ==> EndedBadly(r, ps, i, StepStatus.Failed, Verdict(v.message)))
    && !r.aborted && !r.refused
  }

  lemma SettledIsBooked(planId: PlanId, ps: PlanStep, reply: LaunchReply, st: RunState, w: RunState, i: nat, v: Payload)
    requires i < |st.job.steps| && IsPaid(planId, ps, reply, st, w, i)
    ensures var r := Conclude(planId, ps, Settle(planId, ps, w, i, v), i, Done);
            && OnlyItsOwn(planId, ps, st, r, i) && Booked(planId, ps, reply, v, r, i)
            && (0 <= st.committed ==> r.committed == st.committed + r.job.steps[i].cost)
            && r.launches == w.launches
  {
    VerdictMeans(w.job.steps[i], v);
    assert IsFigure(w.job.steps[i].cost, v, Settled(w.job.steps[i], v).cost);
  }

  lemma ImmediateResultIsSeen(g: Limits, planId: PlanId, ps: PlanStep, st: RunState, i: nat, reply: LaunchReply)
    requires i < |st.job.steps| && ChargeFits(g, ps, st, reply) && !reply.longVoiceover && IsId(reply, None)
    requires reply.payload.phase != Working || reply.payload.text != None
    ensures AfterLaunch(g, planId, ps, st, i, Ok(reply)) ==
            Finished(Settle(planId, ps, Recorded(planId, ps, st, i, reply), i, reply.payload), Done)
  {
  }

  /** A verdict, waited for or immediate, is booked as it was heard; where nothing negative
      was committed, the commitment moves by exactly the booked figure. */
  lemma VerdictIsWrittenDown(g: Limits, planId: PlanId, ps: PlanStep, st: RunState, i: nat, ev: Events, v: Payload)
    requires Hears(g, planId, ps, st, i, ev, v)
    ensures var r := OneStep(g, planId, ps, st, ev);
            && OnlyItsOwn(planId, ps, st, r, i) && Booked(planId, ps, ev.launch.value, v, r, i)
            && (0 <= st.committed ==> r.committed == st.committed + r.job.steps[i].cost)
            && exists charged :: IsCharge(ps, ev.launch.value, charged) && LaunchedOnce(ps, st, r, i, charged)
  {
    var reply := ev.launch.value;
    TurnIsFound(st, ps, i);
    RecordedIsPaid(g, planId, ps, st, i, reply);
    BeginCommitsNothing(g, planId, ps, st, i);
    var st1 := Begin(g, planId, ps, st, i).state;
    var w := Recorded(planId, ps, st1, i, reply);
    SettledIsBooked(planId, ps, reply, st, w, i, v);
    if reply.longVoiceover || !IsId(reply, None) {
      WaitEndsTheTurn(g, planId, ps, st, i, ev);
      SettlingWait(planId, ps, w, i, v);
    } else {
      ImmediateResultIsSeen(g, planId, ps, st1, i, reply);
    }
    assert LaunchedOnce(ps, st, OneStep(g, planId, ps, st, ev), i, w.job.steps[i].cost);
  }

  /** Every turn ends in one of the ways told above. */
  lemma NoOtherEnd(g: Limits, planId: PlanId, ps: PlanStep, st: RunState, ev: Events)
    ensures || !(exists i: nat :: ItsTurn(st, ps, i))
            || exists i: nat :: ItsTurn(st, ps, i) &&
                 (|| ps.kind == Local
                  || (!Claimable(planId, ps, st.rows) && forall id: nat :: !Resumable(planId, ps, st.rows, id))
                  || (exists id: nat :: Resumable(planId, ps, st.rows, id))
                  || !MaySpend(g, st.committed, ps.estimate)
                  || (ReadyToLaunch(g, planId, ps, st, i) &&
                      (|| ev.launch.Err?
                       || !ChargeFits(g, ps, st, ev.launch.value)
                       || (Waits(g, planId, ps, st, i, ev.launch.value) && !ev.poll.Answered?)
                       || (exists v :: Hears(g, planId, ps, st, i, ev, v))
                       || (!ev.launch.value.longVoiceover && IsId(ev.launch.value, None)
                           && ev.launch.value.payload.phase == Working && ev.launch.value.payload.text == None))))
  {
    if i: nat :| ItsTurn(st, ps, i) {
      if ReadyToLaunch(g, planId, ps, st, i) && ev.launch.Ok? && ChargeFits(g, ps, st, ev.launch.value) {
        var reply := ev.launch.value;
        if reply.longVoiceover || !IsId(reply, None) {
          assert ev.poll.Answered? ==> Hears(g, planId, ps, st, i, ev, ev.poll.payload);
        } else {
          assert reply.payload.phase != Working || reply.payload.text != None ==>
            Hears(g, planId, ps, st, i, ev, reply.payload);
        }
      }
    }
  }
}
