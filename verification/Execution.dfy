/** What one run of a job does, as a function of what the wire answers.

    A step runs in three phases, cut where it talks to the platform: `Begin` up to the
    launch, `AfterLaunch` up to the wait, `AfterPoll` to the end. */
module Execution {
  import opened Money
  import opened Domain
  import opened Budget
  import opened Settlement
  import opened Ledger
  import opened WireModel

  datatype PollEvent = Answered(payload: Payload) | TimedOut | Faulted(error: VibeError)

  /** What the wire did to one step; the second part only matters if it was waited for. */
  datatype Events = Events(launch: Result<LaunchReply, VibeError>, poll: PollEvent)

  /** One call of `/generate`: the step's place in the job, the commitment before the
      call, the planned price and what the platform said it charged. */
  datatype Launch = Launch(at: nat, body: Body, before: Amount, estimate: Amount, charged: Amount)

  datatype RunState = RunState(
    job: Job, committed: Amount, rows: Rows, launches: seq<Launch>, aborted: bool, refused: bool)

  datatype StepEnd = Done | BudgetStop | Fault(error: VibeError) | Refused

  datatype Progress =
    | Finished(state: RunState, end: StepEnd)
    | NeedLaunch(state: RunState)
    | NeedPoll(state: RunState, handle: Handle)

  function SetStep(st: RunState, i: nat, s: JobStep): RunState
    requires i < |st.job.steps|
  {
    st.(job := st.job.(steps := st.job.steps[i := s]))
  }

  function AddError(st: RunState, id: StepId, reason: Reason): RunState {
    st.(job := st.job.(errors := st.job.errors + [JobError(Some(id), reason)]))
  }

  /** Inside a step neither the job's identity nor the loop's own flags move. */
  predicate SameRun(a: RunState, b: RunState) {
    && |a.job.steps| == |b.job.steps| && a.job.jobId == b.job.jobId && a.job.planId == b.job.planId
    && a.aborted == b.aborted && a.refused == b.refused
  }

  function Begin(g: Limits, planId: PlanId, ps: PlanStep, st: RunState, i: nat): (p: Progress)
    requires i < |st.job.steps|
    ensures SameRun(st, p.state)
  {
    var s := st.job.steps[i].(status := StepStatus.Running, attempts := st.job.steps[i].attempts + 1);
    var at := (planId, ps.stepId);
    if ps.kind.Local? then
      var done := s.(localOutput := ps.localOutput, status := StepStatus.Succeeded, cost := 0);
      Finished(SetStep(st, i, done).(rows := UpdateStep(st.rows, at, StepStatus.Succeeded, None, Some(0))), Done)
    else
      var claim := ClaimStep(st.rows, at, st.job.jobId, ps.key, ps.GenerateBody());
      if claim.Err? then Finished(SetStep(st, i, s), Refused)
      else
        var claimed := SetStep(st, i, s).(rows := claim.value);
        var id := claim.value[at].generationId;
        if id.Some? then
          // Already launched in an earlier run: never pay twice, only wait.
          NeedPoll(SetStep(claimed, i, s.(generationId := id)), Handle(s.longVoiceover, id))
        else if CheckAll(g, st.committed, ps.estimate).Some? then Finished(claimed, BudgetStop)
        else NeedLaunch(claimed)
  }

  function ChargedBy(ps: PlanStep, reply: LaunchReply): Amount {
    GetOr(reply.payload.cost, ps.estimate)
  }

  function Logged(st: RunState, ps: PlanStep, i: nat, charged: Amount): RunState {
    st.(launches := st.launches + [Launch(i, ps.GenerateBody(), st.committed, ps.estimate, charged)])
  }

  /** What a launch reply leaves on the step. */
  function LaunchedStep(s: JobStep, ps: PlanStep, reply: LaunchReply): JobStep {
    s.(generationId := reply.Id(), longVoiceover := reply.longVoiceover,
       text := Or(reply.payload.text, s.text), cost := ChargedBy(ps, reply))
  }

  /** The reply of a launch written down: on the step, in the ledger, on the guard. */
  function Recorded(planId: PlanId, ps: PlanStep, st: RunState, i: nat, reply: LaunchReply): RunState
    requires i < |st.job.steps|
  {
    var charged := ChargedBy(ps, reply);
    SetStep(Logged(st, ps, i, charged), i, LaunchedStep(st.job.steps[i], ps, reply))
    .(rows := UpdateStep(st.rows, (planId, ps.stepId), StepStatus.Running, reply.Id(), Some(charged)),
      committed := st.committed + charged)
  }

  function AfterLaunch(g: Limits, planId: PlanId, ps: PlanStep, st: RunState, i: nat,
                       launch: Result<LaunchReply, VibeError>): (p: Progress)
    requires i < |st.job.steps|
    ensures SameRun(st, p.state) && !p.NeedLaunch?
  {
    if launch.Err? then Finished(Logged(st, ps, i, 0), Fault(launch.error))
    else
      var reply := launch.value;
      var recorded := Recorded(planId, ps, st, i, reply);
      if Check(g, st.committed, ChargedBy(ps, reply)).Some? then
        // Already charged upstream: recorded honestly, and the plan stops.
        Finished(recorded, BudgetStop)
      else if reply.longVoiceover then NeedPoll(recorded, Handle(true, reply.Id()))
      else if reply.Id().Some? then NeedPoll(recorded, Handle(false, reply.Id()))
      else if reply.Terminal() then Finished(Settle(planId, ps, recorded, i, reply.payload), Done)
      else Finished(MarkFailed(ps, recorded, i, NoGenerationId), Done)
  }

  function MarkFailed(ps: PlanStep, st: RunState, i: nat, reason: Reason): RunState
    requires i < |st.job.steps|
  {
    AddError(SetStep(st, i, st.job.steps[i].(status := StepStatus.Failed, error := Some(reason))), ps.stepId, reason)
  }

  function Recommitted(committed: Amount, previous: Amount, final: Amount): Amount {
    if final == previous then committed else Released(committed, previous) + final
  }

  /** Records the terminal outcome of a step and reconciles the money spent. */
  function Settle(planId: PlanId, ps: PlanStep, st: RunState, i: nat, v: Payload): RunState
    requires i < |st.job.steps|
  {
    var s := Settled(st.job.steps[i], v);
    var settled := SetStep(st, i, s)
                   .(committed := Recommitted(st.committed, st.job.steps[i].cost, s.cost),
                     rows := UpdateStep(st.rows, (planId, ps.stepId), s.status, s.generationId, Some(s.cost)));
    if s.status.Failed? then AddError(settled, ps.stepId, s.error.value) else settled
  }

  function AfterPoll(planId: PlanId, ps: PlanStep, st: RunState, i: nat, poll: PollEvent): (r: (RunState, StepEnd))
    requires i < |st.job.steps|
    ensures SameRun(st, r.0)
  {
    match poll
    case Answered(v) => (Settle(planId, ps, st, i, v), Done)
    case TimedOut => (MarkFailed(ps, st, i, PollTimeout), Done)
    case Faulted(e) => (st, Fault(e))
  }

  /** The handlers around a step, and the running total of the job. */
  function Conclude(planId: PlanId, ps: PlanStep, st: RunState, i: nat, end: StepEnd): RunState
    requires i < |st.job.steps|
  {
    var handled :=
      match end
      case Done => st
      case BudgetStop =>
        var s := st.job.steps[i].(status := StepStatus.Skipped, error := Some(OverBudget));
        AddError(SetStep(st, i, s), ps.stepId, OverBudget).(aborted := true)
      case Fault(e) =>
        MarkFailed(ps, st, i, Upstream(e))
        .(rows := UpdateStep(st.rows, (planId, ps.stepId), StepStatus.Failed, None, None),
          aborted := st.aborted || e.BudgetRelated())
      case Refused => st.(refused := true);
    handled.(job := handled.job.(cost := TotalCost(handled.job.steps)))
  }

  predicate ToBeRun(st: RunState, ps: PlanStep) {
    var found := FindStep(st.job.steps, ps.stepId);
    !st.refused && found.Some? && !st.aborted && !st.job.steps[found.value].status.Succeeded?
  }

  /** A plan step the loop passes over: unknown to the job, behind an abort, or done. */
  function PassOver(st: RunState, ps: PlanStep): RunState {
    var found := FindStep(st.job.steps, ps.stepId);
    if st.refused || found.None? || !st.aborted then st
    else SetStep(st, found.value,
        st.job.steps[found.value].(status := StepStatus.Skipped, error := Some(SkippedAfterBudget)))
  }

  /** One turn of the loop over plan steps, given what the wire will answer. */
  function OneStep(g: Limits, planId: PlanId, ps: PlanStep, st: RunState, ev: Events): RunState {
    if !ToBeRun(st, ps) then PassOver(st, ps)
    else
      var i := FindStep(st.job.steps, ps.stepId).value;
      match Begin(g, planId, ps, st, i)
      case Finished(st1, end) => Conclude(planId, ps, st1, i, end)
      case NeedPoll(st1, _) => Waited(planId, ps, st1, i, ev.poll)
      case NeedLaunch(st1) =>
        match AfterLaunch(g, planId, ps, st1, i, ev.launch)
        case Finished(st2, end) => Conclude(planId, ps, st2, i, end)
        case NeedPoll(st2, _) => Waited(planId, ps, st2, i, ev.poll)
        case NeedLaunch(st2) => st2
  }

  function Waited(planId: PlanId, ps: PlanStep, st: RunState, i: nat, poll: PollEvent): RunState
    requires i < |st.job.steps|
  {
    var (st1, end) := AfterPoll(planId, ps, st, i, poll);
    Conclude(planId, ps, st1, i, end)
  }

  /** One turn of the loop, as a relation between the states around it. */
  ghost predicate IsTurn(g: Limits, planId: PlanId, ps: PlanStep, st: RunState, ev: Events, st': RunState) {
    st' == OneStep(g, planId, ps, st, ev)
  }

  /** A run: its states, one before each turn of the loop and one at the end. */
  ghost predicate IsRun(g: Limits, planId: PlanId, steps: seq<PlanStep>, evs: seq<Events>, tr: seq<RunState>) {
    && |tr| == |steps| + 1 == |evs| + 1
    && (forall k {:trigger IsTurn(g, planId, steps[k], tr[k], evs[k], tr[k + 1])} :: 0 <= k < |steps| ==>
          IsTurn(g, planId, steps[k], tr[k], evs[k], tr[k + 1]))
  }

  lemma SameTurn(g: Limits, planId: PlanId, ps: PlanStep, st: RunState, ev: Events, a: RunState, b: RunState)
    requires IsTurn(g, planId, ps, st, ev, a) && IsTurn(g, planId, ps, st, ev, b)
    ensures a == b
  {
  }

  /** Runs that start alike and hear the same so far stand at the same point. */
  lemma {:induction false} SamePrefix(g: Limits, planId: PlanId, steps: seq<PlanStep>, ea: seq<Events>,
                                      eb: seq<Events>, ta: seq<RunState>, tb: seq<RunState>, n: nat)
    requires IsRun(g, planId, steps, ea, ta) && IsRun(g, planId, steps, eb, tb) && ta[0] == tb[0]
    requires n <= |steps| && forall k :: 0 <= k < n ==> ea[k] == eb[k]
    ensures ta[n] == tb[n]
  {
    if n > 0 {
      var k := n - 1;
      SamePrefix(g, planId, steps, ea, eb, ta, tb, k);
      assert IsTurn(g, planId, steps[k], ta[k], ea[k], ta[k + 1])
             && IsTurn(g, planId, steps[k], tb[k], eb[k], tb[k + 1]);
      SameTurn(g, planId, steps[k], ta[k], ea[k], ta[n], tb[n]);
    }
  }

  function Started(job: Job): Job {
    job.(status := JobStatus.Running)
  }

  /** The job document the run ends with. */
  function FinalJob(st: RunState): Job {
    st.job.(status := Aggregate(st.job.steps, st.aborted), cost := TotalCost(st.job.steps))
  }

  /** The document a run leaves behind: concluded, unless the ledger refused a claim. */
  function LastDocument(end: RunState): Job {
    if end.refused then end.job else FinalJob(end)
  }

  // ---------------------------------------------------------------------------
  // The same run, driven by a platform
  // ---------------------------------------------------------------------------

  datatype Pace = Pace(interval: nat, timeout: nat)

  /** Asks until a verdict, an error, or the end of the polling budget. */
  function Poll<S>(wire: Wire<S>, s: S, h: Handle, pace: Pace, waited: nat): (S, PollEvent)
    requires pace.interval > 0
    decreases pace.timeout - waited
  {
    var (next, reply) := wire.status(s, h);
    if reply.Err? then (next, Faulted(reply.error))
    else if !reply.value.phase.Working? then (next, Answered(reply.value))
    else if waited >= pace.timeout then (next, TimedOut)
    else Poll(wire, next, h, pace, waited + pace.interval)
  }

  /** The states a wait goes through, one before each status read and one at the end. */
  ghost predicate IsWait<S>(wire: Wire<S>, h: Handle, tr: seq<S>) {
    |tr| >= 2 && forall k :: 0 <= k < |tr| - 1 ==> tr[k + 1] == wire.status(tr[k], h).0
  }

  ghost predicate StillWorking<S>(wire: Wire<S>, h: Handle, s: S) {
    var reply := wire.status(s, h).1; reply.Ok? && reply.value.phase == Working
  }

  /** How a wait went: every read but the last found the work going on, with time left; the
      last brought the verdict or the error, or found no more than the others and the time
      used up. */
  ghost predicate WaitedFor<S>(wire: Wire<S>, h: Handle, pace: Pace, waited: nat, tr: seq<S>, event: PollEvent)
    requires |tr| >= 2
  {
    var last := |tr| - 2;
    var reply := wire.status(tr[last], h).1;
    && (forall k :: 0 <= k < last ==> StillWorking(wire, h, tr[k]) && waited + k * pace.interval < pace.timeout)
    && (event.TimedOut? <==> StillWorking(wire, h, tr[last]))
    && (event.TimedOut? ==> waited + last * pace.interval >= pace.timeout)
    && (event.Answered? ==> reply == Ok(event.payload) && event.payload.phase != Working)
    && (event.Faulted? ==> reply == Err(event.error))
  }

  /** A wait ends with the first verdict or the first error, and otherwise goes on asking,
      once an interval, until the time is used up. */
  lemma {:induction false} PollWaits<S>(wire: Wire<S>, s: S, h: Handle, pace: Pace, waited: nat) returns (tr: seq<S>)
    requires pace.interval > 0
    ensures IsWait(wire, h, tr) && tr[0] == s && tr[|tr| - 1] == Poll(wire, s, h, pace, waited).0
    ensures WaitedFor(wire, h, pace, waited, tr, Poll(wire, s, h, pace, waited).1)
    decreases pace.timeout - waited
  {
    var (next, reply) := wire.status(s, h);
    tr := [s, next];
    if StillWorking(wire, h, s) && waited < pace.timeout {
      var rest := PollWaits(wire, next, h, pace, waited + pace.interval);
      tr := [s] + rest;
      PollOneLonger(wire, s, h, pace, waited, rest, Poll(wire, s, h, pace, waited).1);
    }
  }

  lemma PollOneLonger<S>(wire: Wire<S>, s: S, h: Handle, pace: Pace, waited: nat, rest: seq<S>, event: PollEvent)
    requires StillWorking(wire, h, s) && waited < pace.timeout
    requires IsWait(wire, h, rest) && rest[0] == wire.status(s, h).0
    requires WaitedFor(wire, h, pace, waited + pace.interval, rest, event)
    ensures IsWait(wire, h, [s] + rest) && WaitedFor(wire, h, pace, waited, [s] + rest, event)
  {
    var tr := [s] + rest;
    forall k | 0 <= k < |tr| - 2
      ensures StillWorking(wire, h, tr[k]) && waited + k * pace.interval < pace.timeout
    {
      if k > 0 {
        assert tr[k] == rest[k - 1];
        assert k * pace.interval == (k - 1) * pace.interval + pace.interval;
      }
    }
    var last := |rest| - 2;
    assert (last + 1) * pace.interval == last * pace.interval + pace.interval;
    assert tr[|tr| - 2] == rest[last];
  }

  /** One turn of the loop against a platform: its state, the job's, and what it said. */
  function DriveStep<S>(wire: Wire<S>, s: S, pace: Pace, g: Limits, planId: PlanId, ps: PlanStep,
                        st: RunState): (S, RunState, Events)
    requires pace.interval > 0
  {
    var silent := Events(Err(Network), TimedOut);
    if !ToBeRun(st, ps) then (s, PassOver(st, ps), silent)
    else
      var i := FindStep(st.job.steps, ps.stepId).value;
      match Begin(g, planId, ps, st, i)
      case Finished(st1, end) => (s, Conclude(planId, ps, st1, i, end), silent)
      case NeedPoll(st1, h) =>
        var (s1, poll) := Poll(wire, s, h, pace, 0);
        (s1, Waited(planId, ps, st1, i, poll), silent.(poll := poll))
      case NeedLaunch(st1) =>
        var (s1, launch) := wire.generate(s, ps.GenerateBody());
        match AfterLaunch(g, planId, ps, st1, i, launch)
        case Finished(st2, end) => (s1, Conclude(planId, ps, st2, i, end), silent.(launch := launch))
        case NeedPoll(st2, h) =>
          var (s2, poll) := Poll(wire, s1, h, pace, 0);
          (s2, Waited(planId, ps, st2, i, poll), Events(launch, poll))
        case NeedLaunch(st2) => (s1, st2, silent.(launch := launch))
  }

  /** One turn of a driven run, as a relation between the states around it. */
  ghost predicate IsDrivenTurn<S>(wire: Wire<S>, pace: Pace, g: Limits, planId: PlanId, ps: PlanStep, s: S,
                                  st: RunState, s': S, st': RunState)
    requires pace.interval > 0
  {
    var d := DriveStep(wire, s, pace, g, planId, ps, st);
    s' == d.0 && st' == d.1
  }

  /** States around consecutive turns, from the first plan step on. */
  ghost predicate IsHistory<S>(wire: Wire<S>, pace: Pace, g: Limits, planId: PlanId, steps: seq<PlanStep>,
                               tr: seq<(S, RunState)>)
    requires pace.interval > 0
  {
    && 1 <= |tr| <= |steps| + 1
    && forall k {:trigger IsDrivenTurn(wire, pace, g, planId, steps[k], tr[k].0, tr[k].1, tr[k + 1].0, tr[k + 1].1)} ::
         0 <= k < |tr| - 1 ==>
           IsDrivenTurn(wire, pace, g, planId, steps[k], tr[k].0, tr[k].1, tr[k + 1].0, tr[k + 1].1)
  }

  lemma HistoryGrows<S>(wire: Wire<S>, pace: Pace, g: Limits, planId: PlanId, steps: seq<PlanStep>,
                        tr: seq<(S, RunState)>, s': S, st': RunState)
    requires pace.interval > 0 && IsHistory(wire, pace, g, planId, steps, tr) && |tr| <= |steps|
    requires IsDrivenTurn(wire, pace, g, planId, steps[|tr| - 1], tr[|tr| - 1].0, tr[|tr| - 1].1, s', st')
    ensures IsHistory(wire, pace, g, planId, steps, tr + [(s', st')])
  {
    var longer := tr + [(s', st')];
    forall k | 0 <= k < |longer| - 1
      ensures IsDrivenTurn(wire, pace, g, planId, steps[k], longer[k].0, longer[k].1, longer[k + 1].0, longer[k + 1].1)
    {
      if k < |tr| - 1 {
        assert IsDrivenTurn(wire, pace, g, planId, steps[k], tr[k].0, tr[k].1, tr[k + 1].0, tr[k + 1].1);
        assert longer[k] == tr[k] && longer[k + 1] == tr[k + 1];
      }
    }
  }

  function StatesOf<S>(tr: seq<(S, RunState)>): (sts: seq<RunState>)
    ensures |sts| == |tr| && forall k :: 0 <= k < |tr| ==> sts[k] == tr[k].1
  {
    seq(|tr|, k requires 0 <= k < |tr| => tr[k].1)
  }

  /** What the platform said in each turn. */
  function EventsOf<S>(wire: Wire<S>, pace: Pace, g: Limits, planId: PlanId, steps: seq<PlanStep>,
                       tr: seq<(S, RunState)>): (evs: seq<Events>)
    requires pace.interval > 0 && |tr| == |steps| + 1
    ensures |evs| == |steps|
  {
    seq(|steps|, k requires 0 <= k < |steps| => DriveStep(wire, tr[k].0, pace, g, planId, steps[k], tr[k].1).2)
  }

  lemma DriveStepIsOneStep<S>(wire: Wire<S>, s: S, pace: Pace, g: Limits, planId: PlanId, ps: PlanStep, st: RunState)
    requires pace.interval > 0
    ensures var d := DriveStep(wire, s, pace, g, planId, ps, st);
            d.1 == OneStep(g, planId, ps, st, d.2)
  {
  }

  lemma DrivenTurnIsTurn<S>(wire: Wire<S>, pace: Pace, g: Limits, planId: PlanId, ps: PlanStep, s: S, st: RunState,
                            s': S, st': RunState)
    requires pace.interval > 0 && IsDrivenTurn(wire, pace, g, planId, ps, s, st, s', st')
    ensures IsTurn(g, planId, ps, st, DriveStep(wire, s, pace, g, planId, ps, st).2, st')
  {
    DriveStepIsOneStep(wire, s, pace, g, planId, ps, st);
  }

  /** Whatever the platform, a complete history is the run on the events the platform
      produced: every claim about all runs is a claim about all platforms. */
  lemma HistoryIsRun<S>(wire: Wire<S>, pace: Pace, g: Limits, planId: PlanId, steps: seq<PlanStep>,
                        tr: seq<(S, RunState)>)
    requires pace.interval > 0 && IsHistory(wire, pace, g, planId, steps, tr) && |tr| == |steps| + 1
    ensures IsRun(g, planId, steps, EventsOf(wire, pace, g, planId, steps, tr), StatesOf(tr))
  {
    var evs, sts := EventsOf(wire, pace, g, planId, steps, tr), StatesOf(tr);
    forall k | 0 <= k < |steps| ensures IsTurn(g, planId, steps[k], sts[k], evs[k], sts[k + 1]) {
      assert IsDrivenTurn(wire, pace, g, planId, steps[k], tr[k].0, tr[k].1, tr[k + 1].0, tr[k + 1].1);
      DrivenTurnIsTurn(wire, pace, g, planId, steps[k], tr[k].0, tr[k].1, tr[k + 1].0, tr[k + 1].1);
    }
  }
}
