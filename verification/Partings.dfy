/** Where late and timely part: three concrete runs. In the first a refund, had it arrived
    in time, would have paid for the next step; in the second the sweep takes an aborted
    job for a failed one; in the third there is no id the sweep could ask about. */
module Partings {
  import opened Money
  import opened Domain
  import opened Budget
  import opened Settlement
  import opened Ledger
  import opened WireModel
  import opened Execution
  import opened Spending
  import opened Apartness
  import opened Late
  import R = Reconciler

  const PLAN: PlanId := "p"
  const PICTURE := PlanStep("a", Image, Generation, "m", "", StepKey("p", "a", "m", ""), 6, None)
  const CLIP := PlanStep("b", Video, Generation, "m", "", StepKey("p", "b", "m", ""), 6, None)
  const NARRATION := PlanStep("a", Voice, Generation, "m", "", StepKey("p", "a", "m", ""), 6, None)

  /** Ten to spend: room for one of two steps, or for the second after a refund. */
  const LIMITS := Limits(10, 10, Some(Account(Some(100), None, None)))

  function Untried(s: PlanStep): JobStep {
    JobStep(s.stepId, s.kind, s.key, StepStatus.Pending, None, false, s.estimate, 0, false, None, None, None, None,
        None, 0)
  }

  function Starting(steps: seq<JobStep>): RunState {
    RunState(Job("j", "p", JobStatus.Running, 0, steps, [], 0), 0, map[], [], false, false)
  }

  function Said(phase: Phase, cost: Amount, refunded: bool): Payload {
    Payload(phase, Some(cost), refunded, None, None, None, None, None)
  }

  function Accepted(id: nat): LaunchReply {
    LaunchReply(Some(id), None, None, false, Said(Working, 6, false))
  }

  const REFUND := Said(Failure, 0, true)
  const LOSS := Said(Failure, 6, false)
  const DONE := Said(Success, 6, false)

  // ---------------------------------------------------------------------------
  // One turn
  // ---------------------------------------------------------------------------

  function Next(ps: PlanStep, st: RunState, ev: Events): RunState {
    OneStep(LIMITS, PLAN, ps, st, ev)
  }

  /** A fresh step that fits is launched and waited for. */
  lemma Waits(st: RunState, ps: PlanStep, i: nat, reply: LaunchReply, poll: PollEvent)
    requires i < |st.job.steps| && FindStep(st.job.steps, ps.stepId) == Some(i) && !st.refused && !st.aborted
    requires ps.kind.Generation? && ps.estimate == 6 && st.job.steps[i].status.Pending?
    requires (PLAN, ps.stepId) !in st.rows && !KeyInUse(st.rows, ps.key) && 0 <= st.committed <= 4
    requires reply.payload == Said(Working, 6, false) && (reply.Id().Some? || reply.longVoiceover)
    ensures WaitState(LIMITS, PLAN, ps, st, Ok(reply)).Some?
    ensures var w := WaitState(LIMITS, PLAN, ps, st, Ok(reply)).value;
            && |w.job.steps| == |st.job.steps| && w.committed == st.committed + 6 && w.job.steps[i].cost == 6
            && w.job.steps == st.job.steps[i := w.job.steps[i]] && w.job.steps[i].stepId == st.job.steps[i].stepId
            && w.job.steps[i].generationId == reply.Id()
            && w.aborted == st.aborted && w.refused == st.refused
            && (forall r :: r in w.rows ==> r in st.rows || r == (PLAN, ps.stepId))
            && (forall r :: r in w.rows && r != (PLAN, ps.stepId) ==> w.rows[r] == st.rows[r])
            && ((PLAN, ps.stepId) in w.rows ==> w.rows[(PLAN, ps.stepId)].key == ps.key)
            && Next(ps, st, Events(Ok(reply), poll)) == Waited(PLAN, ps, w, i, poll)
  {
    FreshClaim(PLAN, ps, st);
  }

  /** What the end of the wait makes of the commitment and the step. */
  lemma WaitEnds(ps: PlanStep, w: RunState, i: nat, poll: PollEvent)
    requires i < |w.job.steps| && w.job.steps[i].cost == 6 && w.committed >= 6 && !w.aborted && !w.refused
             && !poll.Faulted?
    ensures var r := Waited(PLAN, ps, w, i, poll);
            && |r.job.steps| == |w.job.steps| && r.job.steps == w.job.steps[i := r.job.steps[i]]
            && r.job.steps[i].stepId == w.job.steps[i].stepId
            && r.job.steps[i].generationId == w.job.steps[i].generationId
            && !r.aborted && !r.refused
            && (poll.TimedOut? ==>
                  && r.committed == w.committed && r.rows == w.rows
                  && r.job.steps[i].cost == 6 && r.job.steps[i].status.Failed?)
            && (poll.Answered? ==>
                  && r.committed == w.committed - 6 + Settled(w.job.steps[i], poll.payload).cost
                  && r.job.steps[i].status == Settled(w.job.steps[i], poll.payload).status
                  && r.rows.Keys == w.rows.Keys
                  && forall at :: at in r.rows ==> r.rows[at].key == w.rows[at].key)
  {
  }

  /** A fresh step that no longer fits is skipped, and the run is aborted. */
  lemma Skips(st: RunState, ps: PlanStep, i: nat, ev: Events)
    requires i < |st.job.steps| && FindStep(st.job.steps, ps.stepId) == Some(i) && !st.refused && !st.aborted
    requires ps.kind.Generation? && ps.estimate == 6 && st.job.steps[i].status.Pending?
    requires (PLAN, ps.stepId) !in st.rows && !KeyInUse(st.rows, ps.key) && st.committed == 6
    ensures var r := Next(ps, st, ev);
            && |r.job.steps| == |st.job.steps| && r.job.steps == st.job.steps[i := r.job.steps[i]]
            && r.job.steps[i].status.Skipped? && r.aborted
  {
    FreshClaim(PLAN, ps, st);
  }

  // ---------------------------------------------------------------------------
  // Two steps
  // ---------------------------------------------------------------------------

  const STEPS := [PICTURE, CLIP]
  const START := Starting([Untried(PICTURE), Untried(CLIP)])

  const LATE := [Events(Ok(Accepted(1)), TimedOut), Events(Ok(Accepted(2)), Answered(DONE))]

  function Timely(v: Payload): seq<Events> {
    [Events(Ok(Accepted(1)), Answered(v)), Events(Ok(Accepted(2)), Answered(DONE))]
  }

  /** The states of the two-step run that hears `evs`. */
  function States(evs: seq<Events>): seq<RunState>
    requires |evs| == 2
  {
    var after := Next(PICTURE, START, evs[0]);
    [START, after, Next(CLIP, after, evs[1])]
  }

  /** The picture is given up on; its verdict is `v`. */
  function PictureLate(v: Payload): TwoRuns {
    TwoRuns(LIMITS, PLAN, STEPS, Timely(v), LATE, States(Timely(v)), States(LATE), 0, v)
  }

  lemma Finds(steps: seq<JobStep>, id: StepId)
    requires |steps| == 2 && steps[0].stepId == "a" && steps[1].stepId == "b" && (id == "a" || id == "b")
    ensures FindStep(steps, id) == Some(if id == "a" then 0 else 1)
  {
    assert "a"[0] == 'a' && "b"[0] == 'b';
  }

  /** Where a run stands after the first step. */
  ghost predicate AfterPicture(st: RunState, committed: Amount) {
    && |st.job.steps| == 2 && st.job.steps[0].stepId == "a" && st.job.steps[0].generationId == Some(1)
    && st.job.steps[1] == Untried(CLIP)
    && st.committed == committed && !st.aborted && !st.refused
    && forall r :: r in st.rows ==> r == (PLAN, "a") && st.rows[r].key == PICTURE.key
  }

  lemma FirstTurn(poll: PollEvent)
    requires poll.TimedOut? || poll == Answered(REFUND) || poll == Answered(LOSS)
    ensures var r := Next(PICTURE, START, Events(Ok(Accepted(1)), poll));
            && AfterPicture(r, if poll == Answered(REFUND) then 0 else 6)
            && r.job.steps[0].status.Failed? && (poll.TimedOut? ==> r.job.steps[0].cost == 6)
    ensures WaitState(LIMITS, PLAN, PICTURE, START, Ok(Accepted(1))).Some?
  {
    Finds(START.job.steps, "a");
    Waits(START, PICTURE, 0, Accepted(1), poll);
    WaitEnds(PICTURE, WaitState(LIMITS, PLAN, PICTURE, START, Ok(Accepted(1))).value, 0, poll);
  }

  lemma ClipIsFresh(st: RunState, committed: Amount)
    requires AfterPicture(st, committed)
    ensures FindStep(st.job.steps, CLIP.stepId) == Some(1)
    ensures (PLAN, CLIP.stepId) !in st.rows && !KeyInUse(st.rows, CLIP.key)
  {
    assert "a"[0] == 'a' && "b"[0] == 'b';
    Finds(st.job.steps, "b");
  }

  lemma ClipIsPaidFor(st: RunState)
    requires AfterPicture(st, 0)
    ensures var r := Next(CLIP, st, LATE[1]); |r.job.steps| == 2 && r.job.steps[1].status.Succeeded?
  {
    ClipIsFresh(st, 0);
    Waits(st, CLIP, 1, Accepted(2), LATE[1].poll);
    WaitEnds(CLIP, WaitState(LIMITS, PLAN, CLIP, st, Ok(Accepted(2))).value, 1, LATE[1].poll);
  }

  lemma ClipIsSkipped(st: RunState)
    requires AfterPicture(st, 6)
    ensures var r := Next(CLIP, st, LATE[1]);
            && |r.job.steps| == 2 && r.job.steps[0] == st.job.steps[0] && r.job.steps[1].status.Skipped? && r.aborted
  {
    ClipIsFresh(st, 6);
    Skips(st, CLIP, 1, LATE[1]);
  }

  lemma StatesAreARun(evs: seq<Events>)
    requires |evs| == 2
    ensures IsRun(LIMITS, PLAN, STEPS, evs, States(evs))
  {
    var tr := States(evs);
    forall k | 0 <= k < 2 ensures IsTurn(LIMITS, PLAN, STEPS[k], tr[k], evs[k], tr[k + 1]) {
    }
  }

  lemma PictureIsWaitedFor(v: Payload)
    requires v == REFUND || v == LOSS
    ensures PictureLate(v).Valid()
  {
    assert PICTURE.stepId[0] == 'a' && CLIP.stepId[0] == 'b';
    assert Fresh(PLAN, STEPS, START);
    FirstTurn(TimedOut);
    StatesAreARun(Timely(v));
    StatesAreARun(LATE);
    assert Timely(v) == LATE[0 := LATE[0].(poll := Answered(v))];
  }

  // ---------------------------------------------------------------------------
  // The three runs
  // ---------------------------------------------------------------------------

  lemma OneDisagreementIsEnough<S>(r: TwoRuns, jobs: map<JobId, Job>, touched: map<StepRef, nat>, wire: Wire<S>, s: S,
                                   now: nat)
    requires r.Valid() && Answers(wire, s, r.End(), r.k, r.v) && r.k + 1 < |r.steps|
    requires !DecidesAlike(r.g, r.steps[r.k + 1], r.tb[r.k + 1], Shadow(r, r.k + 1), r.late[r.k + 1].launch)
    ensures !GuardAgrees(r, |r.steps|)
    ensures !LandsAs(r.planId, r.TimelyEnd(), AfterSweep(wire, s, Tables(jobs, r.End(), touched), r.At(), now))
  {
    LateEqualsTimelyExactly(r, jobs, touched, wire, s, now);
  }

  lemma RefundEnds()
    ensures var r := PictureLate(REFUND);
            && |r.End().job.steps| == |r.TimelyEnd().job.steps| == 2
            && r.End().job.steps[0].generationId.Some?
            && r.End().job.steps[1].status.Skipped? && r.TimelyEnd().job.steps[1].status.Succeeded?
            && !DecidesAlike(LIMITS, CLIP, r.tb[1], Shadow(r, 1), LATE[1].launch)
  {
    var r := PictureLate(REFUND);
    FirstTurn(TimedOut);
    FirstTurn(Answered(REFUND));
    ClipIsSkipped(r.tb[1]);
    ClipIsPaidFor(r.ta[1]);
    ClipIsFresh(r.tb[1], 6);
    assert Shadow(r, 1) == 0;
  }

  /** A refund in mid-run: the late run skipped a step the timely run paid for, and no sweep
      brings it back. */
  lemma MidRunRefundMatters<S>(jobs: map<JobId, Job>, touched: map<StepRef, nat>, wire: Wire<S>, s: S, now: nat)
    requires Answers(wire, s, PictureLate(REFUND).End(), 0, REFUND)
    ensures var r := PictureLate(REFUND);
            && r.Valid() && |r.End().job.steps| == |r.TimelyEnd().job.steps| == 2
            && r.End().job.steps[0].generationId.Some?
            && r.End().job.steps[1].status.Skipped? && r.TimelyEnd().job.steps[1].status.Succeeded?
            && !GuardAgrees(r, 2)
            && !LandsAs(PLAN, r.TimelyEnd(), AfterSweep(wire, s, Tables(jobs, r.End(), touched), r.At(), now))
  {
    PictureIsWaitedFor(REFUND);
    RefundEnds();
    OneDisagreementIsEnough(PictureLate(REFUND), jobs, touched, wire, s, now);
  }

  /** The picture failed, the clip was skipped for want of money. */
  ghost predicate Stuck(end: RunState) {
    |end.job.steps| == 2 && end.job.steps[0].status.Failed? && end.job.steps[1].status.Skipped? && end.aborted
  }

  lemma LossEnds()
    ensures var r := PictureLate(LOSS);
            && Stuck(r.End()) && Stuck(r.TimelyEnd())
            && r.End().job.steps[0].generationId.Some? && KeepsCharge(r.End(), 0, LOSS)
  {
    var r := PictureLate(LOSS);
    FirstTurn(TimedOut);
    FirstTurn(Answered(LOSS));
    ClipIsSkipped(r.tb[1]);
    ClipIsSkipped(r.ta[1]);
  }

  lemma StuckEndsAborted(end: RunState)
    requires Stuck(end)
    ensures FinalJob(end).status.Aborted?
    ensures TerminalStatus(end.job.steps) == Some(JobStatus.Failed)
  {
    AggregateMeans(end.job.steps, true);
    AggregateMeans(end.job.steps, false);
  }

  lemma SweptStuckIsFailed<S>(r: TwoRuns, jobs: map<JobId, Job>, touched: map<StepRef, nat>, wire: Wire<S>, s: S,
                              now: nat)
    requires r.Valid() && Answers(wire, s, r.End(), r.k, r.v) && r.End().job.steps[r.k].generationId.Some?
    requires Stuck(r.End()) && Stuck(r.TimelyEnd())
    requires LandsAs(r.planId, r.TimelyEnd(), AfterSweep(wire, s, Tables(jobs, r.End(), touched), r.At(), now))
    ensures var swept := AfterSweep(wire, s, Tables(jobs, r.End(), touched), r.At(), now);
            && r.End().job.jobId in swept.jobs && swept.jobs[r.End().job.jobId].status.Failed?
  {
    var d := PutSideBySide(r);
    LateRunLeavesBehind(d, r);
    SweepOfLeftBehind(r.planId, r.steps, r.k, r.End(), jobs, touched, wire, s, r.v, now);
    StuckEndsAborted(r.TimelyEnd());
  }

  /** A failure found late in an aborted job: everything lands as in time, except that the
      job is called failed where the executor would have called it aborted. */
  lemma AbortIsForgotten<S>(jobs: map<JobId, Job>, touched: map<StepRef, nat>, wire: Wire<S>, s: S, now: nat)
    requires Answers(wire, s, PictureLate(LOSS).End(), 0, LOSS)
    ensures var r := PictureLate(LOSS);
            var swept := AfterSweep(wire, s, Tables(jobs, r.End(), touched), r.At(), now);
            && r.Valid() && LandsAs(PLAN, r.TimelyEnd(), swept) && r.End().job.jobId in swept.jobs
            && FinalJob(r.TimelyEnd()).status.Aborted? && swept.jobs[r.End().job.jobId].status.Failed?
  {
    PictureIsWaitedFor(LOSS);
    LossEnds();
    LateEqualsTimely(PictureLate(LOSS), jobs, touched, wire, s, now);
    StuckEndsAborted(PictureLate(LOSS).TimelyEnd());
    SweptStuckIsFailed(PictureLate(LOSS), jobs, touched, wire, s, now);
  }

  // A long voiceover whose launch was accepted without an id.

  const SILENT := LaunchReply(None, None, None, true, Said(Working, 6, false))
  const VOICE_START := Starting([Untried(NARRATION)])

  function VoiceStates(poll: PollEvent): seq<RunState> {
    [VOICE_START, Next(NARRATION, VOICE_START, Events(Ok(SILENT), poll))]
  }

  const VOICE_LATE := TwoRuns(LIMITS, PLAN, [NARRATION], [Events(Ok(SILENT), Answered(DONE))],
      [Events(Ok(SILENT), TimedOut)], VoiceStates(Answered(DONE)), VoiceStates(TimedOut), 0, DONE)

  lemma VoiceTurn()
    ensures WaitState(LIMITS, PLAN, NARRATION, VOICE_START, Ok(SILENT)).Some?
    ensures var st := Next(NARRATION, VOICE_START, Events(Ok(SILENT), TimedOut));
            |st.job.steps| == 1 && st.job.steps[0].generationId.None?
  {
    assert FindStep(VOICE_START.job.steps, "a") == Some(0);
    Waits(VOICE_START, NARRATION, 0, SILENT, TimedOut);
    WaitEnds(NARRATION, WaitState(LIMITS, PLAN, NARRATION, VOICE_START, Ok(SILENT)).value, 0, TimedOut);
  }

  lemma VoiceIsWaitedFor()
    ensures VOICE_LATE.Valid()
    ensures |VOICE_LATE.End().job.steps| == 1 && VOICE_LATE.End().job.steps[0].generationId.None?
  {
    var r := VOICE_LATE;
    VoiceTurn();
    forall k | 0 <= k < 1
      ensures IsTurn(LIMITS, PLAN, r.steps[k], r.ta[k], r.timely[k], r.ta[k + 1])
              && IsTurn(LIMITS, PLAN, r.steps[k], r.tb[k], r.late[k], r.tb[k + 1])
    {
    }
    assert Fresh(PLAN, r.steps, VOICE_START);
    assert r.timely == r.late[0 := r.late[0].(poll := Answered(DONE))];
  }

  /** A launch without an id: nothing follows the step, so the guard has nothing to say, yet
      the sweep never lists the row and never settles the step. */
  lemma NoIdIsNeverSwept<S>(jobs: map<JobId, Job>, touched: map<StepRef, nat>, wire: Wire<S>, s: S, before: nat,
                            now: nat)
    requires Answers(wire, s, VOICE_LATE.End(), 0, DONE)
    ensures var r := VOICE_LATE;
            var st := Tables(jobs, r.End(), touched);
            && r.Valid() && GuardAgrees(r, 1)
            && r.At() !in R.StaleSet(st, before)
            && !LandsAs(PLAN, r.TimelyEnd(), AfterSweep(wire, s, st, r.At(), now))
  {
    VoiceIsWaitedFor();
    var d := PutSideBySide(VOICE_LATE);
    LateRunLeavesBehind(d, VOICE_LATE);
    LateEqualsTimelyExactly(VOICE_LATE, jobs, touched, wire, s, now);
  }
}
