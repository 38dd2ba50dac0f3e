/** What every turn of a run leaves behind, whatever the costs: settled steps behind,
    untouched steps ahead. */
module Shapes {
  import opened Domain
  import opened Budget
  import opened Settlement
  import opened Ledger
  import opened WireModel
  import opened Execution
  import opened Spending

  /** Only the step's own row changed, and it carries the step's key. */
  ghost predicate OwnRow(planId: PlanId, ps: PlanStep, rows: Rows, rows': Rows) {
    var at := (planId, ps.stepId);
    at in rows' && rows' == rows[at := rows'[at]] && rows'[at].key == ps.key
  }

  /** One turn settles its own step and touches its own row. */
  ghost predicate Shape(planId: PlanId, ps: PlanStep, st: RunState, st': RunState, i: nat)
    requires i < |st.job.steps|
  {
    && |st'.job.steps| == |st.job.steps|
    && st'.job.steps == st.job.steps[i := st'.job.steps[i]]
    && st'.job.steps[i].stepId == st.job.steps[i].stepId && !Outstanding(st'.job.steps[i])
    && !st'.refused
    && (st'.rows == st.rows || OwnRow(planId, ps, st.rows, st'.rows))
    && (st'.aborted ==> st.aborted || !st'.job.steps[i].status.Succeeded?)
    && (st.aborted ==> st'.aborted)
  }

  lemma ConcludeShape(planId: PlanId, ps: PlanStep, st: RunState, st1: RunState, i: nat, end: StepEnd)
    requires i < |st.job.steps| && |st1.job.steps| == |st.job.steps| && !end.Refused?
    requires st1.job.steps == st.job.steps[i := st1.job.steps[i]] && st1.job.steps[i].stepId == st.job.steps[i].stepId
    requires end.Done? ==> !Outstanding(st1.job.steps[i])
    requires !st1.refused && !st.aborted && !st1.aborted
    requires OwnRow(planId, ps, st.rows, st1.rows) || (st1.rows == st.rows && !end.Fault?)
    ensures Shape(planId, ps, st, Conclude(planId, ps, st1, i, end), i)
  {
  }

  lemma WaitedShape(planId: PlanId, ps: PlanStep, st: RunState, st2: RunState, i: nat, poll: PollEvent)
    requires i < |st.job.steps| && |st2.job.steps| == |st.job.steps|
    requires st2.job.steps == st.job.steps[i := st2.job.steps[i]] && st2.job.steps[i].stepId == st.job.steps[i].stepId
    requires !st2.refused && !st.aborted && !st2.aborted
    requires OwnRow(planId, ps, st.rows, st2.rows)
    ensures Shape(planId, ps, st, Waited(planId, ps, st2, i, poll), i)
  {
    var (st3, end) := AfterPoll(planId, ps, st2, i, poll);
    ConcludeShape(planId, ps, st, st3, i, end);
  }

  lemma StepShape(g: Limits, planId: PlanId, ps: PlanStep, st: RunState, i: nat, ev: Events)
    requires i < |st.job.steps| && FindStep(st.job.steps, ps.stepId) == Some(i)
    requires Untouched(st.job.steps[i]) && (planId, ps.stepId) !in st.rows && !KeyInUse(st.rows, ps.key)
    requires !st.refused
    ensures Shape(planId, ps, st, OneStep(g, planId, ps, st, ev), i)
  {
    if !st.aborted {
      FreshClaim(planId, ps, st);
      var p := Begin(g, planId, ps, st, i);
      if p.Finished? {
        ConcludeShape(planId, ps, st, p.state, i, p.end);
      } else {
        LaunchShape(g, planId, ps, st, p.state, i, ev);
      }
    }
  }

  lemma LaunchShape(g: Limits, planId: PlanId, ps: PlanStep, st: RunState, st1: RunState, i: nat, ev: Events)
    requires i < |st.job.steps| && AtLaunch(g, planId, ps, st, st1, i) && !st.aborted && !st.refused
    ensures var q := AfterLaunch(g, planId, ps, st1, i, ev.launch);
            && !q.NeedLaunch? && |q.state.job.steps| == |st.job.steps|
            && (q.Finished? ==> Shape(planId, ps, st, Conclude(planId, ps, q.state, i, q.end), i))
            && (q.NeedPoll? ==> Shape(planId, ps, st, Waited(planId, ps, q.state, i, ev.poll), i))
  {
    LaunchCases(g, planId, ps, st1, i, ev.launch);
    var q := AfterLaunch(g, planId, ps, st1, i, ev.launch);
    if ev.launch.Err? {
      ConcludeShape(planId, ps, st, q.state, i, q.end);
    } else {
      var reply := ev.launch.value;
      var recorded := Recorded(planId, ps, st1, i, reply);
      RecordedShape(g, planId, ps, st, st1, i, reply);
      if q.NeedPoll? {
        WaitedShape(planId, ps, st, recorded, i, ev.poll);
      } else if q == Finished(recorded, BudgetStop) {
        ConcludeShape(planId, ps, st, recorded, i, BudgetStop);
      } else if q == Finished(MarkFailed(ps, recorded, i, NoGenerationId), Done) {
        ConcludeShape(planId, ps, st, MarkFailed(ps, recorded, i, NoGenerationId), i, Done);
      } else {
        SettlingWait(planId, ps, recorded, i, reply.payload);
        WaitedShape(planId, ps, st, recorded, i, Answered(reply.payload));
      }
    }
  }

  /** The five ways a launch can go. */
  lemma LaunchCases(g: Limits, planId: PlanId, ps: PlanStep, st: RunState, i: nat,
                    launch: Result<LaunchReply, VibeError>)
    requires i < |st.job.steps|
    ensures var q := AfterLaunch(g, planId, ps, st, i, launch);
            if launch.Err? then q == Finished(Logged(st, ps, i, 0), Fault(launch.error))
            else
              var recorded := Recorded(planId, ps, st, i, launch.value);
              || q == Finished(recorded, BudgetStop)
              || (q.NeedPoll? && q.state == recorded
              && q.handle == Handle(launch.value.longVoiceover, launch.value.Id()))
              || q == Finished(Settle(planId, ps, recorded, i, launch.value.payload), Done)
              || q == Finished(MarkFailed(ps, recorded, i, NoGenerationId), Done)
  {
  }

  lemma RecordedShape(g: Limits, planId: PlanId, ps: PlanStep, st: RunState, st1: RunState, i: nat, reply: LaunchReply)
    requires i < |st.job.steps| && AtLaunch(g, planId, ps, st, st1, i) && !st.aborted && !st.refused
    ensures var r := Recorded(planId, ps, st1, i, reply);
            && |r.job.steps| == |st.job.steps|
            && r.job.steps == st.job.steps[i := r.job.steps[i]] && r.job.steps[i].stepId == st.job.steps[i].stepId
            && !r.refused && !r.aborted && OwnRow(planId, ps, st.rows, r.rows)
  {
  }

  ghost predicate RunShape(planId: PlanId, steps: seq<PlanStep>, st: RunState, n: nat) {
    && DistinctSteps(steps) && Matches(steps, st.job) && n <= |steps|
    && (forall i :: n <= i < |steps| ==> NotReached(planId, steps, st, i))
    && (forall i :: 0 <= i < n ==> !Outstanding(st.job.steps[i]))
    && !st.refused
    && (st.aborted ==> exists i :: 0 <= i < n && !st.job.steps[i].status.Succeeded?)
  }

  lemma ShapeStep(g: Limits, planId: PlanId, steps: seq<PlanStep>, st: RunState, n: nat, ev: Events)
    requires RunShape(planId, steps, st, n) && n < |steps|
    ensures RunShape(planId, steps, OneStep(g, planId, steps[n], st, ev), n + 1)
  {
    FoundAt(steps, st.job, n);
    assert NotReached(planId, steps, st, n);
    StepShape(g, planId, steps[n], st, n, ev);
    var st' := OneStep(g, planId, steps[n], st, ev);
    var at := (planId, steps[n].stepId);
    forall i | n + 1 <= i < |steps| ensures NotReached(planId, steps, st', i) {
      assert NotReached(planId, steps, st, i);
      assert steps[n].stepId != steps[i].stepId && steps[n].key != steps[i].key;
      assert forall r :: r in st'.rows ==> r == at || (r in st.rows && st'.rows[r] == st.rows[r]);
    }
    if st'.aborted {
      if st.aborted {
        var i :| 0 <= i < n && !st.job.steps[i].status.Succeeded?;
        assert st'.job.steps[i] == st.job.steps[i];
      } else {
        assert !st'.job.steps[n].status.Succeeded?;
      }
    }
  }

  lemma FreshShape(planId: PlanId, steps: seq<PlanStep>, start: RunState)
    requires Fresh(planId, steps, start)
    ensures RunShape(planId, steps, start, 0)
  {
  }

  lemma ShapeTurn(g: Limits, planId: PlanId, steps: seq<PlanStep>, st: RunState, n: nat, ev: Events, st': RunState)
    requires RunShape(planId, steps, st, n) && n < |steps| && IsTurn(g, planId, steps[n], st, ev, st')
    ensures RunShape(planId, steps, st', n + 1)
  {
    ShapeStep(g, planId, steps, st, n, ev);
  }

  /** At every point of a fresh run: what lies behind is settled, what lies ahead is
      untouched, and an abort means that something did not succeed. */
  lemma {:induction false} RunHasShape(g: Limits, planId: PlanId, steps: seq<PlanStep>, evs: seq<Events>,
                                       tr: seq<RunState>, n: nat)
    requires IsRun(g, planId, steps, evs, tr) && Fresh(planId, steps, tr[0]) && n <= |steps|
    ensures RunShape(planId, steps, tr[n], n)
  {
    if n == 0 {
      FreshShape(planId, steps, tr[0]);
    } else {
      var k := n - 1;
      RunHasShape(g, planId, steps, evs, tr, k);
      assert IsTurn(g, planId, steps[k], tr[k], evs[k], tr[k + 1]);
      ShapeTurn(g, planId, steps, tr[k], k, evs[k], tr[k + 1]);
    }
  }

  /** A run with the shape it keeps. */
  ghost predicate IsShaped(g: Limits, planId: PlanId, steps: seq<PlanStep>, evs: seq<Events>, tr: seq<RunState>) {
    && IsRun(g, planId, steps, evs, tr)
    && (forall k {:trigger RunShape(planId, steps, tr[k], k)} :: 0 <= k <= |steps| ==>
          RunShape(planId, steps, tr[k], k))
  }

  lemma RunIsShaped(g: Limits, planId: PlanId, steps: seq<PlanStep>, evs: seq<Events>, tr: seq<RunState>)
    requires IsRun(g, planId, steps, evs, tr) && Fresh(planId, steps, tr[0])
    ensures IsShaped(g, planId, steps, evs, tr)
  {
    forall k | 0 <= k <= |steps| ensures RunShape(planId, steps, tr[k], k) {
      RunHasShape(g, planId, steps, evs, tr, k);
    }
  }

  /** A turn leaves earlier steps and their ledger rows alone. */
  lemma TurnKeepsEarlier(g: Limits, planId: PlanId, steps: seq<PlanStep>, st: RunState, j: nat, ev: Events,
                         st': RunState, i: nat)
    requires RunShape(planId, steps, st, j) && i < j < |steps| && IsTurn(g, planId, steps[j], st, ev, st')
    ensures |st'.job.steps| == |st.job.steps| && st'.job.steps[i] == st.job.steps[i]
    ensures var at := (planId, steps[i].stepId);
            (at in st'.rows <==> at in st.rows) && (at in st.rows ==> st'.rows[at] == st.rows[at])
  {
    FoundAt(steps, st.job, j);
    assert NotReached(planId, steps, st, j);
    assert steps[i].stepId != steps[j].stepId;
    StepShape(g, planId, steps[j], st, j, ev);
  }

  /** A settled step, and its ledger row, stay as their own turn left them. */
  lemma {:induction false} EarlierStays(g: Limits, planId: PlanId, steps: seq<PlanStep>, evs: seq<Events>,
                                        tr: seq<RunState>, i: nat, n: nat)
    requires IsShaped(g, planId, steps, evs, tr) && i < n <= |steps|
    ensures |tr[n].job.steps| == |tr[i + 1].job.steps| == |steps| && tr[n].job.steps[i] == tr[i + 1].job.steps[i]
    ensures var at := (planId, steps[i].stepId);
            && (at in tr[n].rows <==> at in tr[i + 1].rows)
            && (at in tr[n].rows ==> tr[n].rows[at] == tr[i + 1].rows[at])
  {
    assert RunShape(planId, steps, tr[n], n);
    if n > i + 1 {
      var m := n - 1;
      EarlierStays(g, planId, steps, evs, tr, i, m);
      assert IsTurn(g, planId, steps[m], tr[m], evs[m], tr[m + 1]) && RunShape(planId, steps, tr[m], m);
      TurnKeepsEarlier(g, planId, steps, tr[m], m, evs[m], tr[m + 1], i);
    }
  }

  predicate SameIds(a: RunState, b: RunState) {
    a.job.jobId == b.job.jobId && a.job.planId == b.job.planId
  }

  lemma ConcludeKeepsIds(planId: PlanId, ps: PlanStep, st: RunState, i: nat, end: StepEnd)
    requires i < |st.job.steps|
    ensures SameIds(Conclude(planId, ps, st, i, end), st)
  {
  }

  lemma WaitKeepsIds(planId: PlanId, ps: PlanStep, st: RunState, i: nat, poll: PollEvent)
    requires i < |st.job.steps|
    ensures SameIds(Waited(planId, ps, st, i, poll), st)
  {
    var (st1, end) := AfterPoll(planId, ps, st, i, poll);
    ConcludeKeepsIds(planId, ps, st1, i, end);
  }

  lemma StepKeepsIds(g: Limits, planId: PlanId, ps: PlanStep, st: RunState, ev: Events)
    ensures SameIds(OneStep(g, planId, ps, st, ev), st)
  {
    if ToBeRun(st, ps) {
      var i := FindStep(st.job.steps, ps.stepId).value;
      var p := Begin(g, planId, ps, st, i);
      if p.Finished? {
        ConcludeKeepsIds(planId, ps, p.state, i, p.end);
      } else if p.NeedPoll? {
        WaitKeepsIds(planId, ps, p.state, i, ev.poll);
      } else {
        var q := AfterLaunch(g, planId, ps, p.state, i, ev.launch);
        if q.Finished? {
          ConcludeKeepsIds(planId, ps, q.state, i, q.end);
        } else {
          WaitKeepsIds(planId, ps, q.state, i, ev.poll);
        }
      }
    }
  }

  /** A run never changes whose job it is. */
  lemma {:induction false} IdsStay(g: Limits, planId: PlanId, steps: seq<PlanStep>, evs: seq<Events>,
                                   tr: seq<RunState>, n: nat)
    requires IsRun(g, planId, steps, evs, tr) && n <= |steps|
    ensures SameIds(tr[n], tr[0])
  {
    if n > 0 {
      var k := n - 1;
      IdsStay(g, planId, steps, evs, tr, k);
      assert IsTurn(g, planId, steps[k], tr[k], evs[k], tr[k + 1]);
      StepKeepsIds(g, planId, steps[k], tr[k], evs[k]);
    }
  }
}
