/** What holds over every fresh run, on every platform whose charges are not negative
    and whose verdicts never raise a cost: the books inside the service agree, and the
    spending stays inside the envelope. */
module Spending {
  import opened Money
  import opened Domain
  import opened Budget
  import opened Settlement
  import opened Ledger
  import opened Execution

  /** A step nothing has happened to yet. */
  predicate Untouched(s: JobStep) {
    s.status.Pending? && s.cost == 0 && s.generationId.None? && !s.longVoiceover
  }

  predicate Matches(steps: seq<PlanStep>, job: Job) {
    && |job.steps| == |steps|
    && (forall i :: 0 <= i < |steps| ==> job.steps[i].stepId == steps[i].stepId)
  }

  predicate DistinctSteps(steps: seq<PlanStep>) {
    forall i, j :: 0 <= i < j < |steps| ==> steps[i].stepId != steps[j].stepId && steps[i].key != steps[j].key
  }

  /** Plan step `i` has left no trace: not in the job, not in the ledger. */
  predicate NotReached(planId: PlanId, steps: seq<PlanStep>, st: RunState, i: nat)
    requires i < |steps| == |st.job.steps|
  {
    && Untouched(st.job.steps[i])
    && (planId, steps[i].stepId) !in st.rows
    && !KeyInUse(st.rows, steps[i].key)
  }

  /** A job that has not run before, for a plan whose steps were never launched. */
  predicate Fresh(planId: PlanId, steps: seq<PlanStep>, st: RunState) {
    && DistinctSteps(steps) && Matches(steps, st.job)
    && (forall i :: 0 <= i < |steps| ==> NotReached(planId, steps, st, i))
    && st.committed == 0 && st.launches == [] && !st.aborted && !st.refused
  }

  /** Charges are not negative and the verdict does not raise the cost. */
  predicate Fair(ps: PlanStep, ev: Events) {
    ev.launch.Ok? ==>
      && (ev.launch.value.payload.cost.Some? ==> ev.launch.value.payload.cost.value >= 0)
      && (ev.poll.Answered? && ev.poll.payload.cost.Some? ==>
            0 <= ev.poll.payload.cost.value <= ChargedBy(ps, ev.launch.value))
  }

  function RowCost(rows: Rows, at: StepRef): Amount {
    if at in rows then rows[at].cost else 0
  }

  /** What one step may do to the run: touch its own entry and its own ledger row, and
      move the commitment by exactly what it cost. */
  ghost predicate Effect(g: Limits, planId: PlanId, ps: PlanStep, st: RunState, st': RunState, i: nat)
    requires i < |st.job.steps|
  {
    && |st'.job.steps| == |st.job.steps|
    && st'.job.steps == st.job.steps[i := st'.job.steps[i]]
    && var s := st'.job.steps[i];
    && s.stepId == st.job.steps[i].stepId && s.cost >= 0 && !Outstanding(s)
    && st'.job.jobId == st.job.jobId
    && st'.committed == st.committed + s.cost
    && !st'.refused
    && RowEffect(planId, ps, st.rows, st'.rows, s.cost)
    && LaunchEffect(g, ps, st, st', i)
  }

  ghost predicate RowEffect(planId: PlanId, ps: PlanStep, rows: Rows, rows': Rows, cost: Amount) {
    var at := (planId, ps.stepId);
    || (rows' == rows && cost == 0)
    || (at in rows' && rows' == rows[at := rows'[at]] && rows'[at].key == ps.key && rows'[at].cost == cost)
  }

  ghost predicate LaunchEffect(g: Limits, ps: PlanStep, st: RunState, st': RunState, i: nat)
    requires i < |st'.job.steps|
  {
    || (st'.launches == st.launches && st'.committed == st.committed && (st.aborted ==> st'.aborted))
    || (exists charged :: Launched(g, ps, st, st', i, charged))
  }

  ghost predicate Launched(g: Limits, ps: PlanStep, st: RunState, st': RunState, i: nat, charged: Amount)
    requires i < |st'.job.steps|
  {
    && !st.aborted
    && st'.launches == st.launches + [Launch(i, ps.GenerateBody(), st.committed, ps.estimate, charged)]
    && 0 <= ps.estimate && st.committed + ps.estimate <= g.spendable
    && 0 <= st'.job.steps[i].cost <= charged
    && (st.committed + charged > g.spendable ==> st'.aborted)
  }

  lemma FreshClaim(planId: PlanId, ps: PlanStep, st: RunState)
    requires (planId, ps.stepId) !in st.rows && !KeyInUse(st.rows, ps.key)
    ensures var at := (planId, ps.stepId);
            ClaimStep(st.rows, at, st.job.jobId, ps.key, ps.GenerateBody()) ==
            Ok(st.rows[at := StepRow(ps.key, st.job.jobId, ps.GenerateBody(), None, StepStatus.Pending, 0)])
  {
  }

  /** The state between the claim and the launch. */
  ghost predicate AtLaunch(g: Limits, planId: PlanId, ps: PlanStep, st: RunState, st1: RunState, i: nat)
    requires i < |st.job.steps|
  {
    var at := (planId, ps.stepId);
    && |st1.job.steps| == |st.job.steps|
    && st1 == st.(job := st.job.(steps := st1.job.steps), rows := st1.rows)
    && st1.job.steps == st.job.steps[i := st1.job.steps[i]]
    && st1.job.steps[i].stepId == st.job.steps[i].stepId && st1.job.steps[i].cost == 0
    && at in st1.rows && st1.rows == st.rows[at := st1.rows[at]]
    && st1.rows[at].key == ps.key && st1.rows[at].cost == 0
  }

  lemma BeginFresh(g: Limits, planId: PlanId, ps: PlanStep, st: RunState, i: nat)
    requires i < |st.job.steps| && Untouched(st.job.steps[i]) && g.spendable <= g.budget
    requires (planId, ps.stepId) !in st.rows && !KeyInUse(st.rows, ps.key)
    requires !st.aborted && !st.refused && ps.stepId == st.job.steps[i].stepId
    ensures match Begin(g, planId, ps, st, i)
            case Finished(st1, end) => !end.Refused? && !end.Fault?
            && Effect(g, planId, ps, st, Conclude(planId, ps, st1, i, end), i)
            case NeedPoll(_, _) => false
            case NeedLaunch(st1) =>
              AtLaunch(g, planId, ps, st, st1, i) && 0 <= ps.estimate && st.committed + ps.estimate <= g.spendable
  {
    FreshClaim(planId, ps, st);
  }

  /** Between the launch and the verdict: charged, recorded, committed. */
  ghost predicate AtWait(g: Limits, planId: PlanId, ps: PlanStep, st: RunState, st2: RunState, i: nat, charged: Amount)
    requires i < |st.job.steps|
  {
    var at := (planId, ps.stepId);
    && |st2.job.steps| == |st.job.steps|
    && st2.job.steps == st.job.steps[i := st2.job.steps[i]]
    && st2.job.steps[i].stepId == st.job.steps[i].stepId && st2.job.steps[i].cost == charged >= 0
    && st2.job.jobId == st.job.jobId && !st2.refused && !st2.aborted
    && st2.committed == st.committed + charged
    && at in st2.rows && st2.rows == st.rows[at := st2.rows[at]]
    && st2.rows[at].key == ps.key && st2.rows[at].cost == charged
    && st2.launches == st.launches + [Launch(i, ps.GenerateBody(), st.committed, ps.estimate, charged)]
  }

  lemma LaunchFresh(g: Limits, planId: PlanId, ps: PlanStep, st: RunState, st1: RunState, i: nat, ev: Events)
    requires i < |st.job.steps| && AtLaunch(g, planId, ps, st, st1, i) && Fair(ps, ev)
    requires !st.aborted && !st.refused && 0 <= st.committed && g.spendable <= g.budget
    requires 0 <= ps.estimate && st.committed + ps.estimate <= g.spendable
    ensures match AfterLaunch(g, planId, ps, st1, i, ev.launch)
            case Finished(st2, end) => !end.Refused? && Effect(g, planId, ps, st, Conclude(planId, ps, st2, i, end), i)
            case NeedPoll(st2, _) =>
              && ev.launch.Ok?
              && AtWait(g, planId, ps, st, st2, i, ChargedBy(ps, ev.launch.value))
              && st.committed + ChargedBy(ps, ev.launch.value) <= g.spendable
            case NeedLaunch(_) => false
  {
    if ev.launch.Err? {
      LaunchFails(g, planId, ps, st, st1, i, ev.launch.error);
    } else if Check(g, st.committed, ChargedBy(ps, ev.launch.value)).Some? {
      LaunchOvercharges(g, planId, ps, st, st1, i, ev);
    } else if ev.launch.value.longVoiceover || ev.launch.value.Id().Some? {
      RecordedWaits(g, planId, ps, st, st1, i, ev.launch.value);
    } else {
      LaunchWithoutId(g, planId, ps, st, st1, i, ev);
    }
  }

  lemma LaunchFails(g: Limits, planId: PlanId, ps: PlanStep, st: RunState, st1: RunState, i: nat, e: VibeError)
    requires i < |st.job.steps| && AtLaunch(g, planId, ps, st, st1, i)
    requires !st.aborted && !st.refused && 0 <= st.committed
    requires 0 <= ps.estimate && st.committed + ps.estimate <= g.spendable
    ensures AfterLaunch(g, planId, ps, st1, i, Err(e)) == Finished(Logged(st1, ps, i, 0), Fault(e))
    ensures Effect(g, planId, ps, st, Conclude(planId, ps, Logged(st1, ps, i, 0), i, Fault(e)), i)
  {
    var after := Conclude(planId, ps, Logged(st1, ps, i, 0), i, Fault(e));
    assert Launched(g, ps, st, after, i, 0);
  }

  lemma LaunchOvercharges(g: Limits, planId: PlanId, ps: PlanStep, st: RunState, st1: RunState, i: nat, ev: Events)
    requires i < |st.job.steps| && AtLaunch(g, planId, ps, st, st1, i) && Fair(ps, ev) && ev.launch.Ok?
    requires !st.aborted && !st.refused && 0 <= st.committed
    requires 0 <= ps.estimate && st.committed + ps.estimate <= g.spendable
    requires Check(g, st.committed, ChargedBy(ps, ev.launch.value)).Some?
    ensures var p := AfterLaunch(g, planId, ps, st1, i, ev.launch);
            p.Finished? && p.end == BudgetStop && Effect(g, planId, ps, st, Conclude(planId, ps, p.state, i, p.end), i)
  {
    var p := AfterLaunch(g, planId, ps, st1, i, ev.launch);
    assert Launched(g, ps, st, Conclude(planId, ps, p.state, i, p.end), i, ChargedBy(ps, ev.launch.value));
  }

  lemma RecordedWaits(g: Limits, planId: PlanId, ps: PlanStep, st: RunState, st1: RunState, i: nat, reply: LaunchReply)
    requires i < |st.job.steps| && AtLaunch(g, planId, ps, st, st1, i)
    requires !st.aborted && !st.refused && ChargedBy(ps, reply) >= 0
    ensures AtWait(g, planId, ps, st, Recorded(planId, ps, st1, i, reply), i, ChargedBy(ps, reply))
  {
  }

  lemma LaunchWithoutId(g: Limits, planId: PlanId, ps: PlanStep, st: RunState, st1: RunState, i: nat, ev: Events)
    requires i < |st.job.steps| && AtLaunch(g, planId, ps, st, st1, i) && Fair(ps, ev) && ev.launch.Ok?
    requires !st.aborted && !st.refused && 0 <= st.committed && g.spendable <= g.budget
    requires 0 <= ps.estimate && st.committed + ps.estimate <= g.spendable
    requires Check(g, st.committed, ChargedBy(ps, ev.launch.value)).None?
    requires !ev.launch.value.longVoiceover && ev.launch.value.Id().None?
    ensures var p := AfterLaunch(g, planId, ps, st1, i, ev.launch);
            p.Finished? && p.end == Done && Effect(g, planId, ps, st, Conclude(planId, ps, p.state, i, p.end), i)
  {
    var reply := ev.launch.value;
    var recorded := Recorded(planId, ps, st1, i, reply);
    RecordedWaits(g, planId, ps, st, st1, i, reply);
    if reply.Terminal() {
      var settled := ev.(poll := Answered(reply.payload));
      WaitFresh(g, planId, ps, st, recorded, i, settled);
      assert Waited(planId, ps, recorded, i, settled.poll) == Conclude(planId, ps,
          Settle(planId, ps, recorded, i, reply.payload), i, Done);
    } else {
      var after := Conclude(planId, ps, MarkFailed(ps, recorded, i, NoGenerationId), i, Done);
      assert Launched(g, ps, st, after, i, ChargedBy(ps, reply));
    }
  }

  lemma WaitFresh(g: Limits, planId: PlanId, ps: PlanStep, st: RunState, st2: RunState, i: nat, ev: Events)
    requires i < |st.job.steps| && ev.launch.Ok? && Fair(ps, ev)
    requires AtWait(g, planId, ps, st, st2, i, ChargedBy(ps, ev.launch.value))
    requires !st.aborted && 0 <= st.committed && st.committed + ChargedBy(ps, ev.launch.value) <= g.spendable
    requires 0 <= ps.estimate && st.committed + ps.estimate <= g.spendable
    ensures Effect(g, planId, ps, st, Waited(planId, ps, st2, i, ev.poll), i)
  {
    var charged := ChargedBy(ps, ev.launch.value);
    match ev.poll {
      case Answered(v) =>
        SettledEffect(g, planId, ps, st, st2, i, charged, v);
        SettlingWait(planId, ps, st2, i, v);
      case TimedOut =>
        assert Launched(g, ps, st, Waited(planId, ps, st2, i, TimedOut), i, charged);
      case Faulted(e) =>
        assert Launched(g, ps, st, Waited(planId, ps, st2, i, Faulted(e)), i, charged);
    }
  }

  lemma SettlingWait(planId: PlanId, ps: PlanStep, st: RunState, i: nat, v: Payload)
    requires i < |st.job.steps|
    ensures Waited(planId, ps, st, i, Answered(v)) == Conclude(planId, ps, Settle(planId, ps, st, i, v), i, Done)
  {
  }

  lemma SettledEffect(g: Limits, planId: PlanId, ps: PlanStep, st: RunState, st2: RunState, i: nat, charged: Amount,
                      v: Payload)
    requires i < |st.job.steps| && AtWait(g, planId, ps, st, st2, i, charged)
    requires v.cost.Some? ==> 0 <= v.cost.value <= charged
    requires !st.aborted && 0 <= st.committed && st.committed + charged <= g.spendable
    requires 0 <= ps.estimate && st.committed + ps.estimate <= g.spendable
    ensures Effect(g, planId, ps, st, Conclude(planId, ps, Settle(planId, ps, st2, i, v), i, Done), i)
  {
    assert Launched(g, ps, st, Conclude(planId, ps, Settle(planId, ps, st2, i, v), i, Done), i, charged);
  }

  /** One turn of the loop on a step that was never reached. */
  lemma StepFresh(g: Limits, planId: PlanId, ps: PlanStep, st: RunState, i: nat, ev: Events)
    requires i < |st.job.steps| && FindStep(st.job.steps, ps.stepId) == Some(i)
    requires Untouched(st.job.steps[i]) && (planId, ps.stepId) !in st.rows && !KeyInUse(st.rows, ps.key)
    requires !st.refused && 0 <= st.committed && g.spendable <= g.budget && Fair(ps, ev)
    ensures Effect(g, planId, ps, st, OneStep(g, planId, ps, st, ev), i)
  {
    if !st.aborted {
      BeginFresh(g, planId, ps, st, i);
      match Begin(g, planId, ps, st, i) {
        case Finished(_, _) =>
        case NeedPoll(_, _) =>
        case NeedLaunch(st1) =>
          LaunchFresh(g, planId, ps, st, st1, i, ev);
          match AfterLaunch(g, planId, ps, st1, i, ev.launch) {
            case Finished(_, _) =>
            case NeedPoll(st2, _) => WaitFresh(g, planId, ps, st, st2, i, ev);
            case NeedLaunch(_) =>
          }
      }
    }
  }

  // ---------------------------------------------------------------------------
  // Over a whole run
  // ---------------------------------------------------------------------------

  /** No launch was made outside the envelope, and only the last one can have broken it. */
  ghost predicate Bounded(g: Limits, st: RunState, n: nat) {
    var ls := st.launches;
    && (forall k :: 0 <= k < |ls| ==>
          0 <= ls[k].estimate && ls[k].before + ls[k].estimate <= g.spendable && ls[k].at < n)
    && (forall k, l :: 0 <= k < l < |ls| ==> ls[k].at < ls[l].at && ls[k].before + ls[k].charged <= g.spendable)
    && (!st.aborted ==> forall k :: 0 <= k < |ls| ==> ls[k].before + ls[k].charged <= g.spendable)
    && (st.committed <= g.spendable || (ls != [] && st.committed <= ls[|ls| - 1].before + ls[|ls| - 1].charged))
  }

  ghost predicate Accounted(planId: PlanId, steps: seq<PlanStep>, st: RunState, i: nat)
    requires i < |steps| == |st.job.steps|
  {
    var s := st.job.steps[i];
    s.cost >= 0 && !Outstanding(s) && RowCost(st.rows, (planId, steps[i].stepId)) == s.cost
  }

  ghost predicate RunInv(g: Limits, planId: PlanId, steps: seq<PlanStep>, st: RunState, n: nat) {
    && DistinctSteps(steps) && Matches(steps, st.job) && n <= |steps|
    && (forall i :: n <= i < |steps| ==> NotReached(planId, steps, st, i))
    && (forall i :: 0 <= i < n ==> Accounted(planId, steps, st, i))
    && st.committed == TotalCost(st.job.steps)
    && !st.refused
    && Bounded(g, st, n)
  }

  lemma EffectKeepsRows(planId: PlanId, steps: seq<PlanStep>, st: RunState, st': RunState, n: nat)
    requires DistinctSteps(steps) && Matches(steps, st.job) && n < |steps|
    requires forall i :: n <= i < |steps| ==> NotReached(planId, steps, st, i)
    requires forall i :: 0 <= i < n ==> Accounted(planId, steps, st, i)
    requires |st'.job.steps| == |steps| && st'.job.steps == st.job.steps[n := st'.job.steps[n]]
    requires st'.job.steps[n].cost >= 0 && !Outstanding(st'.job.steps[n])
    requires RowEffect(planId, steps[n], st.rows, st'.rows, st'.job.steps[n].cost)
    ensures forall i :: n + 1 <= i < |steps| ==> NotReached(planId, steps, st', i)
    ensures forall i :: 0 <= i < n + 1 ==> Accounted(planId, steps, st', i)
  {
    var at := (planId, steps[n].stepId);
    forall i | n + 1 <= i < |steps| ensures NotReached(planId, steps, st', i) {
      assert NotReached(planId, steps, st, i);
      assert steps[n].stepId != steps[i].stepId && steps[n].key != steps[i].key;
      assert forall r :: r in st'.rows ==> r == at || (r in st.rows && st'.rows[r] == st.rows[r]);
    }
    assert NotReached(planId, steps, st, n);
    forall i | 0 <= i < n + 1 ensures Accounted(planId, steps, st', i) {
      if i < n {
        assert Accounted(planId, steps, st, i);
        assert steps[i].stepId != steps[n].stepId;
      }
    }
  }

  lemma EffectKeepsBound(g: Limits, planId: PlanId, ps: PlanStep, st: RunState, st': RunState, n: nat)
    requires n < |st.job.steps| && Effect(g, planId, ps, st, st', n)
    requires Bounded(g, st, n)
    ensures Bounded(g, st', n + 1)
  {
    if st'.launches == st.launches && st'.committed == st.committed && (st.aborted ==> st'.aborted) {
    } else {
      var charged :| Launched(g, ps, st, st', n, charged);
      var ls, ls' := st.launches, st'.launches;
      assert forall k :: 0 <= k < |ls| ==> ls'[k] == ls[k];
      assert ls'[|ls|] == Launch(n, ps.GenerateBody(), st.committed, ps.estimate, charged);
    }
  }

  lemma FoundAt(steps: seq<PlanStep>, job: Job, i: nat)
    requires DistinctSteps(steps) && Matches(steps, job) && i < |steps|
    ensures FindStep(job.steps, steps[i].stepId) == Some(i)
  {
    assert forall k :: 0 <= k < i ==> job.steps[k].stepId == steps[k].stepId != steps[i].stepId;
  }

  lemma FreshKeepsInv(g: Limits, planId: PlanId, steps: seq<PlanStep>, start: RunState)
    requires 0 <= g.spendable && Fresh(planId, steps, start)
    ensures RunInv(g, planId, steps, start, 0)
  {
    forall k | 0 <= k < |steps| ensures Costs(start.job.steps)[k] == 0 {
      assert NotReached(planId, steps, start, k);
    }
    SumOfZeros(Costs(start.job.steps));
  }

  lemma TurnKeepsInv(g: Limits, planId: PlanId, steps: seq<PlanStep>, st: RunState, n: nat, ev: Events, st': RunState)
    requires 0 <= g.spendable <= g.budget && n < |steps| && RunInv(g, planId, steps, st, n) && Fair(steps[n], ev)
    requires IsTurn(g, planId, steps[n], st, ev, st')
    ensures RunInv(g, planId, steps, st', n + 1)
  {
    StepKeepsInv(g, planId, steps, st, n, ev);
  }

  ghost predicate AllFair(steps: seq<PlanStep>, evs: seq<Events>) {
    |evs| == |steps| && forall k :: 0 <= k < |evs| ==> Fair(steps[k], evs[k])
  }

  lemma {:induction false} TraceKeepsInv(g: Limits, planId: PlanId, steps: seq<PlanStep>, evs: seq<Events>,
                                         tr: seq<RunState>, n: nat)
    requires 0 <= g.spendable <= g.budget && AllFair(steps, evs) && IsRun(g, planId, steps, evs, tr)
    requires n <= |steps| && RunInv(g, planId, steps, tr[0], 0)
    ensures RunInv(g, planId, steps, tr[n], n)
  {
    if n > 0 {
      TraceKeepsInv(g, planId, steps, evs, tr, n - 1);
      TraceTurnKeepsInv(g, planId, steps, evs, tr, n - 1);
    }
  }

  lemma TraceTurnKeepsInv(g: Limits, planId: PlanId, steps: seq<PlanStep>, evs: seq<Events>, tr: seq<RunState>, n: nat)
    requires 0 <= g.spendable <= g.budget && AllFair(steps, evs) && IsRun(g, planId, steps, evs, tr)
    requires n < |steps| && RunInv(g, planId, steps, tr[n], n)
    ensures RunInv(g, planId, steps, tr[n + 1], n + 1)
  {
    assert IsTurn(g, planId, steps[n], tr[n], evs[n], tr[n + 1]);
    TurnKeepsInv(g, planId, steps, tr[n], n, evs[n], tr[n + 1]);
  }

  /** Every fresh run keeps the invariant, on every platform with fair answers. */
  lemma FreshRunKeepsInv(g: Limits, planId: PlanId, steps: seq<PlanStep>, evs: seq<Events>, tr: seq<RunState>)
    requires 0 <= g.spendable <= g.budget && IsRun(g, planId, steps, evs, tr)
    requires Fresh(planId, steps, tr[0]) && AllFair(steps, evs)
    ensures RunInv(g, planId, steps, tr[|steps|], |steps|)
  {
    FreshKeepsInv(g, planId, steps, tr[0]);
    TraceKeepsInv(g, planId, steps, evs, tr, |steps|);
  }

  lemma CostsNonNegative(planId: PlanId, steps: seq<PlanStep>, st: RunState, n: nat)
    requires Matches(steps, st.job) && n <= |steps|
    requires forall i :: n <= i < |steps| ==> NotReached(planId, steps, st, i)
    requires forall i :: 0 <= i < n ==> Accounted(planId, steps, st, i)
    ensures TotalCost(st.job.steps) >= 0
  {
    forall k | 0 <= k < |steps| ensures Costs(st.job.steps)[k] >= 0 {
      if k < n {
        assert Accounted(planId, steps, st, k);
      } else {
        assert NotReached(planId, steps, st, k);
      }
    }
    SumNonNegative(Costs(st.job.steps));
  }

  lemma StepKeepsInv(g: Limits, planId: PlanId, steps: seq<PlanStep>, st: RunState, n: nat, ev: Events)
    requires 0 <= g.spendable <= g.budget && n < |steps| && RunInv(g, planId, steps, st, n) && Fair(steps[n], ev)
    ensures RunInv(g, planId, steps, OneStep(g, planId, steps[n], st, ev), n + 1)
    ensures Effect(g, planId, steps[n], st, OneStep(g, planId, steps[n], st, ev), n)
  {
    FoundAt(steps, st.job, n);
    CostsNonNegative(planId, steps, st, n);
    assert NotReached(planId, steps, st, n);
    StepFresh(g, planId, steps[n], st, n, ev);
    var st' := OneStep(g, planId, steps[n], st, ev);
    EffectKeepsRows(planId, steps, st, st', n);
    EffectKeepsBound(g, planId, steps[n], st, st', n);
    TotalOfUpdate(st.job.steps, n, st'.job.steps[n]);
  }

  function RowCosts(planId: PlanId, steps: seq<PlanStep>, rows: Rows): seq<Amount> {
    seq(|steps|, i requires 0 <= i < |steps| => RowCost(rows, (planId, steps[i].stepId)))
  }

  lemma RowsMatchSteps(planId: PlanId, steps: seq<PlanStep>, st: RunState)
    requires |st.job.steps| == |steps| && forall i :: 0 <= i < |steps| ==> Accounted(planId, steps, st, i)
    ensures RowCosts(planId, steps, st.rows) == Costs(st.job.steps)
  {
    forall k | 0 <= k < |steps| ensures RowCosts(planId, steps, st.rows)[k] == Costs(st.job.steps)[k] {
      assert Accounted(planId, steps, st, k);
    }
  }

  /** The guard, the job document and the ledger name the same sum. */
  ghost predicate OneSum(planId: PlanId, steps: seq<PlanStep>, st: RunState) {
    st.committed == FinalJob(st).cost == TotalCost(FinalJob(st).steps) == Sum(RowCosts(planId, steps, st.rows))
  }

  lemma FinishedRunAddsUp(g: Limits, planId: PlanId, steps: seq<PlanStep>, st: RunState)
    requires RunInv(g, planId, steps, st, |steps|)
    ensures OneSum(planId, steps, st)
    ensures forall k :: 0 <= k < |st.job.steps| ==> !Outstanding(st.job.steps[k])
  {
    RowsMatchSteps(planId, steps, st);
    forall k | 0 <= k < |st.job.steps| ensures !Outstanding(st.job.steps[k]) {
      assert Accounted(planId, steps, st, k);
    }
  }

  /** After a fresh run, whatever the platform did, the guard, the job document and the
      ledger name the same sum, and no step is left outstanding. */
  lemma InternalBooksAgree(g: Limits, planId: PlanId, steps: seq<PlanStep>, evs: seq<Events>, tr: seq<RunState>)
    requires 0 <= g.spendable <= g.budget && IsRun(g, planId, steps, evs, tr)
    requires Fresh(planId, steps, tr[0]) && AllFair(steps, evs)
    ensures var st := tr[|steps|];
            && !st.refused && OneSum(planId, steps, st)
            && (forall k :: 0 <= k < |st.job.steps| ==> !Outstanding(st.job.steps[k]))
  {
    FreshRunKeepsInv(g, planId, steps, evs, tr);
    FinishedRunAddsUp(g, planId, steps, tr[|steps|]);
  }

  /** Before every launch the commitment and the planned price fit the envelope; each step
      is launched at most once; a charge that breaks the envelope is followed by no
      further launch, and then the excess is at most what that one step was charged
      above its plan. */
  ghost predicate SpendBounded(g: Limits, st: RunState) {
    var ls := st.launches;
    && (forall k :: 0 <= k < |ls| ==> ls[k].before + ls[k].estimate <= g.spendable)
    && (forall k, l :: 0 <= k < l < |ls| ==> ls[k].at != ls[l].at)
    && (forall k :: 0 <= k < |ls| && ls[k].before + ls[k].charged > g.spendable ==> k == |ls| - 1 && st.aborted)
    && (st.committed <= g.spendable ||
        (ls != [] && st.committed - g.spendable <= ls[|ls| - 1].charged - ls[|ls| - 1].estimate))
  }

  lemma BoundedIsSpendBounded(g: Limits, st: RunState, n: nat)
    requires Bounded(g, st, n)
    ensures SpendBounded(g, st)
  {
    var ls := st.launches;
    forall k | 0 <= k < |ls| - 1 ensures ls[k].before + ls[k].charged <= g.spendable {
      assert ls[k].at < ls[|ls| - 1].at;
    }
    forall k, l | 0 <= k < l < |ls| ensures ls[k].at != ls[l].at {
      assert ls[k].at < ls[l].at;
    }
  }

  /** Spend bound, over every fresh run, whatever the platform answers. */
  lemma SpendStaysBounded(g: Limits, planId: PlanId, steps: seq<PlanStep>, evs: seq<Events>, tr: seq<RunState>)
    requires 0 <= g.spendable <= g.budget && IsRun(g, planId, steps, evs, tr)
    requires Fresh(planId, steps, tr[0]) && AllFair(steps, evs)
    ensures SpendBounded(g, tr[|steps|])
  {
    FreshRunKeepsInv(g, planId, steps, evs, tr);
    BoundedIsSpendBounded(g, tr[|steps|], |steps|);
  }

  // ---------------------------------------------------------------------------
  // Over every run, fresh or resumed
  // ---------------------------------------------------------------------------

  /** The launch is the plan step's: its format, model, parameters and key, at its price. */
  ghost predicate IsLaunchOf(ps: PlanStep, l: Launch) {
    && ps.kind == Generation && l.estimate == ps.estimate
    && l.body.format == ps.format && l.body.model == ps.model && l.body.params == ps.params && l.body.key == ps.key
  }

  ghost predicate LaunchesOne(steps: seq<PlanStep>, l: Launch) {
    exists n :: 0 <= n < |steps| && IsLaunchOf(steps[n], l)
  }

  /** Each launch was one of the plan's steps and passed the guard: ceiling, envelope,
      balance and day. */
  ghost predicate AllChecked(g: Limits, steps: seq<PlanStep>, ls: seq<Launch>) {
    forall k :: 0 <= k < |ls| ==> MaySpend(g, ls[k].before, ls[k].estimate) && LaunchesOne(steps, ls[k])
  }

  /** A turn launches nothing, or its own step, within what the guard allows beside all
      that is committed; once the run is aborted, nothing. */
  ghost predicate LaunchesAtMost(g: Limits, ps: PlanStep, st: RunState, st': RunState) {
    || st'.launches == st.launches
    || (&& |st'.launches| == |st.launches| + 1 && st'.launches[..|st.launches|] == st.launches && !st.aborted
        && var l := st'.launches[|st.launches|];
        && l.before == st.committed && IsLaunchOf(ps, l) && MaySpend(g, l.before, l.estimate))
  }

  lemma ConcludeLaunchesNothing(planId: PlanId, ps: PlanStep, st: RunState, i: nat, end: StepEnd)
    requires i < |st.job.steps|
    ensures Conclude(planId, ps, st, i, end).launches == st.launches
    ensures st.aborted ==> Conclude(planId, ps, st, i, end).aborted
  {
  }

  lemma WaitLaunchesNothing(planId: PlanId, ps: PlanStep, st: RunState, i: nat, poll: PollEvent)
    requires i < |st.job.steps|
    ensures Waited(planId, ps, st, i, poll).launches == st.launches
  {
    var (st1, end) := AfterPoll(planId, ps, st, i, poll);
    ConcludeLaunchesNothing(planId, ps, st1, i, end);
  }

  lemma BeginChecks(g: Limits, planId: PlanId, ps: PlanStep, st: RunState, i: nat)
    requires i < |st.job.steps|
    ensures var p := Begin(g, planId, ps, st, i);
            && p.state.launches == st.launches && p.state.committed == st.committed
            && (p.NeedLaunch? ==> MaySpend(g, st.committed, ps.estimate) && ps.kind == Generation)
  {
    RefusalsMean(g, st.committed, ps.estimate);
  }

  lemma LaunchIsLogged(g: Limits, planId: PlanId, ps: PlanStep, st: RunState, i: nat,
                       launch: Result<LaunchReply, VibeError>)
    requires i < |st.job.steps| && MaySpend(g, st.committed, ps.estimate) && ps.kind == Generation && !st.aborted
    ensures LaunchesAtMost(g, ps, st, AfterLaunch(g, planId, ps, st, i, launch).state)
  {
    var charged := if launch.Ok? then ChargedBy(ps, launch.value) else 0;
    var l := Launch(i, ps.GenerateBody(), st.committed, ps.estimate, charged);
    assert AfterLaunch(g, planId, ps, st, i, launch).state.launches == st.launches + [l];
    assert IsLaunchOf(ps, l);
  }

  lemma TurnChecks(g: Limits, planId: PlanId, ps: PlanStep, st: RunState, ev: Events, st': RunState)
    requires IsTurn(g, planId, ps, st, ev, st')
    ensures LaunchesAtMost(g, ps, st, st')
    ensures st.aborted ==> st'.aborted && st'.launches == st.launches
  {
    if ToBeRun(st, ps) {
      var i := FindStep(st.job.steps, ps.stepId).value;
      var p := Begin(g, planId, ps, st, i);
      BeginChecks(g, planId, ps, st, i);
      if p.Finished? {
        ConcludeLaunchesNothing(planId, ps, p.state, i, p.end);
      } else if p.NeedPoll? {
        WaitLaunchesNothing(planId, ps, p.state, i, ev.poll);
      } else {
        var q := AfterLaunch(g, planId, ps, p.state, i, ev.launch);
        LaunchIsLogged(g, planId, ps, p.state, i, ev.launch);
        if q.Finished? {
          ConcludeLaunchesNothing(planId, ps, q.state, i, q.end);
        } else {
          WaitLaunchesNothing(planId, ps, q.state, i, ev.poll);
        }
      }
    }
  }

  lemma CheckedOnceMore(g: Limits, steps: seq<PlanStep>, n: nat, st: RunState, st': RunState)
    requires n < |steps| && LaunchesAtMost(g, steps[n], st, st') && AllChecked(g, steps, st.launches)
    ensures AllChecked(g, steps, st'.launches)
  {
    forall k | 0 <= k < |st'.launches|
      ensures MaySpend(g, st'.launches[k].before, st'.launches[k].estimate) && LaunchesOne(steps, st'.launches[k])
    {
      if k < |st.launches| {
        assert st'.launches[k] == st.launches[k];
      }
    }
  }

  /** On every run, fresh or resumed and on every platform, each launch was one of the plan's
      steps, and the guard passed it at the moment it was made. */
  lemma {:induction false} EveryLaunchIsChecked(g: Limits, planId: PlanId, steps: seq<PlanStep>, evs: seq<Events>,
                                                tr: seq<RunState>, n: nat)
    requires IsRun(g, planId, steps, evs, tr) && n <= |steps| && tr[0].launches == []
    ensures AllChecked(g, steps, tr[n].launches)
  {
    if n > 0 {
      var k := n - 1;
      EveryLaunchIsChecked(g, planId, steps, evs, tr, k);
      assert IsTurn(g, planId, steps[k], tr[k], evs[k], tr[k + 1]);
      TurnChecks(g, planId, steps[k], tr[k], evs[k], tr[k + 1]);
      CheckedOnceMore(g, steps, k, tr[k], tr[k + 1]);
    }
  }
}
