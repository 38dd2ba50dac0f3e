/** What becomes of a verdict over a whole run: one figure, in the document, in the ledger
    and at the guard, on every platform. */
module Booked {
  import opened Domain
  import opened Budget
  import opened WireModel
  import opened Execution
  import opened Spending
  import opened Endings
  import opened Shapes
  import opened Late

  /** In a fresh run every step the loop comes to can be claimed. */
  lemma FreshIsClaimable(g: Limits, planId: PlanId, steps: seq<PlanStep>, evs: seq<Events>, tr: seq<RunState>, n: nat)
    requires IsRun(g, planId, steps, evs, tr) && Fresh(planId, steps, tr[0]) && n < |steps|
    ensures Claimable(planId, steps[n], tr[n].rows) && (!tr[n].aborted ==> ItsTurn(tr[n], steps[n], n))
  {
    RunIsShaped(g, planId, steps, evs, tr);
    assert RunShape(planId, steps, tr[n], n);
    FoundAt(steps, tr[n].job, n);
    assert NotReached(planId, steps, tr[n], n);
  }

  lemma StaysSolvent(g: Limits, planId: PlanId, steps: seq<PlanStep>, evs: seq<Events>, tr: seq<RunState>, n: nat)
    requires IsRun(g, planId, steps, evs, tr) && Fresh(planId, steps, tr[0]) && n <= |steps| && AllSane(evs)
    requires !tr[n].aborted
    ensures 0 <= tr[n].committed
  {
    RunIsShaped(g, planId, steps, evs, tr);
    RunIsSolvent(g, planId, steps, evs, tr, n);
  }

  lemma TurnIsBooked(g: Limits, planId: PlanId, ps: PlanStep, st: RunState, i: nat, ev: Events, st': RunState,
                     v: Payload)
    requires IsTurn(g, planId, ps, st, ev, st') && Hears(g, planId, ps, st, i, ev, v)
    ensures OnlyItsOwn(planId, ps, st, st', i) && Booked(planId, ps, ev.launch.value, v, st', i)
    ensures 0 <= st.committed ==> st'.committed == st.committed + st'.job.steps[i].cost
  {
    VerdictIsWrittenDown(g, planId, ps, st, i, ev, v);
  }

  /** A verdict is booked as it was heard: on every platform, at every step of a fresh run,
      the step, its ledger row and (no verdict naming a negative cost) the guard all move
      to the one figure that charge and verdict determine. */
  lemma VerdictIsBooked(g: Limits, planId: PlanId, steps: seq<PlanStep>, evs: seq<Events>, tr: seq<RunState>, n: nat,
                        v: Payload)
    requires IsRun(g, planId, steps, evs, tr) && Fresh(planId, steps, tr[0]) && n < |steps|
    requires Hears(g, planId, steps[n], tr[n], n, evs[n], v)
    ensures n < |tr[n].job.steps| && OnlyItsOwn(planId, steps[n], tr[n], tr[n + 1], n)
            && Booked(planId, steps[n], evs[n].launch.value, v, tr[n + 1], n)
    ensures AllSane(evs) ==> tr[n + 1].committed == tr[n].committed + tr[n + 1].job.steps[n].cost
  {
    assert IsTurn(g, planId, steps[n], tr[n], evs[n], tr[n + 1]);
    TurnIsBooked(g, planId, steps[n], tr[n], n, evs[n], tr[n + 1], v);
    if AllSane(evs) {
      StaysSolvent(g, planId, steps, evs, tr, n);
    }
  }

  /** The same for a run driven by any platform. */
  lemma DrivenVerdictIsBooked<S>(wire: Wire<S>, pace: Pace, g: Limits, planId: PlanId, steps: seq<PlanStep>,
                                 tr: seq<(S, RunState)>, n: nat, v: Payload)
    requires pace.interval > 0 && IsHistory(wire, pace, g, planId, steps, tr) && |tr| == |steps| + 1
    requires Fresh(planId, steps, tr[0].1) && n < |steps|
    requires Hears(g, planId, steps[n], tr[n].1, n, EventsOf(wire, pace, g, planId, steps, tr)[n], v)
    ensures n < |tr[n].1.job.steps| && OnlyItsOwn(planId, steps[n], tr[n].1, tr[n + 1].1, n)
            && Booked(planId, steps[n], EventsOf(wire, pace, g, planId, steps, tr)[n].launch.value, v, tr[n + 1].1, n)
    ensures AllSane(EventsOf(wire, pace, g, planId, steps, tr)) ==>
              tr[n + 1].1.committed == tr[n].1.committed + tr[n + 1].1.job.steps[n].cost
  {
    HistoryIsRun(wire, pace, g, planId, steps, tr);
    VerdictIsBooked(g, planId, steps, EventsOf(wire, pace, g, planId, steps, tr), StatesOf(tr), n, v);
  }
}
