/** A plan the recheck lets through and the guard then stops half-way, over one kopeck. */
module Drift {
  import opened Money
  import opened Domain
  import opened Budget
  import opened PlanBuilder
  import opened Recheck
  import opened Execution
  import opened Spending
  import opened Endings
  import opened Books
  import opened JobRun
  import opened Covered
  import P = Platform

  const PICTURE := PlanStep("a", Image, Generation, "m", "", StepKey("p", "a", "m", ""), 5000 * KOPECK, None)
  const CLIP := PlanStep("b", Video, Generation, "m", "", StepKey("p", "b", "m", ""), 5000 * KOPECK, None)
  const BOTH := [PICTURE, CLIP]
  const ENVELOPE: Amount := 10000 * KOPECK

  /** Planned at fifty rubles each, now a kopeck more and a kopeck less. */
  function Drifted(): P.Config {
    P.Config(100000, 0, (b: Body) => Ok(P.Quote(if b.format == Image then 5001 else 4999, false, false, false, None)))
  }

  function Start(): RunState {
    RunState(Started(Job("j", "p", JobStatus.Queued, 0, NewSteps(BOTH), [], 0)), 0, map[], [], false, false)
  }

  function Guarded(): Limits {
    Limits(ENVELOPE, ENVELOPE,
           Some(Account(Some(P.Rubles(100000)), Some(P.Rubles(100000)), Some(P.Rubles(0)))))
  }

  lemma DriftIsAcceptable(account: Account)
    ensures AllAcceptable(MockWire(Drifted()), P.Fresh(100000, 0), account, BOTH, 2)
    ensures Reserves(Drifted(), BOTH, 2) == 10000
  {
    forall k | 0 <= k < 2
      ensures Acceptable(BOTH[k], ReplyAt(MockWire(Drifted()), P.Fresh(100000, 0), account, BOTH, k))
    {
      ReplyIsMock(Drifted(), P.Fresh(100000, 0), account, BOTH, k);
    }
    assert Reserves(Drifted(), BOTH, 1) == Reserves(Drifted(), BOTH, 0) + Reserve(Drifted(), BOTH[0]);
  }

  /** The recheck lets the plan through as it is: the sum has not moved. */
  lemma DriftIsLetThrough(account: Account)
    ensures var r := Rechecked(MockWire(Drifted()), P.Fresh(100000, 0), account, BOTH, ENVELOPE);
            r.blockers == [] && r.steps == BOTH && Guarded().account == Some(r.account)
  {
    var wire, s := MockWire(Drifted()), P.Fresh(100000, 0);
    DriftIsAcceptable(account);
    PricesAreReserves(Drifted(), s, account, BOTH, 2);
    assert BOTH[0].kind.Generation?;
    EchoIsTheAccount(Drifted(), s, account, BOTH);
    RecheckIsExact(wire, s, account, BOTH, ENVELOPE);
    RecheckOnlyLowers(wire, s, account, BOTH, 2);
    assert BOTH[..2] == BOTH;
    forall k | 0 <= k < 2 ensures RecheckUpTo(wire, s, account, BOTH, 2).steps[k] == BOTH[k] {
      NotRepriced(account, k);
    }
  }

  lemma NotRepriced(account: Account, k: nat)
    requires k < 2
    ensures var steps := RecheckUpTo(MockWire(Drifted()), P.Fresh(100000, 0), account, BOTH, 2).steps;
            |steps| == 2 && steps[k] == BOTH[k]
  {
    var wire, s := MockWire(Drifted()), P.Fresh(100000, 0);
    ReplyIsMock(Drifted(), s, account, BOTH, 0);
    ReplyIsMock(Drifted(), s, account, BOTH, 1);
    assert RecheckUpTo(wire, s, account, BOTH, 0) == Begun(s, account);
    assert RecheckUpTo(wire, s, account, BOTH, 1).steps == [PICTURE];
  }

  lemma DriftStartIsFresh()
    ensures Fresh("p", BOTH, Start()) && PricesByModel(Drifted()) && !Undrifted(Drifted(), BOTH)
    ensures TotalEstimate(BOTH) == ENVELOPE
  {
    assert "a"[0] == 'a' && "b"[0] == 'b';
    assert BOTH[1].kind == Generation;
    assert Estimates(BOTH)[..1] == [5000 * KOPECK];
    assert [5000 * KOPECK][..0] == [];
    assert Sum([5000 * KOPECK]) == 5000 * KOPECK;
  }

  lemma PictureIsReady()
    ensures ReadyToLaunch(Guarded(), "p", PICTURE, Start(), 0) && RunInv(Guarded(), "p", BOTH, Start(), 0)
    ensures Honest(Guarded(), "p", BOTH, P.Fresh(100000, 0), P.Fresh(100000, 0), Start(), 0)
  {
    DriftStartIsFresh();
    HonestStart(Guarded(), "p", BOTH, P.Fresh(100000, 0), Start());
    FoundAt(BOTH, Start().job, 0);
    assert NotReached("p", BOTH, Start(), 0) && ItsTurn(Start(), PICTURE, 0);
  }

  /** Whether it is answered or times out, a step that does not fail commits its charge. */
  lemma ChargeIsCommitted(g: Limits, planId: PlanId, ps: PlanStep, st: RunState, i: nat, ev: Events, charged: nat)
    requires ev.launch.Ok? && Waits(g, planId, ps, st, i, ev.launch.value) && !ev.poll.Faulted? && 0 <= st.committed
    requires IsCharge(ps, ev.launch.value, P.Rubles(charged))
    requires ev.poll.Answered? ==> IsVerdict(P.Record(charged, false, false), ev.poll.payload)
    ensures OneStep(g, planId, ps, st, ev).committed == st.committed + P.Rubles(charged)
  {
    if ev.poll.TimedOut? {
      TimeoutLeavesItRunning(g, planId, ps, st, i, ev);
    } else {
      VerdictIsWrittenDown(g, planId, ps, st, i, ev, ev.poll.payload);
    }
  }

  /** What the platform and the executor make of the first step. */
  ghost function FirstTurn(pace: Pace): (P.State, RunState, Events)
    requires pace.interval > 0
  {
    DriveStep(MockWire(Drifted()), P.Fresh(100000, 0), pace, Guarded(), "p", PICTURE, Start())
  }

  lemma PictureKeepsInv(pace: Pace)
    requires pace.interval > 0
    ensures RunInv(Guarded(), "p", BOTH, FirstTurn(pace).1, 1)
  {
    PictureIsReady();
    HonestStep(Drifted(), pace, Guarded(), "p", BOTH, P.Fresh(100000, 0), P.Fresh(100000, 0), Start(), 0);
  }

  lemma PictureIsWaitedFor(pace: Pace)
    requires pace.interval > 0
    ensures var d := FirstTurn(pace);
            && d.2.launch.Ok? && d.1 == OneStep(Guarded(), "p", PICTURE, Start(), d.2) && !d.2.poll.Faulted?
            && Waits(Guarded(), "p", PICTURE, Start(), 0, d.2.launch.value) && d.2.launch.value.Id().Some?
            && IsCharge(PICTURE, d.2.launch.value, P.Rubles(5001))
            && (d.2.poll.Answered? ==> IsVerdict(P.Record(5001, false, false), d.2.poll.payload))
  {
    DriftStartIsFresh();
    PictureIsReady();
    LaunchIsWaitedFor(Drifted(), P.Fresh(100000, 0), pace, Guarded(), "p", PICTURE, Start(), 0);
  }

  /** The first step is paid for as quoted, a kopeck above its plan. */
  lemma PictureIsPaid(pace: Pace)
    requires pace.interval > 0
    ensures var st := FirstTurn(pace).1;
            && RunInv(Guarded(), "p", BOTH, st, 1) && !st.aborted && st.committed == 5001 * KOPECK
            && |st.job.steps| == 2 && CarriedOut(PICTURE, st.job.steps[0])
  {
    PictureKeepsInv(pace);
    PictureIsWaitedFor(pace);
    WaitCarriesOut(Guarded(), "p", PICTURE, Start(), 0, FirstTurn(pace).2);
    ChargeIsCommitted(Guarded(), "p", PICTURE, Start(), 0, FirstTurn(pace).2, 5001);
  }

  /** A plan the recheck lets through unchanged can still be stopped half-way by the guard:
      two steps planned at fifty rubles each in an envelope of a hundred, now quoted a
      kopeck above and a kopeck below. The first is charged its quote; the second no longer
      fits at its planned price, and is skipped. */
  lemma DriftStopsThePlan(account: Account, pace: Pace)
    requires pace.interval > 0
    ensures var wire, s := MockWire(Drifted()), P.Fresh(100000, 0);
            var r := Rechecked(wire, s, account, BOTH, ENVELOPE);
            var first := FirstTurn(pace);
            var second := DriveStep(wire, first.0, pace, Guarded(), "p", CLIP, first.1);
            && PricesByModel(Drifted()) && TotalEstimate(BOTH) == ENVELOPE
            && r.blockers == [] && r.steps == BOTH && Guarded().account == Some(r.account)
            && |first.1.job.steps| == 2 && CarriedOut(PICTURE, first.1.job.steps[0])
            && EndedBadly(second.1, CLIP, 1, StepStatus.Skipped, OverBudget) && second.1.aborted
            && second.1.launches == first.1.launches && second.1.committed == 5001 * KOPECK
  {
    DriftStartIsFresh();
    DriftIsLetThrough(account);
    PictureIsPaid(pace);
    var wire, first := MockWire(Drifted()), FirstTurn(pace);
    FoundAt(BOTH, first.1.job, 1);
    assert NotReached("p", BOTH, first.1, 1) && ItsTurn(first.1, CLIP, 1);
    DriveStepIsOneStep(wire, first.0, pace, Guarded(), "p", CLIP, first.1);
    UnaffordableStops(Guarded(), "p", CLIP, first.1, 1,
                      DriveStep(wire, first.0, pace, Guarded(), "p", CLIP, first.1).2);
  }
}
