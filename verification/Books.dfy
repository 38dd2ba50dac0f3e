/** The run against the simulated platform: what the account lost is what the service
    says it spent. */
module Books {
  import opened Money
  import opened Domain
  import opened Budget
  import opened Settlement
  import opened Ledger
  import opened WireModel
  import opened Execution
  import opened Spending
  import PlanCreation
  import P = Platform

  function MockEstimate(c: P.Config, s: P.State, e: EstimateBody): Result<EstimatePayload, VibeError> {
    var quoted := c.quote(Body(e.format, e.model, e.params, NoKey));
    if quoted.Err? then Err(quoted.error)
    else
      var q := quoted.value;
      Ok(EstimatePayload(
           false,
           if q.tokenBilled then None else Some(P.Rubles(q.reserve)),
           Some(P.Rubles(s.balance)),
           if q.tokenBilled then Some(P.Rubles(s.balance - q.reserve)) else None,
           Some(P.Rubles(c.dailyLimit)), Some(P.Rubles(s.spentToday)),
           s.spentToday + q.reserve > c.dailyLimit))
  }

  function MockStatus(c: P.Config, s: P.State, h: Handle): (P.State, Result<Payload, VibeError>) {
    if h.id.None? then (s, Err(Api(404, "not_found")))
    else if h.voiceover then P.VoiceoverStatus(c, s, h.id.value)
    else P.GenerationStatus(c, s, h.id.value)
  }

  /** The simulated platform as a wire. */
  function MockWire(c: P.Config): Wire<P.State> {
    Wire(
      (s: P.State, b: Body) => P.Generate(c, s, b),
      (s: P.State, h: Handle) => MockStatus(c, s, h),
      (s: P.State, e: EstimateBody) => (s, MockEstimate(c, s, e)),
      (s: P.State) => (s,
          Ok(Account(Some(P.Rubles(s.balance)), Some(P.Rubles(c.dailyLimit)), Some(P.Rubles(s.spentToday))))),
      (s: P.State) => (s, Ok(Some(P.Rubles(s.balance)))))
  }

  /** The account check against a snapshot just read decides as the platform will: with
      reserve `q.reserve`, a launch under a new key is accepted exactly if the check passes
      and the day is not overspent already; it is refused for want of balance exactly if
      the check says so, and otherwise for the day. */
  lemma CheckedLaunchIsAccepted(c: P.Config, s: P.State, b: Body, q: P.Quote, g: Limits)
    requires b.key != NoKey && b.key !in s.replies && c.quote(b) == Ok(q)
    requires g.account == Some(Snapshot(MockWire(c), s).1)
    ensures var r, launch := CheckAccount(g, P.Rubles(q.reserve)), P.Generate(c, s, b).1;
            && (launch.Ok? <==> r.None? && (q.reserve > 0 || s.spentToday <= c.dailyLimit))
            && (launch == Err(Api(402, "insufficient_balance")) <==> r == Some(BalanceTooLow))
            && (launch.Err? && r != Some(BalanceTooLow) ==> launch == Err(Api(429, "daily_spend_limit_exceeded")))
            && r != Some(AccountUnknown)
  {
  }

  /** An estimate of the simulated platform names its reserve, and says truly whether the
      day has room for it; a launch is charged that, or less for a model billed by token. */
  lemma EstimateIsTheReserve(c: P.Config, s: P.State, e: EstimateBody, q: P.Quote)
    requires c.quote(Body(e.format, e.model, e.params, NoKey)) == Ok(q)
    ensures var reply := MockWire(c).estimate(s, e);
            && reply.0 == s && reply.1.Ok? && !reply.1.value.invalid
            && PlanCreation.NamesPrice(reply.1.value, P.Rubles(q.reserve))
            && (reply.1.value.beyondDailyLimit <==> s.spentToday + q.reserve > c.dailyLimit)
            && reply.1.value.current == Some(P.Rubles(s.balance))
            && reply.1.value.dailyToday == Some(P.Rubles(s.spentToday))
            && reply.1.value.dailyLimit == Some(P.Rubles(c.dailyLimit))
  {
  }

  /** The record behind a handle. */
  function RecordOf(s: P.State, h: Handle): Option<P.Record> {
    if h.id.None? then None
    else if h.voiceover then (if h.id.value in s.voiceovers then Some(s.voiceovers[h.id.value]) else None)
    else (if h.id.value in s.generations then Some(s.generations[h.id.value]) else None)
  }

  /** Waiting for a record that was just paid for: no verdict and nothing moves, or a
      verdict that reports exactly what the account was left with. */
  lemma {:induction false} WaitingIsHonest(c: P.Config, s: P.State, h: Handle, pace: Pace, waited: nat, cost: nat)
    requires pace.interval > 0 && P.Numbered(s)
    requires RecordOf(s, h).Some? && RecordOf(s, h).value.cost == cost && !RecordOf(s, h).value.refunded
    ensures var (t, ev) := Poll(MockWire(c), s, h, pace, waited);
            && t.replies == s.replies && P.Numbered(t)
            && match ev
               case Answered(v) =>
                 || (v == P.Plain(Success, Some(P.Rubles(cost))) && t.balance == s.balance)
                 || (v.phase.Failure? && v.refunded && v.cost == Some(0) && t.balance == s.balance + cost)
               case TimedOut => t.balance == s.balance
               case Faulted(_) => false
    decreases pace.timeout - waited
  {
    var (next, reply) := MockStatus(c, s, h);
    if reply.Ok? && reply.value.phase.Working? && waited < pace.timeout {
      WaitingIsHonest(c, next, h, pace, waited + pace.interval, cost);
    }
  }

  /** A record's verdict: the money back for a failure, else the result at its cost. */
  ghost predicate IsVerdict(r: P.Record, v: Payload) {
    if r.fails then v.phase == Failure && v.refunded && v.cost == Some(0)
    else v.phase == Success && !v.refunded && v.cost == Some(P.Rubles(r.cost))
  }

  /** One status read: the record stays, the count of reads goes up, and there is a verdict
      from the configured read on. */
  lemma OneRead(c: P.Config, s: P.State, h: Handle)
    requires RecordOf(s, h).Some?
    ensures var t, reply := MockStatus(c, s, h).0, MockStatus(c, s, h).1;
            && RecordOf(t, h).Some? && P.Polls(t, h.id.value) == P.Polls(s, h.id.value) + 1
            && RecordOf(t, h).value.cost == RecordOf(s, h).value.cost
            && RecordOf(t, h).value.fails == RecordOf(s, h).value.fails
            && reply.Ok? && (reply.value.phase == Working <==> P.Polls(s, h.id.value) < c.pollsBeforeDone)
            && (reply.value.phase != Working ==> IsVerdict(RecordOf(s, h).value, reply.value))
  {
  }

  /** Waiting for a record of the simulated platform brings its verdict, unless the reads
      still to come before it take longer than there is time; then it times out. */
  lemma {:induction false} MockWaitEnds(c: P.Config, s: P.State, h: Handle, pace: Pace, waited: nat)
    requires pace.interval > 0 && RecordOf(s, h).Some?
    ensures var left := c.pollsBeforeDone - P.Polls(s, h.id.value);
            var event := Poll(MockWire(c), s, h, pace, waited).1;
            if left > 0 && waited + (left - 1) * pace.interval >= pace.timeout then event == TimedOut
            else event.Answered? && IsVerdict(RecordOf(s, h).value, event.payload)
    decreases pace.timeout - waited
  {
    var left, next := c.pollsBeforeDone - P.Polls(s, h.id.value), MockStatus(c, s, h).0;
    OneRead(c, s, h);
    if left > 0 {
      assert (left - 1) * pace.interval >= 0;
      if waited < pace.timeout {
        assert left > 1 ==> (left - 1) * pace.interval == pace.interval + (left - 2) * pace.interval;
        MockWaitEnds(c, next, h, pace, waited + pace.interval);
      }
    }
  }

  /** What a launch leaves to be asked about: a record of what was charged, which fails
      exactly if the provider will. */
  lemma LaunchLeavesRecord(c: P.Config, s: P.State, b: Body, q: P.Quote)
    requires b.key != NoKey && b.key !in s.replies && c.quote(b) == Ok(q) && P.Generate(c, s, b).1.Ok?
    ensures var t, reply := P.Generate(c, s, b).0, P.Generate(c, s, b).1.value;
            && RecordOf(t, HandleOf(reply)) == Some(P.Record(P.ChargeOf(q), q.fails, false))
            && reply.longVoiceover == q.longVoiceover && reply.payload.cost == Some(P.Rubles(P.ChargeOf(q)))
            && (reply.payload.phase == Success <==> q.text.Some? && !q.fails && !q.longVoiceover)
            && (reply.payload.phase == Success ==> reply.payload.text == q.text)
            && reply.payload.phase != Failure
            && t.balance == s.balance - P.ChargeOf(q) && t.spentToday == s.spentToday + P.ChargeOf(q)
  {
  }

  function HandleOf(reply: LaunchReply): Handle {
    Handle(reply.longVoiceover, reply.Id())
  }

  ghost predicate Paid(s: P.State, s1: P.State, reply: LaunchReply, record: Option<P.Record>) {
    && record.Some? && !record.value.refunded
    && reply.payload.cost == Some(P.Rubles(record.value.cost))
    && s1.balance == s.balance - record.value.cost
  }

  /** What the platform's answer to a launch promises. */
  ghost predicate HonestReply(s: P.State, s1: P.State, key: Key, launch: Result<LaunchReply, VibeError>) {
    && P.Numbered(s1)
    && (launch.Err? ==> s1 == s)
    && (launch.Ok? ==>
          && (forall k :: k in s1.replies <==> k in s.replies || k == key)
          && launch.value.payload.cost.Some? && launch.value.Id().Some?
          && Paid(s, s1, launch.value, RecordOf(s1, HandleOf(launch.value))))
  }

  /** What a launch leaves on the platform. */
  lemma LaunchIsHonest(c: P.Config, s: P.State, b: Body)
    requires P.Numbered(s) && b.key !in s.replies
    ensures var r := P.Generate(c, s, b); HonestReply(s, r.0, b.key, r.1)
  {
  }

  /** What a launch does to the commitment. */
  lemma LaunchCommits(g: Limits, planId: PlanId, ps: PlanStep, st: RunState, i: nat,
                      launch: Result<LaunchReply, VibeError>)
    requires i < |st.job.steps|
    requires launch.Ok? ==> launch.value.Id().Some?
    ensures match AfterLaunch(g, planId, ps, st, i, launch)
            case NeedLaunch(_) => false
            case Finished(st2, end) =>
              && |st2.job.steps| == |st.job.steps|
              && st2.committed == st.committed + if launch.Ok? then ChargedBy(ps, launch.value) else 0
            case NeedPoll(st2, h) =>
              && launch.Ok? && h == HandleOf(launch.value)
              && |st2.job.steps| == |st.job.steps|
              && st2.job.steps[i].cost == ChargedBy(ps, launch.value)
              && st2.committed == st.committed + ChargedBy(ps, launch.value)
  {
  }

  lemma ConcludeCommits(planId: PlanId, ps: PlanStep, st: RunState, i: nat, end: StepEnd)
    requires i < |st.job.steps|
    ensures Conclude(planId, ps, st, i, end).committed == st.committed
  {
  }

  /** What the wait does to the commitment: a verdict replaces the charge. */
  lemma WaitCommits(planId: PlanId, ps: PlanStep, st: RunState, i: nat, poll: PollEvent)
    requires i < |st.job.steps| && st.job.steps[i].cost <= st.committed
    ensures Waited(planId, ps, st, i, poll).committed ==
            if poll.Answered? then st.committed - st.job.steps[i].cost + Settled(st.job.steps[i], poll.payload).cost
            else st.committed
  {
    var (st1, end) := AfterPoll(planId, ps, st, i, poll);
    ConcludeCommits(planId, ps, st1, i, end);
  }

  ghost predicate HonestWait(c: P.Config, s: P.State, s1: P.State, pace: Pace, planId: PlanId, ps: PlanStep,
                             st1: RunState,
                             st2: RunState, i: nat, launch: Result<LaunchReply, VibeError>, w: (P.State, PollEvent))
    requires i < |st2.job.steps|
  {
    && P.Numbered(w.0) && w.0.replies == s1.replies
    && Fair(ps, Events(launch, w.1))
    && P.Rubles(s.balance - w.0.balance) == Waited(planId, ps, st2, i, w.1).committed - st1.committed
  }

  /** The rest of a step once the platform has answered its launch. */
  lemma AnsweredStepIsHonest(c: P.Config, s: P.State, s1: P.State, pace: Pace, g: Limits, planId: PlanId, ps: PlanStep,
                             st1: RunState, i: nat, launch: Result<LaunchReply, VibeError>)
    requires pace.interval > 0 && i < |st1.job.steps| && 0 <= st1.committed
    requires HonestReply(s, s1, ps.key, launch)
    ensures var p := AfterLaunch(g, planId, ps, st1, i, launch);
            && !p.NeedLaunch? && |p.state.job.steps| == |st1.job.steps|
            && (p.Finished? ==>
                  P.Rubles(s.balance - s1.balance) == Conclude(planId, ps, p.state, i, p.end).committed - st1.committed)
            && (p.NeedPoll? ==>
                  HonestWait(c, s, s1, pace, planId, ps, st1, p.state, i, launch,
                      Poll(MockWire(c), s1, p.handle, pace, 0)))
  {
    LaunchCommits(g, planId, ps, st1, i, launch);
    match AfterLaunch(g, planId, ps, st1, i, launch) {
      case NeedLaunch(_) =>
      case Finished(st2, end) => ConcludeCommits(planId, ps, st2, i, end);
      case NeedPoll(st2, h) =>
        WaitingIsHonest(c, s1, h, pace, 0, RecordOf(s1, h).value.cost);
        var w := Poll(MockWire(c), s1, h, pace, 0);
        WaitCommits(planId, ps, st2, i, w.1);
    }
  }

  /** From the launch to the end of the turn: the platform, the run, and what was heard. */
  function Finishes(c: P.Config, p: P.State, pace: Pace, g: Limits, planId: PlanId, ps: PlanStep, st: RunState,
                    i: nat): (P.State, RunState, Events)
    requires pace.interval > 0 && i < |st.job.steps|
  {
    var (q, launch) := P.Generate(c, p, ps.GenerateBody());
    match AfterLaunch(g, planId, ps, st, i, launch)
    case Finished(st2, end) => (q, Conclude(planId, ps, st2, i, end), Events(launch, TimedOut))
    case NeedPoll(st2, h) =>
      var (q2, poll) := Poll(MockWire(c), q, h, pace, 0);
      (q2, Waited(planId, ps, st2, i, poll), Events(launch, poll))
    case NeedLaunch(st2) => (q, st2, Events(launch, TimedOut))
  }

  lemma DriveFinishes(c: P.Config, p: P.State, pace: Pace, g: Limits, planId: PlanId, ps: PlanStep, st: RunState,
                      i: nat)
    requires pace.interval > 0 && FindStep(st.job.steps, ps.stepId) == Some(i) && ToBeRun(st, ps)
    requires Begin(g, planId, ps, st, i).NeedLaunch?
    ensures DriveStep(MockWire(c), p, pace, g, planId, ps, st) ==
            Finishes(c, p, pace, g, planId, ps, Begin(g, planId, ps, st, i).state, i)
  {
  }

  /** A turn moves the account and the commitment together, answers fairly, and uses no key
      but its own. */
  ghost predicate HonestTurnOf(s: P.State, ps: PlanStep, committed: Amount, d: (P.State, RunState, Events)) {
    && Fair(ps, d.2)
    && P.Numbered(d.0)
    && (forall k :: k in d.0.replies ==> k in s.replies || k == ps.key)
    && P.Rubles(s.balance - d.0.balance) == d.1.committed - committed
  }

  lemma FinishIsHonest(c: P.Config, s: P.State, pace: Pace, g: Limits, planId: PlanId, ps: PlanStep, st: RunState,
                       i: nat)
    requires pace.interval > 0 && P.Numbered(s) && ps.key !in s.replies && i < |st.job.steps| && 0 <= st.committed
    ensures HonestTurnOf(s, ps, st.committed, Finishes(c, s, pace, g, planId, ps, st, i))
  {
    LaunchIsHonest(c, s, ps.GenerateBody());
    var (q, launch) := P.Generate(c, s, ps.GenerateBody());
    AnsweredStepIsHonest(c, s, q, pace, g, planId, ps, st, i, launch);
  }

  /** One step against the simulated platform moves the account and the commitment
      together. */
  lemma StepIsHonest(c: P.Config, s: P.State, pace: Pace, g: Limits, planId: PlanId, ps: PlanStep, st: RunState, i: nat)
    requires pace.interval > 0 && P.Numbered(s) && ps.key !in s.replies
    requires i < |st.job.steps| && FindStep(st.job.steps, ps.stepId) == Some(i)
    requires Untouched(st.job.steps[i]) && (planId, ps.stepId) !in st.rows && !KeyInUse(st.rows, ps.key)
    requires !st.refused && 0 <= st.committed
    ensures HonestTurnOf(s, ps, st.committed, DriveStep(MockWire(c), s, pace, g, planId, ps, st))
  {
    if !st.aborted {
      FreshClaim(planId, ps, st);
      match Begin(g, planId, ps, st, i) {
        case Finished(st1, end) => ConcludeCommits(planId, ps, st1, i, end);
        case NeedPoll(_, _) =>
        case NeedLaunch(st1) =>
          DriveFinishes(c, s, pace, g, planId, ps, st, i);
          FinishIsHonest(c, s, pace, g, planId, ps, st1, i);
      }
    }
  }

  /** The account and the run agree, and the remaining keys are still unused upstream. */
  ghost predicate Honest(g: Limits, planId: PlanId, steps: seq<PlanStep>, s: P.State, t: P.State, st: RunState,
                         n: nat) {
    && RunInv(g, planId, steps, st, n)
    && P.Numbered(t)
    && (forall i :: n <= i < |steps| ==> steps[i].key !in t.replies)
    && P.Rubles(s.balance - t.balance) == st.committed
  }

  lemma HonestStart(g: Limits, planId: PlanId, steps: seq<PlanStep>, s: P.State, start: RunState)
    requires P.Numbered(s) && 0 <= g.spendable && Fresh(planId, steps, start)
    requires forall i :: 0 <= i < |steps| ==> steps[i].key !in s.replies
    ensures Honest(g, planId, steps, s, s, start, 0)
  {
    FreshKeepsInv(g, planId, steps, start);
  }

  lemma HonestStep(c: P.Config, pace: Pace, g: Limits, planId: PlanId, steps: seq<PlanStep>, s: P.State, t: P.State,
                   st: RunState, n: nat)
    requires pace.interval > 0 && 0 <= g.spendable <= g.budget && n < |steps|
    requires Honest(g, planId, steps, s, t, st, n)
    ensures var d := DriveStep(MockWire(c), t, pace, g, planId, steps[n], st);
            Honest(g, planId, steps, s, d.0, d.1, n + 1)
  {
    FoundAt(steps, st.job, n);
    CostsNonNegative(planId, steps, st, n);
    assert NotReached(planId, steps, st, n);
    StepIsHonest(c, t, pace, g, planId, steps[n], st, n);
    DriveStepIsOneStep(MockWire(c), t, pace, g, planId, steps[n], st);
    var d := DriveStep(MockWire(c), t, pace, g, planId, steps[n], st);
    TurnKeepsInv(g, planId, steps, st, n, d.2, d.1);
    assert forall i :: n + 1 <= i < |steps| ==> steps[i].key != steps[n].key;
  }

  lemma HonestTurn(c: P.Config, pace: Pace, g: Limits, planId: PlanId, steps: seq<PlanStep>,
                   tr: seq<(P.State, RunState)>, n: nat)
    requires pace.interval > 0 && 0 <= g.spendable <= g.budget && n + 1 < |tr|
    requires IsHistory(MockWire(c), pace, g, planId, steps, tr)
    requires Honest(g, planId, steps, tr[0].0, tr[n].0, tr[n].1, n)
    ensures Honest(g, planId, steps, tr[0].0, tr[n + 1].0, tr[n + 1].1, n + 1)
  {
    assert IsDrivenTurn(MockWire(c), pace, g, planId, steps[n], tr[n].0, tr[n].1, tr[n + 1].0, tr[n + 1].1);
    HonestStep(c, pace, g, planId, steps, tr[0].0, tr[n].0, tr[n].1, n);
  }

  lemma {:induction false} RunIsHonest(c: P.Config, pace: Pace, g: Limits, planId: PlanId, steps: seq<PlanStep>,
                                       tr: seq<(P.State, RunState)>, n: nat)
    requires pace.interval > 0 && 0 <= g.spendable <= g.budget && n < |tr|
    requires IsHistory(MockWire(c), pace, g, planId, steps, tr)
    requires Honest(g, planId, steps, tr[0].0, tr[0].0, tr[0].1, 0)
    ensures Honest(g, planId, steps, tr[0].0, tr[n].0, tr[n].1, n)
  {
    if n > 0 {
      RunIsHonest(c, pace, g, planId, steps, tr, n - 1);
      HonestTurn(c, pace, g, planId, steps, tr, n - 1);
    }
  }

  /** What the account lost, what the guard committed, what the job cost and what the
      ledger holds are one figure. */
  ghost predicate Balances(planId: PlanId, steps: seq<PlanStep>, s: P.State, t: P.State, st: RunState) {
    P.Rubles(s.balance - t.balance) == st.committed && OneSum(planId, steps, st)
  }

  lemma HonestEnd(g: Limits, planId: PlanId, steps: seq<PlanStep>, s: P.State, t: P.State, st: RunState)
    requires Honest(g, planId, steps, s, t, st, |steps|)
    ensures Balances(planId, steps, s, t, st)
  {
    FinishedRunAddsUp(g, planId, steps, st);
  }

  /** The books balance. After an uninterrupted run of a fresh plan against the simulated
      platform, with any mix of success, refund, timeout, refused launch and overcharge,
      the drop of the account balance is the guard's commitment, the job's actual cost and
      the sum of the ledger. */
  lemma BooksBalance(c: P.Config, pace: Pace, g: Limits, planId: PlanId, steps: seq<PlanStep>,
                     tr: seq<(P.State, RunState)>)
    requires pace.interval > 0 && 0 <= g.spendable <= g.budget
    requires IsHistory(MockWire(c), pace, g, planId, steps, tr) && |tr| == |steps| + 1
    requires P.Numbered(tr[0].0) && forall i :: 0 <= i < |steps| ==> steps[i].key !in tr[0].0.replies
    requires Fresh(planId, steps, tr[0].1)
    ensures Balances(planId, steps, tr[0].0, tr[|steps|].0, tr[|steps|].1)
  {
    HonestStart(g, planId, steps, tr[0].0, tr[0].1);
    RunIsHonest(c, pace, g, planId, steps, tr, |steps|);
    HonestEnd(g, planId, steps, tr[0].0, tr[|steps|].0, tr[|steps|].1);
  }
}
