/** A worker nobody disturbs takes exactly the executor's turns: the protocol's small
    statements add up to the steps, and the runs, that the spending claims are about. */
module Undisturbed {
  import opened Domain
  import opened Budget
  import opened Ledger
  import opened Shapes
  import opened WireModel
  import opened Protocol
  import B = Books
  import E = Execution
  import P = Platform

  // ---------------------------------------------------------------------------
  // Running scripts
  // ---------------------------------------------------------------------------

  lemma {:induction false} RunConcat(c: P.Config, s: State, xs: seq<Action>, ys: seq<Action>)
    ensures Run(c, s, xs + ys) == Run(c, Run(c, s, xs), ys)
  {
    if ys == [] {
      assert xs + ys == xs;
    } else {
      var n := |ys| - 1;
      assert (xs + ys)[..|xs| + n] == xs + ys[..n];
      RunConcat(c, s, xs, ys[..n]);
    }
  }

  /** One statement, then the rest of a script. */
  lemma RunFirst(c: P.Config, s: State, a: Action, xs: seq<Action>)
    ensures Run(c, s, [a] + xs) == Run(c, Apply(c, s, a), xs)
    ensures Run(c, s, [a]) == Apply(c, s, a)
  {
    RunConcat(c, s, [a], xs);
    assert [a][..0] == [];
  }

  /** What a worker has in hand, and what it works on. */
  datatype World = World(job: Job, rows: Rows, jobs: map<JobId, Job>, platform: P.State) {
    function At(ps: PlanStep): StepRef {
      (job.planId, ps.stepId)
    }

    /** Document and ledger as the executor left them. */
    function With(st: E.RunState): World {
      this.(job := st.job, rows := st.rows)
    }
  }

  ghost predicate Stands(s: State, w: WorkerId, pc: Pc, v: World) {
    && w in s.workers && s.workers[w] == Worker(v.job, pc)
    && s.rows == v.rows && s.jobs == v.jobs && s.platform == v.platform
  }

  /** The executor's state has the same document and ledger. */
  ghost predicate Sees(st: E.RunState, v: World) {
    st.job == v.job && st.rows == v.rows
  }

  /** After statement `a`, with `xs` to follow, the protocol is in state `t`. */
  ghost predicate Takes(c: P.Config, s: State, a: Action, xs: seq<Action>, t: State) {
    Run(c, s, [a] + xs) == Run(c, t, xs) && Run(c, s, [a]) == t
  }

  // ---------------------------------------------------------------------------
  // Waiting
  // ---------------------------------------------------------------------------

  function CallOf(h: Handle): P.Call
    requires h.id.Some?
  {
    if h.voiceover then P.CallVoiceover(h.id.value) else P.CallGeneration(h.id.value)
  }

  /** A status read over the wire is that call of the platform; without an id there is
      nothing to ask. */
  ghost predicate ReadsThrough(c: P.Config, wire: Wire<P.State>) {
    forall p: P.State, h: Handle :: var r := wire.status(p, h);
      if h.id.Some? then r.0 == P.Serve(c, p, CallOf(h)) else r.0 == p && r.1.Err?
  }

  lemma MockReadsThrough(c: P.Config)
    ensures ReadsThrough(c, B.MockWire(c))
  {
  }

  lemma TakeAsk(c: P.Config, s: State, w: WorkerId, pc: Pc, v: World, call: P.Call, xs: seq<Action>)
    returns (t: State)
    requires Stands(s, w, pc, v) && !call.CallGenerate?
    ensures Takes(c, s, AskStatus(call), xs, t) && Stands(t, w, pc, v.(platform := P.Serve(c, v.platform, call)))
  {
    t := Apply(c, s, AskStatus(call));
    RunFirst(c, s, AskStatus(call), xs);
  }

  /** The status reads of one wait. */
  function Asks(wire: Wire<P.State>, p: P.State, h: Handle, pace: E.Pace, waited: nat): seq<Action>
    requires pace.interval > 0
    decreases pace.timeout - waited
  {
    if h.id.None? then []
    else
      var (next, reply) := wire.status(p, h);
      [AskStatus(CallOf(h))] + if reply.Err? || !reply.value.phase.Working? || waited >= pace.timeout then []
                               else Asks(wire, next, h, pace, waited + pace.interval)
  }

  /** The reads from here on lead the platform where the executor's polling leads it. */
  ghost predicate AsksWell(c: P.Config, wire: Wire<P.State>, s: State, w: WorkerId, pc: Pc, v: World, h: Handle,
                           pace: E.Pace, waited: nat)
    requires pace.interval > 0
  {
    Stands(Run(c, s, Asks(wire, v.platform, h, pace, waited)), w, pc,
           v.(platform := E.Poll(wire, v.platform, h, pace, waited).0))
  }

  lemma AsksLast(c: P.Config, wire: Wire<P.State>, s: State, w: WorkerId, pc: Pc, v: World, h: Handle, pace: E.Pace,
                 waited: nat)
    requires pace.interval > 0 && ReadsThrough(c, wire) && Stands(s, w, pc, v)
    requires var (_, reply) := wire.status(v.platform, h);
             h.id.None? || reply.Err? || !reply.value.phase.Working? || waited >= pace.timeout
    ensures AsksWell(c, wire, s, w, pc, v, h, pace, waited)
  {
    var (_, reply) := wire.status(v.platform, h);
    if h.id.Some? {
      var t := TakeAsk(c, s, w, pc, v, CallOf(h), []);
    }
  }

  lemma AsksAgain(c: P.Config, wire: Wire<P.State>, s: State, t: State, w: WorkerId, pc: Pc, v: World, h: Handle,
                  pace: E.Pace, waited: nat)
    requires pace.interval > 0 && h.id.Some? && waited < pace.timeout
    requires var (next, reply) := wire.status(v.platform, h);
             && reply.Ok? && reply.value.phase.Working?
             && Takes(c, s, AskStatus(CallOf(h)), Asks(wire, next, h, pace, waited + pace.interval), t)
             && AsksWell(c, wire, t, w, pc, v.(platform := next), h, pace, waited + pace.interval)
    ensures AsksWell(c, wire, s, w, pc, v, h, pace, waited)
  {
  }

  lemma {:induction false} AsksLikePoll(c: P.Config, wire: Wire<P.State>, s: State, w: WorkerId, pc: Pc, v: World,
                                        h: Handle, pace: E.Pace, waited: nat)
    requires pace.interval > 0 && ReadsThrough(c, wire) && Stands(s, w, pc, v)
    ensures AsksWell(c, wire, s, w, pc, v, h, pace, waited)
    decreases pace.timeout - waited
  {
    var (next, reply) := wire.status(v.platform, h);
    if h.id.None? || reply.Err? || !reply.value.phase.Working? || waited >= pace.timeout {
      AsksLast(c, wire, s, w, pc, v, h, pace, waited);
    } else {
      var t := TakeAsk(c, s, w, pc, v, CallOf(h), Asks(wire, next, h, pace, waited + pace.interval));
      AsksLikePoll(c, wire, t, w, pc, v.(platform := next), h, pace, waited + pace.interval);
      AsksAgain(c, wire, s, t, w, pc, v, h, pace, waited);
    }
  }

  /** What an end makes of document and ledger depends on nothing else. */
  lemma ConcludeView(planId: PlanId, ps: PlanStep, a: E.RunState, b: E.RunState, i: nat, end: E.StepEnd)
    requires a.job == b.job && a.rows == b.rows && i < |a.job.steps|
    ensures var x, y := E.Conclude(planId, ps, a, i, end), E.Conclude(planId, ps, b, i, end);
            x.job == y.job && x.rows == y.rows
  {
  }

  lemma WaitedView(planId: PlanId, ps: PlanStep, a: E.RunState, b: E.RunState, i: nat, poll: E.PollEvent)
    requires a.job == b.job && a.rows == b.rows && i < |a.job.steps|
    ensures var x, y := E.Waited(planId, ps, a, i, poll), E.Waited(planId, ps, b, i, poll);
            x.job == y.job && x.rows == y.rows
  {
    var (x, end) := E.AfterPoll(planId, ps, a, i, poll);
    var (y, _) := E.AfterPoll(planId, ps, b, i, poll);
    ConcludeView(planId, ps, x, y, i, end);
  }

  function Ending(w: WorkerId, poll: E.PollEvent): Action {
    match poll
    case Answered(v) => Settle(w, v)
    case TimedOut => Expire(w)
    case Faulted(e) => Fault(w, e)
  }

  /** The end of a wait as the protocol has it. */
  lemma EndingWaits(c: P.Config, s: State, w: WorkerId, i: nat, ps: PlanStep, poll: E.PollEvent)
    requires w in s.workers && s.workers[w].pc == Waiting(i, ps) && i < |s.workers[w].job.steps|
    ensures Apply(c, s, Ending(w, poll)) ==
            GoOn(s, w, E.Waited(s.workers[w].job.planId, ps, InRun(s, s.workers[w]), i, poll), Between)
  {
  }

  lemma TakeEnding(c: P.Config, s: State, w: WorkerId, i: nat, ps: PlanStep, v: World, st: E.RunState,
                   poll: E.PollEvent, xs: seq<Action>) returns (t: State)
    requires Stands(s, w, Waiting(i, ps), v) && Sees(st, v) && i < |st.job.steps|
    ensures Takes(c, s, Ending(w, poll), xs, t)
            && Stands(t, w, Between, v.With(E.Waited(v.job.planId, ps, st, i, poll)))
  {
    var waited := E.Waited(v.job.planId, ps, InRun(s, s.workers[w]), i, poll);
    t := GoOn(s, w, waited, Between);
    EndingWaits(c, s, w, i, ps, poll);
    RunFirst(c, s, Ending(w, poll), xs);
    WaitedView(v.job.planId, ps, InRun(s, s.workers[w]), st, i, poll);
  }

  /** All of a wait: the reads, then what they led to. */
  function WaitScript(c: P.Config, w: WorkerId, p: P.State, h: Handle, pace: E.Pace): seq<Action>
    requires pace.interval > 0
  {
    Asks(B.MockWire(c), p, h, pace, 0) + [Ending(w, E.Poll(B.MockWire(c), p, h, pace, 0).1)]
  }

  lemma WaitsLikePoll(c: P.Config, s: State, w: WorkerId, i: nat, ps: PlanStep, v: World, st: E.RunState, h: Handle,
                      pace: E.Pace)
    requires pace.interval > 0 && Stands(s, w, Waiting(i, ps), v) && Sees(st, v) && i < |st.job.steps|
    ensures var (p, poll) := E.Poll(B.MockWire(c), v.platform, h, pace, 0);
            Stands(Run(c, s, WaitScript(c, w, v.platform, h, pace)), w, Between,
                   v.With(E.Waited(v.job.planId, ps, st, i, poll)).(platform := p))
  {
    var (p, poll) := E.Poll(B.MockWire(c), v.platform, h, pace, 0);
    var asks := Asks(B.MockWire(c), v.platform, h, pace, 0);
    MockReadsThrough(c);
    AsksLikePoll(c, B.MockWire(c), s, w, Waiting(i, ps), v, h, pace, 0);
    RunConcat(c, s, asks, [Ending(w, poll)]);
    var t := TakeEnding(c, Run(c, s, asks), w, i, ps, v.(platform := p), st, poll, []);
  }

  // ---------------------------------------------------------------------------
  // Launching
  // ---------------------------------------------------------------------------

  lemma TakeSend(c: P.Config, s: State, w: WorkerId, i: nat, ps: PlanStep, v: World, xs: seq<Action>)
    returns (t: State)
    requires Stands(s, w, Sending(i, ps), v)
    ensures Takes(c, s, Send(w), xs, t) && Stands(t, w, Expecting(i, ps), v)
    ensures Message(v.At(ps), ps.GenerateBody()) in t.network
  {
    t := Apply(c, s, Send(w));
    RunFirst(c, s, Send(w), xs);
  }

  lemma TakeServe(c: P.Config, s: State, w: WorkerId, pc: Pc, m: Message, v: World, xs: seq<Action>)
    returns (t: State)
    requires Stands(s, w, pc, v) && m in s.network
    ensures Takes(c, s, Serve(m), xs, t)
    ensures var r := P.Generate(c, v.platform, m.body);
            Stands(t, w, pc, v.(platform := r.0)) && Answer(m.body, r.1) in t.answers
  {
    t := Apply(c, s, Serve(m));
    RunFirst(c, s, Serve(m), xs);
  }

  lemma TakeSendServe(c: P.Config, s: State, w: WorkerId, i: nat, ps: PlanStep, v: World, xs: seq<Action>)
    returns (t: State)
    requires Stands(s, w, Sending(i, ps), v)
    ensures var b := ps.GenerateBody();
            var r := P.Generate(c, v.platform, b);
            && Run(c, s, [Send(w)] + ([Serve(Message(v.At(ps), b))] + xs)) == Run(c, t, xs)
            && Stands(t, w, Expecting(i, ps), v.(platform := r.0)) && Answer(b, r.1) in t.answers
  {
    var m := Message(v.At(ps), ps.GenerateBody());
    var sent := TakeSend(c, s, w, i, ps, v, [Serve(m)] + xs);
    t := TakeServe(c, sent, w, Expecting(i, ps), m, v, xs);
  }

  lemma TakeGiveUp(c: P.Config, s: State, w: WorkerId, i: nat, ps: PlanStep, v: World, st: E.RunState, e: VibeError)
    returns (t: State)
    requires Stands(s, w, Expecting(i, ps), v) && Sees(st, v) && i < |st.job.steps|
    ensures Takes(c, s, GiveUp(w, e), [], t)
    ensures Stands(t, w, Between, v.With(E.Conclude(v.job.planId, ps, E.Logged(st, ps, i, 0), i, E.Fault(e))))
  {
    t := Apply(c, s, GiveUp(w, e));
    RunFirst(c, s, GiveUp(w, e), []);
    ConcludeView(v.job.planId, ps, InRun(s, s.workers[w]), E.Logged(st, ps, i, 0), i, E.Fault(e));
  }

  lemma TakeReceive(c: P.Config, s: State, w: WorkerId, i: nat, ps: PlanStep, v: World, reply: LaunchReply,
                    xs: seq<Action>) returns (t: State)
    requires Stands(s, w, Expecting(i, ps), v) && Answer(ps.GenerateBody(), Ok(reply)) in s.answers
    ensures Takes(c, s, Receive(w, reply), xs, t) && Stands(t, w, Recording(i, ps, reply), v)
  {
    t := Apply(c, s, Receive(w, reply));
    RunFirst(c, s, Receive(w, reply), xs);
  }

  lemma RecordedView(planId: PlanId, ps: PlanStep, a: E.RunState, b: E.RunState, i: nat, reply: LaunchReply)
    requires a.job == b.job && a.rows == b.rows && i < |a.job.steps|
    ensures var x, y := E.Recorded(planId, ps, a, i, reply), E.Recorded(planId, ps, b, i, reply);
            x.job == y.job && x.rows == y.rows
  {
  }

  lemma TakeRecord(c: P.Config, s: State, w: WorkerId, i: nat, ps: PlanStep, v: World, st: E.RunState,
                   reply: LaunchReply, xs: seq<Action>) returns (t: State)
    requires Stands(s, w, Recording(i, ps, reply), v) && Sees(st, v) && i < |st.job.steps|
    ensures Takes(c, s, Record(w, Wait), xs, t)
            && Stands(t, w, Waiting(i, ps), v.With(E.Recorded(v.job.planId, ps, st, i, reply)))
  {
    t := Apply(c, s, Record(w, Wait));
    RunFirst(c, s, Record(w, Wait), xs);
    RecordedView(v.job.planId, ps, InRun(s, s.workers[w]), st, i, reply);
  }

  lemma TakeStopPlan(c: P.Config, s: State, w: WorkerId, i: nat, ps: PlanStep, v: World, st: E.RunState,
                     reply: LaunchReply) returns (t: State)
    requires Stands(s, w, Recording(i, ps, reply), v) && Sees(st, v) && i < |st.job.steps|
    ensures var planId := v.job.planId;
            Stands(t, w, Between,
                   v.With(E.Conclude(planId, ps, E.Recorded(planId, ps, st, i, reply), i, E.BudgetStop)))
    ensures Takes(c, s, Record(w, StopPlan), [], t)
  {
    var planId := v.job.planId;
    t := Apply(c, s, Record(w, StopPlan));
    RunFirst(c, s, Record(w, StopPlan), []);
    RecordedView(planId, ps, InRun(s, s.workers[w]), st, i, reply);
    ConcludeView(planId, ps, E.Recorded(planId, ps, InRun(s, s.workers[w]), i, reply),
                 E.Recorded(planId, ps, st, i, reply), i, E.BudgetStop);
  }

  lemma TakeNoId(c: P.Config, s: State, w: WorkerId, i: nat, ps: PlanStep, v: World, st: E.RunState,
                 reply: LaunchReply) returns (t: State)
    requires Stands(s, w, Recording(i, ps, reply), v) && Sees(st, v) && i < |st.job.steps|
    ensures var planId := v.job.planId;
            var failed := E.MarkFailed(ps, E.Recorded(planId, ps, st, i, reply), i, NoGenerationId);
            Stands(t, w, Between, v.With(E.Conclude(planId, ps, failed, i, E.Done)))
    ensures Takes(c, s, Record(w, NoId), [], t)
  {
    var planId := v.job.planId;
    t := Apply(c, s, Record(w, NoId));
    RunFirst(c, s, Record(w, NoId), []);
    RecordedView(planId, ps, InRun(s, s.workers[w]), st, i, reply);
    ConcludeView(planId, ps,
                 E.MarkFailed(ps, E.Recorded(planId, ps, InRun(s, s.workers[w]), i, reply), i, NoGenerationId),
                 E.MarkFailed(ps, E.Recorded(planId, ps, st, i, reply), i, NoGenerationId), i, E.Done);
  }

  /** Which way a recorded reply leads. */
  function NextOf(g: Limits, committed: int, ps: PlanStep, reply: LaunchReply): Next {
    if Check(g, committed, E.ChargedBy(ps, reply)).Some? then StopPlan
    else if reply.longVoiceover || reply.Id().Some? || reply.Terminal() then Wait
    else NoId
  }

  /** What follows a reply once it is recorded. */
  function RestScript(c: P.Config, w: WorkerId, next: Next, p: P.State, reply: LaunchReply, pace: E.Pace): seq<Action>
    requires pace.interval > 0
  {
    if !next.Wait? then []
    else if reply.longVoiceover || reply.Id().Some? then
      WaitScript(c, w, p, Handle(reply.longVoiceover, reply.Id()), pace)
    else [Settle(w, reply.payload)]
  }

  function ReplyScript(c: P.Config, w: WorkerId, next: Next, p: P.State, reply: LaunchReply, pace: E.Pace): seq<Action>
    requires pace.interval > 0
  {
    [Receive(w, reply)] + ([Record(w, next)] + RestScript(c, w, next, p, reply, pace))
  }

  /** The executor's way from an accepted launch to the end of the step. */
  function AfterReply(c: P.Config, p: P.State, pace: E.Pace, g: Limits, ps: PlanStep, st: E.RunState, i: nat,
                      reply: LaunchReply): (P.State, E.RunState)
    requires pace.interval > 0 && i < |st.job.steps|
  {
    match E.AfterLaunch(g, st.job.planId, ps, st, i, Ok(reply))
    case Finished(st2, end) => (p, E.Conclude(st.job.planId, ps, st2, i, end))
    case NeedPoll(st2, h) =>
      var (p2, poll) := E.Poll(B.MockWire(c), p, h, pace, 0);
      (p2, E.Waited(st.job.planId, ps, st2, i, poll))
    case NeedLaunch(st2) => (p, st2)
  }

  lemma RecordsLikeTheExecutor(c: P.Config, s: State, w: WorkerId, i: nat, ps: PlanStep, v: World, st: E.RunState,
                               g: Limits, reply: LaunchReply, pace: E.Pace)
    requires pace.interval > 0 && Stands(s, w, Recording(i, ps, reply), v) && Sees(st, v) && i < |st.job.steps|
    ensures var (p, st') := AfterReply(c, v.platform, pace, g, ps, st, i, reply);
            var next := NextOf(g, st.committed, ps, reply);
            Stands(Run(c, s, [Record(w, next)] + RestScript(c, w, next, v.platform, reply, pace)), w, Between,
                   v.With(st').(platform := p))
  {
    var next := NextOf(g, st.committed, ps, reply);
    var recorded := E.Recorded(v.job.planId, ps, st, i, reply);
    var rest := RestScript(c, w, next, v.platform, reply, pace);
    if next.StopPlan? {
      var t := TakeStopPlan(c, s, w, i, ps, v, st, reply);
    } else if next.NoId? {
      var t := TakeNoId(c, s, w, i, ps, v, st, reply);
    } else {
      var t := TakeRecord(c, s, w, i, ps, v, st, reply, rest);
      if reply.longVoiceover || reply.Id().Some? {
        WaitsLikePoll(c, t, w, i, ps, v.With(recorded), recorded, Handle(reply.longVoiceover, reply.Id()), pace);
      } else {
        var u := TakeEnding(c, t, w, i, ps, v.With(recorded), recorded, E.Answered(reply.payload), []);
      }
    }
  }

  function LaunchScript(c: P.Config, w: WorkerId, p: P.State, pace: E.Pace, g: Limits, ps: PlanStep,
                        st: E.RunState): seq<Action>
    requires pace.interval > 0
  {
    var (p1, launch) := P.Generate(c, p, ps.GenerateBody());
    [Send(w)] +
    ([Serve(Message((st.job.planId, ps.stepId), ps.GenerateBody()))] +
     match launch
     case Err(e) => [GiveUp(w, e)]
     case Ok(reply) => ReplyScript(c, w, NextOf(g, st.committed, ps, reply), p1, reply, pace))
  }

  /** The executor's way from the launch to the end of the step. */
  function AfterServe(c: P.Config, p: P.State, pace: E.Pace, g: Limits, ps: PlanStep, st: E.RunState,
                      i: nat): (P.State, E.RunState)
    requires pace.interval > 0 && i < |st.job.steps|
  {
    var (p1, launch) := P.Generate(c, p, ps.GenerateBody());
    match launch
    case Err(e) => (p1, E.Conclude(st.job.planId, ps, E.Logged(st, ps, i, 0), i, E.Fault(e)))
    case Ok(reply) => AfterReply(c, p1, pace, g, ps, st, i, reply)
  }

  lemma LaunchesLikeTheExecutor(c: P.Config, s: State, w: WorkerId, i: nat, ps: PlanStep, v: World, st: E.RunState,
                                g: Limits, pace: E.Pace)
    requires pace.interval > 0 && Stands(s, w, Sending(i, ps), v) && Sees(st, v) && i < |st.job.steps|
    ensures var (p, st') := AfterServe(c, v.platform, pace, g, ps, st, i);
            Stands(Run(c, s, LaunchScript(c, w, v.platform, pace, g, ps, st)), w, Between,
                   v.With(st').(platform := p))
  {
    var (p1, launch) := P.Generate(c, v.platform, ps.GenerateBody());
    match launch {
      case Err(e) =>
        var t := TakeSendServe(c, s, w, i, ps, v, [GiveUp(w, e)]);
        var u := TakeGiveUp(c, t, w, i, ps, v.(platform := p1), st, e);
      case Ok(reply) =>
        var next := NextOf(g, st.committed, ps, reply);
        var t := TakeSendServe(c, s, w, i, ps, v, ReplyScript(c, w, next, p1, reply, pace));
        var u := TakeReceive(c, t, w, i, ps, v.(platform := p1), reply,
                             [Record(w, next)] + RestScript(c, w, next, p1, reply, pace));
        RecordsLikeTheExecutor(c, u, w, i, ps, v.(platform := p1), st, g, reply, pace);
    }
  }

  // ---------------------------------------------------------------------------
  // Claiming and deciding
  // ---------------------------------------------------------------------------

  function ClaimOf(job: Job, rows: Rows, ps: PlanStep): Result<Rows, ClaimError> {
    ClaimStep(rows, (job.planId, ps.stepId), job.jobId, ps.key, ps.GenerateBody())
  }

  /** The worker has left; its document was saved. */
  ghost predicate LeftSaved(t: State, w: WorkerId, v: World) {
    && w !in t.workers && t.rows == v.rows && t.platform == v.platform
    && t.jobs == v.jobs[v.job.jobId := Totalled(v.job)]
  }

  lemma TakeRead(c: P.Config, s: State, w: WorkerId, i: nat, ps: PlanStep, v: World, xs: seq<Action>)
    returns (t: State)
    requires Stands(s, w, Reading(i, ps), v)
    ensures Takes(c, s, Read(w), xs, t)
    ensures if v.At(ps) !in v.rows then Stands(t, w, Inserting(i, ps), v)
            else if ClaimOf(v.job, v.rows, ps).Err? then LeftSaved(t, w, v)
            else Stands(t, w, Deciding(i, ps, v.rows[v.At(ps)].generationId), v)
  {
    t := Apply(c, s, Read(w));
    RunFirst(c, s, Read(w), xs);
  }

  lemma TakeInsert(c: P.Config, s: State, w: WorkerId, i: nat, ps: PlanStep, v: World, xs: seq<Action>)
    returns (t: State)
    requires Stands(s, w, Inserting(i, ps), v) && v.At(ps) !in v.rows
    ensures Takes(c, s, Insert(w), xs, t)
    ensures match ClaimOf(v.job, v.rows, ps)
            case Err(_) => LeftSaved(t, w, v)
            case Ok(rows) => Stands(t, w, Rereading(i, ps), v.(rows := rows))
  {
    t := Apply(c, s, Insert(w));
    RunFirst(c, s, Insert(w), xs);
  }

  lemma TakeReread(c: P.Config, s: State, w: WorkerId, i: nat, ps: PlanStep, v: World) returns (t: State)
    requires Stands(s, w, Rereading(i, ps), v) && v.At(ps) in v.rows
    ensures Takes(c, s, Reread(w), [], t)
            && Stands(t, w, Deciding(i, ps, v.rows[v.At(ps)].generationId), v)
  {
    t := Apply(c, s, Reread(w));
    RunFirst(c, s, Reread(w), []);
  }

  /** The ledger statements of a claim: what follows a first look depends on what it saw. */
  function ClaimScript(w: WorkerId, job: Job, rows: Rows, ps: PlanStep): seq<Action> {
    if (job.planId, ps.stepId) in rows then [Read(w)]
    else if ClaimOf(job, rows, ps).Err? then [Read(w)] + [Insert(w)]
    else [Read(w)] + ([Insert(w)] + [Reread(w)])
  }

  lemma ClaimsLikeTheExecutor(c: P.Config, s: State, w: WorkerId, i: nat, ps: PlanStep, v: World)
    requires Stands(s, w, Reading(i, ps), v)
    ensures match ClaimOf(v.job, v.rows, ps)
            case Err(_) => LeftSaved(Run(c, s, ClaimScript(w, v.job, v.rows, ps)), w, v)
            case Ok(rows) =>
              && v.At(ps) in rows
              && Stands(Run(c, s, ClaimScript(w, v.job, v.rows, ps)), w, Deciding(i, ps, rows[v.At(ps)].generationId),
                        v.(rows := rows))
  {
    if v.At(ps) in v.rows {
      var t := TakeRead(c, s, w, i, ps, v, []);
    } else if ClaimOf(v.job, v.rows, ps).Err? {
      var t := TakeRead(c, s, w, i, ps, v, [Insert(w)]);
      var u := TakeInsert(c, t, w, i, ps, v, []);
    } else {
      var t := TakeRead(c, s, w, i, ps, v, [Insert(w)] + [Reread(w)]);
      var u := TakeInsert(c, t, w, i, ps, v, [Reread(w)]);
      var x := TakeReread(c, u, w, i, ps, v.(rows := ClaimOf(v.job, v.rows, ps).value));
    }
  }

  /** From the decision on: stop, wait for what was paid earlier, or launch. */
  function DecidedScript(c: P.Config, w: WorkerId, p: P.State, pace: E.Pace, g: Limits, ps: PlanStep,
                         begun: E.Progress): seq<Action>
    requires pace.interval > 0
  {
    match begun
    case Finished(_, _) => [Decide(w, false)]
    case NeedPoll(_, h) => [Decide(w, true)] + WaitScript(c, w, p, h, pace)
    case NeedLaunch(st) => [Decide(w, true)] + LaunchScript(c, w, p, pace, g, ps, st)
  }

  /** The executor's way from there to the end of the step. */
  function AfterBegin(c: P.Config, p: P.State, pace: E.Pace, g: Limits, ps: PlanStep, i: nat,
                      begun: E.Progress): (P.State, E.RunState)
    requires pace.interval > 0 && i < |begun.state.job.steps|
  {
    match begun
    case Finished(st, end) => (p, E.Conclude(st.job.planId, ps, st, i, end))
    case NeedPoll(st, h) =>
      var (p1, poll) := E.Poll(B.MockWire(c), p, h, pace, 0);
      (p1, E.Waited(st.job.planId, ps, st, i, poll))
    case NeedLaunch(st) => AfterServe(c, p, pace, g, ps, st, i)
  }

  lemma TakeStop(c: P.Config, s: State, w: WorkerId, i: nat, ps: PlanStep, v: World, st: E.RunState)
    returns (t: State)
    requires Stands(s, w, Deciding(i, ps, None), v) && Sees(st, v) && i < |st.job.steps|
    ensures Takes(c, s, Decide(w, false), [], t)
            && Stands(t, w, Between, v.With(E.Conclude(v.job.planId, ps, st, i, E.BudgetStop)))
  {
    t := Apply(c, s, Decide(w, false));
    RunFirst(c, s, Decide(w, false), []);
    ConcludeView(v.job.planId, ps, InRun(s, s.workers[w]), st, i, E.BudgetStop);
  }

  lemma TakeGo(c: P.Config, s: State, w: WorkerId, i: nat, ps: PlanStep, v: World, id: Option<nat>, xs: seq<Action>)
    returns (t: State)
    requires Stands(s, w, Deciding(i, ps, id), v) && i < |v.job.steps|
    ensures Takes(c, s, Decide(w, true), xs, t)
    ensures if id.None? then Stands(t, w, Sending(i, ps), v)
            else Stands(t, w, Waiting(i, ps), v.(job := WithStep(v.job, i, v.job.steps[i].(generationId := id))))
  {
    t := Apply(c, s, Decide(w, true));
    RunFirst(c, s, Decide(w, true), xs);
  }

  lemma DecidesLikeTheExecutor(c: P.Config, s: State, w: WorkerId, i: nat, ps: PlanStep, v: World, id: Option<nat>,
                               begun: E.Progress, g: Limits, pace: E.Pace)
    requires pace.interval > 0 && Stands(s, w, Deciding(i, ps, id), v) && i < |v.job.steps|
    requires begun.Finished? ==> id.None? && begun.end.BudgetStop? && Sees(begun.state, v)
    requires begun.NeedPoll? ==>
               id.Some? && Sees(begun.state, v.(job := WithStep(v.job, i, v.job.steps[i].(generationId := id))))
    requires begun.NeedLaunch? ==> id.None? && Sees(begun.state, v)
    ensures var (p, st') := AfterBegin(c, v.platform, pace, g, ps, i, begun);
            Stands(Run(c, s, DecidedScript(c, w, v.platform, pace, g, ps, begun)), w, Between,
                   v.With(st').(platform := p))
  {
    match begun {
      case Finished(st, end) =>
        var t := TakeStop(c, s, w, i, ps, v, st);
      case NeedPoll(st, h) =>
        var t := TakeGo(c, s, w, i, ps, v, id, WaitScript(c, w, v.platform, h, pace));
        WaitsLikePoll(c, t, w, i, ps, v.(job := st.job), st, h, pace);
      case NeedLaunch(st) =>
        var t := TakeGo(c, s, w, i, ps, v, id, LaunchScript(c, w, v.platform, pace, g, ps, st));
        LaunchesLikeTheExecutor(c, t, w, i, ps, v, st, g, pace);
    }
  }

  // ---------------------------------------------------------------------------
  // A whole turn
  // ---------------------------------------------------------------------------

  /** A step as it is begun, and a local step as it ends. */
  function BegunJob(job: Job, i: nat): Job
    requires i < |job.steps|
  {
    WithStep(job, i, job.steps[i].(status := StepStatus.Running, attempts := job.steps[i].attempts + 1))
  }

  lemma TakeBegin(c: P.Config, s: State, w: WorkerId, i: nat, ps: PlanStep, v: World, xs: seq<Action>)
    returns (t: State)
    requires Stands(s, w, Between, v) && i < |v.job.steps| && v.job.steps[i].stepId == ps.stepId && ps.kind.Generation?
    ensures Takes(c, s, Begin(w, i, ps), xs, t) && Stands(t, w, Reading(i, ps), v.(job := BegunJob(v.job, i)))
  {
    t := Apply(c, s, Begin(w, i, ps));
    RunFirst(c, s, Begin(w, i, ps), xs);
  }

  lemma TakeLocal(c: P.Config, s: State, w: WorkerId, i: nat, ps: PlanStep, v: World, st: E.RunState, g: Limits,
                  xs: seq<Action>) returns (t: State)
    requires Stands(s, w, Between, v) && i < |v.job.steps| && v.job.steps[i].stepId == ps.stepId && ps.kind.Local?
    requires Sees(st, v)
    ensures Takes(c, s, Begin(w, i, ps), xs, t)
    ensures var begun := E.Begin(g, v.job.planId, ps, st, i);
            && begun.Finished? && begun.end == E.Done
            && Stands(t, w, Between, v.With(E.Conclude(v.job.planId, ps, begun.state, i, E.Done)))
  {
    t := Apply(c, s, Begin(w, i, ps));
    RunFirst(c, s, Begin(w, i, ps), xs);
  }

  lemma TakeSave(c: P.Config, s: State, w: WorkerId, v: World) returns (t: State)
    requires Stands(s, w, Between, v)
    ensures Takes(c, s, Save(w), [], t)
            && Stands(t, w, Between, v.(jobs := v.jobs[v.job.jobId := Totalled(v.job)]))
  {
    t := Apply(c, s, Save(w));
    RunFirst(c, s, Save(w), []);
  }

  lemma TakeSkip(c: P.Config, s: State, w: WorkerId, ps: PlanStep, v: World, st: E.RunState) returns (t: State)
    requires Stands(s, w, Between, v) && Sees(st, v) && st.aborted && !st.refused
    ensures Takes(c, s, Skip(w, ps), [], t) && Stands(t, w, Between, v.With(E.PassOver(st, ps)))
  {
    t := Apply(c, s, Skip(w, ps));
    RunFirst(c, s, Skip(w, ps), []);
  }

  /** The statements of one step that is run. */
  function StepScript(c: P.Config, w: WorkerId, p: P.State, pace: E.Pace, g: Limits, i: nat, ps: PlanStep,
                      st: E.RunState): seq<Action>
    requires pace.interval > 0 && i < |st.job.steps|
  {
    if ps.kind.Local? then [Begin(w, i, ps)] + [Save(w)]
    else
      var begun := E.Begin(g, st.job.planId, ps, st, i);
      var claim := ClaimScript(w, BegunJob(st.job, i), st.rows, ps);
      [Begin(w, i, ps)] + if ClaimOf(st.job, st.rows, ps).Err? then claim
                          else claim + (DecidedScript(c, w, p, pace, g, ps, begun) + [Save(w)])
  }

  /** The statements of one turn of the loop. */
  function TurnScript(c: P.Config, w: WorkerId, p: P.State, pace: E.Pace, g: Limits, ps: PlanStep,
                      st: E.RunState): seq<Action>
    requires pace.interval > 0
  {
    if E.ToBeRun(st, ps) then StepScript(c, w, p, pace, g, FindStep(st.job.steps, ps.stepId).value, ps, st)
    else if st.aborted && !st.refused then [Skip(w, ps)]
    else []
  }

  /** The protocol stands where the executor does; a worker the ledger refused is gone. */
  ghost predicate Follows(t: State, w: WorkerId, p: P.State, st: E.RunState) {
    && t.rows == st.rows && t.platform == p
    && if st.refused then w !in t.workers else w in t.workers && t.workers[w] == Worker(st.job, Between)
  }

  /** What beginning a step leads to, seen from the ledger. */
  lemma BeginCases(g: Limits, ps: PlanStep, st: E.RunState, i: nat)
    requires i < |st.job.steps| && ps.kind.Generation?
    ensures var begun := E.Begin(g, st.job.planId, ps, st, i);
            match ClaimOf(st.job, st.rows, ps)
            case Err(_) =>
              begun == E.Finished(st.(job := BegunJob(st.job, i)), E.Refused)
            case Ok(rows) =>
              var at := (st.job.planId, ps.stepId);
              && at in rows
              && var id := rows[at].generationId;
                 var job := BegunJob(st.job, i);
              && begun.state.rows == rows
              && begun.state.job == (if id.Some? then WithStep(job, i, job.steps[i].(generationId := id)) else job)
              && (if id.Some? then begun.NeedPoll? else begun.NeedLaunch? || (begun.Finished? && begun.end.BudgetStop?))
  {
  }

  /** The step ended with the document's total; the run goes on, or was refused. */
  ghost predicate Ended(st: E.RunState, r: E.RunState, refused: bool) {
    Totalled(r.job) == r.job && r.job.jobId == st.job.jobId && (r.refused <==> refused)
  }

  lemma ConcludeEnds(planId: PlanId, ps: PlanStep, st: E.RunState, i: nat, end: E.StepEnd)
    requires i < |st.job.steps|
    ensures Ended(st, E.Conclude(planId, ps, st, i, end), st.refused || end.Refused?)
  {
  }

  lemma WaitEnds(planId: PlanId, ps: PlanStep, st: E.RunState, i: nat, poll: E.PollEvent)
    requires i < |st.job.steps|
    ensures Ended(st, E.Waited(planId, ps, st, i, poll), st.refused)
  {
    var (st1, end) := E.AfterPoll(planId, ps, st, i, poll);
    ConcludeEnds(planId, ps, st1, i, end);
  }

  lemma ReplyEnds(c: P.Config, p: P.State, pace: E.Pace, g: Limits, ps: PlanStep, st: E.RunState, i: nat,
                  reply: LaunchReply)
    requires pace.interval > 0 && i < |st.job.steps|
    ensures Ended(st, AfterReply(c, p, pace, g, ps, st, i, reply).1, st.refused)
  {
    match E.AfterLaunch(g, st.job.planId, ps, st, i, Ok(reply)) {
      case Finished(st2, end) => ConcludeEnds(st.job.planId, ps, st2, i, end);
      case NeedPoll(st2, h) =>
        WaitEnds(st.job.planId, ps, st2, i, E.Poll(B.MockWire(c), p, h, pace, 0).1);
      case NeedLaunch(_) =>
    }
  }

  lemma ServeEnds(c: P.Config, p: P.State, pace: E.Pace, g: Limits, ps: PlanStep, st: E.RunState, i: nat)
    requires pace.interval > 0 && i < |st.job.steps|
    ensures Ended(st, AfterServe(c, p, pace, g, ps, st, i).1, st.refused)
  {
    var (p1, launch) := P.Generate(c, p, ps.GenerateBody());
    match launch {
      case Err(e) => ConcludeEnds(st.job.planId, ps, E.Logged(st, ps, i, 0), i, E.Fault(e));
      case Ok(reply) => ReplyEnds(c, p1, pace, g, ps, st, i, reply);
    }
  }

  lemma BegunEnds(c: P.Config, p: P.State, pace: E.Pace, g: Limits, ps: PlanStep, i: nat, begun: E.Progress)
    requires pace.interval > 0 && i < |begun.state.job.steps|
    ensures Ended(begun.state, AfterBegin(c, p, pace, g, ps, i, begun).1,
                  begun.state.refused || (begun.Finished? && begun.end.Refused?))
  {
    match begun {
      case Finished(st, end) => ConcludeEnds(st.job.planId, ps, st, i, end);
      case NeedPoll(st, h) => WaitEnds(st.job.planId, ps, st, i, E.Poll(B.MockWire(c), p, h, pace, 0).1);
      case NeedLaunch(st) => ServeEnds(c, p, pace, g, ps, st, i);
    }
  }

  /** The executor's turn in the terms of the scripts. */
  lemma DriveIsAfterBegin(c: P.Config, p: P.State, pace: E.Pace, g: Limits, ps: PlanStep, st: E.RunState, i: nat)
    requires pace.interval > 0 && FindStep(st.job.steps, ps.stepId) == Some(i) && E.ToBeRun(st, ps)
    ensures var d := E.DriveStep(B.MockWire(c), p, pace, g, st.job.planId, ps, st);
            (d.0, d.1) == AfterBegin(c, p, pace, g, ps, i, E.Begin(g, st.job.planId, ps, st, i))
  {
  }

  /** A step that is run, statement by statement. */
  lemma StepLikeTheExecutor(c: P.Config, g: Limits, s: State, w: WorkerId, i: nat, ps: PlanStep, v: World,
                            st: E.RunState, pace: E.Pace)
    requires pace.interval > 0 && Stands(s, w, Between, v) && Sees(st, v) && !st.refused
    requires i < |st.job.steps| && st.job.steps[i].stepId == ps.stepId
    ensures var (p, r) := AfterBegin(c, v.platform, pace, g, ps, i, E.Begin(g, st.job.planId, ps, st, i));
            var t := Run(c, s, StepScript(c, w, v.platform, pace, g, i, ps, st));
            Follows(t, w, p, r) && t.jobs == v.jobs[r.job.jobId := r.job] && r.job.jobId == v.job.jobId
  {
    var begun := E.Begin(g, st.job.planId, ps, st, i);
    var (p, r) := AfterBegin(c, v.platform, pace, g, ps, i, begun);
    BegunEnds(c, v.platform, pace, g, ps, i, begun);
    if ps.kind.Local? {
      var t := TakeLocal(c, s, w, i, ps, v, st, g, [Save(w)]);
      var u := TakeSave(c, t, w, v.With(r));
    } else {
      var job := BegunJob(st.job, i);
      var claim := ClaimScript(w, job, st.rows, ps);
      var v1 := v.(job := job);
      BeginCases(g, ps, st, i);
      if ClaimOf(st.job, st.rows, ps).Err? {
        var t := TakeBegin(c, s, w, i, ps, v, claim);
        ClaimsLikeTheExecutor(c, t, w, i, ps, v1);
      } else {
        StepGoesThrough(c, g, s, w, i, ps, v, st, pace);
      }
    }
  }

  lemma StepGoesThrough(c: P.Config, g: Limits, s: State, w: WorkerId, i: nat, ps: PlanStep, v: World,
                        st: E.RunState, pace: E.Pace)
    requires pace.interval > 0 && Stands(s, w, Between, v) && Sees(st, v) && !st.refused && ps.kind.Generation?
    requires i < |st.job.steps| && st.job.steps[i].stepId == ps.stepId && ClaimOf(st.job, st.rows, ps).Ok?
    ensures var (p, r) := AfterBegin(c, v.platform, pace, g, ps, i, E.Begin(g, st.job.planId, ps, st, i));
            var t := Run(c, s, StepScript(c, w, v.platform, pace, g, i, ps, st));
            Stands(t, w, Between, v.With(r).(platform := p, jobs := v.jobs[r.job.jobId := Totalled(r.job)]))
  {
    var begun := E.Begin(g, st.job.planId, ps, st, i);
    var (p, r) := AfterBegin(c, v.platform, pace, g, ps, i, begun);
    var job, rows := BegunJob(st.job, i), ClaimOf(st.job, st.rows, ps).value;
    var claim := ClaimScript(w, job, st.rows, ps);
    var decided := DecidedScript(c, w, v.platform, pace, g, ps, begun);
    BeginCases(g, ps, st, i);
    var t := TakeBegin(c, s, w, i, ps, v, claim + (decided + [Save(w)]));
    ClaimsLikeTheExecutor(c, t, w, i, ps, v.(job := job));
    RunConcat(c, t, claim, decided + [Save(w)]);
    var u := Run(c, t, claim);
    DecidesLikeTheExecutor(c, u, w, i, ps, v.(job := job, rows := rows), rows[v.At(ps)].generationId, begun, g, pace);
    RunConcat(c, u, decided, [Save(w)]);
    var x := TakeSave(c, Run(c, u, decided), w, v.With(r).(platform := p));
  }

  /** No job but this one was written. */
  ghost predicate OnlyJob(a: map<JobId, Job>, b: map<JobId, Job>, jobId: JobId) {
    forall j :: j != jobId ==> (j in a <==> j in b) && (j in a ==> a[j] == b[j])
  }

  /** Undisturbed, the protocol's statements for one turn of the loop lead the document, the
      ledger and the platform exactly where the executor's turn leads them: whatever the
      step's kind, whatever the ledger holds and the guard decides, whatever the platform
      answers. A step that was run is saved with its total. */
  lemma UndisturbedIsOneTurn(c: P.Config, g: Limits, s: State, w: WorkerId, ps: PlanStep, st: E.RunState, pace: E.Pace)
    requires pace.interval > 0 && Follows(s, w, s.platform, st)
    ensures var d := E.DriveStep(B.MockWire(c), s.platform, pace, g, st.job.planId, ps, st);
            var t := Run(c, s, TurnScript(c, w, s.platform, pace, g, ps, st));
            && Follows(t, w, d.0, d.1) && d.1.job.jobId == st.job.jobId
            && t.jobs == if E.ToBeRun(st, ps) then s.jobs[st.job.jobId := d.1.job] else s.jobs
  {
    if !st.refused {
      var v := World(st.job, st.rows, s.jobs, s.platform);
      if E.ToBeRun(st, ps) {
        var i := FindStep(st.job.steps, ps.stepId).value;
        StepLikeTheExecutor(c, g, s, w, i, ps, v, st, pace);
        DriveIsAfterBegin(c, s.platform, pace, g, ps, st, i);
      } else if st.aborted {
        var t := TakeSkip(c, s, w, ps, v, st);
      }
    }
  }

  // ---------------------------------------------------------------------------
  // A whole run
  // ---------------------------------------------------------------------------

  type History = seq<(P.State, E.RunState)>

  /** After the script the protocol stands where the executor does after `n` turns; what a
      refusal ended is stored. */
  ghost predicate Keeps(s: State, t: State, w: WorkerId, p: P.State, st: E.RunState, jobId: JobId) {
    && Follows(t, w, p, st) && st.job.jobId == jobId && OnlyJob(s.jobs, t.jobs, jobId)
    && (st.refused ==> jobId in t.jobs && t.jobs[jobId] == st.job)
  }

  lemma KeepsTurn(c: P.Config, g: Limits, s: State, t: State, w: WorkerId, ps: PlanStep, p: P.State, st: E.RunState,
                  pace: E.Pace, p': P.State, st': E.RunState)
    returns (u: State)
    requires pace.interval > 0 && Keeps(s, t, w, p, st, st.job.jobId)
    requires E.IsDrivenTurn(B.MockWire(c), pace, g, st.job.planId, ps, p, st, p', st')
    ensures u == Run(c, t, TurnScript(c, w, p, pace, g, ps, st)) && Keeps(s, u, w, p', st', st.job.jobId)
    ensures st'.job.planId == st.job.planId
  {
    u := Run(c, t, TurnScript(c, w, p, pace, g, ps, st));
    UndisturbedIsOneTurn(c, g, t, w, ps, st, pace);
    E.DriveStepIsOneStep(B.MockWire(c), p, pace, g, st.job.planId, ps, st);
    StepKeepsIds(g, st.job.planId, ps, st, E.DriveStep(B.MockWire(c), p, pace, g, st.job.planId, ps, st).2);
  }

  lemma {:induction false} RunLikeTheExecutor(c: P.Config, g: Limits, s: State, w: WorkerId, planId: PlanId,
                                              steps: seq<PlanStep>, pace: E.Pace, tr: History, n: nat)
    returns (xs: seq<Action>)
    requires pace.interval > 0 && E.IsHistory(B.MockWire(c), pace, g, planId, steps, tr) && n < |tr|
    requires Follows(s, w, tr[0].0, tr[0].1) && !tr[0].1.refused && tr[0].1.job.planId == planId
    ensures Keeps(s, Run(c, s, xs), w, tr[n].0, tr[n].1, tr[0].1.job.jobId) && tr[n].1.job.planId == planId
  {
    if n == 0 {
      xs := [];
    } else {
      var m := n - 1;
      var before := RunLikeTheExecutor(c, g, s, w, planId, steps, pace, tr, m);
      assert E.IsDrivenTurn(B.MockWire(c), pace, g, planId, steps[m], tr[m].0, tr[m].1, tr[m + 1].0, tr[m + 1].1);
      var turn := TurnScript(c, w, tr[m].0, pace, g, steps[m], tr[m].1);
      var u := KeepsTurn(c, g, s, Run(c, s, before), w, steps[m], tr[m].0, tr[m].1, pace, tr[n].0, tr[n].1);
      xs := before + turn;
      RunConcat(c, s, before, turn);
    }
  }

  lemma TakeFinish(c: P.Config, s: State, w: WorkerId, p: P.State, st: E.RunState) returns (t: State)
    requires Follows(s, w, p, st) && !st.refused
    ensures Takes(c, s, Finish(w, st.aborted), [], t)
    ensures t.rows == st.rows && t.platform == p && w !in t.workers
    ensures t.jobs == s.jobs[st.job.jobId := E.FinalJob(st)]
  {
    t := Apply(c, s, Finish(w, st.aborted));
    RunFirst(c, s, Finish(w, st.aborted), []);
  }

  /** Every run of the executor against the simulated platform is an interleaving of the
      protocol, one in which nobody gets in between: it leaves the same ledger, the same
      platform and the same final document. So what the protocol keeps over all
      interleavings holds of these runs, from any state they start in. */
  lemma RunIsAnInterleaving(c: P.Config, g: Limits, s: State, w: WorkerId, planId: PlanId, steps: seq<PlanStep>,
                            pace: E.Pace, tr: History) returns (xs: seq<Action>)
    requires pace.interval > 0 && E.IsHistory(B.MockWire(c), pace, g, planId, steps, tr)
    requires Follows(s, w, tr[0].0, tr[0].1) && !tr[0].1.refused && tr[0].1.job.planId == planId
    ensures var (t, end) := (Run(c, s, xs), tr[|tr| - 1]);
            && t.rows == end.1.rows && t.platform == end.0 && w !in t.workers
            && t.jobs == s.jobs[tr[0].1.job.jobId := E.LastDocument(end.1)]
  {
    var n := |tr| - 1;
    var turns := RunLikeTheExecutor(c, g, s, w, planId, steps, pace, tr, n);
    if tr[n].1.refused {
      xs := turns;
    } else {
      var last := [Finish(w, tr[n].1.aborted)];
      xs := turns + last;
      RunConcat(c, s, turns, last);
      var t := TakeFinish(c, Run(c, s, turns), w, tr[n].0, tr[n].1);
    }
  }
}
