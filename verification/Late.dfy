/** A verdict found late by the reconciler lands exactly as if the executor had seen it. */
module Late {
  import opened Money
  import opened Domain
  import opened Budget
  import opened Settlement
  import opened Ledger
  import opened WireModel
  import opened Execution
  import opened Spending
  import opened Shapes
  import opened Apartness
  import R = Reconciler

  // ---------------------------------------------------------------------------
  // The step itself, timely and late
  // ---------------------------------------------------------------------------

  /** Errors are only ever added under the running step's name. */
  ghost predicate AddsOwnErrors(ps: PlanStep, st: RunState, st': RunState) {
    forall e: JobError :: e in st'.job.errors ==> e in st.job.errors || e.stepId == Some(ps.stepId)
  }

  lemma ConcludeErrors(planId: PlanId, ps: PlanStep, st: RunState, st1: RunState, i: nat, end: StepEnd)
    requires i < |st1.job.steps| && AddsOwnErrors(ps, st, st1)
    ensures AddsOwnErrors(ps, st, Conclude(planId, ps, st1, i, end))
  {
  }

  lemma WaitedErrors(planId: PlanId, ps: PlanStep, st: RunState, st2: RunState, i: nat, poll: PollEvent)
    requires i < |st2.job.steps| && AddsOwnErrors(ps, st, st2)
    ensures AddsOwnErrors(ps, st, Waited(planId, ps, st2, i, poll))
  {
    var (st3, end) := AfterPoll(planId, ps, st2, i, poll);
    assert AddsOwnErrors(ps, st, st3);
    ConcludeErrors(planId, ps, st, st3, i, end);
  }

  lemma LaunchErrors(g: Limits, planId: PlanId, ps: PlanStep, st: RunState, st1: RunState, i: nat,
                     launch: Result<LaunchReply, VibeError>)
    requires i < |st1.job.steps| && AddsOwnErrors(ps, st, st1)
    ensures AddsOwnErrors(ps, st, AfterLaunch(g, planId, ps, st1, i, launch).state)
  {
    LaunchCases(g, planId, ps, st1, i, launch);
  }

  lemma BeginErrors(g: Limits, planId: PlanId, ps: PlanStep, st: RunState, i: nat)
    requires i < |st.job.steps|
    ensures AddsOwnErrors(ps, st, Begin(g, planId, ps, st, i).state)
  {
  }

  lemma StepErrors(g: Limits, planId: PlanId, ps: PlanStep, st: RunState, ev: Events)
    ensures AddsOwnErrors(ps, st, OneStep(g, planId, ps, st, ev))
  {
    if ToBeRun(st, ps) {
      var i := FindStep(st.job.steps, ps.stepId).value;
      var p := Begin(g, planId, ps, st, i);
      BeginErrors(g, planId, ps, st, i);
      if p.Finished? {
        ConcludeErrors(planId, ps, st, p.state, i, p.end);
      } else if p.NeedPoll? {
        WaitedErrors(planId, ps, st, p.state, i, ev.poll);
      } else {
        LaunchErrors(g, planId, ps, st, p.state, i, ev.launch);
        var q := AfterLaunch(g, planId, ps, p.state, i, ev.launch);
        if q.Finished? {
          ConcludeErrors(planId, ps, st, q.state, i, q.end);
        } else {
          WaitedErrors(planId, ps, st, q.state, i, ev.poll);
        }
      }
    }
  }

  ghost predicate NoErrorsOf(errors: seq<JobError>, id: StepId) {
    forall e :: e in errors ==> e.stepId != Some(id)
  }

  lemma TurnErrors(g: Limits, planId: PlanId, ps: PlanStep, st: RunState, ev: Events, st': RunState, id: StepId)
    requires IsTurn(g, planId, ps, st, ev, st') && NoErrorsOf(st.job.errors, id) && ps.stepId != id
    ensures NoErrorsOf(st'.job.errors, id)
  {
    StepErrors(g, planId, ps, st, ev);
  }

  lemma {:induction false} NoErrorsBefore(g: Limits, planId: PlanId, steps: seq<PlanStep>, evs: seq<Events>,
                                          tr: seq<RunState>, n: nat, k: nat)
    requires IsRun(g, planId, steps, evs, tr) && DistinctSteps(steps) && n <= k < |steps|
    requires NoErrorsOf(tr[0].job.errors, steps[k].stepId)
    ensures NoErrorsOf(tr[n].job.errors, steps[k].stepId)
  {
    if n > 0 {
      var m := n - 1;
      NoErrorsBefore(g, planId, steps, evs, tr, m, k);
      assert IsTurn(g, planId, steps[m], tr[m], evs[m], tr[m + 1]);
      assert steps[m].stepId != steps[k].stepId;
      TurnErrors(g, planId, steps[m], tr[m], evs[m], tr[m + 1], steps[k].stepId);
    }
  }

  /** The state in which the executor starts waiting for step `ps`, if it gets there. */
  function WaitState(g: Limits, planId: PlanId, ps: PlanStep, st: RunState,
                     launch: Result<LaunchReply, VibeError>): Option<RunState> {
    if !ToBeRun(st, ps) then None
    else
      var i := FindStep(st.job.steps, ps.stepId).value;
      var p := Begin(g, planId, ps, st, i);
      if !p.NeedLaunch? then None
      else
        var q := AfterLaunch(g, planId, ps, p.state, i, launch);
        if q.NeedPoll? then Some(q.state) else None
  }

  /** The two turns on step `k`: the verdict arrives, or the wait runs out. */
  function Verdicts(planId: PlanId, id: StepId, w: RunState, k: nat, v: Payload): Diff
    requires k < |w.job.steps| && (planId, id) in w.rows
  {
    var late := w.job.steps[k].(status := StepStatus.Failed, error := Some(PollTimeout));
    var s := Settled(late, v);
    var row := w.rows[(planId, id)];
    Diff(k, (planId, id), id, w.job.jobId, s, late,
         row.(status := s.status, generationId := Or(s.generationId, row.generationId), cost := s.cost), row,
         if s.status.Failed? then {JobError(Some(id), s.error.value)} else {})
  }

  /** A step settles identically whoever learns the outcome first. */
  lemma StepSettlesAlike(s: JobStep, v: Payload)
    ensures Settled(s.(status := StepStatus.Failed, error := Some(PollTimeout)), v) == Settled(s, v)
  {
  }

  /** What would be committed at this point had verdict `v` on step `k` been in time: the
      charge handed back, the final cost taken instead. */
  function InTime(b: RunState, k: nat, v: Payload): Amount {
    if k >= |b.job.steps| then b.committed
    else Recommitted(b.committed, b.job.steps[k].cost, Settled(b.job.steps[k], v).cost)
  }

  lemma VerdictParts(planId: PlanId, ps: PlanStep, w: RunState, k: nat, v: Payload)
    requires k < |w.job.steps| && w.job.steps[k].stepId == ps.stepId && (planId, ps.stepId) in w.rows
    requires NoErrorsOf(w.job.errors, ps.stepId) && w.job.planId == planId
    ensures var a := Waited(planId, ps, w, k, Answered(v));
            var b := Waited(planId, ps, w, k, TimedOut);
            && Apart(Verdicts(planId, ps.stepId, w, k, v), a, b)
            && a.committed == InTime(b, k, v)
  {
    var d := Verdicts(planId, ps.stepId, w, k, v);
    StepSettlesAlike(w.job.steps[k], v);
    var a := Waited(planId, ps, w, k, Answered(v));
    var b := Waited(planId, ps, w, k, TimedOut);
    assert a.job.steps == b.job.steps[k := d.stepA];
    assert a.rows == b.rows[d.at := d.rowA];
    assert b.job.errors == w.job.errors + [JobError(Some(ps.stepId), PollTimeout)];
    assert SameErrors(d, a.job.errors, b.job.errors);
  }

  /** What a fresh step looks like when the wait for it begins: charged, recorded as
      running, under its own key. */
  lemma WaitStateFresh(g: Limits, planId: PlanId, ps: PlanStep, st: RunState, i: nat, ev: Events)
    requires i < |st.job.steps| && FindStep(st.job.steps, ps.stepId) == Some(i)
    requires Untouched(st.job.steps[i]) && (planId, ps.stepId) !in st.rows && !KeyInUse(st.rows, ps.key)
    requires WaitState(g, planId, ps, st, ev.launch).Some?
    ensures var w := WaitState(g, planId, ps, st, ev.launch).value;
            && |w.job.steps| == |st.job.steps| && w.job.steps[i].stepId == ps.stepId
            && SameIds(w, st) && w.job.errors == st.job.errors
            && Unsettled(planId, ps.stepId, i, w)
            && OneStep(g, planId, ps, st, ev) == Waited(planId, ps, w, i, ev.poll)
  {
    FreshClaim(planId, ps, st);
    var p := Begin(g, planId, ps, st, i);
    LaunchCases(g, planId, ps, p.state, i, ev.launch);
  }

  /** Step `k` is launched and has no verdict: its ledger row is running, under the step's
      generation id if it got one. */
  ghost predicate Unsettled(planId: PlanId, id: StepId, k: nat, st: RunState) {
    var at := (planId, id);
    && k < |st.job.steps| && at in st.rows && st.rows[at].status.Running?
    && st.rows[at].generationId == st.job.steps[k].generationId && st.rows[at].jobId == st.job.jobId
  }

  /** On one side verdict `v` settled the step, on the other it was given up on. */
  ghost predicate OneVerdictApart(d: Diff, v: Payload) {
    && d.stepA == Settled(d.stepB, v) && d.stepA.stepId == d.id
    && d.stepB.status.Failed? && d.stepB.error == Some(PollTimeout)
    && d.own == (if d.stepA.status.Failed? then {JobError(Some(d.id), d.stepA.error.value)} else {})
    && d.rowA == d.rowB.(status := d.stepA.status, generationId := Or(d.stepA.generationId, d.rowB.generationId),
                         cost := d.stepA.cost)
  }

  // ---------------------------------------------------------------------------
  // One run, told twice
  // ---------------------------------------------------------------------------

  /** Step `k` is launched and waited for. In the late telling, `late` and `tb`, the wait
      runs out; in the timely one, `timely` and `ta`, verdict `v` arrives. Everything else
      is heard alike. */
  datatype TwoRuns = TwoRuns(
    g: Limits, planId: PlanId, steps: seq<PlanStep>, timely: seq<Events>, late: seq<Events>, ta: seq<RunState>,
    tb: seq<RunState>, k: nat, v: Payload)
  {
    ghost predicate Valid() {
      && IsRun(g, planId, steps, timely, ta) && IsRun(g, planId, steps, late, tb) && ta[0] == tb[0]
      && Fresh(planId, steps, tb[0]) && tb[0].job.errors == [] && tb[0].job.planId == planId
      && k < |steps| && late[k].poll == TimedOut && timely == late[k := late[k].(poll := Answered(v))]
      && !v.phase.Working? && WaitState(g, planId, steps[k], tb[k], late[k].launch).Some?
    }

    predicate Sized() {
      k < |steps| == |late| == |timely| && |ta| == |tb| == |steps| + 1
    }

    /** Both are runs of the plan, hear the same after step `k` and stand apart there. */
    ghost predicate SideBySide(d: Diff) {
      && Sized() && IsShaped(g, planId, steps, timely, ta) && IsShaped(g, planId, steps, late, tb)
      && (forall j :: k < j < |late| ==> timely[j] == late[j])
      && d.k == k && d.id == steps[k].stepId && d.at == (planId, d.id)
      && Apart(d, ta[k + 1], tb[k + 1]) && ta[k + 1].committed == InTime(tb[k + 1], k, v)
      && OneVerdictApart(d, v) && Unsettled(planId, d.id, k, tb[k + 1])
    }

    function At(): StepRef
      requires k < |steps|
    {
      (planId, steps[k].stepId)
    }

    /** How the late run ends. */
    function End(): RunState
      requires Sized()
    {
      tb[|steps|]
    }

    /** How the timely run would have ended. */
    function TimelyEnd(): RunState
      requires Sized()
    {
      ta[|steps|]
    }
  }

  /** The turn on step `k`, taken both ways from the same state. */
  lemma ApartTurns(g: Limits, planId: PlanId, steps: seq<PlanStep>, st: RunState, k: nat, late: Events, v: Payload,
                   a: RunState, b: RunState)
    requires RunShape(planId, steps, st, k) && k < |steps| && NoErrorsOf(st.job.errors, steps[k].stepId)
    requires late.poll == TimedOut && WaitState(g, planId, steps[k], st, late.launch).Some? && st.job.planId == planId
    requires IsTurn(g, planId, steps[k], st, late, b)
    requires IsTurn(g, planId, steps[k], st, late.(poll := Answered(v)), a)
    ensures var w := WaitState(g, planId, steps[k], st, late.launch).value;
            && k < |b.job.steps| && w.job.steps == b.job.steps[k := w.job.steps[k]]
            && Unsettled(planId, steps[k].stepId, k, w) && w.job.steps[k].stepId == steps[k].stepId
            && Apart(Verdicts(planId, steps[k].stepId, w, k, v), a, b) && a.committed == InTime(b, k, v)
            && OneVerdictApart(Verdicts(planId, steps[k].stepId, w, k, v), v)
            && Unsettled(planId, steps[k].stepId, k, b)
  {
    FoundAt(steps, st.job, k);
    assert NotReached(planId, steps, st, k);
    WaitStateFresh(g, planId, steps[k], st, k, late);
    WaitStateFresh(g, planId, steps[k], st, k, late.(poll := Answered(v)));
    VerdictParts(planId, steps[k], WaitState(g, planId, steps[k], st, late.launch).value, k, v);
  }

  /** How step `k` is reached, alike in both tellings. */
  lemma ReachesTheStep(r: TwoRuns)
    requires r.Valid()
    ensures r.ta[r.k] == r.tb[r.k] && r.tb[r.k].job.planId == r.planId
    ensures RunShape(r.planId, r.steps, r.tb[r.k], r.k) && NoErrorsOf(r.tb[r.k].job.errors, r.steps[r.k].stepId)
  {
    SamePrefix(r.g, r.planId, r.steps, r.timely, r.late, r.ta, r.tb, r.k);
    RunHasShape(r.g, r.planId, r.steps, r.late, r.tb, r.k);
    NoErrorsBefore(r.g, r.planId, r.steps, r.late, r.tb, r.k, r.k);
    IdsStay(r.g, r.planId, r.steps, r.late, r.tb, r.k);
  }

  lemma BothShaped(r: TwoRuns)
    requires r.Valid()
    ensures IsShaped(r.g, r.planId, r.steps, r.timely, r.ta) && IsShaped(r.g, r.planId, r.steps, r.late, r.tb)
    ensures forall j :: r.k < j < |r.late| ==> r.timely[j] == r.late[j]
  {
    RunIsShaped(r.g, r.planId, r.steps, r.timely, r.ta);
    RunIsShaped(r.g, r.planId, r.steps, r.late, r.tb);
  }

  /** Right after step `k` the two runs are apart by its verdict. */
  lemma PutSideBySide(r: TwoRuns) returns (d: Diff)
    requires r.Valid()
    ensures r.SideBySide(d)
  {
    var ps, k := r.steps[r.k], r.k;
    ReachesTheStep(r);
    assert IsTurn(r.g, r.planId, ps, r.ta[k], r.timely[k], r.ta[k + 1])
           && IsTurn(r.g, r.planId, ps, r.tb[k], r.late[k], r.tb[k + 1]);
    ApartTurns(r.g, r.planId, r.steps, r.tb[k], k, r.late[k], r.v, r.ta[k + 1], r.tb[k + 1]);
    d := Verdicts(r.planId, ps.stepId, WaitState(r.g, r.planId, ps, r.tb[k], r.late[k].launch).value, k, r.v);
    BothShaped(r);
  }

  lemma SidesAreSane(r: TwoRuns)
    requires r.Valid() && AllSane(r.late) && Sane(Answered(r.v))
    ensures SaneSides(r)
  {
  }

  // ---------------------------------------------------------------------------
  // What the guard would have said
  // ---------------------------------------------------------------------------

  /** What is committed after turn `n` of the late run if `x` was before it: the same turn,
      on the same answers. */
  function Replayed(r: TwoRuns, n: nat, x: Amount): Amount
    requires r.Sized() && n < |r.steps|
  {
    OneStep(r.g, r.planId, r.steps[n], r.tb[n].(committed := x), r.late[n]).committed
  }

  /** What would be committed before turn `n` had the verdict on step `k` been in time,
      worked out from the late run alone. */
  function Shadow(r: TwoRuns, n: nat): Amount
    requires r.Sized() && r.k < n <= |r.steps|
  {
    if n == r.k + 1 then InTime(r.tb[n], r.k, r.v) else Replayed(r, n - 1, Shadow(r, n - 1))
  }

  /** The guard decides the steps between `k` and `n` of the late run as it would have
      with the verdict in hand. */
  ghost predicate GuardAgrees(r: TwoRuns, n: nat)
    requires r.Sized() && n <= |r.steps|
  {
    forall j {:trigger Shadow(r, j)} :: r.k < j < n ==>
      DecidesAlike(r.g, r.steps[j], r.tb[j], Shadow(r, j), r.late[j].launch)
  }

  lemma ApartTurn(d: Diff, g: Limits, planId: PlanId, steps: seq<PlanStep>, a: RunState, b: RunState, i: nat,
                  ev: Events)
    requires RunShape(planId, steps, a, i) && RunShape(planId, steps, b, i) && d.k < i < |steps|
    requires d.id == steps[d.k].stepId && d.at == (planId, d.id) && Apart(d, a, b)
    requires DecidesAlike(g, steps[i], b, a.committed, ev.launch)
    ensures var a', b' := OneStep(g, planId, steps[i], a, ev), OneStep(g, planId, steps[i], b, ev);
            Apart(d, a', b') && KeepsPurse(a, b, a', b')
  {
    FoundAt(steps, a.job, i);
    FoundAt(steps, b.job, i);
    assert NotReached(planId, steps, a, i) && NotReached(planId, steps, b, i);
    assert steps[d.k].stepId != steps[i].stepId;
    ApartStep(d, g, planId, steps[i], a, b, i, ev);
  }

  lemma OtherPurseSameShape(planId: PlanId, steps: seq<PlanStep>, b: RunState, i: nat, x: Amount)
    requires RunShape(planId, steps, b, i)
    ensures RunShape(planId, steps, b.(committed := x), i)
  {
    var c := b.(committed := x);
    forall j | i <= j < |steps| ensures NotReached(planId, steps, c, j) {
      assert NotReached(planId, steps, b, j);
    }
  }

  lemma ApartTurnAt(d: Diff, r: TwoRuns, n: nat)
    requires r.SideBySide(d) && r.k < n < |r.steps| && Apart(d, r.ta[n], r.tb[n])
    requires DecidesAlike(r.g, r.steps[n], r.tb[n], r.ta[n].committed, r.late[n].launch)
    ensures Apart(d, r.ta[n + 1], r.tb[n + 1]) && r.ta[n + 1].committed == Replayed(r, n, r.ta[n].committed)
  {
    assert IsTurn(r.g, r.planId, r.steps[n], r.ta[n], r.timely[n], r.ta[n + 1])
           && IsTurn(r.g, r.planId, r.steps[n], r.tb[n], r.late[n], r.tb[n + 1]);
    assert RunShape(r.planId, r.steps, r.ta[n], n) && RunShape(r.planId, r.steps, r.tb[n], n);
    ApartTurn(d, r.g, r.planId, r.steps, r.ta[n], r.tb[n], n, r.late[n]);
    var x := r.ta[n].committed;
    OtherPurseSameShape(r.planId, r.steps, r.tb[n], n, x);
    ApartTurn(d, r.g, r.planId, r.steps, r.ta[n], r.tb[n].(committed := x), n, r.late[n]);
  }

  /** As long as the guard decides alike, the runs stay apart in the same way, and the
      shadow is what the timely run has committed. */
  lemma {:induction false} ApartRun(d: Diff, r: TwoRuns, n: nat)
    requires r.SideBySide(d) && r.k < n <= |r.steps| && GuardAgrees(r, n)
    ensures Apart(d, r.ta[n], r.tb[n]) && r.ta[n].committed == Shadow(r, n)
  {
    if n > r.k + 1 {
      ApartRun(d, r, n - 1);
      assert DecidesAlike(r.g, r.steps[n - 1], r.tb[n - 1], Shadow(r, n - 1), r.late[n - 1].launch);
      ApartTurnAt(d, r, n - 1);
    }
  }

  /** The first step the guard decides differently, if there is one. */
  lemma {:induction false} FirstDisagreement(r: TwoRuns, n: nat) returns (i: nat)
    requires r.Sized() && n <= |r.steps| && !GuardAgrees(r, n)
    ensures r.k < i < n && !DecidesAlike(r.g, r.steps[i], r.tb[i], Shadow(r, i), r.late[i].launch)
    ensures GuardAgrees(r, i)
  {
    i := n - 1;
    if !GuardAgrees(r, n - 1) {
      i := FirstDisagreement(r, n - 1);
    }
  }

  /** There the runs part, and nothing brings them together again. */
  lemma DisagreementParts(d: Diff, r: TwoRuns, i: nat)
    requires r.SideBySide(d) && r.k < i < |r.steps| && Apart(d, r.ta[i], r.tb[i])
    requires !DecidesAlike(r.g, r.steps[i], r.tb[i], r.ta[i].committed, r.late[i].launch)
    ensures Parted((r.planId, r.steps[i].stepId), i, r.TimelyEnd(), r.End())
  {
    var ps, n := r.steps[i], |r.steps|;
    assert IsTurn(r.g, r.planId, ps, r.ta[i], r.timely[i], r.ta[i + 1])
           && IsTurn(r.g, r.planId, ps, r.tb[i], r.late[i], r.tb[i + 1]);
    assert RunShape(r.planId, r.steps, r.ta[i], i) && RunShape(r.planId, r.steps, r.tb[i], i);
    FoundAt(r.steps, r.ta[i].job, i);
    FoundAt(r.steps, r.tb[i].job, i);
    assert NotReached(r.planId, r.steps, r.ta[i], i) && NotReached(r.planId, r.steps, r.tb[i], i);
    DisagreeParts(r.g, r.planId, ps, r.ta[i], r.tb[i], i, r.late[i]);
    EarlierStays(r.g, r.planId, r.steps, r.timely, r.ta, i, n);
    EarlierStays(r.g, r.planId, r.steps, r.late, r.tb, i, n);
  }

  // ---------------------------------------------------------------------------
  // What the sweep finds, and what it makes of it
  // ---------------------------------------------------------------------------

  /** The service's tables once a run has ended; `jobs` are all other jobs. */
  function Tables(jobs: map<JobId, Job>, end: RunState, touched: map<StepRef, nat>): R.Store {
    R.Store(jobs[end.job.jobId := FinalJob(end)], end.rows, touched)
  }

  ghost predicate SameErrorSet(a: seq<JobError>, b: seq<JobError>) {
    forall e: JobError :: e in a <==> e in b
  }

  /** After the sweep the tables say about the job and its plan what they would have said
      had the verdict been in time: same steps, cost and set of errors in the document,
      same ledger rows. Times aside, and the job's status, on which see `StatusesAgree`. */
  ghost predicate LandsAs(planId: PlanId, end: RunState, swept: R.Store) {
    var jobId := end.job.jobId;
    && jobId in swept.jobs
    && swept.jobs[jobId].steps == FinalJob(end).steps && swept.jobs[jobId].cost == FinalJob(end).cost
    && SameErrorSet(swept.jobs[jobId].errors, FinalJob(end).errors)
    && SameRows(planId, swept.rows, end.rows)
  }

  ghost predicate SameRows(planId: PlanId, a: Rows, b: Rows) {
    forall r: StepRef :: r.0 == planId ==> (r in a <==> r in b) && (r in a ==> a[r] == b[r])
  }

  /** The late run ended with step `k` given up on but still running upstream. */
  ghost predicate LeftBehind(planId: PlanId, steps: seq<PlanStep>, k: nat, end: RunState) {
    && k < |steps| && Unsettled(planId, steps[k].stepId, k, end) && end.job.planId == planId
    && FindStep(end.job.steps, steps[k].stepId) == Some(k)
    && end.job.steps[k].status.Failed? && end.job.steps[k].error == Some(PollTimeout)
  }

  lemma LateRunLeavesBehind(d: Diff, r: TwoRuns)
    requires r.SideBySide(d)
    ensures LeftBehind(r.planId, r.steps, r.k, r.End()) && r.End().job.steps[r.k] == d.stepB
    ensures SameIds(r.End(), r.TimelyEnd())
    ensures r.k < |r.TimelyEnd().job.steps| && r.TimelyEnd().job.steps[r.k] == d.stepA
  {
    var n := |r.steps|;
    EarlierStays(r.g, r.planId, r.steps, r.late, r.tb, r.k, n);
    EarlierStays(r.g, r.planId, r.steps, r.timely, r.ta, r.k, n);
    IdsStay(r.g, r.planId, r.steps, r.late, r.tb, n);
    IdsStay(r.g, r.planId, r.steps, r.late, r.tb, r.k + 1);
    IdsStay(r.g, r.planId, r.steps, r.timely, r.ta, n);
    IdsStay(r.g, r.planId, r.steps, r.timely, r.ta, r.k + 1);
    assert RunShape(r.planId, r.steps, r.End(), n);
    FoundAt(r.steps, r.End().job, r.k);
  }

  /** Once old enough, the row left behind is on the sweep's list, and its step is found,
      exactly if the launch had given the step an id. */
  lemma LeftBehindIsListed(planId: PlanId, steps: seq<PlanStep>, k: nat, end: RunState, jobs: map<JobId, Job>,
                           touched: map<StepRef, nat>, before: nat)
    requires LeftBehind(planId, steps, k, end)
    ensures var st, at := Tables(jobs, end, touched), (planId, steps[k].stepId);
            && (R.StepAt(st, at).Some? <==> end.job.steps[k].generationId.Some?)
            && (R.StepAt(st, at).Some? ==> R.StepAt(st, at) == Some(k) && R.StepOf(st, at) == end.job.steps[k])
            && (at in touched && touched[at] < before ==>
                  (at in R.StaleSet(st, before) <==> end.job.steps[k].generationId.Some?))
  {
  }

  /** Asked about step `k` the platform gives verdict `v`. */
  predicate Answers<S>(wire: Wire<S>, s: S, end: RunState, k: nat, v: Payload) {
    k < |end.job.steps| && wire.status(s, R.HandleOf(end.job.steps[k])).1 == Ok(v)
  }

  /** The tables after the sweep has looked at the row left behind. */
  function AfterSweep<S>(wire: Wire<S>, s: S, st: R.Store, at: StepRef, now: nat): R.Store {
    R.Reconcile(wire, R.Swept(s, st, 0), at, now).store
  }

  /** What that look does: with an id, document and row are rewritten; without, nothing. */
  lemma SweepOfLeftBehind<S>(planId: PlanId, steps: seq<PlanStep>, k: nat, end: RunState, jobs: map<JobId, Job>,
                             touched: map<StepRef, nat>, wire: Wire<S>, s: S, v: Payload, now: nat)
    requires LeftBehind(planId, steps, k, end) && Answers(wire, s, end, k, v) && !v.phase.Working?
    ensures var st, at := Tables(jobs, end, touched), (planId, steps[k].stepId);
            var after := AfterSweep(wire, s, st, at, now);
            if end.job.steps[k].generationId.Some? then
              var job := Reconciled(FinalJob(end), k, v);
              && after.jobs == st.jobs[end.job.jobId := job]
              && after.rows == UpdateStep(end.rows, at, job.steps[k].status, job.steps[k].generationId,
                  Some(job.steps[k].cost))
            else after == st
  {
    LeftBehindIsListed(planId, steps, k, end, jobs, touched, now);
    if end.job.steps[k].generationId.Some? {
      R.ReconciledKeeps(FinalJob(end), k, v, steps[k].stepId);
    }
  }

  /** Without an id the sweep leaves the step given up on, which no verdict does. */
  lemma UnsweptDiffers(d: Diff, r: TwoRuns, jobs: map<JobId, Job>, touched: map<StepRef, nat>)
    requires r.SideBySide(d)
    ensures !LandsAs(r.planId, r.TimelyEnd(), Tables(jobs, r.End(), touched))
  {
    LateRunLeavesBehind(d, r);
  }

  /** The reconciler's rewrite of the late document is the timely document. */
  lemma RewriteMatches(d: Diff, v: Payload, a: RunState, b: RunState)
    requires Apart(d, a, b)
    requires d.stepA == Settled(d.stepB, v) && d.stepA.stepId == d.id
    requires d.own == if d.stepA.status.Failed? then {JobError(Some(d.id), d.stepA.error.value)} else {}
    ensures var rewritten := Reconciled(FinalJob(b), d.k, v);
            && rewritten.steps == FinalJob(a).steps && rewritten.cost == FinalJob(a).cost
            && SameErrorSet(rewritten.errors, FinalJob(a).errors)
  {
    ErrorsLeft(b.job.errors, d.id);
    assert Reconciled(FinalJob(b), d.k, v).steps == a.job.steps;
  }

  lemma AgreedLands<S>(d: Diff, r: TwoRuns, jobs: map<JobId, Job>, touched: map<StepRef, nat>, wire: Wire<S>, s: S,
                       now: nat)
    requires r.SideBySide(d) && GuardAgrees(r, |r.steps|) && !r.v.phase.Working?
    requires Answers(wire, s, r.End(), r.k, r.v) && r.End().job.steps[r.k].generationId.Some?
    ensures LandsAs(r.planId, r.TimelyEnd(), AfterSweep(wire, s, Tables(jobs, r.End(), touched), r.At(), now))
  {
    ApartRun(d, r, |r.steps|);
    LateRunLeavesBehind(d, r);
    SweepOfLeftBehind(r.planId, r.steps, r.k, r.End(), jobs, touched, wire, s, r.v, now);
    RewriteMatches(d, r.v, r.TimelyEnd(), r.End());
  }

  lemma PartedDoesNotLand<S>(d: Diff, r: TwoRuns, i: nat, jobs: map<JobId, Job>, touched: map<StepRef, nat>,
                             wire: Wire<S>, s: S, now: nat)
    requires r.SideBySide(d) && !r.v.phase.Working? && r.k < i < |r.steps|
    requires Parted((r.planId, r.steps[i].stepId), i, r.TimelyEnd(), r.End())
    requires Answers(wire, s, r.End(), r.k, r.v)
    ensures !LandsAs(r.planId, r.TimelyEnd(), AfterSweep(wire, s, Tables(jobs, r.End(), touched), r.At(), now))
  {
    LateRunLeavesBehind(d, r);
    SweepOfLeftBehind(r.planId, r.steps, r.k, r.End(), jobs, touched, wire, s, r.v, now);
    assert RunShape(r.planId, r.steps, r.End(), |r.steps|);
    assert r.steps[r.k].stepId != r.steps[i].stepId;
    var after := AfterSweep(wire, s, Tables(jobs, r.End(), touched), r.At(), now);
    var other := (r.planId, r.steps[i].stepId);
    assert after.jobs[r.End().job.jobId].steps[i] == r.End().job.steps[i];
    assert other in after.rows <==> other in r.End().rows;
    assert other in after.rows ==> after.rows[other] == r.End().rows[other];
  }

  // ---------------------------------------------------------------------------
  // Exactly when late equals timely
  // ---------------------------------------------------------------------------

  /** Late equals timely, exactly. When the sweep reaches the row a timeout left behind, and
      the platform gives the verdict, the tables become what they would have been with
      the verdict in time, if and only if the launch gave the step an id and the guard
      decided every later step of the late run as it would have with the verdict in
      hand. Both can be read off the late run and the verdict. */
  lemma LateEqualsTimelyExactly<S>(r: TwoRuns, jobs: map<JobId, Job>, touched: map<StepRef, nat>, wire: Wire<S>, s: S,
                                   now: nat)
    requires r.Valid() && Answers(wire, s, r.End(), r.k, r.v)
    ensures LandsAs(r.planId, r.TimelyEnd(), AfterSweep(wire, s, Tables(jobs, r.End(), touched), r.At(), now)) <==>
            r.End().job.steps[r.k].generationId.Some? && GuardAgrees(r, |r.steps|)
  {
    var d := PutSideBySide(r);
    if r.End().job.steps[r.k].generationId.None? {
      LateRunLeavesBehind(d, r);
      SweepOfLeftBehind(r.planId, r.steps, r.k, r.End(), jobs, touched, wire, s, r.v, now);
      UnsweptDiffers(d, r, jobs, touched);
    } else if GuardAgrees(r, |r.steps|) {
      AgreedLands(d, r, jobs, touched, wire, s, now);
    } else {
      var i := FirstDisagreement(r, |r.steps|);
      ApartRun(d, r, i);
      DisagreementParts(d, r, i);
      PartedDoesNotLand(d, r, i, jobs, touched, wire, s, now);
    }
  }

  lemma SamePlanLandsAlike(planId: PlanId, end: RunState, a: R.Store, b: R.Store)
    requires R.SamePlan(a, b, planId) && end.job.jobId in b.jobs && b.jobs[end.job.jobId].planId == planId
    ensures LandsAs(planId, end, a) <==> LandsAs(planId, end, b)
  {
  }

  /** The same for a whole sweep, over all the stale rows there are and in any order,
      whatever the platform says about other plans: it finds the row left behind, if
      it is old enough, exactly if there is an id, and its outcome for the plan is that of
      the verdict in time, exactly as above. No other step of the plan is left behind. */
  lemma SweepEqualsTimelyExactly<S(!new)>(r: TwoRuns, jobs: map<JobId, Job>, touched: map<StepRef, nat>, wire: Wire<S>,
                                          s: S, before: nat, records: seq<StepRef>, now: nat)
    requires r.Valid() && r.k < |r.End().job.steps|
    requires R.AlwaysAnswers(wire, R.HandleOf(r.End().job.steps[r.k]), r.v)
    requires r.At() in touched && touched[r.At()] < before
    requires var st := Tables(jobs, r.End(), touched);
             && R.Linked(st) && R.NoOtherStale(st, before, r.At()) && R.Lists(records, R.StaleSet(st, before))
    ensures var st := Tables(jobs, r.End(), touched);
            var swept := R.SweepUpTo(wire, R.Swept(s, st, 0), records, now, |records|).store;
            && (r.At() in R.StaleSet(st, before) <==> r.End().job.steps[r.k].generationId.Some?)
            && (LandsAs(r.planId, r.TimelyEnd(), swept) <==>
                r.End().job.steps[r.k].generationId.Some? && GuardAgrees(r, |r.steps|))
  {
    var d := PutSideBySide(r);
    var st := Tables(jobs, r.End(), touched);
    LateRunLeavesBehind(d, r);
    LeftBehindIsListed(r.planId, r.steps, r.k, r.End(), jobs, touched, before);
    assert wire.status(s, R.HandleOf(r.End().job.steps[r.k])).1 == Ok(r.v);
    LateEqualsTimelyExactly(r, jobs, touched, wire, s, now);
    SweepOfLeftBehind(r.planId, r.steps, r.k, r.End(), jobs, touched, wire, s, r.v, now);
    R.SweepOfOneRow(wire, s, st, before, records, now, r.At(), r.v, |records|);
    assert records[..|records|] == records;
    SamePlanLandsAlike(r.planId, r.TimelyEnd(), R.SweepUpTo(wire, R.Swept(s, st, 0), records, now, |records|).store,
                       AfterSweep(wire, s, st, r.At(), now));
  }

  /** In particular late equals timely for a step with an id if the verdict keeps the charged
      cost, or if nothing follows step `k`. */
  lemma LateEqualsTimely<S>(r: TwoRuns, jobs: map<JobId, Job>, touched: map<StepRef, nat>, wire: Wire<S>, s: S,
                            now: nat)
    requires r.Valid() && Answers(wire, s, r.End(), r.k, r.v) && r.End().job.steps[r.k].generationId.Some?
    requires r.k == |r.steps| - 1 || KeepsCharge(r.End(), r.k, r.v)
    ensures LandsAs(r.planId, r.TimelyEnd(), AfterSweep(wire, s, Tables(jobs, r.End(), touched), r.At(), now))
  {
    if r.k < |r.steps| - 1 {
      var d := PutSideBySide(r);
      ChargeKeptInTime(d, r);
      NothingToSee(r);
    }
    LateEqualsTimelyExactly(r, jobs, touched, wire, s, now);
  }

  /** The verdict leaves the step at the cost it was charged. */
  predicate KeepsCharge(end: RunState, k: nat, v: Payload) {
    k < |end.job.steps| && Settled(end.job.steps[k], v).cost == end.job.steps[k].cost
  }

  lemma ChargeKeptInTime(d: Diff, r: TwoRuns)
    requires r.SideBySide(d) && KeepsCharge(r.End(), r.k, r.v)
    ensures InTime(r.tb[r.k + 1], r.k, r.v) == r.tb[r.k + 1].committed
  {
    EarlierStays(r.g, r.planId, r.steps, r.late, r.tb, r.k, |r.steps|);
  }

  lemma {:induction false} ShadowIsTheRun(r: TwoRuns, n: nat)
    requires r.Sized() && IsRun(r.g, r.planId, r.steps, r.late, r.tb) && r.k < n <= |r.steps|
    requires InTime(r.tb[r.k + 1], r.k, r.v) == r.tb[r.k + 1].committed
    ensures Shadow(r, n) == r.tb[n].committed
  {
    if n > r.k + 1 {
      var m := n - 1;
      ShadowIsTheRun(r, m);
      assert IsTurn(r.g, r.planId, r.steps[m], r.tb[m], r.late[m], r.tb[m + 1]);
      assert r.tb[m].(committed := r.tb[m].committed) == r.tb[m];
    }
  }

  /** A verdict that keeps the charge leaves nothing for the guard to see. */
  lemma NothingToSee(r: TwoRuns)
    requires r.Sized() && IsRun(r.g, r.planId, r.steps, r.late, r.tb)
    requires InTime(r.tb[r.k + 1], r.k, r.v) == r.tb[r.k + 1].committed
    ensures GuardAgrees(r, |r.steps|)
  {
    forall j | r.k < j < |r.steps| ensures DecidesAlike(r.g, r.steps[j], r.tb[j], Shadow(r, j), r.late[j].launch) {
      ShadowIsTheRun(r, j);
    }
  }

  // ---------------------------------------------------------------------------
  // The shadow in closed form
  // ---------------------------------------------------------------------------

  /** No verdict names a negative cost. */
  predicate Sane(poll: PollEvent) {
    poll.Answered? && poll.payload.cost.Some? ==> poll.payload.cost.value >= 0
  }

  /** Both tellings start solvent and hear no negative verdict. */
  ghost predicate SaneSides(r: TwoRuns)
    requires r.Sized()
  {
    AllSane(r.late) && AllSane(r.timely) && r.ta[0] == r.tb[0] && Solvent(r.tb[0]) && !r.tb[r.k].aborted
  }

  ghost predicate AllSane(evs: seq<Events>) {
    forall j :: 0 <= j < |evs| ==> Sane(evs[j].poll)
  }

  /** A step paid `cost` from a purse that held `before`. */
  predicate Paid(before: Amount, st: RunState, i: nat) {
    i < |st.job.steps| && st.committed == before + st.job.steps[i].cost
  }

  predicate Solvent(st: RunState) {
    st.aborted || st.committed >= 0
  }

  lemma ConcludePays(planId: PlanId, ps: PlanStep, st: RunState, i: nat, end: StepEnd, before: Amount)
    requires Paid(before, st, i) && (end.BudgetStop? || st.committed >= 0)
    ensures Paid(before, Conclude(planId, ps, st, i, end), i) && Solvent(Conclude(planId, ps, st, i, end))
  {
  }

  lemma WaitPays(planId: PlanId, ps: PlanStep, st: RunState, i: nat, poll: PollEvent, before: Amount)
    requires Paid(before, st, i) && before >= 0 && st.job.steps[i].cost >= 0 && Sane(poll)
    ensures Paid(before, Waited(planId, ps, st, i, poll), i) && Solvent(Waited(planId, ps, st, i, poll))
  {
    var (st1, end) := AfterPoll(planId, ps, st, i, poll);
    ConcludePays(planId, ps, st1, i, end, before);
  }

  lemma LaunchPays(g: Limits, planId: PlanId, ps: PlanStep, st: RunState, i: nat, ev: Events)
    requires i < |st.job.steps| && st.committed >= 0 && st.job.steps[i].cost == 0 && Sane(ev.poll)
    ensures var q := AfterLaunch(g, planId, ps, st, i, ev.launch);
            && !q.NeedLaunch? && i < |q.state.job.steps|
            && var end := if q.Finished? then Conclude(planId, ps, q.state, i, q.end)
                          else Waited(planId, ps, q.state, i, ev.poll);
               Paid(st.committed, end, i) && Solvent(end)
  {
    var q := AfterLaunch(g, planId, ps, st, i, ev.launch);
    if ev.launch.Err? {
      ConcludePays(planId, ps, q.state, i, q.end, st.committed);
    } else {
      var reply := ev.launch.value;
      var recorded := Recorded(planId, ps, st, i, reply);
      assert Paid(st.committed, recorded, i) && recorded.job.steps[i].cost == ChargedBy(ps, reply);
      if Check(g, st.committed, ChargedBy(ps, reply)).Some? {
        ConcludePays(planId, ps, recorded, i, BudgetStop, st.committed);
      } else if q.NeedPoll? {
        WaitPays(planId, ps, recorded, i, ev.poll, st.committed);
      } else if reply.Terminal() {
        SettlingWait(planId, ps, recorded, i, reply.payload);
        WaitPays(planId, ps, recorded, i, Answered(reply.payload), st.committed);
      } else {
        var failed := MarkFailed(ps, recorded, i, NoGenerationId);
        assert Paid(st.committed, failed, i);
        ConcludePays(planId, ps, failed, i, Done, st.committed);
      }
    }
  }

  /** A turn on an untouched step commits what the step ends up costing. */
  lemma TurnPays(g: Limits, planId: PlanId, ps: PlanStep, st: RunState, i: nat, ev: Events)
    requires i < |st.job.steps| && FindStep(st.job.steps, ps.stepId) == Some(i)
    requires Untouched(st.job.steps[i]) && (planId, ps.stepId) !in st.rows && !KeyInUse(st.rows, ps.key)
    requires Solvent(st) && !st.refused && Sane(ev.poll)
    ensures var r := OneStep(g, planId, ps, st, ev); Paid(st.committed, r, i) && Solvent(r)
  {
    if !st.aborted {
      FreshClaim(planId, ps, st);
      var p := Begin(g, planId, ps, st, i);
      if p.Finished? {
        ConcludePays(planId, ps, p.state, i, p.end, st.committed);
      } else {
        LaunchPays(g, planId, ps, p.state, i, ev);
      }
    }
  }

  lemma TurnPaysAt(g: Limits, planId: PlanId, steps: seq<PlanStep>, evs: seq<Events>, tr: seq<RunState>, n: nat)
    requires IsShaped(g, planId, steps, evs, tr) && n < |steps| && Solvent(tr[n]) && AllSane(evs)
    ensures Paid(tr[n].committed, tr[n + 1], n) && Solvent(tr[n + 1])
  {
    assert RunShape(planId, steps, tr[n], n) && IsTurn(g, planId, steps[n], tr[n], evs[n], tr[n + 1]);
    FoundAt(steps, tr[n].job, n);
    assert NotReached(planId, steps, tr[n], n);
    TurnPays(g, planId, steps[n], tr[n], n, evs[n]);
  }

  lemma {:induction false} RunIsSolvent(g: Limits, planId: PlanId, steps: seq<PlanStep>, evs: seq<Events>,
                                        tr: seq<RunState>, n: nat)
    requires IsShaped(g, planId, steps, evs, tr) && n <= |steps| && Solvent(tr[0]) && AllSane(evs)
    ensures Solvent(tr[n])
  {
    if n > 0 {
      RunIsSolvent(g, planId, steps, evs, tr, n - 1);
      TurnPaysAt(g, planId, steps, evs, tr, n - 1);
    }
  }

  /** While the guard decides alike, the shadow is off by exactly what the verdict changed. */
  lemma {:induction false} ShadowIsShifted(d: Diff, r: TwoRuns, n: nat)
    requires r.SideBySide(d) && r.k < n <= |r.steps| && GuardAgrees(r, n)
    requires SaneSides(r)
    ensures Shadow(r, n) == r.tb[n].committed + d.stepA.cost - d.stepB.cost
  {
    var m := n - 1;
    RunIsSolvent(r.g, r.planId, r.steps, r.late, r.tb, m);
    TurnPaysAt(r.g, r.planId, r.steps, r.late, r.tb, m);
    if n > r.k + 1 {
      ShadowIsShifted(d, r, m);
      RunIsSolvent(r.g, r.planId, r.steps, r.timely, r.ta, m);
      TurnPaysAt(r.g, r.planId, r.steps, r.timely, r.ta, m);
      ApartRun(d, r, m);
      ApartRun(d, r, n);
    }
  }

  /** What the verdict on step `k` adds to the commitment: negative for a refund. */
  function Shift(r: TwoRuns): Amount
    requires r.Sized()
  {
    if r.k >= |r.End().job.steps| then 0
    else Settled(r.End().job.steps[r.k], r.v).cost - r.End().job.steps[r.k].cost
  }

  /** The guard decides each step after `k` of the late run the same with and without the
      difference the verdict makes. */
  ghost predicate GuardShrugs(r: TwoRuns, n: nat)
    requires r.Sized() && n <= |r.steps|
  {
    forall j :: r.k < j < n ==> ShrugsAt(r, j)
  }

  predicate ShrugsAt(r: TwoRuns, j: nat)
    requires r.Sized() && j < |r.steps|
  {
    DecidesAlike(r.g, r.steps[j], r.tb[j], r.tb[j].committed + Shift(r), r.late[j].launch)
  }

  /** Both say the same about one step, as long as the shadow is off by the shift. */
  lemma ShrugsIsAgreesAt(d: Diff, r: TwoRuns, m: nat)
    requires r.SideBySide(d) && r.k < m < |r.steps| && GuardAgrees(r, m)
    requires SaneSides(r)
    requires Shift(r) == d.stepA.cost - d.stepB.cost
    ensures ShrugsAt(r, m) <==> DecidesAlike(r.g, r.steps[m], r.tb[m], Shadow(r, m), r.late[m].launch)
  {
    ShadowIsShifted(d, r, m);
  }

  lemma AgreesMeansShrugs(d: Diff, r: TwoRuns, n: nat)
    requires r.SideBySide(d) && r.k < n <= |r.steps| && GuardAgrees(r, n)
    requires SaneSides(r)
    requires Shift(r) == d.stepA.cost - d.stepB.cost
    ensures GuardShrugs(r, n)
  {
    forall j | r.k < j < n ensures ShrugsAt(r, j) {
      assert DecidesAlike(r.g, r.steps[j], r.tb[j], Shadow(r, j), r.late[j].launch);
      ShrugsIsAgreesAt(d, r, j);
    }
  }

  lemma ShrugsExactly(d: Diff, r: TwoRuns)
    requires r.SideBySide(d) && SaneSides(r)
    ensures GuardShrugs(r, |r.steps|) <==> GuardAgrees(r, |r.steps|)
  {
    LateRunLeavesBehind(d, r);
    assert Shift(r) == d.stepA.cost - d.stepB.cost;
    if GuardAgrees(r, |r.steps|) {
      AgreesMeansShrugs(d, r, |r.steps|);
    } else {
      var i := FirstDisagreement(r, |r.steps|);
      ShrugsIsAgreesAt(d, r, i);
    }
  }

  /** On a platform that names no negative costs the condition is a matter of one sum: what
      the verdict gives back, or takes on top, would not have changed any later decision
      of the guard. */
  lemma LateEqualsTimelyByShift<S>(r: TwoRuns, jobs: map<JobId, Job>, touched: map<StepRef, nat>, wire: Wire<S>, s: S,
                                   now: nat)
    requires r.Valid() && Answers(wire, s, r.End(), r.k, r.v) && AllSane(r.late) && Sane(Answered(r.v))
    ensures LandsAs(r.planId, r.TimelyEnd(), AfterSweep(wire, s, Tables(jobs, r.End(), touched), r.At(), now)) <==>
            r.End().job.steps[r.k].generationId.Some? && GuardShrugs(r, |r.steps|)
  {
    LateEqualsTimelyExactly(r, jobs, touched, wire, s, now);
    var d := PutSideBySide(r);
    SidesAreSane(r);
    ShrugsExactly(d, r);
  }

  // ---------------------------------------------------------------------------
  // The job's status
  // ---------------------------------------------------------------------------

  predicate AnySucceeded(steps: seq<JobStep>) {
    exists i :: 0 <= i < |steps| && steps[i].status.Succeeded?
  }

  predicate AllSettled(steps: seq<JobStep>) {
    forall i :: 0 <= i < |steps| ==> !Outstanding(steps[i])
  }

  lemma OneMoreSuccess(a: seq<JobStep>, b: seq<JobStep>, k: nat)
    requires k < |a| && k < |b| && a == b[k := a[k]] && b[k].status.Failed?
    ensures AnySucceeded(a) <==> AnySucceeded(b) || a[k].status.Succeeded?
    ensures AllSettled(a) ==> AllSettled(b)
  {
    forall i | 0 <= i < |b| && b[i].status.Succeeded? ensures AnySucceeded(a) {
      assert a[i] == b[i];
    }
    forall i | 0 <= i < |b| && AllSettled(a) ensures !Outstanding(b[i]) {
      assert i != k ==> a[i] == b[i];
    }
  }

  /** Judging settled steps without the abort makes a difference exactly where there is
      no success to call the job partial for. */
  lemma AbortOnlyMattersAlone(steps: seq<JobStep>, aborted: bool)
    requires AllSettled(steps) && (aborted ==> exists i :: 0 <= i < |steps| && !steps[i].status.Succeeded?)
    ensures TerminalStatus(steps) == Some(Aggregate(steps, aborted)) <==> !(aborted && !AnySucceeded(steps))
    ensures Aggregate(steps, aborted).Aborted? <==> aborted && !AnySucceeded(steps)
  {
    AggregateMeans(steps, aborted);
    AggregateMeans(steps, false);
  }

  lemma StatusAfterRewrite(d: Diff, v: Payload, a: RunState, b: RunState)
    requires Apart(d, a, b) && d.stepA == Settled(d.stepB, v) && d.stepB.status.Failed? && !v.phase.Working?
    requires AllSettled(a.job.steps)
    requires a.aborted ==> exists i :: 0 <= i < |a.job.steps| && !a.job.steps[i].status.Succeeded?
    ensures Reconciled(FinalJob(b), d.k, v).status == FinalJob(a).status <==>
            !(FinalJob(b).status.Aborted? && !v.phase.Success?)
  {
    var sa, sb := a.job.steps, b.job.steps;
    assert Reconciled(FinalJob(b), d.k, v).steps == sa && sa == sb[d.k := sa[d.k]];
    OneMoreSuccess(sa, sb, d.k);
    AbortOnlyMattersAlone(sa, a.aborted);
    if b.aborted {
      assert !sb[d.k].status.Succeeded?;
    }
    AbortOnlyMattersAlone(sb, b.aborted);
  }

  /** The sweep judges a job as if it had never been aborted. So where late equals timely,
      the job's status does too, except that a late run which ended aborted ends failed
      if the verdict is a failure; in time it would have ended aborted. */
  lemma StatusesAgree<S>(r: TwoRuns, jobs: map<JobId, Job>, touched: map<StepRef, nat>, wire: Wire<S>, s: S, now: nat)
    requires r.Valid() && Answers(wire, s, r.End(), r.k, r.v)
    requires r.End().job.steps[r.k].generationId.Some? && GuardAgrees(r, |r.steps|)
    ensures var swept := AfterSweep(wire, s, Tables(jobs, r.End(), touched), r.At(), now);
            var jobId := r.End().job.jobId;
            && jobId in swept.jobs
            && (swept.jobs[jobId].status == FinalJob(r.TimelyEnd()).status <==>
                !(FinalJob(r.End()).status.Aborted? && !r.v.phase.Success?))
  {
    var d := PutSideBySide(r);
    ApartRun(d, r, |r.steps|);
    LateRunLeavesBehind(d, r);
    SweepOfLeftBehind(r.planId, r.steps, r.k, r.End(), jobs, touched, wire, s, r.v, now);
    assert RunShape(r.planId, r.steps, r.TimelyEnd(), |r.steps|);
    StatusAfterRewrite(d, r.v, r.TimelyEnd(), r.End());
  }
}
