/** The books after a sweep: what a late verdict makes of the account, the document and the
    ledger still is one figure. */
module SweptBooks {
  import opened Money
  import opened Domain
  import opened Budget
  import opened Settlement
  import opened Ledger
  import opened WireModel
  import opened Execution
  import opened Spending
  import opened Shapes
  import opened Books
  import L = Late
  import R = Reconciler
  import P = Platform

  // ---------------------------------------------------------------------------
  // What a run leaves open
  // ---------------------------------------------------------------------------

  /** The platform holds an unrefunded record of this step, at the step's cost. */
  ghost predicate Owed(p: P.State, s: JobStep) {
    var r := RecordOf(p, R.HandleOf(s));
    r.Some? && !r.value.refunded && P.Rubles(r.value.cost) == s.cost
  }

  predicate Open(rows: Rows, at: StepRef) {
    at in rows && rows[at].status.Running?
  }

  ghost predicate RecordsStay(p: P.State, q: P.State) {
    forall h: Handle :: RecordOf(p, h).Some? ==> RecordOf(q, h) == RecordOf(p, h)
  }

  /** Asking about `h` touches no other record, and nothing at all until there is a verdict. */
  lemma {:induction false} PollKeepsRecords(c: P.Config, p: P.State, h: Handle, pace: Pace, waited: nat, other: Handle)
    requires pace.interval > 0
    ensures var (q, ev) := Poll(MockWire(c), p, h, pace, waited);
            RecordOf(p, other).Some? && (other != h || ev.TimedOut?) ==> RecordOf(q, other) == RecordOf(p, other)
    decreases pace.timeout - waited
  {
    var (next, reply) := MockStatus(c, p, h);
    if reply.Ok? && reply.value.phase.Working? && waited < pace.timeout {
      PollKeepsRecords(c, next, h, pace, waited + pace.interval, other);
    }
  }

  /** A launch under a new key writes one new record. */
  lemma LaunchKeepsRecords(c: P.Config, p: P.State, b: Body, other: Handle)
    requires P.Numbered(p) && b.key !in p.replies
    ensures var (q, launch) := P.Generate(c, p, b);
            && (RecordOf(p, other).Some? ==> RecordOf(q, other) == RecordOf(p, other))
            && (launch.Ok? ==> RecordOf(p, HandleOf(launch.value)).None?)
  {
  }

  /** Where a turn left its step open: the step, its row and the platform's record agree, and
      the record is of this turn's making. */
  ghost predicate LeftOpen(planId: PlanId, ps: PlanStep, p: P.State, q: P.State, st: RunState, i: nat) {
    var at := (planId, ps.stepId);
    && i < |st.job.steps|
    && (Open(st.rows, at) ==>
          && st.rows[at].generationId == st.job.steps[i].generationId
          && Owed(q, st.job.steps[i]) && RecordOf(p, R.HandleOf(st.job.steps[i])).None?)
  }

  lemma ConcludeLeaves(planId: PlanId, ps: PlanStep, p: P.State, q: P.State, st: RunState, i: nat, end: StepEnd)
    requires LeftOpen(planId, ps, p, q, st, i)
    ensures LeftOpen(planId, ps, p, q, Conclude(planId, ps, st, i, end), i)
  {
  }

  lemma VerdictCloses(planId: PlanId, ps: PlanStep, st: RunState, i: nat, poll: PollEvent)
    requires i < |st.job.steps| && !poll.TimedOut?
    ensures var r := Waited(planId, ps, st, i, poll);
            !Open(r.rows, (planId, ps.stepId)) && |r.job.steps| == |st.job.steps|
  {
  }

  lemma WaitLeaves(c: P.Config, pace: Pace, planId: PlanId, ps: PlanStep, p: P.State, q: P.State, st: RunState, i: nat)
    requires pace.interval > 0 && LeftOpen(planId, ps, p, q, st, i) && Open(st.rows, (planId, ps.stepId))
    ensures var (q', poll) := Poll(MockWire(c), q, R.HandleOf(st.job.steps[i]), pace, 0);
            LeftOpen(planId, ps, p, q', Waited(planId, ps, st, i, poll), i)
  {
    var h := R.HandleOf(st.job.steps[i]);
    var (q', poll) := Poll(MockWire(c), q, h, pace, 0);
    if poll.TimedOut? {
      PollKeepsRecords(c, q, h, pace, 0, h);
      ConcludeLeaves(planId, ps, p, q', MarkFailed(ps, st, i, PollTimeout), i, Done);
    } else {
      VerdictCloses(planId, ps, st, i, poll);
    }
  }

  lemma RecordedLeaves(c: P.Config, planId: PlanId, ps: PlanStep, p: P.State, st: RunState, i: nat, reply: LaunchReply)
    requires P.Numbered(p) && ps.key !in p.replies && i < |st.job.steps| && (planId, ps.stepId) in st.rows
    requires st.rows[(planId, ps.stepId)].generationId.None? && P.Generate(c, p, ps.GenerateBody()).1 == Ok(reply)
    ensures var q, r := P.Generate(c, p, ps.GenerateBody()).0, Recorded(planId, ps, st, i, reply);
            && LeftOpen(planId, ps, p, q, r, i) && Open(r.rows, (planId, ps.stepId))
            && R.HandleOf(r.job.steps[i]) == HandleOf(reply) && reply.Id().Some?
  {
    LaunchIsHonest(c, p, ps.GenerateBody());
    LaunchKeepsRecords(c, p, ps.GenerateBody(), HandleOf(reply));
  }

  /** One turn on an untouched step: what it leaves open is owed, and no earlier record moved. */
  lemma TurnLeaves(c: P.Config, p: P.State, pace: Pace, g: Limits, planId: PlanId, ps: PlanStep, st: RunState, i: nat)
    requires pace.interval > 0 && P.Numbered(p) && ps.key !in p.replies
    requires i < |st.job.steps| && FindStep(st.job.steps, ps.stepId) == Some(i)
    requires Untouched(st.job.steps[i]) && (planId, ps.stepId) !in st.rows && !KeyInUse(st.rows, ps.key)
    requires !st.refused
    ensures var d := DriveStep(MockWire(c), p, pace, g, planId, ps, st);
            LeftOpen(planId, ps, p, d.0, d.1, i) && RecordsStay(p, d.0)
  {
    if !st.aborted {
      FreshClaim(planId, ps, st);
      match Begin(g, planId, ps, st, i) {
        case Finished(st1, end) => ConcludeLeaves(planId, ps, p, p, st1, i, end);
        case NeedPoll(_, _) =>
        case NeedLaunch(st1) =>
          DriveFinishes(c, p, pace, g, planId, ps, st, i);
          LaunchLeaves(c, p, pace, g, planId, ps, st1, i);
      }
    }
  }

  lemma LaunchLeaves(c: P.Config, p: P.State, pace: Pace, g: Limits, planId: PlanId, ps: PlanStep, st: RunState, i: nat)
    requires pace.interval > 0 && P.Numbered(p) && ps.key !in p.replies && i < |st.job.steps|
    requires (planId, ps.stepId) in st.rows && st.rows[(planId, ps.stepId)].status.Pending?
    requires st.rows[(planId, ps.stepId)].generationId.None?
    ensures var (q, r, _) := Finishes(c, p, pace, g, planId, ps, st, i);
            LeftOpen(planId, ps, p, q, r, i) && RecordsStay(p, q)
  {
    var (q, launch) := P.Generate(c, p, ps.GenerateBody());
    forall h: Handle | RecordOf(p, h).Some? ensures RecordOf(q, h) == RecordOf(p, h) {
      LaunchKeepsRecords(c, p, ps.GenerateBody(), h);
    }
    if launch.Err? {
      ConcludeLeaves(planId, ps, p, q, Logged(st, ps, i, 0), i, Fault(launch.error));
    } else {
      var reply := launch.value;
      var recorded := Recorded(planId, ps, st, i, reply);
      RecordedLeaves(c, planId, ps, p, st, i, reply);
      if Check(g, st.committed, ChargedBy(ps, reply)).Some? {
        ConcludeLeaves(planId, ps, p, q, recorded, i, BudgetStop);
      } else {
        WaitLeaves(c, pace, planId, ps, p, q, recorded, i);
        var q2 := Poll(MockWire(c), q, HandleOf(reply), pace, 0).0;
        forall h: Handle | RecordOf(p, h).Some? ensures RecordOf(q2, h) == RecordOf(p, h) {
          PollKeepsRecords(c, q, HandleOf(reply), pace, 0, h);
        }
      }
    }
  }

  // ---------------------------------------------------------------------------
  // Over a whole run
  // ---------------------------------------------------------------------------

  /** Step `i` is owed if its row is open. */
  ghost predicate OwedIfOpen(planId: PlanId, rows: Rows, p: P.State, s: JobStep) {
    Open(rows, (planId, s.stepId)) ==> rows[(planId, s.stepId)].generationId == s.generationId && Owed(p, s)
  }

  ghost predicate AllOwed(planId: PlanId, steps: seq<JobStep>, rows: Rows, p: P.State, n: nat)
    requires n <= |steps|
  {
    && (forall i :: 0 <= i < n ==> OwedIfOpen(planId, rows, p, steps[i]))
    && (forall i, j ::
          0 <= i < j < n && Open(rows, (planId, steps[i].stepId)) && Open(rows, (planId, steps[j].stepId)) ==>
            R.HandleOf(steps[i]) != R.HandleOf(steps[j]))
  }

  /** A turn adds its own step to what is owed and leaves the rest alone. */
  lemma OneMoreOwed(planId: PlanId, steps: seq<PlanStep>, p: P.State, q: P.State, st: RunState, st': RunState, n: nat)
    requires RunShape(planId, steps, st, n) && n < |steps|
    requires AllOwed(planId, st.job.steps, st.rows, p, n) && RecordsStay(p, q)
    requires Shape(planId, steps[n], st, st', n) && LeftOpen(planId, steps[n], p, q, st', n)
    ensures AllOwed(planId, st'.job.steps, st'.rows, q, n + 1)
  {
    var a, b := st.job.steps, st'.job.steps;
    var at := (planId, steps[n].stepId);
    forall i | 0 <= i < n
      ensures b[i] == a[i] && OwedIfOpen(planId, st'.rows, q, b[i])
      ensures Open(st'.rows, (planId, b[i].stepId)) ==>
                Open(st.rows, (planId, a[i].stepId)) && RecordOf(p, R.HandleOf(a[i])).Some?
    {
      assert steps[i].stepId != steps[n].stepId;
      assert OwedIfOpen(planId, st.rows, p, a[i]);
    }
    assert b[n].stepId == steps[n].stepId;
  }

  /** The run leaves its open rows owed, on top of all that `Honest` says. */
  ghost predicate HonestAndOwed(g: Limits, planId: PlanId, steps: seq<PlanStep>, s: P.State, t: P.State, st: RunState,
                                n: nat) {
    && Honest(g, planId, steps, s, t, st, n) && RunShape(planId, steps, st, n)
    && AllOwed(planId, st.job.steps, st.rows, t, n)
  }

  lemma HonestAndOwedTurn(c: P.Config, pace: Pace, g: Limits, planId: PlanId, steps: seq<PlanStep>, s: P.State,
                          t: P.State, st: RunState, n: nat)
    requires pace.interval > 0 && 0 <= g.spendable <= g.budget && n < |steps|
    requires HonestAndOwed(g, planId, steps, s, t, st, n)
    ensures var d := DriveStep(MockWire(c), t, pace, g, planId, steps[n], st);
            HonestAndOwed(g, planId, steps, s, d.0, d.1, n + 1)
  {
    var d := DriveStep(MockWire(c), t, pace, g, planId, steps[n], st);
    HonestStep(c, pace, g, planId, steps, s, t, st, n);
    DriveStepIsOneStep(MockWire(c), t, pace, g, planId, steps[n], st);
    FoundAt(steps, st.job, n);
    assert NotReached(planId, steps, st, n);
    StepShape(g, planId, steps[n], st, n, d.2);
    ShapeStep(g, planId, steps, st, n, d.2);
    TurnLeaves(c, t, pace, g, planId, steps[n], st, n);
    OneMoreOwed(planId, steps, t, d.0, st, d.1, n);
  }

  lemma {:induction false} RunIsHonestAndOwed(c: P.Config, pace: Pace, g: Limits, planId: PlanId, steps: seq<PlanStep>,
                                              tr: seq<(P.State, RunState)>, n: nat)
    requires pace.interval > 0 && 0 <= g.spendable <= g.budget && n < |tr|
    requires IsHistory(MockWire(c), pace, g, planId, steps, tr)
    requires HonestAndOwed(g, planId, steps, tr[0].0, tr[0].0, tr[0].1, 0)
    ensures HonestAndOwed(g, planId, steps, tr[0].0, tr[n].0, tr[n].1, n)
  {
    if n > 0 {
      var m := n - 1;
      RunIsHonestAndOwed(c, pace, g, planId, steps, tr, m);
      assert IsDrivenTurn(MockWire(c), pace, g, planId, steps[m], tr[m].0, tr[m].1, tr[m + 1].0, tr[m + 1].1);
      HonestAndOwedTurn(c, pace, g, planId, steps, tr[0].0, tr[m].0, tr[m].1, m);
    }
  }

  // ---------------------------------------------------------------------------
  // One record of the sweep
  // ---------------------------------------------------------------------------

  ghost predicate DistinctIds(steps: seq<JobStep>) {
    forall i, j :: 0 <= i < j < |steps| ==> steps[i].stepId != steps[j].stepId
  }

  /** Document, ledger and platform agree on a job: step by step the document and the ledger
      name one cost, and what is open is owed. */
  ghost predicate InStep(job: Job, rows: Rows, p: P.State) {
    && DistinctIds(job.steps)
    && (forall i :: 0 <= i < |job.steps| ==> RowCost(rows, (job.planId, job.steps[i].stepId)) == job.steps[i].cost)
    && AllOwed(job.planId, job.steps, rows, p, |job.steps|)
  }

  /** What the simulated platform answers about a record it owes: nothing moves, or money
      comes back and the cost is zero; the other records stay. */
  lemma StatusIsHonest(c: P.Config, p: P.State, s: JobStep)
    requires Owed(p, s)
    ensures var (q, reply) := MockStatus(c, p, R.HandleOf(s));
            && reply.Ok?
            && (forall h: Handle | h != R.HandleOf(s) :: RecordOf(q, h) == RecordOf(p, h))
            && match R.FinalStatus(reply, s)
               case None => q.balance == p.balance && Owed(q, s)
               case Some(v) => P.Rubles(p.balance - q.balance) == Settled(s, v).cost - s.cost
  {
  }

  /** A status read moved at most the record it asked about. */
  lemma StaysInStep(job: Job, rows: Rows, p: P.State, q: P.State, i: nat)
    requires InStep(job, rows, p) && i < |job.steps| && Open(rows, (job.planId, job.steps[i].stepId))
    requires forall h: Handle | h != R.HandleOf(job.steps[i]) :: RecordOf(q, h) == RecordOf(p, h)
    requires Owed(q, job.steps[i])
    ensures InStep(job, rows, q)
  {
    forall j | 0 <= j < |job.steps| ensures OwedIfOpen(job.planId, rows, q, job.steps[j]) {
      assert OwedIfOpen(job.planId, rows, p, job.steps[j]);
    }
  }

  /** Settling step `i` in document and ledger keeps both in step. */
  lemma SettlesInStep(job: Job, rows: Rows, p: P.State, q: P.State, i: nat, v: Payload)
    requires InStep(job, rows, p) && AddsUp(job) && i < |job.steps| && Open(rows, (job.planId, job.steps[i].stepId))
    requires forall h: Handle | h != R.HandleOf(job.steps[i]) :: RecordOf(q, h) == RecordOf(p, h)
    ensures var after := Reconciled(job, i, v);
            var s := after.steps[i];
            && InStep(after, UpdateStep(rows, (job.planId, s.stepId), s.status, s.generationId, Some(s.cost)), q)
            && after.cost - job.cost == s.cost - job.steps[i].cost
  {
    var after := Reconciled(job, i, v);
    var s := after.steps[i];
    var rows' := UpdateStep(rows, (job.planId, s.stepId), s.status, s.generationId, Some(s.cost));
    forall j | 0 <= j < |job.steps|
      ensures OwedIfOpen(job.planId, rows', q, after.steps[j])
      ensures RowCost(rows', (job.planId, after.steps[j].stepId)) == after.steps[j].cost
      ensures Open(rows', (job.planId, after.steps[j].stepId)) ==>
                j != i && after.steps[j] == job.steps[j] && Open(rows, (job.planId, job.steps[j].stepId))
    {
      SettlesOne(job, rows, p, q, i, v, j);
    }
    TotalOfUpdate(job.steps, i, s);
  }

  lemma SettlesOne(job: Job, rows: Rows, p: P.State, q: P.State, i: nat, v: Payload, j: nat)
    requires InStep(job, rows, p) && i < |job.steps| && j < |job.steps|
    requires Open(rows, (job.planId, job.steps[i].stepId))
    requires forall h: Handle | h != R.HandleOf(job.steps[i]) :: RecordOf(q, h) == RecordOf(p, h)
    ensures var after := Reconciled(job, i, v);
            var s := after.steps[i];
            var rows' := UpdateStep(rows, (job.planId, s.stepId), s.status, s.generationId, Some(s.cost));
            && OwedIfOpen(job.planId, rows', q, after.steps[j])
            && RowCost(rows', (job.planId, after.steps[j].stepId)) == after.steps[j].cost
            && (Open(rows', (job.planId, after.steps[j].stepId)) ==>
                  j != i && after.steps[j] == job.steps[j] && Open(rows, (job.planId, job.steps[j].stepId)))
  {
    assert OwedIfOpen(job.planId, rows, p, job.steps[j]);
    if j != i {
      assert job.steps[j].stepId != job.steps[i].stepId;
    }
  }

  /** Reconciling one open row moves account and document by one amount. */
  lemma RecordKeepsBooks(c: P.Config, sw: R.Swept<P.State>, at: StepRef, now: nat)
    requires R.Linked(sw.store) && Open(sw.store.rows, at) && sw.store.rows[at].generationId.Some?
    requires sw.store.rows[at].jobId in sw.store.jobs
    requires InStep(sw.store.jobs[sw.store.rows[at].jobId], sw.store.rows, sw.state)
    ensures var next, jobId := R.Reconcile(MockWire(c), sw, at, now), sw.store.rows[at].jobId;
            && jobId in next.store.jobs && InStep(next.store.jobs[jobId], next.store.rows, next.state)
            && P.Rubles(sw.state.balance - next.state.balance) ==
               next.store.jobs[jobId].cost - sw.store.jobs[jobId].cost
  {
    var job := sw.store.jobs[sw.store.rows[at].jobId];
    var found := FindStep(job.steps, at.1);
    if found.Some? {
      var i := found.value;
      var s := job.steps[i];
      assert OwedIfOpen(job.planId, sw.store.rows, sw.state, s);
      assert R.StepAt(sw.store, at) == Some(i);
      StatusIsHonest(c, sw.state, s);
      var (q, reply) := MockStatus(c, sw.state, R.HandleOf(s));
      match R.FinalStatus(reply, s) {
        case None => StaysInStep(job, sw.store.rows, sw.state, q, i);
        case Some(v) => SettlesInStep(job, sw.store.rows, sw.state, q, i, v);
      }
    }
  }

  // ---------------------------------------------------------------------------
  // A whole sweep
  // ---------------------------------------------------------------------------

  /** Rows still belong to their jobs, and what the account lost since `s` is what the
      document now costs more than in `st`. */
  ghost predicate BooksAt(s: P.State, st: R.Store, jobId: JobId, sw: R.Swept<P.State>)
    requires jobId in st.jobs
  {
    && (forall r :: r in st.rows ==> r in sw.store.rows && sw.store.rows[r].jobId == st.rows[r].jobId)
    && jobId in sw.store.jobs && InStep(sw.store.jobs[jobId], sw.store.rows, sw.state)
    && P.Rubles(s.balance - sw.state.balance) == sw.store.jobs[jobId].cost - st.jobs[jobId].cost
  }

  lemma RowsKeepTheirJobs(c: P.Config, sw: R.Swept<P.State>, at: StepRef, now: nat, r: StepRef)
    requires r in sw.store.rows
    ensures var next := R.Reconcile(MockWire(c), sw, at, now);
            r in next.store.rows && next.store.rows[r].jobId == sw.store.rows[r].jobId
  {
  }

  lemma BooksTurn(c: P.Config, s: P.State, st: R.Store, jobId: JobId, sw: R.Swept<P.State>, at: StepRef, now: nat)
    requires jobId in st.jobs && BooksAt(s, st, jobId, sw) && R.Linked(sw.store)
    requires at in st.rows && st.rows[at].jobId == jobId
    requires Open(sw.store.rows, at) && sw.store.rows[at].generationId.Some?
    ensures BooksAt(s, st, jobId, R.Reconcile(MockWire(c), sw, at, now))
  {
    forall r | r in sw.store.rows
      ensures var next := R.Reconcile(MockWire(c), sw, at, now);
              r in next.store.rows && next.store.rows[r].jobId == sw.store.rows[r].jobId
    {
      RowsKeepTheirJobs(c, sw, at, now, r);
    }
    RecordKeepsBooks(c, sw, at, now);
  }

  ghost predicate BooksSoFar(c: P.Config, s: P.State, st: R.Store, jobId: JobId, records: seq<StepRef>, now: nat,
                             n: nat)
    requires n <= |records| && jobId in st.jobs
  {
    BooksAt(s, st, jobId, R.SweepUpTo(MockWire(c), R.Swept(s, st, 0), records, now, n))
  }

  lemma BooksOneMore(c: P.Config, s: P.State, st: R.Store, before: nat, jobId: JobId, records: seq<StepRef>, now: nat,
                     n: nat)
    requires R.Linked(st) && R.Lists(records, R.StaleSet(st, before)) && n < |records| && jobId in st.jobs
    requires forall r :: r in R.StaleSet(st, before) ==> st.rows[r].jobId == jobId
    requires BooksSoFar(c, s, st, jobId, records, now, n)
    ensures BooksSoFar(c, s, st, jobId, records, now, n + 1)
  {
    R.SweepKeepsLinks(MockWire(c), s, st, before, records, now, n);
    R.NextIsStale(MockWire(c), s, st, before, records, now, n);
    BooksTurn(c, s, st, jobId, R.SweepUpTo(MockWire(c), R.Swept(s, st, 0), records, now, n), records[n], now);
  }

  lemma BooksAtFirst(c: P.Config, s: P.State, st: R.Store, jobId: JobId, records: seq<StepRef>, now: nat)
    requires jobId in st.jobs && InStep(st.jobs[jobId], st.rows, s)
    ensures BooksSoFar(c, s, st, jobId, records, now, 0)
  {
  }

  lemma {:induction false} SweepKeepsBooks(c: P.Config, s: P.State, st: R.Store, before: nat, jobId: JobId,
                                           records: seq<StepRef>, now: nat, n: nat)
    requires R.Linked(st) && R.Lists(records, R.StaleSet(st, before)) && n <= |records| && jobId in st.jobs
    requires forall r :: r in R.StaleSet(st, before) ==> st.rows[r].jobId == jobId
    requires InStep(st.jobs[jobId], st.rows, s)
    ensures BooksSoFar(c, s, st, jobId, records, now, n)
  {
    if n == 0 {
      BooksAtFirst(c, s, st, jobId, records, now);
    } else {
      SweepKeepsBooks(c, s, st, before, jobId, records, now, n - 1);
      BooksOneMore(c, s, st, before, jobId, records, now, n - 1);
    }
  }

  /** What the ledger holds for a document's steps. */
  function LedgerSum(job: Job, rows: Rows): Amount {
    Sum(seq(|job.steps|, i requires 0 <= i < |job.steps| => RowCost(rows, (job.planId, job.steps[i].stepId))))
  }

  lemma InStepSums(job: Job, rows: Rows, p: P.State)
    requires InStep(job, rows, p)
    ensures LedgerSum(job, rows) == TotalCost(job.steps)
  {
    assert seq(|job.steps|, i requires 0 <= i < |job.steps| => RowCost(rows, (job.planId, job.steps[i].stepId)))
           == Costs(job.steps);
  }

  lemma RunEndsInStep(g: Limits, planId: PlanId, steps: seq<PlanStep>, s: P.State, t: P.State, st: RunState)
    requires HonestAndOwed(g, planId, steps, s, t, st, |steps|) && st.job.planId == planId
    ensures InStep(FinalJob(st), st.rows, t) && P.Rubles(s.balance - t.balance) == FinalJob(st).cost
  {
    FinishedRunAddsUp(g, planId, steps, st);
    forall i | 0 <= i < |steps|
      ensures RowCost(st.rows, (planId, st.job.steps[i].stepId)) == st.job.steps[i].cost
    {
      assert Accounted(planId, steps, st, i);
    }
  }

  lemma RunLeavesInStep(c: P.Config, pace: Pace, g: Limits, planId: PlanId, steps: seq<PlanStep>,
                        tr: seq<(P.State, RunState)>)
    requires pace.interval > 0 && 0 <= g.spendable <= g.budget
    requires IsHistory(MockWire(c), pace, g, planId, steps, tr) && |tr| == |steps| + 1
    requires P.Numbered(tr[0].0) && forall i :: 0 <= i < |steps| ==> steps[i].key !in tr[0].0.replies
    requires Fresh(planId, steps, tr[0].1) && tr[0].1.job.planId == planId
    ensures var (t, end) := tr[|steps|];
            && SameIds(end, tr[0].1) && InStep(FinalJob(end), end.rows, t)
            && P.Rubles(tr[0].0.balance - t.balance) == FinalJob(end).cost
  {
    var n := |steps|;
    HonestStart(g, planId, steps, tr[0].0, tr[0].1);
    FreshShape(planId, steps, tr[0].1);
    RunIsHonestAndOwed(c, pace, g, planId, steps, tr, n);
    HistoryIsRun(MockWire(c), pace, g, planId, steps, tr);
    IdsStay(g, planId, steps, EventsOf(MockWire(c), pace, g, planId, steps, tr), StatesOf(tr), n);
    RunEndsInStep(g, planId, steps, tr[0].0, tr[n].0, tr[n].1);
  }

  /** The job, the ledger and the account name one sum, `s` being where the account began. */
  ghost predicate OneFigure(s: P.State, jobId: JobId, sw: R.Swept<P.State>) {
    && jobId in sw.store.jobs
    && var job := sw.store.jobs[jobId];
    && P.Rubles(s.balance - sw.state.balance) == job.cost == TotalCost(job.steps) == LedgerSum(job, sw.store.rows)
  }

  lemma SweptToOneFigure(c: P.Config, s: P.State, t: P.State, st: R.Store, before: nat, jobId: JobId,
                         records: seq<StepRef>, now: nat)
    requires R.Linked(st) && R.Lists(records, R.StaleSet(st, before)) && jobId in st.jobs
    requires forall r :: r in R.StaleSet(st, before) ==> st.rows[r].jobId == jobId
    requires InStep(st.jobs[jobId], st.rows, t) && P.Rubles(s.balance - t.balance) == st.jobs[jobId].cost
    ensures OneFigure(s, jobId, R.SweepUpTo(MockWire(c), R.Swept(t, st, 0), records, now, |records|))
  {
    var swept := R.SweepUpTo(MockWire(c), R.Swept(t, st, 0), records, now, |records|);
    SweepKeepsBooks(c, t, st, before, jobId, records, now, |records|);
    R.SweepKeepsLinks(MockWire(c), t, st, before, records, now, |records|);
    InStepSums(swept.store.jobs[jobId], swept.store.rows, swept.state);
  }

  /** The books balance after the sweep, too. A fresh plan runs undisturbed against the
      simulated platform; whatever was given up on is swept later, in any order, with any
      verdicts: the drop of the balance since the start is what the document costs, and
      what the ledger holds for its steps. No other job has stale rows. */
  lemma BooksBalanceAfterSweep(c: P.Config, pace: Pace, g: Limits, planId: PlanId, steps: seq<PlanStep>,
                               tr: seq<(P.State, RunState)>, jobs: map<JobId, Job>, touched: map<StepRef, nat>,
                               before: nat, records: seq<StepRef>, now: nat)
    requires pace.interval > 0 && 0 <= g.spendable <= g.budget
    requires IsHistory(MockWire(c), pace, g, planId, steps, tr) && |tr| == |steps| + 1
    requires P.Numbered(tr[0].0) && forall i :: 0 <= i < |steps| ==> steps[i].key !in tr[0].0.replies
    requires Fresh(planId, steps, tr[0].1) && tr[0].1.job.planId == planId
    requires var st := L.Tables(jobs, tr[|steps|].1, touched);
             && R.Linked(st) && R.Lists(records, R.StaleSet(st, before))
             && forall r :: r in R.StaleSet(st, before) ==> st.rows[r].jobId == tr[0].1.job.jobId
    ensures var (t, end) := tr[|steps|];
            OneFigure(tr[0].0, tr[0].1.job.jobId,
                      R.SweepUpTo(MockWire(c), R.Swept(t, L.Tables(jobs, end, touched), 0), records, now, |records|))
  {
    var (t, end) := tr[|steps|];
    RunLeavesInStep(c, pace, g, planId, steps, tr);
    SweptToOneFigure(c, tr[0].0, t, L.Tables(jobs, end, touched), before, tr[0].1.job.jobId, records, now);
  }
}
