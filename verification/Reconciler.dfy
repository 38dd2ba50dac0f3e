/** The sweep that settles steps which were paid for but never reported back. */
module Reconciler {
  import opened Domain
  import opened Settlement
  import opened Ledger
  import opened Order
  import opened WireModel

  /** What the sweep reads and writes. */
  datatype Store = Store(jobs: map<JobId, Job>, rows: Rows, touched: map<StepRef, nat>)

  ghost predicate Linked(st: Store) {
    && (forall j :: j in st.jobs ==> st.jobs[j].jobId == j && AddsUp(st.jobs[j]))
    && (forall at :: at in st.rows && st.rows[at].jobId in st.jobs ==> st.jobs[st.rows[at].jobId].planId == at.0)
  }

  function StaleSet(st: Store, before: nat): set<StepRef> {
    set at | at in st.rows && IsStale(st.rows, st.touched, st.jobs, before, at)
  }

  /** The platform will never answer about this generation. */
  function NotFound(s: JobStep): Payload {
    Payload(Failure, Some(s.cost), false, None, None, None, None, Some("404"))
  }

  /** The platform's verdict on a step, if there is one to be had. */
  function FinalStatus(reply: Result<Payload, VibeError>, s: JobStep): Option<Payload> {
    match reply
    case Ok(v) => if v.phase.Working? then None else Some(v)
    case Err(e) => if e.Api? && e.status == 404 then Some(NotFound(s)) else None
  }

  /** Where in its job document a ledger row's step is, if it can be asked about. */
  function StepAt(st: Store, at: StepRef): (r: Option<nat>)
    ensures r.Some? ==>
              && at in st.rows && st.rows[at].jobId in st.jobs
              && r.value < |st.jobs[st.rows[at].jobId].steps|
              && st.jobs[st.rows[at].jobId].steps[r.value].stepId == at.1
  {
    if at !in st.rows || st.rows[at].jobId !in st.jobs then None
    else
      var steps := st.jobs[st.rows[at].jobId].steps;
      var i := FindStep(steps, at.1);
      if i.Some? && steps[i.value].generationId.Some? then i else None
  }

  function StepOf(st: Store, at: StepRef): JobStep
    requires StepAt(st, at).Some?
  {
    st.jobs[st.rows[at].jobId].steps[StepAt(st, at).value]
  }

  function HandleOf(s: JobStep): Handle {
    Handle(s.longVoiceover, s.generationId)
  }

  /** Document and ledger row rewritten with the verdict. */
  function Rewritten(st: Store, at: StepRef, v: Payload, now: nat): Store
    requires StepAt(st, at).Some?
  {
    var i := StepAt(st, at).value;
    var job := Reconciled(st.jobs[st.rows[at].jobId], i, v);
    var s := job.steps[i];
    var row := (job.planId, s.stepId);
    Store(st.jobs[job.jobId := job], UpdateStep(st.rows, row, s.status, s.generationId, Some(s.cost)),
          if row in st.rows then st.touched[row := now] else st.touched)
  }

  datatype Swept<S> = Swept(state: S, store: Store, settled: nat)

  function Reconcile<S>(wire: Wire<S>, sw: Swept<S>, at: StepRef, now: nat): Swept<S> {
    if StepAt(sw.store, at).None? then sw
    else
      var s := StepOf(sw.store, at);
      var (next, reply) := wire.status(sw.state, HandleOf(s));
      var v := FinalStatus(reply, s);
      if v.None? then sw.(state := next)
      else Swept(next, Rewritten(sw.store, at, v.value, now), sw.settled + 1)
  }

  function SweepUpTo<S>(wire: Wire<S>, sw: Swept<S>, records: seq<StepRef>, now: nat, n: nat): Swept<S>
    requires n <= |records|
  {
    if n == 0 then sw else Reconcile(wire, SweepUpTo(wire, sw, records, now, n - 1), records[n - 1], now)
  }

  // ---------------------------------------------------------------------------
  // One record
  // ---------------------------------------------------------------------------

  /** No ended job is reopened and no running job is touched. */
  ghost predicate EndedStaysEnded(a: Store, b: Store) {
    && b.jobs.Keys == a.jobs.Keys
    && forall j :: j in a.jobs ==>
         if a.jobs[j].status.IsTerminal() then b.jobs[j].status.IsTerminal() else b.jobs[j] == a.jobs[j]
  }

  /** The document step behind `at` is the same in both stores. */
  ghost predicate SameStep(a: Store, b: Store, at: StepRef) {
    StepAt(a, at) == StepAt(b, at) && (StepAt(a, at).Some? ==> StepOf(a, at) == StepOf(b, at))
  }

  lemma ReconciledKeeps(job: Job, i: nat, v: Payload, id: StepId)
    requires i < |job.steps|
    ensures var after := Reconciled(job, i, v);
            && AddsUp(after) && after.jobId == job.jobId && after.planId == job.planId
            && |after.steps| == |job.steps| && after.steps[i].stepId == job.steps[i].stepId
            && !after.steps[i].status.Running?
            && (job.status.IsTerminal() ==> after.status.IsTerminal())
            && FindStep(after.steps, id) == FindStep(job.steps, id)
            && (forall k :: 0 <= k < |job.steps| && k != i ==> after.steps[k] == job.steps[k])
  {
    SameFind(job.steps, Reconciled(job, i, v).steps, id);
  }

  lemma RewriteKeepsOthers(st: Store, at: StepRef, v: Payload, now: nat, other: StepRef)
    requires Linked(st) && StepAt(st, at).Some? && other != at
    ensures SameStep(st, Rewritten(st, at, v, now), other)
  {
    ReconciledKeeps(st.jobs[st.rows[at].jobId], StepAt(st, at).value, v, other.1);
  }

  lemma RewriteKeepsLinks(st: Store, at: StepRef, v: Payload, now: nat)
    requires Linked(st) && StepAt(st, at).Some? && st.jobs[st.rows[at].jobId].status.IsTerminal()
    ensures var after := Rewritten(st, at, v, now);
            && Linked(after) && EndedStaysEnded(st, after)
            && after.rows == st.rows[at := after.rows[at]] && after.rows[at].jobId == st.rows[at].jobId
            && !after.rows[at].status.Running?
            && forall other :: other in st.touched && other != at ==>
                 other in after.touched && after.touched[other] == st.touched[other]
  {
    ReconciledKeeps(st.jobs[st.rows[at].jobId], StepAt(st, at).value, v, at.1);
  }

  /** Settling one stale row removes exactly that row from the stale set. */
  lemma RewriteSettles(st: Store, at: StepRef, v: Payload, before: nat, now: nat)
    requires Linked(st) && StepAt(st, at).Some? && at in StaleSet(st, before)
    ensures var after := Rewritten(st, at, v, now);
            && Linked(after) && EndedStaysEnded(st, after)
            && StaleSet(after, before) == StaleSet(st, before) - {at}
  {
    var after := Rewritten(st, at, v, now);
    RewriteKeepsLinks(st, at, v, now);
    forall other | other != at ensures other in StaleSet(after, before) <==> other in StaleSet(st, before) {
    }
  }

  // ---------------------------------------------------------------------------
  // What a reply does to a record
  // ---------------------------------------------------------------------------

  /** Step `i` of the row's job is the one `at` names, and it was given an id to ask by. */
  ghost predicate CanBeAsked(st: Store, at: StepRef, i: nat) {
    && at in st.rows && st.rows[at].jobId in st.jobs
    && IsStep(st.jobs[st.rows[at].jobId].steps, at.1, i)
    && st.jobs[st.rows[at].jobId].steps[i].generationId.Some?
  }

  /** The answer to the status read about that step. */
  ghost function AnswerAbout<S>(wire: Wire<S>, s: S, st: Store, at: StepRef, i: nat): Result<Payload, VibeError>
    requires CanBeAsked(st, at, i)
  {
    var step := st.jobs[st.rows[at].jobId].steps[i];
    wire.status(s, Handle(step.longVoiceover, step.generationId)).1
  }

  /** Still at work, or an error that says nothing about the generation: a dropped
      connection, an overloaded server, anything but a 404. */
  ghost predicate Inconclusive(reply: Result<Payload, VibeError>) {
    if reply.Ok? then reply.value.phase == Working else reply.error.Network? || reply.error.status != 404
  }

  /** The step once the answer is written down; what the platform does not know has
      failed, at the cost it was charged. */
  ghost predicate Answers(reply: Result<Payload, VibeError>, before: JobStep, after: JobStep) {
    && (after.status == StepStatus.Succeeded <==> reply.Ok? && reply.value.phase == Success)
    && (after.status == StepStatus.Failed <==> reply.Err? || reply.value.phase != Success)
    && (reply.Ok? ==> IsFigure(before.cost, reply.value, after.cost) && after.refunded == reply.value.refunded)
    && (reply.Err? ==> after.cost == before.cost && !after.refunded && after.error == Some(Verdict(Some("404"))))
    && after.generationId == before.generationId
  }

  /** What a conclusive answer leaves in the document and in the ledger. */
  ghost predicate WrittenDown(a: Store, b: Store, at: StepRef, i: nat, reply: Result<Payload, VibeError>)
    requires CanBeAsked(a, at, i)
  {
    var job := a.jobs[a.rows[at].jobId];
    var row := (job.planId, at.1);
    && job.jobId in b.jobs
    && var after := b.jobs[job.jobId];
    && |after.steps| == |job.steps| && Answers(reply, job.steps[i], after.steps[i])
    && after.cost == TotalCost(after.steps)
    && (forall e :: e in after.errors && e.stepId == Some(at.1) ==>
          after.steps[i].status == StepStatus.Failed && Some(e.reason) == after.steps[i].error)
    && (after.steps[i].status == StepStatus.Failed ==>
          after.steps[i].error.Some? && JobError(Some(at.1), after.steps[i].error.value) in after.errors)
    && after.status == (if exists k :: 0 <= k < |after.steps| && Outstanding(after.steps[k]) then job.status
                        else Aggregate(after.steps, false))
    && (row in a.rows ==> row in b.rows && b.rows[row].status == after.steps[i].status
                          && b.rows[row].cost == after.steps[i].cost)
  }

  lemma RewriteRecords(st: Store, at: StepRef, i: nat, reply: Result<Payload, VibeError>, now: nat)
    requires CanBeAsked(st, at, i) && StepAt(st, at) == Some(i) && !Inconclusive(reply)
    ensures var v := FinalStatus(reply, StepOf(st, at));
            v.Some? && WrittenDown(st, Rewritten(st, at, v.value, now), at, i, reply)
  {
    var job := st.jobs[st.rows[at].jobId];
    var v := FinalStatus(reply, StepOf(st, at)).value;
    VerdictMeans(job.steps[i], v);
    ErrorsLeft(job.errors, at.1);
    RewrittenErrors(job, i, v, at.1);
  }

  /** The error list after a rewrite says about the step what the verdict says. */
  lemma RewrittenErrors(job: Job, i: nat, v: Payload, id: StepId)
    requires i < |job.steps| && job.steps[i].stepId == id
    ensures var after := Reconciled(job, i, v);
            && (forall e :: e in after.errors && e.stepId == Some(id) ==>
                  v.phase != Success && e.reason == Verdict(v.message))
            && (v.phase != Success ==> JobError(Some(id), Verdict(v.message)) in after.errors)
  {
    ErrorsLeft(job.errors, id);
    VerdictMeans(job.steps[i], v);
  }

  /** On every platform: looking at a record writes nothing and settles nothing exactly if
      its step cannot be asked about or the answer is inconclusive; any other answer is
      recorded, and the record counts as settled. */
  lemma ReconcileWritesExactly<S>(wire: Wire<S>, sw: Swept<S>, at: StepRef, now: nat)
    ensures var next := Reconcile(wire, sw, at, now);
            && (next.store == sw.store && next.settled == sw.settled <==>
                forall i: nat :: CanBeAsked(sw.store, at, i) ==>
                  Inconclusive(AnswerAbout(wire, sw.state, sw.store, at, i)))
            && forall i: nat :: CanBeAsked(sw.store, at, i) ==>
                 var reply := AnswerAbout(wire, sw.state, sw.store, at, i);
                 Inconclusive(reply) || (next.settled == sw.settled + 1
                                         && WrittenDown(sw.store, next.store, at, i, reply))
  {
    forall i: nat | CanBeAsked(sw.store, at, i) ensures StepAt(sw.store, at) == Some(i) {
    }
    if StepAt(sw.store, at).Some? {
      var i := StepAt(sw.store, at).value;
      assert CanBeAsked(sw.store, at, i);
      var reply := AnswerAbout(wire, sw.state, sw.store, at, i);
      if !Inconclusive(reply) {
        RewriteRecords(sw.store, at, i, reply, now);
      }
    }
  }

  /** The platform is down, or busy, for as long as the sweep lasts. */
  ghost predicate Unhelpful<S(!new)>(wire: Wire<S>) {
    forall s: S, h: Handle :: Inconclusive(wire.status(s, h).1)
  }

  /** A sweep during an outage leaves every document and every row as it found them, so
      the next sweep asks again. */
  lemma {:induction false} OutageSettlesNothing<S(!new)>(wire: Wire<S>, s: S, st: Store, records: seq<StepRef>,
                                                         now: nat, n: nat)
    requires Unhelpful(wire) && n <= |records|
    ensures var end := SweepUpTo(wire, Swept(s, st, 0), records, now, n);
            end.store == st && end.settled == 0
  {
    if n > 0 {
      OutageSettlesNothing(wire, s, st, records, now, n - 1);
      var sw := SweepUpTo(wire, Swept(s, st, 0), records, now, n - 1);
      ReconcileWritesExactly(wire, sw, records[n - 1], now);
    }
  }

  // ---------------------------------------------------------------------------
  // A whole sweep
  // ---------------------------------------------------------------------------

  ghost predicate Lists(records: seq<StepRef>, refs: set<StepRef>) {
    && (forall k :: 0 <= k < |records| ==> records[k] in refs)
    && (forall at :: at in refs ==> at in records)
    && (forall k, l :: 0 <= k < l < |records| ==> records[k] != records[l])
  }

  /** Where the sweep stands after `n` records. */
  ghost predicate Progressed(first: Store, before: nat, records: seq<StepRef>, now: Store, settled: nat, n: nat)
    requires n <= |records|
  {
    && Linked(now) && EndedStaysEnded(first, now)
    && StaleSet(now, before) <= StaleSet(first, before)
    && |StaleSet(now, before)| + settled == |StaleSet(first, before)|
    && (forall k :: n <= k < |records| ==> records[k] in StaleSet(now, before))
  }

  lemma SettledProgresses(first: Store, before: nat, records: seq<StepRef>, a: Store, b: Store, settled: nat, n: nat)
    requires n < |records| && Lists(records, StaleSet(first, before))
    requires Progressed(first, before, records, a, settled, n)
    requires Linked(b) && EndedStaysEnded(a, b) && StaleSet(b, before) == StaleSet(a, before) - {records[n]}
    ensures Progressed(first, before, records, b, settled + 1, n + 1)
  {
    assert records[n] in StaleSet(a, before);
    forall k | n + 1 <= k < |records| ensures records[k] in StaleSet(b, before) {
      assert records[k] in StaleSet(a, before) && records[k] != records[n];
    }
  }

  lemma OneProgresses<S>(wire: Wire<S>, sw: Swept<S>, first: Store, before: nat, records: seq<StepRef>, now: nat,
                         n: nat)
    requires n < |records| && Lists(records, StaleSet(first, before))
    requires Progressed(first, before, records, sw.store, sw.settled, n)
    ensures var next := Reconcile(wire, sw, records[n], now);
            Progressed(first, before, records, next.store, next.settled, n + 1)
  {
    var next := Reconcile(wire, sw, records[n], now);
    if next.store != sw.store || next.settled != sw.settled {
      var s := StepOf(sw.store, records[n]);
      var v := FinalStatus(wire.status(sw.state, HandleOf(s)).1, s);
      RewriteSettles(sw.store, records[n], v.value, before, now);
      SettledProgresses(first, before, records, sw.store, next.store, sw.settled, n);
    }
  }

  lemma NothingSettledYet<S>(wire: Wire<S>, s: S, st: Store, before: nat, records: seq<StepRef>, now: nat)
    requires Linked(st) && Lists(records, StaleSet(st, before))
    ensures SettledUpTo(wire, s, st, before, records, now, 0)
  {
  }

  /** A sweep settles stale rows one by one: the stale set shrinks by exactly the number
      settled, no ended job is reopened, no running job is touched, and every document
      still adds up. */
  lemma {:induction false} SweepSettles<S>(wire: Wire<S>, s: S, st: Store, before: nat, records: seq<StepRef>,
                                           now: nat, n: nat)
    requires Linked(st) && Lists(records, StaleSet(st, before)) && n <= |records|
    ensures SettledUpTo(wire, s, st, before, records, now, n)
  {
    if n == 0 {
      NothingSettledYet(wire, s, st, before, records, now);
    } else {
      SweepSettles(wire, s, st, before, records, now, n - 1);
      SettleTurn(wire, s, st, before, records, now, n - 1);
    }
  }

  ghost predicate SettledUpTo<S>(wire: Wire<S>, s: S, st: Store, before: nat, records: seq<StepRef>, now: nat, n: nat)
    requires n <= |records|
  {
    var end := SweepUpTo(wire, Swept(s, st, 0), records, now, n);
    Progressed(st, before, records, end.store, end.settled, n)
  }

  lemma SettleTurn<S>(wire: Wire<S>, s: S, st: Store, before: nat, records: seq<StepRef>, now: nat, n: nat)
    requires n < |records| && Lists(records, StaleSet(st, before)) && SettledUpTo(wire, s, st, before, records, now, n)
    ensures SettledUpTo(wire, s, st, before, records, now, n + 1)
  {
    OneProgresses(wire, SweepUpTo(wire, Swept(s, st, 0), records, now, n), st, before, records, now, n);
  }

  /** The platform answers every status read the same way, however often it is asked. */
  ghost predicate Steady<S(!new)>(wire: Wire<S>, answers: Handle -> Result<Payload, VibeError>) {
    forall s: S, h: Handle :: wire.status(s, h).1 == answers(h)
  }

  predicate Unsettleable(st: Store, answers: Handle -> Result<Payload, VibeError>, at: StepRef) {
    StepAt(st, at).Some? ==> FinalStatus(answers(HandleOf(StepOf(st, at))), StepOf(st, at)).None?
  }

  lemma OneLeavesUnsettleable<S(!new)>(wire: Wire<S>, answers: Handle -> Result<Payload, VibeError>, sw: Swept<S>,
                                       before: nat, at: StepRef, now: nat, other: StepRef)
    requires Steady(wire, answers) && Linked(sw.store) && at in StaleSet(sw.store, before)
    requires other in StaleSet(Reconcile(wire, sw, at, now).store, before)
    requires other != at ==> Unsettleable(sw.store, answers, other)
    ensures Unsettleable(Reconcile(wire, sw, at, now).store, answers, other)
  {
    var next := Reconcile(wire, sw, at, now);
    if StepAt(sw.store, at).Some? {
      var s := StepOf(sw.store, at);
      assert wire.status(sw.state, HandleOf(s)).1 == answers(HandleOf(s));
      var v := FinalStatus(answers(HandleOf(s)), s);
      if v.Some? {
        RewriteSettles(sw.store, at, v.value, before, now);
        RewriteKeepsOthers(sw.store, at, v.value, now, other);
      }
    }
  }

  /** What was looked at and left stale cannot be settled. */
  ghost predicate Thorough(st: Store, answers: Handle -> Result<Payload, VibeError>, before: nat,
                           records: seq<StepRef>, n: nat)
    requires n <= |records|
  {
    forall k :: 0 <= k < n && records[k] in StaleSet(st, before) ==> Unsettleable(st, answers, records[k])
  }

  lemma OneIsThorough<S(!new)>(wire: Wire<S>, answers: Handle -> Result<Payload, VibeError>, sw: Swept<S>,
                               first: Store, before: nat, records: seq<StepRef>, now: nat, n: nat)
    requires Steady(wire, answers) && n < |records| && Lists(records, StaleSet(first, before))
    requires Progressed(first, before, records, sw.store, sw.settled, n)
             && Thorough(sw.store, answers, before, records, n)
    ensures Thorough(Reconcile(wire, sw, records[n], now).store, answers, before, records, n + 1)
  {
    var next := Reconcile(wire, sw, records[n], now).store;
    StaleShrinks(wire, sw, before, records[n], now);
    forall k | 0 <= k < n + 1 && records[k] in StaleSet(next, before) ensures Unsettleable(next, answers, records[k]) {
      OneLeavesUnsettleable(wire, answers, sw, before, records[n], now, records[k]);
    }
  }

  lemma StaleShrinks<S>(wire: Wire<S>, sw: Swept<S>, before: nat, at: StepRef, now: nat)
    requires Linked(sw.store) && at in StaleSet(sw.store, before)
    ensures StaleSet(Reconcile(wire, sw, at, now).store, before) <= StaleSet(sw.store, before)
  {
    var next := Reconcile(wire, sw, at, now);
    if next.store != sw.store {
      var s := StepOf(sw.store, at);
      RewriteSettles(sw.store, at, FinalStatus(wire.status(sw.state, HandleOf(s)).1, s).value, before, now);
    }
  }

  ghost predicate ThoroughUpTo<S(!new)>(wire: Wire<S>, answers: Handle -> Result<Payload, VibeError>, s: S, st: Store,
                                        before: nat, records: seq<StepRef>, now: nat, n: nat)
    requires n <= |records|
  {
    Thorough(SweepUpTo(wire, Swept(s, st, 0), records, now, n).store, answers, before, records, n)
  }

  lemma ThoroughTurn<S(!new)>(wire: Wire<S>, answers: Handle -> Result<Payload, VibeError>, s: S, st: Store,
                              before: nat, records: seq<StepRef>, now: nat, n: nat)
    requires Steady(wire, answers) && Linked(st) && Lists(records, StaleSet(st, before)) && n < |records|
    requires ThoroughUpTo(wire, answers, s, st, before, records, now, n)
    ensures ThoroughUpTo(wire, answers, s, st, before, records, now, n + 1)
  {
    SweepSettles(wire, s, st, before, records, now, n);
    OneIsThorough(wire, answers, SweepUpTo(wire, Swept(s, st, 0), records, now, n), st, before, records, now, n);
  }

  lemma NothingLookedAt<S(!new)>(wire: Wire<S>, answers: Handle -> Result<Payload, VibeError>, s: S, st: Store,
                                 before: nat, records: seq<StepRef>, now: nat)
    ensures ThoroughUpTo(wire, answers, s, st, before, records, now, 0)
  {
  }

  lemma {:induction false} SweepIsThorough<S(!new)>(wire: Wire<S>, answers: Handle -> Result<Payload, VibeError>, s: S,
                                                    st: Store, before: nat, records: seq<StepRef>, now: nat, n: nat)
    requires Steady(wire, answers) && Linked(st) && Lists(records, StaleSet(st, before)) && n <= |records|
    ensures ThoroughUpTo(wire, answers, s, st, before, records, now, n)
  {
    if n == 0 {
      NothingLookedAt(wire, answers, s, st, before, records, now);
    } else {
      SweepIsThorough(wire, answers, s, st, before, records, now, n - 1);
      ThoroughTurn(wire, answers, s, st, before, records, now, n - 1);
    }
  }

  lemma {:induction false} NothingLeftToSettle<S(!new)>(wire: Wire<S>, answers: Handle -> Result<Payload, VibeError>,
                                                        s: S, st: Store, records: seq<StepRef>, now: nat, n: nat)
    requires Steady(wire, answers) && n <= |records|
    requires forall k :: 0 <= k < |records| ==> Unsettleable(st, answers, records[k])
    ensures SweepUpTo(wire, Swept(s, st, 0), records, now, n).settled == 0
    ensures SweepUpTo(wire, Swept(s, st, 0), records, now, n).store == st
  {
    if n > 0 {
      NothingLeftToSettle(wire, answers, s, st, records, now, n - 1);
      assert Unsettleable(st, answers, records[n - 1]);
    }
  }

  /** An immediate second sweep, under unchanged answers, settles nothing and writes
      nothing, in whatever order either sweep takes its records. */
  lemma SecondSweepIsIdle<S(!new)>(wire: Wire<S>, answers: Handle -> Result<Payload, VibeError>, s: S, st: Store,
                                   before: nat,
                             records: seq<StepRef>, now: nat, s': S, again: seq<StepRef>, later: nat)
    requires Steady(wire, answers) && Linked(st) && Lists(records, StaleSet(st, before))
    requires Lists(again, StaleSet(SweepUpTo(wire, Swept(s, st, 0), records, now, |records|).store, before))
    ensures var once := SweepUpTo(wire, Swept(s, st, 0), records, now, |records|);
            var twice := SweepUpTo(wire, Swept(s', once.store, 0), again, later, |again|);
            twice.settled == 0 && twice.store == once.store
  {
    var once := SweepUpTo(wire, Swept(s, st, 0), records, now, |records|);
    SweepSettles(wire, s, st, before, records, now, |records|);
    SweepIsThorough(wire, answers, s, st, before, records, now, |records|);
    forall l | 0 <= l < |again| ensures Unsettleable(once.store, answers, again[l]) {
      assert again[l] in StaleSet(st, before);
      var k :| 0 <= k < |records| && records[k] == again[l];
      assert records[k] in StaleSet(once.store, before);
    }
    NothingLeftToSettle(wire, answers, s', once.store, again, later, |again|);
  }

  // ---------------------------------------------------------------------------
  // A sweep, seen from one plan
  // ---------------------------------------------------------------------------

  /** Both stores say the same about a plan: its jobs' documents and its ledger rows. */
  ghost predicate SamePlan(a: Store, b: Store, planId: PlanId) {
    && a.jobs.Keys == b.jobs.Keys
    && (forall j :: j in a.jobs && (a.jobs[j].planId == planId || b.jobs[j].planId == planId) ==>
          a.jobs[j] == b.jobs[j])
    && (forall r: StepRef :: r.0 == planId ==>
          (r in a.rows <==> r in b.rows) && (r in a.rows ==> a.rows[r] == b.rows[r]))
  }

  lemma SamePlanChains(a: Store, b: Store, c: Store, planId: PlanId)
    requires SamePlan(a, b, planId) && SamePlan(b, c, planId)
    ensures SamePlan(a, c, planId)
  {
  }

  /** Reconciling a row of another plan leaves this plan alone. */
  lemma OneElsewhere<S>(wire: Wire<S>, sw: Swept<S>, at: StepRef, now: nat, planId: PlanId)
    requires Linked(sw.store) && at.0 != planId
    ensures SamePlan(Reconcile(wire, sw, at, now).store, sw.store, planId)
  {
    if StepAt(sw.store, at).Some? {
      var s := StepOf(sw.store, at);
      var v := FinalStatus(wire.status(sw.state, HandleOf(s)).1, s);
      if v.Some? {
        ReconciledKeeps(sw.store.jobs[sw.store.rows[at].jobId], StepAt(sw.store, at).value, v.value, at.1);
      }
    }
  }

  lemma RewriteOfSamePlan(a: Store, b: Store, at: StepRef, v: Payload, now: nat)
    requires Linked(a) && Linked(b) && SamePlan(a, b, at.0) && StepAt(b, at).Some?
    ensures StepAt(a, at) == StepAt(b, at) && StepOf(a, at) == StepOf(b, at)
    ensures SamePlan(Rewritten(a, at, v, now), Rewritten(b, at, v, now), at.0)
  {
    var job := b.jobs[b.rows[at].jobId];
    assert a.rows[at] == b.rows[at] && a.jobs[b.rows[at].jobId] == job;
    ReconciledKeeps(job, StepAt(b, at).value, v, at.1);
  }

  /** Whenever asked about `h`, the platform answers with verdict `v`. */
  ghost predicate AlwaysAnswers<S(!new)>(wire: Wire<S>, h: Handle, v: Payload) {
    !v.phase.Working? && forall s: S :: wire.status(s, h).1 == Ok(v)
  }

  /** No row of the plan of `at` is stale, except perhaps `at` itself. */
  ghost predicate NoOtherStale(st: Store, before: nat, at: StepRef) {
    forall r :: r in StaleSet(st, before) && r.0 == at.0 ==> r == at
  }

  /** After `n` records the plan of `at` stands as it did, or as reconciling `at` alone
      left it, if that was among the records. */
  ghost predicate SweptAlone(st: Store, end: Store, at: StepRef, v: Payload, now: nat, reached: bool) {
    if reached && StepAt(st, at).Some? then SamePlan(end, Rewritten(st, at, v, now), at.0) else SamePlan(end, st, at.0)
  }

  lemma AloneTurn<S(!new)>(wire: Wire<S>, sw: Swept<S>, st: Store, at: StepRef, v: Payload, record: StepRef, now: nat,
                           reached: bool)
    requires Linked(st) && Linked(sw.store) && SweptAlone(st, sw.store, at, v, now, reached)
    requires record.0 == at.0 ==> record == at && !reached
    requires StepAt(st, at).Some? ==> AlwaysAnswers(wire, HandleOf(StepOf(st, at)), v)
    requires at in st.rows
    ensures SweptAlone(st, Reconcile(wire, sw, record, now).store, at, v, now, reached || record == at)
  {
    if record == at {
      if StepAt(st, at).Some? {
        RewriteOfSamePlan(sw.store, st, at, v, now);
        assert wire.status(sw.state, HandleOf(StepOf(st, at))).1 == Ok(v);
      } else {
        assert StepAt(sw.store, at).None?;
      }
    } else {
      OneElsewhere(wire, sw, record, now, at.0);
      SamePlanChains(Reconcile(wire, sw, record, now).store, sw.store,
                     if reached && StepAt(st, at).Some? then Rewritten(st, at, v, now) else st, at.0);
    }
  }

  ghost predicate AloneUpTo<S>(wire: Wire<S>, s: S, st: Store, records: seq<StepRef>, now: nat, at: StepRef, v: Payload,
                               n: nat)
    requires n <= |records|
  {
    SweptAlone(st, SweepUpTo(wire, Swept(s, st, 0), records, now, n).store, at, v, now, at in records[..n])
  }

  lemma SweepKeepsLinks<S>(wire: Wire<S>, s: S, st: Store, before: nat, records: seq<StepRef>, now: nat, n: nat)
    requires Linked(st) && Lists(records, StaleSet(st, before)) && n <= |records|
    ensures Linked(SweepUpTo(wire, Swept(s, st, 0), records, now, n).store)
  {
    SweepSettles(wire, s, st, before, records, now, n);
  }

  /** The next record is still stale when its turn comes. */
  lemma NextIsStale<S>(wire: Wire<S>, s: S, st: Store, before: nat, records: seq<StepRef>, now: nat, n: nat)
    requires Linked(st) && Lists(records, StaleSet(st, before)) && n < |records|
    ensures records[n] in StaleSet(st, before)
    ensures records[n] in StaleSet(SweepUpTo(wire, Swept(s, st, 0), records, now, n).store, before)
  {
    SweepSettles(wire, s, st, before, records, now, n);
  }

  /** A record of the plan is its one stale row, and comes up only once. */
  lemma ComesUpOnce(st: Store, before: nat, records: seq<StepRef>, at: StepRef, n: nat)
    requires Lists(records, StaleSet(st, before)) && n < |records| && NoOtherStale(st, before, at)
    ensures records[n].0 == at.0 ==> records[n] == at && at !in records[..n]
    ensures at in records[..n + 1] <==> at in records[..n] || records[n] == at
  {
    assert records[..n + 1] == records[..n] + [records[n]];
    assert records[n] in StaleSet(st, before);
  }

  lemma AloneOneMore<S(!new)>(wire: Wire<S>, s: S, st: Store, before: nat, records: seq<StepRef>, now: nat, at: StepRef,
                              v: Payload, n: nat)
    requires Linked(st) && Lists(records, StaleSet(st, before)) && n < |records| && at in st.rows
    requires NoOtherStale(st, before, at) && AloneUpTo(wire, s, st, records, now, at, v, n)
    requires StepAt(st, at).Some? ==> AlwaysAnswers(wire, HandleOf(StepOf(st, at)), v)
    ensures AloneUpTo(wire, s, st, records, now, at, v, n + 1)
  {
    SweepKeepsLinks(wire, s, st, before, records, now, n);
    ComesUpOnce(st, before, records, at, n);
    AloneTurn(wire, SweepUpTo(wire, Swept(s, st, 0), records, now, n), st, at, v, records[n], now, at in records[..n]);
  }

  lemma NothingSweptYet<S>(wire: Wire<S>, s: S, st: Store, records: seq<StepRef>, now: nat, at: StepRef, v: Payload)
    ensures AloneUpTo(wire, s, st, records, now, at, v, 0)
  {
  }

  /** A whole sweep does to a plan with one stale row what reconciling that row does, in
      whatever order it takes its records, and nothing to a plan without one. */
  lemma {:induction false} SweepOfOneRow<S(!new)>(wire: Wire<S>, s: S, st: Store, before: nat, records: seq<StepRef>,
                                                  now: nat, at: StepRef, v: Payload, n: nat)
    requires Linked(st) && Lists(records, StaleSet(st, before)) && n <= |records| && at in st.rows
    requires NoOtherStale(st, before, at)
    requires StepAt(st, at).Some? ==> AlwaysAnswers(wire, HandleOf(StepOf(st, at)), v)
    ensures AloneUpTo(wire, s, st, records, now, at, v, n)
  {
    if n == 0 {
      NothingSweptYet(wire, s, st, records, now, at, v);
    } else {
      SweepOfOneRow(wire, s, st, before, records, now, at, v, n - 1);
      AloneOneMore(wire, s, st, before, records, now, at, v, n - 1);
    }
  }

  // ---------------------------------------------------------------------------
  // The sweeper
  // ---------------------------------------------------------------------------

  class Sweeper<S> {
    const client: Client<S>
    const jobs: JobRepository
    const minAge: nat

    constructor (client: Client<S>, jobs: JobRepository, minAge: nat)
      ensures this.client == client && this.jobs == jobs && this.minAge == minAge
    {
      this.client, this.jobs, this.minAge := client, jobs, minAge;
    }

    function Current(): Store
      reads jobs
    {
      Store(jobs.jobs, jobs.rows, jobs.touched)
    }

    /** Launched steps without a verdict inside ended jobs, longest untouched first. */
    method StaleSteps(before: nat) returns (records: seq<StepRef>)
      ensures Lists(records, StaleSet(Current(), before))
              && ListsByAge(records, StaleSet(Current(), before), jobs.touched)
      ensures forall at :: at in records <==>
                && at in jobs.rows && jobs.rows[at].status == StepStatus.Running && jobs.rows[at].generationId != None
                && at in jobs.touched && jobs.touched[at] < before
                && jobs.rows[at].jobId in jobs.jobs && HasEnded(jobs.jobs[jobs.rows[at].jobId])
    {
      records := OldestFirst(StaleSet(Current(), before), jobs.touched);
    }

    method SettleRecord(at: StepRef, now: nat) returns (done: bool)
      requires Linked(Current())
      modifies client`state, jobs
      ensures var next := Reconcile(client.wire, Swept(old(client.state), old(Current()), 0), at, now);
              client.state == next.state && Current() == next.store && next.settled == if done then 1 else 0
      ensures var was, s := old(Current()), old(client.state);
              && (done <==> exists i: nat :: CanBeAsked(was, at, i)
                                             && !Inconclusive(AnswerAbout(client.wire, s, was, at, i)))
              && (!done ==> Current() == was)
              && (forall i: nat :: done && CanBeAsked(was, at, i) ==>
                    WrittenDown(was, Current(), at, i, AnswerAbout(client.wire, s, was, at, i)))
    {
      ReconcileWritesExactly(client.wire, Swept(client.state, Current(), 0), at, now);
      if at !in jobs.rows || jobs.rows[at].jobId !in jobs.jobs {
        return false;
      }
      var job := jobs.jobs[jobs.rows[at].jobId];
      var i := FindStep(job.steps, at.1);
      if i.None? || job.steps[i.value].generationId.None? {
        return false;
      }
      var step := job.steps[i.value];
      var reply := client.Status(HandleOf(step));
      var v := FinalStatus(reply, step);
      if v.None? {
        return false;
      }
      ReconciledKeeps(job, i.value, v.value, at.1);
      var rewritten := Reconciled(job, i.value, v.value);
      step := rewritten.steps[i.value];
      jobs.Save(rewritten);
      jobs.Update((job.planId, step.stepId), step.status, step.generationId, Some(step.cost), now);
      done := true;
    }

    method SettleAll(todo: seq<StepRef>, clock: nat, ghost cutoff: nat) returns (settled: nat)
      requires Linked(Current()) && Lists(todo, StaleSet(Current(), cutoff))
      modifies client`state, jobs
      ensures SweepUpTo(client.wire, Swept(old(client.state), old(Current()), 0), todo, clock,
          |todo|) == Swept(client.state, Current(), settled)
    {
      ghost var first := Swept(client.state, Current(), 0);
      settled := 0;
      for n := 0 to |todo|
        invariant SweepUpTo(client.wire, first, todo, clock, n) == Swept(client.state, Current(), settled)
      {
        SweepSettles(client.wire, first.state, first.store, cutoff, todo, clock, n);
        SettledCounts(client.wire, client.state, Current(), settled, todo[n], clock);
        var done := SettleRecord(todo[n], clock);
        settled := if done then settled + 1 else settled;
      }
    }

    /** Settles everything that can be settled right now. Only status reads go out: the
        list of launches stays as it was. One unreachable generation stops nothing. */
    method Sweep(clock: nat) returns (settled: nat, ghost records: seq<StepRef>)
      requires Linked(Current())
      modifies client`state, jobs
      ensures client.launches == old(client.launches)
      ensures var cutoff := if clock < minAge then 0 else clock - minAge;
              && Lists(records, StaleSet(old(Current()), cutoff))
              && ListsByAge(records, StaleSet(old(Current()), cutoff), old(jobs.touched))
      ensures SweepUpTo(client.wire, Swept(old(client.state), old(Current()), 0), records, clock,
          |records|) == Swept(client.state, Current(), settled)
      ensures Linked(Current()) && EndedStaysEnded(old(Current()), Current())
      ensures var cutoff := if clock < minAge then 0 else clock - minAge;
              |StaleSet(Current(), cutoff)| == |StaleSet(old(Current()), cutoff)| - settled
    {
      var cutoff := if clock < minAge then 0 else clock - minAge;
      var todo := StaleSteps(cutoff);
      records := todo;
      SweepSettles(client.wire, client.state, Current(), cutoff, todo, clock, |todo|);
      settled := SettleAll(todo, clock, cutoff);
    }
  }

  lemma SettledCounts<S>(wire: Wire<S>, s: S, st: Store, settled: nat, at: StepRef, now: nat)
    ensures var a, b := Reconcile(wire, Swept(s, st, 0), at, now), Reconcile(wire, Swept(s, st, settled), at, now);
            a.state == b.state && a.store == b.store && b.settled == settled + a.settled
  {
  }
}
