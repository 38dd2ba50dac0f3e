/** How a verdict lands on a step and a job: in the executor, in the reconciler and in
    the webhook handler. */
module Settlement {
  import opened Money
  import opened Domain

  /** Writes a terminal verdict onto a step; the second part is the cost it settles at.
      Shared by the executor and the reconciler. */
  function ApplyOutcome(s: JobStep, v: Payload): (JobStep, Amount) {
    var cost := GetOr(v.cost, s.cost);
    if v.phase.Success? then
      (s.(status := StepStatus.Succeeded, refunded := v.refunded,
          resultUrl := Or(v.resultUrl, s.resultUrl),
          displayUrl := Or(v.displayUrl, Or(v.fileUrl, s.displayUrl)),
          text := Or(v.text, s.text), error := None),
       cost)
    else
      (s.(status := StepStatus.Failed, refunded := v.refunded, error := Some(Verdict(v.message))),
       if v.refunded || cost == 0 then 0 else cost)
  }

  /** The step as it stands once the verdict and its cost are both recorded. */
  function Settled(s: JobStep, v: Payload): JobStep {
    ApplyOutcome(s, v).0.(cost := ApplyOutcome(s, v).1)
  }

  /** What a step costs for good, once charged and judged: what the verdict names, or else
      what was charged, and nothing for a failure whose money came back. */
  ghost predicate IsFigure(charged: Amount, v: Payload, x: Amount) {
    && (v.phase != Success && v.refunded ==> x == 0)
    && ((v.phase == Success || !v.refunded) && v.cost.Some? ==> x == v.cost.value)
    && ((v.phase == Success || !v.refunded) && v.cost.None? ==> x == charged)
  }

  /** What a verdict does to a step charged `s.cost`: a success settles at the cost it names,
      or else at the charge; a failure likewise, unless the money came back. A success
      brings its results; what it does not name stays. */
  lemma VerdictMeans(s: JobStep, v: Payload)
    ensures var r := Settled(s, v);
            && (r.status == StepStatus.Succeeded <==> v.phase == Success)
            && (r.status == StepStatus.Failed <==> v.phase != Success)
            && IsFigure(s.cost, v, r.cost)
            && r.refunded == v.refunded
            && (v.phase == Success ==> r.error == None)
            && (v.phase != Success ==> r.error == Some(Verdict(v.message)))
    ensures var r := Settled(s, v);
            v.phase == Success ==>
              && (v.resultUrl.Some? ==> r.resultUrl == v.resultUrl) && (v.text.Some? ==> r.text == v.text)
              && (v.displayUrl.Some? ==> r.displayUrl == v.displayUrl)
              && (v.displayUrl.None? && v.fileUrl.Some? ==> r.displayUrl == v.fileUrl)
    ensures var r := Settled(s, v);
            && (v.phase != Success || v.resultUrl.None? ==> r.resultUrl == s.resultUrl)
            && (v.phase != Success || v.text.None? ==> r.text == s.text)
            && (v.phase != Success || (v.displayUrl.None? && v.fileUrl.None?) ==> r.displayUrl == s.displayUrl)
            && r == s.(status := r.status, cost := r.cost, refunded := r.refunded, error := r.error,
                       resultUrl := r.resultUrl, displayUrl := r.displayUrl, text := r.text)
  {
  }

  function CountStatus(steps: seq<JobStep>, status: StepStatus): (n: nat)
    ensures n > 0 <==> exists k :: 0 <= k < |steps| && steps[k].status == status
  {
    if steps == [] then 0
    else
      var n := |steps| - 1;
      assert forall k :: 0 <= k < n ==> steps[k] == steps[..n][k];
      CountStatus(steps[..n], status) + if steps[n].status == status then 1 else 0
  }

  function Aggregate(steps: seq<JobStep>, aborted: bool): (r: JobStatus)
    ensures r.IsTerminal()
  {
    var succeeded := CountStatus(steps, StepStatus.Succeeded);
    if aborted then (if succeeded == 0 then JobStatus.Aborted else JobStatus.Partial)
    else if CountStatus(steps, StepStatus.Failed) == 0
    && CountStatus(steps, StepStatus.Skipped) == 0 then JobStatus.Succeeded
    else if succeeded == 0 then JobStatus.Failed
    else JobStatus.Partial
  }

  predicate Outstanding(s: JobStep) {
    s.status.Pending? || s.status.Running?
  }

  /** What the verdict on a job with nothing outstanding says about its steps. */
  lemma AggregateMeans(steps: seq<JobStep>, aborted: bool)
    requires forall k :: 0 <= k < |steps| ==> !Outstanding(steps[k])
    ensures var all := forall k :: 0 <= k < |steps| ==> steps[k].status.Succeeded?;
            var some := exists k :: 0 <= k < |steps| && steps[k].status.Succeeded?;
            && (Aggregate(steps, aborted) == JobStatus.Succeeded <==> !aborted && all)
            && (Aggregate(steps, aborted) == JobStatus.Aborted <==> aborted && !some)
            && (Aggregate(steps, aborted) == JobStatus.Failed <==> !aborted && !all && !some)
            && (Aggregate(steps, aborted) == JobStatus.Partial <==> some && (aborted || !all))
  {
    forall k | 0 <= k < |steps| && !steps[k].status.Succeeded?
      ensures CountStatus(steps, StepStatus.Failed) > 0 || CountStatus(steps, StepStatus.Skipped) > 0
    {
      assert steps[k].status == StepStatus.Failed || steps[k].status == StepStatus.Skipped;
    }
  }

  /** Final status of a job whose steps have all settled. */
  function TerminalStatus(steps: seq<JobStep>): Option<JobStatus> {
    if exists k :: 0 <= k < |steps| && Outstanding(steps[k]) then None
    else Some(Aggregate(steps, false))
  }

  // ---------------------------------------------------------------------------
  // The reconciler's rewrite
  // ---------------------------------------------------------------------------

  function WithoutErrorsOf(errors: seq<JobError>, id: StepId): seq<JobError> {
    if errors == [] then []
    else
      var n := |errors| - 1;
      WithoutErrorsOf(errors[..n], id) + if errors[n].stepId == Some(id) then [] else [errors[n]]
  }

  lemma {:induction false} ErrorsLeft(errors: seq<JobError>, id: StepId)
    ensures forall e :: e in WithoutErrorsOf(errors, id) <==> e in errors && e.stepId != Some(id)
  {
    if errors != [] {
      var n := |errors| - 1;
      ErrorsLeft(errors[..n], id);
      assert errors == errors[..n] + [errors[n]];
    }
  }

  /** Replaces what the job said about step `i` with what actually happened. */
  function Reconciled(job: Job, i: nat, v: Payload): Job
    requires i < |job.steps|
  {
    var s := Settled(job.steps[i], v);
    var steps := job.steps[i := s];
    var errors := WithoutErrorsOf(job.errors, s.stepId) +
                  if s.status.Failed? then [JobError(Some(s.stepId), s.error.value)] else [];
    var final := TerminalStatus(steps);
    job.(steps := steps, errors := errors, cost := TotalCost(steps), status := GetOr(final, job.status))
  }

  // ---------------------------------------------------------------------------
  // The webhook handler
  // ---------------------------------------------------------------------------

  function WebhookStatus(v: Payload): StepStatus {
    if v.phase.Success? then StepStatus.Succeeded else StepStatus.Failed
  }

  function WebhookCost(v: Payload): Amount {
    if v.refunded then 0 else GetOr(v.cost, 0)
  }

  function ByWebhook(s: JobStep, v: Payload): JobStep {
    var status := WebhookStatus(v);
    s.(status := status, refunded := v.refunded, cost := WebhookCost(v),
       resultUrl := Or(v.resultUrl, s.resultUrl), displayUrl := Or(v.displayUrl, s.displayUrl),
       error := if status.Failed? then Some(Verdict(v.message)) else s.error)
  }

  /** The callback's effect on the job document. */
  function ApplyWebhook(job: Job, id: StepId, v: Payload): Job {
    var i := FindStep(job.steps, id);
    if i.None? || job.steps[i.value].status.Succeeded? then job
    else
      var steps := job.steps[i.value := ByWebhook(job.steps[i.value], v)];
      var final := TerminalStatus(steps);
      job.(steps := steps, cost := TotalCost(steps),
           status := if final.Some? && !job.status.IsTerminal() then final.value else job.status)
  }

  /** A callback reached step `i`: succeeded exactly if the platform says so, at the cost
      named, or nothing if none is or the money came back; the addresses it brings are
      taken over. */
  ghost predicate CallbackLanded(before: JobStep, after: JobStep, v: Payload) {
    && (after.status == StepStatus.Succeeded <==> v.phase == Success)
    && (after.status == StepStatus.Failed <==> v.phase != Success)
    && after.refunded == v.refunded
    && after.cost == (if v.refunded || v.cost.None? then 0 else v.cost.value)
    && after.resultUrl == (if v.resultUrl.Some? then v.resultUrl else before.resultUrl)
    && after.displayUrl == (if v.displayUrl.Some? then v.displayUrl else before.displayUrl)
    && after.error == (if v.phase == Success then before.error else Some(Verdict(v.message)))
  }

  /** The first step of this id, if there is one. */
  ghost predicate IsStep(steps: seq<JobStep>, id: StepId, i: nat) {
    i < |steps| && steps[i].stepId == id && forall k :: 0 <= k < i ==> steps[k].stepId != id
  }

  /** What a callback does to a document: a step that succeeded is left as it is, any other
      is rewritten, and a step the document does not know changes nothing. */
  ghost predicate CalledBack(before: Job, after: Job, id: StepId, v: Payload) {
    && |after.steps| == |before.steps|
    && ((forall i :: 0 <= i < |before.steps| ==> before.steps[i].stepId != id) ==> after == before)
    && forall i: nat {:trigger before.steps[i]} :: IsStep(before.steps, id, i) ==>
         if before.steps[i].status == StepStatus.Succeeded then after == before
         else CallbackLanded(before.steps[i], after.steps[i], v)
  }

  lemma CallbackMeans(job: Job, id: StepId, v: Payload)
    ensures CalledBack(job, ApplyWebhook(job, id, v), id, v)
  {
    forall i: nat | IsStep(job.steps, id, i) ensures FindStep(job.steps, id) == Some(i) {
    }
  }

  /** Callback and executor give a step the same status, refund mark and, for a failure, the
      same error; and they give it the same cost exactly if the payload names one and the
      money is not back, or a failure was refunded, or nothing is at stake: the step was
      charged nothing, or the refunded success cost nothing. */
  lemma CallbackAgreesExactly(s: JobStep, v: Payload)
    ensures var a, b := ByWebhook(s, v), Settled(s, v);
            && a.status == b.status && a.refunded == b.refunded && (v.phase != Success ==> a.error == b.error)
            && (a.cost == b.cost <==>
                || (v.cost.Some? && !v.refunded)
                || (v.refunded && v.phase != Success)
                || (v.cost.None? && s.cost == 0)
                || (v.cost == Some(0)))
  {
  }

  /** Redelivering a callback changes nothing further. */
  lemma WebhookIsIdempotent(job: Job, id: StepId, v: Payload)
    ensures ApplyWebhook(ApplyWebhook(job, id, v), id, v) == ApplyWebhook(job, id, v)
  {
    var i := FindStep(job.steps, id);
    if i.Some? && !job.steps[i.value].status.Succeeded? {
      var once := ApplyWebhook(job, id, v);
      SameFind(job.steps, once.steps, id);
      if !once.steps[i.value].status.Succeeded? {
        assert ByWebhook(once.steps[i.value], v) == once.steps[i.value];
        assert once.steps[i.value := once.steps[i.value]] == once.steps;
      }
    }
  }

  lemma SameFind(a: seq<JobStep>, b: seq<JobStep>, id: StepId)
    requires |a| == |b| && forall k :: 0 <= k < |a| ==> a[k].stepId == b[k].stepId
    ensures FindStep(a, id) == FindStep(b, id)
  {
    SameFindFrom(a, b, id, 0);
  }

  lemma {:induction false} SameFindFrom(a: seq<JobStep>, b: seq<JobStep>, id: StepId, from: nat)
    requires |a| == |b| && forall k :: 0 <= k < |a| ==> a[k].stepId == b[k].stepId
    requires from <= |a|
    ensures FindFrom(a, id, from) == FindFrom(b, id, from)
    decreases |a| - from
  {
    if from < |a| {
      SameFindFrom(a, b, id, from + 1);
    }
  }

  /** A callback keeps the document's books, leaves every succeeded step as it is, moves
      no other step, and concludes the job only when nothing is outstanding. */
  lemma WebhookIsSafe(job: Job, id: StepId, v: Payload)
    requires AddsUp(job)
    ensures var after := ApplyWebhook(job, id, v);
            && AddsUp(after)
            && |after.steps| == |job.steps|
            && (forall k :: 0 <= k < |job.steps| ==>
                  && after.steps[k].stepId == job.steps[k].stepId
                  && after.steps[k].generationId == job.steps[k].generationId
                  && (after.steps[k] != job.steps[k] ==> job.steps[k].stepId == id && !job.steps[k].status.Succeeded?))
            && (after.status != job.status ==>
                  && !job.status.IsTerminal() && after.status.IsTerminal()
                  && forall k :: 0 <= k < |after.steps| ==> !Outstanding(after.steps[k]))
  {
  }
}
