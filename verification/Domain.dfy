/** The persisted contract between planning and execution: plans, jobs, ledger keys
    and the replies that come back over the wire. Timestamps and message texts are
    left out; where the source branches on an error text, a `Reason` says which. */
module Domain {
  import opened Money

  datatype Option<+T> = None | Some(value: T)

  /** `a or b` on values that may be missing. */
  function Or<T>(a: Option<T>, b: Option<T>): Option<T> {
    if a.Some? then a else b
  }

  function GetOr<T>(a: Option<T>, default: T): T {
    if a.Some? then a.value else default
  }

  datatype Result<+T, +E> = Ok(value: T) | Err(error: E)

  type PlanId = string
  type JobId = string
  type StepId = string

  /** A step's idempotency key: injective in the plan, the step and the exact payload. */
  datatype Key = NoKey | StepKey(planId: PlanId, stepId: StepId, model: string, params: string)

  datatype Format = Text | Image | Voice | Video | Music

  datatype Strategy = Cheapest | Balanced | Quality

  datatype PlanStatus = Ready | Degraded | Infeasible | Executed

  datatype StepKind = Generation | Local

  datatype StepStatus = Pending | Running | Succeeded | Failed | Skipped

  datatype JobStatus = Pending | Queued | Running | Succeeded | Partial | Failed | Aborted {
    predicate IsTerminal() {
      Succeeded? || Partial? || Failed? || Aborted?
    }

    predicate IsActive() {
      Queued? || Running?
    }
  }

  /** The exact `/generate` body, callback address aside. The request digest kept in
      the ledger is injective in it, so the body itself stands for its digest. */
  datatype Body = Body(format: Format, model: string, params: string, key: Key)

  datatype PlanStep = PlanStep(
    stepId: StepId, format: Format, kind: StepKind, model: string, params: string,
    key: Key, estimate: Amount, localOutput: Option<string>)
  {
    function GenerateBody(): Body {
      Body(format, model, params, key)
    }
  }

  datatype Plan = Plan(
    planId: PlanId, status: PlanStatus, budget: Amount, spendable: Amount,
    total: Amount, steps: seq<PlanStep>, jobId: Option<JobId>)

  datatype VibeError = Network | Api(status: int, code: string) {
    predicate Retryable() {
      Network? || status == 429 || status >= 500
    }

    predicate BudgetRelated() {
      Api? && (code == "insufficient_balance" || code == "daily_spend_limit_exceeded" || status == 402)
    }
  }

  /** Why a confirmed plan was stopped before the first ruble. */
  datatype Blocker =
    | PlanMissing
    | EstimateUnavailable(step: StepId, error: VibeError)
    | RequestInvalid(step: StepId)
    | PriceUnknown(step: StepId)
    | PriceRose(step: StepId, rise: Amount)
    | DayLimitReached(step: StepId)
    | TotalOverEnvelope
    | BalanceUnknown
    | TotalOverBalance
    | TotalOverDay

  datatype Reason =
    | PollTimeout
    | NoGenerationId
    | OverBudget
    | SkippedAfterBudget
    | CancelledBeforeSpend
    | Upstream(error: VibeError)
    | Verdict(message: Option<string>)
    | Blocked(why: Blocker)

  datatype JobStep = JobStep(
    stepId: StepId, kind: StepKind, key: Key, status: StepStatus,
    generationId: Option<nat>, longVoiceover: bool, estimate: Amount, cost: Amount,
    refunded: bool, resultUrl: Option<string>, displayUrl: Option<string>,
    localOutput: Option<string>, text: Option<string>, error: Option<Reason>, attempts: nat)

  datatype JobError = JobError(stepId: Option<StepId>, reason: Reason)

  datatype Job = Job(
    jobId: JobId, planId: PlanId, status: JobStatus, cost: Amount,
    steps: seq<JobStep>, errors: seq<JobError>, createdAt: nat)

  /** Platform states, grouped as the executor groups them: success, terminal
      failure, anything else. */
  datatype Phase = Success | Failure | Working

  datatype Payload = Payload(
    phase: Phase, cost: Option<Amount>, refunded: bool, resultUrl: Option<string>,
    displayUrl: Option<string>, fileUrl: Option<string>, text: Option<string>,
    message: Option<string>)

  datatype LaunchReply = LaunchReply(
    generationId: Option<nat>, plainId: Option<nat>, voiceoverId: Option<nat>,
    longVoiceover: bool, payload: Payload)
  {
    /** The first identifier present, in the order the executor looks. */
    function Id(): Option<nat> {
      Or(generationId, Or(plainId, voiceoverId))
    }

    predicate Terminal() {
      payload.phase != Working || payload.text.Some?
    }
  }

  datatype EstimatePayload = EstimatePayload(
    invalid: bool, cost: Option<Amount>, current: Option<Amount>, afterReserve: Option<Amount>,
    dailyLimit: Option<Amount>, dailyToday: Option<Amount>, beyondDailyLimit: bool)

  datatype Account = Account(balance: Option<Amount>, dailyLimit: Option<Amount>, dailySpent: Option<Amount>) {
    function DailyRemaining(): Option<Amount> {
      if dailyLimit.None? then None
      else Some(Max(0, dailyLimit.value - GetOr(dailySpent, 0)))
    }
  }

  /** Index of the first step with this id. */
  function FindStep(steps: seq<JobStep>, id: StepId): (r: Option<nat>)
    ensures r.Some? ==> r.value < |steps| && steps[r.value].stepId == id
    ensures r.Some? ==> forall k :: 0 <= k < r.value ==> steps[k].stepId != id
    ensures r.None? ==> forall k :: 0 <= k < |steps| ==> steps[k].stepId != id
  {
    FindFrom(steps, id, 0)
  }

  function FindFrom(steps: seq<JobStep>, id: StepId, from: nat): (r: Option<nat>)
    requires from <= |steps|
    ensures r.Some? ==> from <= r.value < |steps| && steps[r.value].stepId == id
    ensures r.Some? ==> forall k :: from <= k < r.value ==> steps[k].stepId != id
    ensures r.None? ==> forall k :: from <= k < |steps| ==> steps[k].stepId != id
    decreases |steps| - from
  {
    if from == |steps| then None
    else if steps[from].stepId == id then Some(from)
    else FindFrom(steps, id, from + 1)
  }

  function Costs(steps: seq<JobStep>): (cs: seq<Amount>)
    ensures |cs| == |steps|
    ensures forall k :: 0 <= k < |steps| ==> cs[k] == steps[k].cost
  {
    seq(|steps|, i requires 0 <= i < |steps| => steps[i].cost)
  }

  function TotalCost(steps: seq<JobStep>): Amount {
    Sum(Costs(steps))
  }

  /** The stored total of a job document agrees with its steps. */
  predicate AddsUp(job: Job) {
    job.cost == TotalCost(job.steps)
  }

  lemma TotalOfUpdate(steps: seq<JobStep>, i: nat, s: JobStep)
    requires i < |steps|
    ensures TotalCost(steps[i := s]) == TotalCost(steps) - steps[i].cost + s.cost
  {
    assert Costs(steps[i := s]) == Costs(steps)[i := s.cost];
    SumOfUpdate(Costs(steps), i, s.cost);
  }
}
