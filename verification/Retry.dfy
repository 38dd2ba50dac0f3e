/** The re-send loop around every call of the platform, and why it cannot pay twice. */
module Retry {
  import opened Domain
  import P = Platform

  datatype Policy = Policy(maxAttempts: nat, baseDelay: real, maxDelay: real, jitter: real) {
    predicate Valid() {
      baseDelay >= 0.0 && maxDelay >= 0.0 && jitter >= 0.0
    }

    predicate ShouldRetry(error: VibeError, attempt: nat) {
      attempt < maxAttempts && error.Retryable()
    }

    function Backoff(attempt: nat): real
      requires attempt >= 1
    {
      var grown := baseDelay * PowerOfTwo(attempt - 1);
      if grown <= maxDelay then grown else maxDelay
    }

    /** `draw` is the random number, between -1 and 1. */
    function DelayFor(attempt: nat, retryAfter: Option<real>, draw: real): real
      requires attempt >= 1
    {
      if retryAfter.Some? && retryAfter.value >= 0.0 then
        if retryAfter.value <= maxDelay then retryAfter.value else maxDelay
      else
        var delay := Backoff(attempt) + draw * (Backoff(attempt) * jitter);
        if delay >= 0.0 then delay else 0.0
    }
  }

  /** An error that may go away by itself: no connection, too many requests, or a fault on
      the other side. */
  ghost predicate Transient(e: VibeError) {
    e.Network? || e.status == 429 || e.status >= 500
  }

  function PowerOfTwo(n: nat): real {
    if n == 0 then 1.0 else 2.0 * PowerOfTwo(n - 1)
  }

  lemma {:induction false} PowersArePositive(n: nat)
    ensures PowerOfTwo(n) >= 1.0
  {
    if n > 0 {
      PowersArePositive(n - 1);
    }
  }

  /** A wait is never negative, never longer than the cap stretched by the jitter, and a
      server's own wish is honoured up to the cap. */
  lemma DelayIsBounded(policy: Policy, attempt: nat, retryAfter: Option<real>, draw: real)
    requires policy.Valid() && attempt >= 1 && -1.0 <= draw <= 1.0
    ensures 0.0 <= policy.DelayFor(attempt, retryAfter, draw) <= policy.maxDelay + policy.maxDelay * policy.jitter
    ensures retryAfter.Some? && 0.0 <= retryAfter.value <= policy.maxDelay ==>
              policy.DelayFor(attempt, retryAfter, draw) == retryAfter.value
  {
    PowersArePositive(attempt - 1);
    var b, cap, j := policy.Backoff(attempt), policy.maxDelay, policy.jitter;
    assert 0.0 <= policy.baseDelay * PowerOfTwo(attempt - 1);
    assert 0.0 <= b <= cap;
    Stretched(b, cap, j, draw);
  }

  lemma Stretched(b: real, cap: real, j: real, draw: real)
    requires 0.0 <= b <= cap && 0.0 <= j && -1.0 <= draw <= 1.0
    ensures draw * (b * j) <= cap * j && 0.0 <= cap * j
  {
    assert 0.0 <= (cap - b) * j;
    assert 0.0 <= b * j;
    assert 0.0 <= (1.0 - draw) * (b * j);
  }

  ghost function Smaller(a: real, b: real): real {
    if a <= b then a else b
  }

  /** The wait doubles from one attempt to the next, up to the cap. */
  lemma BackoffDoubles(policy: Policy, attempt: nat)
    requires policy.Valid() && attempt >= 1
    ensures policy.Backoff(1) == Smaller(policy.baseDelay, policy.maxDelay)
    ensures policy.Backoff(attempt + 1) == Smaller(2.0 * policy.Backoff(attempt), policy.maxDelay)
  {
    PowersArePositive(attempt - 1);
    var g := policy.baseDelay * PowerOfTwo(attempt - 1);
    assert policy.baseDelay * PowerOfTwo(attempt) == 2.0 * g;
    assert PowerOfTwo(0) == 1.0;
    assert 0.0 <= g;
  }

  /** Without a wish of the server's the wait strays from that by the jitter's share at
      most. */
  lemma JitterIsBounded(policy: Policy, attempt: nat, draw: real)
    requires policy.Valid() && attempt >= 1 && -1.0 <= draw <= 1.0
    ensures var b, delay := policy.Backoff(attempt), policy.DelayFor(attempt, None, draw);
            b - b * policy.jitter <= delay <= b + b * policy.jitter
  {
    BackoffIsPositive(policy, attempt);
    var b := policy.Backoff(attempt);
    assert 0.0 <= b * policy.jitter;
    Spread(b, b * policy.jitter, draw, policy.DelayFor(attempt, None, draw));
  }

  lemma BackoffIsPositive(policy: Policy, attempt: nat)
    requires policy.Valid() && attempt >= 1
    ensures 0.0 <= policy.Backoff(attempt)
  {
    PowersArePositive(attempt - 1);
    assert 0.0 <= policy.baseDelay * PowerOfTwo(attempt - 1);
  }

  lemma Spread(b: real, w: real, draw: real, delay: real)
    requires 0.0 <= b && 0.0 <= w && -1.0 <= draw <= 1.0
    requires var x := b + draw * w; delay == if x >= 0.0 then x else 0.0
    ensures b - w <= delay <= b + w
  {
    NonNegativeProduct(1.0 - draw, w);
    NonNegativeProduct(1.0 + draw, w);
    assert (1.0 + draw) * w == w + draw * w && (1.0 - draw) * w == w - draw * w;
  }

  lemma NonNegativeProduct(a: real, b: real)
    requires 0.0 <= a && 0.0 <= b
    ensures 0.0 <= a * b
  {
  }

  // ---------------------------------------------------------------------------
  // The loop
  // ---------------------------------------------------------------------------

  /** The states an operation went through: one entry before each attempt, one after. */
  ghost predicate IsTrace<S, T>(op: S -> (S, Result<T, VibeError>), trace: seq<S>, attempts: nat) {
    |trace| == attempts + 1 && forall k :: 0 <= k < attempts ==> trace[k + 1] == op(trace[k]).0
  }

  /** Runs `op`, retrying transient errors only: every attempt before the last failed with
      an error worth retrying, and the last one succeeded, failed for good, or used up
      the attempts. */
  method WithRetry<S, T>(op: S -> (S, Result<T, VibeError>), policy: Policy, s: S)
    returns (s': S, r: Result<T, VibeError>, attempts: nat, ghost trace: seq<S>)
    ensures 1 <= attempts && (attempts <= policy.maxAttempts || attempts == 1)
    ensures IsTrace(op, trace, attempts) && trace[0] == s && trace[attempts] == s'
    ensures r == op(trace[attempts - 1]).1
    ensures forall k :: 0 <= k < attempts - 1 ==> op(trace[k]).1.Err? && Transient(op(trace[k]).1.error)
    ensures r.Ok? || !Transient(r.error) || attempts >= policy.maxAttempts
  {
    s', attempts, trace := s, 0, [s];
    while true
      invariant IsTrace(op, trace, attempts) && trace[0] == s && trace[attempts] == s'
      invariant attempts == 0 || attempts < policy.maxAttempts
      invariant forall k :: 0 <= k < attempts ==> op(trace[k]).1.Err? && Transient(op(trace[k]).1.error)
      decreases policy.maxAttempts + 1 - attempts
    {
      var (next, reply) := op(s');
      s', r := next, reply;
      attempts, trace := attempts + 1, trace + [next];
      if r.Ok? || !policy.ShouldRetry(r.error, attempts) {
        return;
      }
    }
  }

  // ---------------------------------------------------------------------------
  // Around a billable launch
  // ---------------------------------------------------------------------------

  /** What the network does to one attempt. */
  datatype Luck = Fine | RequestLost | ReplyLost | Busy(status: int)

  datatype Line = Line(platform: P.State, luck: seq<Luck>)

  /** One attempt at a launch over an unreliable network; past the script it is reliable. */
  function Attempt(c: P.Config, b: Body, line: Line): (Line, Result<LaunchReply, VibeError>) {
    var rest := if line.luck == [] then [] else line.luck[1..];
    var luck := if line.luck == [] then Fine else line.luck[0];
    match luck
    case RequestLost => (line.(luck := rest), Err(Network))
    case Busy(status) => (line.(luck := rest), Err(Api(status, "busy")))
    case Fine =>
      var (platform, reply) := P.Generate(c, line.platform, b);
      (Line(platform, rest), reply)
    case ReplyLost =>
      var (platform, _) := P.Generate(c, line.platform, b);
      (Line(platform, rest), Err(Network))
  }

  /** After `k` attempts: untouched or as one launch leaves it, and an accepted reply is
      that launch's. */
  ghost predicate ChargedOnce(c: P.Config, b: Body, trace: seq<Line>, k: nat)
    requires k < |trace|
  {
    var once := P.Generate(c, trace[0].platform, b);
    && (trace[k].platform == trace[0].platform || trace[k].platform == once.0)
    && (k > 0 && Attempt(c, b, trace[k - 1]).1.Ok? ==>
          trace[k].platform == once.0 && Attempt(c, b, trace[k - 1]).1 == once.1)
  }

  lemma AttemptCharges(c: P.Config, b: Body, trace: seq<Line>, k: nat)
    requires k + 1 < |trace| && trace[k + 1] == Attempt(c, b, trace[k]).0 && ChargedOnce(c, b, trace, k)
    ensures ChargedOnce(c, b, trace, k + 1)
  {
    AgainIsFree(c, trace[0].platform, b);
  }

  /** However the network behaves, the platform is either untouched or in the state one
      launch leaves, and an accepted reply is the reply of that one launch. */
  lemma {:induction false} AttemptsChargeOnce(c: P.Config, b: Body, trace: seq<Line>, attempts: nat, k: nat)
    requires IsTrace((line: Line) => Attempt(c, b, line), trace, attempts) && k <= attempts
    ensures ChargedOnce(c, b, trace, k)
  {
    if k > 0 {
      var op := (line: Line) => Attempt(c, b, line);
      AttemptsChargeOnce(c, b, trace, attempts, k - 1);
      assert trace[k] == op(trace[k - 1]).0;
      AttemptCharges(c, b, trace, k - 1);
    }
  }

  /** A second launch of the same body changes nothing and answers the same. */
  lemma AgainIsFree(c: P.Config, s: P.State, b: Body)
    ensures P.Generate(c, P.Generate(c, s, b).0, b) == (P.Generate(c, s, b).0, P.Generate(c, s, b).1)
  {
  }

  /** A launch under retry, whatever the network does: at most one charge, and a reply
      that comes through is the true one. */
  method LaunchWithRetry(c: P.Config, b: Body, policy: Policy, platform: P.State, luck: seq<Luck>)
    returns (line: Line, r: Result<LaunchReply, VibeError>)
    ensures line.platform == platform || line.platform == P.Generate(c, platform, b).0
    ensures r.Ok? ==> (line.platform, r) == P.Generate(c, platform, b)
  {
    var attempts;
    ghost var trace;
    line, r, attempts, trace := WithRetry((l: Line) => Attempt(c, b, l), policy, Line(platform, luck));
    AttemptsChargeOnce(c, b, trace, attempts, attempts);
  }
}
