/** The price recheck between a worker's claim and the first launch: fail-closed. */
module Recheck {
  import opened Money
  import opened Domain
  import opened Budget
  import opened WireModel
  import opened PlanCreation

  /** One kopeck: the drift of a price that is let through. */
  const PRICE_TOLERANCE: Amount := 100

  /** An estimate echoes the balance and the day's spending; what it does not name stays. */
  function MergeAccount(a: Account, e: EstimatePayload): Account {
    Account(Or(e.current, a.balance), Or(e.dailyLimit, a.dailyLimit), Or(e.dailyToday, a.dailySpent))
  }

  datatype Progress<S> = Progress(state: S, steps: seq<PlanStep>, account: Account, total: Amount,
      blockers: seq<Blocker>)

  function Begun<S>(state: S, account: Account): Progress<S> {
    Progress(state, [], account, 0, [])
  }

  /** What one reply says about a billable step: it blocks, or the step's new price. */
  function Judge(s: PlanStep, reply: Result<EstimatePayload, VibeError>): Result<Amount, Blocker> {
    if reply.Err? then Err(EstimateUnavailable(s.stepId, reply.error))
    else if reply.value.invalid then Err(RequestInvalid(s.stepId))
    else
      var cost := EstimatedCost(reply.value);
      if cost.None? then Err(PriceUnknown(s.stepId))
      else if cost.value - s.estimate > PRICE_TOLERANCE then Err(PriceRose(s.stepId, cost.value - s.estimate))
      else Ok(cost.value)
  }

  /** A real drop in price is taken over; a drift within the tolerance is not. */
  function Repriced(s: PlanStep, cost: Amount): PlanStep {
    if cost - s.estimate < -PRICE_TOLERANCE then s.(estimate := cost) else s
  }

  function RecheckStep<S>(wire: Wire<S>, r: Progress<S>, s: PlanStep): Progress<S> {
    if s.kind.Local? then r.(steps := r.steps + [s])
    else
      var (next, reply) := wire.estimate(r.state, AskPrice(s));
      var j := Judge(s, reply);
      if j.Err? then r.(state := next, steps := r.steps + [s], blockers := r.blockers + [j.error])
      else
        var kept := Repriced(s, j.value);
        if reply.value.beyondDailyLimit then
          r.(state := next, steps := r.steps + [kept], blockers := r.blockers + [DayLimitReached(s.stepId)])
        else
          Progress(next, r.steps + [kept], MergeAccount(r.account, reply.value), r.total + j.value, r.blockers)
  }

  function RecheckUpTo<S>(wire: Wire<S>, state: S, account: Account, steps: seq<PlanStep>, n: nat): Progress<S>
    requires n <= |steps|
  {
    if n == 0 then Begun(state, account) else RecheckStep(wire, RecheckUpTo(wire, state, account, steps, n - 1),
        steps[n - 1])
  }

  /** The checks on the sum of the re-checked prices. */
  function TotalBlockers(total: Amount, spendable: Amount, account: Account): seq<Blocker> {
    (if total > spendable then [TotalOverEnvelope] else []) +
    (if account.balance.None? then [BalanceUnknown]
     else if total > account.balance.value then [TotalOverBalance]
     else if account.DailyRemaining().Some? && total > account.DailyRemaining().value then [TotalOverDay]
     else [])
  }

  function Rechecked<S>(wire: Wire<S>, state: S, account: Account, steps: seq<PlanStep>,
                        spendable: Amount): Progress<S> {
    var r := RecheckUpTo(wire, state, account, steps, |steps|);
    r.(blockers := r.blockers + TotalBlockers(r.total, spendable, r.account))
  }

  // ---------------------------------------------------------------------------
  // Exactly when a job is let through
  // ---------------------------------------------------------------------------

  /** What the platform answers when the recheck asks about step `k`. */
  function ReplyAt<S>(wire: Wire<S>, state: S, account: Account, steps: seq<PlanStep>,
                      k: nat): Result<EstimatePayload, VibeError>
    requires k < |steps|
  {
    var s := steps[k];
    wire.estimate(RecheckUpTo(wire, state, account, steps, k).state, EstimateBody(s.format, s.model, s.params)).1
  }

  /** Priced, valid, inside the day's limit and at most one kopeck above the plan. */
  predicate Acceptable(s: PlanStep, reply: Result<EstimatePayload, VibeError>) {
    s.kind.Local? ||
    (&& reply.Ok? && !reply.value.invalid && !reply.value.beyondDailyLimit
     && EstimatedCost(reply.value).Some? && EstimatedCost(reply.value).value <= s.estimate + PRICE_TOLERANCE)
  }

  lemma AcceptableMeans(s: PlanStep, reply: Result<EstimatePayload, VibeError>)
    ensures Acceptable(s, reply) <==>
            || s.kind == Local
            || (&& reply.Ok? && !reply.value.invalid && !reply.value.beyondDailyLimit
                && exists price :: NamesPrice(reply.value, price) && price <= s.estimate + KOPECK)
    ensures s.kind == Generation && Acceptable(s, reply) ==> NamesPrice(reply.value, NewPrice(s, reply))
    ensures s.kind == Local ==> NewPrice(s, reply) == 0
  {
    if reply.Ok? {
      forall price ensures NamesPrice(reply.value, price) <==> EstimatedCost(reply.value) == Some(price) {
        CostIsNamed(reply.value, price);
      }
    }
  }

  function NewPrice(s: PlanStep, reply: Result<EstimatePayload, VibeError>): Amount {
    if s.kind.Local? || reply.Err? then 0 else GetOr(EstimatedCost(reply.value), 0)
  }

  function NewPrices<S>(wire: Wire<S>, state: S, account: Account, steps: seq<PlanStep>, n: nat): (ps: seq<Amount>)
    requires n <= |steps|
    ensures |ps| == n
  {
    seq(n, k requires 0 <= k < n => NewPrice(steps[k], ReplyAt(wire, state, account, steps, k)))
  }

  ghost predicate AllAcceptable<S>(wire: Wire<S>, state: S, account: Account, steps: seq<PlanStep>, n: nat)
    requires n <= |steps|
  {
    forall k :: 0 <= k < n ==> Acceptable(steps[k], ReplyAt(wire, state, account, steps, k))
  }

  /** The figures the recheck ends with. */
  ghost predicate Tallied<S>(wire: Wire<S>, state: S, account: Account, steps: seq<PlanStep>, n: nat)
    requires n <= |steps|
  {
    var r := RecheckUpTo(wire, state, account, steps, n);
    && (r.blockers == [] <==> AllAcceptable(wire, state, account, steps, n))
    && (r.blockers == [] ==> r.total == Sum(NewPrices(wire, state, account, steps, n)))
  }

  lemma TallyNone<S>(wire: Wire<S>, state: S, account: Account, steps: seq<PlanStep>)
    ensures Tallied(wire, state, account, steps, 0)
  {
    assert NewPrices(wire, state, account, steps, 0) == [];
  }

  /** One step adds a blocker exactly if it is not acceptable, and else its new price. */
  lemma StepTallies<S>(wire: Wire<S>, r: Progress<S>, s: PlanStep)
    ensures var reply, next := wire.estimate(r.state, AskPrice(s)).1, RecheckStep(wire, r, s);
            && (next.blockers == [] <==> r.blockers == [] && Acceptable(s, reply))
            && (next.blockers == [] ==> next.total == r.total + NewPrice(s, reply))
  {
  }

  lemma PricesGrow<S>(wire: Wire<S>, state: S, account: Account, steps: seq<PlanStep>, n: nat)
    requires n < |steps|
    ensures Sum(NewPrices(wire, state, account, steps, n + 1)) ==
            Sum(NewPrices(wire, state, account, steps, n)) +
            NewPrice(steps[n], ReplyAt(wire, state, account, steps, n))
  {
    var ps := NewPrices(wire, state, account, steps, n + 1);
    assert ps[..n] == NewPrices(wire, state, account, steps, n);
  }

  lemma AcceptanceGrows<S>(wire: Wire<S>, state: S, account: Account, steps: seq<PlanStep>, n: nat)
    requires n < |steps|
    ensures AllAcceptable(wire, state, account, steps, n + 1) <==>
            AllAcceptable(wire, state, account, steps, n)
            && Acceptable(steps[n], ReplyAt(wire, state, account, steps, n))
  {
  }

  lemma TallyOne<S>(wire: Wire<S>, state: S, account: Account, steps: seq<PlanStep>, n: nat)
    requires n < |steps| && Tallied(wire, state, account, steps, n)
    ensures Tallied(wire, state, account, steps, n + 1)
  {
    StepTallies(wire, RecheckUpTo(wire, state, account, steps, n), steps[n]);
    PricesGrow(wire, state, account, steps, n);
    AcceptanceGrows(wire, state, account, steps, n);
  }

  lemma {:induction false} Tally<S>(wire: Wire<S>, state: S, account: Account, steps: seq<PlanStep>, n: nat)
    requires n <= |steps|
    ensures Tallied(wire, state, account, steps, n)
  {
    if n == 0 {
      TallyNone(wire, state, account, steps);
    } else {
      Tally(wire, state, account, steps, n - 1);
      TallyOne(wire, state, account, steps, n - 1);
    }
  }

  /** Fail-closed, both ways: the recheck raises no blocker if and only if every billable
      step is acceptable and the sum of the new prices fits the envelope, a known
      balance and what is left of the day. */
  lemma RecheckIsExact<S>(wire: Wire<S>, state: S, account: Account, steps: seq<PlanStep>, spendable: Amount)
    ensures var r := Rechecked(wire, state, account, steps, spendable);
            var total := Sum(NewPrices(wire, state, account, steps, |steps|));
            r.blockers == [] <==>
            && AllAcceptable(wire, state, account, steps, |steps|)
            && total <= spendable && AccountCovers(Some(r.account), total)
  {
    Tally(wire, state, account, steps, |steps|);
  }

  // ---------------------------------------------------------------------------
  // What the recheck knows and says
  // ---------------------------------------------------------------------------

  function Current(e: EstimatePayload): Option<Amount> { e.current }

  function Limit(e: EstimatePayload): Option<Amount> { e.dailyLimit }

  function Today(e: EstimatePayload): Option<Amount> { e.dailyToday }

  /** The figure step `n` names, if its reply is heeded. */
  ghost function EchoOf<S>(wire: Wire<S>, state: S, account: Account, steps: seq<PlanStep>, n: nat,
                           figure: EstimatePayload -> Option<Amount>): Option<Amount>
    requires n < |steps|
  {
    var reply := ReplyAt(wire, state, account, steps, n);
    if steps[n].kind == Generation && Acceptable(steps[n], reply) && reply.Ok? then figure(reply.value) else None
  }

  /** What the replies say about one figure, step by step; replies that block are not
      heeded. */
  ghost function Echoes<S>(wire: Wire<S>, state: S, account: Account, steps: seq<PlanStep>, n: nat,
                           figure: EstimatePayload -> Option<Amount>): (es: seq<Option<Amount>>)
    requires n <= |steps|
    ensures |es| == n
  {
    seq(n, k requires 0 <= k < n => EchoOf(wire, state, account, steps, k, figure))
  }

  /** `value` is the last one named, or what was known before if none is. */
  ghost predicate LastNamed(value: Option<Amount>, before: Option<Amount>, named: seq<Option<Amount>>) {
    || (value == before && forall k :: 0 <= k < |named| ==> named[k] == None)
    || exists k :: 0 <= k < |named| && named[k].Some? && value == named[k]
                   && forall j :: k < j < |named| ==> named[j] == None
  }

  lemma NamedOnceMore(value: Option<Amount>, before: Option<Amount>, named: seq<Option<Amount>>, next: Option<Amount>)
    requires LastNamed(value, before, named)
    ensures LastNamed(if next.Some? then next else value, before, named + [next])
  {
    var longer := named + [next];
    if next.Some? {
      assert longer[|named|] == next;
    } else if k :| 0 <= k < |named| && named[k].Some? && value == named[k]
                   && forall j :: k < j < |named| ==> named[j] == None {
      assert longer[k] == named[k];
    }
  }

  lemma FigureCounts<S>(wire: Wire<S>, state: S, account: Account, steps: seq<PlanStep>, n: nat,
                        figure: EstimatePayload -> Option<Amount>, value: Option<Amount>, before: Option<Amount>)
    requires n < |steps| && LastNamed(value, before, Echoes(wire, state, account, steps, n, figure))
    ensures LastNamed(Or(EchoOf(wire, state, account, steps, n, figure), value), before,
                      Echoes(wire, state, account, steps, n + 1, figure))
  {
    var next := EchoOf(wire, state, account, steps, n, figure);
    assert Echoes(wire, state, account, steps, n + 1, figure) ==
           Echoes(wire, state, account, steps, n, figure) + [next];
    NamedOnceMore(value, before, Echoes(wire, state, account, steps, n, figure), next);
  }

  lemma StepMerges<S>(wire: Wire<S>, state: S, account: Account, steps: seq<PlanStep>, n: nat)
    requires n < |steps|
    ensures var a, b := RecheckUpTo(wire, state, account, steps, n).account,
                        RecheckUpTo(wire, state, account, steps, n + 1).account;
            && b.balance == Or(EchoOf(wire, state, account, steps, n, Current), a.balance)
            && b.dailyLimit == Or(EchoOf(wire, state, account, steps, n, Limit), a.dailyLimit)
            && b.dailySpent == Or(EchoOf(wire, state, account, steps, n, Today), a.dailySpent)
  {
  }

  /** The account the recheck goes by after `n` steps: of balance, limit and the day's
      spending, each the last one an acceptable reply named, or what was known at the start. */
  ghost predicate GoesByLastEcho<S>(wire: Wire<S>, state: S, account: Account, steps: seq<PlanStep>, n: nat)
    requires n <= |steps|
  {
    var known := RecheckUpTo(wire, state, account, steps, n).account;
    && LastNamed(known.balance, account.balance, Echoes(wire, state, account, steps, n, Current))
    && LastNamed(known.dailyLimit, account.dailyLimit, Echoes(wire, state, account, steps, n, Limit))
    && LastNamed(known.dailySpent, account.dailySpent, Echoes(wire, state, account, steps, n, Today))
  }

  lemma EchoTurn<S>(wire: Wire<S>, state: S, account: Account, steps: seq<PlanStep>, n: nat)
    requires n < |steps| && GoesByLastEcho(wire, state, account, steps, n)
    ensures GoesByLastEcho(wire, state, account, steps, n + 1)
  {
    var known := RecheckUpTo(wire, state, account, steps, n).account;
    StepMerges(wire, state, account, steps, n);
    FigureCounts(wire, state, account, steps, n, Current, known.balance, account.balance);
    FigureCounts(wire, state, account, steps, n, Limit, known.dailyLimit, account.dailyLimit);
    FigureCounts(wire, state, account, steps, n, Today, known.dailySpent, account.dailySpent);
  }

  lemma {:induction false} LastEchoCounts<S>(wire: Wire<S>, state: S, account: Account, steps: seq<PlanStep>, n: nat)
    requires n <= |steps|
    ensures GoesByLastEcho(wire, state, account, steps, n)
  {
    if n > 0 {
      LastEchoCounts(wire, state, account, steps, n - 1);
      EchoTurn(wire, state, account, steps, n - 1);
    }
  }

  /** Objection to a step: the first thing that is wrong with the platform's answer. */
  ghost predicate ObjectsTo(b: Blocker, s: PlanStep, reply: Result<EstimatePayload, VibeError>) {
    if reply.Err? then b == EstimateUnavailable(s.stepId, reply.error)
    else if reply.value.invalid then b == RequestInvalid(s.stepId)
    else if !(exists price :: NamesPrice(reply.value, price)) then b == PriceUnknown(s.stepId)
    else if b.PriceRose? then b.step == s.stepId && b.rise > KOPECK && NamesPrice(reply.value, s.estimate + b.rise)
    else
      b == DayLimitReached(s.stepId) && reply.value.beyondDailyLimit
      && exists price :: NamesPrice(reply.value, price) && price <= s.estimate + KOPECK
  }

  lemma StepObjects<S>(wire: Wire<S>, r: Progress<S>, s: PlanStep)
    ensures var reply, next := wire.estimate(r.state, AskPrice(s)).1, RecheckStep(wire, r, s);
            if Acceptable(s, reply) then next.blockers == r.blockers
            else exists b :: ObjectsTo(b, s, reply) && next.blockers == r.blockers + [b]
  {
    var reply, next := wire.estimate(r.state, AskPrice(s)).1, RecheckStep(wire, r, s);
    AcceptableMeans(s, reply);
    if !Acceptable(s, reply) {
      var b := next.blockers[|r.blockers|];
      if reply.Ok? {
        forall price ensures NamesPrice(reply.value, price) <==> EstimatedCost(reply.value) == Some(price) {
          CostIsNamed(reply.value, price);
        }
      }
      assert ObjectsTo(b, s, reply) && next.blockers == r.blockers + [b];
    }
  }

  /** Every step that is not acceptable is named among the blockers, with the reason. */
  lemma {:induction false} EveryObjectionIsRaised<S>(wire: Wire<S>, state: S, account: Account, steps: seq<PlanStep>,
                                                     k: nat, n: nat)
    requires k < n <= |steps| && !Acceptable(steps[k], ReplyAt(wire, state, account, steps, k))
    ensures exists b :: b in RecheckUpTo(wire, state, account, steps, n).blockers
                        && ObjectsTo(b, steps[k], ReplyAt(wire, state, account, steps, k))
  {
    StepObjects(wire, RecheckUpTo(wire, state, account, steps, n - 1), steps[n - 1]);
    if k < n - 1 {
      EveryObjectionIsRaised(wire, state, account, steps, k, n - 1);
    }
  }

  /** The blockers on the sum, each exactly when its comparison fails. */
  lemma TotalBlockersMean(total: Amount, spendable: Amount, account: Account)
    ensures var bs := TotalBlockers(total, spendable, account);
            && (TotalOverEnvelope in bs <==> total > spendable)
            && (BalanceUnknown in bs <==> account.balance == None)
            && (TotalOverBalance in bs <==> account.balance.Some? && total > account.balance.value)
            && (TotalOverDay in bs <==>
                && account.balance.Some? && total <= account.balance.value
                && account.dailyLimit.Some? && total > 0
                && total + (if account.dailySpent.Some? then account.dailySpent.value else 0) >
                   account.dailyLimit.value)
  {
  }

  /** The recheck may lower a planned price and changes nothing else in the plan. */
  ghost predicate OnlyCheaper(before: seq<PlanStep>, after: seq<PlanStep>) {
    && |after| == |before|
    && forall k :: 0 <= k < |before| ==>
         after[k] == before[k].(estimate := after[k].estimate) && after[k].estimate <= before[k].estimate
  }

  lemma {:induction false} RecheckOnlyLowers<S>(wire: Wire<S>, state: S, account: Account, steps: seq<PlanStep>, n: nat)
    requires n <= |steps|
    ensures OnlyCheaper(steps[..n], RecheckUpTo(wire, state, account, steps, n).steps)
  {
    if n == 0 {
    } else {
      RecheckOnlyLowers(wire, state, account, steps, n - 1);
      var r := RecheckUpTo(wire, state, account, steps, n - 1);
      var kept := RecheckStep(wire, r, steps[n - 1]).steps;
      assert kept == r.steps + [kept[n - 1]];
    }
  }

  /** A step's price at launch is within one kopeck of what was just quoted for it. */
  ghost predicate TracksQuote<S>(wire: Wire<S>, state: S, account: Account, steps: seq<PlanStep>, n: nat, k: nat)
    requires k < n <= |steps|
  {
    var r := RecheckUpTo(wire, state, account, steps, n);
    var price := NewPrice(steps[k], ReplyAt(wire, state, account, steps, k));
    |r.steps| == n && price - PRICE_TOLERANCE <= r.steps[k].estimate <= price + PRICE_TOLERANCE
  }

  lemma QuoteTaken<S>(wire: Wire<S>, state: S, account: Account, steps: seq<PlanStep>, n: nat)
    requires n < |steps| && Acceptable(steps[n], ReplyAt(wire, state, account, steps, n)) && steps[n].kind.Generation?
    ensures TracksQuote(wire, state, account, steps, n + 1, n)
  {
    RecheckOnlyLowers(wire, state, account, steps, n);
  }

  lemma QuoteKept<S>(wire: Wire<S>, state: S, account: Account, steps: seq<PlanStep>, n: nat, k: nat)
    requires k < n < |steps| && TracksQuote(wire, state, account, steps, n, k)
    ensures TracksQuote(wire, state, account, steps, n + 1, k)
  {
  }

  lemma {:induction false} LaunchPricesTrackQuotes<S>(wire: Wire<S>, state: S, account: Account, steps: seq<PlanStep>,
                                                      n: nat, k: nat)
    requires k < n <= |steps| && Acceptable(steps[k], ReplyAt(wire, state, account, steps, k))
             && steps[k].kind.Generation?
    ensures TracksQuote(wire, state, account, steps, n, k)
  {
    if k == n - 1 {
      QuoteTaken(wire, state, account, steps, k);
    } else {
      LaunchPricesTrackQuotes(wire, state, account, steps, n - 1, k);
      QuoteKept(wire, state, account, steps, n - 1, k);
    }
  }

  /** Asks the platform about every billable step again. */
  method RecheckPrices<S>(client: Client<S>, steps: seq<PlanStep>, guard: BudgetGuard)
    returns (priced: seq<PlanStep>, blockers: seq<Blocker>)
    requires guard.margin.Valid() && guard.account.Some?
    modifies client`state, guard`account
    ensures var r := Rechecked(client.wire, old(client.state), old(guard.account).value, steps,
        Spendable(guard.budget, guard.margin));
            client.state == r.state && priced == r.steps && blockers == r.blockers && guard.account == Some(r.account)
  {
    priced, blockers := [], [];
    var total := 0;
    ghost var account := guard.account.value;
    for n := 0 to |steps|
      invariant guard.account.Some?
      invariant Progress(client.state, priced, guard.account.value, total, blockers) ==
                RecheckUpTo(client.wire, old(client.state), account, steps, n)
    {
      var s := steps[n];
      if s.kind.Local? {
        priced := priced + [s];
      } else {
        var reply := client.Estimate(AskPrice(s));
        if reply.Err? {
          blockers := blockers + [EstimateUnavailable(s.stepId, reply.error)];
        } else if reply.value.invalid {
          blockers := blockers + [RequestInvalid(s.stepId)];
        } else if EstimatedCost(reply.value).None? {
          blockers := blockers + [PriceUnknown(s.stepId)];
        } else {
          var cost := EstimatedCost(reply.value).value;
          var delta := cost - s.estimate;
          if delta > PRICE_TOLERANCE {
            blockers := blockers + [PriceRose(s.stepId, delta)];
          } else {
            if delta < -PRICE_TOLERANCE {
              s := s.(estimate := cost);
            }
            if reply.value.beyondDailyLimit {
              blockers := blockers + [DayLimitReached(s.stepId)];
            } else {
              guard.account := Some(MergeAccount(guard.account.value, reply.value));
              total := total + cost;
            }
          }
        }
        priced := priced + [s];
      }
    }
    var known := guard.account.value;
    if total > Spendable(guard.budget, guard.margin) {
      blockers := blockers + [TotalOverEnvelope];
    }
    if known.balance.None? {
      blockers := blockers + [BalanceUnknown];
    } else if total > known.balance.value {
      blockers := blockers + [TotalOverBalance];
    } else if known.DailyRemaining().Some? && total > known.DailyRemaining().value {
      blockers := blockers + [TotalOverDay];
    }
  }
}
