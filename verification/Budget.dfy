/** The budget guard: the envelope, the pre-spend checks and the running commitment. */
module Budget {
  import opened Money
  import opened Domain

  /** Sub-kopeck tolerance of the comparisons, one millionth of a ruble: a hundredth
      of an `Amount` unit. */
  predicate Within(cost: Amount, room: Amount) {
    100 * cost <= 100 * room + 1
  }

  /** The tolerance never changes the outcome of a comparison between stored amounts. */
  lemma ToleranceIsInert(cost: Amount, room: Amount)
    ensures Within(cost, room) <==> cost <= room
  {
    if cost <= room {
    } else {
      assert cost >= room + 1;
    }
  }

  /** The configured share of the budget held back, num/den in [0, 1/2). */
  datatype Margin = Margin(num: nat, den: nat) {
    predicate Valid() {
      den > 0 && 2 * num < den
    }
  }

  function MarginOf(budget: Amount, margin: Margin): Amount
    requires margin.Valid()
  {
    RoundHalfEven(budget * margin.num, margin.den)
  }

  function Spendable(budget: Amount, margin: Margin): Amount
    requires margin.Valid()
  {
    budget - MarginOf(budget, margin)
  }

  /** Every positive budget leaves a positive envelope no larger than itself; what is held
      back is the margin's share, to the nearest unit. */
  lemma EnvelopeIsProper(budget: Amount, margin: Margin)
    requires margin.Valid() && budget > 0
    ensures 0 < Spendable(budget, margin) <= budget
    ensures var held, den: int := budget - Spendable(budget, margin), margin.den;
            -den <= 2 * (budget * margin.num - held * den) <= den
  {
    HeldUnderHalf(budget, margin);
    RoundsUnderHalf(budget * margin.num, margin.den, budget);
  }

  lemma RoundsUnderHalf(num: int, den: int, budget: int)
    requires den > 0 && budget > 0 && 0 <= 2 * num < budget * den
    ensures 0 <= RoundHalfEven(num, den) < budget
  {
    RoundingAbove(num, den, 0);
    if budget == 1 {
      RoundingIsUnique(num, den, 0);
    } else {
      assert (budget - 1) * den == budget * den - den;
      assert budget * den >= 2 * den by { MulAtLeast(budget, 2, den); }
      RoundingBelow(num, den, budget - 1);
    }
  }

  lemma HeldUnderHalf(budget: Amount, margin: Margin)
    requires margin.Valid() && budget > 0
    ensures 0 <= 2 * (budget * margin.num) < budget * margin.den
  {
    MulAtLeast(margin.den, 2 * margin.num + 1, budget);
    assert (2 * margin.num + 1) * budget == 2 * (budget * margin.num) + budget;
  }

  /** The three ways a check refuses. */
  datatype Refusal = NegativeCost | OverCeiling | OverEnvelope | AccountUnknown | BalanceTooLow | DailyLimit

  /** What a guard never changes while a job runs. */
  datatype Limits = Limits(budget: Amount, spendable: Amount, account: Option<Account>)

  function Check(g: Limits, committed: Amount, cost: Amount): (r: Option<Refusal>)
    ensures r.None? <==> 0 <= cost && cost <= g.budget - committed && cost <= g.spendable - committed
  {
    ToleranceIsInert(cost, g.budget - committed);
    ToleranceIsInert(cost, g.spendable - committed);
    if cost < 0 then Some(NegativeCost)
    else if !Within(cost, g.budget - committed) then Some(OverCeiling)
    else if !Within(cost, g.spendable - committed) then Some(OverEnvelope)
    else None
  }

  /** The account is known and can pay: the balance covers the cost, and so does what the
      day's limit, if there is one, leaves after what was spent. */
  ghost predicate AccountCovers(account: Option<Account>, cost: Amount) {
    && account.Some? && account.value.balance.Some? && cost <= account.value.balance.value
    && (account.value.dailyLimit.Some? && cost > 0 ==>
          var spent := if account.value.dailySpent.Some? then account.value.dailySpent.value else 0;
          spent + cost <= account.value.dailyLimit.value)
  }

  function CheckAccount(g: Limits, cost: Amount): (r: Option<Refusal>)
    ensures r.None? <==> AccountCovers(g.account, cost)
  {
    if g.account.None? || g.account.value.balance.None? then Some(AccountUnknown)
    else
      var account := g.account.value;
      ToleranceIsInert(cost, account.balance.value);
      if !Within(cost, account.balance.value) then Some(BalanceTooLow)
      else
        var daily := account.DailyRemaining();
        if daily.Some? then
          ToleranceIsInert(cost, daily.value);
          if !Within(cost, daily.value) then Some(DailyLimit) else None
        else None
  }

  function CheckAll(g: Limits, committed: Amount, cost: Amount): Option<Refusal> {
    var first := Check(g, committed, cost);
    if first.Some? then first else CheckAccount(g, cost)
  }

  /** Before a launch the guard asks for everything at once. */
  ghost predicate MaySpend(g: Limits, committed: Amount, cost: Amount) {
    && 0 <= cost && committed + cost <= g.budget && committed + cost <= g.spendable
    && AccountCovers(g.account, cost)
  }

  /** The full check passes exactly if the cost may be spent; else it names the first thing
      in the way. */
  lemma RefusalsMean(g: Limits, committed: Amount, cost: Amount)
    ensures var r := CheckAll(g, committed, cost);
            var known := g.account.Some? && g.account.value.balance.Some?;
            && (r.None? <==> MaySpend(g, committed, cost))
            && (r == Some(NegativeCost) <==> cost < 0)
            && (r == Some(OverCeiling) <==> cost >= 0 && committed + cost > g.budget)
            && (r == Some(OverEnvelope) <==>
                cost >= 0 && committed + cost <= g.budget && committed + cost > g.spendable)
            && (r == Some(AccountUnknown) ==> !known)
            && (r == Some(BalanceTooLow) ==> known && cost > g.account.value.balance.value)
            && (r == Some(DailyLimit) ==>
                  && known && cost <= g.account.value.balance.value && g.account.value.dailyLimit.Some?
                  && cost > g.account.value.dailyLimit.value
                            - (if g.account.value.dailySpent.Some? then g.account.value.dailySpent.value else 0))
  {
    ToleranceIsInert(cost, g.budget - committed);
    ToleranceIsInert(cost, g.spendable - committed);
    if g.account.Some? && g.account.value.balance.Some? {
      ToleranceIsInert(cost, g.account.value.balance.value);
      if g.account.value.dailyLimit.Some? {
        ToleranceIsInert(cost, g.account.value.DailyRemaining().value);
      }
    }
  }

  function Released(committed: Amount, cost: Amount): Amount {
    Max(0, committed - cost)
  }

  // ---------------------------------------------------------------------------
  // Sequences of commits and releases
  // ---------------------------------------------------------------------------

  datatype GuardOp =
    | Commit(cost: Amount)
    | Release(which: nat)  // hands back one of the outstanding commitments

  datatype Ledgered = Ledgered(committed: Amount, outstanding: seq<Amount>)

  /** One call on a guard, with the commitments not yet handed back kept beside it. */
  function ApplyOp(g: Limits, s: Ledgered, op: GuardOp): Ledgered {
    match op
    case Commit(cost) =>
      if Check(g, s.committed, cost).Some? then s
      else Ledgered(s.committed + cost, s.outstanding + [cost])
    case Release(which) =>
      if which >= |s.outstanding| then s
      else Ledgered(Released(s.committed, s.outstanding[which]),
                    s.outstanding[..which] + s.outstanding[which + 1..])
  }

  function ApplyOps(g: Limits, s: Ledgered, ops: seq<GuardOp>): Ledgered {
    if ops == [] then s
    else ApplyOp(g, ApplyOps(g, s, ops[..|ops| - 1]), ops[|ops| - 1])
  }

  ghost predicate Consistent(g: Limits, s: Ledgered) {
    && s.committed == Sum(s.outstanding)
    && 0 <= s.committed <= g.spendable
    && forall i :: 0 <= i < |s.outstanding| ==> 0 <= s.outstanding[i]
  }

  lemma OpKeepsConsistent(g: Limits, s: Ledgered, op: GuardOp)
    requires Consistent(g, s)
    ensures Consistent(g, ApplyOp(g, s, op))
  {
    match op {
      case Commit(cost) =>
        SumOfConcat(s.outstanding, [cost]);
        assert [cost][..0] == [];
        assert Sum([cost]) == cost;
      case Release(which) =>
        if which < |s.outstanding| {
          SumOfRemoval(s.outstanding, which);
          SumBounds(s.outstanding, which);
        }
    }
  }

  /** Over every sequence of commits and releases, the commitment is exactly the sum of
      what is outstanding and stays inside the envelope, so the clamp at zero in a
      release never bites. */
  lemma {:induction false} CommittedIsOutstanding(g: Limits, ops: seq<GuardOp>)
    requires 0 <= g.spendable
    ensures var s := ApplyOps(g, Ledgered(0, []), ops);
            && s.committed == Sum(s.outstanding)
            && 0 <= s.committed <= g.spendable
            && (forall i :: 0 <= i < |s.outstanding| ==>
                  Released(s.committed, s.outstanding[i]) == s.committed - s.outstanding[i])
  {
    OpsKeepConsistent(g, ops);
    var s := ApplyOps(g, Ledgered(0, []), ops);
    forall i | 0 <= i < |s.outstanding|
      ensures Released(s.committed, s.outstanding[i]) == s.committed - s.outstanding[i]
    {
      SumBounds(s.outstanding, i);
    }
  }

  lemma {:induction false} OpsKeepConsistent(g: Limits, ops: seq<GuardOp>)
    requires 0 <= g.spendable
    ensures Consistent(g, ApplyOps(g, Ledgered(0, []), ops))
  {
    if ops != [] {
      var n := |ops| - 1;
      OpsKeepConsistent(g, ops[..n]);
      OpKeepsConsistent(g, ApplyOps(g, Ledgered(0, []), ops[..n]), ops[n]);
    }
  }

  /** Tracks how much of the user's budget is still safely spendable. */
  class BudgetGuard {
    const budget: Amount
    const margin: Margin
    var committed: Amount
    var account: Option<Account>

    constructor (budget: Amount, margin: Margin, account: Option<Account>)
      ensures this.budget == budget && this.margin == margin
      ensures committed == 0 && this.account == account
    {
      this.budget := budget;
      this.margin := margin;
      this.committed := 0;
      this.account := account;
    }

    function Limit(): Limits
      requires margin.Valid()
      reads this
    {
      Limits(budget, Spendable(budget, margin), account)
    }

    /** Records `cost`, or refuses and changes nothing. */
    method Commit(cost: Amount) returns (refusal: Option<Refusal>)
      requires margin.Valid()
      modifies this`committed
      ensures refusal == Check(old(Limit()), old(committed), cost)
      ensures committed == if refusal.None? then old(committed) + cost else old(committed)
    {
      refusal := Check(Limit(), committed, cost);
      if refusal.None? {
        committed := committed + cost;
      }
    }

    /** Gives budget back, for instance after an automatic refund. */
    method Release(cost: Amount)
      modifies this`committed
      ensures committed == Released(old(committed), cost)
      ensures committed == if cost <= old(committed) then old(committed) - cost else 0
    {
      committed := Max(0, committed - cost);
    }
  }
}
