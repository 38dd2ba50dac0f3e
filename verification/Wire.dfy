/** The platform as its client sees it: an arbitrary state machine that answers calls.

    Nothing is assumed about the answers. A claim about every `Wire` is a claim about
    every platform, honest or not; `Books` instantiates it with the simulated one. */
module WireModel {
  import opened Domain
  import Money

  /** A launched generation, or a long voiceover, which has its own status address. */
  datatype Handle = Handle(voiceover: bool, id: Option<nat>)

  datatype EstimateBody = EstimateBody(format: Format, model: string, params: string)

  datatype Wire<!S> = Wire(
    generate: (S, Body) -> (S, Result<LaunchReply, VibeError>),
    status: (S, Handle) -> (S, Result<Payload, VibeError>),
    estimate: (S, EstimateBody) -> (S, Result<EstimatePayload, VibeError>),
    me: S -> (S, Result<Account, VibeError>),
    balance: S -> (S, Result<Option<Money.Amount>, VibeError>))


  /** What can be learnt about the account: `/me` first, `/balance` if that left the
      balance open. */
  function Snapshot<S>(wire: Wire<S>, s: S): (S, Account) {
    var (s1, me) := wire.me(s);
    var known := if me.Ok? then me.value else Account(None, None, None);
    if known.balance.Some? then (s1, known)
    else
      var (s2, balance) := wire.balance(s1);
      (s2, if balance.Ok? then known.(balance := balance.value) else known)
  }

  /** Fail-closed at the source: the balance is unknown exactly when neither call gave it,
      and nothing is made up about the day. */
  lemma UnknownStaysUnknown<S>(wire: Wire<S>, s: S)
    ensures var me := wire.me(s);
            var balance := wire.balance(me.0).1;
            var account := Snapshot(wire, s).1;
            && (account.balance.None? <==>
                  (me.1.Err? || me.1.value.balance.None?) && (balance.Err? || balance.value.None?))
            && (me.1.Ok? && me.1.value.balance.Some? ==> account.balance == me.1.value.balance)
            && ((me.1.Err? || me.1.value.balance.None?) && balance.Ok? ==> account.balance == balance.value)
            && account.dailyLimit == (if me.1.Ok? then me.1.value.dailyLimit else None)
            && account.dailySpent == (if me.1.Ok? then me.1.value.dailySpent else None)
  {
  }

  class Client<S> {
    const wire: Wire<S>
    var state: S
    /** Every `/generate` body sent so far. */
    var launches: seq<Body>

    constructor (wire: Wire<S>, state: S)
      ensures this.wire == wire && this.state == state && launches == []
    {
      this.wire := wire;
      this.state := state;
      this.launches := [];
    }

    method Generate(body: Body) returns (r: Result<LaunchReply, VibeError>)
      modifies this
      ensures (state, r) == wire.generate(old(state), body)
      ensures launches == old(launches) + [body]
    {
      var (next, reply) := wire.generate(state, body);
      state, r := next, reply;
      launches := launches + [body];
    }

    method Status(handle: Handle) returns (r: Result<Payload, VibeError>)
      modifies this`state
      ensures (state, r) == wire.status(old(state), handle)
    {
      var (next, reply) := wire.status(state, handle);
      state, r := next, reply;
    }

    method Estimate(body: EstimateBody) returns (r: Result<EstimatePayload, VibeError>)
      modifies this`state
      ensures (state, r) == wire.estimate(old(state), body)
    {
      var (next, reply) := wire.estimate(state, body);
      state, r := next, reply;
    }

    /** Best-effort account state; what cannot be read stays unknown. */
    method AccountSnapshot() returns (account: Account)
      modifies this`state
      ensures (state, account) == Snapshot(wire, old(state))
    {
      account := Account(None, None, None);
      var (next, me) := wire.me(state);
      state := next;
      if me.Ok? {
        account := me.value;
      }
      if account.balance.None? {
        var (after, balance) := wire.balance(state);
        state := after;
        if balance.Ok? {
          account := account.(balance := balance.value);
        }
      }
    }
  }
}
