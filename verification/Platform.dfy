/** The simulated platform: charges, replays and refunds.

    Balances are whole kopecks. What the catalogue says about a body (price, billing
    mode, whether the provider will fail) is a parameter of the model. */
module Platform {
  import opened Money
  import opened Domain

  datatype Quote = Quote(
    reserve: nat, tokenBilled: bool, fails: bool, longVoiceover: bool, text: Option<string>)

  datatype Config = Config(
    dailyLimit: int, pollsBeforeDone: nat, quote: Body -> Result<Quote, VibeError>)

  /** A launched generation or long voiceover. */
  datatype Record = Record(cost: nat, fails: bool, refunded: bool)

  datatype State = State(
    balance: int, spentToday: int, generations: map<nat, Record>, voiceovers: map<nat, Record>,
    replies: map<Key, LaunchReply>, polls: map<nat, nat>, nextId: nat)

  function Fresh(balance: int, spentToday: int): State {
    State(balance, spentToday, map[], map[], map[], map[], 5811)
  }

  /** Token-billed models are charged 60% of the reserve, everything else its price. */
  function ChargeOf(q: Quote): (cost: nat)
    ensures cost <= q.reserve
    ensures !q.tokenBilled ==> cost == q.reserve
    ensures q.tokenBilled ==> -5 <= 6 * q.reserve - 10 * cost <= 5
  {
    RoundingBelow(6 * q.reserve, 10, q.reserve);
    RoundingAbove(6 * q.reserve, 10, 0);
    if q.tokenBilled then RoundHalfEven(6 * q.reserve, 10) else q.reserve
  }

  function Rubles(kopecks: int): Amount {
    kopecks * KOPECK
  }

  function Plain(phase: Phase, cost: Option<Amount>): Payload {
    Payload(phase, cost, false, None, None, None, None, None)
  }

  function Generate(c: Config, s: State, b: Body): (State, Result<LaunchReply, VibeError>) {
    if b.key == NoKey then (s, Err(Api(422, "validation_failed")))
    else if b.key in s.replies then (s, Ok(s.replies[b.key]))
    else
      var quoted := c.quote(b);
      if quoted.Err? then (s, Err(quoted.error))
      else
        var q := quoted.value;
        if q.reserve > s.balance then (s, Err(Api(402, "insufficient_balance")))
        else if s.spentToday + q.reserve > c.dailyLimit then (s, Err(Api(429, "daily_spend_limit_exceeded")))
        else Charge(s, b.key, q)
  }

  function Charge(s: State, key: Key, q: Quote): (State, Result<LaunchReply, VibeError>) {
    var cost := ChargeOf(q);
    var paid := s.(balance := s.balance - cost, spentToday := s.spentToday + cost);
    var record := Record(cost, q.fails, false);
    if q.longVoiceover then
      // The generation number drawn first is skipped; the voiceover takes the next one.
      var id := s.nextId + 1;
      var reply := LaunchReply(None, None, Some(id), true, Plain(Working, Some(Rubles(cost))));
      (paid.(voiceovers := s.voiceovers[id := record], replies := s.replies[key := reply], nextId := id + 1), Ok(reply))
    else
      var id := s.nextId;
      var done := q.text.Some? && !q.fails;
      var payload := Plain(if done then Success else Working, Some(Rubles(cost)))
                     .(text := if done then q.text else None);
      var reply := LaunchReply(Some(id), None, None, false, payload);
      (paid.(generations := s.generations[id := record], replies := s.replies[key := reply], nextId := id + 1),
          Ok(reply))
  }

  function Polls(s: State, id: nat): nat {
    if id in s.polls then s.polls[id] else 0
  }

  /** Money back to the account, at most once per record. */
  function Refunded(s: State, r: Record): State {
    if r.refunded then s
    else s.(balance := s.balance + r.cost, spentToday := s.spentToday - r.cost)
  }

  function VerdictOn(r: Record): Payload {
    if r.fails then Plain(Failure, Some(0)).(refunded := true, message := Some("refunded"))
    else Plain(Success, Some(Rubles(r.cost)))
  }

  function GenerationStatus(c: Config, s: State, id: nat): (State, Result<Payload, VibeError>) {
    if id !in s.generations then (s, Err(Api(404, "not_found")))
    else
      var r := s.generations[id];
      var asked := s.(polls := s.polls[id := Polls(s, id) + 1]);
      if Polls(s, id) < c.pollsBeforeDone then (asked, Ok(Plain(Working, Some(Rubles(r.cost)))))
      else if r.fails then
        (Refunded(asked, r).(generations := s.generations[id := r.(refunded := true)]), Ok(VerdictOn(r)))
      else (asked, Ok(VerdictOn(r)))
  }

  function VoiceoverStatus(c: Config, s: State, id: nat): (State, Result<Payload, VibeError>) {
    if id !in s.voiceovers then (s, Err(Api(404, "not_found")))
    else
      var r := s.voiceovers[id];
      var asked := s.(polls := s.polls[id := Polls(s, id) + 1]);
      if Polls(s, id) < c.pollsBeforeDone then (asked, Ok(Plain(Working, None)))
      else if r.fails then
        (Refunded(asked, r).(voiceovers := s.voiceovers[id := r.(refunded := true)]), Ok(VerdictOn(r)))
      else (asked, Ok(VerdictOn(r)))
  }

  // ---------------------------------------------------------------------------
  // Conservation over every sequence of calls
  // ---------------------------------------------------------------------------

  function Kept(m: map<nat, Record>, id: nat): nat {
    if id in m && !m[id].refunded then m[id].cost else 0
  }

  /** Charges not refunded, over all identifiers below `n`. */
  function Unrefunded(s: State, n: nat): nat {
    if n == 0 then 0 else Unrefunded(s, n - 1) + Kept(s.generations, n - 1) + Kept(s.voiceovers, n - 1)
  }

  ghost predicate Numbered(s: State) {
    && (forall id :: id in s.generations ==> id < s.nextId)
    && (forall id :: id in s.voiceovers ==> id < s.nextId && id !in s.generations)
  }

  /** The books of the platform, relative to the figures it was opened with. */
  ghost predicate Books(c: Config, s: State, balance: int, spentToday: int) {
    && Numbered(s)
    && s.balance == balance - Unrefunded(s, s.nextId)
    && s.spentToday == spentToday + Unrefunded(s, s.nextId)
    && s.balance >= 0
    && s.spentToday <= c.dailyLimit
  }

  lemma {:induction false} UnrefundedAbove(s: State, n: nat)
    requires Numbered(s) && n >= s.nextId
    ensures Unrefunded(s, n) == Unrefunded(s, s.nextId)
  {
    if n > s.nextId {
      UnrefundedAbove(s, n - 1);
    }
  }

  /** Changing one record moves the total by that record's change alone. */
  lemma {:induction false} UnrefundedChange(s: State, t: State, id: nat, n: nat)
    requires forall k :: k != id ==>
               Kept(s.generations, k) == Kept(t.generations, k) && Kept(s.voiceovers, k) == Kept(t.voiceovers, k)
    ensures Unrefunded(t, n) - Unrefunded(s, n) ==
            if id >= n then 0
            else Kept(t.generations, id) + Kept(t.voiceovers, id) - Kept(s.generations, id) - Kept(s.voiceovers, id)
  {
    if n > 0 {
      UnrefundedChange(s, t, id, n - 1);
    }
  }

  datatype Call = CallGenerate(body: Body) | CallGeneration(id: nat) | CallVoiceover(id: nat)

  function Serve(c: Config, s: State, call: Call): State {
    match call
    case CallGenerate(b) => Generate(c, s, b).0
    case CallGeneration(id) => GenerationStatus(c, s, id).0
    case CallVoiceover(id) => VoiceoverStatus(c, s, id).0
  }

  function ServeAll(c: Config, s: State, calls: seq<Call>): State {
    if calls == [] then s else Serve(c, ServeAll(c, s, calls[..|calls| - 1]), calls[|calls| - 1])
  }

  lemma ChargeKeepsBooks(c: Config, s: State, key: Key, q: Quote, balance: int, spentToday: int)
    requires Books(c, s, balance, spentToday)
    requires q.reserve <= s.balance && s.spentToday + q.reserve <= c.dailyLimit
    ensures Books(c, Charge(s, key, q).0, balance, spentToday)
  {
    var t := Charge(s, key, q).0;
    var id := if q.longVoiceover then s.nextId + 1 else s.nextId;
    UnrefundedAbove(s, id + 1);
    UnrefundedChange(s, t, id, id + 1);
  }

  /** A status read moves the figures only by what its one record gives back. */
  lemma StatusMoves(c: Config, s: State, call: Call, id: nat)
    requires Numbered(s) && (call == CallGeneration(id) || call == CallVoiceover(id))
    ensures var t := Serve(c, s, call);
            && Numbered(t) && t.nextId == s.nextId && (t != s ==> id < s.nextId)
            && (forall k :: k != id ==>
                  Kept(s.generations, k) == Kept(t.generations, k) && Kept(s.voiceovers, k) == Kept(t.voiceovers, k))
            && var kept, left := Kept(s.generations, id) + Kept(s.voiceovers, id),
                                 Kept(t.generations, id) + Kept(t.voiceovers, id);
               var back := kept - left;
            && back >= 0 && t.balance == s.balance + back && t.spentToday == s.spentToday - back
  {
  }

  lemma StatusKeepsBooks(c: Config, s: State, call: Call, id: nat, balance: int, spentToday: int)
    requires Books(c, s, balance, spentToday) && (call == CallGeneration(id) || call == CallVoiceover(id))
    ensures Books(c, Serve(c, s, call), balance, spentToday)
  {
    StatusMoves(c, s, call, id);
    UnrefundedChange(s, Serve(c, s, call), id, s.nextId);
  }

  lemma ServeKeepsBooks(c: Config, s: State, call: Call, balance: int, spentToday: int)
    requires Books(c, s, balance, spentToday)
    ensures Books(c, Serve(c, s, call), balance, spentToday)
  {
    var t := Serve(c, s, call);
    match call {
      case CallGenerate(b) =>
        if t != s {
          ChargeKeepsBooks(c, s, b.key, c.quote(b).value, balance, spentToday);
        }
      case CallGeneration(id) => StatusKeepsBooks(c, s, call, id, balance, spentToday);
      case CallVoiceover(id) => StatusKeepsBooks(c, s, call, id, balance, spentToday);
    }
  }

  /** For every sequence of calls: the balance is the opening balance less the charges
      not refunded, it never goes below zero, and the day's spend keeps its limit. */
  lemma {:induction false} PlatformConserves(c: Config, balance: int, spentToday: int, calls: seq<Call>)
    requires balance >= 0 && spentToday <= c.dailyLimit
    ensures Books(c, ServeAll(c, Fresh(balance, spentToday), calls), balance, spentToday)
  {
    if calls == [] {
      UnrefundedChange(Fresh(balance, spentToday), Fresh(balance, spentToday), 0, 5811);
      NothingCharged(Fresh(balance, spentToday), 5811);
    } else {
      var n := |calls| - 1;
      PlatformConserves(c, balance, spentToday, calls[..n]);
      ServeKeepsBooks(c, ServeAll(c, Fresh(balance, spentToday), calls[..n]), calls[n], balance, spentToday);
    }
  }

  lemma {:induction false} NothingCharged(s: State, n: nat)
    requires s.generations == map[] && s.voiceovers == map[]
    ensures Unrefunded(s, n) == 0
  {
    if n > 0 {
      NothingCharged(s, n - 1);
    }
  }

  /** Whether serving `call` in `s` pays record `id` back. */
  predicate PaysBack(c: Config, s: State, call: Call, id: nat) {
    var t := Serve(c, s, call);
    || (id in s.generations && id in t.generations && !s.generations[id].refunded && t.generations[id].refunded)
    || (id in s.voiceovers && id in t.voiceovers && !s.voiceovers[id].refunded && t.voiceovers[id].refunded)
  }

  function Paybacks(c: Config, s: State, calls: seq<Call>, id: nat): nat {
    if calls == [] then 0
    else
      var n := |calls| - 1;
      Paybacks(c, s, calls[..n], id) + if PaysBack(c, ServeAll(c, s, calls[..n]), calls[n], id) then 1 else 0
  }

  predicate IsRefunded(s: State, id: nat) {
    (id in s.generations && s.generations[id].refunded) || (id in s.voiceovers && s.voiceovers[id].refunded)
  }

  /** One record's refund mark goes up at most once, with the call that pays it back. */
  lemma PaybackMarks(c: Config, s: State, call: Call, id: nat)
    requires Numbered(s)
    ensures var t := Serve(c, s, call);
            (if PaysBack(c, s, call, id) then 1 else 0) + (if IsRefunded(s, id) then 1 else 0) ==
            if IsRefunded(t, id) then 1 else 0
  {
  }

  /** Only a failed record is marked. */
  ghost predicate OnlyFailedRefunded(s: State, id: nat) {
    && (id in s.generations && s.generations[id].refunded ==> s.generations[id].fails)
    && (id in s.voiceovers && s.voiceovers[id].refunded ==> s.voiceovers[id].fails)
  }

  lemma ServeRefundsFailures(c: Config, s: State, call: Call, id: nat)
    requires OnlyFailedRefunded(s, id)
    ensures OnlyFailedRefunded(Serve(c, s, call), id)
  {
  }

  /** Nothing is refunded twice, and only a failed record is refunded at all. */
  lemma {:induction false} RefundedAtMostOnce(c: Config, balance: int, spentToday: int, calls: seq<Call>, id: nat)
    requires balance >= 0 && spentToday <= c.dailyLimit
    ensures var s := ServeAll(c, Fresh(balance, spentToday), calls);
            && Paybacks(c, Fresh(balance, spentToday), calls, id) == (if IsRefunded(s, id) then 1 else 0)
            && OnlyFailedRefunded(s, id)
  {
    if calls != [] {
      var n := |calls| - 1;
      RefundedAtMostOnce(c, balance, spentToday, calls[..n], id);
      PlatformConserves(c, balance, spentToday, calls[..n]);
      var before := ServeAll(c, Fresh(balance, spentToday), calls[..n]);
      PaybackMarks(c, before, calls[n], id);
      ServeRefundsFailures(c, before, calls[n], id);
    }
  }

  // ---------------------------------------------------------------------------
  // Replay
  // ---------------------------------------------------------------------------

  /** Re-sending a launch that succeeded returns the identical reply and changes
      nothing, whatever calls came between: a lost reply can be asked for again. */
  lemma {:induction false} ReplayIsFree(c: Config, s: State, b: Body, between: seq<Call>)
    requires Generate(c, s, b).1.Ok?
    ensures var t := ServeAll(c, Generate(c, s, b).0, between);
            Generate(c, t, b) == (t, Generate(c, s, b).1)
  {
    ReplyIsKept(c, Generate(c, s, b).0, b.key, between);
  }

  lemma {:induction false} ReplyIsKept(c: Config, s: State, key: Key, calls: seq<Call>)
    requires key in s.replies
    ensures key in ServeAll(c, s, calls).replies && ServeAll(c, s, calls).replies[key] == s.replies[key]
  {
    if calls != [] {
      ReplyIsKept(c, s, key, calls[..|calls| - 1]);
    }
  }

  // ---------------------------------------------------------------------------
  // The stateful client
  // ---------------------------------------------------------------------------

  class MockClient {
    const config: Config
    var balance: int
    var spentToday: int
    var generations: map<nat, Record>
    var voiceovers: map<nat, Record>
    var replies: map<Key, LaunchReply>
    var polls: map<nat, nat>
    var nextId: nat

    constructor (config: Config, balance: int, spentToday: int)
      ensures this.config == config
      ensures Current() == Fresh(balance, spentToday)
    {
      this.config := config;
      this.balance, this.spentToday := balance, spentToday;
      generations, voiceovers, replies, polls := map[], map[], map[], map[];
      nextId := 5811;
    }

    function Current(): State
      reads this
    {
      State(balance, spentToday, generations, voiceovers, replies, polls, nextId)
    }

    method Launch(body: Body) returns (r: Result<LaunchReply, VibeError>)
      modifies this
      ensures (Current(), r) == Generate(config, old(Current()), body)
    {
      if body.key == NoKey {
        return Err(Api(422, "validation_failed"));
      }
      if body.key in replies {
        return Ok(replies[body.key]);
      }
      var quoted := config.quote(body);
      if quoted.Err? {
        return Err(quoted.error);
      }
      var q := quoted.value;
      var cost := ChargeOf(q);
      if q.reserve > balance {
        return Err(Api(402, "insufficient_balance"));
      }
      if spentToday + q.reserve > config.dailyLimit {
        return Err(Api(429, "daily_spend_limit_exceeded"));
      }
      balance := balance - cost;
      spentToday := spentToday + cost;
      var generationId := nextId;
      nextId := nextId + 1;
      var reply;
      if q.longVoiceover {
        var voiceoverId := nextId;
        nextId := nextId + 1;
        voiceovers := voiceovers[voiceoverId := Record(cost, q.fails, false)];
        reply := LaunchReply(None, None, Some(voiceoverId), true, Plain(Working, Some(Rubles(cost))));
      } else {
        generations := generations[generationId := Record(cost, q.fails, false)];
        var payload := Plain(Working, Some(Rubles(cost)));
        if q.text.Some? && !q.fails {
          payload := payload.(phase := Success, text := q.text);
        }
        reply := LaunchReply(Some(generationId), None, None, false, payload);
      }
      replies := replies[body.key := reply];
      return Ok(reply);
    }

    method PollGeneration(id: nat) returns (r: Result<Payload, VibeError>)
      modifies this
      ensures (Current(), r) == GenerationStatus(config, old(Current()), id)
    {
      if id !in generations {
        return Err(Api(404, "not_found"));
      }
      var record := generations[id];
      var asked := if id in polls then polls[id] else 0;
      polls := polls[id := asked + 1];
      if asked < config.pollsBeforeDone {
        return Ok(Plain(Working, Some(Rubles(record.cost))));
      }
      if record.fails {
        if !record.refunded {
          balance := balance + record.cost;
          spentToday := spentToday - record.cost;
        }
        generations := generations[id := record.(refunded := true)];
      }
      return Ok(VerdictOn(record));
    }

    method PollVoiceover(id: nat) returns (r: Result<Payload, VibeError>)
      modifies this
      ensures (Current(), r) == VoiceoverStatus(config, old(Current()), id)
    {
      if id !in voiceovers {
        return Err(Api(404, "not_found"));
      }
      var record := voiceovers[id];
      var asked := if id in polls then polls[id] else 0;
      polls := polls[id := asked + 1];
      if asked < config.pollsBeforeDone {
        return Ok(Plain(Working, None));
      }
      if record.fails {
        if !record.refunded {
          balance := balance + record.cost;
          spentToday := spentToday - record.cost;
        }
        voiceovers := voiceovers[id := record.(refunded := true)];
      }
      return Ok(VerdictOn(record));
    }
  }
}
