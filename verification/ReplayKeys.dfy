/** The `Idempotency-Key` of the service's own endpoints: one produced answer per key,
    replayed afterwards, under any interleaving of requests. */
module ReplayKeys {
  import opened Domain

  /** Where and what a keyed request asks. The digest is injective in the body. */
  datatype Request = Request(endpoint: string, digest: string)

  datatype Answer = Answer(status: nat, body: string)

  datatype Row = Row(request: Request, answer: Option<Answer>, created: nat)

  type Table = map<string, Row>

  /** `INSERT OR IGNORE`, then the row somebody else owns, if any. */
  function ClaimIn(t: Table, key: string, q: Request, now: nat): (Table, Option<Row>) {
    if key in t then (t, Some(t[key])) else (t[key := Row(q, None, now)], None)
  }

  function CompleteIn(t: Table, key: string, a: Answer): Table {
    if key in t then t[key := t[key].(answer := Some(a))] else t
  }

  /** A stored answer is never deleted this way. */
  function ReleaseIn(t: Table, key: string): Table {
    if key in t && t[key].answer.None? then t - {key} else t
  }

  /** Retention: only answered keys, and only past their time. */
  function PurgeIn(t: Table, before: nat): Table {
    t - Expired(t, before)
  }

  function Expired(t: Table, before: nat): set<string> {
    set k | k in t && t[k].created < before && t[k].answer.Some?
  }

  datatype Refusal = InFlight | Reused

  /** What a second request with a used key is told. */
  function Replay(row: Row, q: Request): Result<Answer, Refusal> {
    if row.request != q then Err(Reused)
    else if row.answer.None? then Err(InFlight)
    else Ok(row.answer.value)
  }

  // ---------------------------------------------------------------------------
  // The store and one undisturbed request
  // ---------------------------------------------------------------------------

  datatype Reply<E> =
    | Produced(answer: Answer)
    | Replayed(answer: Answer)
    | Conflict(refusal: Refusal)
    | Raised(error: E)

  class Store {
    var rows: Table

    constructor ()
      ensures rows == map[]
    {
      rows := map[];
    }

    method Claim(key: string, q: Request, now: nat) returns (existing: Option<Row>)
      modifies this
      ensures (rows, existing) == ClaimIn(old(rows), key, q, now)
      ensures if key in old(rows) then rows == old(rows) && existing == Some(old(rows)[key])
              else rows == old(rows)[key := Row(q, None, now)] && existing == None
    {
      if key in rows {
        return Some(rows[key]);
      }
      rows := rows[key := Row(q, None, now)];
      return None;
    }

    method Complete(key: string, a: Answer)
      modifies this
      ensures rows == CompleteIn(old(rows), key, a)
      ensures rows.Keys == old(rows).Keys
      ensures forall k :: k in rows ==>
                rows[k] == if k == key then old(rows)[k].(answer := Some(a)) else old(rows)[k]
    {
      if key in rows {
        rows := rows[key := rows[key].(answer := Some(a))];
      }
    }

    method Release(key: string)
      modifies this
      ensures rows == ReleaseIn(old(rows), key)
      ensures forall k :: k in rows <==> k in old(rows) && (k != key || old(rows)[k].answer != None)
      ensures forall k :: k in rows ==> rows[k] == old(rows)[k]
    {
      if key in rows && rows[key].answer.None? {
        rows := rows - {key};
      }
    }

    method PurgeOlderThan(before: nat) returns (removed: nat)
      modifies this
      ensures rows == PurgeIn(old(rows), before)
      ensures forall k :: k in rows <==>
                          && k in old(rows)
                          && (old(rows)[k].created >= before || old(rows)[k].answer == None)
      ensures forall k :: k in rows ==> rows[k] == old(rows)[k]
      ensures removed == |old(rows)| - |rows|
    {
      var gone := Expired(rows, before);
      ghost var was := rows;
      rows := rows - gone;
      assert rows.Keys == was.Keys - gone && gone <= was.Keys;
      removed := |gone|;
    }

    /** Runs `produce` at most once per key and replays its answer afterwards. Nobody else
        touches the store meanwhile; `AnyInterleaving` below lets them. */
    method WithIdempotency<S, E>(key: string, q: Request, produce: S -> (S, Result<Answer, E>), s: S, now: nat)
      returns (s': S, reply: Reply<E>)
      modifies this
      ensures key == "" || key !in old(rows) ==>
                && s' == produce(s).0
                && reply == (if produce(s).1.Ok? then Produced(produce(s).1.value) else Raised(produce(s).1.error))
                && rows == if key == "" || produce(s).1.Err? then old(rows) else old(rows)[key := Row(q,
                    Some(produce(s).1.value), now)]
      ensures key != "" && key in old(rows) ==>
                && s' == s && rows == old(rows)
                && var row := old(rows)[key];
                && (row.request != q ==> reply == Conflict(Reused))
                && (row.request == q && row.answer.None? ==> reply == Conflict(InFlight))
                && (row.request == q && row.answer.Some? ==> reply == Replayed(row.answer.value))
    {
      if key == "" {
        var (next, r) := produce(s);
        return next, if r.Ok? then Produced(r.value) else Raised(r.error);
      }
      var existing := Claim(key, q, now);
      if existing.Some? {
        var r := Replay(existing.value, q);
        return s, if r.Ok? then Replayed(r.value) else Conflict(r.error);
      }
      var (next, r) := produce(s);
      s' := next;
      if r.Err? {
        Release(key);
        assert rows == old(rows);
        return s', Raised(r.error);
      }
      Complete(key, r.value);
      reply := Produced(r.value);
    }
  }

  // ---------------------------------------------------------------------------
  // Interleaved requests
  // ---------------------------------------------------------------------------

  type RequestId = nat

  datatype Event =
    | Started(key: string, q: Request)
    | Stored(key: string, answer: Answer)
    | Freed(key: string)
    | Purged(keys: set<string>)
    | Told(key: string, q: Request, what: Result<Answer, Refusal>)
  {
    predicate About(k: string) {
      if Purged? then k in keys else key == k
    }
  }

  /** The store, who is producing for which key, and what happened. */
  datatype State = State(table: Table, producing: map<RequestId, string>, log: seq<Event>)

  datatype Action =
    | Arrive(id: RequestId, key: string, q: Request, now: nat)
    | Finish(id: RequestId, answer: Answer)  // the answer is produced and stored
    | Refuse(id: RequestId)                  // the attempt failed; its claim is dropped
    | Die(id: RequestId)                     // the process is gone; its claim stays
    | Purge(before: nat)

  function Apply(s: State, a: Action): State {
    match a
    case Arrive(id, key, q, now) =>
      if id in s.producing then s
      else
        var (table, existing) := ClaimIn(s.table, key, q, now);
        if existing.Some? then s.(log := s.log + [Told(key, q, Replay(existing.value, q))])
        else State(table, s.producing[id := key], s.log + [Started(key, q)])
    case Finish(id, answer) =>
      if id !in s.producing then s
      else
        var key := s.producing[id];
        State(CompleteIn(s.table, key, answer), s.producing - {id}, s.log + [Stored(key, answer)])
    case Refuse(id) =>
      if id !in s.producing then s
      else
        var key := s.producing[id];
        State(ReleaseIn(s.table, key), s.producing - {id}, s.log + [Freed(key)])
    case Die(id) => s.(producing := s.producing - {id})
    case Purge(before) =>
      State(PurgeIn(s.table, before), s.producing, s.log + [Purged(Expired(s.table, before))])
  }

  function Run(actions: seq<Action>): State {
    if actions == [] then State(map[], map[], [])
    else Apply(Run(actions[..|actions| - 1]), actions[|actions| - 1])
  }

  // ---------------------------------------------------------------------------
  // The life of a key
  // ---------------------------------------------------------------------------

  datatype KeyState = Absent | Claimed(q: Request) | Answered(q: Request, answer: Answer)

  /** The four-state reading of a key; `None` is a history that must not happen. */
  function Next(k: KeyState, e: Event): Option<KeyState> {
    match e
    case Started(_, q) => if k.Absent? then Some(Claimed(q)) else None
    case Stored(_, a) => if k.Claimed? then Some(Answered(k.q, a)) else None
    case Freed(_) => if k.Claimed? then Some(Absent) else None
    case Purged(_) => if k.Answered? then Some(Absent) else None
    case Told(_, q, what) =>
      if what.Ok? then (if k == Answered(q, what.value) then Some(k) else None)
      else if what.error.InFlight? then (if k == Claimed(q) then Some(k) else None)
      else (if !k.Absent? && k.q != q then Some(k) else None)
  }

  function Life(log: seq<Event>, key: string): Option<KeyState> {
    if log == [] then Some(Absent)
    else
      var before := Life(log[..|log| - 1], key);
      var e := log[|log| - 1];
      if before.None? || !e.About(key) then before else Next(before.value, e)
  }

  function StateOf(t: Table, key: string): KeyState {
    if key !in t then Absent
    else if t[key].answer.None? then Claimed(t[key].request)
    else Answered(t[key].request, t[key].answer.value)
  }

  /** Whoever is producing holds the pending claim of its key, alone. */
  ghost predicate ProducersHoldClaims(s: State) {
    && (forall id :: id in s.producing ==> StateOf(s.table, s.producing[id]).Claimed?)
    && (forall id, other :: id in s.producing && other in s.producing && s.producing[id] == s.producing[other] ==>
          id == other)
  }

  ghost predicate Inv(s: State) {
    (forall key: string :: Life(s.log, key) == Some(StateOf(s.table, key))) && ProducersHoldClaims(s)
  }

  lemma LifeOfOneMore(log: seq<Event>, e: Event, key: string)
    ensures Life(log + [e], key) ==
            if Life(log, key).None? || !e.About(key) then Life(log, key) else Next(Life(log, key).value, e)
  {
    assert (log + [e])[..|log|] == log;
  }

  lemma ApplyLogsOne(s: State, a: Action)
    ensures var t := Apply(s, a);
            t.log == s.log || (|t.log| == |s.log| + 1 && t.log == s.log + [t.log[|s.log|]])
  {
  }

  lemma KeyFollows(s: State, a: Action, key: string)
    requires Inv(s)
    ensures Life(Apply(s, a).log, key) == Some(StateOf(Apply(s, a).table, key))
  {
    var t := Apply(s, a);
    assert Life(s.log, key) == Some(StateOf(s.table, key));
    if t.log != s.log {
      ApplyLogsOne(s, a);
      LifeOfOneMore(s.log, t.log[|s.log|], key);
    }
  }

  lemma ApplyKeepsClaims(s: State, a: Action)
    requires ProducersHoldClaims(s)
    ensures ProducersHoldClaims(Apply(s, a))
  {
  }

  lemma ApplyKeepsInv(s: State, a: Action)
    requires Inv(s)
    ensures Inv(Apply(s, a))
  {
    forall key: string ensures Life(Apply(s, a).log, key) == Some(StateOf(Apply(s, a).table, key)) {
      KeyFollows(s, a, key);
    }
    ApplyKeepsClaims(s, a);
  }

  /** Under any interleaving of requests, failures, deaths and purges, the store follows
      the life of every key; whoever is producing holds a pending claim; and no two
      requests ever produce for one key at the same time. */
  lemma {:induction false} AnyInterleaving(actions: seq<Action>)
    ensures Inv(Run(actions))
  {
    if actions != [] {
      AnyInterleaving(actions[..|actions| - 1]);
      ApplyKeepsInv(Run(actions[..|actions| - 1]), actions[|actions| - 1]);
    }
  }

  /** A refused attempt frees its key: whoever comes next produces. */
  lemma RefusalFreesTheKey(actions: seq<Action>, id: RequestId, next: RequestId, q: Request, now: nat)
    requires id in Run(actions).producing && next !in Run(actions).producing
    ensures var key := Run(actions).producing[id];
            var after := Apply(Apply(Run(actions), Refuse(id)), Arrive(next, key, q, now));
            next in after.producing && after.producing[next] == key
  {
    AnyInterleaving(actions);
  }

  /** Retention never drops a claim that is still being worked on. */
  lemma PurgeKeepsClaims(actions: seq<Action>, id: RequestId, before: nat)
    requires id in Run(actions).producing
    ensures var s := Run(actions);
            var after := Apply(s, Purge(before));
            after.producing == s.producing && s.producing[id] in after.table
            && after.table[s.producing[id]] == s.table[s.producing[id]]
  {
    AnyInterleaving(actions);
  }

  /** Whoever arrives under a key nobody holds produces; whoever arrives later is told: the
      stored answer, that it is being worked on, or that the key is another request's. */
  lemma ArrivalMeans(actions: seq<Action>, id: RequestId, key: string, q: Request, now: nat)
    requires id !in Run(actions).producing
    ensures var s := Run(actions);
            var t := Apply(s, Arrive(id, key, q, now));
            && (key !in s.table ==>
                  && t.producing == s.producing[id := key] && t.log == s.log + [Started(key, q)]
                  && t.table == s.table[key := Row(q, None, now)])
            && (key in s.table ==>
                  && t.table == s.table && t.producing == s.producing && |t.log| == |s.log| + 1
                  && var row, e := s.table[key], t.log[|s.log|];
                  && e.Told? && e.key == key && e.q == q
                  && (row.request != q ==> e.what == Err(Reused))
                  && (row.request == q && row.answer.None? ==> e.what == Err(InFlight))
                  && (row.request == q && row.answer.Some? ==> e.what == Ok(row.answer.value)))
  {
  }

  /** Who produces holds the key's claim, and finishing stores the answer under it. */
  lemma FinishMeans(actions: seq<Action>, id: RequestId, answer: Answer)
    requires id in Run(actions).producing
    ensures var s := Run(actions);
            var key := s.producing[id];
            var t := Apply(s, Finish(id, answer));
            && key in s.table && s.table[key].answer == None
            && t.table == s.table[key := s.table[key].(answer := Some(answer))]
            && t.producing == s.producing - {id} && t.log == s.log + [Stored(key, answer)]
  {
    AnyInterleaving(actions);
    assert StateOf(Run(actions).table, Run(actions).producing[id]).Claimed?;
  }

  /** Retention drops exactly the answered keys past their time. */
  lemma PurgeMeans(s: State, before: nat)
    ensures var t := Apply(s, Purge(before));
            && (forall k :: k in t.table <==>
                            k in s.table && (s.table[k].created >= before || s.table[k].answer == None))
            && (forall k :: k in t.table ==> t.table[k] == s.table[k])
  {
  }

  // ---------------------------------------------------------------------------
  // What a history looks like
  // ---------------------------------------------------------------------------

  predicate Purges(e: Event, key: string) {
    e.Purged? && key in e.keys
  }

  /** The key's stored answer was dropped strictly between two points of the history. */
  predicate PurgedBetween(log: seq<Event>, key: string, i: int, j: int)
    requires -1 <= i && j <= |log|
  {
    exists k :: i < k < j && Purges(log[k], key)
  }

  lemma {:induction false} LifeOfPrefix(log: seq<Event>, key: string, n: nat)
    requires Life(log, key).Some? && n <= |log|
    ensures Life(log[..n], key).Some?
    decreases |log|
  {
    if n == |log| {
      assert log[..n] == log;
    } else {
      LifeOfPrefix(log[..|log| - 1], key, n);
      assert log[..|log| - 1][..n] == log[..n];
    }
  }

  /** How a key's life goes on from one event to the next. */
  lemma LifeStep(log: seq<Event>, key: string, n: nat)
    requires Life(log, key).Some? && n < |log|
    ensures Life(log[..n], key).Some? && Life(log[..n + 1], key).Some?
    ensures Life(log[..n + 1], key) == if log[n].About(key) then Next(Life(log[..n], key).value,
        log[n]) else Life(log[..n], key)
  {
    LifeOfPrefix(log, key, n);
    LifeOfPrefix(log, key, n + 1);
    assert log[..n + 1][..n] == log[..n];
  }

  lemma {:induction false} AnswerStays(log: seq<Event>, key: string, i: nat, j: nat)
    requires Life(log, key).Some? && i < j <= |log|
    requires log[i].Stored? && log[i].key == key && !PurgedBetween(log, key, i, j)
    ensures Life(log[..j], key).Some? && Life(log[..j], key).value.Answered?
            && Life(log[..j], key).value.answer == log[i].answer
    decreases j
  {
    LifeStep(log, key, j - 1);
    if j > i + 1 {
      assert !Purges(log[j - 1], key);
      forall k | i < k < j - 1 ensures !Purges(log[k], key) {
        assert i < k < j;
      }
      AnswerStays(log, key, i, j - 1);
    }
  }

  /** At most one answer is stored per key between purges, and nobody starts producing
      for a key that has one. */
  lemma StoredOnce(actions: seq<Action>, key: string, i: nat, j: nat)
    requires i < j < |Run(actions).log|
    requires Run(actions).log[i].Stored? && Run(actions).log[i].key == key
    requires (Run(actions).log[j].Stored? || Run(actions).log[j].Started?) && Run(actions).log[j].key == key
    ensures PurgedBetween(Run(actions).log, key, i, j)
  {
    var log := Run(actions).log;
    AnyInterleaving(actions);
    assert Life(log, key).Some?;
    if !PurgedBetween(log, key, i, j) {
      AnswerStays(log, key, i, j);
      LifeStep(log, key, j);
    }
  }

  lemma {:induction false} AnswerHasOrigin(log: seq<Event>, key: string, n: nat) returns (i: nat)
    requires n <= |log| && Life(log, key).Some?
    requires Life(log[..n], key).Some? && Life(log[..n], key).value.Answered?
    ensures i < n && log[i] == Stored(key, Life(log[..n], key).value.answer) && !PurgedBetween(log, key, i, n)
    decreases n
  {
    i := 0;
    if n > 0 {
      LifeStep(log, key, n - 1);
      if log[n - 1].About(key) && log[n - 1].Stored? {
        i := n - 1;
      } else {
        i := AnswerHasOrigin(log, key, n - 1);
        assert !Purges(log[n - 1], key);
        forall k | i < k < n ensures !Purges(log[k], key) {
          if k < n - 1 {
            assert i < k < n - 1;
          }
        }
      }
    }
  }

  /** Every replay repeats the answer stored under its key, and that answer has not been
      purged since. */
  lemma ReplayIsTheStoredAnswer(actions: seq<Action>, j: nat)
    requires j < |Run(actions).log| && Run(actions).log[j].Told? && Run(actions).log[j].what.Ok?
    ensures var log := Run(actions).log;
            exists i: nat ::
              i < j && log[i] == Stored(log[j].key, log[j].what.value) && !PurgedBetween(log, log[j].key, i, j)
  {
    var log := Run(actions).log;
    AnyInterleaving(actions);
    assert Life(log, log[j].key).Some?;
    LifeStep(log, log[j].key, j);
    var i := AnswerHasOrigin(log, log[j].key, j);
  }
}
