/**
 * The client's outstanding resume requests: one token per tunnel id, stamped
 * with the session generation and naming the tunnel object it was sent for.
 * An answer, a deadline or a newer session settles it. Answers and session
 * changes run on one strand; the deadline handler runs beside it.
 */
module ResumeTokens {
  import opened Bytes

  /** `request` numbers the requests ever sent; `object` identifies a tunnel object, never reused. */
  datatype Token = Token(request: nat, generation: nat, object_: nat, deadline: int)

  datatype Kind = Resumed | AbortedClose | Declined | DeadlineClose | Discarded

  datatype Outcome = Outcome(request: nat, kind: Kind, object_: nat, generation: nat)

  /** A request as it was sent. */
  datatype Sent = Sent(id: U16, object_: nat, generation: nat)

  /** An answer between its critical sections: the tunnel found under its id, then the token it consumed. */
  datatype Stage =
    | Idle
    | Found(id: U16, accepted: bool, captured: nat, object_: nat)
    | Matched(token: Token, accepted: bool)

  /** A token the deadline handler has taken out, and the generation it read afterwards. */
  datatype Due = Due(token: Token, seen: Option<nat>)

  datatype Client = Client(
    generation: nat, batch: nat, tokens: map<U16, Token>, tunnels: map<U16, nat>, gone: set<nat>, aborted: set<nat>,
    stage: Stage, due: map<nat, Due>, sent: seq<Sent>, outcomes: seq<Outcome>)

  function Settle(c: Client, t: Token, kind: Kind): Client {
    c.(outcomes := c.outcomes + [Outcome(t.request, kind, t.object_, c.generation)])
  }

  datatype Move =
    | NewSession                                    // a switch, or the active link went up or down
    | Register(id: U16, object_: nat)               // the manager gives an id to a tunnel object
    | Unregister(id: U16)
    | Vanish(object_: nat)                          // the last reference to an object goes away
    | Abort(object_: nat)
    | BeginBatch                                    // a round of requests drops what is left of the last one
    | DropOne(id: U16)                              // the rest of that: one stale token
    | Request(id: U16, deadline: int)
    | AckArrives(id: U16, accepted: bool, captured: nat)
    | AckConsumes
    | AckActs
    | Expire(id: U16, now: int)                     // the deadline handler takes out one expired token
    | DueReads(request: nat)                        // and reads the session generation
    | DueActs(request: nat)

  /** The token of an answered id is consumed whether or not it matches. */
  function Consume(c: Client, s: Stage): Client
    requires s.Found?
  {
    if s.id !in c.tokens then c.(stage := Idle)
    else
      var t, d := c.tokens[s.id], c.(tokens := c.tokens - {s.id});
      if t.generation == s.captured && t.object_ == s.object_ && t.object_ !in c.gone then
        d.(stage := Matched(t, s.accepted))
      else Settle(d.(stage := Idle), t, Discarded)
  }

  function Act(c: Client, s: Stage): Client
    requires s.Matched?
  {
    Settle(c.(stage := Idle), s.token,
           if !s.accepted then Declined else if s.token.object_ in c.aborted then AbortedClose else Resumed)
  }

  function Record(c: Client, id: U16, deadline: int): Client
    requires id in c.tunnels
  {
    var t := Token(|c.sent|, c.batch, c.tunnels[id], deadline);
    var d := if id in c.tokens then Settle(c, c.tokens[id], Discarded) else c;
    d.(tokens := d.tokens[id := t], sent := d.sent + [Sent(id, t.object_, t.generation)])
  }

  function ActOnDue(c: Client, request: nat): Client
    requires request in c.due && c.due[request].seen.Some?
  {
    var d := c.due[request];
    Settle(c.(due := c.due - {request}), d.token,
           if d.seen.value != d.token.generation || d.token.object_ in c.gone then Discarded else DeadlineClose)
  }

  function Step(c: Client, m: Move): Client {
    match m
    case NewSession => if c.stage == Idle then c.(generation := c.generation + 1) else c
    case Register(id, o) => if id !in c.tunnels && o !in c.gone then c.(tunnels := c.tunnels[id := o]) else c
    case Unregister(id) => c.(tunnels := c.tunnels - {id})
    case Vanish(o) =>
      if o in c.tunnels.Values || (c.stage.Found? && c.stage.object_ == o)
         || (c.stage.Matched? && c.stage.token.object_ == o)
      then c else c.(gone := c.gone + {o})
    case Abort(o) => c.(aborted := c.aborted + {o})
    case BeginBatch => if c.stage == Idle then c.(batch := c.generation) else c
    case DropOne(id) => if id in c.tokens then Settle(c.(tokens := c.tokens - {id}), c.tokens[id], Discarded) else c
    case Request(id, deadline) =>
      if c.stage == Idle && id in c.tunnels && c.tunnels[id] !in c.aborted then Record(c, id, deadline) else c
    case AckArrives(id, accepted, captured) =>
      if c.stage == Idle && captured == c.generation && id in c.tunnels then
        c.(stage := Found(id, accepted, captured, c.tunnels[id]))
      else c
    case AckConsumes => if c.stage.Found? then Consume(c, c.stage) else c
    case AckActs => if c.stage.Matched? then Act(c, c.stage) else c
    case Expire(id, now) =>
      if id in c.tokens && c.tokens[id].deadline <= now then
        c.(tokens := c.tokens - {id}, due := c.due[c.tokens[id].request := Due(c.tokens[id], None)])
      else c
    case DueReads(r) => if r in c.due then c.(due := c.due[r := c.due[r].(seen := Some(c.generation))]) else c
    case DueActs(r) => if r in c.due && c.due[r].seen.Some? then ActOnDue(c, r) else c
  }

  const START := Client(0, 0, map[], map[], {}, {}, Idle, map[], [], [])

  function Run(moves: seq<Move>): Client {
    if moves == [] then START else Step(Run(moves[..|moves| - 1]), moves[|moves| - 1])
  }

  // ---------------------------------------------------------------------------
  // The table the client keeps under its mutex
  // ---------------------------------------------------------------------------

  class TokenTable {
    var tokens: map<U16, Token>

    constructor ()
      ensures tokens == map[]
    {
      tokens := map[];
    }

    method Put(id: U16, t: Token)
      modifies this
      ensures tokens == old(tokens)[id := t]
    {
      tokens := tokens[id := t];
    }

    /** One ACK per request: the token goes whether or not it is the right one. */
    method TakeFor(id: U16, captured: nat, object_: nat, alive: bool) returns (found: bool, matches: bool)
      modifies this
      ensures found == (id in old(tokens)) && tokens == old(tokens) - {id}
      ensures matches
              == (found && alive && old(tokens)[id].generation == captured && old(tokens)[id].object_ == object_)
    {
      found, matches := id in tokens, false;
      if !found {
        return;
      }
      var t := tokens[id];
      matches := t.generation == captured && t.object_ == object_ && alive;
      tokens := tokens - {id};
    }

    /** Takes out every token whose deadline has passed, and no other. */
    method TakeExpired(now: int) returns (expired: map<U16, Token>)
      modifies this
      ensures expired == map id | id in old(tokens) && old(tokens)[id].deadline <= now :: old(tokens)[id]
      ensures tokens == old(tokens) - expired.Keys
    {
      expired := map[];
      var todo := tokens.Keys;
      while todo != {}
        invariant todo <= tokens.Keys
        invariant expired
                  == map id | id in old(tokens) && id !in todo && old(tokens)[id].deadline <= now :: old(tokens)[id]
        invariant tokens == old(tokens) - expired.Keys
      {
        var id :| id in todo;
        todo := todo - {id};
        if tokens[id].deadline <= now {
          expired := expired[id := tokens[id]];
          tokens := tokens - {id};
        }
      }
    }

    /** The expiry the single timer is armed for: the earliest deadline, if any token is left. */
    method Earliest() returns (at: Option<int>)
      ensures at.None? <==> tokens == map[]
      ensures at.Some? ==> exists id :: id in tokens && tokens[id].deadline == at.value
      ensures at.Some? ==> forall id :: id in tokens ==> at.value <= tokens[id].deadline
    {
      at := None;
      var todo := tokens.Keys;
      while todo != {}
        invariant todo <= tokens.Keys
        invariant at.None? <==> todo == tokens.Keys
        invariant at.Some? ==> exists id :: id in tokens && tokens[id].deadline == at.value
        invariant at.Some? ==> forall id :: id in tokens && id !in todo ==> at.value <= tokens[id].deadline
      {
        var id :| id in todo;
        todo := todo - {id};
        if at.None? || tokens[id].deadline < at.value {
          at := Some(tokens[id].deadline);
        }
      }
      assert tokens.Keys == {} ==> tokens == map[];
    }
  }

  // ---------------------------------------------------------------------------
  // Every run
  // ---------------------------------------------------------------------------

  predicate Settled(c: Client, request: nat) {
    exists k :: 0 <= k < |c.outcomes| && c.outcomes[k].request == request
  }

  /** The token is one that was sent, for this object in this generation, and is not settled. */
  ghost predicate Open(c: Client, t: Token) {
    && t.request < |c.sent|
    && c.sent[t.request].object_ == t.object_
    && c.sent[t.request].generation == t.generation
    && !Settled(c, t.request)
  }

  /** Where each unsettled request is: in the table, with the deadline handler, or with an answer. */
  ghost predicate Placed(c: Client) {
    && (forall id :: id in c.tokens ==> Open(c, c.tokens[id]))
    && (forall id :: id in c.tokens ==> c.sent[c.tokens[id].request].id == id && c.tokens[id].request !in c.due)
    && (forall r :: r in c.due ==> c.due[r].token.request == r && Open(c, c.due[r].token))
    && (c.stage.Matched? ==>
          && Open(c, c.stage.token)
          && c.stage.token.request !in c.due
          && (forall id :: id in c.tokens ==> c.tokens[id].request != c.stage.token.request)
          && c.stage.token.generation == c.generation
          && c.stage.token.object_ !in c.gone)
    && (c.stage.Found? ==> c.stage.captured == c.generation && c.stage.object_ !in c.gone)
    && (forall id :: id in c.tunnels ==> c.tunnels[id] !in c.gone)
  }

  /** No request was settled twice, and every outcome names the object the request was sent for. */
  ghost predicate Honest(c: Client) {
    && (forall i, j :: 0 <= i < j < |c.outcomes| ==> c.outcomes[i].request != c.outcomes[j].request)
    && (forall i :: 0 <= i < |c.outcomes| ==> Truthful(c, c.outcomes[i]))
  }

  ghost predicate Truthful(c: Client, o: Outcome) {
    && o.request < |c.sent|
    && o.object_ == c.sent[o.request].object_
    && (o.kind == Resumed || o.kind == Declined || o.kind == AbortedClose ==>
          o.generation == c.sent[o.request].generation)
  }

  /** Every request ever sent is somewhere. */
  ghost predicate Accounted(c: Client) {
    forall r :: 0 <= r < |c.sent| ==> Located(c, r)
  }

  ghost predicate Located(c: Client, r: nat)
    requires r < |c.sent|
  {
    || Settled(c, r)
    || (c.sent[r].id in c.tokens && c.tokens[c.sent[r].id].request == r)
    || r in c.due
    || (c.stage.Matched? && c.stage.token.request == r)
  }

  ghost predicate Inv(c: Client) {
    Placed(c) && Honest(c) && Accounted(c)
  }

  lemma SettleSettles(c: Client, t: Token, kind: Kind)
    ensures var d := Settle(c, t, kind);
            forall r: nat :: Settled(d, r) <==> Settled(c, r) || r == t.request
  {
    var d := Settle(c, t, kind);
    var n := |c.outcomes|;
    forall r: nat ensures Settled(d, r) <==> Settled(c, r) || r == t.request {
      if Settled(c, r) {
        var k :| 0 <= k < n && c.outcomes[k].request == r;
        assert d.outcomes[k].request == r;
      }
      if r == t.request {
        assert d.outcomes[n].request == r;
      }
    }
  }

  /** A new, true outcome for an unsettled request keeps the record honest. */
  lemma SettleHonest(c: Client, t: Token, kind: Kind)
    requires Honest(c) && Open(c, t)
    requires kind == DeadlineClose || kind == Discarded || t.generation == c.generation
    ensures Honest(Settle(c, t, kind))
  {
    var d, n := Settle(c, t, kind), |c.outcomes|;
    forall i, j | 0 <= i < j < |d.outcomes| ensures d.outcomes[i].request != d.outcomes[j].request {
      if j == n {
        assert c.outcomes[i].request != t.request;
      }
    }
    forall i | 0 <= i < |d.outcomes| ensures Truthful(d, d.outcomes[i]) {
      if i < n {
        assert Truthful(c, c.outcomes[i]);
      }
    }
  }

  /** Steps that touch neither requests nor outcomes. */
  lemma FrameKeeps(c: Client, d: Client)
    requires Inv(c)
    requires d.sent == c.sent && d.outcomes == c.outcomes && d.tokens == c.tokens && d.due.Keys == c.due.Keys
    requires forall r :: r in c.due ==> d.due[r].token == c.due[r].token
    requires c.stage == d.stage || (c.stage == Idle && d.stage.Found?) || (c.stage.Found? && d.stage == Idle)
    requires d.generation == c.generation || c.stage == Idle == d.stage
    requires d.stage.Found? ==> d.stage.captured == d.generation && d.stage.object_ !in d.gone
    requires d.stage.Matched? ==> d.stage.token.object_ !in d.gone
    requires forall id :: id in d.tunnels ==> d.tunnels[id] !in d.gone
    ensures Inv(d)
  {
    hide Step;
    assert forall r: nat :: Settled(d, r) == Settled(c, r);
    assert forall t :: Open(c, t) ==> Open(d, t);
    hide Settled, Open;
    assert Honest(d) by {
      assert forall o :: Truthful(c, o) ==> Truthful(d, o);
      hide Truthful;
    }
    forall r | 0 <= r < |d.sent| ensures Located(d, r) {
      assert Located(c, r);
    }
  }

  /** A token moves to the outcomes from the table. */
  lemma TableSettles(c: Client, id: U16, kind: Kind, d: Client)
    requires Inv(c) && id in c.tokens && (kind == Discarded || kind == DeadlineClose)
    requires c.stage.Found? ==> d.stage == Idle
    requires !c.stage.Found? ==> d.stage == c.stage
    requires d == Settle(c.(tokens := c.tokens - {id}, stage := d.stage), c.tokens[id], kind)
    ensures Inv(d)
  {
    var t := c.tokens[id];
    SettleSettles(c.(tokens := c.tokens - {id}, stage := d.stage), t, kind);
    assert forall r: nat :: Settled(d, r) <==> Settled(c, r) || r == t.request;
    SettleHonest(c, t, kind);
    assert Honest(d) by {
      var e := Settle(c, t, kind);
      assert e.outcomes == d.outcomes && e.sent == d.sent;
      assert forall o :: Truthful(e, o) ==> Truthful(d, o);
      hide Truthful, Settle;
    }
    hide Settled, Honest;
    forall r | 0 <= r < |d.sent| ensures Located(d, r) {
      assert Located(c, r);
    }
  }

  /** The answer found its own token: it is taken from the table and acted on next. */
  lemma MatchKeeps(c: Client, d: Client)
    requires Inv(c) && c.stage.Found? && c.stage.id in c.tokens
    requires var t := c.tokens[c.stage.id];
             && t.generation == c.stage.captured && t.object_ == c.stage.object_ && t.object_ !in c.gone
             && d == c.(tokens := c.tokens - {c.stage.id}, stage := Matched(t, c.stage.accepted))
    ensures Inv(d)
  {
    assert forall r: nat :: Settled(d, r) == Settled(c, r);
    assert forall t :: Open(c, t) ==> Open(d, t);
    assert Honest(d) by {
      assert forall o :: Truthful(c, o) ==> Truthful(d, o);
      hide Truthful;
    }
    hide Settled, Open, Honest;
    forall r | 0 <= r < |d.sent| ensures Located(d, r) {
      assert Located(c, r);
    }
  }

  lemma ActKeeps(c: Client)
    requires Inv(c) && c.stage.Matched?
    ensures Inv(Act(c, c.stage))
  {
    var d := Act(c, c.stage);
    var t, kind := c.stage.token, d.outcomes[|c.outcomes|].kind;
    SettleSettles(c, t, kind);
    SettleHonest(c, t, kind);
    var e := Settle(c, t, kind);
    assert d == e.(stage := Idle);
    assert forall r: nat :: Settled(d, r) == Settled(e, r);
    assert Honest(d) by {
      assert forall o :: Truthful(e, o) ==> Truthful(d, o);
      hide Truthful, Settle;
    }
    hide Settled, Honest;
    forall r | 0 <= r < |d.sent| ensures Located(d, r) {
      assert Located(c, r);
    }
  }

  lemma ExpireKeeps(c: Client, id: U16)
    requires Inv(c) && id in c.tokens
    ensures Inv(c.(tokens := c.tokens - {id}, due := c.due[c.tokens[id].request := Due(c.tokens[id], None)]))
  {
    var t := c.tokens[id];
    var d := c.(tokens := c.tokens - {id}, due := c.due[t.request := Due(t, None)]);
    assert forall r: nat :: Settled(d, r) == Settled(c, r);
    assert forall u :: Open(c, u) ==> Open(d, u);
    assert Honest(d) by {
      assert forall o :: Truthful(c, o) ==> Truthful(d, o);
      hide Truthful;
    }
    hide Settled, Open, Honest;
    forall r | 0 <= r < |d.sent| ensures Located(d, r) {
      assert Located(c, r);
    }
  }

  lemma DueKeeps(c: Client, request: nat)
    requires Inv(c) && request in c.due && c.due[request].seen.Some?
    ensures Inv(ActOnDue(c, request))
  {
    var d, t := ActOnDue(c, request), c.due[request].token;
    var kind := d.outcomes[|c.outcomes|].kind;
    SettleSettles(c, t, kind);
    SettleHonest(c, t, kind);
    var e := Settle(c, t, kind);
    assert d == e.(due := c.due - {request});
    assert forall r: nat :: Settled(d, r) == Settled(e, r);
    assert Honest(d) by {
      assert forall o :: Truthful(e, o) ==> Truthful(d, o);
      hide Truthful, Settle;
    }
    hide Settled, Honest;
    forall r | 0 <= r < |d.sent| ensures Located(d, r) {
      assert Located(c, r);
    }
  }

  /** A new request joins the table under an id that holds no token. */
  lemma RecordKeeps(c: Client, id: U16, deadline: int)
    requires Inv(c) && c.stage == Idle && id in c.tunnels && id !in c.tokens
    ensures Inv(Record(c, id, deadline))
  {
    var d := Record(c, id, deadline);
    var n := |c.sent|;
    assert forall r: nat :: Settled(d, r) == Settled(c, r);
    assert !Settled(c, n) by {
      forall k | 0 <= k < |c.outcomes| ensures c.outcomes[k].request != n {
        assert Truthful(c, c.outcomes[k]);
      }
    }
    assert forall u :: Open(c, u) ==> Open(d, u);
    assert Open(d, d.tokens[id]);
    assert Honest(d) by {
      assert forall o :: Truthful(c, o) ==> Truthful(d, o);
      hide Truthful, Record;
    }
    hide Settled, Honest;
    assert forall r :: r in c.due ==> Open(c, c.due[r].token);
    forall r | 0 <= r < |d.sent| ensures Located(d, r) {
      if r < n {
        assert Located(c, r);
      }
    }
  }

  lemma StepKeeps(c: Client, m: Move)
    requires Inv(c)
    ensures Inv(Step(c, m))
  {
    hide Inv, Record, Act;
    match m {
      case NewSession => if c.stage == Idle { SimpleKeeps(c, m); }
      case DropOne(id) => if id in c.tokens { DropKeeps(c, id); }
      case Request(id, deadline) =>
        if c.stage == Idle && id in c.tunnels {
          if id in c.tokens {
            DropKeeps(c, id);
            var e := Settle(c.(tokens := c.tokens - {id}), c.tokens[id], Discarded);
            RecordKeeps(e, id, deadline);
            RecordTwice(c, id, deadline);
          } else {
            RecordKeeps(c, id, deadline);
          }
        }
      case AckConsumes => if c.stage.Found? { ConsumeKeeps(c); }
      case AckActs => if c.stage.Matched? { ActKeeps(c); }
      case Expire(id, now) => if id in c.tokens { ExpireKeeps(c, id); }
      case DueActs(r) => if r in c.due && c.due[r].seen.Some? { DueKeeps(c, r); }
      case _ => SimpleKeeps(c, m);
    }
  }

  lemma SimpleKeeps(c: Client, m: Move)
    requires Inv(c)
    requires m.NewSession? || m.Register? || m.Unregister? || m.Vanish? || m.Abort? || m.BeginBatch? || m.AckArrives?
             || m.DueReads?
    ensures Inv(Step(c, m))
  {
    hide Settled, Open, Honest, Accounted;
    FrameKeeps(c, Step(c, m));
  }

  lemma DropKeeps(c: Client, id: U16)
    requires Inv(c) && id in c.tokens
    ensures Inv(Settle(c.(tokens := c.tokens - {id}), c.tokens[id], Discarded))
  {
    var d := Settle(c.(tokens := c.tokens - {id}), c.tokens[id], Discarded);
    if !c.stage.Found? {
      TableSettles(c, id, Discarded, d);
    } else {
      var idle := c.(stage := Idle);
      FrameKeeps(c, idle);
      TableSettles(idle, id, Discarded, d.(stage := Idle));
      FrameKeeps(d.(stage := Idle), d);
    }
  }

  /** Overwriting a token is dropping it and recording the new one. */
  lemma RecordTwice(c: Client, id: U16, deadline: int)
    requires id in c.tunnels && id in c.tokens
    ensures Record(c, id, deadline)
            == Record(Settle(c.(tokens := c.tokens - {id}), c.tokens[id], Discarded), id, deadline)
  {
  }

  lemma ConsumeKeeps(c: Client)
    requires Inv(c) && c.stage.Found?
    ensures Inv(Consume(c, c.stage))
  {
    var d := Consume(c, c.stage);
    if c.stage.id !in c.tokens {
      hide Settled, Open, Honest, Accounted;
      FrameKeeps(c, d);
    } else if d.stage.Matched? {
      MatchKeeps(c, d);
    } else {
      TableSettles(c, c.stage.id, Discarded, d);
    }
  }

  lemma {:induction false} RunInv(moves: seq<Move>)
    ensures Inv(Run(moves))
  {
    if moves != [] {
      RunInv(moves[..|moves| - 1]);
      hide Inv, Step;
      StepKeeps(Run(moves[..|moves| - 1]), moves[|moves| - 1]);
    }
  }

  /** In every run each request is settled at most once, and on the tunnel object it was sent for. */
  lemma OneOutcomeEach(moves: seq<Move>, i: nat, j: nat)
    requires i < j < |Run(moves).outcomes|
    ensures var c := Run(moves);
            && c.outcomes[i].request != c.outcomes[j].request
            && c.outcomes[i].request < |c.sent| && c.outcomes[i].object_ == c.sent[c.outcomes[i].request].object_
  {
    RunInv(moves);
    hide Run;
    assert Truthful(Run(moves), Run(moves).outcomes[i]);
  }

  /** Once the table, the deadline handler and the answer in hand are empty, every request is settled. */
  lemma NothingIsForgotten(moves: seq<Move>, r: nat)
    requires var c := Run(moves); c.tokens == map[] && c.due == map[] && c.stage == Idle && r < |c.sent|
    ensures Settled(Run(moves), r)
  {
    RunInv(moves);
    hide Run;
    assert Located(Run(moves), r);
  }

  /**
   * An answer acts on exactly the request it consumed: the very object the
   * request was sent for, still alive, in the generation it was sent in, which
   * is still the current one. Whatever ids were recycled in between.
   */
  lemma AnswersActOnTheirRequest(moves: seq<Move>)
    requires Run(moves).stage.Matched?
    ensures var c := Run(moves);
            var t, d := c.stage.token, Act(c, c.stage);
            && t.request < |c.sent|
            && t.object_ == c.sent[t.request].object_ && t.object_ !in c.gone
            && t.generation == c.sent[t.request].generation == c.generation
            && d.outcomes == c.outcomes + [d.outcomes[|c.outcomes|]]
            && d.outcomes[|c.outcomes|].object_ == t.object_
  {
    RunInv(moves);
  }

  /** Every answered outcome, in every run, was reached in the generation its request was sent in. */
  lemma AnsweredInItsSession(moves: seq<Move>, i: nat)
    requires i < |Run(moves).outcomes|
    requires Run(moves).outcomes[i].kind in {Resumed, Declined, AbortedClose}
    ensures var c := Run(moves);
            c.outcomes[i].request < |c.sent| && c.outcomes[i].generation == c.sent[c.outcomes[i].request].generation
  {
    RunInv(moves);
    hide Run;
    assert Truthful(Run(moves), Run(moves).outcomes[i]);
  }

  /** What the deadline handler does about a request it has taken out. */
  lemma DueActsOnItsRequest(moves: seq<Move>, r: nat)
    requires r in Run(moves).due && Run(moves).due[r].seen.Some?
    ensures var c := Run(moves);
            && r < |c.sent| && c.due[r].token.generation == c.sent[r].generation
            && Step(c, DueActs(r)).outcomes
               == c.outcomes + [Outcome(r, if c.due[r].seen.value == c.sent[r].generation
                                           && c.sent[r].object_ !in c.gone then DeadlineClose else Discarded,
                                        c.sent[r].object_, c.generation)]
  {
    RunInv(moves);
    hide Run;
  }

  lemma DueUntouched(c: Client, m: Move, r: nat)
    requires Inv(c) && r in c.due && m != DueReads(r) && m != DueActs(r)
    ensures r in Step(c, m).due && Step(c, m).due[r] == c.due[r]
  {
    hide Open, Honest, Accounted;
  }

  lemma {:induction false} DueStays(before: seq<Move>, between: seq<Move>, r: nat)
    requires r in Run(before).due
    requires forall m :: m in between ==> m != DueReads(r) && m != DueActs(r)
    ensures r in Run(before + between).due && Run(before + between).due[r] == Run(before).due[r]
  {
    hide Step;
    if between == [] {
      assert before + between == before;
    } else {
      var init, m := between[..|between| - 1], between[|between| - 1];
      assert m in between && forall x :: x in init ==> x in between;
      DueStays(before, init, r);
      assert before + between == (before + init) + [m];
      RunSnoc(before + init, m);
      RunInv(before + init);
      hide Run, Inv;
      DueUntouched(Run(before + init), m, r);
    }
  }

  /**
   * A close by the deadline handler lands in the session its request was sent
   * in exactly if no session began between the handler's reading of the
   * generation and the close, whatever else happens in between.
   */
  lemma DeadlineCloseIsLateExactly(before: seq<Move>, between: seq<Move>, r: nat)
    requires r in Run(before).due
    requires forall m :: m in between ==> m != DueReads(r) && m != DueActs(r)
    ensures var read := Run(before); var c := Run(before + [DueReads(r)] + between);
            && r in c.due && c.due[r].seen == Some(read.generation)
            && |Step(c, DueActs(r)).outcomes| == |c.outcomes| + 1
            && var o := Step(c, DueActs(r)).outcomes[|c.outcomes|];
            && o.request == r < |c.sent|
            && (o.kind == DeadlineClose ==>
                  (o.generation == c.sent[r].generation <==> c.generation == read.generation))
  {
    RunSnoc(before, DueReads(r));
    hide Run;
    DueStays(before + [DueReads(r)], between, r);
    DueActsOnItsRequest(before + [DueReads(r)] + between, r);
  }

  /**
   * The deadline handler is held to less: it reads the generation and closes
   * later, so a session that begins in between sees the close land in it.
   */
  lemma DeadlineCloseCanBeLate()
    ensures var c := Run([Register(1, 7)] + [Request(1, 0)] + [Expire(1, 0)] + [DueReads(0)] + [NewSession]
                         + [DueActs(0)]);
            c.outcomes == [Outcome(0, DeadlineClose, 7, 1)] && c.sent == [Sent(1, 7, 0)]
  {
    var m1 := [Register(1, 7)];
    assert Run([]) == START && [] + m1 == m1;
    hide Run;
    var m2 := m1 + [Request(1, 0)];
    var m3 := m2 + [Expire(1, 0)];
    var m4 := m3 + [DueReads(0)];
    var m5 := m4 + [NewSession];
    RunSnoc([], Register(1, 7));
    RunSnoc(m1, Request(1, 0));
    RunSnoc(m2, Expire(1, 0));
    RunSnoc(m3, DueReads(0));
    RunSnoc(m4, NewSession);
    RunSnoc(m5, DueActs(0));
    LateSteps();
    hide Step;
  }

  lemma RunSnoc(moves: seq<Move>, m: Move)
    ensures Run(moves + [m]) == Step(Run(moves), m)
  {
    assert (moves + [m])[..|moves|] == moves;
  }

  lemma LateSteps()
    ensures var c := Step(Step(Step(Step(Step(Step(START, Register(1, 7)), Request(1, 0)), Expire(1, 0)), DueReads(0)),
                               NewSession), DueActs(0));
            c.outcomes == [Outcome(0, DeadlineClose, 7, 1)] && c.sent == [Sent(1, 7, 0)]
  {
    var t := Token(0, 0, 7, 0);
    var c1 := START.(tunnels := map[1 := 7]);
    assert Step(START, Register(1, 7)) == c1;
    var c2 := c1.(tokens := map[1 := t], sent := [Sent(1, 7, 0)]);
    assert Step(c1, Request(1, 0)) == c2;
    var c3 := c2.(tokens := map[], due := map[0 := Due(t, None)]);
    assert Step(c2, Expire(1, 0)) == c3;
    var c4 := c3.(due := map[0 := Due(t, Some(0))]);
    assert Step(c3, DueReads(0)) == c4;
    var c5 := c4.(generation := 1);
    assert Step(c4, NewSession) == c5;
  }

  /**
   * What an answer does, taken on its own: nothing unless it belongs to the
   * current session and its id names a tunnel with a request outstanding; it
   * settles that request, and only that, as resumed if accepted, as declined if
   * not, as closed if the tunnel was aborted meanwhile; and it discards a
   * request that was sent for another object or in another session.
   */
  lemma AnswerExactly(moves: seq<Move>, id: U16, accepted: bool, captured: nat)
    requires Run(moves).stage == Idle
    ensures var c := Run(moves);
            var d := Step(Step(Step(c, AckArrives(id, accepted, captured)), AckConsumes), AckActs);
            if captured != c.generation || id !in c.tunnels || id !in c.tokens then d == c
            else
              var t := c.tokens[id];
              var kind := if t.generation != c.generation || t.object_ != c.tunnels[id] then Discarded
                          else if !accepted then Declined
                          else if t.object_ in c.aborted then AbortedClose else Resumed;
              d == c.(tokens := c.tokens - {id},
                      outcomes := c.outcomes + [Outcome(t.request, kind, t.object_, c.generation)])
  {
    RunInv(moves);
    hide Run;
    var c := Run(moves);
    var c1 := Step(c, AckArrives(id, accepted, captured));
    if captured == c.generation && id in c.tunnels {
      assert c.tunnels[id] !in c.gone;
      hide Inv;
      var c2 := Step(c1, AckConsumes);
    }
  }

  /** The generation the last round of requests began in. */
  function BatchGeneration(moves: seq<Move>): nat {
    if moves == [] then 0
    else
      var init, m := moves[..|moves| - 1], moves[|moves| - 1];
      if m == BeginBatch && Run(init).stage == Idle then Run(init).generation else BatchGeneration(init)
  }

  lemma {:induction false} BatchIsStamped(moves: seq<Move>)
    ensures Run(moves).batch == BatchGeneration(moves)
  {
    if moves != [] {
      BatchIsStamped(moves[..|moves| - 1]);
    }
  }

  /**
   * What a request records: nothing for an unknown or an aborted tunnel;
   * otherwise one more request sent, for the object its id names, in the
   * generation its round began in, outstanding until its deadline and in the
   * place of any older one, which is discarded.
   */
  lemma RequestExactly(moves: seq<Move>, id: U16, deadline: int)
    requires Run(moves).stage == Idle
    ensures var c := Run(moves);
            var d := Step(c, Request(id, deadline));
            if id !in c.tunnels || c.tunnels[id] in c.aborted then d == c
            else
              var o, r := c.tunnels[id], |c.sent|;
              && d.sent == c.sent + [Sent(id, o, BatchGeneration(moves))]
              && d.tokens == c.tokens[id := Token(r, BatchGeneration(moves), o, deadline)]
              && d.outcomes == c.outcomes + (if id in c.tokens
                                             then [Outcome(c.tokens[id].request, Discarded, c.tokens[id].object_,
                                                           c.generation)]
                                             else [])
  {
    BatchIsStamped(moves);
    hide Run;
    assert Run(moves).outcomes + [] == Run(moves).outcomes;
  }

  /** In every run the deadline handler has taken out only requests whose deadline had passed when it looked. */
  lemma {:induction false} DueIsOverdue(moves: seq<Move>, r: nat)
    requires r in Run(moves).due
    ensures exists k :: 0 <= k < |moves| && moves[k].Expire? && moves[k].now >= Run(moves).due[r].token.deadline
  {
    var init, m := moves[..|moves| - 1], moves[|moves| - 1];
    var c := Run(init);
    assert Run(moves) == Step(c, m);
    if r in c.due && Run(moves).due[r].token == c.due[r].token {
      DueIsOverdue(init, r);
      var k :| 0 <= k < |init| && init[k].Expire? && init[k].now >= c.due[r].token.deadline;
      assert moves[k] == init[k];
    } else {
      hide Settle, Consume, Act, Record, ActOnDue, Run;
      assert m.Expire? && m.now >= Step(c, m).due[r].token.deadline by { NewlyDue(c, m, r); }
      assert moves[|moves| - 1] == m;
    }
  }

  lemma NewlyDue(c: Client, m: Move, r: nat)
    requires r in Step(c, m).due && !(r in c.due && Step(c, m).due[r].token == c.due[r].token)
    ensures m.Expire? && m.now >= Step(c, m).due[r].token.deadline
  {
  }
}
