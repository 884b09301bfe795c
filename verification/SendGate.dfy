/**
 * The gate: ledgers keyed by public key, the friend numbers that
 * currently name them, and the lock-free hint slots indexed by friend number.
 */
module SendGate {
  import opened Bytes
  import opened Protocol
  import opened FenceLedger
  import opened FriendGate
  import opened LedgerEpochs

  type Key = seq<Byte>

  datatype Gate = Gate(
    created: nat, ledgers: map<Key, Ledger>, numberToKey: map<nat, Key>, room: seq<int>, refused: seq<bool>)

  function EmptyGate(): Gate {
    Gate(0, map[], map[], seq(HINT_SLOTS, i => OPEN_ROOM), seq(HINT_SLOTS, i => false))
  }

  function Publish(cfg: Config, room: seq<int>, l: Ledger): seq<int> {
    if l.friendNumber < |room| then room[l.friendNumber := Room(cfg, l)] else room
  }

  // ---------------------------------------------------------------------------
  // The gate's operations, as functions of its state
  // ---------------------------------------------------------------------------

  /** The key a friend number stands for: cached, or as toxcore reports it now. */
  function KeyOf(g: Gate, number: nat, reported: Option<Key>): Option<Key> {
    if number in g.numberToKey then Some(g.numberToKey[number]) else reported
  }

  function WithLedger(seed: U64, g: Gate, number: nat, key: Key): (h: Gate)
    ensures key in h.ledgers && number in h.numberToKey && h.numberToKey[number] == key
  {
    var known := key in g.ledgers;
    var l := if known then g.ledgers[key] else FreshLedger(number, LedgerEpoch(seed, g.created + 1));
    g.(numberToKey := g.numberToKey[number := key],
       created := if known then g.created else g.created + 1,
       ledgers := g.ledgers[key := l.(friendNumber := number)])
  }

  function Store(g: Gate, key: Key, l: Ledger): Gate {
    g.(ledgers := g.ledgers[key := l])
  }

  datatype Verdict = Verdict(gate: Gate, ok: bool)

  function Admit(cfg: Config, seed: U64, g: Gate, number: nat, reported: Option<Key>, p: Packet, now: int)
    : Verdict
  {
    var key := KeyOf(g, number, reported);
    if !IsData(p) || key.None? then Verdict(g, true)
    else
      var h := WithLedger(seed, g, number, key.value);
      var l := h.ledgers[key.value];
      if Admits(cfg, l, |p|) then Verdict(h, true)
      else
        var m := l.(lastRefusedNs := now);
        Verdict(Store(h, key.value, m).(room := Publish(cfg, h.room, m)), false)
  }

  datatype Accepted = Accepted(gate: Gate, fence: Option<Packet>)

  function OnAccepted(
    cfg: Config, seed: U64, g: Gate, number: nat, reported: Option<Key>, p: Packet, now: int, fenceOk: bool)
    : Accepted
  {
    var key := KeyOf(g, number, reported);
    if key.None? || !(IsData(p) || IsEmptyPing(p)) then Accepted(g, None)
    else
      var h := WithLedger(seed, g, number, key.value);
      var l := h.ledgers[key.value];
      if IsData(p) then
        Accepted(Store(h, key.value, DataAccepted(cfg, l, |p|, now, fenceOk)),
                 if FenceBehindData(cfg, l, |p|) && fenceOk then Some(NextFence(l)) else None)
      else
        Accepted(Store(h, key.value, l.(emptyPingsSent := l.emptyPingsSent + 1)), None)
  }

  predicate IsControlPong(p: Packet) {
    PeekAt(p).Some? && PeekAt(p).value.kindByte == TypeByte(Pong) && PeekAt(p).value.tunnelId == 0
  }

  function OnReceived(
    cfg: Config, seed: U64, g: Gate, number: nat, reported: Option<Key>, p: Packet, now: int): Gate
  {
    var key := KeyOf(g, number, reported);
    if !IsControlPong(p) || key.None? then g
    else
      var h := WithLedger(seed, g, number, key.value);
      var l := h.ledgers[key.value];
      var m := PongReceived(cfg, l, p, now);
      Store(h, key.value, m).(room := if PongPublishes(l, p) then Publish(cfg, h.room, m) else h.room)
  }

  function OnConnectionStatus(seed: U64, g: Gate, number: nat, reported: Option<Key>, connected: bool): Gate {
    var key := KeyOf(g, number, reported);
    if !connected || key.None? then g
    else
      var h := WithLedger(seed, g, number, key.value);
      Store(h, key.value, Reconnected(h.ledgers[key.value]))
  }

  /** Only a gated ledger whose number still names its key takes part in a tick. */
  predicate Live(g: Gate, key: Key) {
    && key in g.ledgers && g.ledgers[key].phase != Legacy
    && g.ledgers[key].friendNumber in g.numberToKey
    && g.numberToKey[g.ledgers[key].friendNumber] == key
  }

  function HintRefused(g: Gate, number: nat): bool {
    number < |g.refused| && g.refused[number]
  }

  function TickOf(cfg: Config, g: Gate, key: Key, now: int, accepts: set<Key>): Ticked
    requires key in g.ledgers
  {
    var l := g.ledgers[key];
    Tick(cfg, l, HintRefused(g, l.friendNumber), now, key in accepts)
  }

  /** Slot `number` belongs to the live ledger its number names. */
  predicate LiveSlot(g: Gate, number: nat) {
    && number in g.numberToKey
    && Live(g, g.numberToKey[number])
    && g.ledgers[g.numberToKey[number]].friendNumber == number
  }

  /** What a tick computes for every ledger; `accepts` are the friends whose fence toxcore takes. */
  function Ticks(cfg: Config, g: Gate, now: int, accepts: set<Key>): (ticks: map<Key, Ticked>)
    ensures ticks.Keys == g.ledgers.Keys
  {
    map k | k in g.ledgers :: TickOf(cfg, g, k, now, accepts)
  }

  // The gate once the live ledgers among `done` have ticked.

  function TickedLedgers(g: Gate, ticks: map<Key, Ticked>, done: set<Key>): map<Key, Ledger>
    requires ticks.Keys == g.ledgers.Keys
  {
    map k | k in g.ledgers :: if k in done && Live(g, k) then ticks[k].ledger else g.ledgers[k]
  }

  predicate TickedSlot(g: Gate, done: set<Key>, i: nat) {
    LiveSlot(g, i) && g.numberToKey[i] in done
  }

  function TickedRoom(g: Gate, ticks: map<Key, Ticked>, done: set<Key>): (r: seq<int>)
    requires ticks.Keys == g.ledgers.Keys
    ensures |r| == |g.room|
  {
    seq(|g.room|, i requires 0 <= i < |g.room| =>
      if TickedSlot(g, done, i) then ticks[g.numberToKey[i]].room else g.room[i])
  }

  function TickedRefused(g: Gate, ticks: map<Key, Ticked>, done: set<Key>): (r: seq<bool>)
    requires ticks.Keys == g.ledgers.Keys
    ensures |r| == |g.refused|
  {
    seq(|g.refused|, i requires 0 <= i < |g.refused| =>
      g.refused[i] && !(TickedSlot(g, done, i) && ticks[g.numberToKey[i]].tookHint))
  }

  function TickedThrough(g: Gate, ticks: map<Key, Ticked>, done: set<Key>): Gate
    requires ticks.Keys == g.ledgers.Keys
  {
    g.(ledgers := TickedLedgers(g, ticks, done),
       room := TickedRoom(g, ticks, done),
       refused := TickedRefused(g, ticks, done))
  }

  /** One tick of every live ledger. */
  function OnTick(cfg: Config, g: Gate, now: int, accepts: set<Key>): Gate {
    TickedThrough(g, Ticks(cfg, g, now, accepts), g.ledgers.Keys)
  }

  function FencesThrough(g: Gate, ticks: map<Key, Ticked>, done: set<Key>): map<Key, Packet>
    requires ticks.Keys == g.ledgers.Keys
  {
    map k | k in g.ledgers && k in done && Live(g, k) && ticks[k].fenced :: NextFence(g.ledgers[k])
  }

  /** The fences a tick puts on the wire, by friend. */
  function TickFences(cfg: Config, g: Gate, now: int, accepts: set<Key>): map<Key, Packet> {
    FencesThrough(g, Ticks(cfg, g, now, accepts), g.ledgers.Keys)
  }

  function ForgetFriendNumber(g: Gate, number: nat): Gate {
    g.(numberToKey := g.numberToKey - {number},
       room := if number < |g.room| then g.room[number := OPEN_ROOM] else g.room,
       refused := if number < |g.refused| then g.refused[number := false] else g.refused)
  }

  /** The lock-free check: a packet that starts like DATA and is larger than the published room. */
  predicate FastRejects(g: Gate, number: nat, p: Packet) {
    && number < |g.room| && |p| >= 2
    && p[0] == LOSSLESS_PACKET_BYTE && p[1] == TypeByte(TunnelData)
    && |p| > g.room[number]
  }

  function FastReject(g: Gate, number: nat, p: Packet): Verdict {
    if FastRejects(g, number, p) && number < |g.refused|
    then Verdict(g.(refused := g.refused[number := true]), true)
    else Verdict(g, FastRejects(g, number, p))
  }

  // ---------------------------------------------------------------------------
  // Every run of the gate
  // ---------------------------------------------------------------------------

  datatype GateEvent =
    | EAdmit(number: nat, reported: Option<Key>, packet: Packet, now: int)
    | EAccepted(number: nat, reported: Option<Key>, packet: Packet, now: int, fenceOk: bool)
    | EReceived(number: nat, reported: Option<Key>, packet: Packet, now: int)
    | EStatus(number: nat, reported: Option<Key>, connected: bool)
    | ETick(now: int, accepts: set<Key>)
    | EForget(number: nat)
    | EFastReject(number: nat, packet: Packet)

  function Next(cfg: Config, seed: U64, g: Gate, e: GateEvent): Gate {
    match e
    case EAdmit(n, key, p, now) => Admit(cfg, seed, g, n, key, p, now).gate
    case EAccepted(n, key, p, now, ok) => OnAccepted(cfg, seed, g, n, key, p, now, ok).gate
    case EReceived(n, key, p, now) => OnReceived(cfg, seed, g, n, key, p, now)
    case EStatus(n, key, connected) => OnConnectionStatus(seed, g, n, key, connected)
    case ETick(now, accepts) => OnTick(cfg, g, now, accepts)
    case EForget(n) => ForgetFriendNumber(g, n)
    case EFastReject(n, p) => FastReject(g, n, p).gate
  }

  /** toxcore never reports one key under a second number while the first is still in use. */
  predicate Plausible(g: Gate, number: nat, reported: Option<Key>) {
    reported.Some? && number !in g.numberToKey ==> reported.value !in g.numberToKey.Values
  }

  predicate Possible(g: Gate, e: GateEvent) {
    match e
    case EAdmit(n, key, _, _) => Plausible(g, n, key)
    case EAccepted(n, key, _, _, _) => Plausible(g, n, key)
    case EReceived(n, key, _, _) => Plausible(g, n, key)
    case EStatus(n, key, _) => Plausible(g, n, key)
    case _ => true
  }

  ghost predicate SoundLedger(cfg: Config, l: Ledger) {
    exists sentAt: seq<nat> :: Sound(cfg, l, sentAt)
  }

  ghost predicate Inv(cfg: Config, g: Gate) {
    SoundLedgers(cfg, g) && Names(g) && Hints(cfg, g)
  }

  ghost predicate SoundLedgers(cfg: Config, g: Gate) {
    forall k :: k in g.ledgers ==> SoundLedger(cfg, g.ledgers[k])
  }

  /** A number in use names a known ledger that carries that very number. */
  predicate Named(g: Gate, n: nat) {
    n in g.numberToKey && g.numberToKey[n] in g.ledgers && g.ledgers[g.numberToKey[n]].friendNumber == n
  }

  ghost predicate Names(g: Gate) {
    forall n :: n in g.numberToKey ==> Named(g, n)
  }

  /** The published room is at least the real one; an unused slot is open. */
  predicate HintHolds(cfg: Config, g: Gate, n: nat)
    requires n < |g.room|
  {
    if n !in g.numberToKey then g.room[n] == OPEN_ROOM
    else g.numberToKey[n] in g.ledgers && g.room[n] >= Room(cfg, g.ledgers[g.numberToKey[n]])
  }

  ghost predicate Hints(cfg: Config, g: Gate) {
    && |g.room| == HINT_SLOTS && |g.refused| == HINT_SLOTS
    && (forall n :: 0 <= n < HINT_SLOTS ==> HintHolds(cfg, g, n))
  }

  lemma EmptyGateInv(cfg: Config)
    ensures Inv(cfg, EmptyGate())
  {
  }

  // Finding or creating the ledger of a number.

  lemma WithLedgerSound(cfg: Config, seed: U64, g: Gate, number: nat, key: Key)
    requires SoundLedgers(cfg, g)
    ensures SoundLedgers(cfg, WithLedger(seed, g, number, key))
  {
    var h := WithLedger(seed, g, number, key);
    forall k | k in h.ledgers ensures SoundLedger(cfg, h.ledgers[k]) {
      if k in g.ledgers {
        var sentAt :| Sound(cfg, g.ledgers[k], sentAt);
        assert Sound(cfg, h.ledgers[k], sentAt);
      } else {
        assert Sound(cfg, h.ledgers[k], [0]);
      }
    }
  }

  lemma WithLedgerNames(seed: U64, g: Gate, number: nat, key: Key)
    requires Names(g) && KeyOf(g, number, Some(key)) == Some(key) && Plausible(g, number, Some(key))
    ensures Names(WithLedger(seed, g, number, key)) && Named(WithLedger(seed, g, number, key), number)
  {
    var h := WithLedger(seed, g, number, key);
    forall n | n in h.numberToKey ensures Named(h, n) {
      if n != number {
        assert Named(g, n) && g.numberToKey[n] in g.numberToKey.Values;
      }
    }
  }

  lemma WithLedgerHints(cfg: Config, seed: U64, g: Gate, number: nat, key: Key)
    requires SaneConfig(cfg) && Hints(cfg, g)
    requires KeyOf(g, number, Some(key)) == Some(key)
    ensures Hints(cfg, WithLedger(seed, g, number, key))
  {
    hide Room;
    var h := WithLedger(seed, g, number, key);
    forall n | 0 <= n < HINT_SLOTS ensures HintHolds(cfg, h, n) {
      assert HintHolds(cfg, g, n);
      if n in h.numberToKey {
        var k := h.numberToKey[n];
        RoomAtMostOpen(cfg, h.ledgers[k]);
        if n in g.numberToKey {
          RoomIgnoresNumber(cfg, g.ledgers[k], h.ledgers[k].friendNumber);
        }
      }
    }
  }

  lemma WithLedgerInv(cfg: Config, seed: U64, g: Gate, number: nat, key: Key)
    requires Inv(cfg, g) && SaneConfig(cfg)
    requires KeyOf(g, number, Some(key)) == Some(key) && Plausible(g, number, Some(key))
    ensures Inv(cfg, WithLedger(seed, g, number, key))
    ensures Named(WithLedger(seed, g, number, key), number)
  {
    WithLedgerSound(cfg, seed, g, number, key);
    WithLedgerNames(seed, g, number, key);
    WithLedgerHints(cfg, seed, g, number, key);
  }

  lemma RoomIgnoresNumber(cfg: Config, l: Ledger, n: nat)
    ensures Room(cfg, l.(friendNumber := n)) == Room(cfg, l)
  {
  }

  lemma RoomAtMostOpen(cfg: Config, l: Ledger)
    requires SaneConfig(cfg)
    ensures Room(cfg, l) <= OPEN_ROOM
  {
  }

  // Replacing one ledger by its successor.

  lemma StoreHints(cfg: Config, g: Gate, key: Key, m: Ledger, room: seq<int>)
    requires Hints(cfg, g) && Names(g) && key in g.ledgers
    requires m.friendNumber == g.ledgers[key].friendNumber
    requires room == Publish(cfg, g.room, m) || (room == g.room && Room(cfg, m) <= Room(cfg, g.ledgers[key]))
    requires m.friendNumber in g.numberToKey && g.numberToKey[m.friendNumber] == key
    ensures Hints(cfg, Store(g, key, m).(room := room))
  {
    hide Room;
    var h := Store(g, key, m).(room := room);
    forall n | 0 <= n < HINT_SLOTS ensures HintHolds(cfg, h, n) {
      assert HintHolds(cfg, g, n);
      if n in g.numberToKey {
        assert Named(g, n);
      }
    }
  }

  lemma StoreRest(cfg: Config, g: Gate, key: Key, m: Ledger, room: seq<int>)
    requires SoundLedgers(cfg, g) && Names(g) && key in g.ledgers
    requires SoundLedger(cfg, m) && m.friendNumber == g.ledgers[key].friendNumber
    ensures var h := Store(g, key, m).(room := room); SoundLedgers(cfg, h) && Names(h)
  {
    var h := Store(g, key, m).(room := room);
    forall n | n in h.numberToKey ensures Named(h, n) {
      assert Named(g, n);
    }
  }

  /** A sound successor, with its hint republished or its room not grown, keeps the gate's invariant. */
  lemma StoreInv(cfg: Config, g: Gate, n: nat, m: Ledger, room: seq<int>, sentAt: seq<nat>)
    requires Inv(cfg, g) && Named(g, n)
    requires Sound(cfg, m, sentAt)
    requires m.friendNumber == n
    requires room == Publish(cfg, g.room, m)
             || (room == g.room && Room(cfg, m) <= Room(cfg, g.ledgers[g.numberToKey[n]]))
    ensures Inv(cfg, Store(g, g.numberToKey[n], m).(room := room))
  {
    hide SoundLedgers, Names, Hints, Room, Sound;
    assert SoundLedger(cfg, m);
    StoreHints(cfg, g, g.numberToKey[n], m, room);
    StoreRest(cfg, g, g.numberToKey[n], m, room);
  }

  lemma AdmitInv(cfg: Config, seed: U64, g: Gate, n: nat, reported: Option<Key>, p: Packet, now: int)
    requires Inv(cfg, g) && SaneConfig(cfg) && Plausible(g, n, reported)
    ensures Inv(cfg, Admit(cfg, seed, g, n, reported, p, now).gate)
  {
    hide Inv, Admits;
    var key := KeyOf(g, n, reported);
    if IsData(p) && key.Some? {
      var h := WithLedger(seed, g, n, key.value);
      WithLedgerInv(cfg, seed, g, n, key.value);
      AdmitKeptInv(cfg, h, n, now, Admit(cfg, seed, g, n, reported, p, now).gate);
    }
  }

  lemma AdmitKeptInv(cfg: Config, g: Gate, n: nat, now: int, r: Gate)
    requires Inv(cfg, g) && Named(g, n)
    requires var m := g.ledgers[g.numberToKey[n]].(lastRefusedNs := now);
             r == g || r == Store(g, g.numberToKey[n], m).(room := Publish(cfg, g.room, m))
    ensures Inv(cfg, r)
  {
    hide Inv;
    RefusalInv(cfg, g, n, now);
  }

  lemma RefusalInv(cfg: Config, g: Gate, n: nat, now: int)
    requires Inv(cfg, g) && Named(g, n)
    ensures var key := g.numberToKey[n];
            var m := g.ledgers[key].(lastRefusedNs := now);
            Inv(cfg, Store(g, key, m).(room := Publish(cfg, g.room, m)))
  {
    hide Inv, Sound, Room;
    var l := g.ledgers[g.numberToKey[n]];
    var m := l.(lastRefusedNs := now);
    var sentAt := NamedHistory(cfg, g, n);
    SoundSame(cfg, l, m, sentAt);
    StoreInv(cfg, g, n, m, Publish(cfg, g.room, m), sentAt);
  }

  lemma SoundSame(cfg: Config, l: Ledger, m: Ledger, sentAt: seq<nat>)
    requires Sound(cfg, l, sentAt) && m.book == l.book && m.lastFenced == l.lastFenced
    ensures Sound(cfg, m, sentAt)
  {
  }

  lemma RoomSame(cfg: Config, l: Ledger, m: Ledger)
    requires m.book == l.book && m.phase == l.phase && m.probing == l.probing
    requires m.rtt == l.rtt && m.rateBps == l.rateBps
    ensures Room(cfg, m) == Room(cfg, l)
  {
  }

  ghost function History(cfg: Config, l: Ledger): (sentAt: seq<nat>)
    requires SoundLedger(cfg, l)
    ensures Sound(cfg, l, sentAt)
  {
    var sentAt :| Sound(cfg, l, sentAt);
    sentAt
  }

  lemma NamedHistory(cfg: Config, g: Gate, n: nat) returns (sentAt: seq<nat>)
    requires Inv(cfg, g) && Named(g, n)
    ensures Sound(cfg, g.ledgers[g.numberToKey[n]], sentAt) && Valid(g.ledgers[g.numberToKey[n]].book)
  {
    sentAt := History(cfg, g.ledgers[g.numberToKey[n]]);
  }

  lemma AcceptedInv(cfg: Config, seed: U64, g: Gate, n: nat, reported: Option<Key>, p: Packet, now: int,
                    fenceOk: bool)
    requires Inv(cfg, g) && SaneConfig(cfg) && Plausible(g, n, reported)
    ensures Inv(cfg, OnAccepted(cfg, seed, g, n, reported, p, now, fenceOk).gate)
  {
    hide Inv, OnAccepted;
    var r := OnAccepted(cfg, seed, g, n, reported, p, now, fenceOk).gate;
    AcceptedShape(cfg, seed, g, n, reported, p, now, fenceOk);
    if r != g {
      var key := KeyOf(g, n, reported).value;
      WithLedgerInv(cfg, seed, g, n, key);
      AcceptedKeptInv(cfg, WithLedger(seed, g, n, key), n, |p|, now, fenceOk, r);
    }
  }

  lemma AcceptedShape(cfg: Config, seed: U64, g: Gate, n: nat, reported: Option<Key>, p: Packet, now: int,
                      fenceOk: bool)
    ensures var r := OnAccepted(cfg, seed, g, n, reported, p, now, fenceOk).gate;
            var key := KeyOf(g, n, reported);
            || r == g
            || (key.Some?
                && var h := WithLedger(seed, g, n, key.value);
                   var l := h.ledgers[key.value];
                   && h.numberToKey[n] == key.value
                   && (|| r == Store(h, key.value, DataAccepted(cfg, l, |p|, now, fenceOk))
                       || r == Store(h, key.value, l.(emptyPingsSent := l.emptyPingsSent + 1))))
  {
    hide DataAccepted, FenceBehindData;
  }

  lemma AcceptedKeptInv(cfg: Config, g: Gate, n: nat, size: nat, now: int, fenceOk: bool, r: Gate)
    requires Inv(cfg, g) && SaneConfig(cfg) && Named(g, n)
    requires var key := g.numberToKey[n];
             var l := g.ledgers[key];
             || r == Store(g, key, DataAccepted(cfg, l, size, now, fenceOk))
             || r == Store(g, key, l.(emptyPingsSent := l.emptyPingsSent + 1))
    ensures Inv(cfg, r)
  {
    hide Inv, DataAccepted;
    DataInv(cfg, g, n, size, now, fenceOk);
    PingInv(cfg, g, n);
  }

  lemma DataInv(cfg: Config, g: Gate, n: nat, size: nat, now: int, fenceOk: bool)
    requires Inv(cfg, g) && SaneConfig(cfg) && Named(g, n)
    ensures var key := g.numberToKey[n];
            Inv(cfg, Store(g, key, DataAccepted(cfg, g.ledgers[key], size, now, fenceOk)))
  {
    hide Inv, Sound, Room;
    var l := g.ledgers[g.numberToKey[n]];
    var sentAt := NamedHistory(cfg, g, n);
    var m := DataAccepted(cfg, l, size, now, fenceOk);
    DataKeepsSound(cfg, l, size, now, fenceOk, sentAt);
    SilentEventsOnlyShrinkRoom(cfg, l, size, now, fenceOk);
    var after := if FenceBehindData(cfg, l, size) && fenceOk then sentAt + [l.book.emitted + size] else sentAt;
    StoreInv(cfg, g, n, m, g.room, after);
  }

  lemma PingInv(cfg: Config, g: Gate, n: nat)
    requires Inv(cfg, g) && Named(g, n)
    ensures var key := g.numberToKey[n];
            var l := g.ledgers[key];
            Inv(cfg, Store(g, key, l.(emptyPingsSent := l.emptyPingsSent + 1)))
  {
    hide Inv, Sound, Room;
    var l := g.ledgers[g.numberToKey[n]];
    var m := l.(emptyPingsSent := l.emptyPingsSent + 1);
    var sentAt := NamedHistory(cfg, g, n);
    SoundSame(cfg, l, m, sentAt);
    RoomSame(cfg, l, m);
    StoreInv(cfg, g, n, m, g.room, sentAt);
  }

  lemma ReceivedInv(cfg: Config, seed: U64, g: Gate, n: nat, reported: Option<Key>, p: Packet, now: int)
    requires Inv(cfg, g) && SaneConfig(cfg) && Plausible(g, n, reported)
    ensures Inv(cfg, OnReceived(cfg, seed, g, n, reported, p, now))
  {
    hide Inv, PongReceived, PongPublishes;
    var key := KeyOf(g, n, reported);
    if IsControlPong(p) && key.Some? {
      WithLedgerInv(cfg, seed, g, n, key.value);
      PongInv(cfg, WithLedger(seed, g, n, key.value), n, p, now);
    }
  }

  lemma PongInv(cfg: Config, g: Gate, n: nat, p: Packet, now: int)
    requires Inv(cfg, g) && Named(g, n)
    ensures var key := g.numberToKey[n];
            var m := PongReceived(cfg, g.ledgers[key], p, now);
            Inv(cfg, Store(g, key, m).(
              room := if PongPublishes(g.ledgers[key], p) then Publish(cfg, g.room, m) else g.room))
  {
    hide Inv, Sound, Room, PongReceived, PongPublishes;
    var l := g.ledgers[g.numberToKey[n]];
    var m := PongReceived(cfg, l, p, now);
    var sentAt := NamedHistory(cfg, g, n);
    PongKeepsSound(cfg, l, p, now, sentAt);
    PongBook(cfg, l, p, now);
    if PongPublishes(l, p) {
      StoreInv(cfg, g, n, m, Publish(cfg, g.room, m), sentAt);
    } else {
      SilentPong(cfg, l, p, now);
      StoreInv(cfg, g, n, m, g.room, sentAt);
    }
  }

  lemma StatusInv(cfg: Config, seed: U64, g: Gate, n: nat, reported: Option<Key>, connected: bool)
    requires Inv(cfg, g) && SaneConfig(cfg) && Plausible(g, n, reported)
    ensures Inv(cfg, OnConnectionStatus(seed, g, n, reported, connected))
  {
    hide Inv, Reconnected;
    var key := KeyOf(g, n, reported);
    if connected && key.Some? {
      WithLedgerInv(cfg, seed, g, n, key.value);
      ReconnectInv(cfg, WithLedger(seed, g, n, key.value), n);
    }
  }

  lemma ReconnectInv(cfg: Config, g: Gate, n: nat)
    requires Inv(cfg, g) && SaneConfig(cfg) && Named(g, n)
    ensures Inv(cfg, Store(g, g.numberToKey[n], Reconnected(g.ledgers[g.numberToKey[n]])))
  {
    hide Inv, Sound, Room;
    var l := g.ledgers[g.numberToKey[n]];
    var sentAt := NamedHistory(cfg, g, n);
    SoundSame(cfg, l, Reconnected(l), sentAt);
    SilentEventsOnlyShrinkRoom(cfg, l, 0, 0, false);
    StoreInv(cfg, g, n, Reconnected(l), g.room, sentAt);
  }

  lemma TickKeepsIdentity(cfg: Config, l: Ledger, hintRefused: bool, now: int, fenceOk: bool)
    ensures var m := Tick(cfg, l, hintRefused, now, fenceOk).ledger;
            m.friendNumber == l.friendNumber && m.epoch == l.epoch
  {
  }

  lemma TickedLedger(cfg: Config, g: Gate, key: Key, now: int, accepts: set<Key>)
    requires SaneConfig(cfg) && key in g.ledgers && SoundLedger(cfg, g.ledgers[key])
    ensures var m := OnTick(cfg, g, now, accepts).ledgers[key];
            && SoundLedger(cfg, m)
            && m.friendNumber == g.ledgers[key].friendNumber && m.epoch == g.ledgers[key].epoch
  {
    hide Tick, Sound;
    var l := g.ledgers[key];
    TickSound(cfg, l, HintRefused(g, l.friendNumber), now, key in accepts, TickOf(cfg, g, key, now, accepts));
  }

  lemma TickSound(cfg: Config, l: Ledger, hintRefused: bool, now: int, fenceOk: bool, t: Ticked)
    requires SaneConfig(cfg) && SoundLedger(cfg, l) && t == Tick(cfg, l, hintRefused, now, fenceOk)
    ensures SoundLedger(cfg, t.ledger)
    ensures t.ledger.friendNumber == l.friendNumber && t.ledger.epoch == l.epoch
  {
    hide Tick, Sound;
    TickKeepsSound(cfg, l, hintRefused, now, fenceOk, History(cfg, l));
    TickKeepsIdentity(cfg, l, hintRefused, now, fenceOk);
  }

  lemma TickedHint(cfg: Config, g: Gate, n: nat, now: int, accepts: set<Key>)
    requires Names(g) && n < |g.room| && HintHolds(cfg, g, n)
    ensures HintHolds(cfg, OnTick(cfg, g, now, accepts), n)
  {
    hide Tick, Room;
    if n in g.numberToKey {
      assert Named(g, n);
      var k := g.numberToKey[n];
      TickPublishesRoom(cfg, g.ledgers[k], HintRefused(g, n), now, k in accepts);
    }
  }

  lemma TickInv(cfg: Config, g: Gate, now: int, accepts: set<Key>)
    requires Inv(cfg, g) && SaneConfig(cfg)
    ensures Inv(cfg, OnTick(cfg, g, now, accepts))
  {
    hide Tick, TickOf, Ticks, Room, Sound, SoundLedger;
    var h := OnTick(cfg, g, now, accepts);
    forall k | k in g.ledgers
      ensures SoundLedger(cfg, h.ledgers[k])
      ensures h.ledgers[k].friendNumber == g.ledgers[k].friendNumber && h.ledgers[k].epoch == g.ledgers[k].epoch
    {
      TickedLedger(cfg, g, k, now, accepts);
    }
    forall n | 0 <= n < HINT_SLOTS ensures HintHolds(cfg, h, n) {
      TickedHint(cfg, g, n, now, accepts);
    }
    SameNames(g, h);
  }

  lemma SameNames(g: Gate, h: Gate)
    requires Names(g) && h.ledgers.Keys == g.ledgers.Keys && h.numberToKey == g.numberToKey
    requires forall k :: k in g.ledgers ==> h.ledgers[k].friendNumber == g.ledgers[k].friendNumber
    ensures Names(h)
  {
    forall n | n in h.numberToKey ensures Named(h, n) {
      assert Named(g, n);
    }
  }

  lemma ForgetInv(cfg: Config, g: Gate, number: nat)
    requires Inv(cfg, g)
    ensures Inv(cfg, ForgetFriendNumber(g, number))
  {
    var h := ForgetFriendNumber(g, number);
    forall n | n in h.numberToKey ensures Named(h, n) {
      assert Named(g, n);
    }
    forall n | 0 <= n < HINT_SLOTS ensures HintHolds(cfg, h, n) {
      assert HintHolds(cfg, g, n);
    }
  }

  lemma NextInv(cfg: Config, seed: U64, g: Gate, e: GateEvent)
    requires Inv(cfg, g) && SaneConfig(cfg) && Possible(g, e)
    ensures Inv(cfg, Next(cfg, seed, g, e))
  {
    hide Inv, Admit, OnAccepted, OnReceived, OnConnectionStatus, OnTick;
    match e
    case EAdmit(n, key, p, now) => AdmitInv(cfg, seed, g, n, key, p, now);
    case EAccepted(n, key, p, now, ok) => AcceptedInv(cfg, seed, g, n, key, p, now, ok);
    case EReceived(n, key, p, now) => ReceivedInv(cfg, seed, g, n, key, p, now);
    case EStatus(n, key, connected) => StatusInv(cfg, seed, g, n, key, connected);
    case ETick(now, accepts) => TickInv(cfg, g, now, accepts);
    case EForget(n) => ForgetInv(cfg, g, n);
    case EFastReject(n, p) => FastRejectInv(cfg, g, n, p);
  }

  lemma FastRejectInv(cfg: Config, g: Gate, n: nat, p: Packet)
    requires Inv(cfg, g)
    ensures Inv(cfg, FastReject(g, n, p).gate)
  {
    hide Room;
    var h := FastReject(g, n, p).gate;
    SameNames(g, h);
    forall m | 0 <= m < HINT_SLOTS ensures HintHolds(cfg, h, m) {
      assert HintHolds(cfg, g, m);
    }
  }

  /** `g` is what the gate has become after some run of possible events. */
  ghost predicate Reached(cfg: Config, seed: U64, es: seq<GateEvent>, g: Gate)
    decreases |es|
  {
    if es == [] then g == EmptyGate()
    else
      exists f: Gate {:trigger Reached(cfg, seed, es[..|es| - 1], f)} ::
        && Reached(cfg, seed, es[..|es| - 1], f)
        && Possible(f, es[|es| - 1]) && g == Next(cfg, seed, f, es[|es| - 1])
  }

  lemma {:induction false} ReachedInv(cfg: Config, seed: U64, es: seq<GateEvent>, g: Gate)
    requires SaneConfig(cfg) && Reached(cfg, seed, es, g)
    ensures Inv(cfg, g)
    decreases |es|
  {
    hide Inv, Next;
    if es == [] {
      EmptyGateInv(cfg);
    } else {
      var f :| Reached(cfg, seed, es[..|es| - 1], f)
               && Possible(f, es[|es| - 1]) && g == Next(cfg, seed, f, es[|es| - 1]);
      ReachedInv(cfg, seed, es[..|es| - 1], f);
      NextInv(cfg, seed, f, es[|es| - 1]);
    }
  }

  /**
   * The hint never over-rejects: in every reachable state, a well-formed DATA
   * packet the lock-free check turns away would be refused by admission too.
   */
  lemma FastRejectIsSafe(
    cfg: Config, seed: U64, es: seq<GateEvent>, g: Gate, number: nat, reported: Option<Key>, p: Packet, now: int)
    requires SaneConfig(cfg) && Reached(cfg, seed, es, g)
    requires IsData(p) && |p| <= OPEN_ROOM
    requires FastRejects(g, number, p)
    ensures !Admit(cfg, seed, g, number, reported, p, now).ok
  {
    ReachedInv(cfg, seed, es, g);
    assert HintHolds(cfg, g, number);
    assert Named(g, number);
    var l := g.ledgers[g.numberToKey[number]];
    RoomIsAdmission(cfg, l, |p|);
    RoomIgnoresNumber(cfg, l, number);
    RoomIsAdmission(cfg, l.(friendNumber := number), |p|);
  }

  /** Right after a ledger publishes its hint, the lock-free check and admission agree on well-formed DATA. */
  lemma FreshHintIsExact(cfg: Config, seed: U64, g: Gate, number: nat, p: Packet, reported: Option<Key>, now: int)
    requires SaneConfig(cfg) && |g.room| == HINT_SLOTS && number < HINT_SLOTS
    requires Named(g, number) && IsData(p) && |p| <= OPEN_ROOM
    requires g.room == Publish(cfg, g.room, g.ledgers[g.numberToKey[number]])
    ensures FastRejects(g, number, p) <==> !Admit(cfg, seed, g, number, reported, p, now).ok
  {
    var l := g.ledgers[g.numberToKey[number]];
    assert g.room[number] == Room(cfg, l);
    RoomIgnoresNumber(cfg, l, number);
    RoomIsAdmission(cfg, l.(friendNumber := number), |p|);
  }

  /**
   * The exact condition: of the packets the lock-free check turns away in a
   * reachable gate, admission would refuse those that decode and no others.
   */
  lemma OverRejectedExactlyIfMalformed(
    cfg: Config, seed: U64, es: seq<GateEvent>, g: Gate, number: nat, reported: Option<Key>, p: Packet, now: int)
    requires SaneConfig(cfg) && Reached(cfg, seed, es, g) && |p| <= OPEN_ROOM
    requires FastRejects(g, number, p)
    ensures Admit(cfg, seed, g, number, reported, p, now).ok <==> PeekAt(p).None?
  {
    hide Reached, Admits;
    if PeekAt(p).Some? {
      FastRejectIsSafe(cfg, seed, es, g, number, reported, p, now);
    }
  }

  /** Such packets exist: behind one accepted and one refused DATA packet, two bytes that only start like DATA. */
  lemma MalformedDataIsOverRejected(seed: U64)
    ensures var cfg := Config(4, 4, 0, 100, 0, 64, 0, 0, 0, 0);
            var data: Packet, scrap: Packet := ToPacket(Frame(TunnelData, 1, [7])), [LOSSLESS_PACKET_BYTE, 2];
            var es := [EAccepted(0, Some([1]), data, 1, false), EAdmit(0, None, data, 2)];
            exists g :: Reached(cfg, seed, es, g) && FastRejects(g, 0, scrap)
                        && Admit(cfg, seed, g, 0, None, scrap, 3).ok
  {
    var cfg := Config(4, 4, 0, 100, 0, 64, 0, 0, 0, 0);
    var data: Packet, scrap: Packet := ToPacket(Frame(TunnelData, 1, [7])), [LOSSLESS_PACKET_BYTE, 2];
    PacketFrame(Frame(TunnelData, 1, [7]));
    assert IsData(data) && |data| == 7;
    var accepted, refused := EAccepted(0, Some([1]), data, 1, false), EAdmit(0, None, data, 2);
    RefusedClosesHint(cfg, seed, data);
    hide Next, ToPacket, Admit, IsData;
    var g1 := Next(cfg, seed, EmptyGate(), accepted);
    assert Reached(cfg, seed, [], EmptyGate());
    assert Possible(EmptyGate(), accepted) && Possible(g1, refused);
    hide Reached, Possible, EmptyGate, FastRejects;
    ReachedSnoc(cfg, seed, [], EmptyGate(), accepted);
    ReachedSnoc(cfg, seed, [accepted], g1, refused);
    assert [] + [accepted] == [accepted] && [accepted] + [refused] == [accepted, refused];
    ScrapPasses(cfg, seed, Next(cfg, seed, g1, refused), scrap);
  }

  lemma ReachedSnoc(cfg: Config, seed: U64, es: seq<GateEvent>, g: Gate, e: GateEvent)
    requires Reached(cfg, seed, es, g) && Possible(g, e)
    ensures Reached(cfg, seed, es + [e], Next(cfg, seed, g, e))
  {
    hide Next;
    assert (es + [e])[..|es|] == es;
  }

  lemma ScrapPasses(cfg: Config, seed: U64, g: Gate, scrap: Packet)
    requires |g.room| == HINT_SLOTS && g.room[0] == 0 && scrap == [LOSSLESS_PACKET_BYTE, 2]
    ensures FastRejects(g, 0, scrap) && Admit(cfg, seed, g, 0, None, scrap, 3).ok
  {
  }

  lemma RefusedClosesHint(cfg: Config, seed: U64, data: Packet)
    requires cfg == Config(4, 4, 0, 100, 0, 64, 0, 0, 0, 0) && IsData(data) && |data| == 7
    ensures var g1 := Next(cfg, seed, EmptyGate(), EAccepted(0, Some([1]), data, 1, false));
            var g2 := Next(cfg, seed, g1, EAdmit(0, None, data, 2));
            |g2.room| == HINT_SLOTS && g2.room[0] == 0
  {
    hide LedgerEpoch, IsData;
    var g1 := Next(cfg, seed, EmptyGate(), EAccepted(0, Some([1]), data, 1, false));
    var l := g1.ledgers[[1]];
    assert g1.numberToKey == map[0 := [1]] && l.friendNumber == 0 && l.phase == Bootstrap;
    assert l.book.emitted == 7 && l.book.delivered == 0 && !l.probing;
    assert !Admits(cfg, l, 7) && Room(cfg, l.(lastRefusedNs := 2)) == 0;
  }

  /** In every reachable gate, every ledger's outstanding fences are in order and within bounds. */
  lemma ReachedLedgersSound(cfg: Config, seed: U64, es: seq<GateEvent>, g: Gate, key: Key)
    requires SaneConfig(cfg) && Reached(cfg, seed, es, g) && key in g.ledgers
    ensures Valid(g.ledgers[key].book)
    ensures |g.ledgers[key].book.entries| <= Max(cfg.maxLedgerEntries, 2)
  {
    ReachedInv(cfg, seed, es, g);
    assert SoundLedger(cfg, g.ledgers[key]);
  }

  // ---------------------------------------------------------------------------
  // Whose fence is it
  // ---------------------------------------------------------------------------

  ghost predicate FromCounter(seed: U64, created: nat, epoch: U64) {
    exists i: nat :: 1 <= i <= created && epoch == LedgerEpoch(seed, i)
  }

  /** Every ledger's epoch came from the counter, and no two ledgers share one. */
  ghost predicate Epoched(seed: U64, g: Gate) {
    && (forall k :: k in g.ledgers ==> FromCounter(seed, g.created, g.ledgers[k].epoch))
    && (forall k, q :: k in g.ledgers && q in g.ledgers && k != q ==> g.ledgers[k].epoch != g.ledgers[q].epoch)
  }

  /** Same ledgers, same epochs. */
  predicate SameEpochs(g: Gate, h: Gate) {
    && h.created == g.created && h.ledgers.Keys == g.ledgers.Keys
    && forall k :: k in g.ledgers ==> h.ledgers[k].epoch == g.ledgers[k].epoch
  }

  lemma SameEpochsKeep(seed: U64, g: Gate, h: Gate)
    requires Epoched(seed, g) && SameEpochs(g, h)
    ensures Epoched(seed, h)
  {
    hide FromCounter;
    forall k | k in h.ledgers ensures FromCounter(seed, h.created, h.ledgers[k].epoch) {
      assert FromCounter(seed, g.created, g.ledgers[k].epoch);
    }
    forall k, q | k in h.ledgers && q in h.ledgers && k != q ensures h.ledgers[k].epoch != h.ledgers[q].epoch {
      assert g.ledgers[k].epoch != g.ledgers[q].epoch;
    }
  }

  lemma WithLedgerEpochs(seed: U64, g: Gate, number: nat, key: Key)
    requires Epoched(seed, g) && g.created + 1 < TWO_TO_64
    ensures Epoched(seed, WithLedger(seed, g, number, key))
  {
    hide LedgerEpoch;
    var h := WithLedger(seed, g, number, key);
    forall k | k in h.ledgers ensures FromCounter(seed, h.created, h.ledgers[k].epoch) {
      if k in g.ledgers {
        assert FromCounter(seed, g.created, g.ledgers[k].epoch);
      } else {
        assert h.ledgers[k].epoch == LedgerEpoch(seed, g.created + 1);
      }
    }
    forall k, q | k in h.ledgers && q in h.ledgers && k != q ensures h.ledgers[k].epoch != h.ledgers[q].epoch {
      if k !in g.ledgers {
        FreshEpoch(seed, g, q);
      } else if q !in g.ledgers {
        FreshEpoch(seed, g, k);
      }
    }
  }

  /** The next epoch is none of those in use. */
  lemma FreshEpoch(seed: U64, g: Gate, key: Key)
    requires Epoched(seed, g) && key in g.ledgers && g.created + 1 < TWO_TO_64
    ensures g.ledgers[key].epoch != LedgerEpoch(seed, g.created + 1)
  {
    hide LedgerEpoch;
    assert FromCounter(seed, g.created, g.ledgers[key].epoch);
    var i: nat :| 1 <= i <= g.created && g.ledgers[key].epoch == LedgerEpoch(seed, i);
    if LedgerEpoch(seed, i) == LedgerEpoch(seed, g.created + 1) {
      EpochsAreDistinct(seed, i, g.created + 1);
    }
  }

  /** `h` has the epochs of `g`, once the ledger of friend `n` exists. */
  predicate KeepsEpochs(seed: U64, g: Gate, h: Gate, n: nat, reported: Option<Key>) {
    || SameEpochs(g, h)
    || (KeyOf(g, n, reported).Some? && SameEpochs(WithLedger(seed, g, n, KeyOf(g, n, reported).value), h))
  }

  /** An event changes no epoch, except that it may first create the ledger of its friend. */
  lemma NextEpochs(cfg: Config, seed: U64, g: Gate, e: GateEvent)
    ensures exists n, reported :: KeepsEpochs(seed, g, Next(cfg, seed, g, e), n, reported)
  {
    var h := Next(cfg, seed, g, e);
    hide KeepsEpochs;
    match e {
      case EAdmit(n, key, p, now) => AdmitEpochs(cfg, seed, g, n, key, p, now);
      case EAccepted(n, key, p, now, ok) => AcceptedEpochs(cfg, seed, g, n, key, p, now, ok);
      case EReceived(n, key, p, now) => ReceivedEpochs(cfg, seed, g, n, key, p, now);
      case EStatus(n, key, connected) => StatusEpochs(seed, g, n, key, connected);
      case _ =>
        QuietEpochs(cfg, seed, g, e);
        assert KeepsEpochs(seed, g, h, 0, None);
    }
  }

  lemma AdmitEpochs(cfg: Config, seed: U64, g: Gate, n: nat, reported: Option<Key>, p: Packet, now: int)
    ensures KeepsEpochs(seed, g, Admit(cfg, seed, g, n, reported, p, now).gate, n, reported)
  {
    hide Admits, LedgerEpoch, IsData;
  }

  lemma AcceptedEpochs(cfg: Config, seed: U64, g: Gate, n: nat, reported: Option<Key>, p: Packet, now: int, ok: bool)
    ensures KeepsEpochs(seed, g, OnAccepted(cfg, seed, g, n, reported, p, now, ok).gate, n, reported)
  {
    AcceptedShape(cfg, seed, g, n, reported, p, now, ok);
    hide OnAccepted, FenceBehindData, LedgerEpoch;
  }

  lemma ReceivedEpochs(cfg: Config, seed: U64, g: Gate, n: nat, reported: Option<Key>, p: Packet, now: int)
    ensures KeepsEpochs(seed, g, OnReceived(cfg, seed, g, n, reported, p, now), n, reported)
  {
    var key := KeyOf(g, n, reported);
    if key.Some? {
      PongBook(cfg, WithLedger(seed, g, n, key.value).ledgers[key.value], p, now);
    }
    hide PongReceived, PongPublishes, LedgerEpoch, IsControlPong;
  }

  lemma StatusEpochs(seed: U64, g: Gate, n: nat, reported: Option<Key>, connected: bool)
    ensures KeepsEpochs(seed, g, OnConnectionStatus(seed, g, n, reported, connected), n, reported)
  {
    hide LedgerEpoch;
  }

  lemma QuietEpochs(cfg: Config, seed: U64, g: Gate, e: GateEvent)
    requires e.ETick? || e.EForget? || e.EFastReject?
    ensures KeepsEpochs(seed, g, Next(cfg, seed, g, e), 0, None)
  {
    if e.ETick? {
      var h := OnTick(cfg, g, e.now, e.accepts);
      forall k | k in g.ledgers ensures h.ledgers[k].epoch == g.ledgers[k].epoch {
        TickKeepsIdentity(cfg, g.ledgers[k], HintRefused(g, g.ledgers[k].friendNumber), e.now, k in e.accepts);
      }
    }
    hide Tick;
  }

  /** In every run of fewer than 2^64 events no two ledgers share an epoch. */
  lemma {:induction false} ReachedEpochs(cfg: Config, seed: U64, es: seq<GateEvent>, g: Gate)
    requires Reached(cfg, seed, es, g) && |es| < TWO_TO_64 - 1
    ensures Epoched(seed, g) && g.created <= |es|
    decreases |es|
  {
    hide Next, Epoched;
    if es == [] {
      NoLedgersEpoched(seed);
    } else {
      var e := es[|es| - 1];
      var f :| Reached(cfg, seed, es[..|es| - 1], f) && Possible(f, e) && g == Next(cfg, seed, f, e);
      ReachedEpochs(cfg, seed, es[..|es| - 1], f);
      NextEpochs(cfg, seed, f, e);
      var n, reported :| KeepsEpochs(seed, f, g, n, reported);
      KeepsEpoched(seed, f, g, n, reported);
    }
  }

  lemma KeepsEpoched(seed: U64, g: Gate, h: Gate, n: nat, reported: Option<Key>)
    requires Epoched(seed, g) && g.created + 1 < TWO_TO_64 && KeepsEpochs(seed, g, h, n, reported)
    ensures Epoched(seed, h) && h.created <= g.created + 1
  {
    hide Epoched, LedgerEpoch;
    if SameEpochs(g, h) {
      SameEpochsKeep(seed, g, h);
    } else {
      var key := KeyOf(g, n, reported).value;
      WithLedgerEpochs(seed, g, n, key);
      SameEpochsKeep(seed, WithLedger(seed, g, n, key), h);
    }
  }

  lemma NoLedgersEpoched(seed: U64)
    ensures Epoched(seed, EmptyGate()) && EmptyGate().created == 0
  {
  }

  /** In every reachable gate, a peer's echo of another friend's fence credits nobody else. */
  lemma EchoesStayWithTheirFriend(
    cfg: Config, seed: U64, es: seq<GateEvent>, g: Gate, mine: Key, theirs: Key, fence: U64, now: int)
    requires Reached(cfg, seed, es, g) && |es| < TWO_TO_64 - 1
    requires mine in g.ledgers && theirs in g.ledgers && mine != theirs
    ensures PeerReply(FencePacket(g.ledgers[theirs].epoch, fence)).Some?
    ensures PongReceived(cfg, g.ledgers[mine], PeerReply(FencePacket(g.ledgers[theirs].epoch, fence)).value, now)
            == g.ledgers[mine]
  {
    ReachedEpochs(cfg, seed, es, g);
    ForeignEchoIgnored(g.ledgers[mine].epoch, g.ledgers[theirs].epoch, fence);
    FenceEchoRecognised(g.ledgers[theirs].epoch, fence);
  }
}
