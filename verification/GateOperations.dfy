/**
 * What each call does to the gate as a whole, from what it finds: which ledger
 * it touches, which hint it publishes, and that it leaves everyone else alone.
 */
module GateOperations {
  import opened Bytes
  import opened Protocol
  import opened FenceLedger
  import opened FriendGate
  import opened LedgerEpochs
  import opened SendGate

  /** The ledger a call works on: the one kept under the key, or a new one, under the number it was called with. */
  function Found(seed: U64, g: Gate, number: nat, key: Key): Ledger {
    (if key in g.ledgers then g.ledgers[key] else FreshLedger(number, LedgerEpoch(seed, g.created + 1)))
    .(friendNumber := number)
  }

  /** The call replaced the ledger of one key, made it if need be, and pinned the number to the key. */
  ghost predicate Touched(g: Gate, h: Gate, number: nat, key: Key, l: Ledger) {
    && h.ledgers == g.ledgers[key := l]
    && h.numberToKey == g.numberToKey[number := key]
    && h.created == g.created + (if key in g.ledgers then 0 else 1)
    && h.refused == g.refused
  }

  /** The hint of the number is the room the ledger has now; all others are as they were. */
  ghost predicate Published(cfg: Config, g: Gate, h: Gate, number: nat, l: Ledger) {
    h.room == if number < |g.room| then g.room[number := Room(cfg, l)] else g.room
  }

  /**
   * Admission: only well-formed DATA of a known friend is judged, by that
   * friend's ledger. A refusal is remembered with its time and published.
   */
  lemma AdmitExactly(
    cfg: Config, seed: U64, g: Gate, number: nat, reported: Option<Key>, p: Packet, now: int)
    ensures var v, key := Admit(cfg, seed, g, number, reported, p, now), KeyOf(g, number, reported);
            if PeekAt(p).None? || PeekAt(p).value.kindByte != 0x02 || key.None? then v == Verdict(g, true)
            else
              var l := Found(seed, g, number, key.value);
              && (v.ok <==> Admits(cfg, l, |p|))
              && (v.ok ==> Touched(g, v.gate, number, key.value, l) && v.gate.room == g.room)
              && (!v.ok ==> var m := l.(lastRefusedNs := now);
                            Touched(g, v.gate, number, key.value, m) && Published(cfg, g, v.gate, number, m))
  {
    hide PeekAt, Admits, Room;
  }

  /** The bookkeeping behind a packet toxcore took: DATA and keepalives are counted, and nothing else is. */
  lemma AcceptedExactly(
    cfg: Config, seed: U64, g: Gate, number: nat, reported: Option<Key>, p: Packet, now: int, fenceOk: bool)
    ensures var a, key := OnAccepted(cfg, seed, g, number, reported, p, now, fenceOk), KeyOf(g, number, reported);
            if key.None? || !(IsData(p) || IsEmptyPing(p)) then a == Accepted(g, None)
            else
              var l := Found(seed, g, number, key.value);
              && a.gate.room == g.room
              && (if IsData(p) then
                    && Touched(g, a.gate, number, key.value, DataAccepted(cfg, l, |p|, now, fenceOk))
                    && a.fence == (if FenceBehindData(cfg, l, |p|) && fenceOk
                                   then Some(FencePacket(l.epoch, l.book.nextSeq % TWO_TO_64)) else None)
                  else
                    && Touched(g, a.gate, number, key.value, l.(emptyPingsSent := l.emptyPingsSent + 1))
                    && a.fence == None)
  {
    hide IsData, IsEmptyPing, DataAccepted, FenceBehindData, FencePacket;
  }

  /**
   * A received packet: only a PONG on tunnel 0 of a known friend concerns the
   * gate, and what it makes of one that matters is published.
   */
  lemma ReceivedExactly(
    cfg: Config, seed: U64, g: Gate, number: nat, reported: Option<Key>, p: Packet, now: int)
    ensures var h, key := OnReceived(cfg, seed, g, number, reported, p, now), KeyOf(g, number, reported);
            if PeekAt(p).None? || PeekAt(p).value.kindByte != 0x11 || PeekAt(p).value.tunnelId != 0 || key.None? then
              h == g
            else
              var l := Found(seed, g, number, key.value);
              var m := PongReceived(cfg, l, p, now);
              && Touched(g, h, number, key.value, m)
              && (if PongPublishes(l, p) then Published(cfg, g, h, m.friendNumber, m) else h.room == g.room)
  {
    hide PeekAt, PongReceived, PongPublishes, Room;
  }

  /** A connection report: only a reconnect of a known friend does anything, and it publishes nothing. */
  lemma StatusExactly(seed: U64, g: Gate, number: nat, reported: Option<Key>, connected: bool)
    ensures var h, key := OnConnectionStatus(seed, g, number, reported, connected), KeyOf(g, number, reported);
            if !connected || key.None? then h == g
            else
              Touched(g, h, number, key.value, Reconnected(Found(seed, g, number, key.value))) && h.room == g.room
  {
    hide Reconnected;
  }

  /** The ledger is gated and its friend number still stands for its key. */
  predicate TakesPart(g: Gate, key: Key) {
    && key in g.ledgers && g.ledgers[key].phase != Legacy
    && g.ledgers[key].friendNumber in g.numberToKey && g.numberToKey[g.ledgers[key].friendNumber] == key
  }

  /**
   * A tick runs exactly the gated ledgers whose number is still theirs, each on
   * its own slot: it takes the slot's demand flag along and publishes the room.
   */
  lemma TickExactly(cfg: Config, g: Gate, now: int, accepts: set<Key>, key: Key)
    requires key in g.ledgers
    ensures var h, l := OnTick(cfg, g, now, accepts), g.ledgers[key];
            var n := l.friendNumber;
            && h.ledgers.Keys == g.ledgers.Keys && h.numberToKey == g.numberToKey && h.created == g.created
            && |h.room| == |g.room| && |h.refused| == |g.refused|
            && (if TakesPart(g, key) then
                  var t := Tick(cfg, l, n < |g.refused| && g.refused[n], now, key in accepts);
                  && h.ledgers[key] == t.ledger
                  && (n < |g.room| ==> h.room[n] == t.room)
                  && (n < |g.refused| ==> h.refused[n] == (g.refused[n] && !t.tookHint))
                else h.ledgers[key] == l)
  {
    hide Tick;
  }

  /** And those of them that fence put their next fence on the wire. */
  lemma TickFencesExactly(cfg: Config, g: Gate, now: int, accepts: set<Key>, key: Key)
    requires key in g.ledgers
    ensures var l, fences := g.ledgers[key], TickFences(cfg, g, now, accepts);
            var t := Tick(cfg, l, l.friendNumber < |g.refused| && g.refused[l.friendNumber], now, key in accepts);
            && (key in fences <==> TakesPart(g, key) && t.fenced)
            && (key in fences ==> fences[key] == FencePacket(l.epoch, l.book.nextSeq % TWO_TO_64))
  {
    hide Tick, FencePacket;
  }

  /** A slot no gated ledger ticks on is left alone. */
  lemma TickLeavesOthers(cfg: Config, g: Gate, now: int, accepts: set<Key>, n: nat)
    requires n < |g.room| && n < |g.refused|
    requires n in g.numberToKey ==>
               var key := g.numberToKey[n];
               !(key in g.ledgers && g.ledgers[key].friendNumber == n && g.ledgers[key].phase != Legacy)
    ensures var h := OnTick(cfg, g, now, accepts);
            |h.room| == |g.room| && |h.refused| == |g.refused| && h.room[n] == g.room[n] && h.refused[n] == g.refused[n]
  {
    hide Tick;
  }

  /** Forgetting a number unpins it and opens its slot; the ledger stays with its key. */
  lemma ForgetExactly(g: Gate, number: nat)
    ensures var h := ForgetFriendNumber(g, number);
            && h.ledgers == g.ledgers && h.created == g.created
            && number !in h.numberToKey
            && (forall n :: n in h.numberToKey <==> n in g.numberToKey && n != number)
            && (forall n :: n in h.numberToKey ==> h.numberToKey[n] == g.numberToKey[n])
            && |h.room| == |g.room| && |h.refused| == |g.refused|
            && (forall n :: 0 <= n < |g.room| ==> h.room[n] == if n == number then OPEN_ROOM else g.room[n])
            && (forall n :: 0 <= n < |g.refused| ==> h.refused[n] == (n != number && g.refused[n]))
  {
  }

  // ---------------------------------------------------------------------------
  // A fast rejection is noticed
  // ---------------------------------------------------------------------------

  /** No event but a tick and the forgetting of the number takes back a demand flag. */
  lemma DemandStays(cfg: Config, seed: U64, g: Gate, e: GateEvent, n: nat)
    requires n < |g.refused| && g.refused[n] && !e.ETick? && e != EForget(n)
    ensures var h := Next(cfg, seed, g, e); |h.refused| == |g.refused| && h.refused[n]
  {
    hide IsData, IsEmptyPing, Admits, DataAccepted, FenceBehindData, PongReceived, PongPublishes, IsControlPong, Room;
  }

  /**
   * DATA turned away without a lock counts as refused: whatever happens before
   * the next tick, that tick stamps the friend's ledger with the refusal and
   * takes the flag back, unless it judges the friend legacy.
   */
  lemma {:induction false} FastRejectionIsNoticed(
    cfg: Config, seed: U64, g: Gate, n: nat, p: Packet, es: seq<GateEvent>, now: int, accepts: set<Key>)
    requires FastReject(g, n, p).ok && n < |g.refused|
    requires forall k :: 0 <= k < |es| ==> !es[k].ETick? && es[k] != EForget(n)
    ensures var h := After(cfg, seed, FastReject(g, n, p).gate, es);
            && |h.refused| == |g.refused| && h.refused[n]
            && (n in h.numberToKey && TakesPart(h, h.numberToKey[n])
                && h.ledgers[h.numberToKey[n]].friendNumber == n ==>
                  var key, v := h.numberToKey[n], OnTick(cfg, h, now, accepts);
                  v.ledgers[key].phase == Legacy || (v.ledgers[key].lastRefusedNs == now && !v.refused[n]))
  {
    var g1 := FastReject(g, n, p).gate;
    DemandStaysAll(cfg, seed, g1, es, n);
    var h := After(cfg, seed, g1, es);
    hide After, OnTick, FastRejects;
    if n in h.numberToKey && TakesPart(h, h.numberToKey[n]) && h.ledgers[h.numberToKey[n]].friendNumber == n {
      var key := h.numberToKey[n];
      TickExactly(cfg, h, now, accepts, key);
      HintIsStamped(cfg, h.ledgers[key], now, key in accepts);
    }
  }

  lemma HintIsStamped(cfg: Config, l: Ledger, now: int, fenceOk: bool)
    ensures var t := Tick(cfg, l, true, now, fenceOk);
            t.ledger.phase == Legacy || (t.ledger.lastRefusedNs == now && t.tookHint)
  {
    hide Record, TickWant;
  }

  function After(cfg: Config, seed: U64, g: Gate, es: seq<GateEvent>): Gate {
    if es == [] then g else Next(cfg, seed, After(cfg, seed, g, es[..|es| - 1]), es[|es| - 1])
  }

  lemma {:induction false} DemandStaysAll(cfg: Config, seed: U64, g: Gate, es: seq<GateEvent>, n: nat)
    requires n < |g.refused| && g.refused[n]
    requires forall k :: 0 <= k < |es| ==> !es[k].ETick? && es[k] != EForget(n)
    ensures var h := After(cfg, seed, g, es); |h.refused| == |g.refused| && h.refused[n]
  {
    if es != [] {
      var init := es[..|es| - 1];
      DemandStaysAll(cfg, seed, g, init, n);
      DemandStays(cfg, seed, After(cfg, seed, g, init), es[|es| - 1], n);
      hide Next;
    }
  }
}
