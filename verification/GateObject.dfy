/** The gate as the mutable object the adapter calls under its lock; each entry point refines its SendGate function. */
module GateObject {
  import opened Bytes
  import opened Protocol
  import opened FenceLedger
  import opened FriendGate
  import opened LedgerEpochs
  import opened SendGate

  /** The copy loop that drops every other middle entry. */
  method ThinEntries<T>(entries: seq<T>) returns (kept: seq<T>)
    requires |entries| >= 2
    ensures kept == Thin(entries)
  {
    kept := [entries[0]];
    var i := 1;
    while i + 1 < |entries|
      invariant 1 <= i <= |entries| - 1
      invariant |kept| == (i + 1) / 2
      invariant forall j :: 0 <= j < |kept| ==> kept[j] == entries[2 * j]
    {
      if i % 2 == 0 {
        kept := kept + [entries[i]];
      }
      i := i + 1;
    }
    kept := kept + [entries[|entries| - 1]];
    assert kept == Thin(entries);
  }

  /** The search loop for the entry an echo settles. */
  method FindEntry(entries: seq<Range>, fence: nat) returns (k: nat)
    ensures k == Find(entries, fence)
  {
    k := 0;
    while k < |entries| && !(entries[k].lo <= fence <= entries[k].hi)
      invariant k <= |entries|
      invariant FindFrom(entries, fence, k) == Find(entries, fence)
    {
      k := k + 1;
    }
  }

  // ---------------------------------------------------------------------------
  // One more ledger of a tick
  // ---------------------------------------------------------------------------

  lemma NothingTicked(g: Gate, ticks: map<Key, Ticked>)
    requires ticks.Keys == g.ledgers.Keys
    ensures TickedThrough(g, ticks, {}) == g && FencesThrough(g, ticks, {}) == map[]
  {
  }

  lemma OneMoreLedger(g: Gate, ticks: map<Key, Ticked>, done: set<Key>, key: Key)
    requires ticks.Keys == g.ledgers.Keys && key in g.ledgers && key !in done
    ensures var m := TickedLedgers(g, ticks, done);
            && m[key] == g.ledgers[key]
            && TickedLedgers(g, ticks, done + {key}) == if Live(g, key) then m[key := ticks[key].ledger] else m
  {
  }

  lemma OneMoreRoom(g: Gate, ticks: map<Key, Ticked>, done: set<Key>, key: Key)
    requires ticks.Keys == g.ledgers.Keys && key in g.ledgers && key !in done
    ensures var m, n := TickedRoom(g, ticks, done), g.ledgers[key].friendNumber;
            TickedRoom(g, ticks, done + {key})
            == if Live(g, key) && n < |m| then m[n := ticks[key].room] else m
  {
    forall i: nat | i < |g.room|
      ensures TickedSlot(g, done + {key}, i)
              == (TickedSlot(g, done, i) || (Live(g, key) && i == g.ledgers[key].friendNumber))
    {
    }
  }

  lemma OneMoreRefused(g: Gate, ticks: map<Key, Ticked>, done: set<Key>, key: Key)
    requires ticks.Keys == g.ledgers.Keys && key in g.ledgers && key !in done
    ensures var m, n := TickedRefused(g, ticks, done), g.ledgers[key].friendNumber;
            && (Live(g, key) && n < |m| ==> m[n] == g.refused[n])
            && TickedRefused(g, ticks, done + {key})
               == if Live(g, key) && n < |m| && ticks[key].tookHint then m[n := false] else m
  {
    forall i: nat | i < |g.refused|
      ensures TickedSlot(g, done + {key}, i)
              == (TickedSlot(g, done, i) || (Live(g, key) && i == g.ledgers[key].friendNumber))
    {
    }
  }

  lemma OneMoreFence(g: Gate, ticks: map<Key, Ticked>, done: set<Key>, key: Key)
    requires ticks.Keys == g.ledgers.Keys && key in g.ledgers && key !in done
    ensures var m := FencesThrough(g, ticks, done);
            FencesThrough(g, ticks, done + {key})
            == if Live(g, key) && ticks[key].fenced then m[key := NextFence(g.ledgers[key])] else m
  {
  }

  lemma HealthFrame(cfg: Config, l: Ledger, hintRefused: bool, now: int)
    ensures var m := TickHealth(cfg, l, hintRefused, now);
            && m.friendNumber == l.friendNumber && NextFence(m) == NextFence(l)
  {
  }

  class FriendSendGate {
    const cfg: Config
    const seed: U64
    const hintRoom: array<int>
    const hintRefused: array<bool>
    var created: nat
    var ledgers: map<Key, Ledger>
    var numberToKey: map<nat, Key>

    ghost predicate Valid() {
      hintRoom.Length == HINT_SLOTS && hintRefused.Length == HINT_SLOTS && cfg.maxLedgerEntries >= 1
    }

    ghost function View(): Gate
      reads this, hintRoom, hintRefused
    {
      Gate(created, ledgers, numberToKey, hintRoom[..], hintRefused[..])
    }

    constructor (cfg: Config, seed: U64)
      requires cfg.maxLedgerEntries >= 1
      ensures Valid() && View() == EmptyGate() && this.cfg == cfg && this.seed == seed
      ensures fresh(hintRoom) && fresh(hintRefused)
    {
      this.cfg := cfg;
      this.seed := seed;
      hintRoom := new int[HINT_SLOTS](i => OPEN_ROOM);
      hintRefused := new bool[HINT_SLOTS](i => false);
      created, ledgers, numberToKey := 0, map[], map[];
    }

    /** The ledger a friend number stands for, created on first use; None when toxcore does not know the number. */
    method LedgerFor(number: nat, reported: Option<Key>) returns (key: Option<Key>)
      requires Valid()
      modifies this
      ensures key == KeyOf(old(View()), number, reported)
      ensures View() == if key.None? then old(View()) else WithLedger(seed, old(View()), number, key.value)
    {
      if number in numberToKey {
        key := Some(numberToKey[number]);
      } else if reported.None? {
        return None;
      } else {
        key := reported;
      }
      numberToKey := numberToKey[number := key.value];
      if key.value !in ledgers {
        created := created + 1;
        ledgers := ledgers[key.value := FreshLedger(number, LedgerEpoch(seed, created))];
      } else {
        ledgers := ledgers[key.value := ledgers[key.value].(friendNumber := number)];
      }
    }

    method PublishHint(l: Ledger)
      requires Valid()
      modifies hintRoom
      ensures hintRoom[..] == Publish(cfg, old(hintRoom[..]), l)
    {
      if l.friendNumber >= HINT_SLOTS {
        return;
      }
      var room := OPEN_ROOM;
      if l.phase != Legacy {
        var backlog, budget := Backlog(l.book), Budget(cfg, l);
        if l.probing {
          room := -1;
        } else if backlog > 0 {
          room := if backlog >= budget then 0 else budget - backlog;
        }
      }
      hintRoom[l.friendNumber] := room;
    }

    method AdmitPacket(number: nat, reported: Option<Key>, p: Packet, now: int) returns (ok: bool)
      requires Valid()
      modifies this, hintRoom
      ensures Verdict(View(), ok) == Admit(cfg, seed, old(View()), number, reported, p, now)
    {
      if !IsData(p) {
        return true;
      }
      var key := LedgerFor(number, reported);
      if key.None? || ledgers[key.value].phase == Legacy {
        return true;
      }
      var l := ledgers[key.value];
      var backlog := Backlog(l.book);
      ok := false;
      if !l.probing {
        ok := backlog == 0 || backlog + |p| <= Budget(cfg, l);
      }
      if !ok {
        l := l.(lastRefusedNs := now);
        ledgers := ledgers[key.value := l];
        PublishHint(l);
      }
    }

    /** Record a fence toxcore accepted, thinning the entries when there are too many. */
    method RecordFence(l: Ledger, now: int) returns (m: Ledger)
      requires Valid()
      ensures m == FenceSent(cfg, l, now)
    {
      var b := l.book;
      var n := |b.entries|;
      var entries := b.entries;
      if n > 0 && entries[n - 1].snapshot == b.emitted {
        entries := entries[n - 1 := entries[n - 1].(hi := b.nextSeq)];
      } else {
        var stamp := Stamp(now, l.lastCreditNs, l.lastCreditSentNs);
        entries := entries + [Range(b.nextSeq, b.nextSeq, b.emitted, Backlog(b), b.delivered, stamp)];
      }
      if |entries| > cfg.maxLedgerEntries {
        entries := ThinEntries(entries);
      }
      m := l.(book := b.(entries := entries, nextSeq := b.nextSeq + 1), lastFenced := b.emitted);
      if m.firstFenceNs == 0 {
        m := m.(firstFenceNs := now);
      }
    }

    method Accept(number: nat, reported: Option<Key>, p: Packet, now: int, fenceOk: bool)
      returns (fence: Option<Packet>)
      requires Valid()
      modifies this
      ensures Accepted(View(), fence) == OnAccepted(cfg, seed, old(View()), number, reported, p, now, fenceOk)
    {
      fence := None;
      if IsData(p) {
        var key := LedgerFor(number, reported);
        if key.Some? {
          var l := ledgers[key.value];
          var m := l.(book := Emit(l.book, |p|));
          if m.phase != Legacy && m.book.emitted - m.lastFenced >= FenceInterval(cfg, m) && fenceOk {
            fence := Some(NextFence(m));
            m := RecordFence(m, now);
          }
          ledgers := ledgers[key.value := m];
        }
      } else if IsEmptyPing(p) {
        var key := LedgerFor(number, reported);
        if key.Some? {
          var l := ledgers[key.value];
          ledgers := ledgers[key.value := l.(emptyPingsSent := l.emptyPingsSent + 1)];
        }
      }
    }

    method Receive(number: nat, reported: Option<Key>, p: Packet, now: int)
      requires Valid()
      modifies this, hintRoom
      ensures View() == OnReceived(cfg, seed, old(View()), number, reported, p, now)
    {
      if !IsControlPong(p) {
        return;
      }
      var key := LedgerFor(number, reported);
      if key.None? {
        return;
      }
      var l := ledgers[key.value];
      if IsEmptyPong(p) {
        var m := l.(emptyPongsReceived := l.emptyPongsReceived + 1);
        if m.phase == Bootstrap && m.book.entries != [] && m.emptyPongsReceived > m.emptyPingsSent {
          m := EnterLegacy(m);
          PublishHint(m);
        }
        ledgers := ledgers[key.value := m];
        return;
      }
      var echoed := EchoedFence(l.epoch, p);
      if echoed.None? {
        ledgers := ledgers[key.value := l];
        return;
      }
      var k := FindEntry(l.book.entries, echoed.value);
      if k < |l.book.entries| {
        l := Credit(cfg, l, l.book.entries[k], echoed.value, now);
        PublishHint(l);
      }
      ledgers := ledgers[key.value := l];
    }

    method ConnectionStatus(number: nat, reported: Option<Key>, connected: bool)
      requires Valid()
      modifies this
      ensures View() == OnConnectionStatus(seed, old(View()), number, reported, connected)
    {
      if !connected {
        return;
      }
      var key := LedgerFor(number, reported);
      if key.Some? {
        ledgers := ledgers[key.value := Reconnected(ledgers[key.value])];
      }
    }

    /** The fence a tick may send once the ledger's health is up to date. */
    method TickFence(l: Ledger, blocked: bool, now: int, fenceOk: bool) returns (m: Ledger, fence: Option<Packet>)
      requires Valid()
      ensures var want := TickWant(cfg, l, blocked, now);
              if want == NoFence || !fenceOk then m == l && fence == None
              else m == Backoff(cfg, FenceSent(cfg, l, now), want == RecoveryFence, now) && fence == Some(NextFence(l))
    {
      m, fence := l, None;
      var want := TickWant(cfg, l, blocked, now);
      if want != NoFence && fenceOk {
        fence := Some(NextFence(l));
        m := RecordFence(l, now);
        m := Backoff(cfg, m, want == RecoveryFence, now);
      }
    }

    /** One ledger's share of a tick: health, hint, and at most one fence. */
    method TickLedger(l: Ledger, now: int, fenceOk: bool, ghost t: Ticked)
      returns (m: Ledger, fence: Option<Packet>)
      requires Valid()
      requires t == Tick(cfg, l, HintRefused(View(), l.friendNumber), now, fenceOk)
      modifies hintRoom, hintRefused
      ensures m == t.ledger && fence == if t.fenced then Some(NextFence(l)) else None
      ensures hintRoom[..] == if l.friendNumber < HINT_SLOTS
                              then old(hintRoom[..])[l.friendNumber := t.room] else old(hintRoom[..])
      ensures hintRefused[..] == if l.friendNumber < HINT_SLOTS && t.tookHint
                                 then old(hintRefused[..])[l.friendNumber := false] else old(hintRefused[..])
    {
      fence := None;
      if LegacyTimeout(cfg, l, now) {
        m := EnterLegacy(l);
        PublishHint(m);
        return;
      }
      var blocked := Blocked(l, now);
      var refusedByHint := false;
      if l.friendNumber < HINT_SLOTS {
        refusedByHint := hintRefused[l.friendNumber];
        hintRefused[l.friendNumber] := false;
      }
      m := TickHealth(cfg, l, refusedByHint, now);
      HealthFrame(cfg, l, refusedByHint, now);
      PublishHint(m);
      m, fence := TickFence(m, blocked, now, fenceOk);
    }

    /** The loop body: the ledger of `key` ticks if its number still names it. */
    method TickKey(key: Key, now: int, fenceOk: bool, fences: map<Key, Packet>,
                   ghost g: Gate, ghost ticks: map<Key, Ticked>, ghost done: set<Key>)
      returns (more: map<Key, Packet>)
      requires Valid() && ticks.Keys == g.ledgers.Keys && key in g.ledgers && key !in done
      requires View() == TickedThrough(g, ticks, done) && fences == FencesThrough(g, ticks, done)
      requires |g.room| == HINT_SLOTS == |g.refused|
      requires ticks[key] == Tick(cfg, g.ledgers[key], HintRefused(g, g.ledgers[key].friendNumber), now, fenceOk)
      modifies this, hintRoom, hintRefused
      ensures View() == TickedThrough(g, ticks, done + {key})
      ensures more == FencesThrough(g, ticks, done + {key})
    {
      OneMoreLedger(g, ticks, done, key);
      OneMoreRoom(g, ticks, done, key);
      OneMoreRefused(g, ticks, done, key);
      OneMoreFence(g, ticks, done, key);
      more := fences;
      var l := ledgers[key];
      if l.phase != Legacy && l.friendNumber in numberToKey && numberToKey[l.friendNumber] == key {
        var m, fence := TickLedger(l, now, fenceOk, ticks[key]);
        ledgers := ledgers[key := m];
        if fence.Some? {
          more := fences[key := fence.value];
        }
      }
    }

    /** The loop over all ledgers after every toxcore iteration. `accepts`: whose fence toxcore would take. */
    method TickAll(now: int, accepts: set<Key>) returns (fences: map<Key, Packet>)
      requires Valid()
      modifies this, hintRoom, hintRefused
      ensures View() == OnTick(cfg, old(View()), now, accepts)
      ensures fences == TickFences(cfg, old(View()), now, accepts)
    {
      hide Tick, TickedThrough, FencesThrough;
      fences := TickLoop(now, accepts, Ticks(cfg, View(), now, accepts));
    }

    method TickLoop(now: int, accepts: set<Key>, ghost ticks: map<Key, Ticked>) returns (fences: map<Key, Packet>)
      requires Valid() && ticks.Keys == ledgers.Keys
      requires forall k {:trigger HintRefused(View(), ledgers[k].friendNumber)} :: k in ledgers ==>
                 ticks[k] == Tick(cfg, ledgers[k], HintRefused(View(), ledgers[k].friendNumber), now, k in accepts)
      modifies this, hintRoom, hintRefused
      ensures View() == TickedThrough(old(View()), ticks, old(ledgers.Keys))
      ensures fences == FencesThrough(old(View()), ticks, old(ledgers.Keys))
    {
      hide Tick, TickedThrough, FencesThrough;
      ghost var g := View();
      var todo := ledgers.Keys;
      fences := map[];
      NothingTicked(g, ticks);
      assert g.ledgers.Keys - todo == {};
      while todo != {}
        invariant todo <= g.ledgers.Keys
        invariant View() == TickedThrough(g, ticks, g.ledgers.Keys - todo)
        invariant fences == FencesThrough(g, ticks, g.ledgers.Keys - todo)
        decreases todo
      {
        var key :| key in todo;
        ghost var done := g.ledgers.Keys - todo;
        assert g.ledgers.Keys - (todo - {key}) == done + {key};
        fences := TickKey(key, now, key in accepts, fences, g, ticks, done);
        todo := todo - {key};
      }
      assert g.ledgers.Keys - todo == g.ledgers.Keys;
    }

    method Forget(number: nat)
      requires Valid()
      modifies this, hintRoom, hintRefused
      ensures View() == ForgetFriendNumber(old(View()), number)
    {
      numberToKey := numberToKey - {number};
      if number < HINT_SLOTS {
        hintRoom[number] := OPEN_ROOM;
        hintRefused[number] := false;
      }
    }

    method TryFastReject(number: nat, p: Packet) returns (rejected: bool)
      requires Valid()
      modifies hintRefused
      ensures Verdict(View(), rejected) == FastReject(old(View()), number, p)
    {
      if number >= HINT_SLOTS || |p| < 2 || p[0] != LOSSLESS_PACKET_BYTE || p[1] != TypeByte(TunnelData) {
        return false;
      }
      if |p| <= hintRoom[number] {
        return false;
      }
      hintRefused[number] := true;
      return true;
    }
  }
}
