/**
 * A gated friend cannot stall: from every reachable state, one to three
 * exchanges of a fence and its echo let its DATA through again.
 */
module GateRecovery {
  import opened Bytes
  import opened Protocol
  import opened FenceLedger
  import opened FriendGate
  import opened GateSystem

  /** The peer takes everything on the stream. */
  function DeliverAll(s: System): System
    decreases |s.forward|
  {
    if s.forward == [] then s else DeliverAll(DeliverStep(s))
  }

  /** A tick at `sent`, the whole stream delivered, and at `heard` the echo of the newest fence, if it is out. */
  function Exchange(cfg: Config, s: System, hintRefused: bool, sent: int, heard: int): System {
    var t := DeliverAll(TickStep(cfg, s, hintRefused, sent, true));
    match NewestEcho(t.ledger)
    case Some(echo) => ArriveStep(cfg, t, echo, heard)
    case None => t
  }

  lemma {:induction false} DeliveredAll(s: System)
    ensures var t := DeliverAll(s);
            && t == s.(forward := [], back := t.back) && s.back <= t.back
            && (forall p :: p in s.forward && PeerReply(p).Some? ==> PeerReply(p).value in t.back)
    decreases |s.forward|
  {
    hide PeerReply;
    if s.forward != [] {
      var u := DeliverStep(s);
      DeliveredAll(u);
      assert s.forward == [s.forward[0]] + u.forward;
    }
  }

  lemma HealthPause(cfg: Config, l: Ledger, hintRefused: bool, now: int)
    ensures var m := TickHealth(cfg, l, hintRefused, now);
            && m.nextRecoveryNs == l.nextRecoveryNs && m.phase == l.phase && m.epoch == l.epoch
            && (m.probing && m.book.delivered == m.book.emitted ==> !m.probeReleased)
            && (l.probing && !m.probing ==> m.book.delivered == m.book.emitted)
            && (l.probing && m.probing ==> m.probeReleased == l.probeReleased)
  {
  }

  /**
   * Once the recovery pause is over, a tick of a friend that is being refused
   * judges it legacy, ends its probe, or puts a fence out.
   */
  lemma RefusedTick(cfg: Config, l: Ledger, hintRefused: bool, now: int)
    requires Valid(l.book) && l.phase != Legacy
    requires Blocked(l, now) && now >= l.nextRecoveryNs
    ensures var t := Tick(cfg, l, hintRefused, now, true);
            t.fenced || t.ledger.phase == Legacy
            || (!t.ledger.probing && t.ledger.book.delivered == t.ledger.book.emitted)
  {
    HealthBook(cfg, l, hintRefused, now);
    HealthPause(cfg, l, hintRefused, now);
    assert l.book.delivered <= l.book.emitted;
    hide TickHealth, FenceSent, Backoff, FenceInterval, Valid, LegacyTimeout;
  }

  /** What a tick that sends a fence leaves behind. */
  lemma FencedTick(cfg: Config, l: Ledger, hintRefused: bool, now: int)
    requires SaneConfig(cfg) && l.phase != Legacy && Tick(cfg, l, hintRefused, now, true).fenced
    ensures var m := Tick(cfg, l, hintRefused, now, true).ledger;
            && DebtCovered(m.book) && m.phase == l.phase && m.epoch == l.epoch
            && m.book.nextSeq == l.book.nextSeq + 1
            && m.probing == TickHealth(cfg, l, hintRefused, now).probing
            && (l.book.entries == [] && l.book.delivered == l.book.emitted ==>
                  m.book.entries[|m.book.entries| - 1].loBacklog == 0)
  {
    var m := TickHealth(cfg, l, hintRefused, now);
    HealthBook(cfg, l, hintRefused, now);
    HealthPause(cfg, l, hintRefused, now);
    FenceCoversDebt(cfg, m, now);
    hide TickHealth, TickWant, LegacyTimeout, Blocked;
  }

  lemma TickedForward(cfg: Config, s: System, hintRefused: bool, now: int)
    requires s.ledger.phase != Legacy && Tick(cfg, s.ledger, hintRefused, now, true).fenced
    ensures var u := TickStep(cfg, s, hintRefused, now, true);
            && u.ledger == Tick(cfg, s.ledger, hintRefused, now, true).ledger
            && u.forward == s.forward + [NextFence(s.ledger)]
  {
    hide Tick, NextFence;
  }

  /** In an exchange that got its fence out, the ledger sees that fence's echo. */
  lemma ExchangeEchoes(cfg: Config, s: System, hintRefused: bool, sent: int, heard: int)
    requires SaneConfig(cfg) && s.ledger.phase != Legacy && Tick(cfg, s.ledger, hintRefused, sent, true).fenced
    requires s.ledger.book.nextSeq < TWO_TO_64
    ensures var m := Tick(cfg, s.ledger, hintRefused, sent, true).ledger;
            && NewestEcho(m).Some?
            && Exchange(cfg, s, hintRefused, sent, heard).ledger == PongReceived(cfg, m, NewestEcho(m).value, heard)
  {
    var l, u := s.ledger, TickStep(cfg, s, hintRefused, sent, true);
    FencedTick(cfg, l, hintRefused, sent);
    TickedForward(cfg, s, hintRefused, sent);
    EchoIsReply(l, u.ledger);
    assert u.forward[|s.forward|] == NextFence(l);
    hide Tick, TickHealth, TickStep, PongReceived, PeerReply, DeliverAll, NextFence, ArriveStep, NewestEcho;
    EchoArrives(cfg, u, NextFence(l), heard);
  }

  lemma NextFenceIs(l: Ledger, fence: U64)
    requires l.book.nextSeq == fence
    ensures NextFence(l) == FencePacket(l.epoch, fence)
  {
    hide FencePacket;
  }

  lemma EchoIsReply(l: Ledger, m: Ledger)
    requires m.epoch == l.epoch && m.book.nextSeq == l.book.nextSeq + 1 <= TWO_TO_64
    ensures NewestEcho(m).Some? && NewestEcho(m) == PeerReply(NextFence(l))
  {
    var fence: U64 := l.book.nextSeq;
    hide *;
    NewestEchoIs(m, fence);
    NextFenceIs(l, fence);
    FenceEchoRecognised(l.epoch, fence);
  }

  lemma EchoArrives(cfg: Config, u: System, p: Packet, heard: int)
    requires p in u.forward && PeerReply(p).Some?
    ensures var t, reply := DeliverAll(u), PeerReply(p).value;
            t.ledger == u.ledger && ArriveStep(cfg, t, reply, heard).ledger == PongReceived(cfg, u.ledger, reply, heard)
  {
    DeliveredAll(u);
    hide PongReceived, PeerReply, DeliverAll;
  }

  /** The newest fence, once it covers everything, is settled by its echo. */
  lemma NewestEchoSettles(cfg: Config, m: Ledger, sentAt: seq<nat>, now: int, size: nat)
    requires Sound(cfg, m, sentAt) && DebtCovered(m.book) && m.phase != Legacy && 0 < m.book.nextSeq <= TWO_TO_64
    ensures NewestEcho(m).Some?
    ensures var k := PongReceived(cfg, m, NewestEcho(m).value, now);
            && Sound(cfg, k, sentAt) && k.phase == Active
            && k.book.delivered == k.book.emitted == m.book.emitted && k.book.entries == []
            && k.book.nextSeq == m.book.nextSeq && k.probing == m.probing
            && (!k.probing ==> Admits(cfg, k, size))
            && (m.probing && m.book.entries[|m.book.entries| - 1].loBacklog == 0 ==> k.probeReleased)
  {
    assert Valid(m.book);
    hide *;
    NewestEchoReopens(cfg, m, now, size);
    PongKeepsSound(cfg, m, NewestEcho(m).value, now, sentAt);
  }

  /** An exchange that got its fence out settles everything the friend owed. */
  lemma ExchangeSettles(
    cfg: Config, s: System, sentAt: seq<nat>, hintRefused: bool, sent: int, heard: int, size: nat)
    requires SaneConfig(cfg) && Sound(cfg, s.ledger, sentAt) && s.ledger.book.nextSeq < TWO_TO_64
    requires s.ledger.phase != Legacy && Tick(cfg, s.ledger, hintRefused, sent, true).fenced
    ensures var l, m := s.ledger, Exchange(cfg, s, hintRefused, sent, heard).ledger;
            && Sound(cfg, m, sentAt + [l.book.emitted])
            && m.phase == Active && m.book.delivered == m.book.emitted && m.book.entries == []
            && m.book.nextSeq == l.book.nextSeq + 1
            && m.probing == TickHealth(cfg, l, hintRefused, sent).probing
            && (!m.probing ==> Admits(cfg, m, size))
            && (m.probing && l.book.entries == [] && l.book.delivered == l.book.emitted ==> m.probeReleased)
  {
    var l := s.ledger;
    var m := Tick(cfg, l, hintRefused, sent, true).ledger;
    FencedTick(cfg, l, hintRefused, sent);
    TickKeepsSound(cfg, l, hintRefused, sent, true, sentAt);
    hide *;
    ExchangeEchoes(cfg, s, hintRefused, sent, heard);
    NewestEchoSettles(cfg, m, sentAt + [l.book.emitted], heard, size);
  }

  /** A probe that outlives a settled exchange puts a fence out on the empty pipe at the next tick. */
  lemma ProbeFences(cfg: Config, l: Ledger, hintRefused: bool, now: int)
    requires l.phase == Active && l.probing && !l.probeReleased
    requires l.book.delivered == l.book.emitted && l.book.entries == []
    ensures Tick(cfg, l, hintRefused, now, true).fenced && TickHealth(cfg, l, hintRefused, now).probing
  {
    HealthBook(cfg, l, hintRefused, now);
    hide FenceSent, Backoff;
  }

  /** A released probe of a settled friend is over with the next tick. */
  lemma ReleasedProbeAdmits(cfg: Config, s: System, hintRefused: bool, now: int, size: nat)
    requires s.ledger.phase == Active && s.ledger.probing && s.ledger.probeReleased
    requires s.ledger.book.delivered == s.ledger.book.emitted && s.ledger.book.entries == []
    ensures Admits(cfg, TickStep(cfg, s, hintRefused, now, true).ledger, size)
  {
    AnsweredProbeEnds(cfg, s.ledger, hintRefused, now, true);
    TickDebt(cfg, s.ledger, hintRefused, now);
    hide Tick;
  }

  lemma TickDebt(cfg: Config, l: Ledger, hintRefused: bool, now: int)
    ensures var m := Tick(cfg, l, hintRefused, now, true).ledger;
            m.phase == Legacy || (m.book.emitted == l.book.emitted && m.book.delivered == l.book.delivered)
  {
    HealthBook(cfg, l, hintRefused, now);
    hide TickHealth, TickWant;
  }

  /**
   * A gated friend cannot stall. From every reachable state in which its DATA
   * is being refused and the recovery pause is over, whatever is still under
   * way, some step of at most three rounds lets DATA of any size through again:
   * a tick, the stream delivered, the newest fence's echo, and so on.
   */
  lemma RefusedFriendIsAdmittedAgain(
    cfg: Config, epoch: U64, mtu: nat, es: seq<GateSystem.Event>, hints: seq<bool>, times: seq<int>, size: nat)
    requires SaneConfig(cfg) && |es| + 3 < TWO_TO_64 && |hints| == 3 && |times| == 5
    requires var l := GateSystem.Run(cfg, epoch, mtu, es).ledger; Blocked(l, times[0]) && times[0] >= l.nextRecoveryNs
    ensures var s := GateSystem.Run(cfg, epoch, mtu, es);
            var r := Exchange(cfg, s, hints[0], times[0], times[1]);
            var q := Exchange(cfg, r, hints[1], times[2], times[3]);
            || Admits(cfg, TickStep(cfg, s, hints[0], times[0], true).ledger, size)
            || Admits(cfg, r.ledger, size)
            || Admits(cfg, TickStep(cfg, r, hints[1], times[2], true).ledger, size)
            || Admits(cfg, TickStep(cfg, q, hints[2], times[4], true).ledger, size)
  {
    var s := GateSystem.Run(cfg, epoch, mtu, es);
    RunInv(cfg, epoch, mtu, es);
    hide GateSystem.Run;
    if s.ledger.phase != Legacy {
      RefusedTick(cfg, s.ledger, hints[0], times[0]);
      if Tick(cfg, s.ledger, hints[0], times[0], true).fenced {
        hide Inv, Tick, TickStep, Exchange;
        SettledFriendIsAdmitted(cfg, s, s.sentAt, hints, times, size);
      }
    }
  }

  lemma SettledFriendIsAdmitted(
    cfg: Config, s: System, sentAt: seq<nat>, hints: seq<bool>, times: seq<int>, size: nat)
    requires SaneConfig(cfg) && |hints| == 3 && |times| == 5
    requires Sound(cfg, s.ledger, sentAt) && s.ledger.book.nextSeq + 1 < TWO_TO_64 && s.ledger.phase != Legacy
    requires Tick(cfg, s.ledger, hints[0], times[0], true).fenced
    ensures var r := Exchange(cfg, s, hints[0], times[0], times[1]);
            var q := Exchange(cfg, r, hints[1], times[2], times[3]);
            || Admits(cfg, r.ledger, size)
            || Admits(cfg, TickStep(cfg, r, hints[1], times[2], true).ledger, size)
            || Admits(cfg, TickStep(cfg, q, hints[2], times[4], true).ledger, size)
  {
    ExchangeSettles(cfg, s, sentAt, hints[0], times[0], times[1], size);
    var r := Exchange(cfg, s, hints[0], times[0], times[1]);
    var q := Exchange(cfg, r, hints[1], times[2], times[3]);
    hide Exchange, Tick, TickStep, Sound, Admits;
    if r.ledger.probing {
      if r.ledger.probeReleased {
        ReleasedProbeAdmits(cfg, r, hints[1], times[2], size);
      } else {
        ProbeFences(cfg, r.ledger, hints[1], times[2]);
        ExchangeSettles(cfg, r, sentAt + [s.ledger.book.emitted], hints[1], times[2], times[3], size);
        ReleasedProbeAdmits(cfg, q, hints[2], times[4], size);
      }
    }
  }
}
