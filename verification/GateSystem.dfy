/**
 * One friend's ledger together with the ordered channel to a peer of this
 * build and the peer's replies: the credit protocol as a whole.
 */
module GateSystem {
  import opened Bytes
  import opened Protocol
  import opened FenceLedger
  import opened FriendGate

  /**
   * `forward` is toxcore's stream to the peer, oldest packet first. `back` holds
   * the replies not yet received or lost; they may arrive in any order.
   * `sentAt` is the history of what had been emitted when each fence was sent.
   */
  datatype System = System(
    ledger: Ledger, sentAt: seq<nat>, forward: seq<Packet>, back: multiset<Packet>, everLegacy: bool)

  function Initial(epoch: U64): System {
    System(FreshLedger(0, epoch), [0], [], multiset{}, false)
  }

  datatype Event =
    | Send(packet: Packet, now: int, taken: bool, fenceOk: bool)
    | TickGate(hintRefused: bool, now: int, fenceOk: bool)
    | Deliver
    | Arrive(reply: Packet, now: int)
    | LoseTail(keep: nat)
    | LoseReply(reply: Packet)
    | Reconnect

  /** What the program hands to toxcore: prefixed packets, and no PING but the keepalive one. */
  predicate Sendable(p: Packet) {
    p != [] && p[0] == LOSSLESS_PACKET_BYTE && (IsPing(p) ==> IsEmptyPing(p))
  }

  /** A ledger's fence goes onto the stream; its place in the history is what had been emitted. */
  function WithFence(s: System, sent: bool, before: Ledger): System {
    if sent then s.(sentAt := s.sentAt + [before.book.emitted], forward := s.forward + [NextFence(before)]) else s
  }

  /** Admission, the toxcore enqueue and its bookkeeping, in one critical section. */
  function SendStep(cfg: Config, s: System, p: Packet, now: int, taken: bool, fenceOk: bool): System {
    var l := s.ledger;
    if IsData(p) && !Admits(cfg, l, |p|) then s.(ledger := l.(lastRefusedNs := now))
    else if !taken then s
    else if IsData(p) then
      var t := s.(ledger := DataAccepted(cfg, l, |p|, now, fenceOk), forward := s.forward + [p]);
      WithFence(t, FenceBehindData(cfg, l, |p|) && fenceOk, l.(book := Emit(l.book, |p|)))
    else if IsEmptyPing(p) then
      s.(ledger := l.(emptyPingsSent := l.emptyPingsSent + 1), forward := s.forward + [p])
    else s.(forward := s.forward + [p])
  }

  function TickStep(cfg: Config, s: System, hintRefused: bool, now: int, fenceOk: bool): System {
    if s.ledger.phase == Legacy then s
    else
      var t := Tick(cfg, s.ledger, hintRefused, now, fenceOk);
      WithFence(s.(ledger := t.ledger, everLegacy := s.everLegacy || t.ledger.phase == Legacy), t.fenced, s.ledger)
  }

  /** The peer takes the oldest packet and replies as its PING handler does. */
  function DeliverStep(s: System): System {
    if s.forward == [] then s
    else
      var reply := PeerReply(s.forward[0]);
      s.(forward := s.forward[1..], back := if reply.Some? then s.back + multiset{reply.value} else s.back)
  }

  function ArriveStep(cfg: Config, s: System, reply: Packet, now: int): System {
    if reply !in s.back then s
    else
      var l := PongReceived(cfg, s.ledger, reply, now);
      s.(ledger := l, back := s.back - multiset{reply}, everLegacy := s.everLegacy || l.phase == Legacy)
  }

  /** One step; an event that cannot happen now changes nothing. `mtu` bounds the packets toxcore takes. */
  function Step(cfg: Config, mtu: nat, s: System, e: Event): System {
    match e
    case Send(p, now, taken, fenceOk) =>
      if Sendable(p) && |p| <= mtu then SendStep(cfg, s, p, now, taken, fenceOk) else s
    case TickGate(hintRefused, now, fenceOk) => TickStep(cfg, s, hintRefused, now, fenceOk)
    case Deliver => DeliverStep(s)
    case Arrive(reply, now) => ArriveStep(cfg, s, reply, now)
    case LoseTail(keep) => if keep <= |s.forward| then s.(forward := s.forward[..keep]) else s
    case LoseReply(reply) => s.(back := s.back - multiset{reply})
    case Reconnect => s.(ledger := Reconnected(s.ledger))
  }

  function Run(cfg: Config, epoch: U64, mtu: nat, es: seq<Event>): System {
    if es == [] then Initial(epoch)
    else Step(cfg, mtu, Run(cfg, epoch, mtu, es[..|es| - 1]), es[|es| - 1])
  }

  // ---------------------------------------------------------------------------
  // Totals over the stream
  // ---------------------------------------------------------------------------

  function Total(weigh: Packet -> nat, q: seq<Packet>): nat {
    if q == [] then 0 else weigh(q[0]) + Total(weigh, q[1..])
  }

  lemma {:induction false} TotalConcat(weigh: Packet -> nat, a: seq<Packet>, b: seq<Packet>)
    ensures Total(weigh, a + b) == Total(weigh, a) + Total(weigh, b)
  {
    if a == [] {
      assert a + b == b;
    } else {
      TotalConcat(weigh, a[1..], b);
      assert (a + b)[1..] == a[1..] + b;
    }
  }

  lemma TotalPrefix(weigh: Packet -> nat, q: seq<Packet>, k: nat)
    requires k <= |q|
    ensures Total(weigh, q[..k]) <= Total(weigh, q)
  {
    TotalConcat(weigh, q[..k], q[k..]);
    assert q == q[..k] + q[k..];
  }

  lemma TotalPush(weigh: Packet -> nat, q: seq<Packet>, p: Packet)
    ensures Total(weigh, q + [p]) == Total(weigh, q) + weigh(p)
  {
    TotalConcat(weigh, q, [p]);
    assert Total(weigh, [p]) == weigh(p) + Total(weigh, []);
  }

  function DataWeight(p: Packet): nat {
    if IsData(p) then |p| else 0
  }

  function EmptyReplyWeight(p: Packet): nat {
    if PeerReply(p) == Some(EMPTY_PONG) then 1 else 0
  }

  /** DATA bytes toxcore holds that the peer has not received. */
  function InFlight(s: System): nat {
    Total(DataWeight, s.forward)
  }

  /** The fence whose echo the peer would send for this packet. */
  function FenceOf(epoch: U64, p: Packet): Option<U64> {
    if PeerReply(p).Some? then EchoedFence(epoch, PeerReply(p).value) else None
  }

  // ---------------------------------------------------------------------------
  // The invariant
  // ---------------------------------------------------------------------------

  /** Everything emitted before `fence` is past the peer once only `rest` is still in flight. */
  predicate Covered(s: System, fence: nat, rest: seq<Packet>) {
    fence < |s.sentAt| && s.sentAt[fence] + Total(DataWeight, rest) <= s.ledger.book.emitted
  }

  predicate CoveredAt(s: System, i: nat)
    requires i < |s.forward|
  {
    var f := FenceOf(s.ledger.epoch, s.forward[i]);
    f.Some? ==> Covered(s, f.value, s.forward[i + 1..])
  }

  ghost predicate Fences(s: System) {
    && (forall i :: 0 <= i < |s.forward| ==> CoveredAt(s, i))
    && (forall p :: p in s.back && EchoedFence(s.ledger.epoch, p).Some? ==>
                      Covered(s, EchoedFence(s.ledger.epoch, p).value, s.forward))
  }

  /** Every empty PONG received or still to come answers an empty PING that was counted. */
  ghost predicate Pongs(s: System) {
    && s.ledger.emptyPongsReceived + s.back[EMPTY_PONG] + Total(EmptyReplyWeight, s.forward)
       <= s.ledger.emptyPingsSent
    && (forall p :: p in s.back && IsEmptyPong(p) ==> p == EMPTY_PONG)
  }

  ghost predicate Bounded(cfg: Config, mtu: nat, s: System) {
    && (s.ledger.phase == Legacy ==> s.everLegacy)
    && (s.everLegacy || Backlog(s.ledger.book) <= Max(cfg.maxBytes, mtu))
  }

  ghost predicate Inv(cfg: Config, mtu: nat, s: System) {
    Sound(cfg, s.ledger, s.sentAt) && StreamInv(cfg, mtu, s)
  }

  ghost predicate StreamInv(cfg: Config, mtu: nat, s: System) {
    InFlight(s) <= Backlog(s.ledger.book) && Fences(s) && Pongs(s) && Bounded(cfg, mtu, s)
  }

  lemma ReplyIsPlain(p: Packet)
    ensures PeerReply(p).Some? && IsEmptyPong(PeerReply(p).value) ==> PeerReply(p).value == EMPTY_PONG
  {
    if PeerReply(p).Some? {
      var pong := MakePongFor(Deserialize(p[1..]).value);
      PacketFrame(pong);
    }
  }

  /** The effect on the invariant of one more packet on the stream. */
  lemma PushKeepsFences(s: System, t: System, p: Packet)
    requires Fences(s) && t.forward == s.forward + [p] && t.back == s.back
    requires t.ledger.epoch == s.ledger.epoch && t.ledger.book.emitted == s.ledger.book.emitted + DataWeight(p)
    requires |t.sentAt| >= |s.sentAt| && t.sentAt[..|s.sentAt|] == s.sentAt
    requires var f := FenceOf(s.ledger.epoch, p);
             f.Some? ==> f.value < |t.sentAt| && t.sentAt[f.value] <= t.ledger.book.emitted
    ensures Fences(t)
  {
    hide FenceOf, EchoedFence, DataWeight;
    var n := |s.forward|;
    assert forall f :: 0 <= f < |s.sentAt| ==> t.sentAt[f] == t.sentAt[..|s.sentAt|][f] == s.sentAt[f];
    TotalPush(DataWeight, s.forward, p);
    forall i | 0 <= i < |t.forward| ensures CoveredAt(t, i) {
      if i < n {
        assert CoveredAt(s, i);
        assert t.forward[i + 1..] == s.forward[i + 1..] + [p];
        TotalPush(DataWeight, s.forward[i + 1..], p);
      } else {
        assert t.forward[i + 1..] == [];
      }
    }
  }

  lemma FenceWeights(epoch: U64, fence: U64)
    ensures var p := FencePacket(epoch, fence);
            DataWeight(p) == 0 && EmptyReplyWeight(p) == 0 && FenceOf(epoch, p) == Some(fence)
  {
    FenceEchoRecognised(epoch, fence);
    PacketFrame(Frame(Pong, 0, []));
    hide EchoedFence, FencePacket, PeerReply, IsPing, IsEmptyPing, PeekAt;
  }

  lemma FencePushKeeps(cfg: Config, mtu: nat, s: System, sent: bool, before: Ledger)
    requires StreamInv(cfg, mtu, s)
    requires before.epoch == s.ledger.epoch && before.book.emitted == s.ledger.book.emitted
    requires |s.sentAt| == before.book.nextSeq < TWO_TO_64
    ensures StreamInv(cfg, mtu, WithFence(s, sent, before))
  {
    hide DataWeight, EmptyReplyWeight, FenceOf, Fences, FencePacket, IsEmptyPong;
    var t, p := WithFence(s, sent, before), NextFence(before);
    FenceWeights(before.epoch, before.book.nextSeq);
    TotalPush(DataWeight, s.forward, p);
    TotalPush(EmptyReplyWeight, s.forward, p);
    if sent {
      PushKeepsFences(s, t, p);
    }
  }

  lemma OtherWeights(epoch: U64, p: Packet)
    requires Sendable(p)
    ensures FenceOf(epoch, p) == None
    ensures EmptyReplyWeight(p) == if IsEmptyPing(p) then 1 else 0
    ensures IsData(p) ==> !IsEmptyPing(p)
  {
    OtherReplies(p);
    PacketFrame(Frame(Pong, 0, []));
    hide PeerReply;
  }

  /** One more admitted DATA packet on the stream, before any fence behind it. */
  lemma DataPushKeeps(cfg: Config, mtu: nat, s: System, u: System, p: Packet)
    requires SaneConfig(cfg) && StreamInv(cfg, mtu, s) && Sendable(p) && IsData(p) && |p| <= mtu
    requires s.ledger.book.delivered <= s.ledger.book.emitted && Admits(cfg, s.ledger, |p|)
    requires u.forward == s.forward + [p] && u.back == s.back && u.sentAt == s.sentAt && u.everLegacy == s.everLegacy
    requires var l, m := s.ledger, u.ledger;
             && m.epoch == l.epoch && m.phase == l.phase
             && m.emptyPingsSent == l.emptyPingsSent && m.emptyPongsReceived == l.emptyPongsReceived
             && m.book.emitted == l.book.emitted + |p| && m.book.delivered == l.book.delivered
    ensures StreamInv(cfg, mtu, u)
  {
    OtherWeights(s.ledger.epoch, p);
    hide FenceOf, EmptyReplyWeight, IsData, IsEmptyPong, Fences, PipeBytes;
    TotalPush(DataWeight, s.forward, p);
    TotalPush(EmptyReplyWeight, s.forward, p);
    PushKeepsFences(s, u, p);
  }

  lemma SoundFacts(cfg: Config, l: Ledger, sentAt: seq<nat>)
    requires Sound(cfg, l, sentAt)
    ensures |sentAt| == l.book.nextSeq && l.book.delivered <= l.book.emitted
  {
  }

  lemma SendDataKeeps(cfg: Config, mtu: nat, s: System, p: Packet, now: int, fenceOk: bool)
    requires SaneConfig(cfg) && Inv(cfg, mtu, s) && Sendable(p) && |p| <= mtu && s.ledger.book.nextSeq < TWO_TO_64
    requires IsData(p) && Admits(cfg, s.ledger, |p|)
    ensures Inv(cfg, mtu, SendStep(cfg, s, p, now, true, fenceOk))
  {
    var l := s.ledger;
    AcceptedFrame(cfg, l, |p|, now, fenceOk);
    var u := s.(ledger := DataAccepted(cfg, l, |p|, now, fenceOk), forward := s.forward + [p]);
    SoundFacts(cfg, l, s.sentAt);
    SendDataSound(cfg, s, p, now, fenceOk);
    hide IsData, StreamInv, FenceBehindData, DataAccepted, Admits, Sendable, Sound, NextFence, Budget, WithFence;
    DataPushKeeps(cfg, mtu, s, u, p);
    FencePushKeeps(cfg, mtu, u, FenceBehindData(cfg, l, |p|) && fenceOk, l.(book := Emit(l.book, |p|)));
  }

  lemma SendDataSound(cfg: Config, s: System, p: Packet, now: int, fenceOk: bool)
    requires SaneConfig(cfg) && Sound(cfg, s.ledger, s.sentAt) && IsData(p) && Admits(cfg, s.ledger, |p|)
    ensures var v := SendStep(cfg, s, p, now, true, fenceOk); Sound(cfg, v.ledger, v.sentAt)
  {
    hide IsData, FenceBehindData, DataAccepted, Admits, Sound, Budget, NextFence, SaneConfig;
    DataKeepsSound(cfg, s.ledger, |p|, now, fenceOk, s.sentAt);
    assert SendStep(cfg, s, p, now, true, fenceOk).ledger == DataAccepted(cfg, s.ledger, |p|, now, fenceOk);
  }

  lemma SendControlKeeps(cfg: Config, mtu: nat, s: System, p: Packet, now: int, fenceOk: bool)
    requires Inv(cfg, mtu, s) && Sendable(p) && !IsData(p)
    ensures Inv(cfg, mtu, SendStep(cfg, s, p, now, true, fenceOk))
  {
    OtherWeights(s.ledger.epoch, p);
    hide FenceOf, EmptyReplyWeight, IsData, IsEmptyPing, IsEmptyPong, Fences, Valid, Traced;
    TotalPush(DataWeight, s.forward, p);
    TotalPush(EmptyReplyWeight, s.forward, p);
    PushKeepsFences(s, SendStep(cfg, s, p, now, true, fenceOk), p);
  }

  lemma SendKeeps(cfg: Config, mtu: nat, s: System, p: Packet, now: int, taken: bool, fenceOk: bool)
    requires SaneConfig(cfg) && Inv(cfg, mtu, s) && Sendable(p) && |p| <= mtu && s.ledger.book.nextSeq < TWO_TO_64
    ensures Inv(cfg, mtu, SendStep(cfg, s, p, now, taken, fenceOk))
  {
    if IsData(p) && !Admits(cfg, s.ledger, |p|) {
      hide IsData, Admits, Fences;
      SameStream(s, s.(ledger := s.ledger.(lastRefusedNs := now)));
    } else if taken && IsData(p) {
      SendDataKeeps(cfg, mtu, s, p, now, fenceOk);
    } else if taken {
      SendControlKeeps(cfg, mtu, s, p, now, fenceOk);
    }
  }

  /** Only the epoch, the emitted count and the history matter to the fences on the stream. */
  lemma SameStream(s: System, t: System)
    requires Fences(s) && t.forward == s.forward && t.back <= s.back && t.sentAt == s.sentAt
    requires t.ledger.epoch == s.ledger.epoch && t.ledger.book.emitted == s.ledger.book.emitted
    ensures Fences(t)
  {
    hide FenceOf, EchoedFence;
    forall i | 0 <= i < |t.forward| ensures CoveredAt(t, i) {
      assert CoveredAt(s, i);
    }
  }

  lemma AcceptedFrame(cfg: Config, l: Ledger, size: nat, now: int, fenceOk: bool)
    ensures var m := DataAccepted(cfg, l, size, now, fenceOk);
            && m.epoch == l.epoch && m.phase == l.phase
            && m.emptyPingsSent == l.emptyPingsSent && m.emptyPongsReceived == l.emptyPongsReceived
            && m.book.emitted == l.book.emitted + size && m.book.delivered == l.book.delivered
            && m.book.nextSeq <= l.book.nextSeq + 1
  {
  }

  lemma TickFrame(cfg: Config, l: Ledger, hintRefused: bool, now: int, fenceOk: bool)
    ensures var m := Tick(cfg, l, hintRefused, now, fenceOk).ledger;
            && m.epoch == l.epoch && (m.phase == l.phase || m.phase == Legacy)
            && m.emptyPingsSent == l.emptyPingsSent && m.emptyPongsReceived == l.emptyPongsReceived
            && m.book.emitted == l.book.emitted && m.book.delivered == l.book.delivered
            && m.book.nextSeq <= l.book.nextSeq + 1
  {
    HealthFrame(cfg, l, hintRefused, now);
    hide TickHealth, TickWant, LegacyTimeout, Extended;
  }

  lemma HealthFrame(cfg: Config, l: Ledger, hintRefused: bool, now: int)
    ensures var m := TickHealth(cfg, l, hintRefused, now);
            m.epoch == l.epoch && m.phase == l.phase && m.book == l.book
            && m.emptyPingsSent == l.emptyPingsSent && m.emptyPongsReceived == l.emptyPongsReceived
  {
  }

  lemma TickKeeps(cfg: Config, mtu: nat, s: System, hintRefused: bool, now: int, fenceOk: bool)
    requires SaneConfig(cfg) && Inv(cfg, mtu, s) && s.ledger.book.nextSeq < TWO_TO_64
    ensures Inv(cfg, mtu, TickStep(cfg, s, hintRefused, now, fenceOk))
  {
    var t := Tick(cfg, s.ledger, hintRefused, now, fenceOk);
    TickKeepsSound(cfg, s.ledger, hintRefused, now, fenceOk, s.sentAt);
    TickFrame(cfg, s.ledger, hintRefused, now, fenceOk);
    hide Tick, Fences, NextFence;
    var u := s.(ledger := t.ledger, everLegacy := s.everLegacy || t.ledger.phase == Legacy);
    SameStream(s, u);
    FencePushKeeps(cfg, mtu, u, t.fenced, s.ledger);
  }

  lemma DeliverKeeps(cfg: Config, mtu: nat, s: System)
    requires Inv(cfg, mtu, s)
    ensures Inv(cfg, mtu, DeliverStep(s))
  {
    hide PeerReply, EchoedFence, IsEmptyPong, PeekAt, Sound;
    if s.forward != [] {
      var p, t := s.forward[0], DeliverStep(s);
      ReplyIsPlain(p);
      assert CoveredAt(s, 0);
      forall i | 0 <= i < |t.forward| ensures CoveredAt(t, i) {
        assert CoveredAt(s, i + 1);
        assert t.forward[i + 1..] == s.forward[i + 2..];
      }
    }
  }

  /** Crediting what an echo in `back` proves keeps the stream part of the invariant. */
  lemma ArriveStream(cfg: Config, mtu: nat, s: System, reply: Packet, l: Ledger)
    requires StreamInv(cfg, mtu, s) && reply in s.back
    requires l.epoch == s.ledger.epoch && l.book.emitted == s.ledger.book.emitted
    requires s.ledger.book.delivered <= l.book.delivered <= l.book.emitted
    requires l.book.delivered == s.ledger.book.delivered
             || (var f := EchoedFence(l.epoch, reply);
                 f.Some? && f.value < |s.sentAt| && l.book.delivered == s.sentAt[f.value])
    requires l.emptyPingsSent == s.ledger.emptyPingsSent
    requires l.emptyPongsReceived == s.ledger.emptyPongsReceived + if IsEmptyPong(reply) then 1 else 0
    ensures StreamInv(cfg, mtu, s.(ledger := l, back := s.back - multiset{reply},
                                   everLegacy := s.everLegacy || l.phase == Legacy))
  {
    hide EchoedFence, IsEmptyPong, CoveredAt;
    SameStream(s, s.(ledger := l, back := s.back - multiset{reply}, everLegacy := s.everLegacy || l.phase == Legacy));
  }

  lemma ArriveKeeps(cfg: Config, mtu: nat, s: System, reply: Packet, now: int)
    requires Inv(cfg, mtu, s)
    ensures Inv(cfg, mtu, ArriveStep(cfg, s, reply, now))
    ensures s.ledger.phase != Legacy ==> ArriveStep(cfg, s, reply, now).ledger.phase != Legacy
  {
    if reply in s.back {
      var l := s.ledger;
      PongBook(cfg, l, reply, now);
      PongKeepsSound(cfg, l, reply, now, s.sentAt);
      if EchoedFence(l.epoch, reply).Some? {
        PongCredit(cfg, l, reply, s.sentAt);
      }
      SoundFacts(cfg, l, s.sentAt);
      assert IsEmptyPong(reply) ==> !PlainPongCondemns(l);
      hide PongReceived, EchoedFence, IsEmptyPong, Settle, Sound, StreamInv;
      ArriveStream(cfg, mtu, s, reply, PongReceived(cfg, l, reply, now));
    }
  }

  lemma PongCredit(cfg: Config, l: Ledger, reply: Packet, sentAt: seq<nat>)
    requires Sound(cfg, l, sentAt) && EchoedFence(l.epoch, reply).Some?
    ensures var f := EchoedFence(l.epoch, reply).value;
            var b := Settle(l.book, f);
            && b.emitted == l.book.emitted && l.book.delivered <= b.delivered <= b.emitted
            && (b.delivered == l.book.delivered || (f < |sentAt| && b.delivered == sentAt[f]))
  {
    hide EchoedFence;
    SettleKeeps(l.book, EchoedFence(l.epoch, reply).value, sentAt);
  }

  lemma LoseTailFences(s: System, t: System, keep: nat)
    requires Fences(s) && keep <= |s.forward| && t == s.(forward := s.forward[..keep])
    ensures Fences(t)
  {
    hide FenceOf, EchoedFence, DataWeight;
    TotalPrefix(DataWeight, s.forward, keep);
    forall i | 0 <= i < |t.forward| ensures CoveredAt(t, i) {
      assert CoveredAt(s, i);
      assert t.forward[i + 1..] == s.forward[i + 1..][..keep - i - 1];
      TotalPrefix(DataWeight, s.forward[i + 1..], keep - i - 1);
    }
  }

  lemma LoseTailKeeps(cfg: Config, mtu: nat, s: System, keep: nat)
    requires Inv(cfg, mtu, s) && keep <= |s.forward|
    ensures Inv(cfg, mtu, s.(forward := s.forward[..keep]))
  {
    hide Fences, IsEmptyPong, Sound, DataWeight, EmptyReplyWeight;
    var t := s.(forward := s.forward[..keep]);
    TotalPrefix(DataWeight, s.forward, keep);
    TotalPrefix(EmptyReplyWeight, s.forward, keep);
    LoseTailFences(s, t, keep);
  }

  lemma ReconnectKeeps(cfg: Config, mtu: nat, s: System)
    requires Inv(cfg, mtu, s)
    ensures Inv(cfg, mtu, s.(ledger := Reconnected(s.ledger)))
  {
    hide EchoedFence, IsEmptyPong, Valid, Traced, Fences;
    SameStream(s, s.(ledger := Reconnected(s.ledger)));
  }

  lemma LoseReplyKeeps(cfg: Config, mtu: nat, s: System, reply: Packet)
    requires Inv(cfg, mtu, s)
    ensures Inv(cfg, mtu, s.(back := s.back - multiset{reply}))
  {
    hide EchoedFence, IsEmptyPong, Valid, Traced, Fences;
    SameStream(s, s.(back := s.back - multiset{reply}));
  }

  lemma StepKeeps(cfg: Config, mtu: nat, s: System, e: Event)
    requires SaneConfig(cfg) && Inv(cfg, mtu, s) && s.ledger.book.nextSeq < TWO_TO_64
    ensures Inv(cfg, mtu, Step(cfg, mtu, s, e))
  {
    hide Inv, SendStep, TickStep, DeliverStep, ArriveStep;
    match e
    case Send(p, now, taken, fenceOk) =>
      if Sendable(p) && |p| <= mtu {
        SendKeeps(cfg, mtu, s, p, now, taken, fenceOk);
      }
    case TickGate(hintRefused, now, fenceOk) => TickKeeps(cfg, mtu, s, hintRefused, now, fenceOk);
    case Deliver => DeliverKeeps(cfg, mtu, s);
    case Arrive(reply, now) => ArriveKeeps(cfg, mtu, s, reply, now);
    case LoseTail(keep) =>
      if keep <= |s.forward| {
        LoseTailKeeps(cfg, mtu, s, keep);
      }
    case LoseReply(reply) => LoseReplyKeeps(cfg, mtu, s, reply);
    case Reconnect => ReconnectKeeps(cfg, mtu, s);
  }

  lemma StepSpendsOneSeq(cfg: Config, mtu: nat, s: System, e: Event)
    ensures Step(cfg, mtu, s, e).ledger.book.nextSeq <= s.ledger.book.nextSeq + 1
  {
    match e {
      case Send(p, now, taken, fenceOk) => AcceptedFrame(cfg, s.ledger, |p|, now, fenceOk);
      case TickGate(hintRefused, now, fenceOk) => TickFrame(cfg, s.ledger, hintRefused, now, fenceOk);
      case Arrive(reply, now) => PongBook(cfg, s.ledger, reply, now);
      case _ =>
    }
    hide PongReceived, Tick, DataAccepted, FenceBehindData, Admits, IsData, IsEmptyPing, PeerReply, Sendable;
  }

  lemma {:induction false} RunInv(cfg: Config, epoch: U64, mtu: nat, es: seq<Event>)
    requires SaneConfig(cfg) && |es| < TWO_TO_64 - 1
    ensures Inv(cfg, mtu, Run(cfg, epoch, mtu, es))
    ensures Run(cfg, epoch, mtu, es).ledger.book.nextSeq <= |es| + 1
  {
    if es != [] {
      var before := Run(cfg, epoch, mtu, es[..|es| - 1]);
      RunInv(cfg, epoch, mtu, es[..|es| - 1]);
      StepKeeps(cfg, mtu, before, es[|es| - 1]);
      StepSpendsOneSeq(cfg, mtu, before, es[|es| - 1]);
      hide Inv, Step;
    }
  }

  // ---------------------------------------------------------------------------
  // The promises, over every run shorter than the 64-bit sequence space
  // ---------------------------------------------------------------------------

  /**
   * Credit is never taken early: the DATA really in flight is at most what the
   * ledger counts as uncredited; and while the friend has always been gated it
   * is at most the largest budget or one packet.
   */
  lemma CreditIsNeverEarly(cfg: Config, epoch: U64, mtu: nat, es: seq<Event>)
    requires SaneConfig(cfg) && |es| < TWO_TO_64 - 1
    ensures var s := Run(cfg, epoch, mtu, es);
            && s.ledger.book.delivered <= s.ledger.book.emitted
            && InFlight(s) <= s.ledger.book.emitted - s.ledger.book.delivered
            && (!s.everLegacy ==> InFlight(s) <= Max(cfg.maxBytes, mtu))
  {
    RunInv(cfg, epoch, mtu, es);
  }

  /**
   * In every run the outstanding fences are in order: disjoint increasing
   * sequence ranges with increasing snapshots, each fence sent exactly when its
   * snapshot's bytes had been emitted, the newest of them the last fence sent.
   */
  lemma OutstandingFencesInOrder(cfg: Config, epoch: U64, mtu: nat, es: seq<Event>)
    requires SaneConfig(cfg) && |es| < TWO_TO_64 - 1
    ensures var s := Run(cfg, epoch, mtu, es);
            Valid(s.ledger.book) && Traced(s.ledger.book, s.sentAt)
            && |s.ledger.book.entries| <= Max(cfg.maxLedgerEntries, 2)
  {
    RunInv(cfg, epoch, mtu, es);
  }

  /**
   * A peer that echoes is never taken for a legacy one on the evidence of its
   * PONGs: whatever was lost or reconnected before, no reply that arrives turns
   * a gated ledger ungated.
   */
  lemma EchoingPeerIsNeverCondemned(cfg: Config, epoch: U64, mtu: nat, es: seq<Event>, reply: Packet, now: int)
    requires SaneConfig(cfg) && |es| < TWO_TO_64 - 1
    requires reply in Run(cfg, epoch, mtu, es).back
    requires Run(cfg, epoch, mtu, es).ledger.phase != Legacy
    ensures PongReceived(cfg, Run(cfg, epoch, mtu, es).ledger, reply, now).phase != Legacy
    ensures Run(cfg, epoch, mtu, es).ledger.emptyPongsReceived <= Run(cfg, epoch, mtu, es).ledger.emptyPingsSent
  {
    RunInv(cfg, epoch, mtu, es);
    ArriveKeeps(cfg, mtu, Run(cfg, epoch, mtu, es), reply, now);
  }
}
