/**
 * The per-friend DATA gate in front of toxcore, for one friend: what its ledger
 * does on every event, and the room it publishes as the admission hint.
 */
module FriendGate {
  import opened Bytes
  import opened Protocol
  import opened FenceLedger
  import opened TwoBucket

  /** The hint of a friend that may send without limit. */
  const OPEN_ROOM := 0x7FFF_FFFF_FFFF_FFFF
  const HINT_SLOTS := 4096
  const BUCKET_NS := 10_000_000_000
  const BLOCKED_WINDOW_NS := 1_000_000_000
  const REARMED_TIMEOUT_FACTOR := 6
  const MIN_FENCE_INTERVAL_BYTES := 2 * 1372
  const FENCES_PER_BUDGET := 4

  datatype Config = Config(
    floorBytes: nat, maxBytes: nat, queueBudgetUs: nat, safetyFactorX100: nat, trustedBacklogBytes: nat,
    maxLedgerEntries: nat, legacyTimeoutNs: int, probeAfterNs: int, recoveryBaseNs: int, recoveryMaxNs: int)

  predicate SaneConfig(cfg: Config) {
    cfg.floorBytes <= cfg.maxBytes <= OPEN_ROOM && cfg.maxLedgerEntries >= 1
  }

  datatype Phase = Bootstrap | Active | Legacy

  datatype Ledger = Ledger(
    friendNumber: nat, epoch: U64, book: Book, lastFenced: nat, phase: Phase, firstFenceNs: int,
    rearmedActive: bool, emptyPingsSent: nat, emptyPongsReceived: nat, lastRefusedNs: int,
    lastCreditNs: int, lastCreditSentNs: int,
    rateBps: real, rate: Filter<real>,
    srttUs: int, rtt: Filter<int>, lastTrustedNs: int, activatedNs: int,
    recoveryIntervalNs: int, nextRecoveryNs: int,
    probing: bool, probeReleased: bool, lastProbeDoneNs: int)

  function FreshLedger(friendNumber: nat, epoch: U64): Ledger {
    Ledger(friendNumber, epoch, EMPTY_BOOK, 0, Bootstrap, 0, false, 0, 0, 0, 0, 0,
           0.0, Filter(0, 0.0, 0.0), 0, Filter(0, 0, 0), 0, 0, 0, 0, false, false, 0)
  }

  // ---------------------------------------------------------------------------
  // Estimators and the budget
  // ---------------------------------------------------------------------------

  function BaseRttUs(l: Ledger): int {
    var m := l.rtt.cur;
    if l.rtt.prev != 0 && (m == 0 || l.rtt.prev < m) then l.rtt.prev else m
  }

  /** rate x (base round trip + queue budget) x safety factor, in whole bytes. */
  function PipeBytes(cfg: Config, rateBps: real, rttUs: int): int {
    (rateBps * (rttUs + cfg.queueBudgetUs) as real / 1000000.0 * cfg.safetyFactorX100 as real / 100.0).Floor
  }

  function Budget(cfg: Config, l: Ledger): (b: nat)
    ensures SaneConfig(cfg) ==> cfg.floorBytes <= b <= cfg.maxBytes
    ensures l.phase != Active ==> b == cfg.floorBytes
  {
    var rtt := BaseRttUs(l);
    if l.phase != Active || rtt <= 0 || l.rateBps <= 0.0 then cfg.floorBytes
    else
      var bytes := PipeBytes(cfg, l.rateBps, rtt);
      if bytes >= cfg.maxBytes then cfg.maxBytes else Max(cfg.floorBytes, bytes)
  }

  function MaxReal(a: real, b: real): real {
    if a >= b then a else b
  }

  function ObserveRate(l: Ledger, bps: real, now: int): Ledger {
    var f := l.rate;
    var renew := f.start == 0 || now - f.start >= BUCKET_NS;
    var adjacent := f.start != 0 && now - f.start < 2 * BUCKET_NS;
    var prev := if renew then (if adjacent then f.cur else 0.0) else f.prev;
    var cur := MaxReal(if renew then 0.0 else f.cur, bps);
    l.(rate := Filter(if renew then now else f.start, cur, prev), rateBps := MaxReal(cur, prev))
  }

  function AgeRate(l: Ledger, now: int): Ledger {
    if l.rate.start != 0 && now - l.rate.start >= 2 * BUCKET_NS
    then l.(rate := Filter(0, 0.0, 0.0), rateBps := 0.0)
    else l
  }

  function ObserveRtt(l: Ledger, sampleUs: int, trusted: bool, now: int): Ledger {
    var rtt := if sampleUs <= 0 then 1 else sampleUs;
    var smoothed := l.(srttUs := if l.srttUs > 0 then (7 * l.srttUs + rtt) / 8 else rtt);
    if !trusted then smoothed
    else
      var f := l.rtt;
      var renew := f.start == 0 || now - f.start >= BUCKET_NS;
      var adjacent := f.start != 0 && now - f.start < 2 * BUCKET_NS;
      var prev := if renew then (if adjacent then f.cur else 0) else f.prev;
      var cur := if renew then 0 else f.cur;
      smoothed.(rtt := Filter(if renew then now else f.start, if cur == 0 || rtt < cur then rtt else cur, prev),
                lastTrustedNs := now,
                probeReleased := l.probing || l.probeReleased)
  }

  /** Observing a rate is one step of the two-bucket maximum. */
  lemma RateIsTwoBucketMaximum(l: Ledger, bps: real, now: int)
    requires bps > 0.0 && l.rate.cur >= 0.0 && l.rate.prev >= 0.0
    ensures var m := ObserveRate(l, bps, now);
            && m.rate == Observe(Larger, 0.0, BUCKET_NS, l.rate, Sample(now, bps))
            && m.rateBps == Report(Larger, 0.0, m.rate)
            && m.rate.cur >= 0.0 && m.rate.prev >= 0.0
  {
  }

  /** Observing a trusted round trip is one step of the two-bucket minimum. */
  lemma RttIsTwoBucketMinimum(l: Ledger, sampleUs: int, now: int)
    requires l.rtt.cur >= 0 && l.rtt.prev >= 0
    ensures var m, v := ObserveRtt(l, sampleUs, true, now), Max(sampleUs, 1);
            && m.rtt == Observe(Smaller, 0, BUCKET_NS, l.rtt, Sample(now, v))
            && BaseRttUs(m) == Report(Smaller, 0, m.rtt)
            && m.rtt.cur >= 0 && m.rtt.prev >= 0
  {
  }

  // ---------------------------------------------------------------------------
  // One ledger
  // ---------------------------------------------------------------------------

  function FenceInterval(cfg: Config, l: Ledger): nat {
    Max(MIN_FENCE_INTERVAL_BYTES, Budget(cfg, l) / FENCES_PER_BUDGET)
  }

  /** Admission of a DATA packet of this size. A frame always fits an empty pipe. */
  predicate Admits(cfg: Config, l: Ledger, size: nat) {
    l.phase == Legacy || (!l.probing && (Backlog(l.book) == 0 || Backlog(l.book) + size <= Budget(cfg, l)))
  }

  /** The hint: the DATA bytes admission would accept right now. */
  function Room(cfg: Config, l: Ledger): int {
    if l.phase == Legacy then OPEN_ROOM
    else if l.probing then -1
    else if Backlog(l.book) == 0 then OPEN_ROOM
    else if Backlog(l.book) >= Budget(cfg, l) then 0
    else Budget(cfg, l) - Backlog(l.book)
  }

  function NextFence(l: Ledger): Packet {
    FencePacket(l.epoch, l.book.nextSeq % TWO_TO_64)
  }

  function FenceSent(cfg: Config, l: Ledger, now: int): Ledger {
    l.(book := Record(Some(cfg.maxLedgerEntries), l.book, Stamp(now, l.lastCreditNs, l.lastCreditSentNs)),
       lastFenced := l.book.emitted,
       firstFenceNs := if l.firstFenceNs == 0 then now else l.firstFenceNs)
  }

  predicate ProgressDue(cfg: Config, l: Ledger) {
    l.book.emitted - l.lastFenced >= FenceInterval(cfg, l)
  }

  /** toxcore accepted a DATA packet; a due progress fence follows right behind it if toxcore takes that too. */
  function DataAccepted(cfg: Config, l: Ledger, size: nat, now: int, fenceOk: bool): Ledger {
    var m := l.(book := Emit(l.book, size));
    if FenceBehindData(cfg, l, size) && fenceOk then FenceSent(cfg, m, now) else m
  }

  predicate FenceBehindData(cfg: Config, l: Ledger, size: nat) {
    var m := l.(book := Emit(l.book, size));
    m.phase != Legacy && ProgressDue(cfg, m)
  }

  function EnterLegacy(l: Ledger): Ledger {
    l.(phase := Legacy, book := Forget(l.book), probing := false)
  }

  /** The delivery rate an echo of the entry shows, if it shows one. */
  function RateOf(l: Ledger, matched: Range, now: int): (bps: Option<real>)
    ensures bps.Some? ==> bps.value > 0.0
  {
    var delivered := Max(l.book.delivered, matched.snapshot);
    var elapsed := Max(now - matched.stamp.creditNs, matched.stamp.sentNs - matched.stamp.creditSentNs);
    if matched.stamp.creditNs > 0 && delivered > matched.deliveredAtSend && elapsed > 0
    then Some((delivered - matched.deliveredAtSend) as real * 1000000000.0 / elapsed as real)
    else None
  }

  function RateSampled(l: Ledger, matched: Range, now: int): Ledger {
    match RateOf(l, matched, now)
    case Some(bps) => ObserveRate(l, bps, now)
    case None => l
  }

  /** The rate an echo of the entry shows, and when it was credited if it says anything new. */
  function CreditSampled(l: Ledger, matched: Range, now: int): Ledger {
    var a := RateSampled(l, matched, now);
    if Max(l.book.delivered, matched.snapshot) > l.book.delivered || l.lastCreditNs == 0
    then a.(lastCreditNs := now, lastCreditSentNs := matched.stamp.sentNs) else a
  }

  /** Only the echo of the entry's first fence times a round trip. */
  function RttSampled(cfg: Config, l: Ledger, matched: Range, fence: nat, now: int): Ledger {
    if fence == matched.lo
    then ObserveRtt(l, (now - matched.stamp.sentNs) / 1000, matched.loBacklog <= cfg.trustedBacklogBytes, now)
    else l
  }

  /** An echo is proof of a fencing peer, and ends the recovery back-off. */
  function Answered(l: Ledger, now: int): Ledger {
    var f := if l.phase == Bootstrap
             then l.(phase := Active, rearmedActive := false, activatedNs := now) else l;
    f.(recoveryIntervalNs := 0, nextRecoveryNs := 0)
  }

  /** The echo of `fence` matched an outstanding entry. */
  function Credit(cfg: Config, l: Ledger, matched: Range, fence: nat, now: int): Ledger {
    var c := CreditSampled(l, matched, now).(book := Settle(l.book, fence));
    var d := RttSampled(cfg, c, matched, fence, now);
    Answered(if d.probing && matched.loBacklog == 0 then d.(probeReleased := true) else d, now)
  }

  predicate PlainPongCondemns(l: Ledger) {
    l.phase == Bootstrap && l.book.entries != [] && l.emptyPongsReceived + 1 > l.emptyPingsSent
  }

  function PongReceived(cfg: Config, l: Ledger, p: Packet, now: int): Ledger {
    if IsEmptyPong(p) then
      var m := l.(emptyPongsReceived := l.emptyPongsReceived + 1);
      if PlainPongCondemns(l) then EnterLegacy(m) else m
    else
      match EchoedFence(l.epoch, p)
      case None => l
      case Some(fence) =>
        var k := Find(l.book.entries, fence);
        if k == |l.book.entries| then l else Credit(cfg, l, l.book.entries[k], fence, now)
  }

  /** Whether a received PONG made the ledger republish its hint. */
  predicate PongPublishes(l: Ledger, p: Packet) {
    if IsEmptyPong(p) then PlainPongCondemns(l)
    else
      match EchoedFence(l.epoch, p)
      case None => false
      case Some(fence) => Find(l.book.entries, fence) < |l.book.entries|
  }

  /** A reconnect: detect again from fresh evidence, keeping the byte accounting. */
  function Reconnected(l: Ledger): Ledger {
    if l.phase == Bootstrap then l
    else l.(rearmedActive := l.phase == Active, phase := Bootstrap, recoveryIntervalNs := 0,
            nextRecoveryNs := 0, firstFenceNs := 0,
            emptyPongsReceived := Min(l.emptyPongsReceived, l.emptyPingsSent))
  }

  predicate LegacyTimeout(cfg: Config, l: Ledger, now: int) {
    var after := if l.rearmedActive then REARMED_TIMEOUT_FACTOR * cfg.legacyTimeoutNs else cfg.legacyTimeoutNs;
    l.phase == Bootstrap && l.firstFenceNs > 0 && now - l.firstFenceNs > after
  }

  predicate Blocked(l: Ledger, now: int) {
    l.lastRefusedNs > 0 && now - l.lastRefusedNs < BLOCKED_WINDOW_NS
  }

  /** The tick's bookkeeping before it decides about fences: age, fold in the hint, start or end a probe. */
  function TickHealth(cfg: Config, l: Ledger, hintRefused: bool, now: int): Ledger {
    var blocked := Blocked(l, now);
    var a := AgeRate(l, now);
    var b := if hintRefused then a.(lastRefusedNs := now) else a;
    var ref := Max(if b.lastTrustedNs > 0 then b.lastTrustedNs else b.activatedNs, b.lastProbeDoneNs);
    var c := if b.phase == Active && !b.probing && blocked && ref > 0 && now - ref > cfg.probeAfterNs
             then b.(probing := true, probeReleased := false) else b;
    if c.probing && c.probeReleased && c.book.delivered == c.book.emitted
    then c.(probing := false, lastProbeDoneNs := now) else c
  }

  datatype Want = NoFence | PlainFence | RecoveryFence

  function TickWant(cfg: Config, l: Ledger, blocked: bool, now: int): Want {
    var n := |l.book.entries|;
    var covered := n > 0 && l.book.entries[n - 1].snapshot == l.book.emitted;
    if l.probing && l.book.delivered == l.book.emitted && !(covered && l.book.entries[n - 1].loBacklog == 0)
    then PlainFence
    else if ProgressDue(cfg, l) then PlainFence
    else if (blocked || l.probing) && !covered && l.book.emitted > l.book.delivered then PlainFence
    else if (blocked || l.probing) && n > 0 && now >= l.nextRecoveryNs then RecoveryFence
    else NoFence
  }

  function Backoff(cfg: Config, l: Ledger, recovery: bool, now: int): Ledger {
    var interval :=
      if !recovery && l.recoveryIntervalNs != 0 then l.recoveryIntervalNs
      else if l.recoveryIntervalNs == 0 then cfg.recoveryBaseNs
      else Min(l.recoveryIntervalNs * 2, cfg.recoveryMaxNs);
    l.(recoveryIntervalNs := interval, nextRecoveryNs := now + interval)
  }

  /** A tick of a live ledger: its new value, the hint it publishes, and whether it put a fence on the wire. */
  datatype Ticked = Ticked(ledger: Ledger, room: int, tookHint: bool, fenced: bool)

  function Tick(cfg: Config, l: Ledger, hintRefused: bool, now: int, fenceOk: bool): Ticked {
    if LegacyTimeout(cfg, l, now) then Ticked(EnterLegacy(l), OPEN_ROOM, false, false)
    else
      var m := TickHealth(cfg, l, hintRefused, now);
      var want := TickWant(cfg, m, Blocked(l, now), now);
      if want == NoFence || !fenceOk then Ticked(m, Room(cfg, m), true, false)
      else Ticked(Backoff(cfg, FenceSent(cfg, m, now), want == RecoveryFence, now), Room(cfg, m), true, true)
  }

  // ---------------------------------------------------------------------------
  // The hint against the authoritative admission, for one ledger
  // ---------------------------------------------------------------------------

  /** A freshly published hint and admission agree on every packet size. */
  lemma RoomIsAdmission(cfg: Config, l: Ledger, size: nat)
    requires SaneConfig(cfg) && 0 < size <= OPEN_ROOM
    ensures size > Room(cfg, l) <==> !Admits(cfg, l, size)
  {
  }

  /**
   * The rate an echo shows is the largest that both clocks support: over the
   * time between the credits, and over the time between the sendings, no more
   * than the bytes credited since.
   */
  lemma RateShownExactly(l: Ledger, matched: Range, now: int)
    ensures var bytes := Max(l.book.delivered, matched.snapshot) - matched.deliveredAtSend;
            var acked, sent := now - matched.stamp.creditNs, matched.stamp.sentNs - matched.stamp.creditSentNs;
            match RateOf(l, matched, now)
            case Some(bps) =>
              && bps * acked as real <= bytes as real * 1000000000.0
              && bps * sent as real <= bytes as real * 1000000000.0
              && (bps * acked as real == bytes as real * 1000000000.0
                  || bps * sent as real == bytes as real * 1000000000.0)
            case None => matched.stamp.creditNs <= 0 || bytes <= 0 || (acked <= 0 && sent <= 0)
  {
    var bytes := Max(l.book.delivered, matched.snapshot) - matched.deliveredAtSend;
    var acked, sent := now - matched.stamp.creditNs, matched.stamp.sentNs - matched.stamp.creditSentNs;
    if RateOf(l, matched, now).Some? {
      Quotient(bytes as real * 1000000000.0, acked as real, Max(acked, sent) as real);
      Quotient(bytes as real * 1000000000.0, sent as real, Max(acked, sent) as real);
    }
  }

  lemma Quotient(x: real, d: real, longest: real)
    requires x > 0.0 && longest > 0.0 && d <= longest
    ensures x / longest * d <= x
    ensures d == longest ==> x / longest * d == x
  {
    var q := x / longest;
    assert q * longest == x && q > 0.0;
    assert q * (longest - d) >= 0.0;
  }

  /**
   * What the budget is: of the bytes the rate carries in the base round trip
   * plus the queue budget, times the safety factor, the whole bytes, within the
   * floor and the ceiling. `flow` is that product before the scaling of
   * microseconds and of hundredths.
   */
  lemma BudgetExactly(cfg: Config, l: Ledger)
    requires SaneConfig(cfg) && l.phase == Active && l.rateBps > 0.0 && BaseRttUs(l) > 0
    ensures var b, flow := Budget(cfg, l), l.rateBps * (BaseRttUs(l) + cfg.queueBudgetUs) as real
                                           * cfg.safetyFactorX100 as real;
            && (cfg.floorBytes < b < cfg.maxBytes ==>
                  b as real * 100000000.0 <= flow < (b + 1) as real * 100000000.0)
            && (flow >= cfg.maxBytes as real * 100000000.0 ==> b == cfg.maxBytes)
            && (flow < (cfg.floorBytes + 1) as real * 100000000.0 ==> b == cfg.floorBytes)
  {
    var span := (BaseRttUs(l) + cfg.queueBudgetUs) as real;
    Scaled(l.rateBps, span, cfg.safetyFactorX100 as real);
  }

  lemma Scaled(rate: real, span: real, factor: real)
    ensures rate * span / 1000000.0 * factor / 100.0 * 100000000.0 == rate * span * factor
  {
    var x := rate * span;
    assert x / 1000000.0 * factor == x * factor / 1000000.0;
  }

  /**
   * Which DATA is admitted, by the estimates alone: what fits the empty pipe,
   * the floor, or both the ceiling and what the rate carries in the round trip.
   */
  lemma AdmissionExactly(cfg: Config, l: Ledger, size: nat)
    requires SaneConfig(cfg) && l.phase != Legacy
    ensures var n, flow := Backlog(l.book) + size, l.rateBps * (BaseRttUs(l) + cfg.queueBudgetUs) as real
                                                   * cfg.safetyFactorX100 as real;
            Admits(cfg, l, size)
            <==> !l.probing
                 && (Backlog(l.book) == 0 || n <= cfg.floorBytes
                     || (l.phase == Active && l.rateBps > 0.0 && BaseRttUs(l) > 0
                         && n <= cfg.maxBytes && n as real * 100000000.0 <= flow))
  {
    if l.phase == Active && l.rateBps > 0.0 && BaseRttUs(l) > 0 {
      BudgetExactly(cfg, l);
      BudgetBetween(cfg, l);
      var b, n := Budget(cfg, l), Backlog(l.book) + size;
      assert n <= b ==> n as real <= b as real;
      assert n >= b + 1 ==> n as real >= (b + 1) as real;
      hide Budget, BaseRttUs, Backlog;
    }
  }

  lemma BudgetBetween(cfg: Config, l: Ledger)
    requires SaneConfig(cfg)
    ensures cfg.floorBytes <= Budget(cfg, l) <= cfg.maxBytes
  {
  }

  /** Events that do not republish the hint never make more room than it last promised. */
  lemma SilentEventsOnlyShrinkRoom(cfg: Config, l: Ledger, size: nat, now: int, fenceOk: bool)
    requires SaneConfig(cfg) && Valid(l.book)
    ensures Room(cfg, DataAccepted(cfg, l, size, now, fenceOk)) <= Room(cfg, l)
    ensures Room(cfg, Reconnected(l)) <= Room(cfg, l)
  {
    var m := l.(book := Emit(l.book, size));
    FenceKeepsRoom(cfg, m, now);
  }

  lemma FenceKeepsRoom(cfg: Config, l: Ledger, now: int)
    ensures Room(cfg, FenceSent(cfg, l, now)) == Room(cfg, l)
    ensures Budget(cfg, FenceSent(cfg, l, now)) == Budget(cfg, l)
  {
  }

  lemma SilentPong(cfg: Config, l: Ledger, p: Packet, now: int)
    requires !PongPublishes(l, p)
    ensures Room(cfg, PongReceived(cfg, l, p, now)) == Room(cfg, l)
  {
  }

  lemma TickPublishesRoom(cfg: Config, l: Ledger, hintRefused: bool, now: int, fenceOk: bool)
    ensures var t := Tick(cfg, l, hintRefused, now, fenceOk); t.room == Room(cfg, t.ledger)
  {
    if !LegacyTimeout(cfg, l, now) {
      FenceKeepsRoom(cfg, TickHealth(cfg, l, hintRefused, now), now);
    }
  }

  // ---------------------------------------------------------------------------
  // Every ledger event keeps the accounting sound
  // ---------------------------------------------------------------------------

  /** The ledger's book is valid, agrees with the history of its fences, and stays within its entry limit. */
  ghost predicate Sound(cfg: Config, l: Ledger, sentAt: seq<nat>) {
    && Valid(l.book)
    && Traced(l.book, sentAt)
    && |l.book.entries| <= Max(cfg.maxLedgerEntries, 2)
    && l.lastFenced <= l.book.emitted
  }

  lemma FenceKeepsSound(cfg: Config, l: Ledger, now: int, sentAt: seq<nat>)
    requires SaneConfig(cfg) && Sound(cfg, l, sentAt)
    ensures Sound(cfg, FenceSent(cfg, l, now), sentAt + [l.book.emitted])
  {
    RecordKeeps(Some(cfg.maxLedgerEntries), l.book, Stamp(now, l.lastCreditNs, l.lastCreditSentNs), sentAt);
  }

  lemma EmitKeepsSound(cfg: Config, l: Ledger, m: Ledger, size: nat, sentAt: seq<nat>)
    requires Sound(cfg, l, sentAt) && m.book == Emit(l.book, size) && m.lastFenced == l.lastFenced
    ensures Sound(cfg, m, sentAt)
  {
    EmitKeeps(l.book, size, sentAt);
  }

  lemma DataKeepsSound(cfg: Config, l: Ledger, size: nat, now: int, fenceOk: bool, sentAt: seq<nat>)
    requires SaneConfig(cfg) && Sound(cfg, l, sentAt)
    ensures Sound(cfg, DataAccepted(cfg, l, size, now, fenceOk),
                  if FenceBehindData(cfg, l, size) && fenceOk
                  then sentAt + [l.book.emitted + size] else sentAt)
  {
    var m := l.(book := Emit(l.book, size));
    EmitKeepsSound(cfg, l, m, size, sentAt);
    FenceKeepsSound(cfg, m, now, sentAt);
    assert DataAccepted(cfg, l, size, now, fenceOk)
        == if FenceBehindData(cfg, l, size) && fenceOk then FenceSent(cfg, m, now) else m;
  }

  lemma SettleKeepsSound(cfg: Config, l: Ledger, m: Ledger, fence: nat, sentAt: seq<nat>)
    requires Sound(cfg, l, sentAt) && m.lastFenced == l.lastFenced
    requires m.book == Settle(l.book, fence) || m.book == l.book || m.book == Forget(l.book)
    ensures Sound(cfg, m, sentAt)
  {
    SettleKeeps(l.book, fence, sentAt);
  }

  lemma CreditSampleFrame(l: Ledger, matched: Range, now: int)
    ensures var m := CreditSampled(l, matched, now);
            m == l.(rate := m.rate, rateBps := m.rateBps, lastCreditNs := m.lastCreditNs,
                    lastCreditSentNs := m.lastCreditSentNs)
  {
  }

  lemma RttSampleFrame(cfg: Config, l: Ledger, matched: Range, fence: nat, now: int)
    ensures var m := RttSampled(cfg, l, matched, fence, now);
            m == l.(srttUs := m.srttUs, rtt := m.rtt, lastTrustedNs := m.lastTrustedNs,
                    probeReleased := m.probeReleased)
  {
  }

  lemma CreditFrame(cfg: Config, l: Ledger, matched: Range, fence: nat, now: int)
    ensures var m := Credit(cfg, l, matched, fence, now);
            && m.friendNumber == l.friendNumber && m.epoch == l.epoch && m.lastFenced == l.lastFenced
            && m.emptyPingsSent == l.emptyPingsSent && m.emptyPongsReceived == l.emptyPongsReceived
            && m.book == Settle(l.book, fence)
            && m.phase == if l.phase == Bootstrap then Active else l.phase
  {
    CreditSampleFrame(l, matched, now);
    RttSampleFrame(cfg, CreditSampled(l, matched, now).(book := Settle(l.book, fence)), matched, fence, now);
    hide CreditSampled, RttSampled, Settle;
  }

  /** An echo never ends or starts a probe, but one of a fence sent on an empty pipe releases it. */
  lemma CreditProbe(cfg: Config, l: Ledger, matched: Range, fence: nat, now: int)
    ensures var m := Credit(cfg, l, matched, fence, now);
            && m.probing == l.probing
            && (l.probing && matched.loBacklog == 0 ==> m.probeReleased)
  {
    CreditSampleFrame(l, matched, now);
    RttSampleFrame(cfg, CreditSampled(l, matched, now).(book := Settle(l.book, fence)), matched, fence, now);
    hide CreditSampled, RttSampled, Settle;
  }

  /** What a PONG does to the accounting: an outstanding echo settles, a condemning PONG forgets, all else nothing. */
  lemma PongBook(cfg: Config, l: Ledger, p: Packet, now: int)
    ensures var m := PongReceived(cfg, l, p, now);
            && m.friendNumber == l.friendNumber && m.epoch == l.epoch && m.lastFenced == l.lastFenced
            && m.emptyPingsSent == l.emptyPingsSent
            && m.book == (if IsEmptyPong(p) then (if PlainPongCondemns(l) then Forget(l.book) else l.book)
                          else if EchoedFence(l.epoch, p).Some? then Settle(l.book, EchoedFence(l.epoch, p).value)
                          else l.book)
            && (m.phase == Legacy ==> l.phase == Legacy || (IsEmptyPong(p) && PlainPongCondemns(l)))
            && m.emptyPongsReceived == l.emptyPongsReceived + (if IsEmptyPong(p) then 1 else 0)
  {
    if EchoedFence(l.epoch, p).Some? && !IsEmptyPong(p) {
      var fence := EchoedFence(l.epoch, p).value;
      var k := Find(l.book.entries, fence);
      if k < |l.book.entries| {
        CreditFrame(cfg, l, l.book.entries[k], fence, now);
      }
    }
  }

  lemma PongKeepsSound(cfg: Config, l: Ledger, p: Packet, now: int, sentAt: seq<nat>)
    requires Sound(cfg, l, sentAt)
    ensures Sound(cfg, PongReceived(cfg, l, p, now), sentAt)
  {
    PongBook(cfg, l, p, now);
    var fence := if EchoedFence(l.epoch, p).Some? then EchoedFence(l.epoch, p).value else 0;
    SettleKeepsSound(cfg, l, PongReceived(cfg, l, p, now), fence, sentAt);
  }

  lemma HealthBook(cfg: Config, l: Ledger, hintRefused: bool, now: int)
    ensures var m := TickHealth(cfg, l, hintRefused, now); m.book == l.book && m.lastFenced == l.lastFenced
  {
  }

  lemma TickKeepsSound(cfg: Config, l: Ledger, hintRefused: bool, now: int, fenceOk: bool, sentAt: seq<nat>)
    requires SaneConfig(cfg) && Sound(cfg, l, sentAt)
    ensures var t := Tick(cfg, l, hintRefused, now, fenceOk);
            Sound(cfg, t.ledger, if t.fenced then sentAt + [l.book.emitted] else sentAt)
  {
    hide Sound, TickHealth, FenceSent, TickWant, LegacyTimeout;
    var m := TickHealth(cfg, l, hintRefused, now);
    var f := FenceSent(cfg, m, now);
    HealthBook(cfg, l, hintRefused, now);
    SettleKeepsSound(cfg, l, EnterLegacy(l), 0, sentAt);
    SettleKeepsSound(cfg, l, m, 0, sentAt);
    FenceKeepsSound(cfg, m, now, sentAt);
    SettleKeepsSound(cfg, f, Backoff(cfg, f, true, now), 0, sentAt + [l.book.emitted]);
    SettleKeepsSound(cfg, f, Backoff(cfg, f, false, now), 0, sentAt + [l.book.emitted]);
  }

  // ---------------------------------------------------------------------------
  // A gated friend cannot stall
  // ---------------------------------------------------------------------------

  /** The newest outstanding fence covers every byte emitted so far. */
  predicate DebtCovered(b: Book) {
    b.entries != [] && b.entries[|b.entries| - 1].snapshot == b.emitted
  }

  lemma FenceCoversDebt(cfg: Config, l: Ledger, now: int)
    requires SaneConfig(cfg)
    ensures DebtCovered(FenceSent(cfg, l, now).book)
  {
  }

  /** While DATA is being refused, one tick whose fence toxcore takes leaves the whole debt covered. */
  lemma BlockedDebtGetsCovered(cfg: Config, l: Ledger, hintRefused: bool, now: int)
    requires SaneConfig(cfg) && l.phase != Legacy && !LegacyTimeout(cfg, l, now)
    requires Blocked(l, now) && l.book.delivered < l.book.emitted
    ensures DebtCovered(Tick(cfg, l, hintRefused, now, true).ledger.book)
  {
    var m := TickHealth(cfg, l, hintRefused, now);
    HealthBook(cfg, l, hintRefused, now);
    FenceCoversDebt(cfg, m, now);
    hide TickHealth, FenceSent;
  }

  /** The peer's reply to the ledger's newest fence, if it ever sent one. */
  function NewestEcho(l: Ledger): Option<Packet> {
    if l.book.nextSeq == 0 then None else PeerReply(FencePacket(l.epoch, (l.book.nextSeq - 1) % TWO_TO_64))
  }

  lemma NewestEchoIs(l: Ledger, fence: U64)
    requires l.book.nextSeq == fence + 1
    ensures NewestEcho(l) == PeerReply(FencePacket(l.epoch, fence))
  {
    hide FencePacket, PeerReply;
  }

  /** The newest fence's echo is recognised as the one that settles the last entry. */
  lemma NewestEchoMatches(l: Ledger, fence: U64)
    requires l.book.nextSeq == fence + 1
    ensures NewestEcho(l).Some?
    ensures var p := NewestEcho(l).value; !IsEmptyPong(p) && EchoedFence(l.epoch, p) == Some(fence)
  {
    hide *;
    NewestEchoIs(l, fence);
    FenceEchoRecognised(l.epoch, fence);
  }

  /** Once the debt is covered, the peer's echo of the newest fence clears it and DATA flows again. */
  lemma NewestEchoReopens(cfg: Config, l: Ledger, now: int, size: nat)
    requires Valid(l.book) && DebtCovered(l.book) && l.phase != Legacy && 0 < l.book.nextSeq <= TWO_TO_64
    ensures NewestEcho(l).Some?
    ensures var m := PongReceived(cfg, l, NewestEcho(l).value, now);
            && m.book.delivered == m.book.emitted == l.book.emitted
            && m.book.entries == [] && m.book.nextSeq == l.book.nextSeq && m.phase == Active
            && m.probing == l.probing && (!m.probing ==> Admits(cfg, m, size))
            && (l.probing && l.book.entries[|l.book.entries| - 1].loBacklog == 0 ==> m.probeReleased)
  {
    var fence: U64 := l.book.nextSeq - 1;
    LastEntry(l.book);
    hide *;
    var matched := l.book.entries[|l.book.entries| - 1];
    NewestEchoMatches(l, fence);
    NewestCovers(l.book);
    SettleNewest(l.book);
    OutstandingEcho(cfg, l, NewestEcho(l).value, fence, now);
    CreditFrame(cfg, l, matched, fence, now);
    CreditProbe(cfg, l, matched, fence, now);
    SettledAdmits(cfg, Credit(cfg, l, matched, fence, now), size);
  }

  lemma LastEntry(b: Book)
    requires DebtCovered(b)
    ensures |b.entries| > 0
  {
  }

  lemma NewestCovers(b: Book)
    requires Valid(b) && DebtCovered(b)
    ensures b.nextSeq > 0 && Find(b.entries, b.nextSeq - 1) == |b.entries| - 1
  {
    var n := |b.entries|;
    assert GoodRange(b, b.entries[n - 1]);
    CoverUnique(b, b.nextSeq - 1, n - 1);
  }

  lemma OutstandingEcho(cfg: Config, l: Ledger, p: Packet, fence: U64, now: int)
    requires !IsEmptyPong(p) && EchoedFence(l.epoch, p) == Some(fence)
    requires Find(l.book.entries, fence) < |l.book.entries|
    ensures PongReceived(cfg, l, p, now) == Credit(cfg, l, l.book.entries[Find(l.book.entries, fence)], fence, now)
  {
    hide IsEmptyPong, EchoedFence, Find, Credit;
  }

  lemma SettleNewest(b: Book)
    requires Valid(b) && DebtCovered(b)
    ensures var c := Settle(b, b.nextSeq - 1);
            c.delivered == c.emitted == b.emitted && c.entries == [] && c.nextSeq == b.nextSeq
  {
    var n := |b.entries|;
    assert GoodRange(b, b.entries[n - 1]);
    NewestCovers(b);
    assert b.entries[n..] == [];
    hide Valid, Find;
  }

  lemma SettledAdmits(cfg: Config, l: Ledger, size: nat)
    requires l.book.delivered == l.book.emitted
    ensures !l.probing ==> Admits(cfg, l, size)
  {
    hide Budget;
  }

  /** A probe that has been answered and drained ends at the next tick, which publishes an open hint. */
  lemma AnsweredProbeEnds(cfg: Config, l: Ledger, hintRefused: bool, now: int, fenceOk: bool)
    requires l.phase == Active && l.probing && l.probeReleased && l.book.delivered == l.book.emitted
    ensures var t := Tick(cfg, l, hintRefused, now, fenceOk);
            && !t.ledger.probing && t.ledger.lastProbeDoneNs == now && t.room == OPEN_ROOM
  {
  }
}
