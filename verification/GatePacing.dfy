/**
 * When the gate of one friend fences, probes, backs off and judges: each rule
 * stated from what the event finds.
 */
module GatePacing {
  import opened Bytes
  import opened Protocol
  import opened FenceLedger
  import opened FriendGate

  /** The bytes since the last fence have reached two packets and a quarter of the budget. */
  predicate FenceDue(cfg: Config, l: Ledger, size: nat) {
    var unfenced := l.book.emitted + size - l.lastFenced;
    unfenced >= 2 * 1372 && 4 * unfenced + 3 >= Budget(cfg, l)
  }

  lemma DueIsProgress(cfg: Config, l: Ledger, size: nat)
    ensures ProgressDue(cfg, l.(book := Emit(l.book, size))) <==> FenceDue(cfg, l, size)
  {
    var m := l.(book := Emit(l.book, size));
    assert Budget(cfg, m) == Budget(cfg, l);
    hide Budget;
  }

  /** What sending a fence records: the entry, what had been emitted, and the first fence of a detection. */
  ghost predicate Fenced(cfg: Config, l: Ledger, m: Ledger, now: int) {
    && m.book == Record(Some(cfg.maxLedgerEntries), l.book, Stamp(now, l.lastCreditNs, l.lastCreditSentNs))
    && m.lastFenced == l.book.emitted
    && m.firstFenceNs == (if l.firstFenceNs == 0 then now else l.firstFenceNs)
  }

  /** Behind accepted DATA a fence goes out exactly if the friend is gated, it is due, and toxcore takes it. */
  lemma FenceBehindDataExactly(cfg: Config, l: Ledger, size: nat, now: int, fenceOk: bool)
    ensures var e, m := l.(book := Emit(l.book, size)), DataAccepted(cfg, l, size, now, fenceOk);
            if l.phase != Legacy && FenceDue(cfg, l, size) && fenceOk then Fenced(cfg, e, m, now) else m == e
  {
    DueIsProgress(cfg, l, size);
    hide FenceDue, ProgressDue, Record;
  }

  /** A friend is judged legacy by a tick exactly if no echo came for the timeout, longer if it echoed before. */
  lemma TimeoutExactly(cfg: Config, l: Ledger, hintRefused: bool, now: int, fenceOk: bool)
    requires l.phase != Legacy
    ensures var t := Tick(cfg, l, hintRefused, now, fenceOk);
            && (t.ledger.phase == Legacy
                <==> l.phase == Bootstrap && l.firstFenceNs > 0
                     && now - l.firstFenceNs > (if l.rearmedActive then 6 else 1) * cfg.legacyTimeoutNs)
            && (t.ledger.phase == Legacy ==> t.ledger == l.(phase := Legacy, book := l.book.(entries := []),
                                                            probing := false)
                                             && t.room == OPEN_ROOM && !t.fenced && !t.tookHint)
  {
    HealthExactly(cfg, l, hintRefused, now);
    hide TickHealth, TickWant, Record;
  }

  /** The friend's DATA was refused within the last second. */
  predicate Recent(l: Ledger, now: int) {
    l.lastRefusedNs > 0 && now < l.lastRefusedNs + 1_000_000_000
  }

  /** Since when the round trip has not been confirmed: a trusted sample, else the activation, or the last probe. */
  function Unconfirmed(l: Ledger): int {
    Max(if l.lastTrustedNs > 0 then l.lastTrustedNs else l.activatedNs, l.lastProbeDoneNs)
  }

  /**
   * When a probe starts and ends: it starts for an active friend whose DATA is
   * being refused and whose round trip has gone unconfirmed for too long, and
   * ends once it has been answered and the pipe has drained. A hinted refusal
   * counts from this tick on.
   */
  lemma HealthExactly(cfg: Config, l: Ledger, hintRefused: bool, now: int)
    ensures var m := TickHealth(cfg, l, hintRefused, now);
            var starts := l.phase == Active && !l.probing && Recent(l, now) && Unconfirmed(l) > 0
                          && now > Unconfirmed(l) + cfg.probeAfterNs;
            var ends := l.probing && l.probeReleased && l.book.delivered == l.book.emitted;
            && m.probing == (starts || (l.probing && !ends))
            && (starts ==> !m.probeReleased) && (!starts ==> m.probeReleased == l.probeReleased)
            && m.lastProbeDoneNs == (if ends then now else l.lastProbeDoneNs)
            && m.lastRefusedNs == (if hintRefused then now else l.lastRefusedNs)
            && m == l.(probing := m.probing, probeReleased := m.probeReleased, lastProbeDoneNs := m.lastProbeDoneNs,
                       lastRefusedNs := m.lastRefusedNs, rate := AgeRate(l, now).rate,
                       rateBps := AgeRate(l, now).rateBps)
  {
  }

  /** A reason to fence now, other than to ask again for an echo that is outstanding. */
  predicate FreshReason(cfg: Config, m: Ledger, recent: bool) {
    || FenceDue(cfg, m, 0)
    || ((recent || m.probing) && m.book.delivered < m.book.emitted && !DebtCovered(m.book))
    || (m.probing && m.book.delivered == m.book.emitted
        && !(DebtCovered(m.book) && m.book.entries[|m.book.entries| - 1].loBacklog == 0))
  }

  /** An outstanding fence may be asked for again, once the pause is over. */
  predicate AskAgain(m: Ledger, recent: bool, now: int) {
    (recent || m.probing) && m.book.entries != [] && now >= m.nextRecoveryNs
  }

  /** What sending a fence records, and what it leaves alone. */
  ghost predicate FencedOnly(cfg: Config, l: Ledger, m: Ledger, now: int) {
    && Fenced(cfg, l, m, now)
    && m == l.(book := m.book, lastFenced := m.lastFenced, firstFenceNs := m.firstFenceNs,
               recoveryIntervalNs := m.recoveryIntervalNs, nextRecoveryNs := m.nextRecoveryNs)
  }

  /**
   * A tick of a gated friend fences exactly if toxcore takes the fence and
   * there is a fresh reason, or an outstanding one to ask for again. Asking
   * again doubles the pause, up to its maximum; anything else keeps it.
   */
  lemma TickFencesExactly(cfg: Config, l: Ledger, hintRefused: bool, now: int, fenceOk: bool)
    requires l.phase != Legacy && Tick(cfg, l, hintRefused, now, fenceOk).ledger.phase != Legacy
    requires l.book.delivered <= l.book.emitted
    ensures var t, m := Tick(cfg, l, hintRefused, now, fenceOk), TickHealth(cfg, l, hintRefused, now);
            var due, again := FreshReason(cfg, m, Recent(l, now)), AskAgain(m, Recent(l, now), now);
            && t.tookHint && (t.fenced <==> fenceOk && (due || again))
            && (!t.fenced ==> t.ledger == m)
            && (t.fenced ==>
                  && FencedOnly(cfg, m, t.ledger, now)
                  && t.ledger.nextRecoveryNs == now + t.ledger.recoveryIntervalNs
                  && t.ledger.recoveryIntervalNs
                     == (if m.recoveryIntervalNs == 0 then cfg.recoveryBaseNs
                         else if due then m.recoveryIntervalNs
                         else Min(2 * m.recoveryIntervalNs, cfg.recoveryMaxNs)))
  {
    HealthBook(cfg, l, hintRefused, now);
    var m := TickHealth(cfg, l, hintRefused, now);
    WantExactly(cfg, m, Recent(l, now), now);
    var want := TickWant(cfg, m, Blocked(l, now), now);
    hide TickHealth, TickWant, FreshReason, AskAgain, Record;
  }

  lemma WantExactly(cfg: Config, m: Ledger, recent: bool, now: int)
    requires m.book.delivered <= m.book.emitted
    ensures var want := TickWant(cfg, m, recent, now);
            && (want == PlainFence <==> FreshReason(cfg, m, recent))
            && (want == RecoveryFence <==> !FreshReason(cfg, m, recent) && AskAgain(m, recent, now))
  {
    DueIsProgress(cfg, m, 0);
    assert m.(book := Emit(m.book, 0)) == m;
    hide FenceDue, ProgressDue;
  }

  /**
   * What the echo of an outstanding fence leaves: the entry settled, the credit
   * clocks moved if it said anything new, the round trip confirmed if it was
   * timed exactly behind little enough data, the back-off over, and the friend
   * active.
   */
  lemma CreditExactly(cfg: Config, l: Ledger, matched: Range, fence: nat, now: int)
    ensures var m := Credit(cfg, l, matched, fence, now);
            var moves := matched.snapshot > l.book.delivered || l.lastCreditNs == 0;
            var confirms := fence == matched.lo && matched.loBacklog <= cfg.trustedBacklogBytes;
            && m.book == Settle(l.book, fence)
            && m.lastCreditNs == (if moves then now else l.lastCreditNs)
            && m.lastCreditSentNs == (if moves then matched.stamp.sentNs else l.lastCreditSentNs)
            && m.lastTrustedNs == (if confirms then now else l.lastTrustedNs)
            && m.probeReleased == (l.probeReleased || (l.probing && (confirms || matched.loBacklog == 0)))
            && m.recoveryIntervalNs == 0 && m.nextRecoveryNs == 0
            && (if l.phase == Bootstrap then m.phase == Active && !m.rearmedActive && m.activatedNs == now
                else m.phase == l.phase && m.rearmedActive == l.rearmedActive && m.activatedNs == l.activatedNs)
            && m.probing == l.probing && m.lastProbeDoneNs == l.lastProbeDoneNs && m.lastRefusedNs == l.lastRefusedNs
            && m.firstFenceNs == l.firstFenceNs && m.lastFenced == l.lastFenced
  {
    CreditSampleFrame(l, matched, now);
    var a := CreditSampled(l, matched, now);
    CreditClocks(l, matched, now);
    RttConfirms(cfg, a.(book := Settle(l.book, fence)), matched, fence, now);
    RttSampleFrame(cfg, a.(book := Settle(l.book, fence)), matched, fence, now);
    hide CreditSampled, RttSampled, Settle;
  }

  lemma CreditClocks(l: Ledger, matched: Range, now: int)
    ensures var a := CreditSampled(l, matched, now);
            var moves := matched.snapshot > l.book.delivered || l.lastCreditNs == 0;
            && a.lastCreditNs == (if moves then now else l.lastCreditNs)
            && a.lastCreditSentNs == (if moves then matched.stamp.sentNs else l.lastCreditSentNs)
  {
  }

  lemma RttConfirms(cfg: Config, l: Ledger, matched: Range, fence: nat, now: int)
    ensures var a := RttSampled(cfg, l, matched, fence, now);
            var confirms := fence == matched.lo && matched.loBacklog <= cfg.trustedBacklogBytes;
            && a.lastTrustedNs == (if confirms then now else l.lastTrustedNs)
            && a.probeReleased == (if confirms then l.probing || l.probeReleased else l.probeReleased)
  {
  }

  /**
   * A reply judges the friend legacy exactly if it is an empty PONG that no
   * keepalive accounts for while fences are outstanding in detection: a peer
   * that answers fences without echoing them.
   */
  lemma PongJudgesExactly(cfg: Config, l: Ledger, p: Packet, now: int)
    requires l.phase != Legacy
    ensures var m := PongReceived(cfg, l, p, now);
            && (m.phase == Legacy
                <==> IsEmptyPong(p) && l.phase == Bootstrap && l.book.entries != []
                     && l.emptyPongsReceived >= l.emptyPingsSent)
            && (IsEmptyPong(p) && m.phase != Legacy ==> m == l.(emptyPongsReceived := l.emptyPongsReceived + 1))
            && (m.phase == Legacy ==> m == l.(emptyPongsReceived := l.emptyPongsReceived + 1, phase := Legacy,
                                              book := l.book.(entries := []), probing := false))
  {
    if !IsEmptyPong(p) && EchoedFence(l.epoch, p).Some? {
      var fence := EchoedFence(l.epoch, p).value;
      var k := Find(l.book.entries, fence);
      if k < |l.book.entries| {
        CreditFrame(cfg, l, l.book.entries[k], fence, now);
      }
    }
    hide IsEmptyPong, EchoedFence, Find, Credit;
  }

  /** A reconnect restarts detection, remembering whether the friend echoed before; nothing it owes is forgotten. */
  lemma ReconnectExactly(l: Ledger)
    ensures Reconnected(l)
            == if l.phase == Bootstrap then l
               else l.(phase := Bootstrap, rearmedActive := l.phase == Active, firstFenceNs := 0,
                       recoveryIntervalNs := 0, nextRecoveryNs := 0,
                       emptyPongsReceived := Min(l.emptyPongsReceived, l.emptyPingsSent))
  {
  }
}
