/**
 * What the gate's rate and round-trip estimates mean over whole runs of one
 * ledger: sliding-window extrema of the samples its echoes produced.
 */
module GateEstimators {
  import opened Bytes
  import opened Protocol
  import opened FenceLedger
  import opened FriendGate
  import opened TwoBucket

  datatype Event =
    | DataTaken(size: nat, fenceOk: bool)
    | DataRefused
    | KeepaliveTaken
    | Received(packet: Packet)
    | TickGate(hintRefused: bool, fenceOk: bool)
    | Reconnect

  datatype Timed = Timed(now: int, event: Event)

  function Step(cfg: Config, l: Ledger, t: Timed): Ledger {
    match t.event
    case DataTaken(size, fenceOk) => DataAccepted(cfg, l, size, t.now, fenceOk)
    case DataRefused => l.(lastRefusedNs := t.now)
    case KeepaliveTaken => l.(emptyPingsSent := l.emptyPingsSent + 1)
    case Received(packet) => PongReceived(cfg, l, packet, t.now)
    case TickGate(hintRefused, fenceOk) =>
      if l.phase == Legacy then l else Tick(cfg, l, hintRefused, t.now, fenceOk).ledger
    case Reconnect => Reconnected(l)
  }

  function Run(cfg: Config, start: Ledger, ts: seq<Timed>): Ledger {
    if ts == [] then start else Step(cfg, Run(cfg, start, ts[..|ts| - 1]), ts[|ts| - 1])
  }

  /** The outstanding entry a packet echoes a fence of, if any. */
  function Match(l: Ledger, p: Packet): Option<Range> {
    var echoed := EchoedFence(l.epoch, p);
    if IsEmptyPong(p) || echoed.None? then None
    else
      var k := Find(l.book.entries, echoed.value);
      if k < |l.book.entries| then Some(l.book.entries[k]) else None
  }

  function RateSample(l: Ledger, t: Timed): seq<Sample<real>> {
    if t.event.Received? && Match(l, t.event.packet).Some? then
      match RateOf(l, Match(l, t.event.packet).value, t.now)
      case Some(bps) => [Sample(t.now, bps)]
      case None => []
    else []
  }

  /** An exactly timed fence sent behind little enough data is a trusted round trip, at least a microsecond long. */
  function RttSample(cfg: Config, l: Ledger, t: Timed): seq<Sample<int>> {
    if t.event.Received? && Match(l, t.event.packet).Some? then
      var r := Match(l, t.event.packet).value;
      if EchoedFence(l.epoch, t.event.packet) == Some(r.lo) && r.loBacklog <= cfg.trustedBacklogBytes then
        [Sample(t.now, Max((t.now - r.stamp.sentNs) / 1000, 1))]
      else []
    else []
  }

  function RateLog(cfg: Config, start: Ledger, ts: seq<Timed>): seq<Sample<real>> {
    if ts == [] then []
    else
      var init := ts[..|ts| - 1];
      RateLog(cfg, start, init) + RateSample(Run(cfg, start, init), ts[|ts| - 1])
  }

  function RttLog(cfg: Config, start: Ledger, ts: seq<Timed>): seq<Sample<int>> {
    if ts == [] then []
    else
      var init := ts[..|ts| - 1];
      RttLog(cfg, start, init) + RttSample(cfg, Run(cfg, start, init), ts[|ts| - 1])
  }

  /** The clock reads positive times and never runs backwards. */
  ghost predicate InOrder(ts: seq<Timed>) {
    && (forall i :: 0 <= i < |ts| ==> ts[i].now > 0)
    && (forall i, j :: 0 <= i < j < |ts| ==> ts[i].now <= ts[j].now)
  }

  function Latest(ts: seq<Timed>): int {
    if ts == [] then 0 else ts[|ts| - 1].now
  }

  const NO_RATE := Filter(0, 0.0, 0.0)

  /** The rate filter has seen the log, unless ageing emptied it two widths after its bucket began. */
  ghost predicate RateTracks(l: Ledger, log: seq<Sample<real>>, now: int) {
    var f := After(Larger, 0.0, BUCKET_NS, log);
    && l.rate.cur >= 0.0 && l.rate.prev >= 0.0
    && l.rateBps == Report(Larger, 0.0, l.rate)
    && (l.rate == f || (l.rate == NO_RATE && log != [] && f.start != 0 && now - f.start >= 2 * BUCKET_NS))
  }

  ghost predicate RttTracks(l: Ledger, log: seq<Sample<int>>) {
    && l.rtt.cur >= 0 && l.rtt.prev >= 0
    && l.rtt == After(Smaller, 0, BUCKET_NS, log)
    && BaseRttUs(l) == Report(Smaller, 0, l.rtt)
  }

  /** What a matched echo does to the two estimates. */
  lemma EchoEstimates(cfg: Config, l: Ledger, p: Packet, now: int)
    ensures var m, t := PongReceived(cfg, l, p, now), Timed(now, Received(p));
            var rate, rtt := RateSample(l, t), RttSample(cfg, l, t);
            && |rate| <= 1 && |rtt| <= 1
            && (if rate == [] then m.rate == l.rate && m.rateBps == l.rateBps
                else rate[0].at == now && rate[0].value > 0.0
                     && m.rate == ObserveRate(l, rate[0].value, now).rate
                     && m.rateBps == ObserveRate(l, rate[0].value, now).rateBps)
            && (if rtt == [] then m.rtt == l.rtt
                else rtt[0].at == now && rtt[0].value > 0 && m.rtt == ObserveRtt(l, rtt[0].value, true, now).rtt)
  {
    hide PongReceived, Credit, IsEmptyPong, EchoedFence, Find, ObserveRate, RateOf;
    EchoIsCredit(cfg, l, p, now);
    if Match(l, p).Some? {
      var r, fence := Match(l, p).value, EchoedFence(l.epoch, p).value;
      CreditEstimates(cfg, l, r, fence, now);
      hide Match;
    }
  }

  lemma EchoIsCredit(cfg: Config, l: Ledger, p: Packet, now: int)
    ensures var m := PongReceived(cfg, l, p, now);
            if Match(l, p).Some? then
              && EchoedFence(l.epoch, p).Some?
              && m == Credit(cfg, l, Match(l, p).value, EchoedFence(l.epoch, p).value, now)
            else m.rate == l.rate && m.rateBps == l.rateBps && m.rtt == l.rtt
  {
    hide IsEmptyPong, EchoedFence, Find, Credit;
  }

  lemma CreditEstimates(cfg: Config, l: Ledger, r: Range, fence: nat, now: int)
    ensures var m := Credit(cfg, l, r, fence, now);
            && m.rate == RateSampled(l, r, now).rate && m.rateBps == RateSampled(l, r, now).rateBps
            && m.rtt == (if fence == r.lo && r.loBacklog <= cfg.trustedBacklogBytes
                         then ObserveRtt(l, Max((now - r.stamp.sentNs) / 1000, 1), true, now).rtt else l.rtt)
  {
    var c := CreditSampled(l, r, now).(book := Settle(l.book, fence));
    CreditSampleFrame(l, r, now);
    SampledRate(l, r, now);
    RttSampleFrame(cfg, c, r, fence, now);
    SampledRtt(cfg, l, c, r, fence, now);
    hide RateSampled, CreditSampled, RttSampled, ObserveRtt, Settle;
  }

  lemma SampledRate(l: Ledger, r: Range, now: int)
    ensures CreditSampled(l, r, now).rate == RateSampled(l, r, now).rate
    ensures CreditSampled(l, r, now).rateBps == RateSampled(l, r, now).rateBps
  {
    hide RateSampled;
  }

  lemma SampledRtt(cfg: Config, l: Ledger, c: Ledger, r: Range, fence: nat, now: int)
    requires c.rtt == l.rtt
    ensures RttSampled(cfg, c, r, fence, now).rtt
            == (if fence == r.lo && r.loBacklog <= cfg.trustedBacklogBytes
                then ObserveRtt(l, Max((now - r.stamp.sentNs) / 1000, 1), true, now).rtt else l.rtt)
  {
  }

  /** No other event touches them, except that a tick may age the rate. */
  lemma OtherEstimates(cfg: Config, l: Ledger, t: Timed)
    requires !t.event.Received?
    ensures var m := Step(cfg, l, t);
            && m.rtt == l.rtt
            && ((m.rate == l.rate && m.rateBps == l.rateBps)
                || (m.rate == NO_RATE && m.rateBps == 0.0
                    && l.rate.start != 0 && t.now - l.rate.start >= 2 * BUCKET_NS))
  {
    hide Record, FenceBehindData, TickWant, Backoff, LegacyTimeout, Forget, Emit, Room;
    match t.event {
      case TickGate(hintRefused, fenceOk) =>
        HealthEstimates(cfg, l, hintRefused, t.now);
        hide TickHealth;
        BackoffEstimates(cfg, TickHealth(cfg, l, hintRefused, t.now), t.now);
      case _ =>
    }
  }

  lemma HealthEstimates(cfg: Config, l: Ledger, hintRefused: bool, now: int)
    ensures var m := TickHealth(cfg, l, hintRefused, now);
            m.rtt == l.rtt && m.rate == AgeRate(l, now).rate && m.rateBps == AgeRate(l, now).rateBps
  {
  }

  lemma BackoffEstimates(cfg: Config, l: Ledger, now: int)
    ensures forall recovery :: var m := Backoff(cfg, FenceSent(cfg, l, now), recovery, now);
                               m.rtt == l.rtt && m.rate == l.rate && m.rateBps == l.rateBps
  {
    hide Record;
  }

  lemma RateSnoc(log: seq<Sample<real>>, s: Sample<real>)
    ensures After(Larger, 0.0, BUCKET_NS, log + [s])
            == Observe(Larger, 0.0, BUCKET_NS, After(Larger, 0.0, BUCKET_NS, log), s)
  {
    hide Observe;
    assert (log + [s])[..|log|] == log;
  }

  lemma RttSnoc(log: seq<Sample<int>>, s: Sample<int>)
    ensures After(Smaller, 0, BUCKET_NS, log + [s])
            == Observe(Smaller, 0, BUCKET_NS, After(Smaller, 0, BUCKET_NS, log), s)
  {
    hide Observe;
    assert (log + [s])[..|log|] == log;
  }

  lemma StepTracksRate(cfg: Config, l: Ledger, t: Timed, log: seq<Sample<real>>, before: int)
    requires RateTracks(l, log, before) && before <= t.now && t.now > 0
    ensures RateTracks(Step(cfg, l, t), log + RateSample(l, t), t.now)
  {
    var sample := RateSample(l, t);
    assert sample == [] ==> log + sample == log;
    if t.event.Received? {
      EchoEstimates(cfg, l, t.event.packet, t.now);
      if sample != [] {
        var s := sample[0];
        assert sample == [s];
        RateSnoc(log, s);
        var f := After(Larger, 0.0, BUCKET_NS, log);
        RateIsTwoBucketMaximum(l, s.value, t.now);
        hide ObserveRate, PongReceived, RateSample, After;
        if l.rate != f {
          AgingIsInvisible(Larger, 0.0, BUCKET_NS, f, before, s);
        }
        hide Observe, Report;
      }
    } else {
      OtherEstimates(cfg, l, t);
      hide After, Step;
    }
  }

  lemma StepTracksRtt(cfg: Config, l: Ledger, t: Timed, log: seq<Sample<int>>)
    requires RttTracks(l, log)
    ensures RttTracks(Step(cfg, l, t), log + RttSample(cfg, l, t))
  {
    var sample := RttSample(cfg, l, t);
    assert sample == [] ==> log + sample == log;
    if t.event.Received? {
      EchoEstimates(cfg, l, t.event.packet, t.now);
      if sample != [] {
        var s := sample[0];
        assert sample == [s];
        RttSnoc(log, s);
        RttIsTwoBucketMinimum(l, s.value, t.now);
        hide ObserveRtt, PongReceived, RttSample, After, Observe, Report;
      }
    } else {
      OtherEstimates(cfg, l, t);
      hide After, Step;
    }
  }

  // ---------------------------------------------------------------------------
  // Every run
  // ---------------------------------------------------------------------------

  lemma InOrderInit(ts: seq<Timed>)
    requires InOrder(ts) && ts != []
    ensures InOrder(ts[..|ts| - 1]) && 0 <= Latest(ts[..|ts| - 1]) <= Latest(ts) && Latest(ts) > 0
  {
    assert |ts| > 1 ==> ts[|ts| - 2].now <= ts[|ts| - 1].now;
  }

  lemma {:induction false} RunTracks(cfg: Config, number: nat, epoch: U64, ts: seq<Timed>)
    requires InOrder(ts)
    ensures var start := FreshLedger(number, epoch);
            var l := Run(cfg, start, ts);
            RateTracks(l, RateLog(cfg, start, ts), Latest(ts)) && RttTracks(l, RttLog(cfg, start, ts))
  {
    var start := FreshLedger(number, epoch);
    if ts != [] {
      var init, t := ts[..|ts| - 1], ts[|ts| - 1];
      InOrderInit(ts);
      RunTracks(cfg, number, epoch, init);
      var l := Run(cfg, start, init);
      hide RateTracks, RttTracks, Step, RateSample, RttSample, InOrder;
      StepTracksRate(cfg, l, t, RateLog(cfg, start, init), Latest(init));
      StepTracksRtt(cfg, l, t, RttLog(cfg, start, init));
    }
  }

  /** The samples come in time order, at positive times, and are positive. */
  lemma {:induction false} LogsAreClocked(cfg: Config, start: Ledger, ts: seq<Timed>)
    requires InOrder(ts)
    ensures Clocked(0.0, RateLog(cfg, start, ts)) && Clocked(0, RttLog(cfg, start, ts))
    ensures forall s :: s in RateLog(cfg, start, ts) ==> s.at <= Latest(ts)
    ensures forall s :: s in RttLog(cfg, start, ts) ==> s.at <= Latest(ts)
  {
    if ts != [] {
      var init, t := ts[..|ts| - 1], ts[|ts| - 1];
      InOrderInit(ts);
      LogsAreClocked(cfg, start, init);
      var l := Run(cfg, start, init);
      SampleShapes(cfg, l, t);
      hide Step, Run, RateSample, RttSample, InOrder;
      ClockedGrows(0.0, RateLog(cfg, start, init), RateSample(l, t), Latest(init), t.now);
      ClockedGrows(0, RttLog(cfg, start, init), RttSample(cfg, l, t), Latest(init), t.now);
    }
  }

  lemma SampleShapes(cfg: Config, l: Ledger, t: Timed)
    ensures var rate, rtt := RateSample(l, t), RttSample(cfg, l, t);
            && |rate| <= 1 && (rate != [] ==> rate[0].at == t.now && rate[0].value != 0.0)
            && |rtt| <= 1 && (rtt != [] ==> rtt[0].at == t.now && rtt[0].value != 0)
  {
    hide Match, EchoedFence, RateOf;
  }

  lemma ClockedGrows<T>(none: T, log: seq<Sample<T>>, more: seq<Sample<T>>, before: int, now: int)
    requires Clocked(none, log) && (forall s :: s in log ==> s.at <= before) && before <= now && now > 0
    requires |more| <= 1 && (more != [] ==> more[0].at == now && more[0].value != none)
    ensures Clocked(none, log + more) && forall s :: s in log + more ==> s.at <= now
  {
    assert forall i :: 0 <= i < |log| ==> log[i] in log;
  }

  /**
   * In every run of a ledger, whenever an echo has just shown a delivery rate,
   * the estimate is the rate of some echo of the last three buckets and no
   * echo of the last bucket showed a larger one, however often the estimate
   * was aged in between.
   */
  lemma RateIsWindowed(cfg: Config, number: nat, epoch: U64, ts: seq<Timed>)
    requires InOrder(ts) && ts != []
    requires var start := FreshLedger(number, epoch); RateSample(Run(cfg, start, ts[..|ts| - 1]), ts[|ts| - 1]) != []
    ensures var start := FreshLedger(number, epoch);
            var log, best, now := RateLog(cfg, start, ts), Run(cfg, start, ts).rateBps, Latest(ts);
            && (exists i :: 0 <= i < |log| && now - 3 * BUCKET_NS < log[i].at && log[i].value == best)
            && (forall i :: 0 <= i < |log| && now - BUCKET_NS < log[i].at ==> log[i].value <= best)
  {
    hide Run, RateLog, RttLog, RateSample, RttTracks, Clocked, InOrder, After, Report, FreshLedger;
    var start := FreshLedger(number, epoch);
    RunTracks(cfg, number, epoch, ts);
    LogsAreClocked(cfg, start, ts);
    RateLogEnds(cfg, start, ts);
    JustObserved(RateLog(cfg, start, ts), Latest(ts));
    LargestOfWindow(RateLog(cfg, start, ts));
  }

  lemma RateLogEnds(cfg: Config, start: Ledger, ts: seq<Timed>)
    requires ts != [] && RateSample(Run(cfg, start, ts[..|ts| - 1]), ts[|ts| - 1]) != []
    ensures var log := RateLog(cfg, start, ts); log != [] && log[|log| - 1].at == Latest(ts)
  {
    hide RateSample, Run;
    SampleShapes(cfg, Run(cfg, start, ts[..|ts| - 1]), ts[|ts| - 1]);
  }

  lemma RttLogEnds(cfg: Config, start: Ledger, ts: seq<Timed>)
    requires ts != [] && RttSample(cfg, Run(cfg, start, ts[..|ts| - 1]), ts[|ts| - 1]) != []
    ensures var log := RttLog(cfg, start, ts); log != [] && log[|log| - 1].at == Latest(ts)
  {
    hide RttSample, Run;
    SampleShapes(cfg, Run(cfg, start, ts[..|ts| - 1]), ts[|ts| - 1]);
  }

  lemma LargestOfWindow(log: seq<Sample<real>>)
    requires log != [] && Clocked(0.0, log)
    ensures var best, now := Report(Larger, 0.0, After(Larger, 0.0, BUCKET_NS, log)), log[|log| - 1].at;
            && (exists i :: 0 <= i < |log| && now - 3 * BUCKET_NS < log[i].at && log[i].value == best)
            && (forall i :: 0 <= i < |log| && now - BUCKET_NS < log[i].at ==> log[i].value <= best)
  {
    assert StrictOrder(Larger);
    RefinesSlidingWindow(Larger, 0.0, BUCKET_NS, log);
    hide After, Report, StrictOrder, Clocked;
  }

  lemma SmallestOfWindow(log: seq<Sample<int>>)
    requires log != [] && Clocked(0, log)
    ensures var best, now := Report(Smaller, 0, After(Smaller, 0, BUCKET_NS, log)), log[|log| - 1].at;
            && (exists i :: 0 <= i < |log| && now - 3 * BUCKET_NS < log[i].at && log[i].value == best)
            && (forall i :: 0 <= i < |log| && now - BUCKET_NS < log[i].at ==> best <= log[i].value)
  {
    assert StrictOrder(Smaller);
    RefinesSlidingWindow(Smaller, 0, BUCKET_NS, log);
    hide After, Report, StrictOrder, Clocked;
  }

  /** A filter that has just seen a sample has not been idle for two widths. */
  lemma JustObserved(log: seq<Sample<real>>, now: int)
    requires log != [] && log[|log| - 1].at == now
    ensures now - After(Larger, 0.0, BUCKET_NS, log).start < 2 * BUCKET_NS
  {
    hide Larger;
  }

  /** The same for the base round trip: the windowed minimum of the trusted samples. */
  lemma RttIsWindowed(cfg: Config, number: nat, epoch: U64, ts: seq<Timed>)
    requires InOrder(ts) && ts != []
    requires var start := FreshLedger(number, epoch);
             RttSample(cfg, Run(cfg, start, ts[..|ts| - 1]), ts[|ts| - 1]) != []
    ensures var start := FreshLedger(number, epoch);
            var log, best, now := RttLog(cfg, start, ts), BaseRttUs(Run(cfg, start, ts)), Latest(ts);
            && (exists i :: 0 <= i < |log| && now - 3 * BUCKET_NS < log[i].at && log[i].value == best)
            && (forall i :: 0 <= i < |log| && now - BUCKET_NS < log[i].at ==> best <= log[i].value)
  {
    hide Run, RateLog, RttLog, RttSample, RateTracks, Clocked, InOrder, After, Report, FreshLedger, BaseRttUs;
    var start := FreshLedger(number, epoch);
    RunTracks(cfg, number, epoch, ts);
    LogsAreClocked(cfg, start, ts);
    RttLogEnds(cfg, start, ts);
    SmallestOfWindow(RttLog(cfg, start, ts));
  }

  /** Between samples the rate is what the log reports, or none once two widths have passed since its bucket began. */
  lemma RateIsReportedOrAged(cfg: Config, number: nat, epoch: U64, ts: seq<Timed>)
    requires InOrder(ts)
    ensures var start := FreshLedger(number, epoch);
            var f := After(Larger, 0.0, BUCKET_NS, RateLog(cfg, start, ts));
            Run(cfg, start, ts).rateBps
            == if Run(cfg, start, ts).rate == f then Report(Larger, 0.0, f) else 0.0
    ensures var start := FreshLedger(number, epoch);
            var f := After(Larger, 0.0, BUCKET_NS, RateLog(cfg, start, ts));
            Run(cfg, start, ts).rate != f ==> Latest(ts) - f.start >= 2 * BUCKET_NS
  {
    RunTracks(cfg, number, epoch, ts);
    hide Run, RateLog, RttTracks, After;
  }
}
