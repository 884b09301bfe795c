/**
 * The per-tunnel send window: bandwidth x (windowed minimum RTT + queue budget)
 * x safety, held at the floor while the minimum is being re-measured.
 */
module BdpFlowControl {
  import opened Bytes
  import opened TwoBucket

  const ACK_SAFE_FLOOR_BYTES := 2 * 16 * 1024
  const MIN_RTT_BUCKET_NS := 5_000_000_000
  const MIN_RTT_PROBE_AFTER_NS := 10_000_000_000
  const QUEUE_BUDGET_US := 50_000
  const BPS_CAP := 1_000_000_000
  const RTT_CAP_US := 1_000_000_000
  const INT64_MAX := 0x7FFF_FFFF_FFFF_FFFF

  datatype Mode = Fixed | Bdp

  datatype Config = Config(
    mode: Mode, minWindowBytes: int, maxWindowBytes: int, safetyFactorX100: int, fixedWindowBytes: int)

  function Clamp(v: int, lo: int, hi: int): int {
    if v < lo then lo else if hi < v then hi else v
  }

  /** The configuration as it is stored: a floor no receiver can stall on, a bounded safety factor. */
  function Sanitise(c: Config): Config {
    var lo := Max(c.minWindowBytes, ACK_SAFE_FLOOR_BYTES);
    var hi := Max(c.maxWindowBytes, lo);
    Config(c.mode, lo, hi, Clamp(c.safetyFactorX100, 100, 1000), Clamp(c.fixedWindowBytes, lo, hi))
  }

  datatype State = State(
    rttUs: int, bandwidthBps: int, minimum: Filter<int>, minRttUs: int,
    lastTrustedNs: int, probing: bool, targetWindow: int, ackThreshold: int)

  function Seeded(cfg: Config): State {
    State(0, 0, Filter(0, 0, 0), 0, 0, false, cfg.fixedWindowBytes, Max(cfg.fixedWindowBytes / 16, 1024))
  }

  /** Exponential average with weight 1/8; the shift rounds towards minus infinity. */
  function EwmaUpdate(prev: int, sample: int): int {
    if prev == 0 then sample else prev + (sample - prev) / 8
  }

  function WithWindow(s: State, window: int): State {
    s.(targetWindow := window, ackThreshold := Max(window / 16, 1024))
  }

  function CappedRtt(rttUs: int): int {
    Min(rttUs, RTT_CAP_US - QUEUE_BUDGET_US) + QUEUE_BUDGET_US
  }

  function BdpBytes(bps: int, rttUs: int): int {
    Min(bps, BPS_CAP) * CappedRtt(rttUs) / 1_000_000
  }

  function Recompute(cfg: Config, s: State): State {
    var rtt := if s.minRttUs > 0 then s.minRttUs else s.rttUs;
    if cfg.mode == Fixed then WithWindow(s, cfg.fixedWindowBytes)
    else if s.probing then WithWindow(s, cfg.minWindowBytes)
    else if rtt <= 0 || s.bandwidthBps <= 0 then s
    else
      var target := BdpBytes(s.bandwidthBps, rtt) * cfg.safetyFactorX100 / 100;
      var clamped := Clamp(target, cfg.minWindowBytes, cfg.maxWindowBytes);
      WithWindow(s, if s.minRttUs > 0 then clamped else Min(clamped, cfg.fixedWindowBytes))
  }

  /** The sample's effect on the estimates: the average always, the minimum and the probe only by a trusted one. */
  function Estimates(s: State, rttUs: int, trustedUs: int, now: int): State {
    var a := s.(rttUs := EwmaUpdate(s.rttUs, rttUs),
                lastTrustedNs := if s.lastTrustedNs == 0 then now else s.lastTrustedNs);
    if trustedUs > 0 then
      var f := Observe(Smaller, 0, MIN_RTT_BUCKET_NS, a.minimum, Sample(now, trustedUs));
      a.(minimum := f, minRttUs := Report(Smaller, 0, f), lastTrustedNs := now, probing := false)
    else if now - a.lastTrustedNs >= MIN_RTT_PROBE_AFTER_NS then a.(probing := true)
    else a
  }

  /** One ACK's samples: the newest feeds the average, the newest trusted one (0 if none) the minimum. */
  function ObserveRtt(cfg: Config, s: State, rttUs: int, trustedUs: int, now: int): State {
    if rttUs <= 0 then s else Recompute(cfg, Estimates(s, rttUs, trustedUs, now))
  }

  function ObserveBandwidth(cfg: Config, s: State, bps: int): State {
    if bps <= 0 then s else Recompute(cfg, s.(bandwidthBps := EwmaUpdate(s.bandwidthBps, bps)))
  }

  // ---------------------------------------------------------------------------
  // The object
  // ---------------------------------------------------------------------------

  class FlowControl {
    const cfg: Config
    var rttUs: int
    var bandwidthBps: int
    var bucketStartNs: int
    var curBucketMinUs: int
    var prevBucketMinUs: int
    var minRttUs: int
    var lastTrustedNs: int
    var probing: bool
    var targetWindow: int
    var ackThreshold: int

    function View(): State
      reads this
    {
      State(rttUs, bandwidthBps, Filter(bucketStartNs, curBucketMinUs, prevBucketMinUs), minRttUs,
            lastTrustedNs, probing, targetWindow, ackThreshold)
    }

    constructor (raw: Config)
      ensures cfg == Sanitise(raw) && View() == Seeded(cfg)
    {
      cfg := Sanitise(raw);
      rttUs, bandwidthBps, bucketStartNs, curBucketMinUs, prevBucketMinUs := 0, 0, 0, 0, 0;
      minRttUs, lastTrustedNs, probing := 0, 0, false;
      targetWindow, ackThreshold := Sanitise(raw).fixedWindowBytes, Max(Sanitise(raw).fixedWindowBytes / 16, 1024);
    }

    method ObserveMinimum(trustedRtt: int, now: int)
      modifies `bucketStartNs, `curBucketMinUs, `prevBucketMinUs, `minRttUs
      ensures var f := Observe(Smaller, 0, MIN_RTT_BUCKET_NS, old(View()).minimum, Sample(now, trustedRtt));
              View() == old(View()).(minimum := f, minRttUs := Report(Smaller, 0, f))
    {
      if bucketStartNs == 0 || now - bucketStartNs >= MIN_RTT_BUCKET_NS {
        var adjacent := bucketStartNs != 0 && now - bucketStartNs < 2 * MIN_RTT_BUCKET_NS;
        prevBucketMinUs := if adjacent then curBucketMinUs else 0;
        curBucketMinUs := 0;
        bucketStartNs := now;
      }
      if curBucketMinUs == 0 || trustedRtt < curBucketMinUs {
        curBucketMinUs := trustedRtt;
      }
      minRttUs := curBucketMinUs;
      if prevBucketMinUs != 0 && prevBucketMinUs < minRttUs {
        minRttUs := prevBucketMinUs;
      }
    }

    method ObserveRttSamples(rtt: int, trustedRtt: int, now: int)
      modifies this
      ensures View() == ObserveRtt(cfg, old(View()), rtt, trustedRtt, now)
    {
      hide Recompute, EwmaUpdate, Observe, Report;
      if rtt <= 0 {
        return;
      }
      rttUs := EwmaUpdate(rttUs, rtt);
      if lastTrustedNs == 0 {
        lastTrustedNs := now;
      }
      if trustedRtt > 0 {
        ObserveMinimum(trustedRtt, now);
        lastTrustedNs := now;
        probing := false;
      } else if now - lastTrustedNs >= MIN_RTT_PROBE_AFTER_NS {
        probing := true;
      }
      RecomputeWindow();
    }

    method ObserveBandwidthBps(bps: int)
      modifies this
      ensures View() == ObserveBandwidth(cfg, old(View()), bps)
    {
      if bps <= 0 {
        return;
      }
      bandwidthBps := EwmaUpdate(bandwidthBps, bps);
      RecomputeWindow();
    }

    method SetWindow(window: int)
      modifies `targetWindow, `ackThreshold
      ensures View() == WithWindow(old(View()), window)
    {
      targetWindow := window;
      ackThreshold := Max(window / 16, 1024);
    }

    method RecomputeWindow()
      modifies `targetWindow, `ackThreshold
      ensures View() == Recompute(cfg, old(View()))
    {
      if cfg.mode == Fixed {
        SetWindow(cfg.fixedWindowBytes);
        return;
      }
      if probing {
        SetWindow(cfg.minWindowBytes);
        return;
      }
      var rtt := minRttUs;
      var haveMin := rtt > 0;
      if !haveMin {
        rtt := rttUs;
      }
      if rtt <= 0 || bandwidthBps <= 0 {
        return;
      }
      var bdp := Min(bandwidthBps, BPS_CAP) * CappedRtt(rtt) / 1_000_000;
      var clamped := Clamp(bdp * cfg.safetyFactorX100 / 100, cfg.minWindowBytes, cfg.maxWindowBytes);
      if !haveMin {
        clamped := Min(clamped, cfg.fixedWindowBytes);
      }
      SetWindow(clamped);
    }
  }

  // ---------------------------------------------------------------------------
  // Every run
  // ---------------------------------------------------------------------------

  datatype Event = Rtt(rttUs: int, trustedUs: int, now: int) | Bandwidth(bps: int)

  function Apply(cfg: Config, s: State, e: Event): State {
    match e
    case Rtt(rtt, trusted, now) => ObserveRtt(cfg, s, rtt, trusted, now)
    case Bandwidth(bps) => ObserveBandwidth(cfg, s, bps)
  }

  function Run(cfg: Config, es: seq<Event>): State {
    if es == [] then Seeded(cfg) else Apply(cfg, Run(cfg, es[..|es| - 1]), es[|es| - 1])
  }

  predicate Trusted(e: Event) {
    e.Rtt? && e.rttUs > 0 && e.trustedUs > 0
  }

  /** The trusted samples among the events. */
  function TrustedLog(es: seq<Event>): seq<Sample<int>> {
    if es == [] then []
    else
      var rest, e := TrustedLog(es[..|es| - 1]), es[|es| - 1];
      if Trusted(e) then rest + [Sample(e.now, e.trustedUs)] else rest
  }

  /** An averaged value has moved an eighth of the way to the sample, rounded down, and so lies in between. */
  lemma EwmaBetween(prev: int, sample: int)
    ensures prev != 0 ==> var moved := EwmaUpdate(prev, sample) - prev; 8 * moved <= sample - prev < 8 * moved + 8
    ensures prev == 0 ==> EwmaUpdate(prev, sample) == sample
    ensures prev != 0 ==> Min(prev, sample) <= EwmaUpdate(prev, sample) <= Max(prev, sample)
    ensures prev >= 0 && sample > 0 ==> EwmaUpdate(prev, sample) > 0
  {
  }

  /** With sane inputs no intermediate product of the window computation leaves a signed 64-bit integer. */
  lemma WindowFitsInt64(cfg: Config, bps: int, rttUs: int)
    requires 100 <= cfg.safetyFactorX100 <= 1000 && bps > 0 && rttUs > 0
    ensures 0 <= Min(bps, BPS_CAP) * CappedRtt(rttUs) <= INT64_MAX
    ensures 0 <= BdpBytes(bps, rttUs) <= 1_000_000_000_000
    ensures 0 <= BdpBytes(bps, rttUs) * cfg.safetyFactorX100 <= INT64_MAX
  {
    var a, b := Min(bps, BPS_CAP), CappedRtt(rttUs);
    MulBound(a, b, BPS_CAP, RTT_CAP_US);
    MulBound(a * b / 1_000_000, cfg.safetyFactorX100, 1_000_000_000_000, 1000);
  }

  lemma MulBound(a: int, b: int, x: int, y: int)
    requires 0 <= a <= x && 0 <= b <= y
    ensures 0 <= a * b <= x * y
  {
    assert a * b <= x * b <= x * y;
  }

  ghost predicate Inv(cfg: Config, s: State) {
    && cfg.minWindowBytes <= s.targetWindow <= cfg.maxWindowBytes
    && s.ackThreshold == Max(s.targetWindow / 16, 1024)
    && (cfg.mode == Fixed ==> s.targetWindow == cfg.fixedWindowBytes)
    && (cfg.mode == Bdp && s.probing ==> s.targetWindow == cfg.minWindowBytes)
    && (s.minRttUs == 0 ==> s.targetWindow <= cfg.fixedWindowBytes)
    && s.minRttUs >= 0 && s.minimum.cur >= 0 && s.minimum.prev >= 0
    && (s.minRttUs > 0 ==> s.minimum.cur > 0)
  }

  lemma RecomputeInv(raw: Config, s: State, t: State)
    requires Inv(Sanitise(raw), s) && (s.minRttUs > 0 ==> t.minRttUs > 0)
    requires t.targetWindow == s.targetWindow && t.ackThreshold == s.ackThreshold
    requires t.minRttUs >= 0 && t.minimum.cur >= 0 && t.minimum.prev >= 0 && (t.minRttUs > 0 ==> t.minimum.cur > 0)
    ensures Inv(Sanitise(raw), Recompute(Sanitise(raw), t))
  {
    hide BdpBytes;
  }

  /** Absorbing a sample leaves the window alone, keeps the minimum non-negative and never forgets one. */
  lemma EstimatesFrame(s: State, rttUs: int, trustedUs: int, now: int)
    requires s.minRttUs >= 0 && s.minimum.cur >= 0 && s.minimum.prev >= 0 && (s.minRttUs > 0 ==> s.minimum.cur > 0)
    ensures var t := Estimates(s, rttUs, trustedUs, now);
            && t.targetWindow == s.targetWindow && t.ackThreshold == s.ackThreshold
            && t.minRttUs >= 0 && t.minimum.cur >= 0 && t.minimum.prev >= 0
            && (t.minRttUs > 0 ==> t.minimum.cur > 0) && (s.minRttUs > 0 ==> t.minRttUs > 0)
            && (trustedUs > 0 ==> 0 < t.minRttUs <= trustedUs)
  {
  }

  /**
   * In every run the window stays within its configured bounds (and is exactly
   * the configured one in fixed mode), sits at the floor while the minimum is
   * being probed, and before the first trusted sample never exceeds its seed.
   */
  lemma {:induction false} WindowStaysInBounds(raw: Config, es: seq<Event>)
    ensures Inv(Sanitise(raw), Run(Sanitise(raw), es))
  {
    var cfg := Sanitise(raw);
    if es != [] {
      var s, e := Run(cfg, es[..|es| - 1]), es[|es| - 1];
      WindowStaysInBounds(raw, es[..|es| - 1]);
      hide Recompute, Estimates, Sanitise;
      match e {
        case Rtt(rtt, trusted, now) =>
          if rtt > 0 {
            EstimatesFrame(s, rtt, trusted, now);
            RecomputeInv(raw, s, Estimates(s, rtt, trusted, now));
          }
        case Bandwidth(bps) =>
          if bps > 0 {
            RecomputeInv(raw, s, s.(bandwidthBps := EwmaUpdate(s.bandwidthBps, bps)));
          }
      }
    }
  }

  /** In every run the filter has seen exactly the trusted samples, and the estimate is its report. */
  lemma {:induction false} MinimumFollowsTrustedSamples(cfg: Config, es: seq<Event>)
    ensures var s, log := Run(cfg, es), TrustedLog(es);
            && s.minimum == After(Smaller, 0, MIN_RTT_BUCKET_NS, log)
            && s.minRttUs == (if log == [] then 0 else Report(Smaller, 0, s.minimum))
  {
    if es != [] {
      var e, init := es[|es| - 1], es[..|es| - 1];
      MinimumFollowsTrustedSamples(cfg, init);
      hide Observe, Report, BdpBytes;
      if Trusted(e) {
        var log := TrustedLog(init) + [Sample(e.now, e.trustedUs)];
        assert log[..|log| - 1] == TrustedLog(init);
      }
    }
  }

  /**
   * In every run whose last trusted sample is at `now`, the estimate is one of
   * the trusted samples of the last three buckets and no larger than any
   * trusted sample of the last one.
   */
  lemma MinimumIsWindowed(cfg: Config, es: seq<Event>)
    requires TrustedLog(es) != [] && Clocked(0, TrustedLog(es))
    ensures var log, best := TrustedLog(es), Run(cfg, es).minRttUs;
            var now := log[|log| - 1].at;
            && (exists i :: 0 <= i < |log| && now - 3 * MIN_RTT_BUCKET_NS < log[i].at && log[i].value == best)
            && (forall i :: 0 <= i < |log| && now - MIN_RTT_BUCKET_NS < log[i].at ==> best <= log[i].value)
  {
    hide Run, TrustedLog, After, Report;
    MinimumFollowsTrustedSamples(cfg, es);
    assert StrictOrder(Smaller);
    RefinesSlidingWindow(Smaller, 0, MIN_RTT_BUCKET_NS, TrustedLog(es));
  }

  /** A probe starts only after ten seconds without a trusted sample, and the next trusted sample ends it. */
  lemma ProbeExactly(cfg: Config, s: State, rtt: int, trusted: int, now: int)
    requires rtt > 0
    ensures ObserveRtt(cfg, s, rtt, trusted, now).probing
            <==> trusted <= 0
                 && (s.probing || (s.lastTrustedNs != 0 && now - s.lastTrustedNs >= MIN_RTT_PROBE_AFTER_NS))
  {
    hide Observe, Report, BdpBytes;
  }

  // ---------------------------------------------------------------------------
  // What the window is
  // ---------------------------------------------------------------------------

  /** The configuration is made safe, and left alone exactly if it already is. */
  lemma SanitiseExactly(c: Config)
    ensures var d := Sanitise(c);
            && d.mode == c.mode && Sanitise(d) == d
            && ACK_SAFE_FLOOR_BYTES <= d.minWindowBytes <= d.fixedWindowBytes <= d.maxWindowBytes
            && c.minWindowBytes <= d.minWindowBytes && 100 <= d.safetyFactorX100 <= 1000
            && (d == c <==> ACK_SAFE_FLOOR_BYTES <= c.minWindowBytes <= c.fixedWindowBytes <= c.maxWindowBytes
                            && 100 <= c.safetyFactorX100 <= 1000)
            && (c.minWindowBytes >= ACK_SAFE_FLOOR_BYTES ==> d.minWindowBytes == c.minWindowBytes)
            && (c.maxWindowBytes >= d.minWindowBytes ==> d.maxWindowBytes == c.maxWindowBytes)
            && (d.minWindowBytes <= c.fixedWindowBytes <= d.maxWindowBytes ==>
                  d.fixedWindowBytes == c.fixedWindowBytes)
  {
  }

  /** In every run the window is the one its estimates call for: computing it again changes nothing. */
  lemma {:induction false} WindowIsSettled(cfg: Config, es: seq<Event>)
    ensures Recompute(cfg, Run(cfg, es)) == Run(cfg, es)
  {
    if es != [] {
      WindowIsSettled(cfg, es[..|es| - 1]);
      hide BdpBytes, Estimates, EwmaUpdate, Clamp;
    }
  }

  /** The round trip the window is sized by: the windowed minimum as soon as there is one. */
  function BaseRtt(s: State): int {
    if s.minRttUs > 0 then s.minRttUs else s.rttUs
  }

  /**
   * What the window is, in every run in which the estimates decide it:
   * bandwidth times the base round trip with its queue budget, both capped, in
   * whole bytes, times the safety factor, in whole bytes, within the bounds,
   * and not above the seed before a trusted sample. The base round trip is the
   * windowed minimum of the trusted samples once there is one.
   */
  lemma WindowExactly(raw: Config, es: seq<Event>)
    requires var cfg, s := Sanitise(raw), Run(Sanitise(raw), es);
             cfg.mode == Bdp && !s.probing && s.bandwidthBps > 0 && BaseRtt(s) > 0
    ensures var cfg, s := Sanitise(raw), Run(Sanitise(raw), es);
            var us := Min(BaseRtt(s), RTT_CAP_US - QUEUE_BUDGET_US) + QUEUE_BUDGET_US;
            var flow := Min(s.bandwidthBps, BPS_CAP) * us;
            var top := if s.minRttUs > 0 then cfg.maxWindowBytes else cfg.fixedWindowBytes;
            exists bytes: int ::
              && bytes * 1_000_000 <= flow < (bytes + 1) * 1_000_000
              && (bytes * cfg.safetyFactorX100 >= top * 100 ==> s.targetWindow == top)
              && (bytes * cfg.safetyFactorX100 < (cfg.minWindowBytes + 1) * 100 ==>
                    s.targetWindow == cfg.minWindowBytes)
              && (cfg.minWindowBytes < s.targetWindow < top ==>
                    s.targetWindow * 100 <= bytes * cfg.safetyFactorX100 < (s.targetWindow + 1) * 100)
              && cfg.minWindowBytes <= s.targetWindow <= top
  {
    var cfg, s := Sanitise(raw), Run(Sanitise(raw), es);
    WindowIsSettled(cfg, es);
    SanitiseExactly(raw);
    hide Run, Sanitise;
    var bytes := BdpBytes(s.bandwidthBps, BaseRtt(s));
    assert bytes * 1_000_000 <= Min(s.bandwidthBps, BPS_CAP) * CappedRtt(BaseRtt(s)) < (bytes + 1) * 1_000_000;
    hide BdpBytes;
    assert s.targetWindow == Recompute(cfg, s).targetWindow;
    Scaled(bytes * cfg.safetyFactorX100);
  }

  lemma Scaled(x: int)
    ensures x / 100 * 100 <= x < (x / 100 + 1) * 100
  {
  }

  /** The positive round trips, and the positive bandwidths, among the events. */
  function RttLog(es: seq<Event>): seq<int> {
    if es == [] then []
    else
      var e := es[|es| - 1];
      RttLog(es[..|es| - 1]) + (if e.Rtt? && e.rttUs > 0 then [e.rttUs] else [])
  }

  function BandwidthLog(es: seq<Event>): seq<int> {
    if es == [] then []
    else
      var e := es[|es| - 1];
      BandwidthLog(es[..|es| - 1]) + (if e.Bandwidth? && e.bps > 0 then [e.bps] else [])
  }

  function Average(xs: seq<int>): int {
    if xs == [] then 0 else EwmaUpdate(Average(xs[..|xs| - 1]), xs[|xs| - 1])
  }

  /** When the probe clock last started: at the last trusted sample, or at the first sample before there is one. */
  function TrustClock(es: seq<Event>): int {
    if es == [] then 0
    else
      var before, e := TrustClock(es[..|es| - 1]), es[|es| - 1];
      if e.Rtt? && e.rttUs > 0 && (e.trustedUs > 0 || before == 0) then e.now else before
  }

  lemma AverageSnoc(xs: seq<int>, x: int)
    ensures Average(xs + [x]) == EwmaUpdate(Average(xs), x)
  {
    assert (xs + [x])[..|xs|] == xs;
  }

  /** In every run the averages are those of the positive samples, in order, and the probe clock is the trust's. */
  lemma {:induction false} AveragesFollowSamples(cfg: Config, es: seq<Event>)
    ensures var s := Run(cfg, es);
            s.rttUs == Average(RttLog(es)) && s.bandwidthBps == Average(BandwidthLog(es))
            && s.lastTrustedNs == TrustClock(es)
  {
    if es != [] {
      var init, e := es[..|es| - 1], es[|es| - 1];
      AveragesFollowSamples(cfg, init);
      AverageSnoc(RttLog(init), if e.Rtt? then e.rttUs else 0);
      AverageSnoc(BandwidthLog(init), if e.Bandwidth? then e.bps else 0);
      assert RttLog(init) + [] == RttLog(init) && BandwidthLog(init) + [] == BandwidthLog(init);
      ApplyAverages(cfg, Run(cfg, init), e);
      hide EwmaUpdate, Apply, Average;
    }
  }

  lemma ApplyAverages(cfg: Config, s: State, e: Event)
    ensures var t := Apply(cfg, s, e);
            && t.rttUs == (if e.Rtt? && e.rttUs > 0 then EwmaUpdate(s.rttUs, e.rttUs) else s.rttUs)
            && t.bandwidthBps == (if e.Bandwidth? && e.bps > 0 then EwmaUpdate(s.bandwidthBps, e.bps)
                                  else s.bandwidthBps)
            && t.lastTrustedNs == (if e.Rtt? && e.rttUs > 0 && (e.trustedUs > 0 || s.lastTrustedNs == 0) then e.now
                                   else s.lastTrustedNs)
  {
    hide EwmaUpdate, Observe, Report, BdpBytes, Clamp;
  }
}
