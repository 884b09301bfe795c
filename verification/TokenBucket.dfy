/**
 * One lazily refilled token bucket in integer nanoseconds. A refill converts
 * whole tokens only and moves the cursor by the time those tokens cost, so the
 * sub-token remainder is neither lost to a fast poller nor banked by a full
 * bucket.
 */
module TokenBucket {
  import opened Bytes

  const NANOS_PER_SEC := 1_000_000_000
  const INT64_MAX := 0x7FFF_FFFF_FFFF_FFFF

  /** `cursor` is the time up to which tokens were credited; 0 means never refilled. */
  datatype Meter = Meter(tokens: int, cursor: int)

  function NsToFull(rate: int, burst: int): (ns: int)
    requires rate > 0 && burst >= 0
    ensures rate * ns <= burst * NANOS_PER_SEC < rate * ns + rate
  {
    burst * NANOS_PER_SEC / rate
  }

  function Earned(rate: int, elapsed: int): (tokens: int)
    requires rate > 0 && elapsed >= 0
    ensures 0 <= tokens && tokens * NANOS_PER_SEC <= rate * elapsed < (tokens + 1) * NANOS_PER_SEC
  {
    MulNonNegative(rate, elapsed);
    rate * elapsed / NANOS_PER_SEC
  }

  /** The nanoseconds a number of tokens takes to accrue, rounded down. */
  function Cost(rate: int, tokens: int): (ns: int)
    requires rate > 0 && tokens >= 0
    ensures 0 <= ns && rate * ns <= tokens * NANOS_PER_SEC < rate * ns + rate
  {
    tokens * NANOS_PER_SEC / rate
  }

  function Refill(m: Meter, rate: int, burst: int, now: int): Meter {
    var elapsed := now - m.cursor;
    if m.cursor == 0 then m.(cursor := now)
    else if rate <= 0 || burst <= 0 then m.(cursor := now)
    else if elapsed <= 0 then m
    else if elapsed >= NsToFull(rate, burst) then Meter(burst, now)
    else if m.tokens >= burst then m.(cursor := now)
    else
      var add := Earned(rate, elapsed);
      var next := Min(m.tokens + add, burst);
      if add <= 0 then m
      else if next == burst then Meter(next, now)
      else Meter(next, m.cursor + Cost(rate, add))
  }

  datatype Outcome = Outcome(meter: Meter, granted: bool, charged: int, wait: int)

  /** The wait announced with a refusal: the time the shortfall takes to accrue, rounded up and never 0. */
  function Wait(rate: int, deficit: int): (ns: int)
    requires rate > 0
    ensures ns >= 1
  {
    Max((deficit * NANOS_PER_SEC + rate - 1) / rate, 1)
  }

  /** An enforced request: charged at most the whole capacity, and refused without charge when short. */
  function Take(m: Meter, rate: int, burst: int, now: int, ask: nat): Outcome
    requires rate > 0 && burst > 0
  {
    var full := Refill(m, rate, burst, now);
    var need := Min(ask, burst);
    if full.tokens < need then Outcome(full, false, 0, Wait(rate, need - Max(full.tokens, 0)))
    else Outcome(full.(tokens := full.tokens - need), true, need, 0)
  }

  ghost predicate Sound(m: Meter, burst: int, now: int) {
    0 <= m.tokens <= burst && 0 <= m.cursor <= now
  }

  lemma MulMonotone(r: int, a: int, b: int)
    requires r > 0
    ensures a <= b ==> r * a <= r * b
    ensures a < b ==> r * a + r <= r * b
  {
    if a < b {
      MulNonNegative(r, b - a - 1);
      assert r * b == r * a + r + r * (b - a - 1);
    }
  }

  lemma MulNonNegative(r: int, a: int)
    requires r >= 0 && a >= 0
    ensures r * a >= 0
  {
  }

  lemma CostWithin(rate: int, elapsed: int)
    requires rate > 0 && elapsed >= 0
    ensures Cost(rate, Earned(rate, elapsed)) <= elapsed
  {
    MulMonotone(rate, elapsed, Cost(rate, Earned(rate, elapsed)));
  }

  /** Tokens stay within the bucket and the cursor never overtakes the clock. */
  lemma RefillKeepsSound(m: Meter, rate: int, burst: int, now: int)
    requires burst >= 0 && now > 0 && Sound(m, burst, now)
    ensures Sound(Refill(m, rate, burst, now), burst, now)
    ensures Refill(m, rate, burst, now).cursor > 0
    ensures Refill(m, rate, burst, now).cursor >= m.cursor
    ensures Refill(m, rate, burst, now).tokens >= m.tokens
  {
    var elapsed := now - m.cursor;
    if m.cursor > 0 && rate > 0 && burst > 0 && elapsed > 0 {
      CostWithin(rate, elapsed);
      hide NsToFull, Earned, Cost;
    }
  }

  /** The time-value of a meter, in token-nanoseconds. */
  function Potential(m: Meter, rate: int, now: int): int {
    m.tokens * NANOS_PER_SEC + rate * (now - m.cursor)
  }

  /** A refill creates less than one nanosecond's worth of credit. */
  lemma RefillLeak(m: Meter, rate: int, burst: int, now: int)
    requires rate > 0 && burst > 0 && now > 0 && Sound(m, burst, now) && m.cursor > 0
    ensures Potential(Refill(m, rate, burst, now), rate, now) <= Potential(m, rate, now) + rate - 1
  {
    var elapsed := now - m.cursor;
    MulNonNegative(rate, elapsed);
    if 0 < elapsed {
      var full, add := NsToFull(rate, burst), Earned(rate, elapsed);
      MulMonotone(rate, full, elapsed);
      CostLeak(rate, elapsed, Cost(rate, add));
      hide NsToFull, Earned, Cost;
    }
  }

  lemma CostLeak(rate: int, elapsed: int, cost: int)
    ensures rate * (elapsed - cost) == rate * elapsed - rate * cost
    ensures rate * (elapsed - elapsed) == 0
  {
  }

  /** Nothing earned between two meters was lost, except to a full bucket. */
  ghost predicate Credited(m: Meter, after: Meter, rate: int, burst: int) {
    || after.tokens == burst
    || rate * (after.cursor - m.cursor) <= (after.tokens - m.tokens) * NANOS_PER_SEC
  }

  lemma CreditedSelf(m: Meter, rate: int, burst: int)
    ensures Credited(m, m, rate, burst)
  {
  }

  /** A refill loses no credit the bucket has room for. */
  lemma RefillCredits(m0: Meter, m: Meter, rate: int, burst: int, now: int)
    requires rate > 0 && burst > 0 && now > 0 && Sound(m, burst, now) && 0 < m0.cursor <= m.cursor
    requires Credited(m0, m, rate, burst)
    ensures var after := Refill(m, rate, burst, now);
            && Credited(m0, after, rate, burst)
            && after.tokens >= Min(burst, m0.tokens + Earned(rate, now - m0.cursor))
  {
    var elapsed := now - m.cursor;
    var after := Refill(m, rate, burst, now);
    if after.tokens < burst {
      var add, moved := Earned(rate, elapsed), after.cursor - m.cursor;
      assert after.tokens == m.tokens + add && rate * moved <= add * NANOS_PER_SEC;
      assert rate * (after.cursor - m0.cursor) == rate * (m.cursor - m0.cursor) + rate * moved;
      assert rate * (now - m0.cursor) == rate * (m.cursor - m0.cursor) + rate * elapsed;
    }
  }

  // ---------------------------------------------------------------------------
  // The refill against the law it approximates
  // ---------------------------------------------------------------------------

  /** What the bucket would hold if every earned token were credited at once, in unbounded integers. */
  function Ideal(m: Meter, rate: int, burst: int, now: int): int
    requires rate > 0 && now >= m.cursor
  {
    Min(burst, m.tokens + Earned(rate, now - m.cursor))
  }

  /**
   * The saturation shortcut is safe: a refill never credits less than the
   * ideal, and never more than the ideal of one nanosecond later.
   */
  lemma RefillTracksIdeal(m: Meter, rate: int, burst: int, now: int)
    requires rate > 0 && burst > 0 && Sound(m, burst, now) && m.cursor > 0
    ensures Ideal(m, rate, burst, now) <= Refill(m, rate, burst, now).tokens <= Ideal(m, rate, burst, now + 1)
  {
    var elapsed := now - m.cursor;
    var now1 := Earned(rate, elapsed + 1);
    assert rate * (elapsed + 1) == rate * elapsed + rate;
    if elapsed >= NsToFull(rate, burst) {
      MulMonotone(rate, NsToFull(rate, burst), elapsed);
    }
  }

  /**
   * It differs from the ideal in the last nanosecond before the shortcut only,
   * and there exactly when the bucket's tokens do not make up for it. At up to
   * a token a nanosecond that takes an empty bucket.
   */
  lemma RefillIsIdealUnlessEarly(m: Meter, rate: int, burst: int, now: int)
    requires rate > 0 && burst > 0 && Sound(m, burst, now) && m.cursor > 0
    ensures var worth := rate * (now - m.cursor);
            && (Refill(m, rate, burst, now).tokens != Ideal(m, rate, burst, now)
                <==> now > m.cursor
                     && burst * NANOS_PER_SEC - rate < worth < (burst - m.tokens) * NANOS_PER_SEC)
            && (rate <= NANOS_PER_SEC && Refill(m, rate, burst, now).tokens != Ideal(m, rate, burst, now)
                ==> m.tokens == 0)
  {
    var elapsed, full := now - m.cursor, NsToFull(rate, burst);
    MulMonotone(rate, full, elapsed);
    MulMonotone(rate, elapsed, full);
  }

  /**
   * Where a refill leaves the bucket. A new bucket and one without a rate or a
   * capacity are only stamped, so that no time is banked for later; a clock
   * that has not moved changes nothing; a full bucket banks no time either;
   * and otherwise the cursor moves by exactly what the new tokens cost, rounded
   * down, the remainder staying on account.
   */
  lemma RefillExactly(m: Meter, rate: int, burst: int, now: int)
    requires Sound(m, burst, now) || m.cursor == 0 || rate <= 0 || burst <= 0
    ensures var r, elapsed := Refill(m, rate, burst, now), now - m.cursor;
            if m.cursor == 0 || rate <= 0 || burst <= 0 then r == Meter(m.tokens, now)
            else if elapsed == 0 then r == m
            else
              && (r.tokens == burst ==> r.cursor == now)
              && (r.tokens < burst ==>
                    && r.tokens == Ideal(m, rate, burst, now)
                    && rate * (r.cursor - m.cursor) <= (r.tokens - m.tokens) * NANOS_PER_SEC
                       < rate * (r.cursor - m.cursor) + rate)
  {
    if m.cursor != 0 && rate > 0 && burst > 0 && now > m.cursor {
      var add := Earned(rate, now - m.cursor);
      assert add == 0 ==> rate * (m.cursor - m.cursor) == 0;
      hide NsToFull, Earned;
    }
  }

  /** With the configured ceilings no intermediate value of a refill leaves a signed 64-bit integer. */
  lemma RefillFitsInt64(m: Meter, rate: int, burst: int, now: int)
    requires 0 < rate < 0x1_0000_0000 && 0 < burst < 0x1_0000_0000
    requires 0 < m.cursor <= now <= INT64_MAX && 0 <= m.tokens <= burst
    ensures burst * NANOS_PER_SEC <= INT64_MAX
    ensures var elapsed := now - m.cursor;
            elapsed < NsToFull(rate, burst) ==>
              && 0 <= rate * elapsed <= INT64_MAX
              && 0 <= Earned(rate, elapsed) * NANOS_PER_SEC <= INT64_MAX
              && 0 <= m.tokens + Earned(rate, elapsed) <= INT64_MAX
              && 0 <= m.cursor + Cost(rate, Earned(rate, elapsed)) <= now
  {
    var elapsed := now - m.cursor;
    if elapsed < NsToFull(rate, burst) {
      MulMonotone(rate, elapsed, NsToFull(rate, burst));
      MulMonotone(rate, elapsed, Cost(rate, Earned(rate, elapsed)));
    }
  }

  /** Nor does the announced wait, for any shortfall a bucket can have under the byte ceiling. */
  lemma WaitFitsInt64(rate: int, deficit: int)
    requires 0 < rate <= 1_000_000_000 && 0 < deficit <= 1_000_000_000
    ensures deficit * NANOS_PER_SEC + rate - 1 <= INT64_MAX
    ensures deficit * NANOS_PER_SEC <= rate * Wait(rate, deficit) < deficit * NANOS_PER_SEC + rate
  {
    var top := deficit * NANOS_PER_SEC + rate - 1;
    assert rate * (top / rate) <= top < rate * (top / rate) + rate;
    MulMonotone(rate, top / rate, 0);
  }

  // ---------------------------------------------------------------------------
  // Every schedule of calls
  // ---------------------------------------------------------------------------

  /** A call at time `at`; an `ask` of 0 only refills. */
  datatype Call = Call(at: int, ask: nat)

  datatype Tally = Tally(meter: Meter, granted: int)

  function Run(rate: int, burst: int, m: Meter, calls: seq<Call>): Tally
    requires rate > 0 && burst > 0
  {
    if calls == [] then Tally(m, 0)
    else
      var t, c := Run(rate, burst, m, calls[..|calls| - 1]), calls[|calls| - 1];
      var o := Take(t.meter, rate, burst, c.at, c.ask);
      Tally(o.meter, t.granted + o.charged)
  }

  /** Calls come in time order, none before `since`. */
  ghost predicate InOrder(since: int, calls: seq<Call>) {
    && (forall i :: 0 <= i < |calls| ==> since <= calls[i].at)
    && (forall i, j :: 0 <= i < j < |calls| ==> calls[i].at <= calls[j].at)
  }

  function Latest(since: int, calls: seq<Call>): int {
    if calls == [] then since else calls[|calls| - 1].at
  }

  lemma LatestAfter(since: int, calls: seq<Call>)
    requires InOrder(since, calls)
    ensures since <= Latest(since, calls)
  {
  }

  lemma InOrderInit(since: int, calls: seq<Call>)
    requires InOrder(since, calls) && calls != []
    ensures InOrder(since, calls[..|calls| - 1])
    ensures since <= Latest(since, calls[..|calls| - 1]) <= Latest(since, calls)
  {
    assert |calls| > 1 ==> calls[|calls| - 2].at <= calls[|calls| - 1].at;
  }

  /**
   * The rate law: whatever is asked and however often, the tokens granted in a
   * stretch of calls never exceed what the bucket was worth at its start plus
   * the rate over its length, plus under a nanosecond of credit per call.
   */
  lemma {:induction false} GrantedBound(rate: int, burst: int, m: Meter, since: int, calls: seq<Call>)
    requires rate > 0 && burst > 0 && since > 0 && Sound(m, burst, since) && m.cursor > 0 && InOrder(since, calls)
    ensures var t, end := Run(rate, burst, m, calls), Latest(since, calls);
            && Sound(t.meter, burst, end) && t.meter.cursor > 0 && t.granted >= 0
            && t.granted * NANOS_PER_SEC + Potential(t.meter, rate, end)
               <= Potential(m, rate, since) + rate * (end - since) + |calls| * (rate - 1)
  {
    if calls == [] {
    } else {
      var init, c, n := calls[..|calls| - 1], calls[|calls| - 1], |calls|;
      InOrderInit(since, calls);
      GrantedBound(rate, burst, m, since, init);
      var t, mid := Run(rate, burst, m, init).meter, Latest(since, init);
      TakeBound(t, rate, burst, mid, c);
      assert n * (rate - 1) == (n - 1) * (rate - 1) + (rate - 1);
      assert rate * (c.at - since) == rate * (c.at - mid) + rate * (mid - since);
    }
  }

  lemma TakeBound(m: Meter, rate: int, burst: int, mid: int, c: Call)
    requires rate > 0 && burst > 0 && mid > 0 && Sound(m, burst, mid) && m.cursor > 0 && mid <= c.at
    ensures var o := Take(m, rate, burst, c.at, c.ask);
            && Sound(o.meter, burst, c.at) && o.meter.cursor > 0 && o.charged >= 0
            && o.charged * NANOS_PER_SEC + Potential(o.meter, rate, c.at)
               <= Potential(m, rate, mid) + rate * (c.at - mid) + rate - 1
  {
    RefillKeepsSound(m, rate, burst, c.at);
    RefillLeak(m, rate, burst, c.at);
    hide Refill;
    assert rate * (c.at - m.cursor) == rate * (c.at - mid) + rate * (mid - m.cursor);
  }

  /** From creation (a full, untouched bucket), over `calls` spanning T ns: at most burst + rate * (T + k) / 1e9. */
  lemma GrantedSinceCreation(rate: int, burst: int, calls: seq<Call>)
    requires rate > 0 && burst > 0 && calls != [] && calls[0].at > 0 && InOrder(calls[0].at, calls)
    ensures Run(rate, burst, Meter(burst, 0), calls).granted * NANOS_PER_SEC
            <= burst * NANOS_PER_SEC + rate * (calls[|calls| - 1].at - calls[0].at + |calls|)
  {
    var t0, n := calls[0].at, |calls|;
    FirstTouch(rate, burst, calls);
    GrantedBound(rate, burst, Meter(burst, t0), t0, calls);
    hide Run, InOrder;
    var t := Run(rate, burst, Meter(burst, t0), calls);
    FromPotential(rate, burst, t, t0, calls[n - 1].at, n);
  }

  lemma FromPotential(rate: int, burst: int, t: Tally, t0: int, end: int, n: nat)
    requires rate > 0 && t.meter.tokens >= 0 && t.meter.cursor <= end
    requires t.granted * NANOS_PER_SEC + Potential(t.meter, rate, end)
             <= Potential(Meter(burst, t0), rate, t0) + rate * (end - t0) + n * (rate - 1)
    ensures t.granted * NANOS_PER_SEC <= burst * NANOS_PER_SEC + rate * (end - t0 + n)
  {
    MulNonNegative(rate, end - t.meter.cursor);
    assert rate * (t0 - t0) == 0;
    assert rate * (end - t0 + n) == rate * (end - t0) + n * (rate - 1) + n;
  }

  /** The first call only stamps the cursor. */
  lemma {:induction false} FirstTouch(rate: int, burst: int, calls: seq<Call>)
    requires rate > 0 && burst > 0 && calls != []
    ensures Run(rate, burst, Meter(burst, 0), calls) == Run(rate, burst, Meter(burst, calls[0].at), calls)
  {
    if |calls| == 1 {
      assert calls[..0] == [];
      assert Run(rate, burst, Meter(burst, 0), calls[..0]) == Tally(Meter(burst, 0), 0);
    } else {
      FirstTouch(rate, burst, calls[..|calls| - 1]);
    }
  }

  lemma {:induction false} GrantedGrows(rate: int, burst: int, m: Meter, calls: seq<Call>)
    requires rate > 0 && burst > 0
    ensures Run(rate, burst, m, calls).granted >= 0
    ensures calls != [] ==>
              Run(rate, burst, m, calls[..|calls| - 1]).granted <= Run(rate, burst, m, calls).granted
  {
    if calls != [] {
      GrantedGrows(rate, burst, m, calls[..|calls| - 1]);
      hide Refill, Wait;
    }
  }

  /**
   * However it is polled, with requests it refuses or calls that only refill, a
   * bucket nobody draws from credits every token the elapsed time is worth.
   */
  lemma {:induction false} PollingNeverStarves(rate: int, burst: int, m: Meter, since: int, calls: seq<Call>)
    requires rate > 0 && burst > 0 && since > 0 && Sound(m, burst, since) && m.cursor > 0 && InOrder(since, calls)
    requires Run(rate, burst, m, calls).granted == 0
    ensures var t, end := Run(rate, burst, m, calls), Latest(since, calls);
            && Sound(t.meter, burst, end) && t.meter.cursor >= m.cursor
            && Credited(m, t.meter, rate, burst)
            && (calls != [] ==> t.meter.tokens >= Min(burst, m.tokens + Earned(rate, end - m.cursor)))
  {
    hide Refill, Earned, Credited;
    if calls == [] {
      CreditedSelf(m, rate, burst);
    } else {
      var init, c := calls[..|calls| - 1], calls[|calls| - 1];
      InOrderInit(since, calls);
      GrantedGrows(rate, burst, m, calls);
      GrantedGrows(rate, burst, m, init);
      PollingNeverStarves(rate, burst, m, since, init);
      UndrawnOnlyRefills(rate, burst, m, calls);
      hide Run, InOrder;
      var t := Run(rate, burst, m, init).meter;
      RefillKeepsSound(t, rate, burst, c.at);
      RefillCredits(m, t, rate, burst, c.at);
    }
  }

  lemma UndrawnOnlyRefills(rate: int, burst: int, m: Meter, calls: seq<Call>)
    requires rate > 0 && burst > 0 && calls != []
    requires Run(rate, burst, m, calls).granted == Run(rate, burst, m, calls[..|calls| - 1]).granted
    ensures var t, c := Run(rate, burst, m, calls[..|calls| - 1]), calls[|calls| - 1];
            Run(rate, burst, m, calls) == Tally(Refill(t.meter, rate, burst, c.at), t.granted)
  {
    hide Refill;
  }

  /**
   * The retry promise: a refusal's wait is enough. However the bucket is
   * polled and refilled in between, as long as nothing is drawn from it the
   * same request is granted at any time from the announced one on.
   */
  lemma RetryIsGranted(rate: int, burst: int, m: Meter, since: int, ask: nat, polls: seq<Call>, retry: int)
    requires rate > 0 && burst > 0 && since > 0 && Sound(m, burst, since) && m.cursor > 0
    requires var o := Take(m, rate, burst, since, ask);
             && !o.granted && InOrder(since, polls) && Run(rate, burst, o.meter, polls).granted == 0
             && retry >= Max(since + o.wait, Latest(since, polls))
    ensures var o := Take(m, rate, burst, since, ask);
            Take(Run(rate, burst, o.meter, polls).meter, rate, burst, retry, ask).granted
  {
    var o, need := Take(m, rate, burst, since, ask), Min(ask, burst);
    RefillKeepsSound(m, rate, burst, since);
    hide Refill, Run, Credited, InOrder, Wait;
    PollingNeverStarves(rate, burst, o.meter, since, polls);
    var t := Run(rate, burst, o.meter, polls).meter;
    LatestAfter(since, polls);
    RefillCredits(o.meter, t, rate, burst, retry);
    WaitCovers(rate, need - o.meter.tokens, retry - o.meter.cursor);
  }

  /** The wait is long enough for the shortfall to accrue. */
  lemma WaitCovers(rate: int, deficit: int, elapsed: int)
    requires rate > 0 && deficit > 0 && elapsed >= Wait(rate, deficit)
    ensures elapsed >= 0 && Earned(rate, elapsed) >= deficit
  {
    var top := deficit * NANOS_PER_SEC + rate - 1;
    assert top < rate * (top / rate) + rate;
    MulMonotone(rate, top / rate, elapsed);
  }
}
