/**
 * The inbound throttle with the byte bucket behind it: what a friend gets
 * through while its budget is enforced and no rail has opened the queue.
 */
module ThrottledRate {
  import opened Bytes
  import opened Protocol
  import opened InboundThrottle
  import TokenBucket

  /** One thing asked of the throttle: to take in a frame, or to give up its oldest one. */
  datatype Question =
    | Offer(packet: Packet, kind: FrameType, dataBytes: nat, maxWait: int, now: int)
    | Pop(now: int)
    | Engage(active: bool, now: int)

  /** `passed` counts the data bytes let through under the budget; `calls` are the requests made of the bucket. */
  datatype Metered = Metered(t: Throttle, meter: TokenBucket.Meter, passed: int, calls: seq<TokenBucket.Call>)

  /** The bytes a question makes the throttle ask the bucket for. */
  function Asked(t: Throttle, q: Question): Option<nat> {
    match q
    case Offer(_, kind, dataBytes, _, _) =>
      if !Bypasses(kind) && t.backlog == [] && t.active && dataBytes > 0 then Some(dataBytes) else None
    case Pop(now) =>
      if t.backlog != [] && !Latched(t, now).releasing && t.active && t.backlog[0].dataBytes > 0
      then Some(t.backlog[0].dataBytes) else None
    case Engage(_, _) => None
  }

  /** The throttle's answer: its new state and the data bytes that went through under the budget. */
  function Answered(t: Throttle, rail: nat, q: Question, r: Reading): (Throttle, nat) {
    match q
    case Offer(packet, kind, dataBytes, maxWait, _) =>
      var (u, a) := Admit(t, rail, packet, kind, dataBytes, maxWait, r);
      (u, if a == Dispatch && t.active && !Bypasses(kind) then dataBytes else 0)
    case Pop(now) =>
      var (u, o) := NextReady(t, r);
      (u, if o.Some? && t.active && !Latched(t, now).releasing then t.backlog[0].dataBytes else 0)
    case Engage(active, _) => (t.(active := active), 0)
  }

  function Step(s: Metered, rail: nat, rate: int, burst: int, q: Question): Metered
    requires rate > 0 && burst > 0
  {
    var ask, now := Asked(s.t, q), q.now;
    if ask.None? then
      var (t, n) := Answered(s.t, rail, q, Reading(now, false, 0));
      s.(t := t, passed := s.passed + n)
    else
      var o := TokenBucket.Take(s.meter, rate, burst, now, ask.value);
      var (t, n) := Answered(s.t, rail, q, Reading(now, o.granted, o.wait));
      Metered(t, o.meter, s.passed + n, s.calls + [TokenBucket.Call(now, ask.value)])
  }

  /** From a friend's entry just made and a bucket never used. */
  function Run(rail: nat, rate: int, burst: int, qs: seq<Question>): Metered
    requires rate > 0 && burst > 0
  {
    if qs == [] then Metered(IDLE, TokenBucket.Meter(burst, 0), 0, [])
    else Step(Run(rail, rate, burst, qs[..|qs| - 1]), rail, rate, burst, qs[|qs| - 1])
  }

  ghost predicate Fits(q: Question, burst: int) {
    q.Offer? ==> q.dataBytes <= burst
  }

  /** The bucket is where its calls lead, and every byte that passed was paid for. */
  ghost predicate Paid(s: Metered, rate: int, burst: int)
    requires rate > 0 && burst > 0
  {
    && TokenBucket.Run(rate, burst, TokenBucket.Meter(burst, 0), s.calls) == TokenBucket.Tally(s.meter, s.passed)
    && forall k :: 0 <= k < |s.t.backlog| ==> s.t.backlog[k].dataBytes <= burst
  }

  /** Bytes pass under the budget exactly when the bucket grants them. */
  lemma AnswerIsVerdict(t: Throttle, rail: nat, q: Question, r: Reading, burst: int)
    requires Fits(q, burst) && forall k :: 0 <= k < |t.backlog| ==> t.backlog[k].dataBytes <= burst
    requires r.now == q.now
    ensures var (u, n) := Answered(t, rail, q, r); var ask := Asked(t, q);
            && n == (if ask.Some? && r.granted then ask.value else 0)
            && (ask.Some? ==> ask.value <= burst)
            && forall k :: 0 <= k < |u.backlog| ==> u.backlog[k].dataBytes <= burst
  {
    hide Bypasses;
  }

  lemma StepPays(s: Metered, rail: nat, rate: int, burst: int, q: Question)
    requires rate > 0 && burst > 0 && Paid(s, rate, burst) && Fits(q, burst)
    ensures Paid(Step(s, rail, rate, burst, q), rate, burst)
  {
    var ask, now := Asked(s.t, q), q.now;
    hide Asked, Answered, Fits;
    if ask.None? {
      AnswerIsVerdict(s.t, rail, q, Reading(now, false, 0), burst);
      hide TokenBucket.Run;
    } else {
      var o := TokenBucket.Take(s.meter, rate, burst, now, ask.value);
      AnswerIsVerdict(s.t, rail, q, Reading(now, o.granted, o.wait), burst);
      CallGrows(rate, burst, s.calls, TokenBucket.Call(now, ask.value));
      assert o.charged == if o.granted then ask.value else 0;
      hide TokenBucket.Refill, TokenBucket.Wait, TokenBucket.Run, TokenBucket.Take;
    }
  }

  lemma CallGrows(rate: int, burst: int, calls: seq<TokenBucket.Call>, c: TokenBucket.Call)
    requires rate > 0 && burst > 0
    ensures var t := TokenBucket.Run(rate, burst, TokenBucket.Meter(burst, 0), calls);
            var o := TokenBucket.Take(t.meter, rate, burst, c.at, c.ask);
            TokenBucket.Run(rate, burst, TokenBucket.Meter(burst, 0), calls + [c])
            == TokenBucket.Tally(o.meter, t.granted + o.charged)
  {
    hide TokenBucket.Take;
    assert (calls + [c])[..|calls|] == calls;
  }

  lemma {:induction false} RunPays(rail: nat, rate: int, burst: int, qs: seq<Question>)
    requires rate > 0 && burst > 0 && forall i :: 0 <= i < |qs| ==> Fits(qs[i], burst)
    ensures Paid(Run(rail, rate, burst, qs), rate, burst)
  {
    if qs != [] {
      RunPays(rail, rate, burst, qs[..|qs| - 1]);
      hide Paid, Step;
      StepPays(Run(rail, rate, burst, qs[..|qs| - 1]), rail, rate, burst, qs[|qs| - 1]);
    }
  }

  /** Questions come in time order. */
  ghost predicate Timely(qs: seq<Question>) {
    && (forall i :: 0 <= i < |qs| ==> qs[0].now <= qs[i].now)
    && (forall i, j :: 0 <= i < j < |qs| ==> qs[i].now <= qs[j].now)
  }

  lemma {:induction false} CallsAreTimely(rail: nat, rate: int, burst: int, qs: seq<Question>)
    requires rate > 0 && burst > 0 && qs != [] && Timely(qs)
    ensures var calls := Run(rail, rate, burst, qs).calls;
            && |calls| <= |qs| && TokenBucket.InOrder(qs[0].now, calls)
            && forall i :: 0 <= i < |calls| ==> calls[i].at <= qs[|qs| - 1].now
  {
    hide Asked, Answered, TokenBucket.Take;
    var n := |qs| - 1;
    var init := qs[..n];
    assert Run(rail, rate, burst, qs) == Step(Run(rail, rate, burst, init), rail, rate, burst, qs[n]);
    if n > 0 {
      CallsAreTimely(rail, rate, burst, init);
    }
  }

  /**
   * Whatever is offered and however often the queue is drained, the data a
   * friend gets through under an enforced budget in T ns and k questions is at
   * most burst + rate * (T + k) / 1e9. The rest is what a rail released.
   */
  lemma ThrottledRateHolds(rail: nat, rate: int, burst: int, qs: seq<Question>)
    requires rate > 0 && burst > 0 && qs != [] && qs[0].now > 0 && Timely(qs)
    requires forall i :: 0 <= i < |qs| ==> Fits(qs[i], burst)
    ensures Run(rail, rate, burst, qs).passed * TokenBucket.NANOS_PER_SEC
            <= burst * TokenBucket.NANOS_PER_SEC + rate * (qs[|qs| - 1].now - qs[0].now + |qs|)
  {
    assert qs[0].now <= qs[|qs| - 1].now;
    hide *;
    RunPays(rail, rate, burst, qs);
    CallsAreTimely(rail, rate, burst, qs);
    PaidBound(Run(rail, rate, burst, qs), rate, burst, qs[0].now, qs[|qs| - 1].now, |qs|);
  }

  lemma PaidBound(s: Metered, rate: int, burst: int, start: int, end: int, n: nat)
    requires rate > 0 && burst > 0 && Paid(s, rate, burst) && 0 < start <= end && |s.calls| <= n
    requires TokenBucket.InOrder(start, s.calls) && forall i :: 0 <= i < |s.calls| ==> s.calls[i].at <= end
    ensures s.passed * TokenBucket.NANOS_PER_SEC
            <= burst * TokenBucket.NANOS_PER_SEC + rate * (end - start + n)
  {
    if s.calls == [] {
      TokenBucket.MulNonNegative(rate, end - start + n);
    } else {
      var first, last := s.calls[0].at, s.calls[|s.calls| - 1].at;
      assert start <= first && TokenBucket.InOrder(first, s.calls);
      TokenBucket.GrantedSinceCreation(rate, burst, s.calls);
      hide TokenBucket.Run, TokenBucket.InOrder;
      TokenBucket.MulMonotone(rate, last - first + |s.calls|, end - start + n);
    }
  }
}
