/**
 * One friend's inbound byte throttle on the server: over-budget frames wait in
 * arrival order until the rate limiter has room or a rail forces the queue
 * open. The rate limiter's verdicts and the clock are given per question.
 */
module InboundThrottle {
  import opened Bytes
  import opened Protocol

  const MILLI := 1_000_000
  const MAX_RETRY_NS := 1000 * MILLI

  datatype Deferred = Deferred(packet: Packet, dataBytes: nat)

  /** `deadline` is the earliest release any queued packet asked for; 0 when the queue is empty. */
  datatype Throttle = Throttle(
    backlog: seq<Deferred>, backlogBytes: int, releasing: bool, deadline: int, active: bool, retryAfter: int,
    notice: bool)

  const IDLE := Throttle([], 0, false, 0, false, 0, false)

  /** One look at the clock and, if asked, at the limiter: its verdict and the wait it announced. */
  datatype Reading = Reading(now: int, granted: bool, wait: int)

  datatype Admission = Dispatch | Parked | Release

  /** Control frames without a place in a stream; everything else keeps its order. */
  predicate Bypasses(kind: FrameType) {
    kind == Ping || kind == Pong || kind == TunnelAck || kind == InfoRequest || kind == InfoReply || kind == Unknown
  }

  /** The packet joins the queue, which keeps the earliest deadline. */
  function Enqueued(t: Throttle, d: Deferred, own: int): Throttle {
    t.(backlog := t.backlog + [d], backlogBytes := t.backlogBytes + |d.packet|,
       deadline := if t.deadline == 0 || own < t.deadline then own else t.deadline)
  }

  function Admit(
    t: Throttle, rail: nat, packet: Packet, kind: FrameType, dataBytes: nat, maxWait: int, r: Reading)
    : (Throttle, Admission)
  {
    if Bypasses(kind) then (t, Dispatch)
    else if t.backlog == [] && (!t.active || dataBytes == 0 || r.granted) then (t, Dispatch)
    else
      var u := t.(retryAfter := if t.backlog == [] then r.wait else t.retryAfter);
      var q := Enqueued(u, Deferred(packet, dataBytes), r.now + Max(maxWait, 0));
      if q.backlogBytes > rail then (q.(releasing := true), Release)
      else if q.deadline <= r.now then (q.(releasing := true, notice := true), Release)
      else (q, Parked)
  }

  function Emptied(t: Throttle): Throttle {
    if t.backlog == [] then t.(releasing := false, deadline := 0) else t
  }

  /** Open the queue when some packet's deadline has come. */
  function Latched(t: Throttle, now: int): Throttle {
    if !t.releasing && t.deadline != 0 && now >= t.deadline then t.(releasing := true, notice := true) else t
  }

  function NextReady(t: Throttle, r: Reading): (Throttle, Option<Packet>) {
    if t.backlog == [] then (Emptied(t), None)
    else
      var u, front := Latched(t, r.now), t.backlog[0];
      if !u.releasing && u.active && front.dataBytes > 0 && !r.granted then (u.(retryAfter := r.wait), None)
      else
        (Emptied(u.(backlog := u.backlog[1..], backlogBytes := u.backlogBytes - |front.packet|, retryAfter := 0)),
         Some(front.packet))
  }

  /** The environment of a run of questions: the i-th clock reading and verdict. */
  type Env = nat -> Reading

  datatype Drained = Drained(t: Throttle, ready: seq<Packet>, used: nat)

  function Drain(t: Throttle, env: Env, i: nat): (d: Drained)
    decreases |t.backlog|
  {
    var (u, o) := NextReady(t, env(i));
    match o
    case None => Drained(u, [], i)
    case Some(p) => var d := Drain(u, env, i + 1); d.(ready := [p] + d.ready)
  }

  // ---------------------------------------------------------------------------
  // The object
  // ---------------------------------------------------------------------------

  class ByteThrottle {
    const rail: nat
    var backlog: seq<Deferred>
    var backlogBytes: int
    var releasing: bool
    var deadline: int
    var active: bool
    var retryAfter: int
    var notice: bool

    function View(): Throttle
      reads this
    {
      Throttle(backlog, backlogBytes, releasing, deadline, active, retryAfter, notice)
    }

    constructor (rail: nat)
      ensures View() == IDLE && this.rail == rail
    {
      this.rail := rail;
      backlog, backlogBytes, releasing, deadline, active, retryAfter, notice := [], 0, false, 0, false, 0, false;
    }

    method Enqueue(d: Deferred, own: int)
      modifies `backlog, `backlogBytes, `deadline
      ensures View() == Enqueued(old(View()), d, own)
    {
      backlogBytes := backlogBytes + |d.packet|;
      backlog := backlog + [d];
      if deadline == 0 || own < deadline {
        deadline := own;
      }
    }

    method AdmitPacket(packet: Packet, kind: FrameType, dataBytes: nat, maxWait: int, r: Reading)
      returns (a: Admission)
      modifies this
      ensures (View(), a) == Admit(old(View()), rail, packet, kind, dataBytes, maxWait, r)
    {
      hide Bypasses, Enqueued;
      if Bypasses(kind) {
        return Dispatch;
      }
      if backlog == [] {
        if !active || dataBytes == 0 {
          return Dispatch;
        }
        if r.granted {
          return Dispatch;
        }
        retryAfter := r.wait;
      }
      Enqueue(Deferred(packet, dataBytes), r.now + Max(maxWait, 0));
      if backlogBytes > rail {
        releasing := true;
        return Release;
      }
      if deadline <= r.now {
        releasing, notice := true, true;
        return Release;
      }
      a := Parked;
    }

    method TakeReady(r: Reading) returns (out: Option<Packet>)
      modifies this
      ensures (View(), out) == NextReady(old(View()), r)
      ensures |backlog| + (if out.Some? then 1 else 0) <= |old(backlog)|
    {
      if backlog == [] {
        releasing, deadline := false, 0;
        return None;
      }
      var front := backlog[0];
      if !releasing && deadline != 0 && r.now >= deadline {
        releasing, notice := true, true;
      }
      if !releasing && active && front.dataBytes > 0 {
        if !r.granted {
          retryAfter := r.wait;
          return None;
        }
      }
      out := Some(front.packet);
      backlogBytes := backlogBytes - |front.packet|;
      backlog := backlog[1..];
      retryAfter := 0;
      if backlog == [] {
        releasing, deadline := false, 0;
      }
    }

    /** The collecting loop of a drain: everything that may go now, in order. */
    method Collect(env: Env) returns (ready: seq<Packet>, ghost used: nat)
      modifies this
      ensures Drained(View(), ready, used) == Drain(old(View()), env, 0)
    {
      hide NextReady;
      ready := [];
      var i: nat := 0;
      var next := TakeReady(env(0));
      while next.Some?
        invariant var d := Drain(old(View()), env, 0);
                  if next.None? then d == Drained(View(), ready, i)
                  else
                    var rest := Drain(View(), env, i + 1);
                    d == rest.(ready := ready + [next.value] + rest.ready)
        decreases |backlog| + (if next.Some? then 1 else 0)
      {
        ready := ready + [next.value];
        i := i + 1;
        ghost var before := View();
        next := TakeReady(env(i));
        if next.Some? {
          ghost var rest := Drain(View(), env, i + 1).ready;
          assert ready + ([next.value] + rest) == ready + [next.value] + rest;
        } else {
          assert Drain(before, env, i) == Drained(View(), [], i);
          assert ready + [] == ready;
        }
      }
      used := i;
    }

    method Clear()
      modifies this
      ensures View() == IDLE.(active := old(active), notice := old(notice))
    {
      backlog, backlogBytes, releasing, deadline, retryAfter := [], 0, false, 0, 0;
    }
  }

  // ---------------------------------------------------------------------------
  // One friend's packets, from arrival to dispatch
  // ---------------------------------------------------------------------------

  /** The frame of an arrived packet; none when the packet is too short or does not decode. */
  function FrameOf(p: Packet): Option<Frame> {
    if |p| < 2 then None else Deserialize(p[1..])
  }

  function DataBytes(f: Frame): nat {
    if f.kind == TunnelData then |f.payload| else 0
  }

  /** The decoded frames of replayed packets; an undecodable one would be skipped. */
  function Decoded(ps: seq<Packet>): seq<Frame> {
    if ps == [] then []
    else
      var f := FrameOf(ps[0]);
      (if f.Some? then [f.value] else []) + Decoded(ps[1..])
  }

  /**
   * The friend's entry plus its history since the entry was made: every frame
   * that arrived and every frame dispatched, in order, each queued frame's own
   * deadline, and in `asks` those of all frames queued since the queue was last
   * empty. `wakeAt` is the retry timer's expiry, set at `armedAt` when the
   * first `since` of the queued frames were there.
   */
  datatype World = World(
    t: Throttle, armed: bool, armedAt: int, wakeAt: int, since: nat, arrived: seq<Frame>, dispatched: seq<Frame>,
    owns: seq<int>, asks: seq<int>)

  function Connected(active: bool): World {
    World(IDLE.(active := active), false, 0, 0, 0, [], [], [], [])
  }

  datatype Event =
    | Arrive(packet: Packet, maxWait: int)
    | Timer
    | Refresh(active: bool)

  /** How long the retry timer sleeps: no longer than a second nor, rounded up to a millisecond, past the deadline. */
  function TimerWait(t: Throttle, now: int): int {
    var untilRelease := if t.deadline == 0 then MAX_RETRY_NS else Max(t.deadline - now, 0);
    var capped := Min(MAX_RETRY_NS, Min(t.retryAfter, untilRelease));
    Min(Max((capped + MILLI - 1) / MILLI, 1) * MILLI, MAX_RETRY_NS)
  }

  function ArmRetry(w: World, now: int): World {
    if w.armed || w.t.backlog == [] then w
    else w.(armed := true, armedAt := now, wakeAt := now + TimerWait(w.t, now), since := |w.owns|)
  }

  /** Collect what may go, dispatch it, and set the timer for the rest. */
  function DrainBacklog(w: World, env: Env): World {
    var d := Drain(w.t, env, 0);
    var k := Min(|d.ready|, |w.owns|);
    ArmRetry(w.(t := d.t.(notice := false), dispatched := w.dispatched + Decoded(d.ready), owns := w.owns[k..],
                armed := false),
             env(d.used).now)
  }

  function OnPacket(w: World, rail: nat, packet: Packet, maxWait: int, r: Reading, env: Env): World {
    var f := FrameOf(packet);
    if f.None? then w
    else
      var (t, a) := Admit(w.t, rail, packet, f.value.kind, DataBytes(f.value), maxWait, r);
      var v := w.(t := t, arrived := w.arrived + [f.value]);
      match a
      case Dispatch => v.(dispatched := v.dispatched + [f.value])
      case Parked => ArmRetry(Queued(w, v, r.now + Max(maxWait, 0)), r.now)
      case Release => DrainBacklog(Queued(w, v, r.now + Max(maxWait, 0)), env)
  }

  /** The history of `v`, which has just queued a frame with this deadline on top of `w`'s queue. */
  function Queued(w: World, v: World, own: int): World {
    v.(owns := w.owns + [own], asks := (if w.t.backlog == [] then [] else w.asks) + [own])
  }

  /** One event, with the reading its arrival uses and the readings its drain uses. */
  function Step(w: World, rail: nat, e: Event, r: Reading, env: Env): World {
    match e
    case Arrive(packet, maxWait) => OnPacket(w, rail, packet, maxWait, r, env)
    case Timer => DrainBacklog(w, env)
    case Refresh(active) =>
      var v := w.(t := w.t.(active := active));
      if v.t.backlog == [] then v else DrainBacklog(v, env)
  }

  /** The frames with a place in a stream's order, or a session's: opening, data, ending, resuming. */
  predicate Bears(kind: FrameType) {
    kind in {TunnelOpen, TunnelData, TunnelClose, TunnelError, ResumeRequest, ResumeAck}
  }

  /** Of a log, the frames that bear order, or those that do not. */
  function Kept(q: seq<Frame>, bearing: bool): seq<Frame> {
    if q == [] then []
    else
      var last := q[|q| - 1];
      Kept(q[..|q| - 1], bearing) + (if Bears(last.kind) == bearing then [last] else [])
  }

  lemma KeptOne(q: seq<Frame>, f: Frame, bearing: bool)
    ensures Kept(q + [f], bearing) == Kept(q, bearing) + (if Bears(f.kind) == bearing then [f] else [])
  {
    hide Bears;
    assert (q + [f])[..|q|] == q;
  }

  lemma {:induction false} KeptAppend(a: seq<Frame>, b: seq<Frame>, bearing: bool)
    ensures Kept(a + b, bearing) == Kept(a, bearing) + Kept(b, bearing)
  {
    hide Bears;
    if b == [] {
      assert a + b == a;
    } else {
      var c, last := b[..|b| - 1], b[|b| - 1];
      hide Kept;
      KeptAppend(a, c, bearing);
      KeptOne(a + c, last, bearing);
      KeptOne(c, last, bearing);
      SplitLast(a, b);
    }
  }

  lemma SplitLast(a: seq<Frame>, b: seq<Frame>)
    requires b != []
    ensures b == b[..|b| - 1] + [b[|b| - 1]] && a + b == a + b[..|b| - 1] + [b[|b| - 1]]
  {
  }

  lemma {:induction false} KeptAll(q: seq<Frame>)
    requires forall k :: 0 <= k < |q| ==> Bears(q[k].kind)
    ensures Kept(q, true) == q && Kept(q, false) == []
  {
    if q != [] {
      KeptAll(q[..|q| - 1]);
      assert q == q[..|q| - 1] + [q[|q| - 1]];
    }
  }

  /**
   * Nothing lost, duplicated or reordered: the order-bearing frames dispatched,
   * then the queue, are those that arrived; of the others all went out.
   */
  ghost predicate Conserved(w: World) {
    && Kept(w.arrived, true) == Kept(w.dispatched, true) + Decoded(Packets(w.t.backlog))
    && Kept(w.arrived, false) == Kept(w.dispatched, false)
  }

  function Total(q: seq<Deferred>): nat {
    if q == [] then 0 else |q[0].packet| + Total(q[1..])
  }

  function Packets(q: seq<Deferred>): (ps: seq<Packet>)
    ensures |ps| == |q|
  {
    if q == [] then [] else [q[0].packet] + Packets(q[1..])
  }

  lemma {:induction false} AppendQueue(q: seq<Deferred>, d: Deferred)
    ensures Total(q + [d]) == Total(q) + |d.packet|
    ensures Packets(q + [d]) == Packets(q) + [d.packet]
  {
    if q == [] {
      assert q + [d] == [d];
    } else {
      AppendQueue(q[1..], d);
      assert (q + [d])[1..] == q[1..] + [d];
    }
  }

  lemma DecodedStep(ps: seq<Packet>)
    ensures ps == [] ==> Decoded(ps) == []
    ensures ps != [] ==> Decoded(ps) == (var f := FrameOf(ps[0]); if f.Some? then [f.value] else []) + Decoded(ps[1..])
  {
  }

  lemma {:induction false} DecodedAppend(a: seq<Packet>, b: seq<Packet>)
    ensures Decoded(a + b) == Decoded(a) + Decoded(b)
  {
    hide FrameOf, Decoded;
    DecodedStep(a);
    DecodedStep(a + b);
    if a == [] {
      assert a + b == b;
    } else {
      DecodedAppend(a[1..], b);
      assert (a + b)[1..] == a[1..] + b;
    }
  }

  /** What a throttle's fields say about its queue, at any moment. */
  ghost predicate Queue(t: Throttle) {
    && t.backlogBytes == Total(t.backlog)
    && (t.backlog == [] ==> !t.releasing && t.deadline == 0)
    && (t.backlog != [] ==> t.deadline > 0)
  }

  /** No deadline the queue keeps is later than a queued packet's own. */
  ghost predicate Bounded(t: Throttle, owns: seq<int>) {
    |owns| == |t.backlog| && forall k :: 0 <= k < |owns| ==> t.deadline <= owns[k]
  }

  lemma NextReadyKeeps(t: Throttle, r: Reading, owns: seq<int>)
    requires Queue(t) && Bounded(t, owns)
    ensures var (u, o) := NextReady(t, r);
            && Queue(u)
            && (o.None? ==> u.backlog == t.backlog && Bounded(u, owns))
            && (o.Some? ==> t.backlog != [] && u.backlog == t.backlog[1..] && o.value == t.backlog[0].packet
                            && Bounded(u, owns[1..]))
            && (o.None? && u.backlog != [] ==>
                  !t.releasing && !u.releasing && r.now < u.deadline && u.active && !r.granted)
            && (o.Some? && t.releasing && u.backlog != [] ==> u.releasing)
            && (u.backlog != [] ==> u.deadline == t.deadline)
  {
  }

  /** `d` took a prefix of the queue `t`, with `stop` the reading it stopped at. */
  ghost predicate TookPrefix(t: Throttle, d: Drained, stop: Reading, owns: seq<int>) {
    var n := |d.ready|;
    && n <= |t.backlog| == |owns|
    && d.t.backlog == t.backlog[n..]
    && Packets(t.backlog) == d.ready + Packets(d.t.backlog)
    && Queue(d.t) && Bounded(d.t, owns[n..])
    && (d.t.backlog != [] ==> d.t.deadline == t.deadline)
    && (d.t.backlog != [] ==> !t.releasing && !d.t.releasing && d.t.active && stop.now < d.t.deadline && !stop.granted)
  }

  lemma PrefixGrows(t: Throttle, u: Throttle, d: Drained, stop: Reading, owns: seq<int>)
    requires t.backlog != [] && |owns| == |t.backlog| && u.backlog == t.backlog[1..]
    requires u.backlog != [] ==> u.deadline == t.deadline && (t.releasing ==> u.releasing)
    requires TookPrefix(u, d, stop, owns[1..])
    ensures TookPrefix(t, d.(ready := [t.backlog[0].packet] + d.ready), stop, owns)
  {
    hide Queue, Bounded;
    var n := |d.ready|;
    assert owns[1..][n..] == owns[1 + n..];
    assert t.backlog[1..][n..] == t.backlog[1 + n..];
    var first, rest := [t.backlog[0].packet], Packets(d.t.backlog);
    assert first + (d.ready + rest) == first + d.ready + rest;
  }

  /**
   * A drain takes a prefix of the queue. It stops short only at a metered
   * packet the limiter refused, with every remaining deadline still ahead of
   * the clock; a queue a rail has opened drains to the last packet.
   */
  lemma {:induction false} DrainTakesPrefix(t: Throttle, env: Env, i: nat, owns: seq<int>)
    requires Queue(t) && Bounded(t, owns)
    ensures var d := Drain(t, env, i);
            d.used == i + |d.ready| && TookPrefix(t, d, env(d.used), owns)
    decreases |t.backlog|
  {
    NextReadyKeeps(t, env(i), owns);
    var (u, o) := NextReady(t, env(i));
    hide NextReady;
    if o.Some? {
      hide Queue, Bounded, TookPrefix;
      DrainTakesPrefix(u, env, i + 1, owns[1..]);
      var d := Drain(u, env, i + 1);
      PrefixGrows(t, u, d, env(d.used), owns);
    } else {
      assert owns[0..] == owns;
      assert t.backlog[0..] == t.backlog;
    }
  }

  // ---------------------------------------------------------------------------
  // Every run
  // ---------------------------------------------------------------------------

  ghost predicate Replayable(d: Deferred) {
    var f := FrameOf(d.packet);
    f.Some? && Bears(f.value.kind) && d.dataBytes == DataBytes(f.value)
  }

  ghost predicate AllReplayable(q: seq<Deferred>) {
    forall k :: 0 <= k < |q| ==> Replayable(q[k])
  }

  /** The queue's deadline is the earliest one asked for since it was last empty, by a frame still in it or not. */
  ghost predicate Asked(w: World) {
    w.t.backlog != [] ==>
      && w.t.deadline in w.asks && (forall k :: 0 <= k < |w.asks| ==> w.t.deadline <= w.asks[k])
      && |w.owns| <= |w.asks| && w.owns == w.asks[|w.asks| - |w.owns|..]
  }

  /**
   * Between events: nothing was lost, duplicated or reordered, what waits still
   * decodes, the byte count is the queue's and within the rail, no queued
   * packet's deadline is later than the queue's, and a waiting queue has a timer.
   */
  ghost predicate Inv(w: World, rail: nat) {
    && Conserved(w)
    && AllReplayable(w.t.backlog)
    && Queue(w.t) && w.t.backlogBytes <= rail && !w.t.releasing
    && Bounded(w.t, w.owns)
    && Asked(w)
    && (w.t.backlog != [] ==> w.armed)
    && (w.armed ==> w.wakeAt <= w.armedAt + MAX_RETRY_NS)
  }

  lemma ArmKeeps(w: World, now: int)
    requires w.armed ==> w.wakeAt <= w.armedAt + MAX_RETRY_NS
    ensures var v := ArmRetry(w, now);
            && v == w.(armed := v.armed, armedAt := v.armedAt, wakeAt := v.wakeAt, since := v.since)
            && (v.t.backlog != [] ==> v.armed)
            && (v.armed ==> v.wakeAt <= v.armedAt + MAX_RETRY_NS)
  {
  }

  lemma {:induction false} TotalSuffix(q: seq<Deferred>, n: nat)
    requires n <= |q|
    ensures Total(q[n..]) <= Total(q)
  {
    if n == 0 {
      assert q[0..] == q;
    } else {
      TotalSuffix(q[1..], n - 1);
      assert q[1..][n - 1..] == q[n..];
    }
  }

  /** A drain keeps the order and leaves only what the rail and the deadlines allow. */
  lemma DrainKeeps(w: World, rail: nat, env: Env)
    requires Conserved(w)
    requires AllReplayable(w.t.backlog) && Queue(w.t) && Bounded(w.t, w.owns) && Asked(w)
    requires w.t.releasing || Total(w.t.backlog) <= rail
    ensures var v, d := DrainBacklog(w, env), Drain(w.t, env, 0);
            && Inv(v, rail)
            && (w.t.releasing ==> v.t.backlog == [])
            && (forall k :: 0 <= k < |v.owns| ==> env(d.used).now < v.owns[k])
            && v.arrived == w.arrived && v.asks == w.asks
  {
    var d := Drain(w.t, env, 0);
    DrainTakesPrefix(w.t, env, 0, w.owns);
    hide Drain, AllReplayable, Queue, Conserved, Asked;
    var v := w.(t := d.t.(notice := false), dispatched := w.dispatched + Decoded(d.ready), owns := w.owns[|d.ready|..],
                armed := false);
    Conserves(w, d, env(d.used), v);
    QueueNotice(d.t);
    AskedStays(w, d, env(d.used), v);
    hide Decoded, Packets, Total, FrameOf;
    ArmKeeps(v, env(d.used).now);
    ArmFrame(v, env(d.used).now);
    hide ArmRetry;
  }

  lemma ArmFrame(x: World, now: int)
    ensures Conserved(x) ==> Conserved(ArmRetry(x, now))
    ensures Asked(x) ==> Asked(ArmRetry(x, now))
  {
    hide Kept, Decoded, Packets;
  }

  lemma QueueNotice(t: Throttle)
    requires Queue(t)
    ensures Queue(t.(notice := false)) && t.backlogBytes == Total(t.backlog)
  {
  }

  lemma AskedStays(w: World, d: Drained, stop: Reading, v: World)
    requires Asked(w) && TookPrefix(w.t, d, stop, w.owns)
    requires v.t == d.t.(notice := false) && v.owns == w.owns[|d.ready|..] && v.asks == w.asks
    ensures Asked(v)
  {
    hide Queue, Bounded, Packets;
    var n := |d.ready|;
    if d.t.backlog != [] {
      assert w.asks[|w.asks| - |w.owns|..][n..] == w.asks[|w.asks| - |w.owns[n..]|..];
    }
  }

  lemma Conserves(w: World, d: Drained, stop: Reading, v: World)
    requires Conserved(w) && AllReplayable(w.t.backlog)
    requires TookPrefix(w.t, d, stop, w.owns)
    requires v.arrived == w.arrived && v.t.backlog == d.t.backlog && v.dispatched == w.dispatched + Decoded(d.ready)
    ensures Conserved(v)
    ensures AllReplayable(d.t.backlog)
    ensures Total(d.t.backlog) <= Total(w.t.backlog)
  {
    TotalSuffix(w.t.backlog, |d.ready|);
    DecodedAppend(d.ready, Packets(d.t.backlog));
    ReplayBears(w.t.backlog);
    hide Decoded, Packets, Total, Replayable, Queue, Bounded, Kept;
    AllWentOut(w.dispatched, Decoded(d.ready), Decoded(Packets(d.t.backlog)));
  }

  lemma AllWentOut(before: seq<Frame>, went: seq<Frame>, rest: seq<Frame>)
    requires forall k :: 0 <= k < |went + rest| ==> Bears((went + rest)[k].kind)
    ensures Kept(before + went, true) + rest == Kept(before, true) + (went + rest)
    ensures Kept(before + went, false) == Kept(before, false)
  {
    hide Kept, Bears;
    assert forall k :: 0 <= k < |went| ==> went[k] == (went + rest)[k];
    KeptAll(went);
    KeptAppend(before, went, true);
    KeptAppend(before, went, false);
  }

  /** What waits bears order. */
  lemma {:induction false} ReplayBears(q: seq<Deferred>)
    requires AllReplayable(q)
    ensures forall k :: 0 <= k < |Decoded(Packets(q))| ==> Bears(Decoded(Packets(q))[k].kind)
  {
    hide FrameOf, Bears;
    if q != [] {
      assert Replayable(q[0]);
      ReplayBears(q[1..]);
      assert Packets(q)[1..] == Packets(q[1..]);
    }
  }

  lemma EnqueueKeeps(t: Throttle, owns: seq<int>, d: Deferred, own: int)
    requires Queue(t) && Bounded(t, owns) && own > 0
    ensures var q := Enqueued(t, d, own);
            && q.backlogBytes == Total(q.backlog) && q.deadline > 0 && q.backlog == t.backlog + [d]
            && q.releasing == t.releasing
            && q.deadline == (if t.backlog == [] then own else Min(t.deadline, own))
            && Bounded(q, owns + [own])
  {
    AppendQueue(t.backlog, d);
  }

  /** The world with an arrived frame queued, before the timer is set or the queue drained. */
  function Joined(w: World, rail: nat, packet: Packet, f: Frame, maxWait: int, r: Reading): World {
    Queued(w, w.(t := Admit(w.t, rail, packet, f.kind, DataBytes(f), maxWait, r).0, arrived := w.arrived + [f]),
           r.now + Max(maxWait, 0))
  }

  lemma JoinedKeeps(w: World, rail: nat, packet: Packet, f: Frame, maxWait: int, r: Reading)
    requires Inv(w, rail) && r.now > 0 && FrameOf(packet) == Some(f)
    requires Admit(w.t, rail, packet, f.kind, DataBytes(f), maxWait, r).1 != Dispatch
    ensures var x, own := Joined(w, rail, packet, f, maxWait, r), r.now + Max(maxWait, 0);
            && Conserved(x) && AllReplayable(x.t.backlog) && Queue(x.t) && Bounded(x.t, x.owns) && Asked(x)
            && x.t.backlog != [] && x.owns == w.owns + [own]
            && x.t.deadline == (if w.t.backlog == [] then own else Min(w.t.deadline, own))
            && (if Admit(w.t, rail, packet, f.kind, DataBytes(f), maxWait, r).1 == Parked
                then !x.t.releasing && x.t.backlogBytes <= rail else x.t.releasing)
  {
    hide Decoded, Packets, Total, FrameOf, Enqueued, Bypasses, Bears, Conserved, Asked;
    var d, own := Deferred(packet, DataBytes(f)), r.now + Max(maxWait, 0);
    var u := w.t.(retryAfter := if w.t.backlog == [] then r.wait else w.t.retryAfter);
    var v := w.(t := Admit(w.t, rail, packet, f.kind, DataBytes(f), maxWait, r).0, arrived := w.arrived + [f]);
    BypassExactly(f.kind);
    EnqueueKeeps(u, w.owns, d, own);
    QueueGrows(w, d, f, Queued(w, v, own));
    AskedGrows(w, v, own);
  }

  /** An arriving packet goes through or joins the queue; nothing overtakes anything. */
  lemma ArriveKeeps(w: World, rail: nat, packet: Packet, maxWait: int, r: Reading, env: Env)
    requires Inv(w, rail) && r.now > 0
    ensures Inv(OnPacket(w, rail, packet, maxWait, r, env), rail)
  {
    hide ArmRetry, DrainBacklog, Decoded, Packets, Total, FrameOf, Conserved, Asked, AllReplayable, Bounded, Queue;
    if FrameOf(packet).Some? {
      var f := FrameOf(packet).value;
      var (t, a) := Admit(w.t, rail, packet, f.kind, DataBytes(f), maxWait, r);
      if a == Dispatch {
        DispatchInv(w, rail, packet, f, maxWait, r);
      } else {
        JoinedKeeps(w, rail, packet, f, maxWait, r);
        var x := Joined(w, rail, packet, f, maxWait, r);
        hide Admit;
        TotalIsCounted(x.t);
        if a == Parked {
          ArmKeeps(x, r.now);
          ArmFrame(x, r.now);
        } else {
          DrainKeeps(x, rail, env);
        }
      }
    }
  }

  lemma TotalIsCounted(t: Throttle)
    requires Queue(t)
    ensures t.backlogBytes == Total(t.backlog)
  {
  }

  lemma DispatchInv(w: World, rail: nat, packet: Packet, f: Frame, maxWait: int, r: Reading)
    requires Inv(w, rail) && Admit(w.t, rail, packet, f.kind, DataBytes(f), maxWait, r).1 == Dispatch
    ensures var t := Admit(w.t, rail, packet, f.kind, DataBytes(f), maxWait, r).0;
            && t == w.t
            && Inv(w.(arrived := w.arrived + [f], dispatched := w.dispatched + [f]), rail)
  {
    var v := w.(arrived := w.arrived + [f], dispatched := w.dispatched + [f]);
    BypassExactly(f.kind);
    hide Conserved, Asked, Bears, Bypasses, Packets, Total, Decoded;
    DispatchKeeps(w, f, v);
    AskedFrame(w, v);
  }

  /** Bypassing and bearing order exclude each other, and every kind does one of them. */
  lemma BypassExactly(kind: FrameType)
    ensures Bypasses(kind) <==> !Bears(kind)
  {
  }

  lemma AskedFrame(w: World, v: World)
    requires Asked(w) && v.t.backlog == w.t.backlog && v.t.deadline == w.t.deadline
    requires v.owns == w.owns && v.asks == w.asks
    ensures Asked(v)
  {
  }

  lemma AskedGrows(w: World, v: World, own: int)
    requires Asked(w) && |w.owns| == |w.t.backlog|
    requires v.t.deadline == (if w.t.backlog == [] then own else Min(w.t.deadline, own))
    ensures Asked(Queued(w, v, own))
  {
    var x := Queued(w, v, own);
    assert x.asks[|x.asks| - 1] == own;
    if w.t.backlog != [] {
      var k :| 0 <= k < |w.asks| && w.asks[k] == w.t.deadline;
      assert x.asks[k] == w.t.deadline;
    }
  }

  lemma DispatchKeeps(w: World, f: Frame, v: World)
    requires Conserved(w) && (w.t.backlog == [] || !Bears(f.kind))
    requires v.t.backlog == w.t.backlog && v.arrived == w.arrived + [f] && v.dispatched == w.dispatched + [f]
    ensures Conserved(v)
  {
    KeptOne(w.arrived, f, true);
    KeptOne(w.arrived, f, false);
    KeptOne(w.dispatched, f, true);
    KeptOne(w.dispatched, f, false);
    NothingQueued();
    hide Kept, Decoded, Packets;
  }

  lemma QueueGrows(w: World, d: Deferred, f: Frame, v: World)
    requires Conserved(w) && FrameOf(d.packet) == Some(f) && Bears(f.kind)
    requires v.t.backlog == w.t.backlog + [d] && v.arrived == w.arrived + [f] && v.dispatched == w.dispatched
    ensures Conserved(v)
  {
    hide FrameOf, Kept;
    KeptOne(w.arrived, f, true);
    KeptOne(w.arrived, f, false);
    AppendQueue(w.t.backlog, d);
    DecodedAppend(Packets(w.t.backlog), [d.packet]);
    assert Decoded([d.packet]) == [f] by {
      assert [d.packet][1..] == [];
    }
    hide Decoded, Packets;
  }

  datatype Input = Input(e: Event, r: Reading, env: Env)

  function Run(rail: nat, active: bool, ins: seq<Input>): World {
    if ins == [] then Connected(active)
    else
      var last := ins[|ins| - 1];
      Step(Run(rail, active, ins[..|ins| - 1]), rail, last.e, last.r, last.env)
  }

  /** The clock reads positive times. */
  ghost predicate Ticking(ins: seq<Input>) {
    forall i :: 0 <= i < |ins| ==> ins[i].r.now > 0
  }

  /** Every event keeps the invariant, whatever the limiter answers and however the clock runs. */
  lemma StepKeeps(w: World, rail: nat, e: Event, r: Reading, env: Env)
    requires Inv(w, rail) && r.now > 0
    ensures Inv(Step(w, rail, e, r, env), rail)
  {
    hide DrainBacklog, OnPacket, Decoded, Packets, Total;
    match e {
      case Arrive(packet, maxWait) => ArriveKeeps(w, rail, packet, maxWait, r, env);
      case Timer => DrainKeeps(w, rail, env);
      case Refresh(active) =>
        var v := w.(t := w.t.(active := active));
        if v.t.backlog != [] {
          DrainKeeps(v, rail, env);
        }
    }
  }

  lemma {:induction false} RunKeeps(rail: nat, active: bool, ins: seq<Input>)
    requires Ticking(ins)
    ensures Inv(Run(rail, active, ins), rail)
  {
    if ins != [] {
      var last := ins[|ins| - 1];
      RunKeeps(rail, active, ins[..|ins| - 1]);
      hide Step, Inv;
      StepKeeps(Run(rail, active, ins[..|ins| - 1]), rail, last.e, last.r, last.env);
    }
  }

  /**
   * In every run the order-bearing frames dispatched so far, followed by those
   * waiting, are exactly the order-bearing frames that arrived, in arrival
   * order, and every other frame that arrived went out; the queued bytes are
   * counted and within the rail, no deadline is kept late or made up; and a
   * queue that waits has a timer set to look at it within a second.
   */
  lemma OrderIsConserved(rail: nat, active: bool, ins: seq<Input>)
    requires Ticking(ins)
    ensures var w := Run(rail, active, ins);
            && Kept(w.arrived, true) == Kept(w.dispatched, true) + Decoded(Packets(w.t.backlog))
            && Kept(w.arrived, false) == Kept(w.dispatched, false)
            && |Decoded(Packets(w.t.backlog))| == |w.t.backlog|
            && w.t.backlogBytes == Total(w.t.backlog) <= rail
            && (forall k :: 0 <= k < |w.owns| ==> w.t.deadline <= w.owns[k])
            && (w.t.backlog != [] ==> w.t.deadline in w.asks)
            && (w.t.backlog != [] ==> w.armed && w.wakeAt <= w.armedAt + MAX_RETRY_NS)
  {
    RunKeeps(rail, active, ins);
    hide Run;
    ReplayLosesNothing(Run(rail, active, ins).t.backlog);
  }

  lemma {:induction false} ReplayLosesNothing(q: seq<Deferred>)
    requires AllReplayable(q)
    ensures |Decoded(Packets(q))| == |q|
  {
    hide FrameOf;
    if q != [] {
      assert Replayable(q[0]);
      ReplayLosesNothing(q[1..]);
      assert Packets(q)[1..] == Packets(q[1..]);
    }
  }

  /**
   * What becomes of an arriving frame. One without a place in the order goes
   * out at once, whatever waits. One with a place goes out at once exactly if
   * nothing waits and it is free or the limiter grants it; it is queued
   * otherwise, and opens the queue exactly if that brings it over the rail or a
   * deadline asked for since it was last empty has come.
   */
  lemma ArrivalExactly(w: World, rail: nat, packet: Packet, maxWait: int, r: Reading)
    requires Inv(w, rail) && r.now > 0 && FrameOf(packet).Some?
    ensures var f := FrameOf(packet).value;
            var a := Admit(w.t, rail, packet, f.kind, DataBytes(f), maxWait, r).1;
            var asks := (if w.t.backlog == [] then [] else w.asks) + [r.now + Max(maxWait, 0)];
            && (a == Dispatch <==> !Bears(f.kind)
                                   || (w.t.backlog == [] && (!w.t.active || DataBytes(f) == 0 || r.granted)))
            && (a != Dispatch ==>
                  (a == Release <==> Total(w.t.backlog) + |packet| > rail
                                     || exists k :: 0 <= k < |asks| && asks[k] <= r.now))
  {
    var f := FrameOf(packet).value;
    hide FrameOf, Admit, Inv;
    DispatchesExactly(w, rail, packet, f, maxWait, r);
    if Admit(w.t, rail, packet, f.kind, DataBytes(f), maxWait, r).1 != Dispatch {
      ReleasesExactly(w, rail, packet, f, maxWait, r);
    }
  }

  lemma DispatchesExactly(w: World, rail: nat, packet: Packet, f: Frame, maxWait: int, r: Reading)
    ensures Admit(w.t, rail, packet, f.kind, DataBytes(f), maxWait, r).1 == Dispatch
            <==> !Bears(f.kind) || (w.t.backlog == [] && (!w.t.active || DataBytes(f) == 0 || r.granted))
  {
    BypassExactly(f.kind);
    hide Bears, Bypasses;
  }

  lemma ReleasesExactly(w: World, rail: nat, packet: Packet, f: Frame, maxWait: int, r: Reading)
    requires Inv(w, rail) && r.now > 0 && FrameOf(packet) == Some(f)
    requires Admit(w.t, rail, packet, f.kind, DataBytes(f), maxWait, r).1 != Dispatch
    ensures var asks := (if w.t.backlog == [] then [] else w.asks) + [r.now + Max(maxWait, 0)];
            Admit(w.t, rail, packet, f.kind, DataBytes(f), maxWait, r).1 == Release
            <==> Total(w.t.backlog) + |packet| > rail || exists k :: 0 <= k < |asks| && asks[k] <= r.now
  {
    hide *;
    var x := Joined(w, rail, packet, f, maxWait, r);
    ReleaseReasons(w, rail, packet, f, maxWait, r);
    JoinedAsks(w, rail, packet, f, maxWait, r);
    JoinedKeeps(w, rail, packet, f, maxWait, r);
    EarliestAsked(x, r.now);
  }

  lemma JoinedAsks(w: World, rail: nat, packet: Packet, f: Frame, maxWait: int, r: Reading)
    requires Inv(w, rail)
    ensures Joined(w, rail, packet, f, maxWait, r).asks
            == (if w.t.backlog == [] then [] else w.asks) + [r.now + Max(maxWait, 0)]
    ensures w.t.backlogBytes == Total(w.t.backlog)
  {
    hide Admit, Conserved, AllReplayable, Asked;
  }

  lemma ReleaseReasons(w: World, rail: nat, packet: Packet, f: Frame, maxWait: int, r: Reading)
    requires Admit(w.t, rail, packet, f.kind, DataBytes(f), maxWait, r).1 != Dispatch
    ensures var x := Joined(w, rail, packet, f, maxWait, r);
            Admit(w.t, rail, packet, f.kind, DataBytes(f), maxWait, r).1 == Release
            <==> w.t.backlogBytes + |packet| > rail || x.t.deadline <= r.now
  {
    hide Bypasses;
  }

  lemma EarliestAsked(x: World, at: int)
    requires Asked(x) && x.t.backlog != []
    ensures x.t.deadline <= at <==> exists k :: 0 <= k < |x.asks| && x.asks[k] <= at
  {
    var k :| 0 <= k < |x.asks| && x.asks[k] == x.t.deadline;
  }

  /**
   * Whether the oldest packet may go: if the queue has been opened, or is by a
   * deadline that has come, if it is not metered, or if the limiter grants it.
   * Otherwise it stays, and the wait the limiter announced is kept.
   */
  lemma PopExactly(t: Throttle, r: Reading)
    requires Queue(t)
    ensures var (u, o) := NextReady(t, r);
            && (o.Some? <==> t.backlog != []
                             && (t.releasing || r.now >= t.deadline || !t.active || t.backlog[0].dataBytes == 0
                                 || r.granted))
            && (o.Some? ==> o.value == t.backlog[0].packet && u.backlog == t.backlog[1..] && u.retryAfter == 0)
            && (o.None? && t.backlog != [] ==> u.backlog == t.backlog && u.retryAfter == r.wait)
            && (u.notice <==> t.notice || (t.backlog != [] && !t.releasing && r.now >= t.deadline))
  {
    hide Total;
  }

  /** A frame that is queued first keeps the wait the limiter announced for it; one behind others announces none. */
  lemma AnnouncedWaitIsKept(w: World, rail: nat, packet: Packet, f: Frame, maxWait: int, r: Reading)
    requires Admit(w.t, rail, packet, f.kind, DataBytes(f), maxWait, r).1 != Dispatch
    ensures Joined(w, rail, packet, f, maxWait, r).t.retryAfter
            == if w.t.backlog == [] then r.wait else w.t.retryAfter
  {
    hide Bypasses;
  }

  /**
   * How long the timer is set for: the whole milliseconds, at least one and at
   * most a second, that cover the announced wait or the time to the release,
   * whichever is shorter.
   */
  lemma TimerWaitExactly(t: Throttle, now: int)
    ensures var untilRelease := if t.deadline == 0 then t.retryAfter else Max(t.deadline - now, 0);
            var wish, wait := Min(1000 * MILLI, Min(t.retryAfter, untilRelease)), TimerWait(t, now);
            && wait % MILLI == 0 && MILLI <= wait <= 1000 * MILLI
            && wish <= wait && (wait < wish + MILLI || wait == MILLI)
  {
  }

  /** Whenever a rail is hit, the queue is empty before the event is over. */
  lemma ReleaseEmpties(w: World, rail: nat, packet: Packet, maxWait: int, r: Reading, env: Env)
    requires Inv(w, rail) && r.now > 0 && FrameOf(packet).Some?
    requires var f := FrameOf(packet).value; Admit(w.t, rail, packet, f.kind, DataBytes(f), maxWait, r).1 == Release
    ensures var v := OnPacket(w, rail, packet, maxWait, r, env);
            && v.t.backlog == []
            && Kept(v.dispatched, true) == Kept(v.arrived, true) && Kept(v.dispatched, false) == Kept(v.arrived, false)
  {
    var f := FrameOf(packet).value;
    JoinedKeeps(w, rail, packet, f, maxWait, r);
    hide ArmRetry, Decoded, Packets, Total, FrameOf, DrainBacklog, Kept, Asked, Admit;
    DrainKeeps(Joined(w, rail, packet, f, maxWait, r), rail, env);
    NothingQueued();
  }

  lemma NothingQueued()
    ensures Decoded(Packets([])) == []
  {
  }

  /** After a timer event no frame still waits whose own deadline the drain's last reading had reached. */
  lemma TimerLeavesTimeFor(w: World, rail: nat, env: Env, k: nat)
    requires Inv(w, rail) && k < |DrainBacklog(w, env).owns|
    ensures env(Drain(w.t, env, 0).used).now < DrainBacklog(w, env).owns[k]
  {
    hide DrainBacklog, Decoded, Packets;
    DrainKeeps(w, rail, env);
  }

  /** A timer that is set now wakes up at most a millisecond after the release deadline. */
  lemma FreshTimerIsInTime(w: World, now: int)
    requires !w.armed && w.t.backlog != [] && w.t.deadline > 0
    ensures ArmRetry(w, now).wakeAt <= Max(w.t.deadline, now) + MILLI
  {
  }

  predicate InTime(w: World, deadline: int) {
    w.wakeAt <= Max(deadline, w.armedAt) + MILLI
  }

  /** The pending timer is in time for the queue exactly if it is for every frame parked since it was set. */
  ghost predicate TimedBySince(w: World) {
    w.armed ==>
      && w.t.backlog != []
      && (InTime(w, w.t.deadline) <==> forall k :: w.since <= k < |w.owns| ==> InTime(w, w.owns[k]))
  }

  /** A drain leaves no timer or one it has just set. */
  lemma DrainTimes(w: World, rail: nat, env: Env)
    requires Conserved(w)
    requires AllReplayable(w.t.backlog) && Queue(w.t) && Bounded(w.t, w.owns) && Asked(w)
    requires w.t.releasing || Total(w.t.backlog) <= rail
    ensures var v := DrainBacklog(w, env);
            && (forall k :: 0 <= k < |v.owns| ==> v.owns[k] in w.owns)
            && (v.armed ==> v.t.backlog != [] && v.since == |v.owns| && InTime(v, v.t.deadline))
  {
    var d := Drain(w.t, env, 0);
    DrainKeeps(w, rail, env);
    DrainTakesPrefix(w.t, env, 0, w.owns);
    hide Drain, AllReplayable, Decoded, Packets, Total, Conserved, Asked;
    var v := w.(t := d.t.(notice := false), dispatched := w.dispatched + Decoded(d.ready), owns := w.owns[|d.ready|..],
                armed := false);
    if v.t.backlog != [] {
      FreshTimerIsInTime(v, env(d.used).now);
    }
  }

  /** What an event does to the timer: it is as it was with a parked frame behind the queue, or it is fresh. */
  lemma ArriveTimes(w: World, rail: nat, packet: Packet, maxWait: int, r: Reading, env: Env)
    requires Inv(w, rail) && r.now > 0 && (w.armed ==> w.t.backlog != [])
    ensures var v, own := OnPacket(w, rail, packet, maxWait, r, env), r.now + Max(maxWait, 0);
            && (v == w.(arrived := v.arrived, dispatched := v.dispatched)
                || (v.armed ==> v.t.backlog != [] && v.since == |v.owns| && InTime(v, v.t.deadline))
                || (w.armed && v.armed && v.t.backlog != [] && v.owns == w.owns + [own] && v.since == w.since
                    && v.wakeAt == w.wakeAt && v.armedAt == w.armedAt && v.t.deadline == Min(w.t.deadline, own)))
            && (forall k :: 0 <= k < |v.owns| ==> v.owns[k] in w.owns + [own])
  {
    hide ArmRetry, DrainBacklog, Decoded, Packets, Total, FrameOf, Conserved, Asked, AllReplayable, Bounded, Queue;
    if FrameOf(packet).Some? {
      var f := FrameOf(packet).value;
      var (t, a) := Admit(w.t, rail, packet, f.kind, DataBytes(f), maxWait, r);
      if a == Dispatch {
        DispatchInv(w, rail, packet, f, maxWait, r);
      } else {
        JoinedKeeps(w, rail, packet, f, maxWait, r);
        var x := Joined(w, rail, packet, f, maxWait, r);
        hide Admit;
        TotalIsCounted(x.t);
        if a == Parked {
          DeadlineIsSet(x.t);
          ParkTimes(w, r.now + Max(maxWait, 0), x, r.now);
        } else {
          DrainTimes(x, rail, env);
        }
      }
    }
  }

  lemma DeadlineIsSet(t: Throttle)
    requires Queue(t)
    ensures t.backlog != [] ==> t.deadline > 0
  {
    hide Total;
  }

  lemma ParkTimes(w: World, own: int, x: World, now: int)
    requires x.t.backlog != [] && x.t.deadline > 0 && (w.armed ==> w.t.backlog != [])
    requires x.t.deadline == (if w.t.backlog == [] then own else Min(w.t.deadline, own))
    requires x == w.(t := x.t, arrived := x.arrived, owns := w.owns + [own], asks := x.asks)
    ensures var v := ArmRetry(x, now);
            && v.t == x.t && v.owns == x.owns && v.armed
            && (!w.armed ==> v.since == |v.owns| && InTime(v, v.t.deadline))
            && (w.armed ==> v == x && v.t.deadline == Min(w.t.deadline, own))
  {
    if !w.armed {
      FreshTimerIsInTime(x, now);
    }
  }

  lemma ParkedTiming(w: World, v: World, own: int)
    requires w.armed && TimedBySince(w) && w.since <= |w.owns|
    requires v.armed && v.t.backlog != [] && v.owns == w.owns + [own] && v.since == w.since
    requires v.wakeAt == w.wakeAt && v.armedAt == w.armedAt && v.t.deadline == Min(w.t.deadline, own)
    ensures TimedBySince(v)
  {
    var n := |w.owns|;
    assert v.owns[n] == own && forall k :: 0 <= k < n ==> v.owns[k] == w.owns[k];
    assert InTime(v, v.t.deadline) <==> InTime(w, w.t.deadline) && InTime(w, own);
  }

  /** The deadline an arriving frame asks for itself. */
  function OwnDeadline(i: Input): int {
    i.r.now + if i.e.Arrive? then Max(i.e.maxWait, 0) else 0
  }

  lemma RefreshTimes(w: World, rail: nat, active: bool, r: Reading, env: Env)
    requires Inv(w, rail) && (w.armed ==> w.t.backlog != [])
    ensures var v := Step(w, rail, Refresh(active), r, env);
            && (forall k :: 0 <= k < |v.owns| ==> v.owns[k] in w.owns)
            && (v.armed ==> v.t.backlog != [] && v.since == |v.owns| && InTime(v, v.t.deadline))
  {
    hide DrainBacklog, Decoded, Packets, Total, AllReplayable;
    var v := w.(t := w.t.(active := active));
    if v.t.backlog != [] {
      DrainTimes(v, rail, env);
    }
  }

  /** Where the own deadlines of the queued frames come from. */
  ghost predicate Sourced(owns: seq<int>, ins: seq<Input>) {
    forall k :: 0 <= k < |owns| ==> exists i :: 0 <= i < |ins| && ins[i].e.Arrive? && OwnDeadline(ins[i]) == owns[k]
  }

  lemma {:induction false} RunTimes(rail: nat, active: bool, ins: seq<Input>)
    requires Ticking(ins)
    ensures var w := Run(rail, active, ins);
            TimedBySince(w) && Sourced(w.owns, ins) && (w.armed ==> w.since <= |w.owns|)
  {
    if ins != [] {
      var init, last := ins[..|ins| - 1], ins[|ins| - 1];
      RunTimes(rail, active, init);
      RunKeeps(rail, active, init);
      var w, v := Run(rail, active, init), Run(rail, active, ins);
      assert v == Step(w, rail, last.e, last.r, last.env);
      hide Run;
      EventTimes(w, rail, last);
      hide Step, Inv, TimedBySince;
      forall k | 0 <= k < |v.owns|
        ensures exists i :: 0 <= i < |ins| && ins[i].e.Arrive? && OwnDeadline(ins[i]) == v.owns[k]
      {
        if v.owns[k] in w.owns {
          var j :| 0 <= j < |w.owns| && w.owns[j] == v.owns[k];
          var i :| 0 <= i < |init| && init[i].e.Arrive? && OwnDeadline(init[i]) == w.owns[j];
          assert ins[i] == init[i];
        } else {
          assert ins[|ins| - 1] == last;
        }
      }
    }
  }

  lemma EventTimes(w: World, rail: nat, i: Input)
    requires Inv(w, rail) && i.r.now > 0 && TimedBySince(w) && (w.armed ==> w.since <= |w.owns|)
    ensures var v := Step(w, rail, i.e, i.r, i.env);
            && TimedBySince(v) && (v.armed ==> v.since <= |v.owns|)
            && (forall k :: 0 <= k < |v.owns| ==> v.owns[k] in w.owns || (i.e.Arrive? && v.owns[k] == OwnDeadline(i)))
  {
    hide Inv;
    match i.e {
      case Arrive(packet, maxWait) =>
        ArriveTimes(w, rail, packet, maxWait, i.r, i.env);
        var v, own := OnPacket(w, rail, packet, maxWait, i.r, i.env), i.r.now + Max(maxWait, 0);
        hide OnPacket;
        var same := w.(arrived := v.arrived, dispatched := v.dispatched);
        if v != same && v.armed && !(v.since == |v.owns| && InTime(v, v.t.deadline)) {
          ParkedTiming(w, v, own);
        }
      case Timer => TimerTimes(w, rail, i.env);
      case Refresh(active) => RefreshTimes(w, rail, active, i.r, i.env);
    }
  }

  lemma TimerTimes(w: World, rail: nat, env: Env)
    requires Inv(w, rail)
    ensures var v := DrainBacklog(w, env);
            && (forall k :: 0 <= k < |v.owns| ==> v.owns[k] in w.owns)
            && (v.armed ==> v.t.backlog != [] && v.since == |v.owns| && InTime(v, v.t.deadline))
  {
    DrainTimes(w, rail, env);
  }

  /**
   * A timer that is set is not moved, even for a frame with an earlier
   * deadline. In every run the pending timer wakes within a millisecond of the
   * queue's deadline if and only if it does for each frame parked since it was
   * set: a frame whose own deadline is earlier by more is the only way to
   * oversleep.
   */
  lemma PendingTimerIsInTime(rail: nat, active: bool, ins: seq<Input>)
    requires Ticking(ins) && Run(rail, active, ins).armed
    ensures var w := Run(rail, active, ins);
            && w.t.backlog != [] && w.since <= |w.owns| == |w.t.backlog|
            && (w.wakeAt <= Max(w.t.deadline, w.armedAt) + MILLI
                <==> forall k :: w.since <= k < |w.owns| ==> w.wakeAt <= Max(w.owns[k], w.armedAt) + MILLI)
  {
    RunTimes(rail, active, ins);
    RunKeeps(rail, active, ins);
    hide Run, Decoded, Packets, Total;
  }

  /** While no frame asks to be released before one that came earlier, the timer never oversleeps. */
  lemma {:induction false} SteadyDeadlinesNeverOversleep(rail: nat, active: bool, ins: seq<Input>)
    requires Ticking(ins)
    requires forall i, j :: 0 <= i < j < |ins| && ins[i].e.Arrive? && ins[j].e.Arrive? ==>
                              OwnDeadline(ins[i]) <= OwnDeadline(ins[j])
    ensures var w := Run(rail, active, ins);
            w.armed ==> w.wakeAt <= Max(w.t.deadline, w.armedAt) + MILLI
  {
    if ins != [] {
      var n, init, last := |ins| - 1, ins[..|ins| - 1], ins[|ins| - 1];
      assert forall i :: 0 <= i < n ==> init[i] == ins[i];
      SteadyDeadlinesNeverOversleep(rail, active, init);
      RunTimes(rail, active, init);
      RunKeeps(rail, active, init);
      var w, v := Run(rail, active, init), Run(rail, active, ins);
      assert v == Step(w, rail, last.e, last.r, last.env);
      if last.e.Arrive? {
        forall k | 0 <= k < |w.owns| ensures w.owns[k] <= OwnDeadline(last) {
          var i :| 0 <= i < |init| && init[i].e.Arrive? && OwnDeadline(init[i]) == w.owns[k];
          assert ins[n] == last;
        }
      }
      hide Run, Sourced;
      SteadyEvent(w, rail, last);
    }
  }

  lemma SteadyEvent(w: World, rail: nat, i: Input)
    requires Inv(w, rail) && i.r.now > 0 && (w.armed ==> w.t.backlog != [] && InTime(w, w.t.deadline))
    requires i.e.Arrive? ==> forall k :: 0 <= k < |w.owns| ==> w.owns[k] <= OwnDeadline(i)
    ensures var v := Step(w, rail, i.e, i.r, i.env);
            v.armed ==> InTime(v, v.t.deadline)
  {
    assert Bounded(w.t, w.owns) && (w.armed ==> w.t.deadline <= w.owns[0]);
    hide Inv;
    match i.e {
      case Arrive(packet, maxWait) =>
        ArriveTimes(w, rail, packet, maxWait, i.r, i.env);
        hide OnPacket;
      case Timer => TimerTimes(w, rail, i.env);
      case Refresh(active) => RefreshTimes(w, rail, active, i.r, i.env);
    }
  }

  /** Such a run exists: the second frame's tunnel may wait 50 ms, and the timer sleeps on for 950 ms more. */
  lemma TightenedDeadlineOversleeps()
    ensures exists ins: seq<Input> ::
              Ticking(ins)
              && var w := Run(1_000_000, true, ins);
                 w.t.backlog != [] && w.wakeAt == w.t.deadline + 950 * MILLI - 1
  {
    var data := Frame(TunnelData, 1, [7]);
    var p: Packet := [LOSSLESS_PACKET_BYTE] + Serialize(data);
    DecodeEncode(data, []);
    assert p[1..] == Serialize(data) + [];
    assert FrameOf(p) == Some(data) && |p| == 7;
    var env: Env := (i: nat) => Reading(1, false, 0);
    var first := Input(Arrive(p, 60_000 * MILLI), Reading(1, false, MAX_RETRY_NS), env);
    var second := Input(Arrive(p, 50 * MILLI), Reading(2, false, 0), env);
    var ins := [first, second];
    assert ins[..1] == [first] && [first][..0] == [];
    var w0 := Connected(true);
    assert Run(1_000_000, true, []) == w0;
    var w1 := Step(w0, 1_000_000, first.e, first.r, env);
    assert Run(1_000_000, true, [first]) == w1;
    assert Run(1_000_000, true, ins) == Step(w1, 1_000_000, second.e, second.r, env);
    hide FrameOf, Drain, Run, Step;
    FirstParks(p, data, env);
    SecondParks(w1, p, data, env);
    assert Ticking(ins);
  }

  lemma FirstParks(p: Packet, f: Frame, env: Env)
    requires FrameOf(p) == Some(f) && f.kind == TunnelData && |f.payload| == 1 && |p| == 7
    ensures var w := Step(Connected(true), 1_000_000, Arrive(p, 60_000 * MILLI), Reading(1, false, MAX_RETRY_NS), env);
            && w.armed && w.armedAt == 1 && w.wakeAt == 1 + MAX_RETRY_NS
            && w.t.backlog == [Deferred(p, 1)] && w.t.backlogBytes == 7 && w.t.deadline == 1 + 60_000 * MILLI
  {
    hide FrameOf, Drain;
  }

  lemma SecondParks(w: World, p: Packet, f: Frame, env: Env)
    requires FrameOf(p) == Some(f) && f.kind == TunnelData && |f.payload| == 1 && |p| == 7
    requires w.armed && w.armedAt == 1 && w.wakeAt == 1 + MAX_RETRY_NS
    requires w.t.backlog == [Deferred(p, 1)] && w.t.backlogBytes == 7 && w.t.deadline == 1 + 60_000 * MILLI
    ensures var v := Step(w, 1_000_000, Arrive(p, 50 * MILLI), Reading(2, false, 0), env);
            v.t.backlog != [] && v.wakeAt == v.t.deadline + 950 * MILLI - 1
  {
    hide FrameOf, Drain;
  }
}
