/**
 * The write side of a TCP connection: calls from any thread post tasks to a
 * strand, which keeps one write in flight, counts the bytes not yet written,
 * and shuts the send half down only once everything before has drained.
 */
module TcpConnection {
  import opened Bytes

  datatype Phase = Disconnected | Connected | Disconnecting

  /**
   * `inFlight` is the buffer of the outstanding asynchronous write; `written`
   * what the socket took; `fin` what it had taken when the end of the stream
   * was sent. `clean` is false once anything failed, threw or was forced.
   * `asks` counts how often the writable callback has been called.
   */
  datatype Conn = Conn(
    phase: Phase, queue: seq<seq<Byte>>, inFlight: Option<seq<Byte>>, inProgress: bool, bufferBytes: int,
    watermark: bool, deferred: bool, shutRequested: bool, shutDone: bool, open: bool,
    written: seq<Byte>, fin: Option<seq<Byte>>, clean: bool, asks: nat)

  const FRESH := Conn(Connected, [], None, false, 0, false, false, false, false, true, [], None, true, 0)

  function Total(q: seq<seq<Byte>>): nat {
    if q == [] then 0 else |q[0]| + Total(q[1..])
  }

  function Joined(q: seq<seq<Byte>>): seq<Byte> {
    if q == [] then [] else q[0] + Joined(q[1..])
  }

  /** Bytes of the write in flight. */
  function Outstanding(c: Conn): seq<Byte> {
    match c.inFlight case Some(b) => b case None => []
  }

  function EndStream(c: Conn): Conn {
    if c.fin.None? then c.(fin := Some(c.written)) else c
  }

  /** The queued buffers are discarded; the write in flight refunds its own bytes later. */
  function DropQueue(c: Conn): Conn {
    c.(bufferBytes := c.bufferBytes - Total(c.queue), queue := [])
  }

  /** The socket is closed, and nothing more is started or shut down. */
  function Gone(c: Conn): Conn {
    c.(open := false, inProgress := false, shutRequested := true, shutDone := true, phase := Disconnected)
  }

  function DoClose(c: Conn, abortive: bool): Conn {
    if c.phase == Disconnected then c
    else Gone(DropQueue(if c.open && !abortive then EndStream(c) else c))
  }

  /** `ok` says whether the socket accepts the shutdown. */
  function MaybeShutdown(c: Conn, ok: bool): Conn {
    if !c.shutRequested || c.shutDone || c.inProgress || c.queue != [] || !c.open then c
    else if ok then EndStream(c).(shutDone := true)
    else c.(clean := false)
  }

  function DoWrite(c: Conn, ok: bool): Conn {
    if c.queue == [] then
      var d := MaybeShutdown(c.(inProgress := false), ok);
      if d.phase == Disconnecting then DoClose(d, false) else d
    else c.(inProgress := true, inFlight := Some(c.queue[0]), queue := c.queue[1..])
  }

  function Enqueue(c: Conn, b: seq<Byte>, limit: int, ok: bool): Conn {
    if b == [] then c
    else
      var d := c.(bufferBytes := c.bufferBytes + |b|, watermark := c.watermark || c.bufferBytes + |b| >= limit,
                  queue := c.queue + [b]);
      if d.inProgress then d else DoWrite(d, ok)
  }

  datatype Callback = Flushed | KeepCalling | Throws

  datatype Result = Wrote(cb: Callback) | Failed(partial: nat)

  /** A throwing callback takes only this connection down. */
  function CallbackFault(c: Conn): Conn {
    var d := c.(clean := false);
    if c.phase == Disconnected then d else DoClose(d.(phase := Disconnecting), false)
  }

  /** The writable callback has been called; only one that flushed everything lowers the watermark. */
  function Answered(c: Conn, cb: Callback): Conn {
    c.(asks := c.asks + 1, watermark := c.watermark && cb != Flushed,
       deferred := (c.deferred || cb == KeepCalling) && cb != Flushed)
  }

  function Asked(c: Conn, cb: Callback, ok: bool): Conn {
    if cb == Throws then CallbackFault(Answered(c, cb)) else DoWrite(Answered(c, cb), ok)
  }

  /** The buffer was written; once the queue has drained to half the limit the writer is told. */
  function Drained(c: Conn, cb: Callback, limit: int, ok: bool): Conn {
    if c.watermark && c.bufferBytes <= limit / 2 then Asked(c, cb, ok) else DoWrite(c, ok)
  }

  /** The call-time backpressure verdict: the bytes are posted all the same, but the caller is told to wait. */
  predicate Refuses(c: Conn, b: seq<Byte>, limit: int) {
    c.bufferBytes + |b| > limit
  }

  /** The outstanding write failed, with so many of its bytes written. */
  function WriteFailed(c: Conn, b: seq<Byte>, partial: nat): Conn {
    DoClose(c.(inProgress := false, written := c.written + b[..Min(partial, |b|)], clean := false,
               phase := if c.phase == Connected then Disconnecting else c.phase), false)
  }

  /** The outstanding write's completion handler. */
  function Complete(c: Conn, r: Result, limit: int, ok: bool): Conn
    requires c.inFlight.Some?
  {
    var b := c.inFlight.value;
    var d := c.(inFlight := None, bufferBytes := c.bufferBytes - |b|);
    match r
    case Failed(partial) => WriteFailed(d, b, partial)
    case Wrote(cb) => Drained(d.(written := c.written + b), cb, limit, ok)
  }

  function RunWrite(c: Conn, b: seq<Byte>, limit: int, ok: bool): Conn {
    if c.phase == Disconnected || c.shutRequested then c else Enqueue(c, b, limit, ok)
  }

  function RunShutdown(c: Conn, ok: bool): Conn {
    if c.phase == Disconnected then c else MaybeShutdown(c.(shutRequested := true), ok)
  }

  function RunClose(c: Conn): Conn {
    if c.phase == Disconnected then c
    else
      var d := c.(phase := Disconnecting);
      if !d.inProgress && d.queue == [] then DoClose(d, false) else d
  }

  function RunForceClose(c: Conn, reset: bool): Conn {
    if c.phase == Disconnected then c
    else DoClose(DropQueue(c.(clean := false)), reset && c.open)
  }

  /** The read side ends the connection: an error, or an end of stream nobody handles. */
  function Broken(c: Conn): Conn {
    if c.phase != Connected then c else DoClose(c.(phase := Disconnecting, clean := false), false)
  }

  // ---------------------------------------------------------------------------
  // The object
  // ---------------------------------------------------------------------------

  class Connection {
    const limit: nat
    var phase: Phase
    var queue: seq<seq<Byte>>
    var inFlight: Option<seq<Byte>>
    var inProgress: bool
    var bufferBytes: int
    var watermark: bool
    var deferred: bool
    var shutRequested: bool
    var shutDone: bool
    var open: bool
    var written: seq<Byte>
    var fin: Option<seq<Byte>>
    var clean: bool
    var asks: nat

    function View(): Conn
      reads this
    {
      Conn(phase, queue, inFlight, inProgress, bufferBytes, watermark, deferred, shutRequested, shutDone, open,
           written, fin, clean, asks)
    }

    constructor (limit: nat)
      ensures View() == FRESH && this.limit == limit
    {
      this.limit := limit;
      phase, queue, inFlight, inProgress, bufferBytes := Connected, [], None, false, 0;
      watermark, deferred, shutRequested, shutDone, open := false, false, false, false, true;
      written, fin, clean, asks := [], None, true, 0;
    }

    /** What a write call does at once: whether its bytes are posted, and whether the caller may go on writing. */
    method Write(b: seq<Byte>) returns (posted: bool, ok: bool)
      ensures posted == (phase != Disconnected && !shutRequested && b != [])
      ensures ok == (phase != Disconnected && !shutRequested && (b == [] || bufferBytes + |b| <= limit))
    {
      if phase == Disconnected {
        return false, false;
      }
      if shutRequested {
        return false, false;
      }
      if b == [] {
        return false, true;
      }
      var over := bufferBytes + |b| > limit;
      return true, !over;
    }

    /** The bytes of every queued buffer. */
    method PendingBytes() returns (pending: nat)
      ensures pending == Total(queue)
    {
      pending := 0;
      var i := 0;
      while i < |queue|
        invariant 0 <= i <= |queue| && Total(queue) == pending + Total(queue[i..])
      {
        assert queue[i..][1..] == queue[i + 1..];
        pending := pending + |queue[i]|;
        i := i + 1;
      }
    }

    method DiscardQueue()
      modifies `bufferBytes, `queue
      ensures View() == DropQueue(old(View()))
    {
      var pending := PendingBytes();
      if pending > 0 {
        bufferBytes := bufferBytes - pending;
      }
      queue := [];
    }

    method SendFin()
      modifies `fin
      ensures View() == EndStream(old(View()))
    {
      if fin.None? {
        fin := Some(written);
      }
    }

    method Close(abortive: bool)
      modifies this
      ensures View() == DoClose(old(View()), abortive)
    {
      hide DropQueue, EndStream;
      if phase == Disconnected {
        return;
      }
      if open && !abortive {
        SendFin();
      }
      DiscardQueue();
      MarkGone();
      hide Gone;
    }

    method MarkGone()
      modifies this
      ensures View() == Gone(old(View()))
    {
      open := false;
      inProgress := false;
      shutRequested, shutDone := true, true;
      phase := Disconnected;
    }

    method MaybeShutdownSend(ok: bool)
      modifies this
      ensures View() == MaybeShutdown(old(View()), ok)
    {
      if !shutRequested || shutDone || inProgress || queue != [] {
        return;
      }
      if !open {
        return;
      }
      if ok {
        SendFin();
        shutDone := true;
      } else {
        clean := false;
      }
    }

    method StartWrite(ok: bool)
      modifies this
      ensures View() == DoWrite(old(View()), ok)
    {
      if queue == [] {
        inProgress := false;
        MaybeShutdownSend(ok);
        if phase == Disconnecting {
          Close(false);
        }
        return;
      }
      inProgress := true;
      inFlight := Some(queue[0]);
      queue := queue[1..];
    }

    method EnqueueWrite(b: seq<Byte>, ok: bool)
      modifies this
      ensures View() == Enqueue(old(View()), b, limit, ok)
    {
      if b == [] {
        return;
      }
      bufferBytes := bufferBytes + |b|;
      if bufferBytes >= limit {
        watermark := true;
      }
      queue := queue + [b];
      if !inProgress {
        hide DoWrite;
        StartWrite(ok);
      }
    }

    method OnCallbackFault()
      modifies this
      ensures View() == CallbackFault(old(View()))
    {
      hide DoClose;
      clean := false;
      if phase != Disconnected {
        phase := Disconnecting;
        Close(false);
      }
    }

    method OnDrained(cb: Callback, ok: bool)
      modifies this
      ensures View() == Drained(old(View()), cb, limit, ok)
    {
      hide DoWrite, CallbackFault;
      if watermark && bufferBytes <= limit / 2 {
        asks := asks + 1;
        if cb == Throws {
          OnCallbackFault();
          return;
        }
        if cb == Flushed {
          watermark, deferred := false, false;
        } else {
          deferred := true;
        }
      }
      StartWrite(ok);
    }

    method OnWriteFailed(b: seq<Byte>, partial: nat)
      modifies this
      ensures View() == WriteFailed(old(View()), b, partial)
    {
      hide DoClose;
      inProgress := false;
      written, clean := written + b[..Min(partial, |b|)], false;
      if phase == Connected {
        phase := Disconnecting;
      }
      Close(false);
    }

    method OnWriteComplete(r: Result, ok: bool)
      requires inFlight.Some?
      modifies this
      ensures View() == Complete(old(View()), r, limit, ok)
    {
      hide WriteFailed, Drained;
      var b := inFlight.value;
      inFlight := None;
      bufferBytes := bufferBytes - |b|;
      if r.Failed? {
        OnWriteFailed(b, r.partial);
        return;
      }
      written := written + b;
      OnDrained(r.cb, ok);
    }

    method OnWriteTask(b: seq<Byte>, ok: bool)
      modifies this
      ensures View() == RunWrite(old(View()), b, limit, ok)
    {
      if phase == Disconnected || shutRequested {
        return;
      }
      EnqueueWrite(b, ok);
    }

    method OnShutdownTask(ok: bool)
      modifies this
      ensures View() == RunShutdown(old(View()), ok)
    {
      if phase == Disconnected {
        return;
      }
      shutRequested := true;
      MaybeShutdownSend(ok);
    }

    method OnCloseTask()
      modifies this
      ensures View() == RunClose(old(View()))
    {
      if phase == Disconnected {
        return;
      }
      phase := Disconnecting;
      if !inProgress && queue == [] {
        Close(false);
      }
    }

    method OnForceCloseTask(reset: bool)
      modifies this
      ensures View() == RunForceClose(old(View()), reset)
    {
      if phase == Disconnected {
        return;
      }
      clean := false;
      var abortive := reset && open;
      DiscardQueue();
      Close(abortive);
    }
  }

  // ---------------------------------------------------------------------------
  // The connection between calls
  // ---------------------------------------------------------------------------

  predicate Live(c: Conn) {
    c.phase != Disconnected
  }

  /** Everything the connection has taken on: written, in flight, queued, in order. */
  function Flow(c: Conn): seq<Byte> {
    c.written + Outstanding(c) + Joined(c.queue)
  }

  /** The byte count is exact, one write at a time is in flight, and whatever is owed has a write to wait for. */
  ghost predicate Wired(c: Conn) {
    && c.bufferBytes == Total(c.queue) + |Outstanding(c)|
    && c.open == Live(c)
    && (Live(c) ==> c.inProgress == c.inFlight.Some?)
    && (Live(c) && c.inFlight.None? ==> c.queue == [])
    && (c.phase == Disconnecting ==> c.inFlight.Some?)
    && (Live(c) && c.shutDone ==> c.shutRequested && c.inFlight.None? && c.fin == Some(c.written))
    && (Live(c) && c.fin.Some? ==> c.shutDone)
    && (Live(c) && c.clean && c.shutRequested && !c.shutDone ==> c.inFlight.Some?)
    && (Live(c) && c.watermark && c.inFlight.None? ==> c.deferred)
    && (!Live(c) ==> c.queue == [] && c.shutDone && c.shutRequested)
    && (!Live(c) && c.clean ==> c.inFlight.None? && c.fin == Some(c.written))
  }

  /** A step took `d` from `c`'s stream plus `more`, unless it failed. */
  ghost predicate Carries(c: Conn, d: Conn, more: seq<Byte>) {
    && (Live(d) || d.clean ==> Flow(d) == Flow(c) + more)
    && (d.clean ==> c.clean)
    && (Live(d) ==> Live(c) && d.phase == c.phase)
  }

  lemma {:induction false} JoinedAppend(q: seq<seq<Byte>>, b: seq<Byte>)
    ensures Joined(q + [b]) == Joined(q) + b
    ensures Total(q + [b]) == Total(q) + |b|
  {
    if q == [] {
      assert q + [b] == [b];
      assert Joined([b]) == b + [];
    } else {
      JoinedAppend(q[1..], b);
      assert (q + [b])[1..] == q[1..] + [b];
    }
  }

  /** Between two writes: nothing in flight, about to start the next or to rest. */
  ghost predicate Between(c: Conn) {
    && c.inFlight.None?
    && c.bufferBytes == Total(c.queue)
    && c.open && Live(c)
    && !c.shutDone && c.fin.None?
    && (c.watermark && c.queue == [] ==> c.deferred)
  }

  lemma DoWriteKeeps(c: Conn, ok: bool)
    requires Between(c)
    ensures var d := DoWrite(c, ok);
            && Wired(d)
            && (Live(d) || d.clean ==> Flow(d) == Flow(c))
            && (d.clean ==> c.clean)
            && (Live(d) ==> d.phase == c.phase && d.shutRequested == c.shutRequested)
  {
    var d := DoWrite(c, ok);
    if c.queue != [] {
      assert Joined(c.queue) == c.queue[0] + Joined(c.queue[1..]);
      assert c.written + [] + Joined(c.queue) == c.written + c.queue[0] + Joined(c.queue[1..]);
    }
  }

  lemma WriteKeeps(c: Conn, b: seq<Byte>, limit: nat, ok: bool)
    requires Wired(c) && b != []
    ensures var d := RunWrite(c, b, limit, ok);
            && Wired(d)
            && (if Live(c) && !c.shutRequested then Carries(c, d, b) && d.shutRequested == !Live(d) else d == c)
  {
    if Live(c) && !c.shutRequested {
      JoinedAppend(c.queue, b);
      var e := c.(bufferBytes := c.bufferBytes + |b|, watermark := c.watermark || c.bufferBytes + |b| >= limit,
                  queue := c.queue + [b]);
      assert Flow(e) == Flow(c) + b;
      if !e.inProgress {
        hide Joined, Total, Flow;
        DoWriteKeeps(e, ok);
        hide DoWrite;
      }
    }
  }

  lemma CompleteKeeps(c: Conn, r: Result, limit: nat, ok: bool)
    requires Wired(c) && c.inFlight.Some?
    ensures var d := Complete(c, r, limit, ok);
            Wired(d) && Carries(c, d, []) && (Live(d) ==> d.shutRequested == c.shutRequested)
  {
    var b := c.inFlight.value;
    var e := c.(inFlight := None, bufferBytes := c.bufferBytes - |b|, written := c.written + b);
    assert Flow(e) == Flow(c) == Flow(c) + [];
    hide Joined;
    match r {
      case Failed(_) => hide Flow, Drained;
      case Wrote(cb) =>
        assert Complete(c, r, limit, ok) == Drained(e, cb, limit, ok);
        if !Live(c) {
          DeadKeeps(e, cb, limit, ok);
        } else {
          DrainedKeeps(e, cb, limit, ok);
        }
        hide Drained, Flow;
    }
  }

  /** A write that completes on a connection closed meanwhile changes nothing more. */
  lemma DeadKeeps(e: Conn, cb: Callback, limit: nat, ok: bool)
    requires !Live(e) && e.queue == [] && e.inFlight.None? && e.bufferBytes == 0 && !e.open && !e.clean
    requires e.shutDone && e.shutRequested
    ensures var d := Drained(e, cb, limit, ok); Wired(d) && !Live(d) && !d.clean
  {
    hide Flow, Joined;
    assert Total([]) == 0;
  }

  lemma DrainedKeeps(e: Conn, cb: Callback, limit: nat, ok: bool)
    requires e.inFlight.None? && e.bufferBytes == Total(e.queue) && e.open && Live(e) && !e.shutDone && e.fin.None?
    ensures var d := Drained(e, cb, limit, ok);
            && Wired(d)
            && (Live(d) || d.clean ==> Flow(d) == Flow(e))
            && (d.clean ==> e.clean)
            && (Live(d) ==> d.phase == e.phase && d.shutRequested == e.shutRequested)
  {
    assert e.queue == [] ==> Total(e.queue) == 0;
    hide Total, Joined, DoWrite, Wired, Flow;
    if e.watermark && e.bufferBytes <= limit / 2 {
      AskedKeeps(e, cb, ok);
      hide Asked;
    } else {
      DoWriteKeeps(e, ok);
    }
  }

  lemma AskedKeeps(e: Conn, cb: Callback, ok: bool)
    requires e.inFlight.None? && e.bufferBytes == Total(e.queue) && e.open && Live(e) && !e.shutDone && e.fin.None?
    ensures var d := Asked(e, cb, ok);
            && Wired(d)
            && (Live(d) || d.clean ==> Flow(d) == Flow(e))
            && (d.clean ==> e.clean)
            && (Live(d) ==> d.phase == e.phase && d.shutRequested == e.shutRequested)
  {
    var x := Answered(e, cb);
    assert e.queue == [] ==> Total(e.queue) == 0;
    assert x == e.(watermark := x.watermark, deferred := x.deferred, asks := x.asks);
    assert cb == KeepCalling ==> x.deferred;
    assert cb == Flushed ==> !x.watermark;
    hide CallbackFault, DoWrite, Wired, Flow, Total, Answered;
    if cb == Throws {
      FaultKeeps(x);
    } else {
      RestartKeeps(e, x, ok);
    }
  }

  lemma RestartKeeps(e: Conn, x: Conn, ok: bool)
    requires x == e.(watermark := x.watermark, deferred := x.deferred, asks := x.asks) && Between(x)
    ensures var d := DoWrite(x, ok);
            && Wired(d)
            && (Live(d) || d.clean ==> Flow(d) == Flow(e))
            && (d.clean ==> e.clean)
            && (Live(d) ==> d.phase == e.phase && d.shutRequested == e.shutRequested)
  {
    DoWriteKeeps(x, ok);
    assert Flow(x) == Flow(e);
    hide DoWrite, Wired, Flow;
  }

  lemma FaultKeeps(d: Conn)
    requires d.inFlight.None? && d.bufferBytes == Total(d.queue) && d.open && Live(d)
    ensures Wired(CallbackFault(d)) && !Live(CallbackFault(d)) && !CallbackFault(d).clean
  {
    hide Joined;
  }

  lemma ShutdownKeeps(c: Conn, ok: bool)
    requires Wired(c)
    ensures var d := RunShutdown(c, ok);
            Wired(d) && Carries(c, d, []) && Live(d) == Live(c) && d.shutRequested
  {
    assert Flow(c) + [] == Flow(c);
  }

  lemma CloseKeeps(c: Conn)
    requires Wired(c) && Live(c)
    ensures var d := RunClose(c);
            && Wired(d) && (d.clean ==> c.clean) && Flow(d) == Flow(c)
            && (Live(d) ==> d.phase == Disconnecting && d.shutRequested == c.shutRequested)
  {
  }

  // ---------------------------------------------------------------------------
  // Calls, the strand, and every run
  // ---------------------------------------------------------------------------

  /** `upTo` records every byte a caller had handed over when it made the request; no code reads it. */
  datatype Task =
    | WriteTask(b: seq<Byte>)
    | ShutTask(upTo: seq<Byte>)
    | CloseTask(upTo: seq<Byte>)
    | ForceTask(reset: bool)

  /**
   * `accepted` are the bytes of all write calls made before any shutdown
   * request, `taken` those whose tasks have run; `asked` and `closing` what had
   * been accepted when the first shutdown and the first close were requested.
   */
  datatype World = World(
    c: Conn, strand: seq<Task>, accepted: seq<Byte>, taken: seq<Byte>, asked: Option<seq<Byte>>,
    closing: Option<seq<Byte>>)

  const START := World(FRESH, [], [], [], None, None)

  datatype Move =
    | CallWrite(b: seq<Byte>)
    | CallShutdown
    | CallClose
    | CallForceClose(reset: bool)
    | RunTask(ok: bool)
    | WriteDone(r: Result, ok: bool)
    | ReadSideEnds

  predicate IsShut(t: Task) {
    t.ShutTask?
  }

  predicate AnyShut(tasks: seq<Task>) {
    exists k :: 0 <= k < |tasks| && IsShut(tasks[k])
  }

  function OnTask(w: World, t: Task, limit: nat, ok: bool): World {
    match t
    case WriteTask(b) =>
      w.(c := RunWrite(w.c, b, limit, ok), taken := if Live(w.c) && !w.c.shutRequested then w.taken + b else w.taken)
    case ShutTask(upTo) =>
      w.(c := RunShutdown(w.c, ok), asked := if Live(w.c) && w.asked.None? then Some(upTo) else w.asked)
    case CloseTask(upTo) =>
      w.(c := RunClose(w.c), closing := if Live(w.c) && w.closing.None? then Some(upTo) else w.closing)
    case ForceTask(reset) => w.(c := RunForceClose(w.c, reset))
  }

  function Step(w: World, m: Move, limit: nat): World {
    match m
    case CallWrite(b) =>
      if !Live(w.c) || w.c.shutRequested || b == [] then w
      else
        w.(strand := w.strand + [WriteTask(b)], accepted := if AnyShut(w.strand) then w.accepted else w.accepted + b)
    case CallShutdown => w.(strand := w.strand + [ShutTask(w.accepted)])
    case CallClose => w.(strand := w.strand + [CloseTask(w.accepted)])
    case CallForceClose(reset) => w.(strand := w.strand + [ForceTask(reset)])
    case RunTask(ok) => if w.strand == [] then w else OnTask(w.(strand := w.strand[1..]), w.strand[0], limit, ok)
    case WriteDone(r, ok) => if w.c.inFlight.None? then w else w.(c := Complete(w.c, r, limit, ok))
    case ReadSideEnds => w.(c := Broken(w.c))
  }

  function Run(moves: seq<Move>, limit: nat): World {
    if moves == [] then START else Step(Run(moves[..|moves| - 1], limit), moves[|moves| - 1], limit)
  }

  /** The bytes of the posted writes that will still be taken: those ahead of any shutdown. */
  function Coming(tasks: seq<Task>, shut: bool): seq<Byte> {
    if tasks == [] || shut then []
    else
      match tasks[0]
      case WriteTask(b) => b + Coming(tasks[1..], false)
      case ShutTask(_) => []
      case _ => Coming(tasks[1..], false)
  }

  /** A request's record is what will have been taken when its turn comes. */
  ghost predicate Recorded(taken: seq<Byte>, strand: seq<Task>, shut: bool) {
    forall k :: 0 <= k < |strand| && (strand[k].ShutTask? || strand[k].CloseTask?) ==>
                  strand[k].upTo == taken + Coming(strand[..k], shut)
  }

  ghost predicate Requests(w: World) {
    && (Live(w.c) ==> w.accepted == w.taken + Coming(w.strand, w.c.shutRequested))
    && (Live(w.c) ==> Recorded(w.taken, w.strand, w.c.shutRequested))
    && (forall k :: 0 <= k < |w.strand| && w.strand[k].WriteTask? ==> w.strand[k].b != [])
  }

  ghost predicate Promises(w: World) {
    && (Live(w.c) || w.c.clean ==> w.taken == Flow(w.c))
    && (Live(w.c) ==> (w.asked.Some? <==> w.c.shutRequested))
    && (Live(w.c) ==> (w.closing.Some? <==> w.c.phase == Disconnecting))
    && (Live(w.c) || w.c.clean ==> w.asked.Some? ==> w.asked.value == w.taken)
    && (Live(w.c) || w.c.clean ==> w.closing.Some? ==> w.closing.value <= w.taken)
    && (!Live(w.c) && w.c.clean ==> w.closing.Some?)
  }

  ghost predicate Inv(w: World) {
    Wired(w.c) && Requests(w) && Promises(w)
  }

  lemma {:induction false} ComingAppend(tasks: seq<Task>, t: Task, shut: bool)
    ensures Coming(tasks + [t], shut)
            == Coming(tasks, shut) + (if t.WriteTask? && !shut && !AnyShut(tasks) then t.b else [])
  {
    if tasks == [] {
      assert tasks + [t] == [t] && [t][1..] == [];
      assert t.WriteTask? ==> t.b + [] == t.b;
    } else {
      assert (tasks + [t])[1..] == tasks[1..] + [t];
      ComingAppend(tasks[1..], t, shut);
      if !tasks[0].ShutTask? {
        assert AnyShut(tasks) == AnyShut(tasks[1..]) by {
          assert forall k :: 0 <= k < |tasks[1..]| ==> tasks[1..][k] == tasks[k + 1];
        }
      } else {
        assert IsShut(tasks[0]);
      }
    }
  }

  lemma PostKeeps(w: World, t: Task, accepted: seq<Byte>)
    requires Inv(w)
    requires t.WriteTask? ==> t.b != [] && !w.c.shutRequested
    requires accepted == w.accepted + (if t.WriteTask? && !AnyShut(w.strand) then t.b else [])
    requires t.ShutTask? || t.CloseTask? ==> t.upTo == w.accepted
    ensures Inv(w.(strand := w.strand + [t], accepted := accepted))
  {
    var v, n := w.(strand := w.strand + [t], accepted := accepted), |w.strand|;
    ComingAppend(w.strand, t, w.c.shutRequested);
    hide Wired, Promises, Coming, AnyShut, Flow;
    assert Promises(v) by { PromisesFrame(w, v); }
    if Live(w.c) {
      forall k | 0 <= k < |v.strand| && (v.strand[k].ShutTask? || v.strand[k].CloseTask?)
        ensures v.strand[k].upTo == v.taken + Coming(v.strand[..k], v.c.shutRequested)
      {
        assert v.strand[..k] == w.strand[..k];
        if k == n {
          assert w.strand[..n] == w.strand;
        }
      }
      assert v.accepted == v.taken + Coming(v.strand, v.c.shutRequested);
    }
  }

  lemma PromisesFrame(w: World, v: World)
    requires Promises(w) && v.c == w.c && v.taken == w.taken && v.asked == w.asked && v.closing == w.closing
    ensures Promises(v)
  {
  }

  /** Taking the first task off: what its turn adds to `taken`, later records no longer have to predict. */
  lemma PopKeeps(w: World, v: World)
    requires Inv(w) && w.strand != [] && v.strand == w.strand[1..] && v.accepted == w.accepted
    requires Live(v.c) ==> Live(w.c)
    requires var t := w.strand[0];
             && v.taken == (if t.WriteTask? && Live(w.c) && !w.c.shutRequested then w.taken + t.b else w.taken)
             && (Live(v.c) ==> v.c.shutRequested == (w.c.shutRequested || t.ShutTask?))
    ensures Requests(v)
    ensures Live(w.c) && (w.strand[0].ShutTask? || w.strand[0].CloseTask?) ==> w.strand[0].upTo == w.taken
  {
    hide Wired, Promises, Flow;
    var t := w.strand[0];
    assert w.strand[..0] == [];
    assert w.taken + [] == w.taken;
    if Live(v.c) {
      forall k | 0 <= k < |v.strand| && (v.strand[k].ShutTask? || v.strand[k].CloseTask?)
        ensures v.strand[k].upTo == v.taken + Coming(v.strand[..k], v.c.shutRequested)
      {
        assert w.strand[k + 1] == v.strand[k];
        assert w.strand[..k + 1][1..] == v.strand[..k];
        ComingFirst(w, t, w.strand[..k + 1], v);
      }
      ComingFirst(w, t, w.strand, v);
    }
  }

  lemma ComingFirst(w: World, t: Task, tasks: seq<Task>, v: World)
    requires tasks != [] && tasks[0] == t
    requires v.taken == (if t.WriteTask? && !w.c.shutRequested then w.taken + t.b else w.taken)
    requires v.c.shutRequested == (w.c.shutRequested || t.ShutTask?)
    ensures w.taken + Coming(tasks, w.c.shutRequested) == v.taken + Coming(tasks[1..], v.c.shutRequested)
  {
    if t.WriteTask? && !w.c.shutRequested {
      assert w.taken + (t.b + Coming(tasks[1..], false)) == w.taken + t.b + Coming(tasks[1..], false);
    }
  }

  lemma RunTaskKeeps(w: World, limit: nat, ok: bool)
    requires Inv(w) && w.strand != []
    ensures Inv(Step(w, RunTask(ok), limit))
  {
    var t, v := w.strand[0], Step(w, RunTask(ok), limit);
    match t {
      case WriteTask(b) =>
        WriteKeeps(w.c, b, limit, ok);
        hide RunWrite, Wired, Flow;
        PopKeeps(w, v);
        hide Requests, Coming;
      case ShutTask(upTo) =>
        ShutdownKeeps(w.c, ok);
        assert Flow(w.c) + [] == Flow(w.c);
        DeadIsDone(w.c);
        hide RunShutdown, Wired, Flow;
        PopKeeps(w, v);
        hide Requests, Coming;
      case CloseTask(upTo) =>
        if Live(w.c) {
          CloseKeeps(w.c);
        }
        hide RunClose, Wired, Flow;
        PopKeeps(w, v);
        hide Requests, Coming;
      case ForceTask(reset) =>
        ForceKeeps(w.c, reset);
        hide RunForceClose, Wired, Flow;
        PopKeeps(w, v);
        hide Requests, Coming;
    }
  }

  lemma DeadIsDone(c: Conn)
    requires Wired(c)
    ensures !Live(c) ==> c.shutRequested
  {
  }

  lemma ForceKeeps(c: Conn, reset: bool)
    requires Wired(c)
    ensures var d := RunForceClose(c, reset);
            Wired(d) && !Live(d) && (if Live(c) then !d.clean else d == c)
  {
  }

  lemma BrokenKeeps(c: Conn)
    requires Wired(c)
    ensures var d := Broken(c);
            Wired(d) && (d == c || (!Live(d) && !d.clean))
  {
  }

  lemma DoneKeeps(w: World, r: Result, limit: nat, ok: bool)
    requires Inv(w) && w.c.inFlight.Some?
    ensures Inv(w.(c := Complete(w.c, r, limit, ok)))
  {
    CompleteKeeps(w.c, r, limit, ok);
    assert Flow(w.c) + [] == Flow(w.c);
    hide Complete, Coming, Flow, Wired;
  }

  lemma BreakKeeps(w: World)
    requires Inv(w)
    ensures Inv(w.(c := Broken(w.c)))
  {
    BrokenKeeps(w.c);
    hide Broken, Coming, Wired, Flow;
  }

  lemma StepKeeps(w: World, m: Move, limit: nat)
    requires Inv(w)
    ensures Inv(Step(w, m, limit))
  {
    hide Inv, AnyShut, Complete, Broken, OnTask;
    match m {
      case CallWrite(b) =>
        if Live(w.c) && !w.c.shutRequested && b != [] {
          assert w.accepted + [] == w.accepted;
          PostKeeps(w, WriteTask(b), Step(w, m, limit).accepted);
        }
      case CallShutdown =>
        assert w.accepted + [] == w.accepted;
        PostKeeps(w, ShutTask(w.accepted), w.accepted);
      case CallClose =>
        assert w.accepted + [] == w.accepted;
        PostKeeps(w, CloseTask(w.accepted), w.accepted);
      case CallForceClose(reset) =>
        assert w.accepted + [] == w.accepted;
        PostKeeps(w, ForceTask(reset), w.accepted);
      case RunTask(ok) => if w.strand != [] { RunTaskKeeps(w, limit, ok); }
      case WriteDone(r, ok) => if w.c.inFlight.Some? { DoneKeeps(w, r, limit, ok); }
      case ReadSideEnds => BreakKeeps(w);
    }
  }

  lemma {:induction false} RunInv(moves: seq<Move>, limit: nat)
    ensures Inv(Run(moves, limit))
  {
    if moves != [] {
      RunInv(moves[..|moves| - 1], limit);
      hide Step, Inv;
      StepKeeps(Run(moves[..|moves| - 1], limit), moves[|moves| - 1], limit);
    }
  }

  /**
   * No end of stream overtakes data. In every run without a failure, when the
   * stream has been ended the socket has taken, in order, exactly the bytes of
   * the writes accepted before the shutdown was requested; or, when a graceful
   * close ended it, at least those accepted before the close was requested.
   */
  lemma EndOfStreamIsComplete(moves: seq<Move>, limit: nat)
    requires Run(moves, limit).c.clean && Run(moves, limit).c.fin.Some?
    ensures var w := Run(moves, limit);
            && w.c.fin == Some(w.c.written)
            && (w.asked.Some? || w.closing.Some?)
            && (w.asked.Some? ==> w.c.written == w.asked.value)
            && (w.closing.Some? ==> w.closing.value <= w.c.written)
  {
    RunInv(moves, limit);
    hide Run, Requests;
    var c := Run(moves, limit).c;
    assert Joined([]) == [];
    assert c.written + [] + [] == c.written;
  }

  /** While the connection lives, what it has taken on is written, in flight or queued, in the order handed over. */
  lemma NothingIsReordered(moves: seq<Move>, limit: nat)
    requires Live(Run(moves, limit).c)
    ensures var w := Run(moves, limit);
            w.c.written + Outstanding(w.c) + Joined(w.c.queue) + Coming(w.strand, w.c.shutRequested) == w.accepted
  {
    RunInv(moves, limit);
  }

  /** In every run, failures, forced closes and throwing callbacks included, the byte count is exact. */
  lemma AccountingIsExact(moves: seq<Move>, limit: nat)
    ensures var c := Run(moves, limit).c; c.bufferBytes == Total(c.queue) + |Outstanding(c)| >= 0
  {
    RunInv(moves, limit);
  }

  /**
   * Nothing waits for nothing: a close or shutdown that is still owed, in a run
   * without a failure, has a write in flight that will bring it on; and a
   * writer kept waiting at the limit has one too, unless it asked to be called
   * again.
   */
  lemma WhatIsOwedIsDriven(moves: seq<Move>, limit: nat)
    requires Live(Run(moves, limit).c)
    ensures var w := Run(moves, limit);
            && (w.closing.Some? ==> w.c.inFlight.Some?)
            && (w.c.clean && w.asked.Some? && w.c.fin.None? ==> w.c.inFlight.Some?)
            && (w.c.watermark ==> w.c.inFlight.Some? || w.c.deferred)
  {
    RunInv(moves, limit);
  }

  // ---------------------------------------------------------------------------
  // Whether a refused writer is woken
  // ---------------------------------------------------------------------------

  /** The run goes on from `w`. */
  function After(w: World, more: seq<Move>, limit: nat): World {
    if more == [] then w else Step(After(w, more[..|more| - 1], limit), more[|more| - 1], limit)
  }

  /** The next task on the strand is a write that will be taken. */
  predicate WriteIsNext(w: World) {
    w.strand != [] && w.strand[0].WriteTask? && Live(w.c) && !w.c.shutRequested
  }

  /** The move runs a write task that finds the count at the limit. */
  predicate Raises(w: World, m: Move, limit: nat) {
    m.RunTask? && WriteIsNext(w) && w.c.bufferBytes + |w.strand[0].b| >= limit
  }

  /** Without a failure, the callback has been asked since, or the write in flight will bring it on. */
  ghost predicate AskedOrDue(c: Conn, since: nat) {
    c.asks >= since && (c.clean ==> c.asks > since || (Live(c) && c.watermark && c.inFlight.Some?))
  }

  /** Only the callback's answers touch the count of calls, and lower the watermark. */
  ghost predicate Unasked(c: Conn, d: Conn) {
    d.asks == c.asks && d.watermark == c.watermark && (d.clean ==> c.clean)
  }

  lemma DoCloseUnasked(c: Conn, abortive: bool)
    ensures Unasked(c, DoClose(c, abortive))
  {
    hide Total;
  }

  lemma MaybeShutdownUnasked(c: Conn, ok: bool)
    ensures Unasked(c, MaybeShutdown(c, ok))
  {
  }

  lemma DoWriteUnasked(c: Conn, ok: bool)
    ensures Unasked(c, DoWrite(c, ok))
    ensures c.queue != [] ==> DoWrite(c, ok).inFlight.Some? && (Live(c) ==> Live(DoWrite(c, ok)))
  {
    var d := c.(inProgress := false);
    MaybeShutdownUnasked(d, ok);
    DoCloseUnasked(MaybeShutdown(d, ok), false);
    hide MaybeShutdown, DoClose;
  }

  lemma RunWriteUnasked(c: Conn, b: seq<Byte>, limit: nat, ok: bool)
    ensures var d, raised := RunWrite(c, b, limit, ok), Live(c) && !c.shutRequested && c.bufferBytes + |b| >= limit;
            && d.asks == c.asks && (d.clean ==> c.clean)
            && (b != [] ==> d.watermark == (c.watermark || raised))
            && (b == [] ==> d == c)
            && (Live(c) && c.inFlight.Some? && c.inProgress ==> Live(d) && d.inFlight.Some?)
  {
    if b != [] {
      var e := c.(bufferBytes := c.bufferBytes + |b|, watermark := c.watermark || c.bufferBytes + |b| >= limit,
                  queue := c.queue + [b]);
      DoWriteUnasked(e, ok);
      hide DoWrite;
    }
  }

  lemma RunShutdownUnasked(c: Conn, ok: bool)
    ensures var d := RunShutdown(c, ok); Unasked(c, d) && Live(d) == Live(c) && d.inFlight == c.inFlight
  {
  }

  lemma RunCloseUnasked(c: Conn)
    ensures var d := RunClose(c);
            Unasked(c, d) && d.inFlight == c.inFlight && (c.inProgress && Live(c) ==> Live(d))
  {
    hide Total;
  }

  lemma RunForceCloseUnasked(c: Conn, reset: bool)
    ensures var d := RunForceClose(c, reset); Unasked(c, d) && (d == c || !d.clean)
  {
    hide Total;
  }

  lemma BrokenUnasked(c: Conn)
    ensures var d := Broken(c); Unasked(c, d) && (d == c || !d.clean)
  {
    hide Total;
  }

  /** What a task does to the callback's count, the watermark, and a write in flight. */
  lemma TaskUnasked(w: World, limit: nat, ok: bool)
    requires w.strand != [] && (w.strand[0].WriteTask? ==> w.strand[0].b != [])
    ensures var d := Step(w, RunTask(ok), limit).c;
            && d.asks == w.c.asks && (d.clean ==> w.c.clean)
            && d.watermark == (w.c.watermark || Raises(w, RunTask(ok), limit))
            && (d.clean && Live(w.c) && w.c.inFlight.Some? && w.c.inProgress ==> Live(d) && d.inFlight.Some?)
  {
    hide RunWrite, RunShutdown, RunClose, RunForceClose;
    match w.strand[0]
    case WriteTask(b) => RunWriteUnasked(w.c, b, limit, ok);
    case ShutTask(_) => RunShutdownUnasked(w.c, ok);
    case CloseTask(_) => RunCloseUnasked(w.c);
    case ForceTask(reset) => RunForceCloseUnasked(w.c, reset);
  }

  lemma FaultUnasked(c: Conn)
    ensures Unasked(c, CallbackFault(c))
  {
    var d := c.(clean := false);
    DoCloseUnasked(d.(phase := Disconnecting), false);
    hide DoClose;
  }

  lemma AskedAsks(c: Conn, cb: Callback, ok: bool)
    ensures var d := Asked(c, cb, ok);
            d.asks == c.asks + 1 && (d.clean ==> c.clean)
  {
    var x := Answered(c, cb);
    AnsweredAsks(c, cb);
    hide DoWrite, CallbackFault, Answered;
    if cb == Throws {
      FaultUnasked(x);
    } else {
      DoWriteUnasked(x, ok);
    }
  }

  lemma AnsweredAsks(c: Conn, cb: Callback)
    ensures Answered(c, cb).asks == c.asks + 1 && Answered(c, cb).clean == c.clean
  {
  }

  lemma DrainedAsks(c: Conn, cb: Callback, limit: nat, ok: bool)
    requires c.bufferBytes == Total(c.queue)
    ensures var d := Drained(c, cb, limit, ok);
            && d.asks >= c.asks && (d.clean ==> c.clean)
            && (!c.watermark ==> d.asks == c.asks && !d.watermark)
            && (Live(c) && c.watermark ==> d.asks > c.asks || (Live(d) && d.watermark && d.inFlight.Some?))
  {
    assert c.queue == [] ==> Total(c.queue) == 0;
    hide Total, DoWrite, Asked;
    AskedAsks(c, cb, ok);
    DoWriteUnasked(c, ok);
  }

  lemma CompleteAsks(c: Conn, r: Result, limit: nat, ok: bool)
    requires Wired(c) && c.inFlight.Some?
    ensures var d := Complete(c, r, limit, ok);
            && d.asks >= c.asks && (d.clean ==> c.clean)
            && (!c.watermark ==> d.asks == c.asks && !d.watermark)
            && (d.clean && Live(c) && c.watermark ==> d.asks > c.asks || (Live(d) && d.watermark && d.inFlight.Some?))
  {
    hide Total, Drained;
    match r
    case Failed(_) =>
    case Wrote(cb) =>
      var b := c.inFlight.value;
      var e := c.(inFlight := None, bufferBytes := c.bufferBytes - |b|, written := c.written + b);
      assert Complete(c, r, limit, ok) == Drained(e, cb, limit, ok);
      DrainedAsks(e, cb, limit, ok);
  }

  lemma StaysAskedOrDue(w: World, m: Move, limit: nat, since: nat)
    requires Wired(w.c) && Requests(w) && AskedOrDue(w.c, since)
    ensures AskedOrDue(Step(w, m, limit).c, since)
  {
    hide OnTask, Complete, Broken, Total, Coming, AnyShut;
    match m {
      case RunTask(ok) => if w.strand != [] { TaskUnasked(w, limit, ok); }
      case WriteDone(r, ok) => if w.c.inFlight.Some? { CompleteAsks(w.c, r, limit, ok); }
      case ReadSideEnds => BrokenUnasked(w.c);
      case _ =>
    }
  }

  lemma {:induction false} AfterAskedOrDue(w: World, more: seq<Move>, limit: nat, since: nat)
    requires Inv(w) && AskedOrDue(w.c, since)
    ensures Inv(After(w, more, limit)) && AskedOrDue(After(w, more, limit).c, since)
  {
    if more != [] {
      var n := |more| - 1;
      AfterAskedOrDue(w, more[..n], limit, since);
      hide Step, AskedOrDue, Requests, Promises, Wired;
      StepKeeps(After(w, more[..n], limit), more[n], limit);
      StaysAskedOrDue(After(w, more[..n], limit), more[n], limit, since);
    }
  }

  lemma StaysUnasked(w: World, m: Move, limit: nat)
    requires Wired(w.c) && Requests(w) && !w.c.watermark && !Raises(w, m, limit)
    ensures var d := Step(w, m, limit).c; !d.watermark && d.asks == w.c.asks
  {
    hide OnTask, Complete, Broken, Total, Coming, AnyShut;
    match m {
      case RunTask(ok) => if w.strand != [] { TaskUnasked(w, limit, ok); }
      case WriteDone(r, ok) => if w.c.inFlight.Some? { CompleteAsks(w.c, r, limit, ok); }
      case ReadSideEnds => BrokenUnasked(w.c);
      case _ =>
    }
  }

  lemma {:induction false} AfterUnasked(w: World, more: seq<Move>, limit: nat)
    requires Inv(w) && !w.c.watermark
    requires forall k :: 0 <= k < |more| ==> !Raises(After(w, more[..k], limit), more[k], limit)
    ensures var v := After(w, more, limit); Inv(v) && !v.c.watermark && v.c.asks == w.c.asks
  {
    if more != [] {
      var n := |more| - 1;
      var init := more[..n];
      assert forall k :: 0 <= k < n ==> init[..k] == more[..k];
      AfterUnasked(w, init, limit);
      var v := After(w, init, limit);
      assert !Raises(v, more[n], limit) && After(w, more, limit) == Step(v, more[n], limit);
      hide Step, Requests, Promises, Wired, Raises, After;
      StepKeeps(v, more[n], limit);
      StaysUnasked(v, more[n], limit);
    }
  }

  lemma WriteTaskRaises(w: World, limit: nat, ok: bool)
    requires Inv(w) && WriteIsNext(w)
    ensures var c, d := w.c, Step(w, RunTask(ok), limit).c;
            && Live(d) && d.inFlight.Some? && d.asks == c.asks
            && (d.watermark <==> c.watermark || Raises(w, RunTask(ok), limit))
  {
    TaskUnasked(w, limit, ok);
    var c, b := w.c, w.strand[0].b;
    var e := c.(bufferBytes := c.bufferBytes + |b|, watermark := c.watermark || c.bufferBytes + |b| >= limit,
                queue := c.queue + [b]);
    DoWriteUnasked(e, ok);
    hide Promises, Total, Joined, DoWrite, Coming;
  }

  /**
   * A refused writer waits for the writable callback. The refusal is judged
   * when the call is made, but remembered only when its task runs: if the
   * watermark is up by then, or the task finds the count at the limit, the
   * callback has been called by the time the connection has drained, however
   * the run goes on without a failure.
   */
  lemma RefusalIsAnswered(moves: seq<Move>, ok: bool, more: seq<Move>, limit: nat)
    requires WriteIsNext(Run(moves, limit))
    requires Run(moves, limit).c.watermark || Raises(Run(moves, limit), RunTask(ok), limit)
    ensures var w := Run(moves, limit); var v := After(Step(w, RunTask(ok), limit), more, limit);
            v.c.clean && v.c.inFlight.None? ==> v.c.asks > w.c.asks
  {
    var w := Run(moves, limit);
    RunInv(moves, limit);
    WriteTaskRaises(w, limit, ok);
    StepKeeps(w, RunTask(ok), limit);
    hide Step, Inv, Run;
    AfterAskedOrDue(Step(w, RunTask(ok), limit), more, limit, w.c.asks);
  }

  /**
   * The exact condition. As long as no later write finds the count at the
   * limit, a writer is called back once everything has drained if and only if
   * its own task found it there or the watermark was up already.
   */
  lemma RefusalIsAnsweredExactly(moves: seq<Move>, ok: bool, more: seq<Move>, limit: nat)
    requires WriteIsNext(Run(moves, limit))
    requires var u := Step(Run(moves, limit), RunTask(ok), limit);
             && After(u, more, limit).c.clean && After(u, more, limit).c.inFlight.None?
             && forall k :: 0 <= k < |more| ==> !Raises(After(u, more[..k], limit), more[k], limit)
    ensures var w := Run(moves, limit); var v := After(Step(w, RunTask(ok), limit), more, limit);
            v.c.asks > w.c.asks <==> w.c.watermark || w.c.bufferBytes + |w.strand[0].b| >= limit
  {
    var w := Run(moves, limit);
    if w.c.watermark || Raises(w, RunTask(ok), limit) {
      RefusalIsAnswered(moves, ok, more, limit);
    } else {
      RunInv(moves, limit);
      WriteTaskRaises(w, limit, ok);
      StepKeeps(w, RunTask(ok), limit);
      hide Step, Inv, Run, After;
      AfterUnasked(Step(w, RunTask(ok), limit), more, limit);
    }
  }

  /**
   * Otherwise the wake-up is lost: the write in flight completes between the
   * refused call and its task, everything drains, and the callback is not asked
   * once, whatever it would have answered.
   */
  lemma RefusalCanBeForgotten(first: Callback, second: Callback)
    ensures var busy := Run([CallWrite([1, 2, 3])] + [RunTask(true)], 4);
            Refuses(busy.c, [4, 5], 4) && !Refuses(START.c, [1, 2, 3], 4)
    ensures var w := Run([CallWrite([1, 2, 3])] + [RunTask(true)] + [CallWrite([4, 5])]
                         + [WriteDone(Wrote(first), true)] + [RunTask(true)] + [WriteDone(Wrote(second), true)], 4);
            && w.c.written == [1, 2, 3, 4, 5] && w.c.queue == [] && w.c.inFlight == None && w.strand == []
            && w.c.clean && w.c.phase == Connected && !w.c.watermark && !w.c.deferred && w.c.asks == 0
  {
    var m1 := [CallWrite([1, 2, 3])];
    assert Run([], 4) == START && [] + m1 == m1;
    hide Run;
    var m2 := m1 + [RunTask(true)];
    var m3 := m2 + [CallWrite([4, 5])];
    var m4 := m3 + [WriteDone(Wrote(first), true)];
    var m5 := m4 + [RunTask(true)];
    RunSnoc([], CallWrite([1, 2, 3]), 4);
    RunSnoc(m1, RunTask(true), 4);
    RunSnoc(m2, CallWrite([4, 5]), 4);
    RunSnoc(m3, WriteDone(Wrote(first), true), 4);
    RunSnoc(m4, RunTask(true), 4);
    RunSnoc(m5, WriteDone(Wrote(second), true), 4);
    BusySteps();
    ForgottenSteps(first, second);
    hide Step;
  }

  lemma RunSnoc(moves: seq<Move>, m: Move, limit: nat)
    ensures Run(moves + [m], limit) == Step(Run(moves, limit), m, limit)
  {
    assert (moves + [m])[..|moves|] == moves;
  }

  const BUSY := World(FRESH.(inFlight := Some([1, 2, 3]), inProgress := true, bufferBytes := 3),
                      [], [1, 2, 3], [1, 2, 3], None, None)

  lemma BusySteps()
    ensures Step(Step(START, CallWrite([1, 2, 3]), 4), RunTask(true), 4) == BUSY
  {
    var w1 := START.(strand := [WriteTask([1, 2, 3])], accepted := [1, 2, 3]);
    assert !AnyShut([]);
    assert Step(START, CallWrite([1, 2, 3]), 4) == w1;
    assert [[1, 2, 3]][1..] == [];
  }

  lemma ForgottenSteps(first: Callback, second: Callback)
    ensures var w := Step(Step(Step(Step(BUSY, CallWrite([4, 5]), 4), WriteDone(Wrote(first), true), 4),
                               RunTask(true), 4), WriteDone(Wrote(second), true), 4);
            && w.c == FRESH.(written := [1, 2, 3, 4, 5]) && w.strand == []
  {
    var data: seq<Byte> := [1, 2, 3, 4, 5];
    var w3 := BUSY.(strand := [WriteTask([4, 5])], accepted := data);
    assert !AnyShut([]);
    assert Step(BUSY, CallWrite([4, 5]), 4) == w3;
    var w4 := w3.(c := FRESH.(written := [1, 2, 3]));
    assert Step(w3, WriteDone(Wrote(first), true), 4) == w4;
    var w5 := World(FRESH.(inFlight := Some([4, 5]), inProgress := true, bufferBytes := 2, written := [1, 2, 3]),
                    [], data, data, None, None);
    assert Step(w4, RunTask(true), 4) == w5;
  }

  // ---------------------------------------------------------------------------
  // Single steps, by what they start from
  // ---------------------------------------------------------------------------

  /** In every run a write is refused exactly if the bytes not yet written would come to more than the limit. */
  lemma RefusedExactly(moves: seq<Move>, b: seq<Byte>, limit: nat)
    ensures var c := Run(moves, limit).c;
            Refuses(c, b, limit) <==> Total(c.queue) + |Outstanding(c)| + |b| > limit
  {
    AccountingIsExact(moves, limit);
    hide Run;
  }

  /**
   * When a write completes, the writable callback is called exactly if the
   * watermark is up and no more than half the limit is left to write; only an
   * answer that everything was flushed lowers the watermark, and only a
   * callback that throws ends the connection.
   */
  lemma AskedExactly(c: Conn, cb: Callback, limit: nat, ok: bool)
    requires Wired(c) && c.inFlight.Some? && c.phase == Connected
    ensures var d, asked := Complete(c, Wrote(cb), limit, ok), c.watermark && Total(c.queue) <= limit / 2;
            && d.asks == c.asks + (if asked then 1 else 0)
            && d.watermark == (c.watermark && !(asked && cb == Flushed))
            && d.written == c.written + c.inFlight.value
            && (Live(d) <==> !(asked && cb == Throws))
  {
    var b := c.inFlight.value;
    var e := c.(inFlight := None, bufferBytes := c.bufferBytes - |b|, written := c.written + b);
    assert Complete(c, Wrote(cb), limit, ok) == Drained(e, cb, limit, ok);
    DrainedExactly(e, cb, limit, ok);
    hide Complete, Drained;
  }

  lemma DrainedExactly(e: Conn, cb: Callback, limit: nat, ok: bool)
    requires e.bufferBytes == Total(e.queue) && e.phase == Connected
    ensures var d, asked := Drained(e, cb, limit, ok), e.watermark && Total(e.queue) <= limit / 2;
            && d.asks == e.asks + (if asked then 1 else 0)
            && d.watermark == (e.watermark && !(asked && cb == Flushed))
            && d.written == e.written
            && (Live(d) <==> !(asked && cb == Throws))
  {
    var x := Answered(e, cb);
    AnsweredFrame(e, cb);
    WriteFrame(e, ok);
    WriteFrame(x, ok);
    FaultFrame(x);
    hide Total, DoWrite, CallbackFault, Answered;
  }

  lemma AnsweredFrame(e: Conn, cb: Callback)
    ensures var x := Answered(e, cb);
            && x.asks == e.asks + 1 && x.watermark == (e.watermark && cb != Flushed)
            && x.written == e.written && x.phase == e.phase
  {
  }

  lemma WriteFrame(c: Conn, ok: bool)
    requires c.phase == Connected
    ensures var d := DoWrite(c, ok);
            d.asks == c.asks && d.watermark == c.watermark && d.written == c.written && Live(d)
  {
    ShutdownFrame(c.(inProgress := false), ok);
    hide Total, DoClose, MaybeShutdown;
  }

  lemma ShutdownFrame(c: Conn, ok: bool)
    ensures var d := MaybeShutdown(c, ok);
            d.asks == c.asks && d.watermark == c.watermark && d.written == c.written && d.phase == c.phase
  {
  }

  lemma FaultFrame(c: Conn)
    requires c.phase == Connected
    ensures var d := CallbackFault(c);
            d.asks == c.asks && d.watermark == c.watermark && d.written == c.written && !Live(d)
  {
    hide Total;
  }

  /** What the peer is told of the end: what it was told before, and else the end of what was written, unless reset. */
  function Ending(c: Conn, written: seq<Byte>, reset: bool): Option<seq<Byte>> {
    if c.fin.Some? then c.fin else if reset then None else Some(written)
  }

  /** A forced close drops what is queued at once and ends the stream where it is; a reset does not end it. */
  lemma ForcedExactly(c: Conn, reset: bool)
    requires Wired(c) && Live(c)
    ensures var d := RunForceClose(c, reset);
            && !Live(d) && !d.clean && d.queue == [] && d.inFlight == c.inFlight && d.written == c.written
            && d.bufferBytes == |Outstanding(c)| && d.fin == Ending(c, c.written, reset)
  {
    assert Total([]) == 0;
  }

  /** A failed write keeps what it managed to write, refunds everything, and closes the connection. */
  lemma FailureExactly(c: Conn, partial: nat, limit: nat, ok: bool)
    requires Wired(c) && c.inFlight.Some? && Live(c)
    ensures var d, written := Complete(c, Failed(partial), limit, ok),
                    c.written + c.inFlight.value[..Min(partial, |c.inFlight.value|)];
            && !Live(d) && !d.clean && d.queue == [] && d.inFlight == None && d.written == written
            && d.bufferBytes == 0 && d.fin == Ending(c, written, false)
  {
    hide Drained;
    assert Total([]) == 0;
  }
}
