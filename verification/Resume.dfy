/**
 * Resuming a tunnel after a disconnect: the client reports its byte offsets,
 * the server compares them with its own and either continues the stream or
 * declines. The two ends are joined by ordered channels that lose whatever is
 * in flight when the friend disconnects.
 */
module Resume {
  import opened Bytes
  import opened Protocol

  datatype TunnelState = Connecting | Connected | Disconnecting | Closed | Errored

  /** The server's tunnel: everything it put on the wire and everything it took off it. */
  datatype Held = Held(state: TunnelState, aborted: bool, emitted: seq<Byte>, received: seq<Byte>)

  datatype Config = Config(enabled: bool, closeOnGap: bool)

  /** The client's own offsets at the moment it sends the request. */
  datatype Request = Request(recv: nat, send: nat)

  datatype Answer = Answer(recv: nat, send: nat, status: ResumeStatus)

  predicate HaveGap(localSend: nat, peerRecv: nat, localRecv: nat, peerSend: nat) {
    localSend > peerRecv || peerSend > localRecv
  }

  predicate Resumable(h: Held) {
    (h.state == Connected || h.state == Disconnecting) && !h.aborted
  }

  /** The tunnel the server keeps and its answer; `abortsNow` is an abort that races the comparison. */
  function Handle(cfg: Config, held: Option<Held>, q: Request, abortsNow: bool): (Option<Held>, Answer) {
    if !cfg.enabled then (held, Answer(0, 0, UnknownStatus))
    else if held.None? then (None, Answer(0, 0, TooOld))
    else if !Resumable(held.value) then (None, Answer(0, 0, TooOld))
    else
      var h := held.value;
      var recv, sent := |h.received|, |h.emitted|;
      if HaveGap(sent, q.recv, recv, q.send) && cfg.closeOnGap then (None, Answer(recv, sent, TooOld))
      else if abortsNow then (None, Answer(recv, sent, TooOld))
      else (held, Answer(recv, sent, Ok))
  }

  // ---------------------------------------------------------------------------
  // The two ends and the channels between them
  // ---------------------------------------------------------------------------

  datatype Item = Data(bytes: seq<Byte>) | Ask(q: Request) | Reply(a: Answer)

  datatype Client = Client(alive: bool, emitted: seq<Byte>, received: seq<Byte>)

  datatype World = World(client: Client, server: Option<Held>, toServer: seq<Item>, toClient: seq<Item>, up: bool)

  const START := World(Client(true, [], []), Some(Held(Connected, false, [], [])), [], [], true)

  datatype Move =
    | ClientEmits(bytes: seq<Byte>)
    | ServerEmits(bytes: seq<Byte>)
    | ClientAsks
    | ServerTakes(abortsNow: bool)   // the server receives the next item
    | ClientTakes                    // the client receives the next item
    | Disconnect                     // everything in flight is lost
    | Reconnect
    | ServerTurns(state: TunnelState, aborted: bool)

  function OnServer(cfg: Config, w: World, item: Item, abortsNow: bool): World {
    match item
    case Data(bytes) =>
      if w.server.Some? then w.(server := Some(w.server.value.(received := w.server.value.received + bytes))) else w
    case Ask(q) =>
      var (held, a) := Handle(cfg, w.server, q, abortsNow);
      w.(server := held, toClient := w.toClient + [Reply(a)])
    case Reply(_) => w
  }

  /** A decline ends the client's tunnel; an acceptance leaves everything as it is. */
  function OnClient(w: World, item: Item): World {
    match item
    case Data(bytes) =>
      if w.client.alive then w.(client := w.client.(received := w.client.received + bytes)) else w
    case Reply(a) => w.(client := w.client.(alive := w.client.alive && a.status == Ok))
    case Ask(_) => w
  }

  function Step(cfg: Config, w: World, m: Move): World {
    match m
    case ClientEmits(bytes) =>
      if w.up && w.client.alive then
        w.(client := w.client.(emitted := w.client.emitted + bytes), toServer := w.toServer + [Data(bytes)])
      else w
    case ServerEmits(bytes) =>
      if w.up && w.server.Some? && Resumable(w.server.value) then
        w.(server := Some(w.server.value.(emitted := w.server.value.emitted + bytes)),
           toClient := w.toClient + [Data(bytes)])
      else w
    case ClientAsks =>
      if w.up && w.client.alive then
        w.(toServer := w.toServer + [Ask(Request(|w.client.received|, |w.client.emitted|))])
      else w
    case ServerTakes(abortsNow) =>
      if w.up && w.toServer != [] then OnServer(cfg, w.(toServer := w.toServer[1..]), w.toServer[0], abortsNow) else w
    case ClientTakes =>
      if w.up && w.toClient != [] then OnClient(w.(toClient := w.toClient[1..]), w.toClient[0]) else w
    case Disconnect => w.(toServer := [], toClient := [], up := false)
    case Reconnect => w.(up := true)
    case ServerTurns(state, aborted) =>
      if w.server.Some? then
        w.(server := Some(w.server.value.(state := state, aborted := w.server.value.aborted || aborted)))
      else w
  }

  function Run(cfg: Config, moves: seq<Move>): World {
    if moves == [] then START else Step(cfg, Run(cfg, moves[..|moves| - 1]), moves[|moves| - 1])
  }

  /** The stream bytes among the items in flight. */
  function InFlight(items: seq<Item>): seq<Byte> {
    if items == [] then []
    else (match items[0] case Data(bytes) => bytes case _ => []) + InFlight(items[1..])
  }

  // ---------------------------------------------------------------------------
  // Streams with holes
  // ---------------------------------------------------------------------------

  /** `a` is `b` with some bytes left out. */
  predicate Sub(a: seq<Byte>, b: seq<Byte>) {
    || a == []
    || (b != [] && (Sub(a, b[..|b| - 1]) || (a[|a| - 1] == b[|b| - 1] && Sub(a[..|a| - 1], b[..|b| - 1]))))
  }

  lemma {:induction false} SubLength(a: seq<Byte>, b: seq<Byte>)
    requires Sub(a, b)
    ensures |a| <= |b|
    ensures |a| == |b| ==> a == b
    decreases |b|
  {
    if a != [] {
      var a1, b1 := a[..|a| - 1], b[..|b| - 1];
      if Sub(a, b1) {
        SubLength(a, b1);
      } else {
        SubLength(a1, b1);
        assert a == a1 + [a[|a| - 1]] && b == b1 + [b[|b| - 1]];
      }
    }
  }

  /** Bytes that went missing at the end of `b`. */
  lemma {:induction false} SubWiden(a: seq<Byte>, b: seq<Byte>, x: seq<Byte>)
    requires Sub(a, b)
    ensures Sub(a, b + x)
  {
    if x == [] {
      assert b + x == b;
    } else {
      SubWiden(a, b, x[..|x| - 1]);
      assert (b + x)[..|b + x| - 1] == b + x[..|x| - 1];
    }
  }

  /** Bytes that made it at the end of both. */
  lemma {:induction false} SubExtend(a: seq<Byte>, b: seq<Byte>, x: seq<Byte>)
    requires Sub(a, b)
    ensures Sub(a + x, b + x)
  {
    if x == [] {
      assert a + x == a && b + x == b;
    } else {
      SubExtend(a, b, x[..|x| - 1]);
      assert (a + x)[..|a + x| - 1] == a + x[..|x| - 1];
      assert (b + x)[..|b + x| - 1] == b + x[..|x| - 1];
    }
  }

  /** Losing a tail of what was on its way leaves a stream with holes. */
  lemma {:induction false} SubDrop(a: seq<Byte>, x: seq<Byte>, b: seq<Byte>)
    requires Sub(a + x, b)
    ensures Sub(a, b)
    decreases |b|
  {
    if x == [] {
      assert a + x == a;
    } else {
      var ax, b1 := a + x, b[..|b| - 1];
      assert b == b1 + [b[|b| - 1]];
      if Sub(ax, b1) {
        SubDrop(a, x, b1);
      } else {
        assert ax[..|ax| - 1] == a + x[..|x| - 1];
        SubDrop(a, x[..|x| - 1], b1);
      }
      SubWiden(a, b1, [b[|b| - 1]]);
    }
  }

  lemma {:induction false} InFlightAppend(p: seq<Item>, q: seq<Item>)
    ensures InFlight(p + q) == InFlight(p) + InFlight(q)
  {
    if p == [] {
      assert p + q == q;
    } else {
      InFlightAppend(p[1..], q);
      assert (p + q)[1..] == p[1..] + q;
    }
  }

  // ---------------------------------------------------------------------------
  // Every run
  // ---------------------------------------------------------------------------

  /** What the server has and what is on its way to it: the client's stream, with holes. */
  ghost predicate UpStream(w: World) {
    w.server.Some? ==> Sub(w.server.value.received + InFlight(w.toServer), w.client.emitted)
  }

  ghost predicate DownStream(w: World) {
    w.server.Some? ==>
      Sub(w.client.received + (if w.client.alive then InFlight(w.toClient) else []), w.server.value.emitted)
  }

  /** A request on its way splits the client's stream where it was sent. */
  ghost predicate Splits(w: World, q: Request, before: seq<Item>, after: seq<Item>) {
    && q.recv <= |w.client.received|
    && q.send <= |w.client.emitted|
    && w.client.emitted[q.send..] == InFlight(after)
    && (w.server.Some? ==> Sub(w.server.value.received + InFlight(before), w.client.emitted[..q.send]))
  }

  ghost predicate AsksSplit(w: World) {
    forall k :: 0 <= k < |w.toServer| && w.toServer[k].Ask? ==>
                  Splits(w, w.toServer[k].q, w.toServer[..k], w.toServer[k + 1..])
  }

  ghost predicate Inv(w: World) {
    UpStream(w) && DownStream(w) && AsksSplit(w)
  }

  lemma ClientEmitKeeps(w: World, bytes: seq<Byte>)
    requires Inv(w) && w.client.alive
    ensures Inv(w.(client := w.client.(emitted := w.client.emitted + bytes), toServer := w.toServer + [Data(bytes)]))
  {
    var v := w.(client := w.client.(emitted := w.client.emitted + bytes), toServer := w.toServer + [Data(bytes)]);
    InFlightAppend(w.toServer, [Data(bytes)]);
    assert InFlight([Data(bytes)]) == bytes + [] == bytes;
    if w.server.Some? {
      SubExtend(w.server.value.received + InFlight(w.toServer), w.client.emitted, bytes);
      assert v.server.value.received + InFlight(v.toServer) == w.server.value.received + InFlight(w.toServer) + bytes;
    }
    StreamsAfterEmit(w, v, bytes);
    AsksAfterEmit(w, v, bytes);
    hide UpStream, DownStream, AsksSplit;
  }

  lemma AsksAfterEmit(w: World, v: World, bytes: seq<Byte>)
    requires Inv(w)
    requires v == w.(client := w.client.(emitted := w.client.emitted + bytes), toServer := w.toServer + [Data(bytes)])
    ensures AsksSplit(v)
  {
    assert InFlight([Data(bytes)]) == bytes + [] == bytes;
    hide Sub, InFlight, UpStream, DownStream;
    forall k | 0 <= k < |w.toServer| && v.toServer[k].Ask?
      ensures Splits(v, v.toServer[k].q, v.toServer[..k], v.toServer[k + 1..])
    {
      var q := w.toServer[k].q;
      assert Splits(w, q, w.toServer[..k], w.toServer[k + 1..]);
      assert v.toServer[..k] == w.toServer[..k];
      assert v.toServer[k + 1..] == w.toServer[k + 1..] + [Data(bytes)];
      InFlightAppend(w.toServer[k + 1..], [Data(bytes)]);
      assert v.client.emitted[..q.send] == w.client.emitted[..q.send];
      assert v.client.emitted[q.send..] == w.client.emitted[q.send..] + bytes;
    }
  }

  lemma StreamsAfterEmit(w: World, v: World, bytes: seq<Byte>)
    requires Inv(w) && v.server == w.server && v.toClient == w.toClient
    requires v.client == w.client.(emitted := w.client.emitted + bytes)
    requires w.server.Some? ==>
               Sub(v.server.value.received + InFlight(v.toServer), w.client.emitted + bytes)
    ensures UpStream(v) && DownStream(v)
  {
  }

  lemma ServerEmitKeeps(w: World, bytes: seq<Byte>)
    requires Inv(w) && w.server.Some?
    ensures Inv(w.(server := Some(w.server.value.(emitted := w.server.value.emitted + bytes)),
                   toClient := w.toClient + [Data(bytes)]))
  {
    var h := w.server.value;
    InFlightAppend(w.toClient, [Data(bytes)]);
    assert InFlight([Data(bytes)]) == bytes + [] == bytes;
    if w.client.alive {
      SubExtend(w.client.received + InFlight(w.toClient), h.emitted, bytes);
      assert w.client.received + InFlight(w.toClient) + bytes == w.client.received + (InFlight(w.toClient) + bytes);
    } else {
      SubWiden(w.client.received + [], h.emitted, bytes);
    }
    hide Sub, InFlight;
    var v := w.(server := Some(h.(emitted := h.emitted + bytes)), toClient := w.toClient + [Data(bytes)]);
    assert UpStream(v) && DownStream(v);
    hide UpStream, DownStream;
    forall k | 0 <= k < |v.toServer| && v.toServer[k].Ask?
      ensures Splits(v, v.toServer[k].q, v.toServer[..k], v.toServer[k + 1..])
    {
      assert Splits(w, w.toServer[k].q, w.toServer[..k], w.toServer[k + 1..]);
    }
  }

  lemma PushSlices(items: seq<Item>, x: Item, k: nat)
    requires k <= |items|
    ensures (items + [x])[..k] == items[..k]
    ensures k < |items| ==> (items + [x])[k] == items[k] && (items + [x])[k + 1..] == items[k + 1..] + [x]
  {
  }

  lemma AskKeeps(w: World)
    requires Inv(w)
    ensures Inv(w.(toServer := w.toServer + [Ask(Request(|w.client.received|, |w.client.emitted|))]))
  {
    var ask := Ask(Request(|w.client.received|, |w.client.emitted|));
    var v, n := w.(toServer := w.toServer + [ask]), |w.toServer|;
    assert InFlight([ask]) == [] + [] == [];
    InFlightAppend(w.toServer, [ask]);
    assert InFlight(w.toServer) + [] == InFlight(w.toServer);
    hide Sub;
    forall k | 0 <= k <= n && v.toServer[k].Ask?
      ensures Splits(v, v.toServer[k].q, v.toServer[..k], v.toServer[k + 1..])
    {
      PushSlices(w.toServer, ask, k);
      if k < n {
        InFlightAppend(w.toServer[k + 1..], [ask]);
        assert InFlight(w.toServer[k + 1..]) + [] == InFlight(w.toServer[k + 1..]);
        assert Splits(w, w.toServer[k].q, w.toServer[..k], w.toServer[k + 1..]);
      } else {
        assert v.toServer[k + 1..] == [] && w.toServer[..n] == w.toServer;
        assert w.client.emitted[..|w.client.emitted|] == w.client.emitted;
      }
    }
  }

  lemma ServerTakesData(w: World, v: World)
    requires Inv(w) && w.toServer != [] && w.toServer[0].Data?
    requires v == OnServer(Config(true, true), w.(toServer := w.toServer[1..]), w.toServer[0], false)
    ensures Inv(v)
  {
    var bytes := w.toServer[0].bytes;
    if w.server.Some? {
      assert v.server.value.received + InFlight(v.toServer) == w.server.value.received + InFlight(w.toServer);
    }
    hide Sub;
    forall k | 0 <= k < |v.toServer| && v.toServer[k].Ask?
      ensures Splits(v, v.toServer[k].q, v.toServer[..k], v.toServer[k + 1..])
    {
      var m := k + 1;
      assert w.toServer[m] == v.toServer[k];
      assert Splits(w, w.toServer[m].q, w.toServer[..m], w.toServer[m + 1..]);
      assert w.toServer[..m] == [Data(bytes)] + v.toServer[..k];
      assert w.toServer[..m][1..] == v.toServer[..k];
      assert w.toServer[m + 1..] == v.toServer[k + 1..];
      if w.server.Some? {
        assert v.server.value.received + InFlight(v.toServer[..k])
            == w.server.value.received + InFlight(w.toServer[..m]);
      }
    }
  }

  /** Taking a control item, with whatever becomes of the server's tunnel. */
  lemma ServerTakesControl(w: World, v: World)
    requires Inv(w) && w.toServer != [] && !w.toServer[0].Data?
    requires v.client == w.client && v.toServer == w.toServer[1..]
    requires InFlight(v.toClient) == InFlight(w.toClient)
    requires v.server.Some? ==> v.server == w.server
    ensures Inv(v)
  {
    assert InFlight(w.toServer) == InFlight(v.toServer);
    hide Sub;
    forall k | 0 <= k < |v.toServer| && v.toServer[k].Ask?
      ensures Splits(v, v.toServer[k].q, v.toServer[..k], v.toServer[k + 1..])
    {
      var m := k + 1;
      assert w.toServer[m] == v.toServer[k];
      assert Splits(w, w.toServer[m].q, w.toServer[..m], w.toServer[m + 1..]);
      assert w.toServer[..m][1..] == v.toServer[..k];
      assert InFlight(w.toServer[..m]) == InFlight(v.toServer[..k]);
      assert w.toServer[m + 1..] == v.toServer[k + 1..];
    }
  }

  lemma ClientTakesKeeps(w: World)
    requires Inv(w) && w.toClient != []
    ensures Inv(OnClient(w.(toClient := w.toClient[1..]), w.toClient[0]))
  {
    var v := OnClient(w.(toClient := w.toClient[1..]), w.toClient[0]);
    DownAfterTake(w);
    assert v.server == w.server && v.toServer == w.toServer && v.client.emitted == w.client.emitted;
    assert |v.client.received| >= |w.client.received|;
    hide Sub, InFlight, DownStream, OnClient;
    AsksFrame(w, v);
  }

  lemma DownAfterTake(w: World)
    requires DownStream(w) && w.toClient != []
    ensures DownStream(OnClient(w.(toClient := w.toClient[1..]), w.toClient[0]))
  {
    var v := OnClient(w.(toClient := w.toClient[1..]), w.toClient[0]);
    FirstInFlight(w.toClient);
    hide Sub, InFlight;
    if w.server.Some? && w.client.alive {
      if w.toClient[0].Data? {
        var bytes, rest := w.toClient[0].bytes, InFlight(v.toClient);
        assert w.client.received + bytes + rest == w.client.received + (bytes + rest);
      } else {
        SubDrop(w.client.received, InFlight(w.toClient), w.server.value.emitted);
        assert w.client.received + [] == w.client.received;
      }
    }
  }

  lemma FirstInFlight(items: seq<Item>)
    requires items != []
    ensures InFlight(items) == (if items[0].Data? then items[0].bytes + InFlight(items[1..]) else InFlight(items[1..]))
  {
  }

  lemma AsksFrame(w: World, v: World)
    requires AsksSplit(w) && v.toServer == w.toServer && v.server == w.server
    requires v.client.emitted == w.client.emitted && |v.client.received| >= |w.client.received|
    ensures AsksSplit(v)
  {
    hide Sub, InFlight;
    forall k | 0 <= k < |v.toServer| && v.toServer[k].Ask?
      ensures Splits(v, v.toServer[k].q, v.toServer[..k], v.toServer[k + 1..])
    {
      assert Splits(w, w.toServer[k].q, w.toServer[..k], w.toServer[k + 1..]);
    }
  }

  lemma DisconnectKeeps(w: World)
    requires Inv(w)
    ensures Inv(w.(toServer := [], toClient := [], up := false))
  {
    if w.server.Some? {
      var h := w.server.value;
      SubDrop(h.received, InFlight(w.toServer), w.client.emitted);
      SubDrop(w.client.received, if w.client.alive then InFlight(w.toClient) else [], h.emitted);
      assert h.received + [] == h.received && w.client.received + [] == w.client.received;
    }
  }

  lemma StepKeeps(cfg: Config, w: World, m: Move)
    requires Inv(w)
    ensures Inv(Step(cfg, w, m))
  {
    hide Sub, Handle, InFlight;
    match m {
      case ClientEmits(bytes) => if w.client.alive { ClientEmitKeeps(w, bytes); }
      case ServerEmits(bytes) => if w.server.Some? { ServerEmitKeeps(w, bytes); }
      case ClientAsks => AskKeeps(w);
      case ServerTakes(abortsNow) => if w.toServer != [] { ServerTakeKeeps(cfg, w, abortsNow); }
      case ClientTakes => if w.toClient != [] { ClientTakesKeeps(w); }
      case Disconnect => DisconnectKeeps(w);
      case Reconnect =>
      case ServerTurns(state, aborted) =>
    }
  }

  lemma ServerTakeKeeps(cfg: Config, w: World, abortsNow: bool)
    requires Inv(w) && w.toServer != []
    ensures Inv(OnServer(cfg, w.(toServer := w.toServer[1..]), w.toServer[0], abortsNow))
  {
    var v := OnServer(cfg, w.(toServer := w.toServer[1..]), w.toServer[0], abortsNow);
    match w.toServer[0] {
      case Data(bytes) => ServerTakesData(w, v);
      case Ask(q) =>
        var a := Handle(cfg, w.server, q, abortsNow).1;
        InFlightAppend(w.toClient, [Reply(a)]);
        assert InFlight([Reply(a)]) == [] + [] == [];
        ServerTakesControl(w, v);
      case Reply(_) => ServerTakesControl(w, v);
    }
  }

  lemma {:induction false} RunInv(cfg: Config, moves: seq<Move>)
    ensures Inv(Run(cfg, moves))
  {
    if moves != [] {
      RunInv(cfg, moves[..|moves| - 1]);
      hide Step, Inv;
      StepKeeps(cfg, Run(cfg, moves[..|moves| - 1]), moves[|moves| - 1]);
    }
  }

  // ---------------------------------------------------------------------------
  // What an answer means
  // ---------------------------------------------------------------------------

  /**
   * Under on_gap=close the server answers Ok exactly when, at that point, it
   * has received every byte the client emitted before asking and the client
   * had already received, when it asked, every byte the server has emitted.
   */
  lemma OkExactly(cfg: Config, moves: seq<Move>, abortsNow: bool)
    requires cfg.enabled && cfg.closeOnGap && !abortsNow
    requires var w := Run(cfg, moves);
             w.toServer != [] && w.toServer[0].Ask? && w.server.Some? && Resumable(w.server.value)
    ensures var w := Run(cfg, moves);
            var q, h := w.toServer[0].q, w.server.value;
            && q.send <= |w.client.emitted| && q.recv <= |w.client.received|
            && (Handle(cfg, w.server, q, abortsNow).1.status == Ok
                <==> h.received == w.client.emitted[..q.send] && h.emitted == w.client.received[..q.recv])
  {
    RunInv(cfg, moves);
    hide Run, Inv;
    var w := Run(cfg, moves);
    var q, h := w.toServer[0].q, w.server.value;
    AskedOffsets(w, q, h);
    if |h.emitted| <= q.recv {
      assert w.client.received[..q.recv] == w.client.received;
    }
  }

  /** Where the offsets of the request that is next stand, against both streams. */
  lemma AskedOffsets(w: World, q: Request, h: Held)
    requires Inv(w) && w.toServer != [] && w.toServer[0] == Ask(q) && w.server == Some(h)
    ensures q.send <= |w.client.emitted| && |h.received| <= q.send
    ensures |h.received| == q.send ==> h.received == w.client.emitted[..q.send]
    ensures q.recv <= |w.client.received| <= |h.emitted|
    ensures |w.client.received| == |h.emitted| ==> w.client.received == h.emitted
    ensures w.client.emitted[q.send..] == InFlight(w.toServer)
  {
    assert Splits(w, q, w.toServer[..0], w.toServer[1..]);
    assert h.received + [] == h.received;
    assert InFlight(w.toServer) == [] + InFlight(w.toServer[1..]);
    var tail := if w.client.alive then InFlight(w.toClient) else [];
    assert Sub(w.client.received + tail, h.emitted) && Sub(h.received, w.client.emitted[..q.send]);
    hide *;
    SubLength(h.received, w.client.emitted[..q.send]);
    SubDrop(w.client.received, tail, h.emitted);
    SubLength(w.client.received, h.emitted);
  }

  /**
   * The promise of resume: when the server answers Ok under on_gap=close, no
   * byte was lost in either direction over the tunnel's whole life, and both
   * sides' receive offsets equal the opposite side's emitted offsets.
   */
  lemma OkMeansNothingLost(cfg: Config, moves: seq<Move>, abortsNow: bool)
    requires cfg.closeOnGap
    requires var w := Run(cfg, moves);
             w.toServer != [] && w.toServer[0].Ask? && Handle(cfg, w.server, w.toServer[0].q, abortsNow).1.status == Ok
    ensures Run(cfg, moves).server.Some?
    ensures var w := Run(cfg, moves);
            var q, h := w.toServer[0].q, w.server.value;
            && w.client.emitted == h.received + InFlight(w.toServer)
            && w.client.received == h.emitted
            && |h.received| == q.send && q.recv == |h.emitted|
  {
    RunInv(cfg, moves);
    hide Run, Inv, InFlight;
    var w := Run(cfg, moves);
    var q, h := w.toServer[0].q, w.server.value;
    AskedOffsets(w, q, h);
    assert w.client.emitted == w.client.emitted[..q.send] + w.client.emitted[q.send..];
  }

  /** A tunnel that lost nothing can still be declined: bytes still on their way to the client count as a gap. */
  lemma InFlightLooksLost()
    ensures exists moves: seq<Move> ::
              var cfg := Config(true, true);
              var w := Run(cfg, moves);
              && w.toServer == [Ask(Request(0, 0))] && w.server.Some?
              && w.client.received + InFlight(w.toClient) == w.server.value.emitted
              && Handle(cfg, w.server, Request(0, 0), false) == (None, Answer(0, 1, TooOld))
  {
    var cfg := Config(true, true);
    var a, b := ServerEmits([7]), ClientAsks;
    var moves := [a, b];
    assert moves[..1] == [a] && [a][..0] == [];
    assert Run(cfg, []) == START;
    var none: seq<Byte> := [];
    assert none + [7] == [7];
    var w1 := World(Client(true, [], []), Some(Held(Connected, false, [7], [])), [], [Data([7])], true);
    assert Run(cfg, [a]) == Step(cfg, START, a) == w1;
    var w2 := w1.(toServer := [Ask(Request(0, 0))]);
    assert Run(cfg, moves) == Step(cfg, w1, b) == w2;
    assert InFlight(w2.toClient) == [7] + none == [7];
  }

  /**
   * The answer itself, under either gap rule: Ok exactly for an enabled, live
   * tunnel that no abort overtook and, under on_gap=close, with neither side's
   * sent offset ahead of what the other has received. A live tunnel answers
   * with its own offsets.
   */
  lemma AnswerExactly(cfg: Config, held: Option<Held>, q: Request, abortsNow: bool)
    ensures var (kept, a) := Handle(cfg, held, q, abortsNow);
            var live := cfg.enabled && held.Some? && !held.value.aborted
                        && held.value.state in {Connected, Disconnecting};
            && (a.status == Ok
                <==> live && !abortsNow
                     && (cfg.closeOnGap ==>
                           |held.value.emitted| <= q.recv && q.send <= |held.value.received|))
            && (live ==> a.recv == |held.value.received| && a.send == |held.value.emitted|)
            && (cfg.enabled && !live ==> a == Answer(0, 0, TooOld))
            && (live && a.status != Ok ==> a.status == TooOld)
  {
  }

  /** A decline never leaves one side streaming: the server has dropped its tunnel, or has resume switched off. */
  lemma DeclineDropsTunnel(cfg: Config, held: Option<Held>, q: Request, abortsNow: bool)
    ensures var (kept, a) := Handle(cfg, held, q, abortsNow);
            && (a.status == Ok ==> kept == held && held.Some? && Resumable(held.value))
            && (a.status != Ok <==> kept.None? || !cfg.enabled)
  {
  }
}
