/** The frame codec: five header bytes [type][tunnel id][length], then the payload. */
module Protocol {
  import opened Bytes

  const FRAME_HEADER_SIZE := 5
  const MAX_PAYLOAD_SIZE := 65535
  const LOSSLESS_PACKET_BYTE: Byte := 0xA0
  const MAX_PING_ECHO_BYTES := 32

  datatype FrameType =
    | Unknown | TunnelOpen | TunnelData | TunnelClose | TunnelAck | TunnelError
    | InfoRequest | InfoReply | ResumeRequest | ResumeAck | Ping | Pong

  function TypeByte(t: FrameType): Byte {
    match t
    case Unknown => 0x00
    case TunnelOpen => 0x01
    case TunnelData => 0x02
    case TunnelClose => 0x03
    case TunnelAck => 0x04
    case TunnelError => 0x05
    case InfoRequest => 0x06
    case InfoReply => 0x07
    case ResumeRequest => 0x08
    case ResumeAck => 0x09
    case Ping => 0x10
    case Pong => 0x11
  }

  /** An unrecognised opcode still parses, as Unknown. */
  function TypeOf(b: Byte): FrameType {
    match b
    case 0x01 => TunnelOpen
    case 0x02 => TunnelData
    case 0x03 => TunnelClose
    case 0x04 => TunnelAck
    case 0x05 => TunnelError
    case 0x06 => InfoRequest
    case 0x07 => InfoReply
    case 0x08 => ResumeRequest
    case 0x09 => ResumeAck
    case 0x10 => Ping
    case 0x11 => Pong
    case _ => Unknown
  }

  datatype Frame = Frame(kind: FrameType, tunnelId: U16, payload: seq<Byte>)

  /** What survives the 16-bit length field. */
  function Clip(payload: seq<Byte>): (r: seq<Byte>)
    ensures r <= payload && |r| <= MAX_PAYLOAD_SIZE
  {
    payload[..Min(|payload|, MAX_PAYLOAD_SIZE)]
  }

  function Serialize(f: Frame): seq<Byte> {
    var body := Clip(f.payload);
    [TypeByte(f.kind)] + ToBe(f.tunnelId, 2) + ToBe(|body|, 2) + body
  }

  function ReadU16(data: seq<Byte>, at: nat): (v: U16)
    requires at + 2 <= |data|
  {
    ToFromBe(data[at..at + 2]);
    PowerValues();
    FromBe(data[at..at + 2])
  }

  function ReadU64(data: seq<Byte>, at: nat): (v: U64)
    requires at + 8 <= |data|
  {
    ToFromBe(data[at..at + 8]);
    PowerValues();
    FromBe(data[at..at + 8])
  }

  function Deserialize(data: seq<Byte>): Option<Frame> {
    if |data| < FRAME_HEADER_SIZE then None
    else
      var len: int := ReadU16(data, 3);
      if |data| < FRAME_HEADER_SIZE + len then None
      else Some(Frame(TypeOf(data[0]), ReadU16(data, 1), data[FRAME_HEADER_SIZE..FRAME_HEADER_SIZE + len]))
  }

  /** Where the fields of a frame lie, whatever follows it in the buffer. */
  lemma FrameFields(kind: Byte, id: seq<Byte>, len: seq<Byte>, body: seq<Byte>, rest: seq<Byte>)
    requires |id| == 2 && |len| == 2
    ensures var data := [kind] + id + len + body + rest;
            && |data| == FRAME_HEADER_SIZE + |body| + |rest| && data[0] == kind
            && data[1..3] == id && data[3..5] == len && data[5..5 + |body|] == body
  {
  }

  lemma TypeRoundTrip(t: FrameType)
    ensures TypeOf(TypeByte(t)) == t
  {
  }

  /** Decoding undoes encoding, whatever follows the frame in the buffer. */
  lemma DecodeEncode(f: Frame, rest: seq<Byte>)
    ensures Deserialize(Serialize(f) + rest) == Some(f.(payload := Clip(f.payload)))
    ensures |f.payload| <= MAX_PAYLOAD_SIZE ==> Deserialize(Serialize(f) + rest) == Some(f)
  {
    var body := Clip(f.payload);
    FrameFields(TypeByte(f.kind), ToBe(f.tunnelId, 2), ToBe(|body|, 2), body, rest);
    U16RoundTrip(f.tunnelId);
    U16RoundTrip(|body|);
    TypeRoundTrip(f.kind);
    hide ToBe, FromBe, TypeByte, TypeOf;
    if |f.payload| <= MAX_PAYLOAD_SIZE {
      assert body == f.payload;
    }
  }

  /** Encoding undoes decoding on the bytes the frame occupied, apart from an unrecognised opcode. */
  lemma EncodeDecode(data: seq<Byte>)
    requires Deserialize(data).Some?
    ensures var wire := Serialize(Deserialize(data).value);
            && |wire| <= |data|
            && wire[1..] == data[1..|wire|]
            && (wire[0] == data[0] <==> TypeByte(TypeOf(data[0])) == data[0])
  {
    var f := Deserialize(data).value;
    var len: int := ReadU16(data, 3);
    ToFromBe(data[1..3]);
    ToFromBe(data[3..5]);
    hide ToBe, FromBe, TypeByte, TypeOf;
    assert Clip(f.payload) == f.payload && |f.payload| == len;
    Adjacent(data, len);
    FrameFields(TypeByte(f.kind), data[1..3], data[3..5], f.payload, []);
  }

  lemma Adjacent(data: seq<Byte>, len: nat)
    requires 5 + len <= |data|
    ensures data[1..5 + len] == data[1..3] + data[3..5] + data[5..5 + len]
  {
  }

  /** The reply to a PING: its payload echoed, when short enough to echo. */
  function MakePongFor(ping: Frame): Frame {
    var echoed := if 0 < |ping.payload| <= MAX_PING_ECHO_BYTES then ping.payload else [];
    Frame(Pong, 0, echoed)
  }

  // ---------------------------------------------------------------------------
  // Tunnel resume payloads
  // ---------------------------------------------------------------------------

  datatype ResumeStatus = Ok | TargetUnreachable | RulesDenied | TooOld | UnknownStatus

  datatype ResumeRequestBody = ResumeRequestBody(
    priorTunnelId: U16, recvOffset: U64, sendOffset: U64, host: seq<Byte>, port: U16)

  datatype ResumeAckBody = ResumeAckBody(
    newTunnelId: U16, recvOffset: U64, sendOffset: U64, status: ResumeStatus)

  function StatusByte(s: ResumeStatus): Byte {
    match s
    case Ok => 0
    case TargetUnreachable => 1
    case RulesDenied => 2
    case TooOld => 3
    case UnknownStatus => 4
  }

  function StatusOf(b: Byte): ResumeStatus {
    match b
    case 0 => Ok
    case 1 => TargetUnreachable
    case 2 => RulesDenied
    case 3 => TooOld
    case _ => UnknownStatus
  }

  /** The host as it fits the one-byte length field. */
  function WireHost(host: seq<Byte>): (r: seq<Byte>)
    ensures r <= host && |r| <= 255
  {
    host[..Min(|host|, 255)]
  }

  function MakeResumeRequest(q: ResumeRequestBody): Frame {
    var host := WireHost(q.host);
    Frame(ResumeRequest, q.priorTunnelId,
          [1] + ToBe(q.priorTunnelId, 2) + ToBe(q.recvOffset, 8) + ToBe(q.sendOffset, 8)
          + [|host|] + host + ToBe(q.port, 2))
  }

  function AsResumeRequest(f: Frame): Option<ResumeRequestBody> {
    var p := f.payload;
    if f.kind != ResumeRequest || |p| < 22 || p[0] != 1 then None
    else
      var hostLen: int := p[19];
      if |p| < 20 + hostLen + 2 then None
      else Some(ResumeRequestBody(ReadU16(p, 1), ReadU64(p, 3), ReadU64(p, 11),
                                  p[20..20 + hostLen], ReadU16(p, 20 + hostLen)))
  }

  function MakeResumeAck(a: ResumeAckBody): Frame {
    Frame(ResumeAck, a.newTunnelId,
          [1] + ToBe(a.newTunnelId, 2) + ToBe(a.recvOffset, 8) + ToBe(a.sendOffset, 8)
          + [StatusByte(a.status)])
  }

  function AsResumeAck(f: Frame): Option<ResumeAckBody> {
    var p := f.payload;
    if f.kind != ResumeAck || |p| < 20 || p[0] != 1 then None
    else Some(ResumeAckBody(ReadU16(p, 1), ReadU64(p, 3), ReadU64(p, 11), StatusOf(p[19])))
  }

  /** Where the fields common to both resume payloads lie. */
  lemma ResumeFields(id: seq<Byte>, recv: seq<Byte>, sent: seq<Byte>, tail: seq<Byte>)
    requires |id| == 2 && |recv| == 8 && |sent| == 8 && tail != []
    ensures var p := [1] + id + recv + sent + tail;
            && |p| == 19 + |tail| && p[0] == 1 && p[1..3] == id && p[3..11] == recv && p[11..19] == sent
            && p[19] == tail[0] && p[19..] == tail
  {
  }

  lemma HostFields(head: seq<Byte>, size: Byte, host: seq<Byte>, port: seq<Byte>)
    requires |head| == 19
    ensures var p := head + [size] + host + port;
            && p == head + ([size] + host + port) && p[19] == size
            && p[20..20 + |host|] == host && p[20 + |host|..20 + |host| + |port|] == port
  {
  }

  /** A RESUME_REQUEST survives the wire whole; only a host beyond 255 bytes is cut. */
  lemma ResumeRequestRoundTrip(q: ResumeRequestBody, rest: seq<Byte>)
    ensures var got := Deserialize(Serialize(MakeResumeRequest(q)) + rest);
            got.Some? && AsResumeRequest(got.value) == Some(q.(host := WireHost(q.host)))
  {
    DecodeEncode(MakeResumeRequest(q), rest);
    ResumeRequestFields(q);
    hide MakeResumeRequest, AsResumeRequest, Serialize, Deserialize;
  }

  lemma ResumeRequestFields(q: ResumeRequestBody)
    ensures AsResumeRequest(MakeResumeRequest(q)) == Some(q.(host := WireHost(q.host)))
    ensures |MakeResumeRequest(q).payload| <= MAX_PAYLOAD_SIZE
  {
    var f, host := MakeResumeRequest(q), WireHost(q.host);
    var id, recv, sent, port := ToBe(q.priorTunnelId, 2), ToBe(q.recvOffset, 8), ToBe(q.sendOffset, 8), ToBe(q.port, 2);
    ResumeFields(id, recv, sent, [|host|] + host + port);
    HostFields([1] + id + recv + sent, |host|, host, port);
    U16RoundTrip(q.priorTunnelId);
    U64RoundTrip(q.recvOffset);
    U64RoundTrip(q.sendOffset);
    U16RoundTrip(q.port);
    hide ToBe, FromBe;
  }

  /** A RESUME_ACK survives the wire whole. */
  lemma ResumeAckRoundTrip(a: ResumeAckBody, rest: seq<Byte>)
    ensures var got := Deserialize(Serialize(MakeResumeAck(a)) + rest);
            got.Some? && AsResumeAck(got.value) == Some(a)
  {
    var f := MakeResumeAck(a);
    DecodeEncode(f, rest);
    ResumeFields(ToBe(a.newTunnelId, 2), ToBe(a.recvOffset, 8), ToBe(a.sendOffset, 8), [StatusByte(a.status)]);
    U16RoundTrip(a.newTunnelId);
    U64RoundTrip(a.recvOffset);
    U64RoundTrip(a.sendOffset);
    hide ToBe, FromBe, Serialize, Deserialize;
  }

  // ---------------------------------------------------------------------------
  // Fences: correlated PINGs and their echoes
  // ---------------------------------------------------------------------------

  const FENCE_PING_KIND: Byte := 0x46
  const FENCE_PAYLOAD_SIZE := 17

  /** A packet as handed to toxcore: the custom-packet prefix, then a frame. */
  type Packet = seq<Byte>

  function ToPacket(f: Frame): Packet {
    [LOSSLESS_PACKET_BYTE] + Serialize(f)
  }

  /** The parts of a packet the send gate looks at. */
  datatype Peek = Peek(kindByte: Byte, tunnelId: U16, payload: seq<Byte>)

  function PeekAt(p: Packet): Option<Peek> {
    if |p| < 1 + FRAME_HEADER_SIZE || p[0] != LOSSLESS_PACKET_BYTE then None
    else
      var len: int := ReadU16(p, 4);
      if |p| < 1 + FRAME_HEADER_SIZE + len then None
      else Some(Peek(p[1], ReadU16(p, 2), p[6..6 + len]))
  }

  /** The gate's hand-rolled peek and the decoder accept the same packets and read the same fields. */
  lemma PeekIsDecode(p: Packet)
    ensures PeekAt(p).Some? <==> |p| > 0 && p[0] == LOSSLESS_PACKET_BYTE && Deserialize(p[1..]).Some?
    ensures PeekAt(p).Some? ==>
              var k, f := PeekAt(p).value, Deserialize(p[1..]).value;
              f == Frame(TypeOf(k.kindByte), k.tunnelId, k.payload)
  {
    if |p| >= 6 {
      assert p[1..][1..3] == p[2..4];
      assert p[1..][3..5] == p[4..6];
      var len: int := ReadU16(p, 4);
      if |p| >= 6 + len {
        assert p[1..][5..5 + len] == p[6..6 + len];
      }
    }
  }

  function FencePayload(epoch: U64, fence: U64): (s: seq<Byte>)
    ensures |s| == FENCE_PAYLOAD_SIZE
  {
    [FENCE_PING_KIND] + ToBe(epoch, 8) + ToBe(fence, 8)
  }

  function FencePacket(epoch: U64, fence: U64): Packet {
    [LOSSLESS_PACKET_BYTE, TypeByte(Ping), 0, 0, 0, FENCE_PAYLOAD_SIZE] + FencePayload(epoch, fence)
  }

  /** The sequence number a received PONG echoes, when it echoes a fence of this epoch. */
  function EchoedFence(epoch: U64, p: Packet): Option<U64> {
    match PeekAt(p)
    case None => None
    case Some(k) =>
      if k.kindByte != TypeByte(Pong) || k.tunnelId != 0 || |k.payload| != FENCE_PAYLOAD_SIZE
         || k.payload[0] != FENCE_PING_KIND || ReadU64(k.payload, 1) != epoch
      then None
      else Some(ReadU64(k.payload, 9))
  }

  predicate IsEmptyPong(p: Packet) {
    match PeekAt(p)
    case None => false
    case Some(k) => k.kindByte == TypeByte(Pong) && k.tunnelId == 0 && k.payload == []
  }

  predicate IsData(p: Packet) {
    PeekAt(p).Some? && PeekAt(p).value.kindByte == TypeByte(TunnelData)
  }

  /** A keepalive PING: tunnel 0, nothing to echo. */
  predicate IsEmptyPing(p: Packet) {
    match PeekAt(p)
    case None => false
    case Some(k) => k.kindByte == TypeByte(Ping) && k.tunnelId == 0 && k.payload == []
  }

  predicate IsPing(p: Packet) {
    PeekAt(p).Some? && PeekAt(p).value.kindByte == TypeByte(Ping)
  }

  /** What a peer of this build sends back for a delivered packet, as far as the gate is concerned. */
  function PeerReply(p: Packet): Option<Packet> {
    if |p| < 2 then None
    else
      match Deserialize(p[1..])
      case None => None
      case Some(f) => if f.kind == Ping then Some(ToPacket(MakePongFor(f))) else None
  }

  lemma PacketFrame(f: Frame)
    requires |f.payload| <= MAX_PAYLOAD_SIZE
    ensures PeekAt(ToPacket(f)) == Some(Peek(TypeByte(f.kind), f.tunnelId, f.payload))
    ensures |ToPacket(f)| >= 1 + FRAME_HEADER_SIZE && Deserialize(ToPacket(f)[1..]) == Some(f)
  {
    var p := ToPacket(f);
    assert p[1..] == Serialize(f) + [];
    DecodeEncode(f, []);
    PeekIsDecode(p);
  }

  lemma FenceIsPing(epoch: U64, fence: U64)
    ensures FencePacket(epoch, fence) == ToPacket(Frame(Ping, 0, FencePayload(epoch, fence)))
  {
    assert ToBe(0, 2) == [0, 0] && ToBe(17, 2) == [0, 17] by {
      assert ToBe(0, 1) == [0] && ToBe(0, 0) == [];
    }
  }

  /** A 17-byte fence payload splits back into its kind, epoch and sequence number. */
  lemma FencePayloadFields(epoch: U64, fence: U64)
    ensures var body := FencePayload(epoch, fence);
            body[0] == FENCE_PING_KIND && ReadU64(body, 1) == epoch && ReadU64(body, 9) == fence
  {
    var body := FencePayload(epoch, fence);
    assert body[1..9] == ToBe(epoch, 8) && body[9..17] == ToBe(fence, 8);
    U64RoundTrip(epoch);
    U64RoundTrip(fence);
  }

  /** A fence decoded, echoed and re-encoded by the peer is recognised as that very fence. */
  lemma FenceEchoRecognised(epoch: U64, fence: U64)
    ensures PeerReply(FencePacket(epoch, fence)).Some?
    ensures var reply := PeerReply(FencePacket(epoch, fence)).value;
            EchoedFence(epoch, reply) == Some(fence) && !IsEmptyPong(reply)
    ensures IsPing(FencePacket(epoch, fence)) && !IsData(FencePacket(epoch, fence))
    ensures !IsEmptyPing(FencePacket(epoch, fence))
  {
    hide FencePacket, PeekAt, Deserialize, Serialize, ReadU64;
    var body := FencePayload(epoch, fence);
    assert body != [];
    FenceIsPing(epoch, fence);
    PacketFrame(Frame(Ping, 0, body));
    PacketFrame(Frame(Pong, 0, body));
    FencePayloadFields(epoch, fence);
  }

  /** Another ledger's fence never reads as one of ours. */
  lemma ForeignEchoIgnored(mine: U64, theirs: U64, fence: U64)
    requires mine != theirs
    ensures PeerReply(FencePacket(theirs, fence)).Some?
    ensures var reply := PeerReply(FencePacket(theirs, fence)).value;
            EchoedFence(mine, reply) == None && !IsEmptyPong(reply)
  {
    hide FencePacket, PeekAt, Deserialize, Serialize, ReadU64;
    var body := FencePayload(theirs, fence);
    assert body != [];
    FenceIsPing(theirs, fence);
    PacketFrame(Frame(Ping, 0, body));
    PacketFrame(Frame(Pong, 0, body));
    FencePayloadFields(theirs, fence);
  }

  const EMPTY_PONG: Packet := ToPacket(Frame(Pong, 0, []))

  /** The peer answers a keepalive with the empty PONG, and a packet that is no PING with nothing. */
  lemma OtherReplies(p: Packet)
    requires |p| > 0 && p[0] == LOSSLESS_PACKET_BYTE
    requires IsPing(p) ==> IsEmptyPing(p)
    ensures PeerReply(p) == if IsEmptyPing(p) then Some(EMPTY_PONG) else None
    ensures IsEmptyPong(EMPTY_PONG)
  {
    PeekIsDecode(p);
    PacketFrame(Frame(Pong, 0, []));
  }

  // ---------------------------------------------------------------------------
  // Exactly what is read
  // ---------------------------------------------------------------------------

  /** The packets the gate tells apart, by the fields its peek reads. */
  lemma KindsExactly(p: Packet)
    ensures IsData(p) <==> PeekAt(p).Some? && PeekAt(p).value.kindByte == 0x02
    ensures IsPing(p) <==> PeekAt(p).Some? && PeekAt(p).value.kindByte == 0x10
    ensures IsEmptyPing(p) <==> PeekAt(p) == Some(Peek(0x10, 0, []))
    ensures IsEmptyPong(p) <==> PeekAt(p) == Some(Peek(0x11, 0, []))
  {
    hide PeekAt;
  }

  /** A packet is read as the echo of a fence exactly if it is a PONG on tunnel 0 that carries that fence's payload. */
  lemma EchoExactly(epoch: U64, p: Packet, fence: U64)
    ensures EchoedFence(epoch, p) == Some(fence) <==> PeekAt(p) == Some(Peek(0x11, 0, FencePayload(epoch, fence)))
  {
    if EchoedFence(epoch, p) == Some(fence) {
      PayloadFromFields(PeekAt(p).value.payload, epoch, fence);
    }
    FencePayloadFields(epoch, fence);
    hide PeekAt, ReadU64, FencePayload;
  }

  lemma PayloadFromFields(payload: seq<Byte>, epoch: U64, fence: U64)
    requires |payload| == FENCE_PAYLOAD_SIZE && payload[0] == FENCE_PING_KIND
    requires ReadU64(payload, 1) == epoch && ReadU64(payload, 9) == fence
    ensures payload == FencePayload(epoch, fence)
  {
    ToFromBe(payload[1..9]);
    ToFromBe(payload[9..17]);
    hide ToBe, FromBe;
    assert payload == [payload[0]] + payload[1..9] + payload[9..17];
  }

  /** The reply to a PING: a PONG on tunnel 0 with the same payload, or with none if that is over 32 bytes. */
  lemma PongExactly(ping: Frame)
    ensures MakePongFor(ping) == Frame(Pong, 0, if |ping.payload| <= 32 then ping.payload else [])
  {
  }

  /** A delivered packet is answered exactly if it decodes to a PING. */
  lemma ReplyExactly(p: Packet)
    ensures var f := if |p| < 2 then None else Deserialize(p[1..]);
            PeerReply(p) == if f.Some? && f.value.kind == Ping then Some(ToPacket(MakePongFor(f.value))) else None
  {
    hide Deserialize, MakePongFor;
  }

  /** A RESUME_REQUEST is read exactly if it is of version 1 and holds the host it announces; the rest is ignored. */
  lemma ResumeRequestExactly(f: Frame)
    ensures var p, q := f.payload, AsResumeRequest(f);
            && (q.Some? <==> f.kind == ResumeRequest && |p| >= 22 && p[0] == 1 && |p| - 22 >= p[19])
            && (q.Some? ==> |q.value.host| == p[19] && q.value.host == p[20..20 + |q.value.host|])
  {
    hide ReadU16, ReadU64;
  }

  /** A RESUME_ACK is read exactly if it is of version 1 and complete; an unknown status is read as such. */
  lemma ResumeAckExactly(f: Frame)
    ensures var p, a := f.payload, AsResumeAck(f);
            && (a.Some? <==> f.kind == ResumeAck && |p| >= 20 && p[0] == 1)
            && (a.Some? ==> (a.value.status == UnknownStatus <==> p[19] > 3)
                            && (p[19] <= 3 ==> StatusByte(a.value.status) == p[19]))
  {
    hide ReadU16, ReadU64;
  }
}
