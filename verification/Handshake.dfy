/**
 * The local proxy handshake: SOCKS5 (sections 3 and 4 of RFC 1928) or HTTP
 * CONNECT (section 5.3.3 of RFC 7230), told apart by the first byte and parsed
 * from whatever pieces the socket delivers.
 */
module Handshake {
  import opened Bytes

  const VERSION: Byte := 5
  const AUTH_NONE: Byte := 0
  const AUTH_NO_ACCEPTABLE: Byte := 0xFF
  const CMD_CONNECT: Byte := 1
  const ATYP_IPV4: Byte := 1
  const ATYP_DOMAIN: Byte := 3
  const ATYP_IPV6: Byte := 4
  const REPLY_GENERAL_FAILURE: Byte := 1
  const REPLY_CMD_NOT_SUPPORTED: Byte := 7
  const REPLY_ATYP_NOT_SUPPORTED: Byte := 8

  const HTTP_HEADER_CAP := 8192

  const SPACE: Byte := 32
  const DOT: Byte := 46
  const COLON: Byte := 58
  const OPEN_BRACKET: Byte := 91
  const CLOSE_BRACKET: Byte := 93
  const CRLF: seq<Byte> := [13, 10]
  const CRLF_CRLF: seq<Byte> := [13, 10, 13, 10]
  /** "CONNECT " */
  const CONNECT: seq<Byte> := [67, 79, 78, 78, 69, 67, 84, 32]
  /** "HTTP/" */
  const HTTP_SLASH: seq<Byte> := [72, 84, 84, 80, 47]
  /** "HTTP/1.1 400 Bad Request" and an empty line */
  const BAD_REQUEST: seq<Byte> :=
    [72, 84, 84, 80, 47, 49, 46, 49, 32, 52, 48, 48, 32, 66, 97, 100, 32, 82, 101, 113, 117, 101, 115, 116,
     13, 10, 13, 10]

  // ---------------------------------------------------------------------------
  // SOCKS5 messages
  // ---------------------------------------------------------------------------

  datatype Greeting = NeedGreeting | BadGreeting | Methods(methods: seq<Byte>, consumed: nat)

  function ParseGreeting(s: seq<Byte>): (g: Greeting)
    ensures g.Methods? ==> g.consumed <= |s|
  {
    if |s| < 2 then NeedGreeting
    else if s[0] != VERSION then BadGreeting
    else
      var n: int := s[1];
      if n == 0 then BadGreeting else if |s| < 2 + n then NeedGreeting else Methods(s[2..2 + n], 2 + n)
  }

  datatype Request = NeedRequest | BadRequest(reply: Byte) | Target(host: seq<Byte>, port: U16, consumed: nat)

  /** A byte in decimal, without leading zeros. */
  function Decimal(n: nat): (s: seq<Byte>)
    ensures |s| > 0 && forall i :: 0 <= i < |s| ==> 48 <= s[i] <= 57
  {
    if n < 10 then [48 + n] else Decimal(n / 10) + [48 + n % 10]
  }

  function HexDigit(d: nat): Byte
    requires d < 16
  {
    if d < 10 then 48 + d else 87 + d
  }

  /** Lower-case hexadecimal, without leading zeros. */
  function Hex(n: nat): seq<Byte> {
    if n < 16 then [HexDigit(n)] else Hex(n / 16) + [HexDigit(n % 16)]
  }

  function Dotted(a: seq<Byte>): seq<Byte>
    requires |a| == 4
  {
    Decimal(a[0]) + [DOT] + (Decimal(a[1]) + [DOT] + (Decimal(a[2]) + [DOT] + Decimal(a[3])))
  }

  /** Colon-separated hexadecimal groups of two bytes. */
  function Groups(a: seq<Byte>): seq<Byte>
    requires |a| % 2 == 0
  {
    if a == [] then []
    else
      var hi: int, lo: int := a[0], a[1];
      Hex(hi * 256 + lo) + (if |a| == 2 then [] else [COLON] + Groups(a[2..]))
  }

  function PortAt(s: seq<Byte>, at: nat): U16
    requires at + 2 <= |s|
  {
    var hi: int, lo: int := s[at], s[at + 1];
    hi * 256 + lo
  }

  function ParseRequest(s: seq<Byte>): (r: Request)
    ensures r.Target? ==> r.consumed <= |s|
  {
    if |s| < 4 then NeedRequest
    else if s[0] != VERSION then BadRequest(REPLY_GENERAL_FAILURE)
    else if s[2] != 0 then BadRequest(REPLY_GENERAL_FAILURE)
    else if s[1] != CMD_CONNECT then BadRequest(REPLY_CMD_NOT_SUPPORTED)
    else if s[3] == ATYP_IPV4 then
      if |s| < 10 then NeedRequest else Target(Dotted(s[4..8]), PortAt(s, 8), 10)
    else if s[3] == ATYP_DOMAIN then
      if |s| < 5 then NeedRequest
      else
        var n: int := s[4];
        if n == 0 then BadRequest(REPLY_GENERAL_FAILURE)
        else if |s| < 5 + n + 2 then NeedRequest
        else Target(s[5..5 + n], PortAt(s, 5 + n), 5 + n + 2)
    else if s[3] == ATYP_IPV6 then
      if |s| < 22 then NeedRequest else Target(Groups(s[4..20]), PortAt(s, 20), 22)
    else BadRequest(REPLY_ATYP_NOT_SUPPORTED)
  }

  function EncodeReply(code: Byte): seq<Byte> {
    [VERSION, code, 0, ATYP_IPV4, 0, 0, 0, 0, 0, 0]
  }

  // ---------------------------------------------------------------------------
  // HTTP CONNECT
  // ---------------------------------------------------------------------------

  /** The pattern stands at position `i`. */
  predicate At(s: seq<Byte>, pat: seq<Byte>, i: nat) {
    i + |pat| <= |s| && s[i..i + |pat|] == pat
  }

  /** The first occurrence at or after `i`. */
  function Find(s: seq<Byte>, pat: seq<Byte>, i: nat): (r: Option<nat>)
    ensures r.Some? ==> i <= r.value && At(s, pat, r.value) && forall j :: i <= j < r.value ==> !At(s, pat, j)
    ensures r.None? ==> forall j :: i <= j ==> !At(s, pat, j)
    decreases |s| - i
  {
    if i + |pat| > |s| then None else if At(s, pat, i) then Some(i) else Find(s, pat, i + 1)
  }

  /** The last occurrence of a byte. */
  function FindLast(s: seq<Byte>, b: Byte): (r: Option<nat>)
    ensures r.Some? ==> r.value < |s| && s[r.value] == b && b !in s[r.value + 1..]
    ensures r.None? ==> b !in s
  {
    if s == [] then None
    else if s[|s| - 1] == b then Some(|s| - 1)
    else
      var r := FindLast(s[..|s| - 1], b);
      assert s == s[..|s| - 1] + [s[|s| - 1]];
      assert r.Some? ==> s[r.value + 1..] == s[..|s| - 1][r.value + 1..] + [s[|s| - 1]];
      r
  }

  predicate Digits(s: seq<Byte>) {
    forall i :: 0 <= i < |s| ==> 48 <= s[i] <= 57
  }

  function Number(s: seq<Byte>): nat
    requires Digits(s)
  {
    if s == [] then 0
    else
      var d: int := s[|s| - 1];
      10 * Number(s[..|s| - 1]) + (d - 48)
  }

  /** A decimal port: digits only, 1 to 65535. A number too large for the reader is refused like any above 65535. */
  function ParsePort(s: seq<Byte>): Option<U16> {
    if s != [] && Digits(s) && 0 < Number(s) <= 65535 then Some(Number(s)) else None
  }

  datatype Authority = Authority(host: seq<Byte>, port: U16)

  /** "host:port", where a host in brackets may contain colons and any other ends at the last colon. */
  function ParseAuthority(a: seq<Byte>): Option<Authority> {
    if a != [] && a[0] == OPEN_BRACKET then
      var close := Find(a, [CLOSE_BRACKET], 0);
      if close.None? || close.value + 1 >= |a| || a[close.value + 1] != COLON then None
      else
        assert a[close.value..close.value + 1][0] == a[close.value] == CLOSE_BRACKET;
        match ParsePort(a[close.value + 2..])
        case Some(port) => Some(Authority(a[1..close.value], port))
        case None => None
    else
      var colon := FindLast(a, COLON);
      if colon.None? || colon.value == 0 || colon.value + 1 >= |a| then None
      else
        match ParsePort(a[colon.value + 1..])
        case Some(port) => Some(Authority(a[..colon.value], port))
        case None => None
  }

  datatype Http = NeedHttp | BadHttp | HttpTarget(host: seq<Byte>, port: U16, consumed: nat)

  /** The request line of a header block. */
  function RequestLine(headers: seq<Byte>): seq<Byte> {
    match Find(headers, CRLF, 0)
    case Some(eol) => headers[..eol]
    case None => headers
  }

  function ParseLine(line: seq<Byte>): Option<Authority> {
    if !(CONNECT <= line) then None
    else
      match Find(line, [SPACE], |CONNECT|)
      case None => None
      case Some(sp) => if HTTP_SLASH <= line[sp + 1..] then ParseAuthority(line[|CONNECT|..sp]) else None
  }

  function ParseHttp(s: seq<Byte>): (h: Http)
    ensures h.HttpTarget? ==> h.consumed <= |s|
  {
    match Find(s, CRLF_CRLF, 0)
    case None => if |s| > HTTP_HEADER_CAP then BadHttp else NeedHttp
    case Some(end) =>
      match ParseLine(RequestLine(s[..end]))
      case None => BadHttp
      case Some(a) => HttpTarget(a.host, a.port, end + 4)
  }

  // ---------------------------------------------------------------------------
  // One accepted connection
  // ---------------------------------------------------------------------------

  datatype Protocol = Unknown | Socks5 | HttpConnect

  datatype Phase = GreetingPhase | RequestPhase | Streaming

  /** Rejected is a close requested of the connection, which carries it out once the replies are written. */
  datatype Outcome = Open | Handoff(host: seq<Byte>, port: U16, payload: seq<Byte>) | Rejected

  datatype Session = Session(protocol: Protocol, phase: Phase, buffer: seq<Byte>, sent: seq<Byte>, outcome: Outcome)

  const ACCEPTED := Session(Unknown, GreetingPhase, [], [], Open)

  function Reject(s: Session, reply: seq<Byte>): Session {
    s.(sent := s.sent + reply, outcome := Rejected)
  }

  /** The tunnel takes over; what was read past the handshake goes with it. */
  function HandOver(s: Session, host: seq<Byte>, port: U16, consumed: nat): Session
    requires consumed <= |s.buffer|
  {
    s.(buffer := [], outcome := Handoff(host, port, s.buffer[consumed..]))
  }

  function AdvanceRequest(s: Session): Session {
    match ParseRequest(s.buffer)
    case NeedRequest => s
    case BadRequest(reply) => Reject(s, EncodeReply(reply))
    case Target(host, port, consumed) => HandOver(s.(phase := Streaming), host, port, consumed)
  }

  function AdvanceSocks(s: Session): Session {
    match s.phase
    case Streaming => s
    case RequestPhase => AdvanceRequest(s)
    case GreetingPhase =>
      match ParseGreeting(s.buffer)
      case NeedGreeting => s
      case BadGreeting => Reject(s, EncodeReply(REPLY_GENERAL_FAILURE))
      case Methods(methods, consumed) =>
        var t := s.(buffer := s.buffer[consumed..]);
        if AUTH_NONE !in methods then Reject(t, [VERSION, AUTH_NO_ACCEPTABLE])
        else AdvanceRequest(t.(sent := t.sent + [VERSION, AUTH_NONE], phase := RequestPhase))
  }

  function AdvanceHttp(s: Session): Session {
    match ParseHttp(s.buffer)
    case NeedHttp => s
    case BadHttp => Reject(s, BAD_REQUEST)
    case HttpTarget(host, port, consumed) => HandOver(s, host, port, consumed)
  }

  /** The first byte tells the protocol. */
  function Sniffed(s: Session): Session {
    if s.protocol != Unknown || s.buffer == [] then s
    else s.(protocol := if s.buffer[0] == VERSION then Socks5 else HttpConnect)
  }

  function Advance(s: Session): Session {
    var t := Sniffed(s);
    match t.protocol
    case Unknown => t
    case Socks5 => AdvanceSocks(t)
    case HttpConnect => AdvanceHttp(t)
  }

  /**
   * One read from the socket. A handoff detaches the session from its reads; a
   * rejection does not, and what still arrives before the connection is closed
   * is parsed like everything before it. The connection reports no empty read.
   */
  function Feed(s: Session, chunk: seq<Byte>): Session {
    if s.outcome.Handoff? || chunk == [] then s else Advance(s.(buffer := s.buffer + chunk))
  }

  function FeedAll(chunks: seq<seq<Byte>>): Session {
    if chunks == [] then ACCEPTED else Feed(FeedAll(chunks[..|chunks| - 1]), chunks[|chunks| - 1])
  }

  function Concat(chunks: seq<seq<Byte>>): seq<Byte> {
    if chunks == [] then [] else Concat(chunks[..|chunks| - 1]) + chunks[|chunks| - 1]
  }

  class ProxySession {
    var protocol: Protocol
    var phase: Phase
    var buffer: seq<Byte>
    var sent: seq<Byte>
    var outcome: Outcome

    function View(): Session
      reads this
    {
      Session(protocol, phase, buffer, sent, outcome)
    }

    constructor ()
      ensures View() == ACCEPTED
    {
      protocol, phase, buffer, sent, outcome := Unknown, GreetingPhase, [], [], Open;
    }

    method SendReply(bytes: seq<Byte>)
      modifies `sent
      ensures View() == old(View()).(sent := old(sent) + bytes)
    {
      sent := sent + bytes;
    }

    method RejectAndClose(reply: seq<Byte>)
      modifies `sent, `outcome
      ensures View() == Reject(old(View()), reply)
    {
      SendReply(reply);
      outcome := Rejected;
    }

    method HandoffToTunnel(host: seq<Byte>, port: U16)
      modifies `buffer, `outcome
      ensures View() == old(View()).(buffer := [], outcome := Handoff(host, port, old(buffer)))
    {
      var payload := buffer;
      buffer := [];
      outcome := Handoff(host, port, payload);
    }

    /** A read's bytes, while the session is attached to the connection. */
    method OnData(chunk: seq<Byte>)
      requires !outcome.Handoff? && chunk != []
      modifies this
      ensures View() == Feed(old(View()), chunk)
    {
      buffer := buffer + chunk;
      TryAdvance();
    }

    method TryAdvance()
      requires !outcome.Handoff?
      modifies this
      ensures View() == Advance(old(View()))
    {
      hide ParseGreeting, ParseRequest, ParseHttp;
      var more := true;
      while more
        invariant more ==> !outcome.Handoff? && Advance(View()) == Advance(old(View()))
        invariant !more ==> View() == Advance(old(View()))
        decreases more, if phase == GreetingPhase then 1 else 0
      {
        if protocol == Unknown {
          if buffer == [] {
            more := false;
            break;
          }
          protocol := if buffer[0] == VERSION then Socks5 else HttpConnect;
        }
        if protocol == Socks5 && phase == GreetingPhase {
          var g := ParseGreeting(buffer);
          if g.NeedGreeting? {
            more := false;
          } else if g.BadGreeting? {
            RejectAndClose(EncodeReply(REPLY_GENERAL_FAILURE));
            more := false;
          } else {
            buffer := buffer[g.consumed..];
            if AUTH_NONE !in g.methods {
              RejectAndClose([VERSION, AUTH_NO_ACCEPTABLE]);
              more := false;
            } else {
              SendReply([VERSION, AUTH_NONE]);
              phase := RequestPhase;
            }
          }
        } else if protocol == Socks5 && phase == RequestPhase {
          var r := ParseRequest(buffer);
          if r.BadRequest? {
            RejectAndClose(EncodeReply(r.reply));
          } else if r.Target? {
            buffer := buffer[r.consumed..];
            phase := Streaming;
            HandoffToTunnel(r.host, r.port);
          }
          more := false;
        } else if protocol == Socks5 {
          more := false;
        } else {
          var h := ParseHttp(buffer);
          if h.BadHttp? {
            RejectAndClose(BAD_REQUEST);
          } else if h.HttpTarget? {
            buffer := buffer[h.consumed..];
            HandoffToTunnel(h.host, h.port);
          }
          more := false;
        }
      }
    }
  }

  // ---------------------------------------------------------------------------
  // What a parser has decided, more bytes do not change
  // ---------------------------------------------------------------------------

  lemma GreetingIsStable(p: seq<Byte>, x: seq<Byte>)
    requires !ParseGreeting(p).NeedGreeting?
    ensures ParseGreeting(p + x) == ParseGreeting(p)
  {
    var n: int := p[1];
    assert n > 0 && |p| >= 2 + n ==> (p + x)[2..2 + n] == p[2..2 + n];
  }

  lemma RequestIsStable(p: seq<Byte>, x: seq<Byte>)
    requires !ParseRequest(p).NeedRequest?
    ensures ParseRequest(p + x) == ParseRequest(p)
  {
    hide Dotted, Groups;
    var s := p + x;
    assert |p| >= 10 ==> s[4..8] == p[4..8];
    assert |p| >= 22 ==> s[4..20] == p[4..20];
    if |p| >= 5 {
      var n: int := p[4];
      assert |p| >= 5 + n + 2 ==> s[5..5 + n] == p[5..5 + n];
    }
  }

  lemma AtIsLocal(p: seq<Byte>, x: seq<Byte>, pat: seq<Byte>, j: nat)
    requires j + |pat| <= |p|
    ensures At(p + x, pat, j) == At(p, pat, j)
  {
    assert (p + x)[j..j + |pat|] == p[j..j + |pat|];
  }

  lemma FindIsStable(p: seq<Byte>, x: seq<Byte>, pat: seq<Byte>, i: nat)
    requires Find(p, pat, i).Some?
    ensures Find(p + x, pat, i) == Find(p, pat, i)
  {
    var e := Find(p, pat, i).value;
    AtIsLocal(p, x, pat, e);
    forall j | i <= j < e ensures !At(p + x, pat, j) {
      AtIsLocal(p, x, pat, j);
    }
  }

  /** A header block that was found complete is parsed the same whatever follows it. */
  lemma HttpIsStable(p: seq<Byte>, x: seq<Byte>)
    requires Find(p, CRLF_CRLF, 0).Some?
    ensures ParseHttp(p + x) == ParseHttp(p)
  {
    FindIsStable(p, x, CRLF_CRLF, 0);
    var end := Find(p, CRLF_CRLF, 0).value;
    assert (p + x)[..end] == p[..end];
  }

  /** A header block that is not complete in `p` ends after it. */
  lemma LateTerminator(p: seq<Byte>, x: seq<Byte>)
    requires Find(p, CRLF_CRLF, 0).None? && Find(p + x, CRLF_CRLF, 0).Some?
    ensures Find(p + x, CRLF_CRLF, 0).value + 4 > |p|
  {
    var e := Find(p + x, CRLF_CRLF, 0).value;
    if e + 4 <= |p| {
      AtIsLocal(p, x, CRLF_CRLF, e);
    }
  }

  /**
   * The streams whose handling cannot depend on how they are cut: all SOCKS5
   * streams, and the HTTP ones that are not accepted with a header block longer
   * than the cap allows to wait for.
   */
  predicate Cuttable(s: seq<Byte>) {
    || s == []
    || s[0] == VERSION
    || !ParseHttp(s).HttpTarget?
    || ParseHttp(s).consumed <= HTTP_HEADER_CAP + 1
  }

  /** How a session handles `p` and then `b`, against `p + b` at once. */
  ghost predicate Continues(t: Session, u: Session, b: seq<Byte>) {
    match t.outcome
    case Open => Advance(t.(buffer := t.buffer + b)) == u
    case Handoff(host, port, payload) => u == t.(outcome := Handoff(host, port, payload + b))
    case Rejected => u == t.(buffer := u.buffer)
  }

  lemma RequestContinues(s: Session, p: seq<Byte>, b: seq<Byte>)
    requires s.outcome == Open && s.protocol == Socks5 && s.phase == RequestPhase
    ensures Continues(AdvanceRequest(s.(buffer := p)), AdvanceRequest(s.(buffer := p + b)), b)
  {
    if !ParseRequest(p).NeedRequest? {
      RequestIsStable(p, b);
      if ParseRequest(p).Target? {
        var k := ParseRequest(p).consumed;
        assert (p + b)[k..] == p[k..] + b;
      }
    }
    hide ParseRequest;
  }

  lemma SocksContinues(s: Session, p: seq<Byte>, b: seq<Byte>)
    requires s.outcome == Open && s.protocol == Socks5
    ensures Continues(AdvanceSocks(s.(buffer := p)), AdvanceSocks(s.(buffer := p + b)), b)
  {
    hide ParseRequest;
    if s.phase == GreetingPhase {
      if !ParseGreeting(p).NeedGreeting? {
        GreetingIsStable(p, b);
        if ParseGreeting(p).Methods? {
          var k := ParseGreeting(p).consumed;
          assert (p + b)[k..] == p[k..] + b;
          hide ParseGreeting;
          var t := s.(sent := s.sent + [VERSION, AUTH_NONE], phase := RequestPhase);
          RequestContinues(t, p[k..], b);
        }
      }
    } else if s.phase == RequestPhase {
      RequestContinues(s, p, b);
    }
  }

  lemma HttpVerdictStands(p: seq<Byte>, b: seq<Byte>)
    requires p != [] && p[0] != VERSION && Cuttable(p + b) && !ParseHttp(p).NeedHttp?
    ensures ParseHttp(p + b) == ParseHttp(p)
  {
    if Find(p, CRLF_CRLF, 0).Some? {
      HttpIsStable(p, b);
    } else if Find(p + b, CRLF_CRLF, 0).Some? {
      LateTerminator(p, b);
      assert (p + b)[0] == p[0];
      LongBlockIsRefused(p + b);
    }
    hide ParseLine, RequestLine, Cuttable;
  }

  lemma HttpContinues(s: Session, p: seq<Byte>, b: seq<Byte>)
    requires s.outcome == Open && s.protocol == HttpConnect && p != [] && p[0] != VERSION && Cuttable(p + b)
    ensures Continues(AdvanceHttp(s.(buffer := p)), AdvanceHttp(s.(buffer := p + b)), b)
  {
    hide ParseHttp, Cuttable;
    if !ParseHttp(p).NeedHttp? {
      HttpVerdictStands(p, b);
      if ParseHttp(p).HttpTarget? {
        var k := ParseHttp(p).consumed;
        assert (p + b)[k..] == p[k..] + b;
      }
    }
  }

  lemma LongBlockIsRefused(s: seq<Byte>)
    requires s != [] && s[0] != VERSION && Cuttable(s)
    requires Find(s, CRLF_CRLF, 0).Some? && Find(s, CRLF_CRLF, 0).value + 4 > HTTP_HEADER_CAP + 1
    ensures ParseHttp(s) == BadHttp
  {
  }

  /** Handling `p` and then `b` is handling `p + b`, for a session whose protocol matches its bytes. */
  lemma AdvanceContinues(s: Session, p: seq<Byte>, b: seq<Byte>)
    requires s.outcome == Open && Cuttable(p + b)
    requires s.protocol == HttpConnect ==> p != [] && p[0] != VERSION
    ensures Continues(Advance(s.(buffer := p)), Advance(s.(buffer := p + b)), b)
  {
    var v, w := s.(buffer := p), s.(buffer := p + b);
    hide Cuttable;
    if p == [] && s.protocol == Unknown {
      assert p + b == b && Advance(v) == v;
    } else {
      assert Sniffed(w) == Sniffed(v).(buffer := p + b);
      if Sniffed(v).protocol == Socks5 {
        hide AdvanceSocks;
        SocksContinues(Sniffed(v), p, b);
      } else {
        hide AdvanceHttp;
        HttpContinues(Sniffed(v), p, b);
      }
      hide AdvanceSocks, AdvanceHttp, Continues;
    }
  }

  /** Cutting a stream shorter keeps it cuttable. */
  lemma PrefixIsCuttable(p: seq<Byte>, b: seq<Byte>)
    requires Cuttable(p + b)
    ensures Cuttable(p)
  {
    if p != [] && p[0] != VERSION && ParseHttp(p).HttpTarget? {
      assert (p + b)[0] == p[0];
      HttpIsStable(p, b);
    }
  }

  /** The bytes read by the time the session was handed off, or all of them. */
  function ReadSoFar(chunks: seq<seq<Byte>>): seq<Byte> {
    if chunks == [] then []
    else
      var init := chunks[..|chunks| - 1];
      if FeedAll(init).outcome.Handoff? then ReadSoFar(init) else ReadSoFar(init) + chunks[|chunks| - 1]
  }

  /**
   * The same result as reading everything at once: the same replies and the
   * same session, or the same target, and of the bytes read the handshake
   * consumed the same ones, the rest going to the tunnel.
   */
  ghost predicate Agrees(chunks: seq<seq<Byte>>) {
    Same(FeedAll(chunks), Feed(ACCEPTED, Concat(chunks)), ReadSoFar(chunks), Concat(chunks))
  }

  /** `r` came from reading `read` in pieces, `w` from reading `whole` in one. */
  ghost predicate Same(r: Session, w: Session, read: seq<Byte>, whole: seq<Byte>) {
    match w.outcome
    case Handoff(host, port, payload) =>
      && r.sent == w.sent && r.protocol == w.protocol && r.phase == w.phase
      && r.outcome.Handoff? && r.outcome.host == host && r.outcome.port == port
      && r.outcome.payload <= payload
      && |whole| - |payload| == |read| - |r.outcome.payload|
      && read <= whole
    case _ => r == w && read == whole
  }

  /** The stream was refused for its methods, and what follows is not yet another greeting. */
  predicate Unanswered(w: Session) {
    w.sent == [VERSION, AUTH_NO_ACCEPTABLE] && ParseGreeting(w.buffer).NeedGreeting?
  }

  /**
   * The streams that come out the same however they are cut: those left open;
   * those accepted, if cuttable; and of those rejected, the ones whose last
   * byte decides it, and those refused for their methods with no further
   * greeting behind. A rejection with more bytes behind it is seen again by the
   * read that brings them.
   */
  predicate CutFree(s: seq<Byte>) {
    var w := Feed(ACCEPTED, s);
    match w.outcome
    case Open => true
    case Handoff(_, _, _) => Cuttable(s)
    case Rejected => Feed(ACCEPTED, s[..|s| - 1]).outcome == Open || Unanswered(w)
  }

  lemma OneRead(s: seq<Byte>)
    ensures Feed(ACCEPTED, s) == Advance(ACCEPTED.(buffer := s))
  {
    assert ACCEPTED.buffer + s == s;
  }

  lemma OneReadHttp(s: seq<Byte>)
    requires s != [] && s[0] != VERSION
    ensures Feed(ACCEPTED, s) == AdvanceHttp(ACCEPTED.(protocol := HttpConnect, buffer := s))
  {
    OneRead(s);
    hide AdvanceHttp;
  }

  /** One read of `p + b` against one read of `p`. */
  lemma OneReadContinues(p: seq<Byte>, b: seq<Byte>)
    requires Cuttable(p + b)
    ensures Continues(Feed(ACCEPTED, p), Feed(ACCEPTED, p + b), b)
  {
    OneRead(p);
    OneRead(p + b);
    AdvanceContinues(ACCEPTED, p, b);
  }

  lemma UncuttableIsAccepted(s: seq<Byte>)
    requires !Cuttable(s)
    ensures Feed(ACCEPTED, s).outcome.Handoff? && Feed(ACCEPTED, s).sent == []
  {
    OneReadHttp(s);
    hide ParseHttp;
  }

  lemma CutFreeIsCuttable(s: seq<Byte>)
    requires CutFree(s)
    ensures Cuttable(s)
  {
    if !Cuttable(s) {
      UncuttableIsAccepted(s);
    }
  }

  lemma RefusedShape(t: Session)
    requires t.protocol == Socks5 && t.phase == GreetingPhase && t.sent == []
    ensures var g := ParseGreeting(t.buffer);
            AdvanceSocks(t).sent == [VERSION, AUTH_NO_ACCEPTABLE] ==>
              && g.Methods? && AUTH_NONE !in g.methods
              && AdvanceSocks(t) == t.(buffer := t.buffer[g.consumed..], sent := [VERSION, AUTH_NO_ACCEPTABLE],
                                       outcome := Rejected)
  {
    hide ParseGreeting, ParseRequest;
    match ParseGreeting(t.buffer)
    case NeedGreeting =>
    case BadGreeting => assert |AdvanceSocks(t).sent| == 10;
    case Methods(methods, consumed) =>
      if AUTH_NONE in methods {
        assert AdvanceSocks(t).sent[1] == AUTH_NONE;
      } else {
        assert t.sent + [VERSION, AUTH_NO_ACCEPTABLE] == [VERSION, AUTH_NO_ACCEPTABLE];
      }
  }

  lemma HttpReplyShape(t: Session)
    requires t.sent == []
    ensures AdvanceHttp(t).sent == [] || AdvanceHttp(t).sent == BAD_REQUEST
  {
    hide ParseHttp;
    assert [] + BAD_REQUEST == BAD_REQUEST;
  }

  /** What a stream refused for its methods leaves behind. */
  lemma RefusedForMethods(s: seq<Byte>)
    requires Feed(ACCEPTED, s).sent == [VERSION, AUTH_NO_ACCEPTABLE]
    ensures var w, g := Feed(ACCEPTED, s), ParseGreeting(s);
            && g.Methods? && AUTH_NONE !in g.methods
            && w == Session(Socks5, GreetingPhase, s[g.consumed..], [VERSION, AUTH_NO_ACCEPTABLE], Rejected)
  {
    OneRead(s);
    assert s != [] && BAD_REQUEST[0] == 72;
    var t := ACCEPTED.(buffer := s);
    RefusedShape(t.(protocol := Socks5));
    HttpReplyShape(t.(protocol := HttpConnect));
    hide AdvanceSocks, AdvanceHttp, ParseGreeting;
  }

  /** More bytes behind a refusal join the ones that wait. */
  lemma RefusalContinues(p: seq<Byte>, b: seq<Byte>)
    requires Feed(ACCEPTED, p).sent == [VERSION, AUTH_NO_ACCEPTABLE]
    ensures Feed(ACCEPTED, p + b) == Feed(ACCEPTED, p).(buffer := Feed(ACCEPTED, p).buffer + b)
  {
    RefusedForMethods(p);
    GreetingIsStable(p, b);
    var k := ParseGreeting(p).consumed;
    assert (p + b)[k..] == p[k..] + b;
    assert p != [] && p[0] == VERSION && (p + b)[0] == VERSION;
    OneRead(p + b);
    var t := Session(Socks5, GreetingPhase, p + b, [], Open);
    assert Advance(ACCEPTED.(buffer := p + b)) == AdvanceSocks(t);
    hide ParseGreeting;
  }

  /** A read that starts no further greeting changes nothing but the buffer. */
  lemma UnansweredStays(p: seq<Byte>, b: seq<Byte>)
    requires b != [] && Unanswered(Feed(ACCEPTED, p + b)) && Feed(ACCEPTED, p).sent == [VERSION, AUTH_NO_ACCEPTABLE]
    ensures Unanswered(Feed(ACCEPTED, p)) && Feed(Feed(ACCEPTED, p), b) == Feed(ACCEPTED, p + b)
  {
    RefusedForMethods(p);
    RefusalContinues(p, b);
    var w := Feed(ACCEPTED, p);
    if !ParseGreeting(w.buffer).NeedGreeting? {
      GreetingIsStable(w.buffer, b);
    }
    var t := w.(buffer := w.buffer + b);
    hide ParseGreeting;
    assert Feed(w, b) == AdvanceSocks(t);
  }

  /** A prefix of a cut-free stream is cut-free. */
  lemma PrefixIsCutFree(p: seq<Byte>, b: seq<Byte>)
    requires b != [] && CutFree(p + b)
    ensures CutFree(p)
    ensures Feed(ACCEPTED, p).outcome == Rejected ==>
              Unanswered(Feed(ACCEPTED, p + b)) && Feed(ACCEPTED, p).sent == [VERSION, AUTH_NO_ACCEPTABLE]
  {
    var s, n := p + b, |p + b| - 1;
    CutFreeIsCuttable(s);
    PrefixIsCuttable(p, b);
    OneReadContinues(p, b);
    var w, u := Feed(ACCEPTED, p), Feed(ACCEPTED, s);
    if w.outcome == Rejected {
      assert s[..n] == p + b[..|b| - 1] && s == s[..n] + b[|b| - 1..];
      PrefixIsCuttable(s[..n], b[|b| - 1..]);
      OneReadContinues(p, b[..|b| - 1]);
      hide Feed, ParseGreeting, Cuttable;
      assert u.sent == w.sent && Unanswered(u);
      UnansweredStays(p, b);
    }
  }

  /** However a cut-free stream is cut into reads, it is handled as if it had arrived in one. */
  lemma {:induction false} CutsDoNotMatter(chunks: seq<seq<Byte>>)
    requires CutFree(Concat(chunks))
    ensures Agrees(chunks)
  {
    if chunks != [] {
      var init, b := chunks[..|chunks| - 1], chunks[|chunks| - 1];
      var p := Concat(init);
      if b == [] {
        assert p + b == p && ReadSoFar(init) + b == ReadSoFar(init);
        CutsDoNotMatter(init);
      } else {
        PrefixIsCutFree(p, b);
        CutsDoNotMatter(init);
        OneMoreRead(chunks, init, b);
      }
    }
  }

  lemma OneMoreRead(chunks: seq<seq<Byte>>, init: seq<seq<Byte>>, b: seq<Byte>)
    requires chunks != [] && init == chunks[..|chunks| - 1] && b == chunks[|chunks| - 1] && b != []
    requires CutFree(Concat(chunks)) && Agrees(init)
    ensures Agrees(chunks)
  {
    var p, r := Concat(init), FeedAll(init);
    assert FeedAll(chunks) == Feed(r, b) && Concat(chunks) == p + b;
    assert ReadSoFar(chunks) == (if r.outcome.Handoff? then ReadSoFar(init) else ReadSoFar(init) + b);
    hide FeedAll, Concat, ReadSoFar, Same;
    OneReadMore(p, b);
    SameContinues(r, Feed(ACCEPTED, p), Feed(ACCEPTED, p + b), ReadSoFar(init), p, b);
  }

  lemma OneReadMore(p: seq<Byte>, b: seq<Byte>)
    requires CutFree(p + b) && b != []
    ensures var w, u := Feed(ACCEPTED, p), Feed(ACCEPTED, p + b);
            if w.outcome.Handoff? then Continues(w, u, b) else Feed(w, b) == u
  {
    CutFreeIsCuttable(p + b);
    OneReadContinues(p, b);
    PrefixIsCutFree(p, b);
    hide CutFree, Cuttable, Unanswered, Advance;
    if Feed(ACCEPTED, p).outcome == Rejected {
      UnansweredStays(p, b);
    }
  }

  lemma SameContinues(r: Session, w: Session, u: Session, read: seq<Byte>, p: seq<Byte>, b: seq<Byte>)
    requires Same(r, w, read, p) && if w.outcome.Handoff? then Continues(w, u, b) else Feed(w, b) == u
    ensures Same(Feed(r, b), u, if r.outcome.Handoff? then read else read + b, p + b)
  {
    hide Advance;
    if !w.outcome.Handoff? && u.outcome.Handoff? {
      assert r == w;
    }
  }

  /** Rejected once, a session that says nothing more was refused for its methods and waits for a greeting. */
  lemma SilentAfterRejection(q: seq<Byte>, b: seq<Byte>)
    requires b != [] && Cuttable(q + b)
    requires var t := Feed(ACCEPTED, q); t.outcome == Rejected && Feed(t, b).sent == t.sent
    ensures Unanswered(Feed(ACCEPTED, q + b))
  {
    var t := Feed(ACCEPTED, q);
    var u := Feed(t, b);
    OneRead(q);
    assert q != [];
    if q[0] != VERSION {
      OneReadHttp(q);
      HttpRejectsAgain(q, b);
    } else {
      SocksRejectsAgain(q, b);
    }
  }

  lemma BadHttpRejects(t: Session, b: seq<Byte>)
    requires b != [] && t.protocol == HttpConnect && !t.outcome.Handoff? && ParseHttp(t.buffer + b) == BadHttp
    ensures Feed(t, b) == t.(buffer := t.buffer + b, sent := t.sent + BAD_REQUEST, outcome := Rejected)
  {
    hide ParseHttp;
  }

  lemma SocksReads(t: Session, b: seq<Byte>)
    requires b != [] && t.protocol == Socks5 && !t.outcome.Handoff?
    ensures Feed(t, b) == AdvanceSocks(t.(buffer := t.buffer + b))
  {
    hide AdvanceSocks, AdvanceHttp;
  }

  lemma HttpRejectsAgain(q: seq<Byte>, b: seq<Byte>)
    requires b != [] && q != [] && q[0] != VERSION && Cuttable(q + b)
    requires Feed(ACCEPTED, q).outcome == Rejected
    ensures Feed(Feed(ACCEPTED, q), b).sent == BAD_REQUEST + BAD_REQUEST
    ensures Feed(ACCEPTED, q).sent == BAD_REQUEST
  {
    HttpRejected(q);
    hide *;
    HttpVerdictStands(q, b);
    BadHttpRejects(Feed(ACCEPTED, q), b);
  }

  lemma HttpRejected(q: seq<Byte>)
    requires q != [] && q[0] != VERSION && Feed(ACCEPTED, q).outcome == Rejected
    ensures ParseHttp(q) == BadHttp
    ensures Feed(ACCEPTED, q) == Session(HttpConnect, GreetingPhase, q, BAD_REQUEST, Rejected)
  {
    OneReadHttp(q);
    hide ParseHttp, Feed;
    assert [] + BAD_REQUEST == BAD_REQUEST;
  }

  lemma SocksRejectsAgain(q: seq<Byte>, b: seq<Byte>)
    requires b != [] && q != [] && q[0] == VERSION
    requires Feed(ACCEPTED, q).outcome == Rejected
    ensures var t := Feed(ACCEPTED, q);
            Unanswered(Feed(ACCEPTED, q + b)) || |Feed(t, b).sent| > |t.sent|
  {
    var t, g := Feed(ACCEPTED, q), ParseGreeting(q);
    OneRead(q);
    hide ParseRequest;
    var a := Session(Socks5, GreetingPhase, q, [], Open);
    assert t == AdvanceSocks(a);
    if g.BadGreeting? {
      GreetingIsStable(q, b);
      hide ParseGreeting;
      SocksReads(t, b);
      assert Feed(t, b).sent == t.sent + EncodeReply(REPLY_GENERAL_FAILURE);
    } else if AUTH_NONE !in g.methods {
      hide ParseGreeting;
      assert t.sent == [] + [VERSION, AUTH_NO_ACCEPTABLE] == [VERSION, AUTH_NO_ACCEPTABLE];
      RefusalContinues(q, b);
      var x := t.(buffer := t.buffer + b);
      SocksReads(t, b);
      if !ParseGreeting(x.buffer).NeedGreeting? {
        GreetingAnswers(x);
      }
    } else {
      hide ParseGreeting;
      RequestRejectsAgain(t, q[g.consumed..], b);
    }
  }

  /** A decided greeting is always answered. */
  lemma GreetingAnswers(x: Session)
    requires x.protocol == Socks5 && x.phase == GreetingPhase && !ParseGreeting(x.buffer).NeedGreeting?
    ensures |AdvanceSocks(x).sent| > |x.sent|
  {
    hide ParseGreeting, ParseRequest;
  }

  lemma RequestRejectsAgain(t: Session, x: seq<Byte>, b: seq<Byte>)
    requires b != [] && t.protocol == Socks5 && t.phase == RequestPhase && t.outcome == Rejected && t.buffer == x
    requires ParseRequest(x).BadRequest?
    ensures |Feed(t, b).sent| > |t.sent|
  {
    RequestIsStable(x, b);
    hide ParseRequest;
    SocksReads(t, b);
  }

  lemma TwoReads(p: seq<Byte>, b: seq<Byte>)
    ensures Concat([p, b]) == p + b && FeedAll([p, b]) == Feed(Feed(ACCEPTED, p), b)
  {
    hide Feed;
    var none: seq<Byte> := [];
    assert [p][..0] == [] && [p, b][..1] == [p];
    assert Concat([p]) == none + p == p;
    assert FeedAll([p]) == Feed(ACCEPTED, p);
  }

  lemma EarlyCutIsBad(p: seq<Byte>, b: seq<Byte>)
    requires !Cuttable(p + b) && |p| == HTTP_HEADER_CAP + 1
    ensures ParseHttp(p) == BadHttp && ParseHttp(p + b).HttpTarget?
  {
    if Find(p, CRLF_CRLF, 0).Some? {
      FindIsStable(p, b, CRLF_CRLF, 0);
    }
    hide ParseLine, RequestLine;
  }

  /**
   * Cut behind the cap, a stream that is not cuttable is refused although it
   * is accepted in one read; and still handed off if its rest arrives before
   * the close.
   */
  lemma LongBlockCutIsRefused(s: seq<Byte>)
    requires !Cuttable(s)
    ensures var c := HTTP_HEADER_CAP + 1;
            && 0 < c < |s| && Feed(ACCEPTED, s).sent == []
            && Feed(ACCEPTED, s[..c]).outcome == Rejected && FeedAll([s[..c], s[c..]]).sent == BAD_REQUEST
            && FeedAll([s[..c], s[c..]]).outcome == Feed(ACCEPTED, s).outcome
  {
    var c := HTTP_HEADER_CAP + 1;
    var p, b := s[..c], s[c..];
    assert s == p + b && |p| == c && s[0] == p[0];
    TwoReads(p, b);
    EarlyCutIsBad(p, b);
    OneReadHttp(p);
    OneReadHttp(s);
    hide ParseHttp;
    var t := Feed(ACCEPTED, p);
    assert t.sent == [] + BAD_REQUEST == BAD_REQUEST;
    assert Feed(t, b) == AdvanceHttp(t.(buffer := s));
  }

  lemma SameReplies(r: Session, w: Session, read: seq<Byte>, whole: seq<Byte>)
    requires Same(r, w, read, whole)
    ensures r.sent == w.sent
  {
  }

  lemma RepliesDiffer(p: seq<Byte>, b: seq<Byte>)
    requires FeedAll([p, b]).sent != Feed(ACCEPTED, p + b).sent
    ensures Concat([p, b]) == p + b && !Agrees([p, b])
  {
    TwoReads(p, b);
    hide Feed, FeedAll, Concat, Same;
    if Agrees([p, b]) {
      SameReplies(FeedAll([p, b]), Feed(ACCEPTED, p + b), ReadSoFar([p, b]), p + b);
    }
  }

  lemma CutShows(s: seq<Byte>, c: int)
    requires 0 <= c <= |s| && FeedAll([s[..c], s[c..]]).sent != Feed(ACCEPTED, s).sent
    ensures exists chunks :: Concat(chunks) == s && !Agrees(chunks)
  {
    hide *;
    assert s[..c] + s[c..] == s;
    RepliesDiffer(s[..c], s[c..]);
  }

  lemma CutBehindTheCapShows(s: seq<Byte>)
    requires !Cuttable(s)
    ensures exists chunks :: Concat(chunks) == s && !Agrees(chunks)
  {
    hide *;
    LongBlockCutIsRefused(s);
    BadRequestIsText();
    CutShows(s, HTTP_HEADER_CAP + 1);
  }

  lemma BadRequestIsText()
    ensures BAD_REQUEST != []
  {
  }

  lemma CutOffLastByteShows(q: seq<Byte>, b: seq<Byte>)
    requires b != [] && Cuttable(q + b) && Feed(ACCEPTED, q).outcome != Open
    requires Feed(ACCEPTED, q + b).outcome == Rejected && !Unanswered(Feed(ACCEPTED, q + b))
    ensures Concat([q, b]) == q + b && !Agrees([q, b])
  {
    OneReadContinues(q, b);
    TwoReads(q, b);
    hide FeedAll, Concat, Cuttable, Unanswered, Agrees;
    var t := Feed(ACCEPTED, q);
    assert t.outcome == Rejected && Feed(ACCEPTED, q + b).sent == t.sent;
    if Feed(t, b).sent == t.sent {
      SilentAfterRejection(q, b);
    }
    hide Feed;
    RepliesDiffer(q, b);
  }

  /** A stream that is not cut-free comes out differently in some two reads. */
  lemma SomeCutShows(s: seq<Byte>)
    requires !CutFree(s)
    ensures exists chunks :: Concat(chunks) == s && !Agrees(chunks)
  {
    if !Cuttable(s) {
      CutBehindTheCapShows(s);
    } else {
      var q, b := s[..|s| - 1], s[|s| - 1..];
      assert s == q + b;
      hide Feed, Cuttable, Agrees, Concat, Unanswered;
      CutOffLastByteShows(q, b);
    }
  }

  /** The exact condition: every way of cutting a stream gives the one-read result if and only if it is cut-free. */
  lemma CutIndependenceExactly(s: seq<Byte>)
    ensures CutFree(s) <==> forall chunks :: Concat(chunks) == s ==> Agrees(chunks)
  {
    if CutFree(s) {
      forall chunks | Concat(chunks) == s ensures Agrees(chunks) {
        CutsDoNotMatter(chunks);
      }
    } else {
      SomeCutShows(s);
    }
  }

  lemma RepliesGrow(s: Session, b: seq<Byte>)
    ensures s.sent <= Feed(s, b).sent
    ensures s.outcome != Open ==> Feed(s, b).outcome != Open
  {
    hide ParseGreeting, ParseRequest, ParseHttp;
  }

  /**
   * Whatever late reads add, a stream that is refused in one read is refused
   * under every cut: the replies begin with the one-read reply and the close
   * has been requested.
   */
  lemma {:induction false} RejectionReachesClient(chunks: seq<seq<Byte>>)
    requires Cuttable(Concat(chunks)) && Feed(ACCEPTED, Concat(chunks)).outcome == Rejected
    ensures Feed(ACCEPTED, Concat(chunks)).sent <= FeedAll(chunks).sent && FeedAll(chunks).outcome != Open
  {
    if chunks != [] {
      var init, b := chunks[..|chunks| - 1], chunks[|chunks| - 1];
      var p := Concat(init);
      PrefixIsCuttable(p, b);
      OneReadContinues(p, b);
      RepliesGrow(FeedAll(init), b);
      if Feed(ACCEPTED, p).outcome == Open {
        CutsDoNotMatter(init);
        assert b == [] ==> p + b == p;
      } else {
        RejectionReachesClient(init);
      }
      hide Advance, Cuttable;
    }
  }

  // ---------------------------------------------------------------------------
  // Well-formed handshakes
  // ---------------------------------------------------------------------------

  function BuildGreeting(methods: seq<Byte>): seq<Byte>
    requires |methods| < 256
  {
    [VERSION, |methods|] + methods
  }

  datatype Address = Ipv4(bytes: seq<Byte>) | Domain(name: seq<Byte>) | Ipv6(bytes: seq<Byte>)

  predicate WellFormed(a: Address) {
    match a
    case Ipv4(bytes) => |bytes| == 4
    case Domain(name) => 0 < |name| < 256
    case Ipv6(bytes) => |bytes| == 16
  }

  /** The address as a request carries it, type byte first. */
  function AddressBytes(a: Address): seq<Byte>
    requires WellFormed(a)
  {
    match a
    case Ipv4(bytes) => [ATYP_IPV4] + bytes
    case Domain(name) => [ATYP_DOMAIN, |name|] + name
    case Ipv6(bytes) => [ATYP_IPV6] + bytes
  }

  /** The address as the resolver is given it. */
  function HostText(a: Address): seq<Byte>
    requires WellFormed(a)
  {
    match a
    case Ipv4(bytes) => Dotted(bytes)
    case Domain(name) => name
    case Ipv6(bytes) => Groups(bytes)
  }

  function BuildRequest(a: Address, port: U16): seq<Byte>
    requires WellFormed(a)
  {
    [VERSION, CMD_CONNECT, 0] + AddressBytes(a) + [port / 256, port % 256]
  }

  lemma GreetingRoundTrip(methods: seq<Byte>, rest: seq<Byte>)
    requires 0 < |methods| < 256
    ensures ParseGreeting(BuildGreeting(methods) + rest) == Methods(methods, |BuildGreeting(methods)|)
  {
    var s := BuildGreeting(methods) + rest;
    assert s[2..2 + |methods|] == methods;
  }

  lemma PortReadsBack(s: seq<Byte>, at: nat, port: U16)
    requires at + 2 <= |s| && s[at] == port / 256 && s[at + 1] == port % 256
    ensures PortAt(s, at) == port
  {
    var hi: int, lo: int := port / 256, port % 256;
    assert hi * 256 + lo == port;
  }

  /** Where the parts of a request lie, `head` being what comes before the address bytes. */
  lemma RequestParts(head: seq<Byte>, body: seq<Byte>, port: U16, rest: seq<Byte>)
    ensures var s, n := head + body + [port / 256, port % 256] + rest, |head| + |body|;
            && s[..|head|] == head && s[|head|..n] == body && n + 2 <= |s| && PortAt(s, n) == port
  {
    var s := head + body + [port / 256, port % 256] + rest;
    PortReadsBack(s, |head| + |body|, port);
  }

  /** A request for an address of any kind is read back as its host text and port, whatever follows it. */
  lemma RequestRoundTrip(a: Address, port: U16, rest: seq<Byte>)
    requires WellFormed(a)
    ensures ParseRequest(BuildRequest(a, port) + rest) == Target(HostText(a), port, |BuildRequest(a, port)|)
  {
    match a
    case Ipv4(bytes) => Ipv4Parses(bytes, port, rest);
    case Domain(name) => DomainParses(name, port, rest);
    case Ipv6(bytes) => Ipv6Parses(bytes, port, rest);
  }

  lemma HeadFirst(start: seq<Byte>, kind: seq<Byte>, body: seq<Byte>, end: seq<Byte>, rest: seq<Byte>)
    ensures start + (kind + body) + end + rest == start + kind + body + end + rest
  {
  }

  lemma Ipv4Parses(bytes: seq<Byte>, port: U16, rest: seq<Byte>)
    requires |bytes| == 4
    ensures var s := BuildRequest(Ipv4(bytes), port); ParseRequest(s + rest) == Target(Dotted(bytes), port, |s|)
  {
    hide Dotted, PortAt;
    var head := [VERSION, CMD_CONNECT, 0] + [ATYP_IPV4];
    var s := head + bytes + [port / 256, port % 256] + rest;
    HeadFirst([VERSION, CMD_CONNECT, 0], [ATYP_IPV4], bytes, [port / 256, port % 256], rest);
    RequestParts(head, bytes, port, rest);
  }

  lemma DomainParses(name: seq<Byte>, port: U16, rest: seq<Byte>)
    requires 0 < |name| < 256
    ensures var s := BuildRequest(Domain(name), port); ParseRequest(s + rest) == Target(name, port, |s|)
  {
    hide PortAt;
    var head := [VERSION, CMD_CONNECT, 0] + [ATYP_DOMAIN, |name|];
    var s := head + name + [port / 256, port % 256] + rest;
    HeadFirst([VERSION, CMD_CONNECT, 0], [ATYP_DOMAIN, |name|], name, [port / 256, port % 256], rest);
    RequestParts(head, name, port, rest);
  }

  lemma Ipv6Parses(bytes: seq<Byte>, port: U16, rest: seq<Byte>)
    requires |bytes| == 16
    ensures var s := BuildRequest(Ipv6(bytes), port); ParseRequest(s + rest) == Target(Groups(bytes), port, |s|)
  {
    hide Groups, PortAt;
    var head := [VERSION, CMD_CONNECT, 0] + [ATYP_IPV6];
    var s := head + bytes + [port / 256, port % 256] + rest;
    HeadFirst([VERSION, CMD_CONNECT, 0], [ATYP_IPV6], bytes, [port / 256, port % 256], rest);
    RequestParts(head, bytes, port, rest);
  }

  /** Reading a decimal back gives the number it was written for. */
  lemma {:induction false} DecimalReadsBack(n: nat)
    ensures Digits(Decimal(n)) && Number(Decimal(n)) == n
  {
    var s := Decimal(n);
    if n < 10 {
      assert s[..0] == [];
    } else {
      DecimalReadsBack(n / 10);
      assert s[..|s| - 1] == Decimal(n / 10);
    }
  }

  lemma DecimalIsInjective(m: nat, n: nat)
    requires Decimal(m) == Decimal(n)
    ensures m == n
  {
    DecimalReadsBack(m);
    DecimalReadsBack(n);
  }

  /** What stands before the first separator, and behind it. */
  lemma SeparatorEnds(x: seq<Byte>, sep: Byte, r: seq<Byte>)
    requires sep !in x
    ensures var s := x + [sep] + r;
            s[|x|] == sep && (forall i :: 0 <= i < |x| ==> s[i] != sep) && s[..|x|] == x && s[|x| + 1..] == r
  {
    var s := x + [sep] + r;
    assert forall i :: 0 <= i < |x| ==> s[i] == x[i];
  }

  /** Two texts are told apart by the first separator. */
  lemma SeparatorSplits(x: seq<Byte>, y: seq<Byte>, sep: Byte, r: seq<Byte>, q: seq<Byte>)
    requires sep !in x && sep !in y && x + [sep] + r == y + [sep] + q
    ensures x == y && r == q
  {
    SeparatorEnds(x, sep, r);
    SeparatorEnds(y, sep, q);
    assert |x| == |y|;
  }

  lemma DecimalHasNoDot(n: nat)
    ensures DOT !in Decimal(n)
  {
  }

  /** The text handed to the resolver determines the IPv4 address. */
  lemma DottedIsInjective(a: seq<Byte>, b: seq<Byte>)
    requires |a| == 4 && |b| == 4 && Dotted(a) == Dotted(b)
    ensures a == b
  {
    var a3, b3 := Decimal(a[3]), Decimal(b[3]);
    var a2, b2 := Decimal(a[2]) + [DOT] + a3, Decimal(b[2]) + [DOT] + b3;
    var a1, b1 := Decimal(a[1]) + [DOT] + a2, Decimal(b[1]) + [DOT] + b2;
    hide Decimal;
    forall i | 0 <= i < 4 ensures DOT !in Decimal(a[i]) && DOT !in Decimal(b[i]) {
      DecimalHasNoDot(a[i]);
      DecimalHasNoDot(b[i]);
    }
    SeparatorSplits(Decimal(a[0]), Decimal(b[0]), DOT, a1, b1);
    SeparatorSplits(Decimal(a[1]), Decimal(b[1]), DOT, a2, b2);
    SeparatorSplits(Decimal(a[2]), Decimal(b[2]), DOT, a3, b3);
    DecimalIsInjective(a[0], b[0]);
    DecimalIsInjective(a[1], b[1]);
    DecimalIsInjective(a[2], b[2]);
    DecimalIsInjective(a[3], b[3]);
  }

  function HexValue(b: Byte): int {
    if b < 58 then b - 48 else b - 87
  }

  function HexNumber(s: seq<Byte>): int {
    if s == [] then 0 else 16 * HexNumber(s[..|s| - 1]) + HexValue(s[|s| - 1])
  }

  /** Reading a hexadecimal back gives the number it was written for, and it holds no colon. */
  lemma {:induction false} HexReadsBack(n: nat)
    ensures HexNumber(Hex(n)) == n && COLON !in Hex(n)
  {
    var s := Hex(n);
    if n < 16 {
      assert s[..0] == [];
    } else {
      HexReadsBack(n / 16);
      assert s[..|s| - 1] == Hex(n / 16);
    }
  }

  /** The text handed to the resolver determines the IPv6 address. */
  lemma {:induction false} GroupsIsInjective(a: seq<Byte>, b: seq<Byte>)
    requires |a| == |b| && |a| % 2 == 0 && Groups(a) == Groups(b)
    ensures a == b
  {
    if a != [] {
      var a0: int, a1: int, b0: int, b1: int := a[0], a[1], b[0], b[1];
      var x, y := a0 * 256 + a1, b0 * 256 + b1;
      HexReadsBack(x);
      HexReadsBack(y);
      hide Hex, HexNumber;
      if |a| > 2 {
        assert Groups(a) == Hex(x) + [COLON] + Groups(a[2..]);
        assert Groups(b) == Hex(y) + [COLON] + Groups(b[2..]);
        SeparatorSplits(Hex(x), Hex(y), COLON, Groups(a[2..]), Groups(b[2..]));
        GroupsIsInjective(a[2..], b[2..]);
      } else {
        assert Groups(a) == Hex(x) + [] == Hex(x) && Groups(b) == Hex(y) + [] == Hex(y);
      }
      assert x == y && a[0] == b[0] && a[1] == b[1];
      assert a == [a[0], a[1]] + a[2..] && b == [b[0], b[1]] + b[2..];
    }
  }

  /** The decimal a number has: digits, no leading zero, and that value. */
  predicate DecimalOf(x: seq<Byte>, n: int) {
    x != [] && Digits(x) && Number(x) == n && (|x| > 1 ==> x[0] != 48)
  }

  lemma {:induction false} DecimalIs(n: nat)
    ensures DecimalOf(Decimal(n), n)
  {
    DecimalReadsBack(n);
    if n >= 10 {
      DecimalIs(n / 10);
      assert Decimal(n)[0] == Decimal(n / 10)[0];
      if |Decimal(n / 10)| == 1 {
        assert Number(Decimal(n / 10)) == n / 10 > 0;
        assert Decimal(n / 10)[..0] == [];
      }
    }
  }

  /** The text of an IPv4 address: its four bytes in order, in decimal, between dots. */
  lemma DottedExactly(a: seq<Byte>)
    requires |a| == 4
    ensures exists x: seq<Byte>, y: seq<Byte>, z: seq<Byte>, u: seq<Byte> ::
              Dotted(a) == x + [DOT] + (y + [DOT] + (z + [DOT] + u))
              && DecimalOf(x, a[0]) && DecimalOf(y, a[1]) && DecimalOf(z, a[2]) && DecimalOf(u, a[3])
  {
    DecimalIs(a[0]);
    DecimalIs(a[1]);
    DecimalIs(a[2]);
    DecimalIs(a[3]);
    hide Decimal, DecimalOf;
  }

  /** The hexadecimal a number has: lower-case digits, no leading zero, and that value. */
  predicate HexOf(x: seq<Byte>, n: int) {
    && x != [] && HexNumber(x) == n && (|x| > 1 ==> x[0] != 48)
    && forall i :: 0 <= i < |x| ==> 48 <= x[i] <= 57 || 97 <= x[i] <= 102
  }

  lemma {:induction false} HexIs(n: nat)
    ensures HexOf(Hex(n), n)
  {
    HexReadsBack(n);
    if n >= 16 {
      HexIs(n / 16);
      assert Hex(n)[0] == Hex(n / 16)[0];
      if |Hex(n / 16)| == 1 {
        assert HexNumber(Hex(n / 16)) == n / 16 > 0;
        assert Hex(n / 16)[..0] == [];
      }
    }
  }

  /** The text of an IPv6 address: its words in order, high byte first, in hexadecimal, between colons. */
  lemma GroupsExactly(a: seq<Byte>, hi: int, lo: int)
    requires |a| % 2 == 0 && a != [] && hi == a[0] && lo == a[1]
    ensures |a| == 2 ==> Groups(a) == Hex(256 * hi + lo)
    ensures |a| > 2 ==> Groups(a) == Hex(256 * hi + lo) + ([COLON] + Groups(a[2..]))
  {
    hide Hex;
    var x := Hex(256 * hi + lo);
    assert x + [] == x;
  }

  /**
   * A SOCKS5 client that offers no authentication and names an address of any
   * kind is handed off to exactly that address and port, with one method
   * reply, however its bytes are cut; everything after the handshake reaches
   * the tunnel.
   */
  lemma SocksHandshake(methods: seq<Byte>, a: Address, port: U16, tail: seq<Byte>, chunks: seq<seq<Byte>>)
    requires 0 < |methods| < 256 && AUTH_NONE in methods && WellFormed(a)
    requires Concat(chunks) == BuildGreeting(methods) + BuildRequest(a, port) + tail
    ensures var r, handshake := FeedAll(chunks), BuildGreeting(methods) + BuildRequest(a, port);
            && r.sent == [VERSION, AUTH_NONE]
            && r.outcome.Handoff? && r.outcome.host == HostText(a) && r.outcome.port == port
            && ReadSoFar(chunks) == handshake + r.outcome.payload
            && r.outcome.payload <= tail
  {
    var greeting, request, s := BuildGreeting(methods), BuildRequest(a, port), Concat(chunks);
    Pieces(greeting, request, tail);
    OneReadSocks(s, methods, a, port, tail);
    assert s[0] == VERSION;
    hide Feed, BuildGreeting, BuildRequest, HostText;
    CutsDoNotMatter(chunks);
    hide FeedAll, Concat, ReadSoFar;
    HandshakeThenPayload(ReadSoFar(chunks), s, greeting + request, FeedAll(chunks).outcome.payload, tail);
  }

  lemma Pieces(a: seq<Byte>, b: seq<Byte>, c: seq<Byte>)
    ensures a + b + c == a + (b + c)
    ensures (a + (b + c))[|a|..] == b + c && (b + c)[|b|..] == c
  {
  }

  lemma OneReadSocks(s: seq<Byte>, methods: seq<Byte>, a: Address, port: U16, tail: seq<Byte>)
    requires 0 < |methods| < 256 && AUTH_NONE in methods && WellFormed(a)
    requires s == BuildGreeting(methods) + (BuildRequest(a, port) + tail)
    ensures Feed(ACCEPTED, s) == Session(Socks5, Streaming, [], [VERSION, AUTH_NONE], Handoff(HostText(a), port, tail))
  {
    var greeting, request := BuildGreeting(methods), BuildRequest(a, port);
    GreetingRoundTrip(methods, request + tail);
    RequestRoundTrip(a, port, tail);
    assert s[0] == VERSION;
    Pieces(greeting, request, tail);
    hide ParseGreeting, ParseRequest, BuildGreeting, BuildRequest, AdvanceHttp, HostText;
    OneRead(s);
    var t := Session(Socks5, GreetingPhase, s, [], Open);
    assert Feed(ACCEPTED, s) == AdvanceSocks(t) && t.sent + [VERSION, AUTH_NONE] == [VERSION, AUTH_NONE];
    GreetedAndServed(t, methods, HostText(a), port, greeting, request, tail);
  }

  lemma GreetedAndServed(t: Session, methods: seq<Byte>, host: seq<Byte>, port: U16, greeting: seq<Byte>,
                         request: seq<Byte>, tail: seq<Byte>)
    requires t.protocol == Socks5 && t.phase == GreetingPhase && AUTH_NONE in methods
    requires |greeting| <= |t.buffer| && t.buffer[|greeting|..] == request + tail
    requires ParseGreeting(t.buffer) == Methods(methods, |greeting|)
    requires ParseRequest(request + tail) == Target(host, port, |request|) && (request + tail)[|request|..] == tail
    ensures AdvanceSocks(t)
            == Session(Socks5, Streaming, [], t.sent + [VERSION, AUTH_NONE], Handoff(host, port, tail))
  {
    hide ParseGreeting, ParseRequest;
    var u := t.(buffer := request + tail, sent := t.sent + [VERSION, AUTH_NONE], phase := RequestPhase);
    assert AdvanceSocks(t) == AdvanceRequest(u);
  }

  /**
   * What a rejection leaves open: a client refused for its methods that greets
   * again before the connection is closed is answered and handed off, though
   * in one read the same bytes are refused for good.
   */
  lemma LateGreetingIsServed(a: Address, port: U16, tail: seq<Byte>)
    requires WellFormed(a)
    ensures var first, second := BuildGreeting([2]), BuildGreeting([AUTH_NONE]) + (BuildRequest(a, port) + tail);
            && FeedAll([first, second]).sent == [VERSION, AUTH_NO_ACCEPTABLE, VERSION, AUTH_NONE]
            && FeedAll([first, second]).outcome == Handoff(HostText(a), port, tail)
            && Feed(ACCEPTED, first + second).sent == [VERSION, AUTH_NO_ACCEPTABLE]
            && Feed(ACCEPTED, first + second).outcome == Rejected
  {
    var first, second := BuildGreeting([2]), BuildGreeting([AUTH_NONE]) + (BuildRequest(a, port) + tail);
    GreetingRoundTrip([2], []);
    assert first + [] == first;
    OneReadRefused(first);
    RefusalContinues(first, second);
    TwoReads(first, second);
    hide BuildGreeting, BuildRequest, FeedAll, Feed;
    SecondGreeting(a, port, tail);
  }

  lemma SecondGreeting(a: Address, port: U16, tail: seq<Byte>)
    requires WellFormed(a)
    ensures var t := Session(Socks5, GreetingPhase, [], [VERSION, AUTH_NO_ACCEPTABLE], Rejected);
            var r := Feed(t, BuildGreeting([AUTH_NONE]) + (BuildRequest(a, port) + tail));
            && r.sent == [VERSION, AUTH_NO_ACCEPTABLE, VERSION, AUTH_NONE]
            && r.outcome == Handoff(HostText(a), port, tail)
  {
    GreetingServed(Session(Socks5, GreetingPhase, [], [VERSION, AUTH_NO_ACCEPTABLE], Rejected), a, port, tail);
    hide *;
  }

  lemma GreetingServed(t: Session, a: Address, port: U16, tail: seq<Byte>)
    requires WellFormed(a)
    requires t.protocol == Socks5 && t.phase == GreetingPhase && t.buffer == [] && !t.outcome.Handoff?
    ensures Feed(t, BuildGreeting([AUTH_NONE]) + (BuildRequest(a, port) + tail))
            == Session(Socks5, Streaming, [], t.sent + [VERSION, AUTH_NONE], Handoff(HostText(a), port, tail))
  {
    var greeting, request := BuildGreeting([AUTH_NONE]), BuildRequest(a, port);
    assert greeting != [];
    hide *;
    var second := greeting + (request + tail);
    GreetingRoundTrip([AUTH_NONE], request + tail);
    RequestRoundTrip(a, port, tail);
    Pieces(greeting, request, tail);
    assert [] + second == second;
    SocksReads(t, second);
    GreetedAndServed(t.(buffer := second), [AUTH_NONE], HostText(a), port, greeting, request, tail);
  }

  lemma OneReadRefused(s: seq<Byte>)
    requires ParseGreeting(s) == Methods([2], |s|) && s != [] && s[0] == VERSION
    ensures Feed(ACCEPTED, s) == Session(Socks5, GreetingPhase, [], [VERSION, AUTH_NO_ACCEPTABLE], Rejected)
  {
    OneRead(s);
    hide ParseGreeting;
    assert Feed(ACCEPTED, s) == AdvanceSocks(Session(Socks5, GreetingPhase, s, [], Open));
    assert s[|s|..] == [] && ACCEPTED.sent + [VERSION, AUTH_NO_ACCEPTABLE] == [VERSION, AUTH_NO_ACCEPTABLE];
  }

  lemma HandshakeThenPayload(read: seq<Byte>, s: seq<Byte>, head: seq<Byte>, payload: seq<Byte>, tail: seq<Byte>)
    requires s == head + tail && read <= s && payload <= tail && |read| - |payload| == |head|
    ensures read == head + payload
  {
    assert read == s[..|read|];
  }

  // HTTP CONNECT

  /** Header lines, each ended by CRLF. */
  function Block(lines: seq<seq<Byte>>): seq<Byte> {
    if lines == [] then [] else lines[0] + CRLF + Block(lines[1..])
  }

  predicate HeaderLines(lines: seq<seq<Byte>>) {
    forall i :: 0 <= i < |lines| ==> lines[i] != [] && CRLF[0] !in lines[i]
  }

  lemma NoEmptyLineAt(s: seq<Byte>, j: nat)
    requires j + 4 <= |s| && (s[j] != CRLF[0] || s[j + 2] != CRLF[0])
    ensures !At(s, CRLF_CRLF, j)
  {
    var w := s[j..j + 4];
    assert w[0] == s[j] && w[2] == s[j + 2];
  }

  lemma AtShifts(head: seq<Byte>, s: seq<Byte>, pat: seq<Byte>, k: nat)
    ensures At(head + s, pat, |head| + k) == At(s, pat, k)
  {
    if k + |pat| <= |s| {
      assert (head + s)[|head| + k..|head| + k + |pat|] == s[k..k + |pat|];
    }
  }

  /** The empty line is not found before it is there. */
  lemma {:induction false} NoEarlyEnd(lines: seq<seq<Byte>>, tail: seq<Byte>, j: nat)
    requires lines != [] && HeaderLines(lines) && j + 2 < |Block(lines)|
    ensures !At(Block(lines) + CRLF + tail, CRLF_CRLF, j)
  {
    var line, rest := lines[0], Block(lines[1..]);
    var s, head, after := Block(lines) + CRLF + tail, line + CRLF, rest + CRLF + tail;
    assert s == head + after;
    if j >= |head| {
      NoEarlyEnd(lines[1..], tail, j - |head|);
      AtShifts(head, after, CRLF_CRLF, j - |head|);
    } else {
      if j < |line| {
        assert s[j] == line[j];
      } else if j == |line| {
        assert lines[1..] != [] && s[j + 2] == rest[0] == lines[1][0];
      } else {
        assert s[j] == CRLF[1];
      }
      NoEmptyLineAt(s, j);
    }
  }

  lemma EndFound(lines: seq<seq<Byte>>, tail: seq<Byte>)
    requires lines != [] && HeaderLines(lines)
    ensures Find(Block(lines) + CRLF + tail, CRLF_CRLF, 0) == Some(|Block(lines)| - 2)
  {
    var b := Block(lines);
    var s, e := b + CRLF + tail, |b| - 2;
    BlockEndsLine(lines);
    assert s[e..e + 4] == b[e..] + CRLF;
    assert At(s, CRLF_CRLF, e);
    forall j | 0 <= j < e ensures !At(s, CRLF_CRLF, j) {
      NoEarlyEnd(lines, tail, j);
    }
  }

  lemma {:induction false} BlockEndsLine(lines: seq<seq<Byte>>)
    requires lines != []
    ensures |Block(lines)| >= 2 && Block(lines)[|Block(lines)| - 2..] == CRLF
  {
    if lines[1..] != [] {
      BlockEndsLine(lines[1..]);
      var rest := Block(lines[1..]);
      assert Block(lines)[|Block(lines)| - 2..] == rest[|rest| - 2..];
    } else {
      assert Block(lines) == lines[0] + CRLF + [];
    }
  }

  lemma FindAt(s: seq<Byte>, pat: seq<Byte>, i: nat, k: nat)
    requires pat != [] && i <= k && At(s, pat, k) && forall j :: i <= j < k ==> s[j] != pat[0]
    ensures Find(s, pat, i) == Some(k)
  {
    forall j | i <= j < k ensures !At(s, pat, j) {
      assert j + |pat| <= |s| ==> s[j..j + |pat|][0] == s[j];
    }
  }

  /** The request line is the first line. */
  lemma FirstLine(lines: seq<seq<Byte>>)
    requires lines != [] && HeaderLines(lines)
    ensures |Block(lines)| >= 2 && RequestLine(Block(lines)[..|Block(lines)| - 2]) == lines[0]
  {
    var line, b := lines[0], Block(lines);
    BlockEndsLine(lines);
    if lines[1..] == [] {
      assert b == line + CRLF + [];
      assert b[..|b| - 2] == line;
      NoLineEnd(line);
    } else {
      BlockEndsLine(lines[1..]);
      FirstOfMany(line, Block(lines[1..]), b);
    }
  }

  lemma FirstOfMany(line: seq<Byte>, rest: seq<Byte>, b: seq<Byte>)
    requires CRLF[0] !in line && |rest| >= 2 && b == line + CRLF + rest
    ensures RequestLine(b[..|b| - 2]) == line
  {
    var headers := b[..|b| - 2];
    assert headers == line + CRLF + rest[..|rest| - 2];
    assert headers[|line|..|line| + 2] == CRLF;
    assert headers[..|line|] == line;
    assert forall j :: 0 <= j < |line| ==> headers[j] == line[j];
    FindAt(headers, CRLF, 0, |line|);
  }

  lemma NoLineEnd(line: seq<Byte>)
    requires CRLF[0] !in line
    ensures Find(line, CRLF, 0) == None
  {
    forall j: nat ensures !At(line, CRLF, j) {
      assert j + 2 <= |line| ==> line[j..j + 2][0] == line[j];
    }
  }

  /** "CONNECT host:port HTTP/" and whatever names the version. */
  function ConnectLine(authority: seq<Byte>, version: seq<Byte>): seq<Byte> {
    CONNECT + authority + [SPACE] + HTTP_SLASH + version
  }

  lemma LineRoundTrip(authority: seq<Byte>, version: seq<Byte>)
    requires SPACE !in authority
    ensures ParseLine(ConnectLine(authority, version)) == ParseAuthority(authority)
  {
    var line, head := ConnectLine(authority, version), CONNECT + authority;
    var sp := |head|;
    assert line == head + [SPACE] + (HTTP_SLASH + version);
    assert line[..|CONNECT|] == CONNECT;
    assert line[sp..sp + 1] == [SPACE];
    assert forall j :: |CONNECT| <= j < sp ==> line[j] == authority[j - |CONNECT|];
    FindAt(line, [SPACE], |CONNECT|, sp);
    assert line[sp + 1..] == HTTP_SLASH + version;
    assert line[|CONNECT|..sp] == authority;
  }

  predicate PlainHost(host: seq<Byte>) {
    host != [] && host[0] != OPEN_BRACKET
  }

  function WriteAuthority(host: seq<Byte>, port: U16): seq<Byte> {
    if PlainHost(host) then host + [COLON] + Decimal(port)
    else [OPEN_BRACKET] + host + [CLOSE_BRACKET, COLON] + Decimal(port)
  }

  lemma PortRoundTrip(port: U16)
    requires port > 0
    ensures ParsePort(Decimal(port)) == Some(port)
  {
    DecimalReadsBack(port);
  }

  lemma {:induction false} LastIs(a: seq<Byte>, b: Byte, n: nat)
    requires n < |a| && a[n] == b && b !in a[n + 1..]
    ensures FindLast(a, b) == Some(n)
  {
    if n + 1 < |a| {
      var m := |a| - 1;
      assert a[m] == a[n + 1..][m - n - 1];
      assert a[n + 1..] == a[..m][n + 1..] + [a[m]];
      LastIs(a[..m], b, n);
    }
  }

  /** A plain host may contain colons, a bracketed one anything but its closing bracket. */
  lemma AuthorityRoundTrip(host: seq<Byte>, port: U16)
    requires port > 0 && (PlainHost(host) || CLOSE_BRACKET !in host)
    ensures ParseAuthority(WriteAuthority(host, port)) == Some(Authority(host, port))
  {
    var a, digits := WriteAuthority(host, port), Decimal(port);
    PortRoundTrip(port);
    hide ParsePort, Decimal;
    if PlainHost(host) {
      var n := |host|;
      assert a[n] == COLON && a[n + 1..] == digits && a[..n] == host;
      LastIs(a, COLON, n);
    } else {
      var head, n := [OPEN_BRACKET] + host, |host| + 1;
      assert a == head + [CLOSE_BRACKET, COLON] + digits;
      assert a[n] == CLOSE_BRACKET && a[n + 1] == COLON;
      assert a[n..n + 1] == [CLOSE_BRACKET] && a[n + 2..] == digits && a[1..n] == host;
      assert forall j :: 0 <= j < n ==> a[j] == head[j];
      FindAt(a, [CLOSE_BRACKET], 0, n);
    }
  }

  /**
   * A CONNECT request for a host and port, with any further headers, is handed
   * off to exactly that host and port however its bytes are cut, provided its
   * header block ends within one byte of the cap; everything after the block
   * reaches the tunnel.
   */
  lemma ConnectHandshake(
    host: seq<Byte>, port: U16, version: seq<Byte>, more: seq<seq<Byte>>, tail: seq<Byte>, chunks: seq<seq<Byte>>)
    requires port > 0 && (PlainHost(host) || CLOSE_BRACKET !in host) && SPACE !in WriteAuthority(host, port)
    requires HeaderLines([ConnectLine(WriteAuthority(host, port), version)] + more)
    requires var lines := [ConnectLine(WriteAuthority(host, port), version)] + more;
             Concat(chunks) == Block(lines) + CRLF + tail && |Block(lines)| + 2 <= HTTP_HEADER_CAP + 1
    ensures var r := FeedAll(chunks);
            var handshake := Block([ConnectLine(WriteAuthority(host, port), version)] + more) + CRLF;
            && r.sent == []
            && r.outcome.Handoff? && r.outcome.host == host && r.outcome.port == port
            && ReadSoFar(chunks) == handshake + r.outcome.payload
            && r.outcome.payload <= tail
  {
    var lines := [ConnectLine(WriteAuthority(host, port), version)] + more;
    var s, handshake := Concat(chunks), Block(lines) + CRLF;
    ConnectParses(host, port, version, lines, tail);
    assert s == handshake + tail;
    assert s[|handshake|..] == tail;
    hide ParseHttp, Block, ConnectLine, WriteAuthority;
    OneReadHttp(s);
    hide Feed;
    CutsDoNotMatter(chunks);
    hide FeedAll, Concat, ReadSoFar;
    HandshakeThenPayload(ReadSoFar(chunks), s, handshake, FeedAll(chunks).outcome.payload, tail);
  }

  lemma ConnectParses(host: seq<Byte>, port: U16, version: seq<Byte>, lines: seq<seq<Byte>>, tail: seq<Byte>)
    requires port > 0 && (PlainHost(host) || CLOSE_BRACKET !in host) && SPACE !in WriteAuthority(host, port)
    requires HeaderLines(lines) && lines != [] && lines[0] == ConnectLine(WriteAuthority(host, port), version)
    ensures var s := Block(lines) + CRLF + tail;
            ParseHttp(s) == HttpTarget(host, port, |Block(lines)| + 2) && s != [] && s[0] != VERSION
  {
    hide ParseHttp, ParseLine, RequestLine, WriteAuthority, ConnectLine, Block, HeaderLines, ParseAuthority, Find;
    hide PlainHost, CRLF_CRLF, BAD_REQUEST;
    FirstByte(lines, WriteAuthority(host, port), version, tail);
    BlockParts(lines, tail);
    AuthorityRoundTrip(host, port);
    LineRoundTrip(WriteAuthority(host, port), version);
    HttpParsed(Block(lines) + CRLF + tail, |Block(lines)| - 2, lines[0], Authority(host, port));
  }

  lemma BlockParts(lines: seq<seq<Byte>>, tail: seq<Byte>)
    requires lines != [] && HeaderLines(lines)
    ensures var b, s := Block(lines), Block(lines) + CRLF + tail;
            |b| >= 2 && Find(s, CRLF_CRLF, 0) == Some(|b| - 2) && RequestLine(s[..|b| - 2]) == lines[0]
  {
    var b, s := Block(lines), Block(lines) + CRLF + tail;
    FirstLine(lines);
    EndFound(lines, tail);
    hide Block, RequestLine, HeaderLines, Find;
    assert s[..|b| - 2] == b[..|b| - 2];
  }

  lemma HttpParsed(s: seq<Byte>, end: nat, line: seq<Byte>, a: Authority)
    requires Find(s, CRLF_CRLF, 0) == Some(end) && RequestLine(s[..end]) == line && ParseLine(line) == Some(a)
    ensures ParseHttp(s) == HttpTarget(a.host, a.port, end + 4)
  {
    hide Find, RequestLine, ParseLine;
  }

  lemma FirstByte(lines: seq<seq<Byte>>, authority: seq<Byte>, version: seq<Byte>, tail: seq<Byte>)
    requires lines != [] && lines[0] == ConnectLine(authority, version)
    ensures var s := Block(lines) + CRLF + tail;
            s != [] && s[0] != VERSION
  {
    assert Block(lines)[0] == CONNECT[0];
  }

  // ---------------------------------------------------------------------------
  // Exactly what is accepted
  // ---------------------------------------------------------------------------

  /**
   * A greeting is accepted exactly if it starts with a well-formed one, waited
   * for while it could still become one or is too short to tell, and refused
   * otherwise.
   */
  lemma GreetingExactly(s: seq<Byte>)
    ensures ParseGreeting(s).Methods? <==> exists m: seq<Byte> :: 0 < |m| < 256 && BuildGreeting(m) <= s
    ensures ParseGreeting(s).NeedGreeting? <==> |s| < 2 || (s[0] == VERSION && s[1] > 0 && |s| - 2 < s[1])
  {
    if ParseGreeting(s).Methods? {
      GreetingIsWellFormed(s);
    }
    if m: seq<Byte> :| 0 < |m| < 256 && BuildGreeting(m) <= s {
      var rest := s[|BuildGreeting(m)|..];
      assert s == BuildGreeting(m) + rest;
      GreetingRoundTrip(m, rest);
    }
  }

  lemma GreetingIsWellFormed(s: seq<Byte>)
    requires ParseGreeting(s).Methods?
    ensures var g := ParseGreeting(s);
            && 0 < |g.methods| < 256 && BuildGreeting(g.methods) <= s && g.consumed == |BuildGreeting(g.methods)|
  {
    var n: int := s[1];
    assert s[..2 + n] == [VERSION, s[1]] + s[2..2 + n];
  }

  /** The address a complete request names. */
  function AddressIn(s: seq<Byte>): Address
    requires ParseRequest(s).Target?
  {
    if s[3] == ATYP_IPV4 then Ipv4(s[4..8])
    else if s[3] == ATYP_DOMAIN then
      var n: int := s[4];
      Domain(s[5..5 + n])
    else Ipv6(s[4..20])
  }

  /** Only a CONNECT request of the right version for a known kind of address is accepted, and it says what it names. */
  lemma AcceptedIsWellFormed(s: seq<Byte>)
    requires ParseRequest(s).Target?
    ensures var r, a := ParseRequest(s), AddressIn(s);
            && WellFormed(a) && BuildRequest(a, r.port) <= s
            && r.host == HostText(a) && r.consumed == |BuildRequest(a, r.port)|
  {
    hide Dotted, Groups;
    var r, a := ParseRequest(s), AddressIn(s);
    var n := r.consumed - 2;
    var hi: int, lo: int := s[n], s[n + 1];
    assert r.port == hi * 256 + lo && r.port / 256 == hi && r.port % 256 == lo;
    assert s[..r.consumed] == s[..3] + s[3..n] + [s[n], s[n + 1]];
    assert s[..3] == [VERSION, CMD_CONNECT, 0];
    match a
    case Ipv4(bytes) => assert s[3..n] == [ATYP_IPV4] + bytes;
    case Domain(name) => assert s[3..n] == [ATYP_DOMAIN, |name|] + name;
    case Ipv6(bytes) => assert s[3..n] == [ATYP_IPV6] + bytes;
  }

  /** A request is accepted exactly if it starts with a well-formed one. */
  lemma RequestExactly(s: seq<Byte>)
    ensures ParseRequest(s).Target? <==> exists a, port :: WellFormed(a) && BuildRequest(a, port) <= s
  {
    if ParseRequest(s).Target? {
      AcceptedIsWellFormed(s);
    }
    if a, port :| WellFormed(a) && BuildRequest(a, port) <= s {
      var rest := s[|BuildRequest(a, port)|..];
      assert s == BuildRequest(a, port) + rest;
      RequestRoundTrip(a, port, rest);
    }
  }

  /**
   * What a refused request is told: another command is not supported, another
   * kind of address is not supported, and anything else malformed is a general
   * failure. Nothing is refused before its first four bytes are there.
   */
  lemma RefusalExactly(s: seq<Byte>)
    ensures var r := ParseRequest(s);
            && (r.BadRequest? ==> r.reply in {REPLY_GENERAL_FAILURE, REPLY_CMD_NOT_SUPPORTED, REPLY_ATYP_NOT_SUPPORTED})
            && (r == BadRequest(REPLY_CMD_NOT_SUPPORTED) <==>
                  |s| >= 4 && s[0] == VERSION && s[2] == 0 && s[1] != CMD_CONNECT)
            && (r == BadRequest(REPLY_ATYP_NOT_SUPPORTED) <==>
                  |s| >= 4 && s[..3] == [VERSION, CMD_CONNECT, 0]
                  && s[3] !in {ATYP_IPV4, ATYP_DOMAIN, ATYP_IPV6})
            && (r == BadRequest(REPLY_GENERAL_FAILURE) <==>
                  |s| >= 4 && (s[0] != VERSION || s[2] != 0
                               || (s[1] == CMD_CONNECT && s[3] == ATYP_DOMAIN && |s| >= 5 && s[4] == 0)))
  {
    assert |s| >= 4 ==> s[..3] == [s[0], s[1], s[2]];
    hide Dotted, Groups, PortAt;
  }

  /** A decimal port between 1 and 65535, and what comes before it. */
  predicate PortText(digits: seq<Byte>, port: int) {
    digits != [] && Digits(digits) && Number(digits) == port && 0 < port <= 65535
  }

  /** An authority is read as a host and port exactly if it is the one, a colon, and the digits of the other. */
  lemma AuthorityExactly(a: seq<Byte>, host: seq<Byte>, port: U16)
    ensures ParseAuthority(a) == Some(Authority(host, port))
            <==> exists digits: seq<Byte> ::
                   PortText(digits, port)
                   && (if a != [] && a[0] == OPEN_BRACKET then
                         a == [OPEN_BRACKET] + host + [CLOSE_BRACKET, COLON] + digits && CLOSE_BRACKET !in host
                       else host != [] && a == host + [COLON] + digits)
  {
    if ParseAuthority(a) == Some(Authority(host, port)) {
      AuthoritySplits(a, host, port);
    }
    if digits: seq<Byte> :| PortText(digits, port)
                            && (if a != [] && a[0] == OPEN_BRACKET then
                                  a == [OPEN_BRACKET] + host + [CLOSE_BRACKET, COLON] + digits
                                  && CLOSE_BRACKET !in host
                                else host != [] && a == host + [COLON] + digits) {
      AuthorityJoins(a, host, port, digits);
    }
  }

  lemma AuthoritySplits(a: seq<Byte>, host: seq<Byte>, port: U16)
    requires ParseAuthority(a) == Some(Authority(host, port))
    ensures exists digits: seq<Byte> ::
              PortText(digits, port)
              && (if a != [] && a[0] == OPEN_BRACKET then
                    a == [OPEN_BRACKET] + host + [CLOSE_BRACKET, COLON] + digits && CLOSE_BRACKET !in host
                  else host != [] && a == host + [COLON] + digits)
  {
    if a != [] && a[0] == OPEN_BRACKET {
      var n := Find(a, [CLOSE_BRACKET], 0).value;
      var digits := a[n + 2..];
      assert a[n..n + 1][0] == a[n] == CLOSE_BRACKET;
      assert a == [OPEN_BRACKET] + host + [CLOSE_BRACKET, COLON] + digits;
      forall i | 0 <= i < |host| ensures host[i] != CLOSE_BRACKET {
        assert host[i] == a[i + 1] && !At(a, [CLOSE_BRACKET], i + 1);
        assert a[i + 1..i + 2] == [a[i + 1]];
      }
      assert PortText(digits, port);
    } else {
      var n := FindLast(a, COLON).value;
      var digits := a[n + 1..];
      assert a == host + [COLON] + digits && PortText(digits, port);
    }
  }

  lemma AuthorityJoins(a: seq<Byte>, host: seq<Byte>, port: U16, digits: seq<Byte>)
    requires PortText(digits, port)
    requires if a != [] && a[0] == OPEN_BRACKET then
               a == [OPEN_BRACKET] + host + [CLOSE_BRACKET, COLON] + digits && CLOSE_BRACKET !in host
             else host != [] && a == host + [COLON] + digits
    ensures ParseAuthority(a) == Some(Authority(host, port))
  {
    assert ParsePort(digits) == Some(port);
    assert COLON !in digits;
    hide ParsePort, Digits, Number;
    if a != [] && a[0] == OPEN_BRACKET {
      var head, n := [OPEN_BRACKET] + host, |host| + 1;
      assert a == head + [CLOSE_BRACKET, COLON] + digits;
      assert a[n] == CLOSE_BRACKET && a[n + 1] == COLON;
      assert a[n..n + 1] == [CLOSE_BRACKET] && a[n + 2..] == digits && a[1..n] == host;
      assert forall j :: 0 <= j < n ==> a[j] == head[j];
      FindAt(a, [CLOSE_BRACKET], 0, n);
    } else {
      var n := |host|;
      assert a[n] == COLON && a[n + 1..] == digits && a[..n] == host;
      LastIs(a, COLON, n);
    }
  }

  /** A request line is accepted exactly if it is CONNECT, an authority that is read, and an HTTP version. */
  lemma LineExactly(line: seq<Byte>, target: Authority)
    ensures ParseLine(line) == Some(target)
            <==> exists authority, version ::
                   SPACE !in authority && line == ConnectLine(authority, version)
                   && ParseAuthority(authority) == Some(target)
  {
    if ParseLine(line) == Some(target) {
      var sp := Find(line, [SPACE], |CONNECT|).value;
      var authority, after := line[|CONNECT|..sp], line[sp + 1..];
      var version := after[|HTTP_SLASH|..];
      assert line[sp..sp + 1] == [SPACE] && after == HTTP_SLASH + version;
      assert line == CONNECT + authority + [SPACE] + (HTTP_SLASH + version);
      assert line == ConnectLine(authority, version);
      forall i | 0 <= i < |authority| ensures authority[i] != SPACE {
        var j := |CONNECT| + i;
        assert authority[i] == line[j] && !At(line, [SPACE], j);
        assert line[j..j + 1] == [line[j]];
      }
    }
    if authority, version :| SPACE !in authority && line == ConnectLine(authority, version)
                             && ParseAuthority(authority) == Some(target) {
      LineRoundTrip(authority, version);
    }
  }

  /** What one read of a SOCKS5 stream is answered with, by what its greeting and request are. */
  lemma SocksRepliesExactly(s: seq<Byte>)
    requires s != [] && s[0] == VERSION
    ensures var w, g := Feed(ACCEPTED, s), ParseGreeting(s);
            match g
            case NeedGreeting => w.sent == [] && w.outcome == Open
            case BadGreeting => w.sent == EncodeReply(REPLY_GENERAL_FAILURE) && w.outcome == Rejected
            case Methods(methods, consumed) =>
              if AUTH_NONE !in methods then w.sent == [VERSION, AUTH_NO_ACCEPTABLE] && w.outcome == Rejected
              else
                match ParseRequest(s[consumed..])
                case NeedRequest => w.sent == [VERSION, AUTH_NONE] && w.outcome == Open
                case BadRequest(reply) =>
                  w.sent == [VERSION, AUTH_NONE] + EncodeReply(reply) && w.outcome == Rejected
                case Target(host, port, used) =>
                  w.sent == [VERSION, AUTH_NONE] && w.outcome == Handoff(host, port, s[consumed + used..])
  {
    OneRead(s);
    var t := Session(Socks5, GreetingPhase, s, [], Open);
    assert Feed(ACCEPTED, s) == AdvanceSocks(t);
    SocksReplies(t);
    hide Feed, AdvanceSocks, ParseGreeting, ParseRequest;
    if ParseGreeting(s).Methods? && ParseRequest(s[ParseGreeting(s).consumed..]).Target? {
      var k := ParseGreeting(s).consumed;
      var used := ParseRequest(s[k..]).consumed;
      assert s[k..][used..] == s[k + used..];
    }
  }

  lemma SocksReplies(t: Session)
    requires t.protocol == Socks5 && t.phase == GreetingPhase && t.sent == [] && t.outcome == Open
    ensures var w, g := AdvanceSocks(t), ParseGreeting(t.buffer);
            match g
            case NeedGreeting => w.sent == [] && w.outcome == Open
            case BadGreeting => w.sent == EncodeReply(REPLY_GENERAL_FAILURE) && w.outcome == Rejected
            case Methods(methods, consumed) =>
              if AUTH_NONE !in methods then w.sent == [VERSION, AUTH_NO_ACCEPTABLE] && w.outcome == Rejected
              else
                match ParseRequest(t.buffer[consumed..])
                case NeedRequest => w.sent == [VERSION, AUTH_NONE] && w.outcome == Open
                case BadRequest(reply) =>
                  w.sent == [VERSION, AUTH_NONE] + EncodeReply(reply) && w.outcome == Rejected
                case Target(host, port, used) =>
                  w.sent == [VERSION, AUTH_NONE] && w.outcome == Handoff(host, port, t.buffer[consumed..][used..])
  {
    hide ParseGreeting, ParseRequest;
    assert forall x: seq<Byte> :: t.sent + x == x;
  }
}
