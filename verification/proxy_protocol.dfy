/** PROXY protocol v1 of src/proxy_protocol.rs: the header reader for the trusted upstream, the spoof check for
    everyone else, and the stream that replays the bytes the check consumed. Timeouts and I/O errors are left
    out; a stream is the sequence of the bytes still to come, followed by end of file. */
module ProxyProtocol {
  import opened Basics
  import opened Net
  import opened Text
  import opened Config

  const MAX_HEADER := 107
  const CR: byte := 13
  const LF: byte := 10
  const SIGNATURE := "PROXY TCP4 "
  const CRLF := "\r\n"
  /** The five bytes of PROXY. */
  const SPOOF: seq<byte> := [80, 82, 79, 88, 89]

  datatype SocketAddr = SocketAddr(ip: IpAddr, port: nat)

  datatype HeaderError = Eof | TooLong | NotUtf8 | Malformed | Spoofed

  // ---- the text of a header ----

  function ToBytes(s: string): (b: seq<byte>)
    requires Ascii(s)
    ensures |b| == |s|
  {
    seq(|s|, i requires 0 <= i < |s| => s[i] as int as byte)
  }

  /** Bytes above 127 are refused: an invalid sequence by the UTF-8 check, a valid one by the parser. */
  function AsText(b: seq<byte>): Option<string> {
    if forall i :: 0 <= i < |b| ==> b[i] < 128 then Some(seq(|b|, i requires 0 <= i < |b| => b[i] as int as char))
    else None
  }

  predicate Within(b: byte, lo: byte, hi: byte) {
    lo <= b <= hi
  }

  predicate Tails(b: seq<byte>) {
    forall i :: 0 <= i < |b| ==> Within(b[i], 0x80, 0xBF)
  }

  /** The length of the UTF-8 sequence `b` begins with, zero without one (section 4 of RFC 3629). */
  function SequenceLength(b: seq<byte>): (n: nat)
    ensures n <= |b|
  {
    if |b| >= 1 && b[0] < 0x80 then 1
    else if |b| >= 2 && Within(b[0], 0xC2, 0xDF) && Tails(b[1..2]) then 2
    else if |b| >= 3 && Within(b[0], 0xE0, 0xEF) && Tails(b[1..3])
            && (b[0] == 0xE0 ==> b[1] >= 0xA0) && (b[0] == 0xED ==> b[1] <= 0x9F) then 3
    else if |b| >= 4 && Within(b[0], 0xF0, 0xF4) && Tails(b[1..4])
            && (b[0] == 0xF0 ==> b[1] >= 0x90) && (b[0] == 0xF4 ==> b[1] <= 0x8F) then 4
    else 0
  }

  predicate ValidUtf8(b: seq<byte>)
    decreases |b|
  {
    b == [] || (SequenceLength(b) > 0 && ValidUtf8(b[SequenceLength(b)..]))
  }

  lemma {:induction false} AsciiIsUtf8(b: seq<byte>)
    ensures AsText(b).Some? ==> ValidUtf8(b)
  {
    if AsText(b).Some? && b != [] {
      assert forall i :: 0 <= i < |b[1..]| ==> b[1..][i] == b[i + 1];
      AsciiIsUtf8(b[1..]);
    }
  }

  /** What stands between the signature and the line end, which cannot overlap. */
  function Payload(header: string): (payload: string)
    requires SIGNATURE <= header && EndsWith(header, CRLF)
    ensures header == SIGNATURE + payload + CRLF
  {
    assert header[10] == SIGNATURE[10] == ' ';
    assert header[|header| - 2..][0] == '\r' && header[|header| - 2..][1] == '\n';
    header[11..|header| - 2]
  }

  function ParseV1(header: string): Option<(Ipv4, nat)> {
    if !(SIGNATURE <= header) || !EndsWith(header, CRLF) then None
    else
      var parts := Split(Payload(header), ' ');
      if |parts| != 4 then None
      else
        match (ParseIpv4(parts[0]), ParseIpv4(parts[1]), ParseUint(parts[2], U16_MAX), ParseUint(parts[3], U16_MAX))
        case (Some(client), Some(_), Some(port), Some(_)) => Some((client, port))
        case _ => None
  }

  /** A header line from its four fields. */
  function Line(client: string, proxy: string, clientPort: string, proxyPort: string): string {
    SIGNATURE + (client + [' '] + (proxy + [' '] + (clientPort + [' '] + proxyPort))) + CRLF
  }

  lemma LineIs(client: string, proxy: string, clientPort: string, proxyPort: string)
    ensures Line(client, proxy, clientPort, proxyPort) ==
      "PROXY TCP4 " + client + " " + proxy + " " + clientPort + " " + proxyPort + "\r\n"
  {
    assert " " == [' '];
  }

  /** The canonical TCP4 line of section 2.1 of the PROXY protocol specification. */
  function PrintV1(client: Ipv4, proxy: Ipv4, clientPort: nat, proxyPort: nat): string {
    Line(PrintIpv4(client), PrintIpv4(proxy), Print(clientPort), Print(proxyPort))
  }

  lemma LineFields(a: string, b: string, c: string, d: string)
    requires ' ' !in a && ' ' !in b && ' ' !in c && ' ' !in d
    ensures var h := Line(a, b, c, d);
      SIGNATURE <= h && EndsWith(h, CRLF) && Split(Payload(h), ' ') == [a, b, c, d]
  {
    var h := Line(a, b, c, d);
    SplitFour(a, b, c, d, ' ');
    hide Split;
    assert EndsWith(h, CRLF);
    assert Payload(h) == a + [' '] + (b + [' '] + (c + [' '] + d));
  }

  lemma NumberHasNo(s: string, max: nat, c: char)
    requires ParseUint(s, max).Some? && !IsDigit(c) && c != '+'
    ensures c !in s
  {
    assert |s| > 0 && s[0] == '+' ==> s == ['+'] + s[1..];
  }

  lemma Ipv4HasNo(ip: Ipv4, c: char)
    requires !IsDigit(c) && c != '.'
    ensures c !in PrintIpv4(ip)
  {
  }

  /** The fields of a line decide what is parsed out of it. */
  lemma ParseLine(client: Ipv4, proxy: Ipv4, clientPort: string, proxyPort: string)
    requires ParseUint(clientPort, U16_MAX).Some? && ParseUint(proxyPort, U16_MAX).Some?
    ensures ParseV1(Line(PrintIpv4(client), PrintIpv4(proxy), clientPort, proxyPort)) ==
      Some((client, ParseUint(clientPort, U16_MAX).value))
  {
    hide PrintIpv4, ParseIpv4, ParseUint, Split, Line, EndsWith;
    Ipv4HasNo(client, ' ');
    Ipv4HasNo(proxy, ' ');
    NumberHasNo(clientPort, U16_MAX, ' ');
    NumberHasNo(proxyPort, U16_MAX, ' ');
    LineFields(PrintIpv4(client), PrintIpv4(proxy), clientPort, proxyPort);
    Ipv4Spelling(PrintIpv4(client), client);
    Ipv4Spelling(PrintIpv4(proxy), proxy);
  }

  /** A header that parses is such a line: the addresses in their one spelling, the ports in any spelling of a
      16-bit number. */
  lemma ParsedIsLine(header: string)
    requires ParseV1(header).Some?
    ensures var parts := Split(Payload(header), ' ');
      && |parts| == 4
      && ParseIpv4(parts[1]).Some? && ParseUint(parts[3], U16_MAX).Some?
      && ParseUint(parts[2], U16_MAX) == Some(ParseV1(header).value.1)
      && header == Line(PrintIpv4(ParseV1(header).value.0), PrintIpv4(ParseIpv4(parts[1]).value), parts[2], parts[3])
  {
    var payload := Payload(header);
    var parts := Split(payload, ' ');
    FourParts(payload, ' ');
    Ipv4Spelling(parts[0], ParseIpv4(parts[0]).value);
    Ipv4Spelling(parts[1], ParseIpv4(parts[1]).value);
  }

  /** Exactly the lines with these fields parse to `client` and `port`. */
  lemma ParseV1Iff(header: string, client: Ipv4, port: nat)
    ensures ParseV1(header) == Some((client, port)) <==>
      exists proxy: Ipv4, clientPort: string, proxyPort: string ::
        ParseUint(clientPort, U16_MAX) == Some(port) && ParseUint(proxyPort, U16_MAX).Some? &&
        header == Line(PrintIpv4(client), PrintIpv4(proxy), clientPort, proxyPort)
  {
    if ParseV1(header) == Some((client, port)) {
      ParsedIsLine(header);
    }
    forall proxy: Ipv4, clientPort: string, proxyPort: string |
      ParseUint(clientPort, U16_MAX) == Some(port) && ParseUint(proxyPort, U16_MAX).Some? &&
      header == Line(PrintIpv4(client), PrintIpv4(proxy), clientPort, proxyPort)
      ensures ParseV1(header) == Some((client, port))
    {
      ParseLine(client, proxy, clientPort, proxyPort);
    }
  }

  /** A header ends in the first carriage return that is followed by a newline. */
  lemma HeaderIff(s: seq<byte>, n: nat)
    ensures IsHeader(s, n) <==>
      && 2 <= n <= |s| && s[n - 2] == 13 && s[n - 1] == 10
      && forall k :: 0 <= k < n - 2 && s[k] == 13 ==> s[k + 1] != 10
  {
    if 2 <= n <= |s| {
      forall m: nat | m < n ensures EndsInCrlf(s[..m]) <==> m >= 2 && s[m - 2] == 13 && s[m - 1] == 10 {
      }
      if forall m :: 0 <= m < n ==> !EndsInCrlf(s[..m]) {
        forall k | 0 <= k < n - 2 && s[k] == 13 ensures s[k + 1] != 10 {
          assert !EndsInCrlf(s[..k + 2]);
        }
      }
    }
  }

  // ---- the trusted read loop ----

  predicate EndsInCrlf(b: seq<byte>) {
    |b| >= 2 && b[|b| - 2] == CR && b[|b| - 1] == LF
  }

  /** The first `n` bytes are the shortest prefix that ends in CRLF. */
  predicate IsHeader(s: seq<byte>, n: nat) {
    n <= |s| && EndsInCrlf(s[..n]) && forall m :: 0 <= m < n ==> !EndsInCrlf(s[..m])
  }

  class TcpStream {
    var unread: seq<byte>

    constructor (bytes: seq<byte>)
      ensures unread == bytes
    {
      unread := bytes;
    }

    /** `read` into a buffer of `capacity` bytes when the socket has `offered` ready; empty at end of file. */
    method Read(capacity: nat, offered: nat) returns (chunk: seq<byte>)
      requires offered > 0
      modifies this
      ensures chunk == old(unread)[..Chunk(capacity, offered, old(unread))]
      ensures unread == old(unread)[Chunk(capacity, offered, old(unread))..]
    {
      var n := Chunk(capacity, offered, unread);
      chunk := unread[..n];
      unread := unread[n..];
    }
  }

  function Chunk(capacity: nat, offered: nat, unread: seq<byte>): (n: nat)
    ensures n <= |unread|
  {
    var n := if capacity <= offered then capacity else offered;
    if n <= |unread| then n else |unread|
  }

  /** No prefix shorter than `k` ends in CRLF. */
  predicate NoCrlfBefore(s: seq<byte>, k: nat) {
    forall m :: 0 <= m < k && m <= |s| ==> !EndsInCrlf(s[..m])
  }

  lemma NoCrlfStep(s: seq<byte>, k: nat)
    requires k <= |s| && NoCrlfBefore(s, k) && !EndsInCrlf(s[..k])
    ensures NoCrlfBefore(s, k + 1)
  {
  }

  lemma NoHeaderWithin(s: seq<byte>, k: nat)
    requires NoCrlfBefore(s, k + 1)
    ensures forall n: nat :: n <= k ==> !IsHeader(s, n)
    ensures k == |s| ==> forall n: nat :: !IsHeader(s, n)
  {
  }

  /** Byte by byte up to CRLF: consumes exactly the shortest prefix ending in CRLF, or fails without one. */
  method ReadHeader(stream: TcpStream) returns (r: Result<seq<byte>, HeaderError>)
    modifies stream
    ensures r.Ok? <==> exists n: nat :: n <= 107 && IsHeader(old(stream.unread), n)
    ensures r.Ok? ==> IsHeader(old(stream.unread), |r.value|) && old(stream.unread) == r.value + stream.unread
    ensures r.Err? ==> r.error == if |old(stream.unread)| < 107 then Eof else TooLong
  {
    hide EndsInCrlf, NoCrlfBefore, IsHeader, Chunk;
    ghost var s := stream.unread;
    var header: seq<byte> := [];
    NoCrlfBeforeZero(s);
    while |header| < MAX_HEADER && !EndsInCrlf(header)
      invariant |header| <= MAX_HEADER && |header| <= |s| && header == s[..|header|] && stream.unread == s[|header|..]
      invariant NoCrlfBefore(s, |header|)
      decreases MAX_HEADER - |header|
    {
      NoCrlfStep(s, |header|);
      OneByte(s, |header|);
      var chunk := stream.Read(1, 1);
      if chunk == [] {
        NoHeaderWithin(s, |s|);
        return Err(Eof);
      }
      header := header + chunk;
    }
    if !EndsInCrlf(header) {
      NoCrlfStep(s, |header|);
      NoHeaderWithin(s, MAX_HEADER);
      return Err(TooLong);
    }
    ShortestIsHeader(s, |header|);
    return Ok(header);
  }

  /** A read of one byte behind the first `k`. */
  lemma OneByte(s: seq<byte>, k: nat)
    requires k <= |s|
    ensures var n := Chunk(1, 1, s[k..]);
      if k == |s| then s[k..][..n] == []
      else s[k..][..n] == [s[k]] && s[k..][n..] == s[k + 1..] && s[..k] + [s[k]] == s[..k + 1]
  {
  }

  lemma NoCrlfBeforeZero(s: seq<byte>)
    ensures NoCrlfBefore(s, 0)
  {
  }

  lemma ShortestIsHeader(s: seq<byte>, n: nat)
    requires n <= |s| && NoCrlfBefore(s, n) && EndsInCrlf(s[..n])
    ensures IsHeader(s, n)
  {
  }

  // ---- the untrusted peek loop ----

  /** Reads at most five bytes, stopping at the first that is not part of the signature, and loses none. */
  method PeekSignature(stream: TcpStream) returns (peeked: seq<byte>)
    modifies stream
    ensures old(stream.unread) == peeked + stream.unread
    ensures [80, 82, 79, 88, 89] <= peeked <==> [80, 82, 79, 88, 89] <= old(stream.unread)
    ensures |peeked| <= 5
  {
    ghost var s := stream.unread;
    peeked := [];
    while |peeked| < |SPOOF|
      invariant |peeked| <= |SPOOF| && s == peeked + stream.unread
      invariant peeked <= SPOOF
      decreases |SPOOF| - |peeked|
    {
      var chunk := stream.Read(1, 1);
      if chunk == [] {
        break;
      }
      peeked := peeked + chunk;
      if peeked[|peeked| - 1] != SPOOF[|peeked| - 1] {
        break;
      }
    }
  }

  // ---- the replaying stream ----

  datatype Cursor = Cursor(data: seq<byte>, pos: nat)

  datatype Replay = Replay(buffer: Option<Cursor>, unread: seq<byte>)

  function Buffered(r: Replay): seq<byte> {
    if r.buffer.Some? && r.buffer.value.pos <= |r.buffer.value.data| then r.buffer.value.data[r.buffer.value.pos..]
    else []
  }

  /** Every byte the reader of this stream has not seen yet. */
  function Pending(r: Replay): seq<byte> {
    Buffered(r) + r.unread
  }

  /** One `poll_read` that completes: serve the buffer while it lasts, then the socket. */
  function ReadStep(r: Replay, capacity: nat, offered: nat): (Replay, seq<byte>) {
    var n := Chunk(capacity, capacity, Buffered(r));
    if n > 0 then
      var cursor := r.buffer.value.(pos := r.buffer.value.pos + n);
      (r.(buffer := if cursor.pos >= |cursor.data| then None else Some(cursor)), Buffered(r)[..n])
    else
      var m := Chunk(capacity, offered, r.unread);
      (Replay(None, r.unread[m..]), r.unread[..m])
  }

  class ProxyStream {
    const inner: TcpStream
    var buffer: Option<Cursor>

    constructor (inner: TcpStream, buffer: Option<seq<byte>>)
      ensures this.inner == inner
      ensures this.buffer == if buffer.Some? then Some(Cursor(buffer.value, 0)) else None
    {
      this.inner := inner;
      this.buffer := match buffer case Some(b) => Some(Cursor(b, 0)) case None => None;
    }

    ghost function Value(): Replay
      reads this, inner
    {
      Replay(buffer, inner.unread)
    }

    method PollRead(capacity: nat, offered: nat) returns (out: seq<byte>)
      requires offered > 0
      modifies this, inner
      ensures (Value(), out) == ReadStep(old(Value()), capacity, offered)
    {
      if buffer.Some? {
        if capacity > 0 {
          var cursor := buffer.value;
          var rest := if cursor.pos <= |cursor.data| then cursor.data[cursor.pos..] else [];
          var n := Chunk(capacity, capacity, rest);
          if n > 0 {
            out := rest[..n];
            cursor := cursor.(pos := cursor.pos + n);
            buffer := if cursor.pos >= |cursor.data| then None else Some(cursor);
            return;
          }
        }
        buffer := None;
      }
      out := inner.Read(capacity, offered);
    }
  }

  /** A read of positive capacity delivers the next bytes in order, and nothing only at the very end. */
  lemma ReadIsLossless(r: Replay, capacity: nat, offered: nat)
    requires capacity > 0 && offered > 0
    ensures var (r', out) := ReadStep(r, capacity, offered);
      out + Pending(r') == Pending(r) && |out| <= capacity && (out == [] <==> Pending(r) == [])
  {
    var n := Chunk(capacity, capacity, Buffered(r));
    if n == 0 {
      assert Buffered(r) == [];
      assert Pending(r) == r.unread;
    } else {
      var r' := ReadStep(r, capacity, offered).0;
      assert Buffered(r) == Buffered(r)[..n] + Buffered(r');
    }
  }

  /** How much one read delivers: from the buffer as much as fits, and only without it from the socket. */
  lemma ReadAmount(r: Replay, capacity: nat, offered: nat)
    ensures var n := |ReadStep(r, capacity, offered).1|;
      if capacity > 0 && Buffered(r) != [] then n == Min(capacity, |Buffered(r)|)
      else n == Min(capacity, Min(offered, |r.unread|))
  {
  }

  function Min(a: nat, b: nat): nat {
    if a <= b then a else b
  }

  /** A read of capacity zero drops the buffer: it loses nothing exactly when the buffer is used up. */
  lemma ZeroReadLosesBuffer(r: Replay, offered: nat)
    ensures Pending(ReadStep(r, 0, offered).0) == r.unread
    ensures Pending(ReadStep(r, 0, offered).0) == Pending(r) <==> Buffered(r) == []
  {
    assert |Pending(r)| == |Buffered(r)| + |r.unread|;
    assert Buffered(r) == [] ==> Pending(r) == r.unread;
  }

  datatype Poll = Poll(capacity: nat, offered: nat)

  predicate Positive(polls: seq<Poll>) {
    forall i :: 0 <= i < |polls| ==> polls[i].capacity > 0 && polls[i].offered > 0
  }

  /** All bytes delivered by a sequence of polls, and the stream it leaves. */
  function ReadAll(r: Replay, polls: seq<Poll>): (Replay, seq<byte>)
    decreases |polls|
  {
    if polls == [] then (r, [])
    else
      var (r1, out) := ReadStep(r, polls[0].capacity, polls[0].offered);
      var (r2, rest) := ReadAll(r1, polls[1..]);
      (r2, out + rest)
  }

  /** Peek and replay is lossless: any positive polls deliver the original bytes in order, and as many polls as
      there are bytes deliver all of them. */
  lemma {:induction false} ReplayIsLossless(r: Replay, polls: seq<Poll>)
    requires Positive(polls)
    ensures ReadAll(r, polls).1 + Pending(ReadAll(r, polls).0) == Pending(r)
    ensures |polls| >= |Pending(r)| ==> ReadAll(r, polls).1 == Pending(r)
    decreases |polls|
  {
    if polls != [] {
      var (r1, out) := ReadStep(r, polls[0].capacity, polls[0].offered);
      ReadIsLossless(r, polls[0].capacity, polls[0].offered);
      ReplayIsLossless(r1, polls[1..]);
      var (r2, rest) := ReadAll(r1, polls[1..]);
      hide ReadStep, Pending;
      assert out + rest + Pending(r2) == out + (rest + Pending(r2));
    }
  }

  // ---- handle_proxy_protocol ----

  /** What a trusted connection yields: the client's address and the bytes left for the HTTP layer. */
  ghost predicate TrustedYields(s: seq<byte>, client: Ipv4, port: nat, rest: seq<byte>) {
    exists n: nat :: n <= 107 && IsHeader(s, n) && rest == s[n..] &&
      AsText(s[..n]).Some? && ParseV1(AsText(s[..n]).value) == Some((client, port))
  }

  /** Why a trusted connection without a usable header is refused. */
  ghost function HeaderFault(s: seq<byte>): HeaderError {
    if exists n: nat :: n <= 107 && IsHeader(s, n) && !ValidUtf8(s[..n]) then NotUtf8
    else if exists n: nat :: n <= 107 && IsHeader(s, n) then Malformed
    else if |s| < 107 then Eof
    else TooLong
  }

  method HandleProxyProtocol(stream: TcpStream, peer: SocketAddr, security: SecurityConfig)
    returns (r: Result<(ProxyStream, SocketAddr), HeaderError>)
    modifies stream
    ensures r.Ok? ==> fresh(r.value.0) && r.value.0.inner == stream
    ensures !security.proxyProtocol ==> r.Ok? && r.value.1 == peer && Pending(r.value.0.Value()) == old(stream.unread)
    ensures security.proxyProtocol && peer.ip != security.trustedUpstream ==>
      && (r.Ok? <==> !([80, 82, 79, 88, 89] <= old(stream.unread)))
      && (r.Ok? ==> r.value.1 == peer && Pending(r.value.0.Value()) == old(stream.unread))
    ensures security.proxyProtocol && peer.ip == security.trustedUpstream ==>
      forall client, port, rest ::
        (r.Ok? && r.value.1 == SocketAddr(V4(client), port) && Pending(r.value.0.Value()) == rest)
        <==> TrustedYields(old(stream.unread), client, port, rest)
    ensures security.proxyProtocol && peer.ip == security.trustedUpstream ==>
      (r.Ok? <==> exists client, port, rest :: TrustedYields(old(stream.unread), client, port, rest))
    ensures security.proxyProtocol && r.Err? ==>
      r.error == if peer.ip != security.trustedUpstream then Spoofed else HeaderFault(old(stream.unread))
  {
    if !security.proxyProtocol {
      var ps := new ProxyStream(stream, None);
      assert Pending(ps.Value()) == stream.unread;
      return Ok((ps, peer));
    }
    ghost var s := stream.unread;
    if peer.ip != security.trustedUpstream {
      var peeked := PeekSignature(stream);
      if SPOOF <= peeked {
        return Err(Spoofed);
      }
      var ps := new ProxyStream(stream, Some(peeked));
      assert Buffered(ps.Value()) == peeked;
      return Ok((ps, peer));
    }
    var header := ReadHeader(stream);
    if header.Err? {
      assert forall n: nat :: n <= MAX_HEADER ==> !IsHeader(s, n);
      return Err(header.error);
    }
    assert s[..|header.value|] == header.value && s[|header.value|..] == stream.unread;
    HeaderIsUnique(s, |header.value|);
    if !ValidUtf8(header.value) {
      AsciiIsUtf8(header.value);
      return Err(NotUtf8);
    }
    var text := AsText(header.value);
    if text.None? {
      return Err(Malformed);
    }
    var parsed := ParseV1(text.value);
    if parsed.None? {
      return Err(Malformed);
    }
    var ps := new ProxyStream(stream, None);
    assert Pending(ps.Value()) == stream.unread;
    var addr := SocketAddr(V4(parsed.value.0), parsed.value.1);
    assert TrustedYields(s, parsed.value.0, parsed.value.1, stream.unread);
    return Ok((ps, addr));
  }

  lemma HeaderIsUnique(s: seq<byte>, n: nat)
    requires IsHeader(s, n)
    ensures forall m: nat :: IsHeader(s, m) ==> m == n
  {
  }

  // ---- round trip ----

  lemma PrintV1Shape(client: Ipv4, proxy: Ipv4, clientPort: nat, proxyPort: nat)
    requires clientPort <= U16_MAX && proxyPort <= U16_MAX
    ensures var h := PrintV1(client, proxy, clientPort, proxyPort);
      && |h| <= 56
      && Ascii(h) && |h| >= 2 && h[|h| - 2] == '\r' && h[|h| - 1] == '\n'
      && (forall i :: 0 <= i < |h| - 1 ==> h[i] != '\n')
  {
    Ipv4Length(client);
    Ipv4Length(proxy);
    PortLength(clientPort);
    PortLength(proxyPort);
    Ipv4HasNo(client, '\n');
    Ipv4HasNo(proxy, '\n');
  }

  lemma PortLength(n: nat)
    requires n <= U16_MAX
    ensures |Print(n)| <= 5
  {
    assert Pow10(1) == 10 && Pow10(2) == 100 && Pow10(3) == 1000;
    assert Pow10(4) == 10000 && Pow10(5) == 100000;
    PrintLength(n, 5);
  }

  lemma OctetLength(b: byte)
    ensures |PrintOctet(b)| <= 3
  {
    OctetSpelling(PrintOctet(b), b);
  }

  lemma Ipv4Length(ip: Ipv4)
    ensures |PrintIpv4(ip)| <= 15
  {
    OctetLength(ip.a);
    OctetLength(ip.b);
    OctetLength(ip.c);
    OctetLength(ip.d);
  }

  predicate Ascii(s: string) {
    forall i :: 0 <= i < |s| ==> s[i] < 128 as char
  }

  /** A line whose only line feed is its last character is the header the loop finds in front of any payload. */
  lemma LineIsHeader(h: string, payload: seq<byte>)
    requires Ascii(h) && |h| >= 2 && h[|h| - 2] == '\r' && h[|h| - 1] == '\n'
    requires forall i :: 0 <= i < |h| - 1 ==> h[i] != '\n'
    ensures var s := ToBytes(h) + payload;
      IsHeader(s, |h|) && s[|h|..] == payload && AsText(s[..|h|]) == Some(h)
  {
    var b := ToBytes(h);
    var s := b + payload;
    assert s[..|h|] == b && s[|h|..] == payload;
    forall m | 0 <= m < |h| ensures !EndsInCrlf(s[..m]) {
      assert m > 0 ==> s[..m][m - 1] == h[m - 1] as int as byte;
    }
    assert AsText(b).value == h;
  }

  /** For all addresses, ports and payloads, a canonical line followed by the payload yields exactly the client's
      address and leaves exactly the payload. */
  lemma HeaderRoundTrip(client: Ipv4, proxy: Ipv4, clientPort: nat, proxyPort: nat, payload: seq<byte>)
    requires clientPort <= U16_MAX && proxyPort <= U16_MAX
    ensures var h := PrintV1(client, proxy, clientPort, proxyPort);
      Ascii(h) && TrustedYields(ToBytes(h) + payload, client, clientPort, payload)
  {
    var h := PrintV1(client, proxy, clientPort, proxyPort);
    PrintV1Shape(client, proxy, clientPort, proxyPort);
    ParsePrinted(clientPort, U16_MAX);
    ParsePrinted(proxyPort, U16_MAX);
    ParseLine(client, proxy, Print(clientPort), Print(proxyPort));
    LineIsHeader(h, payload);
  }
}
