/** The payload of a Connect frame: host length, host, big-endian port, settings byte. */
module ConnectPayload {
  import opened Basics
  import opened Frames
  import opened Reassembly

  /** Hosts are the UTF-8 bytes of a string. */
  datatype Request = Request(host: Bytes, port: u16, udp: bool)

  /** The longest host whose length fits the length byte. */
  const MAX_HOST: nat := 0xFF

  /** The setting bit for UDP, the most significant one. */
  const UDP_BIT: u8 := 0x80

  predicate Tail(b: u8) {
    0x80 <= b <= 0xBF
  }

  /** The length of the well-formed UTF-8 sequence the bytes start with, or 0 (table 3-7 of the Unicode Standard). */
  function CharLength(b: Bytes): (n: nat)
    ensures n <= |b|
  {
    if b == [] then 0
    else if b[0] < 0x80 then 1
    else if |b| >= 2 && 0xC2 <= b[0] <= 0xDF && Tail(b[1]) then 2
    else if |b| >= 3 && Tail(b[2])
            && (if b[0] == 0xE0 then 0xA0 <= b[1] <= 0xBF
                else if b[0] == 0xED then 0x80 <= b[1] <= 0x9F
                else 0xE1 <= b[0] <= 0xEF && Tail(b[1])) then 3
    else if |b| >= 4 && Tail(b[2]) && Tail(b[3])
            && (if b[0] == 0xF0 then 0x90 <= b[1] <= 0xBF
                else if b[0] == 0xF4 then 0x80 <= b[1] <= 0x8F
                else 0xF1 <= b[0] <= 0xF3 && Tail(b[1])) then 4
    else 0
  }

  predicate ValidUtf8(b: Bytes)
    decreases |b|
  {
    b == [] || (CharLength(b) > 0 && ValidUtf8(b[CharLength(b)..]))
  }

  /** The scalar values of Unicode: code points except surrogates. */
  type Scalar = n: int | 0 <= n < 0xD800 || 0xE000 <= n < 0x11_0000

  /** The octets of one character (section 3 of RFC 3629). */
  function Utf8(c: Scalar): Bytes {
    if c < 0x80 then [c]
    else if c < 0x800 then [0xC0 + c / 64, 0x80 + c % 64]
    else if c < 0x1_0000 then [0xE0 + c / 4096, 0x80 + c / 64 % 64, 0x80 + c % 64]
    else [0xF0 + c / 26_2144, 0x80 + c / 4096 % 64, 0x80 + c / 64 % 64, 0x80 + c % 64]
  }

  function Utf8All(text: seq<Scalar>): Bytes {
    if text == [] then [] else Utf8(text[0]) + Utf8All(text[1..])
  }

  lemma Utf8Length(c: Scalar, rest: Bytes)
    ensures CharLength(Utf8(c) + rest) == |Utf8(c)|
  {
    var b := Utf8(c) + rest;
    assert b[..|Utf8(c)|] == Utf8(c);
    if c >= 0x1_0000 {
      FourOctets(c);
    } else if c >= 0x800 {
      ThreeOctets(c);
    }
  }

  lemma ThreeOctets(c: Scalar)
    requires 0x800 <= c < 0x1_0000
    ensures var b := Utf8(c);
            && Tail(b[2])
            && (if b[0] == 0xE0 then 0xA0 <= b[1] <= 0xBF
                else if b[0] == 0xED then 0x80 <= b[1] <= 0x9F
                else 0xE1 <= b[0] <= 0xEF && Tail(b[1]))
  {
  }

  lemma FourOctets(c: Scalar)
    requires c >= 0x1_0000
    ensures var b := Utf8(c);
            && Tail(b[2]) && Tail(b[3])
            && (if b[0] == 0xF0 then 0x90 <= b[1] <= 0xBF
                else if b[0] == 0xF4 then 0x80 <= b[1] <= 0x8F
                else 0xF1 <= b[0] <= 0xF3 && Tail(b[1]))
  {
  }

  /** Base-64 digits are read off by division. */
  lemma Digits(w: nat, x: nat, y: nat, z: nat)
    requires x < 64 && y < 64 && z < 64
    ensures var c := w * 26_2144 + x * 4096 + y * 64 + z;
            c / 26_2144 == w && c / 4096 % 64 == x && c / 64 % 64 == y && c % 64 == z
    ensures var c := x * 4096 + y * 64 + z; c / 4096 == x
    ensures var c := y * 64 + z; c / 64 == y
  {
    var c := w * 26_2144 + x * 4096 + y * 64 + z;
    assert c / 64 == w * 4096 + x * 64 + y;
    assert c / 4096 == w * 64 + x;
  }

  /** The first character of a well-formed string. */
  lemma FirstCharacter(b: Bytes) returns (c: Scalar)
    requires CharLength(b) > 0
    ensures Utf8(c) == b[..CharLength(b)]
  {
    var n := CharLength(b);
    if n == 1 {
      c := b[0];
    } else if n == 2 {
      Digits(0, 0, b[0] - 0xC0, b[1] - 0x80);
      c := (b[0] - 0xC0) as int * 64 + (b[1] - 0x80);
    } else if n == 3 {
      c := ThreeOctetCharacter(b);
    } else {
      c := FourOctetCharacter(b);
    }
  }

  lemma ThreeOctetCharacter(b: Bytes) returns (c: Scalar)
    requires CharLength(b) == 3
    ensures Utf8(c) == b[..3]
  {
    var x: nat, y: nat, z: nat := b[0] - 0xE0, b[1] - 0x80, b[2] - 0x80;
    Digits(0, x, y, z);
    c := x * 4096 + y * 64 + z;
    assert c >= 0x800 && c < 0x1_0000;
  }

  lemma FourOctetCharacter(b: Bytes) returns (c: Scalar)
    requires CharLength(b) == 4
    ensures Utf8(c) == b[..4]
  {
    var w: nat, x: nat, y: nat, z: nat := b[0] - 0xF0, b[1] - 0x80, b[2] - 0x80, b[3] - 0x80;
    Digits(w, x, y, z);
    c := w * 26_2144 + x * 4096 + y * 64 + z;
    assert c >= 0x1_0000;
  }

  /** Well-formed means: the encoding of some text. */
  lemma {:induction false} TextIsValid(text: seq<Scalar>)
    ensures ValidUtf8(Utf8All(text))
  {
    hide Utf8, CharLength;
    if text != [] {
      var rest := Utf8All(text[1..]);
      Utf8Length(text[0], rest);
      NoEmptyCharacter(text[0]);
      TextIsValid(text[1..]);
      assert (Utf8(text[0]) + rest)[|Utf8(text[0])|..] == rest;
    }
  }

  lemma NoEmptyCharacter(c: Scalar)
    ensures Utf8(c) != []
  {
  }

  lemma {:induction false} ValidIsText(b: Bytes) returns (text: seq<Scalar>)
    requires ValidUtf8(b)
    ensures Utf8All(text) == b
    decreases |b|
  {
    hide Utf8, CharLength;
    if b == [] {
      text := [];
    } else {
      var n := CharLength(b);
      var c := FirstCharacter(b);
      var rest := ValidIsText(b[n..]);
      text := [c] + rest;
      assert text[1..] == rest && b == b[..n] + b[n..];
    }
  }

  function EncodeRequest(r: Request): (payload: Bytes)
    ensures |payload| == |r.host| + 4
  {
    [|r.host| % 0x100] + r.host + U16ToBytes(r.port) + [if r.udp then UDP_BIT else 0]
  }

  /** The encoder itself: appends to a growing buffer, one of two settings bytes last. */
  method EncodeConnectPayload(host: Bytes, port: u16, udp: bool) returns (buf: Bytes)
    ensures buf == EncodeRequest(Request(host, port, udp))
    ensures |buf| == 1 + |host| + 2 + 1 && buf[0] == |host| % 256 && buf[1..1 + |host|] == host
    ensures port == buf[1 + |host|] as int * 256 + buf[2 + |host|]
    ensures buf[3 + |host|] == if udp then 128 else 0
  {
    buf := [];
    buf := buf + [|host| % 0x100];
    buf := buf + host;
    buf := buf + U16ToBytes(port);
    if udp {
      buf := buf + [UDP_BIT];
    } else {
      buf := buf + [0];
    }
  }

  function DecodeRequest(data: Bytes): Option<Request> {
    if data == [] then None
    else
      var n: nat := data[0];
      if |data| < 1 + n + 2 + 1 then None
      else
        var host := data[1..1 + n];
        if !ValidUtf8(host) then None
        else Some(Request(host, U16FromBytes(data[1 + n..3 + n]), data[n + 3] >= UDP_BIT))
  }

  /**
   What a payload decodes to, byte by byte: it must be as long as its first byte says,
   with three bytes to spare, and its host must be UTF-8; then follow the port, high byte
   first, and a byte of settings whose highest bit means UDP. Bytes after that are ignored.
   */
  lemma RequestLayout(data: Bytes)
    ensures DecodeRequest(data).Some? <==>
              data != [] && |data| >= data[0] as int + 4 && ValidUtf8(data[1..1 + data[0] as int])
    ensures DecodeRequest(data).Some? ==>
              var r := DecodeRequest(data).value;
              var n: nat := data[0];
              && r.host == data[1..1 + n]
              && r.port == data[n + 1] as int * 256 + data[n + 2]
              && r.udp == (data[n + 3] / 128 == 1)
  {
  }

  /** A request survives exactly when its host is at most 255 bytes long. */
  lemma RequestRoundTrip(r: Request)
    requires ValidUtf8(r.host)
    ensures DecodeRequest(EncodeRequest(r)) == Some(r) <==> |r.host| <= 255
  {
    var data := EncodeRequest(r);
    var n: nat := data[0];
    if |r.host| <= MAX_HOST {
      assert data[1..1 + n] == r.host;
      assert data[1 + n..3 + n] == U16ToBytes(r.port);
    } else {
      assert n < |r.host|;
      var d := DecodeRequest(data);
      assert d.Some? ==> |d.value.host| == n;
    }
  }

  /** No proper prefix of an encoded request is accepted. */
  lemma ProperPrefixRejected(r: Request, data: Bytes)
    requires |r.host| <= MAX_HOST
    requires data <= EncodeRequest(r) && data != EncodeRequest(r)
    ensures DecodeRequest(data) == None
  {
    if data != [] {
      assert data[0] == EncodeRequest(r)[0] == |r.host|;
    }
  }

  /** The Connect frames a client sends for its requests. */
  function ConnectFrames(requests: seq<(u32, Request)>): seq<Frame> {
    if requests == [] then []
    else [Frame(Connect, requests[0].0, EncodeRequest(requests[0].1))] + ConnectFrames(requests[1..])
  }

  /** What a server makes of the Connect frames it receives. */
  function Requested(frames: seq<Frame>): seq<(u32, Option<Request>)> {
    if frames == [] then []
    else
      (if frames[0].frameType.Connect? then [(frames[0].sessionId, DecodeRequest(frames[0].payload))] else [])
      + Requested(frames[1..])
  }

  predicate Encodable(requests: seq<(u32, Request)>) {
    forall q | q in requests :: ValidUtf8(q.1.host) && |q.1.host| <= MAX_HOST
  }

  function Answers(requests: seq<(u32, Request)>): seq<(u32, Option<Request>)> {
    seq(|requests|, i requires 0 <= i < |requests| => (requests[i].0, Some(requests[i].1)))
  }

  lemma {:induction false} ConnectFramesDecode(requests: seq<(u32, Request)>)
    requires Encodable(requests)
    ensures AllFit(ConnectFrames(requests))
    ensures Requested(ConnectFrames(requests)) == Answers(requests)
  {
    if requests != [] {
      RequestRoundTrip(requests[0].1);
      ConnectFramesDecode(requests[1..]);
      assert Answers(requests) == Answers([requests[0]]) + Answers(requests[1..]);
    }
  }

  lemma {:induction false} RequestedPrefix(a: seq<Frame>, b: seq<Frame>)
    requires a <= b
    ensures Requested(a) <= Requested(b)
  {
    if a != [] {
      RequestedPrefix(a[1..], b[1..]);
    }
  }

  /**
   Through codec, chunks and reassembly: whatever fragments the link makes of a
   client's requests, the server decodes those requests in order, all of them
   once all bytes have arrived.
   */
  lemma RequestsArrive(requests: seq<(u32, Request)>, fragments: seq<Bytes>)
    requires Encodable(requests)
    requires Flatten(fragments) <= EncodeAll(ConnectFrames(requests))
    ensures Requested(Feed([], fragments).frames) <= Answers(requests)
    ensures Flatten(fragments) == EncodeAll(ConnectFrames(requests)) ==>
              Requested(Feed([], fragments).frames) == Answers(requests)
  {
    ConnectFramesDecode(requests);
    EncodedFramesSurviveFragmentation(ConnectFrames(requests), fragments);
    RequestedPrefix(Feed([], fragments).frames, ConnectFrames(requests));
  }
}
