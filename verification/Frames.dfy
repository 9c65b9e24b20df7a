/**
 The frame codec: a type byte, four bytes of session id, two bytes of payload
 length (both big-endian) and the payload.
 */
module Frames {
  import opened Basics

  const HDR_SIZE: nat := 7

  /** The longest payload whose length fits the two length bytes. */
  const MAX_PAYLOAD: nat := 0xFFFF

  datatype FrameType = Connect | ConnectOk | ConnectErr | Data | Close

  function Code(t: FrameType): u8 {
    match t
    case Connect => 1
    case ConnectOk => 2
    case ConnectErr => 3
    case Data => 4
    case Close => 5
  }

  function FromU8(v: u8): (t: Option<FrameType>)
    ensures forall k: FrameType :: t == Some(k) <==> Code(k) == v
    ensures t == if v == 1 then Some(Connect) else if v == 2 then Some(ConnectOk) else if v == 3 then Some(ConnectErr)
                 else if v == 4 then Some(Data) else if v == 5 then Some(Close) else None
  {
    match v
    case 1 => Some(Connect)
    case 2 => Some(ConnectOk)
    case 3 => Some(ConnectErr)
    case 4 => Some(Data)
    case 5 => Some(Close)
    case _ => None
  }

  datatype Frame = Frame(frameType: FrameType, sessionId: u32, payload: Bytes)

  /** The server's answer to a Connect. */
  predicate IsVerdict(f: Frame) {
    f.frameType in {ConnectOk, ConnectErr}
  }

  /** Frames whose length survives the cast to sixteen bits. */
  predicate Fits(f: Frame) {
    |f.payload| <= MAX_PAYLOAD
  }

  predicate AllFit(frames: seq<Frame>) {
    forall f | f in frames :: Fits(f)
  }

  function U16ToBytes(n: u16): (b: Bytes)
    ensures |b| == 2 && n == b[0] as int * 0x100 + b[1]
  {
    [n / 0x100, n % 0x100]
  }

  function U16FromBytes(b: Bytes): u16
    requires |b| == 2
  {
    b[0] as int * 0x100 + b[1]
  }

  /** Big-endian: the high half comes first. */
  function U32ToBytes(n: u32): (b: Bytes)
    ensures |b| == 4 && U32FromBytes(b) == n
    ensures n == b[0] as int * 0x100_0000 + b[1] as int * 0x1_0000 + b[2] as int * 0x100 + b[3]
  {
    var b := U16ToBytes(n / 0x1_0000) + U16ToBytes(n % 0x1_0000);
    assert b[..2] == U16ToBytes(n / 0x1_0000) && b[2..] == U16ToBytes(n % 0x1_0000);
    b
  }

  function U32FromBytes(b: Bytes): u32
    requires |b| == 4
  {
    U16FromBytes(b[..2]) as int * 0x1_0000 + U16FromBytes(b[2..])
  }

  lemma U16FromBytesInjective(b: Bytes)
    requires |b| == 2
    ensures U16ToBytes(U16FromBytes(b)) == b
  {
    var n := U16FromBytes(b);
    assert n / 0x100 == b[0] && n % 0x100 == b[1];
  }

  lemma U32FromBytesInjective(b: Bytes)
    requires |b| == 4
    ensures U32ToBytes(U32FromBytes(b)) == b
  {
    U16FromBytesInjective(b[..2]);
    U16FromBytesInjective(b[2..]);
    var n := U32FromBytes(b);
    assert n / 0x1_0000 == U16FromBytes(b[..2]) && n % 0x1_0000 == U16FromBytes(b[2..]);
    assert b == b[..2] + b[2..];
  }

  /** The wire form. The length is cast to sixteen bits, so it wraps for long payloads. */
  function Encode(f: Frame): (bytes: Bytes)
    ensures |bytes| == HDR_SIZE + |f.payload|
  {
    [Code(f.frameType)] + U32ToBytes(f.sessionId) + U16ToBytes(|f.payload| % 0x1_0000) + f.payload
  }

  /** The encoder itself: four appends to a growing buffer. */
  method EncodeFrame(f: Frame) returns (buf: Bytes)
    ensures buf == Encode(f)
    ensures |buf| == 7 + |f.payload| && buf[7..] == f.payload
    ensures buf[0] == 1 <==> f.frameType.Connect?
    ensures buf[0] == 2 <==> f.frameType.ConnectOk?
    ensures buf[0] == 3 <==> f.frameType.ConnectErr?
    ensures buf[0] == 4 <==> f.frameType.Data?
    ensures buf[0] == 5 <==> f.frameType.Close?
    ensures f.sessionId == buf[1] as int * 0x100_0000 + buf[2] as int * 0x1_0000 + buf[3] as int * 0x100 + buf[4]
    ensures |f.payload| % 0x1_0000 == buf[5] as int * 0x100 + buf[6]
  {
    EncodedHeader(f, []);
    assert Encode(f) + [] == Encode(f);
    var len: u16 := |f.payload| % 0x1_0000;
    buf := [];
    buf := buf + [Code(f.frameType)];
    buf := buf + U32ToBytes(f.sessionId);
    buf := buf + U16ToBytes(len);
    buf := buf + f.payload;
  }

  datatype DecodeResult =
    | Decoded(frame: Frame, consumed: nat)
    | MoreDataRequired
    | DecodingFailed

  function Decode(buf: Bytes): DecodeResult {
    if |buf| < HDR_SIZE then MoreDataRequired
    else match FromU8(buf[0])
      case None => DecodingFailed
      case Some(t) =>
        var total := HDR_SIZE + U16FromBytes(buf[5..7]);
        if |buf| < total then MoreDataRequired
        else Decoded(Frame(t, U32FromBytes(buf[1..5]), buf[HDR_SIZE..total]), total)
  }

  /** What the header of an encoding says, whatever follows it. */
  lemma EncodedHeader(f: Frame, rest: Bytes)
    ensures var s := Encode(f) + rest;
            && |s| >= HDR_SIZE
            && s[0] == Code(f.frameType)
            && s[1..5] == U32ToBytes(f.sessionId)
            && s[5..7] == U16ToBytes(|f.payload| % 0x1_0000)
            && s[HDR_SIZE..] == f.payload + rest
  {
  }

  /**
   Decoding the encoding of f, followed by anything, gives f back exactly when
   the payload length fits sixteen bits; a longer payload comes back cut short.
   */
  lemma RoundTrip(f: Frame, rest: Bytes)
    ensures Decode(Encode(f) + rest) == Decoded(f, |Encode(f)|) <==> |f.payload| <= 65535
  {
    var s := Encode(f) + rest;
    EncodedHeader(f, rest);
    var n := |f.payload| % 0x1_0000;
    assert U16FromBytes(s[5..7]) == n;
    assert s[HDR_SIZE..HDR_SIZE + n] == (f.payload + rest)[..n];
    if Fits(f) {
      assert (f.payload + rest)[..n] == f.payload;
    } else {
      assert Decode(s).frame.payload == (f.payload + rest)[..n];
      assert |Decode(s).frame.payload| < |f.payload|;
    }
  }

  /** A payload of 65536 bytes is the shortest that does not survive: it comes back empty. */
  lemma TruncationExample()
    ensures var f := Frame(Data, 1, seq(0x1_0000, _ => 0));
            Decode(Encode(f)) == Decoded(Frame(Data, 1, []), HDR_SIZE)
  {
    var f := Frame(Data, 1, seq(0x1_0000, _ => 0));
    EncodedHeader(f, []);
    assert Encode(f) + [] == Encode(f);
  }

  lemma HeaderNumbers(b: Bytes)
    requires |b| >= 7
    ensures U32FromBytes(b[1..5]) == b[1] as int * 0x100_0000 + b[2] as int * 0x1_0000 + b[3] as int * 0x100 + b[4]
    ensures U16FromBytes(b[5..7]) == b[5] as int * 0x100 + b[6]
  {
    assert b[1..5][..2] == b[1..3] && b[1..5][2..] == b[3..5];
  }

  /**
   What a buffer decodes to, byte by byte: nothing yet without seven bytes, an error if
   the first is not one of the five codes, and otherwise the frame whose id and payload
   length the header gives, once all of it is there.
   */
  lemma DecodedLayout(b: Bytes)
    ensures |b| < 7 ==> Decode(b).MoreDataRequired?
    ensures Decode(b).DecodingFailed? <==> |b| >= 7 && (b[0] == 0 || b[0] > 5)
    ensures |b| >= 7 && 1 <= b[0] <= 5 ==>
              var n := b[5] as int * 0x100 + b[6];
              && (Decode(b).MoreDataRequired? <==> |b| < 7 + n)
              && (|b| >= 7 + n ==>
                    && Decode(b).Decoded? && Decode(b).consumed == 7 + n
                    && Decode(b).frame.payload == b[7..7 + n]
                    && Decode(b).frame.sessionId ==
                         b[1] as int * 0x100_0000 + b[2] as int * 0x1_0000 + b[3] as int * 0x100 + b[4]
                    && Decode(b).frame.frameType == if b[0] == 1 then Connect else if b[0] == 2 then ConnectOk
                                                    else if b[0] == 3 then ConnectErr else if b[0] == 4 then Data
                                                    else Close)
  {
    hide U16FromBytes, U32FromBytes;
    if |b| >= 7 {
      HeaderNumbers(b);
    }
  }

  lemma DecodedParts(buf: Bytes)
    requires Decode(buf).Decoded?
    ensures |buf| >= 7
    ensures var f, n := Decode(buf).frame, U16FromBytes(buf[5..7]);
            && Decode(buf).consumed == 7 + n <= |buf| && f.payload == buf[7..7 + n]
            && Code(f.frameType) == buf[0] && f.sessionId == U32FromBytes(buf[1..5])
  {
    hide U16FromBytes, U32FromBytes;
  }

  lemma EncodedParts(f: Frame)
    requires Fits(f)
    ensures Encode(f) == [Code(f.frameType)] + U32ToBytes(f.sessionId) + U16ToBytes(|f.payload|) + f.payload
  {
    hide Code, U32ToBytes, U16ToBytes;
  }

  /** What decodes re-encodes to exactly the bytes that were consumed. */
  lemma DecodedReencodes(buf: Bytes)
    requires Decode(buf).Decoded?
    ensures var d := Decode(buf);
            Fits(d.frame) && HDR_SIZE <= d.consumed <= |buf| && Encode(d.frame) == buf[..d.consumed]
  {
    hide Decode, Encode, Code, U16ToBytes, U32ToBytes, U16FromBytes, U32FromBytes;
    DecodedParts(buf);
    var f, n := Decode(buf).frame, U16FromBytes(buf[5..7]);
    U32FromBytesInjective(buf[1..5]);
    U16FromBytesInjective(buf[5..7]);
    EncodedParts(f);
    assert buf[..7 + n] == [buf[0]] + buf[1..5] + buf[5..7] + buf[7..7 + n];
  }

  /** Decoding looks only at the bytes it consumes. */
  lemma DecodeExtends(x: Bytes, y: Bytes)
    ensures Decode(x).Decoded? ==> Decode(x + y) == Decode(x)
    ensures Decode(x).DecodingFailed? ==> Decode(x + y).DecodingFailed?
  {
    if |x| >= HDR_SIZE {
      assert (x + y)[1..5] == x[1..5] && (x + y)[5..7] == x[5..7];
      if Decode(x).Decoded? {
        var n := Decode(x).consumed;
        assert (x + y)[HDR_SIZE..n] == x[HDR_SIZE..n];
      }
    }
  }

  /** Every proper prefix of an encoding asks for more bytes: it neither decodes nor fails. */
  lemma ProperPrefixWaits(f: Frame, x: Bytes)
    requires Fits(f) && x <= Encode(f) && x != Encode(f)
    ensures Decode(x).MoreDataRequired?
  {
    var rest := Encode(f)[|x|..];
    assert Encode(f) == x + rest;
    assert Encode(f) + [] == Encode(f);
    RoundTrip(f, []);
    DecodeExtends(x, rest);
  }

  function EncodeAll(frames: seq<Frame>): Bytes {
    if frames == [] then [] else Encode(frames[0]) + EncodeAll(frames[1..])
  }

  lemma {:induction false} EncodeAllConcat(a: seq<Frame>, b: seq<Frame>)
    ensures EncodeAll(a + b) == EncodeAll(a) + EncodeAll(b)
  {
    if a == [] {
      assert a + b == b;
    } else {
      assert (a + b)[1..] == a[1..] + b;
      EncodeAllConcat(a[1..], b);
    }
  }

  lemma EncodeAllOne(f: Frame)
    ensures EncodeAll([f]) == Encode(f)
  {
    assert EncodeAll([f][1..]) == [];
  }

  /**
   Unique decodability: if the bytes of one list of frames start with the bytes
   of another, then the one list starts with the other.
   */
  lemma {:induction false} EncodeAllPrefix(a: seq<Frame>, b: seq<Frame>)
    requires AllFit(a) && AllFit(b)
    requires EncodeAll(a) <= EncodeAll(b)
    ensures a <= b
  {
    if a != [] {
      var rest := EncodeAll(b)[|EncodeAll(a)|..];
      assert EncodeAll(b) == Encode(a[0]) + (EncodeAll(a[1..]) + rest);
      assert b != [];
      assert Fits(a[0]) && Fits(b[0]);
      RoundTrip(a[0], EncodeAll(a[1..]) + rest);
      RoundTrip(b[0], EncodeAll(b[1..]));
      assert a[0] == b[0];
      assert EncodeAll(b[1..]) == EncodeAll(a[1..]) + rest;
      EncodeAllPrefix(a[1..], b[1..]);
      assert a == [a[0]] + a[1..] && b == [b[0]] + b[1..];
    }
  }
}
