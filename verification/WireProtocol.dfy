/**
 * The binary wire protocol of services/gateway/pkg/wire/protocol.go: a 12-byte header (magic,
 * version, message type, payload length, all big-endian) followed by the payload.
 */
module WireProtocol {
  import opened Common

  type byte = x: int | 0 <= x < 0x100
  type u16 = x: int | 0 <= x < 0x1_0000
  type u32 = x: int | 0 <= x < 0x1_0000_0000

  const MAGIC: u32 := 0x4D43_5042
  const MIN_VERSION: u16 := 1
  const MAX_VERSION: u16 := 1
  const MAX_PAYLOAD := 10 * 1024 * 1024

  datatype Frame = Frame(version: u16, messageType: u16, payload: seq<byte>)

  datatype Error =
    | ShortMagic | BadMagic | ShortVersion | UnsupportedVersion
    | ShortType | ShortLength | PayloadTooLarge | ShortPayload

  datatype Result = Ok(frame: Frame) | Err(error: Error)

  // ---------------------------------------------------------------------------------- integers

  function PutU16(v: u16): (s: seq<byte>)
    ensures |s| == 2 && GetU16(s) == v
  {
    [v / 0x100, v % 0x100]
  }

  function PutU32(v: u32): (s: seq<byte>)
    ensures |s| == 4 && GetU32(s) == v
  {
    var s := PutU16(v / 0x1_0000) + PutU16(v % 0x1_0000);
    assert s[..2] == PutU16(v / 0x1_0000) && s[2..] == PutU16(v % 0x1_0000);
    s
  }

  function GetU16(s: seq<byte>): u16
    requires |s| == 2
  {
    (s[0] as int) * 0x100 + s[1] as int
  }

  function GetU32(s: seq<byte>): u32
    requires |s| == 4
  {
    (GetU16(s[..2]) as int) * 0x1_0000 + GetU16(s[2..]) as int
  }

  lemma PutGetU16(s: seq<byte>)
    requires |s| == 2
    ensures PutU16(GetU16(s)) == s
  {
  }

  lemma PutGetU32(s: seq<byte>)
    requires |s| == 4
    ensures PutU32(GetU32(s)) == s
  {
    PutGetU16(s[..2]);
    PutGetU16(s[2..]);
    assert GetU32(s) / 0x1_0000 == GetU16(s[..2]) && GetU32(s) % 0x1_0000 == GetU16(s[2..]);
    assert s == s[..2] + s[2..];
  }

  // ------------------------------------------------------------------------------------- codec

  /** The length field keeps only the low 32 bits of the payload's length. */
  function Header(f: Frame): (h: seq<byte>)
    ensures |h| == 12
  {
    PutU32(MAGIC) + PutU16(f.version) + PutU16(f.messageType) + PutU32(|f.payload| % 0x1_0000_0000)
  }

  function Encoded(f: Frame): seq<byte> {
    Header(f) + f.payload
  }

  /** Reading `n` bytes in full: what was read, if there was enough, and what is left. */
  function Take(s: seq<byte>, n: nat): (Option<seq<byte>>, seq<byte>) {
    if n <= |s| then (Some(s[..n]), s[n..]) else (None, [])
  }

  predicate IsVersionSupported(v: u16) {
    MIN_VERSION <= v <= MAX_VERSION
  }

  /** There is exactly one version. */
  lemma OnlyVersionOne(v: u16)
    ensures IsVersionSupported(v) <==> v == 1
  {
  }

  function ReadPayload(version: u16, messageType: u16, s: seq<byte>, len: u32): (Result, seq<byte>) {
    var (payload, rest) := Take(s, len);
    if payload.None? then (Err(ShortPayload), rest) else (Ok(Frame(version, messageType, payload.value)), rest)
  }

  function ReadLength(version: u16, messageType: u16, s: seq<byte>): (Result, seq<byte>) {
    var (len, rest) := Take(s, 4);
    if len.None? then (Err(ShortLength), rest)
    else if GetU32(len.value) > MAX_PAYLOAD then (Err(PayloadTooLarge), rest)
    else ReadPayload(version, messageType, rest, GetU32(len.value))
  }

  function ReadType(version: u16, s: seq<byte>): (Result, seq<byte>) {
    var (messageType, rest) := Take(s, 2);
    if messageType.None? then (Err(ShortType), rest) else ReadLength(version, GetU16(messageType.value), rest)
  }

  function ReadVersion(s: seq<byte>): (Result, seq<byte>) {
    var (version, rest) := Take(s, 2);
    if version.None? then (Err(ShortVersion), rest)
    else if !IsVersionSupported(GetU16(version.value)) then (Err(UnsupportedVersion), rest)
    else ReadType(GetU16(version.value), rest)
  }

  /** One call of `Decode`: its result and the bytes it leaves unread. */
  function Decoded(s: seq<byte>): (Result, seq<byte>) {
    var (magic, rest) := Take(s, 4);
    if magic.None? then (Err(ShortMagic), rest)
    else if GetU32(magic.value) != MAGIC then (Err(BadMagic), rest)
    else ReadVersion(rest)
  }

  // ------------------------------------------------------------------------------ one frame

  predicate Encodable(f: Frame) {
    IsVersionSupported(f.version) && |f.payload| <= MAX_PAYLOAD
  }

  /** The sections of a byte string that is long enough to hold a header. */
  lemma HeaderRead(s: seq<byte>)
    requires 12 <= |s|
    ensures Decoded(s) ==
            if GetU32(s[..4]) != MAGIC then (Err(BadMagic), s[4..])
            else if !IsVersionSupported(GetU16(s[4..6])) then (Err(UnsupportedVersion), s[6..])
            else if GetU32(s[8..12]) > MAX_PAYLOAD then (Err(PayloadTooLarge), s[12..])
            else ReadPayload(GetU16(s[4..6]), GetU16(s[6..8]), s[12..], GetU32(s[8..12]))
  {
    var s4, s6, s8 := s[4..], s[6..], s[8..];
    assert s4[..2] == s[4..6] && s4[2..] == s6;
    assert s6[..2] == s[6..8] && s6[2..] == s8;
    assert s8[..4] == s[8..12] && s8[4..] == s[12..];
  }

  /** Fewer than 12 bytes never decode. */
  lemma ShortFails(s: seq<byte>)
    requires |s| < 12
    ensures Decoded(s).0.Err?
  {
  }

  lemma HeaderFields(f: Frame, rest: seq<byte>)
    ensures var s := Encoded(f) + rest;
            && |s| == 12 + |f.payload| + |rest|
            && GetU32(s[..4]) == MAGIC && GetU16(s[4..6]) == f.version && GetU16(s[6..8]) == f.messageType
            && GetU32(s[8..12]) == |f.payload| % 0x1_0000_0000 && s[12..] == f.payload + rest
  {
    var s := Encoded(f) + rest;
    assert s[..4] == PutU32(MAGIC);
    assert s[4..6] == PutU16(f.version);
    assert s[6..8] == PutU16(f.messageType);
    assert s[8..12] == PutU32(|f.payload| % 0x1_0000_0000);
    assert s[12..] == f.payload + rest;
  }

  /**
   * A frame survives encoding and decoding, in front of any further bytes, exactly when its
   * version is supported and its payload is at most 10 MB.
   */
  lemma RoundTrip(f: Frame, rest: seq<byte>)
    ensures Decoded(Encoded(f) + rest) == (Ok(f), rest) <==> Encodable(f)
  {
    HeaderFields(f, rest);
    HeaderRead(Encoded(f) + rest);
    if Encodable(f) {
      assert (f.payload + rest)[..|f.payload|] == f.payload;
      assert (f.payload + rest)[|f.payload|..] == rest;
    }
  }

  /** Where the fields of a decoded frame were in the bytes. */
  lemma DecodedFields(s: seq<byte>)
    requires Decoded(s).0.Ok?
    ensures var (r, rest) := Decoded(s); var f := r.frame;
            && 12 <= |s| && GetU32(s[..4]) == MAGIC && s[12..] == f.payload + rest
            && f.version == GetU16(s[4..6]) && f.messageType == GetU16(s[6..8])
            && |f.payload| == GetU32(s[8..12]) && Encodable(f)
  {
    if |s| < 12 { ShortFails(s); } else { HeaderRead(s); }
  }

  lemma HeaderBack(s: seq<byte>, f: Frame)
    requires |s| == 12 && GetU32(s[..4]) == MAGIC && f.version == GetU16(s[4..6])
    requires f.messageType == GetU16(s[6..8]) && |f.payload| == GetU32(s[8..12])
    ensures Header(f) == s
  {
    PutGetU32(s[..4]);
    PutGetU16(s[4..6]);
    PutGetU16(s[6..8]);
    PutGetU32(s[8..12]);
    assert s == s[..4] + s[4..6] + s[6..8] + s[8..12];
  }

  /** Decoding accepts nothing but encodings: re-encoding gives back exactly the bytes consumed. */
  lemma ReencodeGivesBytes(s: seq<byte>)
    requires Decoded(s).0.Ok?
    ensures Encodable(Decoded(s).0.frame)
    ensures s == Encoded(Decoded(s).0.frame) + Decoded(s).1
  {
    DecodedFields(s);
    var h := s[..12];
    assert h[..4] == s[..4] && h[4..6] == s[4..6] && h[6..8] == s[6..8] && h[8..12] == s[8..12];
    HeaderBack(h, Decoded(s).0.frame);
    assert s == h + s[12..];
  }

  /** Two bytes as a number, the high one first. */
  function Two(high: int, low: int): int { 0x100 * high + low }

  /** On the wire: the letters MCPB, then version, type and length, the high byte of each first. */
  lemma WireFormat(f: Frame)
    requires |f.payload| < 0x1_0000_0000
    ensures var s := Encoded(f);
            && |s| == 12 + |f.payload| && s[12..] == f.payload
            && s[0] == 0x4d && s[1] == 0x43 && s[2] == 0x50 && s[3] == 0x42
            && Two(s[4], s[5]) == f.version && Two(s[6], s[7]) == f.messageType
            && 0x1_0000 * Two(s[8], s[9]) + Two(s[10], s[11]) == |f.payload|
  {
    var s := Encoded(f);
    assert s[0..4] == PutU32(MAGIC);
    assert s[4..6] == PutU16(f.version);
    assert s[6..8] == PutU16(f.messageType);
    assert s[8..12] == PutU32(|f.payload|);
    BigEndian(MAGIC);
    BigEndian(|f.payload|);
    assert s[0] == s[0..4][0] && s[1] == s[0..4][1] && s[2] == s[0..4][2] && s[3] == s[0..4][3];
    assert s[4] == s[4..6][0] && s[5] == s[4..6][1] && s[6] == s[6..8][0] && s[7] == s[6..8][1];
    assert s[8] == s[8..12][0] && s[9] == s[8..12][1] && s[10] == s[8..12][2] && s[11] == s[8..12][3];
  }

  lemma BigEndian(v: u32)
    ensures var b := PutU32(v); 0x1_0000 * Two(b[0], b[1]) + Two(b[2], b[3]) == v
  {
  }

  /** No strict prefix of an encoding decodes. */
  lemma StrictPrefixFails(f: Frame, k: nat)
    requires Encodable(f) && k < |Encoded(f)|
    ensures Decoded(Encoded(f)[..k]).0.Err?
  {
    var s := Encoded(f)[..k];
    if k < 12 {
      ShortFails(s);
    } else {
      HeaderFields(f, []);
      HeaderRead(s);
      assert Encoded(f) + [] == Encoded(f);
      assert s[8..12] == Encoded(f)[8..12];
    }
  }

  // ------------------------------------------------------------------------------- the stream

  function EncodedAll(fs: seq<Frame>): seq<byte> {
    if fs == [] then [] else Encoded(fs[0]) + EncodedAll(fs[1..])
  }

  /** Decodes frames until decoding fails: the frames, and the bytes before which it failed. */
  function DecodedAll(s: seq<byte>): (r: (seq<Frame>, seq<byte>))
    decreases |s|
  {
    var (f, rest) := Decoded(s);
    if f.Err? then ([], s)
    else
      assert |rest| < |s| by { ReencodeGivesBytes(s); }
      var (fs, tail) := DecodedAll(rest);
      ([f.frame] + fs, tail)
  }

  lemma DecodeFirst(f: Frame, rest: seq<byte>)
    requires Encodable(f)
    ensures DecodedAll(Encoded(f) + rest) == ([f] + DecodedAll(rest).0, DecodedAll(rest).1)
  {
    RoundTrip(f, rest);
  }

  lemma EncodeFirst(f: Frame, fs: seq<Frame>, tail: seq<byte>)
    ensures EncodedAll([f] + fs) + tail == Encoded(f) + (EncodedAll(fs) + tail)
  {
    assert ([f] + fs)[1..] == fs;
  }

  /** Calling `Decode` |fs| times on `s` yields `fs` and leaves `rest`. */
  predicate DecodesTo(s: seq<byte>, fs: seq<Frame>, rest: seq<byte>)
    decreases fs
  {
    if fs == [] then s == rest
    else Decoded(s).0 == Ok(fs[0]) && DecodesTo(Decoded(s).1, fs[1..], rest)
  }

  /** The encodings of any frames, followed by any bytes, decode to those frames and leave those bytes. */
  lemma {:induction false} StreamRoundTrip(fs: seq<Frame>, suffix: seq<byte>)
    requires forall f <- fs :: Encodable(f)
    ensures DecodesTo(EncodedAll(fs) + suffix, fs, suffix)
  {
    if fs == [] {
      assert EncodedAll(fs) + suffix == suffix;
    } else {
      var f, later := fs[0], fs[1..];
      assert fs == [f] + later;
      StreamRoundTrip(later, suffix);
      EncodeFirst(f, later, suffix);
      RoundTrip(f, EncodedAll(later) + suffix);
    }
  }

  /** Decoding any bytes whatever loses none of them. */
  lemma {:induction false} StreamReencodes(s: seq<byte>)
    ensures s == EncodedAll(DecodedAll(s).0) + DecodedAll(s).1
    ensures Decoded(DecodedAll(s).1).0.Err? && forall f <- DecodedAll(s).0 :: Encodable(f)
    decreases |s|
  {
    var (f, rest) := Decoded(s);
    if f.Ok? {
      ReencodeGivesBytes(s);
      StreamReencodes(rest);
      EncodeFirst(f.frame, DecodedAll(rest).0, DecodedAll(rest).1);
    }
  }

  /** Cut off within its first frame, a stream shows no frame. */
  lemma TruncatedFirst(f: Frame, later: seq<byte>, k: nat)
    requires Encodable(f) && k < |Encoded(f)|
    ensures DecodedAll((Encoded(f) + later)[..k]).0 == []
  {
    assert (Encoded(f) + later)[..k] == Encoded(f)[..k];
    StrictPrefixFails(f, k);
  }

  /** Cut off later, it shows the first frame and what the rest shows. */
  lemma TruncatedLater(f: Frame, later: seq<byte>, k: nat)
    requires Encodable(f) && |Encoded(f)| <= k <= |Encoded(f)| + |later|
    ensures DecodedAll((Encoded(f) + later)[..k]).0 == [f] + DecodedAll(later[..k - |Encoded(f)|]).0
  {
    assert (Encoded(f) + later)[..k] == Encoded(f) + later[..k - |Encoded(f)|];
    DecodeFirst(f, later[..k - |Encoded(f)|]);
  }

  /** A reader that has the first `k` bytes of a stream sees a prefix of its frames, never other ones. */
  lemma {:induction false} TruncatedStream(fs: seq<Frame>, k: nat)
    requires (forall f <- fs :: Encodable(f)) && k <= |EncodedAll(fs)|
    ensures DecodedAll(EncodedAll(fs)[..k]).0 <= fs
    ensures k < |EncodedAll(fs)| ==> |DecodedAll(EncodedAll(fs)[..k]).0| < |fs|
  {
    if fs == [] {
      ShortFails(EncodedAll(fs)[..k]);
    } else {
      var n := |Encoded(fs[0])|;
      if k < n {
        TruncatedFirst(fs[0], EncodedAll(fs[1..]), k);
      } else {
        TruncatedLater(fs[0], EncodedAll(fs[1..]), k);
        TruncatedStream(fs[1..], k - n);
        assert fs == [fs[0]] + fs[1..];
      }
    }
  }

  // ------------------------------------------------------------------------------ negotiation

  predicate Supports(min: u16, max: u16, v: u16) {
    min <= v <= max
  }

  /** The greatest version both sides support, if there is one. */
  function NegotiateVersion(clientMin: u16, clientMax: u16, serverMin: u16, serverMax: u16): (r: Option<u16>)
    ensures r.Some? ==>
              && Supports(clientMin, clientMax, r.value) && Supports(serverMin, serverMax, r.value)
              && forall v: u16 :: Supports(clientMin, clientMax, v) && Supports(serverMin, serverMax, v) ==>
                   v <= r.value
    ensures r.None? ==>
              !exists v: u16 :: Supports(clientMin, clientMax, v) && Supports(serverMin, serverMax, v)
  {
    var minSupported := if serverMin > clientMin then serverMin else clientMin;
    var maxSupported := if serverMax < clientMax then serverMax else clientMax;
    if maxSupported < minSupported then None else Some(maxSupported)
  }

  // -------------------------------------------------------------------------- reader and writer

  class ByteWriter {
    var data: seq<byte>

    constructor ()
      ensures data == []
    {
      data := [];
    }

    method Write(s: seq<byte>)
      modifies this
      ensures data == old(data) + s
    {
      data := data + s;
    }
  }

  class ByteReader {
    var data: seq<byte>

    constructor (data: seq<byte>)
      ensures this.data == data
    {
      this.data := data;
    }

    /** A read that cannot be filled consumes what there is. */
    method ReadFull(n: nat) returns (s: Option<seq<byte>>)
      modifies this
      ensures (s, data) == Take(old(data), n)
    {
      if n <= |data| {
        s := Some(data[..n]);
        data := data[n..];
      } else {
        s := None;
        data := [];
      }
    }
  }

  method Encode(f: Frame, w: ByteWriter)
    modifies w
    ensures w.data == old(w.data) + Encoded(f)
  {
    w.Write(PutU32(MAGIC));
    w.Write(PutU16(f.version));
    w.Write(PutU16(f.messageType));
    w.Write(PutU32(|f.payload| % 0x1_0000_0000));
    assert w.data == old(w.data) + Header(f);
    if |f.payload| > 0 {
      w.Write(f.payload);
    }
    assert w.data == old(w.data) + (Header(f) + f.payload);
  }

  method Decode(r: ByteReader) returns (res: Result)
    modifies r
    ensures (res, r.data) == Decoded(old(r.data))
  {
    var magic := r.ReadFull(4);
    if magic == None { return Err(ShortMagic); }
    if GetU32(magic.value) != MAGIC { return Err(BadMagic); }
    var version := r.ReadFull(2);
    if version == None { return Err(ShortVersion); }
    if !IsVersionSupported(GetU16(version.value)) { return Err(UnsupportedVersion); }
    var messageType := r.ReadFull(2);
    if messageType == None { return Err(ShortType); }
    var len := r.ReadFull(4);
    if len == None { return Err(ShortLength); }
    if GetU32(len.value) > MAX_PAYLOAD { return Err(PayloadTooLarge); }
    var payload: Option<seq<byte>> := Some([]);
    if GetU32(len.value) > 0 {
      payload := r.ReadFull(GetU32(len.value));
      if payload == None { return Err(ShortPayload); }
    }
    return Ok(Frame(GetU16(version.value), GetU16(messageType.value), payload.value));
  }
}
