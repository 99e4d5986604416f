/** The wire format: one framed message, and a stream of them cut into arbitrary chunks. */
module Frames {
  import opened Common
  import opened Utf8

  const CURRENT_PROTOCOL_VERSION: byte := 1
  const FRAME_HEADER_BYTES: nat := 6
  const MAX_CHAT_MESSAGE_BYTES: nat := 4 * 1024
  const MAX_FRAME_PAYLOAD_BYTES: nat := 16 * 1024

  datatype FrameType = Handshake | Chat | Presence

  datatype Frame = Frame(version: byte, kind: FrameType, payload: seq<byte>)

  datatype FrameError =
    | UnsupportedVersion(version: byte)
    | UnknownType(value: byte)
    | TooLarge(length: nat)
    | InvalidUsername
    | Truncated

  /** What the server reports when it cannot read a frame. */
  datatype ServerError =
    | MessageTooLong
    | UnsupportedProtocolVersion
    | UnknownProtocolFrameType
    | TruncatedProtocolFrame

  datatype Result<+T, +E> = Ok(value: T) | Err(error: E)

  function Code(kind: FrameType): byte {
    match kind
    case Handshake => 1
    case Chat => 2
    case Presence => 3
  }

  function KindOf(code: byte): Option<FrameType> {
    match code
    case 1 => Some(Handshake)
    case 2 => Some(Chat)
    case 3 => Some(Presence)
    case _ => None
  }

  /** A 32-bit length as four bytes, most significant first. */
  function LengthBytes(n: nat): seq<byte> {
    [n / 0x100_0000 % 0x100, n / 0x1_0000 % 0x100, n / 0x100 % 0x100, n % 0x100]
  }

  function LengthOf(a: byte, b: byte, c: byte, d: byte): nat {
    a * 0x100_0000 + b * 0x1_0000 + c * 0x100 + d
  }

  lemma LengthRoundTrip(n: nat)
    requires n < 0x1_0000_0000
    ensures var l := LengthBytes(n); LengthOf(l[0], l[1], l[2], l[3]) == n
  {
    var high, mid := n / 0x1_0000, n / 0x100;
    assert n == mid * 0x100 + n % 0x100;
    assert high == mid / 0x100 && mid == high * 0x100 + mid % 0x100;
    assert n / 0x100_0000 == high / 0x100 && high == high / 0x100 * 0x100 + high % 0x100;
    assert high / 0x100 < 0x100;
  }

  lemma LengthIsUnique(a: byte, b: byte, c: byte, d: byte)
    ensures LengthBytes(LengthOf(a, b, c, d)) == [a, b, c, d]
  {
    var n := LengthOf(a, b, c, d);
    assert n / 0x100 == a * 0x1_0000 + b * 0x100 + c;
    assert n / 0x1_0000 == a * 0x100 + b;
    assert n / 0x100_0000 == a;
  }

  function Header(kind: FrameType, length: nat): seq<byte> {
    [CURRENT_PROTOCOL_VERSION, Code(kind)] + LengthBytes(length)
  }

  function Wire(kind: FrameType, payload: seq<byte>): seq<byte> {
    Header(kind, |payload|) + payload
  }

  /** The frames that can be put on the wire. */
  predicate IsFrame(f: Frame) {
    f.version == CURRENT_PROTOCOL_VERSION && |f.payload| <= MAX_FRAME_PAYLOAD_BYTES
  }

  method EncodeFrame(kind: FrameType, payload: seq<byte>) returns (r: Result<seq<byte>, FrameError>)
    ensures r == if |payload| > MAX_FRAME_PAYLOAD_BYTES then Err(TooLarge(|payload|)) else Ok(Wire(kind, payload))
  {
    if |payload| > MAX_FRAME_PAYLOAD_BYTES {
      return Err(TooLarge(|payload|));
    }
    var frame: seq<byte> := [];
    frame := frame + [CURRENT_PROTOCOL_VERSION, Code(kind),
                      |payload| / 0x100_0000 % 0x100, |payload| / 0x1_0000 % 0x100,
                      |payload| / 0x100 % 0x100, |payload| % 0x100];
    assert frame == Header(kind, |payload|);
    frame := frame + payload;
    return Ok(frame);
  }

  // ---- The two decoders as functions of the bytes ahead ---------------------------------------

  datatype Decoded<+E> = NoFrame | Got(frame: Frame) | Failed(error: E)

  /** The length field of a complete header. */
  function PayloadLength(s: seq<byte>): nat
    requires |s| >= FRAME_HEADER_BYTES
  {
    LengthOf(s[2], s[3], s[4], s[5])
  }

  /** The payload after a header, or what a stream that is too short gives. */
  function Body<E>(s: seq<byte>, kind: FrameType, truncated: E): (Decoded<E>, seq<byte>)
    requires |s| >= FRAME_HEADER_BYTES
  {
    var ahead, length := s[FRAME_HEADER_BYTES..], PayloadLength(s);
    if |ahead| < length then (Failed(truncated), [])
    else (Got(Frame(s[0], kind, ahead[..length])), ahead[length..])
  }

  /** The blocking decoder: what it returns, and the bytes it leaves. */
  function SyncDecode(s: seq<byte>): (Decoded<FrameError>, seq<byte>) {
    if s == [] then (NoFrame, [])
    else if |s| < FRAME_HEADER_BYTES then (Failed(Truncated), [])
    else if s[0] != CURRENT_PROTOCOL_VERSION then (Failed(UnsupportedVersion(s[0])), s[FRAME_HEADER_BYTES..])
    else if KindOf(s[1]).None? then (Failed(UnknownType(s[1])), s[FRAME_HEADER_BYTES..])
    else if PayloadLength(s) > MAX_FRAME_PAYLOAD_BYTES then
      (Failed(TooLarge(PayloadLength(s))), s[FRAME_HEADER_BYTES..])
    else Body(s, KindOf(s[1]).value, Truncated)
  }

  /** The asynchronous decoder checks the length before the version and the type. */
  function AsyncDecode(s: seq<byte>): (Decoded<ServerError>, seq<byte>) {
    if s == [] then (NoFrame, [])
    else if |s| < FRAME_HEADER_BYTES then (Failed(TruncatedProtocolFrame), [])
    else if PayloadLength(s) > MAX_FRAME_PAYLOAD_BYTES then (Failed(MessageTooLong), s[FRAME_HEADER_BYTES..])
    else if s[0] != CURRENT_PROTOCOL_VERSION then (Failed(UnsupportedProtocolVersion), s[FRAME_HEADER_BYTES..])
    else if KindOf(s[1]).None? then (Failed(UnknownProtocolFrameType), s[FRAME_HEADER_BYTES..])
    else Body(s, KindOf(s[1]).value, TruncatedProtocolFrame)
  }

  /** The header of a wire frame is read back field by field, and the payload follows it. */
  lemma WireFields(kind: FrameType, payload: seq<byte>, rest: seq<byte>)
    requires |payload| <= MAX_FRAME_PAYLOAD_BYTES
    ensures var s := Wire(kind, payload) + rest;
            && |s| == FRAME_HEADER_BYTES + |payload| + |rest|
            && s[0] == CURRENT_PROTOCOL_VERSION && s[1] == Code(kind)
            && PayloadLength(s) == |payload|
            && s[FRAME_HEADER_BYTES..] == payload + rest
  {
    var s, header := Wire(kind, payload) + rest, Header(kind, |payload|);
    assert s == header + (payload + rest);
    assert forall i | 0 <= i < FRAME_HEADER_BYTES :: s[i] == header[i];
    LengthRoundTrip(|payload|);
  }

  lemma WireDecodes(f: Frame, rest: seq<byte>)
    requires IsFrame(f)
    ensures SyncDecode(Wire(f.kind, f.payload) + rest) == (Got(f), rest)
  {
    WireFields(f.kind, f.payload, rest);
  }

  lemma DecodedIsWire(s: seq<byte>)
    requires SyncDecode(s).0.Got?
    ensures var (got, rest) := SyncDecode(s);
            IsFrame(got.frame) && s == Wire(got.frame.kind, got.frame.payload) + rest
  {
    LengthIsUnique(s[2], s[3], s[4], s[5]);
    var (got, rest) := SyncDecode(s);
    var f := got.frame;
    assert s[..FRAME_HEADER_BYTES] == Header(f.kind, |f.payload|);
    assert s == s[..FRAME_HEADER_BYTES] + f.payload + rest;
  }

  /** A frame is read exactly off the bytes that encode it, which are all that is consumed. */
  lemma DecodesIffWire(s: seq<byte>, f: Frame, rest: seq<byte>)
    ensures SyncDecode(s) == (Got(f), rest) <==> IsFrame(f) && s == Wire(f.kind, f.payload) + rest
  {
    if SyncDecode(s) == (Got(f), rest) { DecodedIsWire(s); }
    if IsFrame(f) && s == Wire(f.kind, f.payload) + rest { WireDecodes(f, rest); }
  }

  /** The server's name for an error of the blocking decoder. */
  function AsServerError(e: FrameError): ServerError
    requires !e.InvalidUsername?
  {
    match e
    case UnsupportedVersion(_) => UnsupportedProtocolVersion
    case UnknownType(_) => UnknownProtocolFrameType
    case TooLarge(_) => MessageTooLong
    case Truncated => TruncatedProtocolFrame
  }

  /** A header that is wrong in two ways: an oversized length and a bad version or type. */
  predicate DoublyBad(s: seq<byte>) {
    && |s| >= FRAME_HEADER_BYTES
    && PayloadLength(s) > MAX_FRAME_PAYLOAD_BYTES
    && (s[0] != CURRENT_PROTOCOL_VERSION || KindOf(s[1]).None?)
  }

  /**
    The two decoders return the same frames, end and fail on the same streams and consume the same
    bytes; when they fail, they report the same error iff the header is not wrong in two ways.
   */
  lemma DecodersAgree(s: seq<byte>)
    ensures SyncDecode(s).1 == AsyncDecode(s).1
    ensures SyncDecode(s).0.NoFrame? <==> AsyncDecode(s).0.NoFrame?
    ensures SyncDecode(s).0.Got? <==> AsyncDecode(s).0.Got?
    ensures SyncDecode(s).0.Got? ==> SyncDecode(s).0.frame == AsyncDecode(s).0.frame
    ensures SyncDecode(s).0.Failed? ==>
              && !SyncDecode(s).0.error.InvalidUsername?
              && (AsServerError(SyncDecode(s).0.error) == AsyncDecode(s).0.error <==> !DoublyBad(s))
  {
  }

  /** A header that is wrong in two ways: the decoders name different ones of them. */
  lemma DecodersDisagree()
    ensures var s: seq<byte> := [9, 2, 255, 255, 255, 255];
            && SyncDecode(s).0 == Failed(UnsupportedVersion(9))
            && AsyncDecode(s).0 == Failed(MessageTooLong)
            && AsServerError(UnsupportedVersion(9)) != MessageTooLong
  {
    var s: seq<byte> := [9, 2, 255, 255, 255, 255];
    assert PayloadLength(s) > MAX_FRAME_PAYLOAD_BYTES;
  }

  // ---- Streams --------------------------------------------------------------------------------

  function WireAll(frames: seq<Frame>): seq<byte> {
    if frames == [] then []
    else Wire(frames[0].kind, frames[0].payload) + WireAll(frames[1..])
  }

  datatype End = Clean | Broken(error: FrameError)

  /** Reading frame after frame until the stream ends or a frame cannot be read. */
  function DecodeAll(s: seq<byte>): (seq<Frame>, End)
    decreases |s|
  {
    var (d, rest) := SyncDecode(s);
    match d
    case NoFrame => ([], Clean)
    case Failed(e) => ([], Broken(e))
    case Got(f) =>
      DecodedIsWire(s);
      var (frames, end) := DecodeAll(rest);
      ([f] + frames, end)
  }

  predicate AreFrames(frames: seq<Frame>) {
    forall i | 0 <= i < |frames| :: IsFrame(frames[i])
  }

  lemma DecodeAllNext(f: Frame, rest: seq<byte>)
    requires IsFrame(f)
    ensures var (frames, end) := DecodeAll(rest);
            DecodeAll(Wire(f.kind, f.payload) + rest) == ([f] + frames, end)
  {
    WireDecodes(f, rest);
  }

  lemma {:induction false} WireAllDecodes(frames: seq<Frame>)
    requires AreFrames(frames)
    ensures DecodeAll(WireAll(frames)) == (frames, Clean)
  {
    if frames != [] {
      DecodeAllNext(frames[0], WireAll(frames[1..]));
      WireAllDecodes(frames[1..]);
      assert frames == [frames[0]] + frames[1..];
    }
  }

  lemma {:induction false} CleanStreamIsWireAll(s: seq<byte>)
    requires DecodeAll(s).1 == Clean
    ensures AreFrames(DecodeAll(s).0) && s == WireAll(DecodeAll(s).0)
    decreases |s|
  {
    var (d, rest) := SyncDecode(s);
    if d.Got? {
      DecodedIsWire(s);
      CleanStreamIsWireAll(rest);
      var frames := DecodeAll(s).0;
      assert frames[1..] == DecodeAll(rest).0;
    }
  }

  /** A stream is read to a clean end as some frames exactly when it is their concatenation. */
  lemma StreamRoundTrip(s: seq<byte>, frames: seq<Frame>)
    ensures DecodeAll(s) == (frames, Clean) <==> AreFrames(frames) && s == WireAll(frames)
  {
    if DecodeAll(s) == (frames, Clean) { CleanStreamIsWireAll(s); }
    if AreFrames(frames) && s == WireAll(frames) { WireAllDecodes(frames); }
  }

  /** How many of the frames lie completely within the first `n` bytes. */
  function Complete(frames: seq<Frame>, n: nat): (k: nat)
    ensures k <= |frames|
  {
    if frames == [] || n < |Wire(frames[0].kind, frames[0].payload)| then 0
    else 1 + Complete(frames[1..], n - |Wire(frames[0].kind, frames[0].payload)|)
  }

  lemma CutFrameIsTruncated(f: Frame, s: seq<byte>)
    requires IsFrame(f) && s < Wire(f.kind, f.payload) && s != []
    ensures SyncDecode(s) == (Failed(Truncated), [])
  {
    var w := Wire(f.kind, f.payload);
    assert forall i | 0 <= i < |s| :: s[i] == w[i];
    LengthRoundTrip(|f.payload|);
  }

  /** Putting one frame in front shifts the frames that are complete by one. */
  lemma CompleteShifts(frames: seq<Frame>, n: nat)
    requires frames != [] && n >= |Wire(frames[0].kind, frames[0].payload)|
    ensures var w, rest := Wire(frames[0].kind, frames[0].payload), frames[1..];
            var k := Complete(rest, n - |w|);
            && Complete(frames, n) == k + 1
            && WireAll(frames[..k + 1]) == w + WireAll(rest[..k])
            && (k < |rest| ==> WireAll(frames[..k + 2]) == w + WireAll(rest[..k + 1]))
            && frames[..k + 1] == [frames[0]] + rest[..k]
  {
    var rest := frames[1..];
    var k := Complete(rest, n - |Wire(frames[0].kind, frames[0].payload)|);
    assert frames[..k + 1][1..] == rest[..k];
    if k < |rest| {
      assert frames[..k + 2][1..] == rest[..k + 1];
    }
  }

  /** A stream cut within its first frame. */
  lemma CutFirstFrame(frames: seq<Frame>, n: nat)
    requires AreFrames(frames) && frames != [] && n < |Wire(frames[0].kind, frames[0].payload)|
    ensures n <= |WireAll(frames)| && n < |WireAll(frames[..1])|
    ensures DecodeAll(WireAll(frames)[..n]) == ([], if n == 0 then Clean else Broken(Truncated))
  {
    var w := Wire(frames[0].kind, frames[0].payload);
    assert WireAll(frames)[..n] == w[..n];
    assert frames[..1][1..] == [];
    assert WireAll(frames[..1]) == w + [];
    if n > 0 { CutFrameIsTruncated(frames[0], w[..n]); }
  }

  /** What reading the first `n` bytes of some frames gives. */
  predicate CutGives(frames: seq<Frame>, n: nat, result: (seq<Frame>, End)) {
    var k := Complete(frames, n);
    && |WireAll(frames[..k])| <= n
    && (k < |frames| ==> n < |WireAll(frames[..k + 1])|)
    && result == (frames[..k], if n == |WireAll(frames[..k])| then Clean else Broken(Truncated))
  }

  lemma CutLaterFrame(frames: seq<Frame>, n: nat, result: (seq<Frame>, End))
    requires frames != [] && n >= |Wire(frames[0].kind, frames[0].payload)|
    requires CutGives(frames[1..], n - |Wire(frames[0].kind, frames[0].payload)|, result)
    ensures CutGives(frames, n, ([frames[0]] + result.0, result.1))
  {
    CompleteShifts(frames, n);
  }

  /**
    A stream cut anywhere gives the frames that are complete, then a clean end if the cut is at a
    frame boundary and a truncation error if it is not.
   */
  lemma {:induction false} CutStream(frames: seq<Frame>, n: nat)
    requires AreFrames(frames) && n <= |WireAll(frames)|
    ensures CutGives(frames, n, DecodeAll(WireAll(frames)[..n]))
  {
    if frames != [] {
      var f, rest := frames[0], frames[1..];
      var w := Wire(f.kind, f.payload);
      if n < |w| {
        CutFirstFrame(frames, n);
      } else {
        CutStream(rest, n - |w|);
        var ahead := WireAll(rest)[..n - |w|];
        assert WireAll(frames)[..n] == w + ahead;
        DecodeAllNext(f, ahead);
        CutLaterFrame(frames, n, DecodeAll(ahead));
      }
    }
  }
}
