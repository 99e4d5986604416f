/**
  The decoders as the programs run them, over a transport that hands out its bytes in chunks of any
  size. Their results depend only on the bytes, not on where the transport cut them.
 */
module Readers {
  import opened Common
  import opened Utf8
  import opened Frames

  function Concat(chunks: seq<seq<byte>>): seq<byte> {
    if chunks == [] then [] else chunks[0] + Concat(chunks[1..])
  }

  class Reader {
    var chunks: seq<seq<byte>>

    constructor (chunks: seq<seq<byte>>)
      requires forall i | 0 <= i < |chunks| :: chunks[i] != []
      ensures Valid() && Ahead() == Concat(chunks)
    {
      this.chunks := chunks;
    }

    predicate Valid()
      reads this
    {
      forall i | 0 <= i < |chunks| :: chunks[i] != []
    }

    /** The bytes not read yet. */
    function Ahead(): seq<byte>
      reads this
    {
      Concat(chunks)
    }

    /** One read into a buffer of `room` bytes: part of one chunk, or nothing at the end. */
    method Read(room: nat) returns (got: seq<byte>)
      requires Valid() && room > 0
      modifies this
      ensures Valid()
      ensures got + Ahead() == old(Ahead())
      ensures |got| <= room
      ensures got == [] <==> old(Ahead()) == []
    {
      if chunks == [] {
        return [];
      }
      var chunk := chunks[0];
      if |chunk| <= room {
        got := chunk;
        chunks := chunks[1..];
      } else {
        got := chunk[..room];
        assert ([chunk[room..]] + chunks[1..])[1..] == chunks[1..];
        assert chunk == got + chunk[room..];
        chunks := [chunk[room..]] + chunks[1..];
      }
    }

    /** `read_exact`: all of `n` bytes, or none and the stream used up. */
    method ReadExact(n: nat) returns (r: Option<seq<byte>>)
      requires Valid()
      modifies this
      ensures Valid()
      ensures if n <= |old(Ahead())| then r == Some(old(Ahead())[..n]) && Ahead() == old(Ahead())[n..]
              else r == None && Ahead() == []
    {
      var buffer: seq<byte> := [];
      while |buffer| < n
        invariant Valid() && |buffer| <= n
        invariant buffer + Ahead() == old(Ahead())
        decreases n - |buffer|
      {
        var got := Read(n - |buffer|);
        if got == [] {
          assert buffer + [] == buffer;
          return None;
        }
        buffer := buffer + got;
      }
      return Some(buffer);
    }

    /** A header, `None` at a clean end of the stream, or a header that is cut short. */
    method ReadHeader() returns (r: Result<Option<seq<byte>>, FrameError>)
      requires Valid()
      modifies this
      ensures Valid()
      ensures var s := old(Ahead());
              if s == [] then r == Ok(None) && Ahead() == []
              else if |s| < FRAME_HEADER_BYTES then r == Err(Truncated) && Ahead() == []
              else r == Ok(Some(s[..FRAME_HEADER_BYTES])) && Ahead() == s[FRAME_HEADER_BYTES..]
    {
      var header: seq<byte> := [];
      while |header| < FRAME_HEADER_BYTES
        invariant Valid() && |header| <= FRAME_HEADER_BYTES
        invariant header + Ahead() == old(Ahead())
        decreases FRAME_HEADER_BYTES - |header|
      {
        var got := Read(FRAME_HEADER_BYTES - |header|);
        if got == [] {
          assert header + [] == header;
          if header == [] {
            return Ok(None);
          }
          return Err(Truncated);
        }
        header := header + got;
      }
      return Ok(Some(header));
    }

    /** The blocking decoder. */
    method ReadFrame() returns (d: Decoded<FrameError>)
      requires Valid()
      modifies this
      ensures Valid()
      ensures (d, Ahead()) == SyncDecode(old(Ahead()))
    {
      var h := ReadHeader();
      if h.Err? {
        return Failed(h.error);
      }
      if h.value.None? {
        return NoFrame;
      }
      var header := h.value.value;
      if header[0] != CURRENT_PROTOCOL_VERSION {
        return Failed(UnsupportedVersion(header[0]));
      }
      var kind := KindOf(header[1]);
      if kind.None? {
        return Failed(UnknownType(header[1]));
      }
      var length := LengthOf(header[2], header[3], header[4], header[5]);
      if length > MAX_FRAME_PAYLOAD_BYTES {
        return Failed(TooLarge(length));
      }
      var payload := ReadExact(length);
      if payload.None? {
        return Failed(Truncated);
      }
      return Got(Frame(header[0], kind.value, payload.value));
    }

    /** The asynchronous decoder: its first byte is read on its own. */
    method ReadAsyncFrame() returns (d: Decoded<ServerError>)
      requires Valid()
      modifies this
      ensures Valid()
      ensures (d, Ahead()) == AsyncDecode(old(Ahead()))
    {
      ghost var s := Ahead();
      var first := Read(1);
      if first == [] {
        return NoFrame;
      }
      assert s[1..] == Ahead();
      var others := ReadExact(FRAME_HEADER_BYTES - 1);
      if others.None? {
        return Failed(TruncatedProtocolFrame);
      }
      var bytes := first + others.value;
      assert bytes == s[..FRAME_HEADER_BYTES] && Ahead() == s[FRAME_HEADER_BYTES..];
      var length := LengthOf(bytes[2], bytes[3], bytes[4], bytes[5]);
      if length > MAX_FRAME_PAYLOAD_BYTES {
        return Failed(MessageTooLong);
      }
      if bytes[0] != CURRENT_PROTOCOL_VERSION {
        return Failed(UnsupportedProtocolVersion);
      }
      var kind := KindOf(bytes[1]);
      if kind.None? {
        return Failed(UnknownProtocolFrameType);
      }
      var payload := ReadExact(length);
      if payload.None? {
        return Failed(TruncatedProtocolFrame);
      }
      return Got(Frame(bytes[0], kind.value, payload.value));
    }

    /** Frame after frame until the stream ends or breaks. */
    method ReadFrames() returns (frames: seq<Frame>, end: End)
      requires Valid()
      modifies this
      ensures (frames, end) == DecodeAll(old(Ahead()))
    {
      frames := [];
      assert [] + DecodeAll(Ahead()).0 == DecodeAll(Ahead()).0;
      while true
        invariant Valid()
        invariant DecodeAll(old(Ahead()))
               == (frames + DecodeAll(Ahead()).0, DecodeAll(Ahead()).1)
        decreases |Ahead()|
      {
        ghost var s := Ahead();
        var d := ReadFrame();
        match d {
          case NoFrame =>
            assert frames + [] == frames;
            return frames, Clean;
          case Failed(e) =>
            assert frames + [] == frames;
            return frames, Broken(e);
          case Got(f) =>
            DecodedIsWire(s);
            assert frames + ([f] + DecodeAll(Ahead()).0) == frames + [f] + DecodeAll(Ahead()).0;
            frames := frames + [f];
        }
      }
    }
  }

  /** Frames sent over any chunking of their bytes arrive as they were sent. */
  method SendThroughChunks(sent: seq<Frame>, chunks: seq<seq<byte>>) returns (frames: seq<Frame>, end: End)
    requires AreFrames(sent) && Concat(chunks) == WireAll(sent)
    requires forall i | 0 <= i < |chunks| :: chunks[i] != []
    ensures frames == sent && end == Clean
  {
    var reader := new Reader(chunks);
    frames, end := reader.ReadFrames();
    WireAllDecodes(sent);
  }
}
