/** Limits, codes and formats, said in numbers and characters rather than by the names they have here. */
module InNumbers {
  import opened Common
  import opened Utf8
  import Admission
  import ChatText
  import Delivery
  import F = Frames
  import Handshake
  import Mentions
  import PerIp
  import Presence
  import Protocol
  import ServerRuns
  import Text

  // ---- Limits ---------------------------------------------------------------------------------

  /** The history is the last 100 lines. */
  lemma HistoryInNumbers(w: Protocol.World)
    requires Protocol.Reachable(w)
    ensures w.history == if |w.log| <= 100 then w.log else w.log[|w.log| - 100..]
  {
    ServerRuns.HistoryIsRecent(w);
  }

  /** A channel holds 228 messages. One that is closed says so, even when it is full. */
  lemma SendInNumbers<M>(channel: Delivery.Channel<M>, message: M)
    ensures var (result, channel') := Delivery.TrySend(channel, message);
            && (result == Delivery.Closed <==> channel.closed)
            && (result == Delivery.Full <==> !channel.closed && |channel.queue| >= 228)
            && channel'.taken == channel.taken && channel'.closed == channel.closed
            && channel'.queue == if result == Delivery.Sent then channel.queue + [message] else channel.queue
  {
  }

  /** A client that waits for its history may have 128 messages held back for it. */
  lemma OfferInNumbers<M>(d: Delivery.ClientDelivery<M>, channel: Delivery.Channel<M>, message: M)
    ensures Delivery.Offer(d, channel, message).doomed
            <==> if d.ready then channel.closed || |channel.queue| >= 228 else |d.pending| >= 128
  {
  }

  /** A flush loses nothing, and the client is ready iff nothing is held back any more. */
  lemma MarkedConserves<M>(d: Delivery.ClientDelivery<M>, channel: Delivery.Channel<M>)
    requires !d.ready
    ensures var s := Delivery.Marked(d, channel);
            && s.channel.Sent() + s.delivery.pending == channel.Sent() + d.pending
            && channel.Sent() <= s.channel.Sent()
            && (s.delivery.ready <==> s.delivery.pending == [])
            && (s.outcome == Delivery.Ready <==> s.delivery.ready)
            && s.delivery.addr == d.addr
  {
    var f := Delivery.Flush(d.pending, channel);
    assert channel.Sent() + f.sent + f.rest == channel.Sent() + (f.sent + f.rest);
  }

  /** At most 256 connections, and at most 4 of one address. */
  lemma PermitsInNumbers(st: Admission.State, ip: Ip)
    requires Admission.Reachable(st)
    ensures |st.serves| <= 256 && st.available == 256 - |st.serves|
    ensures |PerIp.At(Admission.CountedAddrs(st.serves), ip)| <= 4
  {
    Admission.PermitsStayWithinLimits(st, ip);
  }

  // ---- Names and texts ------------------------------------------------------------------------

  /** White space, as Unicode lists it. */
  lemma WhitespaceInNumbers(c: char)
    ensures Text.IsWhitespace(c) <==>
            || c in "\t\n\U{b}\U{c}\r \U{85}\U{a0}\U{1680}\U{2028}\U{2029}\U{202f}\U{205f}\U{3000}"
            || '\U{2000}' <= c <= '\U{200a}'
  {
  }

  /** An accepted name: not empty, at most 32 bytes, without control characters or white space around it. */
  lemma AcceptedInNumbers(username: string)
    ensures Handshake.IsAccepted(username) <==>
            && username != "" && |Encode(username)| <= 32
            && !Text.IsWhitespace(username[0]) && !Text.IsWhitespace(username[|username| - 1])
            && forall i | 0 <= i < |username| :: '\U{20}' <= username[i] && !('\U{7f}' <= username[i] <= '\U{9f}')
  {
    var lo, hi := Text.TrimIsTheCore(username);
    if username != "" && !Text.IsWhitespace(username[0]) && !Text.IsWhitespace(username[|username| - 1]) {
      assert Text.TrimStart(username) == username && Text.TrimEnd(username) == username;
    }
    if Handshake.IsAccepted(username) {
      assert lo == 0 && hi == |username|;
    }
  }

  predicate HasControl(s: string) {
    exists i | 0 <= i < |s| :: s[i] < '\U{20}' || '\U{7f}' <= s[i] <= '\U{9f}'
  }

  lemma ControlInNumbers(s: string)
    ensures HasControl(s) <==> exists i | 0 <= i < |s| :: Text.IsControl(s[i])
  {
    if i :| 0 <= i < |s| && Text.IsControl(s[i]) {
      assert s[i] < '\U{20}' || '\U{7f}' <= s[i] <= '\U{9f}';
    }
    if HasControl(s) {
      var i :| 0 <= i < |s| && (s[i] < '\U{20}' || '\U{7f}' <= s[i] <= '\U{9f}');
      assert Text.IsControl(s[i]);
    }
  }

  /** The part of a text that is left without the white space around it. */
  predicate IsCore(s: string, lo: nat, hi: nat) {
    && lo < hi <= |s| && !Text.IsWhitespace(s[lo]) && !Text.IsWhitespace(s[hi - 1])
    && (forall i | 0 <= i < |s| && (i < lo || hi <= i) :: Text.IsWhitespace(s[i]))
  }

  lemma TrimInWords(s: string) returns (lo: nat, hi: nat)
    requires !Text.IsBlank(s)
    ensures IsCore(s, lo, hi) && Text.Trim(s) == s[lo..hi]
  {
    lo, hi := Text.TrimIsTheCore(s);
    forall i | 0 <= i < |s| && (i < lo || hi <= i) ensures Text.IsWhitespace(s[i]) {
      if i < lo { assert s[..lo][i] == s[i]; } else { assert s[hi..][i - hi] == s[i]; }
    }
  }

  predicate AllWhite(s: string) {
    forall i | 0 <= i < |s| :: Text.IsWhitespace(s[i])
  }

  lemma BlankInWords(s: string)
    ensures Text.IsBlank(s) <==> AllWhite(s)
  {
  }

  /** What a handshake frame is answered: the first thing wrong with it, or its text but for white space around it. */
  lemma AnswersInWords(payload: seq<byte>, r: F.Result<string, Handshake.HandshakeError>)
    requires Handshake.Answers(payload, r)
    ensures Decode(payload).None? ==> r == F.Err(Handshake.InvalidUtf8)
    ensures Decode(payload).Some? ==>
              var s := Decode(payload).value;
              && (|payload| > 32 ==> r == F.Err(Handshake.UsernameTooLong))
              && (|payload| <= 32 && AllWhite(s) ==> r == F.Err(Handshake.EmptyHandshakeUsername))
              && (|payload| <= 32 && !AllWhite(s) ==>
                    if HasControl(s) then r == F.Err(Handshake.UsernameContainsControlCharacters)
                    else exists lo: nat, hi: nat :: IsCore(s, lo, hi) && r == F.Ok(s[lo..hi]))
  {
    hide Decode, Text.Trim, Text.IsControl, HasControl, AllWhite, IsCore, Text.IsBlank;
    if Decode(payload).Some? {
      var s := Decode(payload).value;
      ControlInNumbers(s);
      BlankInWords(s);
      if !Text.IsBlank(s) { var lo, hi := TrimInWords(s); }
    }
  }

  lemma LinesInWords(username: string, timestamp: string, content: string)
    ensures ChatText.Format(username, timestamp, content) == "[" + username + "](" + timestamp + "): " + content
    ensures Handshake.JoinText(username) == "@" + username + " has entered the chat. Say hello!\n"
    ensures Handshake.LeaveText(username) == username + " has left the chat\n"
  {
  }

  /** The name after an `@`. */
  predicate Called(text: string, username: string, i: nat) {
    i < |text| && text[i] == '@' && i + 1 + |username| <= |text| && text[i + 1..i + 1 + |username|] == username
  }

  lemma CalledIsOccurrence(text: string, username: string, i: nat)
    ensures ChatText.OccursAt(text, i, Mentions.Needle(username)) <==> Called(text, username, i)
  {
    var n := |username| + 1;
    assert Mentions.Needle(username) == ['@'] + username;
    if i < |text| && i + n <= |text| {
      assert text[i..i + n] == [text[i]] + text[i + 1..i + n];
    }
  }

  /** A mention: the name after an `@`, and then the end, or neither a letter or digit nor `_`. */
  lemma MentionInWords(alphanumeric: Mentions.CharClass, text: string, username: string)
    ensures Mentions.Mentioned(alphanumeric, text, username) <==>
            exists i | 0 <= i < |text| ::
              && Called(text, username, i)
              && (i + 1 + |username| == |text|
                  || (!alphanumeric(text[i + 1 + |username|]) && text[i + 1 + |username|] != '_'))
  {
    forall i | 0 <= i <= |text|
      ensures ChatText.OccursAt(text, i, Mentions.Needle(username)) <==> Called(text, username, i)
    {
      CalledIsOccurrence(text, username, i);
    }
  }

  // ---- Bytes ----------------------------------------------------------------------------------

  /** UTF-8: as few bytes as possible, the markers of RFC 3629 section 3, and the code in the other bits. */
  lemma EncodeCharInNumbers(c: char)
    ensures var v, b := c as int, EncodeChar(c);
            && (v < 0x80 ==> b == [v])
            && (0x80 <= v < 0x800 ==>
                  && |b| == 2
                  && var x: int, y: int := b[0], b[1];
                     0xC0 <= x < 0xE0 && 0x80 <= y < 0xC0 && v == (x - 0xC0) * 64 + (y - 0x80))
            && (0x800 <= v < 0x1_0000 ==>
                  && |b| == 3
                  && var x: int, y: int, z: int := b[0], b[1], b[2];
                     && 0xE0 <= x < 0xF0 && 0x80 <= y < 0xC0 && 0x80 <= z < 0xC0
                     && v == (x - 0xE0) * 4096 + (y - 0x80) * 64 + (z - 0x80))
            && (0x1_0000 <= v ==>
                  && |b| == 4
                  && var x: int, y: int, z: int, u: int := b[0], b[1], b[2], b[3];
                     && 0xF0 <= x < 0xF5 && 0x80 <= y < 0xC0 && 0x80 <= z < 0xC0 && 0x80 <= u < 0xC0
                     && v == (x - 0xF0) * 262144 + (y - 0x80) * 4096 + (z - 0x80) * 64 + (u - 0x80))
  {
    SplitBits(c as int);
  }

  /** The six bytes before a payload: version 1, the code of the type, and its length from the high byte down. */
  lemma HeaderInNumbers(kind: F.FrameType, payload: seq<byte>)
    requires |payload| <= 16 * 1024
    ensures var n, w := |payload|, F.Wire(kind, payload);
            && |w| == 6 + n && w[6..] == payload && w[0] == 1
            && w[1] == (match kind case Handshake => 1 case Chat => 2 case Presence => 3)
            && w[2] == 0 && w[3] == 0 && var high: int, low: int := w[4], w[5]; high * 256 + low == n
  {
  }

  /** What the blocking decoder makes of some bytes. */
  lemma SyncInNumbers(s: seq<byte>)
    ensures s == [] ==> F.SyncDecode(s) == (F.NoFrame, [])
    ensures 0 < |s| < 6 ==> F.SyncDecode(s) == (F.Failed(F.Truncated), [])
    ensures |s| >= 6 ==>
              var a: int, b: int, c: int, e: int := s[2], s[3], s[4], s[5];
              var n := a * 0x100_0000 + b * 0x1_0000 + c * 0x100 + e;
              var d := F.SyncDecode(s).0;
              if s[0] != 1 then d == F.Failed(F.UnsupportedVersion(s[0]))
              else if !(1 <= s[1] <= 3) then d == F.Failed(F.UnknownType(s[1]))
              else if n > 16384 then d == F.Failed(F.TooLarge(n))
              else if |s| < 6 + n then d == F.Failed(F.Truncated)
              else d.Got? && d.frame.payload == s[6..6 + n]
                   && d.frame.kind == (if s[1] == 1 then F.Handshake else if s[1] == 2 then F.Chat else F.Presence)
  {
  }

  /** The asynchronous one looks at the length first. */
  lemma AsyncInNumbers(s: seq<byte>)
    ensures s == [] ==> F.AsyncDecode(s) == (F.NoFrame, [])
    ensures 0 < |s| < 6 ==> F.AsyncDecode(s) == (F.Failed(F.TruncatedProtocolFrame), [])
    ensures |s| >= 6 ==>
              var a: int, b: int, c: int, e: int := s[2], s[3], s[4], s[5];
              var n := a * 0x100_0000 + b * 0x1_0000 + c * 0x100 + e;
              var d := F.AsyncDecode(s).0;
              if n > 16384 then d == F.Failed(F.MessageTooLong)
              else if s[0] != 1 then d == F.Failed(F.UnsupportedProtocolVersion)
              else if !(1 <= s[1] <= 3) then d == F.Failed(F.UnknownProtocolFrameType)
              else if |s| < 6 + n then d == F.Failed(F.TruncatedProtocolFrame)
              else d.Got? && d.frame.payload == s[6..6 + n]
                   && d.frame.kind == (if s[1] == 1 then F.Handshake else if s[1] == 2 then F.Chat else F.Presence)
  {
  }

  lemma TwoBytes(n: nat)
    requires n <= 0xFFFF
    ensures |Presence.U16Bytes(n)| == 2
    ensures var a: int, b: int := Presence.U16Bytes(n)[0], Presence.U16Bytes(n)[1]; a * 256 + b == n
  {
  }

  /** A list of names: their number, and each name after its size in bytes, all in two bytes, high byte first. */
  lemma NamesInNumbers(users: seq<string>)
    requires Presence.AreListable(users) && users != []
    ensures var p, n := Presence.Payload(users), |Encode(users[0])|;
            && |p| >= 4 + n && p[4..4 + n] == Encode(users[0])
            && var a: int, b: int, c: int, d: int := p[0], p[1], p[2], p[3];
               a * 256 + b == |users| && c * 256 + d == n
  {
    hide Encode, Text.IsValidUsername, Presence.U16Bytes;
    var p, n := Presence.Payload(users), |Encode(users[0])|;
    TwoBytes(|users|);
    TwoBytes(n);
    assert p == Presence.U16Bytes(|users|) + Presence.U16Bytes(n) + Encode(users[0]) + Presence.UsersBytes(users[1..]);
  }
}
