/** The first frame of a connection, and the size of every frame the server builds from it. */
module Handshake {
  import opened Common
  import opened Utf8
  import opened Text
  import Readers
  import ChatText
  import Presence
  import F = Frames

  const MAX_USERNAME_BYTES: nat := 32

  datatype HandshakeError =
    | EmptyHandshakeUsername
    | UsernameContainsControlCharacters
    | UsernameTooLong
    | InvalidFrameType
    | InvalidUtf8
    | Protocol(error: F.ServerError)

  /** A username the server accepts: valid, trimmed and at most 32 bytes. */
  predicate IsAccepted(username: string) {
    && IsValidUsername(username)
    && Trim(username) == username
    && |Encode(username)| <= MAX_USERNAME_BYTES
  }

  /** What the payload of a handshake frame leads to. */
  predicate Answers(payload: seq<byte>, r: F.Result<string, HandshakeError>) {
    var decoded := Decode(payload);
    if decoded.None? then r == F.Err(InvalidUtf8)
    else if |payload| > MAX_USERNAME_BYTES then r == F.Err(UsernameTooLong)
    else if IsBlank(decoded.value) then r == F.Err(EmptyHandshakeUsername)
    else if exists i | 0 <= i < |decoded.value| :: IsControl(decoded.value[i])
      then r == F.Err(UsernameContainsControlCharacters)
    else r == F.Ok(Trim(decoded.value))
  }

  /** `read_handshake_username`; an accepted name is the trimmed payload and nothing else. */
  method ReadHandshakeUsername(reader: Readers.Reader) returns (r: F.Result<string, HandshakeError>)
    requires reader.Valid()
    modifies reader
    ensures reader.Valid()
    ensures match F.AsyncDecode(old(reader.Ahead())).0
            case NoFrame => r == F.Err(EmptyHandshakeUsername)
            case Failed(e) => r == F.Err(if e == F.MessageTooLong then UsernameTooLong else Protocol(e))
            case Got(f) => if f.kind != F.Handshake then r == F.Err(InvalidFrameType) else Answers(f.payload, r)
    ensures r.Ok? ==> IsAccepted(r.value)
  {
    var d := reader.ReadAsyncFrame();
    if d.NoFrame? {
      return F.Err(EmptyHandshakeUsername);
    }
    if d.Failed? {
      return F.Err(if d.error == F.MessageTooLong then UsernameTooLong else Protocol(d.error));
    }
    if d.frame.kind != F.Handshake {
      return F.Err(InvalidFrameType);
    }
    var decoded := Decode(d.frame.payload);
    if decoded.None? {
      return F.Err(InvalidUtf8);
    }
    var username := decoded.value;
    DecodedEncodes(d.frame.payload);
    if |Encode(username)| > MAX_USERNAME_BYTES {
      return F.Err(UsernameTooLong);
    }
    var lo, hi := TrimIsTheCore(username);
    if Trim(username) == "" {
      return F.Err(EmptyHandshakeUsername);
    }
    if !IsValidUsername(username) {
      return F.Err(UsernameContainsControlCharacters);
    }
    TrimmedIsValid(username);
    return F.Ok(Trim(username));
  }

  // ---- Frames built from accepted names -------------------------------------------------------

  /** The clock text `HH:MM`. */
  predicate IsTimestamp(timestamp: string) {
    |Encode(timestamp)| == 5
  }

  const JOIN_ENDING: string := " has entered the chat. Say hello!\n"
  const LEAVE_ENDING: string := " has left the chat\n"

  function JoinText(username: string): string {
    "@" + username + JOIN_ENDING
  }

  function LeaveText(username: string): string {
    username + LEAVE_ENDING
  }

  /** The lines the server records: joins, leaves, and chat of at most 4096 bytes. */
  ghost predicate IsServerLine(line: string) {
    exists username | IsAccepted(username) ::
      || line == JoinText(username)
      || line == LeaveText(username)
      || IsChatLineOf(line, username)
  }

  ghost predicate IsChatLineOf(line: string, username: string) {
    exists timestamp, content | IsTimestamp(timestamp) && |Encode(content)| <= F.MAX_CHAT_MESSAGE_BYTES ::
      line == ChatText.Format(username, timestamp, content)
  }

  /** Whether a line can be sent in one frame. */
  predicate Fits(line: string) {
    |Encode(line)| <= F.MAX_FRAME_PAYLOAD_BYTES
  }

  lemma Concat3Length(a: string, b: string, c: string)
    ensures |Encode(a + b + c)| == |Encode(a)| + |Encode(b)| + |Encode(c)|
  {
    EncodeConcat(a + b, c);
    EncodeConcat(a, b);
  }

  lemma ChatLineLength(username: string, timestamp: string, content: string)
    ensures |Encode(ChatText.Format(username, timestamp, content))|
         <= |Encode(username)| + |Encode(timestamp)| + |Encode(content)| + 4 * 6
  {
    var front := "[" + username + ChatText.USER_END;
    Concat3Length("[", username, ChatText.USER_END);
    Concat3Length(front + timestamp, ChatText.TIME_END, content);
    EncodeConcat(front, timestamp);
    EncodeBound("[");
    EncodeBound(ChatText.USER_END);
    EncodeBound(ChatText.TIME_END);
  }

  lemma JoinTextLength(username: string)
    ensures |Encode(JoinText(username))| <= |Encode(username)| + 4 * 35
  {
    Concat3Length("@", username, JOIN_ENDING);
    EncodeBound("@");
    EncodeBound(JOIN_ENDING);
  }

  lemma LeaveTextLength(username: string)
    ensures |Encode(LeaveText(username))| <= |Encode(username)| + 4 * 19
  {
    EncodeConcat(username, LEAVE_ENDING);
    EncodeBound(LEAVE_ENDING);
  }

  lemma TrimmedIsNoLonger(line: string)
    ensures |Encode(TrimEnd(line))| <= |Encode(line)|
    ensures |Encode(TrimNewlines(line))| <= |Encode(line)|
  {
    TrimEndIsPrefix(line);
    PartIsNoLonger(line, 0, |TrimEnd(line)|);
    TrimNewlinesIsPrefix(line);
    PartIsNoLonger(line, 0, |TrimNewlines(line)|);
  }

  /**
    Every line the server records fits into a frame, sent as it is, with its end trimmed, or as the
    history keeps it.
   */
  lemma ServerLineFits(line: string)
    requires IsServerLine(line)
    ensures Fits(line) && Fits(TrimEnd(line)) && Fits(TrimNewlines(line))
  {
    TrimmedIsNoLonger(line);
    var username :| IsAccepted(username)
      && (line == JoinText(username) || line == LeaveText(username) || IsChatLineOf(line, username));
    JoinTextLength(username);
    LeaveTextLength(username);
    if IsChatLineOf(line, username) {
      var timestamp, content :| IsTimestamp(timestamp) && |Encode(content)| <= F.MAX_CHAT_MESSAGE_BYTES
        && line == ChatText.Format(username, timestamp, content);
      ChatLineLength(username, timestamp, content);
    }
  }

  /** Any list of at most 256 accepted names has a presence frame. */
  lemma PresenceFits(users: seq<string>)
    requires |users| <= MAX_CONNECTIONS && forall i | 0 <= i < |users| :: IsAccepted(users[i])
    ensures Presence.AreListable(users)
    ensures |Presence.Payload(users)| <= 2 + MAX_CONNECTIONS * (MAX_USERNAME_BYTES + 2)
    ensures |Presence.Payload(users)| <= F.MAX_FRAME_PAYLOAD_BYTES
  {
    Presence.UsersBytesBound(users, MAX_USERNAME_BYTES);
  }
}
