/**
  From the log to the bytes on a client's socket and back: what a client decodes from any cut of what
  its writer has written.
 */
module Sockets {
  import opened Common
  import opened Protocol
  import opened Streams
  import opened Lines
  import opened Text
  import opened Utf8
  import F = Frames
  import Handshake
  import ServerRuns
  import P = Presence

  /** The text that is sent for an entry: live, or out of the history. */
  function SentText(username: string, e: Entry, replayed: bool): string {
    if replayed then TrimNewlines(Line(username, e))
    else if e.Say? then Line(username, e)
    else TrimEnd(Line(username, e))
  }

  /** Whether a frame is what the server puts on the wire for a message. */
  predicate Carries(clients: map<Token, Client>, m: Message, f: F.Frame) {
    && f.version == F.CURRENT_PROTOCOL_VERSION
    && match m
       case Chat(e) =>
         && e.who in clients && f.kind == F.Chat
         && (|| f.payload == Encode(SentText(clients[e.who].username, e, true))
             || f.payload == Encode(SentText(clients[e.who].username, e, false)))
       case Presence(users) =>
         f.kind == F.Presence && f.payload == P.Payload(users) && |f.payload| <= F.MAX_FRAME_PAYLOAD_BYTES
  }

  predicate AllCarry(clients: map<Token, Client>, messages: seq<Message>, frames: seq<F.Frame>) {
    |messages| == |frames| && forall i | 0 <= i < |frames| :: Carries(clients, messages[i], frames[i])
  }

  /** The chat texts in some frames, without the newlines at their ends. */
  function Texts(frames: seq<F.Frame>): seq<string> {
    if frames == [] then []
    else
      var last := frames[|frames| - 1];
      Texts(frames[..|frames| - 1])
      + if last.kind == F.Chat && Decode(last.payload).Some? then [TrimNewlines(Decode(last.payload).value)] else []
  }

  /** The recorded text of an entry, without the newlines at its end. */
  function RecordedText(clients: map<Token, Client>, e: Entry): string {
    if e.who in clients then TrimNewlines(Line(clients[e.who].username, e)) else ""
  }

  function RecordedTexts(clients: map<Token, Client>, entries: seq<Entry>): seq<string> {
    seq(|entries|, i requires 0 <= i < |entries| => RecordedText(clients, entries[i]))
  }

  // ---- Texts ----------------------------------------------------------------------------------

  lemma OneNewlineIsTrimmed(line: string)
    requires |line| >= 2 && line[|line| - 1] == '\n' && !IsWhitespace(line[|line| - 2])
    ensures TrimEnd(line) == TrimNewlines(line)
  {
    var front := line[..|line| - 1];
    assert front[|front| - 1] == line[|line| - 2];
    assert TrimEnd(front) == front && TrimNewlines(front) == front;
  }

  lemma TrimmingTwice(line: string)
    ensures TrimNewlines(TrimNewlines(line)) == TrimNewlines(line)
  {
    TrimNewlinesIsPrefix(line);
  }

  lemma AnnouncementEnds(username: string, e: Entry)
    requires !e.Say?
    ensures var line := Line(username, e);
            |line| >= 2 && line[|line| - 1] == '\n' && !IsWhitespace(line[|line| - 2])
  {
    var ending := if e.Join? then Handshake.JOIN_ENDING else Handshake.LEAVE_ENDING;
    var line := Line(username, e);
    assert line[|line| - |ending|..] == ending;
    assert line[|line| - 1] == ending[|ending| - 1] && line[|line| - 2] == ending[|ending| - 2];
  }

  /** However it is sent, a line is the recorded one but for newlines at its end. */
  lemma SentTextIsRecorded(username: string, e: Entry, replayed: bool)
    ensures TrimNewlines(SentText(username, e, replayed)) == TrimNewlines(Line(username, e))
  {
    TrimmingTwice(Line(username, e));
    if !e.Say? {
      AnnouncementEnds(username, e);
      OneNewlineIsTrimmed(Line(username, e));
    }
  }

  lemma ChatFrameText(clients: map<Token, Client>, e: Entry, f: F.Frame)
    requires Carries(clients, Chat(e), f)
    ensures Decode(f.payload).Some? && TrimNewlines(Decode(f.payload).value) == RecordedText(clients, e)
  {
    var username := clients[e.who].username;
    SentTextIsRecorded(username, e, true);
    SentTextIsRecorded(username, e, false);
    EncodedDecodes(SentText(username, e, true));
    EncodedDecodes(SentText(username, e, false));
  }

  lemma {:induction false} TextsAreRecorded(clients: map<Token, Client>, messages: seq<Message>, frames: seq<F.Frame>)
    requires AllCarry(clients, messages, frames)
    ensures Texts(frames) == RecordedTexts(clients, Chats(messages))
  {
    if frames != [] {
      var n := |frames| - 1;
      TextsAreRecorded(clients, messages[..n], frames[..n]);
      assert Carries(clients, messages[n], frames[n]);
      if messages[n].Chat? { ChatFrameText(clients, messages[n].entry, frames[n]); }
    }
  }

  lemma RecordedTextsPrefix(clients: map<Token, Client>, some: seq<Entry>, all: seq<Entry>)
    requires some <= all
    ensures RecordedTexts(clients, some) <= RecordedTexts(clients, all)
  {
  }

  // ---- Frames ---------------------------------------------------------------------------------

  lemma {:induction false} ChatIsAmongChats(messages: seq<Message>, i: nat)
    requires i < |messages| && messages[i].Chat?
    ensures messages[i].entry in Chats(messages)
  {
    if i < |messages| - 1 { ChatIsAmongChats(messages[..|messages| - 1], i); }
  }

  lemma TargetIsOfLog(log: seq<Entry>, since: nat, at: nat, e: Entry)
    requires since <= |log| && at <= |log| && e in Target(log, since, at)
    ensures e in log
  {
    var front := Recent(log[..at]);
    if e in front {
      var i :| 0 <= i < |front| && front[i] == e;
      assert log[at - |front| + i] == e;
    }
  }

  /** Whatever a writer takes can be framed. */
  lemma TakenAreFrames(w: World, t: Token, frames: seq<F.Frame>)
    requires Reachable(w) && t in w.clients && w.clients[t].replayedAt.Some?
    requires AllCarry(w.clients, w.clients[t].channel.taken, frames)
    ensures F.AreFrames(frames)
  {
    var c := w.clients[t];
    var taken := c.channel.taken;
    forall i | 0 <= i < |frames| ensures F.IsFrame(frames[i]) {
      assert Carries(w.clients, taken[i], frames[i]);
      if taken[i].Chat? {
        var e := taken[i].entry;
        ServerRuns.SocketCarriesAPrefix(w, t, |taken|);
        assert taken[..|taken|] == taken;
        ChatIsAmongChats(taken, i);
        TargetIsOfLog(w.log, c.since, c.replayedAt.value, e);
        var n :| 0 <= n < |w.log| && w.log[n] == e;
        EveryRecordedLineFits(w, n);
      }
    }
  }

  /**
    End to end: cut off anywhere, the bytes that a client's writer has written decode to the frames
    that are complete, and the chat lines in them are a prefix of the history at the client's replay
    followed by the log from the first line on that was still to be broadcast when it registered, but
    for newlines at the ends of lines. The end is clean if the cut is at the boundary of a frame, and
    a truncation error if it is not.
   */
  lemma SocketDecodesToPrefix(w: World, t: Token, frames: seq<F.Frame>, n: nat)
    requires Reachable(w) && t in w.clients && w.clients[t].replayedAt.Some?
    requires AllCarry(w.clients, w.clients[t].channel.taken, frames)
    requires n <= |F.WireAll(frames)|
    ensures var c := w.clients[t];
            var (got, end) := F.DecodeAll(F.WireAll(frames)[..n]);
            && c.since <= c.replayedAt.value <= |w.log|
            && F.CutGives(frames, n, (got, end))
            && Texts(got) <= RecordedTexts(w.clients, Target(w.log, c.since, c.replayedAt.value))
  {
    var c := w.clients[t];
    var taken := c.channel.taken;
    TakenAreFrames(w, t, frames);
    F.CutStream(frames, n);
    var k := F.Complete(frames, n);
    TextsAreRecorded(w.clients, taken[..k], frames[..k]);
    ServerRuns.SocketCarriesAPrefix(w, t, k);
    RecordedTextsPrefix(w.clients, Chats(taken[..k]), Target(w.log, c.since, c.replayedAt.value));
  }
}
