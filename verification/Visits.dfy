/** A whole visit of a client, from its registration to its leave, and what it is sent meanwhile. */
module Visits {
  import opened Common
  import opened Delivery
  import opened Protocol
  import opened Refinement
  import opened ServerRuns
  import opened Streams
  import opened Progress
  import Handshake
  import Registry

  /** A client that has just registered and been named. */
  function Newcomer(addr: SocketAddr, username: string, since: nat): Client {
    Client(username, Some(Registry.ClientSession(addr, Some(username))), Some(ClientDelivery(addr, false, [])),
           Channel([], [], false), false, false, Waiting, Writing, since, None)
  }

  lemma Enters(w: World, t: Token, addr: SocketAddr, username: string) returns (w': World)
    requires Reachable(w) && Quiet(w) && t !in w.clients && Handshake.IsAccepted(username)
    ensures Leads(w, w') && Quiet(w') && w'.log == w.log && w'.history == w.history
    ensures t in w'.clients && w'.clients[t] == Newcomer(addr, username, |w.log|)
  {
    hide Handshake.IsAccepted;
    LeadsNowhere(w);
    var w1 := RegisterStep(w, t, addr, username).value;
    LeadsNext(w, w, Register(t, addr, username), w1);
    w' := SetUsernameStep(w1, t).value;
    LeadsNext(w, w1, SetUsername(t), w');
  }

  /** A new client with nothing held back is served its history and is ready. */
  lemma NewcomerIsServed(addr: SocketAddr, history: seq<Message>)
    requires |history| <= MESSAGE_HISTORY_LIMIT
    ensures ServeReplay(ClientDelivery(addr, false, []), Channel([], [], false), history)
            == Served(Ready, ClientDelivery(addr, true, []), Channel([], history, false))
  {
    var empty: Channel<Message> := Channel([], [], false);
    FlushWithRoomNeverOverflows(history, empty);
    FlushExtendsQueue(history, empty);
    assert [] + history == history;
    assert Flush(history, empty).channel == Channel([], history, false);
  }

  lemma IsReplayed(w: World, t: Token, addr: SocketAddr, username: string) returns (w': World)
    requires Reachable(w) && Quiet(w) && t in w.clients && w.clients[t] == Newcomer(addr, username, |w.log|)
    ensures Leads(w, w') && Quiet(w') && w'.log == w.log && t in w'.clients
    ensures w'.clients[t] == Newcomer(addr, username, |w.log|)
              .(delivery := Some(ClientDelivery(addr, true, [])), pc := SessionPc.Replayed,
                channel := Channel([], ChatMessages(w.history), false), replayedAt := Some(|w.log|))
    ensures |w'.clients[t].channel.queue| <= MESSAGE_HISTORY_LIMIT
  {
    HistoryIsRecent(w);
    assert |ChatMessages(w.history)| == |w.history|;
    NewcomerIsServed(addr, ChatMessages(w.history));
    ReplayIsServed(w, t);
    w' := AfterReplay(Noted(w, t), t, ServeReplay(ClientDelivery(addr, false, []), Channel([], [], false),
                                                  ChatMessages(w.history)));
  }

  /** A ready client with room that records a line is given it, and stays. */
  lemma AuthorIsServed(w: World, t: Token, entry: Entry)
    requires t in w.clients && w.clients[t].delivery.Some? && w.clients[t].delivery.value.ready
    requires !w.clients[t].channel.closed && |w.clients[t].channel.queue| < OUTBOUND_QUEUE_SIZE
    ensures var c := w.clients[t];
            AfterLine(w, t, false, entry).clients[t]
            == AuthorAfter(c.(channel := c.channel.(queue := c.channel.queue + [Chat(entry)])), false, entry)
  {
    FateIsBroadcast(w, Chat(entry), t);
  }

  lemma Joins(w: World, t: Token) returns (w': World)
    requires Reachable(w) && Quiet(w) && t in w.clients && w.clients[t].pc == SessionPc.Replayed
    requires w.clients[t].delivery.Some? && w.clients[t].delivery.value.ready && !w.clients[t].channel.closed
    requires |w.clients[t].channel.queue| <= MESSAGE_HISTORY_LIMIT
    ensures Leads(w, w') && Quiet(w') && w'.log == w.log + [Join(t)] && t in w'.clients
    ensures var c := w.clients[t];
            w'.clients[t] == c.(channel := c.channel.(queue := c.channel.queue + [Chat(Join(t))]),
                                pc := Chatting, joined := true)
  {
    hide AfterLine;
    MayRecordIff(w, t, false, Join(t));
    LineCanBeRecorded(w, t, false, Join(t));
    AuthorIsServed(w, t, Join(t));
    var w1 := AfterLine(w, t, false, Join(t));
    LineLog(w, t, false, Join(t));
    w' := SetJoinedStep(w1, t).value;
    LeadsNext(w, w1, SetJoined(t), w');
  }

  lemma LineLog(w: World, t: Token, byWriter: bool, entry: Entry)
    requires t in w.clients
    ensures t in AfterLine(w, t, byWriter, entry).clients && AfterLine(w, t, byWriter, entry).log == w.log + [entry]
  {
  }

  lemma Says(w: World, t: Token, time: string, text: string) returns (w': World)
    requires Reachable(w) && Quiet(w) && t in w.clients && w.clients[t].pc == Chatting && Sayable(time, text)
    requires w.clients[t].delivery.Some? && w.clients[t].delivery.value.ready && !w.clients[t].channel.closed
    requires |w.clients[t].channel.queue| < OUTBOUND_QUEUE_SIZE
    ensures Leads(w, w') && Quiet(w') && w'.log == w.log + [Say(t, time, text)] && t in w'.clients
    ensures var c := w.clients[t];
            w'.clients[t] == c.(channel := c.channel.(queue := c.channel.queue + [Chat(Say(t, time, text))]))
  {
    hide AfterLine;
    ChattingClientIsHeard(w, t, time, text);
    AuthorIsServed(w, t, Say(t, time, text));
    w' := AfterLine(w, t, false, Say(t, time, text));
    LineLog(w, t, false, Say(t, time, text));
  }

  /** A visit up to its last word. */
  lemma VisitSoFar(w: World, t: Token, addr: SocketAddr, username: string, time: string, text: string)
    returns (w': World)
    requires Reachable(w) && Quiet(w) && t !in w.clients && Handshake.IsAccepted(username) && Sayable(time, text)
    ensures Leads(w, w') && Reachable(w') && Quiet(w') && t in w'.clients
    ensures w'.log == w.log + [Join(t), Say(t, time, text)]
    ensures var c := w'.clients[t];
            && c.pc == Chatting && c.joined && c.username == username
            && c.session == Some(Registry.ClientSession(addr, Some(username)))
            && c.delivery == Some(ClientDelivery(addr, true, []))
            && c.since == |w.log| && c.replayedAt == Some(|w.log|)
  {
    hide Leads, Handshake.IsAccepted, Sayable;
    var w1 := Enters(w, t, addr, username);
    ReachedFrom(w, w1);
    var w2 := IsReplayed(w1, t, addr, username);
    ReachedFrom(w1, w2);
    var w3 := Joins(w2, t);
    ReachedFrom(w2, w3);
    w' := Says(w3, t, time, text);
    ReachedFrom(w3, w');
    LeadsThrough(w, w1, w2);
    LeadsThrough(w, w2, w3);
    LeadsThrough(w, w3, w');
    assert w.log + [Join(t)] + [Say(t, time, text)] == w.log + [Join(t), Say(t, time, text)];
  }

  lemma ReachedFrom(w: World, w': World)
    requires Reachable(w) && Leads(w, w')
    ensures Reachable(w')
  {
    LeadsThrough(START, w, w');
  }

  /**
    While nothing else holds a lock, a new client can register under any accepted name, be given the
    recent history, join, say whatever the read loop lets through, and leave: exactly its join, its line
    and its leave are appended to the log. Before it leaves it was given the last 100 lines there were
    when it came, and its own join and line.
   */
  lemma WholeVisit(w: World, t: Token, addr: SocketAddr, username: string, time: string, text: string)
    returns (w1: World, w2: World)
    requires Reachable(w) && Quiet(w) && t !in w.clients && Handshake.IsAccepted(username) && Sayable(time, text)
    ensures Leads(w, w1) && Leads(w1, w2) && Quiet(w2)
    ensures t in w1.clients && w1.clients[t].session == Some(Registry.ClientSession(addr, Some(username)))
    ensures Chats(w1.clients[t].channel.Sent()) == Recent(w.log) + [Join(t), Say(t, time, text)]
    ensures w1.log == w.log + [Join(t), Say(t, time, text)]
    ensures w2.log == w.log + [Join(t), Say(t, time, text), Leave(t)]
    ensures t in w2.clients && w2.clients[t].pc == SessionPc.Done
  {
    w1 := VisitSoFar(w, t, addr, username, time, text);
    NothingIsSkipped(w1, t);
    assert w1.log[..|w.log|] == w.log && w1.log[|w.log|..] == [Join(t), Say(t, time, text)];
    w2 := SessionCanEnd(w1, t);
    assert w1.log + [Leave(t)] == w.log + [Join(t), Say(t, time, text), Leave(t)];
  }
}
