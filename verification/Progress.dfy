/**
  What the tasks of a client can do. The other theorems say what never goes wrong; these say that, while
  nothing else holds a lock, a session and a writer get through everything they are there for.
 */
module Progress {
  import opened Common
  import opened Delivery
  import opened Protocol
  import opened Coherence
  import opened Refinement
  import opened ServerRuns
  import opened Streams
  import Handshake
  import Registry
  import Text
  import Utf8

  /** No lock is held. */
  predicate Quiet(w: World) {
    w.barrier == Open && w.clientsLock == ClientsFree && w.deliveriesLock == DeliveriesFree
  }

  /** What the read loop lets through: at most 4096 bytes, something that is not white space, a clock time. */
  predicate Sayable(time: string, text: string) {
    && |Utf8.Encode(time)| == 5 && |Utf8.Encode(text)| <= 4096
    && exists i | 0 <= i < |text| :: !Text.IsWhitespace(text[i])
  }

  /** Exactly which lines may be recorded, and by whom. */
  lemma MayRecordIff(w: World, t: Token, byWriter: bool, entry: Entry)
    ensures ChatBeginStep(w, t, byWriter, entry).Some? <==>
            && t in w.clients && w.barrier == Open
            && var c := w.clients[t];
               if byWriter then c.writer == WriterPc.Removed && c.joined && entry == Leave(t)
               else || (c.pc == SessionPc.Replayed && entry == Join(t))
                    || (c.pc == Chatting && entry.Say? && entry.who == t && Sayable(entry.time, entry.text))
                    || (c.pc == SessionPc.Removed && c.joined && entry == Leave(t))
  {
  }

  // ---- Recording a line -----------------------------------------------------------------------

  /** A line recorded and broadcast, with nothing in between. */
  function RecordSteps(t: Token, byWriter: bool, entry: Entry, order: seq<Token>, gone: seq<Token>): seq<Step> {
    [ChatBegin(t, byWriter, entry)] + (([ChatOffer] + BroadcastSteps(order, gone, true)) + [ChatEnd])
  }

  /** Where the task that recorded a line is after that. */
  function AuthorAfter(c: Client, byWriter: bool, entry: Entry): Client {
    if byWriter then c.(writer := Stopped, channel := c.channel.(closed := true))
    else match entry
      case Join(_) => c.(pc := Announced)
      case Say(_, _, _) => c.(pc := Chatting)
      case Leave(_) => c.(pc := SessionPc.Done)
  }

  /** The server after a line: it is in the log, every client was served, and its author has moved on. */
  function AfterLine(w: World, t: Token, byWriter: bool, entry: Entry): World
    requires t in w.clients
  {
    var clients := BroadcastClients(w, Chat(entry));
    w.(clients := clients[t := AuthorAfter(clients[t], byWriter, entry)],
       log := w.log + [entry],
       history := PushBounded(w.history, entry, MESSAGE_HISTORY_LIMIT))
  }

  /** The author has begun, and the views of the registries are what they were. */
  lemma LineBegins(w: World, t: Token, byWriter: bool, entry: Entry)
    requires RowsInv(w) && w.clientsLock == ClientsFree && ChatBeginStep(w, t, byWriter, entry).Some?
    ensures var w1 := ChatBeginStep(w, t, byWriter, entry).value;
            && RowsInv(w1) && DeliveryTokens(w1) == DeliveryTokens(w)
            && DeliveriesOf(w1) == DeliveriesOf(w) && ChannelsOf(w1) == ChannelsOf(w)
  {
    var w1 := ChatBeginStep(w, t, byWriter, entry).value;
    assert DeliveriesOf(w1) == DeliveriesOf(w);
    assert ChannelsOf(w1) == ChannelsOf(w);
  }

  /** What a broadcast makes of one client. */
  function Fate(w: World, message: Message, t: Token): Client
    requires t in w.clients
  {
    var c := OfferClient(w.clients[t], message);
    if t in DoomedBy(DeliveriesOf(w), ChannelsOf(w), message) then GoneClient(c) else c
  }

  lemma FateIsBroadcast(w: World, message: Message, t: Token)
    requires t in w.clients
    ensures t in BroadcastClients(w, message) && BroadcastClients(w, message)[t] == Fate(w, message, t)
  {
    assert w.clients[t].delivery.None? ==> OfferClient(w.clients[t], message) == w.clients[t];
  }

  /** Speaking moves the author on in its task and does nothing else to it. */
  lemma SpeakingMoves(c: Client, t: Token, byWriter: bool, entry: Entry, served: Client)
    requires Speak(c, t, byWriter, entry).Some?
    ensures var c1 := Speak(c, t, byWriter, entry).value;
            && c1 == c.(pc := c1.pc, writer := c1.writer)
            && (served.pc == c.pc && served.writer == c.writer ==>
                  Spoken(served.(pc := c1.pc, writer := c1.writer), byWriter) == AuthorAfter(served, byWriter, entry))
  {
  }

  /** Where a client's tasks are is no business of a broadcast. */
  lemma SameFate(w: World, w1: World, message: Message, t: Token)
    requires t in w.clients && t in w1.clients
    requires w1.clients[t] == w.clients[t].(pc := w1.clients[t].pc, writer := w1.clients[t].writer)
    requires DeliveriesOf(w1) == DeliveriesOf(w) && ChannelsOf(w1) == ChannelsOf(w)
    ensures Fate(w1, message, t) == Fate(w, message, t).(pc := w1.clients[t].pc, writer := w1.clients[t].writer)
    ensures Fate(w, message, t).pc == w.clients[t].pc && Fate(w, message, t).writer == w.clients[t].writer
  {
  }

  lemma LineReachesOthers(w: World, t: Token, byWriter: bool, entry: Entry, t': Token)
    requires RowsInv(w) && w.clientsLock == ClientsFree && ChatBeginStep(w, t, byWriter, entry).Some?
    requires t' in w.clients && t' != t
    ensures var w1 := ChatBeginStep(w, t, byWriter, entry).value;
            BroadcastClients(w1, Chat(entry))[t'] == BroadcastClients(w, Chat(entry))[t']
  {
    LineBegins(w, t, byWriter, entry);
    var w1 := ChatBeginStep(w, t, byWriter, entry).value;
    assert w1.clients[t'] == w.clients[t'];
    FateIsBroadcast(w, Chat(entry), t');
    FateIsBroadcast(w1, Chat(entry), t');
    SameFate(w, w1, Chat(entry), t');
  }

  lemma LineReachesAuthor(w: World, t: Token, byWriter: bool, entry: Entry)
    requires RowsInv(w) && w.clientsLock == ClientsFree && ChatBeginStep(w, t, byWriter, entry).Some?
    ensures var w1 := ChatBeginStep(w, t, byWriter, entry).value;
            Spoken(BroadcastClients(w1, Chat(entry))[t], byWriter)
            == AuthorAfter(BroadcastClients(w, Chat(entry))[t], byWriter, entry)
  {
    LineBegins(w, t, byWriter, entry);
    var w1 := ChatBeginStep(w, t, byWriter, entry).value;
    SpeakingMoves(w.clients[t], t, byWriter, entry, Fate(w, Chat(entry), t));
    FateIsBroadcast(w, Chat(entry), t);
    FateIsBroadcast(w1, Chat(entry), t);
    SameFate(w, w1, Chat(entry), t);
  }

  lemma BroadcastKeepsKeys(w: World, message: Message)
    ensures BroadcastClients(w, message).Keys == w.clients.Keys
  {
  }

  /** After the broadcast the author moves on, and that is all that is left to do. */
  lemma LineEnds(w: World, t: Token, byWriter: bool, entry: Entry)
    requires RowsInv(w) && Quiet(w) && ChatBeginStep(w, t, byWriter, entry).Some?
    ensures var w1 := ChatBeginStep(w, t, byWriter, entry).value;
            var w2 := w1.(clients := BroadcastClients(w1, Chat(entry)),
                          barrier := Broadcasting(t, byWriter, Dooming({})));
            Next(w2, ChatEnd) == Some(AfterLine(w, t, byWriter, entry))
  {
    hide BroadcastClients, Spoken, AuthorAfter, RowsInv;
    BroadcastKeepsKeys(w, Chat(entry));
    BroadcastKeepsKeys(ChatBeginStep(w, t, byWriter, entry).value, Chat(entry));
    var w1 := ChatBeginStep(w, t, byWriter, entry).value;
    var clients := BroadcastClients(w1, Chat(entry));
    var after := AfterLine(w, t, byWriter, entry);
    LineReachesAuthor(w, t, byWriter, entry);
    forall t' | t' in w.clients && t' != t ensures clients[t'] == after.clients[t'] {
      LineReachesOthers(w, t, byWriter, entry, t');
    }
    assert clients[t := Spoken(clients[t], byWriter)] == after.clients;
  }

  /**
    A line that may be recorded is recorded, broadcast and done with, in whatever order the clients are
    served and the doomed removed: exactly that line is appended to the log.
   */
  lemma LineIsRecorded(w: World, t: Token, byWriter: bool, entry: Entry, order: seq<Token>, gone: seq<Token>)
    requires RowsInv(w) && Quiet(w) && ChatBeginStep(w, t, byWriter, entry).Some?
    requires Enumerates(order, DeliveryTokens(w))
    requires Enumerates(gone, DoomedBy(DeliveriesOf(w), ChannelsOf(w), Chat(entry)))
    ensures RunFrom(w, RecordSteps(t, byWriter, entry, order, gone)) == Some(AfterLine(w, t, byWriter, entry))
  {
    hide BroadcastClients, AfterLine, BroadcastSteps, RowsInv, RunFrom;
    var w1 := ChatBeginStep(w, t, byWriter, entry).value;
    LineBegins(w, t, byWriter, entry);
    LineIsServed(w1, t, byWriter, entry, order, gone);
    LineEnds(w, t, byWriter, entry);
    var broadcast := [ChatOffer] + BroadcastSteps(order, gone, true);
    RunFirst(w, ChatBegin(t, byWriter, entry), broadcast + [ChatEnd]);
  }

  lemma LineIsServed(w1: World, t: Token, byWriter: bool, entry: Entry, order: seq<Token>, gone: seq<Token>)
    requires RowsInv(w1) && w1.clientsLock == ClientsFree && w1.deliveriesLock == DeliveriesFree
    requires w1.log != [] && w1.log[|w1.log| - 1] == entry && w1.barrier == Broadcasting(t, byWriter, Recorded)
    requires Enumerates(order, DeliveryTokens(w1))
    requires Enumerates(gone, DoomedBy(DeliveriesOf(w1), ChannelsOf(w1), Chat(entry)))
    ensures RunFrom(w1, ([ChatOffer] + BroadcastSteps(order, gone, true)) + [ChatEnd])
            == Next(w1.(clients := BroadcastClients(w1, Chat(entry)),
                        barrier := Broadcasting(t, byWriter, Dooming({}))), ChatEnd)
  {
    ChatBroadcastAsSpecified(w1, order, gone);
    var broadcast := [ChatOffer] + BroadcastSteps(order, gone, true);
    var w2 := RunFrom(w1, broadcast).value;
    RunOne(w2, ChatEnd);
    RunFromConcat(w1, broadcast, [ChatEnd]);
  }

  lemma Enumeration(tokens: set<Token>) returns (order: seq<Token>)
    ensures Enumerates(order, tokens)
    decreases |tokens|
  {
    if tokens == {} {
      order := [];
    } else {
      var t :| t in tokens;
      var rest := Enumeration(tokens - {t});
      order := [t] + rest;
      assert forall t': Token :: t' in order <==> t' == t || t' in rest;
    }
  }

  lemma LeadsThrough(w: World, w': World, w'': World)
    requires Leads(w, w') && Leads(w', w'')
    ensures Leads(w, w'')
  {
    var a :| RunFrom(w, a) == Some(w');
    var b :| RunFrom(w', b) == Some(w'');
    RunFromConcat(w, a, b);
    assert RunFrom(w, a + b) == Some(w'');
  }

  /** So the line can be recorded, from any reachable state in which no lock is held. */
  lemma LineCanBeRecorded(w: World, t: Token, byWriter: bool, entry: Entry)
    requires Reachable(w) && Quiet(w) && ChatBeginStep(w, t, byWriter, entry).Some?
    ensures t in w.clients && Leads(w, AfterLine(w, t, byWriter, entry))
    ensures Reachable(AfterLine(w, t, byWriter, entry)) && Quiet(AfterLine(w, t, byWriter, entry))
  {
    ReachableInv(w);
    var order := Enumeration(DeliveryTokens(w));
    var gone := Enumeration(DoomedBy(DeliveriesOf(w), ChannelsOf(w), Chat(entry)));
    LineIsRecorded(w, t, byWriter, entry, order, gone);
    LeadsThrough(START, w, AfterLine(w, t, byWriter, entry));
  }

  /** What stays of the author besides its place. */
  lemma AuthorKeeps(w: World, t: Token, byWriter: bool, entry: Entry)
    requires t in w.clients
    ensures var c, c' := w.clients[t], AfterLine(w, t, byWriter, entry).clients[t];
            && c'.joined == c.joined && c'.username == c.username
            && (byWriter ==> c'.pc == c.pc && c'.writer == Stopped && c'.channel.closed)
            && (!byWriter ==> c'.writer == c.writer)
            && (!byWriter && entry.Say? ==> c'.pc == Chatting)
            && (!byWriter && entry.Leave? ==> c'.pc == SessionPc.Done)
            && (!byWriter && entry.Join? ==> c'.pc == Announced)
  {
    FateIsBroadcast(w, Chat(entry), t);
  }

  /** A client in the read loop can say whatever the loop lets through, and is in the loop after that. */
  lemma ChattingClientIsHeard(w: World, t: Token, time: string, text: string)
    requires Reachable(w) && Quiet(w) && t in w.clients && w.clients[t].pc == Chatting && Sayable(time, text)
    ensures var w' := AfterLine(w, t, false, Say(t, time, text));
            && Leads(w, w') && Quiet(w') && w'.log == w.log + [Say(t, time, text)]
            && w'.clients[t].pc == Chatting && w'.clients[t].joined == w.clients[t].joined
  {
    MayRecordIff(w, t, false, Say(t, time, text));
    LineCanBeRecorded(w, t, false, Say(t, time, text));
    AuthorKeeps(w, t, false, Say(t, time, text));
  }

  // ---- The end of a session and of a writer ---------------------------------------------------

  lemma OwnRemoval(w: World, t: Token, caller: Caller) returns (w': World)
    requires Reachable(w) && Quiet(w) && t in w.clients && w.clients[t].session.Some?
    requires (caller == BySession && w.clients[t].pc == Ending) || (caller == ByWriter && w.clients[t].writer == Failed)
    ensures Leads(w, w') && Reachable(w') && Quiet(w') && w'.log == w.log && t in w'.clients
    ensures var c := w.clients[t].(session := None, delivery := None, disconnect := true);
            w'.clients[t] == if caller == BySession then c.(pc := SessionPc.Removed)
                             else c.(writer := WriterPc.Removed)
  {
    LeadsNowhere(w);
    var w1 := RemoveBeginStep(w, t, caller).value;
    LeadsNext(w, w, RemoveBegin(t, caller), w1);
    w' := RemoveEndStep(w1).value;
    LeadsNext(w, w1, RemoveEnd, w');
    LeadsThrough(START, w, w');
  }

  /** A task that took its client out is done after that, with one leave announced iff there was a join. */
  lemma AfterOwnRemoval(w: World, t: Token, caller: Caller) returns (w': World)
    requires Reachable(w) && Quiet(w) && t in w.clients
    requires (caller == BySession && w.clients[t].pc == SessionPc.Removed)
             || (caller == ByWriter && w.clients[t].writer == WriterPc.Removed)
    ensures Leads(w, w') && Quiet(w') && t in w'.clients && w'.clients[t].joined == w.clients[t].joined
    ensures w'.log == if w.clients[t].joined then w.log + [Leave(t)] else w.log
    ensures caller == BySession ==> w'.clients[t].pc == SessionPc.Done && w'.clients[t].writer == w.clients[t].writer
    ensures caller == ByWriter ==> w'.clients[t].writer == Stopped && w'.clients[t].channel.closed
                                   && w'.clients[t].pc == w.clients[t].pc
  {
    if w.clients[t].joined {
      MayRecordIff(w, t, caller == ByWriter, Leave(t));
      LineCanBeRecorded(w, t, caller == ByWriter, Leave(t));
      AuthorKeeps(w, t, caller == ByWriter, Leave(t));
      w' := AfterLine(w, t, caller == ByWriter, Leave(t));
    } else {
      LeadsNowhere(w);
      var s := if caller == BySession then SessionQuit(t) else WriterQuit(t);
      w' := Next(w, s).value;
      LeadsNext(w, w, s, w');
    }
  }

  lemma MissedRemoval(w: World, t: Token, caller: Caller) returns (w': World)
    requires Quiet(w) && t in w.clients && w.clients[t].session.None?
    requires (caller == BySession && w.clients[t].pc == Ending) || (caller == ByWriter && w.clients[t].writer == Failed)
    ensures Leads(w, w') && Quiet(w') && w'.log == w.log && t in w'.clients
    ensures w'.clients[t] == if caller == BySession then w.clients[t].(pc := SessionPc.Done)
                             else w.clients[t].(writer := Stopped, channel := w.clients[t].channel.(closed := true))
  {
    LeadsNowhere(w);
    w' := RemoveMissStep(w, t, caller).value;
    LeadsNext(w, w, RemoveMiss(t, caller), w');
  }

  /** Whoever of the two ends: the client is gone, and a leave announced iff it was there and had joined. */
  lemma TaskEnds(w: World, t: Token, caller: Caller) returns (w': World)
    requires Reachable(w) && Quiet(w) && t in w.clients
    requires (caller == BySession && w.clients[t].pc == Ending) || (caller == ByWriter && w.clients[t].writer == Failed)
    ensures Leads(w, w') && Quiet(w') && t in w'.clients
    ensures w'.log == if w.clients[t].session.Some? && w.clients[t].joined then w.log + [Leave(t)] else w.log
    ensures caller == BySession ==> w'.clients[t].pc == SessionPc.Done
    ensures caller == ByWriter ==> w'.clients[t].writer == Stopped
  {
    if w.clients[t].session.Some? {
      var w1 := OwnRemoval(w, t, caller);
      w' := AfterOwnRemoval(w1, t, caller);
      LeadsThrough(w, w1, w');
    } else {
      w' := MissedRemoval(w, t, caller);
    }
  }

  /** A session in the read loop can end. */
  lemma SessionCanEnd(w: World, t: Token) returns (w': World)
    requires Reachable(w) && Quiet(w) && t in w.clients && w.clients[t].pc == Chatting
    ensures Leads(w, w') && Quiet(w') && t in w'.clients && w'.clients[t].pc == SessionPc.Done
    ensures w'.log == if w.clients[t].session.Some? && w.clients[t].joined then w.log + [Leave(t)] else w.log
  {
    LeadsNowhere(w);
    var w1 := SessionStopStep(w, t).value;
    LeadsNext(w, w, SessionStop(t), w1);
    LeadsThrough(START, w, w1);
    w' := TaskEnds(w1, t, BySession);
    LeadsThrough(w, w1, w');
  }

  /** A writer that fails can end, and takes its client with it. */
  lemma WriterCanFail(w: World, t: Token) returns (w': World)
    requires Reachable(w) && Quiet(w) && t in w.clients && w.clients[t].writer == Writing
    requires w.clients[t].channel.queue != []
    ensures Leads(w, w') && Quiet(w') && t in w'.clients && w'.clients[t].writer == Stopped
    ensures w'.log == if w.clients[t].session.Some? && w.clients[t].joined then w.log + [Leave(t)] else w.log
  {
    LeadsNowhere(w);
    var w1 := WriteStep(w, t, false).value;
    LeadsNext(w, w, Write(t, false), w1);
    LeadsThrough(START, w, w1);
    w' := TaskEnds(w1, t, ByWriter);
    LeadsThrough(w, w1, w');
  }

  lemma WritesOne(w: World, t: Token)
    requires t in w.clients && w.clients[t].writer == Writing && w.clients[t].channel.queue != []
    ensures WriteStep(w, t, true).Some?
    ensures var w1, ch := WriteStep(w, t, true).value, w.clients[t].channel;
            && w1.log == w.log && w1.barrier == w.barrier && t in w1.clients
            && w1.clients[t] == w.clients[t].(channel := Channel(ch.taken + [ch.queue[0]], ch.queue[1..], ch.closed))
  {
  }

  /** A writer can write all that is queued, in order. */
  lemma WriterCanDrain(w: World, t: Token) returns (w': World)
    requires t in w.clients && w.clients[t].writer == Writing
    ensures Leads(w, w') && w'.log == w.log && w'.barrier == w.barrier && t in w'.clients
    ensures var ch := w.clients[t].channel;
            w'.clients[t] == w.clients[t].(channel := Channel(ch.taken + ch.queue, [], ch.closed))
    decreases |w.clients[t].channel.queue|
  {
    hide Leads;
    var ch := w.clients[t].channel;
    LeadsNowhere(w);
    if ch.queue == [] {
      w' := w;
      assert ch.taken + [] == ch.taken;
    } else {
      WritesOne(w, t);
      var w1 := WriteStep(w, t, true).value;
      LeadsNext(w, w, Write(t, true), w1);
      w' := WriterCanDrain(w1, t);
      LeadsThrough(w, w1, w');
      assert ch.taken + [ch.queue[0]] + ch.queue[1..] == ch.taken + ch.queue;
    }
  }

  /** A writer whose client is gone and whose channel is empty stops. */
  lemma WriterCanStop(w: World, t: Token) returns (w': World)
    requires t in w.clients && w.clients[t].writer == Writing && w.clients[t].delivery.None?
    requires w.clients[t].channel.queue == [] && !w.barrier.Replay?
    ensures Leads(w, w') && w'.log == w.log && t in w'.clients && w'.clients[t].writer == Stopped
  {
    LeadsNowhere(w);
    w' := WriterQuitStep(w, t).value;
    LeadsNext(w, w, WriterQuit(t), w');
  }

  // ---- Sessions whose client was taken out ----------------------------------------------------

  lemma OneStep(w: World, s: Step, w': World)
    requires Next(w, s) == Some(w')
    ensures Leads(w, w')
  {
    LeadsNowhere(w);
    LeadsNext(w, w, s, w');
  }

  /** A session whose client was taken out finds that out at its next step, and ends without a word. */
  lemma GoneSessionEnds(w: World, t: Token) returns (w': World)
    requires Quiet(w) && t in w.clients && w.clients[t].session.None? && w.clients[t].delivery.None?
    requires var pc := w.clients[t].pc; pc == Registered || pc == Waiting || pc == Chatting || pc == Ending
    ensures Leads(w, w') && Quiet(w') && w'.log == w.log && t in w'.clients && w'.clients[t].pc == SessionPc.Done
  {
    hide Leads;
    var pc := w.clients[t].pc;
    if pc == Registered {
      w' := SetUsernameStep(w, t).value;
      OneStep(w, SetUsername(t), w');
    } else if pc == Ending {
      w' := MissedRemoval(w, t, BySession);
    } else {
      var s := if pc == Waiting then ReplayBegin(t) else SessionStop(t);
      var w1 := Next(w, s).value;
      OneStep(w, s, w1);
      w' := MissedRemoval(w1, t, BySession);
      LeadsThrough(w, w1, w');
    }
  }

  /** A replay whose client was taken out meanwhile lets go of the barrier, and its session ends. */
  lemma ReplayOfGoneClientEnds(w: World, t: Token)
    requires w.barrier == Replay(t, []) && w.deliveriesLock == DeliveriesFree
    requires t in w.clients && w.clients[t].delivery.None?
    ensures FlushBeginStep(w) == Some(Put(w, t, w.clients[t].(pc := Ending)).(barrier := Open))
  {
  }

  /** Anyone may look for a client that is not there, and nothing happens. */
  lemma OthersMissQuietly(w: World, t: Token)
    requires t in w.clients && w.clientsLock == ClientsFree && w.clients[t].session.None?
    ensures Next(w, RemoveMiss(t, ByOther)) == Some(w)
  {
  }
}
