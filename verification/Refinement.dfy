/**
  The step system and the operations run to their end agree: the steps of one operation, taken with
  nothing in between, have the effect that the operation is specified to have.
 */
module Refinement {
  import opened Common
  import opened Delivery
  import opened Protocol
  import Coherence
  import opened Streams

  function DeliveriesOf(w: World): ClientDeliveries<Message> {
    map t | t in w.clients && w.clients[t].delivery.Some? :: w.clients[t].delivery.value
  }

  function ChannelsOf(w: World): ClientChannels<Message> {
    map t | t in w.clients :: w.clients[t].channel
  }

  lemma {:induction false} RunFromConcat(w: World, a: seq<Step>, b: seq<Step>)
    requires RunFrom(w, a).Some?
    ensures RunFrom(w, a + b) == RunFrom(RunFrom(w, a).value, b)
  {
    if b == [] {
      assert a + b == a;
    } else {
      assert (a + b)[..|a + b| - 1] == a + b[..|b| - 1];
      RunFromConcat(w, a, b[..|b| - 1]);
    }
  }

  lemma RunOne(w: World, s: Step)
    ensures RunFrom(w, [s]) == Next(w, s)
  {
    assert [s][..0] == [];
    assert RunFrom(w, []) == Some(w);
  }

  /** A run that starts with a given step. */
  lemma RunFirst(w: World, s: Step, steps: seq<Step>)
    requires Next(w, s).Some?
    ensures RunFrom(w, [s] + steps) == RunFrom(Next(w, s).value, steps)
  {
    RunOne(w, s);
    RunFromConcat(w, [s], steps);
  }

  function Repeat(s: Step, n: nat): seq<Step> {
    if n == 0 then [] else [s] + Repeat(s, n - 1)
  }

  lemma RepeatNext(s: Step, n: nat)
    requires n > 0
    ensures Repeat(s, n) == [s] + Repeat(s, n - 1)
  {
  }

  // ---- Flushing -------------------------------------------------------------------------------

  /** The steps of a flush: every message that is taken, and the end or the refusal. */
  function FlushSteps(f: Flushed<Message>): seq<Step> {
    Repeat(FlushSend, |f.sent|) + [if f.result == Sent then FlushEnd else FlushSend]
  }

  /** The server after a replay of one client ended that way. */
  function AfterReplay(w: World, t: Token, s: Served<Message>): World
    requires t in w.clients
  {
    Put(w, t, w.clients[t].(delivery := Some(s.delivery), channel := s.channel,
                            pc := if s.outcome == Ready then SessionPc.Replayed else Ending))
    .(deliveriesLock := DeliveriesFree, barrier := Open)
  }

  /** What becomes of a record whose held-back messages were taken out of it and flushed. */
  function Settle(d: ClientDelivery<Message>, f: Flushed<Message>): Served<Message> {
    Served(OutcomeOf(f.result), d.(pending := f.rest, ready := d.ready || f.rest == []), f.channel)
  }

  /** One more message taken: the rest of the flush is the flush of the rest. */
  lemma FlushNext(rest: seq<Message>, channel: Channel<Message>)
    requires rest != [] && TrySend(channel, rest[0]).0 == Sent
    ensures var f, g := Flush(rest, channel), Flush(rest[1..], TrySend(channel, rest[0]).1);
            && FlushSteps(f) == [FlushSend] + FlushSteps(g)
            && f.rest == g.rest && f.channel == g.channel && f.result == g.result
  {
    FlushFirst(rest, channel);
    RepeatNext(FlushSend, |Flush(rest, channel).sent|);
  }

  /** Where a replay ends does not depend on what it did to its client's record on the way. */
  lemma ReplayEndsTheSame(w: World, w1: World, t: Token, s: Served<Message>)
    requires t in w.clients && t in w1.clients
    requires w1 == w.(clients := w.clients[t := w1.clients[t]], barrier := w1.barrier,
                      deliveriesLock := w1.deliveriesLock)
    requires var c := w1.clients[t]; c == w.clients[t].(delivery := c.delivery, channel := c.channel, pc := c.pc)
    ensures AfterReplay(w1, t, s) == AfterReplay(w, t, s)
  {
    assert AfterReplay(w1, t, s).clients == AfterReplay(w, t, s).clients;
  }

  lemma FlushEnds(w: World, t: Token, done: seq<Message>, rest: seq<Message>)
    requires w.deliveriesLock == Flushing(t, done, rest)
    requires t in w.clients && w.clients[t].delivery.Some? && w.clients[t].delivery.value.pending == []
    requires rest == [] || TrySend(w.clients[t].channel, rest[0]).0 != Sent
    ensures var c := w.clients[t];
            var f := Flush(rest, c.channel);
            f.sent == [] && Next(w, if f.result == Sent then FlushEnd else FlushSend)
                            == Some(AfterReplay(w, t, Settle(c.delivery.value, f)))
  {
  }

  lemma {:induction false} FlushLoop(w: World, t: Token, done: seq<Message>, rest: seq<Message>)
    requires w.deliveriesLock == Flushing(t, done, rest)
    requires t in w.clients && w.clients[t].delivery.Some? && w.clients[t].delivery.value.pending == []
    ensures var c := w.clients[t];
            var f := Flush(rest, c.channel);
            RunFrom(w, FlushSteps(f)) == Some(AfterReplay(w, t, Settle(c.delivery.value, f)))
    decreases |rest|
  {
    var c := w.clients[t];
    var f := Flush(rest, c.channel);
    if rest == [] || TrySend(c.channel, rest[0]).0 != Sent {
      FlushEnds(w, t, done, rest);
      var last := if f.result == Sent then FlushEnd else FlushSend;
      assert FlushSteps(f) == [last];
      RunOne(w, last);
    } else {
      FlushNext(rest, c.channel);
      var w1 := FlushSendStep(w).value;
      FlushLoop(w1, t, done + [rest[0]], rest[1..]);
      RunFirst(w, FlushSend, FlushSteps(Flush(rest[1..], w1.clients[t].channel)));
      ReplayEndsTheSame(w, w1, t, Settle(c.delivery.value, f));
    }
  }

  /** `mark_client_ready`, uninterrupted: the client's record and channel become as specified. */
  lemma FlushIsMarkReady(w: World, t: Token)
    requires w.barrier == Replay(t, []) && w.deliveriesLock == DeliveriesFree
    requires t in w.clients && w.clients[t].delivery.Some?
    ensures var c := w.clients[t];
            RunFrom(w, [FlushBegin] + FlushSteps(Flush(c.delivery.value.pending, c.channel)))
            == Some(AfterReplay(w, t, Marked(c.delivery.value, c.channel)))
  {
    var c := w.clients[t];
    var pending := c.delivery.value.pending;
    var w1 := FlushBeginStep(w).value;
    FlushLoop(w1, t, [], pending);
    RunFirst(w, FlushBegin, FlushSteps(Flush(pending, c.channel)));
    SettledIsMarked(c.delivery.value, c.channel);
    ReplayEndsTheSame(w, w1, t, Marked(c.delivery.value, c.channel));
  }

  lemma SettledIsMarked(d: ClientDelivery<Message>, channel: Channel<Message>)
    ensures Settle(d.(pending := []), Flush(d.pending, channel)) == Marked(d, channel)
  {
  }

  // ---- A whole replay -------------------------------------------------------------------------

  /** The steps of a replay from its first history line on. */
  function ReplaySteps(d: ClientDelivery<Message>, channel: Channel<Message>, history: seq<Entry>): seq<Step> {
    var h := Flush(ChatMessages(history), channel);
    Repeat(ReplaySend, |h.sent|)
    + if h.result == Sent then [FlushBegin] + FlushSteps(Flush(d.pending, h.channel)) else [ReplaySend]
  }

  /** One more line taken: the rest of the replay is the replay of the rest. */
  lemma ReplayNext(d: ClientDelivery<Message>, channel: Channel<Message>, history: seq<Entry>)
    requires history != [] && TrySend(channel, Chat(history[0])).0 == Sent
    ensures var channel' := TrySend(channel, Chat(history[0])).1;
            && ReplaySteps(d, channel, history) == [ReplaySend] + ReplaySteps(d, channel', history[1..])
            && ServeReplay(d, channel, ChatMessages(history))
               == ServeReplay(d, channel', ChatMessages(history[1..]))
  {
    ChatMessagesNext(history);
    FlushFirst(ChatMessages(history), channel);
    RepeatNext(ReplaySend, |Flush(ChatMessages(history), channel).sent|);
  }

  lemma ChatMessagesNext(history: seq<Entry>)
    requires history != []
    ensures ChatMessages(history)[0] == Chat(history[0])
    ensures ChatMessages(history)[1..] == ChatMessages(history[1..])
  {
  }

  lemma ReplayRefused(w: World, t: Token, history: seq<Entry>)
    requires w.barrier == Replay(t, history) && w.deliveriesLock == DeliveriesFree && history != []
    requires t in w.clients && w.clients[t].delivery.Some?
    requires TrySend(w.clients[t].channel, Chat(history[0])).0 != Sent
    ensures var c := w.clients[t];
            && ReplaySteps(c.delivery.value, c.channel, history) == [ReplaySend]
            && Next(w, ReplaySend)
               == Some(AfterReplay(w, t, ServeReplay(c.delivery.value, c.channel, ChatMessages(history))))
  {
    ChatMessagesNext(history);
  }

  lemma {:induction false} HistoryLoop(w: World, t: Token, history: seq<Entry>)
    requires w.barrier == Replay(t, history) && w.deliveriesLock == DeliveriesFree
    requires t in w.clients && w.clients[t].delivery.Some?
    ensures var c := w.clients[t];
            RunFrom(w, ReplaySteps(c.delivery.value, c.channel, history))
            == Some(AfterReplay(w, t, ServeReplay(c.delivery.value, c.channel, ChatMessages(history))))
    decreases |history|
  {
    var c := w.clients[t];
    if history == [] {
      ReplayOfNothing(c.delivery.value, c.channel);
      FlushIsMarkReady(w, t);
    } else if TrySend(c.channel, Chat(history[0])).0 != Sent {
      ReplayRefused(w, t, history);
      RunOne(w, ReplaySend);
    } else {
      ReplayNext(c.delivery.value, c.channel, history);
      var w1 := ReplaySendStep(w).value;
      HistoryLoop(w1, t, history[1..]);
      RunFirst(w, ReplaySend, ReplaySteps(c.delivery.value, w1.clients[t].channel, history[1..]));
      ReplayEndsTheSame(w, w1, t, ServeReplay(c.delivery.value, c.channel, ChatMessages(history)));
    }
  }

  lemma ReplayOfNothing(d: ClientDelivery<Message>, channel: Channel<Message>)
    ensures ReplaySteps(d, channel, []) == [FlushBegin] + FlushSteps(Flush(d.pending, channel))
    ensures ServeReplay(d, channel, ChatMessages([])) == Marked(d, channel)
  {
    assert ChatMessages([]) == [];
  }

  lemma PutTwice(w: World, t: Token, c: Client, c': Client)
    ensures Put(Put(w, t, c), t, c') == Put(w, t, c')
  {
    assert w.clients[t := c][t := c'] == w.clients[t := c'];
  }

  /** The client with the time of its replay noted. */
  function Noted(w: World, t: Token): World
    requires t in w.clients
  {
    Put(w, t, w.clients[t].(replayedAt := Some(|w.log|)))
  }

  lemma ReplayBegins(w: World, t: Token, s: Served<Message>)
    requires t in w.clients && ReplayBeginStep(w, t).Some? && w.clients[t].delivery.Some?
    ensures var w1 := ReplayBeginStep(w, t).value;
            && w1.barrier == Replay(t, w.history) && w1.deliveriesLock == DeliveriesFree
            && t in w1.clients && w1.clients[t].delivery == w.clients[t].delivery
            && w1.clients[t].channel == w.clients[t].channel
            && AfterReplay(w1, t, s) == AfterReplay(Noted(w, t), t, s)
  {
    var w1, noted := ReplayBeginStep(w, t).value, Noted(w, t);
    var c := AfterReplay(noted, t, s).clients[t];
    PutTwice(w, t, w1.clients[t], c);
    PutTwice(w, t, noted.clients[t], c);
  }

  lemma ViewsAfterReplay(w: World, t: Token, s: Served<Message>)
    requires t in w.clients && w.clients[t].delivery.Some?
    ensures var w' := AfterReplay(Noted(w, t), t, s);
            && DeliveriesOf(w') == DeliveriesOf(w)[t := s.delivery]
            && ChannelsOf(w') == ChannelsOf(w)[t := s.channel]
  {
  }

  /**
    `send_message_history`, uninterrupted: the client is served its history and what was held back,
    the time of its replay is noted, and nothing else is different in the end.
   */
  lemma ReplayIsServed(w: World, t: Token)
    requires t in w.clients && ReplayBeginStep(w, t).Some? && w.clients[t].delivery.Some?
    ensures var c := w.clients[t];
            RunFrom(w, [ReplayBegin(t)] + ReplaySteps(c.delivery.value, c.channel, w.history))
            == Some(AfterReplay(Noted(w, t), t, ServeReplay(c.delivery.value, c.channel, ChatMessages(w.history))))
    ensures var c := w.clients[t];
            var s := ServeReplay(c.delivery.value, c.channel, ChatMessages(w.history));
            && DeliveriesOf(AfterReplay(Noted(w, t), t, s)) == DeliveriesOf(w)[t := s.delivery]
            && ChannelsOf(AfterReplay(Noted(w, t), t, s)) == ChannelsOf(w)[t := s.channel]
  {
    var c := w.clients[t];
    var s := ServeReplay(c.delivery.value, c.channel, ChatMessages(w.history));
    ViewsAfterReplay(w, t, s);
    ReplayBegins(w, t, s);
    var w1 := ReplayBeginStep(w, t).value;
    assert Next(w, ReplayBegin(t)) == Some(w1);
    HistoryLoop(w1, t, w.history);
    RunFirst(w, ReplayBegin(t), ReplaySteps(c.delivery.value, c.channel, w.history));
  }

  // ---- Broadcasting ---------------------------------------------------------------------------

  ghost predicate Enumerates(order: seq<Token>, tokens: set<Token>) {
    && (forall i, j | 0 <= i < j < |order| :: order[i] != order[j])
    && (forall t: Token :: t in order <==> t in tokens)
  }

  lemma EnumeratesRest(order: seq<Token>, tokens: set<Token>)
    requires Enumerates(order, tokens) && order != []
    ensures order[0] in tokens && Enumerates(order[1..], tokens - {order[0]})
  {
    forall t: Token ensures t in order[1..] <==> t in tokens - {order[0]} {
      if t in order[1..] { var i :| 0 <= i < |order| - 1 && order[1..][i] == t; }
    }
  }

  function OfferSteps(order: seq<Token>): seq<Step> {
    if order == [] then [] else [OfferTo(order[0])] + OfferSteps(order[1..])
  }

  /** A client after its turn in a broadcast loop. */
  function OfferClient(c: Client, message: Message): Client {
    if c.delivery.None? then c
    else
      var o := Offer(c.delivery.value, c.channel, message);
      c.(delivery := Some(o.delivery), channel := o.channel)
  }

  function OfferClients(clients: map<Token, Client>, message: Message, todo: set<Token>): map<Token, Client> {
    map t | t in clients :: if t in todo then OfferClient(clients[t], message) else clients[t]
  }

  function DoomedIn(clients: map<Token, Client>, message: Message, todo: set<Token>): set<Token> {
    set t | t in todo && t in clients && clients[t].delivery.Some?
            && Offer(clients[t].delivery.value, clients[t].channel, message).doomed
  }

  function AfterOffers(w: World, message: Message, todo: set<Token>, doomed: set<Token>): World {
    w.(clients := OfferClients(w.clients, message, todo),
       deliveriesLock := Delivering(message, {}, doomed + DoomedIn(w.clients, message, todo)))
  }

  lemma OfferedFirst(clients: map<Token, Client>, message: Message, todo: set<Token>, t: Token)
    requires t in todo && t in clients
    ensures var clients' := clients[t := OfferClient(clients[t], message)];
            && OfferClients(clients', message, todo - {t}) == OfferClients(clients, message, todo)
            && DoomedIn(clients, message, {t}) + DoomedIn(clients', message, todo - {t})
               == DoomedIn(clients, message, todo)
  {
  }

  lemma OfferOne(w: World, message: Message, todo: set<Token>, doomed: set<Token>, t: Token)
    requires w.deliveriesLock == Delivering(message, todo, doomed)
    requires t in todo && t in w.clients && w.clients[t].delivery.Some?
    ensures Next(w, OfferTo(t))
            == Some(w.(clients := w.clients[t := OfferClient(w.clients[t], message)],
                       deliveriesLock := Delivering(message, todo - {t}, doomed + DoomedIn(w.clients, message, {t}))))
  {
    var isDoomed := Offer(w.clients[t].delivery.value, w.clients[t].channel, message).doomed;
    assert DoomedIn(w.clients, message, {t}) == if isDoomed then {t} else {};
    assert doomed + DoomedIn(w.clients, message, {t}) == if isDoomed then doomed + {t} else doomed;
  }

  /** The loop offers the message to all its clients, in whatever order it comes to them. */
  lemma {:induction false} OfferLoop(w: World, order: seq<Token>, message: Message, todo: set<Token>,
                                     doomed: set<Token>)
    requires w.deliveriesLock == Delivering(message, todo, doomed) && Enumerates(order, todo)
    requires forall t | t in todo :: t in w.clients && w.clients[t].delivery.Some?
    ensures RunFrom(w, OfferSteps(order)) == Some(AfterOffers(w, message, todo, doomed))
    decreases |order|
  {
    if order == [] {
      assert todo == {};
      assert OfferClients(w.clients, message, todo) == w.clients;
      assert doomed + DoomedIn(w.clients, message, todo) == doomed;
    } else {
      var t := order[0];
      EnumeratesRest(order, todo);
      OfferOne(w, message, todo, doomed, t);
      var w1 := Next(w, OfferTo(t)).value;
      var doomed1 := doomed + DoomedIn(w.clients, message, {t});
      OfferLoop(w1, order[1..], message, todo - {t}, doomed1);
      RunFirst(w, OfferTo(t), OfferSteps(order[1..]));
      OfferedFirst(w.clients, message, todo, t);
      assert doomed1 + DoomedIn(w1.clients, message, todo - {t}) == doomed + DoomedIn(w.clients, message, todo);
    }
  }

  // ---- The removals after a broadcast ---------------------------------------------------------

  /** A whole removal by a broadcaster; one that holds the barrier then goes on to its next. */
  function RemovalOf(t: Token, chat: bool): seq<Step> {
    [RemoveBegin(t, ByOther), RemoveEnd] + if chat then [SkipGone(t)] else []
  }

  function RemovalSteps(gone: seq<Token>, chat: bool): seq<Step> {
    if gone == [] then [] else RemovalOf(gone[0], chat) + RemovalSteps(gone[1..], chat)
  }

  function GoneClient(c: Client): Client {
    c.(session := None, delivery := None, disconnect := true)
  }

  function RemoveClients(clients: map<Token, Client>, tokens: set<Token>): map<Token, Client> {
    map t | t in clients :: if t in tokens then GoneClient(clients[t]) else clients[t]
  }

  /** Whether the removals of these clients can begin. */
  ghost predicate MayRemoveAll(w: World, tokens: set<Token>, chat: bool) {
    && w.clientsLock == ClientsFree && w.deliveriesLock == DeliveriesFree
    && (chat ==> w.barrier.Broadcasting? && w.barrier.stage == Dooming(tokens))
    && forall t | t in tokens :: t in w.clients && w.clients[t].session.Some?
  }

  function AfterRemovals(w: World, tokens: set<Token>, left: set<Token>, chat: bool): World
    requires chat ==> w.barrier.Broadcasting?
  {
    w.(clients := RemoveClients(w.clients, tokens),
       barrier := if chat then w.barrier.(stage := Dooming(left)) else w.barrier)
  }

  lemma RemoveOne(w: World, tokens: set<Token>, t: Token, chat: bool)
    requires MayRemoveAll(w, tokens, chat) && t in tokens
    ensures RunFrom(w, RemovalOf(t, chat)) == Some(AfterRemovals(w, {t}, tokens - {t}, chat))
  {
    var w1 := RemoveBeginStep(w, t, ByOther).value;
    var w2 := RemoveEndStep(w1).value;
    assert w2.clients == RemoveClients(w.clients, {t});
    RunOne(w, RemoveBegin(t, ByOther));
    assert [RemoveBegin(t, ByOther), RemoveEnd][..1] == [RemoveBegin(t, ByOther)];
    assert RunFrom(w, [RemoveBegin(t, ByOther), RemoveEnd]) == Some(w2);
    if chat {
      RunOne(w2, SkipGone(t));
      RunFromConcat(w, [RemoveBegin(t, ByOther), RemoveEnd], [SkipGone(t)]);
    } else {
      assert RemovalOf(t, chat) == [RemoveBegin(t, ByOther), RemoveEnd];
    }
  }

  lemma RemovedFirst(clients: map<Token, Client>, tokens: set<Token>, t: Token)
    requires t in tokens
    ensures RemoveClients(RemoveClients(clients, {t}), tokens - {t}) == RemoveClients(clients, tokens)
  {
  }

  lemma {:induction false} RemovalLoop(w: World, gone: seq<Token>, tokens: set<Token>, chat: bool)
    requires MayRemoveAll(w, tokens, chat) && Enumerates(gone, tokens)
    ensures RunFrom(w, RemovalSteps(gone, chat)) == Some(AfterRemovals(w, tokens, {}, chat))
    decreases |gone|
  {
    if gone == [] {
      assert tokens == {};
      assert RemoveClients(w.clients, tokens) == w.clients;
    } else {
      var t := gone[0];
      EnumeratesRest(gone, tokens);
      RemoveOne(w, tokens, t, chat);
      var w1 := AfterRemovals(w, {t}, tokens - {t}, chat);
      RemovalLoop(w1, gone[1..], tokens - {t}, chat);
      RunFromConcat(w, RemovalOf(t, chat), RemovalSteps(gone[1..], chat));
      RemovedFirst(w.clients, tokens, t);
    }
  }

  // ---- A whole broadcast ----------------------------------------------------------------------

  /** All clients after a broadcast: offered the message, and the doomed removed. */
  function BroadcastClients(w: World, message: Message): map<Token, Client> {
    RemoveClients(OfferClients(w.clients, message, DeliveryTokens(w)), DoomedBy(DeliveriesOf(w), ChannelsOf(w), message))
  }

  /** They are what the broadcast is specified to leave, and the doomed lost their sessions too. */
  lemma BroadcastClientsAsSpecified(w: World, message: Message)
    ensures var w' := w.(clients := BroadcastClients(w, message));
            var dead := DoomedBy(DeliveriesOf(w), ChannelsOf(w), message);
            && DeliveriesOf(w') == Survivors(DeliveriesOf(w), ChannelsOf(w), message)
            && ChannelsOf(w') == Reached(DeliveriesOf(w), ChannelsOf(w), message)
            && forall t | t in w.clients ::
                 && w'.clients[t].session == (if t in dead then None else w.clients[t].session)
                 && w'.clients[t].disconnect == (t in dead || w.clients[t].disconnect)
  {
  }

  lemma DoomedInAll(w: World, message: Message)
    ensures DoomedIn(w.clients, message, DeliveryTokens(w)) == DoomedBy(DeliveriesOf(w), ChannelsOf(w), message)
  {
  }

  /** The loop of a broadcast and its end. */
  lemma OffersEnd(w: World, message: Message, order: seq<Token>)
    requires w.deliveriesLock == Delivering(message, DeliveryTokens(w), {})
    requires Enumerates(order, DeliveryTokens(w))
    requires message.Chat? ==> w.barrier.Broadcasting?
    ensures var dead := DoomedBy(DeliveriesOf(w), ChannelsOf(w), message);
            RunFrom(w, OfferSteps(order) + [OfferEnd])
            == Some(w.(clients := OfferClients(w.clients, message, DeliveryTokens(w)),
                       deliveriesLock := DeliveriesFree,
                       barrier := if message.Chat? then w.barrier.(stage := Dooming(dead)) else w.barrier))
  {
    OfferLoop(w, order, message, DeliveryTokens(w), {});
    DoomedInAll(w, message);
    var w1 := AfterOffers(w, message, DeliveryTokens(w), {});
    assert {} + DoomedIn(w.clients, message, DeliveryTokens(w)) == DoomedIn(w.clients, message, DeliveryTokens(w));
    RunOne(w1, OfferEnd);
    RunFromConcat(w, OfferSteps(order), [OfferEnd]);
  }

  lemma DoomedAreThere(w: World, message: Message)
    requires Coherence.RowsInv(w) && w.clientsLock == ClientsFree
    ensures forall t | t in DoomedBy(DeliveriesOf(w), ChannelsOf(w), message) ::
              && t in w.clients && w.clients[t].session.Some?
              && OfferClients(w.clients, message, DeliveryTokens(w))[t].session.Some?
  {
    forall t | t in w.clients ensures Coherence.RowsOk(w.clientsLock, t, w.clients[t]) {
    }
  }

  function BroadcastSteps(order: seq<Token>, gone: seq<Token>, chat: bool): seq<Step> {
    OfferSteps(order) + [OfferEnd] + RemovalSteps(gone, chat)
  }

  /** From the first offer to the last removal. */
  lemma OffersAndRemovals(w: World, message: Message, order: seq<Token>, gone: seq<Token>)
    requires Coherence.RowsInv(w) && w.clientsLock == ClientsFree
    requires w.deliveriesLock == Delivering(message, DeliveryTokens(w), {})
    requires message.Chat? ==> w.barrier.Broadcasting?
    requires Enumerates(order, DeliveryTokens(w))
    requires Enumerates(gone, DoomedBy(DeliveriesOf(w), ChannelsOf(w), message))
    ensures RunFrom(w, BroadcastSteps(order, gone, message.Chat?))
            == Some(w.(clients := BroadcastClients(w, message), deliveriesLock := DeliveriesFree,
                       barrier := if message.Chat? then w.barrier.(stage := Dooming({})) else w.barrier))
  {
    OffersEnd(w, message, order);
    DoomedAreThere(w, message);
    var dead := DoomedBy(DeliveriesOf(w), ChannelsOf(w), message);
    var w1 := RunFrom(w, OfferSteps(order) + [OfferEnd]).value;
    RemovalLoop(w1, gone, dead, message.Chat?);
    RunFromConcat(w, OfferSteps(order) + [OfferEnd], RemovalSteps(gone, message.Chat?));
  }

  /**
    The broadcast of a recorded line, uninterrupted, in any order of the clients and of the removals:
    it does to every client what `broadcast` is specified to do, and its barrier can then be released.
   */
  lemma ChatBroadcastAsSpecified(w: World, order: seq<Token>, gone: seq<Token>)
    requires Coherence.RowsInv(w) && w.clientsLock == ClientsFree && ChatOfferStep(w).Some?
    requires var message := Chat(w.log[|w.log| - 1]);
             && Enumerates(order, DeliveryTokens(w))
             && Enumerates(gone, DoomedBy(DeliveriesOf(w), ChannelsOf(w), message))
    ensures RunFrom(w, [ChatOffer] + BroadcastSteps(order, gone, true))
            == Some(w.(clients := BroadcastClients(w, Chat(w.log[|w.log| - 1])),
                       barrier := w.barrier.(stage := Dooming({}))))
  {
    var w1 := ChatOfferStep(w).value;
    assert Next(w, ChatOffer) == Some(w1);
    OffersAndRemovals(w1, Chat(w.log[|w.log| - 1]), order, gone);
    RunFirst(w, ChatOffer, BroadcastSteps(order, gone, true));
  }

  /** The same for a presence frame, which takes no barrier. */
  lemma PresenceBroadcastAsSpecified(w: World, users: seq<string>, order: seq<Token>, gone: seq<Token>)
    requires Coherence.RowsInv(w) && w.clientsLock == ClientsFree && PresenceBeginStep(w, users).Some?
    requires Enumerates(order, DeliveryTokens(w))
    requires Enumerates(gone, DoomedBy(DeliveriesOf(w), ChannelsOf(w), Presence(users)))
    ensures RunFrom(w, [PresenceBegin(users)] + BroadcastSteps(order, gone, false))
            == Some(w.(clients := BroadcastClients(w, Presence(users))))
  {
    var w1 := PresenceBeginStep(w, users).value;
    assert Next(w, PresenceBegin(users)) == Some(w1);
    OffersAndRemovals(w1, Presence(users), order, gone);
    RunFirst(w, PresenceBegin(users), BroadcastSteps(order, gone, false));
  }
}
