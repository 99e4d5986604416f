/** The shared server state: the operations that span both registries, each run to its end. */
module ServerStates {
  import opened Common
  import opened Registry
  import opened Delivery
  import opened DeliveryRegistries
  import opened ClientRegistries
  import Utf8
  import Text
  import Handshake
  import Presence
  import F = Frames

  type Clients = map<Token, ClientSession>

  /** The registries list the same clients at the same addresses, and each has a channel. */
  ghost predicate Coherent(clients: Clients, deliveries: Deliveries, channels: Channels) {
    && clients.Keys == deliveries.Keys && deliveries.Keys <= channels.Keys
    && (forall t: Token :: CoherentAt(clients, deliveries, t))
  }

  predicate CoherentAt(clients: Clients, deliveries: Deliveries, t: Token) {
    t in clients && t in deliveries ==> clients[t].addr == deliveries[t].addr && DeliveryOk(deliveries[t])
  }

  /**
    What a broadcast means for one client: one copy after everything it was given so far, or no
    copy and no place in the registry, and the latter exactly when it has no room.
   */
  lemma OneCopyOrOut(deliveries: Deliveries, channels: Channels, message: Bytes, t: Token)
    requires t in deliveries && t in channels && DeliveryOk(deliveries[t])
    ensures var d, ch := deliveries[t], channels[t];
            var survivors, reached := Survivors(deliveries, channels, message), Reached(deliveries, channels, message);
            && (t in survivors <==> t !in DoomedBy(deliveries, channels, message))
            && (t in survivors <==> if d.ready then !ch.closed && |ch.queue| < OUTBOUND_QUEUE_SIZE
                                    else |d.pending| < PENDING_MESSAGES_LIMIT)
            && (t in survivors ==>
                  && survivors[t].addr == d.addr && survivors[t].ready == d.ready
                  && Given(survivors[t], reached[t]) == Given(d, ch) + [message])
            && (t !in survivors ==> reached[t] == ch)
  {
    OfferGivesOneCopyOrDooms(deliveries[t], channels[t], message);
  }

  function TokensOf(doomed: seq<Doomed>, n: nat): set<Token>
    requires n <= |doomed|
  {
    set i | 0 <= i < n :: doomed[i].token
  }

  lemma TokensOfNext(doomed: seq<Doomed>, n: nat)
    requires n < |doomed|
    ensures TokensOf(doomed, n + 1) == TokensOf(doomed, n) + {doomed[n].token}
  {
  }

  /** When every client has been offered the message, the outcome is a matter of the message alone. */
  lemma OfferedToAll(deliveries: Deliveries, channels: Channels, deliveries': Deliveries, channels': Channels,
                     doomed: seq<Doomed>, message: Bytes)
    requires OfferedTo(deliveries, channels, deliveries', channels', doomed, message, deliveries.Keys)
    ensures TokensOf(doomed, |doomed|) == DoomedBy(deliveries, channels, message)
    ensures |doomed| > 0 <==> DoomedBy(deliveries, channels, message) != {}
    ensures deliveries' - TokensOf(doomed, |doomed|) == Survivors(deliveries, channels, message)
    ensures channels' == Reached(deliveries, channels, message)
  {
    var dead := TokensOf(doomed, |doomed|);
    assert |doomed| > 0 ==> doomed[0].token in dead;
    forall t | t in channels
      ensures t in deliveries ==> (t in dead <==> Offer(deliveries[t], channels[t], message).doomed)
      ensures t in deliveries ==> deliveries'[t] == Offer(deliveries[t], channels[t], message).delivery
      ensures channels'[t] == Reached(deliveries, channels, message)[t]
    {
      assert OfferedAt(deliveries, channels, deliveries', channels', doomed, message, deliveries.Keys, t);
      assert IsDoomed(doomed, t) <==> t in dead;
    }
  }

  lemma CoherentNamed(clients: Clients, deliveries: Deliveries, channels: Channels, t: Token, username: string)
    requires Coherent(clients, deliveries, channels) && t in clients
    ensures Coherent(clients[t := clients[t].(username := Some(username))], deliveries, channels)
  {
    var clients' := clients[t := clients[t].(username := Some(username))];
    forall t' ensures CoherentAt(clients', deliveries, t') {
      assert CoherentAt(clients, deliveries, t');
    }
  }

  lemma CoherentWithout(clients: Clients, deliveries: Deliveries, channels: Channels, tokens: set<Token>)
    requires Coherent(clients, deliveries, channels)
    ensures Coherent(clients - tokens, deliveries - tokens, channels)
  {
    forall t ensures CoherentAt(clients - tokens, deliveries - tokens, t) {
      assert CoherentAt(clients, deliveries, t);
    }
  }

  lemma CoherentWith(clients: Clients, deliveries: Deliveries, channels: Channels, t: Token, a: SocketAddr)
    requires Coherent(clients, deliveries, channels)
    ensures Coherent(clients[t := ClientSession(a, None)], deliveries[t := ClientDelivery(a, false, [])],
                     channels[t := Channel([], [], false)])
  {
    var clients', deliveries' := clients[t := ClientSession(a, None)], deliveries[t := ClientDelivery(a, false, [])];
    forall t' ensures CoherentAt(clients', deliveries', t') {
      assert CoherentAt(clients, deliveries, t');
    }
  }

  /** The registries and the flags after the clients in `dead` were removed. */
  ghost predicate Without(clients: Clients, deliveries: Deliveries, flagged: set<Token>,
                          clients': Clients, deliveries': Deliveries, flagged': set<Token>, dead: set<Token>) {
    && clients' == clients - dead && deliveries' == deliveries - dead
    && flagged' == flagged + dead * clients.Keys
  }

  lemma NothingRemoved(clients: Clients, deliveries: Deliveries, flagged: set<Token>)
    ensures Without(clients, deliveries, flagged, clients, deliveries, flagged, {})
  {
  }

  /** What a broadcast did, from what its two halves did. */
  lemma BroadcastDone(clients: Clients, deliveries: Deliveries, channels: Channels, flagged: set<Token>,
                      offered: Deliveries, clients': Clients, deliveries': Deliveries, flagged': set<Token>,
                      message: Bytes)
    requires clients.Keys == deliveries.Keys
    requires var dead := DoomedBy(deliveries, channels, message);
             && offered - dead == Survivors(deliveries, channels, message)
             && Without(clients, offered, flagged, clients', deliveries', flagged', dead)
    ensures var dead := DoomedBy(deliveries, channels, message);
            && clients' == clients - dead && flagged' == flagged + dead
            && deliveries' == Survivors(deliveries, channels, message)
  {
    var dead := DoomedBy(deliveries, channels, message);
    assert dead * clients.Keys == dead;
  }

  lemma WithoutOneMore(clients: Clients, deliveries: Deliveries, flagged: set<Token>,
                       clients': Clients, deliveries': Deliveries, flagged': set<Token>, dead: set<Token>, t: Token)
    requires Without(clients, deliveries, flagged, clients', deliveries', flagged', dead)
    requires clients.Keys == deliveries.Keys
    ensures if t in clients'
            then Without(clients, deliveries, flagged, clients' - {t}, deliveries' - {t}, flagged' + {t}, dead + {t})
            else Without(clients, deliveries, flagged, clients', deliveries', flagged', dead + {t})
  {
    assert clients - (dead + {t}) == clients - dead - {t};
    assert deliveries - (dead + {t}) == deliveries - dead - {t};
    if t !in clients' {
      assert clients - dead - {t} == clients - dead;
      assert deliveries - dead - {t} == deliveries - dead;
    }
  }

  /** Offering changes no address and keeps every record well formed. */
  lemma OffersKeepCoherent(clients: Clients, deliveries: Deliveries, channels: Channels, deliveries': Deliveries,
                           channels': Channels, doomed: seq<Doomed>, message: Bytes, done: set<Token>)
    requires Coherent(clients, deliveries, channels)
    requires OfferedTo(deliveries, channels, deliveries', channels', doomed, message, done)
    ensures Coherent(clients, deliveries', channels') && AddressesMatch(clients, doomed)
  {
    forall t ensures CoherentAt(clients, deliveries', t) {
      assert CoherentAt(clients, deliveries, t);
      assert OfferedAt(deliveries, channels, deliveries', channels', doomed, message, done, t);
    }
    forall i | 0 <= i < |doomed| ensures doomed[i].token in clients ==> clients[doomed[i].token].addr == doomed[i].addr {
      assert CoherentAt(clients, deliveries, doomed[i].token);
    }
  }

  predicate AddressesMatch(clients: Clients, doomed: seq<Doomed>) {
    forall i | 0 <= i < |doomed| && doomed[i].token in clients :: doomed[i].addr == clients[doomed[i].token].addr
  }

  /** The clients that `prune_overloaded_clients` drops. */
  function OverloadedTokens(deliveries: Deliveries, channels: Channels): set<Token> {
    set t | t in deliveries && t in channels && IsOverloaded(deliveries[t], channels[t])
  }

  /** A client is overloaded iff it has no room for any message and is not just a ready one that is slow. */
  lemma OverloadedIff(d: ClientDelivery<Bytes>, channel: Channel<Bytes>, message: Bytes)
    requires DeliveryOk(d)
    ensures IsOverloaded(d, channel) <==> Offer(d, channel, message).doomed && !(d.ready && !channel.closed)
    ensures Offer(d, channel, message).doomed && !IsOverloaded(d, channel) ==>
              d.ready && !channel.closed && |channel.queue| >= OUTBOUND_QUEUE_SIZE
  {
  }

  /**
    Pruning drops only clients that a broadcast of any message would doom; of those it keeps exactly
    the ready ones whose channel is open and full.
   */
  lemma PrunedHaveNoRoom(deliveries: Deliveries, channels: Channels, message: Bytes)
    requires deliveries.Keys <= channels.Keys && forall t | t in deliveries :: DeliveryOk(deliveries[t])
    ensures OverloadedTokens(deliveries, channels) <= DoomedBy(deliveries, channels, message)
    ensures DoomedBy(deliveries, channels, message) - OverloadedTokens(deliveries, channels)
            == set t | t in deliveries && deliveries[t].ready && !channels[t].closed && |channels[t].queue| >= 228
  {
    forall t | t in deliveries
      ensures t in OverloadedTokens(deliveries, channels)
              <==> t in DoomedBy(deliveries, channels, message) && !(deliveries[t].ready && !channels[t].closed)
    {
      OverloadedIff(deliveries[t], channels[t], message);
    }
  }

  lemma OverloadedListed(clients: Clients, deliveries: Deliveries, channels: Channels, doomed: seq<Doomed>)
    requires Coherent(clients, deliveries, channels) && ListsOverloaded(deliveries, channels, doomed)
    ensures TokensOf(doomed, |doomed|) == OverloadedTokens(deliveries, channels) && AddressesMatch(clients, doomed)
  {
    forall t | t in deliveries ensures IsDoomed(doomed, t) <==> t in TokensOf(doomed, |doomed|) {
    }
    forall i | 0 <= i < |doomed| && doomed[i].token in clients
      ensures doomed[i].addr == clients[doomed[i].token].addr
    {
      assert CoherentAt(clients, deliveries, doomed[i].token);
    }
  }

  lemma PruneDone(clients: Clients, deliveries: Deliveries, channels: Channels, flagged: set<Token>,
                  clients': Clients, deliveries': Deliveries, flagged': set<Token>)
    requires clients.Keys == deliveries.Keys
    requires Without(clients, deliveries, flagged, clients', deliveries', flagged',
                     OverloadedTokens(deliveries, channels))
    ensures flagged' == flagged + OverloadedTokens(deliveries, channels)
  {
    assert OverloadedTokens(deliveries, channels) * clients.Keys == OverloadedTokens(deliveries, channels);
  }

  predicate NamesFit(users: seq<string>) {
    Presence.AreListable(users) && |Presence.Payload(users)| <= F.MAX_FRAME_PAYLOAD_BYTES
  }

  function PresenceFrame(users: seq<string>): Bytes {
    F.Wire(F.Presence, Presence.Payload(users))
  }

  /** A list of names was broadcast, or was left unsent because it does not fit into a frame. */
  ghost predicate PresenceGoesOut(users: seq<string>, clients: Clients, deliveries: Deliveries, channels: Channels,
                                  flagged: set<Token>, clients': Clients, deliveries': Deliveries,
                                  channels': Channels, flagged': set<Token>) {
    if NamesFit(users) then
      var frame := PresenceFrame(users);
      && clients' == clients - DoomedBy(deliveries, channels, frame)
      && flagged' == flagged + DoomedBy(deliveries, channels, frame)
      && deliveries' == Survivors(deliveries, channels, frame)
      && channels' == Reached(deliveries, channels, frame)
    else
      clients' == clients && deliveries' == deliveries && channels' == channels && flagged' == flagged
  }

  // ---- Replaying the history ------------------------------------------------------------------

  /** The frames of the lines before the first one that does not fit into a frame. */
  function HistoryFrames(lines: seq<string>): (frames: seq<Bytes>)
    ensures |frames| <= |lines|
    ensures |frames| == |lines| <==> forall i | 0 <= i < |lines| :: Handshake.Fits(lines[i])
  {
    if lines == [] || !Handshake.Fits(lines[0]) then []
    else [F.Wire(F.Chat, Utf8.Encode(lines[0]))] + HistoryFrames(lines[1..])
  }

  /** The frame decodes to a chat frame with that text, and nothing is left of it. */
  predicate CarriesLine(frame: Bytes, line: string) {
    var (d, rest) := F.SyncDecode(frame);
    rest == [] && d.Got? && d.frame.kind == F.Chat && Utf8.Decode(d.frame.payload) == Some(line)
  }

  lemma WireCarriesLine(line: string)
    requires |Utf8.Encode(line)| <= 16 * 1024
    ensures CarriesLine(F.Wire(F.Chat, Utf8.Encode(line)), line)
  {
    hide Utf8.Encode, Utf8.Decode, F.SyncDecode, F.Wire;
    var payload := Utf8.Encode(line);
    F.WireDecodes(F.Frame(F.CURRENT_PROTOCOL_VERSION, F.Chat, payload), []);
    assert F.Wire(F.Chat, payload) + [] == F.Wire(F.Chat, payload);
    Utf8.EncodedDecodes(line);
  }

  /** The frames of a replay carry its lines, in order. */
  lemma {:induction false} HistoryFramesCarryLines(lines: seq<string>)
    requires forall i | 0 <= i < |lines| :: |Utf8.Encode(lines[i])| <= 16 * 1024
    ensures |HistoryFrames(lines)| == |lines|
    ensures forall i | 0 <= i < |lines| :: CarriesLine(HistoryFrames(lines)[i], lines[i])
  {
    hide Utf8.Encode, F.Wire, CarriesLine;
    if lines != [] {
      WireCarriesLine(lines[0]);
      HistoryFramesCarryLines(lines[1..]);
    }
  }

  /** The frame of a list of names decodes to those names. */
  lemma PresenceFrameCarriesNames(users: seq<string>)
    requires NamesFit(users)
    ensures var (d, rest) := F.SyncDecode(PresenceFrame(users));
            rest == [] && d.Got? && d.frame.kind == F.Presence && Presence.Parse(d.frame.payload) == Some(users)
  {
    hide F.SyncDecode, F.Wire, Presence.Payload, Presence.Parse, Presence.AreListable;
    Presence.PresenceRoundTrip(users, []);
    assert PresenceFrame(users) + [] == PresenceFrame(users);
  }

  function EnqueueOne(line: string, channel: Channel<Bytes>): (Outcome, Channel<Bytes>) {
    if !Handshake.Fits(line) then (LineTooLong, channel)
    else
      var (result, channel') := TrySend(channel, F.Wire(F.Chat, Utf8.Encode(line)));
      (OutcomeOf(result), channel')
  }

  /** How far the lines get into a channel, and how it ends. */
  function Enqueue(lines: seq<string>, channel: Channel<Bytes>): (Outcome, Channel<Bytes>) {
    if lines == [] then (Ready, channel)
    else
      var (outcome, channel') := EnqueueOne(lines[0], channel);
      if outcome == Ready then Enqueue(lines[1..], channel') else (outcome, channel')
  }

  /** It is a flush of the frames of the lines that fit. */
  lemma {:induction false} EnqueueIsFlush(lines: seq<string>, channel: Channel<Bytes>)
    ensures var f := Flush(HistoryFrames(lines), channel);
            Enqueue(lines, channel)
            == (if f.result == Sent && |HistoryFrames(lines)| < |lines| then LineTooLong else OutcomeOf(f.result),
                f.channel)
  {
    if lines != [] && Handshake.Fits(lines[0]) {
      var (outcome, channel') := EnqueueOne(lines[0], channel);
      assert HistoryFrames(lines)[0] == F.Wire(F.Chat, Utf8.Encode(lines[0]));
      assert HistoryFrames(lines)[1..] == HistoryFrames(lines[1..]);
      if outcome == Ready {
        EnqueueIsFlush(lines[1..], channel');
      }
    }
  }

  /** One line of the history. */
  method EnqueueLine(token: Token, line: string, transport: Transport) returns (r: Outcome)
    requires token in transport.channels
    modifies transport`channels
    ensures var (outcome, channel) := EnqueueOne(line, old(transport.channels)[token]);
            r == outcome && transport.channels == old(transport.channels)[token := channel]
  {
    var encoded := F.EncodeFrame(F.Chat, Utf8.Encode(line));
    if encoded.Err? {
      assert transport.channels == transport.channels[token := transport.channels[token]];
      return LineTooLong;
    }
    var result := transport.Send(token, encoded.value);
    return OutcomeOf(result);
  }

  /** Enqueueing the history one line at a time, until one is refused. */
  method EnqueueHistory(token: Token, lines: seq<string>, transport: Transport) returns (r: Outcome)
    requires token in transport.channels
    modifies transport`channels
    ensures var (outcome, channel) := Enqueue(lines, old(transport.channels)[token]);
            r == outcome && transport.channels == old(transport.channels)[token := channel]
  {
    ghost var before := transport.channels;
    assert before == before[token := before[token]];
    var i := 0;
    while i < |lines|
      invariant i <= |lines| && token in transport.channels
      invariant transport.channels == before[token := transport.channels[token]]
      invariant Enqueue(lines[i..], transport.channels[token]) == Enqueue(lines, before[token])
    {
      assert lines[i..][1..] == lines[i + 1..];
      r := EnqueueLine(token, lines[i], transport);
      if r != Ready {
        return;
      }
      i := i + 1;
    }
    r := Ready;
  }

  /** What a replay does to one client: the history, and then what was held back, as far as there is room. */
  function Replay(d: ClientDelivery<Bytes>, channel: Channel<Bytes>, lines: seq<string>): Served<Bytes> {
    var (outcome, channel') := Enqueue(lines, channel);
    if outcome != Ready then Served(outcome, d, channel') else Marked(d, channel')
  }

  method ReplayTo(address: SocketAddr, token: Token, lines: seq<string>, deliveries: DeliveryRegistry,
                  transport: Transport) returns (r: Outcome)
    requires deliveries.Valid() && deliveries.clients.Keys <= transport.channels.Keys
    requires token in deliveries.clients && deliveries.clients[token].addr == address
    modifies deliveries, transport`channels
    ensures deliveries.Valid()
    ensures var p := Replay(old(deliveries.clients)[token], old(transport.channels)[token], lines);
            && r == p.outcome
            && deliveries.clients == old(deliveries.clients)[token := p.delivery]
            && transport.channels == old(transport.channels)[token := p.channel]
  {
    ghost var records := deliveries.clients;
    r := EnqueueHistory(token, lines, transport);
    if r == Ready {
      r := deliveries.MarkReady(address, token, transport);
    } else {
      assert records == records[token := records[token]];
    }
  }

  /** When every line fits, a replay is one of the frames of the lines. */
  lemma ReplayIsServeReplay(d: ClientDelivery<Bytes>, channel: Channel<Bytes>, lines: seq<string>)
    requires forall i | 0 <= i < |lines| :: Handshake.Fits(lines[i])
    ensures Replay(d, channel, lines) == ServeReplay(d, channel, HistoryFrames(lines))
  {
    EnqueueIsFlush(lines, channel);
  }

  lemma ReplayKeepsDeliveryOk(d: ClientDelivery<Bytes>, channel: Channel<Bytes>, lines: seq<string>)
    requires DeliveryOk(d)
    ensures var r := Replay(d, channel, lines).delivery; DeliveryOk(r) && r.addr == d.addr
  {
    var f := Flush(d.pending, Enqueue(lines, channel).1);
    assert |f.sent| + |f.rest| == |d.pending|;
  }

  lemma CoherentServed(clients: Clients, deliveries: Deliveries, channels: Channels, t: Token,
                       d: ClientDelivery<Bytes>, channel: Channel<Bytes>)
    requires Coherent(clients, deliveries, channels) && t in deliveries
    requires DeliveryOk(d) && d.addr == deliveries[t].addr
    ensures Coherent(clients, deliveries[t := d], channels[t := channel])
  {
    var deliveries' := deliveries[t := d];
    forall t' ensures CoherentAt(clients, deliveries', t') {
      assert CoherentAt(clients, deliveries, t');
    }
  }

  lemma CoherentReplayed(clients: Clients, deliveries: Deliveries, channels: Channels, t: Token, lines: seq<string>)
    requires Coherent(clients, deliveries, channels) && t in deliveries
    ensures var r := Replay(deliveries[t], channels[t], lines);
            Coherent(clients, deliveries[t := r.delivery], channels[t := r.channel])
  {
    assert CoherentAt(clients, deliveries, t);
    ReplayKeepsDeliveryOk(deliveries[t], channels[t], lines);
    var r := Replay(deliveries[t], channels[t], lines);
    CoherentServed(clients, deliveries, channels, t, r.delivery, r.channel);
  }

  /**
    Replaying to a client whose channel is still empty is never refused for want of room. With an
    open channel, and lines that fit, the client becomes ready and owns the history followed by
    everything that was held back for it.
   */
  lemma ReplayOfANewClient(d: ClientDelivery<Bytes>, channel: Channel<Bytes>, log: seq<string>)
    requires DeliveryOk(d) && channel.queue == []
    ensures var lines := Recent(log);
            var r := Replay(d, channel, lines);
            && r.outcome != QueueFull
            && (!channel.closed && (forall i | 0 <= i < |lines| :: Handshake.Fits(lines[i])) ==>
                  && r.outcome == Ready && r.delivery == d.(pending := [], ready := true)
                  && r.channel.Sent() == channel.Sent() + HistoryFrames(lines) + d.pending)
  {
    var frames := HistoryFrames(Recent(log));
    EnqueueIsFlush(Recent(log), channel);
    FlushWithRoomNeverOverflows(frames, channel);
    var h := Flush(frames, channel);
    if h.result == Sent {
      FlushExtendsQueue(frames, channel);
      FlushWithRoomNeverOverflows(d.pending, h.channel);
    }
  }

  class ServerState {
    const clients: ClientRegistry
    const deliveries: DeliveryRegistry
    const transport: Transport
    const history: MessageHistory
    var nextToken: Token

    ghost predicate Valid()
      reads this, clients, deliveries, transport, history
    {
      && clients.Valid() && deliveries.Valid() && history.Valid()
      && history.limit == MESSAGE_HISTORY_LIMIT
      && Coherent(clients.clients, deliveries.clients, transport.channels)
      && (forall t | t in transport.channels :: t < nextToken)
    }

    constructor ()
      ensures Valid() && fresh(clients) && fresh(deliveries) && fresh(transport) && fresh(history)
      ensures clients.View() == NO_SESSIONS && history.recorded == []
    {
      clients := new ClientRegistry();
      deliveries := new DeliveryRegistry();
      transport := new Transport();
      history := new MessageHistory(MESSAGE_HISTORY_LIMIT);
      nextToken := 0;
    }

    /** A new client gets an empty open channel and rows in both registries, if there is room. */
    method RegisterPendingClient(address: SocketAddr) returns (token: Option<Token>)
      requires Valid()
      modifies this, clients, deliveries, transport`channels
      ensures Valid()
      ensures token.None? <==> !HasRoom(old(clients.View()), address)
      ensures token.None? ==> clients.View() == old(clients.View()) && deliveries.clients == old(deliveries.clients)
                              && transport.channels == old(transport.channels)
      ensures token.Some? ==>
                && token.value !in old(transport.channels)
                && clients.View() == AddSession(old(clients.View()), token.value, address)
                && deliveries.clients
                   == old(deliveries.clients)[token.value := ClientDelivery(address, false, [])]
                && transport.channels == old(transport.channels)[token.value := Channel([], [], false)]
    {
      assert nextToken !in clients.clients;
      var registered := clients.Register(address, nextToken);
      if !registered {
        return None;
      }
      CoherentWith(old(clients.clients), deliveries.clients, transport.channels, nextToken, address);
      deliveries.Add(address, nextToken);
      transport.channels := transport.channels[nextToken := Channel([], [], false)];
      token := Some(nextToken);
      nextToken := nextToken + 1;
    }

    /** Both rows go and the disconnect flag is raised, or nothing happens at all. */
    method RemoveClientIfCurrent(address: SocketAddr, token: Token) returns (removed: bool)
      requires Valid()
      modifies clients, deliveries, transport`disconnected
      ensures Valid()
      ensures removed <==> token in old(clients.clients) && old(clients.clients)[token].addr == address
      ensures !removed ==>
                && clients.clients == old(clients.clients) && deliveries.clients == old(deliveries.clients)
                && transport.disconnected == old(transport.disconnected)
      ensures removed ==>
                && clients.clients == old(clients.clients) - {token}
                && deliveries.clients == old(deliveries.clients) - {token}
                && transport.disconnected == old(transport.disconnected) + {token}
    {
      assert CoherentAt(clients.clients, deliveries.clients, token);
      CoherentWithout(clients.clients, deliveries.clients, transport.channels, {token});
      removed := clients.Remove(address, token);
      if removed {
        deliveries.Remove(address, token, transport);
      }
    }

    /** One turn of the loop below. */
    method RemoveNext(doomed: seq<Doomed>, i: nat, ghost before: Clients, ghost records: Deliveries,
                      ghost flagged: set<Token>)
      requires Valid() && before.Keys == records.Keys
      requires i < |doomed| && AddressesMatch(before, doomed)
      requires Without(before, records, flagged, clients.clients, deliveries.clients, transport.disconnected,
                       TokensOf(doomed, i))
      modifies clients, deliveries, transport`disconnected
      ensures Valid() && Without(before, records, flagged, clients.clients, deliveries.clients, transport.disconnected,
                      TokensOf(doomed, i + 1))
    {
      TokensOfNext(doomed, i);
      WithoutOneMore(before, records, flagged, clients.clients, deliveries.clients, transport.disconnected,
                     TokensOf(doomed, i), doomed[i].token);
      var removed := RemoveClientIfCurrent(doomed[i].addr, doomed[i].token);
    }

    /** The removals after a broadcast or a scan. */
    method RemoveAll(doomed: seq<Doomed>)
      requires Valid()
      requires AddressesMatch(clients.clients, doomed)
      modifies clients, deliveries, transport`disconnected
      ensures Valid()
      ensures Without(old(clients.clients), old(deliveries.clients), old(transport.disconnected),
                      clients.clients, deliveries.clients, transport.disconnected, TokensOf(doomed, |doomed|))
    {
      ghost var before, records, flagged := clients.clients, deliveries.clients, transport.disconnected;
      NothingRemoved(before, records, flagged);
      var i := 0;
      assert TokensOf(doomed, i) == {};
      while i < |doomed|
        invariant i <= |doomed| && Valid()
        invariant Without(before, records, flagged, clients.clients, deliveries.clients, transport.disconnected,
                          TokensOf(doomed, i))
      {
        RemoveNext(doomed, i, before, records, flagged);
        i := i + 1;
      }
    }

    /** The first half of a broadcast: everyone is offered the message, and the doomed are listed. */
    method OfferEveryone(message: Bytes) returns (doomed: seq<Doomed>)
      requires Valid()
      modifies deliveries, transport`channels
      ensures Valid() && AddressesMatch(clients.clients, doomed)
      ensures TokensOf(doomed, |doomed|) == DoomedBy(old(deliveries.clients), old(transport.channels), message)
      ensures |doomed| > 0 <==> DoomedBy(old(deliveries.clients), old(transport.channels), message) != {}
      ensures deliveries.clients - TokensOf(doomed, |doomed|)
              == Survivors(old(deliveries.clients), old(transport.channels), message)
      ensures transport.channels == Reached(old(deliveries.clients), old(transport.channels), message)
    {
      ghost var records, channels := deliveries.clients, transport.channels;
      doomed := deliveries.Deliver(message, transport);
      OfferedToAll(records, channels, deliveries.clients, transport.channels, doomed, message);
      OffersKeepCoherent(clients.clients, records, channels, deliveries.clients, transport.channels, doomed, message,
                         records.Keys);
    }

    /**
      Every client with room is given the message once, every client without room is taken out of
      both registries and told to disconnect, and nothing else changes.
     */
    method Broadcast(message: Bytes) returns (removedAny: bool)
      requires Valid()
      modifies clients, deliveries, transport
      ensures Valid()
      ensures var dead := DoomedBy(old(deliveries.clients), old(transport.channels), message);
              && (removedAny <==> dead != {})
              && clients.clients == old(clients.clients) - dead
              && transport.disconnected == old(transport.disconnected) + dead
      ensures deliveries.clients == Survivors(old(deliveries.clients), old(transport.channels), message)
      ensures transport.channels == Reached(old(deliveries.clients), old(transport.channels), message)
    {
      ghost var sessions, records, channels := clients.clients, deliveries.clients, transport.channels;
      ghost var flagged := transport.disconnected;
      var doomed := OfferEveryone(message);
      ghost var offered := deliveries.clients;
      RemoveAll(doomed);
      BroadcastDone(sessions, records, channels, flagged, offered, clients.clients, deliveries.clients,
                    transport.disconnected, message);
      removedAny := |doomed| > 0;
    }

    /** Recording a message and broadcasting it, as one step under the barrier. */
    method RecordAndBroadcast(line: string, frame: Bytes) returns (removedAny: bool)
      requires Valid()
      modifies history, clients, deliveries, transport
      ensures Valid() && history.recorded == old(history.recorded) + [Text.TrimNewlines(line)]
      ensures var dead := DoomedBy(old(deliveries.clients), old(transport.channels), frame);
              && (removedAny <==> dead != {})
              && clients.clients == old(clients.clients) - dead
              && transport.disconnected == old(transport.disconnected) + dead
      ensures deliveries.clients == Survivors(old(deliveries.clients), old(transport.channels), frame)
      ensures transport.channels == Reached(old(deliveries.clients), old(transport.channels), frame)
    {
      history.Record(line);
      removedAny := Broadcast(frame);
    }

    method SetClientUsername(address: SocketAddr, token: Token, username: string) returns (found: bool)
      requires Valid()
      modifies clients
      ensures Valid()
      ensures found <==> IsRegistered(old(clients.View()), token, address)
      ensures clients.View()
              == if found then NameSession(old(clients.View()), token, username) else old(clients.View())
      ensures found ==> NamedAs(token, username, clients.clients)
                        && clients.clients - {token} == old(clients.clients) - {token}
    {
      ghost var sessions := clients.clients;
      found := clients.SetUsername(address, token, username);
      if found {
        CoherentNamed(sessions, deliveries.clients, transport.channels, token, username);
      }
    }

    /**
      The replay of one client: its recent history, then what was held back, and nothing else
      changes. A client that is not there any more is reported and left alone.
     */
    method SendMessageHistory(address: SocketAddr, token: Token) returns (r: Outcome)
      requires Valid()
      modifies deliveries, transport`channels
      ensures Valid()
      ensures var found := token in old(deliveries.clients) && old(deliveries.clients)[token].addr == address;
              if found then
                var p := Replay(old(deliveries.clients)[token], old(transport.channels)[token], Recent(history.recorded));
                && r == p.outcome
                && deliveries.clients == old(deliveries.clients)[token := p.delivery]
                && transport.channels == old(transport.channels)[token := p.channel]
              else
                && r == UnknownClient
                && deliveries.clients == old(deliveries.clients) && transport.channels == old(transport.channels)
    {
      var found := deliveries.Contains(address, token);
      if !found {
        return UnknownClient;
      }
      var lines := history.Snapshot();
      CoherentReplayed(clients.clients, deliveries.clients, transport.channels, token, lines);
      r := ReplayTo(address, token, lines, deliveries, transport);
    }

    /** Exactly the overloaded clients are removed. */
    method PruneOverloadedClients()
      requires Valid()
      modifies clients, deliveries, transport`disconnected
      ensures Valid()
      ensures var dead := OverloadedTokens(old(deliveries.clients), old(transport.channels));
              && clients.clients == old(clients.clients) - dead
              && deliveries.clients == old(deliveries.clients) - dead
              && transport.disconnected == old(transport.disconnected) + dead
    {
      ghost var sessions, records, flagged := clients.clients, deliveries.clients, transport.disconnected;
      var doomed := deliveries.Overloaded(transport);
      OverloadedListed(sessions, records, transport.channels, doomed);
      RemoveAll(doomed);
      PruneDone(sessions, records, transport.channels, flagged, clients.clients, deliveries.clients,
                transport.disconnected);
    }

    /** A presence frame goes to everyone, unless the names do not fit into one. */
    method BroadcastNames(users: seq<string>) returns (sent: bool)
      requires Valid()
      modifies clients, deliveries, transport
      ensures Valid()
      ensures sent <==> NamesFit(users)
      ensures PresenceGoesOut(users, old(clients.clients), old(deliveries.clients), old(transport.channels),
                              old(transport.disconnected), clients.clients, deliveries.clients, transport.channels,
                              transport.disconnected)
    {
      var encoded := Presence.EncodePresence(users);
      if encoded.Err? {
        return false;
      }
      var removedAny := Broadcast(encoded.value);
      return true;
    }

    /**
      The overloaded clients are dropped, and the names of everyone still registered then go to
      everyone still registered, unless they do not fit into a frame.
     */
    method BroadcastPresence() returns (sent: bool, ghost users: seq<string>)
      requires Valid()
      modifies clients, deliveries, transport
      ensures Valid()
      ensures var pruned := OverloadedTokens(old(deliveries.clients), old(transport.channels));
              && ListsUsernames(users, old(clients.clients) - pruned)
              && (sent <==> NamesFit(users))
              && PresenceGoesOut(users, old(clients.clients) - pruned, old(deliveries.clients) - pruned,
                                 old(transport.channels), old(transport.disconnected) + pruned, clients.clients,
                                 deliveries.clients, transport.channels, transport.disconnected)
    {
      PruneOverloadedClients();
      var names := clients.Usernames();
      users := names;
      sent := BroadcastNames(names);
    }
  }
}
