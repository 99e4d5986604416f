/** The delivery registry as the server updates it in place: broadcasting, flushing and removing. */
module DeliveryRegistries {
  import opened Common
  import opened Buckets
  import opened Delivery
  import Utf8

  type Bytes = seq<Utf8.byte>
  type Deliveries = ClientDeliveries<Bytes>
  type Channels = ClientChannels<Bytes>
  type DeliveryBuckets = Buckets<ClientDelivery<Bytes>>

  function AddrsOf(clients: Deliveries): map<Token, SocketAddr> {
    map t | t in clients :: clients[t].addr
  }

  ghost predicate Holds(byAddr: DeliveryBuckets, clients: Deliveries) {
    Represents(byAddr, AddrsOf(clients), clients)
  }

  lemma AddrsOfAdded(clients: Deliveries, token: Token, d: ClientDelivery<Bytes>)
    ensures AddrsOf(clients[token := d]) == AddrsOf(clients)[token := d.addr]
  {
  }

  lemma AddrsOfDropped(clients: Deliveries, token: Token)
    ensures AddrsOf(clients - {token}) == AddrsOf(clients) - {token}
  {
  }

  lemma HoldsAdded(byAddr: DeliveryBuckets, clients: Deliveries, token: Token, d: ClientDelivery<Bytes>)
    requires Holds(byAddr, clients) && token !in clients
    ensures Holds(Insert(byAddr, d.addr, Row(token, d)), clients[token := d])
  {
    AddrsOfAdded(clients, token, d);
    InsertRepresents(byAddr, AddrsOf(clients), clients, d.addr, Row(token, d));
  }

  lemma HoldsDropped(byAddr: DeliveryBuckets, clients: Deliveries, token: Token)
    requires Holds(byAddr, clients) && token in clients
    ensures var a := clients[token].addr;
            a in byAddr && Holds(WithRows(byAddr, a, Retain(byAddr[a], token)), clients - {token})
  {
    assert AddrsOf(clients)[token] == clients[token].addr;
    AddrsOfDropped(clients, token);
    RemoveRepresents(byAddr, AddrsOf(clients), clients, token);
  }

  /** The row at a place of a bucket, and what replacing it does. */
  lemma HoldsReplaced(byAddr: DeliveryBuckets, clients: Deliveries, a: SocketAddr, i: nat, token: Token,
                      d: ClientDelivery<Bytes>)
    requires Holds(byAddr, clients) && a in byAddr && i < |byAddr[a]| && byAddr[a][i].token == token
    requires d.addr == a
    ensures token in clients && clients[token] == byAddr[a][i].value && clients[token].addr == a
    ensures Holds(byAddr[a := byAddr[a][i := Row(token, d)]], clients[token := d])
  {
    RowIsInView(byAddr, AddrsOf(clients), clients, a, i);
    AddrsOfAdded(clients, token, d);
    assert AddrsOf(clients)[token := d.addr] == AddrsOf(clients);
    UpdateRepresents(byAddr, AddrsOf(clients), clients, a, i, d);
  }

  lemma RowIsClient(byAddr: DeliveryBuckets, clients: Deliveries, a: SocketAddr, i: nat)
    requires Holds(byAddr, clients) && a in byAddr && i < |byAddr[a]|
    ensures var row := byAddr[a][i];
            && row.token in clients && clients[row.token] == row.value && row.value.addr == a
            && Distinct(byAddr[a])
  {
    RowIsInView(byAddr, AddrsOf(clients), clients, a, i);
  }

  lemma FoundIffDelivered(byAddr: DeliveryBuckets, clients: Deliveries, a: SocketAddr, token: Token)
    requires Holds(byAddr, clients)
    ensures (a in byAddr && HasRow(byAddr[a], token)) <==> (token in clients && clients[token].addr == a)
  {
    RowIffAddress(byAddr, AddrsOf(clients), clients, a, token);
  }

  // ---- What a broadcast loop has done so far --------------------------------------------------

  datatype Doomed = Doomed(addr: SocketAddr, token: Token)

  predicate IsDoomed(doomed: seq<Doomed>, t: Token) {
    exists i | 0 <= i < |doomed| :: doomed[i].token == t
  }

  /** One client after the loop: offered the message if its turn was, untouched otherwise. */
  predicate OfferedOne(d: ClientDelivery<Bytes>, ch: Channel<Bytes>, d': ClientDelivery<Bytes>, ch': Channel<Bytes>,
                       doomed: bool, message: Bytes, done: bool) {
    if done then Offered(d', ch', doomed) == Offer(d, ch, message)
    else d' == d && ch' == ch && !doomed
  }

  ghost predicate OfferedAt(clients: Deliveries, channels: Channels, clients': Deliveries, channels': Channels,
                            doomed: seq<Doomed>, message: Bytes, done: set<Token>, t: Token) {
    t in channels && t in channels' ==>
      if t in clients then
        t in clients' &&
        OfferedOne(clients[t], channels[t], clients'[t], channels'[t], IsDoomed(doomed, t), message, t in done)
      else channels'[t] == channels[t]
  }

  /** Who is doomed was served, and is listed under its own address. */
  predicate DoomedOk(clients: Deliveries, doomed: seq<Doomed>, done: set<Token>) {
    forall i | 0 <= i < |doomed| ::
      doomed[i].token in done && doomed[i].token in clients && doomed[i].addr == clients[doomed[i].token].addr
  }

  /** The clients in `done` were offered the message, in whatever order; nothing else changed. */
  ghost predicate OfferedTo(clients: Deliveries, channels: Channels, clients': Deliveries, channels': Channels,
                            doomed: seq<Doomed>, message: Bytes, done: set<Token>) {
    && clients.Keys <= channels.Keys && done <= clients.Keys
    && clients'.Keys == clients.Keys && channels'.Keys == channels.Keys
    && (forall t: Token :: OfferedAt(clients, channels, clients', channels', doomed, message, done, t))
    && DoomedOk(clients, doomed, done)
  }

  lemma OfferedToOneMore(clients: Deliveries, channels: Channels, clients': Deliveries, channels': Channels,
                         doomed: seq<Doomed>, message: Bytes, done: set<Token>, t: Token)
    requires OfferedTo(clients, channels, clients', channels', doomed, message, done)
    requires t in clients && t !in done
    ensures t in clients' && t in channels' && clients'[t] == clients[t]
    ensures var o := Offer(clients'[t], channels'[t], message);
            OfferedTo(clients, channels, clients'[t := o.delivery], channels'[t := o.channel],
                      if o.doomed then doomed + [Doomed(clients[t].addr, t)] else doomed, message, done + {t})
  {
    assert OfferedAt(clients, channels, clients', channels', doomed, message, done, t);
    var o := Offer(clients'[t], channels'[t], message);
    var doomed' := if o.doomed then doomed + [Doomed(clients[t].addr, t)] else doomed;
    var after, channelsAfter := clients'[t := o.delivery], channels'[t := o.channel];
    assert o.doomed ==> doomed'[|doomed|].token == t;
    forall t' ensures OfferedAt(clients, channels, after, channelsAfter, doomed', message, done + {t}, t') {
      assert OfferedAt(clients, channels, clients', channels', doomed, message, done, t');
      if t' != t && IsDoomed(doomed, t') {
        var i :| 0 <= i < |doomed| && doomed[i].token == t';
        assert doomed'[i].token == t';
      }
    }
  }

  // ---- The classes ----------------------------------------------------------------------------

  /** The same flush but for what it has sent before. */
  predicate SameEnd(f: Flushed<Bytes>, g: Flushed<Bytes>) {
    f.rest == g.rest && f.channel == g.channel && f.result == g.result
  }

  /** The channels to the outbound writers and the disconnect flags, by token. */
  class Transport {
    var channels: Channels
    var disconnected: set<Token>

    constructor ()
      ensures channels == map[] && disconnected == {}
    {
      channels, disconnected := map[], {};
    }

    method Send(t: Token, message: Bytes) returns (result: SendResult)
      requires t in channels
      modifies this`channels
      ensures result == TrySend(old(channels)[t], message).0
      ensures channels == old(channels)[t := TrySend(old(channels)[t], message).1]
    {
      var channel := channels[t];
      if channel.closed {
        result := Closed;
      } else if |channel.queue| >= OUTBOUND_QUEUE_SIZE {
        result := Full;
      } else {
        channel := channel.(queue := channel.queue + [message]);
        result := Sent;
      }
      channels := channels[t := channel];
    }

    /** Messages one after the other, until one is refused; it and those after it remain. */
    method SendAll(t: Token, messages: seq<Bytes>) returns (result: SendResult, remaining: seq<Bytes>)
      requires t in channels
      modifies this`channels
      ensures var f := Flush(messages, old(channels)[t]);
              && result == f.result && remaining == f.rest
              && channels == old(channels)[t := f.channel]
    {
      ghost var whole := Flush(messages, channels[t]);
      assert channels == channels[t := channels[t]];
      remaining := messages;
      result := Sent;
      while remaining != [] && result == Sent
        invariant t in channels && channels == old(channels)[t := channels[t]]
        invariant result == Sent ==> SameEnd(whole, Flush(remaining, channels[t]))
        invariant result != Sent ==> whole.rest == remaining && remaining != []
                                     && whole.channel == channels[t] && whole.result == result
        decreases |remaining|, if result == Sent then 1 else 0
      {
        result := Send(t, remaining[0]);
        if result == Sent {
          remaining := remaining[1..];
        }
      }
    }
  }

  /** The same rows in the same places, with possibly other contents. */
  predicate SameTokens(b: DeliveryBuckets, b': DeliveryBuckets) {
    && b.Keys == b'.Keys
    && forall a | a in b :: SameRowTokens(b[a], b'[a])
  }

  predicate SameRowTokens(rows: seq<Row<ClientDelivery<Bytes>>>, rows': seq<Row<ClientDelivery<Bytes>>>) {
    |rows| == |rows'| && forall i | 0 <= i < |rows| :: rows'[i].token == rows[i].token
  }

  lemma SameTokensChain(a: DeliveryBuckets, b: DeliveryBuckets, c: DeliveryBuckets)
    requires SameTokens(a, b) && SameTokens(b, c)
    ensures SameTokens(a, c)
  {
  }

  lemma SameRowsSameTokens(rows: seq<Row<ClientDelivery<Bytes>>>, rows': seq<Row<ClientDelivery<Bytes>>>)
    requires SameRowTokens(rows, rows')
    ensures |rows'| == |rows| && Tokens(rows', |rows'|) == Tokens(rows, |rows|)
  {
  }

  /** Whether `prune_overloaded_clients` drops a client. */
  predicate IsOverloaded(d: ClientDelivery<Bytes>, channel: Channel<Bytes>) {
    if d.ready then channel.closed else |d.pending| >= PENDING_MESSAGES_LIMIT
  }

  /** The list names the overloaded clients, each under its own address. */
  ghost predicate ListsOverloaded(clients: Deliveries, channels: Channels, doomed: seq<Doomed>) {
    && clients.Keys <= channels.Keys
    && (forall i | 0 <= i < |doomed| ::
          && doomed[i].token in clients && doomed[i].addr == clients[doomed[i].token].addr
          && IsOverloaded(clients[doomed[i].token], channels[doomed[i].token]))
    && (forall t | t in clients && IsOverloaded(clients[t], channels[t]) :: IsDoomed(doomed, t))
  }

  class DeliveryRegistry {
    var byAddr: DeliveryBuckets
    ghost var clients: Deliveries

    ghost predicate Valid()
      reads this
    {
      Holds(byAddr, clients)
    }

    constructor ()
      ensures Valid() && clients == map[]
    {
      byAddr := map[];
      clients := map[];
    }

    /** A client enters without anything pending and not ready. */
    method Add(address: SocketAddr, token: Token)
      requires Valid() && token !in clients
      modifies this
      ensures Valid() && clients == old(clients)[token := ClientDelivery(address, false, [])]
    {
      var d := ClientDelivery(address, false, []);
      HoldsAdded(byAddr, clients, token, d);
      byAddr := Insert(byAddr, address, Row(token, d));
      clients := clients[token := d];
    }

    /** A client that is there is told to disconnect and dropped. */
    method Remove(address: SocketAddr, token: Token, transport: Transport)
      requires Valid()
      modifies this, transport`disconnected
      ensures Valid()
      ensures var found := token in old(clients) && old(clients)[token].addr == address;
              && clients == (if found then old(clients) - {token} else old(clients))
              && transport.disconnected == old(transport.disconnected) + if found then {token} else {}
    {
      FoundIffDelivered(byAddr, clients, address, token);
      var row := FindRow(byAddr, address, token);
      if row.Some? {
        transport.disconnected := transport.disconnected + {token};
        HoldsDropped(byAddr, clients, token);
        var entries := Retain(byAddr[address], token);
        byAddr := WithRows(byAddr, address, entries);
        clients := clients - {token};
      }
    }

    method Contains(address: SocketAddr, token: Token) returns (found: bool)
      requires Valid()
      ensures found <==> token in clients && clients[token].addr == address
    {
      FoundIffDelivered(byAddr, clients, address, token);
      var row := FindRow(byAddr, address, token);
      return row.Some?;
    }

    /** Replacing the record at one place of a bucket. */
    method Replace(a: SocketAddr, i: nat, d: ClientDelivery<Bytes>)
      requires Valid() && a in byAddr && i < |byAddr[a]| && d.addr == a
      modifies this
      ensures Valid() && SameTokens(old(byAddr), byAddr)
      ensures clients == old(clients)[old(byAddr)[a][i].token := d]
    {
      ghost var token := byAddr[a][i].token;
      HoldsReplaced(byAddr, clients, a, i, token, d);
      byAddr := byAddr[a := byAddr[a][i := Row(byAddr[a][i].token, d)]];
      clients := clients[token := d];
    }

    /** The loop body of a broadcast. */
    method OfferRow(a: SocketAddr, i: nat, message: Bytes, transport: Transport) returns (isDoomed: bool)
      requires Valid() && clients.Keys <= transport.channels.Keys
      requires a in byAddr && i < |byAddr[a]|
      modifies this, transport`channels
      ensures Valid() && SameTokens(old(byAddr), byAddr)
      ensures var t := old(byAddr)[a][i].token;
              && t in old(clients) && old(clients)[t].addr == a
              && var o := Offer(old(clients)[t], old(transport.channels)[t], message);
                 && clients == old(clients)[t := o.delivery]
                 && transport.channels == old(transport.channels)[t := o.channel]
                 && isDoomed == o.doomed
    {
      RowIsClient(byAddr, clients, a, i);
      var client := byAddr[a][i].value;
      var token := byAddr[a][i].token;
      if client.ready {
        var result := transport.Send(token, message);
        assert clients == clients[token := client];
        return result != Sent;
      }
      if |client.pending| >= PENDING_MESSAGES_LIMIT {
        assert clients == clients[token := client];
        assert transport.channels == transport.channels[token := transport.channels[token]];
        return true;
      }
      Replace(a, i, client.(pending := client.pending + [message]));
      assert transport.channels == transport.channels[token := transport.channels[token]];
      return false;
    }

    /** One turn of the broadcast loop, and who is doomed after it. */
    method OfferNext(a: SocketAddr, i: nat, message: Bytes, transport: Transport, doomedBefore: seq<Doomed>,
                     ghost before: Deliveries, ghost channelsBefore: Channels, ghost done: set<Token>)
      returns (doomed: seq<Doomed>)
      requires Valid() && a in byAddr && i < |byAddr[a]| && byAddr[a][i].token !in done
      requires OfferedTo(before, channelsBefore, clients, transport.channels, doomedBefore, message, done)
      modifies this, transport`channels
      ensures Valid() && SameTokens(old(byAddr), byAddr)
      ensures OfferedTo(before, channelsBefore, clients, transport.channels, doomed, message,
                        done + {old(byAddr)[a][i].token})
    {
      var token := byAddr[a][i].token;
      RowIsClient(byAddr, clients, a, i);
      OfferedToOneMore(before, channelsBefore, clients, transport.channels, doomedBefore, message, done, token);
      var isDoomed := OfferRow(a, i, message, transport);
      doomed := if isDoomed then doomedBefore + [Doomed(a, token)] else doomedBefore;
    }

    /** The clients of one address, in the order in which they registered. */
    method OfferBucket(a: SocketAddr, message: Bytes, transport: Transport, doomedBefore: seq<Doomed>,
                       ghost before: Deliveries, ghost channelsBefore: Channels, ghost done: set<Token>)
      returns (doomed: seq<Doomed>)
      requires Valid() && a in byAddr
      requires OfferedTo(before, channelsBefore, clients, transport.channels, doomedBefore, message, done)
      requires Tokens(byAddr[a], |byAddr[a]|) !! done
      modifies this, transport`channels
      ensures Valid() && SameTokens(old(byAddr), byAddr)
      ensures OfferedTo(before, channelsBefore, clients, transport.channels, doomed, message,
                        done + Tokens(old(byAddr)[a], |old(byAddr)[a]|))
    {
      var rows := byAddr[a];
      ghost var reached := done;
      assert |rows| > 0 ==> Distinct(rows) by {
        if |rows| > 0 { RowIsClient(byAddr, clients, a, 0); }
      }
      doomed := doomedBefore;
      var i := 0;
      while i < |rows|
        invariant i <= |rows| && reached == done + Tokens(rows, i)
        invariant Valid() && SameTokens(old(byAddr), byAddr)
        invariant OfferedTo(before, channelsBefore, clients, transport.channels, doomed, message, reached)
      {
        TokensNext(rows, i, done);
        assert byAddr[a][i].token == rows[i].token;
        doomed := OfferNext(a, i, message, transport, doomed, before, channelsBefore, reached);
        reached := reached + {rows[i].token};
        i := i + 1;
      }
    }

    /** The broadcast loop: every client is offered the message once, in any order of the addresses. */
    method Deliver(message: Bytes, transport: Transport) returns (doomed: seq<Doomed>)
      requires Valid() && clients.Keys <= transport.channels.Keys
      modifies this, transport`channels
      ensures Valid()
      ensures OfferedTo(old(clients), old(transport.channels), clients, transport.channels, doomed, message,
                        old(clients).Keys)
    {
      doomed := [];
      ghost var rows, before, channelsBefore := byAddr, clients, transport.channels;
      ghost var done := Visited(AddrsOf(clients), byAddr.Keys);
      VisitedAtStart(byAddr, AddrsOf(clients), clients);
      var todo := byAddr.Keys;
      while todo != {}
        invariant Valid() && SameTokens(rows, byAddr) && todo <= rows.Keys
        invariant done == Visited(AddrsOf(before), todo)
        invariant OfferedTo(before, channelsBefore, clients, transport.channels, doomed, message, done)
        decreases |todo|
      {
        var a :| a in todo;
        VisitedNext(rows, AddrsOf(before), before, todo, a);
        SameRowsSameTokens(rows[a], byAddr[a]);
        ghost var earlier := byAddr;
        doomed := OfferBucket(a, message, transport, doomed, before, channelsBefore, done);
        SameTokensChain(rows, earlier, byAddr);
        todo := todo - {a};
        done := Visited(AddrsOf(before), todo);
      }
    }

    /** `mark_client_ready`: held-back messages go out until one is refused, and the rest stays held. */
    method MarkReady(address: SocketAddr, token: Token, transport: Transport) returns (r: Outcome)
      requires Valid() && clients.Keys <= transport.channels.Keys
      modifies this, transport`channels
      ensures Valid()
      ensures !(token in old(clients) && old(clients)[token].addr == address) ==>
                r == UnknownClient && clients == old(clients) && transport.channels == old(transport.channels)
      ensures token in old(clients) && old(clients)[token].addr == address ==>
                var s := Marked(old(clients)[token], old(transport.channels)[token]);
                && r == s.outcome
                && clients == old(clients)[token := s.delivery]
                && transport.channels == old(transport.channels)[token := s.channel]
    {
      FoundIffDelivered(byAddr, clients, address, token);
      var row := FindRow(byAddr, address, token);
      if row.None? {
        return UnknownClient;
      }
      RowIsClient(byAddr, clients, address, row.value);
      var client := byAddr[address][row.value].value;
      var result, remaining := transport.SendAll(token, client.pending);
      Replace(address, row.value, client.(pending := remaining, ready := client.ready || remaining == []));
      return OutcomeOf(result);
    }

    /** The clients that are overloaded now. */
    method Overloaded(transport: Transport) returns (doomed: seq<Doomed>)
      requires Valid() && clients.Keys <= transport.channels.Keys
      ensures ListsOverloaded(clients, transport.channels, doomed)
    {
      doomed := [];
      VisitedAtStart(byAddr, AddrsOf(clients), clients);
      var todo := byAddr.Keys;
      while todo != {}
        invariant todo <= byAddr.Keys
        invariant forall i | 0 <= i < |doomed| ::
                    && doomed[i].token in clients && doomed[i].addr == clients[doomed[i].token].addr
                    && IsOverloaded(clients[doomed[i].token], transport.channels[doomed[i].token])
        invariant forall t | t in Visited(AddrsOf(clients), todo) && IsOverloaded(clients[t], transport.channels[t]) ::
                    IsDoomed(doomed, t)
        decreases |todo|
      {
        var a :| a in todo;
        doomed := OverloadedAt(a, transport, doomed);
        todo := todo - {a};
      }
    }

    method OverloadedAt(a: SocketAddr, transport: Transport, before: seq<Doomed>) returns (doomed: seq<Doomed>)
      requires Valid() && clients.Keys <= transport.channels.Keys && a in byAddr
      ensures before <= doomed
      ensures forall i | |before| <= i < |doomed| ::
                && doomed[i].token in clients && doomed[i].addr == clients[doomed[i].token].addr
                && IsOverloaded(clients[doomed[i].token], transport.channels[doomed[i].token])
      ensures forall t | t in clients && clients[t].addr == a
                         && IsOverloaded(clients[t], transport.channels[t]) :: IsDoomed(doomed, t)
    {
      doomed := before;
      forall j: nat | j < |byAddr[a]| ensures byAddr[a][j].token in clients {
        RowIsClient(byAddr, clients, a, j);
      }
      var i := 0;
      while i < |byAddr[a]|
        invariant i <= |byAddr[a]| && before <= doomed
        invariant forall k | |before| <= k < |doomed| ::
                    && doomed[k].token in clients && doomed[k].addr == clients[doomed[k].token].addr
                    && IsOverloaded(clients[doomed[k].token], transport.channels[doomed[k].token])
        invariant forall j | 0 <= j < i && IsOverloaded(byAddr[a][j].value, transport.channels[byAddr[a][j].token]) ::
                    IsDoomed(doomed, byAddr[a][j].token)
      {
        RowIsClient(byAddr, clients, a, i);
        var row := byAddr[a][i];
        ghost var was := doomed;
        if IsOverloaded(row.value, transport.channels[row.token]) {
          doomed := doomed + [Doomed(row.value.addr, row.token)];
          assert doomed[|was|].token == row.token;
        }
        assert forall k | 0 <= k < |was| :: doomed[k] == was[k];
        i := i + 1;
      }
      forall t | t in clients && clients[t].addr == a && IsOverloaded(clients[t], transport.channels[t])
        ensures IsDoomed(doomed, t)
      {
        FoundIffDelivered(byAddr, clients, a, t);
        var j :| 0 <= j < |byAddr[a]| && byAddr[a][j].token == t;
        RowIsClient(byAddr, clients, a, j);
      }
    }
  }
}
