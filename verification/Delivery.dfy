/** Outbound channels and delivery records: what one client is owed and what it was handed. */
module Delivery {
  import opened Common

  /**
    A bounded channel between the delivery registry and one outbound writer. `taken` is what the
    writer has received so far, so `Sent()` is everything ever enqueued, in order.
   */
  datatype Channel<+M> = Channel(taken: seq<M>, queue: seq<M>, closed: bool) {
    function Sent(): seq<M> {
      taken + queue
    }
  }

  datatype ClientDelivery<+M> = ClientDelivery(addr: SocketAddr, ready: bool, pending: seq<M>)

  datatype SendResult = Sent | Full | Closed

  /** A closed channel reports `Closed` even when it is also full. */
  function TrySend<M>(channel: Channel<M>, message: M): (SendResult, Channel<M>) {
    if channel.closed then
      (Closed, channel)
    else if |channel.queue| >= OUTBOUND_QUEUE_SIZE then
      (Full, channel)
    else
      (Sent, channel.(queue := channel.queue + [message]))
  }

  lemma SendAppends<M>(channel: Channel<M>, message: M)
    ensures var (result, channel') := TrySend(channel, message);
            if result == Sent then channel'.Sent() == channel.Sent() + [message] else channel' == channel
  {
  }

  datatype Offered<+M> = Offered(delivery: ClientDelivery<M>, channel: Channel<M>, doomed: bool)

  /** What one broadcast does to one client: queue the message, hold it back, or doom the client. */
  function Offer<M>(d: ClientDelivery<M>, channel: Channel<M>, message: M): Offered<M> {
    if d.ready then
      var (result, channel') := TrySend(channel, message);
      Offered(d, channel', result != Sent)
    else if |d.pending| >= PENDING_MESSAGES_LIMIT then
      Offered(d, channel, true)
    else
      Offered(d.(pending := d.pending + [message]), channel, false)
  }

  /** Everything a client has been given: what was enqueued, then what is held back for it. */
  function Given<M>(d: ClientDelivery<M>, channel: Channel<M>): seq<M> {
    channel.Sent() + d.pending
  }

  /**
    A broadcast gives a client exactly one copy, after everything it had, or changes nothing at all
    and dooms it; and it dooms exactly the clients that have no room.
   */
  lemma OfferGivesOneCopyOrDooms<M>(d: ClientDelivery<M>, channel: Channel<M>, message: M)
    requires d.ready ==> d.pending == []
    ensures var o := Offer(d, channel, message);
            && o.delivery.ready == d.ready && o.delivery.addr == d.addr
            && o.channel.taken == channel.taken
            && (o.doomed <==> if d.ready then channel.closed || |channel.queue| >= OUTBOUND_QUEUE_SIZE
                              else |d.pending| >= PENDING_MESSAGES_LIMIT)
            && (o.doomed ==> o.delivery == d && o.channel == channel)
            && (!o.doomed ==> Given(o.delivery, o.channel) == Given(d, channel) + [message])
            && (!o.doomed && !d.ready ==> o.channel == channel)
  {
    var o := Offer(d, channel, message);
    if !o.doomed && d.ready {
      assert Given(o.delivery, o.channel) == channel.taken + (channel.queue + [message]) + [];
    }
  }

  /** What a broadcast keeps of a delivery record it does not doom or drop. */
  predicate DeliveryOk<M>(d: ClientDelivery<M>) {
    && |d.pending| <= PENDING_MESSAGES_LIMIT
    && (d.ready ==> d.pending == [])
  }

  datatype Flushed<+M> = Flushed(sent: seq<M>, rest: seq<M>, channel: Channel<M>, result: SendResult)

  /** Moving held-back messages into the channel until one is refused. */
  function Flush<M>(pending: seq<M>, channel: Channel<M>): (f: Flushed<M>)
    ensures f.sent + f.rest == pending
    ensures f.channel.Sent() == channel.Sent() + f.sent
    ensures f.channel.closed == channel.closed && f.channel.taken == channel.taken
    ensures f.result == Sent <==> f.rest == []
    ensures f.result == Closed ==> channel.closed
    ensures f.result == Full ==> |f.channel.queue| >= OUTBOUND_QUEUE_SIZE
  {
    if pending == [] then
      assert channel.Sent() + [] == channel.Sent();
      Flushed([], [], channel, Sent)
    else
      var (result, channel') := TrySend(channel, pending[0]);
      if result == Sent then
        var f := Flush(pending[1..], channel');
        assert channel'.Sent() == channel.Sent() + [pending[0]];
        assert pending == [pending[0]] + (f.sent + f.rest);
        assert channel'.Sent() + f.sent == channel.Sent() + ([pending[0]] + f.sent);
        f.(sent := [pending[0]] + f.sent)
      else
        assert channel.Sent() + [] == channel.Sent();
        assert [] + pending == pending;
        Flushed([], pending, channel, result)
  }

  /** One more message taken: the rest of the flush is the flush of the rest. */
  lemma FlushFirst<M>(pending: seq<M>, channel: Channel<M>)
    requires pending != [] && TrySend(channel, pending[0]).0 == Sent
    ensures var f, g := Flush(pending, channel), Flush(pending[1..], TrySend(channel, pending[0]).1);
            f.rest == g.rest && f.channel == g.channel && f.result == g.result && |f.sent| == |g.sent| + 1
  {
  }

  lemma FlushExtendsQueue<M>(pending: seq<M>, channel: Channel<M>)
    ensures Flush(pending, channel).channel.queue == channel.queue + Flush(pending, channel).sent
  {
    var f := Flush(pending, channel);
    assert f.channel.Sent() == channel.taken + (channel.queue + f.sent);
    assert f.channel.queue == f.channel.Sent()[|channel.taken|..];
  }

  /** A flush that starts with room for everything is refused only by a channel that is closed. */
  lemma {:induction false} FlushWithRoomNeverOverflows<M>(pending: seq<M>, channel: Channel<M>)
    requires |channel.queue| + |pending| <= OUTBOUND_QUEUE_SIZE
    ensures var f := Flush(pending, channel);
            && f.result != Full
            && (!channel.closed ==> f.result == Sent && f.sent == pending)
  {
    if pending != [] && !channel.closed {
      var channel' := TrySend(channel, pending[0]).1;
      FlushWithRoomNeverOverflows(pending[1..], channel');
    }
  }

  datatype Outcome = Ready | UnknownClient | QueueFull | WriterGone | LineTooLong

  function OutcomeOf(result: SendResult): Outcome {
    match result case Sent => Ready case Full => QueueFull case Closed => WriterGone
  }

  /** How serving one client ended, and its record and channel after that. */
  datatype Served<+M> = Served(outcome: Outcome, delivery: ClientDelivery<M>, channel: Channel<M>)

  /** Flushing what is held back: the client is ready when nothing is left. */
  function Marked<M>(d: ClientDelivery<M>, channel: Channel<M>): Served<M> {
    var f := Flush(d.pending, channel);
    Served(OutcomeOf(f.result), d.(pending := f.rest, ready := d.ready || f.rest == []), f.channel)
  }

  /** A replay: the history, as far as there is room, and then what is held back. */
  function ServeReplay<M>(d: ClientDelivery<M>, channel: Channel<M>, history: seq<M>): Served<M> {
    var h := Flush(history, channel);
    if h.result != Sent then Served(OutcomeOf(h.result), d, h.channel) else Marked(d, h.channel)
  }

  // ---- Whole broadcasts ------------------------------------------------------------------------

  type ClientDeliveries<+M> = map<Token, ClientDelivery<M>>
  type ClientChannels<+M> = map<Token, Channel<M>>

  /** The clients that a message would find without room. */
  function DoomedBy<M>(deliveries: ClientDeliveries<M>, channels: ClientChannels<M>, message: M): set<Token> {
    set t | t in deliveries && t in channels && Offer(deliveries[t], channels[t], message).doomed
  }

  /** What is left of the delivery records after a broadcast. */
  function Survivors<M>(deliveries: ClientDeliveries<M>, channels: ClientChannels<M>, message: M): ClientDeliveries<M>
  {
    map t | t in deliveries && t in channels && !Offer(deliveries[t], channels[t], message).doomed ::
      Offer(deliveries[t], channels[t], message).delivery
  }

  /** The channels after a broadcast. */
  function Reached<M>(deliveries: ClientDeliveries<M>, channels: ClientChannels<M>, message: M): ClientChannels<M>
  {
    map t | t in channels ::
      if t in deliveries then Offer(deliveries[t], channels[t], message).channel else channels[t]
  }
}
