/** What holds in every state the server can reach, in any interleaving of its tasks. */
module ServerRuns {
  import opened Common
  import Delivery
  import opened Protocol
  import opened Coherence
  import opened Streams
  import opened Announcements

  ghost predicate Inv(w: World) {
    BaseInv(w) && StreamsInv(w) && SpeechInv(w)
  }

  lemma StartInv()
    ensures Inv(START)
  {
  }

  lemma NextKeepsInv(w: World, s: Step)
    requires Inv(w) && Next(w, s).Some?
    ensures Inv(Next(w, s).value)
  {
    RowsStep(w, s);
    LocksStep(w, s);
    HistoryStep(w, s);
    StreamsStep(w, s);
    SpeechStep(w, s);
  }

  lemma {:induction false} RunKeepsInv(steps: seq<Step>)
    requires Run(steps).Some?
    ensures Inv(Run(steps).value)
  {
    if steps == [] {
      StartInv();
    } else {
      RunKeepsInv(steps[..|steps| - 1]);
      NextKeepsInv(Run(steps[..|steps| - 1]).value, steps[|steps| - 1]);
    }
  }

  lemma ReachableInv(w: World)
    requires Reachable(w)
    ensures Inv(w)
  {
    var steps :| RunFrom(START, steps) == Some(w);
    assert Run(steps) == Some(w);
    RunKeepsInv(steps);
  }

  /**
    Gap-free, totally ordered chat: the chat lines ever enqueued for a client are a prefix of the
    history at its replay followed by the log from the first line on that was still to be broadcast
    when it registered.
   */
  lemma ChatIsGapFree(w: World, t: Token)
    requires Reachable(w) && t in w.clients
    ensures var c := w.clients[t];
            match c.replayedAt
            case None => c.channel.Sent() == []
            case Some(at) =>
              && c.since <= at <= |w.log|
              && Chats(c.channel.Sent()) <= Recent(w.log[..at]) + w.log[c.since..]
  {
    ReachableInv(w);
    assert StreamInvAt(w, t);
  }

  lemma HistoryIsRecent(w: World)
    requires Reachable(w)
    ensures w.history == Recent(w.log)
  {
    ReachableInv(w);
  }

  /**
    In every reachable state a ready client has been given every line still to be broadcast when it
    registered and every later one, but for the newest if that line has not been offered to it yet,
    or could not be given to it.
   */
  lemma ReadyIsLevelOrOneBehind(w: World, t: Token)
    requires Reachable(w) && t in w.clients
    requires w.clients[t].delivery.Some? && w.clients[t].delivery.value.ready
    ensures var c, offered := w.clients[t], Settled(w.log, Behind(w.barrier, w.deliveriesLock, t));
            && c.replayedAt.Some? && c.since <= c.replayedAt.value <= |offered|
            && Chats(c.channel.Sent()) == Recent(offered[..c.replayedAt.value]) + offered[c.since..]
  {
    ReachableInv(w);
    assert StreamInvAt(w, t);
  }

  /** While no line is being recorded, a ready client has been given every line. */
  lemma NothingIsSkipped(w: World, t: Token)
    requires Reachable(w) && t in w.clients && !w.barrier.Broadcasting?
    requires w.clients[t].delivery.Some? && w.clients[t].delivery.value.ready
    ensures var c := w.clients[t];
            && c.replayedAt.Some? && c.since <= c.replayedAt.value <= |w.log|
            && Chats(c.channel.Sent()) == Recent(w.log[..c.replayedAt.value]) + w.log[c.since..]
  {
    ReadyIsLevelOrOneBehind(w, t);
  }

  /** Nor is a line lost to a client that still waits for its replay: all are held back for it. */
  lemma NothingIsLostWhileWaiting(w: World, t: Token)
    requires Reachable(w) && t in w.clients
    requires w.clients[t].delivery.Some? && w.clients[t].replayedAt.None?
    ensures var c, offered := w.clients[t], Settled(w.log, Behind(w.barrier, w.deliveriesLock, t));
            && c.since <= |offered| && c.channel.Sent() == []
            && Chats(c.delivery.value.pending) == offered[c.since..]
  {
    ReachableInv(w);
    assert StreamInvAt(w, t);
  }

  lemma FrontOfChats(a: seq<Message>, b: seq<Message>, bound: seq<Entry>)
    requires Chats(a + b) <= bound
    ensures Chats(a) <= bound
  {
    ChatsConcat(a, b);
  }

  /** The socket carries a prefix of what was enqueued, wherever the writer stops. */
  lemma SocketCarriesAPrefix(w: World, t: Token, written: nat)
    requires Reachable(w) && t in w.clients && w.clients[t].replayedAt.Some?
    requires written <= |w.clients[t].channel.taken|
    ensures var c := w.clients[t];
            && c.since <= c.replayedAt.value <= |w.log|
            && Chats(c.channel.taken[..written]) <= Target(w.log, c.since, c.replayedAt.value)
  {
    ChatIsGapFree(w, t);
    var c := w.clients[t];
    var front, back := c.channel.taken[..written], c.channel.taken[written..] + c.channel.queue;
    assert c.channel.Sent() == front + back;
    FrontOfChats(front, back, Target(w.log, c.since, c.replayedAt.value));
  }

  /** Everything a replaying client was or will be given fits into its channel. */
  lemma CatchingFits(log: seq<Entry>, c: Client, history: seq<Entry>)
    requires history != [] && StreamInv(log, false, Catching(history), c)
    ensures |c.channel.queue| < MESSAGE_HISTORY_LIMIT
  {
    assert |ChatMessages(history)| == |history|;
    assert |c.channel.Sent() + ChatMessages(history)| == |ChatMessages(Recent(log))| == |Recent(log)|;
  }

  lemma ReleasingFits(log: seq<Entry>, c: Client, done: seq<Message>, rest: seq<Message>)
    requires rest != [] && StreamInv(log, false, Releasing(done, rest), c)
    ensures |c.channel.queue| < OUTBOUND_QUEUE_SIZE
  {
    assert |c.channel.Sent()| == |ChatMessages(Recent(log)) + done| == |Recent(log)| + |done|;
  }

  /**
    A history replay and the flush after it never find the channel full, even if the writer takes
    nothing: what refuses a message is a channel that is closed.
   */
  lemma ReplayNeverOverflows(w: World)
    requires Reachable(w)
    ensures w.barrier.Replay? && w.barrier.history != [] ==>
              && w.barrier.t in w.clients
              && Delivery.TrySend(w.clients[w.barrier.t].channel, Chat(w.barrier.history[0])).0 != Delivery.Full
    ensures w.deliveriesLock.Flushing? && w.deliveriesLock.rest != [] ==>
              && w.deliveriesLock.t in w.clients
              && Delivery.TrySend(w.clients[w.deliveriesLock.t].channel, w.deliveriesLock.rest[0]).0 != Delivery.Full
  {
    ReachableInv(w);
    if w.barrier.Replay? && w.barrier.history != [] {
      assert StreamInvAt(w, w.barrier.t);
      CatchingFits(w.log, w.clients[w.barrier.t], w.barrier.history);
    }
    if w.deliveriesLock.Flushing? && w.deliveriesLock.rest != [] {
      var t := w.deliveriesLock.t;
      assert StreamInvAt(w, t);
      ReleasingFits(w.log, w.clients[t], w.deliveriesLock.done, w.deliveriesLock.rest);
    }
  }

  function SessionTokens(w: World): set<Token> {
    set t | t in w.clients && w.clients[t].session.Some?
  }

  /**
    The delivery registry always contains the session registry, at the same addresses; the two
    differ by at most the client being removed, so not at all while the clients lock is free; and a
    client that left the delivery registry was told to disconnect.
   */
  lemma RegistriesCohere(w: World)
    requires Reachable(w)
    ensures DeliveryTokens(w)
         == SessionTokens(w) + if w.clientsLock.Taking? then {w.clientsLock.t} else {}
    ensures w.clientsLock.Taking? ==> w.clientsLock.t !in SessionTokens(w)
    ensures forall t | t in SessionTokens(w) ::
              w.clients[t].delivery.value.addr == w.clients[t].session.value.addr
    ensures forall t | t in w.clients && t !in DeliveryTokens(w) :: w.clients[t].disconnect
  {
    ReachableInv(w);
    forall t | t in w.clients ensures RowsOk(w.clientsLock, t, w.clients[t]) {
    }
  }

  /** At most one leave per client, never ahead of its join; and it speaks only after its join. */
  lemma AtMostOneLeave(w: World, t: Token)
    requires Reachable(w)
    ensures forall p | 0 <= p <= |w.log| :: Leaves(w.log[..p], t) <= Joins(w.log[..p], t) <= 1
    ensures forall p | 0 <= p < |w.log| && w.log[p].Say? && w.log[p].who == t :: Join(t) in w.log[..p]
  {
    ReachableInv(w);
    assert SpeechAt(w, t);
    forall p | 0 <= p < |w.log| && w.log[p].Say? && w.log[p].who == t ensures Join(t) in w.log[..p] {
      assert Joins(w.log[..p], t) == 1;
    }
  }

  function Removals(steps: seq<Step>, t: Token): nat {
    if steps == [] then 0
    else
      var last := steps[|steps| - 1];
      Removals(steps[..|steps| - 1], t) + if last.RemoveBegin? && last.t == t then 1 else 0
  }

  /** A client's session row goes in the step that counts as its removal, and in no other. */
  predicate RowGoesOnce(w: World, s: Step, w': World, t: Token) {
    && (t !in w.clients && t in w'.clients ==> w'.clients[t].session.Some?)
    && (t in w.clients ==>
          && t in w'.clients
          && if s.RemoveBegin? && s.t == t then w.clients[t].session.Some? && w'.clients[t].session.None?
             else w'.clients[t].session.Some? == w.clients[t].session.Some?)
    && (s.RemoveBegin? && s.t == t ==> t in w.clients)
  }

  lemma RowGoesOnceReplay(w: World, s: Step, t: Token)
    requires Next(w, s).Some? && IsReplayStep(s)
    ensures RowGoesOnce(w, s, Next(w, s).value, t)
  {
  }

  lemma RowGoesOnceBroadcast(w: World, s: Step, t: Token)
    requires Next(w, s).Some? && IsBroadcastStep(s)
    ensures RowGoesOnce(w, s, Next(w, s).value, t)
  {
  }

  lemma RowGoesOnceElse(w: World, s: Step, t: Token)
    requires Next(w, s).Some? && (IsEntryStep(s) || IsTaskStep(s) || IsRemovalStep(s))
    ensures RowGoesOnce(w, s, Next(w, s).value, t)
  {
  }

  lemma RemovalsNext(w: World, s: Step, t: Token)
    requires Next(w, s).Some?
    ensures RowGoesOnce(w, s, Next(w, s).value, t)
  {
    if IsReplayStep(s) { RowGoesOnceReplay(w, s, t); }
    else if IsBroadcastStep(s) { RowGoesOnceBroadcast(w, s, t); }
    else { RowGoesOnceElse(w, s, t); }
  }

  /**
    Over all racing callers and whole runs, taking a client out succeeds once if it is no longer
    registered, and not at all as long as it is.
   */
  lemma {:induction false} RemovedExactlyOnce(steps: seq<Step>, t: Token)
    requires Run(steps).Some?
    ensures var w := Run(steps).value;
            Removals(steps, t) == if t in w.clients && t !in SessionTokens(w) then 1 else 0
  {
    if steps != [] {
      var before := steps[..|steps| - 1];
      RemovedExactlyOnce(before, t);
      RemovalsNext(Run(before).value, steps[|steps| - 1], t);
    }
  }
}
