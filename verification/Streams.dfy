/**
  What every client's channel carries: the recent history at its replay, then a gap-free stretch of
  the log. The statement about one client mentions the rest of the server only through the log,
  whether the line being broadcast is still owed to the client, and its part in a history replay.
 */
module Streams {
  import opened Common
  import opened Delivery
  import opened Protocol
  import opened Coherence

  /** The chat lines among some messages, in order. */
  function Chats(messages: seq<Message>): seq<Entry> {
    if messages == [] then []
    else
      var last := messages[|messages| - 1];
      Chats(messages[..|messages| - 1]) + if last.Chat? then [last.entry] else []
  }

  function ChatMessages(entries: seq<Entry>): seq<Message> {
    seq(|entries|, i requires 0 <= i < |entries| => Chat(entries[i]))
  }

  lemma {:induction false} ChatsConcat(a: seq<Message>, b: seq<Message>)
    ensures Chats(a + b) == Chats(a) + Chats(b)
  {
    if b == [] {
      assert a + b == a;
    } else {
      var n := |b| - 1;
      assert (a + b)[..|a + b| - 1] == a + b[..n];
      ChatsConcat(a, b[..n]);
    }
  }

  lemma ChatsAppend(a: seq<Message>, m: Message)
    ensures Chats(a + [m]) == Chats(a) + if m.Chat? then [m.entry] else []
  {
    assert (a + [m])[..|a|] == a;
  }

  lemma {:induction false} ChatsOfChatMessages(entries: seq<Entry>)
    ensures Chats(ChatMessages(entries)) == entries
  {
    if entries != [] {
      var n := |entries| - 1;
      assert ChatMessages(entries)[..n] == ChatMessages(entries[..n]);
      ChatsOfChatMessages(entries[..n]);
      assert entries == entries[..n] + [entries[n]];
    }
  }

  /** The part a client has in the replay that holds the barrier, if any. */
  datatype Role =
    | Bystander
    | Catching(history: seq<Entry>)                           // history still to be enqueued
    | Releasing(done: seq<Message>, rest: seq<Message>)       // held-back messages being moved

  function RoleOf(barrier: Barrier, lock: DeliveriesLock, t: Token): Role {
    if !(barrier.Replay? && barrier.t == t) then Bystander
    else if lock.Flushing? then Releasing(lock.done, lock.rest)
    else Catching(barrier.history)
  }

  /** Whether the last recorded line has not been given to the client. */
  predicate Behind(barrier: Barrier, lock: DeliveriesLock, t: Token) {
    barrier.Broadcasting? &&
    match barrier.stage
    case Recorded => true
    case Offering => lock.Delivering? && (t in lock.todo || t in lock.doomed)
    case Dooming(doomed) => t in doomed
  }

  /** The log as far as the client was offered it. */
  function Settled(log: seq<Entry>, behind: bool): seq<Entry> {
    if behind && log != [] then log[..|log| - 1] else log
  }

  /** What the client's channel carries when nothing was cut short: replayed history, then live lines. */
  function Target(log: seq<Entry>, since: nat, at: nat): seq<Entry>
    requires since <= |log| && at <= |log|
  {
    Recent(log[..at]) + log[since..]
  }

  predicate DeliveryInv(settled: seq<Entry>, behind: bool, role: Role, c: Client, d: ClientDelivery<Message>) {
    && DeliveryOk(d)
    && c.since <= |settled|
    && match role
       case Bystander =>
         if d.ready then
           && c.replayedAt.Some? && c.replayedAt.value <= |settled|
           && Chats(c.channel.Sent()) == Target(settled, c.since, c.replayedAt.value)
         else c.replayedAt.None? ==> Chats(d.pending) == settled[c.since..]
       case Catching(_) => !behind && !d.ready && Chats(d.pending) == settled[c.since..]
       case Releasing(done, rest) =>
         && !behind && !d.ready && d.pending == []
         && |done| + |rest| <= PENDING_MESSAGES_LIMIT
         && Chats(done + rest) == settled[c.since..]
  }

  /** A replay enqueues the whole recent history, then everything that was held back. */
  predicate RoleInv(log: seq<Entry>, role: Role, c: Client) {
    match role
    case Bystander => true
    case Catching(history) =>
      && c.replayedAt == Some(|log|)
      && c.channel.Sent() + ChatMessages(history) == ChatMessages(Recent(log))
    case Releasing(done, rest) =>
      && c.replayedAt == Some(|log|) && c.delivery.Some?
      && c.channel.Sent() == ChatMessages(Recent(log)) + done
  }

  predicate StreamInv(log: seq<Entry>, behind: bool, role: Role, c: Client) {
    && c.since <= |log|
    && (c.pc == Registered || c.pc == Waiting ==> c.replayedAt.None?)
    && (match c.replayedAt
        case None => c.channel.Sent() == [] && (c.delivery.Some? ==> !c.delivery.value.ready)
        case Some(at) =>
          && c.since <= at <= |log|
          && Chats(c.channel.Sent()) <= Target(log, c.since, at))
    && RoleInv(log, role, c)
    && (c.delivery.Some? ==> DeliveryInv(Settled(log, behind), behind, role, c, c.delivery.value))
  }

  predicate StreamInvAt(w: World, t: Token) {
    t in w.clients ==>
      StreamInv(w.log, Behind(w.barrier, w.deliveriesLock, t),
                RoleOf(w.barrier, w.deliveriesLock, t), w.clients[t])
  }

  ghost predicate StreamsInv(w: World) {
    forall t | t in w.clients :: StreamInvAt(w, t)
  }

  ghost predicate BaseInv(w: World) {
    RowsInv(w) && LocksInv(w) && HistoryInv(w)
  }

  /** The facts about one client that its stream rests on. */
  ghost predicate BaseAt(w: World, t: Token) {
    && LocksInv(w) && HistoryInv(w)
    && (t in w.clients ==> RowsOk(w.clientsLock, t, w.clients[t]))
    && StreamInvAt(w, t)
  }

  /** Moves of a client's tasks, and the loss of its rows, leave what its channel carries alone. */
  predicate SameCourse(role: Role, c: Client, c': Client) {
    && c'.since == c.since && c'.replayedAt == c.replayedAt && c'.channel.Sent() == c.channel.Sent()
    && (c'.delivery == c.delivery || (c'.delivery.None? && !role.Releasing?))
    && (c'.pc == Registered || c'.pc == Waiting ==> c.pc == Registered || c.pc == Waiting)
  }

  lemma SameStream(log: seq<Entry>, behind: bool, role: Role, c: Client, c': Client)
    requires StreamInv(log, behind, role, c) && SameCourse(role, c, c')
    ensures StreamInv(log, behind, role, c')
  {
  }

  /** Seen from one client, nothing but its own tasks and rows moved. */
  predicate QuietStep(w: World, w': World, t: Token) {
    && w'.log == w.log && w'.barrier == w.barrier && w'.deliveriesLock == w.deliveriesLock
    && t in w.clients && t in w'.clients
    && SameCourse(RoleOf(w.barrier, w.deliveriesLock, t), w.clients[t], w'.clients[t])
  }

  lemma QuietStepKeepsStream(w: World, w': World, t: Token)
    requires t in w.clients && StreamInvAt(w, t) && QuietStep(w, w', t)
    ensures StreamInvAt(w', t)
  {
    SameStream(w.log, Behind(w.barrier, w.deliveriesLock, t), RoleOf(w.barrier, w.deliveriesLock, t),
               w.clients[t], w'.clients[t]);
  }

  lemma EntryIsQuiet(w: World, s: Step, t: Token)
    requires t in w.clients && Next(w, s).Some? && IsEntryStep(s)
    ensures QuietStep(w, Next(w, s).value, t)
  {
  }

  lemma TaskIsQuiet(w: World, s: Step, t: Token)
    requires t in w.clients && Next(w, s).Some? && IsTaskStep(s)
    ensures QuietStep(w, Next(w, s).value, t)
  {
    if s.Write? {
      var c := w.clients[s.t];
      assert c.channel.taken + c.channel.queue
          == c.channel.taken + [c.channel.queue[0]] + c.channel.queue[1..];
    }
  }

  lemma RemovalIsQuiet(w: World, s: Step, t: Token)
    requires t in w.clients && LocksInv(w) && Next(w, s).Some? && IsRemovalStep(s)
    ensures QuietStep(w, Next(w, s).value, t)
  {
  }

  /** Steps of a client's own tasks and of its registration and removal keep its stream. */
  lemma QuietSteps(w: World, s: Step, t: Token)
    requires BaseAt(w, t) && t in w.clients && Next(w, s).Some?
    requires IsEntryStep(s) || IsTaskStep(s) || IsRemovalStep(s)
    ensures StreamInvAt(Next(w, s).value, t)
  {
    if IsEntryStep(s) { EntryIsQuiet(w, s, t); }
    else if IsTaskStep(s) { TaskIsQuiet(w, s, t); }
    else { RemovalIsQuiet(w, s, t); }
    QuietStepKeepsStream(w, Next(w, s).value, t);
  }

  /** A client starts with an empty stream. */
  lemma FirstStep(w: World, s: Step, t: Token)
    requires BaseAt(w, t) && t !in w.clients && Next(w, s).Some?
    requires IsEntryStep(s) || IsTaskStep(s) || IsRemovalStep(s)
    ensures StreamInvAt(Next(w, s).value, t)
  {
  }

  /** What has been enqueued of a replay so far is the front of the recent history. */
  lemma PartialReplay(a: seq<Message>, b: seq<Message>, entries: seq<Entry>)
    requires a + b == ChatMessages(entries)
    ensures Chats(a) <= entries
    ensures |a| <= |entries|
  {
    ChatsConcat(a, b);
    ChatsOfChatMessages(entries);
  }

  lemma ReplayBeginKeepsStream(w: World, t0: Token, t: Token)
    requires BaseAt(w, t) && ReplayBeginStep(w, t0).Some?
    ensures StreamInvAt(ReplayBeginStep(w, t0).value, t)
  {
    if t == t0 {
      assert [] + ChatMessages(w.history) == ChatMessages(w.history);
    }
  }

  lemma SentMovesOn(sent: seq<Message>, history: seq<Entry>, recent: seq<Entry>)
    requires history != [] && sent + ChatMessages(history) == ChatMessages(recent)
    ensures var sent' := sent + [Chat(history[0])];
            sent' + ChatMessages(history[1..]) == ChatMessages(recent) && Chats(sent') <= recent
  {
    var sent' := sent + [Chat(history[0])];
    assert ChatMessages(history) == [Chat(history[0])] + ChatMessages(history[1..]);
    assert sent' + ChatMessages(history[1..]) == sent + ChatMessages(history);
    PartialReplay(sent', ChatMessages(history[1..]), recent);
  }

  lemma CatchingMovesOn(log: seq<Entry>, c: Client, history: seq<Entry>)
    requires history != []
    requires StreamInv(log, false, Catching(history), c)
    ensures var (result, channel) := TrySend(c.channel, Chat(history[0]));
            result == Sent ==> StreamInv(log, false, Catching(history[1..]), c.(channel := channel))
  {
    var (result, channel) := TrySend(c.channel, Chat(history[0]));
    if result == Sent {
      SentMovesOn(c.channel.Sent(), history, Recent(log));
      SendAppends(c.channel, Chat(history[0]));
      assert log[..|log|] == log;
    }
  }

  lemma ReplaySendKeepsStream(w: World, t: Token)
    requires BaseAt(w, t) && ReplaySendStep(w).Some?
    ensures StreamInvAt(ReplaySendStep(w).value, t)
  {
    if t == w.barrier.t {
      CatchingMovesOn(w.log, w.clients[t], w.barrier.history);
    }
  }

  lemma FlushBeginKeepsStream(w: World, t: Token)
    requires BaseAt(w, t) && FlushBeginStep(w).Some?
    ensures StreamInvAt(FlushBeginStep(w).value, t)
  {
    if t == w.barrier.t {
      var c := w.clients[t];
      assert c.channel.Sent() + ChatMessages([]) == c.channel.Sent() + [];
      if c.delivery.Some? {
        assert [] + c.delivery.value.pending == c.delivery.value.pending;
      }
    }
  }

  /** Replayed history followed by held-back lines is the front of the client's target. */
  lemma ReplayThenHeld(log: seq<Entry>, since: nat, done: seq<Message>, rest: seq<Message>)
    requires since <= |log| && Chats(done + rest) == log[since..]
    ensures var sent := ChatMessages(Recent(log)) + done;
            && Chats(sent) <= Target(log, since, |log|)
            && (rest == [] ==> Chats(sent) == Target(log, since, |log|))
  {
    ChatsConcat(ChatMessages(Recent(log)), done);
    ChatsOfChatMessages(Recent(log));
    ChatsConcat(done, rest);
    assert log[..|log|] == log;
  }

  lemma ReleasingMovesOn(log: seq<Entry>, c: Client, done: seq<Message>, rest: seq<Message>)
    requires rest != []
    requires StreamInv(log, false, Releasing(done, rest), c)
    ensures var (result, channel) := TrySend(c.channel, rest[0]);
            result == Sent ==>
              StreamInv(log, false, Releasing(done + [rest[0]], rest[1..]), c.(channel := channel))
  {
    var (result, channel) := TrySend(c.channel, rest[0]);
    if result == Sent {
      var done' := done + [rest[0]];
      assert done + rest == done' + rest[1..];
      SendAppends(c.channel, rest[0]);
      assert channel.Sent() == ChatMessages(Recent(log)) + done';
      ReplayThenHeld(log, c.since, done', rest[1..]);
    }
  }

  lemma FlushSendKeepsStream(w: World, t: Token)
    requires BaseAt(w, t) && FlushSendStep(w).Some?
    ensures StreamInvAt(FlushSendStep(w).value, t)
  {
    if t == w.deliveriesLock.t {
      ReleasingMovesOn(w.log, w.clients[t], w.deliveriesLock.done, w.deliveriesLock.rest);
    }
  }

  lemma FlushEndKeepsStream(w: World, t: Token)
    requires BaseAt(w, t) && FlushEndStep(w).Some?
    ensures StreamInvAt(FlushEndStep(w).value, t)
  {
    if t == w.deliveriesLock.t {
      ReplayThenHeld(w.log, w.clients[t].since, w.deliveriesLock.done, []);
    }
  }

  lemma ChatBeginKeepsStream(w: World, t0: Token, byWriter: bool, entry: Entry, t: Token)
    requires BaseAt(w, t) && ChatBeginStep(w, t0, byWriter, entry).Some?
    ensures StreamInvAt(ChatBeginStep(w, t0, byWriter, entry).value, t)
  {
    if t in w.clients {
      var log' := w.log + [entry];
      assert Settled(log', true) == w.log == Settled(w.log, false);
      var c := w.clients[t];
      if c.replayedAt.Some? {
        assert log'[..c.replayedAt.value] == w.log[..c.replayedAt.value];
        assert log'[c.since..] == w.log[c.since..] + [entry];
      }
    }
  }

  lemma TargetGrows(log: seq<Entry>, since: nat, at: nat)
    requires log != [] && since < |log| && at < |log|
    ensures Target(log[..|log| - 1], since, at) + [log[|log| - 1]] == Target(log, since, at)
  {
    var settled := log[..|log| - 1];
    assert log[..at] == settled[..at];
    assert log[since..] == settled[since..] + [log[|log| - 1]];
  }

  lemma ReadyClientGetsLine(log: seq<Entry>, c: Client, message: Message)
    requires log != [] && c.delivery.Some? && c.delivery.value.ready
    requires message == Chat(log[|log| - 1])
    requires StreamInv(log, true, Bystander, c)
    ensures var o := Offer(c.delivery.value, c.channel, message);
            !o.doomed ==> Chats(o.channel.Sent()) == Target(log, c.since, c.replayedAt.value)
  {
    var o := Offer(c.delivery.value, c.channel, message);
    if !o.doomed {
      SendAppends(c.channel, message);
      ChatsAppend(c.channel.Sent(), message);
      TargetGrows(log, c.since, c.replayedAt.value);
    }
  }

  lemma PendingClientKeepsLine(log: seq<Entry>, c: Client, message: Message)
    requires log != [] && c.delivery.Some? && !c.delivery.value.ready
    requires message == Chat(log[|log| - 1])
    requires StreamInv(log, true, Bystander, c)
    ensures var o := Offer(c.delivery.value, c.channel, message);
            !o.doomed && c.replayedAt.None? ==> Chats(o.delivery.pending) == log[c.since..]
  {
    ChatsAppend(c.delivery.value.pending, message);
    assert log[c.since..] == log[..|log| - 1][c.since..] + [message.entry];
  }

  /** Offering the last recorded line to a client that lacked it leaves the client doomed or level. */
  lemma OfferKeepsStream(log: seq<Entry>, c: Client, message: Message)
    requires log != [] && c.delivery.Some?
    requires message == Chat(log[|log| - 1])
    requires StreamInv(log, true, Bystander, c)
    ensures var o := Offer(c.delivery.value, c.channel, message);
            StreamInv(log, o.doomed, Bystander, c.(delivery := Some(o.delivery), channel := o.channel))
  {
    if c.delivery.value.ready {
      ReadyClientGetsLine(log, c, message);
    } else {
      PendingClientKeepsLine(log, c, message);
    }
  }

  lemma PresenceAddsNoChat(d: ClientDelivery<Message>, channel: Channel<Message>, message: Message)
    requires message.Presence?
    ensures var o := Offer(d, channel, message);
            && Chats(o.channel.Sent()) == Chats(channel.Sent())
            && Chats(o.delivery.pending) == Chats(d.pending)
  {
    SendAppends(channel, message);
    ChatsAppend(channel.Sent(), message);
    ChatsAppend(d.pending, message);
  }

  lemma PresenceKeepsStream(log: seq<Entry>, behind: bool, role: Role, c: Client, message: Message)
    requires c.delivery.Some? && message.Presence? && !role.Releasing?
    requires StreamInv(log, behind, role, c)
    ensures var o := Offer(c.delivery.value, c.channel, message);
            StreamInv(log, behind, role, c.(delivery := Some(o.delivery), channel := o.channel))
  {
    PresenceAddsNoChat(c.delivery.value, c.channel, message);
  }

  lemma OfferToKeepsStream(w: World, t0: Token, t: Token)
    requires BaseAt(w, t) && OfferToStep(w, t0).Some?
    ensures StreamInvAt(OfferToStep(w, t0).value, t)
  {
    if t == t0 {
      var message, role := w.deliveriesLock.message, RoleOf(w.barrier, w.deliveriesLock, t);
      if message.Chat? {
        OfferKeepsStream(w.log, w.clients[t], message);
      } else {
        PresenceKeepsStream(w.log, Behind(w.barrier, w.deliveriesLock, t), role, w.clients[t], message);
      }
    }
  }

  lemma ReplayStep(w: World, s: Step, t: Token)
    requires BaseAt(w, t) && Next(w, s).Some? && IsReplayStep(s)
    ensures StreamInvAt(Next(w, s).value, t)
  {
    match s
    case ReplayBegin(t0) => ReplayBeginKeepsStream(w, t0, t);
    case ReplaySend => ReplaySendKeepsStream(w, t);
    case FlushBegin => FlushBeginKeepsStream(w, t);
    case FlushSend => FlushSendKeepsStream(w, t);
    case FlushEnd => FlushEndKeepsStream(w, t);
  }

  lemma OfferLoopKeepsStream(w: World, s: Step, t: Token)
    requires BaseAt(w, t) && Next(w, s).Some?
    requires s.PresenceBegin? || s.OfferEnd? || s.ChatOffer?
    ensures StreamInvAt(Next(w, s).value, t)
  {
  }

  lemma SkipGoneKeepsStream(w: World, t0: Token, t: Token)
    requires BaseAt(w, t) && SkipGoneStep(w, t0).Some?
    ensures StreamInvAt(SkipGoneStep(w, t0).value, t)
  {
  }

  lemma ChatEndKeepsStream(w: World, t: Token)
    requires BaseAt(w, t) && ChatEndStep(w).Some?
    ensures StreamInvAt(ChatEndStep(w).value, t)
  {
  }

  lemma StreamsStep(w: World, s: Step)
    requires BaseInv(w) && StreamsInv(w) && Next(w, s).Some?
    ensures StreamsInv(Next(w, s).value)
  {
    var w' := Next(w, s).value;
    forall t | t in w'.clients ensures StreamInvAt(w', t) {
      if IsEntryStep(s) || IsTaskStep(s) || IsRemovalStep(s) {
        if t in w.clients { QuietSteps(w, s, t); } else { FirstStep(w, s, t); }
      }
      else if IsReplayStep(s) { ReplayStep(w, s, t); }
      else if s.ChatBegin? { ChatBeginKeepsStream(w, s.t, s.byWriter, s.entry, t); }
      else if s.OfferTo? { OfferToKeepsStream(w, s.t, t); }
      else if s.SkipGone? { SkipGoneKeepsStream(w, s.t, t); }
      else if s.ChatEnd? { ChatEndKeepsStream(w, t); }
      else { OfferLoopKeepsStream(w, s, t); }
    }
  }
}
