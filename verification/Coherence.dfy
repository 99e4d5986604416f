/** What every step keeps of the two registries, the locks and the history buffer. */
module Coherence {
  import opened Common
  import opened Protocol

  /** The two rows of one client, given who holds the clients lock. */
  predicate RowsOk(lock: ClientsLock, t: Token, c: Client) {
    && (c.session.Some? ==> c.delivery.Some? && c.delivery.value.addr == c.session.value.addr)
    && (c.session.None? && c.delivery.Some? <==> lock.Taking? && lock.t == t)
    && (c.delivery.None? ==> c.disconnect)
    && (c.pc == Registered ==> c.writer == NotSpawned)
    && (lock == Taking(t, BySession) ==> c.pc == Ending)
    && (lock == Taking(t, ByWriter) ==> c.writer == Failed)
  }

  ghost predicate RowsInv(w: World) {
    && (forall t | t in w.clients :: RowsOk(w.clientsLock, t, w.clients[t]))
    && (w.clientsLock.Taking? ==> w.clientsLock.t in w.clients)
  }

  /** The task that holds the barrier for a broadcast is the one waiting for that broadcast. */
  predicate Speaking(c: Client, byWriter: bool) {
    if byWriter then c.writer == WriterPc.Leaving
    else c.pc == Joining || c.pc == Talking || c.pc == SessionPc.Leaving
  }

  /** What the holder of the barrier and the holder of the deliveries lock know about each other. */
  ghost predicate LocksInv(w: World) {
    && (w.barrier.Replay? ==> w.barrier.t in w.clients && w.clients[w.barrier.t].pc == Replaying)
    && (w.barrier.Broadcasting? ==>
        && w.barrier.author in w.clients && w.log != []
        && Speaking(w.clients[w.barrier.author], w.barrier.byWriter)
        && (w.barrier.stage.Dooming? ==> w.barrier.stage.doomed <= w.clients.Keys))
    && (w.barrier.Broadcasting? && w.barrier.stage == Offering <==>
        w.deliveriesLock.Delivering? && w.deliveriesLock.message.Chat?)
    && (w.deliveriesLock.Delivering? && w.deliveriesLock.message.Chat? ==>
        w.deliveriesLock.message.entry == w.log[|w.log| - 1])
    && (w.deliveriesLock.Delivering? ==>
        && w.deliveriesLock.doomed <= w.clients.Keys
        && w.deliveriesLock.todo !! w.deliveriesLock.doomed
        && forall t | t in w.deliveriesLock.todo :: t in w.clients && w.clients[t].delivery.Some?)
    && (w.deliveriesLock.Flushing? ==>
        && w.barrier == Replay(w.deliveriesLock.t, [])
        && w.clients[w.deliveriesLock.t].delivery.Some?)
  }

  predicate HistoryInv(w: World) {
    w.history == Recent(w.log)
  }

  lemma HistoryStep(w: World, s: Step)
    requires HistoryInv(w) && Next(w, s).Some?
    ensures HistoryInv(Next(w, s).value)
  {
    if s.ChatBegin? { PushKeepsLast(w.log, s.entry, MESSAGE_HISTORY_LIMIT); }
  }

  /** Steps of single tasks that take at most the clients lock. */
  predicate IsTaskStep(s: Step) {
    s.SetJoined? || s.SessionStop? || s.SessionQuit? || s.Write? || s.WriterQuit?
  }

  predicate IsEntryStep(s: Step) {
    s.Register? || s.SetUsername?
  }

  predicate IsRemovalStep(s: Step) {
    s.RemoveBegin? || s.RemoveMiss? || s.RemoveEnd?
  }

  predicate IsReplayStep(s: Step) {
    s.ReplayBegin? || s.ReplaySend? || s.FlushBegin? || s.FlushSend? || s.FlushEnd?
  }

  predicate IsBroadcastStep(s: Step) {
    !IsEntryStep(s) && !IsTaskStep(s) && !IsRemovalStep(s) && !IsReplayStep(s)
  }

  /** A move of one client's tasks that does not concern the holders of the two locks. */
  lemma LocksOneClient(w: World, t: Token, c: Client)
    requires LocksInv(w) && t in w.clients
    requires w.clients[t].delivery.Some? ==> c.delivery.Some?
    requires w.clients[t].pc == Replaying ==> c.pc == Replaying
    requires forall byWriter :: Speaking(w.clients[t], byWriter) ==> Speaking(c, byWriter)
    ensures LocksInv(Put(w, t, c))
  {
  }

  lemma LocksEntryStep(w: World, s: Step)
    requires RowsInv(w) && LocksInv(w) && Next(w, s).Some? && IsEntryStep(s)
    ensures LocksInv(Next(w, s).value)
  {
  }

  lemma LocksTaskStep(w: World, s: Step)
    requires RowsInv(w) && LocksInv(w) && Next(w, s).Some? && IsTaskStep(s)
    ensures LocksInv(Next(w, s).value)
  {
    LocksOneClient(w, s.t, Next(w, s).value.clients[s.t]);
  }

  lemma LocksRemovalStep(w: World, s: Step)
    requires RowsInv(w) && LocksInv(w) && Next(w, s).Some? && IsRemovalStep(s)
    ensures LocksInv(Next(w, s).value)
  {
  }

  lemma LocksReplayStep(w: World, s: Step)
    requires RowsInv(w) && LocksInv(w) && Next(w, s).Some? && IsReplayStep(s)
    ensures LocksInv(Next(w, s).value)
  {
  }

  lemma LocksBroadcastStep(w: World, s: Step)
    requires RowsInv(w) && LocksInv(w) && Next(w, s).Some? && IsBroadcastStep(s)
    ensures LocksInv(Next(w, s).value)
  {
  }

  lemma LocksStep(w: World, s: Step)
    requires RowsInv(w) && LocksInv(w) && Next(w, s).Some?
    ensures LocksInv(Next(w, s).value)
  {
    if IsEntryStep(s) { LocksEntryStep(w, s); }
    else if IsTaskStep(s) { LocksTaskStep(w, s); }
    else if IsRemovalStep(s) { LocksRemovalStep(w, s); }
    else if IsReplayStep(s) { LocksReplayStep(w, s); }
    else { LocksBroadcastStep(w, s); }
  }

  lemma RowsEntryStep(w: World, s: Step)
    requires RowsInv(w) && LocksInv(w) && Next(w, s).Some? && IsEntryStep(s)
    ensures RowsInv(Next(w, s).value)
  {
  }

  lemma RowsTaskStep(w: World, s: Step)
    requires RowsInv(w) && LocksInv(w) && Next(w, s).Some? && IsTaskStep(s)
    ensures RowsInv(Next(w, s).value)
  {
  }

  lemma RowsRemovalStep(w: World, s: Step)
    requires RowsInv(w) && LocksInv(w) && Next(w, s).Some? && IsRemovalStep(s)
    ensures RowsInv(Next(w, s).value)
  {
  }

  lemma RowsFlushSend(w: World)
    requires RowsInv(w) && LocksInv(w) && FlushSendStep(w).Some?
    ensures RowsInv(FlushSendStep(w).value)
  {
  }

  lemma RowsReplayStep(w: World, s: Step)
    requires RowsInv(w) && LocksInv(w) && Next(w, s).Some? && IsReplayStep(s) && !s.FlushSend?
    ensures RowsInv(Next(w, s).value)
  {
  }

  lemma RowsChatBegin(w: World, t: Token, byWriter: bool, entry: Entry)
    requires RowsInv(w) && LocksInv(w) && ChatBeginStep(w, t, byWriter, entry).Some?
    ensures RowsInv(ChatBeginStep(w, t, byWriter, entry).value)
  {
  }

  lemma RowsOfferStep(w: World, s: Step)
    requires RowsInv(w) && LocksInv(w) && Next(w, s).Some? && IsBroadcastStep(s)
    requires !s.ChatBegin? && !s.SkipGone? && !s.ChatEnd?
    ensures RowsInv(Next(w, s).value)
  {
  }

  lemma RowsDoomStep(w: World, s: Step)
    requires RowsInv(w) && LocksInv(w) && Next(w, s).Some? && (s.SkipGone? || s.ChatEnd?)
    ensures RowsInv(Next(w, s).value)
  {
  }

  lemma RowsStep(w: World, s: Step)
    requires RowsInv(w) && LocksInv(w) && Next(w, s).Some?
    ensures RowsInv(Next(w, s).value)
  {
    if IsEntryStep(s) { RowsEntryStep(w, s); }
    else if IsTaskStep(s) { RowsTaskStep(w, s); }
    else if IsRemovalStep(s) { RowsRemovalStep(w, s); }
    else if s.FlushSend? { RowsFlushSend(w); }
    else if IsReplayStep(s) { RowsReplayStep(w, s); }
    else if s.ChatBegin? { RowsChatBegin(w, s.t, s.byWriter, s.entry); }
    else if s.SkipGone? || s.ChatEnd? { RowsDoomStep(w, s); }
    else { RowsOfferStep(w, s); }
  }
}
