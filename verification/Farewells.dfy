/**
  When a leave is announced. A removal by any task but the client's own is silent, so a join need
  not be followed by a leave; this accounts for every removal of a client over whole runs.
 */
module Farewells {
  import opened Common
  import opened Protocol
  import opened Coherence
  import opened Announcements
  import opened ServerRuns
  import opened Duplicates

  /** Whether the client is taken out by its own session or writer. */
  predicate IsOwnRemoval(s: Step, t: Token) {
    s.RemoveBegin? && s.t == t && s.caller != ByOther
  }

  /** Whether the task that took the client out finds it not joined, and so announces nothing. */
  predicate IsSilentQuit(w: World, s: Step, t: Token) {
    && t in w.clients && !w.clients[t].joined
    && (|| (s == SessionQuit(t) && w.clients[t].pc == SessionPc.Removed)
        || (s == WriterQuit(t) && w.clients[t].writer == WriterPc.Removed))
  }

  function OwnRemovals(steps: seq<Step>, t: Token): nat {
    if steps == [] then 0
    else
      var front, last := steps[..|steps| - 1], steps[|steps| - 1];
      OwnRemovals(front, t) + if IsOwnRemoval(last, t) then 1 else 0
  }

  function SilentQuits(steps: seq<Step>, t: Token): nat {
    if steps == [] then 0
    else
      var front, last := steps[..|steps| - 1], steps[|steps| - 1];
      SilentQuits(front, t) + if Run(front).Some? && IsSilentQuit(Run(front).value, last, t) then 1 else 0
  }

  /** Removals by the client's own tasks whose outcome is still open. */
  function Owed(lock: ClientsLock, t: Token, c: Client): nat {
    (if lock == Taking(t, BySession) || lock == Taking(t, ByWriter) then 1 else 0)
    + (if c.pc == SessionPc.Removed then 1 else 0)
    + (if c.writer == WriterPc.Removed then 1 else 0)
  }

  function OwedIn(w: World, t: Token): nat {
    if t in w.clients then Owed(w.clientsLock, t, w.clients[t]) else 0
  }

  /** A step moves one own removal on, from begun to owed to announced or given up. */
  predicate Accounted(w: World, s: Step, w': World, t: Token) {
    OwedIn(w', t) + Leaves(w'.log, t) + (if IsSilentQuit(w, s, t) then 1 else 0)
    == OwedIn(w, t) + Leaves(w.log, t) + if IsOwnRemoval(s, t) then 1 else 0
  }

  lemma EntryAccounted(w: World, s: Step, t: Token)
    requires RowsInv(w) && Next(w, s).Some? && IsEntryStep(s)
    ensures Accounted(w, s, Next(w, s).value, t)
  {
  }

  lemma TaskAccounted(w: World, s: Step, t: Token)
    requires Next(w, s).Some? && IsTaskStep(s)
    ensures Accounted(w, s, Next(w, s).value, t)
  {
  }

  lemma RemovalAccounted(w: World, s: Step, t: Token)
    requires RowsInv(w) && Next(w, s).Some? && IsRemovalStep(s)
    ensures Accounted(w, s, Next(w, s).value, t)
  {
  }

  lemma HistoryAccounted(w: World, s: Step, t: Token)
    requires LocksInv(w) && Next(w, s).Some? && (s.ReplayBegin? || s.ReplaySend?)
    ensures Accounted(w, s, Next(w, s).value, t)
  {
  }

  lemma FlushAccounted(w: World, s: Step, t: Token)
    requires LocksInv(w) && Next(w, s).Some? && (s.FlushBegin? || s.FlushSend? || s.FlushEnd?)
    ensures Accounted(w, s, Next(w, s).value, t)
  {
  }

  lemma ChatBeginAccounted(w: World, t0: Token, byWriter: bool, entry: Entry, t: Token)
    requires ChatBeginStep(w, t0, byWriter, entry).Some?
    ensures Accounted(w, ChatBegin(t0, byWriter, entry), ChatBeginStep(w, t0, byWriter, entry).value, t)
  {
    CountsGrow(w.log, entry, t);
  }

  lemma BroadcastAccounted(w: World, s: Step, t: Token)
    requires LocksInv(w) && Next(w, s).Some? && IsBroadcastStep(s) && !s.ChatBegin?
    ensures Accounted(w, s, Next(w, s).value, t)
  {
  }

  lemma NextAccounted(w: World, s: Step, t: Token)
    requires Inv(w) && Next(w, s).Some?
    ensures Accounted(w, s, Next(w, s).value, t)
  {
    if IsEntryStep(s) { EntryAccounted(w, s, t); }
    else if IsTaskStep(s) { TaskAccounted(w, s, t); }
    else if IsRemovalStep(s) { RemovalAccounted(w, s, t); }
    else if s.ReplayBegin? || s.ReplaySend? { HistoryAccounted(w, s, t); }
    else if IsReplayStep(s) { FlushAccounted(w, s, t); }
    else if s.ChatBegin? { ChatBeginAccounted(w, s.t, s.byWriter, s.entry, t); }
    else { BroadcastAccounted(w, s, t); }
  }

  /** Every removal by a client's own tasks is owed, was announced, or was given up. */
  lemma {:induction false} EveryOwnRemovalIsAccounted(steps: seq<Step>, t: Token)
    requires Run(steps).Some?
    ensures var w := Run(steps).value;
            OwnRemovals(steps, t) == OwedIn(w, t) + Leaves(w.log, t) + SilentQuits(steps, t)
  {
    if steps != [] {
      var front := steps[..|steps| - 1];
      EveryOwnRemovalIsAccounted(front, t);
      RunKeepsInv(front);
      NextAccounted(Run(front).value, steps[|steps| - 1], t);
    }
  }

  /**
    Once a client's tasks are over, its leave was announced iff one of those tasks took it out and
    did not give up the leave, which it does only if it finds the client not joined.
   */
  lemma LeaveIffOwnRemovalAnnounced(steps: seq<Step>, t: Token)
    requires Run(steps).Some?
    requires var w := Run(steps).value;
             && t in w.clients && w.clients[t].pc == SessionPc.Done && w.clients[t].writer != WriterPc.Removed
             && !(w.clientsLock.Taking? && w.clientsLock.t == t)
    ensures Leaves(Run(steps).value.log, t) == 1 <==> OwnRemovals(steps, t) == 1 && SilentQuits(steps, t) == 0
    ensures Leaves(Run(steps).value.log, t) == 0 <==> OwnRemovals(steps, t) == SilentQuits(steps, t)
  {
    var w := Run(steps).value;
    EveryOwnRemovalIsAccounted(steps, t);
    RunKeepsInv(steps);
    assert SpeechAt(w, t);
    assert w.log[..|w.log|] == w.log;
    RemovedExactlyOnce(steps, t);
    OwnRemovalsAreRemovals(steps, t);
  }

  lemma {:induction false} OwnRemovalsAreRemovals(steps: seq<Step>, t: Token)
    ensures OwnRemovals(steps, t) <= Removals(steps, t)
  {
    if steps != [] { OwnRemovalsAreRemovals(steps[..|steps| - 1], t); }
  }

  // ---- Removals that the session wins ---------------------------------------------------------

  function SessionRemovals(steps: seq<Step>, t: Token): nat {
    if steps == [] then 0
    else
      var front, last := steps[..|steps| - 1], steps[|steps| - 1];
      SessionRemovals(front, t) + if last == RemoveBegin(t, BySession) then 1 else 0
  }

  /** Where a client is after its session began to take it out: only the session is left to speak. */
  predicate SessionWon(lock: ClientsLock, t: Token, c: Client, leaves: nat) {
    && c.session.None? && c.writer != WriterPc.Removed && lock != Taking(t, ByWriter)
    && (|| (lock == Taking(t, BySession) && c.pc == Ending && leaves == 0)
        || (lock != Taking(t, BySession) && c.pc == SessionPc.Removed && leaves == 0)
        || (lock != Taking(t, BySession) && c.pc == SessionPc.Leaving && c.joined && leaves == 1)
        || (lock != Taking(t, BySession) && c.pc == SessionPc.Done && leaves == if c.joined then 1 else 0))
  }

  predicate SessionWonIn(w: World, t: Token) {
    t in w.clients && SessionWon(w.clientsLock, t, w.clients[t], Leaves(w.log, t))
  }

  lemma BeginsToWin(w: World, t: Token)
    requires SpeechAt(w, t) && RowsInv(w) && RemoveBeginStep(w, t, BySession).Some?
    ensures SessionWonIn(RemoveBeginStep(w, t, BySession).value, t)
  {
  }

  lemma EntryKeepsWin(w: World, s: Step, t: Token)
    requires SessionWonIn(w, t) && Next(w, s).Some? && IsEntryStep(s)
    ensures SessionWonIn(Next(w, s).value, t)
  {
  }

  lemma TaskKeepsWin(w: World, s: Step, t: Token)
    requires SessionWonIn(w, t) && Next(w, s).Some? && IsTaskStep(s)
    ensures SessionWonIn(Next(w, s).value, t)
  {
  }

  lemma RemovalKeepsWin(w: World, s: Step, t: Token)
    requires RowsInv(w) && SessionWonIn(w, t) && Next(w, s).Some? && IsRemovalStep(s)
    ensures SessionWonIn(Next(w, s).value, t)
  {
  }

  lemma FlushSendKeepsWin(w: World, t: Token)
    requires LocksInv(w) && SessionWonIn(w, t) && FlushSendStep(w).Some?
    ensures SessionWonIn(FlushSendStep(w).value, t)
  {
  }

  lemma ReplayKeepsWin(w: World, s: Step, t: Token)
    requires LocksInv(w) && SessionWonIn(w, t) && Next(w, s).Some? && IsReplayStep(s) && !s.FlushSend?
    ensures SessionWonIn(Next(w, s).value, t)
  {
  }

  lemma ChatBeginKeepsWin(w: World, t0: Token, byWriter: bool, entry: Entry, t: Token)
    requires SessionWonIn(w, t) && ChatBeginStep(w, t0, byWriter, entry).Some?
    ensures SessionWonIn(ChatBeginStep(w, t0, byWriter, entry).value, t)
  {
    CountsGrow(w.log, entry, t);
  }

  lemma BroadcastKeepsWin(w: World, s: Step, t: Token)
    requires LocksInv(w) && SessionWonIn(w, t) && Next(w, s).Some? && IsBroadcastStep(s) && !s.ChatBegin?
    ensures SessionWonIn(Next(w, s).value, t)
  {
  }

  lemma NextKeepsWin(w: World, s: Step, t: Token)
    requires Inv(w) && SessionWonIn(w, t) && Next(w, s).Some?
    ensures SessionWonIn(Next(w, s).value, t)
  {
    if IsEntryStep(s) { EntryKeepsWin(w, s, t); }
    else if IsTaskStep(s) { TaskKeepsWin(w, s, t); }
    else if IsRemovalStep(s) { RemovalKeepsWin(w, s, t); }
    else if s.FlushSend? { FlushSendKeepsWin(w, t); }
    else if IsReplayStep(s) { ReplayKeepsWin(w, s, t); }
    else if s.ChatBegin? { ChatBeginKeepsWin(w, s.t, s.byWriter, s.entry, t); }
    else { BroadcastKeepsWin(w, s, t); }
  }

  lemma NextWins(w: World, s: Step, t: Token)
    requires Inv(w) && Next(w, s).Some? && (s == RemoveBegin(t, BySession) || SessionWonIn(w, t))
    ensures SessionWonIn(Next(w, s).value, t)
  {
    if s == RemoveBegin(t, BySession) {
      assert SpeechAt(w, t);
      BeginsToWin(w, t);
    } else {
      NextKeepsWin(w, s, t);
    }
  }

  lemma {:induction false} RemovalBySessionWins(steps: seq<Step>, t: Token)
    requires Run(steps).Some? && SessionRemovals(steps, t) > 0
    ensures SessionWonIn(Run(steps).value, t)
  {
    var front, last := steps[..|steps| - 1], steps[|steps| - 1];
    RunKeepsInv(front);
    if last != RemoveBegin(t, BySession) { RemovalBySessionWins(front, t); }
    NextWins(Run(front).value, last, t);
  }

  /** A session that took its client out ends with a leave announced iff the client had joined. */
  lemma SessionLeavesIffJoined(steps: seq<Step>, t: Token)
    requires Run(steps).Some? && SessionRemovals(steps, t) > 0
    ensures var w := Run(steps).value;
            && t in w.clients
            && (w.clients[t].pc == SessionPc.Done ==> (Leaves(w.log, t) == 1 <==> w.clients[t].joined))
            && (w.clients[t].pc == SessionPc.Done ==> (Leaves(w.log, t) == 0 <==> !w.clients[t].joined))
  {
    RemovalBySessionWins(steps, t);
  }

  // ---- A join without a leave -----------------------------------------------------------------

  lemma TakeOut(w: World, t: Token) returns (w': World)
    requires Reachable(w) && t in w.clients && w.clients[t].session.Some?
    requires w.clientsLock == ClientsFree && w.deliveriesLock == DeliveriesFree
    ensures Reachable(w') && w'.log == w.log && w'.barrier == w.barrier && w'.clientsLock == ClientsFree
    ensures t in w'.clients
            && w'.clients[t] == w.clients[t].(session := None, delivery := None, disconnect := true)
  {
    var w1 := RemoveBeginStep(w, t, ByOther).value;
    LeadsNext(START, w, RemoveBegin(t, ByOther), w1);
    w' := RemoveEndStep(w1).value;
    LeadsNext(START, w1, RemoveEnd, w');
  }

  lemma EndSession(from: World, w: World, t: Token) returns (w': World)
    requires Leads(from, w) && t in w.clients && w.clientsLock == ClientsFree
    requires w.clients[t].session.None? && w.clients[t].pc == Chatting
    ensures Leads(from, w') && w'.log == w.log && w'.barrier == w.barrier
    ensures t in w'.clients && w'.clients[t] == w.clients[t].(pc := SessionPc.Done)
  {
    var w1 := SessionStopStep(w, t).value;
    LeadsNext(from, w, SessionStop(t), w1);
    w' := RemoveMissStep(w1, t, BySession).value;
    LeadsNext(from, w1, RemoveMiss(t, BySession), w');
  }

  lemma EndWriter(w: World, t: Token) returns (w': World)
    requires Reachable(w) && t in w.clients && !w.barrier.Replay?
    requires var c := w.clients[t]; c.writer == Writing && c.delivery.None? && |c.channel.queue| == 1
    ensures Reachable(w') && w'.log == w.log
    ensures t in w'.clients && w'.clients[t].joined == w.clients[t].joined
    ensures w'.clients[t].pc == w.clients[t].pc && w'.clients[t].writer == Stopped
  {
    var w1 := WriteStep(w, t, true).value;
    LeadsNext(START, w, Write(t, true), w1);
    w' := WriterQuitStep(w1, t).value;
    LeadsNext(START, w1, WriterQuit(t), w');
  }

  /** A client that joined, was taken out by another task, and is gone without a leave. */
  lemma JoinWithoutLeave()
    ensures exists w ::
              && Reachable(w) && 0 in w.clients
              && w.clients[0].joined && w.clients[0].pc == SessionPc.Done && w.clients[0].writer == Stopped
              && Joins(w.log, 0) == 1 && Leaves(w.log, 0) == 0
  {
    ReachJoinOffered();
    FinishJoin(START);
    var w1 := SetJoinedStep(JOIN_RECORDED, 0).value;
    LeadsNext(START, JOIN_RECORDED, SetJoined(0), w1);
    var w2 := TakeOut(w1, 0);
    var w3 := EndSession(START, w2, 0);
    var w4 := EndWriter(w3, 0);
    assert w4.log == [Join(0)];
    assert Joins(w4.log, 0) == 1 && Leaves(w4.log, 0) == 0;
  }

  lemma WriterTakesOut(w: World, t: Token) returns (w': World)
    requires Reachable(w) && t in w.clients && w.clients[t].session.Some? && w.clients[t].writer == Failed
    requires w.clientsLock == ClientsFree && w.deliveriesLock == DeliveriesFree
    ensures Reachable(w') && w'.log == w.log && w'.barrier == w.barrier && w'.clientsLock == ClientsFree
    ensures t in w'.clients
    ensures w'.clients[t]
            == w.clients[t].(session := None, delivery := None, disconnect := true, writer := WriterPc.Removed)
  {
    var w1 := RemoveBeginStep(w, t, ByWriter).value;
    LeadsNext(START, w, RemoveBegin(t, ByWriter), w1);
    w' := RemoveEndStep(w1).value;
    LeadsNext(START, w1, RemoveEnd, w');
  }

  /** The writer has taken its client out, after the join's broadcast and before `joined` is set. */
  predicate WriterWonEarly(w: World) {
    && 0 in w.clients && w.log == [Join(0)] && w.clientsLock == ClientsFree
    && w.clients[0].writer == WriterPc.Removed && w.clients[0].pc == Announced
    && !w.clients[0].joined && w.clients[0].session.None?
  }

  lemma WriterWins() returns (w: World)
    ensures Reachable(w) && WriterWonEarly(w)
  {
    ReachJoinOffered();
    FinishJoin(START);
    var w1 := WriteStep(JOIN_RECORDED, 0, false).value;
    LeadsNext(START, JOIN_RECORDED, Write(0, false), w1);
    w := WriterTakesOut(w1, 0);
  }

  lemma JoinsInVain(w: World) returns (w': World)
    requires WriterWonEarly(w)
    ensures Leads(w, w') && w'.log == w.log
    ensures 0 in w'.clients && w'.clients[0].joined && w'.clients[0].pc == SessionPc.Done
    ensures w'.clients[0].writer == Stopped
  {
    LeadsNowhere(w);
    var w1 := WriterQuitStep(w, 0).value;
    LeadsNext(w, w, WriterQuit(0), w1);
    var w2 := SetJoinedStep(w1, 0).value;
    LeadsNext(w, w1, SetJoined(0), w2);
    w' := EndSession(w, w2, 0);
  }

  /** A writer that wins the removal too early to see `joined` lets a joined client go without a leave. */
  lemma WriterWinsBeforeJoined()
    ensures exists w0, w ::
              && Reachable(w0) && WriterWonEarly(w0) && Leads(w0, w)
              && 0 in w.clients && w.clients[0].joined
              && w.clients[0].pc == SessionPc.Done && w.clients[0].writer == Stopped
              && Joins(w.log, 0) == 1 && Leaves(w.log, 0) == 0
  {
    var w0 := WriterWins();
    var w := JoinsInVain(w0);
    assert Joins(w.log, 0) == 1 && Leaves(w.log, 0) == 0;
  }
}
