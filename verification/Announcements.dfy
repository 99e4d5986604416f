/** Who may announce a leave: the right to do so exists at most once per client. */
module Announcements {
  import opened Common
  import opened Protocol
  import opened Coherence

  function Joins(log: seq<Entry>, t: Token): nat {
    multiset(log)[Join(t)]
  }

  function Leaves(log: seq<Entry>, t: Token): nat {
    multiset(log)[Entry.Leave(t)]
  }

  /**
    The ways in which a leave of `t` may still come about: the session row is there to be taken, a
    session or writer is taking it, or has taken it and not announced it yet.
   */
  function Tickets(lock: ClientsLock, t: Token, c: Client): nat {
    (if c.session.Some? then 1 else 0)
    + (if lock == Taking(t, BySession) || lock == Taking(t, ByWriter) then 1 else 0)
    + (if c.pc == SessionPc.Removed then 1 else 0)
    + (if c.writer == WriterPc.Removed then 1 else 0)
  }

  predicate BeforeJoin(pc: SessionPc) {
    pc == Registered || pc == Waiting || pc == Replaying || pc == Replayed
  }

  predicate AfterJoin(pc: SessionPc) {
    pc == Joining || pc == Announced || pc == Chatting || pc == Talking
  }

  predicate AnnounceOk(joins: nat, leaves: nat, tickets: nat, c: Client) {
    && joins <= 1
    && (BeforeJoin(c.pc) ==> joins == 0 && !c.joined)
    && (AfterJoin(c.pc) ==> joins == 1)
    && (c.joined ==> joins == 1)
    && leaves + tickets <= 1
  }

  /** In every prefix of the log a client leaves at most as often as it joined, that is once. */
  ghost predicate LeavesFollowJoins(log: seq<Entry>, t: Token) {
    forall p | 0 <= p <= |log| :: Leaves(log[..p], t) <= Joins(log[..p], t) <= 1
  }

  /** A client says nothing before its join. */
  ghost predicate JoinsBeforeSpeaking(log: seq<Entry>, t: Token) {
    forall p | 0 <= p < |log| && log[p].Say? && log[p].who == t :: Joins(log[..p], t) == 1
  }

  ghost predicate SpeechAt(w: World, t: Token) {
    && (t in w.clients ==>
        AnnounceOk(Joins(w.log, t), Leaves(w.log, t), Tickets(w.clientsLock, t, w.clients[t]), w.clients[t]))
    && (t !in w.clients ==> Joins(w.log, t) == Leaves(w.log, t) == 0)
    && LeavesFollowJoins(w.log, t)
    && JoinsBeforeSpeaking(w.log, t)
  }

  ghost predicate SpeechInv(w: World) {
    forall t: Token :: SpeechAt(w, t)
  }

  lemma CountsGrow(log: seq<Entry>, e: Entry, t: Token)
    ensures Joins(log + [e], t) == Joins(log, t) + if e == Join(t) then 1 else 0
    ensures Leaves(log + [e], t) == Leaves(log, t) + if e == Entry.Leave(t) then 1 else 0
  {
  }

  lemma OrderGrows(log: seq<Entry>, e: Entry, t: Token)
    requires LeavesFollowJoins(log, t) && JoinsBeforeSpeaking(log, t)
    requires Leaves(log + [e], t) <= Joins(log + [e], t) <= 1
    requires e.Say? && e.who == t ==> Joins(log, t) == 1
    ensures LeavesFollowJoins(log + [e], t) && JoinsBeforeSpeaking(log + [e], t)
  {
    var longer := log + [e];
    forall p | 0 <= p <= |longer| ensures Leaves(longer[..p], t) <= Joins(longer[..p], t) <= 1 {
      if p <= |log| { assert longer[..p] == log[..p]; } else { assert longer[..p] == longer; }
    }
    forall p | 0 <= p < |longer| && longer[p].Say? && longer[p].who == t
      ensures Joins(longer[..p], t) == 1
    {
      assert longer[..p] == log[..p];
      if p == |log| { assert log[..p] == log; }
    }
  }

  /** Recording a line uses up the speaker's right to it, and the line comes in its order. */
  lemma SpeakingInTurn(c: Client, t: Token, byWriter: bool, entry: Entry, lock: ClientsLock, joins: nat, leaves: nat)
    requires AnnounceOk(joins, leaves, Tickets(lock, t, c), c)
    requires Speak(c, t, byWriter, entry).Some?
    ensures var joins' := joins + if entry == Join(t) then 1 else 0;
            var leaves' := leaves + if entry == Entry.Leave(t) then 1 else 0;
            var c' := Speak(c, t, byWriter, entry).value;
            && AnnounceOk(joins', leaves', Tickets(lock, t, c'), c')
            && (entry == Entry.Leave(t) ==> leaves' <= joins')
            && (entry.Say? ==> joins == 1)
            && entry.who == t
  {
  }

  lemma SpeechChatBegin(w: World, t0: Token, byWriter: bool, entry: Entry, t: Token)
    requires SpeechAt(w, t) && SpeechAt(w, t0) && ChatBeginStep(w, t0, byWriter, entry).Some?
    ensures SpeechAt(ChatBeginStep(w, t0, byWriter, entry).value, t)
  {
    SpeakingInTurn(w.clients[t0], t0, byWriter, entry, w.clientsLock, Joins(w.log, t0), Leaves(w.log, t0));
    CountsGrow(w.log, entry, t);
    assert w.log[..|w.log|] == w.log;
    OrderGrows(w.log, entry, t);
  }

  /** A step that opens no new way to announce, seen from one client. */
  predicate Calm(lock: ClientsLock, c: Client, lock': ClientsLock, c': Client, t: Token) {
    && Tickets(lock', t, c') <= Tickets(lock, t, c)
    && (BeforeJoin(c'.pc) ==> BeforeJoin(c.pc) && c'.joined == c.joined)
    && (AfterJoin(c'.pc) ==> AfterJoin(c.pc))
    && (c'.joined ==> c.joined || AfterJoin(c.pc))
  }

  /** Every step but the recording of a line is calm for every client already there. */
  predicate CalmStep(w: World, w': World, t: Token) {
    && w'.log == w.log
    && (t in w.clients ==>
        t in w'.clients && Calm(w.clientsLock, w.clients[t], w'.clientsLock, w'.clients[t], t))
    && (t !in w.clients && t in w'.clients ==>
        Tickets(w'.clientsLock, t, w'.clients[t]) <= 1 && !AfterJoin(w'.clients[t].pc) && !w'.clients[t].joined)
  }

  lemma CalmKeepsSpeech(w: World, w': World, t: Token)
    requires SpeechAt(w, t) && CalmStep(w, w', t)
    ensures SpeechAt(w', t)
  {
  }

  lemma EntryIsCalm(w: World, s: Step, t: Token)
    requires RowsInv(w) && Next(w, s).Some? && IsEntryStep(s)
    ensures CalmStep(w, Next(w, s).value, t)
  {
  }

  lemma SessionIsCalm(w: World, s: Step, t: Token)
    requires Next(w, s).Some? && (s.SetJoined? || s.SessionStop? || s.SessionQuit?)
    ensures CalmStep(w, Next(w, s).value, t)
  {
  }

  lemma WriterIsCalm(w: World, s: Step, t: Token)
    requires Next(w, s).Some? && (s.Write? || s.WriterQuit?)
    ensures CalmStep(w, Next(w, s).value, t)
  {
  }

  lemma RemovalIsCalm(w: World, s: Step, t: Token)
    requires Next(w, s).Some? && IsRemovalStep(s)
    ensures CalmStep(w, Next(w, s).value, t)
  {
  }

  lemma HistoryIsCalm(w: World, s: Step, t: Token)
    requires LocksInv(w) && Next(w, s).Some? && (s.ReplayBegin? || s.ReplaySend?)
    ensures CalmStep(w, Next(w, s).value, t)
  {
  }

  lemma FlushSendIsCalm(w: World, t: Token)
    requires LocksInv(w) && FlushSendStep(w).Some?
    ensures CalmStep(w, FlushSendStep(w).value, t)
  {
  }

  lemma FlushIsCalm(w: World, s: Step, t: Token)
    requires LocksInv(w) && Next(w, s).Some? && (s.FlushBegin? || s.FlushEnd?)
    ensures CalmStep(w, Next(w, s).value, t)
  {
  }

  lemma BroadcastIsCalm(w: World, s: Step, t: Token)
    requires Next(w, s).Some? && IsBroadcastStep(s) && !s.ChatBegin?
    ensures CalmStep(w, Next(w, s).value, t)
  {
  }

  lemma SpeechStep(w: World, s: Step)
    requires RowsInv(w) && LocksInv(w) && SpeechInv(w) && Next(w, s).Some?
    ensures SpeechInv(Next(w, s).value)
  {
    var w' := Next(w, s).value;
    forall t: Token ensures SpeechAt(w', t) {
      if s.ChatBegin? {
        SpeechChatBegin(w, s.t, s.byWriter, s.entry, t);
      } else {
        if IsEntryStep(s) { EntryIsCalm(w, s, t); }
        else if s.Write? || s.WriterQuit? { WriterIsCalm(w, s, t); }
        else if IsTaskStep(s) { SessionIsCalm(w, s, t); }
        else if IsRemovalStep(s) { RemovalIsCalm(w, s, t); }
        else if s.ReplayBegin? || s.ReplaySend? { HistoryIsCalm(w, s, t); }
        else if s.FlushSend? { FlushSendIsCalm(w, t); }
        else if IsReplayStep(s) { FlushIsCalm(w, s, t); }
        else { BroadcastIsCalm(w, s, t); }
        CalmKeepsSpeech(w, w', t);
      }
    }
  }
}
