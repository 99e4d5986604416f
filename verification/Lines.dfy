/** What the recorded lines say: the text behind every entry of the log, and that it always fits a frame. */
module Lines {
  import opened Common
  import opened Protocol
  import opened Coherence
  import Text
  import opened Handshake
  import ServerRuns
  import ChatText

  /** The line that is recorded for an entry of a client with that name. */
  function Line(username: string, e: Entry): string {
    match e
    case Join(_) => JoinText(username)
    case Leave(_) => LeaveText(username)
    case Say(_, time, text) => ChatText.Format(username, time, text)
  }

  /** A client speaks under a name that a handshake accepted, and a recorded line is its own. */
  predicate EntryOk(clients: map<Token, Client>, e: Entry) {
    && e.who in clients && IsAccepted(clients[e.who].username)
    && (e.Say? ==> MaySay(e.time, e.text))
  }

  predicate NameOk(clients: map<Token, Client>, t: Token) {
    t in clients ==> IsAccepted(clients[t].username)
  }

  ghost predicate LinesOk(w: World) {
    && (forall t: Token :: NameOk(w.clients, t))
    && (forall i | 0 <= i < |w.log| :: EntryOk(w.clients, w.log[i]))
  }

  /** Clients stay, and keep their names. */
  predicate NameStays(w: World, w': World, t: Token) {
    if t in w.clients then t in w'.clients && w'.clients[t].username == w.clients[t].username
    else NameOk(w'.clients, t)
  }

  lemma ReplayKeepsName(w: World, s: Step, t: Token)
    requires Next(w, s).Some? && IsReplayStep(s)
    ensures Next(w, s).value.log == w.log && NameStays(w, Next(w, s).value, t)
  {
  }

  lemma BroadcastKeepsName(w: World, s: Step, t: Token)
    requires Next(w, s).Some? && IsBroadcastStep(s) && !s.ChatBegin?
    ensures Next(w, s).value.log == w.log && NameStays(w, Next(w, s).value, t)
  {
  }

  lemma TaskKeepsName(w: World, s: Step, t: Token)
    requires Next(w, s).Some? && IsTaskStep(s)
    ensures Next(w, s).value.log == w.log && NameStays(w, Next(w, s).value, t)
  {
  }

  lemma RowsKeepName(w: World, s: Step, t: Token)
    requires Next(w, s).Some? && (IsEntryStep(s) || IsRemovalStep(s))
    ensures Next(w, s).value.log == w.log && NameStays(w, Next(w, s).value, t)
  {
  }

  /** A line is recorded only by a client that is there, and only if the read loop lets it through. */
  lemma ChatBeginKeepsName(w: World, t0: Token, byWriter: bool, entry: Entry, t: Token)
    requires ChatBeginStep(w, t0, byWriter, entry).Some?
    ensures var w' := ChatBeginStep(w, t0, byWriter, entry).value;
            && w'.log == w.log + [entry] && NameStays(w, w', t)
            && entry.who in w.clients && (entry.Say? ==> MaySay(entry.time, entry.text))
  {
  }

  lemma NextKeepsName(w: World, s: Step, t: Token)
    requires Next(w, s).Some?
    ensures NameStays(w, Next(w, s).value, t)
    ensures Next(w, s).value.log == if s.ChatBegin? then w.log + [s.entry] else w.log
    ensures s.ChatBegin? ==> s.entry.who in w.clients && (s.entry.Say? ==> MaySay(s.entry.time, s.entry.text))
  {
    if IsReplayStep(s) { ReplayKeepsName(w, s, t); }
    else if IsTaskStep(s) { TaskKeepsName(w, s, t); }
    else if s.ChatBegin? { ChatBeginKeepsName(w, s.t, s.byWriter, s.entry, t); }
    else if IsBroadcastStep(s) { BroadcastKeepsName(w, s, t); }
    else { RowsKeepName(w, s, t); }
  }

  lemma NextKeepsLines(w: World, s: Step)
    requires LinesOk(w) && Next(w, s).Some?
    ensures LinesOk(Next(w, s).value)
  {
    var w' := Next(w, s).value;
    forall t: Token ensures NameOk(w'.clients, t) {
      assert NameOk(w.clients, t);
      NextKeepsName(w, s, t);
    }
    forall i | 0 <= i < |w'.log| ensures EntryOk(w'.clients, w'.log[i]) {
      var who := w'.log[i].who;
      NextKeepsName(w, s, who);
      assert NameOk(w'.clients, who);
      if i < |w.log| { assert EntryOk(w.clients, w.log[i]); }
    }
  }

  lemma {:induction false} RunKeepsLines(steps: seq<Step>)
    requires Run(steps).Some?
    ensures LinesOk(Run(steps).value)
  {
    if steps != [] {
      RunKeepsLines(steps[..|steps| - 1]);
      NextKeepsLines(Run(steps[..|steps| - 1]).value, steps[|steps| - 1]);
    }
  }

  /** A line of an accepted name is one that the server records. */
  lemma LineIsServerLine(username: string, e: Entry)
    requires IsAccepted(username) && (e.Say? ==> MaySay(e.time, e.text))
    ensures IsServerLine(Line(username, e))
  {
    if e.Say? {
      assert IsChatLineOf(Line(username, e), username);
    }
  }

  /**
    In every reachable state each line of the log, and so of the history, fits into a frame: as it
    is, with its end trimmed as joins and leaves are sent, and as the history keeps it.
   */
  lemma EveryRecordedLineFits(w: World, i: nat)
    requires Reachable(w) && i < |w.log|
    ensures w.log[i].who in w.clients
    ensures var line := Line(w.clients[w.log[i].who].username, w.log[i]);
            Fits(line) && Fits(Text.TrimEnd(line)) && Fits(Text.TrimNewlines(line))
  {
    var steps :| RunFrom(START, steps) == Some(w);
    assert Run(steps) == Some(w);
    RunKeepsLines(steps);
    assert EntryOk(w.clients, w.log[i]);
    var username := w.clients[w.log[i].who].username;
    LineIsServerLine(username, w.log[i]);
    ServerLineFits(Line(username, w.log[i]));
  }

  /** So every line that a replay takes from the history can be encoded. */
  lemma EveryHistoryLineFits(w: World, i: nat)
    requires Reachable(w) && i < |w.history|
    ensures w.history[i].who in w.clients
    ensures Fits(Text.TrimNewlines(Line(w.clients[w.history[i].who].username, w.history[i])))
  {
    ServerRuns.HistoryIsRecent(w);
    var n := |w.log| - |w.history| + i;
    assert w.history[i] == w.log[n];
    EveryRecordedLineFits(w, n);
  }

  /** Whatever a task may record next fits as well. */
  lemma EveryNextLineFits(w: World, t: Token, byWriter: bool, entry: Entry)
    requires Reachable(w) && ChatBeginStep(w, t, byWriter, entry).Some?
    ensures var line := Line(w.clients[t].username, entry);
            Fits(line) && Fits(Text.TrimEnd(line)) && Fits(Text.TrimNewlines(line))
  {
    var w' := ChatBeginStep(w, t, byWriter, entry).value;
    LeadsNext(START, w, ChatBegin(t, byWriter, entry), w');
    EveryRecordedLineFits(w', |w.log|);
    ChatBeginKeepsName(w, t, byWriter, entry, t);
  }
}
