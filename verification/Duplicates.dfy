/**
  Delivery is not exactly once: a line that is offered to a client before its replay is in the
  history it is sent and among the lines held back for it. This says exactly when that happens. It
  is not a matter of when a line was recorded: a client that registers between the recording of a
  line and its broadcast is offered that line too.
 */
module Duplicates {
  import opened Common
  import Delivery
  import opened Protocol
  import Registry
  import opened Coherence
  import Text
  import Handshake
  import Utf8
  import opened Streams
  import ServerRuns

  function Range(lo: nat, hi: nat): seq<nat>
    requires lo <= hi
  {
    seq(hi - lo, i requires 0 <= i < hi - lo => lo + i)
  }

  /** The log positions whose lines a ready client is given, in the order in which it is given them. */
  function Positions(since: nat, at: nat, length: nat): seq<nat>
    requires since <= at <= length
  {
    Range(at - |Recent(Range(0, at))|, at) + Range(since, length)
  }

  predicate Reads(lines: seq<Entry>, log: seq<Entry>, positions: seq<nat>) {
    && |lines| == |positions|
    && forall i | 0 <= i < |lines| :: positions[i] < |log| && lines[i] == log[positions[i]]
  }

  predicate NoRepeats(positions: seq<nat>) {
    forall i, j | 0 <= i < j < |positions| :: positions[i] != positions[j]
  }

  lemma TargetReadsPositions(log: seq<Entry>, since: nat, at: nat)
    requires since <= at <= |log|
    ensures Reads(Target(log, since, at), log, Positions(since, at, |log|))
  {
    var front := Range(at - |Recent(Range(0, at))|, at);
    assert |Recent(log[..at])| == |front|;
    assert Reads(Recent(log[..at]), log, front);
    assert Reads(log[since..], log, Range(since, |log|));
  }

  lemma NoRepeatsIff(since: nat, at: nat, length: nat)
    requires since <= at <= length
    ensures NoRepeats(Positions(since, at, length)) <==> since == at
  {
    var positions := Positions(since, at, length);
    var replayed := |Recent(Range(0, at))|;
    if since < at {
      assert positions[replayed - 1] == at - 1 == positions[replayed + (at - 1 - since)];
    }
  }

  /**
    The first so many positions repeat none iff nothing was offered before the replay, or they are no
    more than the history that was replayed, or no more than the lines offered before the replay.
   */
  lemma PrefixRepeatsIff(since: nat, at: nat, length: nat, n: nat)
    requires since <= at <= length && n <= |Positions(since, at, length)|
    ensures NoRepeats(Positions(since, at, length)[..n])
            <==> since == at || n <= |Recent(Range(0, at))| || n <= at - since
  {
    var positions, replayed := Positions(since, at, length), |Recent(Range(0, at))|;
    var p := positions[..n];
    if since < at && n > replayed && n > at - since {
      var i, j := if at - replayed <= since then since - (at - replayed) else 0,
                  if at - replayed <= since then replayed else at - since;
      assert p[i] == p[j];
    }
  }

  /**
    Every client whose replay began was given the lines of the first so many of its positions, whether
    it is still there or not; and a line twice iff those reach a position that comes twice.
   */
  lemma ReplayedClientReads(w: World, t: Token)
    requires Reachable(w) && t in w.clients && w.clients[t].replayedAt.Some?
    ensures var c := w.clients[t];
            var at, lines := c.replayedAt.value, Chats(c.channel.Sent());
            && c.since <= at <= |w.log|
            && |lines| <= |Positions(c.since, at, |w.log|)|
            && Reads(lines, w.log, Positions(c.since, at, |w.log|)[..|lines|])
            && (NoRepeats(Positions(c.since, at, |w.log|)[..|lines|])
                <==> c.since == at || |lines| <= |Recent(w.log[..at])| || |lines| <= at - c.since)
  {
    ServerRuns.ChatIsGapFree(w, t);
    var c := w.clients[t];
    var at, lines := c.replayedAt.value, Chats(c.channel.Sent());
    TargetReadsPositions(w.log, c.since, at);
    assert lines == Target(w.log, c.since, at)[..|lines|];
    assert |Recent(Range(0, at))| == |Recent(w.log[..at])|;
    PrefixRepeatsIff(c.since, at, |w.log|, |lines|);
  }

  /** The log as far as a client has been offered it. */
  function OfferedSoFar(w: World, t: Token): seq<Entry> {
    Settled(w.log, Behind(w.barrier, w.deliveriesLock, t))
  }

  /**
    A ready client was given the lines of known log positions, and no position twice iff no line was
    offered to it before its replay.
   */
  lemma ExactlyOnceIffNothingOfferedBeforeReplay(w: World, t: Token)
    requires Reachable(w) && t in w.clients
    requires w.clients[t].delivery.Some? && w.clients[t].delivery.value.ready
    ensures var c, length := w.clients[t], |OfferedSoFar(w, t)|;
            && c.replayedAt.Some? && c.since <= c.replayedAt.value <= length
            && Reads(Chats(c.channel.Sent()), w.log, Positions(c.since, c.replayedAt.value, length))
            && (NoRepeats(Positions(c.since, c.replayedAt.value, length)) <==> c.replayedAt.value == c.since)
  {
    ServerRuns.ReadyIsLevelOrOneBehind(w, t);
    var c, offered := w.clients[t], OfferedSoFar(w, t);
    TargetReadsPositions(offered, c.since, c.replayedAt.value);
    NoRepeatsIff(c.since, c.replayedAt.value, |offered|);
  }

  /** When a replay begins, a line was already offered to the client iff one is held back for it. */
  lemma OfferedBeforeReplayIffHeldBack(w: World, t: Token)
    requires Reachable(w) && ReplayBeginStep(w, t).Some? && w.clients[t].delivery.Some?
    ensures var c := ReplayBeginStep(w, t).value.clients[t];
            c.replayedAt == Some(c.since) <==> Chats(w.clients[t].delivery.value.pending) == []
  {
    ServerRuns.ReachableInv(w);
    assert StreamInvAt(w, t);
  }

  // ---- From the beginning of a replay to the end of a run -------------------------------------

  /** What a client is to be given, and when it was replayed, is settled once. */
  predicate Steady(w: World, w': World, t: Token) {
    t in w.clients ==>
      && t in w'.clients && w'.clients[t].since == w.clients[t].since
      && (w.clients[t].replayedAt.Some? ==> w'.clients[t].replayedAt == w.clients[t].replayedAt)
      && (w.clients[t].delivery.None? ==> w'.clients[t].delivery.None?)
  }

  lemma ReplayIsSteady(w: World, s: Step, t: Token)
    requires Next(w, s).Some? && IsReplayStep(s)
    requires t in w.clients && w.clients[t].pc == Waiting ==> w.clients[t].replayedAt.None?
    ensures Steady(w, Next(w, s).value, t)
  {
  }

  lemma BroadcastIsSteady(w: World, s: Step, t: Token)
    requires Next(w, s).Some? && IsBroadcastStep(s)
    ensures Steady(w, Next(w, s).value, t)
  {
  }

  lemma TaskIsSteady(w: World, s: Step, t: Token)
    requires Next(w, s).Some? && IsTaskStep(s)
    ensures Steady(w, Next(w, s).value, t)
  {
  }

  lemma RowsAreSteady(w: World, s: Step, t: Token)
    requires Next(w, s).Some? && (IsEntryStep(s) || IsRemovalStep(s))
    ensures Steady(w, Next(w, s).value, t)
  {
  }

  lemma NextIsSteady(w: World, s: Step, t: Token)
    requires ServerRuns.Inv(w) && Next(w, s).Some?
    ensures Steady(w, Next(w, s).value, t)
  {
    if IsReplayStep(s) {
      assert StreamInvAt(w, t);
      ReplayIsSteady(w, s, t);
    }
    else if IsBroadcastStep(s) { BroadcastIsSteady(w, s, t); }
    else if IsTaskStep(s) { TaskIsSteady(w, s, t); }
    else { RowsAreSteady(w, s, t); }
  }

  lemma {:induction false} RunIsSteady(before: seq<Step>, after: seq<Step>, t: Token)
    requires Run(before + after).Some?
    ensures Run(before).Some? && Steady(Run(before).value, Run(before + after).value, t)
  {
    if after == [] {
      assert before + after == before;
    } else {
      var front, last := after[..|after| - 1], after[|after| - 1];
      assert (before + after)[..|before + after| - 1] == before + front;
      RunIsSteady(before, front, t);
      ServerRuns.RunKeepsInv(before + front);
      NextIsSteady(Run(before + front).value, last, t);
    }
  }

  /**
    Exactly once, in terms of what can be seen when the replay begins: over any run, a client that
    ends up ready was given no line twice iff no line was held back for it at that moment.
   */
  lemma ExactlyOnceIffNothingHeldBackAtReplay(before: seq<Step>, after: seq<Step>, t: Token)
    requires Run(before + [ReplayBegin(t)] + after).Some?
    requires var w := Run(before + [ReplayBegin(t)] + after).value;
             t in w.clients && w.clients[t].delivery.Some? && w.clients[t].delivery.value.ready
    ensures Run(before).Some?
    ensures var w0, w := Run(before).value, Run(before + [ReplayBegin(t)] + after).value;
            var c, length := w.clients[t], |OfferedSoFar(w, t)|;
            && t in w0.clients && w0.clients[t].delivery.Some?
            && c.replayedAt.Some? && c.since <= c.replayedAt.value <= length
            && Reads(Chats(c.channel.Sent()), w.log, Positions(c.since, c.replayedAt.value, length))
            && (NoRepeats(Positions(c.since, c.replayedAt.value, length))
                <==> Chats(w0.clients[t].delivery.value.pending) == [])
  {
    var replay := before + [ReplayBegin(t)];
    RunIsSteady(replay, after, t);
    assert replay[..|replay| - 1] == before;
    var w0, w := Run(before).value, Run(replay + after).value;
    assert Leads(START, w0) && Leads(START, w);
    ExactlyOnceIffNothingOfferedBeforeReplay(w, t);
    OfferedBeforeReplayIffHeldBack(w0, t);
  }

  /** As many lines are held back when a replay begins as were offered before it. */
  lemma HeldBackAtReplay(w: World, t: Token)
    requires Reachable(w) && ReplayBeginStep(w, t).Some? && w.clients[t].delivery.Some?
    ensures var c := ReplayBeginStep(w, t).value.clients[t];
            && c.replayedAt == Some(|w.log|) && c.since <= |w.log|
            && |Chats(w.clients[t].delivery.value.pending)| == |w.log| - c.since
  {
    ServerRuns.ReachableInv(w);
    assert StreamInvAt(w, t);
  }

  /**
    The same for every client whose replay began, in terms of what can be seen at that moment: it was
    given some line twice iff lines were held back for it then, and it was given more lines in all
    than were replayed and more than were held back.
   */
  lemma GivenTwiceIffMoreThanHeldBack(before: seq<Step>, after: seq<Step>, t: Token)
    requires Run(before).Some? && Run(before + [ReplayBegin(t)] + after).Some?
    requires t in Run(before).value.clients && Run(before).value.clients[t].delivery.Some?
    ensures var w0, w := Run(before).value, Run(before + [ReplayBegin(t)] + after).value;
            && t in w.clients && w.clients[t].replayedAt.Some?
            && var c := w.clients[t];
               var at, lines := c.replayedAt.value, Chats(c.channel.Sent());
               var held := |Chats(w0.clients[t].delivery.value.pending)|;
               && at == |w0.log| && c.since <= at <= |w.log| && held == at - c.since
               && |lines| <= |Positions(c.since, at, |w.log|)|
               && Reads(lines, w.log, Positions(c.since, at, |w.log|)[..|lines|])
               && (!NoRepeats(Positions(c.since, at, |w.log|)[..|lines|])
                   <==> held > 0 && |lines| > |w0.history| && |lines| > held)
  {
    var replay := before + [ReplayBegin(t)];
    RunIsSteady(replay, after, t);
    assert replay[..|replay| - 1] == before;
    var w0, w := Run(before).value, Run(replay + after).value;
    assert Leads(START, w0) && Leads(START, w);
    HeldBackAtReplay(w0, t);
    ReplayedClientReads(w, t);
    ServerRuns.HistoryIsRecent(w0);
  }

  // ---- Two runs that enqueue a line twice -----------------------------------------------------

  const FIRST: SocketAddr := SocketAddr(1, 7878)
  const SECOND: SocketAddr := SocketAddr(2, 7878)
  const GUEST: string := "guest"

  lemma GuestIsAccepted()
    ensures Handshake.IsAccepted(GUEST)
  {
    Utf8.EncodeBound(GUEST);
    assert Text.TrimStart(GUEST) == GUEST && Text.TrimEnd(GUEST) == GUEST;
  }

  /** A client in the state `pc` whose history was replayed when nothing had been recorded. */
  function ReadyClient(addr: SocketAddr, pc: SessionPc): Client {
    Client(GUEST, Some(Registry.ClientSession(addr, Some(GUEST))), Some(Delivery.ClientDelivery(addr, true, [])),
           Delivery.Channel([], [], false), false, false, pc, Writing, 0, Some(0))
  }

  function WaitingClient(addr: SocketAddr, pending: seq<Message>): Client {
    Client(GUEST, Some(Registry.ClientSession(addr, Some(GUEST))), Some(Delivery.ClientDelivery(addr, false, pending)),
           Delivery.Channel([], [], false), false, false, Waiting, Writing, 0, None)
  }

  const FIRST_WAITS: World :=
    World(map[0 := WaitingClient(FIRST, [])], [], [], Open, ClientsFree, DeliveriesFree)

  /** The first client is ready to join; the second is registered and waits for its history. */
  const FIRST_READY: World :=
    World(map[0 := ReadyClient(FIRST, Replayed)], [], [], Open, ClientsFree, DeliveriesFree)
  const SECOND_WAITS: World :=
    World(map[0 := ReadyClient(FIRST, Replayed), 1 := WaitingClient(SECOND, [])],
          [], [], Open, ClientsFree, DeliveriesFree)
  const JOINED: Message := Chat(Join(0))

  /** The first client's join is recorded, and the broadcast loop has not started. */
  const JOINING: World :=
    World(map[0 := ReadyClient(FIRST, Joining)],
          [Join(0)], [Join(0)], Broadcasting(0, false, Recorded), ClientsFree, DeliveriesFree)

  /** The first client's join is recorded and about to be offered to both. */
  const JOIN_OFFERED: World :=
    World(map[0 := ReadyClient(FIRST, Joining), 1 := WaitingClient(SECOND, [])],
          [Join(0)], [Join(0)], Broadcasting(0, false, Offering), ClientsFree,
          Delivering(JOINED, {0, 1}, {}))

  /** The first client's join is recorded, and the second is registered by now. */
  const JOIN_HEARD: World := JOIN_OFFERED.(barrier := JOINING.barrier, deliveriesLock := DeliveriesFree)

  /** The first client's join has been broadcast, and is held back for the second. */
  const JOIN_RECORDED: World :=
    World(map[0 := ReadyClient(FIRST, Announced).(channel := Delivery.Channel([], [JOINED], false)),
              1 := WaitingClient(SECOND, [JOINED])],
          [Join(0)], [Join(0)], Open, ClientsFree, DeliveriesFree)

  lemma ReachFirstWaits()
    ensures Reachable(FIRST_WAITS)
  {
    GuestIsAccepted();
    LeadsNowhere(START);
    var w1 := RegisterStep(START, 0, FIRST, GUEST).value;
    LeadsNext(START, START, Register(0, FIRST, GUEST), w1);
    var w2 := SetUsernameStep(w1, 0).value;
    assert w2.clients == FIRST_WAITS.clients;
    LeadsNext(START, w1, SetUsername(0), w2);
  }

  lemma ReachFirstReady()
    ensures Reachable(FIRST_READY)
  {
    ReachFirstWaits();
    var w1 := ReplayBeginStep(FIRST_WAITS, 0).value;
    LeadsNext(START, FIRST_WAITS, ReplayBegin(0), w1);
    var w2 := FlushBeginStep(w1).value;
    LeadsNext(START, w1, FlushBegin, w2);
    var w3 := FlushEndStep(w2).value;
    assert w3.clients == FIRST_READY.clients;
    LeadsNext(START, w2, FlushEnd, w3);
  }

  lemma ReachSecondWaits()
    ensures Reachable(SECOND_WAITS)
  {
    ReachFirstReady();
    GuestIsAccepted();
    var w := RegisterStep(FIRST_READY, 1, SECOND, GUEST).value;
    LeadsNext(START, FIRST_READY, Register(1, SECOND, GUEST), w);
    var w' := SetUsernameStep(w, 1).value;
    assert w'.clients == SECOND_WAITS.clients;
    LeadsNext(START, w, SetUsername(1), w');
  }

  lemma HeardIsOffered(from: World)
    requires Leads(from, JOIN_HEARD)
    ensures Leads(from, JOIN_OFFERED)
  {
    assert DeliveryTokens(JOIN_HEARD) == {0, 1};
    LeadsNext(from, JOIN_HEARD, ChatOffer, JOIN_OFFERED);
  }

  /** The second client waits for its history when the join is recorded. */
  lemma ReachJoinOffered()
    ensures Reachable(JOIN_OFFERED)
  {
    ReachSecondWaits();
    var w := ChatBeginStep(SECOND_WAITS, 0, false, Join(0)).value;
    assert w.clients == JOIN_HEARD.clients;
    assert w.log == w.history == [Join(0)];
    LeadsNext(START, SECOND_WAITS, ChatBegin(0, false, Join(0)), w);
    HeardIsOffered(START);
  }

  lemma ReachJoining()
    ensures Reachable(JOINING)
  {
    ReachFirstReady();
    var w := ChatBeginStep(FIRST_READY, 0, false, Join(0)).value;
    assert w.clients == JOINING.clients;
    assert w.log == w.history == [Join(0)];
    LeadsNext(START, FIRST_READY, ChatBegin(0, false, Join(0)), w);
  }

  /** The second client registers only after the join is recorded, and before it is offered. */
  lemma LateClientIsOffered()
    ensures Leads(JOINING, JOIN_OFFERED)
  {
    LateClientRegisters();
    HeardIsOffered(JOINING);
  }

  lemma LateClientRegisters()
    ensures Leads(JOINING, JOIN_HEARD)
  {
    GuestIsAccepted();
    LeadsNowhere(JOINING);
    var w1 := RegisterStep(JOINING, 1, SECOND, GUEST).value;
    LeadsNext(JOINING, JOINING, Register(1, SECOND, GUEST), w1);
    LateClientIsNamed(w1);
  }

  lemma LateClientIsNamed(w: World)
    requires Leads(JOINING, w)
    requires 1 in w.clients && w == JOINING.(clients := JOINING.clients[1 := w.clients[1]])
    requires w.clients[1] == WaitingClient(SECOND, []).(session := Some(Registry.ClientSession(SECOND, None)),
                                                        pc := Registered, writer := NotSpawned)
    ensures Leads(JOINING, JOIN_HEARD)
  {
    var w' := SetUsernameStep(w, 1).value;
    LeadsNext(JOINING, w, SetUsername(1), w');
    assert w'.clients == JOIN_OFFERED.clients;
  }

  /** The join has been offered to both clients. */
  const JOIN_GIVEN: World :=
    JOIN_RECORDED.(clients := map[0 := JOIN_RECORDED.clients[0].(pc := Joining), 1 := JOIN_RECORDED.clients[1]],
                   barrier := Broadcasting(0, false, Offering), deliveriesLock := Delivering(JOINED, {}, {}))

  lemma OfferJoin(from: World)
    requires Leads(from, JOIN_OFFERED)
    ensures Leads(from, JOIN_GIVEN)
  {
    var w1 := OfferToStep(JOIN_OFFERED, 0).value;
    LeadsNext(from, JOIN_OFFERED, OfferTo(0), w1);
    var w2 := OfferToStep(w1, 1).value;
    assert w2.deliveriesLock == Delivering(JOINED, {}, {});
    assert w2.clients[0] == JOIN_GIVEN.clients[0];
    assert w2.clients[1] == JOIN_GIVEN.clients[1];
    assert w2.clients == JOIN_GIVEN.clients;
    LeadsNext(from, w1, OfferTo(1), w2);
  }

  lemma FinishJoin(from: World)
    requires Leads(from, JOIN_OFFERED)
    ensures Leads(from, JOIN_RECORDED)
  {
    OfferJoin(from);
    var w1 := OfferEndStep(JOIN_GIVEN).value;
    LeadsNext(from, JOIN_GIVEN, OfferEnd, w1);
    var w2 := ChatEndStep(w1).value;
    assert w2.clients[0] == JOIN_RECORDED.clients[0];
    assert w2.clients[1] == JOIN_RECORDED.clients[1];
    assert w2.clients == JOIN_RECORDED.clients;
    LeadsNext(from, w1, ChatEnd, w2);
  }

  lemma ReplayToSecond(from: World) returns (w: World)
    requires Leads(from, JOIN_RECORDED)
    ensures Leads(from, w) && w.log == [Join(0)]
    ensures 1 in w.clients && w.clients[1].channel.Sent() == [Chat(Join(0)), Chat(Join(0))]
  {
    var w1 := ReplayBeginStep(JOIN_RECORDED, 1).value;
    LeadsNext(from, JOIN_RECORDED, ReplayBegin(1), w1);
    var w2 := ReplaySendStep(w1).value;
    LeadsNext(from, w1, ReplaySend, w2);
    var w3 := FlushBeginStep(w2).value;
    LeadsNext(from, w2, FlushBegin, w3);
    w := FlushSendStep(w3).value;
    LeadsNext(from, w3, FlushSend, w);
    assert w.clients[1].channel.Sent() == [JOINED, JOINED];
  }

  /** The same join, recorded once, is enqueued twice for the client that was waiting meanwhile. */
  lemma JoinEnqueuedTwice()
    ensures exists w ::
              && Reachable(w) && w.log == [Join(0)]
              && 1 in w.clients && w.clients[1].channel.Sent() == [Chat(Join(0)), Chat(Join(0))]
  {
    ReachJoinOffered();
    FinishJoin(START);
    var w := ReplayToSecond(START);
  }

  /** It is even when the client registers after the last line of the whole run was recorded. */
  lemma JoinEnqueuedTwiceForALateClient()
    ensures exists w0, w ::
              && Reachable(w0) && w0.log == [Join(0)] && 1 !in w0.clients
              && Leads(w0, w) && w.log == [Join(0)]
              && 1 in w.clients && w.clients[1].channel.Sent() == [Chat(Join(0)), Chat(Join(0))]
  {
    ReachJoining();
    LateClientIsOffered();
    FinishJoin(JOINING);
    var w := ReplayToSecond(JOINING);
  }
}
