/**
  The step system takes its locks as the operations are written to: what each step acquires, touches and
  releases agrees with its lock fields in every run, and the steps of one operation, taken together, are
  that operation's program.
 */
module LockSteps {
  import opened Common
  import opened Delivery
  import opened Protocol
  import opened Coherence
  import opened Refinement
  import opened Streams
  import opened Locks
  import Progress
  import ServerRuns

  /** The mutexes of the step system that are held. The history's is taken and released within a step. */
  function HeldIn(w: World): set<Lock> {
    (if w.barrier == Open then {} else {ReplayBarrier})
    + (if w.clientsLock == ClientsFree then {} else {Locks.Clients})
    + (if w.deliveriesLock == DeliveriesFree then {} else {Locks.Deliveries})
  }

  /** What a step does with the mutexes. */
  function Actions(w: World, s: Step): Program
    requires Next(w, s).Some?
  {
    match s
    case Register(_, _, _) => RegisterLocks(false)
    case SetUsername(_) => Section(Locks.Clients)
    case ReplayBegin(t) =>
      [Acquire(ReplayBarrier)] + Section(Locks.Deliveries)
      + if w.clients[t].delivery.Some? then Section(History) else [Release(ReplayBarrier)]
    case ReplaySend => if Next(w, s).value.barrier == Open then [Release(ReplayBarrier)] else []
    case FlushBegin =>
      if w.clients[w.barrier.t].delivery.Some? then [Acquire(Locks.Deliveries), Touch(Locks.Deliveries)]
      else Section(Locks.Deliveries) + [Release(ReplayBarrier)]
    case FlushSend =>
      if Next(w, s).value.barrier == Open then [Release(Locks.Deliveries), Release(ReplayBarrier)] else []
    case FlushEnd => [Release(Locks.Deliveries), Release(ReplayBarrier)]
    case PresenceBegin(_) => [Acquire(Locks.Deliveries), Touch(Locks.Deliveries)]
    case OfferTo(_) => []
    case OfferEnd => [Release(Locks.Deliveries)]
    case ChatBegin(_, _, _) => [Acquire(ReplayBarrier)] + Section(History)
    case ChatOffer => [Acquire(Locks.Deliveries), Touch(Locks.Deliveries)]
    case SkipGone(_) => []
    case ChatEnd => [Release(ReplayBarrier)]
    case RemoveBegin(_, _) => [Acquire(Locks.Clients), Touch(Locks.Clients)]
    case RemoveMiss(_, _) => RemoveLocks(false)
    case RemoveEnd => Section(Locks.Deliveries) + [Release(Locks.Clients)]
    case _ => []
  }

  /** What is held after one action, if it is possible: nothing is taken twice or used unlocked. */
  function EffectOf(held: set<Lock>, a: Action): Option<set<Lock>> {
    match a
    case Acquire(l) => if l in held then None else Some(held + {l})
    case Release(l) => if l in held then Some(held - {l}) else None
    case Touch(l) => if l in held then Some(held) else None
  }

  function Effect(held: set<Lock>, p: Program): Option<set<Lock>>
    decreases |p|
  {
    if p == [] then Some(held)
    else if EffectOf(held, p[0]).None? then None
    else Effect(EffectOf(held, p[0]).value, p[1..])
  }

  lemma {:induction false} EffectConcat(held: set<Lock>, p: Program, q: Program)
    requires Effect(held, p).Some?
    ensures Effect(held, p + q) == Effect(Effect(held, p).value, q)
    decreases |p|
  {
    if p == [] {
      assert p + q == q;
    } else {
      assert (p + q)[1..] == p[1..] + q;
      EffectConcat(EffectOf(held, p[0]).value, p[1..], q);
    }
  }

  lemma EffectOfOne(held: set<Lock>, a: Action)
    ensures Effect(held, [a]) == EffectOf(held, a)
  {
    assert [a][1..] == [];
  }

  lemma EffectOfSection(held: set<Lock>, l: Lock)
    requires l !in held
    ensures Effect(held, Section(l)) == Some(held)
  {
    EffectOfTaking(held, l);
    EffectOfOne(held + {l}, Release(l));
    EffectConcat(held, [Acquire(l), Touch(l)], [Release(l)]);
    assert [Acquire(l), Touch(l)] + [Release(l)] == Section(l);
    assert held + {l} - {l} == held;
  }

  lemma EffectOfTaking(held: set<Lock>, l: Lock)
    requires l !in held
    ensures Effect(held, [Acquire(l), Touch(l)]) == Some(held + {l})
  {
    EffectOfOne(held, Acquire(l));
    EffectOfOne(held + {l}, Touch(l));
    EffectConcat(held, [Acquire(l)], [Touch(l)]);
    assert [Acquire(l)] + [Touch(l)] == [Acquire(l), Touch(l)];
  }

  // ---- Every step follows its lock fields -----------------------------------------------------

  predicate Follows(w: World, s: Step)
    requires Next(w, s).Some?
  {
    Effect(HeldIn(w), Actions(w, s)) == Some(HeldIn(Next(w, s).value))
  }

  lemma RegisterFollows(w: World, s: Step)
    requires Next(w, s).Some? && (s.Register? || s.SetUsername? || s.RemoveMiss?)
    ensures Follows(w, s)
  {
    var held := HeldIn(w);
    EffectOfSection(held, Locks.Clients);
    if s.Register? {
      var both := held + {Locks.Clients} + {Locks.Deliveries};
      EffectOfTaking(held, Locks.Clients);
      EffectOfOne(held + {Locks.Clients}, Acquire(Locks.Deliveries));
      EffectOfOne(both, Touch(Locks.Clients));
      EffectOfOne(both, Touch(Locks.Deliveries));
      EffectOfOne(both, Release(Locks.Deliveries));
      EffectOfOne(held + {Locks.Clients}, Release(Locks.Clients));
      assert both - {Locks.Deliveries} == held + {Locks.Clients} && held + {Locks.Clients} - {Locks.Clients} == held;
      var p1: Program := [Acquire(Locks.Clients), Touch(Locks.Clients)];
      var p2, p3 := p1 + [Acquire(Locks.Deliveries)], p1 + [Acquire(Locks.Deliveries)] + [Touch(Locks.Clients)];
      EffectConcat(held, p1, [Acquire(Locks.Deliveries)]);
      EffectConcat(held, p2, [Touch(Locks.Clients)]);
      EffectConcat(held, p3, [Touch(Locks.Deliveries)]);
      EffectConcat(held, p3 + [Touch(Locks.Deliveries)], [Release(Locks.Deliveries)]);
      EffectConcat(held, p3 + [Touch(Locks.Deliveries)] + [Release(Locks.Deliveries)], [Release(Locks.Clients)]);
      assert p3 + [Touch(Locks.Deliveries)] + [Release(Locks.Deliveries)] + [Release(Locks.Clients)]
          == RegisterLocks(false);
    }
  }

  lemma ReplayFollows(w: World, s: Step)
    requires LocksInv(w) && Next(w, s).Some? && (s.ReplayBegin? || s.ReplaySend?)
    ensures Follows(w, s)
  {
    var held := HeldIn(w);
    if s.ReplayBegin? {
      var inside := held + {ReplayBarrier};
      var p: Program := [Acquire(ReplayBarrier)];
      EffectOfOne(held, Acquire(ReplayBarrier));
      EffectOfSection(inside, Locks.Deliveries);
      EffectConcat(held, p, Section(Locks.Deliveries));
      EffectOfSection(inside, History);
      EffectOfOne(inside, Release(ReplayBarrier));
      EffectConcat(held, p + Section(Locks.Deliveries), Section(History));
      EffectConcat(held, p + Section(Locks.Deliveries), [Release(ReplayBarrier)]);
      assert inside - {ReplayBarrier} == held;
      assert HeldIn(Next(w, s).value) == if w.clients[s.t].delivery.Some? then inside else held;
    } else {
      EffectOfOne(held, Release(ReplayBarrier));
      var w' := Next(w, s).value;
      assert HeldIn(w') == if w'.barrier == Open then held - {ReplayBarrier} else held;
    }
  }

  lemma FlushFollows(w: World, s: Step)
    requires LocksInv(w) && Next(w, s).Some? && (s.FlushBegin? || s.FlushSend? || s.FlushEnd?)
    ensures Follows(w, s)
  {
    var held := HeldIn(w);
    if s.FlushBegin? {
      EffectOfTaking(held, Locks.Deliveries);
      EffectOfSection(held, Locks.Deliveries);
      EffectOfOne(held, Release(ReplayBarrier));
      EffectConcat(held, Section(Locks.Deliveries), [Release(ReplayBarrier)]);
      assert HeldIn(Next(w, s).value) == if w.clients[w.barrier.t].delivery.Some? then held + {Locks.Deliveries}
                                         else held - {ReplayBarrier};
    } else {
      EffectOfOne(held, Release(Locks.Deliveries));
      EffectOfOne(held - {Locks.Deliveries}, Release(ReplayBarrier));
      EffectConcat(held, [Release(Locks.Deliveries)], [Release(ReplayBarrier)]);
      assert [Release(Locks.Deliveries)] + [Release(ReplayBarrier)]
          == [Release(Locks.Deliveries), Release(ReplayBarrier)];
      var w' := Next(w, s).value;
      assert HeldIn(w') == if w'.barrier == Open then held - {Locks.Deliveries} - {ReplayBarrier} else held;
    }
  }

  lemma BroadcastFollows(w: World, s: Step)
    requires LocksInv(w) && Next(w, s).Some? && IsBroadcastStep(s)
    ensures Follows(w, s)
  {
    var held := HeldIn(w);
    match s
    case PresenceBegin(_) =>
      EffectOfTaking(held, Locks.Deliveries);
      assert HeldIn(Next(w, s).value) == held + {Locks.Deliveries};
    case ChatOffer =>
      EffectOfTaking(held, Locks.Deliveries);
      assert HeldIn(Next(w, s).value) == held + {Locks.Deliveries};
    case OfferEnd =>
      EffectOfOne(held, Release(Locks.Deliveries));
      assert HeldIn(Next(w, s).value) == held - {Locks.Deliveries};
    case ChatEnd =>
      EffectOfOne(held, Release(ReplayBarrier));
      assert HeldIn(Next(w, s).value) == held - {ReplayBarrier};
    case ChatBegin(_, _, _) =>
      EffectOfOne(held, Acquire(ReplayBarrier));
      EffectOfSection(held + {ReplayBarrier}, History);
      EffectConcat(held, [Acquire(ReplayBarrier)], Section(History));
      assert HeldIn(Next(w, s).value) == held + {ReplayBarrier};
    case _ =>
  }

  lemma RemovalFollows(w: World, s: Step)
    requires Next(w, s).Some? && (s.RemoveBegin? || s.RemoveEnd?)
    ensures Follows(w, s)
  {
    var held := HeldIn(w);
    if s.RemoveBegin? {
      EffectOfTaking(held, Locks.Clients);
      assert HeldIn(Next(w, s).value) == held + {Locks.Clients};
    } else {
      EffectOfSection(held, Locks.Deliveries);
      EffectOfOne(held, Release(Locks.Clients));
      EffectConcat(held, Section(Locks.Deliveries), [Release(Locks.Clients)]);
      assert HeldIn(Next(w, s).value) == held - {Locks.Clients};
    }
  }

  lemma TaskFollows(w: World, s: Step)
    requires Next(w, s).Some? && IsTaskStep(s)
    ensures Follows(w, s)
  {
  }

  /**
    In every reachable state, what a step does with the mutexes is possible, that is it takes none that
    is held, and leaves held exactly what the lock fields say.
   */
  lemma StepsFollowTheirLocks(w: World, s: Step)
    requires Reachable(w) && Next(w, s).Some?
    ensures Effect(HeldIn(w), Actions(w, s)) == Some(HeldIn(Next(w, s).value))
  {
    hide Effect, Actions, HeldIn, RowsInv;
    ServerRuns.ReachableInv(w);
    if IsBroadcastStep(s) { BroadcastFollows(w, s); }
    else if s.ReplayBegin? || s.ReplaySend? { ReplayFollows(w, s); }
    else if IsReplayStep(s) { FlushFollows(w, s); }
    else if s.Register? || s.SetUsername? || s.RemoveMiss? { RegisterFollows(w, s); }
    else if IsRemovalStep(s) { RemovalFollows(w, s); }
    else { TaskFollows(w, s); }
  }

  /** The rows of a client change only in steps that take the registry's mutex, or while it is held. */
  predicate RowsUnderLocks(w: World, s: Step, t: Token)
    requires Next(w, s).Some?
  {
    var w' := Next(w, s).value;
    var before, after := if t in w.clients then w.clients[t].session else None,
                         if t in w'.clients then w'.clients[t].session else None;
    var record, record' := if t in w.clients then w.clients[t].delivery else None,
                           if t in w'.clients then w'.clients[t].delivery else None;
    && (before != after ==> Locks.Clients in HeldIn(w) || Acquire(Locks.Clients) in Actions(w, s))
    && (record != record' ==> Locks.Deliveries in HeldIn(w) || Acquire(Locks.Deliveries) in Actions(w, s))
  }

  lemma ReplayTouchesUnderLocks(w: World, s: Step, t: Token)
    requires LocksInv(w) && Next(w, s).Some? && IsReplayStep(s)
    ensures RowsUnderLocks(w, s, t)
  {
  }

  lemma BroadcastTouchesUnderLocks(w: World, s: Step, t: Token)
    requires LocksInv(w) && Next(w, s).Some? && IsBroadcastStep(s)
    ensures RowsUnderLocks(w, s, t)
  {
  }

  lemma TaskTouchesNoRow(w: World, s: Step, t: Token)
    requires Next(w, s).Some? && IsTaskStep(s)
    ensures RowsUnderLocks(w, s, t)
  {
  }

  lemma RegistryTouchesUnderLocks(w: World, s: Step, t: Token)
    requires Next(w, s).Some? && (IsEntryStep(s) || IsRemovalStep(s))
    ensures RowsUnderLocks(w, s, t)
  {
    assert RegisterLocks(false)[0] == Acquire(Locks.Clients) && RegisterLocks(false)[2] == Acquire(Locks.Deliveries);
    assert Section(Locks.Clients)[0] == Acquire(Locks.Clients);
    assert (Section(Locks.Deliveries) + [Release(Locks.Clients)])[0] == Acquire(Locks.Deliveries);
  }

  /** No step changes a row of a registry whose mutex nobody holds. */
  lemma RowsChangeUnderLocks(w: World, s: Step, t: Token)
    requires Reachable(w) && Next(w, s).Some?
    ensures RowsUnderLocks(w, s, t)
  {
    ServerRuns.ReachableInv(w);
    if IsReplayStep(s) { ReplayTouchesUnderLocks(w, s, t); }
    else if IsBroadcastStep(s) { BroadcastTouchesUnderLocks(w, s, t); }
    else if IsTaskStep(s) { TaskTouchesNoRow(w, s, t); }
    else { RegistryTouchesUnderLocks(w, s, t); }
  }

  // ---- The steps of one operation are its program ---------------------------------------------

  /** The actions of a run, one step after the other. */
  function Trace(w: World, steps: seq<Step>): Program
    requires RunFrom(w, steps).Some?
  {
    if steps == [] then []
    else
      var front, last := steps[..|steps| - 1], steps[|steps| - 1];
      Trace(w, front) + Actions(RunFrom(w, front).value, last)
  }

  lemma {:induction false} TraceConcat(w: World, a: seq<Step>, b: seq<Step>)
    requires RunFrom(w, a).Some? && RunFrom(w, a + b).Some?
    ensures RunFrom(RunFrom(w, a).value, b).Some?
    ensures Trace(w, a + b) == Trace(w, a) + Trace(RunFrom(w, a).value, b)
  {
    hide Actions, Next;
    RunFromConcat(w, a, b);
    if b == [] {
      assert a + b == a;
    } else {
      var front := b[..|b| - 1];
      assert (a + b)[..|a + b| - 1] == a + front;
      TraceConcat(w, a, front);
      RunFromConcat(w, a, front);
    }
  }

  lemma TraceOne(w: World, s: Step)
    requires Next(w, s).Some?
    ensures RunFrom(w, [s]) == Next(w, s) && Trace(w, [s]) == Actions(w, s)
  {
    RunOne(w, s);
    assert [s][..0] == [];
    assert Trace(w, []) == [];
  }

  lemma TraceFirst(w: World, s: Step, steps: seq<Step>)
    requires Next(w, s).Some? && RunFrom(Next(w, s).value, steps).Some?
    ensures RunFrom(w, [s] + steps) == RunFrom(Next(w, s).value, steps)
    ensures Trace(w, [s] + steps) == Actions(w, s) + Trace(Next(w, s).value, steps)
  {
    RunFirst(w, s, steps);
    TraceOne(w, s);
    TraceConcat(w, [s], steps);
  }

  /** Registering, naming and removing. */
  lemma RegistryTraces(w: World, t: Token, addr: SocketAddr, username: string, caller: Caller)
    ensures RegisterStep(w, t, addr, username).Some? ==>
              Trace(w, [Register(t, addr, username)]) == LocksOf(RegisterClient(false))
    ensures SetUsernameStep(w, t).Some? ==> Trace(w, [Protocol.SetUsername(t)]) == LocksOf(Operation.SetUsername)
    ensures RemoveMissStep(w, t, caller).Some? ==> Trace(w, [RemoveMiss(t, caller)]) == LocksOf(Remove(false))
  {
    if RegisterStep(w, t, addr, username).Some? { TraceOne(w, Register(t, addr, username)); }
    if SetUsernameStep(w, t).Some? { TraceOne(w, Protocol.SetUsername(t)); }
    if RemoveMissStep(w, t, caller).Some? { TraceOne(w, RemoveMiss(t, caller)); }
  }

  lemma RemovalTrace(w: World, t: Token, caller: Caller)
    requires RemoveBeginStep(w, t, caller).Some? && w.deliveriesLock == DeliveriesFree
    ensures RunFrom(w, [RemoveBegin(t, caller)] + [RemoveEnd]).Some?
    ensures Trace(w, [RemoveBegin(t, caller)] + [RemoveEnd]) == LocksOf(Remove(true))
  {
    hide Trace, RunFrom;
    var w1 := RemoveBeginStep(w, t, caller).value;
    TraceOne(w1, RemoveEnd);
    TraceFirst(w, RemoveBegin(t, caller), [RemoveEnd]);
  }

  // ---- A whole broadcast ----------------------------------------------------------------------

  lemma {:induction false} OffersTakeNothing(w: World, steps: seq<Step>)
    requires RunFrom(w, steps).Some? && forall i | 0 <= i < |steps| :: steps[i].OfferTo?
    ensures Trace(w, steps) == []
  {
    if steps != [] { OffersTakeNothing(w, steps[..|steps| - 1]); }
  }

  lemma {:induction false} OfferStepsAreOffers(order: seq<Token>)
    ensures forall i | 0 <= i < |OfferSteps(order)| :: OfferSteps(order)[i].OfferTo?
  {
    if order != [] { OfferStepsAreOffers(order[1..]); }
  }

  function Trues(n: nat): seq<bool> {
    if n == 0 then [] else [true] + Trues(n - 1)
  }

  lemma RemovalOfTrace(w: World, tokens: set<Token>, t: Token, chat: bool)
    requires MayRemoveAll(w, tokens, chat) && t in tokens
    ensures RunFrom(w, RemovalOf(t, chat)).Some? && Trace(w, RemovalOf(t, chat)) == RemoveLocks(true)
  {
    hide Trace, RunFrom;
    RemoveOne(w, tokens, t, chat);
    RemovalTrace(w, t, ByOther);
    var pair := [RemoveBegin(t, ByOther)] + [RemoveEnd];
    assert pair == [RemoveBegin(t, ByOther), RemoveEnd];
    if chat {
      TraceConcat(w, pair, [SkipGone(t)]);
      var w2 := RunFrom(w, pair).value;
      RunOne(w2, SkipGone(t));
      TraceOne(w2, SkipGone(t));
      assert RemoveLocks(true) + [] == RemoveLocks(true);
    } else {
      assert RemovalOf(t, chat) == pair;
    }
  }

  lemma {:induction false} RemovalsTrace(w: World, gone: seq<Token>, tokens: set<Token>, chat: bool)
    requires MayRemoveAll(w, tokens, chat) && Enumerates(gone, tokens)
    ensures RunFrom(w, RemovalSteps(gone, chat)).Some?
    ensures Trace(w, RemovalSteps(gone, chat)) == RemovalsLocks(Trues(|gone|))
    decreases |gone|
  {
    hide Trace, RunFrom, Enumerates, RemovalsLocks, MayRemoveAll, AfterRemovals;
    RemovalLoop(w, gone, tokens, chat);
    if gone == [] {
      NothingTaken(w, chat);
    } else {
      var t := gone[0];
      EnumeratesRest(gone, tokens);
      RemoveOne(w, tokens, t, chat);
      RestMayBeRemoved(w, tokens, t, chat);
      RemovalOfTrace(w, tokens, t, chat);
      RemovalsTrace(AfterRemovals(w, {t}, tokens - {t}, chat), gone[1..], tokens - {t}, chat);
      RemovalsTraceNext(w, gone, chat);
    }
  }

  lemma NothingTaken(w: World, chat: bool)
    ensures RunFrom(w, RemovalSteps([], chat)).Some? && Trace(w, RemovalSteps([], chat)) == RemovalsLocks(Trues(0))
  {
  }

  lemma RestMayBeRemoved(w: World, tokens: set<Token>, t: Token, chat: bool)
    requires MayRemoveAll(w, tokens, chat) && t in tokens
    ensures chat ==> w.barrier.Broadcasting?
    ensures MayRemoveAll(AfterRemovals(w, {t}, tokens - {t}, chat), tokens - {t}, chat)
  {
  }

  lemma RemovalsTraceNext(w: World, gone: seq<Token>, chat: bool)
    requires gone != [] && RunFrom(w, RemovalOf(gone[0], chat)).Some? && RunFrom(w, RemovalSteps(gone, chat)).Some?
    requires var w1 := RunFrom(w, RemovalOf(gone[0], chat)).value;
             && Trace(w, RemovalOf(gone[0], chat)) == RemoveLocks(true)
             && RunFrom(w1, RemovalSteps(gone[1..], chat)).Some?
             && Trace(w1, RemovalSteps(gone[1..], chat)) == RemovalsLocks(Trues(|gone| - 1))
    ensures Trace(w, RemovalSteps(gone, chat)) == RemovalsLocks(Trues(|gone|))
  {
    hide Trace, RunFrom;
    TraceConcat(w, RemovalOf(gone[0], chat), RemovalSteps(gone[1..], chat));
    assert Trues(|gone|)[1..] == Trues(|gone| - 1) && Trues(|gone|)[0];
  }

  /** The loop of a broadcast, its end and its removals. */
  lemma OffersTrace(w: World, message: Message, order: seq<Token>, gone: seq<Token>)
    requires RowsInv(w) && w.clientsLock == ClientsFree
    requires w.deliveriesLock == Delivering(message, DeliveryTokens(w), {})
    requires message.Chat? ==> w.barrier.Broadcasting?
    requires Enumerates(order, DeliveryTokens(w))
    requires Enumerates(gone, DoomedBy(DeliveriesOf(w), ChannelsOf(w), message))
    ensures RunFrom(w, BroadcastSteps(order, gone, message.Chat?)).Some?
    ensures Trace(w, BroadcastSteps(order, gone, message.Chat?))
            == [Release(Locks.Deliveries)] + RemovalsLocks(Trues(|gone|))
  {
    hide Trace, RunFrom, RowsInv, Enumerates, DoomedBy, DeliveriesOf, ChannelsOf, OfferClients;
    OffersAndRemovals(w, message, order, gone);
    WholeOfferLoop(w, message, order);
    OffersEnd(w, message, order);
    var offers := OfferSteps(order);
    OfferStepsAreOffers(order);
    OffersTakeNothing(w, offers);
    var w1 := RunFrom(w, offers).value;
    TraceConcat(w, offers, [OfferEnd]);
    RunOne(w1, OfferEnd);
    TraceOne(w1, OfferEnd);
    assert Trace(w, offers + [OfferEnd]) == [Release(Locks.Deliveries)];
    var w2 := RunFrom(w, offers + [OfferEnd]).value;
    DoomedMayBeRemoved(w, message, w2);
    RemovalsTrace(w2, gone, DoomedBy(DeliveriesOf(w), ChannelsOf(w), message), message.Chat?);
    TraceConcat(w, offers + [OfferEnd], RemovalSteps(gone, message.Chat?));
  }

  lemma WholeOfferLoop(w: World, message: Message, order: seq<Token>)
    requires w.deliveriesLock == Delivering(message, DeliveryTokens(w), {})
    requires Enumerates(order, DeliveryTokens(w))
    ensures RunFrom(w, OfferSteps(order)) == Some(AfterOffers(w, message, DeliveryTokens(w), {}))
  {
    OfferLoop(w, order, message, DeliveryTokens(w), {});
  }

  lemma DoomedMayBeRemoved(w: World, message: Message, w2: World)
    requires RowsInv(w) && w.clientsLock == ClientsFree && (message.Chat? ==> w.barrier.Broadcasting?)
    requires var dead := DoomedBy(DeliveriesOf(w), ChannelsOf(w), message);
             w2 == w.(clients := OfferClients(w.clients, message, DeliveryTokens(w)), deliveriesLock := DeliveriesFree,
                      barrier := if message.Chat? then w.barrier.(stage := Dooming(dead)) else w.barrier)
    ensures MayRemoveAll(w2, DoomedBy(DeliveriesOf(w), ChannelsOf(w), message), message.Chat?)
  {
    DoomedAreThere(w, message);
  }

  lemma BroadcastProgram(removals: seq<bool>)
    ensures [Acquire(Locks.Deliveries), Touch(Locks.Deliveries)]
            + ([Release(Locks.Deliveries)] + RemovalsLocks(removals)) == LocksOf(Broadcast(removals))
  {
  }

  /** A presence broadcast takes the locks of a broadcast, with one removal for each of the doomed. */
  lemma PresenceTrace(w: World, users: seq<string>, order: seq<Token>, gone: seq<Token>)
    requires RowsInv(w) && w.clientsLock == ClientsFree && PresenceBeginStep(w, users).Some?
    requires Enumerates(order, DeliveryTokens(w))
    requires Enumerates(gone, DoomedBy(DeliveriesOf(w), ChannelsOf(w), Presence(users)))
    ensures RunFrom(w, [PresenceBegin(users)] + BroadcastSteps(order, gone, false)).Some?
    ensures Trace(w, [PresenceBegin(users)] + BroadcastSteps(order, gone, false)) == LocksOf(Broadcast(Trues(|gone|)))
  {
    hide Trace, RunFrom, Enumerates, DoomedBy, RowsInv, DeliveriesOf, ChannelsOf, BroadcastSteps, RemovalsLocks,
      LocksOf, Trues;
    BroadcastProgram(Trues(|gone|));
    var w1 := PresenceBeginStep(w, users).value;
    SameRegistries(w, w1);
    OffersTrace(w1, Presence(users), order, gone);
    TraceFirst(w, PresenceBegin(users), BroadcastSteps(order, gone, false));
  }

  lemma SameRegistries(w: World, w1: World)
    requires w1.clients == w.clients && w1.clientsLock == w.clientsLock
    ensures RowsInv(w1) == RowsInv(w) && DeliveryTokens(w1) == DeliveryTokens(w)
    ensures DeliveriesOf(w1) == DeliveriesOf(w) && ChannelsOf(w1) == ChannelsOf(w)
  {
    assert DeliveriesOf(w1) == DeliveriesOf(w);
    assert ChannelsOf(w1) == ChannelsOf(w);
  }

  lemma ChatTrace(w: World, order: seq<Token>, gone: seq<Token>)
    requires RowsInv(w) && w.clientsLock == ClientsFree && ChatOfferStep(w).Some?
    requires var message := Chat(w.log[|w.log| - 1]);
             && Enumerates(order, DeliveryTokens(w))
             && Enumerates(gone, DoomedBy(DeliveriesOf(w), ChannelsOf(w), message))
    ensures RunFrom(w, [ChatOffer] + BroadcastSteps(order, gone, true)).Some?
    ensures Trace(w, [ChatOffer] + BroadcastSteps(order, gone, true)) == LocksOf(Broadcast(Trues(|gone|)))
  {
    hide Trace, RunFrom, Enumerates, DoomedBy, RowsInv, DeliveriesOf, ChannelsOf, BroadcastSteps, RemovalsLocks,
      LocksOf, Trues;
    BroadcastProgram(Trues(|gone|));
    var w1 := ChatOfferStep(w).value;
    SameRegistries(w, w1);
    OffersTrace(w1, Chat(w.log[|w.log| - 1]), order, gone);
    TraceFirst(w, ChatOffer, BroadcastSteps(order, gone, true));
  }

  lemma RecordProgram(removals: seq<bool>)
    ensures [Acquire(ReplayBarrier)] + Section(History)
            + (LocksOf(Broadcast(removals)) + [Release(ReplayBarrier)]) == LocksOf(RecordAndBroadcast(removals))
  {
  }

  lemma RecordEnds(w: World, t: Token, byWriter: bool, entry: Entry, steps: seq<Step>)
    requires ChatBeginStep(w, t, byWriter, entry).Some?
    requires RunFrom(ChatBeginStep(w, t, byWriter, entry).value, steps + [ChatEnd]).Some?
    requires RunFrom(ChatBeginStep(w, t, byWriter, entry).value, steps).Some?
    ensures var all := [ChatBegin(t, byWriter, entry)] + (steps + [ChatEnd]);
            && RunFrom(w, all).Some?
            && Trace(w, all) == [Acquire(ReplayBarrier)] + Section(History)
                                + (Trace(ChatBeginStep(w, t, byWriter, entry).value, steps) + [Release(ReplayBarrier)])
  {
    hide Trace, RunFrom, ChatBeginStep;
    assert Next(w, ChatBegin(t, byWriter, entry)) == ChatBeginStep(w, t, byWriter, entry);
    var w1 := ChatBeginStep(w, t, byWriter, entry).value;
    TraceConcat(w1, steps, [ChatEnd]);
    var w2 := RunFrom(w1, steps).value;
    RunOne(w2, ChatEnd);
    TraceOne(w2, ChatEnd);
    TraceFirst(w, ChatBegin(t, byWriter, entry), steps + [ChatEnd]);
  }

  /** The steps of a recorded line and its broadcast take the locks of that operation, in that order. */
  lemma RecordTrace(w: World, t: Token, byWriter: bool, entry: Entry, order: seq<Token>, gone: seq<Token>)
    requires RowsInv(w) && Progress.Quiet(w) && ChatBeginStep(w, t, byWriter, entry).Some?
    requires Enumerates(order, DeliveryTokens(w))
    requires Enumerates(gone, DoomedBy(DeliveriesOf(w), ChannelsOf(w), Chat(entry)))
    ensures RunFrom(w, Progress.RecordSteps(t, byWriter, entry, order, gone)).Some?
    ensures Trace(w, Progress.RecordSteps(t, byWriter, entry, order, gone))
            == LocksOf(RecordAndBroadcast(Trues(|gone|)))
  {
    hide Trace, RunFrom, Enumerates, DoomedBy, RowsInv, DeliveriesOf, ChannelsOf, BroadcastSteps, LocksOf, Trues;
    var w1 := ChatBeginStep(w, t, byWriter, entry).value;
    var broadcast := [ChatOffer] + BroadcastSteps(order, gone, true);
    Progress.LineBegins(w, t, byWriter, entry);
    Progress.LineIsRecorded(w, t, byWriter, entry, order, gone);
    ChatTrace(w1, order, gone);
    RunFirst(w, ChatBegin(t, byWriter, entry), broadcast + [ChatEnd]);
    RecordEnds(w, t, byWriter, entry, broadcast);
    RecordProgram(Trues(|gone|));
  }

  // ---- A whole replay -------------------------------------------------------------------------

  lemma {:induction false} FlushTrace(w: World, t: Token, done: seq<Message>, rest: seq<Message>)
    requires w.deliveriesLock == Flushing(t, done, rest) && w.barrier.Replay?
    requires t in w.clients && w.clients[t].delivery.Some? && w.clients[t].delivery.value.pending == []
    ensures var steps := FlushSteps(Flush(rest, w.clients[t].channel));
            RunFrom(w, steps).Some? && Trace(w, steps) == [Release(Locks.Deliveries), Release(ReplayBarrier)]
    decreases |rest|
  {
    hide Trace, RunFrom;
    var c := w.clients[t];
    var f := Flush(rest, c.channel);
    FlushLoop(w, t, done, rest);
    if rest == [] || TrySend(c.channel, rest[0]).0 != Sent {
      FlushEnds(w, t, done, rest);
      var last := if f.result == Sent then FlushEnd else FlushSend;
      assert FlushSteps(f) == [last];
      TraceOne(w, last);
    } else {
      FlushNext(rest, c.channel);
      var w1 := FlushSendStep(w).value;
      FlushTrace(w1, t, done + [rest[0]], rest[1..]);
      TraceFirst(w, FlushSend, FlushSteps(Flush(rest[1..], w1.clients[t].channel)));
    }
  }

  lemma FlushProgram()
    ensures [Acquire(Locks.Deliveries), Touch(Locks.Deliveries)]
            + [Release(Locks.Deliveries), Release(ReplayBarrier)] == Section(Locks.Deliveries) + [Release(ReplayBarrier)]
  {
  }

  lemma FlushBeginTrace(w: World, t: Token)
    requires w.barrier == Replay(t, []) && w.deliveriesLock == DeliveriesFree
    requires t in w.clients && w.clients[t].delivery.Some?
    ensures var steps := [FlushBegin] + FlushSteps(Flush(w.clients[t].delivery.value.pending, w.clients[t].channel));
            RunFrom(w, steps).Some? && Trace(w, steps) == Section(Locks.Deliveries) + [Release(ReplayBarrier)]
  {
    hide Trace, RunFrom, FlushSteps, Flush;
    var pending := w.clients[t].delivery.value.pending;
    var w1 := FlushBeginStep(w).value;
    FlushTrace(w1, t, [], pending);
    FlushProgram();
    TraceFirst(w, FlushBegin, FlushSteps(Flush(pending, w.clients[t].channel)));
  }

  lemma {:induction false} HistoryTrace(w: World, t: Token, history: seq<Entry>)
    requires w.barrier == Replay(t, history) && w.deliveriesLock == DeliveriesFree
    requires t in w.clients && w.clients[t].delivery.Some?
    ensures var c := w.clients[t];
            var steps := ReplaySteps(c.delivery.value, c.channel, history);
            var sent := Flush(ChatMessages(history), c.channel).result == Sent;
            && RunFrom(w, steps).Some?
            && Trace(w, steps) == (if sent then Section(Locks.Deliveries) else []) + [Release(ReplayBarrier)]
    decreases |history|
  {
    hide Trace, RunFrom;
    var c := w.clients[t];
    HistoryLoop(w, t, history);
    if history == [] {
      ReplayOfNothing(c.delivery.value, c.channel);
      FlushBeginTrace(w, t);
      assert ChatMessages(history) == [];
    } else if TrySend(c.channel, Chat(history[0])).0 != Sent {
      ReplayRefused(w, t, history);
      ChatMessagesNext(history);
      TraceOne(w, ReplaySend);
      assert [] + [Release(ReplayBarrier)] == [Release(ReplayBarrier)];
    } else {
      ReplayNext(c.delivery.value, c.channel, history);
      ChatMessagesNext(history);
      FlushFirst(ChatMessages(history), c.channel);
      var w1 := ReplaySendStep(w).value;
      HistoryTrace(w1, t, history[1..]);
      TraceFirst(w, ReplaySend, ReplaySteps(c.delivery.value, w1.clients[t].channel, history[1..]));
    }
  }

  /** The steps of a replay take the locks of that operation, in that order. */
  lemma ReplayTrace(w: World, t: Token)
    requires t in w.clients && ReplayBeginStep(w, t).Some? && w.clients[t].delivery.Some?
    ensures var c := w.clients[t];
            var steps := [ReplayBegin(t)] + ReplaySteps(c.delivery.value, c.channel, w.history);
            var sent := Flush(ChatMessages(w.history), c.channel).result == Sent;
            RunFrom(w, steps).Some? && Trace(w, steps) == LocksOf(HistoryReplay(true, sent))
  {
    hide Trace, RunFrom, ReplaySteps, ServeReplay, AfterReplay;
    var c := w.clients[t];
    ReplayIsServed(w, t);
    var w1 := ReplayBeginStep(w, t).value;
    HistoryTrace(w1, t, w.history);
    TraceFirst(w, ReplayBegin(t), ReplaySteps(c.delivery.value, c.channel, w.history));
  }
}
