/**
  The order in which the server takes its mutexes. Every operation is written as the locks it takes
  and releases, and what it touches meanwhile, on each of its paths; tasks are any sequences of
  operations, any number at a time.
 */
module Locks {
  import opened Common

  datatype Lock = ReplayBarrier | Clients | Deliveries | History | RateLimits

  /** `Touch` is any use of what the mutex guards. */
  datatype Action = Acquire(lock: Lock) | Release(lock: Lock) | Touch(lock: Lock)

  type Program = seq<Action>

  const NO_LOCKS: set<Lock> := {}

  function Rank(l: Lock): nat {
    match l
    case ReplayBarrier => 0
    case Clients => 1
    case Deliveries => 2
    case History => 3
    case RateLimits => 4
  }

  // ---- The operations of the server -----------------------------------------------------------

  /** One mutex held for one statement or block. */
  function Section(l: Lock): Program {
    [Acquire(l), Touch(l), Release(l)]
  }

  /** A body run while a mutex is held. */
  function Within(l: Lock, body: Program): Program {
    [Acquire(l)] + body + [Release(l)]
  }

  /** One call of an operation, with the outcomes that decide which path it takes. */
  datatype Operation =
    | RegisterClient(full: bool)
    | SetUsername
    | Usernames
    | AllowMessage
    | CleanupRateLimits
    | MarkReady
    | HistoryReplay(known: bool, sent: bool)
    | Remove(found: bool)
    | Broadcast(removals: seq<bool>)
    | RecordAndBroadcast(removals: seq<bool>)
    | Prune(removals: seq<bool>)
    | BroadcastPresence(pruned: seq<bool>, encoded: bool, removals: seq<bool>)

  function RegisterLocks(full: bool): Program {
    if full then [Acquire(Clients), Touch(Clients), Release(Clients)]
    else [Acquire(Clients), Touch(Clients), Acquire(Deliveries), Touch(Clients), Touch(Deliveries),
          Release(Deliveries), Release(Clients)]
  }

  function RemoveLocks(found: bool): Program {
    if !found then [Acquire(Clients), Touch(Clients), Release(Clients)]
    else [Acquire(Clients), Touch(Clients), Acquire(Deliveries), Touch(Deliveries),
          Release(Deliveries), Release(Clients)]
  }

  /** The removals after a broadcast or a scan, one per doomed client. */
  function RemovalsLocks(removals: seq<bool>): Program {
    if removals == [] then []
    else RemoveLocks(removals[0]) + RemovalsLocks(removals[1..])
  }

  function LocksOf(op: Operation): Program {
    match op
    case RegisterClient(full) => RegisterLocks(full)
    case SetUsername => Section(Clients)
    case Usernames => Section(Clients)
    case AllowMessage => Section(RateLimits)
    case CleanupRateLimits => Section(RateLimits)
    case MarkReady => Section(Deliveries)
    case HistoryReplay(known, sent) =>
      Within(ReplayBarrier, Section(Deliveries)
                            + (if known then Section(History) else [])
                            + (if known && sent then Section(Deliveries) else []))
    case Remove(found) => RemoveLocks(found)
    case Broadcast(removals) => Section(Deliveries) + RemovalsLocks(removals)
    case RecordAndBroadcast(removals) =>
      Within(ReplayBarrier, Section(History) + (Section(Deliveries) + RemovalsLocks(removals)))
    case Prune(removals) => Section(Deliveries) + RemovalsLocks(removals)
    case BroadcastPresence(pruned, encoded, removals) =>
      (Section(Deliveries) + RemovalsLocks(pruned)) + Section(Clients)
      + (if encoded then Section(Deliveries) + RemovalsLocks(removals) else [])
  }

  // ---- The order ------------------------------------------------------------------------------

  /**
    From holding `held`, the program takes only higher-ranked locks, touches only what it has locked,
    and ends holding nothing.
   */
  predicate Ordered(held: set<Lock>, p: Program)
    decreases |p|
  {
    if p == [] then held == {}
    else match p[0]
      case Acquire(l) => (forall h | h in held :: Rank(h) < Rank(l)) && Ordered(held + {l}, p[1..])
      case Release(l) => l in held && Ordered(held - {l}, p[1..])
      case Touch(l) => l in held && Ordered(held, p[1..])
  }

  lemma {:induction false} OrderedConcat(held: set<Lock>, p: Program, q: Program, outer: set<Lock>)
    requires Ordered(held, p) && Ordered(outer, q)
    requires forall o, l | o in outer && (l in held || Acquire(l) in p) :: Rank(o) < Rank(l)
    ensures Ordered(held + outer, p + q)
    decreases |p|
  {
    if p == [] {
      assert p + q == q;
      assert held + outer == outer;
    } else {
      assert (p + q)[1..] == p[1..] + q;
      match p[0]
      case Acquire(l) =>
        OrderedConcat(held + {l}, p[1..], q, outer);
        assert held + {l} + outer == held + outer + {l};
      case Release(l) =>
        OrderedConcat(held - {l}, p[1..], q, outer);
        assert l !in outer;
        assert held - {l} + outer == held + outer - {l};
      case Touch(l) =>
        OrderedConcat(held, p[1..], q, outer);
    }
  }

  /** Two programs that start and end with no lock, one after the other. */
  lemma OrderedSequence(p: Program, q: Program)
    requires Ordered({}, p) && Ordered({}, q)
    ensures Ordered({}, p + q)
  {
    OrderedConcat({}, p, q, {});
    assert NO_LOCKS + NO_LOCKS == NO_LOCKS;
  }

  predicate Above(l: Lock, p: Program) {
    forall a | a in p && a.Acquire? :: Rank(l) < Rank(a.lock)
  }

  lemma OrderedWithin(l: Lock, body: Program)
    requires Ordered({}, body) && Above(l, body)
    ensures Ordered({}, Within(l, body))
  {
    assert {l} - {l} == NO_LOCKS;
    assert [Release(l)][1..] == [];
    assert Ordered({l}, [Release(l)]);
    OrderedConcat({}, body, [Release(l)], {l});
    assert NO_LOCKS + {l} == {l};
    assert Within(l, body)[1..] == body + [Release(l)];
  }

  predicate MayPrecede(held: set<Lock>, a: Action, rest: Program) {
    match a
    case Acquire(l) => (forall h | h in held :: Rank(h) < Rank(l)) && Ordered(held + {l}, rest)
    case Release(l) => l in held && Ordered(held - {l}, rest)
    case Touch(l) => l in held && Ordered(held, rest)
  }

  lemma OrderedFirst(held: set<Lock>, a: Action, rest: Program)
    requires MayPrecede(held, a, rest)
    ensures Ordered(held, [a] + rest)
  {
    assert ([a] + rest)[1..] == rest;
  }

  lemma OrderedSection(l: Lock)
    ensures Ordered({}, Section(l))
  {
    assert {l} - {l} == NO_LOCKS;
    OrderedFirst({l}, Release(l), []);
    OrderedFirst({l}, Touch(l), [Release(l)]);
    OrderedFirst({}, Acquire(l), [Touch(l), Release(l)]);
  }

  /** The part of a registration or removal in which both registries are locked. */
  lemma OrderedInner(touches: Program)
    requires touches == [Touch(Deliveries)] || touches == [Touch(Clients), Touch(Deliveries)]
    ensures Ordered({Clients}, [Acquire(Deliveries)] + touches + [Release(Deliveries), Release(Clients)])
  {
    var both: set<Lock> := {Clients} + {Deliveries};
    assert both - {Deliveries} == {Clients} && {Clients} - {Clients} == NO_LOCKS;
    OrderedFirst({Clients}, Release(Clients), []);
    OrderedFirst(both, Release(Deliveries), [Release(Clients)]);
    OrderedFirst(both, Touch(Deliveries), [Release(Deliveries), Release(Clients)]);
    var rest := [Touch(Deliveries), Release(Deliveries), Release(Clients)];
    OrderedFirst(both, Touch(Clients), rest);
    assert [Touch(Clients)] + rest == [Touch(Clients), Touch(Deliveries)] + [Release(Deliveries), Release(Clients)];
    OrderedFirst({Clients}, Acquire(Deliveries), touches + [Release(Deliveries), Release(Clients)]);
    assert [Acquire(Deliveries)] + touches + [Release(Deliveries), Release(Clients)]
        == [Acquire(Deliveries)] + (touches + [Release(Deliveries), Release(Clients)]);
  }

  lemma OrderedBoth(touches: Program)
    requires touches == [Touch(Deliveries)] || touches == [Touch(Clients), Touch(Deliveries)]
    ensures Ordered({}, [Acquire(Clients), Touch(Clients)]
                        + ([Acquire(Deliveries)] + touches + [Release(Deliveries), Release(Clients)]))
  {
    var inner := [Acquire(Deliveries)] + touches + [Release(Deliveries), Release(Clients)];
    OrderedInner(touches);
    OrderedFirst({Clients}, Touch(Clients), inner);
    assert {} + {Clients} == {Clients};
    OrderedFirst({}, Acquire(Clients), [Touch(Clients)] + inner);
    assert [Acquire(Clients), Touch(Clients)] + inner == [Acquire(Clients)] + ([Touch(Clients)] + inner);
  }

  lemma OrderedRemove(found: bool)
    ensures Ordered({}, RemoveLocks(found))
  {
    OrderedSection(Clients);
    OrderedBoth([Touch(Deliveries)]);
    assert RemoveLocks(true) == [Acquire(Clients), Touch(Clients)]
        + ([Acquire(Deliveries)] + [Touch(Deliveries)] + [Release(Deliveries), Release(Clients)]);
  }

  lemma {:induction false} OrderedRemovals(removals: seq<bool>)
    ensures Ordered({}, RemovalsLocks(removals)) && Above(ReplayBarrier, RemovalsLocks(removals))
  {
    if removals != [] {
      OrderedRemove(removals[0]);
      OrderedRemovals(removals[1..]);
      OrderedSequence(RemoveLocks(removals[0]), RemovalsLocks(removals[1..]));
    }
  }

  lemma OrderedBroadcast(removals: seq<bool>)
    ensures var p := Section(Deliveries) + RemovalsLocks(removals);
            Ordered({}, p) && Above(ReplayBarrier, p)
  {
    OrderedSection(Deliveries);
    OrderedRemovals(removals);
    OrderedSequence(Section(Deliveries), RemovalsLocks(removals));
  }

  lemma OrderedReplay(known: bool, sent: bool)
    ensures Ordered({}, LocksOf(HistoryReplay(known, sent)))
  {
    var first, second := Section(Deliveries), if known then Section(History) else [];
    var third := if known && sent then Section(Deliveries) else [];
    OrderedSection(Deliveries);
    OrderedSection(History);
    OrderedSequence(first, second);
    OrderedSequence(first + second, third);
    OrderedWithin(ReplayBarrier, first + second + third);
  }

  lemma OrderedRecordAndBroadcast(removals: seq<bool>)
    ensures Ordered({}, LocksOf(RecordAndBroadcast(removals)))
  {
    var broadcast := Section(Deliveries) + RemovalsLocks(removals);
    OrderedBroadcast(removals);
    OrderedSection(History);
    OrderedSequence(Section(History), broadcast);
    OrderedWithin(ReplayBarrier, Section(History) + broadcast);
  }

  lemma OrderedPresence(pruned: seq<bool>, encoded: bool, removals: seq<bool>)
    ensures Ordered({}, LocksOf(BroadcastPresence(pruned, encoded, removals)))
  {
    var prune := Section(Deliveries) + RemovalsLocks(pruned);
    var broadcast := if encoded then Section(Deliveries) + RemovalsLocks(removals) else [];
    OrderedBroadcast(pruned);
    OrderedBroadcast(removals);
    OrderedSection(Clients);
    OrderedSequence(prune, Section(Clients));
    OrderedSequence(prune + Section(Clients), broadcast);
  }

  lemma OrderedRegister(full: bool)
    ensures Ordered({}, RegisterLocks(full))
  {
    OrderedSection(Clients);
    OrderedBoth([Touch(Clients), Touch(Deliveries)]);
    assert RegisterLocks(false) == [Acquire(Clients), Touch(Clients)]
        + ([Acquire(Deliveries)] + [Touch(Clients), Touch(Deliveries)] + [Release(Deliveries), Release(Clients)]);
  }

  /** Every operation takes its mutexes in increasing rank, touches under them, and returns holding none. */
  lemma OperationsAreOrdered(op: Operation)
    ensures Ordered({}, LocksOf(op))
  {
    match op
    case RegisterClient(full) => OrderedRegister(full);
    case SetUsername => OrderedSection(Clients);
    case Usernames => OrderedSection(Clients);
    case AllowMessage => OrderedSection(RateLimits);
    case CleanupRateLimits => OrderedSection(RateLimits);
    case MarkReady => OrderedSection(Deliveries);
    case HistoryReplay(known, sent) => OrderedReplay(known, sent);
    case Remove(found) => OrderedRemove(found);
    case Broadcast(removals) => OrderedBroadcast(removals);
    case RecordAndBroadcast(removals) => OrderedRecordAndBroadcast(removals);
    case Prune(removals) => OrderedBroadcast(removals);
    case BroadcastPresence(pruned, encoded, removals) => OrderedPresence(pruned, encoded, removals);
  }

  // ---- Any number of tasks --------------------------------------------------------------------

  /** A task in its latest operation: what it holds, and what it has yet to do. */
  datatype Task = Task(op: Option<Operation>, held: set<Lock>, todo: Program)

  /** One move of the system: task `i` starts an operation, or does the next action of its own. */
  datatype Move = Start(i: nat, op: Operation) | Act(i: nat)

  predicate Holds(tasks: seq<Task>, l: Lock) {
    exists j :: 0 <= j < |tasks| && l in tasks[j].held
  }

  /** A task can act unless it waits for a mutex that some task holds, itself included. */
  predicate CanAct(tasks: seq<Task>, i: nat)
    requires i < |tasks|
  {
    && tasks[i].todo != []
    && (tasks[i].todo[0].Acquire? ==> !Holds(tasks, tasks[i].todo[0].lock))
  }

  function After(t: Task): Task
    requires t.todo != []
  {
    match t.todo[0]
    case Acquire(l) => t.(held := t.held + {l}, todo := t.todo[1..])
    case Release(l) => t.(held := t.held - {l}, todo := t.todo[1..])
    case Touch(_) => t.(todo := t.todo[1..])
  }

  predicate Enabled(tasks: seq<Task>, m: Move) {
    match m
    case Start(i, op) => i < |tasks| && tasks[i].todo == []
    case Act(i) => i < |tasks| && CanAct(tasks, i)
  }

  function Do(tasks: seq<Task>, m: Move): seq<Task>
    requires Enabled(tasks, m)
  {
    match m
    case Start(i, op) => tasks[i := tasks[i].(op := Some(op), todo := LocksOf(op))]
    case Act(i) => tasks[i := After(tasks[i])]
  }

  /** `n` idle tasks after a sequence of moves, if those moves can happen in that order. */
  ghost function Moved(n: nat, moves: seq<Move>): Option<seq<Task>> {
    if moves == [] then
      Some(seq(n, _ => Task(None, {}, [])))
    else
      var tasks, m := Moved(n, moves[..|moves| - 1]), moves[|moves| - 1];
      if tasks.Some? && Enabled(tasks.value, m) then Some(Do(tasks.value, m)) else None
  }

  predicate TasksOk(tasks: seq<Task>) {
    && (forall i | 0 <= i < |tasks| :: Ordered(tasks[i].held, tasks[i].todo))
    && (forall i, j | 0 <= i < j < |tasks| :: tasks[i].held !! tasks[j].held)
  }

  lemma MoveKeepsTasksOk(tasks: seq<Task>, m: Move)
    requires TasksOk(tasks) && Enabled(tasks, m)
    ensures TasksOk(Do(tasks, m))
  {
    if m.Start? { OperationsAreOrdered(m.op); }
  }

  lemma {:induction false} MovesKeepTasksOk(n: nat, moves: seq<Move>)
    requires Moved(n, moves).Some?
    ensures TasksOk(Moved(n, moves).value)
  {
    if moves != [] {
      MovesKeepTasksOk(n, moves[..|moves| - 1]);
      MoveKeepsTasksOk(Moved(n, moves[..|moves| - 1]).value, moves[|moves| - 1]);
    }
  }

  /** Following the chain of waiting tasks, whose wanted ranks rise, ends at one that can act. */
  lemma {:induction false} SomeoneCanAct(tasks: seq<Task>, i: nat) returns (j: nat)
    requires TasksOk(tasks) && i < |tasks| && tasks[i].todo != []
    ensures j < |tasks| && CanAct(tasks, j)
    ensures j == i || tasks[j].held != {}
    decreases if tasks[i].todo[0].Acquire? then 5 - Rank(tasks[i].todo[0].lock) else 5
  {
    j := i;
    if !CanAct(tasks, i) {
      var l := tasks[i].todo[0].lock;
      var k :| 0 <= k < |tasks| && l in tasks[k].held;
      assert Ordered(tasks[k].held, tasks[k].todo);
      if CanAct(tasks, k) {
        j := k;
      } else {
        j := SomeoneCanAct(tasks, k);
      }
    }
  }

  /**
    No deadlock: in every reachable state, if a task is inside an operation then some task can act;
    and a task that waits always waits while a task that holds a mutex can act.
   */
  lemma NoDeadlock(n: nat, moves: seq<Move>, tasks: seq<Task>, i: nat)
    requires Moved(n, moves) == Some(tasks) && i < |tasks| && tasks[i].todo != []
    ensures exists j | 0 <= j < |tasks| :: CanAct(tasks, j) && (j == i || tasks[j].held != {})
    ensures tasks[i].todo[0].Acquire? ==> tasks[i].todo[0].lock !in tasks[i].held
  {
    MovesKeepTasksOk(n, moves);
    assert Ordered(tasks[i].held, tasks[i].todo);
    var j := SomeoneCanAct(tasks, i);
  }

  // ---- What the operations touch --------------------------------------------------------------

  /** Whether an operation touches what a mutex guards. */
  predicate Touches(op: Operation, l: Lock) {
    exists k | 0 <= k < |LocksOf(op)| :: LocksOf(op)[k] == Touch(l)
  }

  lemma TouchesIn(op: Operation, before: Program, l: Lock, after: Program)
    requires LocksOf(op) == before + Section(l) + after
    ensures Touches(op, l)
  {
    assert LocksOf(op)[|before| + 1] == Touch(l);
  }

  /** The registries, the history and the rate limits are touched by the operations that are about them. */
  lemma OperationsTouch(op: Operation)
    ensures op.RegisterClient? || op.SetUsername? || op.Usernames? || op.Remove? || op.BroadcastPresence? ==>
              Touches(op, Clients)
    ensures op == RegisterClient(false) || op == Remove(true) || op.MarkReady? || op.HistoryReplay? ==>
              Touches(op, Deliveries)
    ensures op.Broadcast? || op.RecordAndBroadcast? || op.Prune? || op.BroadcastPresence? ==>
              Touches(op, Deliveries)
    ensures op.RecordAndBroadcast? || (op.HistoryReplay? && op.known) ==> Touches(op, History)
    ensures op.AllowMessage? || op.CleanupRateLimits? ==> Touches(op, RateLimits)
  {
    var p := LocksOf(op);
    match op
    case RegisterClient(full) =>
      assert p[1] == Touch(Clients) && (!full ==> p[4] == Touch(Deliveries));
    case Remove(found) =>
      assert p[1] == Touch(Clients) && (found ==> p[3] == Touch(Deliveries));
    case HistoryReplay(known, sent) =>
      assert p[2] == Touch(Deliveries) && (known ==> p[5] == Touch(History));
    case RecordAndBroadcast(removals) =>
      assert p[2] == Touch(History) && p[5] == Touch(Deliveries);
    case BroadcastPresence(pruned, encoded, removals) =>
      var rest := if encoded then Section(Deliveries) + RemovalsLocks(removals) else [];
      TouchesIn(op, Section(Deliveries) + RemovalsLocks(pruned), Clients, rest);
      assert p[1] == Touch(Deliveries);
    case _ =>
      assert p[1].Touch?;
  }

  /** A presence broadcast is a pruning, a listing of the names and, if they fit a frame, a broadcast. */
  lemma PresenceIsComposed(pruned: seq<bool>, encoded: bool, removals: seq<bool>)
    ensures LocksOf(BroadcastPresence(pruned, encoded, removals))
            == LocksOf(Prune(pruned)) + LocksOf(Usernames) + if encoded then LocksOf(Broadcast(removals)) else []
    ensures LocksOf(Prune(pruned)) == LocksOf(MarkReady) + RemovalsLocks(pruned)
    ensures pruned != [] ==> RemovalsLocks(pruned) == LocksOf(Remove(pruned[0])) + RemovalsLocks(pruned[1..])
    ensures RemovalsLocks([]) == []
  {
  }

  // ---- Mutual exclusion -----------------------------------------------------------------------

  /**
    What a task is about to touch it has locked, and no other task holds that mutex; so no two tasks
    are ever about to touch what the same mutex guards.
   */
  lemma TouchedOnlyWhileHeld(n: nat, moves: seq<Move>, tasks: seq<Task>, i: nat, j: nat)
    requires Moved(n, moves) == Some(tasks) && i < |tasks| && j < |tasks| && i != j
    requires tasks[i].todo != [] && tasks[i].todo[0].Touch?
    ensures tasks[i].todo[0].lock in tasks[i].held && tasks[i].todo[0].lock !in tasks[j].held
    ensures tasks[j].todo != [] ==> tasks[j].todo[0] != tasks[i].todo[0]
  {
    MovesKeepTasksOk(n, moves);
    assert Ordered(tasks[i].held, tasks[i].todo) && Ordered(tasks[j].held, tasks[j].todo);
    assert tasks[i].held !! tasks[j].held;
  }

  /** The operations that must not overlap: a replay, and the recording of a line with its broadcast. */
  predicate IsExclusive(op: Operation) {
    op.HistoryReplay? || op.RecordAndBroadcast?
  }

  /** A program that takes the barrier first and releases it last, and holds it in between. */
  predicate Spanned(p: Program) {
    && |p| >= 2 && p[0] == Acquire(ReplayBarrier) && p[|p| - 1] == Release(ReplayBarrier)
    && forall k | 0 < k < |p| - 1 :: p[k] != Release(ReplayBarrier)
  }

  predicate NoBarrier(p: Program) {
    forall k | 0 <= k < |p| :: p[k].lock != ReplayBarrier
  }

  lemma {:induction false} RemovalsTakeNoBarrier(removals: seq<bool>)
    ensures NoBarrier(RemovalsLocks(removals))
  {
    if removals != [] { RemovalsTakeNoBarrier(removals[1..]); }
  }

  lemma WithinIsSpanned(body: Program)
    requires NoBarrier(body)
    ensures Spanned(Within(ReplayBarrier, body))
  {
    var p := Within(ReplayBarrier, body);
    forall k | 0 < k < |p| - 1 ensures p[k] != Release(ReplayBarrier) {
      assert p[k] == body[k - 1];
    }
  }

  /** A replay and a recording with its broadcast are spanned by the barrier, on every path. */
  lemma ExclusiveIsSpanned(op: Operation)
    requires IsExclusive(op)
    ensures Spanned(LocksOf(op))
  {
    match op
    case HistoryReplay(known, sent) =>
      WithinIsSpanned(Section(Deliveries) + (if known then Section(History) else [])
                      + (if known && sent then Section(Deliveries) else []));
    case RecordAndBroadcast(removals) =>
      RemovalsTakeNoBarrier(removals);
      WithinIsSpanned(Section(History) + (Section(Deliveries) + RemovalsLocks(removals)));
    case _ => assert false;
  }

  /** What is left of a program; begun and not ended, a spanned one means that the barrier is held. */
  predicate PlacedIn(p: Program, spanned: bool, held: set<Lock>, todo: Program) {
    todo != [] ==>
      && |todo| <= |p| && todo == p[|p| - |todo|..]
      && (spanned && |todo| < |p| ==> ReplayBarrier in held)
  }

  lemma NextIsPlaced(p: Program, spanned: bool, held: set<Lock>, held': set<Lock>, todo: Program)
    requires PlacedIn(p, spanned, held, todo) && todo != [] && (spanned ==> Spanned(p))
    requires held' == match todo[0]
                      case Acquire(l) => held + {l}
                      case Release(l) => held - {l}
                      case Touch(_) => held
    ensures PlacedIn(p, spanned, held', todo[1..])
  {
    var k := |p| - |todo|;
    assert todo[0] == p[k] && todo[1..] == p[k + 1..];
  }

  /** The task is somewhere in its operation. */
  predicate Placed(t: Task) {
    t.todo != [] ==> t.op.Some? && PlacedIn(LocksOf(t.op.value), IsExclusive(t.op.value), t.held, t.todo)
  }

  lemma AfterIsPlaced(t: Task)
    requires Placed(t) && t.todo != []
    ensures Placed(After(t))
  {
    hide LocksOf, PlacedIn;
    if IsExclusive(t.op.value) { ExclusiveIsSpanned(t.op.value); }
    NextIsPlaced(LocksOf(t.op.value), IsExclusive(t.op.value), t.held, After(t).held, t.todo);
  }

  lemma {:induction false} MovesKeepPlaced(n: nat, moves: seq<Move>)
    requires Moved(n, moves).Some?
    ensures forall i | 0 <= i < |Moved(n, moves).value| :: Placed(Moved(n, moves).value[i])
  {
    if moves != [] {
      var tasks, m := Moved(n, moves[..|moves| - 1]).value, moves[|moves| - 1];
      MovesKeepPlaced(n, moves[..|moves| - 1]);
      if m.Act? { AfterIsPlaced(tasks[m.i]); }
    }
  }

  /** Whether a task has begun an exclusive operation and not ended it. */
  predicate IsInside(t: Task) {
    t.todo != [] && t.op.Some? && IsExclusive(t.op.value) && |t.todo| < |LocksOf(t.op.value)|
  }

  /** No two tasks are ever inside a replay or a recording with its broadcast at the same time. */
  lemma AtMostOneInside(n: nat, moves: seq<Move>, tasks: seq<Task>, i: nat, j: nat)
    requires Moved(n, moves) == Some(tasks) && i < j < |tasks|
    ensures !(IsInside(tasks[i]) && IsInside(tasks[j]))
    ensures IsInside(tasks[i]) ==> ReplayBarrier in tasks[i].held
  {
    MovesKeepTasksOk(n, moves);
    MovesKeepPlaced(n, moves);
    assert Placed(tasks[i]) && Placed(tasks[j]);
    assert tasks[i].held !! tasks[j].held;
  }
}
