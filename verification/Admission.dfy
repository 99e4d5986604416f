/**
  Connection permits layered over the session registry. Every accepted connection holds a global
  permit and is counted under its address until its handler returns; the registry keeps its own
  counts of the sessions. Runs interleave any number of connections at the granularity of the
  semaphore, the permit map and the registry. A client's token is the identity of its connection.
 */
module Admission {
  import opened Common
  import opened PerIp
  import opened Registry
  import Handshake
  import Presence
  import F = Frames

  /** The admission control as the accept loop uses it. */
  class ConnectionAdmission {
    var available: nat
    var perIp: Counts

    constructor ()
      ensures available == MAX_CONNECTIONS && perIp == map[]
    {
      available := MAX_CONNECTIONS;
      perIp := map[];
    }

    /** A permit, or nothing at all when one of the two limits is reached. */
    method TryAcquire(address: SocketAddr) returns (granted: bool)
      modifies this
      ensures granted <==> old(available) > 0 && CountOf(old(perIp), address.ip) < MAX_CONNECTIONS_PER_IP
      ensures granted ==> available == old(available) - 1 && perIp == Increment(old(perIp), address.ip)
      ensures !granted ==> available == old(available) && perIp == old(perIp)
    {
      if available == 0 {
        return false;
      }
      available := available - 1;
      var count := CountOf(perIp, address.ip);
      if count >= MAX_CONNECTIONS_PER_IP {
        available := available + 1;
        return false;
      }
      perIp := perIp[address.ip := count + 1];
      return true;
    }

    /** Dropping a permit gives back what it holds. */
    method DropPermit(ip: Ip)
      requires ip in perIp ==> perIp[ip] > 0
      modifies this
      ensures available == old(available) + 1
      ensures perIp == if ip in old(perIp) then Decrement(old(perIp), ip) else old(perIp)
    {
      if ip in perIp {
        var count := perIp[ip] - 1;
        perIp := perIp[ip := count];
        if count == 0 {
          perIp := perIp - {ip};
        }
        assert perIp == Decrement(old(perIp), ip);
      }
      available := available + 1;
    }
  }

  datatype Stage =
    | Acquiring                       // holds the global permit only
    | Admitted                        // counted under its address, reading the handshake
    | Named(username: string)         // the handshake was accepted
    | Registered(username: string)    // in the registry, unless someone took it out
    | Finished                        // its own removal has returned
    | Releasing                       // no longer counted under its address

  datatype Serve = Serve(addr: SocketAddr, stage: Stage)

  datatype State = State(serves: map<Token, Serve>, available: nat, permits: Counts, sessions: Sessions)

  const IDLE: State := State(map[], MAX_CONNECTIONS, map[], NO_SESSIONS)

  datatype Step =
    | Accept(t: Token, addr: SocketAddr)
    | Admit(t: Token)
    | HandshakeOk(t: Token, username: string)
    | HandshakeFails(t: Token)
    | Register(t: Token)
    | SetUsername(t: Token)
    | TakeOut(t: Token)     // a removal of the client by any task
    | Finish(t: Token)      // the handler's own removal
    | ReleaseAddress(t: Token)
    | ReleaseGlobal(t: Token)

  /** Whether the connection is counted under its address. */
  predicate IsCounted(stage: Stage) {
    !stage.Acquiring? && !stage.Releasing?
  }

  function CountedAddrs(serves: map<Token, Serve>): map<Token, SocketAddr> {
    map t | t in serves && IsCounted(serves[t].stage) :: serves[t].addr
  }

  function Move(st: State, t: Token, stage: Stage): State
    requires t in st.serves
  {
    st.(serves := st.serves[t := st.serves[t].(stage := stage)])
  }

  /** Taking a client out of the registry if it is there. */
  function TakenOut(s: Sessions, t: Token): Option<Sessions> {
    if t !in s.clients then Some(s)
    else if s.total > 0 && CountOf(s.perIp, s.clients[t].addr.ip) > 0 then Some(DropSession(s, t))
    else None
  }

  /** The state after a step, or `None` if it cannot be taken now. */
  function Next(st: State, step: Step): Option<State> {
    match step
    case Accept(t, addr) =>
      if t !in st.serves && st.available > 0 then
        Some(st.(serves := st.serves[t := Serve(addr, Acquiring)], available := st.available - 1))
      else None
    case Admit(t) =>
      if t in st.serves && st.serves[t].stage.Acquiring? then
        var ip := st.serves[t].addr.ip;
        if CountOf(st.permits, ip) >= MAX_CONNECTIONS_PER_IP then
          Some(st.(serves := st.serves - {t}, available := st.available + 1))
        else Some(Move(st, t, Admitted).(permits := Increment(st.permits, ip)))
      else None
    case HandshakeOk(t, username) =>
      if t in st.serves && st.serves[t].stage.Admitted? && Handshake.IsAccepted(username) then
        Some(Move(st, t, Named(username)))
      else None
    case HandshakeFails(t) =>
      if t in st.serves && st.serves[t].stage.Admitted? then Some(Move(st, t, Finished)) else None
    case Register(t) =>
      if t in st.serves && st.serves[t].stage.Named? then
        if HasRoom(st.sessions, st.serves[t].addr) then
          Some(Move(st, t, Stage.Registered(st.serves[t].stage.username))
               .(sessions := AddSession(st.sessions, t, st.serves[t].addr)))
        else Some(Move(st, t, Finished))
      else None
    case SetUsername(t) =>
      if t in st.serves && st.serves[t].stage.Registered? && t in st.sessions.clients then
        Some(st.(sessions := NameSession(st.sessions, t, st.serves[t].stage.username)))
      else None
    case TakeOut(t) =>
      if TakenOut(st.sessions, t).Some? then Some(st.(sessions := TakenOut(st.sessions, t).value)) else None
    case Finish(t) =>
      if t in st.serves && st.serves[t].stage.Registered? && TakenOut(st.sessions, t).Some? then
        Some(Move(st, t, Finished).(sessions := TakenOut(st.sessions, t).value))
      else None
    case ReleaseAddress(t) =>
      if t in st.serves && st.serves[t].stage.Finished? && CountOf(st.permits, st.serves[t].addr.ip) > 0 then
        Some(Move(st, t, Releasing).(permits := Decrement(st.permits, st.serves[t].addr.ip)))
      else None
    case ReleaseGlobal(t) =>
      if t in st.serves && st.serves[t].stage.Releasing? then
        Some(st.(serves := st.serves - {t}, available := st.available + 1))
      else None
  }

  function Run(steps: seq<Step>): Option<State> {
    if steps == [] then Some(IDLE)
    else
      var st := Run(steps[..|steps| - 1]);
      if st.None? then None else Next(st.value, steps[|steps| - 1])
  }

  ghost predicate Reachable(st: State) {
    exists steps :: Run(steps) == Some(st)
  }

  /** The semaphore and the permit map say exactly which connections there are. */
  ghost predicate PermitsOk(serves: map<Token, Serve>, available: nat, permits: Counts) {
    && available + |serves| == MAX_CONNECTIONS
    && Exact(permits, CountedAddrs(serves))
    && (forall ip: Ip :: WithinLimit(permits, ip))
  }

  predicate WithinLimit(permits: Counts, ip: Ip) {
    CountOf(permits, ip) <= MAX_CONNECTIONS_PER_IP
  }

  predicate StageOk(stage: Stage) {
    stage.Named? || stage.Registered? ==> Handshake.IsAccepted(stage.username)
  }

  ghost predicate StagesOk(serves: map<Token, Serve>) {
    forall t | t in serves :: StageOk(serves[t].stage)
  }

  /** A registered session belongs to a connection that holds a permit for the same address. */
  predicate OwnerOk(session: ClientSession, serve: Serve) {
    && serve.stage.Registered? && serve.addr == session.addr
    && (session.username.Some? ==> session.username.value == serve.stage.username)
  }

  ghost predicate OwnersOk(clients: map<Token, ClientSession>, serves: map<Token, Serve>) {
    forall t | t in clients :: t in serves && OwnerOk(clients[t], serves[t])
  }

  ghost predicate Inv(st: State) {
    && PermitsOk(st.serves, st.available, st.permits)
    && StagesOk(st.serves)
    && SessionsOk(st.sessions)
    && OwnersOk(st.sessions.clients, st.serves)
  }

  /** Sessions inject into permits, so the registry counts no more than the admission control. */
  lemma SessionsInjectIntoPermits(st: State, ip: Ip)
    requires Inv(st)
    ensures st.sessions.clients.Keys <= st.serves.Keys && |st.sessions.clients| <= |st.serves|
    ensures CountOf(st.sessions.perIp, ip) <= CountOf(st.permits, ip)
  {
    SubsetCardinality(st.sessions.clients.Keys, st.serves.Keys);
    assert ExactAt(st.sessions.perIp, Addrs(st.sessions.clients), ip);
    assert ExactAt(st.permits, CountedAddrs(st.serves), ip);
    FewerAt(Addrs(st.sessions.clients), CountedAddrs(st.serves), ip);
  }

  /** A connection that is about to register is one that the registry does not count yet. */
  lemma NamedIsNotRegistered(st: State, t: Token)
    requires Inv(st) && t in st.serves && st.serves[t].stage.Named?
    ensures |st.sessions.clients| < |st.serves|
    ensures CountOf(st.sessions.perIp, st.serves[t].addr.ip) < CountOf(st.permits, st.serves[t].addr.ip)
  {
    assert t in st.serves.Keys && t !in st.sessions.clients.Keys;
    SubsetCardinality(st.sessions.clients.Keys, st.serves.Keys);
    var ip := st.serves[t].addr.ip;
    assert ExactAt(st.sessions.perIp, Addrs(st.sessions.clients), ip);
    assert ExactAt(st.permits, CountedAddrs(st.serves), ip);
    assert CountedAddrs(st.serves)[t] == st.serves[t].addr;
    FewerAt(Addrs(st.sessions.clients), CountedAddrs(st.serves), ip);
  }

  // ---- The permits ----------------------------------------------------------------------------

  lemma EnterServes(serves: map<Token, Serve>, t: Token, addr: SocketAddr)
    requires t !in serves
    ensures var serves' := serves[t := Serve(addr, Acquiring)];
            |serves'| == |serves| + 1 && CountedAddrs(serves') == CountedAddrs(serves)
  {
    var serves' := serves[t := Serve(addr, Acquiring)];
    assert serves'.Keys == serves.Keys + {t};
    assert |serves'.Keys| == |serves.Keys| + 1;
  }

  lemma LeaveServes(serves: map<Token, Serve>, t: Token)
    requires t in serves && !IsCounted(serves[t].stage)
    ensures |serves - {t}| == |serves| - 1
    ensures CountedAddrs(serves - {t}) == CountedAddrs(serves)
  {
    assert serves.Keys == (serves - {t}).Keys + {t};
    assert |serves.Keys| == |(serves - {t}).Keys| + 1;
  }

  /** Moving on to another stage adds or drops at most the connection's own count. */
  lemma MoveServe(serves: map<Token, Serve>, t: Token, stage: Stage)
    requires t in serves
    ensures var serves' := serves[t := serves[t].(stage := stage)];
            var before, after := IsCounted(serves[t].stage), IsCounted(stage);
            && |serves'| == |serves|
            && (before == after ==> CountedAddrs(serves') == CountedAddrs(serves))
            && (!before && after ==> CountedAddrs(serves') == CountedAddrs(serves)[t := serves[t].addr])
            && (before && !after ==> CountedAddrs(serves') == CountedAddrs(serves) - {t})
  {
    var serves' := serves[t := serves[t].(stage := stage)];
    assert serves'.Keys == serves.Keys;
    assert |serves'.Keys| == |serves.Keys|;
  }

  lemma AdmitKeepsPermits(st: State, t: Token)
    requires PermitsOk(st.serves, st.available, st.permits) && Next(st, Admit(t)).Some?
    ensures var st' := Next(st, Admit(t)).value; PermitsOk(st'.serves, st'.available, st'.permits)
  {
    var addr := st.serves[t].addr;
    if CountOf(st.permits, addr.ip) >= MAX_CONNECTIONS_PER_IP {
      LeaveServes(st.serves, t);
    } else {
      MoveServe(st.serves, t, Admitted);
      IncrementIsExact(st.permits, CountedAddrs(st.serves), t, addr);
      var permits := Increment(st.permits, addr.ip);
      forall ip: Ip ensures WithinLimit(permits, ip) {
        assert WithinLimit(st.permits, ip);
      }
    }
  }

  lemma ReleaseKeepsPermits(st: State, t: Token)
    requires PermitsOk(st.serves, st.available, st.permits) && Next(st, ReleaseAddress(t)).Some?
    ensures var st' := Next(st, ReleaseAddress(t)).value; PermitsOk(st'.serves, st'.available, st'.permits)
  {
    MoveServe(st.serves, t, Releasing);
    assert CountedAddrs(st.serves)[t] == st.serves[t].addr;
    DecrementIsExact(st.permits, CountedAddrs(st.serves), t);
    var permits := Decrement(st.permits, st.serves[t].addr.ip);
    forall ip: Ip ensures WithinLimit(permits, ip) {
      assert WithinLimit(st.permits, ip);
    }
  }

  /** Stages that stay counted, or stay uncounted, change no permit. */
  lemma StagesKeepPermits(st: State, step: Step)
    requires PermitsOk(st.serves, st.available, st.permits) && Next(st, step).Some?
    requires step.HandshakeOk? || step.HandshakeFails? || step.Register? || step.Finish?
    ensures var st' := Next(st, step).value; PermitsOk(st'.serves, st'.available, st'.permits)
  {
    match step
    case HandshakeOk(t, username) => MoveServe(st.serves, t, Named(username));
    case Register(t) =>
      MoveServe(st.serves, t, Finished);
      MoveServe(st.serves, t, Stage.Registered(st.serves[t].stage.username));
    case _ => MoveServe(st.serves, step.t, Finished);
  }

  lemma PermitsNext(st: State, step: Step)
    requires PermitsOk(st.serves, st.available, st.permits) && Next(st, step).Some?
    ensures var st' := Next(st, step).value; PermitsOk(st'.serves, st'.available, st'.permits)
  {
    match step
    case Accept(t, addr) => EnterServes(st.serves, t, addr);
    case Admit(t) => AdmitKeepsPermits(st, t);
    case ReleaseAddress(t) => ReleaseKeepsPermits(st, t);
    case ReleaseGlobal(t) => LeaveServes(st.serves, t);
    case SetUsername(_) =>
    case TakeOut(_) =>
    case _ => StagesKeepPermits(st, step);
  }

  // ---- The sessions ---------------------------------------------------------------------------

  lemma StagesNext(st: State, step: Step)
    requires StagesOk(st.serves) && Next(st, step).Some?
    ensures StagesOk(Next(st, step).value.serves)
  {
  }

  lemma OwnersNext(st: State, step: Step)
    requires OwnersOk(st.sessions.clients, st.serves) && Next(st, step).Some?
    ensures OwnersOk(Next(st, step).value.sessions.clients, Next(st, step).value.serves)
  {
  }

  lemma SessionsNext(st: State, step: Step)
    requires OwnersOk(st.sessions.clients, st.serves) && SessionsOk(st.sessions) && Next(st, step).Some?
    ensures SessionsOk(Next(st, step).value.sessions)
  {
    match step
    case Register(t) =>
      assert t !in st.sessions.clients;
      AddKeepsSessionsOk(st.sessions, t, st.serves[t].addr);
    case SetUsername(t) => NameKeepsSessionsOk(st.sessions, t, st.serves[t].stage.username);
    case TakeOut(t) => if t in st.sessions.clients { DropKeepsSessionsOk(st.sessions, t); }
    case Finish(t) => if t in st.sessions.clients { DropKeepsSessionsOk(st.sessions, t); }
    case _ =>
  }

  lemma NextKeepsInv(st: State, step: Step)
    requires Inv(st) && Next(st, step).Some?
    ensures Inv(Next(st, step).value)
  {
    PermitsNext(st, step);
    StagesNext(st, step);
    OwnersNext(st, step);
    SessionsNext(st, step);
  }

  lemma {:induction false} RunKeepsInv(steps: seq<Step>)
    requires Run(steps).Some?
    ensures Inv(Run(steps).value)
  {
    if steps == [] {
      assert forall ip: Ip :: At(Addrs(map[]), ip) == {};
      assert forall ip: Ip :: At(CountedAddrs(map[]), ip) == {};
    } else {
      RunKeepsInv(steps[..|steps| - 1]);
      NextKeepsInv(Run(steps[..|steps| - 1]).value, steps[|steps| - 1]);
    }
  }

  lemma ReachableInv(st: State)
    requires Reachable(st)
    ensures Inv(st)
  {
    var steps :| Run(steps) == Some(st);
    RunKeepsInv(steps);
  }

  /** Registration never reports that the connection limit is reached: a held permit is room enough. */
  lemma RegistrationAlwaysHasRoom(st: State, t: Token)
    requires Reachable(st) && t in st.serves && st.serves[t].stage.Named?
    ensures HasRoom(st.sessions, st.serves[t].addr)
  {
    ReachableInv(st);
    NamedIsNotRegistered(st, t);
    assert WithinLimit(st.permits, st.serves[t].addr.ip);
  }

  /**
    In every reachable state there are at most 256 connections and at most 4 of one address are
    counted, and the counts are exact and never zero.
   */
  lemma PermitsStayWithinLimits(st: State, ip: Ip)
    requires Reachable(st)
    ensures |st.serves| <= MAX_CONNECTIONS && st.available + |st.serves| == MAX_CONNECTIONS
    ensures CountOf(st.permits, ip) == |At(CountedAddrs(st.serves), ip)| <= MAX_CONNECTIONS_PER_IP
    ensures ip in st.permits ==> st.permits[ip] > 0
  {
    ReachableInv(st);
    assert ExactAt(st.permits, CountedAddrs(st.serves), ip) && WithinLimit(st.permits, ip);
  }

  lemma FinishedIsCounted(st: State, t: Token)
    requires PermitsOk(st.serves, st.available, st.permits)
    requires t in st.serves && st.serves[t].stage.Finished?
    ensures CountOf(st.permits, st.serves[t].addr.ip) > 0
  {
    assert CountedAddrs(st.serves)[t] == st.serves[t].addr;
    LiveIsCounted(st.permits, CountedAddrs(st.serves), t);
  }

  /** No release of a permit and no removal of a client ever misses its count. */
  lemma CountsNeverUnderflow(st: State, t: Token)
    requires Reachable(st)
    ensures t in st.serves && st.serves[t].stage.Finished? ==> CountOf(st.permits, st.serves[t].addr.ip) > 0
    ensures t in st.sessions.clients ==>
              st.sessions.total > 0 && CountOf(st.sessions.perIp, st.sessions.clients[t].addr.ip) > 0
  {
    ReachableInv(st);
    if t in st.serves && st.serves[t].stage.Finished? { FinishedIsCounted(st, t); }
    if t in st.sessions.clients { DropKeepsSessionsOk(st.sessions, t); }
  }

  lemma DistinctTokensAreFew(order: seq<Token>, tokens: set<Token>)
    requires forall i, j | 0 <= i < j < |order| :: order[i] != order[j]
    requires forall i | 0 <= i < |order| :: order[i] in tokens
    ensures |order| <= |tokens|
  {
    if order != [] {
      var n := |order| - 1;
      assert forall i | 0 <= i < n :: order[i] in tokens - {order[n]};
      DistinctTokensAreFew(order[..n], tokens - {order[n]});
    }
  }

  /** Every listed name was accepted by a handshake, and there are at most 256. */
  lemma ListedNamesAreAccepted(st: State, users: seq<string>)
    requires Inv(st) && ListsUsernames(users, st.sessions.clients)
    ensures |users| <= MAX_CONNECTIONS && forall i | 0 <= i < |users| :: Handshake.IsAccepted(users[i])
  {
    var order: seq<Token> :| ListsNamed(users, order, st.sessions.clients, st.sessions.clients.Keys);
    DistinctTokensAreFew(order, st.sessions.clients.Keys);
    SessionsInjectIntoPermits(st, 0);
    forall i | 0 <= i < |users| ensures Handshake.IsAccepted(users[i]) {
      assert NamedAs(order[i], users[i], st.sessions.clients);
      assert StageOk(st.serves[order[i]].stage);
    }
  }

  /** The presence frame of any reachable registry can be encoded, whatever the order of the names. */
  lemma PresenceAlwaysEncodes(st: State, users: seq<string>)
    requires Reachable(st) && ListsUsernames(users, st.sessions.clients)
    ensures Presence.AreListable(users) && |Presence.Payload(users)| <= F.MAX_FRAME_PAYLOAD_BYTES
  {
    ReachableInv(st);
    ListedNamesAreAccepted(st, users);
    Handshake.PresenceFits(users);
  }

  // ---- A whole connection ---------------------------------------------------------------------

  /** The accept loop's first two steps take what `TryAcquire` takes, or give back what they took. */
  lemma AcquireInTwoSteps(st: State, t: Token, addr: SocketAddr)
    requires t !in st.serves
    ensures Next(st, Accept(t, addr)).Some? <==> st.available > 0
    ensures st.available > 0 ==>
              var st1 := Next(st, Accept(t, addr)).value;
              && Next(st1, Admit(t)).Some?
              && var st2 := Next(st1, Admit(t)).value;
                 if CountOf(st.permits, addr.ip) < 4 then
                   && st2.available == st.available - 1 && st2.permits == Increment(st.permits, addr.ip)
                   && st2.serves == st.serves[t := Serve(addr, Admitted)] && st2.sessions == st.sessions
                 else st2 == st
  {
    if st.available > 0 {
      var st1 := Next(st, Accept(t, addr)).value;
      assert st1.serves - {t} == st.serves;
    }
  }

  /** A connection that gets through everything. */
  function Life(t: Token, addr: SocketAddr, username: string): seq<Step> {
    [Accept(t, addr), Admit(t), HandshakeOk(t, username), Register(t), SetUsername(t), Finish(t),
     ReleaseAddress(t), ReleaseGlobal(t)]
  }

  lemma SessionComesAndGoes(s: Sessions, t: Token, addr: SocketAddr, username: string)
    requires SessionsOk(s) && t !in s.clients
    ensures var named := NameSession(AddSession(s, t, addr), t, username);
            && TakenOut(named, t) == Some(s) && NamedAs(t, username, named.clients)
  {
    assert ExactAt(s.perIp, Addrs(s.clients), addr.ip);
    DecrementUndoesIncrement(s.perIp, addr.ip);
    var named := NameSession(AddSession(s, t, addr), t, username);
    assert named.clients - {t} == s.clients;
  }

  lemma PermitComesAndGoes(st: State, t: Token, addr: SocketAddr)
    requires Inv(st)
    ensures Decrement(Increment(st.permits, addr.ip), addr.ip) == st.permits
    ensures CountOf(Increment(st.permits, addr.ip), addr.ip) > 0
  {
    assert ExactAt(st.permits, CountedAddrs(st.serves), addr.ip);
    DecrementUndoesIncrement(st.permits, addr.ip);
  }

  /** The server with one more connection, at some stage and perhaps counted. */
  function With(st: State, t: Token, addr: SocketAddr, stage: Stage, s: Sessions): State
    requires st.available > 0
  {
    State(st.serves[t := Serve(addr, stage)], st.available - 1,
          if IsCounted(stage) then Increment(st.permits, addr.ip) else st.permits, s)
  }

  lemma MovesOn(st: State, t: Token, addr: SocketAddr, before: Stage, after: Stage, s: Sessions)
    requires st.available > 0 && IsCounted(before) == IsCounted(after)
    ensures Move(With(st, t, addr, before, s), t, after) == With(st, t, addr, after, s)
  {
    assert st.serves[t := Serve(addr, before)][t := Serve(addr, after)] == st.serves[t := Serve(addr, after)];
  }

  lemma ConnectionEnters(st: State, t: Token, addr: SocketAddr, username: string)
    requires Inv(st) && t !in st.serves && Handshake.IsAccepted(username)
    requires st.available > 0 && CountOf(st.permits, addr.ip) < 4
    ensures var s := st.sessions;
            var stage := Stage.Registered(username);
            && Next(st, Accept(t, addr)) == Some(With(st, t, addr, Acquiring, s))
            && Next(With(st, t, addr, Acquiring, s), Admit(t)) == Some(With(st, t, addr, Admitted, s))
            && Next(With(st, t, addr, Admitted, s), HandshakeOk(t, username))
               == Some(With(st, t, addr, Named(username), s))
            && Next(With(st, t, addr, Named(username), s), Register(t))
               == Some(With(st, t, addr, stage, AddSession(s, t, addr)))
  {
    hide Handshake.IsAccepted, AddSession, Inv;
    RoomForOneMore(st, addr);
    var s := st.sessions;
    MovesOn(st, t, addr, Admitted, Named(username), s);
    MovesOn(st, t, addr, Named(username), Stage.Registered(username), s);
    assert st.serves[t := Serve(addr, Acquiring)][t := Serve(addr, Admitted)] == st.serves[t := Serve(addr, Admitted)];
  }

  lemma ConnectionIsNamed(st: State, t: Token, addr: SocketAddr, username: string)
    requires st.available > 0
    ensures var s := AddSession(st.sessions, t, addr);
            Next(With(st, t, addr, Stage.Registered(username), s), SetUsername(t))
            == Some(With(st, t, addr, Stage.Registered(username), NameSession(s, t, username)))
  {
  }

  lemma ConnectionLeaves(st: State, t: Token, addr: SocketAddr, username: string, s: Sessions)
    requires Inv(st) && t !in st.serves && st.available > 0 && TakenOut(s, t) == Some(st.sessions)
    ensures && Next(With(st, t, addr, Stage.Registered(username), s), Finish(t))
               == Some(With(st, t, addr, Finished, st.sessions))
            && Next(With(st, t, addr, Finished, st.sessions), ReleaseAddress(t))
               == Some(With(st, t, addr, Releasing, st.sessions))
            && Next(With(st, t, addr, Releasing, st.sessions), ReleaseGlobal(t)) == Some(st)
  {
    hide TakenOut, Inv;
    PermitComesAndGoes(st, t, addr);
    MovesOn(st, t, addr, Stage.Registered(username), Finished, s);
    assert st.serves[t := Serve(addr, Finished)][t := Serve(addr, Releasing)] == st.serves[t := Serve(addr, Releasing)];
    assert st.serves[t := Serve(addr, Releasing)] - {t} == st.serves;
  }

  /**
    From any reachable state with room, a connection can be accepted, shake hands, register under its
    name and be released again; and then the server is exactly where it was.
   */
  lemma WholeConnection(st: State, t: Token, addr: SocketAddr, username: string) returns (states: seq<State>)
    requires Reachable(st) && t !in st.serves && Handshake.IsAccepted(username)
    requires st.available > 0 && CountOf(st.permits, addr.ip) < 4
    ensures |states| == 9 && states[0] == st && states[8] == st
    ensures forall i | 0 <= i < 8 :: Next(states[i], Life(t, addr, username)[i]) == Some(states[i + 1])
    ensures NamedAs(t, username, states[5].sessions.clients)
  {
    hide Handshake.IsAccepted, Next, AddSession, NameSession, Reachable, With, TakenOut;
    ReachableInv(st);
    assert t !in st.sessions.clients;
    var s := st.sessions;
    var added := AddSession(s, t, addr);
    ConnectionEnters(st, t, addr, username);
    AddedIsThere(s, t, addr);
    ConnectionIsNamed(st, t, addr, username);
    var named := NameSession(added, t, username);
    SessionComesAndGoes(s, t, addr, username);
    ConnectionLeaves(st, t, addr, username, named);
    var stage := Stage.Registered(username);
    WithSessions(st, t, addr, stage, named);
    states := [st, With(st, t, addr, Acquiring, s), With(st, t, addr, Admitted, s), With(st, t, addr, Named(username), s),
               With(st, t, addr, stage, added), With(st, t, addr, stage, named), With(st, t, addr, Finished, s),
               With(st, t, addr, Releasing, s), st];
  }

  lemma WithSessions(st: State, t: Token, addr: SocketAddr, stage: Stage, s: Sessions)
    requires st.available > 0
    ensures With(st, t, addr, stage, s).sessions == s
  {
  }

  lemma AddedIsThere(s: Sessions, t: Token, addr: SocketAddr)
    ensures t in AddSession(s, t, addr).clients
  {
  }

  /** A connection whose handshake fails is released, and leaves the server as it was. */
  lemma HandshakeMayFail(st: State, t: Token, addr: SocketAddr)
    requires Reachable(st) && t !in st.serves && st.available > 0
    ensures && Next(With(st, t, addr, Admitted, st.sessions), HandshakeFails(t))
               == Some(With(st, t, addr, Finished, st.sessions))
            && Next(With(st, t, addr, Finished, st.sessions), ReleaseAddress(t))
               == Some(With(st, t, addr, Releasing, st.sessions))
            && Next(With(st, t, addr, Releasing, st.sessions), ReleaseGlobal(t)) == Some(st)
  {
    hide Reachable;
    ReachableInv(st);
    assert t !in st.sessions.clients;
    ConnectionLeaves(st, t, addr, "", st.sessions);
    MovesOn(st, t, addr, Admitted, Finished, st.sessions);
  }

  /** Any client can be taken out by another task at any time, and its own handler then finds it gone. */
  lemma TakenOutByOthers(st: State, t: Token)
    requires Reachable(st) && t in st.sessions.clients
    ensures Next(st, TakeOut(t)).Some?
    ensures var st1 := Next(st, TakeOut(t)).value;
            && st1.sessions.clients == st.sessions.clients - {t} && SessionsOk(st1.sessions)
            && st1 == st.(sessions := st1.sessions)
            && t in st.serves && st.serves[t].stage.Registered?
            && Next(st1, Finish(t)) == Some(Move(st1, t, Finished))
  {
    hide Reachable, PermitsOk, StagesOk, SessionsOk;
    ReachableInv(st);
    DropKeepsSessionsOk(st.sessions, t);
    assert OwnerOk(st.sessions.clients[t], st.serves[t]);
  }

  lemma RoomForOneMore(st: State, addr: SocketAddr)
    requires Inv(st) && st.available > 0 && CountOf(st.permits, addr.ip) < 4
    ensures HasRoom(st.sessions, addr)
  {
    SessionsInjectIntoPermits(st, addr.ip);
  }
}
