/** The registry of client sessions: who is connected, under which name, and how many there are. */
module Registry {
  import opened Common
  import opened PerIp

  datatype ClientSession = ClientSession(addr: SocketAddr, username: Option<string>)

  datatype Sessions = Sessions(clients: map<Token, ClientSession>, perIp: Counts, total: nat)

  const NO_SESSIONS: Sessions := Sessions(map[], map[], 0)

  function Addrs(clients: map<Token, ClientSession>): map<Token, SocketAddr> {
    map t | t in clients :: clients[t].addr
  }

  /** Both counters say exactly how many clients are registered. */
  ghost predicate SessionsOk(s: Sessions) {
    s.total == |s.clients| && Exact(s.perIp, Addrs(s.clients))
  }

  predicate HasRoom(s: Sessions, addr: SocketAddr) {
    s.total < MAX_CONNECTIONS && CountOf(s.perIp, addr.ip) < MAX_CONNECTIONS_PER_IP
  }

  function AddSession(s: Sessions, t: Token, addr: SocketAddr): Sessions {
    Sessions(s.clients[t := ClientSession(addr, None)], Increment(s.perIp, addr.ip), s.total + 1)
  }

  /** A removal finds a client only under the address it registered with. */
  predicate IsRegistered(s: Sessions, t: Token, addr: SocketAddr) {
    t in s.clients && s.clients[t].addr == addr
  }

  function DropSession(s: Sessions, t: Token): Sessions
    requires t in s.clients && s.total > 0
    requires CountOf(s.perIp, s.clients[t].addr.ip) > 0
  {
    Sessions(s.clients - {t}, Decrement(s.perIp, s.clients[t].addr.ip), s.total - 1)
  }

  function NameSession(s: Sessions, t: Token, username: string): Sessions
    requires t in s.clients
  {
    s.(clients := s.clients[t := s.clients[t].(username := Some(username))])
  }

  predicate NamedAs(t: Token, username: string, clients: map<Token, ClientSession>) {
    t in clients && clients[t].username == Some(username)
  }

  /** The names of the clients among `done` that have one, each client once, in the given order. */
  ghost predicate ListsNamed(users: seq<string>, order: seq<Token>, clients: map<Token, ClientSession>,
                             done: set<Token>) {
    && |order| == |users|
    && (forall i, j | 0 <= i < j < |order| :: order[i] != order[j])
    && (forall i | 0 <= i < |order| :: order[i] in done && NamedAs(order[i], users[i], clients))
    && (forall t | t in done && t in clients && clients[t].username.Some? :: t in order)
  }

  /** The names of all clients that have one, in whatever order. */
  ghost predicate ListsUsernames(users: seq<string>, clients: map<Token, ClientSession>) {
    exists order: seq<Token> :: ListsNamed(users, order, clients, clients.Keys)
  }

  lemma ListsOneMore(users: seq<string>, order: seq<Token>, clients: map<Token, ClientSession>, done: set<Token>,
                     t: Token)
    requires ListsNamed(users, order, clients, done) && t in clients && t !in done
    ensures match clients[t].username
            case None => ListsNamed(users, order, clients, done + {t})
            case Some(username) => ListsNamed(users + [username], order + [t], clients, done + {t})
  {
    if clients[t].username.Some? {
      var order', users' := order + [t], users + [clients[t].username.value];
      assert order'[|order|] == t;
      forall i | 0 <= i < |order'| ensures order'[i] in done + {t} && NamedAs(order'[i], users'[i], clients) {
        if i < |order| { assert NamedAs(order[i], users[i], clients); }
      }
    }
  }

  lemma AddKeepsSessionsOk(s: Sessions, t: Token, addr: SocketAddr)
    requires SessionsOk(s) && t !in s.clients
    ensures SessionsOk(AddSession(s, t, addr))
  {
    IncrementIsExact(s.perIp, Addrs(s.clients), t, addr);
    assert Addrs(AddSession(s, t, addr).clients) == Addrs(s.clients)[t := addr];
  }

  /** Taking out a registered client never decrements a counter that is missing or zero. */
  lemma DropKeepsSessionsOk(s: Sessions, t: Token)
    requires SessionsOk(s) && t in s.clients
    ensures s.total > 0 && CountOf(s.perIp, s.clients[t].addr.ip) > 0
    ensures SessionsOk(DropSession(s, t))
  {
    DecrementIsExact(s.perIp, Addrs(s.clients), t);
    assert Addrs(s.clients - {t}) == Addrs(s.clients) - {t};
    assert s.clients.Keys == (s.clients - {t}).Keys + {t};
    assert |s.clients.Keys| == |(s.clients - {t}).Keys| + 1;
  }

  /** There is room iff fewer than 256 clients are registered, and fewer than 4 from that address. */
  lemma HasRoomIff(s: Sessions, addr: SocketAddr)
    requires SessionsOk(s)
    ensures HasRoom(s, addr) <==> |s.clients| < 256 && |At(Addrs(s.clients), addr.ip)| < 4
  {
    assert ExactAt(s.perIp, Addrs(s.clients), addr.ip);
  }

  /** What the three updates do to the sessions, one client at a time. */
  lemma SessionsAfterUpdates(s: Sessions, t: Token, addr: SocketAddr, username: string, other: Token)
    ensures other in AddSession(s, t, addr).clients <==> other == t || other in s.clients
    ensures AddSession(s, t, addr).clients[t] == ClientSession(addr, None)
    ensures other != t && other in s.clients ==> AddSession(s, t, addr).clients[other] == s.clients[other]
    ensures t in s.clients ==>
              var named := NameSession(s, t, username);
              && named.clients.Keys == s.clients.Keys && NamedAs(t, username, named.clients)
              && named.clients[t].addr == s.clients[t].addr
              && (other != t && other in s.clients ==> named.clients[other] == s.clients[other])
              && named.perIp == s.perIp && named.total == s.total
  {
  }

  /** Once a client is named, every list of the names contains its name. */
  lemma NamedIsListed(s: Sessions, t: Token, username: string, users: seq<string>)
    requires t in s.clients && ListsUsernames(users, NameSession(s, t, username).clients)
    ensures username in users
  {
    var clients := NameSession(s, t, username).clients;
    SessionsAfterUpdates(s, t, s.clients[t].addr, username, t);
    var order: seq<Token> :| ListsNamed(users, order, clients, clients.Keys);
    var i :| 0 <= i < |order| && order[i] == t;
    assert NamedAs(order[i], users[i], clients);
  }

  lemma NameKeepsSessionsOk(s: Sessions, t: Token, username: string)
    requires SessionsOk(s) && t in s.clients
    ensures SessionsOk(NameSession(s, t, username))
  {
    assert Addrs(NameSession(s, t, username).clients) == Addrs(s.clients);
    assert NameSession(s, t, username).clients.Keys == s.clients.Keys;
    assert |NameSession(s, t, username).clients.Keys| == |s.clients.Keys|;
  }
}
