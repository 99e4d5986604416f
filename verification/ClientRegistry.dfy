/** The session registry as the server updates it in place, and the message history. */
module ClientRegistries {
  import opened Common
  import opened PerIp
  import opened Registry
  import opened Buckets
  import Text

  class MessageHistory {
    var entries: seq<string>
    const limit: nat
    ghost var recorded: seq<string>   // every line ever recorded, as it is kept

    /** The buffer holds the end of everything recorded. */
    ghost predicate Valid()
      reads this
    {
      entries == Last(recorded, limit)
    }

    constructor (limit: nat)
      ensures Valid() && this.limit == limit && recorded == []
    {
      this.limit := limit;
      entries, recorded := [], [];
    }

    method Record(message: string)
      requires Valid()
      modifies this
      ensures Valid() && recorded == old(recorded) + [Text.TrimNewlines(message)]
    {
      PushKeepsLast(recorded, Text.TrimNewlines(message), limit);
      entries := entries + [Text.TrimNewlines(message)];
      if |entries| > limit {
        entries := entries[1..];
      }
      recorded := recorded + [Text.TrimNewlines(message)];
    }

    method Snapshot() returns (lines: seq<string>)
      requires Valid()
      ensures lines == Last(recorded, limit)
    {
      return entries;
    }
  }

  function NamesOf(clients: map<Token, ClientSession>): map<Token, Option<string>> {
    map t | t in clients :: clients[t].username
  }

  type SessionBuckets = Buckets<Option<string>>

  ghost predicate Holds(byAddr: SessionBuckets, clients: map<Token, ClientSession>) {
    Represents(byAddr, Addrs(clients), NamesOf(clients))
  }

  lemma ViewsOfAdded(clients: map<Token, ClientSession>, address: SocketAddr, token: Token)
    ensures var clients' := clients[token := ClientSession(address, None)];
            && Addrs(clients') == Addrs(clients)[token := address]
            && NamesOf(clients') == NamesOf(clients)[token := None]
  {
  }

  lemma ViewsOfDropped(clients: map<Token, ClientSession>, token: Token)
    ensures Addrs(clients - {token}) == Addrs(clients) - {token}
    ensures NamesOf(clients - {token}) == NamesOf(clients) - {token}
  {
  }

  lemma ViewsOfNamed(clients: map<Token, ClientSession>, token: Token, username: string)
    requires token in clients
    ensures var clients' := clients[token := clients[token].(username := Some(username))];
            Addrs(clients') == Addrs(clients) && NamesOf(clients') == NamesOf(clients)[token := Some(username)]
  {
  }

  lemma HoldsAdded(byAddr: SessionBuckets, clients: map<Token, ClientSession>, address: SocketAddr, token: Token)
    requires Holds(byAddr, clients) && token !in clients
    ensures Holds(Insert(byAddr, address, Row(token, None)), clients[token := ClientSession(address, None)])
  {
    ViewsOfAdded(clients, address, token);
    InsertRepresents(byAddr, Addrs(clients), NamesOf(clients), address, Row(token, None));
  }

  lemma HoldsDropped(byAddr: SessionBuckets, clients: map<Token, ClientSession>, token: Token)
    requires Holds(byAddr, clients) && token in clients
    ensures var a := clients[token].addr;
            a in byAddr && Holds(WithRows(byAddr, a, Retain(byAddr[a], token)), clients - {token})
  {
    assert Addrs(clients)[token] == clients[token].addr;
    ViewsOfDropped(clients, token);
    RemoveRepresents(byAddr, Addrs(clients), NamesOf(clients), token);
  }

  lemma HoldsNamed(byAddr: SessionBuckets, clients: map<Token, ClientSession>, a: SocketAddr, i: nat,
                   token: Token, username: string)
    requires Holds(byAddr, clients) && token in clients
    requires a in byAddr && i < |byAddr[a]| && byAddr[a][i].token == token
    ensures Holds(byAddr[a := byAddr[a][i := Row(token, Some(username))]],
                  clients[token := clients[token].(username := Some(username))])
  {
    ViewsOfNamed(clients, token, username);
    UpdateRepresents(byAddr, Addrs(clients), NamesOf(clients), a, i, Some(username));
  }

  /** Looking for a client at an address finds it iff it registered there. */
  lemma FoundIffRegistered(byAddr: SessionBuckets, clients: map<Token, ClientSession>, a: SocketAddr, token: Token)
    requires Holds(byAddr, clients)
    ensures (a in byAddr && HasRow(byAddr[a], token)) <==> (token in clients && clients[token].addr == a)
    ensures a in byAddr ==> byAddr[a] != []
  {
    RowIffAddress(byAddr, Addrs(clients), NamesOf(clients), a, token);
  }

  lemma RowIsClient(byAddr: SessionBuckets, clients: map<Token, ClientSession>, a: SocketAddr, i: nat)
    requires Holds(byAddr, clients) && a in byAddr && i < |byAddr[a]|
    ensures byAddr[a][i].token in clients && clients[byAddr[a][i].token].username == byAddr[a][i].value
    ensures Distinct(byAddr[a])
  {
    RowIsInView(byAddr, Addrs(clients), NamesOf(clients), a, i);
  }

  class ClientRegistry {
    var byAddr: SessionBuckets
    var perIp: Counts
    var total: nat
    ghost var clients: map<Token, ClientSession>

    /** The registry as a value: who is registered, and both counters. */
    ghost function View(): Sessions
      reads this
    {
      Sessions(clients, perIp, total)
    }

    ghost predicate Valid()
      reads this
    {
      Holds(byAddr, clients) && SessionsOk(View())
    }

    constructor ()
      ensures Valid() && View() == NO_SESSIONS
    {
      byAddr, perIp, total := map[], map[], 0;
      clients := map[];
      new;
      assert forall ip: Ip :: At(Addrs(map[]), ip) == {};
    }

    /** Both limits are checked before anything is changed. */
    method Register(address: SocketAddr, token: Token) returns (registered: bool)
      requires Valid() && token !in clients
      modifies this
      ensures Valid()
      ensures registered <==> HasRoom(old(View()), address)
      ensures View() == if registered then AddSession(old(View()), token, address) else old(View())
    {
      if total >= MAX_CONNECTIONS || CountOf(perIp, address.ip) >= MAX_CONNECTIONS_PER_IP {
        return false;
      }
      ghost var added := AddSession(View(), token, address);
      assert Holds(Insert(byAddr, address, Row(token, None)), added.clients) by {
        HoldsAdded(byAddr, clients, address, token);
      }
      assert SessionsOk(added) by {
        AddKeepsSessionsOk(View(), token, address);
      }
      byAddr := Insert(byAddr, address, Row(token, None));
      total := total + 1;
      perIp := perIp[address.ip := CountOf(perIp, address.ip) + 1];
      clients := added.clients;
      return true;
    }

    /** Only a client registered at that address is taken out, and no counter is missing then. */
    method Remove(address: SocketAddr, token: Token) returns (removed: bool)
      requires Valid()
      modifies this
      ensures Valid()
      ensures removed <==> IsRegistered(old(View()), token, address)
      ensures removed ==> old(View().total) > 0 && CountOf(old(View().perIp), address.ip) > 0
      ensures View() == if removed then DropSession(old(View()), token) else old(View())
    {
      FoundIffRegistered(byAddr, clients, address, token);
      if address !in byAddr {
        return false;
      }
      RetainFacts(byAddr[address], token);
      var entries := Retain(byAddr[address], token);
      removed := |entries| != |byAddr[address]|;
      if !removed {
        assert WithRows(byAddr, address, entries) == byAddr;
      }
      if removed {
        HoldsDropped(byAddr, clients, token);
        assert Addrs(clients)[token] == address;
        DropKeepsSessionsOk(View(), token);
        total := total - 1;
        perIp := Decrement(perIp, address.ip);
        clients := clients - {token};
      }
      byAddr := WithRows(byAddr, address, entries);
    }

    method SetUsername(address: SocketAddr, token: Token, username: string) returns (found: bool)
      requires Valid()
      modifies this
      ensures Valid()
      ensures found <==> IsRegistered(old(View()), token, address)
      ensures View() == if found then NameSession(old(View()), token, username) else old(View())
      ensures found ==> NamedAs(token, username, clients) && clients.Keys == old(clients).Keys
                        && clients - {token} == old(clients) - {token}
                        && perIp == old(perIp) && total == old(total)
    {
      FoundIffRegistered(byAddr, clients, address, token);
      var row := FindRow(byAddr, address, token);
      if row.None? {
        return false;
      }
      var buckets := byAddr[address := byAddr[address][row.value := Row(token, Some(username))]];
      ghost var named := clients[token := clients[token].(username := Some(username))];
      HoldsNamed(byAddr, clients, address, row.value, token, username);
      NameKeepsSessionsOk(View(), token, username);
      byAddr, clients := buckets, named;
      assert Holds(buckets, named);
      assert SessionsOk(Sessions(named, perIp, total));
      return true;
    }

    /** The names listed so far, after one more address. */
    method UsernamesAt(a: SocketAddr, before: seq<string>, ghost orderBefore: seq<Token>, ghost done: set<Token>)
      returns (users: seq<string>, ghost order: seq<Token>)
      requires Valid() && a in byAddr && Tokens(byAddr[a], |byAddr[a]|) !! done
      requires ListsNamed(before, orderBefore, clients, done)
      ensures ListsNamed(users, order, clients, done + Tokens(byAddr[a], |byAddr[a]|))
    {
      users, order := before, orderBefore;
      var rows := byAddr[a];
      assert done + Tokens(rows, 0) == done;
      var i := 0;
      while i < |rows|
        invariant i <= |rows|
        invariant ListsNamed(users, order, clients, done + Tokens(rows, i))
      {
        RowIsClient(byAddr, clients, a, i);
        TokensNext(rows, i, done);
        ListsOneMore(users, order, clients, done + Tokens(rows, i), rows[i].token);
        match rows[i].value {
          case None =>
          case Some(username) =>
            users, order := users + [username], order + [rows[i].token];
        }
        i := i + 1;
      }
    }

    /** The names of all clients that have given one. */
    method Usernames() returns (users: seq<string>)
      requires Valid()
      ensures ListsUsernames(users, clients)
    {
      users := [];
      ghost var order: seq<Token> := [];
      VisitedAtStart(byAddr, Addrs(clients), NamesOf(clients));
      var todo := byAddr.Keys;
      while todo != {}
        invariant todo <= byAddr.Keys
        invariant ListsNamed(users, order, clients, Visited(Addrs(clients), todo))
        decreases |todo|
      {
        var a :| a in todo;
        VisitedNext(byAddr, Addrs(clients), NamesOf(clients), todo, a);
        users, order := UsernamesAt(a, users, order, Visited(Addrs(clients), todo));
        todo := todo - {a};
      }
      assert NamesOf(clients).Keys == clients.Keys;
      assert ListsNamed(users, order, clients, clients.Keys);
    }
  }
}
