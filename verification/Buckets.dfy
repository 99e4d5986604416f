/** Rows kept in one list per socket address, and the map from tokens that they represent. */
module Buckets {
  import opened Common

  datatype Row<+V> = Row(token: Token, value: V)

  type Buckets<V> = map<SocketAddr, seq<Row<V>>>

  predicate HasRow<V>(rows: seq<Row<V>>, t: Token) {
    exists i | 0 <= i < |rows| :: rows[i].token == t
  }

  /** The rows of the buckets are those of the view, each once and under its own address. */
  ghost predicate Represents<V>(b: Buckets<V>, addrs: map<Token, SocketAddr>, view: map<Token, V>) {
    && addrs.Keys == view.Keys
    && (forall a: SocketAddr :: BucketOk(b, addrs, view, a))
    && (forall t: Token :: Listed(b, addrs, view, t))
  }

  ghost predicate BucketOk<V>(b: Buckets<V>, addrs: map<Token, SocketAddr>, view: map<Token, V>, a: SocketAddr) {
    a in b ==>
      && b[a] != [] && Distinct(b[a])
      && forall i | 0 <= i < |b[a]| :: RowOk(b[a][i], a, addrs, view)
  }

  predicate Listed<V>(b: Buckets<V>, addrs: map<Token, SocketAddr>, view: map<Token, V>, t: Token) {
    t in view && t in addrs ==> addrs[t] in b && HasRow(b[addrs[t]], t)
  }

  ghost predicate RowOk<V>(row: Row<V>, a: SocketAddr, addrs: map<Token, SocketAddr>, view: map<Token, V>) {
    && row.token in view && row.token in addrs
    && addrs[row.token] == a && view[row.token] == row.value
  }

  predicate Distinct<V>(rows: seq<Row<V>>) {
    forall i, j | 0 <= i < j < |rows| :: rows[i].token != rows[j].token
  }

  function RowsAt<V>(b: Buckets<V>, a: SocketAddr): seq<Row<V>> {
    if a in b then b[a] else []
  }

  /** `entry(address).or_default().push(row)`. */
  function Insert<V>(b: Buckets<V>, a: SocketAddr, row: Row<V>): Buckets<V> {
    b[a := RowsAt(b, a) + [row]]
  }

  /** `retain`: the rows of other tokens. */
  function Retain<V>(rows: seq<Row<V>>, t: Token): seq<Row<V>> {
    if rows == [] then []
    else
      var r, last := Retain(rows[..|rows| - 1], t), rows[|rows| - 1];
      if last.token == t then r else r + [last]
  }

  /** Where the rows stand that are retained. */
  function Places<V>(rows: seq<Row<V>>, t: Token): seq<nat> {
    if rows == [] then []
    else
      var p, n := Places(rows[..|rows| - 1], t), |rows| - 1;
      if rows[n].token == t then p else p + [n]
  }

  lemma {:induction false} PlacesIncrease<V>(rows: seq<Row<V>>, t: Token)
    ensures forall i | 0 <= i < |Places(rows, t)| :: Places(rows, t)[i] < |rows|
    ensures forall i, j | 0 <= i < j < |Places(rows, t)| :: Places(rows, t)[i] < Places(rows, t)[j]
  {
    if rows != [] { PlacesIncrease(rows[..|rows| - 1], t); }
  }

  lemma {:induction false} PlacesAreOthers<V>(rows: seq<Row<V>>, t: Token, n: nat)
    requires n < |rows|
    ensures n in Places(rows, t) <==> rows[n].token != t
  {
    PlacesIncrease(rows[..|rows| - 1], t);
    var p, last := Places(rows[..|rows| - 1], t), |rows| - 1;
    if n < last {
      PlacesAreOthers(rows[..last], t, n);
      assert n in p + [last] <==> n in p;
    } else {
      assert last !in p;
      assert last in p + [last];
    }
  }

  lemma {:induction false} PlacesOfRetained<V>(rows: seq<Row<V>>, t: Token, i: nat)
    requires i < |Retain(rows, t)|
    ensures i < |Places(rows, t)| && Places(rows, t)[i] < |rows| && rows[Places(rows, t)[i]] == Retain(rows, t)[i]
  {
    var front := rows[..|rows| - 1];
    PlacesMatch(rows, t);
    PlacesMatch(front, t);
    if i < |Retain(front, t)| { PlacesOfRetained(front, t, i); }
  }

  lemma {:induction false} PlacesMatch<V>(rows: seq<Row<V>>, t: Token)
    ensures |Places(rows, t)| == |Retain(rows, t)|
  {
    if rows != [] { PlacesMatch(rows[..|rows| - 1], t); }
  }

  /** The kept rows are those of all other tokens, in the order in which they stood. */
  lemma RetainKeepsOrder<V>(rows: seq<Row<V>>, t: Token)
    ensures var p, r := Places(rows, t), Retain(rows, t);
            && |p| == |r|
            && (forall i | 0 <= i < |p| :: p[i] < |rows| && r[i] == rows[p[i]])
            && (forall i, j | 0 <= i < j < |p| :: p[i] < p[j])
            && (forall n | 0 <= n < |rows| :: n in p <==> rows[n].token != t)
  {
    var p, r := Places(rows, t), Retain(rows, t);
    PlacesMatch(rows, t);
    PlacesIncrease(rows, t);
    forall i | 0 <= i < |p| ensures p[i] < |rows| && r[i] == rows[p[i]] {
      PlacesOfRetained(rows, t, i);
    }
    forall n | 0 <= n < |rows| ensures n in p <==> rows[n].token != t {
      PlacesAreOthers(rows, t, n);
    }
  }

  lemma {:induction false} RetainLength<V>(rows: seq<Row<V>>, t: Token)
    ensures |Retain(rows, t)| <= |rows|
    ensures if HasRow(rows, t) then |Retain(rows, t)| < |rows| else Retain(rows, t) == rows
  {
    if rows != [] {
      var front, last := rows[..|rows| - 1], rows[|rows| - 1];
      RetainLength(front, t);
      HasRowInFront(rows, t);
      assert rows == front + [last];
    }
  }

  lemma HasRowInFront<V>(rows: seq<Row<V>>, t: Token)
    requires rows != []
    ensures HasRow(rows, t) <==> HasRow(rows[..|rows| - 1], t) || rows[|rows| - 1].token == t
  {
    var front := rows[..|rows| - 1];
    if i :| 0 <= i < |rows| && rows[i].token == t {
      if i < |front| { assert front[i].token == t; }
    }
    if i :| 0 <= i < |front| && front[i].token == t {
      assert rows[i].token == t;
    }
  }

  lemma RetainedRow<V>(rows: seq<Row<V>>, t: Token, i: nat)
    requires i < |Retain(rows, t)|
    ensures Retain(rows, t)[i] in rows && Retain(rows, t)[i].token != t
  {
    PlacesOfRetained(rows, t, i);
    var n := Places(rows, t)[i];
    assert n in Places(rows, t);
    PlacesAreOthers(rows, t, n);
  }

  lemma OtherIsRetained<V>(rows: seq<Row<V>>, t: Token, n: nat)
    requires n < |rows| && rows[n].token != t
    ensures rows[n] in Retain(rows, t)
  {
    PlacesAreOthers(rows, t, n);
    PlacesMatch(rows, t);
    var k :| 0 <= k < |Places(rows, t)| && Places(rows, t)[k] == n;
    PlacesOfRetained(rows, t, k);
  }

  lemma RetainedStayDistinct<V>(rows: seq<Row<V>>, t: Token)
    requires Distinct(rows)
    ensures Distinct(Retain(rows, t))
  {
    var r, p := Retain(rows, t), Places(rows, t);
    PlacesIncrease(rows, t);
    forall i, j | 0 <= i < j < |r| ensures r[i].token != r[j].token {
      PlacesOfRetained(rows, t, i);
      PlacesOfRetained(rows, t, j);
      assert p[i] < p[j];
    }
  }

  /** Retaining keeps exactly the other tokens' rows, and drops a row if there is one to drop. */
  lemma RetainFacts<V>(rows: seq<Row<V>>, t: Token)
    ensures var r := Retain(rows, t);
            && |r| <= |rows|
            && (forall i | 0 <= i < |r| :: r[i] in rows && r[i].token != t)
            && (forall i | 0 <= i < |rows| && rows[i].token != t :: rows[i] in r)
            && (Distinct(rows) ==> Distinct(r))
            && (if HasRow(rows, t) then |r| < |rows| else r == rows)
  {
    RetainLength(rows, t);
    forall i: nat | i < |Retain(rows, t)| ensures Retain(rows, t)[i] in rows && Retain(rows, t)[i].token != t {
      RetainedRow(rows, t, i);
    }
    forall i: nat | i < |rows| && rows[i].token != t ensures rows[i] in Retain(rows, t) {
      OtherIsRetained(rows, t, i);
    }
    if Distinct(rows) { RetainedStayDistinct(rows, t); }
  }

  /** A bucket that becomes empty is dropped. */
  function WithRows<V>(b: Buckets<V>, a: SocketAddr, rows: seq<Row<V>>): Buckets<V> {
    if rows == [] then b - {a} else b[a := rows]
  }

  lemma InsertRepresents<V>(
    b: Buckets<V>, addrs: map<Token, SocketAddr>, view: map<Token, V>, a: SocketAddr, row: Row<V>)
    requires Represents(b, addrs, view) && row.token !in view
    ensures Represents(Insert(b, a, row), addrs[row.token := a], view[row.token := row.value])
  {
    var b': Buckets<V>, rows := Insert(b, a, row), RowsAt(b, a);
    var addrs', view' := addrs[row.token := a], view[row.token := row.value];
    forall a': SocketAddr ensures BucketOk(b', addrs', view', a') {
      assert BucketOk(b, addrs, view, a');
      assert a' in b ==> forall i | 0 <= i < |b[a']| :: RowOk(b[a'][i], a', addrs, view);
    }
    forall t ensures Listed(b', addrs', view', t) {
      assert Listed(b, addrs, view, t);
      if t == row.token {
        assert b'[a][|rows|].token == t;
      } else if t in view {
        var i :| 0 <= i < |b[addrs[t]]| && b[addrs[t]][i].token == t;
        assert b'[addrs[t]][i].token == t;
      }
    }
  }

  /** A token's row is under an address exactly when that is the address it registered with. */
  lemma RowIffAddress<V>(b: Buckets<V>, addrs: map<Token, SocketAddr>, view: map<Token, V>, a: SocketAddr, t: Token)
    requires Represents(b, addrs, view)
    ensures (a in b && HasRow(b[a], t)) <==> (t in view && addrs[t] == a)
    ensures a in b ==> b[a] != []
  {
    assert BucketOk(b, addrs, view, a) && Listed(b, addrs, view, t);
    if a in b && HasRow(b[a], t) {
      var i :| 0 <= i < |b[a]| && b[a][i].token == t;
      assert RowOk(b[a][i], a, addrs, view);
    }
  }

  /** A bucket's row is what the view has for its token, and no other row there has that token. */
  lemma RowIsInView<V>(b: Buckets<V>, addrs: map<Token, SocketAddr>, view: map<Token, V>, a: SocketAddr, i: nat)
    requires Represents(b, addrs, view) && a in b && i < |b[a]|
    ensures RowOk(b[a][i], a, addrs, view) && Distinct(b[a])
  {
    assert BucketOk(b, addrs, view, a);
  }

  lemma RetainedBucketOk<V>(
    b: Buckets<V>, addrs: map<Token, SocketAddr>, view: map<Token, V>, t: Token, a: SocketAddr)
    requires Represents(b, addrs, view) && t in view && addrs[t] in b
    ensures BucketOk(WithRows(b, addrs[t], Retain(b[addrs[t]], t)), addrs - {t}, view - {t}, a)
  {
    var b' := WithRows(b, addrs[t], Retain(b[addrs[t]], t));
    RowIffAddress(b, addrs, view, a, t);
    assert BucketOk(b, addrs, view, a);
    if a == addrs[t] {
      RetainFacts(b[a], t);
    }
    if a in b' {
      forall i | 0 <= i < |b'[a]| ensures RowOk(b'[a][i], a, addrs - {t}, view - {t}) {
        var j :| 0 <= j < |b[a]| && b[a][j] == b'[a][i];
        assert RowOk(b[a][j], a, addrs, view);
      }
    }
  }

  lemma OthersStayListed<V>(
    b: Buckets<V>, addrs: map<Token, SocketAddr>, view: map<Token, V>, t: Token, other: Token)
    requires Represents(b, addrs, view) && t in view && addrs[t] in b
    ensures Listed(WithRows(b, addrs[t], Retain(b[addrs[t]], t)), addrs - {t}, view - {t}, other)
  {
    assert Listed(b, addrs, view, other);
    if other in view && other != t {
      var i :| 0 <= i < |b[addrs[other]]| && b[addrs[other]][i].token == other;
      if addrs[other] == addrs[t] {
        RetainFacts(b[addrs[t]], t);
        assert b[addrs[t]][i] in Retain(b[addrs[t]], t);
      }
    }
  }

  lemma RemoveRepresents<V>(
    b: Buckets<V>, addrs: map<Token, SocketAddr>, view: map<Token, V>, t: Token)
    requires Represents(b, addrs, view) && t in view
    ensures addrs[t] in b
    ensures Represents(WithRows(b, addrs[t], Retain(b[addrs[t]], t)), addrs - {t}, view - {t})
  {
    assert Listed(b, addrs, view, t);
    var b' := WithRows(b, addrs[t], Retain(b[addrs[t]], t));
    forall a: SocketAddr ensures BucketOk(b', addrs - {t}, view - {t}, a) {
      RetainedBucketOk(b, addrs, view, t, a);
    }
    forall other ensures Listed(b', addrs - {t}, view - {t}, other) {
      OthersStayListed(b, addrs, view, t, other);
    }
  }

  lemma UpdateRepresents<V>(
    b: Buckets<V>, addrs: map<Token, SocketAddr>, view: map<Token, V>, a: SocketAddr, i: nat, value: V)
    requires Represents(b, addrs, view) && a in b && i < |b[a]|
    ensures var t := b[a][i].token;
            Represents(b[a := b[a][i := Row(t, value)]], addrs, view[t := value])
  {
    RowIsInView(b, addrs, view, a, i);
    var t := b[a][i].token;
    var b', view' := b[a := b[a][i := Row(t, value)]], view[t := value];
    forall a': SocketAddr ensures BucketOk(b', addrs, view', a') {
      assert BucketOk(b, addrs, view, a');
      if a' in b' {
        forall j | 0 <= j < |b'[a']| ensures RowOk(b'[a'][j], a', addrs, view') {
          assert RowOk(b[a'][j], a', addrs, view);
        }
      }
    }
    forall t' ensures Listed(b', addrs, view', t') {
      assert Listed(b, addrs, view, t');
      if t' in view {
        var j :| 0 <= j < |b[addrs[t']]| && b[addrs[t']][j].token == t';
        assert b'[addrs[t']][j].token == t';
      }
    }
  }

  // ---- Visiting every row once, address by address --------------------------------------------

  /** The tokens of the first rows of a bucket. */
  function Tokens<V>(rows: seq<Row<V>>, n: nat): set<Token>
    requires n <= |rows|
  {
    set i | 0 <= i < n :: rows[i].token
  }

  lemma TokensNext<V>(rows: seq<Row<V>>, n: nat, done: set<Token>)
    requires n < |rows| && Distinct(rows) && Tokens(rows, |rows|) !! done
    ensures done + Tokens(rows, n) + {rows[n].token} == done + Tokens(rows, n + 1)
    ensures rows[n].token !in done + Tokens(rows, n)
  {
    assert Tokens(rows, n + 1) == Tokens(rows, n) + {rows[n].token};
    assert rows[n].token in Tokens(rows, |rows|);
  }

  /** The tokens whose address is no longer to be visited. */
  function Visited(addrs: map<Token, SocketAddr>, todo: set<SocketAddr>): set<Token> {
    set t | t in addrs && addrs[t] !in todo
  }

  lemma VisitedAtStart<V>(b: Buckets<V>, addrs: map<Token, SocketAddr>, view: map<Token, V>)
    requires Represents(b, addrs, view)
    ensures Visited(addrs, b.Keys) == {} && Visited(addrs, {}) == view.Keys
  {
    forall t | t in addrs ensures addrs[t] in b {
      RowIffAddress(b, addrs, view, addrs[t], t);
    }
  }

  /** Visiting a bucket serves exactly the tokens registered at its address. */
  lemma VisitedNext<V>(b: Buckets<V>, addrs: map<Token, SocketAddr>, view: map<Token, V>, todo: set<SocketAddr>,
                       a: SocketAddr)
    requires Represents(b, addrs, view) && a in todo && a in b
    ensures Visited(addrs, todo) + Tokens(b[a], |b[a]|) == Visited(addrs, todo - {a})
    ensures Tokens(b[a], |b[a]|) !! Visited(addrs, todo)
  {
    forall t ensures t in Tokens(b[a], |b[a]|) <==> t in addrs && addrs[t] == a {
      RowIffAddress(b, addrs, view, a, t);
    }
  }

  /** Where a token's row is, if it is under that address. */
  method FindRow<V>(b: Buckets<V>, a: SocketAddr, t: Token) returns (r: Option<nat>)
    ensures r.Some? ==> a in b && r.value < |b[a]| && b[a][r.value].token == t
    ensures r.Some? <==> a in b && HasRow(b[a], t)
  {
    if a !in b {
      return None;
    }
    for i := 0 to |b[a]|
      invariant forall j | 0 <= j < i :: b[a][j].token != t
    {
      if b[a][i].token == t {
        return Some(i);
      }
    }
    return None;
  }
}
