/** Counting live entries per address, as the registry and the admission control both do. */
module PerIp {
  import opened Common

  type Counts = map<Ip, nat>

  function CountOf(counts: Counts, ip: Ip): nat {
    if ip in counts then counts[ip] else 0
  }

  function Increment(counts: Counts, ip: Ip): Counts {
    counts[ip := CountOf(counts, ip) + 1]
  }

  /** The count must be there; an entry that reaches zero is dropped. */
  function Decrement(counts: Counts, ip: Ip): Counts
    requires ip in counts && counts[ip] > 0
  {
    if counts[ip] == 1 then counts - {ip} else counts[ip := counts[ip] - 1]
  }

  /** The entries that are counted under an address. */
  function At(addrs: map<Token, SocketAddr>, ip: Ip): set<Token> {
    set t | t in addrs && addrs[t].ip == ip
  }

  predicate ExactAt(counts: Counts, addrs: map<Token, SocketAddr>, ip: Ip) {
    CountOf(counts, ip) == |At(addrs, ip)| && (ip in counts ==> counts[ip] > 0)
  }

  /** The counts are those of the entries, with no entry counted as zero. */
  ghost predicate Exact(counts: Counts, addrs: map<Token, SocketAddr>) {
    forall ip: Ip :: ExactAt(counts, addrs, ip)
  }

  lemma IncrementIsExact(counts: Counts, addrs: map<Token, SocketAddr>, t: Token, addr: SocketAddr)
    requires Exact(counts, addrs) && t !in addrs
    ensures Exact(Increment(counts, addr.ip), addrs[t := addr])
  {
    var counts', addrs' := Increment(counts, addr.ip), addrs[t := addr];
    forall ip: Ip ensures ExactAt(counts', addrs', ip) {
      assert ExactAt(counts, addrs, ip);
      assert At(addrs', ip) == if ip == addr.ip then At(addrs, ip) + {t} else At(addrs, ip);
    }
  }

  lemma DecrementUndoesIncrement(counts: Counts, ip: Ip)
    requires ip in counts ==> counts[ip] > 0
    ensures ip in Increment(counts, ip) && Increment(counts, ip)[ip] > 0
    ensures Decrement(Increment(counts, ip), ip) == counts
  {
  }

  /** The count of a live entry is there to be decremented. */
  lemma LiveIsCounted(counts: Counts, addrs: map<Token, SocketAddr>, t: Token)
    requires Exact(counts, addrs) && t in addrs
    ensures addrs[t].ip in counts && counts[addrs[t].ip] > 0
  {
    assert t in At(addrs, addrs[t].ip);
    assert ExactAt(counts, addrs, addrs[t].ip);
  }

  lemma DecrementIsExact(counts: Counts, addrs: map<Token, SocketAddr>, t: Token)
    requires Exact(counts, addrs) && t in addrs
    ensures addrs[t].ip in counts && counts[addrs[t].ip] > 0
    ensures Exact(Decrement(counts, addrs[t].ip), addrs - {t})
  {
    var here := addrs[t].ip;
    LiveIsCounted(counts, addrs, t);
    var counts', addrs' := Decrement(counts, here), addrs - {t};
    forall ip: Ip ensures ExactAt(counts', addrs', ip) {
      assert ExactAt(counts, addrs, ip);
      assert At(addrs', ip) == if ip == here then At(addrs, ip) - {t} else At(addrs, ip);
    }
  }

  /** Entries all of which are also counted elsewhere are counted there at least as often. */
  lemma FewerAt(some: map<Token, SocketAddr>, all: map<Token, SocketAddr>, ip: Ip)
    requires forall t | t in some :: t in all && all[t] == some[t]
    ensures |At(some, ip)| <= |At(all, ip)|
    ensures (exists t :: t in all && all[t].ip == ip && t !in some) ==> |At(some, ip)| < |At(all, ip)|
  {
    SubsetCardinality(At(some, ip), At(all, ip));
    if t :| t in all && all[t].ip == ip && t !in some {
      assert t in At(all, ip) && t !in At(some, ip);
    }
  }

  lemma SubsetCardinality<T>(a: set<T>, b: set<T>)
    requires a <= b
    ensures |a| <= |b|
    ensures a != b ==> |a| < |b|
  {
    assert b == a + (b - a);
    assert |b| == |a| + |b - a|;
  }
}
