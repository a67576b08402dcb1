/**
 * Capacity eviction shared by the two tables of the defender: drop the entries
 * of lowest rank until a target number remain. The rank is the time of a
 * host's latest event for the host table and the expiry for the ban table.
 */
module Eviction {

  /** small holds some of the entries of big, with the same values. */
  ghost predicate IsSubmap<K, V>(small: map<K, V>, big: map<K, V>)
  {
    forall k :: k in small ==> k in big && small[k] == big[k]
  }

  /** Every entry of rank that was dropped ranks no higher than any entry kept. */
  ghost predicate KeepsHighest<K>(rank: map<K, int>, kept: set<K>)
  {
    forall a, b :: a in rank && a !in kept && b in kept && b in rank ==> rank[a] <= rank[b]
  }

  /** How many of n entries are left when the target is keep. */
  function KeepCount(keep: int, n: nat): nat
  {
    if keep <= 0 then 0 else if keep < n then keep else n
  }

  /** A key of least rank, found by one pass over the keys. */
  method MinKey<K>(rank: map<K, int>) returns (k: K)
    requires |rank| > 0
    ensures k in rank
    ensures forall j :: j in rank ==> rank[k] <= rank[j]
  {
    var rest := rank.Keys;
    k :| k in rest;
    rest := rest - {k};
    while rest != {}
      invariant k in rank
      invariant rest <= rank.Keys
      invariant forall j :: j in rank && j !in rest ==> rank[k] <= rank[j]
      decreases rest
    {
      var j :| j in rest;
      if rank[j] < rank[k] {
        k := j;
      }
      rest := rest - {j};
    }
  }

  /**
   * Repeatedly removes an entry of least rank while more than keep remain.
   * The result holds exactly KeepCount(keep, |m|) entries of m, and those are
   * entries of the highest ranks (ties broken arbitrarily).
   */
  method EvictLowest<K, V>(m: map<K, V>, rank: map<K, int>, keep: int) returns (r: map<K, V>)
    requires m.Keys == rank.Keys
    ensures IsSubmap(r, m)
    ensures |r| == KeepCount(keep, |m|)
    ensures KeepsHighest(rank, r.Keys)
  {
    r := m;
    while |r| > keep && |r| > 0
      invariant IsSubmap(r, m)
      invariant KeepsHighest(rank, r.Keys)
      invariant |r| >= KeepCount(keep, |m|)
      decreases |r|
    {
      var live := map j | j in r :: rank[j];
      assert live.Keys == r.Keys;
      assert |live| == |r| by {
        assert |live| == |live.Keys| && |r| == |r.Keys|;
      }
      var k := MinKey(live);
      var r' := r - {k};
      assert r'.Keys == r.Keys - {k};
      assert |r'| == |r| - 1 by {
        assert |r'| == |r'.Keys| && |r| == |r.Keys|;
      }
      r := r';
    }
  }

  /**
   * Whatever the total and the tie-breaking, an entry that strictly outranks
   * every other one survives an eviction that keeps at least one entry.
   */
  lemma StrictlyHighestKept<K>(rank: map<K, int>, kept: set<K>, k: K)
    requires KeepsHighest(rank, kept)
    requires kept <= rank.Keys && kept != {}
    requires k in rank
    requires forall j :: j in rank && j != k ==> rank[j] < rank[k]
    ensures k in kept
  {
  }

  /** When an eviction drops anything, it drops an entry that ranks strictly below every other one. */
  lemma StrictlyLowestDropped<K>(rank: map<K, int>, kept: set<K>, k: K)
    requires KeepsHighest(rank, kept)
    requires kept <= rank.Keys && |kept| < |rank|
    requires k in rank
    requires forall j :: j in rank && j != k ==> rank[k] < rank[j]
    ensures k !in kept
  {
    var dropped := rank.Keys - kept;
    assert |rank.Keys| == |rank|;
    SubsetCard(rank.Keys * kept, kept);
    assert rank.Keys == dropped + rank.Keys * kept;
    assert |dropped| > 0;
    var x :| x in dropped;
    if x != k {
      assert rank[k] < rank[x];
    }
  }

  lemma SubsetCard<T>(a: set<T>, b: set<T>)
    requires a <= b
    ensures |a| <= |b|
  {
    if a != {} {
      var x :| x in a;
      SubsetCard(a - {x}, b - {x});
    }
  }
}
