/** The expiry rule shared by the forwarding table and the search cache: an
    entry stamped at `t` is live at `now` while `t + expiry >= now`; a lookup
    of an expired entry deletes it; a sweep deletes every entry stamped before
    `now - expiry`. */
module Expiry {
  import opened Primitives
  import opened DateTimeExtensions

  predicate Expired(stamp: int, expiry: nat, now: int)
  {
    stamp + expiry < now
  }

  /** What the private TryGetEntry / TryGetResult find for `k` at `now`. */
  function Find<K, V>(m: map<K, V>, k: K, stamp: V -> int, expiry: nat, now: int): (r: Option<V>)
    ensures r.Some? <==> k in m && !Expired(stamp(m[k]), expiry, now)
    ensures r.Some? ==> r.value == m[k]
  {
    if k in m && !Expired(stamp(m[k]), expiry, now) then Some(m[k]) else None
  }

  /** The map after that lookup: an expired entry for `k` is gone, all else
      is untouched. */
  function Prune<K, V>(m: map<K, V>, k: K, stamp: V -> int, expiry: nat, now: int): (r: map<K, V>)
    ensures k in m && Expired(stamp(m[k]), expiry, now) ==> r == m - {k}
    ensures !(k in m && Expired(stamp(m[k]), expiry, now)) ==> r == m
  {
    if k in m && Expired(stamp(m[k]), expiry, now) then m - {k} else m
  }

  /** The entries a sweep with time limit `limit` keeps: those not stamped
      before the limit. */
  function Sweep<K(!new), V>(m: map<K, V>, stamp: V -> int, limit: int): (r: map<K, V>)
    ensures forall k :: k in r <==> k in m && limit <= stamp(m[k])
    ensures forall k :: k in r ==> r[k] == m[k]
  {
    map k | k in m && limit <= stamp(m[k]) :: m[k]
  }

  /** The whole periodic sweep (ForwardingTable.Clean, SearchManager.Clean):
      nothing happens when `now - expiry` is not a representable instant. */
  function SweepAt<K(!new), V>(m: map<K, V>, stamp: V -> int, expiry: nat, now: DateTime): (r: map<K, V>)
  {
    var limit := TrySubtract(now, expiry);
    if limit.ok then Sweep(m, stamp, limit.result) else m
  }

  /** A sweep removes exactly the entries a lookup would find expired, and
      leaves the others unchanged. */
  lemma SweepAtRemovesExactlyExpired<K(!new), V>(m: map<K, V>, stamp: V -> int, expiry: nat, now: DateTime, k: K)
    requires expiry <= now
    ensures k in SweepAt(m, stamp, expiry, now) <==> k in m && Find(m, k, stamp, expiry, now).Some?
    ensures k in SweepAt(m, stamp, expiry, now) ==> SweepAt(m, stamp, expiry, now)[k] == m[k]
  {
    TrySubtractNonNegative(now, expiry);
  }

  /** Before the instant `expiry` has elapsed since DateTime.MinValue, a
      sweep changes nothing, even if entries have expired. */
  lemma SweepAtTooEarly<K(!new), V>(m: map<K, V>, stamp: V -> int, expiry: nat, now: DateTime)
    requires now < expiry
    ensures SweepAt(m, stamp, expiry, now) == m
  {
    TrySubtractNonNegative(now, expiry);
  }

  /** A sweep never deletes an entry that a lookup would still find. */
  lemma SweepAtKeepsLive<K(!new), V>(m: map<K, V>, stamp: V -> int, expiry: nat, now: DateTime, k: K)
    requires Find(m, k, stamp, expiry, now).Some?
    ensures k in SweepAt(m, stamp, expiry, now) && SweepAt(m, stamp, expiry, now)[k] == m[k]
  {
    TrySubtractNonNegative(now, expiry);
  }

  /** The keys of `m` whose entry satisfies `p`: the "collect the keys to
      remove" loop of ForwardingTable.Clean, SearchManager.Clean and
      TaskProcessingTable.RemoveTasks. */
  method CollectKeys<K, V>(m: map<K, V>, p: (K, V) -> bool) returns (keys: set<K>)
    ensures forall k :: k in keys <==> k in m && p(k, m[k])
  {
    keys := {};
    var rest := m.Keys;
    while rest != {}
      invariant rest <= m.Keys
      invariant forall k :: k in keys <==> k in m && k !in rest && p(k, m[k])
      decreases rest
    {
      var k :| k in rest;
      if p(k, m[k]) {
        keys := keys + {k};
      }
      rest := rest - {k};
    }
  }

  /** Removing the collected keys leaves exactly the entries that fail `p`;
      the number removed is the number collected. */
  lemma RemoveCollected<K, V>(m: map<K, V>, p: (K, V) -> bool, keys: set<K>)
    requires forall k :: k in keys <==> k in m && p(k, m[k])
    ensures |m - keys| == |m| - |keys|
  {
    assert keys <= m.Keys;
    assert (m - keys).Keys == m.Keys - keys;
    assert |m.Keys - keys| == |m.Keys| - |keys| by {
      SetDifferenceSize(m.Keys, keys);
    }
  }

  lemma {:induction false} SetDifferenceSize<T>(a: set<T>, b: set<T>)
    requires b <= a
    ensures |a - b| == |a| - |b|
  {
    if b != {} {
      var x :| x in b;
      SetDifferenceSize(a - {x}, b - {x});
      assert a - {x} - (b - {x}) == a - b;
    }
  }
}
