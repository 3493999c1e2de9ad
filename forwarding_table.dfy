/** ForwardingTable.cs: the per-node record of message ids already handled,
    with, for each, the neighbour it came from (null when this node started
    the search) and the search it belongs to. */
module Forwarding {
  import opened Primitives
  import opened Messages
  import opened DateTimeExtensions
  import opened Expiry
  import opened Searching

  /** ForwardingTable.Entry: never changed once inserted. */
  datatype Entry = Entry(source: Option<NodeId>, searchRef: Option<SearchData>, insertionTime: DateTime)

  function InsertedAt(e: Entry): int { e.insertionTime }

  type Table = map<MsgId, Entry>

  /** Add on the table: the at-most-once rule. */
  datatype Added = Added(ok: bool, table: Table)

  function AddEntry(t: Table, m: MsgId, source: Option<NodeId>, searchRef: Option<SearchData>,
                    expiry: nat, now: DateTime): (r: Added)
    ensures r.ok <==> Find(t, m, InsertedAt, expiry, now).None?
    ensures r.ok ==> r.table == t[m := Entry(source, searchRef, now)]
    ensures !r.ok ==> r.table == t
  {
    if Find(t, m, InsertedAt, expiry, now).Some? then Added(false, t)
    else Added(true, Prune(t, m, InsertedAt, expiry, now)[m := Entry(source, searchRef, now)])
  }

  /** Clean(connectionId) on the table: the entries that arrived from a
      non-null `connection` go, all others stay. */
  function Disconnect(t: Table, connection: Option<NodeId>): (r: Table)
    ensures connection.None? ==> r == t
    ensures forall m :: m in r <==> m in t && !(connection.Some? && t[m].source == connection)
    ensures forall m :: m in r ==> r[m] == t[m]
  {
    map m | m in t && !(connection.Some? && t[m].source == connection) :: t[m]
  }

  /** The at-most-once forwarding guarantee: once `m` is in the table, every
      further Add of `m` fails, and leaves the stored entry as it was, until
      that entry expires. */
  lemma AddAtMostOnce(t: Table, m: MsgId, c1: Option<NodeId>, s1: Option<SearchData>,
                      c2: Option<NodeId>, s2: Option<SearchData>, expiry: nat, t1: DateTime, t2: DateTime)
    requires AddEntry(t, m, c1, s1, expiry, t1).ok
    requires t2 <= t1 + expiry
    ensures var t' := AddEntry(t, m, c1, s1, expiry, t1).table;
            AddEntry(t', m, c2, s2, expiry, t2) == Added(false, t') &&
            Find(t', m, InsertedAt, expiry, t2) == Some(Entry(c1, s1, t1))
  {
  }

  /** Liveness boundary: an entry is still found at exactly
      InsertionTime + expiry and is gone (and deleted) one tick later. */
  lemma ExpiryBoundary(t: Table, m: MsgId, expiry: nat)
    requires m in t
    ensures Find(t, m, InsertedAt, expiry, t[m].insertionTime + expiry) == Some(t[m])
    ensures Find(t, m, InsertedAt, expiry, t[m].insertionTime + expiry + 1).None?
    ensures Prune(t, m, InsertedAt, expiry, t[m].insertionTime + expiry + 1) == t - {m}
  {
  }

  /** Once an entry has expired, `m` may be added again. */
  lemma AddAfterExpiry(t: Table, m: MsgId, c: Option<NodeId>, s: Option<SearchData>, expiry: nat, now: DateTime)
    requires m in t && Expired(t[m].insertionTime, expiry, now)
    ensures AddEntry(t, m, c, s, expiry, now) == Added(true, t[m := Entry(c, s, now)])
  {
  }

  /** Purging a neighbour removes only its entries: this node's own
      searches (null source) always survive. */
  lemma DisconnectKeepsOwnSearches(t: Table, connection: Option<NodeId>, m: MsgId)
    requires m in t && t[m].source.None?
    ensures m in Disconnect(t, connection) && Disconnect(t, connection)[m] == t[m]
  {
  }

  /** ForwardingTable: the message-id dictionary with lazy and periodic
      expiry. */
  class ForwardingTable {
    const expiryInterval: nat
    var table: Table

    constructor (expiry: nat)
      ensures expiryInterval == expiry && table == map[]
    {
      expiryInterval := expiry;
      table := map[];
    }

    /** TryGetEntry: the live entry for `m`; an expired one is deleted. */
    method TryGetEntry(m: MsgId, now: DateTime) returns (found: bool, entry: Option<Entry>)
      modifies this
      ensures entry == Find(old(table), m, InsertedAt, expiryInterval, now) && found == entry.Some?
      ensures table == Prune(old(table), m, InsertedAt, expiryInterval, now)
    {
      if m in table {
        if Expired(table[m].insertionTime, expiryInterval, now) {
          table := table - {m};
        } else {
          return true, Some(table[m]);
        }
      }
      return false, None;
    }

    /** ContainsEntry: whether a live entry for `m` exists. */
    method ContainsEntry(m: MsgId, now: DateTime) returns (b: bool)
      modifies this
      ensures b <==> Find(old(table), m, InsertedAt, expiryInterval, now).Some?
      ensures table == Prune(old(table), m, InsertedAt, expiryInterval, now)
    {
      var entry;
      b, entry := TryGetEntry(m, now);
    }

    /** GetEntry: the live entry for `m`, or null. */
    method GetEntry(m: MsgId, now: DateTime) returns (entry: Option<Entry>)
      modifies this
      ensures entry == Find(old(table), m, InsertedAt, expiryInterval, now)
      ensures table == Prune(old(table), m, InsertedAt, expiryInterval, now)
    {
      var found;
      found, entry := TryGetEntry(m, now);
    }

    /** TryGetSourceConnection: false with null when there is no live entry,
        otherwise true with the stored source (null for own searches). */
    method TryGetSourceConnection(m: MsgId, now: DateTime) returns (found: bool, connection: Option<NodeId>)
      modifies this
      ensures var f := Find(old(table), m, InsertedAt, expiryInterval, now);
              found == f.Some? && connection == (if f.Some? then f.value.source else None)
      ensures table == Prune(old(table), m, InsertedAt, expiryInterval, now)
    {
      var ok, entry := TryGetEntry(m, now);
      if !ok {
        return false, None;
      }
      return true, entry.value.source;
    }

    /** Add: inserts and returns true iff there is no live entry for `m`. */
    method Add(m: MsgId, source: Option<NodeId>, searchRef: Option<SearchData>, now: DateTime) returns (added: bool)
      modifies this
      ensures var a := AddEntry(old(table), m, source, searchRef, expiryInterval, now);
              added == a.ok && table == a.table
    {
      var present := ContainsEntry(m, now);
      if !present {
        table := table[m := Entry(source, searchRef, now)];
        return true;
      }
      return false;
    }

    /** Clean(): removes the entries inserted before now - expiry and says
        how many; nothing when that instant is out of range. */
    method Clean(now: DateTime) returns (removed: nat)
      modifies this
      ensures table == SweepAt(old(table), InsertedAt, expiryInterval, now)
      ensures removed == |old(table)| - |table|
    {
      var limit := TrySubtract(now, expiryInterval);
      if !limit.ok {
        return 0;
      }
      var itemsToRemove := CollectKeys(table, (m: MsgId, e: Entry) => limit.result > e.insertionTime);
      RemoveCollected(table, (m: MsgId, e: Entry) => limit.result > e.insertionTime, itemsToRemove);
      removed := |itemsToRemove|;
      table := table - itemsToRemove;
    }

    /** Clean(connectionId): removes the entries from that neighbour. */
    method CleanConnection(connection: Option<NodeId>) returns (removed: nat)
      modifies this
      ensures table == Disconnect(old(table), connection)
      ensures removed == |old(table)| - |table|
    {
      var itemsToRemove := CollectKeys(table, (m: MsgId, e: Entry) => connection.Some? && e.source == connection);
      RemoveCollected(table, (m: MsgId, e: Entry) => connection.Some? && e.source == connection, itemsToRemove);
      removed := |itemsToRemove|;
      table := table - itemsToRemove;
    }

    /** Count: every stored entry, expired or not. */
    function Count(): (n: nat)
      reads this
      ensures n == |table.Keys|
    {
      |table|
    }
  }
}
