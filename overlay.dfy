/** The overlay as a whole: every node's forwarding table and search cache,
    with the transport reduced to handing a message to the next node. A
    query flood started by one node leaves, along the path it travelled, a
    chain of forwarding entries pointing back towards that node; a reply
    whose time-to-live equals the hop count of the query it answers follows
    that chain exactly and is merged into the originator's search.
    (CommunicationHandler.cs:110-128, 202-311, 358-387.) */
module Overlay {
  import opened Primitives
  import opened Messages
  import opened DateTimeExtensions
  import opened Expiry
  import opened Searching
  import opened Forwarding
  import opened Communication

  /** The protocol state of one node. */
  datatype NodeState = NodeState(table: Table, searches: Cache)

  type Network = map<NodeId, NodeState>

  /** Whether a request puts a query into `to`'s inbox: a broadcast reaches
      every neighbour except the excluded one. */
  predicate QueryReaches(s: Send, to: NodeId)
  {
    s.QuerySend? && (IsNullOrWhiteSpace(s.excluded) || s.excluded != Some(to))
  }

  /** The network after the query, sent by path[0], has been handled by
      every node up to the last one, and the query as the last node
      receives it (None when the flood stops earlier). */
  datatype Flooded = Flooded(net: Network, arrived: Option<QueryData>)

  function Flood(net: Network, path: seq<NodeId>, q: QueryData, fx: nat, now: DateTime): (r: Flooded)
    requires |path| >= 2
    requires forall j :: 0 <= j < |path| ==> path[j] in net
    ensures r.net.Keys == net.Keys
    decreases |path|
  {
    if |path| == 2 then Flooded(net, Some(q))
    else
      var f := ForwardQuery(net[path[1]].table, Some(path[0]), q, fx, now);
      var net' := net[path[1] := net[path[1]].(table := f.table)];
      if f.send.Some? && QueryReaches(f.send.value, path[2]) then Flood(net', path[1..], f.send.value.query, fx, now)
      else Flooded(net', None)
  }

  /** The reply `r` arriving at `at`, and from there wherever each node
      sends it on; each hop spends one unit of its time to live. */
  function RouteReply(net: Network, at: NodeId, r: ReplyData, fx: nat, sx: nat, now: DateTime): (result: Network)
    ensures result.Keys == net.Keys
    decreases r.ttl
  {
    if at !in net then net
    else
      var s := ForwardReply(net[at].table, net[at].searches, r, fx, sx, now);
      var net' := net[at := NodeState(s.table, s.searches)];
      if s.send.Some? && s.send.value.ReplySend? then RouteReply(net', s.send.value.connection, s.send.value.reply, fx, sx, now)
      else net'
  }

  predicate OnPath(path: seq<NodeId>)
  {
    (forall j :: 0 <= j < |path| ==> !IsBlank(path[j])) &&
    (forall a, b :: 0 <= a < b < |path| ==> path[a] != path[b])
  }

  /** One hop of the flood: the next node records where the query came
      from and broadcasts it on, one hop further and one unit of time to
      live shorter, to a set of neighbours that includes the node after it. */
  lemma FloodStep(net: Network, path: seq<NodeId>, q: QueryData, fx: nat, now: DateTime)
    requires FloodReady(net, path, q.msgId, fx, now) && |path| > 2 && q.ttl > 1
    ensures Flood(net, path, q, fx, now) == Flood(FirstHop(net, path, q.msgId, now), path[1..], StepQuery(q), fx, now)
  {
    var f := ForwardQuery(net[path[1]].table, Some(path[0]), q, fx, now);
    assert f.send == Some(QuerySend(StepQuery(q), Some(path[0])));
    assert path[2] != path[0];
    assert QueryReaches(f.send.value, path[2]);
  }

  /** The last node of the path receives the query, as many hops further
      and as much time to live shorter as the path is long. */
  lemma {:induction false} FloodArrives(net: Network, path: seq<NodeId>, q: QueryData, fx: nat, now: DateTime)
    requires FloodReady(net, path, q.msgId, fx, now)
    requires q.ttl >= |path| - 1 && q.hops + |path| - 2 < 256
    ensures Flood(net, path, q, fx, now).arrived == Some(q.(ttl := q.ttl - (|path| - 2), hops := q.hops + (|path| - 2)))
    decreases |path|
  {
    if |path| > 2 {
      var net' := FirstHop(net, path, q.msgId, now);
      FloodStep(net, path, q, fx, now);
      FloodOnward(net, path, q.msgId, fx, now);
      FloodArrives(net', path[1..], StepQuery(q), fx, now);
    }
  }

  /** The network after path[1] has recorded the query from path[0]. */
  function FirstHop(net: Network, path: seq<NodeId>, m: MsgId, now: DateTime): Network
    requires |path| >= 2 && path[1] in net
  {
    net[path[1] := net[path[1]].(table := net[path[1]].table[m := Entry(Some(path[0]), None, now)])]
  }

  /** What a flood along `path` needs: distinct, non-blank nodes of the
      network, none of the intermediate ones holding a live entry for `m`. */
  predicate FloodReady(net: Network, path: seq<NodeId>, m: MsgId, fx: nat, now: DateTime)
  {
    |path| >= 2 && OnPath(path) &&
    (forall j :: 0 <= j < |path| ==> path[j] in net) &&
    (forall j :: 1 <= j < |path| - 1 ==> Find(net[path[j]].table, m, InsertedAt, fx, now).None?)
  }

  /** After the first hop, the rest of the path is ready for the flood. */
  lemma FloodOnward(net: Network, path: seq<NodeId>, m: MsgId, fx: nat, now: DateTime)
    requires FloodReady(net, path, m, fx, now) && |path| > 2
    ensures FloodReady(FirstHop(net, path, m, now), path[1..], m, fx, now)
  {
    var rest := path[1..];
    forall j | 1 <= j < |rest| - 1
      ensures FirstHop(net, path, m, now)[rest[j]] == net[path[j + 1]]
    {
      assert rest[j] == path[j + 1] && path[j + 1] != path[1];
    }
  }

  /** The flood records, at every intermediate node of the path, the node
      it came from; nodes off the path are untouched. */
  lemma {:induction false} FloodRecords(net: Network, path: seq<NodeId>, q: QueryData, fx: nat, now: DateTime)
    requires FloodReady(net, path, q.msgId, fx, now) && q.ttl >= |path| - 1
    ensures var r := Flood(net, path, q, fx, now);
            (forall j :: 1 <= j < |path| - 1 ==>
               r.net[path[j]] == net[path[j]].(table := net[path[j]].table[q.msgId := Entry(Some(path[j - 1]), None, now)])) &&
            (forall n :: n in net && n !in path[1..|path| - 1] ==> r.net[n] == net[n])
    decreases |path|
  {
    if |path| > 2 {
      var net' := FirstHop(net, path, q.msgId, now);
      FloodStep(net, path, q, fx, now);
      FloodOnward(net, path, q.msgId, fx, now);
      FloodRecords(net', path[1..], StepQuery(q), fx, now);
      var after := Flood(net', path[1..], StepQuery(q), fx, now).net;
      ChainOnPath(net, after, path, q.msgId, now);
      ChainOffPath(net, after, path, q.msgId, now);
    }
  }

  /** The entries the flood leaves: one hop recorded at path[1] and, after
      it, the hops recorded along the rest of the path give the entries
      along the whole path. */
  lemma ChainOnPath(net: Network, after: Network, path: seq<NodeId>, m: MsgId, now: DateTime)
    requires |path| > 2 && OnPath(path)
    requires forall j :: 0 <= j < |path| ==> path[j] in net
    requires after.Keys == net.Keys
    requires var net' := FirstHop(net, path, m, now);
             var rest := path[1..];
             (forall j :: 1 <= j < |rest| - 1 ==>
                after[rest[j]] == net'[rest[j]].(table := net'[rest[j]].table[m := Entry(Some(rest[j - 1]), None, now)])) &&
             (forall n :: n in net' && n !in rest[1..|rest| - 1] ==> after[n] == net'[n])
    ensures forall j :: 1 <= j < |path| - 1 ==>
              after[path[j]] == net[path[j]].(table := net[path[j]].table[m := Entry(Some(path[j - 1]), None, now)])
  {
    var rest := path[1..];
    forall j | 1 <= j < |path| - 1
      ensures after[path[j]] == net[path[j]].(table := net[path[j]].table[m := Entry(Some(path[j - 1]), None, now)])
    {
      if j == 1 {
        assert path[1] !in rest[1..|rest| - 1];
      } else {
        assert rest[j - 1] == path[j] && rest[j - 2] == path[j - 1];
        assert path[j] != path[1];
      }
    }
  }

  /** ... and nodes off the path keep their state. */
  lemma ChainOffPath(net: Network, after: Network, path: seq<NodeId>, m: MsgId, now: DateTime)
    requires |path| > 2
    requires path[1] in net && after.Keys == net.Keys
    requires var net' := FirstHop(net, path, m, now);
             var rest := path[1..];
             forall n :: n in net' && n !in rest[1..|rest| - 1] ==> after[n] == net'[n]
    ensures forall n :: n in net && n !in path[1..|path| - 1] ==> after[n] == net[n]
  {
    var rest := path[1..];
    forall n | n in net && n !in path[1..|path| - 1]
      ensures after[n] == net[n]
    {
      assert n != path[1] by {
        assert path[1..|path| - 1][0] == path[1];
      }
      assert rest[1..|rest| - 1] == path[1..|path| - 1][1..];
    }
  }

  predicate ReversePath(net: Network, path: seq<NodeId>, m: MsgId, d: SearchData, fx: nat, now: DateTime)
  {
    |path| >= 1 && (forall j :: 0 <= j < |path| ==> path[j] in net) &&
    Originates(net[path[0]].table, m, d, fx, now) &&
    (forall j :: 1 <= j < |path| ==> PointsBack(net[path[j]].table, m, path[j - 1], fx, now))
  }

  /** A live entry for `m` recording this node's own search `d`. */
  predicate Originates(t: Table, m: MsgId, d: SearchData, fx: nat, now: DateTime)
  {
    var e := Find(t, m, InsertedAt, fx, now);
    e.Some? && e.value.source.None? && e.value.searchRef == Some(d)
  }

  /** A live entry for `m` naming `prev` as the node the query came from. */
  predicate PointsBack(t: Table, m: MsgId, prev: NodeId, fx: nat, now: DateTime)
  {
    var e := Find(t, m, InsertedAt, fx, now);
    e.Some? && e.value.source == Some(prev)
  }

  /** The reply with time to live i + 1 arriving at path[i] travels back
      along the chain and is merged into the originator's search; nothing
      else in the network changes. */
  lemma {:induction false} ReplyRetracesPath(net: Network, path: seq<NodeId>, i: nat, r: ReplyData,
                                             d: SearchData, fx: nat, sx: nat, now: DateTime)
    requires i < |path| && ReversePath(net, path, r.msgId, d, fx, now)
    requires r.ttl == i + 1
    ensures RouteReply(net, path[i], r, fx, sx, now) ==
              net[path[0] := NodeState(net[path[0]].table, Merge(net[path[0]].searches, Some(d), Some(r.found), sx, now).cache)]
    decreases i
  {
    if i > 0 {
      var at := path[i];
      var s := ForwardReply(net[at].table, net[at].searches, r, fx, sx, now);
      assert s.send == Some(ReplySend(StepReply(r), path[i - 1]));
      assert net[at := NodeState(s.table, s.searches)] == net;
      ReplyRetracesPath(net, path, i - 1, StepReply(r), d, fx, sx, now);
    }
  }

  /** The last node of the path handles the query it received: its answer,
      the last request it makes, is a reply to the node before it whose time
      to live is the number of hops the query travelled. */
  lemma LastNodeAnswers(t: Table, source: NodeId, q: QueryData, found: seq<Uri>, fx: nat, now: DateTime)
    requires !IsBlank(source) && q.ttl > 0 && q.hops < 255 && |found| > 0
    ensures var h := HandleQuery(t, Some(source), q, found, fx, now);
            |h.sends| > 0 && h.sends[|h.sends| - 1] == ReplySend(ReplyData(q.msgId, q.hops + 1, 0, found), source)
  {
    var f := ForwardQuery(t, Some(source), q, fx, now);
    assert f.query.hops == q.hops + 1;
  }

  /** A whole search over the path: path[0] starts search `d` under message
      id `m`, the query floods to path[k] at time t1, path[k] answers with
      `found`, and the reply it sends is routed at time t2. None when some
      step does not happen. */
  function RoundTrip(net: Network, path: seq<NodeId>, m: MsgId, d: SearchData, initialTtl: byte,
                     found: seq<Uri>, fx: nat, sx: nat, t1: DateTime, t2: DateTime): Option<Network>
    requires |path| >= 2
    requires forall j :: 0 <= j < |path| ==> path[j] in net
  {
    var k := |path| - 1;
    var created := NewSearch(net[path[0]].table, m, d, initialTtl, fx, t1);
    if created.send.None? || !created.send.value.QuerySend? then None
    else
      var flooded := Flood(net[path[0] := net[path[0]].(table := created.table)], path, created.send.value.query, fx, t1);
      if flooded.arrived.None? then None
      else
        var handled := HandleQuery(flooded.net[path[k]].table, Some(path[k - 1]), flooded.arrived.value, found, fx, t1);
        if |handled.sends| == 0 || !handled.sends[|handled.sends| - 1].ReplySend? then None
        else
          var answer := handled.sends[|handled.sends| - 1];
          Some(RouteReply(flooded.net[path[k] := flooded.net[path[k]].(table := handled.table)],
                          answer.connection, answer.reply, fx, sx, t2))
  }

  /** Changing a node that is not on the chain leaves the chain intact. */
  lemma ReversePathFrame(net: Network, path: seq<NodeId>, m: MsgId, d: SearchData, fx: nat, now: DateTime,
                         x: NodeId, v: NodeState)
    requires ReversePath(net, path, m, d, fx, now)
    requires forall j :: 0 <= j < |path| ==> path[j] != x
    ensures ReversePath(net[x := v], path, m, d, fx, now)
  {
    forall j | 0 <= j < |path|
      ensures net[x := v][path[j]] == net[path[j]]
    {
    }
  }

  /** The first half of a search: path[0] records its own search and floods
      the query; at any time t2 within the forwarding expiry of the flood,
      the chain back to path[0] is in place, path[0]'s search cache is as it
      was, and the last node has received the query after |path| - 2 hops. */
  lemma {:induction false} FloodFromOrigin(net: Network, path: seq<NodeId>, m: MsgId, d: SearchData, initialTtl: byte,
                                           fx: nat, t1: DateTime, t2: DateTime)
    requires |path| >= 2 && OnPath(path)
    requires forall j :: 0 <= j < |path| ==> path[j] in net
    requires forall j :: 0 <= j < |path| - 1 ==> Find(net[path[j]].table, m, InsertedAt, fx, t1).None?
    requires |path| - 1 <= initialTtl
    requires t1 <= t2 <= t1 + fx
    ensures var created := NewSearch(net[path[0]].table, m, d, initialTtl, fx, t1);
            created.send.Some? && created.send.value.QuerySend? &&
            var flooded := Flood(net[path[0] := net[path[0]].(table := created.table)], path, created.send.value.query, fx, t1);
            flooded.arrived.Some? && flooded.arrived.value.msgId == m &&
            flooded.arrived.value.hops == |path| - 2 && flooded.arrived.value.ttl > 0 &&
            flooded.net.Keys == net.Keys &&
            flooded.net[path[0]].searches == net[path[0]].searches &&
            ReversePath(flooded.net, path[..|path| - 1], m, d, fx, t2)
  {
    var k := |path| - 1;
    var created := NewSearch(net[path[0]].table, m, d, initialTtl, fx, t1);
    var net1 := net[path[0] := net[path[0]].(table := created.table)];
    var q := created.send.value.query;
    forall j | 1 <= j < |path| - 1
      ensures Find(net1[path[j]].table, q.msgId, InsertedAt, fx, t1).None?
    {
      assert path[j] != path[0];
    }
    assert q.msgId == m && q.hops == 0;
    FloodArrives(net1, path, q, fx, t1);
    FloodRecords(net1, path, q, fx, t1);
    var flooded := Flood(net1, path, q, fx, t1);
    assert flooded.net[path[0]] == net1[path[0]] by {
      assert path[0] !in path[1..|path| - 1];
    }
    var back := path[..k];
    forall j | 1 <= j < k
      ensures PointsBack(flooded.net[back[j]].table, m, back[j - 1], fx, t2)
    {
      assert flooded.net[path[j]] == net1[path[j]].(table := net1[path[j]].table[m := Entry(Some(path[j - 1]), None, t1)]);
    }
    assert Originates(flooded.net[back[0]].table, m, d, fx, t2);
  }

  /** End to end: with a fresh message id, enough time to live for the
      path, a non-empty answer, the reply back within the forwarding expiry
      and the search still live, the endpoints path[k] found are added to
      path[0]'s search. */
  lemma SearchRoundTrip(net: Network, path: seq<NodeId>, m: MsgId, d: SearchData, initialTtl: byte,
                        found: seq<Uri>, fx: nat, sx: nat, t1: DateTime, t2: DateTime)
    requires |path| >= 2 && OnPath(path)
    requires forall j :: 0 <= j < |path| ==> path[j] in net
    requires forall j :: 0 <= j < |path| - 1 ==> Find(net[path[j]].table, m, InsertedAt, fx, t1).None?
    requires |path| - 1 <= initialTtl && |found| > 0
    requires t1 <= t2 <= t1 + fx
    requires Find(net[path[0]].searches, d, StartedAt, sx, t2).Some?
    ensures var home := RoundTrip(net, path, m, d, initialTtl, found, fx, sx, t1, t2);
            home.Some? && d in home.value[path[0]].searches &&
            home.value[path[0]].searches[d] ==
              Pending(net[path[0]].searches[d].startingTime, net[path[0]].searches[d].found + Elements(found))
  {
    var k := |path| - 1;
    var created := NewSearch(net[path[0]].table, m, d, initialTtl, fx, t1);
    var net1 := net[path[0] := net[path[0]].(table := created.table)];
    FloodFromOrigin(net, path, m, d, initialTtl, fx, t1, t2);
    var flooded := Flood(net1, path, created.send.value.query, fx, t1);
    var arrived := flooded.arrived.value;
    LastNodeAnswers(flooded.net[path[k]].table, path[k - 1], arrived, found, fx, t1);
    var handled := HandleQuery(flooded.net[path[k]].table, Some(path[k - 1]), arrived, found, fx, t1);
    var net3 := flooded.net[path[k] := flooded.net[path[k]].(table := handled.table)];
    ReversePathFrame(flooded.net, path[..k], m, d, fx, t2, path[k], net3[path[k]]);
    ReplyRetracesPath(net3, path[..k], k - 1, ReplyData(m, k, 0, found), d, fx, sx, t2);
  }
}
