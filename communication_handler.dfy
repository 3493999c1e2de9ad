/** CommunicationHandler.cs: the overlay protocol at one node. A search
    starts a query flood; each received query is forwarded (TTL down, hops
    up, at most once per message id) and answered from the local resource
    cache; each received reply is sent one hop back along the path its query
    came, or merged into this node's search when it has arrived home.

    The source runs the forward step and the answer step of a query as two
    concurrent tasks on the same QueryData object, and the answer reads the
    hop count the forward step increments. The model fixes the order:
    forward first, then answer with the incremented hop count, which is the
    order under which replies find their way back (see AnswerBeforeForward
    for the other order). */
module Communication {
  import opened Primitives
  import opened Messages
  import opened DateTimeExtensions
  import opened Expiry
  import opened Searching
  import opened Forwarding
  import opened ResourceCaching
  import opened NeighborClients
  import opened Neighborhood

  /** A request handed to the NeighborhoodManager. */
  datatype Send = QuerySend(query: QueryData, excluded: Option<NodeId>) | ReplySend(reply: ReplyData, connection: NodeId)

  function Sends(s: Option<Send>): seq<Send>
  {
    if s.None? then [] else [s.value]
  }

  /** What the NeighborhoodManager does with one request. */
  function ApplySend(qs: Queues, caps: map<NodeId, nat>, s: Send): (r: Queues)
    requires qs.Keys <= caps.Keys
    ensures r.Keys == qs.Keys
  {
    match s
    case QuerySend(q, excluded) => Broadcast(qs, caps, Some(q), excluded)
    case ReplySend(reply, connection) => Unicast(qs, caps, Some(reply), Some(connection))
  }

  /** The message one request puts in front of neighbour `id`, given the
      ids of all neighbours. */
  function Addressed(ids: set<NodeId>, s: Send, id: NodeId): seq<Message>
  {
    match s
    case QuerySend(q, excluded) => if id in Destinations(ids, excluded) then [Query(q)] else []
    case ReplySend(reply, connection) => if !IsBlank(connection) && connection == id then [Reply(reply)] else []
  }

  /** The messages a run of requests puts in front of neighbour `id`, in
      order. */
  function Inbox(ids: set<NodeId>, ss: seq<Send>, id: NodeId): seq<Message>
    decreases |ss|
  {
    if ss == [] then [] else Inbox(ids, ss[..|ss| - 1], id) + Addressed(ids, ss[|ss| - 1], id)
  }

  /** The requests applied in order: every queue is offered exactly the
      messages addressed to its neighbour, one after the other. */
  function ApplySends(qs: Queues, caps: map<NodeId, nat>, ss: seq<Send>): (r: Queues)
    requires qs.Keys <= caps.Keys
    ensures r.Keys == qs.Keys
    ensures forall id :: id in qs ==> r[id] == OfferAll(qs[id], caps[id], Inbox(qs.Keys, ss, id))
    decreases |ss|
  {
    if ss == [] then qs
    else
      var before := ApplySends(qs, caps, ss[..|ss| - 1]);
      ApplySendInbox(qs, caps, ss[..|ss| - 1], before, ss[|ss| - 1]);
      assert ss[..|ss| - 1] + [ss[|ss| - 1]] == ss;
      ApplySend(before, caps, ss[|ss| - 1])
  }

  /** One more request extends each neighbour's offers by what it
      addresses to that neighbour. */
  lemma ApplySendInbox(qs: Queues, caps: map<NodeId, nat>, ss: seq<Send>, before: Queues, s: Send)
    requires qs.Keys <= caps.Keys && before.Keys == qs.Keys
    requires forall id :: id in qs ==> before[id] == OfferAll(qs[id], caps[id], Inbox(qs.Keys, ss, id))
    ensures forall id :: id in qs ==>
              ApplySend(before, caps, s)[id] == OfferAll(qs[id], caps[id], Inbox(qs.Keys, ss + [s], id))
  {
    forall id | id in qs
      ensures ApplySend(before, caps, s)[id] == OfferAll(qs[id], caps[id], Inbox(qs.Keys, ss + [s], id))
    {
      assert (ss + [s])[..|ss|] == ss;
      var ms := Inbox(qs.Keys, ss, id);
      if Addressed(qs.Keys, s, id) == [] {
        assert ms + [] == ms;
      } else {
        OfferAllSnoc(qs[id], caps[id], ms, (Addressed(qs.Keys, s, id))[0]);
      }
    }
  }

  /** The in-place TimeToLive-- and HopsCount++ of a query being forwarded. */
  function StepQuery(q: QueryData): (r: QueryData)
    requires q.ttl > 0
    ensures r.msgId == q.msgId && r.options == q.options
    ensures r.ttl == q.ttl - 1 && r.hops == IncByte(q.hops)
  {
    q.(ttl := q.ttl - 1, hops := IncByte(q.hops))
  }

  /** The same on a reply. */
  function StepReply(r: ReplyData): (s: ReplyData)
    requires r.ttl > 0
    ensures s.msgId == r.msgId && s.found == r.found
    ensures s.ttl == r.ttl - 1 && s.hops == IncByte(r.hops)
  {
    r.(ttl := r.ttl - 1, hops := IncByte(r.hops))
  }

  /** CreateNewSearch on the table: the entry for the fresh id and the query
      broadcast to every neighbour, unless the id is already in use. */
  datatype Created = Created(table: Table, send: Option<Send>)

  function NewSearch(t: Table, msgId: MsgId, data: SearchData, initialTtl: byte, expiry: nat, now: DateTime): (r: Created)
    ensures r.send.Some? <==> Find(t, msgId, InsertedAt, expiry, now).None?
    ensures r.send.Some? ==> r.table == t[msgId := Entry(None, Some(data), now)] &&
                             r.send.value == QuerySend(QueryData(msgId, initialTtl, 0, GetSearchOptions(data)), None)
    ensures r.send.None? ==> r.table == t
  {
    var a := AddEntry(t, msgId, None, Some(data), expiry, now);
    if a.ok then Created(a.table, Some(QuerySend(QueryData(msgId, initialTtl, 0, GetSearchOptions(data)), None)))
    else Created(t, None)
  }

  /** ForwardReceivedQuery: the table after, the query as mutated, and the
      broadcast it makes, if any. */
  datatype QueryStep = QueryStep(table: Table, query: QueryData, send: Option<Send>)

  function ForwardQuery(t: Table, source: Option<NodeId>, q: QueryData, expiry: nat, now: DateTime): (r: QueryStep)
    ensures IsNullOrWhiteSpace(source) || q.ttl == 0 ==> r == QueryStep(t, q, None)
    ensures !IsNullOrWhiteSpace(source) && q.ttl > 0 ==> r.query == StepQuery(q)
    ensures !IsNullOrWhiteSpace(source) && q.ttl > 1 ==>
              var a := AddEntry(t, q.msgId, source, None, expiry, now);
              r.table == a.table && (r.send.Some? <==> a.ok) &&
              (a.ok ==> r.send == Some(QuerySend(StepQuery(q), source)))
    ensures !IsNullOrWhiteSpace(source) && q.ttl == 1 ==>
              r.table == Prune(t, q.msgId, InsertedAt, expiry, now) && r.send.None?
  {
    if IsNullOrWhiteSpace(source) || q.ttl == 0 then QueryStep(t, q, None)
    else
      var query := StepQuery(q);
      if query.ttl > 0 then
        var a := AddEntry(t, query.msgId, source, None, expiry, now);
        if a.ok then QueryStep(a.table, query, Some(QuerySend(query, source)))
        else QueryStep(t, query, None)
      else QueryStep(Prune(t, query.msgId, InsertedAt, expiry, now), query, None)
  }

  /** ReplyToQuery: a reply to the sender carrying the matching endpoints
      found in the resource cache, with a time-to-live equal to the query's
      hop count, so that it can travel exactly back to the originator. */
  function Answer(source: Option<NodeId>, q: QueryData, found: seq<Uri>): (r: Option<Send>)
    ensures r.Some? <==> !IsNullOrWhiteSpace(source) && |found| > 0
    ensures r.Some? ==> r.value == ReplySend(ReplyData(q.msgId, q.hops, 0, found), source.value)
  {
    if IsNullOrWhiteSpace(source) || |found| == 0 then None
    else Some(ReplySend(ReplyData(q.msgId, q.hops, 0, found), source.value))
  }

  /** HandleReceivedQuery, forward step first and then the answer; `found`
      is what the resource cache search returned. */
  datatype Handled = Handled(table: Table, sends: seq<Send>)

  function HandleQuery(t: Table, source: Option<NodeId>, q: QueryData, found: seq<Uri>, expiry: nat, now: DateTime): (r: Handled)
    ensures q.ttl == 0 ==> r == Handled(t, [])
    ensures q.ttl > 0 && !IsNullOrWhiteSpace(source) && |found| > 0 ==>
              |r.sends| > 0 && r.sends[|r.sends| - 1] == ReplySend(ReplyData(q.msgId, IncByte(q.hops), 0, found), source.value)
    ensures |found| == 0 ==> forall i :: 0 <= i < |r.sends| ==> r.sends[i].QuerySend?
  {
    if q.ttl == 0 then Handled(t, [])
    else
      var f := ForwardQuery(t, source, q, expiry, now);
      Handled(f.table, Sends(f.send) + Sends(Answer(source, f.query, found)))
  }

  /** The source's other order: the answer reads the hop count before the
      forward step increments it. */
  function AnswerBeforeForward(t: Table, source: Option<NodeId>, q: QueryData, found: seq<Uri>, expiry: nat, now: DateTime): (r: Handled)
    ensures q.ttl == 0 ==> r == Handled(t, [])
    ensures q.ttl > 0 && !IsNullOrWhiteSpace(source) && |found| > 0 ==>
              |r.sends| > 0 && r.sends[|r.sends| - 1] == ReplySend(ReplyData(q.msgId, q.hops, 0, found), source.value)
  {
    if q.ttl == 0 then Handled(t, [])
    else
      var f := ForwardQuery(t, source, q, expiry, now);
      Handled(f.table, Sends(f.send) + Sends(Answer(source, q, found)))
  }

  /** ForwardReceivedReply: the table and the search cache after, and the
      reply sent one hop back, if any. */
  datatype ReplyStep = ReplyStep(table: Table, searches: Cache, send: Option<Send>)

  function ForwardReply(t: Table, c: Cache, r: ReplyData, forwardingExpiry: nat, searchExpiry: nat, now: DateTime): (s: ReplyStep)
    ensures r.ttl == 0 ==> s == ReplyStep(t, c, None)
    ensures r.ttl > 0 ==> s.table == Prune(t, r.msgId, InsertedAt, forwardingExpiry, now)
    ensures r.ttl > 1 ==> (s.searches == c &&
              var e := Find(t, r.msgId, InsertedAt, forwardingExpiry, now);
              (s.send.Some? <==> e.Some? && e.value.source.Some?) &&
              (s.send.Some? ==> s.send.value == ReplySend(StepReply(r), e.value.source.value)))
    ensures r.ttl == 1 ==> (s.send.None? &&
              var e := Find(t, r.msgId, InsertedAt, forwardingExpiry, now);
              s.searches == if e.Some? && e.value.source.None? && e.value.searchRef.Some?
                            then Merge(c, e.value.searchRef, Some(r.found), searchExpiry, now).cache
                            else c)
  {
    if r.ttl == 0 then ReplyStep(t, c, None)
    else
      var reply := StepReply(r);
      var e := Find(t, r.msgId, InsertedAt, forwardingExpiry, now);
      var t' := Prune(t, r.msgId, InsertedAt, forwardingExpiry, now);
      if reply.ttl > 0 then
        if e.Some? && e.value.source.Some? then ReplyStep(t', c, Some(ReplySend(reply, e.value.source.value)))
        else ReplyStep(t', c, None)
      else if e.Some? && e.value.source.None? && e.value.searchRef.Some? then
        ReplyStep(t', Merge(c, e.value.searchRef, Some(r.found), searchExpiry, now).cache, None)
      else ReplyStep(t', c, None)
  }

  /** A message that arrives with no time to live left has no effect. */
  lemma ExhaustedMessagesIgnored(t: Table, c: Cache, source: Option<NodeId>, q: QueryData, r: ReplyData,
                                 found: seq<Uri>, fx: nat, sx: nat, now: DateTime)
    requires q.ttl == 0 && r.ttl == 0
    ensures HandleQuery(t, source, q, found, fx, now) == Handled(t, [])
    ensures ForwardReply(t, c, r, fx, sx, now) == ReplyStep(t, c, None)
  {
  }

  /** At-most-once forwarding: a query whose id is live in the table is not
      forwarded again, and the table keeps its entry; it is still answered. */
  lemma DuplicateQueryAnsweredNotForwarded(t: Table, source: NodeId, q: QueryData, found: seq<Uri>, expiry: nat, now: DateTime)
    requires !IsBlank(source) && q.ttl > 1 && |found| > 0
    requires Find(t, q.msgId, InsertedAt, expiry, now).Some?
    ensures HandleQuery(t, Some(source), q, found, expiry, now) ==
              Handled(t, [ReplySend(ReplyData(q.msgId, IncByte(q.hops), 0, found), source)])
  {
  }

  /** A query's last hop inserts nothing into the table and sends nothing on. */
  lemma LastHopNotRecorded(t: Table, source: Option<NodeId>, q: QueryData, expiry: nat, now: DateTime)
    requires q.ttl == 1
    ensures ForwardQuery(t, source, q, expiry, now).table.Keys <= t.Keys
    ensures ForwardQuery(t, source, q, expiry, now).send.None?
  {
  }

  /** A reply with TTL 1 at the node that started the search, within the
      expiry of the forwarding entry and of the search, is merged into that
      search. */
  lemma ReplyArrivesHome(t: Table, c: Cache, r: ReplyData, d: SearchData, fx: nat, sx: nat, now: DateTime)
    requires r.ttl == 1
    requires r.msgId in t && t[r.msgId].source.None? && t[r.msgId].searchRef == Some(d)
    requires !Expired(t[r.msgId].insertionTime, fx, now)
    requires Find(c, d, StartedAt, sx, now).Some?
    ensures var s := ForwardReply(t, c, r, fx, sx, now);
            s.table == t && s.send.None? && d in s.searches &&
            s.searches[d].found == c[d].found + Elements(r.found)
  {
  }

  /** The finding on the query path: with the other order, a neighbour of the
      originator answers with TTL 0, which the originator ignores; with the
      modelled order the same reply is merged into the search. */
  lemma AnswerBeforeForwardLosesReply(t0: Table, c0: Cache, t1: Table, origin: NodeId, q: QueryData,
                                      found: seq<Uri>, d: SearchData, fx: nat, sx: nat, now: DateTime)
    requires !IsBlank(origin) && q.hops == 0 && q.ttl > 0 && |found| > 0
    requires q.msgId in t0 && t0[q.msgId].source.None? && t0[q.msgId].searchRef == Some(d)
    requires !Expired(t0[q.msgId].insertionTime, fx, now)
    requires Find(c0, d, StartedAt, sx, now).Some?
    ensures var asWritten := AnswerBeforeForward(t1, Some(origin), q, found, fx, now).sends;
            var reply := asWritten[|asWritten| - 1].reply;
            asWritten[|asWritten| - 1] == ReplySend(reply, origin) && reply.ttl == 0 &&
            ForwardReply(t0, c0, reply, fx, sx, now) == ReplyStep(t0, c0, None)
    ensures var fixed := HandleQuery(t1, Some(origin), q, found, fx, now).sends;
            var reply := fixed[|fixed| - 1].reply;
            fixed[|fixed| - 1] == ReplySend(reply, origin) && reply.ttl == 1 &&
            ForwardReply(t0, c0, reply, fx, sx, now).searches[d].found == c0[d].found + Elements(found)
  {
    var fixed := HandleQuery(t1, Some(origin), q, found, fx, now).sends;
    ReplyArrivesHome(t0, c0, fixed[|fixed| - 1].reply, d, fx, sx, now);
  }

  /** CommunicationHandler: the node's protocol engine over its forwarding
      table, its search cache, its resource cache and its neighbours. */
  class CommunicationHandler {
    const initialTtl: byte
    const forwarding: ForwardingTable
    const searches: SearchManager
    const resources: ResourceCache
    const neighborhood: NeighborhoodManager

    ghost predicate Valid()
      reads neighborhood.clients.Values
    {
      neighborhood.Valid()
    }

    ghost function Queues(): (r: Queues)
      reads neighborhood.clients.Values
      ensures r.Keys == neighborhood.clients.Keys
    {
      neighborhood.QueueMap()
    }

    function Capacities(): (r: map<NodeId, nat>)
      ensures r.Keys == neighborhood.clients.Keys
    {
      neighborhood.Capacities()
    }

    constructor (initialTtl: byte, forwarding: ForwardingTable, searches: SearchManager,
                 resources: ResourceCache, neighborhood: NeighborhoodManager)
      ensures this.initialTtl == initialTtl && this.forwarding == forwarding && this.searches == searches
      ensures this.resources == resources && this.neighborhood == neighborhood
    {
      this.initialTtl := initialTtl;
      this.forwarding := forwarding;
      this.searches := searches;
      this.resources := resources;
      this.neighborhood := neighborhood;
    }

    /** SendQuery: hands the query to the NeighborhoodManager. */
    method SendQuery(query: QueryData, excluded: Option<NodeId>)
      requires Valid()
      modifies neighborhood.clients.Values
      ensures Valid()
      ensures Queues() == ApplySends(old(Queues()), Capacities(), [QuerySend(query, excluded)])
    {
      neighborhood.SendQuery(Some(query), excluded);
      assert [QuerySend(query, excluded)][..0] == [];
    }

    /** SendReply: hands the reply to the NeighborhoodManager. */
    method SendReply(reply: ReplyData, connection: NodeId)
      requires Valid()
      modifies neighborhood.clients.Values
      ensures Valid()
      ensures Queues() == ApplySends(old(Queues()), Capacities(), [ReplySend(reply, connection)])
    {
      neighborhood.SendReply(Some(reply), Some(connection));
      assert [ReplySend(reply, connection)][..0] == [];
    }

    /** CreateNewSearch, with the freshly generated message id as a
        parameter. */
    method CreateNewSearch(msgId: MsgId, data: SearchData, now: DateTime) returns (ok: bool)
      requires Valid()
      modifies forwarding, neighborhood.clients.Values
      ensures Valid()
      ensures var c := NewSearch(old(forwarding.table), msgId, data, initialTtl, forwarding.expiryInterval, now);
              ok == c.send.Some? && forwarding.table == c.table &&
              Queues() == ApplySends(old(Queues()), Capacities(), Sends(c.send))
    {
      ok := forwarding.Add(msgId, None, Some(data), now);
      if !ok {
        return;
      }
      var query := QueryData(msgId, initialTtl, 0, GetSearchOptions(data));
      SendQuery(query, None);
    }

    /** HandleReceivedQuery: returns the endpoints the answer step found. */
    method HandleReceivedQuery(source: Option<NodeId>, query: QueryData, now: DateTime) returns (found: seq<Uri>)
      requires Valid()
      modifies forwarding, neighborhood.clients.Values
      ensures Valid()
      ensures query.ttl > 0 && !IsNullOrWhiteSpace(source) ==>
                forall u :: u in found <==> u in Selected(resources.cache, Some(ExactMatch(query.options)))
      ensures var h := HandleQuery(old(forwarding.table), source, query, found, forwarding.expiryInterval, now);
              forwarding.table == h.table && Queues() == ApplySends(old(Queues()), Capacities(), h.sends)
    {
      found := [];
      if query.ttl == 0 {
        return;
      }
      var forwarded := ForwardReceivedQuery(source, query, now);
      ghost var mid := Queues();
      found := ReplyToQuery(forwarded, source);
      ghost var f := ForwardQuery(old(forwarding.table), source, query, forwarding.expiryInterval, now);
      assert ApplySends(old(Queues()), Capacities(), Sends(f.send) + Sends(Answer(source, f.query, found)))
          == ApplySends(mid, Capacities(), Sends(Answer(source, f.query, found))) by {
        ApplySendsAppend(old(Queues()), Capacities(), Sends(f.send), Sends(Answer(source, f.query, found)));
      }
    }

    /** ForwardReceivedQuery: returns the query as it mutated it. */
    method ForwardReceivedQuery(source: Option<NodeId>, query: QueryData, now: DateTime) returns (forwarded: QueryData)
      requires Valid()
      modifies forwarding, neighborhood.clients.Values
      ensures Valid()
      ensures var f := ForwardQuery(old(forwarding.table), source, query, forwarding.expiryInterval, now);
              forwarded == f.query && forwarding.table == f.table &&
              Queues() == ApplySends(old(Queues()), Capacities(), Sends(f.send))
    {
      if IsNullOrWhiteSpace(source) || query.ttl == 0 {
        return query;
      }
      forwarded := StepQuery(query);
      if forwarded.ttl > 0 {
        RecordAndForward(forwarded, source.value, now);
      } else {
        var present := forwarding.ContainsEntry(forwarded.msgId, now);
      }
    }

    /** The query has hops to go: recorded with its sender as source and,
        unless it is a duplicate, sent to every other neighbour. */
    method RecordAndForward(query: QueryData, source: NodeId, now: DateTime)
      requires Valid()
      modifies forwarding, neighborhood.clients.Values
      ensures Valid()
      ensures var a := AddEntry(old(forwarding.table), query.msgId, Some(source), None, forwarding.expiryInterval, now);
              forwarding.table == a.table &&
              Queues() == if a.ok then ApplySends(old(Queues()), Capacities(), [QuerySend(query, Some(source))]) else old(Queues())
    {
      var added := forwarding.Add(query.msgId, Some(source), None, now);
      if !added {
        return;
      }
      SendQuery(query, Some(source));
    }

    /** ReplyToQuery: searches the resource cache for endpoints advertising
        exactly the query's Name and Version and answers the sender. */
    method ReplyToQuery(query: QueryData, source: Option<NodeId>) returns (found: seq<Uri>)
      requires Valid()
      modifies neighborhood.clients.Values
      ensures Valid()
      ensures !IsNullOrWhiteSpace(source) ==>
                forall u :: u in found <==> u in Selected(resources.cache, Some(ExactMatch(query.options)))
      ensures Queues() == ApplySends(old(Queues()), Capacities(), Sends(Answer(source, query, found)))
    {
      if IsNullOrWhiteSpace(source) {
        return [];
      }
      found := resources.Search(Some(ExactMatch(query.options)));
      if |found| > 0 {
        SendReply(ReplyData(query.msgId, query.hops, 0, found), source.value);
      }
    }

    /** HandleReceivedReply together with ForwardReceivedReply. */
    method HandleReceivedReply(reply: ReplyData, now: DateTime)
      requires Valid()
      modifies forwarding, searches, neighborhood.clients.Values
      ensures Valid()
      ensures var s := ForwardReply(old(forwarding.table), old(searches.cache), reply,
                                    forwarding.expiryInterval, searches.expiryInterval, now);
              forwarding.table == s.table && searches.cache == s.searches &&
              Queues() == ApplySends(old(Queues()), Capacities(), Sends(s.send))
    {
      if reply.ttl == 0 {
        return;
      }
      if reply.ttl > 1 {
        PassReplyBack(reply, now);
      } else {
        DeliverReply(reply, now);
      }
    }

    /** The reply still has hops to go: one hop back towards the source
        recorded for its id, or dropped. */
    method PassReplyBack(reply: ReplyData, now: DateTime)
      requires Valid() && reply.ttl > 1
      modifies forwarding, neighborhood.clients.Values
      ensures Valid()
      ensures var e := Find(old(forwarding.table), reply.msgId, InsertedAt, forwarding.expiryInterval, now);
              forwarding.table == Prune(old(forwarding.table), reply.msgId, InsertedAt, forwarding.expiryInterval, now) &&
              Queues() == if e.Some? && e.value.source.Some?
                          then ApplySends(old(Queues()), Capacities(), [ReplySend(StepReply(reply), e.value.source.value)])
                          else old(Queues())
    {
      var stepped := StepReply(reply);
      var found, target := forwarding.TryGetSourceConnection(reply.msgId, now);
      if !found || target.None? {
        return;
      }
      SendReply(stepped, target.value);
    }

    /** The reply has arrived: merged into the search it answers when this
        node started that search. */
    method DeliverReply(reply: ReplyData, now: DateTime)
      requires reply.ttl == 1
      modifies forwarding, searches
      ensures var e := Find(old(forwarding.table), reply.msgId, InsertedAt, forwarding.expiryInterval, now);
              forwarding.table == Prune(old(forwarding.table), reply.msgId, InsertedAt, forwarding.expiryInterval, now) &&
              searches.cache == if e.Some? && e.value.source.None? && e.value.searchRef.Some?
                                then Merge(old(searches.cache), e.value.searchRef, Some(reply.found), searches.expiryInterval, now).cache
                                else old(searches.cache)
    {
      var entry := forwarding.GetEntry(reply.msgId, now);
      if entry.Some? && entry.value.source.None? && entry.value.searchRef.Some? {
        var updated := searches.UpdateResult(entry.value.searchRef, Some(reply.found), now);
      }
    }

    /** CleanForwardingTable: the periodic sweep, with how many entries went
        and how many remain. */
    method CleanForwardingTable(now: DateTime) returns (removed: nat, pending: nat)
      modifies forwarding
      ensures forwarding.table == SweepAt(old(forwarding.table), InsertedAt, forwarding.expiryInterval, now)
      ensures removed == |old(forwarding.table)| - |forwarding.table| && pending == |forwarding.table|
    {
      removed := forwarding.Clean(now);
      pending := forwarding.Count();
    }
  }

  /** Applying two batches of requests is applying their concatenation. */
  lemma {:induction false} ApplySendsAppend(qs: Queues, caps: map<NodeId, nat>, a: seq<Send>, b: seq<Send>)
    requires qs.Keys <= caps.Keys
    ensures ApplySends(qs, caps, a + b) == ApplySends(ApplySends(qs, caps, a), caps, b)
    decreases |b|
  {
    if b != [] {
      assert (a + b)[..|a + b| - 1] == a + b[..|b| - 1];
      ApplySendsAppend(qs, caps, a, b[..|b| - 1]);
    } else {
      assert a + b == a;
    }
  }
}
