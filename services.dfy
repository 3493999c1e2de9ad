/** The two inbound service faces of a search node: the client-facing
    ProcessingServiceFinder.Search and the neighbour-facing QueryReplyService. */
module Services {
  import opened Primitives
  import opened Messages
  import opened DateTimeExtensions
  import opened Expiry
  import opened Searching
  import opened Forwarding
  import opened ResourceDescriptors
  import opened ResourceCaching
  import opened NeighborClients
  import opened Neighborhood
  import opened Communication

  /** The addresses a client search reports, as a set: the endpoints of the
      local resource cache advertising exactly the requested (Name,
      Version), and, when an identical search is still live, the endpoints
      it has collected so far. */
  function Reported(resources: ResourceMap, searches: Cache, options: SearchOptions, expiry: nat, now: DateTime): (r: set<Uri>)
    ensures forall u :: u in r <==>
              (u in resources && TaskPerformerInfo(options.name, options.version) in resources[u].resources) ||
              (var e := EnqueueNewSearch(searches, Some(FromOptions(Some(options))), expiry, now);
               e.existing.Some? && u in e.existing.value.found)
  {
    var e := EnqueueNewSearch(searches, Some(FromOptions(Some(options))), expiry, now);
    Selected(resources, Some(ExactMatch(options))) + (if e.existing.Some? then e.existing.value.found else {})
  }

  /** found.ToHashSet().ToList(): each address once. */
  method Deduplicate(s: seq<Uri>) returns (r: seq<Uri>)
    ensures Elements(r) == Elements(s)
    ensures forall i, j :: 0 <= i < j < |r| ==> r[i] != r[j]
  {
    r := [];
    var i := 0;
    while i < |s|
      invariant 0 <= i <= |s|
      invariant Elements(r) == Elements(s[..i])
      invariant forall a, b :: 0 <= a < b < |r| ==> r[a] != r[b]
    {
      if s[i] !in r {
        r := r + [s[i]];
      }
      assert s[..i + 1] == s[..i] + [s[i]];
      i := i + 1;
    }
    assert s[..i] == s;
  }

  /** ProcessingServiceFinder.Search, on the node's components. `msgId` is
      the identifier CreateNewSearch would draw. The local matches, and the
      endpoints of a live identical search if there is one, each once. */
  method Search(handler: CommunicationHandler, options: SearchOptions, msgId: MsgId, now: DateTime)
    returns (addresses: seq<Uri>)
    requires handler.Valid()
    modifies handler.searches, handler.forwarding, handler.neighborhood.clients.Values
    ensures handler.Valid()
    ensures Elements(addresses) == Reported(handler.resources.cache, old(handler.searches.cache), options,
                                            handler.searches.expiryInterval, now)
    ensures forall i, j :: 0 <= i < j < |addresses| ==> addresses[i] != addresses[j]
    ensures Started(handler, old(handler.searches.cache), old(handler.forwarding.table), old(handler.Queues()),
                    FromOptions(Some(options)), msgId, now)
  {
    var found := handler.resources.Search(Some(ExactMatch(options)));
    ghost var local := Elements(found);
    assert local == Selected(handler.resources.cache, Some(ExactMatch(options)));
    var existing := JoinOrStart(handler, FromOptions(Some(options)), msgId, now);
    addresses := Deduplicate(found + existing);
    ElementsAppend(found, existing);
  }

  /** The state Search leaves: a live identical search changes nothing;
      otherwise an entry is enqueued and a flood started as CreateNewSearch
      does, and when the flood cannot start the entry is removed again. */
  ghost predicate Started(handler: CommunicationHandler, searches: Cache, table: Table, queues: Queues,
                          d: SearchData, msgId: MsgId, now: DateTime)
    reads handler.searches, handler.forwarding, handler.neighborhood.clients.Values
  {
    var e := EnqueueNewSearch(searches, Some(d), handler.searches.expiryInterval, now);
    var c := NewSearch(table, msgId, d, handler.initialTtl, handler.forwarding.expiryInterval, now);
    queues.Keys == handler.neighborhood.clients.Keys &&
    (!e.isNew ==> handler.searches.cache == searches && handler.forwarding.table == table &&
                  handler.Queues() == queues) &&
    (e.isNew ==> handler.forwarding.table == c.table &&
                 handler.Queues() == ApplySends(queues, handler.Capacities(), Sends(c.send)) &&
                 handler.searches.cache == if c.send.Some? then e.cache else searches - {d})
  }

  /** The search-manager half of Search: the endpoints of a live identical
      search, or a new search started (and rolled back on failure). */
  method JoinOrStart(handler: CommunicationHandler, data: SearchData, msgId: MsgId, now: DateTime)
    returns (existing: seq<Uri>)
    requires handler.Valid()
    modifies handler.searches, handler.forwarding, handler.neighborhood.clients.Values
    ensures handler.Valid()
    ensures var e := EnqueueNewSearch(old(handler.searches.cache), Some(data), handler.searches.expiryInterval, now);
            Elements(existing) == if e.existing.Some? then e.existing.value.found else {}
    ensures Started(handler, old(handler.searches.cache), old(handler.forwarding.table), old(handler.Queues()),
                    data, msgId, now)
  {
    var isNew, result := handler.searches.TryEnqueueNewSearch(Some(data), now);
    if !isNew {
      existing := SetToSeq(result.foundServices);
    } else {
      existing := [];
      assert handler.searches.cache - {data} == old(handler.searches.cache) - {data};
      StartNewSearch(handler, data, msgId, now);
    }
  }

  /** The new-search branch: CreateNewSearch, and the rollback of the
      enqueued entry when it fails. */
  method StartNewSearch(handler: CommunicationHandler, data: SearchData, msgId: MsgId, now: DateTime)
    requires handler.Valid()
    modifies handler.searches, handler.forwarding, handler.neighborhood.clients.Values
    ensures handler.Valid()
    ensures var c := NewSearch(old(handler.forwarding.table), msgId, data, handler.initialTtl, handler.forwarding.expiryInterval, now);
            handler.forwarding.table == c.table &&
            handler.Queues() == ApplySends(old(handler.Queues()), handler.Capacities(), Sends(c.send)) &&
            handler.searches.cache == if c.send.Some? then old(handler.searches.cache) else old(handler.searches.cache) - {data}
  {
    var started := handler.CreateNewSearch(msgId, data, now);
    if !started {
      var removed := handler.searches.Remove(Some(data));
    }
  }

  lemma ElementsAppend(a: seq<Uri>, b: seq<Uri>)
    ensures Elements(a + b) == Elements(a) + Elements(b)
  {
  }

  /** A failed start leaves no entry behind, so the next identical search
      starts a new flood instead of waiting on an entry nobody will fill. */
  lemma RollbackAllowsRetry(c: Cache, d: SearchData, expiry: nat, t1: DateTime, t2: DateTime)
    requires EnqueueNewSearch(c, Some(d), expiry, t1).isNew
    ensures EnqueueNewSearch(c - {d}, Some(d), expiry, t2).isNew
  {
  }

  /** Without the rollback, the identical searches that follow within the
      expiry interval find the empty entry and never start a flood. */
  lemma EmptyEntryBlocksRetry(c: Cache, d: SearchData, expiry: nat, t1: DateTime, t2: DateTime)
    requires EnqueueNewSearch(c, Some(d), expiry, t1).isNew
    requires t1 <= t2 <= t1 + expiry
    ensures var e := EnqueueNewSearch(EnqueueNewSearch(c, Some(d), expiry, t1).cache, Some(d), expiry, t2);
            !e.isNew && e.existing == Some(Pending(t1, {}))
  {
  }

  /** What QueryReplyService does with a message from a neighbour. */
  datatype Delivery = ToQueryHandler(source: NodeId, query: QueryData) | ToReplyHandler(reply: ReplyData) | Dropped

  /** QueryReplyService.Query and .Reply: a message is passed on only when
      its sender is a configured neighbour; a reply is passed on without the
      sender's id. */
  function Receive(known: set<NodeId>, source: Option<NodeId>, message: Message): (d: Delivery)
    ensures d.Dropped? <==> source.None? || source.value !in known
    ensures d.ToQueryHandler? ==> message.Query? && d.source == source.value && d.query == message.query
    ensures d.ToReplyHandler? ==> message.Reply? && d.reply == message.reply
  {
    if source.None? || source.value !in known then Dropped
    else match message
      case Query(q) => ToQueryHandler(source.value, q)
      case Reply(r) => ToReplyHandler(r)
  }

  /** A query that gets through has a sender the node can answer: with the
      neighbour table built from the same configuration, an answer to it is
      enqueued on that neighbour's queue when the queue has room. */
  lemma AcceptedSenderReachable(qs: Queues, caps: map<NodeId, nat>, source: Option<NodeId>, q: QueryData, answer: ReplyData)
    requires qs.Keys <= caps.Keys
    requires Receive(qs.Keys, source, Query(q)).ToQueryHandler?
    requires !IsBlank(source.value) && |qs[source.value]| < caps[source.value]
    ensures Unicast(qs, caps, Some(answer), source)[source.value] == qs[source.value] + [Reply(answer)]
  {
  }
}
