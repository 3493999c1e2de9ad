/** NeighborhoodManager.cs: one NeighborClient per configured neighbour,
    keyed by the neighbour's id; queries are broadcast with an optional
    exclusion, replies are sent to one neighbour. */
module Neighborhood {
  import opened Primitives
  import opened Messages
  import opened NeighborClients

  type Queues = map<NodeId, seq<Message>>

  /** The neighbours a query goes to: all of them when `excluded` is null or
      blank, otherwise all but the one with that id. */
  function Destinations(ids: set<NodeId>, excluded: Option<NodeId>): (r: set<NodeId>)
    ensures r <= ids
    ensures IsNullOrWhiteSpace(excluded) ==> r == ids
    ensures !IsNullOrWhiteSpace(excluded) ==> r == ids - {excluded.value}
  {
    set id | id in ids && (IsNullOrWhiteSpace(excluded) || id != excluded.value)
  }

  /** Offers `m` to each target's queue independently. */
  function Deliver(qs: Queues, caps: map<NodeId, nat>, targets: set<NodeId>, m: Message): (r: Queues)
    requires qs.Keys <= caps.Keys
    ensures r.Keys == qs.Keys
    ensures forall id :: id in qs && id !in targets ==> r[id] == qs[id]
    ensures forall id :: id in qs && id in targets ==> r[id] == Offer(qs[id], caps[id], m).queue
  {
    map id | id in qs :: if id in targets then Offer(qs[id], caps[id], m).queue else qs[id]
  }

  /** SendQuery on the queues. */
  function Broadcast(qs: Queues, caps: map<NodeId, nat>, query: Option<QueryData>, excluded: Option<NodeId>): (r: Queues)
    requires qs.Keys <= caps.Keys
    ensures r.Keys == qs.Keys
  {
    if query.None? then qs else Deliver(qs, caps, Destinations(qs.Keys, excluded), Query(query.value))
  }

  /** SendReply on the queues. */
  function Unicast(qs: Queues, caps: map<NodeId, nat>, reply: Option<ReplyData>, connection: Option<NodeId>): (r: Queues)
    requires qs.Keys <= caps.Keys
    ensures r.Keys == qs.Keys
  {
    if IsNullOrWhiteSpace(connection) || reply.None? || connection.value !in qs then qs
    else Deliver(qs, caps, {connection.value}, Reply(reply.value))
  }

  /** One more target in a delivery: the step of the SendQuery loop. */
  lemma DeliverOneMore(qs: Queues, caps: map<NodeId, nat>, done: set<NodeId>, id: NodeId, m: Message,
                       prev: Queues, next: Queues)
    requires qs.Keys <= caps.Keys && id in qs && id !in done
    requires prev == Deliver(qs, caps, done, m)
    requires next.Keys == qs.Keys
    requires forall x :: x in qs && x != id ==> next[x] == prev[x]
    requires next[id] == Offer(prev[id], caps[id], m).queue
    ensures next == Deliver(qs, caps, done + {id}, m)
  {
  }

  /** A null query changes no queue. */
  lemma BroadcastNullQuery(qs: Queues, caps: map<NodeId, nat>, excluded: Option<NodeId>)
    requires qs.Keys <= caps.Keys
    ensures Broadcast(qs, caps, None, excluded) == qs
  {
  }

  /** The excluded neighbour's queue is unchanged; every other neighbour whose
      queue has room gets the query at its tail, however full the others are. */
  lemma BroadcastExclusion(qs: Queues, caps: map<NodeId, nat>, q: QueryData, excluded: Option<NodeId>, id: NodeId)
    requires qs.Keys <= caps.Keys && id in qs
    ensures excluded == Some(id) && !IsBlank(id) ==> Broadcast(qs, caps, Some(q), excluded)[id] == qs[id]
    ensures (IsNullOrWhiteSpace(excluded) || excluded != Some(id)) && |qs[id]| < caps[id] ==>
              Broadcast(qs, caps, Some(q), excluded)[id] == qs[id] + [Query(q)]
  {
  }

  /** A reply reaches exactly the named neighbour, and only when its id is
      non-blank and known and the reply is not null. */
  lemma UnicastOnlyTarget(qs: Queues, caps: map<NodeId, nat>, r: ReplyData, connection: Option<NodeId>, id: NodeId)
    requires qs.Keys <= caps.Keys && id in qs
    ensures Unicast(qs, caps, Some(r), connection)[id] != qs[id] ==>
              connection == Some(id) && !IsBlank(id) && |qs[id]| != caps[id] &&
              Unicast(qs, caps, Some(r), connection)[id] == qs[id] + [Reply(r)]
    ensures Unicast(qs, caps, None, connection) == qs
  {
  }

  /** The argument checks of the client built for neighbour `id`. */
  function ClientChecks(nodeId: NodeId, neighbors: map<NodeId, Uri>, size: int, id: NodeId): Option<ArgumentError>
    requires id in neighbors
  {
    CheckArguments(true, Some(neighbors[id]), Some(nodeId), Some(id), size)
  }

  /** NeighborhoodManager: the neighbour table. */
  class NeighborhoodManager {
    const nodeId: NodeId
    const clients: map<NodeId, NeighborClient>

    ghost predicate Valid()
      reads clients.Values
    {
      Distinct() && forall id :: id in clients ==> clients[id].Valid()
    }

    /** One client object per neighbour, each aimed at that neighbour. */
    ghost predicate Distinct()
    {
      (forall a, b :: a in clients && b in clients && a != b ==> clients[a] != clients[b]) &&
      (forall id :: id in clients ==> clients[id].targetNodeId == id && clients[id].nodeId == nodeId)
    }

    /** Each client's output queue, by neighbour id. */
    ghost function QueueMap(): (r: Queues)
      reads clients.Values
      ensures r.Keys == clients.Keys
    {
      map id | id in clients :: clients[id].queue
    }

    function Capacities(): (r: map<NodeId, nat>)
      ensures r.Keys == clients.Keys
      ensures forall id :: id in clients ==> r[id] == clients[id].capacity
    {
      map id | id in clients :: clients[id].capacity
    }

    /** The constructor: a fresh client per configured neighbour, with the
        shared queue size, for a configuration on which every client's
        argument checks pass (Build covers the others). */
    constructor (nodeId: NodeId, neighbors: map<NodeId, Uri>, size: int)
      requires forall id :: id in neighbors ==> ClientChecks(nodeId, neighbors, size, id).None?
      ensures Valid() && this.nodeId == nodeId && clients.Keys == neighbors.Keys
      ensures forall id :: id in clients ==> fresh(clients[id]) && clients[id].remoteUri == neighbors[id]
                                             && clients[id].capacity == size && clients[id].queue == []
    {
      var table: map<NodeId, NeighborClient> := map[];
      var rest := neighbors.Keys;
      while rest != {}
        invariant rest <= neighbors.Keys
        invariant table.Keys == neighbors.Keys - rest
        invariant forall a, b :: a in table && b in table && a != b ==> table[a] != table[b]
        invariant forall id :: id in table ==> fresh(table[id]) && table[id].Valid() && table[id].targetNodeId == id
                                               && table[id].nodeId == nodeId && table[id].remoteUri == neighbors[id]
                                               && table[id].capacity == size && table[id].queue == []
        decreases rest
      {
        var id :| id in rest;
        var client := new NeighborClient(neighbors[id], nodeId, id, size);
        table := table[id := client];
        rest := rest - {id};
      }
      this.nodeId := nodeId;
      clients := table;
    }

    /** The singleton's initialisation: no manager exactly when the
        constructor of some neighbour's client throws, which happens for
        this node's own id among the neighbours, or for a size below 1 with
        at least one neighbour. */
    static method Build(nodeId: NodeId, neighbors: map<NodeId, Uri>, size: int) returns (manager: NeighborhoodManager?)
      ensures manager == null <==> exists id :: id in neighbors && ClientChecks(nodeId, neighbors, size, id).Some?
      ensures manager == null <==> nodeId in neighbors || (size < 1 && |neighbors| > 0)
      ensures manager != null ==> fresh(manager) && manager.Valid() && manager.nodeId == nodeId
                                  && manager.clients.Keys == neighbors.Keys
    {
      if nodeId in neighbors {
        assert ClientChecks(nodeId, neighbors, size, nodeId).Some?;
        return null;
      }
      if size < 1 && |neighbors| > 0 {
        var id :| id in neighbors;
        assert ClientChecks(nodeId, neighbors, size, id).Some?;
        return null;
      }
      manager := new NeighborhoodManager(nodeId, neighbors, size);
    }

    /** SendQuery: the query is offered to every destination's queue; a full
        queue only loses the query for that neighbour. */
    method SendQuery(query: Option<QueryData>, excluded: Option<NodeId>)
      requires Valid()
      modifies clients.Values
      ensures Valid()
      ensures QueueMap() == Broadcast(old(QueueMap()), Capacities(), query, excluded)
    {
      if query.None? {
        return;
      }
      var destinations := Destinations(clients.Keys, excluded);
      ghost var before := QueueMap();
      var rest := destinations;
      while rest != {}
        invariant rest <= destinations
        invariant Valid()
        invariant QueueMap() == Deliver(before, Capacities(), destinations - rest, Query(query.value))
        decreases rest
      {
        var id :| id in rest;
        ghost var prev := QueueMap();
        var accepted := OfferTo(id, Query(query.value));
        DeliverOneMore(before, Capacities(), destinations - rest, id, Query(query.value), prev, QueueMap());
        ghost var done := destinations - rest;
        rest := rest - {id};
        assert destinations - rest == done + {id};
      }
      assert destinations - rest == destinations;
      assert before == old(QueueMap());
    }

    /** Enqueue on one neighbour's client; the other queues stay as they are. */
    method OfferTo(id: NodeId, m: Message) returns (accepted: bool)
      requires Valid() && id in clients
      modifies clients[id]
      ensures Valid()
      ensures accepted == Offer(old(clients[id].queue), clients[id].capacity, m).ok
      ensures QueueMap() == old(QueueMap())[id := Offer(old(clients[id].queue), clients[id].capacity, m).queue]
    {
      var client := clients[id];
      ghost var prev := QueueMap();
      accepted := client.Enqueue(m);
      assert forall x :: x in clients && x != id ==> clients[x] != client;
      assert forall x :: x in clients && x != id ==> clients[x].queue == prev[x];
    }

    /** SendReply: the reply is offered to the named neighbour only. */
    method SendReply(reply: Option<ReplyData>, connection: Option<NodeId>)
      requires Valid()
      modifies clients.Values
      ensures Valid()
      ensures QueueMap() == Unicast(old(QueueMap()), Capacities(), reply, connection)
    {
      if IsNullOrWhiteSpace(connection) || reply.None? {
        return;
      }
      if connection.value !in clients {
        return;
      }
      var accepted := OfferTo(connection.value, Reply(reply.value));
    }
  }
}
