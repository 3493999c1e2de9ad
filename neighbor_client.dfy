/** NeighborClient.cs: the bounded output queue towards one neighbour, the
    dispatcher that drains it from the head, and the proxy bookkeeping of a
    send attempt. The WCF channel itself is abstract: each attempt is told
    whether a channel could be created and how the remote call ended. */
module NeighborClients {
  import opened Primitives
  import opened Messages

  /** Why the constructor throws, in the order it checks. */
  datatype ArgumentError = NullBinding | NullRemoteUri | NullNodeId | NullTargetNodeId | SameNode | NonPositiveSize

  /** The constructor's argument checks: the first failing one, if any. */
  function CheckArguments(hasBinding: bool, remoteUri: Option<Uri>, nodeId: Option<NodeId>,
                          targetNodeId: Option<NodeId>, size: int): (r: Option<ArgumentError>)
    ensures r.None? <==> hasBinding && remoteUri.Some? && nodeId.Some? && targetNodeId.Some?
                         && targetNodeId.value != nodeId.value && 1 <= size
    ensures r == Some(NullBinding) <==> !hasBinding
    ensures r == Some(NullRemoteUri) <==> hasBinding && remoteUri.None?
    ensures r == Some(NullNodeId) <==> hasBinding && remoteUri.Some? && nodeId.None?
    ensures r == Some(NullTargetNodeId) <==> hasBinding && remoteUri.Some? && nodeId.Some? && targetNodeId.None?
    ensures r == Some(SameNode) <==> hasBinding && remoteUri.Some? && nodeId.Some? && targetNodeId == nodeId
    ensures r == Some(NonPositiveSize) <==>
              (hasBinding && remoteUri.Some? && nodeId.Some? && targetNodeId.Some? && targetNodeId != nodeId && size < 1)
  {
    if !hasBinding then Some(NullBinding)
    else if remoteUri.None? then Some(NullRemoteUri)
    else if nodeId.None? then Some(NullNodeId)
    else if targetNodeId.None? then Some(NullTargetNodeId)
    else if targetNodeId.value == nodeId.value then Some(SameNode)
    else if size < 1 then Some(NonPositiveSize)
    else None
  }

  /** Enqueue on the queue: whether the message was taken, and the queue. */
  datatype Offered = Offered(ok: bool, queue: seq<Message>)

  function Offer(q: seq<Message>, capacity: nat, m: Message): (r: Offered)
    ensures r.ok <==> |q| != capacity
    ensures r.ok ==> r.queue == q + [m]
    ensures !r.ok ==> r.queue == q
  {
    if |q| == capacity then Offered(false, q) else Offered(true, q + [m])
  }

  /** The queue never grows past its capacity, and a message is refused
      exactly when the queue is full. */
  lemma OfferBounded(q: seq<Message>, capacity: nat, m: Message)
    requires |q| <= capacity
    ensures |Offer(q, capacity, m).queue| <= capacity
    ensures Offer(q, capacity, m).ok <==> |q| < capacity
  {
  }

  /** The queue after offering `ms` one after the other with no dequeue in
      between. */
  function OfferAll(q: seq<Message>, capacity: nat, ms: seq<Message>): seq<Message>
    decreases |ms|
  {
    if ms == [] then q else OfferAll(Offer(q, capacity, ms[0]).queue, capacity, ms[1..])
  }

  function Min(a: int, b: int): int { if a <= b then a else b }

  /** One more message offered after a burst. */
  lemma {:induction false} OfferAllSnoc(q: seq<Message>, capacity: nat, ms: seq<Message>, m: Message)
    ensures OfferAll(q, capacity, ms + [m]) == Offer(OfferAll(q, capacity, ms), capacity, m).queue
    decreases |ms|
  {
    if ms == [] {
      assert [m][1..] == [];
    } else {
      assert (ms + [m])[1..] == ms[1..] + [m];
      OfferAllSnoc(Offer(q, capacity, ms[0]).queue, capacity, ms[1..], m);
    }
  }

  /** Load shedding: of a burst of messages, exactly the first ones that fit
      are kept, in their order, and the rest are dropped. */
  lemma {:induction false} OfferAllKeepsPrefix(q: seq<Message>, capacity: nat, ms: seq<Message>)
    requires |q| <= capacity
    ensures OfferAll(q, capacity, ms) == q + ms[..Min(|ms|, capacity - |q|)]
    decreases |ms|
  {
    if ms != [] {
      var q' := Offer(q, capacity, ms[0]).queue;
      OfferAllKeepsPrefix(q', capacity, ms[1..]);
      if |q| < capacity {
        assert q' == q + [ms[0]];
        assert ms[1..][..Min(|ms| - 1, capacity - |q| - 1)] == ms[1..Min(|ms|, capacity - |q|)];
        assert q + [ms[0]] + ms[1..Min(|ms|, capacity - |q|)] == q + ms[..Min(|ms|, capacity - |q|)];
      } else {
        assert ms[..0] == [];
        assert ms[1..][..0] == [];
      }
    }
  }

  /** m_InternalProxy: no channel yet, or one opened on first use. */
  datatype Proxy = NoProxy | Opened

  /** How the remote call of one attempt ended. */
  datatype Call = Delivered | Failed(faulted: bool)

  /** What the transport does on one attempt: whether creating a channel
      succeeds (asked only when there is none) and how the call ends (asked
      only for a query or a reply). */
  datatype Transport = Transport(channelCreated: bool, call: Call)

  /** TrySendMessage: whether the message went out, and the proxy after. */
  datatype Sent = Sent(ok: bool, proxy: Proxy)

  /** The outcome of TrySendMessage. `message` is None for anything that is
      neither a QueryData nor a ReplyData, null included. */
  function Attempt(proxyClosed: bool, proxy: Proxy, message: Option<Message>, t: Transport): (r: Sent)
    ensures proxyClosed ==> r == Sent(false, proxy)
    ensures r.ok <==> !proxyClosed && (proxy.Opened? || t.channelCreated) && message.Some? && t.call.Delivered?
    ensures r.ok ==> r.proxy == Opened
    ensures !proxyClosed && message.Some? && t.call == Failed(true) ==> r.proxy == NoProxy
    ensures !proxyClosed && proxy.NoProxy? && !t.channelCreated ==> r.proxy == NoProxy
    ensures !proxyClosed && (proxy.Opened? || t.channelCreated) && !(message.Some? && t.call == Failed(true)) ==>
              r.proxy == Opened
  {
    if proxyClosed then Sent(false, proxy)
    else if proxy.NoProxy? && !t.channelCreated then Sent(false, NoProxy)
    else if message.None? then Sent(false, Opened)
    else match t.call
      case Delivered => Sent(true, Opened)
      case Failed(faulted) => if faulted then Sent(false, NoProxy) else Sent(false, Opened)
  }

  /** A fault resets the proxy so that the next attempt opens a new channel
      and can succeed; a closed proxy never sends again. */
  lemma FaultThenReopen(proxy: Proxy, m1: Message, m2: Message, t2: Transport)
    requires t2.channelCreated && t2.call.Delivered?
    ensures var first := Attempt(false, proxy, Some(m1), Transport(true, Failed(true)));
            !first.ok && first.proxy == NoProxy && Attempt(false, first.proxy, Some(m2), t2) == Sent(true, Opened)
  {
  }

  lemma ClosedNeverSends(proxy: Proxy, m: Option<Message>, t: Transport)
    ensures !Attempt(true, proxy, m, t).ok
  {
  }

  /** The results of a run of attempts, and the proxy after the last one. */
  datatype Dispatched = Dispatched(results: seq<bool>, proxy: Proxy)

  /** Attempts to send `ms` one after the other, the i-th over `ts[i]`, each
      starting from the proxy the previous one left. */
  function Dispatch(closed: bool, p: Proxy, ms: seq<Message>, ts: seq<Transport>): (r: Dispatched)
    requires |ms| == |ts|
    ensures |r.results| == |ms|
    ensures closed ==> r.proxy == p && forall i :: 0 <= i < |r.results| ==> !r.results[i]
    decreases |ms|
  {
    if ms == [] then Dispatched([], p)
    else
      var before := Dispatch(closed, p, ms[..|ms| - 1], ts[..|ts| - 1]);
      var s := Attempt(closed, before.proxy, Some(ms[|ms| - 1]), ts[|ts| - 1]);
      Dispatched(before.results + [s.ok], s.proxy)
  }

  /** One more message extends the results by its attempt from the proxy
      the earlier ones left. */
  lemma DispatchStep(closed: bool, p: Proxy, ms: seq<Message>, ts: seq<Transport>, i: nat, m: Message,
                      results: seq<bool>, p0: Proxy, ok: bool, p1: Proxy)
    requires i < |ts| && |ms| == i
    requires Dispatch(closed, p, ms, ts[..i]) == Dispatched(results, p0)
    requires Sent(ok, p1) == Attempt(closed, p0, Some(m), ts[i])
    ensures Dispatch(closed, p, ms + [m], ts[..i + 1]) == Dispatched(results + [ok], p1)
  {
    assert (ms + [m])[..|ms|] == ms;
    assert ts[..i + 1][..i] == ts[..i];
  }

  /** Over a transport that creates channels and delivers every call, an
      open proxy sends every message and stays open. */
  lemma {:induction false} DispatchAllDelivered(p: Proxy, ms: seq<Message>, ts: seq<Transport>)
    requires |ms| == |ts|
    requires forall i :: 0 <= i < |ts| ==> ts[i] == Transport(true, Delivered)
    ensures var r := Dispatch(false, p, ms, ts);
            (forall i :: 0 <= i < |r.results| ==> r.results[i]) && (|ms| > 0 ==> r.proxy == Opened)
    decreases |ms|
  {
    if ms != [] {
      DispatchAllDelivered(p, ms[..|ms| - 1], ts[..|ts| - 1]);
    }
  }

  /** NeighborClient: one neighbour's output queue and dispatcher. */
  class NeighborClient {
    const remoteUri: Uri
    const nodeId: NodeId
    const targetNodeId: NodeId
    const capacity: nat
    var queue: seq<Message>
    var shutdown: bool
    var proxyClosed: bool
    var proxy: Proxy
    /** Whether the dispatcher thread has been started. */
    var started: bool

    ghost predicate Valid()
      reads this
    {
      1 <= capacity && |queue| <= capacity && targetNodeId != nodeId
    }

    constructor (remoteUri: Uri, nodeId: NodeId, targetNodeId: NodeId, size: int)
      requires CheckArguments(true, Some(remoteUri), Some(nodeId), Some(targetNodeId), size).None?
      ensures Valid()
      ensures this.remoteUri == remoteUri && this.nodeId == nodeId && this.targetNodeId == targetNodeId
      ensures capacity == size && queue == [] && !shutdown && !proxyClosed && proxy == NoProxy && !started
    {
      this.remoteUri := remoteUri;
      this.nodeId := nodeId;
      this.targetNodeId := targetNodeId;
      capacity := size;
      queue := [];
      shutdown := false;
      proxyClosed := false;
      proxy := NoProxy;
      started := false;
    }

    /** Run: starts the dispatcher unless shutdown was requested; `threw`
        stands for the ThreadStateException of starting the dispatcher
        thread a second time. */
    method Run() returns (ok: bool, threw: bool)
      modifies this
      ensures threw <==> !old(shutdown) && old(started)
      ensures ok <==> !old(shutdown) && !old(started)
      ensures started == (old(started) || ok)
      ensures queue == old(queue) && shutdown == old(shutdown)
      ensures proxy == old(proxy) && proxyClosed == old(proxyClosed)
    {
      if shutdown {
        return false, false;
      }
      if started {
        return false, true;
      }
      started := true;
      return true, false;
    }

    /** Enqueue: appends at the tail unless the queue is full. The shutdown
        flag is not consulted. */
    method Enqueue(m: Message) returns (ok: bool)
      requires Valid()
      modifies this
      ensures Valid()
      ensures var o := Offer(old(queue), capacity, m); ok == o.ok && queue == o.queue
      ensures shutdown == old(shutdown) && started == old(started)
      ensures proxy == old(proxy) && proxyClosed == old(proxyClosed)
    {
      if |queue| == capacity {
        return false;
      }
      queue := queue + [m];
      return true;
    }

    /** Dispose: closes an existing proxy for good and requests shutdown;
        both are idempotent. It then joins the dispatcher thread; `threw`
        stands for the ThreadStateException of joining a thread that was
        never started, raised after the shutdown flag is set. */
    method Dispose() returns (threw: bool)
      modifies this
      ensures threw <==> !old(started)
      ensures shutdown && proxy == NoProxy
      ensures proxyClosed == (old(proxyClosed) || old(proxy).Opened?)
      ensures queue == old(queue) && started == old(started)
    {
      if proxy.Opened? {
        proxy := NoProxy;
        proxyClosed := true;
      }
      if !shutdown {
        shutdown := true;
      }
      threw := !started;
    }

    /** TrySendMessage: one attempt over the abstract transport `t`. */
    method TrySendMessage(message: Option<Message>, t: Transport) returns (ok: bool)
      modifies this
      ensures var s := Attempt(old(proxyClosed), old(proxy), message, t); ok == s.ok && proxy == s.proxy
      ensures queue == old(queue) && shutdown == old(shutdown)
      ensures proxyClosed == old(proxyClosed) && started == old(started)
    {
      if proxyClosed {
        return false;
      }
      if proxy.NoProxy? {
        if !t.channelCreated {
          return false;
        }
        proxy := Opened;
      }
      if message.None? {
        return false;
      }
      match t.call {
        case Delivered =>
          return true;
        case Failed(faulted) =>
          if faulted {
            proxy := NoProxy;
          }
          return false;
      }
    }

    /** One round of the dispatcher: dequeue the head and try to send it. */
    method SendHead(t: Transport) returns (message: Message, ok: bool)
      requires Valid() && queue != []
      modifies this
      ensures Valid()
      ensures [message] + queue == old(queue)
      ensures Sent(ok, proxy) == Attempt(old(proxyClosed), old(proxy), Some(message), t)
      ensures shutdown == old(shutdown) && proxyClosed == old(proxyClosed) && started == old(started)
    {
      message := queue[0];
      queue := queue[1..];
      ok := TrySendMessage(Some(message), t);
    }

    /** Send: the dispatcher loop, run for as many wake-ups as `transports`
        provides. It stops when shutdown is set, even with messages pending,
        and otherwise sends from the head, so messages go out in the order
        they were enqueued. */
    method Send(transports: seq<Transport>) returns (attempted: seq<Message>, results: seq<bool>)
      requires Valid()
      modifies this
      ensures Valid()
      ensures attempted + queue == old(queue)
      ensures |results| == |attempted|
      ensures old(shutdown) ==> attempted == []
      ensures !old(shutdown) ==> |attempted| == Min(|transports|, |old(queue)|)
      ensures Dispatch(old(proxyClosed), old(proxy), attempted, transports[..|attempted|]) == Dispatched(results, proxy)
      ensures shutdown == old(shutdown) && proxyClosed == old(proxyClosed) && started == old(started)
    {
      attempted := [];
      results := [];
      var i := 0;
      while i < |transports| && !shutdown && queue != []
        invariant 0 <= i <= |transports|
        invariant Valid()
        invariant attempted + queue == old(queue)
        invariant |attempted| == i == |results|
        invariant shutdown == old(shutdown) && proxyClosed == old(proxyClosed) && started == old(started)
        invariant old(shutdown) ==> i == 0
        invariant Dispatch(old(proxyClosed), old(proxy), attempted, transports[..i]) == Dispatched(results, proxy)
      {
        ghost var before := proxy;
        var message, ok := SendHead(transports[i]);
        DispatchStep(old(proxyClosed), old(proxy), attempted, transports, i, message, results, before, ok, proxy);
        attempted := attempted + [message];
        results := results + [ok];
        i := i + 1;
      }
    }
  }

  /** The constructor with its argument checks: no client when one fails. */
  method Create(hasBinding: bool, remoteUri: Option<Uri>, nodeId: Option<NodeId>,
                targetNodeId: Option<NodeId>, size: int) returns (client: NeighborClient?, error: Option<ArgumentError>)
    ensures error == CheckArguments(hasBinding, remoteUri, nodeId, targetNodeId, size)
    ensures client == null <==> error.Some?
    ensures client != null ==> fresh(client) && client.Valid() && client.queue == [] && client.capacity == size
                               && client.remoteUri == remoteUri.value && client.nodeId == nodeId.value
                               && client.targetNodeId == targetNodeId.value && !client.shutdown
                               && !client.started && client.proxy == NoProxy && !client.proxyClosed
  {
    error := CheckArguments(hasBinding, remoteUri, nodeId, targetNodeId, size);
    if error.Some? {
      return null, error;
    }
    client := new NeighborClient(remoteUri.value, nodeId.value, targetNodeId.value, size);
  }
}
