# CalcServerFinder and CalcServer: a verified model of the search overlay and of task processing

CalcServerFinder is a peer-to-peer discovery service. Every search node keeps
a cache of the resources advertised by the processing services it polls (the
resource cache). It answers client searches from that cache, and it floods a
query for the same (Name, Version) to its neighbours. The query carries a
time-to-live and a hop count. Every node records, in its forwarding table,
which neighbour each message id came from. A node that holds a matching
resource answers with a reply whose time-to-live is the query's hop count.
The reply retraces the recorded path and is merged into the originator's
search cache.

The model covers that protocol engine:

- the forwarding table, with lazy expiry on lookup and a periodic sweep;
- the search cache (SearchData, SearchResult, SearchManager);
- the resource cache and its refresh step;
- the decision logic of CommunicationHandler;
- the bounded output queue of each neighbour (NeighborClient) and the
  neighbour table (NeighborhoodManager);
- the two service faces (ProcessingServiceFinder.Search, QueryReplyService);
- the value types TaskPerformerInfo and DateTimeExtensions.TrySubtract.

From CalcServer, the processing service, it covers:

- the task table (TaskProcessingTable) and the task metadata (TaskMetadata,
  TaskErrorInfo);
- the registry of task performers (TaskPerformerContextManager);
- the word-frequency function of the statistics toolbox.

Each stateful component is a class whose methods change its fields. Each
method's postcondition ties the new state to a pure function of the old
state, and the lemmas about those functions carry the properties. The
`Overlay` module puts the per-node functions together into a whole network,
where sending a message means handing it to the next node. It proves the end
to end property: a reply created with TTL equal to the hops travelled
retraces the flood's forwarding entries and reaches the originator's search.

Conventions:

- Time is a `now` parameter in ticks.
- Expiry intervals are `nat`.
- A C# null is `Option.None`.
- A byte field that C# increments unchecked wraps explicitly (`IncByte`).
- The UInt64 task counter wraps explicitly at 2^64.

Files, one module each: `primitives.dfy`, `date_time_extensions.dfy`,
`expiry.dfy`, `messages.dfy`, `task_performer_info.dfy`,
`forwarding_table.dfy`, `search_manager.dfy`, `resource_caching.dfy`,
`neighbor_client.dfy`, `neighborhood_manager.dfy`,
`communication_handler.dfy`, `services.dfy`, `overlay.dfy`,
`task_processing.dfy`, `task_performer_context_manager.dfy`,
`statistics_toolbox.dfy`.

## Model

| member | source | states |
|---|---|---|
| Primitives.IncByte | src/CalcServerFinder/CalcServerFinder.Core/CommunicationHandler.cs:208-209 | `HopsCount++` on a byte adds one below 255 and wraps 255 to 0 |
| Primitives.Decimal | src/CalcServer/CalcServer.TaskProcessing/TaskProcessingTable.cs:56-60 | the id text of a counter value is a non-empty string of decimal digits ending in the last digit, one character long exactly below 10 |
| Primitives.DecimalInjective | src/CalcServer/CalcServer.TaskProcessing/TaskProcessingTable.cs:56-60 | distinct counter values give distinct id strings |
| DateTimeExtensions.TrySubtract | src/CalcServerFinder/CalcServerFinder.Core/Extensions/DateTimeExtensions.cs:26-55 | succeeds iff `dt - Max <= ts <= dt - Min`; on success the result is `dt - ts`, on failure the default DateTime |
| DateTimeExtensions.TrySubtractInRange | src/CalcServerFinder/CalcServerFinder.Core/Extensions/DateTimeExtensions.cs:26-55 | a successful subtraction lies in [MinValue, MaxValue], and a negative interval moves the result later |
| DateTimeExtensions.TrySubtractNonNegative | src/CalcServerFinder/CalcServerFinder.Core/Extensions/DateTimeExtensions.cs:48-55 | a non-negative interval can be subtracted exactly when it is no longer than the time elapsed since MinValue |
| Expiry.Find | src/CalcServerFinder/CalcServerFinder.Core/ForwardingTable.cs:253-272 | a lookup finds the entry exactly when it is stored and `stamp + expiry >= now`, and then returns the stored value |
| Expiry.Prune | src/CalcServerFinder/CalcServerFinder.Core/ForwardingTable.cs:253-272 | the lookup deletes the looked-up entry exactly when it is expired, and nothing else |
| Expiry.Sweep | src/CalcServerFinder/CalcServerFinder.Core/ForwardingTable.cs:172-195 | the sweep keeps exactly the entries stamped at or after the limit, unchanged |
| Expiry.SweepAtRemovesExactlyExpired | src/CalcServerFinder/CalcServerFinder.Core/ForwardingTable.cs:172-195 | when `now - expiry` is representable, an entry survives the periodic sweep iff a lookup at the same instant would still find it |
| Expiry.SweepAtTooEarly | src/CalcServerFinder/CalcServerFinder.Core/ForwardingTable.cs:174-175 | when `now - expiry` falls before MinValue, the sweep removes nothing |
| Expiry.SweepAtKeepsLive | src/CalcServerFinder/CalcServerFinder.Core/SearchManager.cs:536-568 | a sweep never deletes an entry that a lookup would still find |
| Expiry.CollectKeys | src/CalcServerFinder/CalcServerFinder.Core/ForwardingTable.cs:177-187 | the collect loop gathers exactly the keys whose entry satisfies the test |
| Expiry.RemoveCollected | src/CalcServerFinder/CalcServerFinder.Core/ForwardingTable.cs:189-194 | removing the collected keys lowers the count by exactly the number collected, which is what Clean returns |
| ResourceDescriptors.IndexOfDash | src/CalcServerFinder/CalcServerFinder.Core/TaskPerformerInfo.cs:63-66 | -1 iff there is no '-'; otherwise the position of the first '-' |
| ResourceDescriptors.Parse | src/CalcServerFinder/CalcServerFinder.Core/TaskPerformerInfo.cs:54-69 | null or whitespace gives ("", ""); with no '-' the whole text is the name and the version is empty; otherwise a split at the first '-' only |
| ResourceDescriptors.ToString | src/CalcServerFinder/CalcServerFinder.Core/TaskPerformerInfo.cs:97-100 | the name, one '-', then the version, at the stated positions |
| ResourceDescriptors.Equals | src/CalcServerFinder/CalcServerFinder.Core/TaskPerformerInfo.cs:80-86 | false against null; otherwise equal iff the names and the versions agree |
| ResourceDescriptors.ParseToString | src/CalcServerFinder/CalcServerFinder.Core/TaskPerformerInfo.cs:54-100 | for a name without '-', parsing the text of a descriptor gives the descriptor back |
| ResourceDescriptors.ParseToStringDashInName | src/CalcServerFinder/CalcServerFinder.Core/TaskPerformerInfo.cs:63-66 | a '-' in the name breaks the round trip: ("a-b", "1") comes back as ("a", "b-1") |
| Forwarding.AddEntry | src/CalcServerFinder/CalcServerFinder.Core/ForwardingTable.cs:89-104 | insertion succeeds iff there is no live entry for the id; on success the entry (source, search, now) replaces any expired one; otherwise the table is unchanged |
| Forwarding.Disconnect | src/CalcServerFinder/CalcServerFinder.Core/ForwardingTable.cs:203-223 | a null connection removes nothing; otherwise exactly the entries from that neighbour go and the rest are untouched |
| Forwarding.AddAtMostOnce | src/CalcServerFinder/CalcServerFinder.Core/ForwardingTable.cs:89-104 | after a successful Add, every further Add of the same id within the expiry interval fails, and the stored entry (source and search reference) is found unchanged |
| Forwarding.ExpiryBoundary | src/CalcServerFinder/CalcServerFinder.Core/ForwardingTable.cs:253-272 | an entry is still found at exactly insertion + expiry, and one tick later it is reported absent and deleted |
| Forwarding.AddAfterExpiry | src/CalcServerFinder/CalcServerFinder.Core/ForwardingTable.cs:89-104 | once an entry has expired, its id can be added again |
| Forwarding.DisconnectKeepsOwnSearches | src/CalcServerFinder/CalcServerFinder.Core/ForwardingTable.cs:203-223 | purging a neighbour never removes an entry for a search this node started |
| Forwarding.ForwardingTable.TryGetEntry | src/CalcServerFinder/CalcServerFinder.Core/ForwardingTable.cs:253-272 | returns the live entry and deletes an expired one |
| Forwarding.ForwardingTable.ContainsEntry | src/CalcServerFinder/CalcServerFinder.Core/ForwardingTable.cs:117-121 | true iff a live entry exists, with the lazy deletion |
| Forwarding.ForwardingTable.GetEntry | src/CalcServerFinder/CalcServerFinder.Core/ForwardingTable.cs:129-137 | the live entry or null, with the lazy deletion |
| Forwarding.ForwardingTable.TryGetSourceConnection | src/CalcServerFinder/CalcServerFinder.Core/ForwardingTable.cs:153-164 | false with null when there is no live entry; otherwise true with the stored source, null for this node's own searches |
| Forwarding.ForwardingTable.Add | src/CalcServerFinder/CalcServerFinder.Core/ForwardingTable.cs:89-104 | the table becomes what AddEntry says, and the result is its success |
| Forwarding.ForwardingTable.Clean | src/CalcServerFinder/CalcServerFinder.Core/ForwardingTable.cs:172-195 | the table becomes the sweep at `now - expiry`, and the result is how many entries went |
| Forwarding.ForwardingTable.CleanConnection | src/CalcServerFinder/CalcServerFinder.Core/ForwardingTable.cs:203-223 | the table becomes Disconnect of the connection, and the result is how many entries went |
| Forwarding.ForwardingTable.Count | src/CalcServerFinder/CalcServerFinder.Core/ForwardingTable.cs:233-236 | the number of stored entries, expired ones not yet removed included |
| Searching.FromOptions | src/CalcServerFinder/CalcServerFinder.Core/SearchManager.cs:36-41 | null options give empty name and version; otherwise the options' name and version |
| Searching.TryCreate | src/CalcServerFinder/CalcServerFinder.Core/SearchManager.cs:67-77 | a key exactly for non-null options |
| Searching.GetSearchOptions | src/CalcServerFinder/CalcServerFinder.Core/SearchManager.cs:83-90 | the options a query carries give back the same key |
| Searching.Equals | src/CalcServerFinder/CalcServerFinder.Core/SearchManager.cs:101-107 | false against null, otherwise equality of name and version |
| Searching.ToString | src/CalcServerFinder/CalcServerFinder.Core/SearchManager.cs:118-121 | "Name-Version": the name, '-', the version |
| Searching.SearchResult.constructor | src/CalcServerFinder/CalcServerFinder.Core/SearchManager.cs:219-223 | a null list gives an empty endpoint set; otherwise the set of its elements |
| Searching.SearchResult.Add | src/CalcServerFinder/CalcServerFinder.Core/SearchManager.cs:236-239 | false for null or an endpoint already present; otherwise the endpoint is added |
| Searching.SearchResult.AddAll | src/CalcServerFinder/CalcServerFinder.Core/SearchManager.cs:248-260 | set union, true iff the set grew; a null list changes nothing |
| Searching.SearchResult.Remove | src/CalcServerFinder/CalcServerFinder.Core/SearchManager.cs:269-272 | false for null; otherwise whether the endpoint was present, which is removed |
| Searching.SearchResult.Copy | src/CalcServerFinder/CalcServerFinder.Core/SearchManager.cs:278-281 | a fresh object with the same starting time and endpoints, so later changes to either do not reach the other |
| Searching.SetToSeq | src/CalcServerFinder/CalcServerFinder.Core/SearchManager.cs:278-281 | the array copy holds exactly the set's endpoints |
| Searching.EnqueueNewSearch | src/CalcServerFinder/CalcServerFinder.Core/SearchManager.cs:379-401 | null data gives false with no result; a live entry gives false with that entry and no change; otherwise an empty entry started at `now` is stored |
| Searching.Merge | src/CalcServerFinder/CalcServerFinder.Core/SearchManager.cs:412-430 | true iff a live entry exists, whose endpoints then grow by the services; otherwise false, and an expired entry is deleted, never revived |
| Searching.EnqueueTwice | src/CalcServerFinder/CalcServerFinder.Core/SearchManager.cs:387-400 | two identical searches within the expiry window: the first is new, the second joins it |
| Searching.MergeIdempotent | src/CalcServerFinder/CalcServerFinder.Core/SearchManager.cs:248-260 | merging the same endpoints twice leaves the same endpoint set as merging them once |
| Searching.MergeAfterExpiry | src/CalcServerFinder/CalcServerFinder.Core/SearchManager.cs:412-430 | a reply after its search expired is refused and deletes the entry, and a later reply is refused too |
| Searching.SearchManager.TryGetResult | src/CalcServerFinder/CalcServerFinder.Core/SearchManager.cs:503-522 | the live entry, deleting an expired one |
| Searching.SearchManager.TryEnqueueNewSearch | src/CalcServerFinder/CalcServerFinder.Core/SearchManager.cs:379-401 | follows EnqueueNewSearch and hands out a fresh copy of an existing entry |
| Searching.SearchManager.UpdateResult | src/CalcServerFinder/CalcServerFinder.Core/SearchManager.cs:412-430 | the cache becomes what Merge says, and the result is its success |
| Searching.SearchManager.TryGetResultCopy | src/CalcServerFinder/CalcServerFinder.Core/SearchManager.cs:441-461 | false and null for null data or no live entry; otherwise a fresh copy of the live entry |
| Searching.SearchManager.Remove | src/CalcServerFinder/CalcServerFinder.Core/SearchManager.cs:469-477 | false for null; otherwise whether the key was present, and only that key goes |
| Searching.SearchManager.Clean | src/CalcServerFinder/CalcServerFinder.Core/SearchManager.cs:536-568 | the cache keeps exactly the searches started at or after `now - expiry`, and the result is how many went |
| Searching.CopyOf | src/CalcServerFinder/CalcServerFinder.Core/SearchManager.cs:278-281 | a fresh SearchResult holding the cached starting time and endpoints |
| ResourceCaching.ResourceSet | src/CalcServerFinder/CalcServerFinder.Core/ResourceCaching.cs:77-81 | the stored resources are the set of the listed ones |
| ResourceCaching.Detect | src/CalcServerFinder/CalcServerFinder.Core/ResourceCaching.cs:151-159 | a null uri or list changes nothing; otherwise the entry is replaced by the new resource set and detection time with zero failures, and other entries are untouched |
| ResourceCaching.Fail | src/CalcServerFinder/CalcServerFinder.Core/ResourceCaching.cs:172-194 | null or absent uri: false and no change; otherwise the count goes up only while below the limit, and the entry is evicted, with true, exactly when the count equals the limit |
| ResourceCaching.FailuresUntilEviction | src/CalcServerFinder/CalcServerFinder.Core/ResourceCaching.cs:151-194 | after a fresh detection and k failures in a row, the entry is present iff k < limit |
| ResourceCaching.EvictedOnce | src/CalcServerFinder/CalcServerFinder.Core/ResourceCaching.cs:181-189 | the failure that reaches the limit reports the eviction, and the next failure reports nothing |
| ResourceCaching.ZeroLimitEvictsAtOnce | src/CalcServerFinder/CalcServerFinder.Core/ResourceCaching.cs:181-189 | with limit 0, the first failure after a detection evicts the entry |
| ResourceCaching.DetectionResetsCount | src/CalcServerFinder/CalcServerFinder.Core/ResourceCaching.cs:151-194 | a detection between failures resets the count, so the entry again survives limit - 1 failures |
| ResourceCaching.DetectCollapsesDuplicates | src/CalcServerFinder/CalcServerFinder.Core/ResourceCaching.cs:80 | listing a resource twice stores the same entry as listing it once |
| ResourceCaching.Selected | src/CalcServerFinder/CalcServerFinder.Core/ResourceCaching.cs:202-221 | exactly the endpoints whose (uri, resources) satisfy the predicate; none for a null predicate |
| ResourceCaching.ExactMatch | src/CalcServerFinder/CalcServerFinder.Services/ProcessingServiceFinder.cs:50-62 | an endpoint matches iff it advertises a resource with exactly the requested Name and Version |
| ResourceCaching.ResourceCache.UpdateOnDetection | src/CalcServerFinder/CalcServerFinder.Core/ResourceCaching.cs:151-159 | the cache becomes what Detect says |
| ResourceCaching.ResourceCache.UpdateOnFailure | src/CalcServerFinder/CalcServerFinder.Core/ResourceCaching.cs:172-194 | the cache and the result become what Fail says |
| ResourceCaching.ResourceCache.Search | src/CalcServerFinder/CalcServerFinder.Core/ResourceCaching.cs:202-221 | the result lists exactly the selected endpoints, each once, and the cache is not changed |
| ResourceCaching.Refresh | src/CalcServerFinder/CalcServerFinder.Core/ResourceCaching.cs:382-405 | a successful poll applies Detect only; a failed poll applies Fail with the limit only |
| NeighborClients.CheckArguments | src/CalcServerFinder/CalcServerFinder.Networking/NeighborClient.cs:72-90 | no error iff binding, uri and ids are non-null, the target differs from this node and the size is positive; each error is reported exactly when every earlier check passes and its own fails, in source order (binding, uri, node id, target id, same node, size) |
| NeighborClients.Offer | src/CalcServerFinder/CalcServerFinder.Networking/NeighborClient.cs:157-168 | refused, with the queue unchanged, exactly when the queue is full; otherwise the message goes at the tail |
| NeighborClients.OfferBounded | src/CalcServerFinder/CalcServerFinder.Networking/NeighborClient.cs:157-168 | the queue never grows past its capacity |
| NeighborClients.OfferAllKeepsPrefix | src/CalcServerFinder/CalcServerFinder.Networking/NeighborClient.cs:157-168 | of a burst, exactly the first messages that fit are kept, in order, and the rest are dropped |
| NeighborClients.Attempt | src/CalcServerFinder/CalcServerFinder.Networking/NeighborClient.cs:274-332 | a send succeeds iff the proxy is not closed, a channel exists or can be made, the message is a query or a reply, and the call is delivered; a fault resets the proxy, and any other outcome with a channel leaves it open |
| NeighborClients.FaultThenReopen | src/CalcServerFinder/CalcServerFinder.Networking/NeighborClient.cs:315-326 | after a faulted call the proxy is reset, and the next attempt opens a new channel and can succeed |
| NeighborClients.ClosedNeverSends | src/CalcServerFinder/CalcServerFinder.Networking/NeighborClient.cs:278-282 | once the proxy is closed, no attempt sends |
| NeighborClients.NeighborClient.constructor | src/CalcServerFinder/CalcServerFinder.Networking/NeighborClient.cs:72-106 | an empty queue of the given capacity, no proxy, not shut down |
| NeighborClients.NeighborClient.Run | src/CalcServerFinder/CalcServerFinder.Networking/NeighborClient.cs:139-148 | false, with nothing started, once shutdown was requested; a second start reports the ThreadStateException; otherwise the dispatcher is started |
| NeighborClients.NeighborClient.Enqueue | src/CalcServerFinder/CalcServerFinder.Networking/NeighborClient.cs:157-168 | the queue becomes what Offer says, whatever the shutdown flag |
| NeighborClients.NeighborClient.Dispose | src/CalcServerFinder/CalcServerFinder.Networking/NeighborClient.cs:189-223 | shutdown is set, and an open proxy is dropped and marked closed; idempotent; the final Join throws exactly when the dispatcher was never started |
| NeighborClients.DispatchAllDelivered | src/CalcServerFinder/CalcServerFinder.Networking/NeighborClient.cs:232-260 | over a transport that creates channels and delivers every call, every dequeued message is sent and the proxy ends open |
| NeighborClients.NeighborClient.TrySendMessage | src/CalcServerFinder/CalcServerFinder.Networking/NeighborClient.cs:274-332 | the result and the proxy become what Attempt says |
| NeighborClients.NeighborClient.Send | src/CalcServerFinder/CalcServerFinder.Networking/NeighborClient.cs:232-260 | messages are taken from the head in enqueue order; nothing is taken once shutdown is set, even with messages pending; the results and the final proxy are those of Dispatch, the attempts made one after the other |
| NeighborClients.Create | src/CalcServerFinder/CalcServerFinder.Networking/NeighborClient.cs:72-106 | no client exactly when an argument check fails, and the first failing check in source order is reported; otherwise a fresh client holding the given uri, ids and capacity, with an empty queue, no proxy, not started and not shut down |
| Neighborhood.Destinations | src/CalcServerFinder/CalcServerFinder.Networking/NeighborhoodManager.cs:147-161 | all neighbours for a null or blank exclusion; otherwise all but the excluded one |
| Neighborhood.Deliver | src/CalcServerFinder/CalcServerFinder.Networking/NeighborhoodManager.cs:163-173 | each target's queue is offered the message independently, and other queues are untouched |
| Neighborhood.BroadcastNullQuery | src/CalcServerFinder/CalcServerFinder.Networking/NeighborhoodManager.cs:143 | a null query changes no queue |
| Neighborhood.BroadcastExclusion | src/CalcServerFinder/CalcServerFinder.Networking/NeighborhoodManager.cs:141-174 | the excluded neighbour's queue is unchanged; every other neighbour with room gets the query at its tail, however full the others are |
| Neighborhood.UnicastOnlyTarget | src/CalcServerFinder/CalcServerFinder.Networking/NeighborhoodManager.cs:182-205 | only the named, non-blank, known neighbour's queue can change, by the reply at its tail; a null reply changes nothing |
| Neighborhood.NeighborhoodManager.constructor | src/CalcServerFinder/CalcServerFinder.Networking/NeighborhoodManager.cs:61-63 | exactly one fresh, empty client per configured neighbour, keyed by its id, for any configuration on which every client's argument checks pass |
| Neighborhood.NeighborhoodManager.Build | src/CalcServerFinder/CalcServerFinder.Networking/NeighborhoodManager.cs:50-63 | no manager exactly when some neighbour's client fails its argument checks, that is when this node's own id is a neighbour or the size is below 1 with at least one neighbour; otherwise a fresh manager with one client per neighbour |
| Neighborhood.NeighborhoodManager.SendQuery | src/CalcServerFinder/CalcServerFinder.Networking/NeighborhoodManager.cs:141-174 | the queues become the broadcast of the query with the exclusion |
| Neighborhood.NeighborhoodManager.OfferTo | src/CalcServerFinder/CalcServerFinder.Networking/NeighborhoodManager.cs:165 | one client's Enqueue changes only that neighbour's queue |
| Neighborhood.NeighborhoodManager.SendReply | src/CalcServerFinder/CalcServerFinder.Networking/NeighborhoodManager.cs:182-205 | the queues become the unicast of the reply |
| Communication.ApplySends | src/CalcServerFinder/CalcServerFinder.Networking/NeighborhoodManager.cs:141-205 | a run of requests to the NeighborhoodManager offers each neighbour's queue exactly the messages addressed to it, in request order: queries to every non-excluded neighbour, replies to the named one |
| Communication.StepQuery | src/CalcServerFinder/CalcServerFinder.Core/CommunicationHandler.cs:208-209 | forwarding keeps the id and options, lowers the TTL by one and raises the hop count by one |
| Communication.StepReply | src/CalcServerFinder/CalcServerFinder.Core/CommunicationHandler.cs:260-261 | the same on a reply, which keeps its endpoints |
| Communication.NewSearch | src/CalcServerFinder/CalcServerFinder.Core/CommunicationHandler.cs:110-128 | a duplicate fresh id sends nothing; otherwise an entry with null source and the search is recorded, and a query with initial TTL, hops 0 and the search's options is broadcast with no exclusion |
| Communication.ForwardQuery | src/CalcServerFinder/CalcServerFinder.Core/CommunicationHandler.cs:202-237 | no source or TTL 0 does nothing; with TTL left after the step the query is recorded from the sender and broadcast except to the sender, unless it is a duplicate; on its last hop nothing is recorded or sent |
| Communication.Answer | src/CalcServerFinder/CalcServerFinder.Core/CommunicationHandler.cs:358-387 | a reply only with a sender and at least one match; it goes to the sender with the query's id, TTL equal to the query's hop count, hops 0 and the matches |
| Communication.HandleQuery | src/CalcServerFinder/CalcServerFinder.Core/CommunicationHandler.cs:146-157 | a query arriving with TTL 0 has no effect; otherwise, with a sender and a match, the last request is a reply whose TTL is the incremented hop count; with no match only queries are sent |
| Communication.AnswerBeforeForward | src/CalcServerFinder/CalcServerFinder.Core/CommunicationHandler.cs:150-155 | the source's other order: the reply's TTL is the hop count before the increment |
| Communication.ForwardReply | src/CalcServerFinder/CalcServerFinder.Core/CommunicationHandler.cs:254-311 | TTL 0 does nothing; with TTL left after the step the reply goes one hop back to the live entry's source, or is dropped; at TTL 0 after the step it is merged into this node's search when the entry has a null source |
| Communication.ExhaustedMessagesIgnored | src/CalcServerFinder/CalcServerFinder.Core/CommunicationHandler.cs:146-181 | a query or reply received with TTL 0 changes nothing and sends nothing |
| Communication.DuplicateQueryAnsweredNotForwarded | src/CalcServerFinder/CalcServerFinder.Core/CommunicationHandler.cs:146-224 | a query whose id is live in the table is not forwarded again, but it is still answered |
| Communication.LastHopNotRecorded | src/CalcServerFinder/CalcServerFinder.Core/CommunicationHandler.cs:225-236 | a query on its last hop inserts no entry and sends nothing |
| Communication.ReplyArrivesHome | src/CalcServerFinder/CalcServerFinder.Core/CommunicationHandler.cs:280-310 | a reply with TTL 1 at the originator, within both expiries, adds its endpoints to the search and sends nothing |
| Communication.AnswerBeforeForwardLosesReply | src/CalcServerFinder/CalcServerFinder.Core/CommunicationHandler.cs:358-387 | with the source's order (the answer at line 384 reading the hop count before lines 208-209 raise it), a neighbour of the originator answers with TTL 0 and the reply is lost; with the modelled order it is merged into the search |
| Communication.CommunicationHandler.CreateNewSearch | src/CalcServerFinder/CalcServerFinder.Core/CommunicationHandler.cs:110-128 | the table and the neighbour queues become what NewSearch and its broadcast say |
| Communication.CommunicationHandler.HandleReceivedQuery | src/CalcServerFinder/CalcServerFinder.Core/CommunicationHandler.cs:146-157 | the answer's endpoints are exactly the cache's exact matches, and table and queues follow HandleQuery |
| Communication.CommunicationHandler.ForwardReceivedQuery | src/CalcServerFinder/CalcServerFinder.Core/CommunicationHandler.cs:202-237 | the mutated query, the table and the queues follow ForwardQuery |
| Communication.CommunicationHandler.RecordAndForward | src/CalcServerFinder/CalcServerFinder.Core/CommunicationHandler.cs:211-224 | the query is recorded from the sender and, unless it is a duplicate, broadcast to every other neighbour |
| Communication.CommunicationHandler.ReplyToQuery | src/CalcServerFinder/CalcServerFinder.Core/CommunicationHandler.cs:358-387 | the search result is exactly the cache's exact matches, and the queues follow Answer |
| Communication.CommunicationHandler.SendQuery | src/CalcServerFinder/CalcServerFinder.Core/CommunicationHandler.cs:324-330 | the queues become the neighbourhood's broadcast |
| Communication.CommunicationHandler.SendReply | src/CalcServerFinder/CalcServerFinder.Core/CommunicationHandler.cs:338-344 | the queues become the neighbourhood's unicast |
| Communication.CommunicationHandler.HandleReceivedReply | src/CalcServerFinder/CalcServerFinder.Core/CommunicationHandler.cs:254-311 | table, search cache and queues follow ForwardReply |
| Communication.CommunicationHandler.PassReplyBack | src/CalcServerFinder/CalcServerFinder.Core/CommunicationHandler.cs:263-279 | the stepped reply goes to the recorded source, or nowhere when there is none |
| Communication.CommunicationHandler.DeliverReply | src/CalcServerFinder/CalcServerFinder.Core/CommunicationHandler.cs:280-310 | the endpoints are merged into this node's own search, and into nothing else |
| Communication.CommunicationHandler.CleanForwardingTable | src/CalcServerFinder/CalcServerFinder.Core/CommunicationHandler.cs:428-441 | the table is swept, and the removed and pending counts add up to the old size |
| Services.Reported | src/CalcServerFinder/CalcServerFinder.Services/ProcessingServiceFinder.cs:45-88 | an address is reported iff it is a local exact match or belongs to a live identical search |
| Services.Deduplicate | src/CalcServerFinder/CalcServerFinder.Services/ProcessingServiceFinder.cs:87 | the same addresses, each once |
| Services.Search | src/CalcServerFinder/CalcServerFinder.Services/ProcessingServiceFinder.cs:45-88 | the addresses returned are, without duplicates, exactly the reported set; the search and forwarding state is what Started says |
| Services.JoinOrStart | src/CalcServerFinder/CalcServerFinder.Services/ProcessingServiceFinder.cs:65-85 | a live identical search contributes its endpoints and starts nothing; otherwise a new search is started |
| Services.StartNewSearch | src/CalcServerFinder/CalcServerFinder.Services/ProcessingServiceFinder.cs:71-85 | CreateNewSearch runs, and when it fails the new search entry is removed again |
| Services.RollbackAllowsRetry | src/CalcServerFinder/CalcServerFinder.Services/ProcessingServiceFinder.cs:79-84 | after the rollback, the next identical search starts afresh |
| Services.EmptyEntryBlocksRetry | src/CalcServerFinder/CalcServerFinder.Services/ProcessingServiceFinder.cs:79-84 | without the rollback, identical searches within the expiry would find the empty entry and never flood |
| Services.Receive | src/CalcServerFinder/CalcServerFinder.Services/QueryReplyService.cs:38-69 | a message is dropped iff its sender is not a configured neighbour; a query goes on with its sender, a reply without it |
| Services.AcceptedSenderReachable | src/CalcServerFinder/CalcServerFinder.Services/QueryReplyService.cs:38-50 | an accepted query's sender can be answered: a reply to it lands on that neighbour's queue when there is room |
| Overlay.FloodArrives | src/CalcServerFinder/CalcServerFinder.Core/CommunicationHandler.cs:202-224 | along a path of nodes that have not seen the id, a query with enough TTL reaches the last node with one TTL less and one hop more per node passed |
| Overlay.FloodRecords | src/CalcServerFinder/CalcServerFinder.Core/CommunicationHandler.cs:211-223 | each inner node of the path records the previous node as the source, and no other node changes |
| Overlay.ReplyRetracesPath | src/CalcServerFinder/CalcServerFinder.Core/CommunicationHandler.cs:254-311 | a reply with TTL i + 1 at the i-th node of a chain of entries pointing back travels to the originator and is merged into its search; nothing else changes |
| Overlay.LastNodeAnswers | src/CalcServerFinder/CalcServerFinder.Core/CommunicationHandler.cs:358-387 | the last node's answer is a reply to the node before it whose TTL is the number of hops the query travelled |
| Overlay.FloodFromOrigin | src/CalcServerFinder/CalcServerFinder.Core/CommunicationHandler.cs:110-237 | a search started with enough TTL leaves a chain of live entries pointing back to the originator and reaches the last node |
| Overlay.SearchRoundTrip | src/CalcServerFinder/CalcServerFinder.Core/CommunicationHandler.cs:202-311 | end to end: a search flooded along a path is answered by the last node, and its endpoints land in the originator's search |
| TaskProcessing.TaskErrorInfo.constructor | src/CalcServer/CalcServer.Contracts/Entities.cs:98-103 | empty id, code Unknown, empty details |
| TaskProcessing.TaskErrorInfo.Copy | src/CalcServer/CalcServer.Contracts/Entities.cs:113-123 | a fresh object with the same contents |
| TaskProcessing.TaskMetadata.constructor | src/CalcServer/CalcServer.TaskProcessing/TaskMetadata.cs:98-112 | state None, no timestamps, no errors, the given names and paths |
| TaskProcessing.TaskMetadata.UpdateOnReady | src/CalcServer/CalcServer.TaskProcessing/TaskMetadata.cs:123-127 | sets the ready time and state Ready and touches nothing else |
| TaskProcessing.TaskMetadata.UpdateOnStarting | src/CalcServer/CalcServer.TaskProcessing/TaskMetadata.cs:134-138 | sets the starting time and state Started and touches nothing else |
| TaskProcessing.TaskMetadata.UpdateOnCompletion | src/CalcServer/CalcServer.TaskProcessing/TaskMetadata.cs:145-149 | sets the completion time and state Completed and touches nothing else |
| TaskProcessing.TaskMetadata.Copy | src/CalcServer/CalcServer.TaskProcessing/TaskMetadata.cs:159-180 | every field is kept, and each error is copied into its own fresh object, so later edits to the original do not reach the copy |
| TaskProcessing.IdsNeverReused | src/CalcServer/CalcServer.TaskProcessing/TaskProcessingTable.cs:56-60 | ids drawn from distinct counter values differ |
| TaskProcessing.TaskProcessingTable.InsertTask | src/CalcServer/CalcServer.TaskProcessing/TaskProcessingTable.cs:56-60 | the id is the counter in decimal, the counter moves on modulo 2^64, and until it wraps the id is always new, so the insert always succeeds |
| TaskProcessing.TaskProcessingTable.RemoveTask | src/CalcServer/CalcServer.TaskProcessing/TaskProcessingTable.cs:69-77 | false for null; otherwise whether the id was present, and only it goes |
| TaskProcessing.TaskProcessingTable.RemoveTasks | src/CalcServer/CalcServer.TaskProcessing/TaskProcessingTable.cs:86-108 | exactly the tasks whose metadata satisfies the filter go, the others keep their metadata; a null filter changes nothing |
| TaskProcessing.TaskProcessingTable.UpdateTask | src/CalcServer/CalcServer.TaskProcessing/TaskProcessingTable.cs:118-127 | replaces the metadata only under an existing non-null id, and never adds one |
| TaskProcessing.TaskProcessingTable.TryGetTask | src/CalcServer/CalcServer.TaskProcessing/TaskProcessingTable.cs:138-147 | false and null for null or absent ids; otherwise true and the stored metadata |
| TaskPerformers.ClassIdentifier | src/CalcServer/CalcServer.TaskProcessing/TaskPerformerContextManager.cs:169-183 | "" iff the name is null or whitespace; the name alone for a null or whitespace version; otherwise name, '-', version |
| TaskPerformers.AddTo | src/CalcServer/CalcServer.TaskProcessing/TaskPerformerContextManager.cs:84-103 | accepted iff the instance is non-null with non-empty name and version and its identifier is free; an existing entry is never replaced |
| TaskPerformers.RemoveFrom | src/CalcServer/CalcServer.TaskProcessing/TaskPerformerContextManager.cs:114-127 | false for an empty name or version; otherwise whether the identifier was present, and only it goes |
| TaskPerformers.Lookup | src/CalcServer/CalcServer.TaskProcessing/TaskPerformerContextManager.cs:142-156 | found iff name and version are non-null, the identifier is non-empty and registered |
| TaskPerformers.AddThenLookup | src/CalcServer/CalcServer.TaskProcessing/TaskPerformerContextManager.cs:84-156 | a performer whose name is not whitespace is found right after it is added |
| TaskPerformers.WhitespaceNameUnreachable | src/CalcServer/CalcServer.TaskProcessing/TaskPerformerContextManager.cs:84-183 | a whitespace name is accepted but stored under "", which lookup never finds, and it then blocks every other whitespace name |
| TaskPerformers.AddThenRemove | src/CalcServer/CalcServer.TaskProcessing/TaskPerformerContextManager.cs:84-127 | removing under the name and version just added undoes the add |
| TaskPerformers.IdentifierCollision | src/CalcServer/CalcServer.TaskProcessing/TaskPerformerContextManager.cs:169-183 | ("a-b", "c") and ("a", "b-c") share an identifier, so the second is refused after the first |
| TaskPerformers.BlankVersionsCollapse | src/CalcServer/CalcServer.TaskProcessing/TaskPerformerContextManager.cs:175-178 | two whitespace versions of one name share the bare name, so only the first is registered |
| TaskPerformers.IdentifierInjective | src/CalcServer/CalcServer.TaskProcessing/TaskPerformerContextManager.cs:169-183 | with no '-' in names and no blank versions, the identifier determines name and version |
| TaskPerformers.TaskPerformerContextManager.constructor | src/CalcServer/CalcServer.TaskProcessing/TaskPerformerContextManager.cs:65-69 | no performers, and a default context around a performer with empty name and version |
| TaskPerformers.TaskPerformerContextManager.Add | src/CalcServer/CalcServer.TaskProcessing/TaskPerformerContextManager.cs:84-103 | the registry and the result follow AddTo, and an added performer gets a fresh context |
| TaskPerformers.TaskPerformerContextManager.Remove | src/CalcServer/CalcServer.TaskProcessing/TaskPerformerContextManager.cs:114-127 | the registry and the result follow RemoveFrom |
| TaskPerformers.TaskPerformerContextManager.TryGetContext | src/CalcServer/CalcServer.TaskProcessing/TaskPerformerContextManager.cs:142-156 | the stored context when Lookup finds one; otherwise false and the shared default context |
| WordStatistics.Pieces | src/CalcServer/CalcServer.Toolboxes/StatisticsToolboxImpl.cs:66 | String.Split gives at least one piece, none holding a separator |
| WordStatistics.NonEmpty | src/CalcServer/CalcServer.Toolboxes/StatisticsToolboxImpl.cs:66 | RemoveEmptyEntries keeps exactly the non-empty pieces |
| WordStatistics.Words | src/CalcServer/CalcServer.Toolboxes/StatisticsToolboxImpl.cs:66 | every word is non-empty and free of separators |
| WordStatistics.WordsSplitAtDelimiter | src/CalcServer/CalcServer.Toolboxes/StatisticsToolboxImpl.cs:66 | a separator splits the text: the words of the left part, then those of the right |
| WordStatistics.WordsOfRun | src/CalcServer/CalcServer.Toolboxes/StatisticsToolboxImpl.cs:66 | a non-empty run without separators is one word |
| WordStatistics.WordsOfDelimiters | src/CalcServer/CalcServer.Toolboxes/StatisticsToolboxImpl.cs:66 | text of separators only, or empty text, has no words |
| WordStatistics.Without | src/CalcServer/CalcServer.Toolboxes/StatisticsToolboxImpl.cs:68-80 | removing a word drops exactly its occurrences and leaves the counts of every other word |
| WordStatistics.WordLeTotal | src/CalcServer/CalcServer.Toolboxes/StatisticsToolboxImpl.cs:84 | any two words are ordered one way or the other |
| WordStatistics.WordLeTransitive | src/CalcServer/CalcServer.Toolboxes/StatisticsToolboxImpl.cs:84 | the word order is transitive |
| WordStatistics.PrecedesTransitive | src/CalcServer/CalcServer.Toolboxes/StatisticsToolboxImpl.cs:82-85 | the order by count descending, then word ascending, is transitive |
| WordStatistics.Insert | src/CalcServer/CalcServer.Toolboxes/StatisticsToolboxImpl.cs:82-85 | one step of the sort adds exactly one entry and loses none |
| WordStatistics.Rank | src/CalcServer/CalcServer.Toolboxes/StatisticsToolboxImpl.cs:82-85 | the sort is a permutation of its input |
| WordStatistics.InsertRanked | src/CalcServer/CalcServer.Toolboxes/StatisticsToolboxImpl.cs:82-85 | inserting into a sorted list keeps it sorted |
| WordStatistics.RankOrders | src/CalcServer/CalcServer.Toolboxes/StatisticsToolboxImpl.cs:82-85 | the sorted list is ordered by count descending and word ascending, and holds the same entries, each word once |
| WordStatistics.Tally | src/CalcServer/CalcServer.Toolboxes/StatisticsToolboxImpl.cs:68-80 | the table holds exactly the words of the text, each with its number of occurrences |
| WordStatistics.Entries | src/CalcServer/CalcServer.Toolboxes/StatisticsToolboxImpl.cs:82-83 | the enumeration holds each key of the table once, with its count |
| WordStatistics.CountAndRank | src/CalcServer/CalcServer.Toolboxes/StatisticsToolboxImpl.cs:64-85 | each distinct word once, with its number of occurrences, in the required order |
| WordStatistics.CalculateWordsCounts | src/CalcServer/CalcServer.Toolboxes/StatisticsToolboxImpl.cs:62-96 | the result lists every word of the text exactly once with its number of occurrences, sorted by count descending and then word ascending |
| WordStatistics.CountsSumToWords | src/CalcServer/CalcServer.Toolboxes/StatisticsToolboxImpl.cs:68-93 | the counts of such a list add up to the number of words |
| WordStatistics.NoWordsNoEntries | src/CalcServer/CalcServer.Toolboxes/StatisticsToolboxImpl.cs:66-96 | text of separators only, or empty text, gives an empty list |

## Left out

- Logging: every WriteToLog call and the Logger are output only.
- Threads, timers, locks and delays are left out. Each public operation is
  one atomic step, and each cleaning or refresh timer callback is an
  explicit call that takes `now`. This covers `Task.Factory.StartNew`,
  `Timer`, `Monitor.Wait/Pulse` and `Thread.Sleep(100)`. The Run and
  Dispose methods of the other managers only start or stop those timers and are
  not modelled. NeighborClient's Run and Dispose are modelled.
- WCF channels and proxies are abstract. A send attempt is told whether a
  channel could be created and how the call ended.
- `Guid.NewGuid()` and `DateTime.Now` are parameters: the message id and
  `now`.
- The configuration is a set of parameters: initial TTL, expiry intervals,
  failure limit, queue size, node id and neighbour map. Loading it from a
  file is not modelled.
- Communication.HandleQuery: the source runs the forward step and the
  answer step concurrently on one QueryData object. The model runs the
  forward step first, and the Findings section shows the other order.
- Null messages: HandleReceivedQuery and HandleReceivedReply dereference
  the message before checking it. The model requires a non-null message
  and does not model the exception.
- NeighborClients.NeighborClient.TrySendMessage: the detection time it
  returns is only logged and is not modelled.
- NeighborClients.NeighborClient.Send: the dispatcher runs for as many
  wake-ups as its transport list provides. Waiting on an empty queue is not
  modelled.
- The enumeration order of a Dictionary or HashSet is not fixed.
  ResourceCache.Search, SearchResult.Copy and the word-count enumeration
  (Entries) choose an arbitrary order. Their contracts speak of contents,
  not order.
- WordStatistics.WordLeTotal / RankOrders: ties between words use ordinal
  character order. The source uses the culture-sensitive default string
  comparer, which cannot be reproduced.
- WordStatistics.Tally: the counts are unbounded. The source counts in an
  `int` and would overflow past 2^31 - 1 occurrences.
- TaskProcessing.TaskMetadata: names and paths are non-null strings.
  Nullable strings there affect nothing the table does.
- TaskPerformers.Performer: an ITaskPerformer is reduced to its Name and
  Version. Author, Description and Execute are not part of this model, and
  neither is TaskPerformerContext's stream handling.
- TaskProcessing.TaskProcessingTable.InsertTask: the source's Dictionary.Add
  throws on a duplicate id, which can only occur after the counter wraps.
  The model reports it as `ok == false` and leaves the table unchanged.
- ResourceCaching.ResourceCache.UpdateOnFailure: the `uint` failure counter
  and limit are `nat`. The counter never passes the limit, so no wrap can
  occur.
- NeighborClients.NeighborClient.Enqueue: a message is never null. The
  source queues a null message. The dispatcher's TrySendMessage then
  fails, and Send's log call reads `message.MsgId`, which throws a
  NullReferenceException on the dispatcher thread. Nothing catches it, so
  the thread ends, and under the default .NET policy so does the process.
- Messages.SearchOptions: Name and Version are non-null strings. The
  source's data contract lets a client or a neighbour send them null.
  SearchData then keeps the null. Its Equals calls `Name.Equals` and throws
  when a stored key with a null name is compared with another key of the
  same hash, for example (null, "ab") against ("a", "b"), whose hash is
  taken over Name + Version. ReplyToQuery also dereferences
  `query.Options.Name`. None of these exceptions is modelled.
- Uri: an endpoint is its string. .NET Uri equality compares canonical
  forms: scheme and host ignore case, and the fragment and user info are
  ignored. Two strings that differ only in these ways are one endpoint in
  Services.Deduplicate, SearchResult and ResourceSet in the source and two
  in the model.
- Neighborhood.NeighborhoodManager.Build: when the configuration makes a
  client's constructor throw, the model reports that no manager is built.
  It does not say whether the exception is ArgumentException or
  ArgumentOutOfRangeException, since that depends on the order of the
  neighbour dictionary.
- Neighborhood.NeighborhoodManager: its Run and Dispose loops over the
  clients are not modelled. A client that was never run makes its Dispose
  throw (NeighborClient.Dispose's `threw`). That exception leaves the
  manager's Dispose loop, and the remaining clients are not disposed.
- Searching.SearchResult.AddAll: the list holds no null items. The source
  adds a null item of a non-null list to its HashSet. The same holds for
  Searching.SearchResult.constructor, which copies a non-null list with
  its null items into the HashSet.
- Communication.ForwardReply: a reply's FoundServices is never null. A
  neighbour can send it null, and `string.Join` in the log calls then
  throws ArgumentNullException. With TTL left after the step, the throw
  comes after TryGetSourceConnection has already pruned an expired entry,
  and nothing is forwarded. At the last hop it comes before GetEntry, so
  there is no prune and no merge. The model forwards or merges as for an
  empty list.
- Communication.CommunicationHandler.HandleReceivedReply: the same null
  FoundServices exception is not modelled; the state follows
  ForwardReply.
- Services.Search: the options are never null. The source reads
  `options.Name` first and throws NullReferenceException on null options,
  although SearchData and TryCreate would accept them.
- Expiry.Find: `stamp + expiry` is an unbounded sum. In the source,
  `InsertionTime + m_ExpiryInterval` throws near DateTime.MaxValue. The same
  holds for Forwarding.AddEntry, Searching.EnqueueNewSearch and
  Searching.Merge, which look entries up this way.
- ProcessingServiceBackend, TaskProcessingManager, the math toolbox, the
  mean and standard deviation, XML serialisation and the client
  applications are not part of this model.

## Findings

| source | as written | input that shows it | evidently intended | confidence | as-written member | corrected member |
|---|---|---|---|---|---|---|
| src/CalcServerFinder/CalcServerFinder.Core/CommunicationHandler.cs:150-155 | the forward task and the answer task run concurrently on one QueryData; the answer (line 384) may read `HopsCount` before the forward step (lines 208-209) increments it, so the reply's TTL is the hop count before the last hop | a neighbour of the originator receives a query with hops 0 and holds a match: it answers with TTL 0, which the originator ignores at line 176 (lemma Communication.AnswerBeforeForwardLosesReply) | the reply's TTL equals the number of hops travelled, the hop count after the increment, so the reply reaches the originator (lemma Overlay.SearchRoundTrip) | not executed | Communication.AnswerBeforeForward | Communication.HandleQuery |
