/** The data contracts exchanged between overlay nodes (SearchOptions,
    QueryData, ReplyData) and the identifiers they carry. */
module Messages {
  import opened Primitives

  /** A Guid, generated once where a flood starts. */
  type MsgId = int
  /** The identifier of an overlay node, as configured. */
  type NodeId = string
  /** The address of a processing service endpoint. */
  type Uri = string

  /** The search criteria a client or a query carries. */
  datatype SearchOptions = SearchOptions(name: string, version: string)

  /** QueryData: MsgId, TimeToLive, HopsCount and Options. */
  datatype QueryData = QueryData(msgId: MsgId, ttl: byte, hops: byte, options: SearchOptions)

  /** ReplyData: MsgId (the query's), TimeToLive, HopsCount and FoundServices. */
  datatype ReplyData = ReplyData(msgId: MsgId, ttl: byte, hops: byte, found: seq<Uri>)

  /** MessageData: what a neighbour's output queue holds. */
  datatype Message = Query(query: QueryData) | Reply(reply: ReplyData)
  {
    function MsgId(): MsgId
    {
      match this
      case Query(q) => q.msgId
      case Reply(r) => r.msgId
    }
  }
}
