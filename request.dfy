/**
 * The subscribe requests the checker sends on the streaming feed: the initial
 * block subscription and the reply to a keep-alive ping. Only the fields the
 * checker sets are modelled; every other field of a request keeps its default.
 */
module Request {
  import opened Wrappers

  /** Finality levels of the streaming protocol, with their wire numbers. */
  datatype CommitmentLevel = Processed | Confirmed | Finalized

  function CommitmentCode(level: CommitmentLevel): (code: int)
    ensures LevelOfCode(code) == Some(level)
  {
    match level
    case Processed => 0
    case Confirmed => 1
    case Finalized => 2
  }

  function LevelOfCode(code: int): Option<CommitmentLevel> {
    if code == 0 then Some(Processed)
    else if code == 1 then Some(Confirmed)
    else if code == 2 then Some(Finalized)
    else None
  }

  /** A block filter: which blocks to deliver and what to include in each. */
  datatype BlockFilter = BlockFilter(
    accountInclude: seq<string>,
    includeTransactions: Option<bool>,
    includeAccounts: Option<bool>,
    includeEntries: Option<bool>)

  datatype PingRequest = PingRequest(id: int)

  /** A subscribe request: named block filters, a commitment level and an optional ping. */
  datatype SubscribeRequest = SubscribeRequest(
    blocks: map<string, BlockFilter>,
    commitment: Option<int>,
    ping: Option<PingRequest>)

  const FilterName: string := "client"
  const PingId: int := 1

  function DefaultRequest(): SubscribeRequest {
    SubscribeRequest(map[], None, None)
  }

  /**
   * The one request that opens a session: every block, with its transactions,
   * at finalized commitment, under the single filter name "client".
   */
  function BuildBlocksRequest(): (r: SubscribeRequest)
    ensures r.blocks.Keys == {FilterName}
    ensures r.blocks[FilterName].includeTransactions == Some(true)
    ensures r.blocks[FilterName].accountInclude == []
    ensures r.blocks[FilterName].includeAccounts == None && r.blocks[FilterName].includeEntries == None
    ensures r.commitment.Some? && LevelOfCode(r.commitment.value) == Some(Finalized)
    ensures r.ping == None
  {
    var filter := BlockFilter([], Some(true), None, None);
    DefaultRequest().(blocks := map[FilterName := filter], commitment := Some(CommitmentCode(Finalized)))
  }

  /** The answer to a keep-alive ping: a request carrying nothing but ping id 1. */
  function PingReply(): (r: SubscribeRequest)
    ensures r.ping == Some(PingRequest(PingId))
    ensures r.blocks == map[] && r.commitment == None
    ensures r != BuildBlocksRequest()
  {
    DefaultRequest().(ping := Some(PingRequest(PingId)))
  }
}
