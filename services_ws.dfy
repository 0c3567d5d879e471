/**
 * The WebSocket server of the newer generation: the shared read loop run
 * over this generation's dispatcher, toFilterQuery and Types.Backend
 * subscriptions, and the three forwarders that turn a subscription's feed
 * into notifications.
 */
module ServicesWs {
  import opened Wrappers
  import opened Json
  import opened Envelope
  import opened Dispatch
  import opened BigInt
  import opened Types
  import opened ServicesCodec
  import opened WsSession
  import opened WsLoop
  import ServicesHandlers

  /** The zero FilterQuery: no block range, no addresses, no topics, no block hash. */
  const ZeroQuery: FilterQuery := FilterQuery(Nil, Nil, [], [], [])

  /** A "logs" subscription's filter: the second param when toFilterQuery takes it, the zero query otherwise. */
  function LogsQuery(p: seq<Json>): (q: FilterQuery)
    ensures |p| > 1 && p[1].JObj? ==> q == FilterQueryOf(p[1]).value
    ensures |p| <= 1 || !p[1].JObj? ==> q == ZeroQuery
  {
    if |p| > 1 && FilterQueryOf(p[1]).Ok? then FilterQueryOf(p[1]).value else ZeroQuery
  }

  /** The backend subscription a kind opens: its stop handle, or the error. */
  function Open(be: Backend, f: Feed<FilterQuery>): Result<StopHandle, string> {
    match f
    case NewHeads => be.subscribeNewHeads
    case LogFeed(q) => be.subscribeLogs(q)
    case PendingTxs => be.subscribePendingTxs
  }

  /**
   * The WebSocket server of this generation: its dispatcher, filter
   * decoding and subscriptions, over the backend as each frame's call finds
   * it (its block number, say, moves on between frames).
   */
  function ServerOf(backends: nat -> Backend): Server<FilterQuery> {
    Server((req: Request, call: nat) => ServicesHandlers.Handle(backends(call), req).resp, LogsQuery, (f: Feed<FilterQuery>, call: nat) => Open(backends(call), f))
  }

  // ----- the forwarders -----

  /** A notification as forwardBlocks, forwardLogs and forwardPending build it. */
  function Note(sid: string, result: Json): Notification {
    Notification("2.0", "eth_subscription", sid, result)
  }

  /** forwardBlocks: each new head as a block without transaction objects. */
  function HeadNote(sid: string, b: Block): Notification {
    Note(sid, BlockJson(b, false))
  }

  /** forwardLogs: the first element of marshalLogs over the one log. */
  function LogNote(sid: string, l: Log): Notification {
    Note(sid, LogsJson([l]).items[0])
  }

  /** forwardPending: the transaction hash as a DATA string. */
  function PendingNote(sid: string, h: Bytes): Notification {
    Note(sid, JStr(DataHex(h)))
  }

  /** forwardBlocks draining its channel: one notification per block, in order. */
  method ForwardBlocks(s: Session, sid: string, blocks: seq<Block>)
    modifies s
    ensures s.subs == old(s.subs)
    ensures s.trace == old(s.trace) + seq(|blocks|, i requires 0 <= i < |blocks| => Wrote(Push(HeadNote(sid, blocks[i]))))
  {
    s.Drain("2.0", sid, blocks, b => BlockJson(b, false));
  }

  /** forwardLogs draining its channel: one notification per log, in order. */
  method ForwardLogs(s: Session, sid: string, logs: seq<Log>)
    modifies s
    ensures s.subs == old(s.subs)
    ensures s.trace == old(s.trace) + seq(|logs|, i requires 0 <= i < |logs| => Wrote(Push(LogNote(sid, logs[i]))))
  {
    s.Drain("2.0", sid, logs, l => LogsJson([l]).items[0]);
  }

  /** forwardPending draining its channel: one notification per transaction hash, in order. */
  method ForwardPending(s: Session, sid: string, hashes: seq<Bytes>)
    modifies s
    ensures s.subs == old(s.subs)
    ensures s.trace == old(s.trace) + seq(|hashes|, i requires 0 <= i < |hashes| => Wrote(Push(PendingNote(sid, hashes[i]))))
  {
    s.Drain("2.0", sid, hashes, h => JStr(DataHex(h)));
  }

  // ----- properties -----

  /** Any method other than eth_subscribe and eth_unsubscribe is answered with exactly the dispatcher's response. */
  lemma OtherMethodsDispatch(backends: nat -> Backend, subs: map<string, StopHandle>, req: Request, sid: string, call: nat)
    requires req.name != "eth_subscribe" && req.name != "eth_unsubscribe"
    ensures FrameReply(ServerOf(backends), Decoded(req), sid, call) == ServicesHandlers.Handle(backends(call), req).resp
    ensures NextTable(subs, ServerOf(backends), Decoded(req), sid, call) == subs
  {
  }

  /** In a run, a frame with any other method gets Handle's response from the backend as that frame's call finds it. */
  lemma RunAnswersPerCall(backends: nat -> Backend, frames: seq<Frame>, sids: seq<string>, i: nat)
    requires |sids| == |frames| && i < |frames|
    requires frames[i].Decoded? && frames[i].req.name != "eth_subscribe" && frames[i].req.name != "eth_unsubscribe"
    ensures Answers(ServerOf(backends), frames, sids)[i] == ServicesHandlers.Handle(backends(i), frames[i].req).resp
  {
    AnswersPointwise(ServerOf(backends), frames, sids, i);
  }

  /**
   * eth_blockNumber anywhere in a run reports the height its own call
   * finds: two frames of one connection report two heights when a block
   * was produced between them.
   */
  lemma BlockNumberPerFrame(backends: nat -> Backend, frames: seq<Frame>, sids: seq<string>, i: nat)
    requires |sids| == |frames| && i < |frames|
    requires frames[i].Decoded? && frames[i].req.name == "eth_blockNumber"
    requires backends(i).blockNumber.Ok? && backends(i).blockNumber.value >= 0
    ensures Answers(ServerOf(backends), frames, sids)[i].result == Some(JStr(QuantityHex(backends(i).blockNumber.value)))
  {
    RunAnswersPerCall(backends, frames, sids, i);
    ServicesHandlers.BlockNumberAnswer(backends(i), frames[i].req);
  }

  /** A "logs" subscription whose filter is missing or not an object is opened with the zero query. */
  lemma LogsFilterFallback(backends: nat -> Backend, p: seq<Json>)
    requires |p| >= 1 && MustString(p[0]) == "logs"
    requires |p| == 1 || !p[1].JObj?
    ensures FeedOf(ServerOf(backends), p) == Ok(LogFeed(ZeroQuery))
  {
  }

  /**
   * Notifications: jsonrpc "2.0", method "eth_subscription", the id, and
   * as result a header-shaped block (transaction hashes only), one log
   * object, or a DATA string that decodes back to the hash.
   */
  lemma NotificationResults(sid: string, b: Block, l: Log, h: Bytes)
    ensures var n := HeadNote(sid, b);
      n.jsonrpc == "2.0" && n.name == "eth_subscription" && n.subscription == sid
      && var txs := n.result.fields["transactions"];
      txs.JArr? && |txs.items| == |b.transactions|
      && forall i :: 0 <= i < |b.transactions| ==> txs.items[i] == JStr(DataHex(b.transactions[i].hash))
    ensures LogNote(sid, l) == Notification("2.0", "eth_subscription", sid, LogJson(l))
    ensures var n := PendingNote(sid, h);
      n.jsonrpc == "2.0" && n.name == "eth_subscription" && n.subscription == sid
      && DecodeParam(n.result) == Ok(h)
  {
    BlockJsonTransactions(b, false);
    DecodeParamRoundTrip(h);
  }
}
