/**
 * The WebSocket server of the older generation: the shared read loop run
 * over backend.Backend, and its three forwarders. Block notifications use
 * this generation's marshalBlock, pending transactions pass the backend's
 * hash string through, and log notifications carry the protocol tag "2.o".
 */
module RpcWs {
  import opened Wrappers
  import opened Json
  import opened Envelope
  import opened Dispatch
  import opened BigInt
  import Types
  import opened RpcBackend
  import opened RpcCodec
  import opened WsSession
  import opened WsLoop
  import RpcHandlers

  /** The zero FilterQuery: no block range, no addresses, no topics. */
  const ZeroQuery: FilterQuery := FilterQuery(Nil, Nil, [], [])

  /** A "logs" subscription's filter: the second param when toFilterQuery takes it, the zero query otherwise. */
  function LogsQuery(p: seq<Json>): (q: FilterQuery)
    ensures |p| > 1 && p[1].JObj? ==> q == FilterQueryOf(p[1]).value
    ensures |p| <= 1 || !p[1].JObj? ==> q == ZeroQuery
  {
    if |p| > 1 && FilterQueryOf(p[1]).Ok? then FilterQueryOf(p[1]).value else ZeroQuery
  }

  /** The backend subscription a kind opens: its stop handle, or the error. */
  function Open(be: Backend, f: Feed<FilterQuery>): Result<Types.StopHandle, string> {
    match f
    case NewHeads => be.subscribeNewHeads
    case LogFeed(q) => be.subscribeLogs(q)
    case PendingTxs => be.subscribePendingTxs
  }

  /**
   * The WebSocket server of this generation: its dispatcher, filter
   * decoding and subscriptions, over the backend as each frame's call finds
   * it (its block number, say, moves on between frames).
   */
  function ServerOf(backends: nat -> Backend): Server<FilterQuery> {
    Server((req: Request, call: nat) => RpcHandlers.Handle(backends(call), req).resp, LogsQuery, (f: Feed<FilterQuery>, call: nat) => Open(backends(call), f))
  }

  // ----- the forwarders -----

  /** forwardBlocks: each new head as a block with transaction hashes only. */
  function HeadNote(sid: string, b: Block): Notification {
    Notification("2.0", "eth_subscription", sid, BlockJson(b, false))
  }

  /** forwardLogs: the first element of marshalLogs over the one log, under the tag "2.o". */
  function LogNote(sid: string, l: Log): Notification {
    Notification("2.o", "eth_subscription", sid, LogsJson([l]).items[0])
  }

  /** forwardPending: the backend's hash string as it is. */
  function PendingNote(sid: string, h: string): Notification {
    Notification("2.0", "eth_subscription", sid, JStr(h))
  }

  /** forwardBlocks draining its channel: one notification per block, in order. */
  method ForwardBlocks(s: Session, sid: string, blocks: seq<Block>)
    modifies s
    ensures s.subs == old(s.subs)
    ensures s.trace == old(s.trace) + seq(|blocks|, i requires 0 <= i < |blocks| => Wrote(Push(HeadNote(sid, blocks[i]))))
  {
    s.Drain("2.0", sid, blocks, b => BlockJson(b, false));
  }

  /** forwardLogs draining its channel: one notification per log, in order. */
  method ForwardLogs(s: Session, sid: string, logs: seq<Log>)
    modifies s
    ensures s.subs == old(s.subs)
    ensures s.trace == old(s.trace) + seq(|logs|, i requires 0 <= i < |logs| => Wrote(Push(LogNote(sid, logs[i]))))
  {
    s.Drain("2.o", sid, logs, l => LogsJson([l]).items[0]);
  }

  /** forwardPending draining its channel: one notification per transaction hash, in order. */
  method ForwardPending(s: Session, sid: string, hashes: seq<string>)
    modifies s
    ensures s.subs == old(s.subs)
    ensures s.trace == old(s.trace) + seq(|hashes|, i requires 0 <= i < |hashes| => Wrote(Push(PendingNote(sid, hashes[i]))))
  {
    s.Drain("2.0", sid, hashes, h => JStr(h));
  }

  // ----- properties -----

  /** Any method other than eth_subscribe and eth_unsubscribe is answered with exactly the dispatcher's response. */
  lemma OtherMethodsDispatch(backends: nat -> Backend, subs: map<string, Types.StopHandle>, req: Request, sid: string, call: nat)
    requires req.name != "eth_subscribe" && req.name != "eth_unsubscribe"
    ensures FrameReply(ServerOf(backends), Decoded(req), sid, call) == RpcHandlers.Handle(backends(call), req).resp
    ensures NextTable(subs, ServerOf(backends), Decoded(req), sid, call) == subs
  {
  }

  /** In a run, a frame with any other method gets Handle's response from the backend as that frame's call finds it. */
  lemma RunAnswersPerCall(backends: nat -> Backend, frames: seq<Frame>, sids: seq<string>, i: nat)
    requires |sids| == |frames| && i < |frames|
    requires frames[i].Decoded? && frames[i].req.name != "eth_subscribe" && frames[i].req.name != "eth_unsubscribe"
    ensures Answers(ServerOf(backends), frames, sids)[i] == RpcHandlers.Handle(backends(i), frames[i].req).resp
  {
    AnswersPointwise(ServerOf(backends), frames, sids, i);
  }

  /** A "logs" subscription whose filter is missing or not an object is opened with the zero query. */
  lemma LogsFilterFallback(backends: nat -> Backend, p: seq<Json>)
    requires |p| >= 1 && MustString(p[0]) == "logs"
    requires |p| == 1 || !p[1].JObj?
    ensures FeedOf(ServerOf(backends), p) == Ok(LogFeed(ZeroQuery))
  {
  }

  /**
   * Log notifications are tagged "2.o", unlike block and pending
   * notifications and unlike every response the server writes, all "2.0";
   * their result is the one log's object.
   */
  lemma LogTagDiffers(sid: string, b: Block, l: Log, h: string, id: Json, v: Option<Json>, code: int, msg: string)
    ensures NotificationJson(LogNote(sid, l)).fields["jsonrpc"] == JStr("2.o")
    ensures NotificationJson(HeadNote(sid, b)).fields["jsonrpc"] == JStr("2.0")
    ensures NotificationJson(PendingNote(sid, h)).fields["jsonrpc"] == JStr("2.0")
    ensures LogNote(sid, l).jsonrpc != RespOK(id, v).jsonrpc && LogNote(sid, l).jsonrpc != RespErr(id, code, msg).jsonrpc
    ensures LogNote(sid, l).result == LogJson(l)
  {
  }

  /**
   * Block notifications carry transaction hashes only, as the backend's
   * strings; pending notifications carry the hash string unchanged.
   */
  lemma NotificationResults(sid: string, b: Block, h: string)
    ensures var txs := HeadNote(sid, b).result.fields["transactions"];
      txs.JArr? && |txs.items| == |b.transactions|
      && forall i :: 0 <= i < |b.transactions| ==> txs.items[i] == JStr(b.transactions[i].hash)
    ensures PendingNote(sid, h).result == JStr(h)
  {
    BlockJsonShape(b, false);
  }
}
