/**
 * The Handle switch of the older dispatcher generation, written against
 * backend.Backend: thirteen methods, with hashes, addresses, transaction
 * hashes and receipts passed between the request and the backend as the
 * strings and maps they are.
 */
module RpcHandlers {
  import opened Wrappers
  import opened Json
  import opened BigInt
  import opened Envelope
  import opened Dispatch
  import opened RpcBackend
  import opened RpcCodec

  /** The methods the switch has a case for. */
  datatype Method =
    | Web3ClientVersion
    | NetVersion
    | EthChainId
    | EthBlockNumber
    | EthGetBlockByNumber
    | EthGetBalance
    | EthCall
    | EthEstimateGas
    | EthGasPrice
    | EthSendRawTransaction
    | EthGetTransactionByHash
    | EthGetTransactionReceipt
    | EthGetLogs

  /** The switch's case labels: the method a name selects, None for the default branch. */
  function Classify(name: string): Option<Method> {
    match name
    case "web3_clientVersion" => Some(Web3ClientVersion)
    case "net_version" => Some(NetVersion)
    case "eth_chainId" => Some(EthChainId)
    case "eth_blockNumber" => Some(EthBlockNumber)
    case "eth_getBlockByNumber" => Some(EthGetBlockByNumber)
    case "eth_getBalance" => Some(EthGetBalance)
    case "eth_call" => Some(EthCall)
    case "eth_estimateGas" => Some(EthEstimateGas)
    case "eth_gasPrice" => Some(EthGasPrice)
    case "eth_sendRawTransaction" => Some(EthSendRawTransaction)
    case "eth_getTransactionByHash" => Some(EthGetTransactionByHash)
    case "eth_getTransactionReceipt" => Some(EthGetTransactionReceipt)
    case "eth_getLogs" => Some(EthGetLogs)
    case _ => None
  }

  /** For each method that checks its params: how many it needs, and the invalidParams message otherwise. */
  function Needs(m: Method): (nat, string) {
    match m
    case EthGetBlockByNumber => (1, "missing block tag")
    case EthGetBalance => (2, "need address and block tag")
    case EthCall => (1, "missing call object")
    case EthEstimateGas => (1, "missing tx object")
    case EthSendRawTransaction => (1, "missing raw tx")
    case EthGetTransactionByHash => (1, "missing tx hash")
    case EthGetTransactionReceipt => (1, "missing tx hash")
    case EthGetLogs => (1, "missing filter")
    case _ => (0, "")
  }

  /** parseBlockTag against this backend: the same function the newer generation uses. */
  function BlockTag(be: Backend, tag: string): Result<BigPtr, Failure> {
    ParseBlockTag(be.blockNumber, tag)
  }

  function ClientVersion(be: Backend): Result<Json, Failure> {
    var v :- Lift(be.clientVersion);
    Ok(JStr(v))
  }

  /** net_version: the chain id in decimal. */
  function NetworkId(be: Backend): Result<Json, Failure> {
    var id :- Lift(be.chainID);
    Ok(JStr(Decimal(id)))
  }

  function ChainId(be: Backend): Result<Json, Failure> {
    var id :- Lift(be.chainID);
    Ok(JStr(QuantityHex(id)))
  }

  function BlockNumber(be: Backend): Result<Json, Failure> {
    var n :- Lift(be.blockNumber);
    Ok(JStr(QuantityHex(n)))
  }

  function GetBlockByNumber(be: Backend, p: seq<Json>): Result<Json, Failure>
    requires |p| >= 1
  {
    var full := FullFlag(p);
    var num :- BlockTag(be, MustString(p[0]));
    var b :- Lift(be.blockByNumber(num, full));
    Ok(BlockJson(b, full))
  }

  /** eth_getBalance: the address param goes to the backend as the string it is, unchecked. */
  function GetBalance(be: Backend, p: seq<Json>): Result<Json, Failure>
    requires |p| >= 2
  {
    var num :- BlockTag(be, MustString(p[1]));
    var bal :- Lift(be.balance(MustString(p[0]), num));
    Ok(JStr(QuantityHex(bal)))
  }

  /** eth_call: the block tag is optional and the backend gets nil without one. */
  function Call(be: Backend, p: seq<Json>): Result<Json, Failure>
    requires |p| >= 1
  {
    var msg :- ToCallMsg(p[0]);
    var num :- if |p| > 1 then BlockTag(be, MustString(p[1])) else Ok(Nil);
    var out :- Lift(be.call(msg, num));
    Ok(JStr(DataHex(out)))
  }

  /** eth_estimateGas: the uint64 estimate goes through int64 before it is written. */
  function EstimateGas(be: Backend, p: seq<Json>): Result<Json, Failure>
    requires |p| >= 1
  {
    var msg :- ToCallMsg(p[0]);
    var g :- Lift(be.estimateGas(msg));
    Ok(JStr(QuantityHex(Int64Of(g))))
  }

  function GasPrice(be: Backend): Result<Json, Failure> {
    var p :- Lift(be.gasPrice);
    Ok(JStr(QuantityHex(p)))
  }

  /** eth_sendRawTransaction: the raw string in, the backend's hash string out. */
  function SendRawTransaction(be: Backend, p: seq<Json>): Result<Json, Failure>
    requires |p| >= 1
  {
    var h :- Lift(be.sendRawTx(MustString(p[0])));
    Ok(JStr(h))
  }

  function GetTransactionByHash(be: Backend, p: seq<Json>): Result<Json, Failure>
    requires |p| >= 1
  {
    var tx :- Lift(be.txByHash(MustString(p[0])));
    Ok(TxJson(tx))
  }

  /** eth_getTransactionReceipt: the backend's map is the result as it is; a nil map is written as null. */
  function GetTransactionReceipt(be: Backend, p: seq<Json>): Result<Json, Failure>
    requires |p| >= 1
  {
    var rc :- Lift(be.receiptByHash(MustString(p[0])));
    Ok(if rc.Some? then JObj(rc.value) else JNull)
  }

  function GetLogs(be: Backend, p: seq<Json>): Result<Json, Failure>
    requires |p| >= 1
  {
    var q :- FilterQueryOf(p[0]);
    var logs :- Lift(be.getLogs(q));
    Ok(LogsJson(logs))
  }

  /** The body of a case once its param count is checked. */
  function Run(be: Backend, m: Method, p: seq<Json>): Result<Json, Failure>
    requires |p| >= Needs(m).0
  {
    match m
    case Web3ClientVersion => ClientVersion(be)
    case NetVersion => NetworkId(be)
    case EthChainId => ChainId(be)
    case EthBlockNumber => BlockNumber(be)
    case EthGetBlockByNumber => GetBlockByNumber(be, p)
    case EthGetBalance => GetBalance(be, p)
    case EthCall => Call(be, p)
    case EthEstimateGas => EstimateGas(be, p)
    case EthGasPrice => GasPrice(be)
    case EthSendRawTransaction => SendRawTransaction(be, p)
    case EthGetTransactionByHash => GetTransactionByHash(be, p)
    case EthGetTransactionReceipt => GetTransactionReceipt(be, p)
    case EthGetLogs => GetLogs(be, p)
  }

  /**
   * Handle: the switch over the method name, as in the newer generation.
   * The response always echoes the id and carries exactly one of result
   * and error; a Go error is handed back exactly when the response is a
   * -32000 error, whose message is that error's text.
   */
  function Handle(be: Backend, req: Request): (h: Handled)
    ensures h.resp.id == req.id && h.resp.jsonrpc == "2.0"
    ensures ExactlyOne(h.resp)
    ensures h.err.Some? <==> h.resp.error.Some? && h.resp.error.value.code == ServerError
    ensures h.err.Some? ==> h.resp.error.value.message == ErrorText(h.err.value)
  {
    match Classify(req.name)
    case None => NotFound(req)
    case Some(m) =>
      if |req.params| < Needs(m).0 then InvalidParamsFor(req, Needs(m).1)
      else Finish(req, Run(be, m, req.params))
  }

  // ----- properties of the switch -----

  /** -32601 "Method not found" answers exactly the names the switch has no case for. */
  lemma UnknownMethod(be: Backend, req: Request)
    ensures Classify(req.name).None? <==> Handle(be, req).resp.error == Some(RpcError(MethodNotFound, "Method not found"))
    ensures Classify(req.name).None? ==> Handle(be, req) == NotFound(req)
  {
  }

  /** A method given fewer params than it needs answers -32602 with its own message, whatever the backend. */
  lemma ShortParamsRejected(be: Backend, other: Backend, req: Request, m: Method)
    requires Classify(req.name) == Some(m) && |req.params| < Needs(m).0
    ensures Handle(be, req) == InvalidParamsFor(req, Needs(m).1)
    ensures Handle(be, req) == Handle(other, req)
  {
  }

  /** eth_getBalance needs two params: with fewer it answers -32602 "need address and block tag". */
  lemma GetBalanceShort(be: Backend, req: Request)
    requires Classify(req.name) == Some(EthGetBalance) && |req.params| < 2
    ensures Handle(be, req).resp.error == Some(RpcError(InvalidParams, "need address and block tag"))
  {
  }

  /**
   * eth_getBalance hands the backend its first param as it is: any string,
   * hex or not, and "" for a non-string; no decoding can fail.
   */
  lemma GetBalancePassesAddress(be: Backend, req: Request, num: BigPtr)
    requires Classify(req.name) == Some(EthGetBalance) && |req.params| >= 2
    requires BlockTag(be, MustString(req.params[1])) == Ok(num)
    ensures be.balance(MustString(req.params[0]), num).Ok? ==>
      Handle(be, req).resp.result == Some(JStr(QuantityHex(be.balance(MustString(req.params[0]), num).value)))
    ensures be.balance(MustString(req.params[0]), num).Err? ==>
      Handle(be, req).resp.error == Some(RpcError(ServerError, be.balance(MustString(req.params[0]), num).error))
  {
  }

  /** eth_getTransactionReceipt answers with the backend's map unchanged, null for a nil map. */
  lemma ReceiptPassthrough(be: Backend, req: Request)
    requires Classify(req.name) == Some(EthGetTransactionReceipt) && |req.params| >= 1
    ensures var r := be.receiptByHash(MustString(req.params[0]));
      && (r.Ok? && r.value.Some? ==> Handle(be, req).resp.result == Some(JObj(r.value.value)))
      && (r.Ok? && r.value.None? ==> Handle(be, req).resp.result == Some(JNull))
      && (r.Err? ==> Handle(be, req).resp.error == Some(RpcError(ServerError, r.error)))
  {
  }

  /** eth_sendRawTransaction answers with the backend's hash string, untouched. */
  lemma SendRawPassthrough(be: Backend, req: Request, h: string)
    requires Classify(req.name) == Some(EthSendRawTransaction) && |req.params| >= 1
    requires be.sendRawTx(MustString(req.params[0])) == Ok(h)
    ensures Handle(be, req).resp.result == Some(JStr(h))
  {
  }

  /** A "logs" filter with list-valued topic positions reaches the backend with every alternative. */
  lemma GetLogsKeepsTopicSets(be: Backend, req: Request, obj: map<string, Json>, logs: seq<Log>)
    requires Classify(req.name) == Some(EthGetLogs) && |req.params| >= 1 && req.params[0] == JObj(obj)
    requires be.getLogs(FilterQueryOf(JObj(obj)).value) == Ok(logs)
    ensures Handle(be, req).resp.result == Some(LogsJson(logs))
    ensures FilterQueryOf(JObj(obj)).value.topics == TopicSets(Field(obj, "topics"))
  {
  }
}
