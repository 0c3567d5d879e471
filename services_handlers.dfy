/**
 * The Handle switch of the current dispatcher generation, written against
 * Types.Backend: one case per JSON-RPC method, each checking its param
 * count, coercing its params, making one backend call (given here as the
 * backend oracle) and encoding the result.
 */
module ServicesHandlers {
  import opened Wrappers
  import opened Json
  import opened BigInt
  import Hex
  import opened Envelope
  import opened Dispatch
  import opened Types
  import opened ServicesCodec

  /** The methods the switch has a case for, one constructor per method name. */
  datatype Method =
    | Web3ClientVersion
    | NetVersion
    | EthChainId
    | EthBlockNumber
    | EthGetBlockByNumber
    | EthGetBalance
    | EthCall
    | EthEstimateGas
    | EthGasPrice
    | EthSendRawTransaction
    | EthGetTransactionByHash
    | EthGetTransactionReceipt
    | EthGetLogs
    | EthGetBlockByHash
    | EthGetBlockTransactionCountByNumber
    | EthGetBlockTransactionCountByHash
    | EthGetCode
    | EthGetStorageAt
    | EthGetTransactionCount
    | EthGetTransactionByBlockNumberAndIndex
    | EthGetTransactionByBlockHashAndIndex
    | NetPeerCount
    | NetListening
    | EthSyncing
    | EthMining
    | EthHashrate
    | EthGetUncleCountByBlockNumber
    | EthGetUncleCountByBlockHash
    | EthGetUncleByBlockNumberAndIndex
    | EthGetUncleByBlockHashAndIndex

  /** The switch's case labels: the method a name selects, None for the default branch. */
  function Classify(name: string): Option<Method> {
    match name
    case "web3_clientVersion" => Some(Web3ClientVersion)
    case "net_version" => Some(NetVersion)
    case "eth_chainId" => Some(EthChainId)
    case "eth_blockNumber" => Some(EthBlockNumber)
    case "eth_getBlockByNumber" => Some(EthGetBlockByNumber)
    case "eth_getBalance" => Some(EthGetBalance)
    case "eth_call" => Some(EthCall)
    case "eth_estimateGas" => Some(EthEstimateGas)
    case "eth_gasPrice" => Some(EthGasPrice)
    case "eth_sendRawTransaction" => Some(EthSendRawTransaction)
    case "eth_getTransactionByHash" => Some(EthGetTransactionByHash)
    case "eth_getTransactionReceipt" => Some(EthGetTransactionReceipt)
    case "eth_getLogs" => Some(EthGetLogs)
    case "eth_getBlockByHash" => Some(EthGetBlockByHash)
    case "eth_getBlockTransactionCountByNumber" => Some(EthGetBlockTransactionCountByNumber)
    case "eth_getBlockTransactionCountByHash" => Some(EthGetBlockTransactionCountByHash)
    case "eth_getCode" => Some(EthGetCode)
    case "eth_getStorageAt" => Some(EthGetStorageAt)
    case "eth_getTransactionCount" => Some(EthGetTransactionCount)
    case "eth_getTransactionByBlockNumberAndIndex" => Some(EthGetTransactionByBlockNumberAndIndex)
    case "eth_getTransactionByBlockHashAndIndex" => Some(EthGetTransactionByBlockHashAndIndex)
    case "net_peerCount" => Some(NetPeerCount)
    case "net_listening" => Some(NetListening)
    case "eth_syncing" => Some(EthSyncing)
    case "eth_mining" => Some(EthMining)
    case "eth_hashrate" => Some(EthHashrate)
    case "eth_getUncleCountByBlockNumber" => Some(EthGetUncleCountByBlockNumber)
    case "eth_getUncleCountByBlockHash" => Some(EthGetUncleCountByBlockHash)
    case "eth_getUncleByBlockNumberAndIndex" => Some(EthGetUncleByBlockNumberAndIndex)
    case "eth_getUncleByBlockHashAndIndex" => Some(EthGetUncleByBlockHashAndIndex)
    case _ => None
  }

  /**
   * For each method that checks its params: how many it needs, and the
   * invalidParams message otherwise; (0, "") for the methods that take none.
   */
  function Needs(m: Method): (nat, string) {
    match m
    case EthGetBlockByNumber => (1, "missing block tag")
    case EthGetBalance => (2, "need address and block tag")
    case EthCall => (1, "missing call object")
    case EthEstimateGas => (1, "missing tx object")
    case EthSendRawTransaction => (1, "missing raw tx")
    case EthGetTransactionByHash => (1, "missing tx hash")
    case EthGetTransactionReceipt => (1, "missing tx hash")
    case EthGetLogs => (1, "missing filter")
    case EthGetBlockByHash => (1, "missing block hash")
    case EthGetBlockTransactionCountByNumber => (1, "missing block tag")
    case EthGetBlockTransactionCountByHash => (1, "missing block hash")
    case EthGetCode => (2, "need address and block tag")
    case EthGetStorageAt => (3, "need address, key, and block tag")
    case EthGetTransactionCount => (2, "need address and block tag")
    case EthGetTransactionByBlockNumberAndIndex => (2, "need block tag and index")
    case EthGetTransactionByBlockHashAndIndex => (2, "need block hash and index")
    case EthGetUncleCountByBlockNumber => (1, "missing block tag")
    case EthGetUncleCountByBlockHash => (1, "missing block hash")
    case EthGetUncleByBlockNumberAndIndex => (2, "need block tag and index")
    case EthGetUncleByBlockHashAndIndex => (2, "need block hash and index")
    case _ => (0, "")
  }

  /** parseBlockTag against this backend. */
  function BlockTag(be: Backend, tag: string): Result<BigPtr, Failure> {
    ParseBlockTag(be.blockNumber, tag)
  }

  // ----- the cases that take no params -----

  function ClientVersion(be: Backend): Result<Json, Failure> {
    var v :- Lift(be.clientVersion);
    Ok(JStr(v))
  }

  /** net_version: the chain id in decimal. */
  function NetworkId(be: Backend): Result<Json, Failure> {
    var id :- Lift(be.chainID);
    Ok(JStr(Decimal(id)))
  }

  function ChainId(be: Backend): Result<Json, Failure> {
    var id :- Lift(be.chainID);
    Ok(JStr(QuantityHex(id)))
  }

  function BlockNumber(be: Backend): Result<Json, Failure> {
    var n :- Lift(be.blockNumber);
    Ok(JStr(QuantityHex(n)))
  }

  function GasPrice(be: Backend): Result<Json, Failure> {
    var p :- Lift(be.gasPrice);
    Ok(JStr(QuantityHex(p)))
  }

  function PeerCount(be: Backend): Result<Json, Failure> {
    var c :- Lift(be.peerCount);
    Ok(JStr(QuantityHex(c)))
  }

  function Listening(be: Backend): Result<Json, Failure> {
    var l :- Lift(be.listening);
    Ok(JBool(l))
  }

  /** eth_syncing: the backend's map as it is; a nil map is written as null. */
  function Syncing(be: Backend): Result<Json, Failure> {
    var s :- Lift(be.syncing);
    Ok(if s.Some? then JObj(s.value) else JNull)
  }

  function Mining(be: Backend): Result<Json, Failure> {
    var m :- Lift(be.mining);
    Ok(JBool(m))
  }

  function Hashrate(be: Backend): Result<Json, Failure> {
    var h :- Lift(be.hashrate);
    Ok(JStr(QuantityHex(h)))
  }

  // ----- the cases that take params; Handle has checked their count -----

  function GetBlockByNumber(be: Backend, p: seq<Json>): Result<Json, Failure>
    requires |p| >= 1
  {
    var full := FullFlag(p);
    var num :- BlockTag(be, MustString(p[0]));
    var b :- Lift(be.blockByNumber(num, full));
    Ok(BlockJson(b, full))
  }

  function GetBalance(be: Backend, p: seq<Json>): Result<Json, Failure>
    requires |p| >= 2
  {
    var addr :- DecodeParam(p[0]);
    var num :- BlockTag(be, MustString(p[1]));
    var bal :- Lift(be.balance(addr, num));
    Ok(JStr(QuantityHex(bal)))
  }

  /** eth_call: the block tag is optional and the backend gets nil without one. */
  function Call(be: Backend, p: seq<Json>): Result<Json, Failure>
    requires |p| >= 1
  {
    var msg :- ToCallMsg(p[0]);
    var num :- if |p| > 1 then BlockTag(be, MustString(p[1])) else Ok(Nil);
    var out :- Lift(be.call(msg, num));
    Ok(JStr(DataHex(out)))
  }

  /** eth_estimateGas: the uint64 estimate goes through int64 before it is written. */
  function EstimateGas(be: Backend, p: seq<Json>): Result<Json, Failure>
    requires |p| >= 1
  {
    var msg :- ToCallMsg(p[0]);
    var g :- Lift(be.estimateGas(msg));
    Ok(JStr(QuantityHex(Int64Of(g))))
  }

  function SendRawTransaction(be: Backend, p: seq<Json>): Result<Json, Failure>
    requires |p| >= 1
  {
    var h :- Lift(be.sendRawTx(MustString(p[0])));
    Ok(JStr(DataHex(h)))
  }

  function GetTransactionByHash(be: Backend, p: seq<Json>): Result<Json, Failure>
    requires |p| >= 1
  {
    var hash :- DecodeParam(p[0]);
    var tx :- Lift(be.txByHash(hash));
    Ok(TxJson(tx))
  }

  function GetTransactionReceipt(be: Backend, p: seq<Json>): Result<Json, Failure>
    requires |p| >= 1
  {
    var hash :- DecodeParam(p[0]);
    var rc :- Lift(be.receiptByHash(hash));
    Ok(ReceiptJson(rc))
  }

  function GetLogs(be: Backend, p: seq<Json>): Result<Json, Failure>
    requires |p| >= 1
  {
    var q :- FilterQueryOf(p[0]);
    var logs :- Lift(be.getLogs(q));
    Ok(LogsJson(logs))
  }

  function GetBlockByHash(be: Backend, p: seq<Json>): Result<Json, Failure>
    requires |p| >= 1
  {
    var hash :- DecodeParam(p[0]);
    var full := FullFlag(p);
    var b :- Lift(be.blockByHash(hash, full));
    Ok(BlockJson(b, full))
  }

  function BlockTxCountByNumber(be: Backend, p: seq<Json>): Result<Json, Failure>
    requires |p| >= 1
  {
    var num :- BlockTag(be, MustString(p[0]));
    var c :- Lift(be.blockTransactionCountByNumber(num));
    Ok(JStr(QuantityHex(c)))
  }

  function BlockTxCountByHash(be: Backend, p: seq<Json>): Result<Json, Failure>
    requires |p| >= 1
  {
    var hash :- DecodeParam(p[0]);
    var c :- Lift(be.blockTransactionCountByHash(hash));
    Ok(JStr(QuantityHex(c)))
  }

  function GetCode(be: Backend, p: seq<Json>): Result<Json, Failure>
    requires |p| >= 2
  {
    var addr :- DecodeParam(p[0]);
    var num :- BlockTag(be, MustString(p[1]));
    var code :- Lift(be.getCode(addr, num));
    Ok(JStr(DataHex(code)))
  }

  function GetStorageAt(be: Backend, p: seq<Json>): Result<Json, Failure>
    requires |p| >= 3
  {
    var addr :- DecodeParam(p[0]);
    var key :- DecodeParam(p[1]);
    var num :- BlockTag(be, MustString(p[2]));
    var v :- Lift(be.getStorageAt(addr, key, num));
    Ok(JStr(DataHex(v)))
  }

  function GetTransactionCount(be: Backend, p: seq<Json>): Result<Json, Failure>
    requires |p| >= 2
  {
    var addr :- DecodeParam(p[0]);
    var num :- BlockTag(be, MustString(p[1]));
    var c :- Lift(be.getTransactionCount(addr, num));
    Ok(JStr(QuantityHex(c)))
  }

  function TxByBlockNumberAndIndex(be: Backend, p: seq<Json>): Result<Json, Failure>
    requires |p| >= 2
  {
    var num :- BlockTag(be, MustString(p[0]));
    var index :- ParseHexUint64(MustString(p[1]));
    var tx :- Lift(be.txByBlockNumberAndIndex(num, index));
    Ok(TxJson(tx))
  }

  function TxByBlockHashAndIndex(be: Backend, p: seq<Json>): Result<Json, Failure>
    requires |p| >= 2
  {
    var hash :- DecodeParam(p[0]);
    var index :- ParseHexUint64(MustString(p[1]));
    var tx :- Lift(be.txByBlockHashAndIndex(hash, index));
    Ok(TxJson(tx))
  }

  function UncleCountByNumber(be: Backend, p: seq<Json>): Result<Json, Failure>
    requires |p| >= 1
  {
    var num :- BlockTag(be, MustString(p[0]));
    var c :- Lift(be.uncleCountByBlockNumber(num));
    Ok(JStr(QuantityHex(c)))
  }

  function UncleCountByHash(be: Backend, p: seq<Json>): Result<Json, Failure>
    requires |p| >= 1
  {
    var hash :- DecodeParam(p[0]);
    var c :- Lift(be.uncleCountByBlockHash(hash));
    Ok(JStr(QuantityHex(c)))
  }

  /** An uncle is encoded like a block, always with transaction hashes. */
  function UncleByNumberAndIndex(be: Backend, p: seq<Json>): Result<Json, Failure>
    requires |p| >= 2
  {
    var num :- BlockTag(be, MustString(p[0]));
    var index :- ParseHexUint64(MustString(p[1]));
    var u :- Lift(be.uncleByBlockNumberAndIndex(num, index));
    Ok(BlockJson(u, false))
  }

  function UncleByHashAndIndex(be: Backend, p: seq<Json>): Result<Json, Failure>
    requires |p| >= 2
  {
    var hash :- DecodeParam(p[0]);
    var index :- ParseHexUint64(MustString(p[1]));
    var u :- Lift(be.uncleByBlockHashAndIndex(hash, index));
    Ok(BlockJson(u, false))
  }

  /**
   * The body of a case once its param count is checked: coerce the
   * params, make the backend call, encode the result or fail.
   */
  function Run(be: Backend, m: Method, p: seq<Json>): Result<Json, Failure>
    requires |p| >= Needs(m).0
  {
    match m
    case Web3ClientVersion => ClientVersion(be)
    case NetVersion => NetworkId(be)
    case EthChainId => ChainId(be)
    case EthBlockNumber => BlockNumber(be)
    case EthGetBlockByNumber => GetBlockByNumber(be, p)
    case EthGetBalance => GetBalance(be, p)
    case EthCall => Call(be, p)
    case EthEstimateGas => EstimateGas(be, p)
    case EthGasPrice => GasPrice(be)
    case EthSendRawTransaction => SendRawTransaction(be, p)
    case EthGetTransactionByHash => GetTransactionByHash(be, p)
    case EthGetTransactionReceipt => GetTransactionReceipt(be, p)
    case EthGetLogs => GetLogs(be, p)
    case EthGetBlockByHash => GetBlockByHash(be, p)
    case EthGetBlockTransactionCountByNumber => BlockTxCountByNumber(be, p)
    case EthGetBlockTransactionCountByHash => BlockTxCountByHash(be, p)
    case EthGetCode => GetCode(be, p)
    case EthGetStorageAt => GetStorageAt(be, p)
    case EthGetTransactionCount => GetTransactionCount(be, p)
    case EthGetTransactionByBlockNumberAndIndex => TxByBlockNumberAndIndex(be, p)
    case EthGetTransactionByBlockHashAndIndex => TxByBlockHashAndIndex(be, p)
    case NetPeerCount => PeerCount(be)
    case NetListening => Listening(be)
    case EthSyncing => Syncing(be)
    case EthMining => Mining(be)
    case EthHashrate => Hashrate(be)
    case EthGetUncleCountByBlockNumber => UncleCountByNumber(be, p)
    case EthGetUncleCountByBlockHash => UncleCountByHash(be, p)
    case EthGetUncleByBlockNumberAndIndex => UncleByNumberAndIndex(be, p)
    case EthGetUncleByBlockHashAndIndex => UncleByHashAndIndex(be, p)
  }

  /**
   * Handle: the switch over the method name. A name without a case gets
   * -32601; a case given fewer params than it needs gets -32602 with its
   * own message; otherwise finish turns the case's outcome into the
   * response. The response always echoes the id and carries exactly one
   * of result and error; a Go error is handed back exactly when the
   * response is a -32000 error, whose message is that error's text.
   */
  function Handle(be: Backend, req: Request): (h: Handled)
    ensures h.resp.id == req.id && h.resp.jsonrpc == "2.0"
    ensures ExactlyOne(h.resp)
    ensures h.err.Some? <==> h.resp.error.Some? && h.resp.error.value.code == ServerError
    ensures h.err.Some? ==> h.resp.error.value.message == ErrorText(h.err.value)
  {
    match Classify(req.name)
    case None => NotFound(req)
    case Some(m) =>
      if |req.params| < Needs(m).0 then InvalidParamsFor(req, Needs(m).1)
      else Finish(req, Run(be, m, req.params))
  }

  // ----- properties of the switch -----

  /** -32601 "Method not found" answers exactly the names the switch has no case for. */
  lemma UnknownMethod(be: Backend, req: Request)
    ensures Classify(req.name).None? <==> Handle(be, req).resp.error == Some(RpcError(MethodNotFound, "Method not found"))
    ensures Classify(req.name).None? ==> Handle(be, req) == NotFound(req)
  {
  }

  /** A method that checks its params, given fewer than it needs, answers -32602 with its own message. */
  lemma ShortParamsRejected(be: Backend, req: Request, m: Method)
    requires Classify(req.name) == Some(m) && |req.params| < Needs(m).0
    ensures Handle(be, req) == InvalidParamsFor(req, Needs(m).1)
  {
  }

  /** With too few params the backend is not consulted: any two backends give the same answer. */
  lemma ShortParamsIgnoreBackend(be: Backend, other: Backend, req: Request, m: Method)
    requires Classify(req.name) == Some(m) && |req.params| < Needs(m).0
    ensures Handle(be, req) == Handle(other, req)
  {
    ShortParamsRejected(be, req, m);
    ShortParamsRejected(other, req, m);
  }

  /** -32602 comes from the param-count checks alone: no decode or backend failure produces it. */
  lemma InvalidParamsOnlyWhenShort(be: Backend, req: Request)
    ensures var e := Handle(be, req).resp.error;
      e.Some? && e.value.code == InvalidParams ==> Classify(req.name).Some? && |req.params| < Needs(Classify(req.name).value).0
  {
  }

  /** eth_blockNumber writes the backend's height as a QUANTITY, and passes a backend error on as -32000 with its text. */
  lemma BlockNumberAnswer(be: Backend, req: Request)
    requires Classify(req.name) == Some(EthBlockNumber)
    ensures be.blockNumber.Ok? && be.blockNumber.value >= 0 ==>
      Handle(be, req).resp.result == Some(JStr(QuantityHex(be.blockNumber.value)))
      && SetString16(QuantityHex(be.blockNumber.value)[2..]) == Some(be.blockNumber.value)
    ensures be.blockNumber.Err? ==>
      Handle(be, req).resp.error == Some(RpcError(ServerError, be.blockNumber.error))
      && Handle(be, req).err == Some(BackendError(be.blockNumber.error))
  {
    if be.blockNumber.Ok? && be.blockNumber.value >= 0 {
      QuantityHexCanonical(be.blockNumber.value);
    }
  }

  /** eth_chainId writes the chain id as a QUANTITY, and passes a backend error on as -32000 with its text. */
  lemma ChainIdAnswer(be: Backend, req: Request)
    requires Classify(req.name) == Some(EthChainId)
    ensures be.chainID.Ok? && be.chainID.value >= 0 ==>
      Handle(be, req).resp.result == Some(JStr(QuantityHex(be.chainID.value)))
      && SetString16(QuantityHex(be.chainID.value)[2..]) == Some(be.chainID.value)
    ensures be.chainID.Err? ==>
      Handle(be, req).resp.error == Some(RpcError(ServerError, be.chainID.error))
      && Handle(be, req).err == Some(BackendError(be.chainID.error))
  {
    if be.chainID.Ok? && be.chainID.value >= 0 {
      QuantityHexCanonical(be.chainID.value);
    }
  }

  /** net_version writes the same chain id in decimal. */
  lemma NetVersionDecimal(be: Backend, req: Request, id: nat)
    requires Classify(req.name) == Some(NetVersion) && be.chainID == Ok(id)
    ensures Handle(be, req).resp.result == Some(JStr(NatText(id, 10)))
  {
  }

  /**
   * eth_getBlockByNumber asks for full transactions only when params[1]
   * is the JSON value true; any other second param, or none, asks for
   * hashes. A tag naming the latest block ("latest", "pending" or "", in
   * any case) is resolved through BlockNumber first.
   */
  lemma GetBlockByNumberFlag(be: Backend, req: Request, b: Block)
    requires Classify(req.name) == Some(EthGetBlockByNumber) && |req.params| >= 1
    requires IsLatestAlias(MustString(req.params[0])) && be.blockNumber.Ok?
    requires be.blockByNumber(Val(be.blockNumber.value), FullFlag(req.params)) == Ok(b)
    ensures Handle(be, req).resp.result == Some(BlockJson(b, |req.params| > 1 && req.params[1] == JBool(true)))
  {
    HandleRuns(be, req, EthGetBlockByNumber);
    assert Run(be, EthGetBlockByNumber, req.params) == GetBlockByNumber(be, req.params);
    ParseBlockTagAliases(be.blockNumber, MustString(req.params[0]));
  }

  /** eth_call without a block tag hands the backend a nil block number and never asks for the latest one. */
  lemma CallWithoutTag(be: Backend, req: Request, msg: CallMsg)
    requires Classify(req.name) == Some(EthCall) && |req.params| == 1 && ToCallMsg(req.params[0]) == Ok(msg)
    ensures be.call(msg, Nil).Ok? ==> Handle(be, req).resp.result == Some(JStr(DataHex(be.call(msg, Nil).value)))
    ensures Handle(be, req) == Handle(be.(blockNumber := Err("unused")), req)
  {
  }

  /**
   * eth_estimateGas reads the uint64 estimate as an int64: below 2^63 it is
   * written as its QUANTITY, from 2^63 up as "0x-" and the hex of 2^64
   * minus the estimate.
   */
  lemma EstimateGasAsInt64(be: Backend, req: Request, msg: CallMsg, g: Uint64)
    requires Classify(req.name) == Some(EthEstimateGas) && |req.params| >= 1
    requires ToCallMsg(req.params[0]) == Ok(msg) && be.estimateGas(msg) == Ok(g)
    ensures g < TwoTo64 / 2 ==> Handle(be, req).resp.result == Some(JStr(QuantityHex(g)))
    ensures g >= TwoTo64 / 2 ==> Handle(be, req).resp.result == Some(JStr("0x-" + NatText(TwoTo64 - g, 16)))
  {
    Int64QuantityText(g);
    assert Handle(be, req).resp.result == Some(JStr(QuantityHex(Int64Of(g))));
  }

  /** The QUANTITY text of int64(g): g's own below 2^63, a minus sign and 2^64 - g from there up. */
  lemma Int64QuantityText(g: Uint64)
    ensures g < TwoTo64 / 2 ==> QuantityHex(Int64Of(g)) == QuantityHex(g)
    ensures g >= TwoTo64 / 2 ==> QuantityHex(Int64Of(g)) == "0x-" + NatText(TwoTo64 - g, 16)
  {
    if g >= TwoTo64 / 2 {
      var t := NatText(TwoTo64 - g, 16);
      assert Int64Of(g) == g - TwoTo64;
      assert QuantityHex(Int64Of(g)) == "0x" + ("-" + t);
      assert "0x" + ("-" + t) == "0x-" + t;
    }
  }

  /**
   * An address that is not hex fails eth_getBalance with the decoder's own
   * error text before the backend is asked anything.
   */
  lemma GetBalanceChecksAddress(be: Backend, other: Backend, req: Request)
    requires Classify(req.name) == Some(EthGetBalance) && |req.params| >= 2
    requires Hex.DecodeString(Strs.TrimPrefix(MustString(req.params[0]), "0x")).err.Some?
    ensures var e := Hex.DecodeString(Strs.TrimPrefix(MustString(req.params[0]), "0x")).err.value;
      Handle(be, req).resp.error == Some(RpcError(ServerError, Hex.ErrorText(e)))
    ensures Handle(be, req) == Handle(other, req)
  {
  }

  /**
   * The ...AndIndex methods hand the backend the decoded hash and the parsed
   * index, and encode the transaction it returns.
   */
  lemma IndexParamReachesBackend(be: Backend, req: Request, hash: Bytes, i: Uint64, tx: Transaction)
    requires Classify(req.name) == Some(EthGetTransactionByBlockHashAndIndex) && |req.params| >= 2
    requires DecodeParam(req.params[0]) == Ok(hash) && ParseHexUint64(MustString(req.params[1])) == Ok(i)
    requires be.txByBlockHashAndIndex(hash, i) == Ok(tx)
    ensures Handle(be, req) == Finish(req, Ok(TxJson(tx)))
  {
    HandleRuns(be, req, EthGetTransactionByBlockHashAndIndex);
    IndexBody(be, req.params, hash, i, tx);
  }

  /** The body of eth_getTransactionByBlockHashAndIndex once the hash decodes and the index parses. */
  lemma IndexBody(be: Backend, p: seq<Json>, hash: Bytes, i: Uint64, tx: Transaction)
    requires |p| >= 2
    requires DecodeParam(p[0]) == Ok(hash) && ParseHexUint64(MustString(p[1])) == Ok(i)
    requires be.txByBlockHashAndIndex(hash, i) == Ok(tx)
    ensures Run(be, EthGetTransactionByBlockHashAndIndex, p) == Ok(TxJson(tx))
  {
    RunsIndexBody(be, p);
  }

  /** The case eth_getTransactionByBlockHashAndIndex runs TxByBlockHashAndIndex. */
  lemma RunsIndexBody(be: Backend, p: seq<Json>)
    requires |p| >= 2
    ensures Run(be, EthGetTransactionByBlockHashAndIndex, p) == TxByBlockHashAndIndex(be, p)
  {
  }

  /** A method given enough params answers with its body's outcome, through finish. */
  lemma HandleRuns(be: Backend, req: Request, m: Method)
    requires Classify(req.name) == Some(m) && |req.params| >= Needs(m).0
    ensures Handle(be, req) == Finish(req, Run(be, m, req.params))
  {
  }

  /** The index coercion of the ...AndIndex methods inverts QUANTITY for every uint64. */
  lemma IndexParsesBack(i: nat)
    requires i < TwoTo64
    ensures ParseHexUint64(MustString(JStr(QuantityHex(i)))) == Ok(i)
  {
    ParseHexUint64RoundTrip(i);
  }

  /** eth_syncing with a nil map from the backend answers with a result that is null, not absent. */
  lemma SyncingNilMap(be: Backend, req: Request)
    requires Classify(req.name) == Some(EthSyncing) && be.syncing == Ok(None)
    ensures Handle(be, req).resp.result == Some(JNull)
    ensures "result" in Marshal(Handle(be, req).resp).fields
  {
    RespOKWire(req.id, Some(JNull));
  }
}
