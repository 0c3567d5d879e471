/**
 * The records and the backend interface of the string generation (package
 * backend): hashes and addresses are strings, numbers are *big.Int.
 */
module RpcBackend {
  import opened Wrappers
  import opened Json
  import opened BigInt
  import Types

  /** A block; `number` is a *big.Int the backend always sets. */
  datatype Block = Block(number: int, hash: string, parentHash: string, timestamp: Uint64, transactions: seq<Tx>)

  datatype Tx = Tx(hash: string, from: string, to: string, input: Types.Bytes, value: int, nonce: Uint64, gas: int, gasPrice: int)

  datatype Log = Log(address: string, topics: seq<string>, data: Types.Bytes, blockNumber: int, txHash: string, logIndex: Uint32)

  /** backend.CallMsg has the same fields as Types.CallMsg. */
  type CallMsg = Types.CallMsg

  /** A log filter: per topic position, the list of accepted topics. */
  datatype FilterQuery = FilterQuery(fromBlock: BigPtr, toBlock: BigPtr, addresses: seq<string>, topics: seq<seq<string>>)

  /**
   * backend.Backend as an oracle (see Types.Backend). ReceiptByHash returns
   * a map[string]any, None standing for a nil map.
   */
  datatype Backend = Backend(
    chainID: Result<int, string>,
    clientVersion: Result<string, string>,
    blockNumber: Result<int, string>,
    blockByNumber: (BigPtr, bool) -> Result<Block, string>,
    balance: (string, BigPtr) -> Result<int, string>,
    call: (CallMsg, BigPtr) -> Result<Types.Bytes, string>,
    estimateGas: CallMsg -> Result<Uint64, string>,
    gasPrice: Result<int, string>,
    sendRawTx: string -> Result<string, string>,
    txByHash: string -> Result<Tx, string>,
    receiptByHash: string -> Result<Option<map<string, Json>>, string>,
    getLogs: FilterQuery -> Result<seq<Log>, string>,
    subscribeNewHeads: Result<Types.StopHandle, string>,
    subscribeLogs: FilterQuery -> Result<Types.StopHandle, string>,
    subscribePendingTxs: Result<Types.StopHandle, string>)
}
