/**
 * The records and the backend interface of the byte-slice generation
 * (package Types). Hashes, addresses and amounts are byte strings; counters
 * are uint64 or uint32. A nil slice and an empty one are both the empty
 * sequence.
 */
module Types {
  import opened Wrappers
  import opened Json
  import opened BigInt
  import Hex

  type Bytes = seq<Hex.Byte>

  datatype BlockHeader = BlockHeader(
    parentHash: Bytes,
    stateRoot: Bytes,
    receiptsRoot: Bytes,
    logsBloom: Bytes,
    miner: Bytes,
    number: Uint64,
    gasLimit: Uint64,
    gasUsed: Uint64,
    timestamp: Uint64,
    mixHashOrPrevRandao: Bytes,
    baseFee: Bytes,
    blobGasUsedField: Uint64,
    excessBlobGasField: Uint64,
    extraData: Bytes,
    hash: Bytes)

  /** A block; `withdrawals` are EIP-4895, `blobGasUsed`/`excessBlobGas` EIP-4844. */
  datatype Block = Block(
    header: BlockHeader,
    transactions: seq<Transaction>,
    ommers: seq<Bytes>,
    withdrawalsRoot: Bytes,
    withdrawals: seq<Withdrawal>,
    blobGasUsed: Bytes,
    excessBlobGas: Bytes)

  /**
   * A transaction with its EIP-1559 fee caps, EIP-2930 access list (None
   * for a nil pointer) and EIP-4844 blob fields. `txType` is the field Type.
   */
  datatype Transaction = Transaction(
    hash: Bytes,
    from: Bytes,
    to: Bytes,
    input: Bytes,
    nonce: Uint64,
    value: Bytes,
    gas: Uint64,
    gasPrice: Bytes,
    txType: Uint32,
    r: Bytes,
    s: Bytes,
    v: Uint32,
    accessList: Option<AccessList>,
    maxFeePerGas: Bytes,
    maxPriorityFeePerGas: Bytes,
    maxFeePerBlobGas: Bytes,
    blobVersionedHashes: seq<Bytes>)

  datatype AccessList = AccessList(accessTuples: seq<AccessTuple>)

  datatype AccessTuple = AccessTuple(address: Bytes, storageKeys: seq<Bytes>)

  datatype Withdrawal = Withdrawal(index: Uint64, validatorIndex: Uint64, address: Bytes, amount: Uint64)

  /** A receipt; `receiptType` is the field Type. */
  datatype Receipt = Receipt(
    txHash: Bytes,
    status: Uint64,
    cumulativeGasUsed: Uint64,
    gasUsed: Uint64,
    logs: seq<Log>,
    contractAddress: Bytes,
    receiptType: Uint32,
    blockHash: Bytes,
    blockNumber: Uint64,
    transactionIndex: Uint64)

  datatype Log = Log(
    address: Bytes,
    topics: seq<Bytes>,
    data: Bytes,
    blockNumber: Uint64,
    blockHash: Bytes,
    txIndex: Uint64,
    txHash: Bytes,
    logIndex: Uint64,
    removed: bool)

  /** The call object handed to Call and EstimateGas (the same shape in both generations). */
  datatype CallMsg = CallMsg(from: string, to: string, data: Bytes, value: BigPtr, gas: BigPtr, gasPrice: BigPtr)

  /** A log filter: one byte string per topic position. */
  datatype FilterQuery = FilterQuery(
    fromBlock: BigPtr,
    toBlock: BigPtr,
    addresses: seq<Bytes>,
    topics: seq<Bytes>,
    blockHash: Bytes)

  /** The stop function a subscription returns, told apart by an identity. */
  datatype StopHandle = StopHandle(id: nat)

  /**
   * Types.Backend as an oracle: each field is what the corresponding
   * interface method returns (a value or an error, the string being
   * err.Error()), as a function of its arguments where it takes any. The
   * context argument is left out. A subscription yields its stop handle;
   * the channel it feeds is given to the forwarders separately. A Backend
   * value is the backend as one request finds it; a connection sees one
   * per frame (see ServicesWs.ServerOf).
   */
  datatype Backend = Backend(
    chainID: Result<int, string>,
    clientVersion: Result<string, string>,
    blockNumber: Result<int, string>,
    blockByNumber: (BigPtr, bool) -> Result<Block, string>,
    blockByHash: (Bytes, bool) -> Result<Block, string>,
    blockTransactionCountByNumber: BigPtr -> Result<Uint64, string>,
    blockTransactionCountByHash: Bytes -> Result<Uint64, string>,
    balance: (Bytes, BigPtr) -> Result<int, string>,
    getCode: (Bytes, BigPtr) -> Result<Bytes, string>,
    getStorageAt: (Bytes, Bytes, BigPtr) -> Result<Bytes, string>,
    getTransactionCount: (Bytes, BigPtr) -> Result<Uint64, string>,
    call: (CallMsg, BigPtr) -> Result<Bytes, string>,
    estimateGas: CallMsg -> Result<Uint64, string>,
    gasPrice: Result<int, string>,
    sendRawTx: string -> Result<Bytes, string>,
    txByHash: Bytes -> Result<Transaction, string>,
    txByBlockNumberAndIndex: (BigPtr, Uint64) -> Result<Transaction, string>,
    txByBlockHashAndIndex: (Bytes, Uint64) -> Result<Transaction, string>,
    receiptByHash: Bytes -> Result<Receipt, string>,
    getLogs: FilterQuery -> Result<seq<Log>, string>,
    peerCount: Result<Uint64, string>,
    listening: Result<bool, string>,
    syncing: Result<Option<map<string, Json>>, string>,
    mining: Result<bool, string>,
    hashrate: Result<Uint64, string>,
    uncleCountByBlockNumber: BigPtr -> Result<Uint64, string>,
    uncleCountByBlockHash: Bytes -> Result<Uint64, string>,
    uncleByBlockNumberAndIndex: (BigPtr, Uint64) -> Result<Block, string>,
    uncleByBlockHashAndIndex: (Bytes, Uint64) -> Result<Block, string>,
    subscribeNewHeads: Result<StopHandle, string>,
    subscribeLogs: FilterQuery -> Result<StopHandle, string>,
    subscribePendingTxs: Result<StopHandle, string>)
}
