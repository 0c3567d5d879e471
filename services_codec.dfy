/**
 * The encoding helpers of the byte-slice dispatcher: parseHexUint64,
 * toFilterQuery and the marshal functions that turn backend records into
 * JSON objects. Each loop-bearing helper is a method over arrays, proved
 * equal to a function that the dispatcher and the lemmas use.
 */
module ServicesCodec {
  import opened Wrappers
  import opened Json
  import opened Strs
  import opened BigInt
  import Hex
  import opened Dispatch
  import opened Types

  // ----- parseHexUint64 -----

  /**
   * parseHexUint64: an optional "0x" is dropped and the rest read as a
   * big.Int in base 16; a failed read is "invalid hex string", and a
   * successful one is cut to the low 64 bits of its magnitude.
   */
  function ParseHexUint64(s: string): (r: Result<Uint64, Failure>)
    ensures r.Err? <==> SetString16(TrimPrefix(s, "0x")).None?
    ensures r.Err? ==> r.error == InvalidHexString
  {
    match SetString16(TrimPrefix(s, "0x"))
    case None => Err(InvalidHexString)
    case Some(v) => Ok(Low64(v))
  }

  /**
   * parseHexUint64 reads the QUANTITY encoding of any natural number, with
   * or without the "0x", as that number cut to its low 64 bits; below 2^64
   * it is the exact inverse.
   */
  lemma ParseHexUint64RoundTrip(n: nat)
    ensures ParseHexUint64(QuantityHex(n)) == Ok(n % TwoTo64)
    ensures ParseHexUint64(Text16(n)) == Ok(n % TwoTo64)
    ensures n < TwoTo64 ==> ParseHexUint64(QuantityHex(n)) == Ok(n)
  {
    var s := QuantityHex(n);
    assert HasPrefix(s, "0x");
    assert TrimPrefix(s, "0x") == Text16(n);
    Text16RoundTrip(n);
    assert !HasPrefix(Text16(n), "0x") by {
      if |Text16(n)| >= 2 {
        assert Hex.IsLowerHexDigit(Text16(n)[1]);
      }
    }
  }

  /**
   * Empty text, a bare "0x" and a character outside the hex digits are
   * rejected; a sign is accepted, and the magnitude is what is kept.
   */
  lemma ParseHexUint64Edges()
    ensures ParseHexUint64("") == Err(InvalidHexString)
    ensures ParseHexUint64("0x") == Err(InvalidHexString)
    ensures ParseHexUint64("0xg") == Err(InvalidHexString)
    ensures ParseHexUint64("0x-1") == Ok(1)
  {
    assert TrimPrefix("0x", "0x") == "";
    assert TrimPrefix("0xg", "0x") == "g";
    assert TrimPrefix("0x-1", "0x") == "-1";
    assert DigitsValue("1") == Some(1);
  }

  // ----- toFilterQuery -----

  /** One address or topic: a string that decodes without error, else empty (nil). */
  function DecodedOrEmpty(v: Json): (b: Bytes)
    ensures !v.JStr? ==> b == []
  {
    if v.JStr? then
      var d := Hex.DecodeString(TrimPrefix(v.s, "0x"));
      if d.err.None? then d.bytes else []
    else []
  }

  /** One topic position: the first alternative of a list, or a single string. */
  function TopicEntry(v: Json): Bytes {
    if v.JArr? then (if |v.items| > 0 then DecodedOrEmpty(v.items[0]) else [])
    else DecodedOrEmpty(v)
  }

  /** The "address" field: read only when it is a list, one entry per element. */
  function AddressList(v: Json): (r: seq<Bytes>)
    ensures v.JArr? ==> |r| == |v.items|
    ensures !v.JArr? ==> r == []
  {
    if v.JArr? then seq(|v.items|, i requires 0 <= i < |v.items| => DecodedOrEmpty(v.items[i])) else []
  }

  /** The "topics" field: read only when it is a list, one entry per position. */
  function TopicList(v: Json): (r: seq<Bytes>)
    ensures v.JArr? ==> |r| == |v.items|
    ensures !v.JArr? ==> r == []
  {
    if v.JArr? then seq(|v.items|, i requires 0 <= i < |v.items| => TopicEntry(v.items[i])) else []
  }

  /**
   * toFilterQuery as a value: an object gives the block range ("0x"
   * strings only), the addresses and the topics; BlockHash is never set.
   * Anything else is "invalid filter object".
   */
  function FilterQueryOf(p: Json): (r: Result<FilterQuery, Failure>)
    ensures r.Err? <==> !p.JObj?
    ensures r.Err? ==> r.error == InvalidFilterObject
  {
    if !p.JObj? then Err(InvalidFilterObject)
    else
      var obj := p.fields;
      Ok(FilterQuery(
        PrefixedBig(Field(obj, "fromBlock")),
        PrefixedBig(Field(obj, "toBlock")),
        AddressList(Field(obj, "address")),
        TopicList(Field(obj, "topics")),
        []))
  }

  /** The address loop of toFilterQuery: one slot per element, set only when the element decodes. */
  method DecodeAddresses(items: seq<Json>) returns (r: seq<Bytes>)
    ensures r == AddressList(JArr(items))
  {
    var buf := new Bytes[|items|](_ => []);
    ghost var spec := AddressList(JArr(items));
    for i := 0 to |items|
      invariant buf[..i] == spec[..i]
      invariant forall k :: i <= k < |items| ==> buf[k] == []
    {
      var item := items[i];
      if item.JStr? {
        var d := Hex.DecodeString(TrimPrefix(item.s, "0x"));
        if d.err.None? {
          buf[i] := d.bytes;
        }
      }
      assert buf[i] == spec[i];
      assert buf[..i+1] == buf[..i] + [buf[i]];
    }
    assert buf[..] == buf[..|items|];
    r := buf[..];
  }

  /** The topic loop of toFilterQuery: a list keeps its first element, a string is taken as is. */
  method DecodeTopics(items: seq<Json>) returns (r: seq<Bytes>)
    ensures r == TopicList(JArr(items))
  {
    var buf := new Bytes[|items|](_ => []);
    ghost var spec := TopicList(JArr(items));
    for i := 0 to |items|
      invariant buf[..i] == spec[..i]
      invariant forall k :: i <= k < |items| ==> buf[k] == []
    {
      var item := items[i];
      if item.JArr? {
        if |item.items| > 0 && item.items[0].JStr? {
          var d := Hex.DecodeString(TrimPrefix(item.items[0].s, "0x"));
          if d.err.None? {
            buf[i] := d.bytes;
          }
        }
      } else if item.JStr? {
        var d := Hex.DecodeString(TrimPrefix(item.s, "0x"));
        if d.err.None? {
          buf[i] := d.bytes;
        }
      }
      assert buf[i] == spec[i];
      assert buf[..i+1] == buf[..i] + [buf[i]];
    }
    assert buf[..] == buf[..|items|];
    r := buf[..];
  }

  /** toFilterQuery: fills the address and topic slices index by index. */
  method ToFilterQuery(p: Json) returns (r: Result<FilterQuery, Failure>)
    ensures r == FilterQueryOf(p)
  {
    if !p.JObj? {
      return Err(InvalidFilterObject);
    }
    var obj := p.fields;
    var fromBlock, toBlock := Nil, Nil;
    var f := Field(obj, "fromBlock");
    if f.JStr? && HasPrefix(f.s, "0x") {
      fromBlock := NewFromHex(f.s[2..]);
    }
    var t := Field(obj, "toBlock");
    if t.JStr? && HasPrefix(t.s, "0x") {
      toBlock := NewFromHex(t.s[2..]);
    }
    var addresses: seq<Bytes> := [];
    var a := Field(obj, "address");
    if a.JArr? {
      addresses := DecodeAddresses(a.items);
    }
    var topics: seq<Bytes> := [];
    var ts := Field(obj, "topics");
    if ts.JArr? {
      topics := DecodeTopics(ts.items);
    }
    assert addresses == AddressList(a);
    assert topics == TopicList(ts);
    return Ok(FilterQuery(fromBlock, toBlock, addresses, topics, []));
  }

  /** A well-formed DATA string is kept as its bytes; anything that fails to decode is dropped to empty. */
  lemma DecodedOrEmptyCases(b: Bytes, s: string)
    ensures DecodedOrEmpty(JStr(DataHex(b))) == b
    ensures Hex.DecodeString(TrimPrefix(s, "0x")).err.Some? ==> DecodedOrEmpty(JStr(s)) == []
    ensures DecodedOrEmpty(JNull) == []
  {
    DecodeParamRoundTrip(b);
  }

  /**
   * The shape of a parsed filter: one topic entry per element of a "topics"
   * list, an "address" that is not a list ignored, a list-valued position
   * reduced to its first alternative, and no block hash.
   */
  lemma FilterQueryShape(obj: map<string, Json>)
    ensures var q := FilterQueryOf(JObj(obj)).value;
      && (Field(obj, "topics").JArr? ==> |q.topics| == |Field(obj, "topics").items|)
      && (!Field(obj, "topics").JArr? ==> q.topics == [])
      && (Field(obj, "address").JArr? ==> |q.addresses| == |Field(obj, "address").items|)
      && (!Field(obj, "address").JArr? ==> q.addresses == [])
      && q.blockHash == []
    ensures var q := FilterQueryOf(JObj(obj)).value;
      forall i :: 0 <= i < |q.topics| ==>
        var entry := Field(obj, "topics").items[i];
        entry.JArr? && |entry.items| > 0 ==> q.topics[i] == DecodedOrEmpty(entry.items[0])
  {
  }

  /** A position listing several topics keeps only the first, and drops it when it does not decode. */
  lemma TopicFirstAlternativeOnly(obj: map<string, Json>, b: Bytes, rest: seq<Json>)
    ensures FilterQueryOf(JObj(obj["topics" := JArr([JArr([JStr(DataHex(b))] + rest)])])).value.topics == [b]
    ensures FilterQueryOf(JObj(obj["topics" := JArr([JNull, JArr([])])])).value.topics == [[], []]
  {
    DecodedOrEmptyCases(b, "");
    var q := FilterQueryOf(JObj(obj["topics" := JArr([JArr([JStr(DataHex(b))] + rest)])])).value;
    assert q.topics[0] == b;
  }

  // ----- marshal helpers -----

  /** The DATA strings of a list of byte strings, in order, as a JSON list. */
  method DataStrings(bs: seq<Bytes>) returns (j: Json)
    ensures j == DataList(bs)
  {
    var buf := new Json[|bs|](_ => JNull);
    for i := 0 to |bs|
      invariant forall k :: 0 <= k < i ==> buf[k] == JStr(DataHex(bs[k]))
    {
      buf[i] := JStr(DataHex(bs[i]));
    }
    j := JArr(buf[..]);
  }

  /** A key holding DATA, added only when the bytes are non-empty. */
  function WithData(m: map<string, Json>, k: string, b: Bytes): (r: map<string, Json>)
    ensures |b| > 0 ==> r == m[k := JStr(DataHex(b))]
    ensures |b| == 0 ==> r == m
  {
    if |b| > 0 then m[k := JStr(DataHex(b))] else m
  }

  // ----- marshalTx -----

  /** One access-list entry: its address and its storage keys. */
  function TupleJson(t: AccessTuple): Json {
    JObj(map["address" := JStr(DataHex(t.address)), "storageKeys" := DataList(t.storageKeys)])
  }

  /** The transaction fields every encoding has. */
  function TxBase(tx: Transaction): map<string, Json> {
    map[
      "hash" := JStr(DataHex(tx.hash)),
      "from" := JStr(DataHex(tx.from)),
      "to" := JStr(DataHex(tx.to)),
      "input" := JStr(DataHex(tx.input)),
      "value" := JStr(DataHex(tx.value)),
      "nonce" := JStr(QuantityHex(tx.nonce)),
      "gas" := JStr(QuantityHex(tx.gas)),
      "gasPrice" := JStr(DataHex(tx.gasPrice)),
      "type" := JStr(QuantityHex(tx.txType)),
      "r" := JStr(DataHex(tx.r)),
      "s" := JStr(DataHex(tx.s)),
      "v" := JStr(QuantityHex(tx.v))]
  }

  /** True when the transaction carries a non-empty EIP-2930 access list. */
  predicate HasAccessList(tx: Transaction) {
    tx.accessList.Some? && |tx.accessList.value.accessTuples| > 0
  }

  /** The encoded access list: one object per entry, in order. */
  function AccessListJson(tuples: seq<AccessTuple>): (j: Json)
    ensures j.JArr? && |j.items| == |tuples|
    ensures forall i :: 0 <= i < |tuples| ==> j.items[i] == TupleJson(tuples[i])
  {
    JArr(seq(|tuples|, i requires 0 <= i < |tuples| => TupleJson(tuples[i])))
  }

  /**
   * marshalTx as a value: the base fields, then the EIP-1559 fee caps, the
   * EIP-4844 blob fields and the EIP-2930 access list, each added only
   * when present.
   */
  function TxJson(tx: Transaction): Json {
    JObj(WithTxOptionals(TxBase(tx), tx))
  }

  /** The fields marshalTx sets only when the transaction has them, added to `m0`. */
  function WithTxOptionals(m0: map<string, Json>, tx: Transaction): map<string, Json> {
    var m1 := WithData(m0, "maxFeePerGas", tx.maxFeePerGas);
    var m2 := WithData(m1, "maxPriorityFeePerGas", tx.maxPriorityFeePerGas);
    var m3 := WithData(m2, "maxFeePerBlobGas", tx.maxFeePerBlobGas);
    var m4 := if |tx.blobVersionedHashes| > 0 then m3["blobVersionedHashes" := DataList(tx.blobVersionedHashes)] else m3;
    if HasAccessList(tx) then m4["accessList" := AccessListJson(tx.accessList.value.accessTuples)] else m4
  }

  /** Fills the access-list slice, each entry with its own storage-key slice. */
  method MarshalAccessList(tuples: seq<AccessTuple>) returns (j: Json)
    ensures j == AccessListJson(tuples)
  {
    var list := new Json[|tuples|](_ => JNull);
    for i := 0 to |tuples|
      invariant forall k :: 0 <= k < i ==> list[k] == TupleJson(tuples[k])
    {
      var keys := DataStrings(tuples[i].storageKeys);
      list[i] := JObj(map["address" := JStr(DataHex(tuples[i].address)), "storageKeys" := keys]);
    }
    j := JArr(list[..]);
  }

  /** marshalTx: builds the base map, then adds each optional field that is present. */
  method MarshalTx(tx: Transaction) returns (result: map<string, Json>)
    ensures JObj(result) == TxJson(tx)
  {
    result := TxBase(tx);
    if |tx.maxFeePerGas| > 0 {
      result := result["maxFeePerGas" := JStr(DataHex(tx.maxFeePerGas))];
    }
    if |tx.maxPriorityFeePerGas| > 0 {
      result := result["maxPriorityFeePerGas" := JStr(DataHex(tx.maxPriorityFeePerGas))];
    }
    if |tx.maxFeePerBlobGas| > 0 {
      result := result["maxFeePerBlobGas" := JStr(DataHex(tx.maxFeePerBlobGas))];
    }
    if |tx.blobVersionedHashes| > 0 {
      var hashes := DataStrings(tx.blobVersionedHashes);
      result := result["blobVersionedHashes" := hashes];
    }
    if tx.accessList.Some? && |tx.accessList.value.accessTuples| > 0 {
      var list := MarshalAccessList(tx.accessList.value.accessTuples);
      result := result["accessList" := list];
    }
  }

  /** The keys marshalTx adds only for the fields a transaction has. */
  const OptionalTxKeys: set<string> := {"maxFeePerGas", "maxPriorityFeePerGas", "maxFeePerBlobGas", "blobVersionedHashes", "accessList"}

  /** The optional fields of an encoded transaction appear exactly when present in the transaction. */
  lemma TxJsonOptionalKeys(tx: Transaction)
    ensures var f := TxJson(tx).fields;
      && ("maxFeePerGas" in f <==> |tx.maxFeePerGas| > 0)
      && ("maxPriorityFeePerGas" in f <==> |tx.maxPriorityFeePerGas| > 0)
      && ("maxFeePerBlobGas" in f <==> |tx.maxFeePerBlobGas| > 0)
      && ("blobVersionedHashes" in f <==> |tx.blobVersionedHashes| > 0)
      && ("accessList" in f <==> HasAccessList(tx))
    ensures var f := TxJson(tx).fields;
      && (HasAccessList(tx) ==> f["accessList"] == AccessListJson(tx.accessList.value.accessTuples))
      && (|tx.blobVersionedHashes| > 0 ==> f["blobVersionedHashes"] == DataList(tx.blobVersionedHashes))
  {
    TxBaseKeys(tx);
    WithTxOptionalsKeys(TxBase(tx), tx);
  }

  /** Over a map holding none of the optional keys, each optional key is added exactly when its field is present. */
  lemma WithTxOptionalsKeys(m: map<string, Json>, tx: Transaction)
    requires m.Keys !! OptionalTxKeys
    ensures var f := WithTxOptionals(m, tx);
      && ("maxFeePerGas" in f <==> |tx.maxFeePerGas| > 0)
      && ("maxPriorityFeePerGas" in f <==> |tx.maxPriorityFeePerGas| > 0)
      && ("maxFeePerBlobGas" in f <==> |tx.maxFeePerBlobGas| > 0)
      && ("blobVersionedHashes" in f <==> |tx.blobVersionedHashes| > 0)
      && ("accessList" in f <==> HasAccessList(tx))
    ensures var f := WithTxOptionals(m, tx);
      && (HasAccessList(tx) ==> f["accessList"] == AccessListJson(tx.accessList.value.accessTuples))
      && (|tx.blobVersionedHashes| > 0 ==> f["blobVersionedHashes"] == DataList(tx.blobVersionedHashes))
  {
  }

  /** The optional fields never replace a base field: every base field is in the encoding unchanged. */
  lemma TxJsonKeepsBase(tx: Transaction)
    ensures var f := TxJson(tx).fields; var base := TxBase(tx);
      forall k :: k in base && k !in OptionalTxKeys ==> k in f && f[k] == base[k]
  {
    WithTxOptionalsKeeps(TxBase(tx), tx);
  }

  /** None of the optional keys is a base key, so none of them replaces a base field. */
  lemma TxBaseKeys(tx: Transaction)
    ensures TxBase(tx).Keys !! OptionalTxKeys
  {
    var m := TxBase(tx);
    assert "maxFeePerGas" !in m;
    assert "maxPriorityFeePerGas" !in m;
    assert "maxFeePerBlobGas" !in m;
    assert "blobVersionedHashes" !in m;
    assert "accessList" !in m;
  }

  /** Adding the optional fields leaves every other key of the map as it was. */
  lemma WithTxOptionalsKeeps(m: map<string, Json>, tx: Transaction)
    ensures forall k :: k in m && k !in OptionalTxKeys ==> k in WithTxOptionals(m, tx) && WithTxOptionals(m, tx)[k] == m[k]
  {
  }

  /** The integer fields of a transaction are written as hex that parses back to them. */
  lemma TxBaseQuantities(tx: Transaction)
    ensures var f := TxBase(tx);
      && QuantityField(f, "nonce", tx.nonce) && QuantityField(f, "gas", tx.gas)
      && QuantityField(f, "type", tx.txType) && QuantityField(f, "v", tx.v)
  {
    var f := TxBase(tx);
    QuantityFieldOf(f, "nonce", tx.nonce);
    QuantityFieldOf(f, "gas", tx.gas);
    QuantityFieldOf(f, "type", tx.txType);
    QuantityFieldOf(f, "v", tx.v);
  }

  /** A transaction's hash, addresses and input are written as hex that decodes back to them. */
  lemma TxBaseData(tx: Transaction)
    ensures var f := TxBase(tx);
      && DataField(f, "hash", tx.hash) && DataField(f, "from", tx.from) && DataField(f, "to", tx.to)
      && DataField(f, "input", tx.input)
  {
    var f := TxBase(tx);
    DataFieldOf(f, "hash", tx.hash);
    DataFieldOf(f, "from", tx.from);
    DataFieldOf(f, "to", tx.to);
    DataFieldOf(f, "input", tx.input);
  }

  /** A transaction's value, gas price and signature values are written as hex that decodes back to them. */
  lemma TxBaseAmounts(tx: Transaction)
    ensures var f := TxBase(tx);
      && DataField(f, "value", tx.value) && DataField(f, "gasPrice", tx.gasPrice)
      && DataField(f, "r", tx.r) && DataField(f, "s", tx.s)
  {
    var f := TxBase(tx);
    DataFieldOf(f, "value", tx.value);
    DataFieldOf(f, "gasPrice", tx.gasPrice);
    DataFieldOf(f, "r", tx.r);
    DataFieldOf(f, "s", tx.s);
  }

  // ----- marshalLogs -----

  /** One encoded log. */
  function LogJson(l: Log): Json {
    JObj(map[
      "address" := JStr(DataHex(l.address)),
      "topics" := DataList(l.topics),
      "data" := JStr(DataHex(l.data)),
      "blockNumber" := JStr(QuantityHex(l.blockNumber)),
      "blockHash" := JStr(DataHex(l.blockHash)),
      "transactionHash" := JStr(DataHex(l.txHash)),
      "transactionIndex" := JStr(QuantityHex(l.txIndex)),
      "logIndex" := JStr(QuantityHex(l.logIndex)),
      "removed" := JBool(l.removed)])
  }

  /** marshalLogs as a value: one encoded log per log, in order. */
  function LogsJson(logs: seq<Log>): (j: Json)
    ensures j.JArr? && |j.items| == |logs|
    ensures forall i :: 0 <= i < |logs| ==> j.items[i] == LogJson(logs[i])
  {
    JArr(seq(|logs|, i requires 0 <= i < |logs| => LogJson(logs[i])))
  }

  /** One entry of marshalLogs: fills the topic slice, then builds the map. */
  method MarshalLog(l: Log) returns (j: Json)
    ensures j == LogJson(l)
  {
    var topics := DataStrings(l.topics);
    j := JObj(map[
      "address" := JStr(DataHex(l.address)),
      "topics" := topics,
      "data" := JStr(DataHex(l.data)),
      "blockNumber" := JStr(QuantityHex(l.blockNumber)),
      "blockHash" := JStr(DataHex(l.blockHash)),
      "transactionHash" := JStr(DataHex(l.txHash)),
      "transactionIndex" := JStr(QuantityHex(l.txIndex)),
      "logIndex" := JStr(QuantityHex(l.logIndex)),
      "removed" := JBool(l.removed)]);
  }

  /** marshalLogs: fills the result slice by index. */
  method MarshalLogs(logs: seq<Log>) returns (j: Json)
    ensures j == LogsJson(logs)
  {
    var result := new Json[|logs|](_ => JNull);
    ghost var spec := LogsJson(logs).items;
    for i := 0 to |logs|
      invariant result[..i] == spec[..i]
    {
      var obj := MarshalLog(logs[i]);
      result[i] := obj;
      assert result[..i+1] == result[..i] + [obj];
    }
    assert result[..] == result[..|logs|];
    j := JArr(result[..]);
  }

  /** An encoded log's numbers are written as hex that parses back to them. */
  lemma LogJsonQuantities(l: Log)
    ensures var f := LogJson(l).fields;
      && QuantityField(f, "blockNumber", l.blockNumber) && QuantityField(f, "transactionIndex", l.txIndex)
      && QuantityField(f, "logIndex", l.logIndex)
  {
    var f := LogJson(l).fields;
    QuantityFieldOf(f, "blockNumber", l.blockNumber);
    QuantityFieldOf(f, "transactionIndex", l.txIndex);
    QuantityFieldOf(f, "logIndex", l.logIndex);
  }

  /** An encoded log's address and data decode back, and its topics are listed in order. */
  lemma LogJsonData(l: Log)
    ensures var f := LogJson(l).fields;
      && f["topics"] == DataList(l.topics) && f["removed"] == JBool(l.removed)
      && DataField(f, "address", l.address) && DataField(f, "data", l.data)
  {
    var f := LogJson(l).fields;
    DataFieldOf(f, "address", l.address);
    DataFieldOf(f, "data", l.data);
  }

  /** An encoded log's block and transaction hashes decode back. */
  lemma LogJsonHashes(l: Log)
    ensures var f := LogJson(l).fields;
      DataField(f, "blockHash", l.blockHash) && DataField(f, "transactionHash", l.txHash)
  {
    var f := LogJson(l).fields;
    DataFieldOf(f, "blockHash", l.blockHash);
    DataFieldOf(f, "transactionHash", l.txHash);
  }

  // ----- marshalReceipt -----

  /** The fields marshalReceipt always writes, its logs encoded by marshalLogs. */
  function ReceiptBase(rc: Receipt): map<string, Json> {
    map[
      "transactionHash" := JStr(DataHex(rc.txHash)),
      "status" := JStr(QuantityHex(rc.status)),
      "cumulativeGasUsed" := JStr(QuantityHex(rc.cumulativeGasUsed)),
      "gasUsed" := JStr(QuantityHex(rc.gasUsed)),
      "blockNumber" := JStr(QuantityHex(rc.blockNumber)),
      "blockHash" := JStr(DataHex(rc.blockHash)),
      "transactionIndex" := JStr(QuantityHex(rc.transactionIndex)),
      "type" := JStr(QuantityHex(rc.receiptType)),
      "logs" := LogsJson(rc.logs)]
  }

  /** marshalReceipt: the fixed fields, and the contract address when present. */
  function ReceiptJson(rc: Receipt): Json {
    JObj(WithData(ReceiptBase(rc), "contractAddress", rc.contractAddress))
  }

  /** marshalReceipt: the fixed fields with the logs from marshalLogs, then the contract address when present. */
  method MarshalReceipt(rc: Receipt) returns (result: map<string, Json>)
    ensures JObj(result) == ReceiptJson(rc)
  {
    var logs := MarshalLogs(rc.logs);
    result := map[
      "transactionHash" := JStr(DataHex(rc.txHash)),
      "status" := JStr(QuantityHex(rc.status)),
      "cumulativeGasUsed" := JStr(QuantityHex(rc.cumulativeGasUsed)),
      "gasUsed" := JStr(QuantityHex(rc.gasUsed)),
      "blockNumber" := JStr(QuantityHex(rc.blockNumber)),
      "blockHash" := JStr(DataHex(rc.blockHash)),
      "transactionIndex" := JStr(QuantityHex(rc.transactionIndex)),
      "type" := JStr(QuantityHex(rc.receiptType)),
      "logs" := logs];
    if |rc.contractAddress| > 0 {
      result := result["contractAddress" := JStr(DataHex(rc.contractAddress))];
    }
  }

  /** An encoded receipt has contractAddress exactly when the receipt has one, and keeps every fixed field. */
  lemma ReceiptJsonContractAddress(rc: Receipt)
    ensures var f := ReceiptJson(rc).fields;
      && ("contractAddress" in f <==> |rc.contractAddress| > 0)
      && (|rc.contractAddress| > 0 ==> DataField(f, "contractAddress", rc.contractAddress))
      && forall k :: k in ReceiptBase(rc) ==> k in f && f[k] == ReceiptBase(rc)[k]
  {
    var f := ReceiptJson(rc).fields;
    assert "contractAddress" !in ReceiptBase(rc);
    if |rc.contractAddress| > 0 {
      DataFieldOf(f, "contractAddress", rc.contractAddress);
    }
  }

  /** A receipt's status and gas counters are written as hex that parses back to them. */
  lemma ReceiptBaseCounters(rc: Receipt)
    ensures var f := ReceiptBase(rc);
      && QuantityField(f, "status", rc.status) && QuantityField(f, "cumulativeGasUsed", rc.cumulativeGasUsed)
      && QuantityField(f, "gasUsed", rc.gasUsed)
  {
    var f := ReceiptBase(rc);
    QuantityFieldOf(f, "status", rc.status);
    QuantityFieldOf(f, "cumulativeGasUsed", rc.cumulativeGasUsed);
    QuantityFieldOf(f, "gasUsed", rc.gasUsed);
  }

  /** A receipt's position and type are written as hex that parses back to them. */
  lemma ReceiptBaseQuantities(rc: Receipt)
    ensures var f := ReceiptBase(rc);
      && QuantityField(f, "blockNumber", rc.blockNumber)
      && QuantityField(f, "transactionIndex", rc.transactionIndex) && QuantityField(f, "type", rc.receiptType)
  {
    var f := ReceiptBase(rc);
    QuantityFieldOf(f, "blockNumber", rc.blockNumber);
    QuantityFieldOf(f, "transactionIndex", rc.transactionIndex);
    QuantityFieldOf(f, "type", rc.receiptType);
  }

  /** A receipt's hashes decode back, and its logs are the marshalLogs encoding. */
  lemma ReceiptBaseData(rc: Receipt)
    ensures var f := ReceiptBase(rc);
      && f["logs"] == LogsJson(rc.logs)
      && DataField(f, "transactionHash", rc.txHash) && DataField(f, "blockHash", rc.blockHash)
  {
    var f := ReceiptBase(rc);
    DataFieldOf(f, "transactionHash", rc.txHash);
    DataFieldOf(f, "blockHash", rc.blockHash);
  }

  // ----- marshalBlock -----

  /** One encoded withdrawal. */
  function WithdrawalJson(w: Withdrawal): Json {
    JObj(map[
      "index" := JStr(QuantityHex(w.index)),
      "validatorIndex" := JStr(QuantityHex(w.validatorIndex)),
      "address" := JStr(DataHex(w.address)),
      "amount" := JStr(QuantityHex(w.amount))])
  }

  /** The block fields every encoding has; the three lists start out empty. */
  function BlockBase(h: BlockHeader): map<string, Json> {
    map[
      "number" := JStr(QuantityHex(h.number)),
      "hash" := JStr(DataHex(h.hash)),
      "parentHash" := JStr(DataHex(h.parentHash)),
      "stateRoot" := JStr(DataHex(h.stateRoot)),
      "receiptsRoot" := JStr(DataHex(h.receiptsRoot)),
      "logsBloom" := JStr(DataHex(h.logsBloom)),
      "miner" := JStr(DataHex(h.miner)),
      "gasLimit" := JStr(QuantityHex(h.gasLimit)),
      "gasUsed" := JStr(QuantityHex(h.gasUsed)),
      "timestamp" := JStr(QuantityHex(h.timestamp)),
      "mixHash" := JStr(DataHex(h.mixHashOrPrevRandao)),
      "baseFeePerGas" := JStr(DataHex(h.baseFee)),
      "extraData" := JStr(DataHex(h.extraData)),
      "transactions" := JArr([]),
      "uncles" := JArr([]),
      "withdrawals" := JArr([])]
  }

  /** The full transaction objects, in order. */
  function TxObjects(txs: seq<Transaction>): (j: Json)
    ensures j.JArr? && |j.items| == |txs|
    ensures forall i :: 0 <= i < |txs| ==> j.items[i] == TxJson(txs[i])
  {
    JArr(seq(|txs|, i requires 0 <= i < |txs| => TxJson(txs[i])))
  }

  /** The transaction hashes as DATA, in order. */
  function TxHashes(txs: seq<Transaction>): (j: Json)
    ensures j.JArr? && |j.items| == |txs|
    ensures forall i :: 0 <= i < |txs| ==> j.items[i] == JStr(DataHex(txs[i].hash))
  {
    JArr(seq(|txs|, i requires 0 <= i < |txs| => JStr(DataHex(txs[i].hash))))
  }

  /** The "transactions" list: full objects or hashes. */
  function TransactionsJson(txs: seq<Transaction>, full: bool): Json {
    if full then TxObjects(txs) else TxHashes(txs)
  }

  /** The encoded withdrawals: one object per withdrawal, in order. */
  function WithdrawalsJson(ws: seq<Withdrawal>): (j: Json)
    ensures j.JArr? && |j.items| == |ws|
    ensures forall i :: 0 <= i < |ws| ==> j.items[i] == WithdrawalJson(ws[i])
  {
    JArr(seq(|ws|, i requires 0 <= i < |ws| => WithdrawalJson(ws[i])))
  }

  /**
   * marshalBlock as a value: the base fields, the blob-gas fields only when
   * non-empty, and the withdrawals, transactions and uncles lists replacing
   * the empty ones when the block has any.
   */
  function BlockJson(b: Block, full: bool): Json {
    JObj(WithBlockOptionals(BlockBase(b.header), b, full))
  }

  /** The fields marshalBlock sets or replaces only when the block has them, added to `m0`. */
  function WithBlockOptionals(m0: map<string, Json>, b: Block, full: bool): map<string, Json> {
    var m1 := WithData(m0, "blobGasUsed", b.blobGasUsed);
    var m2 := WithData(m1, "excessBlobGas", b.excessBlobGas);
    var m3 := if |b.withdrawals| > 0 then m2["withdrawals" := WithdrawalsJson(b.withdrawals)] else m2;
    var m4 := if |b.transactions| > 0 then m3["transactions" := TransactionsJson(b.transactions, full)] else m3;
    if |b.ommers| > 0 then m4["uncles" := DataList(b.ommers)] else m4
  }

  /** Fills the withdrawals slice. */
  method MarshalWithdrawals(ws: seq<Withdrawal>) returns (j: Json)
    ensures j == WithdrawalsJson(ws)
  {
    var list := new Json[|ws|](_ => JNull);
    for i := 0 to |ws|
      invariant forall k :: 0 <= k < i ==> list[k] == WithdrawalJson(ws[k])
    {
      list[i] := JObj(map[
        "index" := JStr(QuantityHex(ws[i].index)),
        "validatorIndex" := JStr(QuantityHex(ws[i].validatorIndex)),
        "address" := JStr(DataHex(ws[i].address)),
        "amount" := JStr(QuantityHex(ws[i].amount))]);
    }
    j := JArr(list[..]);
  }

  /** Fills the transactions slice with full transaction objects. */
  method MarshalTxObjects(txs: seq<Transaction>) returns (j: Json)
    ensures j == TxObjects(txs)
  {
    var list := new Json[|txs|](_ => JNull);
    ghost var spec := TxObjects(txs).items;
    for i := 0 to |txs|
      invariant list[..i] == spec[..i]
    {
      var obj := MarshalTxObject(txs[i]);
      list[i] := obj;
      assert list[..i+1] == list[..i] + [obj];
    }
    assert list[..] == list[..|txs|];
    j := JArr(list[..]);
  }

  /** One transaction object of the transactions slice. */
  method MarshalTxObject(tx: Transaction) returns (j: Json)
    ensures j == TxJson(tx)
  {
    var m := MarshalTx(tx);
    j := JObj(m);
  }

  /** Fills the transactions slice with transaction hashes. */
  method MarshalTxHashes(txs: seq<Transaction>) returns (j: Json)
    ensures j == TxHashes(txs)
  {
    var list := new Json[|txs|](_ => JNull);
    for i := 0 to |txs|
      invariant forall k :: 0 <= k < i ==> list[k] == JStr(DataHex(txs[k].hash))
    {
      list[i] := JStr(DataHex(txs[i].hash));
    }
    j := JArr(list[..]);
  }

  /** marshalBlock: builds the base map, then adds or replaces the optional fields and lists. */
  method MarshalBlock(b: Block, full: bool) returns (result: map<string, Json>)
    ensures JObj(result) == BlockJson(b, full)
  {
    result := BlockBase(b.header);
    if |b.blobGasUsed| > 0 {
      result := result["blobGasUsed" := JStr(DataHex(b.blobGasUsed))];
    }
    if |b.excessBlobGas| > 0 {
      result := result["excessBlobGas" := JStr(DataHex(b.excessBlobGas))];
    }
    if |b.withdrawals| > 0 {
      var withdrawals := MarshalWithdrawals(b.withdrawals);
      result := result["withdrawals" := withdrawals];
    }
    if full && |b.transactions| > 0 {
      var txs := MarshalTxObjects(b.transactions);
      result := result["transactions" := txs];
    } else if |b.transactions| > 0 {
      var hashes := MarshalTxHashes(b.transactions);
      result := result["transactions" := hashes];
    }
    if |b.ommers| > 0 {
      var uncles := DataStrings(b.ommers);
      result := result["uncles" := uncles];
    }
  }

  /** The blob-gas fields appear exactly when non-empty, and then decode back. */
  lemma BlockJsonBlobFields(b: Block, full: bool)
    ensures var f := BlockJson(b, full).fields;
      && ("blobGasUsed" in f <==> |b.blobGasUsed| > 0)
      && ("excessBlobGas" in f <==> |b.excessBlobGas| > 0)
      && (|b.blobGasUsed| > 0 ==> DataField(f, "blobGasUsed", b.blobGasUsed))
      && (|b.excessBlobGas| > 0 ==> DataField(f, "excessBlobGas", b.excessBlobGas))
  {
    var base := BlockBase(b.header);
    assert "blobGasUsed" !in base && "excessBlobGas" !in base;
    WithBlockBlobFields(base, b, full);
  }

  /** Over a map without the blob-gas keys, each is added exactly when its field is non-empty, as DATA. */
  lemma WithBlockBlobFields(m: map<string, Json>, b: Block, full: bool)
    requires "blobGasUsed" !in m && "excessBlobGas" !in m
    ensures var f := WithBlockOptionals(m, b, full);
      && ("blobGasUsed" in f <==> |b.blobGasUsed| > 0)
      && ("excessBlobGas" in f <==> |b.excessBlobGas| > 0)
      && (|b.blobGasUsed| > 0 ==> DataField(f, "blobGasUsed", b.blobGasUsed))
      && (|b.excessBlobGas| > 0 ==> DataField(f, "excessBlobGas", b.excessBlobGas))
  {
    var f := WithBlockOptionals(m, b, full);
    if |b.blobGasUsed| > 0 {
      DataFieldOf(f, "blobGasUsed", b.blobGasUsed);
    }
    if |b.excessBlobGas| > 0 {
      DataFieldOf(f, "excessBlobGas", b.excessBlobGas);
    }
  }

  /**
   * Nothing marshalBlock adds replaces a header field: every base field
   * other than the three lists is in the encoding unchanged.
   */
  lemma BlockJsonKeepsBase(b: Block, full: bool)
    ensures var f := BlockJson(b, full).fields; var base := BlockBase(b.header);
      forall k :: k in base && k !in {"transactions", "uncles", "withdrawals"} ==> k in f && f[k] == base[k]
    ensures BlockBase(b.header).Keys <= BlockJson(b, full).fields.Keys
  {
    var base := BlockBase(b.header);
    assert "blobGasUsed" !in base && "excessBlobGas" !in base;
    WithBlockOptionalsKeeps(base, b, full);
  }

  /** Adding the block's optional fields keeps every key, and the value of every key it does not set. */
  lemma WithBlockOptionalsKeeps(m: map<string, Json>, b: Block, full: bool)
    ensures var r := WithBlockOptionals(m, b, full);
      forall k :: k in m ==> k in r && (k !in OptionalBlockKeys ==> r[k] == m[k])
  {
  }

  /** The keys marshalBlock sets or replaces depending on the block. */
  const OptionalBlockKeys: set<string> := {"blobGasUsed", "excessBlobGas", "withdrawals", "transactions", "uncles"}

  /** The block number and gas limit are canonical hex ("0x0" for zero) that parses back to them. */
  lemma BlockBaseQuantities(h: BlockHeader)
    ensures var f := BlockBase(h);
      QuantityField(f, "number", h.number) && QuantityField(f, "gasLimit", h.gasLimit)
    ensures h.number == 0 ==> BlockBase(h)["number"] == JStr("0x0")
  {
    var f := BlockBase(h);
    QuantityFieldOf(f, "number", h.number);
    QuantityFieldOf(f, "gasLimit", h.gasLimit);
    QuantityHexCanonical(h.number);
  }

  /** The gas used and the timestamp are hex that parses back to them. */
  lemma BlockBaseUsage(h: BlockHeader)
    ensures var f := BlockBase(h);
      QuantityField(f, "gasUsed", h.gasUsed) && QuantityField(f, "timestamp", h.timestamp)
  {
    var f := BlockBase(h);
    QuantityFieldOf(f, "gasUsed", h.gasUsed);
    QuantityFieldOf(f, "timestamp", h.timestamp);
  }

  /** The header's hashes and bloom are written as hex that decodes back to them. */
  lemma BlockBaseHashes(h: BlockHeader)
    ensures var f := BlockBase(h);
      && DataField(f, "hash", h.hash) && DataField(f, "parentHash", h.parentHash)
      && DataField(f, "stateRoot", h.stateRoot) && DataField(f, "receiptsRoot", h.receiptsRoot)
      && DataField(f, "logsBloom", h.logsBloom)
  {
    var f := BlockBase(h);
    DataFieldOf(f, "hash", h.hash);
    DataFieldOf(f, "parentHash", h.parentHash);
    DataFieldOf(f, "stateRoot", h.stateRoot);
    DataFieldOf(f, "receiptsRoot", h.receiptsRoot);
    DataFieldOf(f, "logsBloom", h.logsBloom);
  }

  /** The header's other byte fields are written as hex that decodes back to them. */
  lemma BlockBaseData(h: BlockHeader)
    ensures var f := BlockBase(h);
      && DataField(f, "miner", h.miner)
      && DataField(f, "mixHash", h.mixHashOrPrevRandao) && DataField(f, "baseFeePerGas", h.baseFee)
      && DataField(f, "extraData", h.extraData)
  {
    var f := BlockBase(h);
    DataFieldOf(f, "miner", h.miner);
    DataFieldOf(f, "mixHash", h.mixHashOrPrevRandao);
    DataFieldOf(f, "baseFeePerGas", h.baseFee);
    DataFieldOf(f, "extraData", h.extraData);
  }

  /**
   * "transactions" has one entry per transaction and is empty when there
   * are none: the transaction objects when full is set, their hashes
   * otherwise.
   */
  lemma BlockJsonTransactions(b: Block, full: bool)
    ensures var f := BlockJson(b, full).fields; var txs := b.transactions;
      && f["transactions"].JArr? && |f["transactions"].items| == |txs|
      && (full ==> forall i :: 0 <= i < |txs| ==> f["transactions"].items[i] == TxJson(txs[i]))
      && (!full ==> forall i :: 0 <= i < |txs| ==> f["transactions"].items[i] == JStr(DataHex(txs[i].hash)))
  {
  }

  /** "uncles" lists the ommer hashes and "withdrawals" has one object per withdrawal, both empty when there are none. */
  lemma BlockJsonUnclesAndWithdrawals(b: Block, full: bool)
    ensures var f := BlockJson(b, full).fields;
      && f["uncles"] == DataList(b.ommers)
      && f["withdrawals"] == WithdrawalsJson(b.withdrawals)
  {
    var base := BlockBase(b.header);
    assert base["uncles"] == JArr([]) && base["withdrawals"] == JArr([]);
    WithBlockLists(base, b, full);
  }

  /** Over a map whose "uncles" and "withdrawals" are empty lists, both end up as the block's lists. */
  lemma WithBlockLists(m: map<string, Json>, b: Block, full: bool)
    requires "uncles" in m && m["uncles"] == JArr([])
    requires "withdrawals" in m && m["withdrawals"] == JArr([])
    ensures var f := WithBlockOptionals(m, b, full);
      && f["uncles"] == DataList(b.ommers)
      && f["withdrawals"] == WithdrawalsJson(b.withdrawals)
  {
    if |b.ommers| == 0 {
      assert DataList(b.ommers).items == [];
    }
    if |b.withdrawals| == 0 {
      assert WithdrawalsJson(b.withdrawals).items == [];
    }
  }
}
