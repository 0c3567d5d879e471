/**
 * The codecs of the older dispatcher generation, written against
 * backend.Backend: toFilterQuery keeps whole topic sets as strings, and
 * marshalBlock, marshalTx and marshalLogs pass hashes and addresses
 * through as the strings the backend gave.
 */
module RpcCodec {
  import opened Wrappers
  import opened Json
  import opened BigInt
  import opened Dispatch
  import opened RpcBackend

  // ----- toFilterQuery -----

  /** One topic position: every alternative of a list (a non-string as ""), a single string, or nothing. */
  function TopicSet(v: Json): (r: seq<string>)
    ensures v.JArr? ==> |r| == |v.items| && forall j :: 0 <= j < |r| ==> r[j] == MustString(v.items[j])
    ensures v.JStr? ==> r == [v.s]
    ensures !v.JArr? && !v.JStr? ==> r == []
  {
    if v.JArr? then seq(|v.items|, j requires 0 <= j < |v.items| => MustString(v.items[j]))
    else if v.JStr? then [v.s]
    else []
  }

  /** The "address" field: read only when it is a list, a non-string element giving "". */
  function AddressStrings(v: Json): (r: seq<string>)
    ensures v.JArr? ==> |r| == |v.items| && forall i :: 0 <= i < |r| ==> r[i] == MustString(v.items[i])
    ensures !v.JArr? ==> r == []
  {
    if v.JArr? then seq(|v.items|, i requires 0 <= i < |v.items| => MustString(v.items[i])) else []
  }

  /** The "topics" field: read only when it is a list, one topic set per position. */
  function TopicSets(v: Json): (r: seq<seq<string>>)
    ensures v.JArr? ==> |r| == |v.items| && forall i :: 0 <= i < |r| ==> r[i] == TopicSet(v.items[i])
    ensures !v.JArr? ==> r == []
  {
    if v.JArr? then seq(|v.items|, i requires 0 <= i < |v.items| => TopicSet(v.items[i])) else []
  }

  /** toFilterQuery as a value: an object gives the block range, addresses and topic sets; anything else fails. */
  function FilterQueryOf(p: Json): (r: Result<FilterQuery, Failure>)
    ensures r.Err? <==> !p.JObj?
    ensures r.Err? ==> r.error == InvalidFilterObject
  {
    if !p.JObj? then Err(InvalidFilterObject)
    else
      var obj := p.fields;
      Ok(FilterQuery(
        PrefixedBig(Field(obj, "fromBlock")),
        PrefixedBig(Field(obj, "toBlock")),
        AddressStrings(Field(obj, "address")),
        TopicSets(Field(obj, "topics"))))
  }

  /** The address loop: one slot per element, set only when the element is a string. */
  method FillAddresses(items: seq<Json>) returns (r: seq<string>)
    ensures r == AddressStrings(JArr(items))
  {
    var buf := new string[|items|](_ => "");
    for i := 0 to |items|
      invariant forall k :: 0 <= k < i ==> buf[k] == MustString(items[k])
      invariant forall k :: i <= k < |items| ==> buf[k] == ""
    {
      if items[i].JStr? {
        buf[i] := items[i].s;
      }
    }
    r := buf[..];
  }

  /** The inner topic loop: one slot per alternative, set only when it is a string. */
  method FillAlternatives(alts: seq<Json>) returns (r: seq<string>)
    ensures r == TopicSet(JArr(alts))
  {
    var buf := new string[|alts|](_ => "");
    for j := 0 to |alts|
      invariant forall k :: 0 <= k < j ==> buf[k] == MustString(alts[k])
      invariant forall k :: j <= k < |alts| ==> buf[k] == ""
    {
      if alts[j].JStr? {
        buf[j] := alts[j].s;
      }
    }
    r := buf[..];
  }

  /** The outer topic loop: a list position gets its alternatives, a string position a singleton. */
  method FillTopics(items: seq<Json>) returns (r: seq<seq<string>>)
    ensures r == TopicSets(JArr(items))
  {
    var buf := new seq<string>[|items|](_ => []);
    for i := 0 to |items|
      invariant forall k :: 0 <= k < i ==> buf[k] == TopicSet(items[k])
      invariant forall k :: i <= k < |items| ==> buf[k] == []
    {
      var topic := items[i];
      if topic.JArr? {
        var alts := FillAlternatives(topic.items);
        buf[i] := alts;
      } else if topic.JStr? {
        buf[i] := [topic.s];
      }
    }
    r := buf[..];
  }

  /** toFilterQuery: sets the block range, then fills the address and topic slices. */
  method ToFilterQuery(p: Json) returns (r: Result<FilterQuery, Failure>)
    ensures r == FilterQueryOf(p)
  {
    if !p.JObj? {
      return Err(InvalidFilterObject);
    }
    var obj := p.fields;
    var fromBlock, toBlock := Nil, Nil;
    var f := Field(obj, "fromBlock");
    if f.JStr? && Strs.HasPrefix(f.s, "0x") {
      fromBlock := NewFromHex(f.s[2..]);
    }
    var t := Field(obj, "toBlock");
    if t.JStr? && Strs.HasPrefix(t.s, "0x") {
      toBlock := NewFromHex(t.s[2..]);
    }
    var addresses: seq<string> := [];
    var a := Field(obj, "address");
    if a.JArr? {
      addresses := FillAddresses(a.items);
    }
    var topics: seq<seq<string>> := [];
    var ts := Field(obj, "topics");
    if ts.JArr? {
      topics := FillTopics(ts.items);
    }
    assert addresses == AddressStrings(a);
    assert topics == TopicSets(ts);
    return Ok(FilterQuery(fromBlock, toBlock, addresses, topics));
  }

  /**
   * Topic sets are kept whole: every position of a topics list keeps all
   * of its alternatives in order (a non-string alternative as ""), a string
   * position becomes a singleton, and a position that is neither matches
   * nothing; a topics field that is not a list gives no positions.
   */
  lemma TopicSetsKeepAlternatives(obj: map<string, Json>)
    ensures !Field(obj, "topics").JArr? ==> FilterQueryOf(JObj(obj)).value.topics == []
    ensures var q := FilterQueryOf(JObj(obj)).value; var v := Field(obj, "topics");
      v.JArr? ==> (|q.topics| == |v.items| && forall i :: 0 <= i < |v.items| ==> TopicPosition(v.items[i], q.topics[i]))
  {
  }

  /** What one position of a topics list gives: its alternatives in order, a singleton, or nothing. */
  ghost predicate TopicPosition(entry: Json, alts: seq<string>) {
    && (entry.JArr? ==> (|alts| == |entry.items| && forall j :: 0 <= j < |entry.items| ==> alts[j] == MustString(entry.items[j])))
    && (entry.JStr? ==> alts == [entry.s])
    && (!entry.JArr? && !entry.JStr? ==> alts == [])
  }

  /** An address list keeps its length, with "" in place of every element that is not a string; a non-list gives none. */
  lemma AddressesKeepPositions(obj: map<string, Json>)
    ensures !Field(obj, "address").JArr? ==> FilterQueryOf(JObj(obj)).value.addresses == []
    ensures var q := FilterQueryOf(JObj(obj)).value; var v := Field(obj, "address");
      v.JArr? ==> (|q.addresses| == |v.items|
                   && forall i :: 0 <= i < |v.items| ==> q.addresses[i] == (if v.items[i].JStr? then v.items[i].s else ""))
  {
  }

  // ----- marshalTx, marshalBlock, marshalLogs -----

  /** marshalTx: hashes and addresses as given, the input as DATA, the amounts as QUANTITY. */
  function TxJson(tx: Tx): Json {
    JObj(map[
      "hash" := JStr(tx.hash),
      "from" := JStr(tx.from),
      "to" := JStr(tx.to),
      "input" := JStr(DataHex(tx.input)),
      "value" := JStr(QuantityHex(tx.value)),
      "nonce" := JStr(QuantityHex(tx.nonce)),
      "gas" := JStr(QuantityHex(tx.gas)),
      "gasPrice" := JStr(QuantityHex(tx.gasPrice))])
  }

  /** The strings a transaction carries are passed through unchanged. */
  lemma TxJsonPassthrough(tx: Tx)
    ensures var f := TxJson(tx).fields;
      f["hash"] == JStr(tx.hash) && f["from"] == JStr(tx.from) && f["to"] == JStr(tx.to)
  {
  }

  /** A transaction's input decodes back to its bytes, and its nonce parses back. */
  lemma TxJsonInputNonce(tx: Tx)
    ensures var f := TxJson(tx).fields;
      DataField(f, "input", tx.input) && QuantityField(f, "nonce", tx.nonce)
  {
    var f := TxJson(tx).fields;
    DataFieldOf(f, "input", tx.input);
    QuantityFieldOf(f, "nonce", tx.nonce);
  }

  /** The amounts of a transaction are written as hex that parses back to them, negative or not. */
  lemma TxJsonAmounts(tx: Tx)
    ensures var f := TxJson(tx).fields;
      && SetString16(f["value"].s[2..]) == Some(tx.value)
      && SetString16(f["gas"].s[2..]) == Some(tx.gas)
      && SetString16(f["gasPrice"].s[2..]) == Some(tx.gasPrice)
  {
    Text16RoundTrip(tx.value);
    Text16RoundTrip(tx.gas);
    Text16RoundTrip(tx.gasPrice);
  }

  /** The transaction objects of a block, in order. */
  function TxObjects(txs: seq<Tx>): (j: Json)
    ensures j.JArr? && |j.items| == |txs|
    ensures forall i :: 0 <= i < |txs| ==> j.items[i] == TxJson(txs[i])
  {
    JArr(seq(|txs|, i requires 0 <= i < |txs| => TxJson(txs[i])))
  }

  /** The transaction hashes of a block, as the strings the backend gave, in order. */
  function TxHashes(txs: seq<Tx>): (j: Json)
    ensures j.JArr? && |j.items| == |txs|
    ensures forall i :: 0 <= i < |txs| ==> j.items[i] == JStr(txs[i].hash)
  {
    JArr(seq(|txs|, i requires 0 <= i < |txs| => JStr(txs[i].hash)))
  }

  /** marshalBlock: number and timestamp as QUANTITY, hashes as given, and the transactions list. */
  function BlockJson(b: Block, full: bool): Json {
    var base := map[
      "number" := JStr(QuantityHex(b.number)),
      "hash" := JStr(b.hash),
      "parentHash" := JStr(b.parentHash),
      "timestamp" := JStr(QuantityHex(b.timestamp)),
      "transactions" := JArr([])];
    JObj(
      if full && |b.transactions| > 0 then base["transactions" := TxObjects(b.transactions)]
      else if |b.transactions| > 0 then base["transactions" := TxHashes(b.transactions)]
      else base)
  }

  /** Fills the transactions slice with transaction objects. */
  method MarshalTxObjects(txs: seq<Tx>) returns (j: Json)
    ensures j == TxObjects(txs)
  {
    var list := new Json[|txs|](_ => JNull);
    ghost var spec := TxObjects(txs).items;
    for i := 0 to |txs|
      invariant list[..i] == spec[..i]
    {
      var obj := TxJson(txs[i]);
      list[i] := obj;
      assert list[..i+1] == list[..i] + [obj];
    }
    assert list[..] == list[..|txs|];
    j := JArr(list[..]);
  }

  /** Fills the transactions slice with transaction hashes. */
  method MarshalTxHashes(txs: seq<Tx>) returns (j: Json)
    ensures j == TxHashes(txs)
  {
    var list := new Json[|txs|](_ => JNull);
    for i := 0 to |txs|
      invariant forall k :: 0 <= k < i ==> list[k] == JStr(txs[k].hash)
    {
      list[i] := JStr(txs[i].hash);
    }
    j := JArr(list[..]);
  }

  /** marshalBlock: the fixed fields, then the transactions slice replaced when there are any. */
  method MarshalBlock(b: Block, full: bool) returns (result: map<string, Json>)
    ensures JObj(result) == BlockJson(b, full)
  {
    result := map[
      "number" := JStr(QuantityHex(b.number)),
      "hash" := JStr(b.hash),
      "parentHash" := JStr(b.parentHash),
      "timestamp" := JStr(QuantityHex(b.timestamp)),
      "transactions" := JArr([])];
    if full && |b.transactions| > 0 {
      var txs := MarshalTxObjects(b.transactions);
      result := result["transactions" := txs];
    } else if |b.transactions| > 0 {
      var hashes := MarshalTxHashes(b.transactions);
      result := result["transactions" := hashes];
    }
  }

  /**
   * An encoded block passes its hashes through, always has a transactions
   * list with one entry per transaction (objects when full, the hash
   * strings otherwise), and its number and timestamp parse back.
   */
  lemma BlockJsonShape(b: Block, full: bool)
    ensures var f := BlockJson(b, full).fields;
      && f["hash"] == JStr(b.hash) && f["parentHash"] == JStr(b.parentHash)
      && f["transactions"].JArr? && |f["transactions"].items| == |b.transactions|
      && (full ==> forall i :: 0 <= i < |b.transactions| ==> f["transactions"].items[i] == TxJson(b.transactions[i]))
      && (!full ==> forall i :: 0 <= i < |b.transactions| ==> f["transactions"].items[i] == JStr(b.transactions[i].hash))
  {
  }

  /** The number and timestamp of an encoded block are hex that parses back to them. */
  lemma BlockJsonNumbers(b: Block, full: bool)
    ensures var f := BlockJson(b, full).fields;
      && SetString16(f["number"].s[2..]) == Some(b.number)
      && QuantityField(f, "timestamp", b.timestamp)
  {
    Text16RoundTrip(b.number);
    QuantityFieldOf(BlockJson(b, full).fields, "timestamp", b.timestamp);
  }

  /** One encoded log: address, topics and transaction hash as given, data as DATA, numbers as QUANTITY. */
  function LogJson(l: Log): Json {
    JObj(map[
      "address" := JStr(l.address),
      "topics" := JArr(seq(|l.topics|, i requires 0 <= i < |l.topics| => JStr(l.topics[i]))),
      "data" := JStr(DataHex(l.data)),
      "blockNumber" := JStr(QuantityHex(l.blockNumber)),
      "transactionHash" := JStr(l.txHash),
      "logIndex" := JStr(QuantityHex(l.logIndex))])
  }

  /** marshalLogs: one object per log, in order. */
  function LogsJson(logs: seq<Log>): (j: Json)
    ensures j.JArr? && |j.items| == |logs|
    ensures forall i :: 0 <= i < |logs| ==> j.items[i] == LogJson(logs[i])
  {
    JArr(seq(|logs|, i requires 0 <= i < |logs| => LogJson(logs[i])))
  }

  /** marshalLogs: fills a slice with one map per log. */
  method MarshalLogs(logs: seq<Log>) returns (j: Json)
    ensures j == LogsJson(logs)
  {
    var list := new Json[|logs|](_ => JNull);
    ghost var spec := LogsJson(logs).items;
    for i := 0 to |logs|
      invariant list[..i] == spec[..i]
    {
      var obj := LogJson(logs[i]);
      list[i] := obj;
      assert list[..i+1] == list[..i] + [obj];
    }
    assert list[..] == list[..|logs|];
    j := JArr(list[..]);
  }

  /** An encoded log passes its strings through and its data and log index decode back. */
  lemma LogJsonPassthrough(l: Log)
    ensures var f := LogJson(l).fields;
      && f["address"] == JStr(l.address) && f["transactionHash"] == JStr(l.txHash)
      && f["topics"].JArr? && |f["topics"].items| == |l.topics|
      && (forall i :: 0 <= i < |l.topics| ==> f["topics"].items[i] == JStr(l.topics[i]))
      && DataField(f, "data", l.data) && QuantityField(f, "logIndex", l.logIndex)
      && SetString16(f["blockNumber"].s[2..]) == Some(l.blockNumber)
  {
    var f := LogJson(l).fields;
    DataFieldOf(f, "data", l.data);
    QuantityFieldOf(f, "logIndex", l.logIndex);
    Text16RoundTrip(l.blockNumber);
  }
}
