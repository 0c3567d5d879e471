# geth-facade JSON-RPC core in Dafny

This project models the request-handling core of geth-facade, a server that
answers Ethereum JSON-RPC calls on behalf of a pluggable backend. The
repository has two generations of that core, and both are modelled:

- `Services/*` talks to `Types.Backend`, where hashes, addresses and amounts
  are byte slices;
- `rpc/*` talks to `backend.Backend`, where hashes and addresses are strings.

What is modelled:

- **Envelope** (`envelope.dfy`): `Request`, `Response`, `Error`, the
  constructors `RespOK`/`RespErr`, the error codes of section 5.1 of the
  JSON-RPC 2.0 specification, and the object encoding/json writes for a
  response under its `omitempty` tags.
- **Shared helpers** (`dispatch.dfy`): `finish`, `invalidParams`,
  `mustString`, `parseBlockTag` and `toCallMsg`. The two generations have
  the same text for these, so they are defined once. This file also holds the
  QUANTITY and DATA hex encodings of the Ethereum JSON-RPC API and the Go
  error texts.
- **Go library behaviour** the handlers rely on:
  - `encoding/hex` (`hex.dfy`): decoding keeps the bytes decoded before the
    first error, and the error texts are Go's.
  - `math/big` (`bigint.dfy`): `Text(16)`, `String`, `SetString(s, 16)`,
    `Uint64`, and the `int64` conversion of a `uint64`.
  - `strings` (`strs.dfy`).
- **Newer dispatcher** (`services_handlers.dfy`, `services_codec.dfy`):
  - the `Handle` switch, 30 cases and a default, over an oracle backend;
  - `parseHexUint64` and `toFilterQuery` (a topic list keeps only its first
    alternative);
  - `marshalBlock`, `marshalTx`, `marshalLogs` and `marshalReceipt`.
- **Older dispatcher** (`rpc_handlers.dfy`, `rpc_codec.dfy`, `rpc_backend.dfy`):
  - the 13-case switch;
  - its `toFilterQuery`, which keeps every topic alternative;
  - its pass-through `marshalBlock`/`marshalTx`/`marshalLogs`.
- **WebSocket session** (`ws_session.dfy`, `ws_loop.dfy`, `services_ws.dfy`,
  `rpc_ws.dfy`):
  - the per-connection `subs` table as a class with a `map` field;
  - `storeSub`, the `eth_subscribe`/`eth_unsubscribe` branches and the read
    loop;
  - the three forwarders that turn a subscription's items into
    notifications.

  A trace of events records what the connection does, in order:
  stores, stop calls, deletions, socket writes and forwarder starts. From it,
  `Replies` gives the replies written and `StopCount` gives how often each
  stop handle was called.

Each imperative helper of the source is a method with loops over arrays or
step-by-step map updates. Each such method is proved equal to a function,
and the handlers and lemmas use that function. The backend is a datatype of
results: one per call, with arrow-typed fields for calls that take
arguments. A connection sees one such backend per frame, as that frame's
call finds it, so a height or a balance may move on between two frames. The
subscription id, which the code takes from the clock, is an input.

Where the repository's documentation and its code differ, the model follows the code:

- `eth_unsubscribe` always replies `true`.
- Only `"data"` of a call object is read.
- `"earliest"`, `"safe"` and `"finalized"` are rejected as block tags.
- `eth_estimateGas` writes `big.NewInt(int64(g))`, so an estimate of 2^63 or
  more comes out as a negative QUANTITY.
- The older generation's log notifications carry the protocol tag `"2.o"`.

## Model

| member | source | states |
|---|---|---|
| Envelope.RespOK | rpc/types.go:20 | protocol tag "2.0", result exactly the given value, no error, id unchanged |
| Envelope.RespErr | rpc/types.go:21-23 | protocol tag "2.0", error {code, message}, no result, id unchanged |
| Envelope.RespOKWire | rpc/types.go:9-14 | a success response is written with keys jsonrpc and id, plus result only when the value is non-nil (omitempty); it has exactly one of result/error iff the value is non-nil |
| Envelope.RespErrWire | rpc/types.go:9-23 | an error response is written with exactly the keys jsonrpc, error {code, message} and id, and has exactly one of result/error |
| Dispatch.Finish | Services/handlers.go:672-677 | echoes the id; exactly one of result/error; an error becomes -32000 with err.Error() and is handed back to Handle's caller, a value is wrapped by RespOK; finish itself never fails |
| Dispatch.InvalidParamsFor | Services/handlers.go:679-681 | -32602 with the given message, id echoed, no result, no Go error |
| Dispatch.NotFound | Services/handlers.go:648-651 | -32601 "Method not found", id echoed, no Go error |
| Dispatch.MustString | Services/handlers.go:683-686 | the string a param holds, "" for every other JSON value |
| Dispatch.FullFlag | Services/handlers.go:63-68 | the fullTx flag is true exactly when a second param exists and is the JSON value true |
| Dispatch.Lift | Services/handlers.go:29-31 | a backend result is passed on unchanged and its error text is kept |
| Dispatch.DataList | Services/handlers.go:860-867 | one DATA string per byte string, in order |
| Dispatch.QuantityHexCanonical | Services/handlers.go:805 | "0x" + Text(16) is a well-formed QUANTITY that parses back to n, and is "0x0" for zero |
| Dispatch.DataHexWellFormed | Services/handlers.go:806 | "0x" + EncodeToString(b) is well-formed DATA of length 2+2·|b| that decodes back to b without error |
| Dispatch.QuantityFieldOf | Services/handlers.go:805-814 | a field written as a QUANTITY meets QuantityField (present, "0x"-prefixed, parses back) |
| Dispatch.DataFieldOf | Services/handlers.go:806-817 | a field written as DATA meets DataField (present, "0x"-prefixed, decodes back) |
| Dispatch.ParseBlockTag | Services/handlers.go:655-670 | a successful parse never yields a nil *big.Int |
| Dispatch.ParseBlockTagAliases | Services/handlers.go:656-661 | "latest", "" and "pending", in any letter case, resolve to the backend's block number or its error; every case variant of "latest" and "pending" is an alias; the result for any other tag does not depend on the backend |
| Dispatch.ParseBlockTagHex | Services/handlers.go:663-666 | the tag "0x" + Text(16) of n parses to n |
| Dispatch.ParseBlockTagRejects | Services/handlers.go:662-668 | "unsupported block tag" exactly for tags that are neither an alias nor "0x"-prefixed, so "earliest", "safe", "finalized" and any "0X..." are rejected |
| Dispatch.ParseBlockTagHexTotal | rpc/handlers.go:240-245 | every "0x"-prefixed tag is accepted, with the value SetString leaves (undefined when the hex is malformed) |
| Dispatch.DecodeParam | Services/handlers.go:91-97 | a hash or address param decodes exactly when hex.DecodeString accepts it after the "0x" prefix is dropped, and then yields those bytes; otherwise the failure is hex.DecodeString's own error |
| Dispatch.DecodeParamRoundTrip | Services/handlers.go:91-97 | a DATA string decodes back to its bytes |
| Dispatch.PrefixedBig | Services/handlers.go:716-736 | a *big.Int field is set iff its value is a "0x"-prefixed string |
| Dispatch.ToCallMsg | Services/handlers.go:698-741 | fails with "invalid call object" exactly when the param is not an object |
| Dispatch.BuildCallMsg | Services/handlers.go:698-741 | the field-by-field construction equals ToCallMsg |
| Dispatch.DecodeCallData | Services/handlers.go:709-715 | the data branch drops "0x" when present and keeps whatever decodes |
| Dispatch.ReadBig | Services/handlers.go:716-736 | a *big.Int field is replaced only by a "0x"-prefixed string, otherwise it keeps its value |
| Dispatch.ToCallMsgIgnoresInput | Services/handlers.go:698-741 | adding an "input" field never changes the call message |
| Dispatch.CallDataRoundTrip | Services/handlers.go:709-715 | data written as DATA, with or without "0x", decodes back to its bytes |
| Dispatch.CallDataKeepsPrefix | Services/handlers.go:709-715 | malformed hex after valid data never fails the call: the bytes before the error are kept |
| Dispatch.EncodingUnprefixed | Services/handlers.go:710-714 | hex.EncodeToString never starts with "0x", so the unprefixed branch reads it whole |
| Dispatch.ToCallMsgData | Services/handlers.go:709-715 | the data field goes through CallData and never makes toCallMsg fail |
| Dispatch.ToCallMsgAmounts | Services/handlers.go:716-736 | value, gas and gasPrice are non-nil iff given as "0x" strings, and a QUANTITY gives its number |
| Hex.FromHexChar | Services/handlers.go:92 | a character is a hex digit, in either case, exactly when it has a value, and that value is below 16 |
| Hex.DigitValue | Services/handlers.go:806 | every digit the encoder writes reads back as its value |
| Hex.DecodePair | Services/handlers.go:709-715 | two encoded digits in front of any text decode to their byte followed by what the text decodes to, with the text's error |
| Hex.EncodeToString | Services/handlers.go:806 | two lower-case hex digits per byte |
| Hex.DecodeString | Services/handlers.go:92 | never yields more than one byte per two characters |
| Hex.DecodeEncode | Services/handlers.go:806 | decoding an encoding gives the bytes back with no error |
| Hex.DecodeKeepsPrefix | Services/handlers.go:709-715 | decoding keeps the bytes of a well-formed prefix, whatever follows it |
| Hex.DecodeSucceeds | Services/handlers.go:766-769 | decoding succeeds iff the text is even-length hex, and then yields half as many bytes |
| BigInt.NatText | Services/handlers.go:805 | Text(base) of a natural number is a non-empty string of lower-case digits |
| BigInt.NewFromHex | Services/handlers.go:663-666 | new(big.Int) with SetString is never nil; it holds the parsed value iff SetString accepts the text |
| BigInt.DigitsValueOfText | Services/handlers.go:805 | the digits Text(16) writes read back as the number |
| BigInt.Text16RoundTrip | rpc/handlers.go:391-394 | SetString(Text(16)) is the identity on every integer, negative ones included |
| BigInt.NatTextCanonical | Services/handlers.go:805 | Text(16) has no leading zero, and zero is "0" |
| Strs.TrimPrefix | Services/handlers.go:689 | strings.TrimPrefix removes the prefix exactly when present |
| Strs.ToLower | Services/handlers.go:656 | strings.ToLower keeps the length for the runes it maps |
| Strs.ToLowerCases | Services/handlers.go:656 | every ASCII capital lowers to its small letter, U+0130 to 'i', U+212A to 'k', and every other character is kept |
| Strs.LowerCaseVariants | Services/handlers.go:656 | every letter-case variant of a lower-case ASCII word lowers to that word |
| ServicesHandlers.Handle | Services/handlers.go:22-652 | echoes the id; exactly one of result/error; a Go error is returned exactly when the response is -32000, with err.Error() as its message |
| ServicesHandlers.UnknownMethod | Services/handlers.go:648-651 | -32601 "Method not found" exactly for the names without a case |
| ServicesHandlers.ShortParamsRejected | Services/handlers.go:22-652 | too few params give -32602 with the method's own message |
| ServicesHandlers.ShortParamsIgnoreBackend | Services/handlers.go:22-652 | with too few params the backend is not consulted: any two backends give the same answer |
| ServicesHandlers.InvalidParamsOnlyWhenShort | Services/handlers.go:22-652 | -32602 is only ever the param-count check of a known method |
| ServicesHandlers.BlockNumberAnswer | Services/handlers.go:49-53 | eth_blockNumber answers the backend's height as a QUANTITY that parses back, or -32000 with the backend's error |
| ServicesHandlers.ChainIdAnswer | Services/handlers.go:38-48 | eth_chainId answers the chain id as a QUANTITY that parses back, or -32000 with the backend's error |
| ServicesHandlers.NetVersionDecimal | Services/handlers.go:33-37 | net_version answers the chain id in decimal |
| ServicesHandlers.GetBlockByNumberFlag | Services/handlers.go:55-84 | with an alias tag, the backend's block is encoded with full transactions iff params[1] is true |
| ServicesHandlers.CallWithoutTag | Services/handlers.go:114-143 | without a tag eth_call hands the backend a nil block number, answers its output as DATA, and never asks for the latest block |
| ServicesHandlers.EstimateGasAsInt64 | Services/handlers.go:145-165 | the estimate is written through int64: as is below 2^63, as "0x-" + its 64-bit complement from 2^63 on |
| ServicesHandlers.Int64QuantityText | Services/handlers.go:163 | the QUANTITY text of int64(g), in both ranges |
| ServicesHandlers.GetBalanceChecksAddress | Services/handlers.go:85-97 | an address that does not decode gives -32000 with the hex error text, and no backend call affects the answer |
| ServicesHandlers.HandleRuns | Services/handlers.go:22-652 | a known method given enough params answers with its body's outcome through finish |
| ServicesHandlers.IndexParamReachesBackend | Services/handlers.go:458-487 | the decoded hash and the parsed index reach the backend, and its transaction is encoded by marshalTx |
| ServicesHandlers.IndexBody | Services/handlers.go:458-487 | the body of the ...AndIndex case yields the encoded transaction once hash and index parse |
| ServicesHandlers.RunsIndexBody | Services/handlers.go:458-487 | the ...AndIndex case runs its own body |
| ServicesHandlers.IndexParsesBack | Services/handlers.go:688-696 | an index written as a QUANTITY parses back to itself |
| ServicesHandlers.SyncingNilMap | Services/handlers.go:511-520 | a nil syncing map is written as "result": null, and the key is present |
| ServicesCodec.ParseHexUint64 | Services/handlers.go:688-696 | fails with "invalid hex string" exactly when SetString rejects the text after "0x" is dropped |
| ServicesCodec.ParseHexUint64RoundTrip | Services/handlers.go:688-696 | inverts "0x" + Text(16) (and bare Text(16)) for every n < 2^64, and truncates larger n to 64 bits |
| ServicesCodec.ParseHexUint64Edges | Services/handlers.go:688-696 | "", "0x" and "0xg" are rejected; "0x-1" gives 1, the magnitude's low 64 bits |
| ServicesCodec.DecodedOrEmpty | Services/handlers.go:765-769 | a non-string entry stays empty |
| ServicesCodec.DecodedOrEmptyCases | Services/handlers.go:765-769 | a DATA entry decodes to its bytes; an undecodable or null entry stays empty |
| ServicesCodec.AddressList | Services/handlers.go:762-772 | one slot per element of a list, none otherwise |
| ServicesCodec.TopicList | Services/handlers.go:773-793 | one slot per topic position of a list, none otherwise |
| ServicesCodec.FilterQueryOf | Services/handlers.go:743-798 | fails with "invalid filter object" exactly when the param is not an object |
| ServicesCodec.DecodeAddresses | Services/handlers.go:762-772 | the address loop fills exactly AddressList |
| ServicesCodec.DecodeTopics | Services/handlers.go:773-793 | the topic loop fills exactly TopicList |
| ServicesCodec.ToFilterQuery | Services/handlers.go:743-798 | the field-by-field construction equals FilterQueryOf |
| ServicesCodec.FilterQueryShape | Services/handlers.go:743-798 | Topics and Addresses have one slot per list element and are read only from lists; BlockHash stays empty; a list entry contributes only its first alternative |
| ServicesCodec.TopicFirstAlternativeOnly | Services/handlers.go:775-791 | [[t, ...]] gives [t]; null and empty-list positions stay empty |
| ServicesCodec.DataStrings | Services/handlers.go:900-906 | the hash-list loop equals DataList |
| ServicesCodec.WithData | Services/handlers.go:888-899 | a byte field is added as DATA only when non-empty |
| ServicesCodec.AccessListJson | Services/handlers.go:909-922 | one object per access tuple, in order |
| ServicesCodec.MarshalAccessList | Services/handlers.go:909-922 | the access-list loop equals AccessListJson |
| ServicesCodec.MarshalTx | Services/handlers.go:872-925 | marshalTx's map equals TxJson |
| ServicesCodec.TxJsonOptionalKeys | Services/handlers.go:888-922 | each EIP-1559, EIP-4844 and EIP-2930 key is present iff the field is, with the encoded hashes and access list |
| ServicesCodec.WithTxOptionalsKeys | Services/handlers.go:888-922 | the same, for the optional keys added to any map lacking them |
| ServicesCodec.TxJsonKeepsBase | Services/handlers.go:873-886 | every fixed field survives the optional ones unchanged |
| ServicesCodec.TxBaseKeys | Services/handlers.go:873-886 | the fixed fields contain no optional key |
| ServicesCodec.WithTxOptionalsKeeps | Services/handlers.go:888-922 | adding optional fields keeps every other key and value |
| ServicesCodec.TxBaseQuantities | Services/handlers.go:879-885 | nonce, gas, type and v parse back |
| ServicesCodec.TxBaseData | Services/handlers.go:874-877 | hash, from, to and input decode back |
| ServicesCodec.TxBaseAmounts | Services/handlers.go:878-884 | value, gasPrice, r and s decode back |
| ServicesCodec.LogsJson | Services/handlers.go:927-948 | one encoded log per log, in order |
| ServicesCodec.MarshalLog | Services/handlers.go:930-945 | one iteration of marshalLogs equals LogJson |
| ServicesCodec.MarshalLogs | Services/handlers.go:927-948 | the loop equals LogsJson |
| ServicesCodec.LogJsonQuantities | Services/handlers.go:939-943 | blockNumber, transactionIndex and logIndex parse back |
| ServicesCodec.LogJsonData | Services/handlers.go:930-944 | address and data decode back; topics is the DATA list; removed is kept |
| ServicesCodec.LogJsonHashes | Services/handlers.go:940-941 | blockHash and transactionHash decode back |
| ServicesCodec.MarshalReceipt | Services/handlers.go:950-969 | marshalReceipt's map equals ReceiptJson |
| ServicesCodec.ReceiptJsonContractAddress | Services/handlers.go:963-966 | contractAddress is present iff non-empty and decodes back; the fixed fields are kept |
| ServicesCodec.ReceiptBaseCounters | Services/handlers.go:953-955 | status, cumulativeGasUsed and gasUsed parse back |
| ServicesCodec.ReceiptBaseQuantities | Services/handlers.go:956-959 | blockNumber, transactionIndex and type parse back |
| ServicesCodec.ReceiptBaseData | Services/handlers.go:952-960 | hashes decode back; logs is marshalLogs of the receipt's logs |
| ServicesCodec.TxObjects | Services/handlers.go:846-851 | one marshalTx object per transaction, in order |
| ServicesCodec.TxHashes | Services/handlers.go:852-858 | one DATA hash per transaction, in order |
| ServicesCodec.WithdrawalsJson | Services/handlers.go:832-843 | one object per withdrawal, in order |
| ServicesCodec.MarshalWithdrawals | Services/handlers.go:832-843 | the withdrawals loop equals WithdrawalsJson |
| ServicesCodec.MarshalTxObjects | Services/handlers.go:846-851 | the loop equals TxObjects |
| ServicesCodec.MarshalTxObject | Services/handlers.go:849 | one element equals TxJson |
| ServicesCodec.MarshalTxHashes | Services/handlers.go:852-858 | the loop equals TxHashes |
| ServicesCodec.MarshalBlock | Services/handlers.go:803-870 | marshalBlock's map equals BlockJson |
| ServicesCodec.BlockJsonBlobFields | Services/handlers.go:823-829 | blobGasUsed and excessBlobGas are present iff non-empty, and decode back |
| ServicesCodec.WithBlockBlobFields | Services/handlers.go:823-829 | the same, for the optional block fields added to any map lacking them |
| ServicesCodec.BlockJsonKeepsBase | Services/handlers.go:803-822 | every fixed header field survives, only transactions, uncles and withdrawals can be replaced |
| ServicesCodec.WithBlockOptionalsKeeps | Services/handlers.go:824-867 | the optional block fields keep every other key and value |
| ServicesCodec.BlockBaseQuantities | Services/handlers.go:805-812 | number and gasLimit parse back; block number 0 is written "0x0" |
| ServicesCodec.BlockBaseUsage | Services/handlers.go:813-814 | gasUsed and timestamp parse back |
| ServicesCodec.BlockBaseHashes | Services/handlers.go:806-810 | hash, parentHash, stateRoot, receiptsRoot and logsBloom decode back |
| ServicesCodec.BlockBaseData | Services/handlers.go:811-817 | miner, mixHash, baseFeePerGas and extraData decode back |
| ServicesCodec.BlockJsonTransactions | Services/handlers.go:845-858 | transactions has one entry per transaction ([] when none): tx objects when full, DATA hashes otherwise |
| ServicesCodec.BlockJsonUnclesAndWithdrawals | Services/handlers.go:831-867 | uncles are the ommer hashes as DATA; withdrawals are the encoded withdrawals ([] when none) |
| ServicesCodec.WithBlockLists | Services/handlers.go:831-867 | the same, for any map starting with empty lists |
| RpcHandlers.Handle | rpc/handlers.go:20-231 | echoes the id; exactly one of result/error; a Go error is returned exactly when the response is -32000, with err.Error() as its message |
| RpcHandlers.UnknownMethod | rpc/handlers.go:226-230 | -32601 "Method not found" exactly for the names without a case |
| RpcHandlers.ShortParamsRejected | rpc/handlers.go:53-58 | too few params give -32602 with the method's message, whatever the backend |
| RpcHandlers.GetBalanceShort | rpc/handlers.go:83-88 | eth_getBalance with fewer than 2 params gives -32602 "need address and block tag" |
| RpcHandlers.GetBalancePassesAddress | rpc/handlers.go:89-104 | the address string reaches the backend unchecked; its balance or error is the answer |
| RpcHandlers.ReceiptPassthrough | rpc/handlers.go:193-202 | the backend's receipt map is the result unchanged, null for a nil map, -32000 on error |
| RpcHandlers.SendRawPassthrough | rpc/handlers.go:165-175 | the backend's hash string is the result unchanged |
| RpcHandlers.GetLogsKeepsTopicSets | rpc/handlers.go:204-224 | the filter reaches the backend with every topic alternative, and its logs are encoded by marshalLogs |
| RpcCodec.TopicSet | rpc/handlers.go:341-350 | a list position keeps every alternative in order (non-strings as ""); a string is a singleton; anything else is empty |
| RpcCodec.AddressStrings | rpc/handlers.go:330-337 | one slot per list element, non-strings as "" |
| RpcCodec.TopicSets | rpc/handlers.go:338-352 | one topic set per position of a list, none otherwise |
| RpcCodec.FilterQueryOf | rpc/handlers.go:311-357 | fails with "invalid filter object" exactly when the param is not an object |
| RpcCodec.FillAddresses | rpc/handlers.go:330-337 | the address loop equals AddressStrings |
| RpcCodec.FillAlternatives | rpc/handlers.go:342-347 | the inner topic loop equals TopicSet |
| RpcCodec.FillTopics | rpc/handlers.go:338-352 | the nested topic loops equal TopicSets |
| RpcCodec.ToFilterQuery | rpc/handlers.go:311-357 | the field-by-field construction equals FilterQueryOf |
| RpcCodec.TopicSetsKeepAlternatives | rpc/handlers.go:338-352 | every position of a topics list keeps all its alternatives in order (non-strings as ""), a string position is a singleton, any other position is empty; a non-list gives no positions |
| RpcCodec.AddressesKeepPositions | rpc/handlers.go:330-337 | an address list keeps its length, each string in its place and "" for every non-string; a non-list gives none |
| RpcCodec.TxJsonPassthrough | rpc/handlers.go:385-389 | hash, from and to are passed through as given |
| RpcCodec.TxJsonInputNonce | rpc/handlers.go:390-392 | input decodes back and nonce parses back |
| RpcCodec.TxJsonAmounts | rpc/handlers.go:391-394 | value, gas and gasPrice parse back, negative ones included |
| RpcCodec.TxObjects | rpc/handlers.go:368-373 | one marshalTx object per transaction, in order |
| RpcCodec.TxHashes | rpc/handlers.go:374-380 | the transaction hash strings, in order |
| RpcCodec.MarshalTxObjects | rpc/handlers.go:368-373 | the loop equals TxObjects |
| RpcCodec.MarshalTxHashes | rpc/handlers.go:374-380 | the loop equals TxHashes |
| RpcCodec.MarshalBlock | rpc/handlers.go:359-383 | marshalBlock's map equals BlockJson |
| RpcCodec.BlockJsonShape | rpc/handlers.go:359-383 | hash and parentHash pass through; transactions has one entry per transaction: objects when full, hash strings otherwise |
| RpcCodec.BlockJsonNumbers | rpc/handlers.go:361-364 | number and timestamp parse back |
| RpcCodec.LogsJson | rpc/handlers.go:399-412 | one encoded log per log, in order |
| RpcCodec.MarshalLogs | rpc/handlers.go:399-412 | the loop equals LogsJson |
| RpcCodec.LogJsonPassthrough | rpc/handlers.go:402-409 | address, topics and transaction hash pass through; data decodes back; logIndex and blockNumber parse back |
| WsSession.NotificationJson | Services/ws_server.go:155-162 | a notification is written as {jsonrpc, method, params: {subscription, result}} |
| WsSession.Snoc | Services/ws_server.go:58-146 | one more event adds its reply, if any, and counts a stop call only for its own handle |
| WsSession.RepliesAppend | Services/ws_server.go:58-146 | the replies of a joined trace are the replies of its parts |
| WsSession.StopCountAppend | Services/ws_server.go:58-146 | the stop calls of a joined trace add up |
| WsSession.UnsubscribeReply | Services/ws_server.go:126-139 | echoes the id; true iff an id param is given, else -32602 "missing id" |
| WsSession.UnsubscribeTable | Services/ws_server.go:131-137 | the id is absent afterwards and every other entry is unchanged; no param leaves the table as is |
| WsSession.Released | Services/ws_server.go:133-135 | only an eth_unsubscribe of a stored id releases a handle, and it is a stored one |
| WsSession.SecondUnsubscribeReleasesNothing | Services/ws_server.go:131-137 | a stored id releases its handle; a second unsubscribe of it releases nothing and changes nothing |
| WsSession.OverwriteOrphans | Services/ws_server.go:149-153 | storing twice under the same id drops the first handle: no later unsubscribe can release it |
| WsSession.Session.constructor | Services/ws_server.go:55 | a connection starts with an empty table and nothing done |
| WsSession.Session.StoreSub | Services/ws_server.go:149-153 | inserts or overwrites the entry under the id |
| WsSession.Session.Send | Services/ws_server.go:70 | a socket write leaves the table alone |
| WsSession.Session.Spawn | Services/ws_server.go:92 | starting a forwarder leaves the table alone |
| WsSession.Session.Drain | Services/ws_server.go:164-187 | one notification per item, in order, with the given tag and sid |
| WsSession.Session.Unsubscribe | Services/ws_server.go:126-139 | a present id is stopped once, then deleted, then true is written; a missing id only writes true; no param writes -32602 |
| WsSession.UnsubscribeEffects | Services/ws_server.go:133-138 | stop, delete, reply: one stop call of that handle and one reply |
| WsSession.Quiet | Services/ws_server.go:70 | writing a reply calls no stop handle |
| WsSession.SubscribeEffects | Services/ws_server.go:90-92 | store, reply, spawn: one reply and no stop call |
| WsSession.PushesAreQuiet | Services/ws_server.go:164-187 | notifications are neither replies nor stop calls |
| WsLoop.FeedOf | Services/ws_server.go:76-121 | no params is "missing subscription type"; a name other than the three kinds is "unsupported subscription"; a logs feed carries the server's filter |
| WsLoop.SubscribeReply | Services/ws_server.go:76-121 | echoes the id; the id as result iff the backend opened the feed; -32602 iff the request is refused |
| WsLoop.FrameReply | Services/ws_server.go:67-145 | a malformed frame gets the -32700 reply; subscribe and unsubscribe replies echo the id with exactly one of result/error |
| WsLoop.Subscribe | Services/ws_server.go:74-124 | refused or failing: only the error is written; accepted: store, then reply with the id, then start the forwarder |
| WsLoop.SubscribeCounts | Services/ws_server.go:74-124 | a subscribe writes exactly its reply and calls no stop handle |
| WsLoop.HandleFrame | Services/ws_server.go:67-145 | exactly one reply per frame; the table becomes NextTable; only a released handle gains a stop call; other methods write the dispatcher's response |
| WsLoop.Answers | Services/ws_server.go:58-146 | one reply per frame |
| WsLoop.Serve | Services/ws_server.go:58-146 | the replies written are the frames' replies in order, the table is TableAfter, and each stop function is called exactly as often as an unsubscribe finds it in the table of that moment |
| WsLoop.AnswersPointwise | Services/ws_server.go:58-146 | the i-th reply is the i-th frame's reply on call i, with its own id |
| WsLoop.MalformedFrame | Services/ws_server.go:67-72 | -32700 "Parse error" with a null id; the table is unchanged and nothing is released |
| WsLoop.RefusedSubscribe | Services/ws_server.go:76-121 | no params or an unknown kind: -32602 and no table change |
| WsLoop.FailedSubscribe | Services/ws_server.go:85-89 | a failing backend: -32000 with its error text and no table change |
| WsLoop.AcceptedSubscribe | Services/ws_server.go:90-92 | an opened feed: the result is the id and the table maps it to the handle |
| WsLoop.UnsubscribeAlwaysTrue | Services/ws_server.go:126-139 | unsubscribe answers true whether or not the id was present, and the id is gone afterwards |
| WsLoop.SameIdOrphansFirst | Services/ws_server.go:74-153 | two subscribes that get the same id and open different stop functions are both answered with the id; a later unsubscribe of the id stops the second once and the first never |
| ServicesWs.LogsQuery | Services/ws_server.go:95-100 | the second param's filter when it is an object, the zero filter otherwise |
| ServicesWs.ForwardBlocks | Services/ws_server.go:164-171 | one "2.0" notification per block, with marshalBlock(b, false) |
| ServicesWs.ForwardLogs | Services/ws_server.go:172-179 | one "2.0" notification per log, with the one encoded log |
| ServicesWs.ForwardPending | Services/ws_server.go:180-187 | one "2.0" notification per hash, with "0x" + hex |
| ServicesWs.OtherMethodsDispatch | Services/ws_server.go:142-145 | any other method is answered with exactly Handle's response from the backend as the frame's call finds it, and leaves the table alone |
| ServicesWs.RunAnswersPerCall | Services/ws_server.go:58-146 | in a run, the i-th frame with any other method gets Handle's response from the backend of call i |
| ServicesWs.BlockNumberPerFrame | Services/ws_server.go:142-145 | eth_blockNumber anywhere in a run answers the height its own call finds |
| ServicesWs.LogsFilterFallback | Services/ws_server.go:94-100 | a logs subscription without an object filter opens with the zero filter |
| ServicesWs.NotificationResults | Services/ws_server.go:164-187 | a head's transactions are its DATA hashes; a log note carries one log object; a pending note decodes back to the hash |
| RpcWs.LogsQuery | rpc/ws_server.go:85-91 | the second param's filter when it is an object, the zero filter otherwise |
| RpcWs.ForwardBlocks | rpc/ws_server.go:154-161 | one "2.0" notification per block, with marshalBlock(b, false) |
| RpcWs.ForwardLogs | rpc/ws_server.go:162-169 | one "2.o" notification per log, with the one encoded log |
| RpcWs.ForwardPending | rpc/ws_server.go:170-177 | one "2.0" notification per hash string, passed through |
| RpcWs.OtherMethodsDispatch | rpc/ws_server.go:133-135 | any other method is answered with exactly Handle's response from the backend as the frame's call finds it, and leaves the table alone |
| RpcWs.RunAnswersPerCall | rpc/ws_server.go:53-136 | in a run, the i-th frame with any other method gets Handle's response from the backend of call i |
| RpcWs.LogsFilterFallback | rpc/ws_server.go:85-91 | a logs subscription without an object filter opens with the zero filter |
| RpcWs.LogTagDiffers | rpc/ws_server.go:154-177 | log notifications carry "2.o", block and pending ones "2.0", which no response carries |
| RpcWs.NotificationResults | rpc/ws_server.go:154-177 | a head's transactions are its hash strings; a pending note carries the hash unchanged |

## Left out

- HTTP transports (`Services/http_server.go`, `rpc/http_server.go`), server wiring, the CLI, the examples and the mock backends: these are I/O glue and constant stubs. The backend is an input datatype instead.
- Concurrency is not modelled. This covers the forwarder goroutines, concurrent socket writes, the mutex passed by value into `storeSub` and context cancellation on close. Frames are processed one after another.
- Forwarders are modelled as draining a given sequence of items. The channels, and when they close, are not modelled.
- The subscription id, which the code takes from `time.Now`, is an input of each frame. Each frame is a separate call, numbered by its position in the connection. `ServicesWs.ServerOf` and `RpcWs.ServerOf` take the backend as a function of the call number, so every frame is answered, and every subscription opened, by the backend as that call finds it. A later frame may see a new block number, and a repeated subscribe may get its own stop function or its own error. How the backend's state moves on, such as the in-memory backends' 6-second block ticker, is not modelled.
- JSON decoding of a frame is abstracted into `Frame`: a frame is malformed or a decoded `Request`. A read error that ends the loop is the end of the frame sequence.
- Errors of `conn.WriteJSON` and the error `Handle` returns to the socket loop are ignored by the code, and the model does not track them.
- `log.Printf` and the `json.Marshal` logging in `Handle` are left out.
- JSON numbers are integers. Float ids and float params are not modelled.
- A nil slice and an empty one are the same sequence. On the wire they differ where a slice is written as it is: the older `marshalLogs` writes `"topics": null` for a nil `Log.Topics` (rpc/handlers.go:404), where the model writes `[]`.
- Entity pointers from the backend are non-nil. On nil the code would panic when it dereferences them: `marshalTx` and `marshalBlock`; `marshalReceipt` for a nil receipt (Services/handlers.go:232, 950-969); `marshalLogs` for a nil `*Types.Log`; and the forwarders for a nil block or log from a subscription channel (Services/ws_server.go:164-179, rpc/ws_server.go:157-161).
- A non-nil `*big.Int` whose `SetString` failed holds an undefined value in Go. It is modelled as the distinct value `Undefined`.
- A nil `*big.Int` where the code expects a number is not modelled. Go's `Text` and `String` return "<nil>" for a nil pointer, so the code would write "0x<nil>" ("<nil>" for `net_version`). The model has no nil case for the ChainID, BlockNumber, GasPrice and Balance results of either backend, nor for `backend.Block.Number`, `backend.Tx.Value`, `Gas` and `GasPrice`, and `backend.Log.BlockNumber` (rpc/handlers.go:361, 391-394, 406). So it does not capture the "0x<nil>" amounts that the in-memory backend's `TxByHash` leads `eth_getTransactionByHash` to write.
- The backend oracle returns the same result for the same call within one request.
- `strings.ToLower` is exact for ASCII and the two non-ASCII runes that lower-case to ASCII; other runes are kept, which only matters for comparison with ASCII words.
- WsLoop.Answers: its own contract states only the length; the per-frame reply is stated by `WsLoop.AnswersPointwise`.
