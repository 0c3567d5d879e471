/**
 * The helpers both dispatcher generations share word for word: finish,
 * invalidParams, mustString, parseBlockTag and toCallMsg, the error texts,
 * and the QUANTITY and DATA encodings of the Ethereum JSON-RPC API.
 */
module Dispatch {
  import opened Wrappers
  import opened Json
  import opened Strs
  import opened BigInt
  import Hex
  import opened Envelope
  import Types

  /** Every Go error a handler can meet, whether its own or the backend's. */
  datatype Failure =
    | BackendError(text: string)
    | DecodeError(e: Hex.DecodeError)
    | UnsupportedBlockTag
    | InvalidHexString
    | InvalidCallObject
    | InvalidFilterObject

  /** err.Error() */
  function ErrorText(f: Failure): string {
    match f
    case BackendError(t) => t
    case DecodeError(e) => Hex.ErrorText(e)
    case UnsupportedBlockTag => "unsupported block tag"
    case InvalidHexString => "invalid hex string"
    case InvalidCallObject => "invalid call object"
    case InvalidFilterObject => "invalid filter object"
  }

  /** What Handle returns: the response, and the Go error it passes up (None for nil). */
  datatype Handled = Handled(resp: Response, err: Option<Failure>)

  /** A backend result with its error wrapped as a Failure. */
  function Lift<T>(r: Result<T, string>): (o: Result<T, Failure>)
    ensures r.Ok? ==> o == Ok(r.value)
    ensures r.Err? ==> o == Err(BackendError(r.error))
  {
    match r
    case Ok(v) => Ok(v)
    case Err(e) => Err(BackendError(e))
  }

  /**
   * finish: an error becomes a -32000 response carrying its text, with the
   * error handed back to Handle's caller; otherwise the value is wrapped by
   * RespOK. finish itself never fails.
   */
  function Finish(req: Request, o: Result<Json, Failure>): (h: Handled)
    ensures h.resp.id == req.id && h.resp.jsonrpc == "2.0"
    ensures ExactlyOne(h.resp)
    ensures o.Ok? <==> h.resp.result.Some?
    ensures o.Ok? ==> h.resp.result == Some(o.value) && h.err.None?
    ensures o.Err? ==> h.resp.error == Some(RpcError(ServerError, ErrorText(o.error))) && h.err == Some(o.error)
  {
    match o
    case Ok(v) => Handled(RespOK(req.id, Some(v)), None)
    case Err(e) => Handled(RespErr(req.id, ServerError, ErrorText(e)), Some(e))
  }

  /** invalidParams: a -32602 response with the given message and no Go error. */
  function InvalidParamsFor(req: Request, msg: string): (h: Handled)
    ensures h.resp.id == req.id && h.resp.jsonrpc == "2.0"
    ensures h.resp.result.None? && h.resp.error == Some(RpcError(InvalidParams, msg))
    ensures h.err.None?
  {
    Handled(RespErr(req.id, InvalidParams, msg), None)
  }

  /** The default branch: -32601 "Method not found", and no Go error. */
  function NotFound(req: Request): (h: Handled)
    ensures h.resp.id == req.id && h.resp.jsonrpc == "2.0"
    ensures h.resp.result.None? && h.resp.error == Some(RpcError(MethodNotFound, "Method not found"))
    ensures h.err.None?
  {
    Handled(RespErr(req.id, MethodNotFound, "Method not found"), None)
  }

  /** mustString: the string a param holds, or "" for any other JSON value. */
  function MustString(v: Json): (s: string)
    ensures v.JStr? ==> s == v.s
    ensures !v.JStr? ==> s == ""
  {
    if v.JStr? then v.s else ""
  }

  /** The optional fullTx flag at params[1]: true only when it is the JSON value true. */
  function FullFlag(params: seq<Json>): (full: bool)
    ensures full <==> |params| > 1 && params[1] == JBool(true)
  {
    |params| > 1 && params[1].JBool? && params[1].b
  }

  /** A QUANTITY: "0x" followed by the integer in minimal lower-case hex. */
  function QuantityHex(n: int): string {
    "0x" + Text16(n)
  }

  /** A DATA string: "0x" followed by two lower-case hex digits per byte. */
  function DataHex(b: Types.Bytes): string {
    "0x" + Hex.EncodeToString(b)
  }

  /** A list of DATA strings, one per byte string. */
  function DataList(bs: seq<Types.Bytes>): (j: Json)
    ensures j.JArr? && |j.items| == |bs|
    ensures forall i :: 0 <= i < |bs| ==> j.items[i] == JStr(DataHex(bs[i]))
  {
    JArr(seq(|bs|, i requires 0 <= i < |bs| => JStr(DataHex(bs[i]))))
  }

  /** A well-formed QUANTITY string: "0x", at least one lower-case hex digit, no leading zero. */
  predicate IsQuantity(s: string) {
    |s| >= 3 && s[..2] == "0x"
    && (forall i :: 2 <= i < |s| ==> Hex.IsLowerHexDigit(s[i]))
    && (s[2] == '0' ==> |s| == 3)
  }

  /** A well-formed DATA string: "0x" and an even number of lower-case hex digits. */
  predicate IsData(s: string) {
    |s| >= 2 && s[..2] == "0x" && |s| % 2 == 0
    && forall i :: 2 <= i < |s| ==> Hex.IsLowerHexDigit(s[i])
  }

  /** Every natural number is written as a canonical QUANTITY that parses back to it. */
  lemma QuantityHexCanonical(n: nat)
    ensures IsQuantity(QuantityHex(n))
    ensures SetString16(QuantityHex(n)[2..]) == Some(n)
    ensures n == 0 ==> QuantityHex(n) == "0x0"
  {
    var s := QuantityHex(n);
    assert s[2..] == NatText(n, 16);
    NatTextCanonical(n);
    Text16RoundTrip(n);
  }

  /** Every byte string is written as well-formed DATA that decodes back to it. */
  lemma DataHexWellFormed(b: Types.Bytes)
    ensures IsData(DataHex(b))
    ensures |DataHex(b)| == 2 + 2 * |b|
    ensures Hex.DecodeString(DataHex(b)[2..]) == Hex.Decoded(b, None)
  {
    assert DataHex(b)[2..] == Hex.EncodeToString(b);
    Hex.DecodeEncode(b);
  }

  /** Field `k` of an encoded object is "0x" followed by hex that parses back to `n`. */
  predicate QuantityField(m: map<string, Json>, k: string, n: nat) {
    k in m && m[k].JStr? && HasPrefix(m[k].s, "0x") && SetString16(m[k].s[2..]) == Some(n)
  }

  /** Field `k` of an encoded object is "0x" followed by hex that decodes back to `b` without error. */
  predicate DataField(m: map<string, Json>, k: string, b: Types.Bytes) {
    k in m && m[k].JStr? && HasPrefix(m[k].s, "0x") && Hex.DecodeString(m[k].s[2..]) == Hex.Decoded(b, None)
  }

  /** Writing a number as a QUANTITY field meets QuantityField. */
  lemma QuantityFieldOf(m: map<string, Json>, k: string, n: nat)
    requires k in m && m[k] == JStr(QuantityHex(n))
    ensures QuantityField(m, k, n)
  {
    QuantityHexCanonical(n);
  }

  /** Writing bytes as a DATA field meets DataField. */
  lemma DataFieldOf(m: map<string, Json>, k: string, b: Types.Bytes)
    requires k in m && m[k] == JStr(DataHex(b))
    ensures DataField(m, k, b)
  {
    DataHexWellFormed(b);
  }

  /** The tags that stand for the newest block: "latest", "" and "pending", in any case. */
  predicate IsLatestAlias(tag: string) {
    var t := ToLower(tag);
    t == "latest" || t == "" || t == "pending"
  }

  /**
   * parseBlockTag, given what the backend's BlockNumber returns: an alias of
   * the newest block resolves to it; a tag starting with lower-case "0x" is
   * read as hex, and a failed read still yields the (undefined) number
   * rather than an error; any other tag is unsupported.
   */
  function ParseBlockTag(latest: Result<int, string>, tag: string): (r: Result<BigPtr, Failure>)
    ensures r.Ok? ==> r.value != Nil
  {
    if IsLatestAlias(tag) then
      match latest
      case Ok(n) => Ok(Val(n))
      case Err(e) => Err(BackendError(e))
    else if HasPrefix(tag, "0x") then Ok(NewFromHex(tag[2..]))
    else Err(UnsupportedBlockTag)
  }

  /** The aliases of the newest block ask the backend, whatever their case, and only they do. */
  lemma ParseBlockTagAliases(latest: Result<int, string>, tag: string)
    ensures IsLatestAlias(tag) && latest.Ok? ==> ParseBlockTag(latest, tag) == Ok(Val(latest.value))
    ensures IsLatestAlias(tag) && latest.Err? ==> ParseBlockTag(latest, tag) == Err(BackendError(latest.error))
    ensures !IsLatestAlias(tag) ==> ParseBlockTag(latest, tag) == ParseBlockTag(Err(""), tag)
    ensures tag == "Latest" || tag == "PENDING" || tag == "" ==> IsLatestAlias(tag)
    ensures CaseVariant(tag, "latest") || CaseVariant(tag, "pending") ==> IsLatestAlias(tag)
  {
    if CaseVariant(tag, "latest") {
      LowerCaseVariants(tag, "latest");
    } else if CaseVariant(tag, "pending") {
      LowerCaseVariants(tag, "pending");
    }
  }

  /** A tag written as "0x" plus the hex of a block number resolves to that number. */
  lemma ParseBlockTagHex(latest: Result<int, string>, n: nat)
    ensures ParseBlockTag(latest, QuantityHex(n)) == Ok(Val(n))
  {
    var tag := QuantityHex(n);
    assert HasPrefix(tag, "0x");
    assert ToLower(tag)[0] == '0';
    QuantityHexCanonical(n);
  }

  /**
   * Every other tag fails with "unsupported block tag": the named tags
   * earliest, safe and finalized, and hex with an upper-case "0X" prefix.
   */
  lemma ParseBlockTagRejects(latest: Result<int, string>, tag: string)
    ensures ParseBlockTag(latest, tag) == Err(UnsupportedBlockTag) <==> !IsLatestAlias(tag) && !HasPrefix(tag, "0x")
    ensures tag in {"earliest", "safe", "finalized"} ==> ParseBlockTag(latest, tag) == Err(UnsupportedBlockTag)
    ensures HasPrefix(tag, "0X") ==> ParseBlockTag(latest, tag) == Err(UnsupportedBlockTag)
    ensures ErrorText(UnsupportedBlockTag) == "unsupported block tag"
  {
    if HasPrefix(tag, "0X") {
      assert ToLower(tag)[0] == '0';
      assert tag[1] == 'X';
    }
  }

  /** The hex branch never fails: a lower-case "0x" prefix always yields a number, defined or not. */
  lemma ParseBlockTagHexTotal(latest: Result<int, string>, tag: string)
    requires HasPrefix(tag, "0x")
    ensures ParseBlockTag(latest, tag) == Ok(NewFromHex(tag[2..]))
  {
    assert ToLower(tag)[0] == '0';
  }

  /**
   * The DATA decoding every hash and address param goes through: a
   * non-string reads as "", a "0x" prefix is dropped, and any hex error
   * fails the request.
   */
  function DecodeParam(v: Json): (r: Result<Types.Bytes, Failure>)
    ensures r.Ok? <==> Hex.DecodeString(TrimPrefix(MustString(v), "0x")).err.None?
    ensures r.Ok? ==> r.value == Hex.DecodeString(TrimPrefix(MustString(v), "0x")).bytes
    ensures r.Err? ==> r.error == DecodeError(Hex.DecodeString(TrimPrefix(MustString(v), "0x")).err.value)
  {
    var d := Hex.DecodeString(TrimPrefix(MustString(v), "0x"));
    if d.err.Some? then Err(DecodeError(d.err.value)) else Ok(d.bytes)
  }

  /** A DATA param decodes to the bytes it was written from. */
  lemma DecodeParamRoundTrip(b: Types.Bytes)
    ensures DecodeParam(JStr(DataHex(b))) == Ok(b)
  {
    assert HasPrefix(DataHex(b), "0x");
    assert TrimPrefix(DataHex(b), "0x") == Hex.EncodeToString(b);
    Hex.DecodeEncode(b);
  }

  /**
   * A *big.Int field of a call or filter object: a string starting with
   * "0x" is parsed as hex into a fresh big.Int, which is kept even when
   * the parse fails; anything else leaves the field nil.
   */
  function PrefixedBig(v: Json): (p: BigPtr)
    ensures p != Nil <==> v.JStr? && HasPrefix(v.s, "0x")
  {
    if v.JStr? && HasPrefix(v.s, "0x") then NewFromHex(v.s[2..]) else Nil
  }

  /** The bytes of the "data" field: the "0x" prefix dropped, whatever decoded before a hex error kept. */
  function CallData(v: Json): Types.Bytes {
    if !v.JStr? then []
    else if HasPrefix(v.s, "0x") then Hex.DecodeString(v.s[2..]).bytes
    else Hex.DecodeString(v.s).bytes
  }

  /**
   * toCallMsg: an object param gives a CallMsg built from its from, to,
   * data, value, gas and gasPrice fields (each ignored when of the wrong
   * type); any other param is "invalid call object".
   */
  function ToCallMsg(p: Json): (r: Result<Types.CallMsg, Failure>)
    ensures r.Err? <==> !p.JObj?
    ensures r.Err? ==> r.error == InvalidCallObject
  {
    if !p.JObj? then Err(InvalidCallObject)
    else
      var obj := p.fields;
      Ok(Types.CallMsg(
        MustString(Field(obj, "from")),
        MustString(Field(obj, "to")),
        CallData(Field(obj, "data")),
        PrefixedBig(Field(obj, "value")),
        PrefixedBig(Field(obj, "gas")),
        PrefixedBig(Field(obj, "gasPrice"))))
  }

  /** toCallMsg as written: a zero CallMsg whose fields are set one at a time from the call object. */
  method BuildCallMsg(p: Json) returns (r: Result<Types.CallMsg, Failure>)
    ensures r == ToCallMsg(p)
  {
    if !p.JObj? {
      return Err(InvalidCallObject);
    }
    var obj := p.fields;
    var msg := Types.CallMsg("", "", [], Nil, Nil, Nil);
    var from := Field(obj, "from");
    if from.JStr? {
      msg := msg.(from := from.s);
    }
    var to := Field(obj, "to");
    if to.JStr? {
      msg := msg.(to := to.s);
    }
    var data := Field(obj, "data");
    if data.JStr? {
      var bytes := DecodeCallData(data.s);
      msg := msg.(data := bytes);
    }
    var value := ReadBig(Field(obj, "value"), msg.value);
    var gas := ReadBig(Field(obj, "gas"), msg.gas);
    var gasPrice := ReadBig(Field(obj, "gasPrice"), msg.gasPrice);
    msg := msg.(value := value, gas := gas, gasPrice := gasPrice);
    r := Ok(msg);
  }

  /** The data branch of toCallMsg: the "0x" prefix dropped when present, then whatever decodes. */
  method DecodeCallData(s: string) returns (bytes: Types.Bytes)
    ensures bytes == CallData(JStr(s))
  {
    if HasPrefix(s, "0x") {
      bytes := Hex.DecodeString(s[2..]).bytes;
    } else {
      bytes := Hex.DecodeString(s).bytes;
    }
  }

  /** One *big.Int field of toCallMsg: replaced only by a "0x"-prefixed string, otherwise left as it was. */
  method ReadBig(v: Json, current: BigPtr) returns (p: BigPtr)
    ensures v.JStr? && HasPrefix(v.s, "0x") ==> p == PrefixedBig(v)
    ensures !(v.JStr? && HasPrefix(v.s, "0x")) ==> p == current
  {
    p := current;
    if v.JStr? && HasPrefix(v.s, "0x") {
      p := NewFromHex(v.s[2..]);
    }
  }

  /** Only "data" carries the payload: an "input" field changes nothing. */
  lemma ToCallMsgIgnoresInput(obj: map<string, Json>, input: Json)
    ensures ToCallMsg(JObj(obj["input" := input])) == ToCallMsg(JObj(obj))
  {
    var obj' := obj["input" := input];
    assert forall k :: k in {"from", "to", "data", "value", "gas", "gasPrice"} ==> Field(obj', k) == Field(obj, k);
  }

  /** The data field decodes to the bytes it was written from, with or without its "0x" prefix. */
  lemma CallDataRoundTrip(b: Types.Bytes)
    ensures CallData(JStr(DataHex(b))) == b
    ensures CallData(JStr(Hex.EncodeToString(b))) == b
  {
    var s := Hex.EncodeToString(b);
    assert DataHex(b)[2..] == s;
    Hex.DecodeEncode(b);
    EncodingUnprefixed(b);
  }

  /** Malformed hex after the data never fails the call: the well-formed pairs before the error are kept. */
  lemma CallDataKeepsPrefix(b: Types.Bytes, junk: string)
    ensures CallData(JStr(DataHex(b) + junk)) == b + Hex.DecodeString(junk).bytes
  {
    var s := Hex.EncodeToString(b);
    assert (DataHex(b) + junk)[2..] == s + junk;
    Hex.DecodeKeepsPrefix(b, junk);
  }

  /** Hex.EncodeToString writes digits only, so its output never starts with "0x". */
  lemma EncodingUnprefixed(b: Types.Bytes)
    ensures !HasPrefix(Hex.EncodeToString(b), "0x")
  {
    var s := Hex.EncodeToString(b);
    if |s| >= 2 {
      assert Hex.IsLowerHexDigit(s[1]);
    }
  }

  /** ToCallMsg reads its data field through CallData, so it never fails on malformed hex. */
  lemma ToCallMsgData(obj: map<string, Json>, d: Json)
    ensures ToCallMsg(JObj(obj["data" := d])) == Ok(ToCallMsg(JObj(obj)).value.(data := CallData(d)))
  {
    var obj' := obj["data" := d];
    assert forall k :: k in {"from", "to", "value", "gas", "gasPrice"} ==> Field(obj', k) == Field(obj, k);
  }

  /** value, gas and gasPrice are set exactly when given as "0x"-prefixed strings, and hold their hex value. */
  lemma ToCallMsgAmounts(obj: map<string, Json>, key: string, n: nat)
    requires key in {"value", "gas", "gasPrice"}
    ensures var m := ToCallMsg(JObj(obj)).value;
      var field := if key == "value" then m.value else if key == "gas" then m.gas else m.gasPrice;
      (field != Nil <==> Field(obj, key).JStr? && HasPrefix(Field(obj, key).s, "0x"))
    ensures var m := ToCallMsg(JObj(obj[key := JStr(QuantityHex(n))])).value;
      var field := if key == "value" then m.value else if key == "gas" then m.gas else m.gasPrice;
      field == Val(n)
  {
    var s := QuantityHex(n);
    assert HasPrefix(s, "0x");
    QuantityHexCanonical(n);
  }
}
