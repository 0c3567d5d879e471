/**
 * The JSON-RPC 2.0 envelope: Request, Response and Error, the two
 * constructors RespOK and RespErr, and how encoding/json writes a
 * Response given its struct tags.
 */
module Envelope {
  import opened Wrappers
  import opened Json

  /** The error codes of section 5.1 of the JSON-RPC 2.0 specification that the server uses. */
  const ParseError: int := -32700
  const MethodNotFound: int := -32601
  const InvalidParams: int := -32602
  const ServerError: int := -32000

  datatype RpcError = RpcError(code: int, message: string)

  /** A decoded request (`name` is its method); `params` is a positional list and `id` is echoed untouched. */
  datatype Request = Request(jsonrpc: string, name: string, params: seq<Json>, id: Json)

  /**
   * A response. `result` is an `any`: None is the nil interface, which
   * `omitempty` drops; Some(JNull) is a typed nil (such as a nil map), which
   * is written as null. `error` is a pointer, None being nil.
   */
  datatype Response = Response(jsonrpc: string, result: Option<Json>, error: Option<RpcError>, id: Json)

  /** RespOK: protocol tag "2.0", the given result, no error, the id unchanged. */
  function RespOK(id: Json, v: Option<Json>): (r: Response)
    ensures r.jsonrpc == "2.0" && r.id == id
    ensures r.result == v && r.error.None?
  {
    Response("2.0", v, None, id)
  }

  /** RespErr: protocol tag "2.0", an error with the given code and message, no result, the id unchanged. */
  function RespErr(id: Json, code: int, msg: string): (r: Response)
    ensures r.jsonrpc == "2.0" && r.id == id
    ensures r.result.None? && r.error == Some(RpcError(code, msg))
  {
    Response("2.0", None, Some(RpcError(code, msg)), id)
  }

  /** The object encoding/json writes for an Error. */
  function MarshalError(e: RpcError): Json {
    JObj(map["code" := JNum(e.code), "message" := JStr(e.message)])
  }

  /**
   * The object encoding/json writes for a Response: "jsonrpc" and "id"
   * always, "result" and "error" only when they are non-nil (`omitempty`).
   */
  function Marshal(r: Response): Json {
    var base := map["jsonrpc" := JStr(r.jsonrpc), "id" := r.id];
    var withResult := if r.result.Some? then base["result" := r.result.value] else base;
    JObj(if r.error.Some? then withResult["error" := MarshalError(r.error.value)] else withResult)
  }

  /** Exactly one of result and error is present. */
  predicate ExactlyOne(r: Response) {
    r.result.Some? != r.error.Some?
  }

  /**
   * A success response written out has the keys jsonrpc, id and, when the
   * value is not the nil interface, result; it never has an error key.
   */
  lemma RespOKWire(id: Json, v: Option<Json>)
    ensures Marshal(RespOK(id, v)).fields.Keys == {"jsonrpc", "id"} + (if v.Some? then {"result"} else {})
    ensures Marshal(RespOK(id, v)).fields["id"] == id
    ensures v.Some? ==> Marshal(RespOK(id, v)).fields["result"] == v.value
    ensures ExactlyOne(RespOK(id, v)) <==> v.Some?
  {
  }

  /** An error response written out has exactly the keys jsonrpc, error and id. */
  lemma RespErrWire(id: Json, code: int, msg: string)
    ensures Marshal(RespErr(id, code, msg)).fields.Keys == {"jsonrpc", "error", "id"}
    ensures Marshal(RespErr(id, code, msg)).fields["error"] == JObj(map["code" := JNum(code), "message" := JStr(msg)])
    ensures Marshal(RespErr(id, code, msg)).fields["id"] == id
    ensures ExactlyOne(RespErr(id, code, msg))
  {
  }
}
