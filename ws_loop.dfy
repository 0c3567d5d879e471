/**
 * The read loop of handleWS, which both generations share word for word:
 * the eth_subscribe and eth_unsubscribe branches over the session's table,
 * and every other request handed to the dispatcher. What differs between
 * the generations — the dispatcher, how a "logs" filter is decoded and
 * what the backend's three subscribe calls return — is a Server value.
 * The subscription id the code mints from the clock is an input here, and
 * so is each frame's call number, its position in the connection: the
 * server answers a frame and opens its subscription as that call, so the
 * backend may have moved on between two frames, and two subscribes are
 * two separate calls that may return two different stop functions.
 */
module WsLoop {
  import opened Wrappers
  import opened Json
  import opened Envelope
  import opened Dispatch
  import opened Types
  import opened WsSession

  /** The three subscription kinds, the logs one with the filter handed to the backend. */
  datatype Feed<Q> = NewHeads | LogFeed(query: Q) | PendingTxs

  /**
   * What the loop needs from its server: the dispatcher's response to a
   * request on a given call, the filter a "logs" subscription is opened
   * with given the request's params, and what the backend's subscribe call
   * for a kind returns on a given call (the stop handle, or the error's
   * text).
   */
  datatype Server<!Q> = Server(
    dispatch: (Request, nat) -> Response,
    logsQuery: seq<Json> -> Q,
    open: (Feed<Q>, nat) -> Result<StopHandle, string>)

  /** The kind's name on the wire, also the name of its forwarder. */
  function FeedName<Q>(f: Feed<Q>): string {
    match f
    case NewHeads => "newHeads"
    case LogFeed(_) => "logs"
    case PendingTxs => "newPendingTransactions"
  }

  /** What eth_subscribe asks for, or the -32602 message it is refused with. */
  function FeedOf<Q>(srv: Server<Q>, p: seq<Json>): (r: Result<Feed<Q>, string>)
    ensures |p| < 1 <==> r == Err("missing subscription type")
    ensures r.Ok? ==> |p| >= 1 && FeedName(r.value) == MustString(p[0])
    ensures r.Ok? && r.value.LogFeed? ==> r.value.query == srv.logsQuery(p)
    ensures (|p| >= 1 && MustString(p[0]) != "newHeads" && MustString(p[0]) != "logs"
             && MustString(p[0]) != "newPendingTransactions") <==> r == Err("unsupported subscription")
  {
    if |p| < 1 then Err("missing subscription type")
    else
      match MustString(p[0])
      case "newHeads" => Ok(NewHeads)
      case "logs" => Ok(LogFeed(srv.logsQuery(p)))
      case "newPendingTransactions" => Ok(PendingTxs)
      case _ => Err("unsupported subscription")
  }

  /** The handle a subscribe made on the given call stores, when it succeeds. */
  function Opened<Q>(srv: Server<Q>, req: Request, call: nat): Option<StopHandle> {
    match FeedOf(srv, req.params)
    case Err(_) => None
    case Ok(f) => if srv.open(f, call).Ok? then Some(srv.open(f, call).value) else None
  }

  /** The reply to eth_subscribe: -32602 for a refused request, -32000 when the backend fails, else the id. */
  function SubscribeReply<Q>(srv: Server<Q>, req: Request, sid: string, call: nat): (r: Response)
    ensures r.id == req.id && ExactlyOne(r)
    ensures Opened(srv, req, call).Some? <==> r.result == Some(JStr(sid))
    ensures FeedOf(srv, req.params).Err? <==> r.error.Some? && r.error.value.code == InvalidParams
  {
    match FeedOf(srv, req.params)
    case Err(msg) => RespErr(req.id, InvalidParams, msg)
    case Ok(f) =>
      match srv.open(f, call)
      case Err(e) => RespErr(req.id, ServerError, e)
      case Ok(_) => RespOK(req.id, Some(JStr(sid)))
  }

  /** The one reply a frame gets. */
  function FrameReply<Q>(srv: Server<Q>, frame: Frame, sid: string, call: nat): (r: Response)
    ensures frame.Malformed? ==> r == ParseErrorReply
    ensures frame.Decoded? && frame.req.name == "eth_subscribe" ==> r.id == frame.req.id && ExactlyOne(r)
    ensures frame.Decoded? && frame.req.name == "eth_unsubscribe" ==> r.id == frame.req.id && ExactlyOne(r)
  {
    match frame
    case Malformed => ParseErrorReply
    case Decoded(req) =>
      if req.name == "eth_subscribe" then SubscribeReply(srv, req, sid, call)
      else if req.name == "eth_unsubscribe" then UnsubscribeReply(req)
      else srv.dispatch(req, call)
  }

  /** The table after a frame: a successful subscribe stores under the id, an unsubscribe deletes. */
  function NextTable<Q>(subs: map<string, StopHandle>, srv: Server<Q>, frame: Frame, sid: string, call: nat): map<string, StopHandle> {
    match frame
    case Malformed => subs
    case Decoded(req) =>
      if req.name == "eth_subscribe" then
        (if Opened(srv, req, call).Some? then subs[sid := Opened(srv, req, call).value] else subs)
      else if req.name == "eth_unsubscribe" then UnsubscribeTable(subs, req)
      else subs
  }

  /** The table after a run of frames, each with the id the clock would mint for it and its position as its call. */
  function TableAfter<Q>(subs: map<string, StopHandle>, srv: Server<Q>, frames: seq<Frame>, sids: seq<string>): map<string, StopHandle>
    requires |sids| == |frames|
    decreases |frames|
  {
    if |frames| == 0 then subs
    else
      var n := |frames| - 1;
      NextTable(TableAfter(subs, srv, frames[..n], sids[..n]), srv, frames[n], sids[n], n)
  }

  /** How many times a run of frames calls the handle's stop function: once per unsubscribe that finds it. */
  function ReleaseCount<Q>(subs: map<string, StopHandle>, srv: Server<Q>, frames: seq<Frame>, sids: seq<string>, g: StopHandle): nat
    requires |sids| == |frames|
    decreases |frames|
  {
    if |frames| == 0 then 0
    else
      var n := |frames| - 1;
      ReleaseCount(subs, srv, frames[..n], sids[..n], g)
      + (if Released(TableAfter(subs, srv, frames[..n], sids[..n]), frames[n]) == Some(g) then 1 else 0)
  }

  /**
   * The eth_subscribe branch: a refused request or a failing backend
   * writes its error and touches nothing else; otherwise the handle is
   * stored under the id, then the id is written back, then the forwarder
   * is started.
   */
  method Subscribe<Q>(s: Session, srv: Server<Q>, req: Request, sid: string, call: nat)
    modifies s
    ensures Opened(srv, req, call).None? ==>
      s.subs == old(s.subs) && s.trace == old(s.trace) + [Wrote(Reply(SubscribeReply(srv, req, sid, call)))]
    ensures Opened(srv, req, call).Some? ==>
      s.subs == old(s.subs)[sid := Opened(srv, req, call).value]
      && s.trace == old(s.trace) + [Stored(sid, Opened(srv, req, call).value), Wrote(Reply(SubscribeReply(srv, req, sid, call))),
                                    Spawned(FeedName(FeedOf(srv, req.params).value), sid)]
  {
    if |req.params| < 1 {
      s.Send(Reply(RespErr(req.id, InvalidParams, "missing subscription type")));
      return;
    }
    var typ := MustString(req.params[0]);
    var f: Feed<Q>;
    if typ == "newHeads" {
      f := NewHeads;
    } else if typ == "logs" {
      f := LogFeed(srv.logsQuery(req.params));
    } else if typ == "newPendingTransactions" {
      f := PendingTxs;
    } else {
      s.Send(Reply(RespErr(req.id, InvalidParams, "unsupported subscription")));
      return;
    }
    assert FeedOf(srv, req.params) == Ok(f);
    var res := srv.open(f, call);
    if res.Err? {
      s.Send(Reply(RespErr(req.id, ServerError, res.error)));
      return;
    }
    s.StoreSub(sid, res.value);
    s.Send(Reply(RespOK(req.id, Some(JStr(sid)))));
    s.Spawn(FeedName(f), sid);
  }

  /** Whatever eth_subscribe does, it writes its one reply and stops nothing. */
  lemma SubscribeCounts<Q>(t0: seq<Event>, t1: seq<Event>, srv: Server<Q>, req: Request, sid: string, call: nat)
    requires Opened(srv, req, call).None? ==> t1 == t0 + [Wrote(Reply(SubscribeReply(srv, req, sid, call)))]
    requires Opened(srv, req, call).Some? ==>
      t1 == t0 + [Stored(sid, Opened(srv, req, call).value), Wrote(Reply(SubscribeReply(srv, req, sid, call))),
                  Spawned(FeedName(FeedOf(srv, req.params).value), sid)]
    ensures Replies(t1) == Replies(t0) + [SubscribeReply(srv, req, sid, call)]
    ensures forall g :: StopCount(t1, g) == StopCount(t0, g)
  {
    var r := SubscribeReply(srv, req, sid, call);
    if Opened(srv, req, call).Some? {
      var h, kind := Opened(srv, req, call).value, FeedName(FeedOf(srv, req.params).value);
      SubscribeEffects(t0, sid, h, r, kind, StopHandle(0));
      forall g ensures StopCount(t1, g) == StopCount(t0, g) {
        SubscribeEffects(t0, sid, h, r, kind, g);
      }
    } else {
      Quiet(t0, r);
    }
  }

  /**
   * One turn of the read loop: exactly one reply is written, the table
   * moves to NextTable, and only an eth_unsubscribe of a present id calls
   * a stop function, that id's, once.
   */
  method HandleFrame<Q>(s: Session, srv: Server<Q>, frame: Frame, sid: string, call: nat)
    modifies s
    ensures Replies(s.trace) == Replies(old(s.trace)) + [FrameReply(srv, frame, sid, call)]
    ensures s.subs == NextTable(old(s.subs), srv, frame, sid, call)
    ensures forall g :: StopCount(s.trace, g) == StopCount(old(s.trace), g) + (if Released(old(s.subs), frame) == Some(g) then 1 else 0)
    ensures frame.Malformed? ==> s.trace == old(s.trace) + [Wrote(Reply(ParseErrorReply))]
    ensures frame.Decoded? && frame.req.name != "eth_subscribe" && frame.req.name != "eth_unsubscribe" ==>
      s.trace == old(s.trace) + [Wrote(Reply(srv.dispatch(frame.req, call)))]
  {
    match frame
    case Malformed =>
      ghost var t0 := s.trace;
      s.Send(Reply(ParseErrorReply));
      Quiet(t0, ParseErrorReply);
    case Decoded(req) =>
      if req.name == "eth_subscribe" {
        ghost var t0 := s.trace;
        Subscribe(s, srv, req, sid, call);
        SubscribeCounts(t0, s.trace, srv, req, sid, call);
      } else if req.name == "eth_unsubscribe" {
        s.Unsubscribe(req);
      } else {
        ghost var t0 := s.trace;
        var resp := srv.dispatch(req, call);
        s.Send(Reply(resp));
        Quiet(t0, resp);
      }
  }

  /** The replies to a run of frames, one per frame, in order. */
  function Answers<Q>(srv: Server<Q>, frames: seq<Frame>, sids: seq<string>): (r: seq<Response>)
    requires |sids| == |frames|
    ensures |r| == |frames|
    decreases |frames|
  {
    if |frames| == 0 then []
    else
      var n := |frames| - 1;
      Answers(srv, frames[..n], sids[..n]) + [FrameReply(srv, frames[n], sids[n], n)]
  }

  /**
   * The read loop over a connection's frames, each with the id the clock
   * would mint for it and its position as its backend call: one reply per
   * frame, in order, each a function of its frame and its call, the table a fold
   * of NextTable over the frames, and every stop function called exactly
   * as often as an unsubscribe finds it.
   */
  method Serve<Q>(s: Session, srv: Server<Q>, frames: seq<Frame>, sids: seq<string>)
    requires |sids| == |frames|
    modifies s
    ensures Replies(s.trace) == Replies(old(s.trace)) + Answers(srv, frames, sids)
    ensures s.subs == TableAfter(old(s.subs), srv, frames, sids)
    ensures forall g :: StopCount(s.trace, g) == StopCount(old(s.trace), g) + ReleaseCount(old(s.subs), srv, frames, sids, g)
  {
    ghost var replies0 := Replies(s.trace);
    ghost var subs0 := s.subs;
    ghost var t0 := s.trace;
    for i := 0 to |frames|
      invariant Replies(s.trace) == replies0 + Answers(srv, frames[..i], sids[..i])
      invariant s.subs == TableAfter(subs0, srv, frames[..i], sids[..i])
      invariant forall g :: StopCount(s.trace, g) == StopCount(t0, g) + ReleaseCount(subs0, srv, frames[..i], sids[..i], g)
    {
      HandleFrame(s, srv, frames[i], sids[i], i);
      assert frames[..i + 1][..i] == frames[..i] && sids[..i + 1][..i] == sids[..i];
    }
    assert frames[..|frames|] == frames && sids[..|sids|] == sids;
  }

  /** The i-th reply of a run is the reply to the i-th frame on call i: replies never depend on the table. */
  lemma {:induction false} AnswersPointwise<Q>(srv: Server<Q>, frames: seq<Frame>, sids: seq<string>, i: nat)
    requires |sids| == |frames| && i < |frames|
    ensures Answers(srv, frames, sids)[i] == FrameReply(srv, frames[i], sids[i], i)
    decreases |frames|
  {
    var n := |frames| - 1;
    if i < n {
      AnswersPointwise(srv, frames[..n], sids[..n], i);
    }
  }

  // ----- properties -----

  /** A frame JSON decoding rejects is answered -32700 with a null id and leaves the table alone. */
  lemma MalformedFrame<Q>(srv: Server<Q>, subs: map<string, StopHandle>, sid: string, call: nat)
    ensures FrameReply(srv, Malformed, sid, call).error == Some(RpcError(ParseError, "Parse error"))
    ensures FrameReply(srv, Malformed, sid, call).id == JNull
    ensures NextTable(subs, srv, Malformed, sid, call) == subs && Released(subs, Malformed).None?
  {
  }

  /**
   * eth_subscribe without params, or of a kind other than the three,
   * answers -32602 and leaves the table alone.
   */
  lemma RefusedSubscribe<Q>(srv: Server<Q>, subs: map<string, StopHandle>, req: Request, sid: string, call: nat)
    requires req.name == "eth_subscribe"
    requires |req.params| < 1 || MustString(req.params[0]) !in {"newHeads", "logs", "newPendingTransactions"}
    ensures FrameReply(srv, Decoded(req), sid, call).error.Some?
    ensures FrameReply(srv, Decoded(req), sid, call).error.value.code == InvalidParams
    ensures NextTable(subs, srv, Decoded(req), sid, call) == subs
  {
  }

  /** A backend that refuses the subscription gives -32000 with its error text and no table entry. */
  lemma FailedSubscribe<Q>(srv: Server<Q>, subs: map<string, StopHandle>, req: Request, sid: string, call: nat, f: Feed<Q>, e: string)
    requires req.name == "eth_subscribe" && FeedOf(srv, req.params) == Ok(f) && srv.open(f, call) == Err(e)
    ensures FrameReply(srv, Decoded(req), sid, call).error == Some(RpcError(ServerError, e))
    ensures NextTable(subs, srv, Decoded(req), sid, call) == subs
  {
  }

  /** A successful subscribe answers with the id and stores its handle under that id, replacing any there. */
  lemma AcceptedSubscribe<Q>(srv: Server<Q>, subs: map<string, StopHandle>, req: Request, sid: string, call: nat, f: Feed<Q>, h: StopHandle)
    requires req.name == "eth_subscribe" && FeedOf(srv, req.params) == Ok(f) && srv.open(f, call) == Ok(h)
    ensures FrameReply(srv, Decoded(req), sid, call).result == Some(JStr(sid))
    ensures NextTable(subs, srv, Decoded(req), sid, call) == subs[sid := h]
  {
  }

  /** eth_unsubscribe answers true for any id, present or not, and removes it. */
  lemma UnsubscribeAlwaysTrue<Q>(srv: Server<Q>, subs: map<string, StopHandle>, req: Request, sid: string, call: nat)
    requires req.name == "eth_unsubscribe" && |req.params| >= 1
    ensures FrameReply(srv, Decoded(req), sid, call).result == Some(JBool(true))
    ensures MustString(req.params[0]) !in NextTable(subs, srv, Decoded(req), sid, call)
  {
  }

  /**
   * storeSub overwrites, seen over the whole loop: two subscribes that the
   * clock gives the same id, each opening its own stop function, then an
   * unsubscribe of that id. Both subscribes are answered with the id, the
   * unsubscribe stops the second subscription once, and the first one's
   * stop function is never called.
   */
  lemma SameIdOrphansFirst<Q>(srv: Server<Q>, subs: map<string, StopHandle>, sub1: Request, sub2: Request, unsub: Request,
                              sid: string, later: string, h1: StopHandle, h2: StopHandle)
    requires sub1.name == "eth_subscribe" && sub2.name == "eth_subscribe" && unsub.name == "eth_unsubscribe"
    requires Opened(srv, sub1, 0) == Some(h1) && Opened(srv, sub2, 1) == Some(h2) && h1 != h2
    requires |unsub.params| >= 1 && MustString(unsub.params[0]) == sid
    ensures var frames, sids := [Decoded(sub1), Decoded(sub2), Decoded(unsub)], [sid, sid, later];
      && Answers(srv, frames, sids)[0].result == Some(JStr(sid))
      && Answers(srv, frames, sids)[1].result == Some(JStr(sid))
      && ReleaseCount(subs, srv, frames, sids, h2) == 1
      && ReleaseCount(subs, srv, frames, sids, h1) == 0
      && sid !in TableAfter(subs, srv, frames, sids)
  {
    var frames, sids := [Decoded(sub1), Decoded(sub2), Decoded(unsub)], [sid, sid, later];
    assert frames[..2][..1] == frames[..1] && sids[..2][..1] == sids[..1];
    assert frames[..1][..0] == [] && sids[..1][..0] == [];
    assert frames[..1][0] == Decoded(sub1) && frames[..2][1] == Decoded(sub2);
    assert TableAfter(subs, srv, frames[..1][..0], sids[..1][..0]) == subs;
    var t1 := TableAfter(subs, srv, frames[..1], sids[..1]);
    assert t1 == NextTable(subs, srv, Decoded(sub1), sid, 0) == subs[sid := h1];
    var t2 := TableAfter(subs, srv, frames[..2], sids[..2]);
    assert t2 == NextTable(t1, srv, Decoded(sub2), sid, 1) == t1[sid := h2];
    assert Released(t2, frames[2]) == Some(h2);
    forall g | g == h1 || g == h2
      ensures ReleaseCount(subs, srv, frames[..2], sids[..2], g) == 0
    {
      assert ReleaseCount(subs, srv, frames[..1], sids[..1], g) == 0;
    }
    AnswersPointwise(srv, frames, sids, 0);
    AnswersPointwise(srv, frames, sids, 1);
  }
}
