/**
 * The per-connection state of the WebSocket server, common to both
 * generations: the subscription table `subs` (id to stop handle) and,
 * in order, everything the connection does — table updates, stop calls,
 * frames written to the socket and forwarders started.
 */
module WsSession {
  import opened Wrappers
  import opened Json
  import opened Envelope
  import opened Dispatch
  import opened Types

  /** A subscription notification (subMsg): protocol tag, method, and params {subscription, result}. */
  datatype Notification = Notification(jsonrpc: string, name: string, subscription: string, result: Json)

  /** The object encoding/json writes for a notification. */
  function NotificationJson(n: Notification): (j: Json)
    ensures j.JObj? && j.fields.Keys == {"jsonrpc", "method", "params"}
    ensures j.fields["params"] == JObj(map["subscription" := JStr(n.subscription), "result" := n.result])
  {
    JObj(map[
      "jsonrpc" := JStr(n.jsonrpc),
      "method" := JStr(n.name),
      "params" := JObj(map["subscription" := JStr(n.subscription), "result" := n.result])])
  }

  /** A frame written to the socket: a reply to a request, or a notification. */
  datatype Outbound = Reply(resp: Response) | Push(note: Notification)

  /** One thing the connection does. */
  datatype Event =
    | Stored(sid: string, handle: StopHandle)
    | Stopped(stopped: StopHandle)
    | Deleted(deleted: string)
    | Wrote(out: Outbound)
    | Spawned(kind: string, forSid: string)

  /** A frame read from the socket: one that JSON decoding rejects, or a decoded request. */
  datatype Frame = Malformed | Decoded(req: Request)

  /** The reply an event writes, if it writes one. */
  function ReplyOf(e: Event): seq<Response> {
    if e.Wrote? && e.out.Reply? then [e.out.resp] else []
  }

  /** The replies among the events, in order. */
  function Replies(t: seq<Event>): seq<Response>
    decreases |t|
  {
    if |t| == 0 then [] else Replies(t[..|t| - 1]) + ReplyOf(t[|t| - 1])
  }

  /** How many times the handle's stop function was called. */
  function StopCount(t: seq<Event>, h: StopHandle): nat
    decreases |t|
  {
    if |t| == 0 then 0
    else StopCount(t[..|t| - 1], h) + (if t[|t| - 1] == Stopped(h) then 1 else 0)
  }

  /** One more event adds its reply, if any, and counts once more for the handle it stops, if any. */
  lemma Snoc(t: seq<Event>, e: Event, g: StopHandle)
    ensures Replies(t + [e]) == Replies(t) + ReplyOf(e)
    ensures StopCount(t + [e], g) == StopCount(t, g) + (if e == Stopped(g) then 1 else 0)
  {
    assert (t + [e])[..|t|] == t;
  }

  lemma {:induction false} RepliesAppend(a: seq<Event>, b: seq<Event>)
    ensures Replies(a + b) == Replies(a) + Replies(b)
    decreases |b|
  {
    if |b| > 0 {
      var last := b[|b| - 1];
      assert (a + b)[..|a + b| - 1] == a + b[..|b| - 1];
      RepliesAppend(a, b[..|b| - 1]);
    } else {
      assert a + b == a;
    }
  }

  lemma {:induction false} StopCountAppend(a: seq<Event>, b: seq<Event>, h: StopHandle)
    ensures StopCount(a + b, h) == StopCount(a, h) + StopCount(b, h)
    decreases |b|
  {
    if |b| > 0 {
      assert (a + b)[..|a + b| - 1] == a + b[..|b| - 1];
      StopCountAppend(a, b[..|b| - 1], h);
    } else {
      assert a + b == a;
    }
  }

  /** The answer to a frame JSON decoding rejects: -32700 "Parse error" with a null id. */
  const ParseErrorReply: Response := RespErr(JNull, ParseError, "Parse error")

  /** The answer to eth_unsubscribe: -32602 "missing id" without params, true otherwise, found or not. */
  function UnsubscribeReply(req: Request): (r: Response)
    ensures r.id == req.id && ExactlyOne(r)
    ensures |req.params| >= 1 <==> r.result == Some(JBool(true))
    ensures |req.params| < 1 <==> r.error == Some(RpcError(InvalidParams, "missing id"))
  {
    if |req.params| < 1 then RespErr(req.id, InvalidParams, "missing id")
    else RespOK(req.id, Some(JBool(true)))
  }

  /** The table after eth_unsubscribe: the named id is gone, every other entry stays; an absent id changes nothing. */
  function UnsubscribeTable(subs: map<string, StopHandle>, req: Request): (t: map<string, StopHandle>)
    ensures |req.params| < 1 ==> t == subs
    ensures |req.params| >= 1 ==> MustString(req.params[0]) !in t
    ensures t.Keys <= subs.Keys
    ensures forall k :: k in t ==> t[k] == subs[k]
    ensures |req.params| >= 1 ==> t.Keys == subs.Keys - {MustString(req.params[0])}
  {
    if |req.params| < 1 then subs else subs - {MustString(req.params[0])}
  }

  /** The stop handle a frame releases: the one stored under the id an eth_unsubscribe names, if any. */
  function Released(subs: map<string, StopHandle>, frame: Frame): (r: Option<StopHandle>)
    ensures r.Some? ==> frame.Decoded? && frame.req.name == "eth_unsubscribe" && r.value in subs.Values
  {
    if frame.Decoded? && frame.req.name == "eth_unsubscribe" && |frame.req.params| >= 1
      && MustString(frame.req.params[0]) in subs
    then Some(subs[MustString(frame.req.params[0])])
    else None
  }

  /** Unsubscribing the same id twice releases its handle the first time and nothing the second. */
  lemma SecondUnsubscribeReleasesNothing(subs: map<string, StopHandle>, req: Request)
    requires req.name == "eth_unsubscribe" && |req.params| >= 1
    ensures MustString(req.params[0]) in subs ==> Released(subs, Decoded(req)) == Some(subs[MustString(req.params[0])])
    ensures Released(UnsubscribeTable(subs, req), Decoded(req)).None?
    ensures UnsubscribeTable(UnsubscribeTable(subs, req), req) == UnsubscribeTable(subs, req)
  {
  }

  /**
   * storeSub overwrites: once a second handle is stored under an id that
   * held the first, and the first is stored nowhere else, no entry of the
   * table holds the first any more, so no eth_unsubscribe can release it.
   */
  lemma OverwriteOrphans(subs: map<string, StopHandle>, sid: string, h1: StopHandle, h2: StopHandle, frame: Frame)
    requires h1 != h2
    requires forall k :: k in subs && subs[k] == h1 ==> k == sid
    ensures h1 !in subs[sid := h1][sid := h2].Values
    ensures Released(subs[sid := h1][sid := h2], frame) != Some(h1)
  {
  }

  /** One connection's state. */
  class Session {
    var subs: map<string, StopHandle>
    var trace: seq<Event>

    constructor()
      ensures subs == map[] && trace == []
    {
      subs := map[];
      trace := [];
    }

    /** How many times this connection called the handle's stop function. */
    function Stops(h: StopHandle): nat
      reads this
    {
      StopCount(trace, h)
    }

    /** storeSub: record the stop handle under the id, replacing any handle already there. */
    method StoreSub(sid: string, h: StopHandle)
      modifies this
      ensures subs == old(subs)[sid := h]
      ensures trace == old(trace) + [Stored(sid, h)]
    {
      subs := subs[sid := h];
      trace := trace + [Stored(sid, h)];
    }

    /** conn.WriteJSON */
    method Send(o: Outbound)
      modifies this
      ensures subs == old(subs)
      ensures trace == old(trace) + [Wrote(o)]
    {
      trace := trace + [Wrote(o)];
    }

    /** `go forward...(conn, sid, ch)`: start the forwarder of the given kind. */
    method Spawn(kind: string, sid: string)
      modifies this
      ensures subs == old(subs)
      ensures trace == old(trace) + [Spawned(kind, sid)]
    {
      trace := trace + [Spawned(kind, sid)];
    }

    /**
     * A forwarder draining its channel: for each item, in order, a
     * notification under the protocol tag with method "eth_subscription",
     * the id, and the item rendered as its result.
     */
    method Drain<T>(tag: string, sid: string, items: seq<T>, render: T -> Json)
      modifies this
      ensures subs == old(subs)
      ensures trace == old(trace) + seq(|items|, i requires 0 <= i < |items| =>
        Wrote(Push(Notification(tag, "eth_subscription", sid, render(items[i])))))
    {
      ghost var t0 := trace;
      ghost var pushes := seq(|items|, i requires 0 <= i < |items| =>
        Wrote(Push(Notification(tag, "eth_subscription", sid, render(items[i])))));
      for i := 0 to |items|
        invariant subs == old(subs)
        invariant trace == t0 + pushes[..i]
      {
        var msg := Notification(tag, "eth_subscription", sid, render(items[i]));
        Send(Push(msg));
        assert pushes[..i + 1] == pushes[..i] + [pushes[i]];
      }
      assert pushes[..|items|] == pushes;
    }

    /**
     * The eth_unsubscribe branch: without params, -32602; otherwise a
     * present id has its stop function called once and its entry deleted,
     * and the reply is true whether the id was present or not.
     */
    method Unsubscribe(req: Request)
      modifies this
      ensures |req.params| < 1 ==> subs == old(subs) && trace == old(trace) + [Wrote(Reply(UnsubscribeReply(req)))]
      ensures |req.params| >= 1 && MustString(req.params[0]) in old(subs) ==>
        var id := MustString(req.params[0]);
        subs == old(subs) - {id}
        && trace == old(trace) + [Stopped(old(subs)[id]), Deleted(id), Wrote(Reply(UnsubscribeReply(req)))]
      ensures |req.params| >= 1 && MustString(req.params[0]) !in old(subs) ==>
        subs == old(subs) && trace == old(trace) + [Wrote(Reply(UnsubscribeReply(req)))]
      ensures Replies(trace) == Replies(old(trace)) + [UnsubscribeReply(req)]
      ensures forall g :: (StopCount(trace, g) == StopCount(old(trace), g)
                             + (if |req.params| >= 1 && MustString(req.params[0]) in old(subs) && old(subs)[MustString(req.params[0])] == g then 1 else 0))
    {
      ghost var t0 := trace;
      if |req.params| < 1 {
        Send(Reply(RespErr(req.id, InvalidParams, "missing id")));
        Quiet(t0, UnsubscribeReply(req));
        return;
      }
      var id := MustString(req.params[0]);
      if id in subs {
        var h := subs[id];
        trace := trace + [Stopped(h)];
        subs := subs - {id};
        trace := trace + [Deleted(id)];
        Send(Reply(RespOK(req.id, Some(JBool(true)))));
        assert trace == t0 + [Stopped(h), Deleted(id), Wrote(Reply(UnsubscribeReply(req)))];
        UnsubscribeEffects(t0, h, id, UnsubscribeReply(req), StopHandle(0));
        forall g ensures StopCount(trace, g) == StopCount(t0, g) + (if h == g then 1 else 0) {
          UnsubscribeEffects(t0, h, id, UnsubscribeReply(req), g);
        }
      } else {
        Send(Reply(RespOK(req.id, Some(JBool(true)))));
        Quiet(t0, UnsubscribeReply(req));
      }
    }
  }

  /**
   * Unsubscribing a present id calls its stop function exactly once more
   * and no other handle's; an absent id calls none. Either way exactly
   * one reply is written.
   */
  lemma UnsubscribeEffects(t: seq<Event>, h: StopHandle, id: string, r: Response, g: StopHandle)
    ensures StopCount(t + [Stopped(h), Deleted(id), Wrote(Reply(r))], g) == StopCount(t, g) + (if g == h then 1 else 0)
    ensures Replies(t + [Stopped(h), Deleted(id), Wrote(Reply(r))]) == Replies(t) + [r]
  {
    var t1 := t + [Stopped(h)];
    var t2 := t1 + [Deleted(id)];
    assert t2 + [Wrote(Reply(r))] == t + [Stopped(h), Deleted(id), Wrote(Reply(r))];
    Snoc(t, Stopped(h), g);
    Snoc(t1, Deleted(id), g);
    Snoc(t2, Wrote(Reply(r)), g);
  }

  /** Writing a reply adds that reply and stops nothing. */
  lemma Quiet(t: seq<Event>, r: Response)
    ensures Replies(t + [Wrote(Reply(r))]) == Replies(t) + [r]
    ensures forall g :: StopCount(t + [Wrote(Reply(r))], g) == StopCount(t, g)
  {
    forall g ensures StopCount(t + [Wrote(Reply(r))], g) == StopCount(t, g) {
      Snoc(t, Wrote(Reply(r)), g);
    }
    Snoc(t, Wrote(Reply(r)), StopHandle(0));
  }

  /** A successful subscribe writes exactly one reply and stops nothing. */
  lemma SubscribeEffects(t: seq<Event>, sid: string, h: StopHandle, r: Response, kind: string, g: StopHandle)
    ensures Replies(t + [Stored(sid, h), Wrote(Reply(r)), Spawned(kind, sid)]) == Replies(t) + [r]
    ensures StopCount(t + [Stored(sid, h), Wrote(Reply(r)), Spawned(kind, sid)], g) == StopCount(t, g)
  {
    var t1 := t + [Stored(sid, h)];
    var t2 := t1 + [Wrote(Reply(r))];
    assert t2 + [Spawned(kind, sid)] == t + [Stored(sid, h), Wrote(Reply(r)), Spawned(kind, sid)];
    Snoc(t, Stored(sid, h), g);
    Snoc(t1, Wrote(Reply(r)), g);
    Snoc(t2, Spawned(kind, sid), g);
  }

  /** Notifications are not replies and stop nothing: what the forwarders write leaves both counts alone. */
  lemma {:induction false} PushesAreQuiet(t: seq<Event>, notes: seq<Notification>, g: StopHandle)
    ensures var pushes := seq(|notes|, i requires 0 <= i < |notes| => Wrote(Push(notes[i])));
      Replies(t + pushes) == Replies(t) && StopCount(t + pushes, g) == StopCount(t, g)
    decreases |notes|
  {
    var pushes := seq(|notes|, i requires 0 <= i < |notes| => Wrote(Push(notes[i])));
    if |notes| > 0 {
      var n := |notes| - 1;
      var front := seq(n, i requires 0 <= i < n => Wrote(Push(notes[..n][i])));
      assert pushes == front + [Wrote(Push(notes[n]))];
      PushesAreQuiet(t, notes[..n], g);
      assert t + pushes == (t + front) + [Wrote(Push(notes[n]))];
      Snoc(t + front, Wrote(Push(notes[n])), g);
    } else {
      assert t + pushes == t;
    }
  }
}
