/**
  The WebSocket side of the daemon: the registry of connected clients, each
  connection's bounded outbound queue, the table that correlates tool
  requests sent to the R client with the responses it sends back, and the
  read loop that dispatches incoming frames.

  Goroutines, channels and locks become sequential steps: a connection's
  outbound channel is a queue value, a response channel is a one-slot sink
  in the pending table, and the wait for a response is the sequence of
  responses the read loop hands over while the caller waits.
*/
module WebSocket {
  import opened Wrappers
  import opened Json
  import opened TextEditorTool
  import Http

  const Capacity := 256
  const RpcClientName := "r_tool_rpc"

  /** The errors of the correlation layer (errors.go) and json.Marshal's. */
  datatype RpcError = ClientNotConnected | Timeout | EncodeFailed(cause: string)
  {
    function Message(): string {
      match this
      case ClientNotConnected => "client not connected"
      case Timeout => "request timeout"
      case EncodeFailed(c) => c
    }
  }

  /** WebSocketMessage; `JNull` stands for a nil input or result. */
  datatype Frame = Frame(id: string, kind: string, tool: string, command: string, input: Json, result: Json)

  const FrameType := "WebSocketMessage"

  /** json.Marshal of a frame: everything but "type" is omitted when empty or nil. */
  function EncodeFrame(f: Frame): (j: Json)
    ensures j.JObject? && "type" in j.fields && j.fields["type"] == JString(f.kind)
  {
    var m0 := map["type" := JString(f.kind)];
    var m1 := if f.id != "" then m0["id" := JString(f.id)] else m0;
    var m2 := if f.tool != "" then m1["tool" := JString(f.tool)] else m1;
    var m3 := if f.command != "" then m2["command" := JString(f.command)] else m2;
    var m4 := if f.input != JNull then m3["input" := f.input] else m3;
    var m5 := if f.result != JNull then m4["result" := f.result] else m4;
    JObject(m5)
  }

  function AnyField(m: map<string, Json>, key: string): Json {
    if key in m then m[key] else JNull
  }

  /** json.Unmarshal of an incoming message; None when it reports an error (the read loop skips those). */
  function DecodeFrame(raw: Result<Json, string>): (f: Option<Frame>)
    ensures raw.Failure? ==> f.None?
    ensures raw.Success? && !raw.value.JObject? && !raw.value.JNull? ==> f.None?
    ensures raw.Success? && raw.value.JObject? ==>
      var m := raw.value.fields;
      (f.Some? <==> forall k :: k in ["id", "type", "tool", "command"] ==> StringField(m, FrameType, k).error.None?) &&
      (f.Some? ==> f.value.kind == StringField(m, FrameType, "type").value &&
                   f.value.id == StringField(m, FrameType, "id").value &&
                   f.value.result == AnyField(m, "result"))
  {
    match raw
    case Failure(_) => None
    case Success(JNull) => Some(Frame("", "", "", "", JNull, JNull))
    case Success(JObject(m)) =>
      var id := StringField(m, FrameType, "id");
      var kind := StringField(m, FrameType, "type");
      var tool := StringField(m, FrameType, "tool");
      var command := StringField(m, FrameType, "command");
      if id.error.Some? || kind.error.Some? || tool.error.Some? || command.error.Some? then None
      else Some(Frame(id.value, kind.value, tool.value, command.value, AnyField(m, "input"), AnyField(m, "result")))
    case Success(_) => None
  }

  /** Every frame the daemon sends reads back as itself. */
  lemma FrameRoundTrip(f: Frame)
    ensures DecodeFrame(Success(EncodeFrame(f))) == Some(f)
  {
    var m := EncodeFrame(f).fields;
    assert StringField(m, FrameType, "id").value == f.id;
    assert StringField(m, FrameType, "type").value == f.kind;
    assert StringField(m, FrameType, "tool").value == f.tool;
    assert StringField(m, FrameType, "command").value == f.command;
    assert AnyField(m, "input") == f.input;
    assert AnyField(m, "result") == f.result;
  }

  // ---------------------------------------------------------------- the outbound queue

  /** A connection's `send` channel: the buffered frames and whether it has been closed. */
  datatype Outbound = Outbound(frames: seq<Frame>, closed: bool)

  /**
    sendMessage: a frame joins an open queue with room; an open queue that
    is full is closed and the frame dropped; a closed queue drops the frame.
  */
  function Offer(q: Outbound, f: Frame): (r: Outbound)
    ensures r.frames == q.frames + [f] <==> !q.closed && |q.frames| < Capacity
    ensures r.frames != q.frames + [f] ==> r.frames == q.frames
    ensures r.closed <==> q.closed || |q.frames| >= Capacity
  {
    if q.closed then q
    else if |q.frames| < Capacity then Outbound(q.frames + [f], false)
    else Outbound(q.frames, true)
  }

  /** What a sendMessage as written does: the same, except that a send on a closed channel panics. */
  datatype OfferOutcome = Offered(queue: Outbound) | Panicked

  function OfferAsWritten(q: Outbound, f: Frame): (r: OfferOutcome)
    ensures r.Panicked? <==> q.closed
    ensures r.Offered? ==> r.queue == Offer(q, f)
  {
    if q.closed then Panicked
    else if |q.frames| < Capacity then Offered(Outbound(q.frames + [f], false))
    else Offered(Outbound(q.frames, true))
  }

  /** A full queue is closed by the next send, and the send after that panics. */
  lemma {:induction false} SendAfterOverflowPanics(frames: seq<Frame>, f: Frame, g: Frame)
    requires |frames| == Capacity
    ensures OfferAsWritten(Outbound(frames, false), f) == Offered(Outbound(frames, true))
    ensures OfferAsWritten(OfferAsWritten(Outbound(frames, false), f).queue, g) == Panicked
  {
  }

  function OfferAll(q: Outbound, fs: seq<Frame>): Outbound
    decreases |fs|
  {
    if fs == [] then q else Offer(OfferAll(q, fs[..|fs| - 1]), fs[|fs| - 1])
  }

  /** The queue never holds more than its capacity. */
  lemma {:induction false} OfferAllBounded(q: Outbound, fs: seq<Frame>)
    requires |q.frames| <= Capacity
    ensures |OfferAll(q, fs).frames| <= Capacity
    decreases |fs|
  {
    if fs != [] {
      OfferAllBounded(q, fs[..|fs| - 1]);
    }
  }

  /** Frames that fit are queued in the order they were offered. */
  lemma {:induction false} OfferAllFits(q: Outbound, fs: seq<Frame>)
    requires !q.closed && |q.frames| + |fs| <= Capacity
    ensures OfferAll(q, fs) == Outbound(q.frames + fs, false)
    decreases |fs|
  {
    if fs != [] {
      var init := fs[..|fs| - 1];
      OfferAllFits(q, init);
      assert q.frames + init + [fs[|fs| - 1]] == q.frames + fs;
    } else {
      assert q.frames + fs == q.frames;
    }
  }

  /**
    Overflow: the frames that fit are kept in order, the queue is closed and
    every frame from the first that did not fit on is lost.
  */
  lemma {:induction false} OfferAllOverflow(q: Outbound, fs: seq<Frame>)
    requires !q.closed && |q.frames| <= Capacity < |q.frames| + |fs|
    ensures OfferAll(q, fs) == Outbound(q.frames + fs[..Capacity - |q.frames|], true)
    decreases |fs|
  {
    var init := fs[..|fs| - 1];
    var room := Capacity - |q.frames|;
    if |q.frames| + |init| <= Capacity {
      OfferAllFits(q, init);
      assert |q.frames| + |init| == Capacity;
      assert init == fs[..room];
    } else {
      OfferAllOverflow(q, init);
      assert init[..room] == fs[..room];
    }
  }

  /** One step of writePump. */
  datatype WriterStep = Write(frame: Frame) | SendClose | Idle

  /** writePump: buffered frames are written first, in order; a drained closed channel ends with a close message. */
  function Take(q: Outbound): (r: (Outbound, WriterStep))
    ensures q.frames != [] ==> r == (Outbound(q.frames[1..], q.closed), Write(q.frames[0]))
    ensures q.frames == [] ==> r.0 == q && (r.1 == SendClose <==> q.closed) && (r.1 == Idle <==> !q.closed)
  {
    if q.frames != [] then (Outbound(q.frames[1..], q.closed), Write(q.frames[0]))
    else if q.closed then (q, SendClose)
    else (q, Idle)
  }

  // ---------------------------------------------------------------- connections

  /** WebSocketConnection: the outbound queue and the client name the handshake sets. */
  class Connection {
    var out: Outbound
    var client: string

    predicate Valid()
      reads this
    {
      |out.frames| <= Capacity
    }

    constructor()
      ensures out == Outbound([], false) && client == "" && Valid()
    {
      out := Outbound([], false);
      client := "";
    }

    /**
      sendMessage, with the corrected drop once closed; `panicked` reports
      that the send as written would have panicked on the closed channel.
    */
    method SendMessage(f: Frame) returns (panicked: bool)
      requires Valid()
      modifies this
      ensures Valid()
      ensures out == Offer(old(out), f) && client == old(client)
      ensures panicked <==> OfferAsWritten(old(out), f).Panicked?
      ensures !panicked ==> out == OfferAsWritten(old(out), f).queue
    {
      panicked := out.closed;
      if !out.closed {
        if |out.frames| < Capacity {
          out := Outbound(out.frames + [f], false);
        } else {
          out := out.(closed := true);
        }
      }
    }

    /** One iteration of writePump's loop, ticks left out. */
    method WriteNext() returns (step: WriterStep)
      requires Valid()
      modifies this
      ensures Valid()
      ensures (out, step) == Take(old(out)) && client == old(client)
    {
      if out.frames != [] {
        step := Write(out.frames[0]);
        out := Outbound(out.frames[1..], out.closed);
      } else if out.closed {
        step := SendClose;
      } else {
        step := Idle;
      }
    }
  }

  /** The upgrade is allowed only with exactly "Bearer " and the daemon's tool token. */
  predicate Authorized(authorization: string, token: string) {
    authorization == "Bearer " + token
  }

  /** One Authorization header can match only one token. */
  lemma {:induction false} AuthorizationDeterminesToken(authorization: string, t1: string, t2: string)
    requires Authorized(authorization, t1) && Authorized(authorization, t2)
    ensures t1 == t2
  {
    assert t1 == authorization[7..];
    assert t2 == authorization[7..];
  }

  /** HandleWebSocket: refuse with 401, or a fresh connection with an empty queue and no client name. */
  method HandleWebSocket(authorization: string, token: string) returns (refusal: Option<Http.Reply>, conn: Connection?)
    ensures refusal.Some? <==> !Authorized(authorization, token)
    ensures refusal.Some? ==> refusal.value == Http.Error("Unauthorized", Http.StatusUnauthorized) && conn == null
    ensures refusal.None? ==> conn != null && fresh(conn) && conn.out == Outbound([], false) && conn.client == ""
  {
    if authorization != "Bearer " + token {
      return Some(Http.Error("Unauthorized", Http.StatusUnauthorized)), null;
    }
    conn := new Connection();
    refusal := None;
  }

  // ---------------------------------------------------------------- correlation

  /** What a pending request id maps to: a one-slot view-output channel, or a channel of another type. */
  datatype Sink = ViewSink(slot: Option<ToolOutput>) | OtherSink

  /** A tool_response as handed to handleToolResponse; a Failure result is a value json.Marshal rejects. */
  datatype ToolReply = ToolReply(id: string, tool: string, command: string, result: Result<Json, string>)

  const ViewOutputType := "textEditorViewOutput"

  predicate IsViewReply(r: ToolReply) {
    r.tool == "text_editor" && r.command == "view"
  }

  /** The output a view response delivers: the decoded result, or an output naming the step that failed. */
  function DecodeReply(result: Result<Json, string>): (o: ToolOutput)
    ensures result.Failure? ==> o == ToolOutput("", "Failed to marshal response")
    ensures result.Success? && DecodeToolOutput(result, ViewOutputType).Failure? ==> o == ToolOutput("", "Failed to parse response")
    ensures result.Success? && DecodeToolOutput(result, ViewOutputType).Success? ==> o == DecodeToolOutput(result, ViewOutputType).value
  {
    match result
    case Failure(_) => ToolOutput("", "Failed to marshal response")
    case Success(j) =>
      match DecodeToolOutput(Success(j), ViewOutputType)
      case Failure(_) => ToolOutput("", "Failed to parse response")
      case Success(o) => o
  }

  /** A reply meets a sink: only a view reply fills an empty view slot. */
  function Fill(s: Sink, r: ToolReply): Sink {
    if IsViewReply(r) && s == ViewSink(None) then ViewSink(Some(DecodeReply(r.result))) else s
  }

  /** handleToolResponse on the pending table. */
  function ResolveReply(p: map<string, Sink>, r: ToolReply): (q: map<string, Sink>)
    ensures q.Keys == p.Keys
    ensures r.id !in p ==> q == p
    ensures !IsViewReply(r) ==> q == p
    ensures forall k :: k in p && k != r.id ==> q[k] == p[k]
    ensures r.id in p ==> q[r.id] == Fill(p[r.id], r)
  {
    if r.id in p then p[r.id := Fill(p[r.id], r)] else p
  }

  function ResolveAll(p: map<string, Sink>, rs: seq<ToolReply>): map<string, Sink>
    decreases |rs|
  {
    if rs == [] then p else ResolveReply(ResolveAll(p, rs[..|rs| - 1]), rs[|rs| - 1])
  }

  /** The successive fills of one sink by the replies carrying its id. */
  function FillAll(s: Sink, id: string, rs: seq<ToolReply>): Sink
    decreases |rs|
  {
    if rs == [] then s
    else
      var before := FillAll(s, id, rs[..|rs| - 1]);
      if rs[|rs| - 1].id == id then Fill(before, rs[|rs| - 1]) else before
  }

  /** The output of the first view reply for `id`, if there is one. */
  function FirstViewReply(id: string, rs: seq<ToolReply>): Option<ToolOutput>
    decreases |rs|
  {
    if rs == [] then None
    else
      var before := FirstViewReply(id, rs[..|rs| - 1]);
      var r := rs[|rs| - 1];
      if before.Some? then before
      else if r.id == id && IsViewReply(r) then Some(DecodeReply(r.result))
      else None
  }

  /** The read loop never adds or removes a pending request. */
  lemma {:induction false} ResolveAllKeys(p: map<string, Sink>, rs: seq<ToolReply>)
    ensures ResolveAll(p, rs).Keys == p.Keys
    decreases |rs|
  {
    if rs != [] {
      ResolveAllKeys(p, rs[..|rs| - 1]);
    }
  }

  /** A request registered alongside others is filled on its own: the other entries evolve as without it. */
  lemma {:induction false} ResolveAllSeparate(p: map<string, Sink>, id: string, s: Sink, rs: seq<ToolReply>)
    requires id !in p
    ensures ResolveAll(p[id := s], rs) == ResolveAll(p, rs)[id := FillAll(s, id, rs)]
    decreases |rs|
  {
    if rs != [] {
      ResolveAllSeparate(p, id, s, rs[..|rs| - 1]);
      ResolveAllKeys(p, rs[..|rs| - 1]);
    }
  }

  /** An empty view slot ends up holding the first view reply for its id; later ones are dropped. */
  lemma {:induction false} FirstReplyWins(id: string, rs: seq<ToolReply>)
    ensures FillAll(ViewSink(None), id, rs) == ViewSink(FirstViewReply(id, rs))
    decreases |rs|
  {
    if rs != [] {
      FirstReplyWins(id, rs[..|rs| - 1]);
    }
  }

  /** Replies for other ids, or for other tools, leave a slot as it was. */
  lemma {:induction false} UnrelatedRepliesIgnored(id: string, rs: seq<ToolReply>)
    requires forall i :: 0 <= i < |rs| ==> rs[i].id != id || !IsViewReply(rs[i])
    ensures FirstViewReply(id, rs) == None
    decreases |rs|
  {
    if rs != [] {
      UnrelatedRepliesIgnored(id, rs[..|rs| - 1]);
    }
  }

  // ---------------------------------------------------------------- the registry on teardown

  /** readPump's deferred teardown as written: the session's client name is removed, whoever it names now. */
  function TeardownAsWritten<C>(conns: map<string, C>, client: string): map<string, C> {
    if client != "" then conns - {client} else conns
  }

  /** The teardown the registry needs: the name is removed only while it still names this session. */
  function Teardown<C(==)>(conns: map<string, C>, client: string, session: C): (r: map<string, C>)
    ensures forall n :: n in conns && conns[n] != session ==> n in r && r[n] == conns[n]
    ensures forall n :: n in r ==> n in conns && r[n] == conns[n]
    ensures client != "" && client in conns && conns[client] == session ==> client !in r
  {
    if client != "" && client in conns && conns[client] == session then conns - {client} else conns
  }

  /**
    A session replaced by a newer one under the same name unregisters the
    newer one when it ends, with teardown as written; the corrected teardown
    keeps it.
  */
  lemma {:induction false} StaleSessionTeardown(stale: int, live: int)
    requires stale != live
    ensures RpcClientName !in TeardownAsWritten(map[RpcClientName := live], RpcClientName)
    ensures Teardown(map[RpcClientName := live], RpcClientName, stale) == map[RpcClientName := live]
  {
  }

  // ---------------------------------------------------------------- the manager

  /** The manager's state as a value, for the read loop's specification. */
  datatype Registry = Registry(connections: map<string, Connection>, pending: map<string, Sink>, client: string)

  /** One incoming message in readPump's loop. */
  function DispatchSpec(st: Registry, session: Connection, raw: Result<Json, string>): (r: Registry)
    ensures r.pending.Keys == st.pending.Keys
  {
    match DecodeFrame(raw)
    case None => st
    case Some(f) =>
      if f.kind == "handshake" then Registry(st.connections[RpcClientName := session], st.pending, RpcClientName)
      else if f.kind == "tool_response" && f.id != "" && f.result != JNull then
        st.(pending := ResolveReply(st.pending, ToolReply(f.id, f.tool, f.command, Success(f.result))))
      else st
  }

  function PumpSpec(st: Registry, session: Connection, raws: seq<Result<Json, string>>): Registry
    decreases |raws|
  {
    if raws == [] then st else DispatchSpec(PumpSpec(st, session, raws[..|raws| - 1]), session, raws[|raws| - 1])
  }

  /** A handshake registers the session under the fixed name, whatever else the frame holds. */
  lemma HandshakeRegisters(st: Registry, session: Connection, f: Frame)
    requires f.kind == "handshake"
    ensures var r := DispatchSpec(st, session, Success(EncodeFrame(f)));
      r.client == RpcClientName && RpcClientName in r.connections && r.connections[RpcClientName] == session &&
      r.connections - {RpcClientName} == st.connections - {RpcClientName} && r.pending == st.pending
  {
    FrameRoundTrip(f);
  }

  /** Messages that do not decode are skipped. */
  lemma MalformedSkipped(st: Registry, session: Connection, cause: string)
    ensures DispatchSpec(st, session, Failure(cause)) == st
  {
  }

  /** Nothing but a handshake touches the registry of connections. */
  lemma {:induction false} OnlyHandshakesRegister(st: Registry, session: Connection, raws: seq<Result<Json, string>>)
    requires forall i :: 0 <= i < |raws| ==> DecodeFrame(raws[i]).None? || DecodeFrame(raws[i]).value.kind != "handshake"
    ensures PumpSpec(st, session, raws).connections == st.connections
    ensures PumpSpec(st, session, raws).client == st.client
    decreases |raws|
  {
    if raws != [] {
      OnlyHandshakesRegister(st, session, raws[..|raws| - 1]);
    }
  }

  /** WebSocketManager */
  class Manager {
    var connections: map<string, Connection>
    var pending: map<string, Sink>

    predicate Valid()
      reads this, connections.Values
    {
      forall c :: c in connections.Values ==> c.Valid()
    }

    /** NewWebSocketManager */
    constructor()
      ensures connections == map[] && pending == map[] && Valid()
    {
      connections := map[];
      pending := map[];
    }

    /** addConnection: the name now maps to the connection, whatever it mapped to before. */
    method AddConnection(name: string, c: Connection)
      requires Valid() && c.Valid()
      modifies this
      ensures Valid()
      ensures connections == old(connections)[name := c] && pending == old(pending)
    {
      connections := connections[name := c];
    }

    /** removeConnection */
    method RemoveConnection(name: string)
      requires Valid()
      modifies this
      ensures Valid()
      ensures connections == old(connections) - {name} && pending == old(pending)
    {
      connections := connections - {name};
    }

    /** sendToClient: an unregistered name is an error and nothing is queued anywhere. */
    method SendToClient(name: string, f: Frame) returns (err: Option<RpcError>, panicked: bool)
      requires Valid()
      modifies if name in connections then {connections[name]} else {}
      ensures Valid()
      ensures name !in connections ==> err == Some(ClientNotConnected) && !panicked
      ensures name in connections ==>
        (err == None &&
         connections[name].out == Offer(old(connections[name].out), f) &&
         connections[name].client == old(connections[name].client) &&
         (panicked <==> OfferAsWritten(old(connections[name].out), f).Panicked?))
    {
      if name !in connections {
        return Some(ClientNotConnected), false;
      }
      var conn := connections[name];
      panicked := conn.SendMessage(f);
      return None, panicked;
    }

    /**
      sendToolCommand: the sink is registered under the caller's fresh id
      before sending; if encoding or sending fails the registration is undone.
    */
    method SendToolCommand(tool: string, command: string, input: Result<Json, string>, sink: Sink, id: string)
      returns (requestId: string, err: Option<RpcError>)
      requires Valid() && id !in pending
      modifies this, if RpcClientName in connections then {connections[RpcClientName]} else {}
      ensures Valid() && connections == old(connections)
      ensures input.Failure? ==> err == Some(EncodeFailed(input.error))
      ensures input.Success? && RpcClientName !in connections ==> err == Some(ClientNotConnected)
      ensures err.Some? ==> requestId == "" && pending == old(pending)
      ensures err.None? <==> input.Success? && RpcClientName in connections
      ensures err.None? ==> requestId == id && pending == old(pending)[id := sink]
      ensures RpcClientName in connections ==>
        connections[RpcClientName].client == old(connections[RpcClientName].client) &&
        connections[RpcClientName].out ==
          if input.Success? then Offer(old(connections[RpcClientName].out), Frame(id, "tool_request", tool, command, input.value, JNull))
          else old(connections[RpcClientName].out)
    {
      pending := pending[id := sink];
      if input.Failure? {
        pending := pending - {id};
        assert pending == old(pending);
        return "", Some(EncodeFailed(input.error));
      }
      var msg := Frame(id, "tool_request", tool, command, input.value, JNull);
      var panicked;
      err, panicked := SendToClient(RpcClientName, msg);
      if err.Some? {
        pending := pending - {id};
        assert pending == old(pending);
        return "", err;
      }
      return id, None;
    }

    /** handleToolResponse */
    method HandleToolResponse(r: ToolReply)
      requires Valid()
      modifies this
      ensures Valid() && connections == old(connections)
      ensures pending == ResolveReply(old(pending), r)
    {
      if r.id !in pending {
        return;
      }
      if IsViewReply(r) {
        var s := pending[r.id];
        if s.ViewSink? && s.slot.None? {
          var output := DecodeReply(r.result);
          pending := pending[r.id := ViewSink(Some(output))];
        }
      }
    }

    /**
      sendTextEditorCommand: send a view request under the fresh id, let the
      read loop hand over the responses that arrive during the wait, then
      remove the id. The first view response for the id is the answer; none
      means the timeout fired.
    */
    method SendTextEditorCommand(path: string, viewRange: seq<int>, id: string, replies: seq<ToolReply>)
      returns (output: Option<ToolOutput>, err: Option<RpcError>)
      requires Valid() && id !in pending
      modifies this, if RpcClientName in connections then {connections[RpcClientName]} else {}
      ensures Valid() && connections == old(connections)
      ensures RpcClientName !in connections ==> output == None && err == Some(ClientNotConnected) && pending == old(pending)
      ensures RpcClientName in connections ==>
        connections[RpcClientName].out ==
          Offer(old(connections[RpcClientName].out), Frame(id, "tool_request", "text_editor", "view", ViewIn(path, viewRange).Payload(), JNull)) &&
        pending == ResolveAll(old(pending), replies) &&
        output == FirstViewReply(id, replies) &&
        (output.None? <==> err == Some(Timeout)) &&
        (output.Some? <==> err == None)
    {
      var requestId;
      requestId, err := SendToolCommand("text_editor", "view", Success(ViewIn(path, viewRange).Payload()), ViewSink(None), id);
      if err.Some? {
        return None, err;
      }
      ghost var start := pending;
      for i := 0 to |replies|
        invariant Valid() && connections == old(connections)
        invariant pending == ResolveAll(start, replies[..i])
        invariant RpcClientName in connections
        invariant connections[RpcClientName].out ==
          Offer(old(connections[RpcClientName].out), Frame(id, "tool_request", "text_editor", "view", ViewIn(path, viewRange).Payload(), JNull))
      {
        assert replies[..i + 1][..i] == replies[..i];
        HandleToolResponse(replies[i]);
      }
      assert replies[..|replies|] == replies;
      ResolveAllSeparate(old(pending), id, ViewSink(None), replies);
      FirstReplyWins(id, replies);
      ResolveAllKeys(old(pending), replies);
      var sink := pending[id];
      pending := pending - {id};
      assert pending == ResolveAll(old(pending), replies);
      if sink.slot.Some? {
        return Some(sink.slot.value), None;
      }
      return None, Some(Timeout);
    }

    /** One message of readPump's loop. */
    method Dispatch(session: Connection, raw: Result<Json, string>)
      requires Valid() && session.Valid()
      modifies this, session
      ensures Valid() && session.out == old(session.out)
      ensures Registry(connections, pending, session.client) ==
        DispatchSpec(Registry(old(connections), old(pending), old(session.client)), session, raw)
    {
      var msg := DecodeFrame(raw);
      if msg.None? {
        return;
      }
      var f := msg.value;
      if f.kind == "handshake" {
        session.client := RpcClientName;
        AddConnection(session.client, session);
      } else if f.kind == "tool_response" {
        if f.id != "" && f.result != JNull {
          HandleToolResponse(ToolReply(f.id, f.tool, f.command, Success(f.result)));
        }
      }
    }

    /** readPump: every message in turn until the connection ends, then the teardown. */
    method ReadPump(session: Connection, raws: seq<Result<Json, string>>)
      requires Valid() && session.Valid()
      modifies this, session
      ensures Valid() && session.out == old(session.out)
      ensures var st := PumpSpec(Registry(old(connections), old(pending), old(session.client)), session, raws);
        connections == Teardown(st.connections, st.client, session) &&
        pending == st.pending && session.client == st.client
    ensures var st := PumpSpec(Registry(old(connections), old(pending), old(session.client)), session, raws);
        (st.client !in st.connections || st.connections[st.client] == session) ==>
          connections == TeardownAsWritten(st.connections, st.client)
    {
      for i := 0 to |raws|
        invariant Valid() && session.Valid() && session.out == old(session.out)
        invariant Registry(connections, pending, session.client) ==
          PumpSpec(Registry(old(connections), old(pending), old(session.client)), session, raws[..i])
      {
        assert raws[..i + 1][..i] == raws[..i];
        Dispatch(session, raws[i]);
      }
      assert raws[..|raws|] == raws;
      if session.client != "" && session.client in connections && connections[session.client] == session {
        RemoveConnection(session.client);
      }
    }
  }
}
