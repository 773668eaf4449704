/**
 Both halves of the tunnel as one step system: concurrent roundTrip calls on the hub,
 the two directions of the socket, the runner's read pump and its handler goroutines
 (cmd/chepherd-hub/tunnel.go, cmd/runner/relay_tunnel.go).

 A run is any sequence of steps; a step that is not enabled changes nothing. dispatch is
 two steps, because the code releases the lock between the map lookup and the channel
 send. close is one step for its critical section and one step for each channel.
 */
module TunnelProtocol {
  import opened Common
  import opened Tunnel

  // ---------------------------------------------------------- runner frames

  function Lower(s: string): (r: string)
  {
    seq(|s|, i requires 0 <= i < |s| =>
      if 'A' <= s[i] <= 'Z' then (s[i] as int + 32) as char else s[i])
  }

  predicate IsHopByHop(name: string)
  {
    Lower(name) in ["connection", "keep-alive", "proxy-authenticate", "proxy-authorization",
                    "te", "trailer", "transfer-encoding", "upgrade", "host"]
  }

  function EndToEnd(headers: map<string, string>): (r: map<string, string>)
  {
    map k | k in headers && !IsHopByHop(k) :: headers[k]
  }

  datatype HttpRequest = HttpRequest(verb: string, path: string, headers: map<string, string>, body: Bytes)

  /** What handling one frame came to: the handler's recorded response, or a request
      that could not be built. */
  datatype Handling =
    | Handled(code: int, headers: map<string, string>, body: Bytes)
    | BuildFailed(errorBody: Bytes)

  /** What the runner did with one frame: the request it gave its handler, what came of
      it, and the reply it built. */
  datatype Served = Served(request: HttpRequest, handling: Handling, reply: RelayFrame)

  function ToRequest(f: RelayFrame): (r: HttpRequest)
  {
    HttpRequest(f.verb, f.path, EndToEnd(f.headers), f.body)
  }

  function ReplyFrame(id: ReqId, h: Handling): (f: RelayFrame)
    ensures f.requestId == id && f.direction == ToHub
  {
    match h
    case Handled(code, headers, body) => RelayFrame(id, ToHub, "", "", EndToEnd(headers), code, body)
    case BuildFailed(errorBody) =>
      RelayFrame(id, ToHub, "", "", map["Content-Type" := "application/json"], 502, errorBody)
  }

  predicate Is2xx(h: Handling)
  {
    h.Handled? && 200 <= h.code < 300
  }

  // ------------------------------------------------------------------ state

  datatype Outcome = Reply(frame: RelayFrame) | Failure

  /** Slotted: registered, not sent. Leaving: the result is known, the deferred delete
      has not run. */
  datatype Phase = Slotted | Waiting | Leaving(outcome: Outcome) | Finished(outcome: Outcome)

  /** The message of one exchange, where it is. Built is a reply a handler goroutine has
      yet to write; InPump is a reply between the two halves of dispatch; Settled is a
      reply that has left dispatch. */
  datatype Place =
    | Unsent
    | OnWireToRunner(f: RelayFrame)
    | InHandler(f: RelayFrame)
    | Built(f: RelayFrame)
    | OnWireToHub(f: RelayFrame)
    | InPump(c: ChanId, f: RelayFrame)
    | Settled
    | Lost

  /** One roundTrip call. `read` and `served` are history: no step depends on them. */
  datatype Call = Call(request: RelayFrame, ch: ChanId, phase: Phase,
                       place: Place, read: bool, served: Option<Served>)

  datatype State = State(hub: Hub, closing: set<ChanId>, pumping: bool, calls: map<ReqId, Call>,
                         totalFrames: nat, totalHandlerOK: nat, broken: bool, panicked: bool)

  const Init := State(NewHub, {}, false, map[], 0, 0, false, false)

  // --------------------------------------------------------- roundTrip steps

  function SetCall(s: State, id: ReqId, c: Call): (r: State)
  {
    s.(calls := s.calls[id := c])
  }

  /** Registration of a call whose id is fresh (uuid.NewString). */
  function Start(s: State, frame: RelayFrame): (r: State)
  {
    if frame.requestId in s.calls || frame.direction != ToRunner then s
    else if !s.hub.closed && s.hub.pending.None? then s.(panicked := true)
    else
      var (hub, ok) := Register(s.hub, frame.requestId);
      SetCall(s.(hub := hub), frame.requestId,
              Call(frame, s.hub.nextChan, if ok then Slotted else Finished(Failure), Unsent, false, None))
  }

  function Send(s: State, id: ReqId): (r: State)
  {
    if id !in s.calls || s.calls[id].phase != Slotted then s
    else SetCall(s, id, s.calls[id].(phase := Waiting, place := OnWireToRunner(s.calls[id].request)))
  }

  function SendFails(s: State, id: ReqId): (r: State)
  {
    if id !in s.calls || s.calls[id].phase != Slotted then s
    else SetCall(s, id, s.calls[id].(phase := Leaving(Failure)))
  }

  /** The channel case of the select: a frame if one is buffered, an error if the channel
      is closed and empty, otherwise it blocks. */
  function Receive(s: State, id: ReqId): (r: State)
  {
    if id !in s.calls || s.calls[id].phase != Waiting || s.calls[id].ch !in s.hub.chans then s
    else
      var c := s.calls[id].ch;
      var ch := s.hub.chans[c];
      if ch.buf != [] then
        SetCall(s.(hub := s.hub.(chans := s.hub.chans[c := ch.(buf := [])])), id,
                s.calls[id].(phase := Leaving(Reply(ch.buf[0]))))
      else if !ch.open then SetCall(s, id, s.calls[id].(phase := Leaving(Failure)))
      else s
  }

  /** The ctx.Done case of the select. */
  function Cancel(s: State, id: ReqId): (r: State)
  {
    if id !in s.calls || s.calls[id].phase != Waiting then s
    else SetCall(s, id, s.calls[id].(phase := Leaving(Failure)))
  }

  function Leave(s: State, id: ReqId): (r: State)
  {
    if id !in s.calls || !s.calls[id].phase.Leaving? then s
    else SetCall(s.(hub := Forget(s.hub, id)), id,
                 s.calls[id].(phase := Finished(s.calls[id].phase.outcome)))
  }

  // ------------------------------------------------------------ runner steps

  function RunnerRead(s: State, id: ReqId): (r: State)
  {
    if id !in s.calls || !s.calls[id].place.OnWireToRunner? then s
    else
      var f := s.calls[id].place.f;
      if f.direction != ToRunner then SetCall(s, id, s.calls[id].(place := Settled))
      else SetCall(s.(totalFrames := s.totalFrames + 1), id,
                   s.calls[id].(place := InHandler(f), read := true))
  }

  /** handleFrame up to the send: the counter is bumped before the reply can leave. */
  function Serve(s: State, id: ReqId, result: Handling): (r: State)
  {
    if id !in s.calls || !s.calls[id].place.InHandler? then s
    else
      var f := s.calls[id].place.f;
      SetCall(s.(totalHandlerOK := s.totalHandlerOK + (if Is2xx(result) then 1 else 0)), id,
              s.calls[id].(place := Built(ReplyFrame(f.requestId, result)),
                           served := Some(Served(ToRequest(f), result, ReplyFrame(f.requestId, result)))))
  }

  function RunnerWrite(s: State, id: ReqId): (r: State)
  {
    if id !in s.calls || !s.calls[id].place.Built? then s
    else SetCall(s, id, s.calls[id].(place := OnWireToHub(s.calls[id].place.f)))
  }

  // --------------------------------------------------------- hub pump, close

  /** One frame off the socket and the lookup half of dispatch. */
  function HubRead(s: State, id: ReqId): (r: State)
  {
    if id !in s.calls || !s.calls[id].place.OnWireToHub? || s.pumping then s
    else
      var f := s.calls[id].place.f;
      var c := if f.direction == ToHub then Lookup(s.hub, f.requestId) else None;
      if c.None? then SetCall(s, id, s.calls[id].(place := Settled))
      else SetCall(s.(pumping := true), id, s.calls[id].(place := InPump(c.value, f)))
  }

  /** The send half of dispatch. */
  function HubPut(s: State, id: ReqId): (r: State)
  {
    if id !in s.calls || !s.calls[id].place.InPump? || s.calls[id].place.c !in s.hub.chans then s
    else
      var c := s.calls[id].place.c;
      if !s.hub.chans[c].open then s.(panicked := true)
      else SetCall(s.(hub := Offer(s.hub, c, s.calls[id].place.f), pumping := false), id,
                   s.calls[id].(place := Settled))
  }

  function BeginClose(s: State): (r: State)
  {
    if s.hub.closed then s
    else s.(hub := CloseBegin(s.hub), closing := Registered(s.hub), broken := true)
  }

  function CloseOne(s: State, c: ChanId): (r: State)
  {
    if c !in s.closing || c !in s.hub.chans then s
    else if !s.hub.chans[c].open then s.(panicked := true)
    else s.(hub := CloseChan(s.hub, c), closing := s.closing - {c})
  }

  /** A broken connection may lose whatever is on the socket or about to be written. */
  function Drop(s: State, id: ReqId): (r: State)
  {
    if !s.broken || id !in s.calls then s
    else
      var p := s.calls[id].place;
      if p.OnWireToRunner? || p.Built? || p.OnWireToHub?
      then SetCall(s, id, s.calls[id].(place := Lost)) else s
  }

  datatype Step =
    | DoStart(frame: RelayFrame)
    | DoSend(id: ReqId)
    | DoSendFails(id: ReqId)
    | DoReceive(id: ReqId)
    | DoCancel(id: ReqId)
    | DoLeave(id: ReqId)
    | DoRunnerRead(id: ReqId)
    | DoServe(id: ReqId, result: Handling)
    | DoRunnerWrite(id: ReqId)
    | DoHubRead(id: ReqId)
    | DoHubPut(id: ReqId)
    | DoBeginClose
    | DoCloseOne(c: ChanId)
    | DoBreak
    | DoDrop(id: ReqId)

  function Apply(s: State, step: Step): (r: State)
  {
    if s.panicked then s
    else match step
      case DoStart(frame) => Start(s, frame)
      case DoSend(id) => Send(s, id)
      case DoSendFails(id) => SendFails(s, id)
      case DoReceive(id) => Receive(s, id)
      case DoCancel(id) => Cancel(s, id)
      case DoLeave(id) => Leave(s, id)
      case DoRunnerRead(id) => RunnerRead(s, id)
      case DoServe(id, result) => Serve(s, id, result)
      case DoRunnerWrite(id) => RunnerWrite(s, id)
      case DoHubRead(id) => HubRead(s, id)
      case DoHubPut(id) => HubPut(s, id)
      case DoBeginClose => BeginClose(s)
      case DoCloseOne(c) => CloseOne(s, c)
      case DoBreak => s.(broken := true)
      case DoDrop(id) => Drop(s, id)
  }

  /** The state after the steps of a run, in order. */
  function Exec(steps: seq<Step>): (r: State)
  {
    if steps == [] then Init else Apply(Exec(steps[..|steps| - 1]), steps[|steps| - 1])
  }

  // ------------------------------------------------------------- invariants

  predicate Awaits(c: Call)
  {
    c.phase.Slotted? || c.phase.Waiting?
  }

  predicate IsReplyOf(c: Call, f: RelayFrame)
  {
    c.served.Some? && f == c.served.value.reply
  }

  /** The runner handled this very request, and the reply is what came of it. */
  predicate ServedOk(request: RelayFrame, served: Option<Served>)
  {
    served.Some? ==>
      && served.value.request == ToRequest(request)
      && served.value.reply == ReplyFrame(request.requestId, served.value.handling)
  }

  predicate HistoryOk(id: ReqId, c: Call, broken: bool)
  {
    && c.request.requestId == id && c.request.direction == ToRunner
    && (c.served.Some? ==> c.read)
    && (match c.place
        case Unsent => !c.read
        case OnWireToRunner(f) => !c.read && f == c.request
        case InHandler(f) => c.read && c.served.None? && f == c.request
        case Built(f) => IsReplyOf(c, f) && f.requestId == id && f.direction == ToHub
        case OnWireToHub(f) => IsReplyOf(c, f) && f.requestId == id && f.direction == ToHub
        case InPump(ch, f) => IsReplyOf(c, f) && ch == c.ch
        case Settled => c.served.Some?
        case Lost => broken)
    && (c.phase.Slotted? ==> c.place.Unsent?)
    && (c.phase.Waiting? ==> !c.place.Unsent?)
    && ((c.phase.Leaving? || c.phase.Finished?) && c.phase.outcome.Reply? ==>
          IsReplyOf(c, c.phase.outcome.frame))
  }

  /** The channel of a call holds nothing but its reply. While the tunnel is open the call
      stays registered; once it is closed the channel is closed or about to be. */
  predicate ChannelOk(h: Hub, closing: set<ChanId>, id: ReqId, c: Call)
  {
    && c.ch in h.chans
    && (var ch := h.chans[c.ch];
        && (ch.buf != [] ==> c.place.Settled? && |ch.buf| == 1 && IsReplyOf(c, ch.buf[0]))
        && (c.phase.Waiting? && c.place.Settled? && ch.buf == [] ==> h.closed)
        && (h.closed && Awaits(c) ==> c.ch in closing || !ch.open))
    && (h.pending.Some? && !c.phase.Finished? ==> id in h.pending.value)
    && (h.pending.Some? && id in h.pending.value ==> h.pending.value[id] == c.ch)
  }

  ghost predicate CallsOk(s: State)
  {
    forall id :: id in s.calls ==>
      && HistoryOk(id, s.calls[id], s.broken)
      && ChannelOk(s.hub, s.closing, id, s.calls[id])
  }

  ghost predicate AnswersOk(s: State)
  {
    forall id :: id in s.calls ==> ServedOk(s.calls[id].request, s.calls[id].served)
  }

  ghost predicate HubInv(s: State)
  {
    && HubOk(s.hub)
    && (s.hub.pending.Some? ==>
          s.closing == {} && forall id :: id in s.hub.pending.value ==> id in s.calls)
    && (s.hub.closed ==> s.broken)
    && (forall c :: c in s.hub.chans && !s.hub.chans[c].open ==> s.hub.closed)
    && (forall c :: c in s.closing ==> c in s.hub.chans && s.hub.chans[c].open)
    && (forall i, j :: i in s.calls && j in s.calls && s.calls[i].ch == s.calls[j].ch ==> i == j)
  }

  ghost predicate Inv(s: State)
  {
    CallsOk(s) && HubInv(s)
  }

  /** A step that rewrites one call's entry and leaves the hub alone. */
  lemma {:induction false} EntryKeeps(s: State, t: State, id: ReqId)
    requires Inv(s) && id in s.calls && id in t.calls
    requires t.calls == s.calls[id := t.calls[id]] && t.calls[id].ch == s.calls[id].ch
    requires t.hub == s.hub && t.closing == s.closing && t.broken == s.broken
    requires HistoryOk(id, t.calls[id], t.broken) && ChannelOk(t.hub, t.closing, id, t.calls[id])
    ensures Inv(t)
  {
  }

  /** A step that also replaces the buffer of that call's channel. */
  lemma {:induction false} BufferKeeps(s: State, t: State, id: ReqId, buf: seq<RelayFrame>)
    requires Inv(s) && id in s.calls && id in t.calls && |buf| <= 1
    requires t.calls == s.calls[id := t.calls[id]] && t.calls[id].ch == s.calls[id].ch
    requires s.calls[id].ch in s.hub.chans
    requires t.hub == s.hub.(chans := s.hub.chans[s.calls[id].ch := s.hub.chans[s.calls[id].ch].(buf := buf)])
    requires t.closing == s.closing && t.broken == s.broken
    requires HistoryOk(id, t.calls[id], t.broken) && ChannelOk(t.hub, t.closing, id, t.calls[id])
    ensures Inv(t)
  {
    BufferKeepsHub(s, t, id, buf);
    forall i | i in t.calls && i != id
      ensures HistoryOk(i, t.calls[i], t.broken) && ChannelOk(t.hub, t.closing, i, t.calls[i])
    {
      assert HistoryOk(i, s.calls[i], s.broken) && ChannelOk(s.hub, s.closing, i, s.calls[i]);
      assert s.calls[i].ch != s.calls[id].ch;
      BufferKeepsOther(s.hub, s.closing, i, s.calls[i], s.calls[id].ch, buf);
    }
  }

  lemma {:induction false} BufferKeepsHub(s: State, t: State, id: ReqId, buf: seq<RelayFrame>)
    requires HubInv(s) && id in s.calls && id in t.calls && |buf| <= 1
    requires t.calls == s.calls[id := t.calls[id]] && t.calls[id].ch == s.calls[id].ch
    requires s.calls[id].ch in s.hub.chans
    requires t.hub == s.hub.(chans := s.hub.chans[s.calls[id].ch := s.hub.chans[s.calls[id].ch].(buf := buf)])
    requires t.closing == s.closing && t.broken == s.broken
    ensures HubInv(t)
  {
  }

  lemma {:induction false} BufferKeepsOther(h: Hub, closing: set<ChanId>, i: ReqId, call: Call, c: ChanId,
                                            buf: seq<RelayFrame>)
    requires c in h.chans && call.ch != c && ChannelOk(h, closing, i, call)
    ensures ChannelOk(h.(chans := h.chans[c := h.chans[c].(buf := buf)]), closing, i, call)
  {
  }

  lemma {:induction false} StartKeepsOther(s: State, frame: RelayFrame, i: ReqId)
    requires i in s.calls && ChannelOk(s.hub, s.closing, i, s.calls[i])
    requires s.hub.nextChan !in s.hub.chans
    ensures var t := Start(s, frame);
      i in t.calls && t.calls[i] == s.calls[i] && ChannelOk(t.hub, t.closing, i, t.calls[i])
  {
  }

  lemma {:induction false} StartMakesCall(s: State, frame: RelayFrame)
    requires Start(s, frame) != s && HubOk(s.hub)
    ensures var t := Start(s, frame);
      && t.calls.Keys == s.calls.Keys + {frame.requestId}
      && t.closing == s.closing && t.broken == s.broken
      && HistoryOk(frame.requestId, t.calls[frame.requestId], t.broken)
      && ChannelOk(t.hub, t.closing, frame.requestId, t.calls[frame.requestId])
  {
  }

  lemma {:induction false} StartKeepsCalls(s: State, frame: RelayFrame)
    requires Inv(s)
    ensures CallsOk(Start(s, frame))
  {
    if Start(s, frame) != s {
      var t := Start(s, frame);
      StartMakesCall(s, frame);
      forall i | i in s.calls
        ensures HistoryOk(i, t.calls[i], t.broken) && ChannelOk(t.hub, t.closing, i, t.calls[i])
      {
        assert HistoryOk(i, s.calls[i], s.broken) && ChannelOk(s.hub, s.closing, i, s.calls[i]);
        StartKeepsOther(s, frame, i);
      }
    }
  }

  lemma {:induction false} StartKeepsHub(s: State, frame: RelayFrame)
    requires HubInv(s) && forall i :: i in s.calls ==> s.calls[i].ch in s.hub.chans
    ensures HubInv(Start(s, frame))
  {
    var t := Start(s, frame);
    if t != s {
      assert s.hub.nextChan !in s.hub.chans;
    }
  }

  lemma {:induction false} StartKeeps(s: State, frame: RelayFrame)
    requires Inv(s)
    ensures Inv(Start(s, frame))
  {
    StartKeepsCalls(s, frame);
    forall i | i in s.calls ensures s.calls[i].ch in s.hub.chans {
      assert ChannelOk(s.hub, s.closing, i, s.calls[i]);
    }
    StartKeepsHub(s, frame);
  }

  lemma {:induction false} SendKeeps(s: State, id: ReqId)
    requires Inv(s)
    ensures Inv(Send(s, id))
  {
    var t := Send(s, id);
    if t != s {
      EntryKeeps(s, t, id);
    }
  }

  lemma {:induction false} SendFailsKeeps(s: State, id: ReqId)
    requires Inv(s)
    ensures Inv(SendFails(s, id))
  {
    var t := SendFails(s, id);
    if t != s {
      EntryKeeps(s, t, id);
    }
  }

  lemma {:induction false} ReceiveKeeps(s: State, id: ReqId)
    requires Inv(s)
    ensures Inv(Receive(s, id))
  {
    var t := Receive(s, id);
    if t != s {
      if s.hub.chans[s.calls[id].ch].buf != [] {
        BufferKeeps(s, t, id, []);
      } else {
        EntryKeeps(s, t, id);
      }
    }
  }

  lemma {:induction false} CancelKeeps(s: State, id: ReqId)
    requires Inv(s)
    ensures Inv(Cancel(s, id))
  {
    var t := Cancel(s, id);
    if t != s {
      EntryKeeps(s, t, id);
    }
  }

  lemma {:induction false} LeaveKeepsHistory(s: State, id: ReqId, i: ReqId)
    requires i in s.calls && HistoryOk(i, s.calls[i], s.broken)
    ensures i in Leave(s, id).calls && HistoryOk(i, Leave(s, id).calls[i], s.broken)
  {
  }

  lemma {:induction false} LeaveKeepsChannel(s: State, id: ReqId, i: ReqId)
    requires i in s.calls && ChannelOk(s.hub, s.closing, i, s.calls[i])
    ensures i in Leave(s, id).calls
    ensures ChannelOk(Leave(s, id).hub, s.closing, i, Leave(s, id).calls[i])
  {
  }

  lemma {:induction false} LeaveKeeps(s: State, id: ReqId)
    requires Inv(s)
    ensures Inv(Leave(s, id))
  {
    forall i | i in s.calls
      ensures HistoryOk(i, Leave(s, id).calls[i], s.broken)
      ensures ChannelOk(Leave(s, id).hub, s.closing, i, Leave(s, id).calls[i])
    {
      LeaveKeepsHistory(s, id, i);
      LeaveKeepsChannel(s, id, i);
    }
    LeaveKeepsHub(s, id);
  }

  lemma {:induction false} LeaveKeepsHub(s: State, id: ReqId)
    requires HubInv(s)
    ensures HubInv(Leave(s, id))
  {
  }

  lemma {:induction false} RunnerReadKeeps(s: State, id: ReqId)
    requires Inv(s)
    ensures Inv(RunnerRead(s, id))
  {
    var t := RunnerRead(s, id);
    if t != s {
      EntryKeeps(s, t, id);
    }
  }

  lemma {:induction false} ServeKeeps(s: State, id: ReqId, result: Handling)
    requires Inv(s)
    ensures Inv(Serve(s, id, result))
  {
    var t := Serve(s, id, result);
    if t != s {
      EntryKeeps(s, t, id);
    }
  }

  lemma {:induction false} RunnerWriteKeeps(s: State, id: ReqId)
    requires Inv(s)
    ensures Inv(RunnerWrite(s, id))
  {
    var t := RunnerWrite(s, id);
    if t != s {
      EntryKeeps(s, t, id);
    }
  }

  lemma {:induction false} HubReadKeeps(s: State, id: ReqId)
    requires Inv(s)
    ensures Inv(HubRead(s, id))
  {
    var t := HubRead(s, id);
    if t != s {
      EntryKeeps(s, t, id);
    }
  }

  lemma {:induction false} PutDelivers(s: State, id: ReqId)
    requires id in s.calls && HistoryOk(id, s.calls[id], s.broken)
    requires ChannelOk(s.hub, s.closing, id, s.calls[id])
    ensures var t, call := HubPut(s, id), s.calls[id];
      || t == s || t == s.(panicked := true)
      || (&& call.place.InPump? && t.closing == s.closing && t.broken == s.broken
          && t.hub == s.hub.(chans := s.hub.chans[call.ch := s.hub.chans[call.ch].(buf := [call.place.f])])
          && t.calls == s.calls[id := t.calls[id]] && t.calls[id].ch == call.ch
          && HistoryOk(id, t.calls[id], t.broken) && ChannelOk(t.hub, t.closing, id, t.calls[id]))
  {
  }

  lemma {:induction false} HubPutKeeps(s: State, id: ReqId)
    requires Inv(s)
    ensures Inv(HubPut(s, id))
  {
    if id in s.calls {
      PutDelivers(s, id);
      var t := HubPut(s, id);
      if t != s && t != s.(panicked := true) {
        BufferKeeps(s, t, id, [s.calls[id].place.f]);
      }
    }
  }

  lemma {:induction false} BeginCloseKeeps(s: State)
    requires Inv(s)
    ensures Inv(BeginClose(s))
  {
  }

  lemma {:induction false} CloseOneKeeps(s: State, c: ChanId)
    requires Inv(s)
    ensures Inv(CloseOne(s, c))
  {
  }

  lemma {:induction false} DropKeeps(s: State, id: ReqId)
    requires Inv(s)
    ensures Inv(Drop(s, id))
  {
    var t := Drop(s, id);
    if t != s {
      EntryKeeps(s, t, id);
    }
  }

  lemma {:induction false} BreakKeeps(s: State)
    requires Inv(s)
    ensures Inv(s.(broken := true))
  {
  }

  predicate IsCallerStep(step: Step)
  {
    step.DoStart? || step.DoSend? || step.DoSendFails? || step.DoReceive? || step.DoCancel? || step.DoLeave?
  }

  lemma {:induction false} CallerKeeps(s: State, step: Step)
    requires Inv(s) && IsCallerStep(step)
    ensures Inv(Apply(s, step))
  {
    match step
    case DoStart(frame) => StartKeeps(s, frame);
    case DoSend(id) => SendKeeps(s, id);
    case DoSendFails(id) => SendFailsKeeps(s, id);
    case DoReceive(id) => ReceiveKeeps(s, id);
    case DoCancel(id) => CancelKeeps(s, id);
    case DoLeave(id) => LeaveKeeps(s, id);
  }

  lemma {:induction false} TransportKeeps(s: State, step: Step)
    requires Inv(s) && !IsCallerStep(step)
    ensures Inv(Apply(s, step))
  {
    match step
    case DoRunnerRead(id) => RunnerReadKeeps(s, id);
    case DoServe(id, result) => ServeKeeps(s, id, result);
    case DoRunnerWrite(id) => RunnerWriteKeeps(s, id);
    case DoHubRead(id) => HubReadKeeps(s, id);
    case DoHubPut(id) => HubPutKeeps(s, id);
    case DoBeginClose => BeginCloseKeeps(s);
    case DoCloseOne(c) => CloseOneKeeps(s, c);
    case DoBreak => BreakKeeps(s);
    case DoDrop(id) => DropKeeps(s, id);
  }

  lemma {:induction false} StepKeeps(s: State, step: Step)
    requires Inv(s)
    ensures Inv(Apply(s, step))
  {
    if IsCallerStep(step) {
      CallerKeeps(s, step);
    } else {
      TransportKeeps(s, step);
    }
  }

  ghost predicate SameAnswers(s: State, t: State)
  {
    && t.totalFrames == s.totalFrames && t.totalHandlerOK == s.totalHandlerOK
    && s.calls.Keys <= t.calls.Keys
    && forall i :: i in t.calls ==>
         if i in s.calls then
           && t.calls[i].request == s.calls[i].request
           && t.calls[i].served == s.calls[i].served && t.calls[i].read == s.calls[i].read
         else t.calls[i].served.None? && !t.calls[i].read
  }

  lemma {:induction false} QuietCaller(s: State, step: Step)
    requires IsCallerStep(step)
    ensures SameAnswers(s, Apply(s, step))
  {
    if step.DoStart? || step.DoSend? || step.DoSendFails? {
      QuietRequest(s, step);
    } else {
      QuietWait(s, step);
    }
  }

  lemma {:induction false} QuietRequest(s: State, step: Step)
    requires step.DoStart? || step.DoSend? || step.DoSendFails?
    ensures SameAnswers(s, Apply(s, step))
  {
    var t := Apply(s, step);
    if !step.DoStart? && step.id in s.calls && t != s {
      OneCallMoves(s, t, step.id);
    }
  }

  lemma {:induction false} QuietWait(s: State, step: Step)
    requires step.DoReceive? || step.DoCancel? || step.DoLeave?
    ensures SameAnswers(s, Apply(s, step))
  {
    var t := Apply(s, step);
    if step.id in s.calls && t != s {
      OneCallMoves(s, t, step.id);
    }
  }

  /** A step that moves one call and leaves what the runner made of it. */
  lemma OneCallMoves(s: State, t: State, id: ReqId)
    requires id in s.calls && id in t.calls && t.calls == s.calls[id := t.calls[id]]
    requires t.totalFrames == s.totalFrames && t.totalHandlerOK == s.totalHandlerOK
    requires t.calls[id].request == s.calls[id].request && t.calls[id].served == s.calls[id].served
    requires t.calls[id].read == s.calls[id].read
    ensures SameAnswers(s, t)
  {
  }

  lemma {:induction false} QuietTransport(s: State, step: Step)
    requires !IsCallerStep(step) && !step.DoServe? && !step.DoRunnerRead?
    ensures SameAnswers(s, Apply(s, step))
  {
    var t := Apply(s, step);
    if step.DoRunnerWrite? || step.DoHubRead? || step.DoHubPut? || step.DoDrop? {
      if step.id in s.calls && t != s {
        OneCallMoves(s, t, step.id);
      }
    }
  }

  lemma {:induction false} QuietStep(s: State, step: Step)
    requires !step.DoServe? && !step.DoRunnerRead?
    ensures SameAnswers(s, Apply(s, step))
  {
    if IsCallerStep(step) {
      QuietCaller(s, step);
    } else {
      QuietTransport(s, step);
    }
  }

  /** Only the runner's handler answers a call, and it answers with the frame it holds. */
  lemma {:induction false} StepKeepsAnswers(s: State, step: Step)
    requires CallsOk(s) && AnswersOk(s)
    ensures AnswersOk(Apply(s, step))
  {
    if step.DoServe? {
      if step.id in s.calls {
        assert HistoryOk(step.id, s.calls[step.id], s.broken);
      }
    } else if !step.DoRunnerRead? {
      QuietStep(s, step);
    }
  }

  // -------------------------------------------------------- runner counters

  ghost function ReadIds(s: State): (ids: set<ReqId>)
  {
    set id | id in s.calls && s.calls[id].read
  }

  ghost function GoodIds(s: State): (ids: set<ReqId>)
  {
    set id | id in s.calls && s.calls[id].served.Some? && Is2xx(s.calls[id].served.value.handling)
  }

  ghost predicate CountersOk(s: State)
  {
    s.totalFrames == |ReadIds(s)| && s.totalHandlerOK == |GoodIds(s)|
  }

  lemma {:induction false} ReadCounts(s: State, id: ReqId)
    requires CallsOk(s) && CountersOk(s)
    ensures CountersOk(RunnerRead(s, id))
  {
    var t := RunnerRead(s, id);
    if t != s {
      assert HistoryOk(id, s.calls[id], s.broken);
      assert ReadIds(t) == ReadIds(s) + {id};
      assert GoodIds(t) == GoodIds(s);
    }
  }

  lemma {:induction false} ServeSets(s: State, id: ReqId, result: Handling)
    requires id in s.calls && s.calls[id].place.InHandler? && s.calls[id].served.None?
    ensures ReadIds(Serve(s, id, result)) == ReadIds(s)
    ensures GoodIds(Serve(s, id, result)) == GoodIds(s) + (if Is2xx(result) then {id} else {})
    ensures id !in GoodIds(s)
  {
  }

  lemma {:induction false} ServeCounts(s: State, id: ReqId, result: Handling)
    requires CallsOk(s) && CountersOk(s)
    ensures CountersOk(Serve(s, id, result))
  {
    var t := Serve(s, id, result);
    if t != s {
      assert HistoryOk(id, s.calls[id], s.broken);
      ServeSets(s, id, result);
    }
  }

  lemma {:induction false} StepKeepsCounters(s: State, step: Step)
    requires CallsOk(s) && CountersOk(s)
    ensures CountersOk(Apply(s, step))
  {
    if step.DoRunnerRead? {
      ReadCounts(s, step.id);
    } else if step.DoServe? {
      ServeCounts(s, step.id, step.result);
    } else {
      var t := Apply(s, step);
      QuietStep(s, step);
      assert ReadIds(t) == ReadIds(s) && GoodIds(t) == GoodIds(s);
    }
  }

  // ------------------------------------------------------------ all the runs

  lemma {:induction false} RunKeeps(steps: seq<Step>)
    ensures Inv(Exec(steps)) && AnswersOk(Exec(steps)) && CountersOk(Exec(steps))
    decreases |steps|
  {
    if steps == [] {
      assert ReadIds(Init) == {} && GoodIds(Init) == {};
    } else {
      var n := |steps| - 1;
      RunKeeps(steps[..n]);
      StepKeeps(Exec(steps[..n]), steps[n]);
      StepKeepsAnswers(Exec(steps[..n]), steps[n]);
      StepKeepsCounters(Exec(steps[..n]), steps[n]);
    }
  }

  predicate HasReply(c: Call)
  {
    (c.phase.Leaving? || c.phase.Finished?) && c.phase.outcome.Reply?
  }

  /** Correlation, end to end: in every run, a frame that roundTrip returns carries the
      caller's own request id and exactly the status, headers and body of what the
      runner's handler made of that caller's request. */
  lemma {:induction false} Correlation(steps: seq<Step>, id: ReqId)
    requires var s := Exec(steps); id in s.calls && HasReply(s.calls[id])
    ensures var call := Exec(steps).calls[id];
      && call.request.requestId == id
      && call.served.Some? && call.served.value.request == ToRequest(call.request)
      && call.phase.outcome.frame == ReplyFrame(id, call.served.value.handling)
  {
    RunKeeps(steps);
    var s := Exec(steps);
    assert HistoryOk(id, s.calls[id], s.broken) && ServedOk(s.calls[id].request, s.calls[id].served);
  }

  /** No stranded waiter: while the tunnel is open, a call that waits on an empty open channel
      is registered under that channel and its reply has not passed dispatch, also when the
      connection is gone; while the connection is there, its exchange is still under way. */
  lemma {:induction false} NoneStranded(steps: seq<Step>, id: ReqId)
    requires id in Exec(steps).calls && Exec(steps).calls[id].phase.Waiting?
    ensures var s := Exec(steps); var call := s.calls[id];
      && call.ch in s.hub.chans
      && (s.hub.chans[call.ch] == Chan([], true) && !s.broken ==> !call.place.Lost? && !s.hub.closed)
      && (s.hub.chans[call.ch] == Chan([], true) && !s.hub.closed ==>
            && !call.place.Unsent? && !call.place.Settled?
            && s.hub.pending.Some? && id in s.hub.pending.value
            && s.hub.pending.value[id] == call.ch)
  {
    RunKeeps(steps);
    var s := Exec(steps);
    assert HistoryOk(id, s.calls[id], s.broken) && ChannelOk(s.hub, s.closing, id, s.calls[id]);
  }

  /** Once close has finished, every waiting call can return at once. */
  lemma {:induction false} CloseReleases(steps: seq<Step>, id: ReqId)
    requires var s := Exec(steps);
      s.hub.closed && s.closing == {} && id in s.calls && s.calls[id].phase.Waiting?
    ensures var s := Exec(steps);
      && s.calls[id].ch in s.hub.chans
      && (s.hub.chans[s.calls[id].ch].buf != [] || !s.hub.chans[s.calls[id].ch].open)
      && id in Receive(s, id).calls && Receive(s, id).calls[id].phase.Leaving?
  {
    RunKeeps(steps);
    var s := Exec(steps);
    assert ChannelOk(s.hub, s.closing, id, s.calls[id]);
  }

  /** A call made on a closed tunnel fails at once and registers nothing; the nil map is
      never written. */
  lemma {:induction false} ClosedRefuses(steps: seq<Step>, frame: RelayFrame)
    requires Exec(steps).hub.closed && frame.requestId !in Exec(steps).calls && frame.direction == ToRunner
    ensures var s := Exec(steps); var t := Start(s, frame);
      && s.hub.pending.None? && t.hub.pending.None? && t.panicked == s.panicked
      && t.calls[frame.requestId].phase == Finished(Failure)
  {
    RunKeeps(steps);
  }

  /** Exactly when a step panics: the send half of dispatch finds that close has closed
      the channel it looked up. No other step does, in any run. */
  lemma {:induction false} PanicsExactly(steps: seq<Step>, step: Step)
    requires !Exec(steps).panicked
    ensures var s := Exec(steps);
      Apply(s, step).panicked <==>
        && step.DoHubPut? && step.id in s.calls && s.calls[step.id].place.InPump?
        && s.calls[step.id].place.c in s.hub.chans && !s.hub.chans[s.calls[step.id].place.c].open
  {
    RunKeeps(steps);
    PanicsHere(Exec(steps), step);
  }

  lemma {:induction false} PanicsHere(s: State, step: Step)
    requires HubInv(s) && !s.panicked
    ensures Apply(s, step).panicked <==>
      && step.DoHubPut? && step.id in s.calls && s.calls[step.id].place.InPump?
      && s.calls[step.id].place.c in s.hub.chans && !s.hub.chans[s.calls[step.id].place.c].open
  {
    if !step.DoHubPut? {
      OthersDoNotPanic(s, step);
    }
  }

  /** A start writes the map only while there is one, and close closes open channels only. */
  lemma {:induction false} OthersDoNotPanic(s: State, step: Step)
    requires HubInv(s) && !s.panicked && !step.DoHubPut?
    ensures !Apply(s, step).panicked
  {
    if !IsCallerStep(step) {
      TransportDoesNotPanic(s, step);
    }
  }

  lemma {:induction false} TransportDoesNotPanic(s: State, step: Step)
    requires HubInv(s) && !s.panicked && !IsCallerStep(step) && !step.DoHubPut?
    ensures !Apply(s, step).panicked
  {
  }

  /** With the two halves of dispatch back to back there is no such window: the channel a
      lookup finds is open, and together they are `Dispatch`. */
  lemma {:induction false} AtomicDispatch(steps: seq<Step>, id: ReqId)
    requires var s := Exec(steps);
      !s.panicked && id in s.calls && s.calls[id].place.OnWireToHub? && !s.pumping
    ensures var s := Exec(steps); var t := HubPut(HubRead(s, id), id);
      && HubOk(s.hub) && !t.panicked && !t.pumping
      && t.hub == Dispatch(s.hub, s.calls[id].place.f)
      && t.calls[id].place.Settled?
  {
    RunKeeps(steps);
    var s := Exec(steps);
    LookedUpIsOpen(s, id);
    BothHalves(s, id);
  }

  /** The channel that a lookup finds is open, and it is the call's own. */
  lemma {:induction false} LookedUpIsOpen(s: State, id: ReqId)
    requires Inv(s) && id in s.calls && s.calls[id].place.OnWireToHub?
    ensures s.calls[id].place.f.direction == ToHub && s.calls[id].place.f.requestId == id
    ensures var c := Lookup(s.hub, id);
      c.Some? ==> c.value in s.hub.chans && s.hub.chans[c.value].open
  {
    assert HistoryOk(id, s.calls[id], s.broken) && ChannelOk(s.hub, s.closing, id, s.calls[id]);
  }

  lemma {:induction false} BothHalves(s: State, id: ReqId)
    requires HubOk(s.hub) && !s.panicked && id in s.calls && s.calls[id].place.OnWireToHub? && !s.pumping
    requires s.calls[id].place.f.direction == ToHub && s.calls[id].place.f.requestId == id
    requires var c := Lookup(s.hub, id); c.Some? ==> c.value in s.hub.chans && s.hub.chans[c.value].open
    ensures var t := HubPut(HubRead(s, id), id);
      && !t.panicked && !t.pumping && t.hub == Dispatch(s.hub, s.calls[id].place.f) && t.calls[id].place.Settled?
  {
  }

  lemma ExecAppend(steps: seq<Step>, step: Step)
    ensures Exec(steps + [step]) == Apply(Exec(steps), step)
  {
    assert (steps + [step])[..|steps|] == steps;
  }

  /** One request as far as the runner's handler. */
  lemma {:induction false} RequestRead(f: RelayFrame)
    requires f.direction == ToRunner
    ensures var id := f.requestId; var s := Exec([DoStart(f), DoSend(id), DoRunnerRead(id)]);
      && !s.panicked && s.hub == Start(Init, f).hub && !s.pumping
      && id in s.calls && s.calls[id].place == InHandler(f)
  {
    var id := f.requestId;
    ExecAppend([], DoStart(f));
    assert [] + [DoStart(f)] == [DoStart(f)];
    ExecAppend([DoStart(f)], DoSend(id));
    assert [DoStart(f)] + [DoSend(id)] == [DoStart(f), DoSend(id)];
    ExecAppend([DoStart(f), DoSend(id)], DoRunnerRead(id));
    assert [DoStart(f), DoSend(id)] + [DoRunnerRead(id)] == [DoStart(f), DoSend(id), DoRunnerRead(id)];
  }

  /** And from there to its reply on the way to the hub. */
  lemma {:induction false} ReplySent(f: RelayFrame, h: Handling)
    requires f.direction == ToRunner
    ensures var id := f.requestId;
      var s := Exec([DoStart(f), DoSend(id), DoRunnerRead(id)] + [DoServe(id, h)] + [DoRunnerWrite(id)]);
      && !s.panicked && !s.pumping && s.hub == Start(Init, f).hub
      && id in s.calls && s.calls[id].place == OnWireToHub(ReplyFrame(id, h))
  {
    var id := f.requestId;
    var steps := [DoStart(f), DoSend(id), DoRunnerRead(id)];
    RequestRead(f);
    ExecAppend(steps, DoServe(id, h));
    ExecAppend(steps + [DoServe(id, h)], DoRunnerWrite(id));
    ReplyWritten(Exec(steps), f, h);
  }

  /** And to the lookup of its channel. */
  lemma {:induction false} ReplyLookedUp(f: RelayFrame, h: Handling)
    requires f.direction == ToRunner
    ensures var id := f.requestId;
      var s := Exec([DoStart(f), DoSend(id), DoRunnerRead(id)]
                    + [DoServe(id, h)] + [DoRunnerWrite(id)] + [DoHubRead(id)]);
      && !s.panicked && s.hub == Start(Init, f).hub
      && id in s.calls && s.calls[id].place.InPump? && s.calls[id].place.c == 0
  {
    var id := f.requestId;
    var steps := [DoStart(f), DoSend(id), DoRunnerRead(id)] + [DoServe(id, h)] + [DoRunnerWrite(id)];
    ReplySent(f, h);
    ExecAppend(steps, DoHubRead(id));
  }

  /** The handler's reply on its way to the hub. */
  lemma {:induction false} ReplyWritten(s: State, f: RelayFrame, h: Handling)
    requires !s.panicked && !s.pumping && f.requestId in s.calls && s.calls[f.requestId].place == InHandler(f)
    ensures var t := Apply(Apply(s, DoServe(f.requestId, h)), DoRunnerWrite(f.requestId));
      && !t.panicked && !t.pumping && t.hub == s.hub && f.requestId in t.calls
      && t.calls[f.requestId].place == OnWireToHub(ReplyFrame(f.requestId, h))
  {
  }

  /** The window is real: after that lookup, close the tunnel, then send. */
  lemma {:induction false} SplitDispatchCanPanic(f: RelayFrame, h: Handling)
    requires f.direction == ToRunner
    ensures var id := f.requestId;
      Exec([DoStart(f), DoSend(id), DoRunnerRead(id)]
           + [DoServe(id, h)] + [DoRunnerWrite(id)] + [DoHubRead(id)]
           + [DoBeginClose] + [DoCloseOne(0)] + [DoHubPut(id)]).panicked
  {
    var id := f.requestId;
    var steps := [DoStart(f), DoSend(id), DoRunnerRead(id)]
                 + [DoServe(id, h)] + [DoRunnerWrite(id)] + [DoHubRead(id)];
    ReplyLookedUp(f, h);
    ExecAppend(steps, DoBeginClose);
    assert Exec(steps).hub.pending.value[id] == 0;
    assert 0 in Registered(Exec(steps).hub);
    ExecAppend(steps + [DoBeginClose], DoCloseOne(0));
    ExecAppend(steps + [DoBeginClose] + [DoCloseOne(0)], DoHubPut(id));
  }

  /** The runner's counters are causally consistent: the 2xx replies callers have seen are
      at most totalHandlerOK, which is at most totalFrames. */
  lemma {:induction false} CountersAhead(steps: seq<Step>, seen: set<ReqId>)
    requires forall id :: id in seen ==>
      && id in Exec(steps).calls && HasReply(Exec(steps).calls[id])
      && 200 <= Exec(steps).calls[id].phase.outcome.frame.status < 300
    ensures |seen| <= Exec(steps).totalHandlerOK <= Exec(steps).totalFrames
  {
    RunKeeps(steps);
    var s := Exec(steps);
    forall id | id in seen ensures id in GoodIds(s) {
      Correlation(steps, id);
    }
    Subset(seen, GoodIds(s));
    forall id | id in GoodIds(s) ensures id in ReadIds(s) {
      assert HistoryOk(id, s.calls[id], s.broken);
    }
    Subset(GoodIds(s), ReadIds(s));
  }

  lemma {:induction false} Subset<T>(a: set<T>, b: set<T>)
    requires a <= b
    ensures |a| <= |b|
  {
    assert b == a + (b - a);
  }

  function CloseEach(s: State, cs: seq<ChanId>): (r: State)
  {
    if cs == [] then s else CloseOne(CloseEach(s, cs[..|cs| - 1]), cs[|cs| - 1])
  }

  function ElementsOf(cs: seq<ChanId>): (r: set<ChanId>)
    ensures forall c :: c in r <==> c in cs
  {
    if cs == [] then {} else ElementsOf(cs[..|cs| - 1]) + {cs[|cs| - 1]}
  }

  lemma ElementsOfOneMore(cs: seq<ChanId>)
    requires cs != []
    ensures ElementsOf(cs) == ElementsOf(cs[..|cs| - 1]) + {cs[|cs| - 1]}
  {
  }

  /** One more channel closed, after those in `done` of all those to close. */
  lemma {:induction false} CloseOneMore(h: Hub, all: set<ChanId>, t: State, done: set<ChanId>, c: ChanId)
    requires !t.panicked && t.hub == CloseChans(h, done) && t.closing == all - done
    requires c in all && c !in done && c in h.chans && h.chans[c].open
    ensures var t' := CloseOne(t, c);
      !t'.panicked && t'.closing == all - (done + {c}) && t'.hub == CloseChans(h, done + {c})
  {
    assert CloseOne(t, c).hub.chans == CloseChans(h, done + {c}).chans;
  }

  lemma {:induction false} CloseEachInTurn(t: State, cs: seq<ChanId>)
    requires !t.panicked && forall c :: c in t.closing ==> c in t.hub.chans && t.hub.chans[c].open
    requires forall i, j :: 0 <= i < j < |cs| ==> cs[i] != cs[j]
    requires forall c :: c in cs ==> c in t.closing
    ensures var t' := CloseEach(t, cs);
      && !t'.panicked && t'.closing == t.closing - ElementsOf(cs)
      && t'.hub == CloseChans(t.hub, ElementsOf(cs))
    decreases |cs|
  {
    if cs == [] {
      assert CloseChans(t.hub, {}) == t.hub;
    } else {
      var n := |cs| - 1;
      assert cs[n] !in cs[..n];
      CloseEachInTurn(t, cs[..n]);
      ElementsOfOneMore(cs);
      CloseOneMore(t.hub, t.closing, CloseEach(t, cs[..n]), ElementsOf(cs[..n]), cs[n]);
    }
  }

  /** close, taken channel by channel in any order, does to each what the method does. */
  lemma {:induction false} CloseStepsAreClose(s: State, cs: seq<ChanId>)
    requires HubInv(s) && !s.hub.closed && !s.panicked
    requires forall i, j :: 0 <= i < j < |cs| ==> cs[i] != cs[j]
    requires forall c :: c in cs ==> c in Registered(s.hub)
    ensures var t := CloseEach(BeginClose(s), cs);
      && !t.panicked && t.closing == Registered(s.hub) - ElementsOf(cs)
      && t.hub == CloseChans(CloseBegin(s.hub), ElementsOf(cs))
  {
    CloseEachInTurn(BeginClose(s), cs);
  }

  /** When the steps have covered every registered channel the hub is `Close` of itself. */
  lemma {:induction false} CloseStepsFinish(s: State, cs: seq<ChanId>)
    requires HubInv(s) && !s.hub.closed && !s.panicked
    requires forall i, j :: 0 <= i < j < |cs| ==> cs[i] != cs[j]
    requires forall c :: c in cs <==> c in Registered(s.hub)
    ensures var t := CloseEach(BeginClose(s), cs);
      !t.panicked && t.closing == {} && t.hub == Close(s.hub)
  {
    CloseStepsAreClose(s, cs);
    assert ElementsOf(cs) == Registered(s.hub);
  }
}
