/** internal/elevation: the client of the elevated worker, the worker, and the two message streams
    between them. One method is one critical section, one Encode or one Decode. */
module Elevation {
  import opened Text
  import opened Executor

  datatype ExecutionRequest = ExecutionRequest(script: string, shell: string, extension: string)

  datatype MessageType = MsgExec | MsgResult | MsgPing | MsgPong | MsgShutdown

  /** "req-<n>" and "ping-<n>"; NoId is the empty string. */
  datatype MessageId = NoId | ReqId(n: nat) | PingId(n: nat)

  datatype WireMessage = WireMessage(
    kind: MessageType, id: MessageId, exec: Option<ExecutionRequest>, result: Option<ExecutionResult>, error: string)

  /** The connection: what is written to the worker and to the client and not yet decoded. */
  datatype Link = Link(open: bool, toWorker: seq<WireMessage>, toClient: seq<WireMessage>)

  datatype ClientState = ClientState(lastSeq: nat, closed: bool)

  // ---------------------------------------------------------------- the client

  datatype CallBody = RunCall(req: ExecutionRequest) | PingCall

  datatype CallError =
    | ClientClosed | ContextDone | SendFailed | ReceiveFailed | NilResult
    | MismatchedId(got: MessageId, want: MessageId)
    | WorkerError(text: string)
    | UnexpectedPong(kind: MessageType, id: MessageId)
  {
    predicate IsMismatch() { MismatchedId? || UnexpectedPong? }
  }

  /** A decoder's channel: still reading, or what Decode brought. */
  datatype Inbox = Reading | Got(msg: WireMessage) | Unreadable

  datatype Outcome = Outcome(result: ExecutionResult, err: Option<CallError>)

  const NO_RESULT := ExecutionResult("", "", 0, false)

  function IdOf(body: CallBody, n: nat): MessageId { if body.RunCall? then ReqId(n) else PingId(n) }

  function RequestOf(body: CallBody, n: nat): WireMessage {
    match body
    case RunCall(req) => WireMessage(MsgExec, ReqId(n), Some(req), None, "")
    case PingCall => WireMessage(MsgPing, PingId(n), None, None, "")
  }

  const SHUTDOWN := WireMessage(MsgShutdown, NoId, None, None, "")

  function Refusal(c: ClientState, body: CallBody, ctxDone: bool): Option<CallError> {
    if c.closed then Some(ClientClosed) else if body.RunCall? && ctxDone then Some(ContextDone) else None
  }

  function Written(l: Link, m: WireMessage, encodes: bool): Link {
    if encodes then l.(toWorker := l.toWorker + [m]) else l
  }

  function Hung(l: Link): Link { l.(open := false) }

  function RunOutcome(id: MessageId, inbox: Inbox): Outcome {
    if !inbox.Got? then Outcome(NO_RESULT, Some(ReceiveFailed))
    else
      var m := inbox.msg;
      if m.id != id then Outcome(NO_RESULT, Some(MismatchedId(m.id, id)))
      else if m.error != "" then
        Outcome(if m.result.Some? then m.result.value else NO_RESULT, Some(WorkerError(m.error)))
      else if m.result.None? then Outcome(NO_RESULT, Some(NilResult))
      else Outcome(m.result.value, None)
  }

  function PingOutcome(id: MessageId, inbox: Inbox): Outcome {
    if !inbox.Got? then Outcome(NO_RESULT, Some(ReceiveFailed))
    else if !inbox.msg.kind.MsgPong? || inbox.msg.id != id then
      Outcome(NO_RESULT, Some(UnexpectedPong(inbox.msg.kind, inbox.msg.id)))
    else Outcome(NO_RESULT, None)
  }

  function OutcomeOf(body: CallBody, id: MessageId, inbox: Inbox): Outcome {
    if body.RunCall? then RunOutcome(id, inbox) else PingOutcome(id, inbox)
  }

  class Conn {
    var open: bool
    var toWorker: seq<WireMessage>
    var toClient: seq<WireMessage>

    function View(): Link
      reads this
    {
      Link(open, toWorker, toClient)
    }

    constructor ()
      ensures View() == Link(true, [], [])
    {
      open, toWorker, toClient := true, [], [];
    }
  }

  class Client {
    const conn: Conn
    var lastSeq: nat
    var closed: bool

    function View(): ClientState
      reads this
    {
      ClientState(lastSeq, closed)
    }

    constructor (c: Conn)
      ensures conn == c && View() == ClientState(0, false)
    {
      conn := c;
      lastSeq, closed := 0, false;
    }

    /** The first half of Run and of Ping: everything under the mutex. */
    method Send(body: CallBody, ctxDone: bool, encodes: bool) returns (id: MessageId, err: Option<CallError>)
      modifies this`lastSeq, conn`toWorker
      ensures var refused := Refusal(old(View()), body, ctxDone);
              if refused.Some? then
                err == refused && View() == old(View()) && conn.View() == old(conn.View())
              else
                && View() == old(View()).(lastSeq := old(lastSeq) + 1)
                && id == IdOf(body, lastSeq)
                && conn.View() == Written(old(conn.View()), RequestOf(body, lastSeq), encodes)
                && err == if encodes then None else Some(SendFailed)
      ensures err == Some(ClientClosed) <==> old(closed)
      ensures err == Some(ContextDone) <==> !old(closed) && body.RunCall? && ctxDone
      ensures err == Some(SendFailed) <==> !old(closed) && !(body.RunCall? && ctxDone) && !encodes
      ensures err.None? ==>
                && lastSeq == old(lastSeq) + 1 && id == (if body.RunCall? then ReqId(lastSeq) else PingId(lastSeq))
                && conn.toWorker == old(conn.toWorker)
                   + [if body.RunCall? then WireMessage(MsgExec, id, Some(body.req), None, "")
                      else WireMessage(MsgPing, id, None, None, "")]
      ensures err.Some? ==> conn.toWorker == old(conn.toWorker) && (lastSeq > old(lastSeq) <==> err == Some(SendFailed))
    {
      id, err := NoId, None;
      if closed {
        return NoId, Some(ClientClosed);
      }
      if body.RunCall? && ctxDone {
        return NoId, Some(ContextDone);
      }
      lastSeq := lastSeq + 1;
      id := if body.RunCall? then ReqId(lastSeq) else PingId(lastSeq);
      var msg := if body.RunCall? then WireMessage(MsgExec, id, Some(body.req), None, "")
                 else WireMessage(MsgPing, id, None, None, "");
      if !encodes {
        return id, Some(SendFailed);
      }
      conn.toWorker := conn.toWorker + [msg];
    }

    /** The second half of Run, once the decoder's channel is ready. */
    method CheckResponse(id: MessageId, inbox: Inbox) returns (result: ExecutionResult, err: Option<CallError>)
      ensures Outcome(result, err) == RunOutcome(id, inbox)
      ensures err.None? <==> inbox.Got? && inbox.msg.id == id && inbox.msg.error == ""
                             && inbox.msg.result == Some(result)
      ensures (err.Some? && err.value.MismatchedId?) <==> (inbox.Got? && inbox.msg.id != id)
      ensures err == Some(ReceiveFailed) <==> !inbox.Got?
      ensures result != NO_RESULT ==> inbox.Got? && inbox.msg.id == id && inbox.msg.result == Some(result)
    {
      if !inbox.Got? {
        return NO_RESULT, Some(ReceiveFailed);
      }
      var resp := inbox.msg;
      if resp.id != id {
        return NO_RESULT, Some(MismatchedId(resp.id, id));
      }
      if resp.error != "" {
        result := NO_RESULT;
        if resp.result.Some? {
          result := resp.result.value;
        }
        return result, Some(WorkerError(resp.error));
      }
      if resp.result.None? {
        return NO_RESULT, Some(NilResult);
      }
      return resp.result.value, None;
    }

    /** The second half of Ping. */
    method CheckPong(id: MessageId, inbox: Inbox) returns (err: Option<CallError>)
      ensures Outcome(NO_RESULT, err) == PingOutcome(id, inbox)
      ensures err.None? <==> inbox.Got? && inbox.msg.kind == MsgPong && inbox.msg.id == id
      ensures err == Some(ReceiveFailed) <==> !inbox.Got?
      ensures (err.Some? && err.value.IsMismatch())
          <==> (inbox.Got? && (inbox.msg.kind != MsgPong || inbox.msg.id != id))
    {
      if !inbox.Got? {
        return Some(ReceiveFailed);
      }
      var resp := inbox.msg;
      if resp.kind != MsgPong || resp.id != id {
        return Some(UnexpectedPong(resp.kind, resp.id));
      }
      return None;
    }

    method Close(encodes: bool)
      modifies this`closed, conn`toWorker, conn`open
      ensures closed && lastSeq == old(lastSeq) && conn.toClient == old(conn.toClient)
      ensures old(closed) ==> conn.open == old(conn.open) && conn.toWorker == old(conn.toWorker)
      ensures !old(closed) ==>
                && !conn.open
                && conn.toWorker == old(conn.toWorker)
                   + if encodes then [WireMessage(MsgShutdown, NoId, None, None, "")] else []
      ensures conn.View() == if old(closed) then old(conn.View())
                             else Hung(Written(old(conn.View()), SHUTDOWN, encodes))
    {
      if closed {
        return;
      }
      closed := true;
      if encodes {
        conn.toWorker := conn.toWorker + [WireMessage(MsgShutdown, NoId, None, None, "")];
      }
      conn.open := false;
    }
  }

  // ---------------------------------------------------------------- the worker

  /** A goroutine executing a request. */
  datatype Job = Job(id: MessageId, req: ExecutionRequest)

  datatype WorkerState = WorkerState(executing: seq<Job>, stopped: bool)

  /** A finished execution: what the local runner returned for the request. */
  datatype Execution = Execution(id: MessageId, req: ExecutionRequest, result: ExecutionResult, err: Option<string>)

  function ReplyTo(e: Execution): WireMessage {
    WireMessage(MsgResult, e.id, None, Some(e.result), if e.err.Some? then e.err.value else "")
  }

  function PongTo(id: MessageId): WireMessage { WireMessage(MsgPong, id, None, None, "") }

  function MissingPayload(id: MessageId): WireMessage {
    WireMessage(MsgResult, id, None, None, "exec request payload missing")
  }

  /** sendResp: on a connection that is not open the reply may be lost. */
  function Replied(l: Link, m: WireMessage, delivered: bool): Link {
    if l.open || delivered then l.(toClient := l.toClient + [m]) else l
  }

  function WorkerAfter(w: WorkerState, m: WireMessage): WorkerState {
    if m.kind.MsgExec? && m.exec.Some? then w.(executing := w.executing + [Job(m.id, m.exec.value)])
    else if m.kind.MsgShutdown? then w.(stopped := true)
    else w
  }

  function LinkAfter(l: Link, m: WireMessage, delivered: bool): Link {
    if m.kind.MsgPing? then Replied(l, PongTo(m.id), delivered)
    else if m.kind.MsgExec? && m.exec.None? then Replied(l, MissingPayload(m.id), delivered)
    else l
  }

  class Worker {
    const conn: Conn
    var executing: seq<Job>
    var stopped: bool

    function View(): WorkerState
      reads this
    {
      WorkerState(executing, stopped)
    }

    constructor (c: Conn)
      ensures conn == c && View() == WorkerState([], false)
    {
      conn := c;
      executing, stopped := [], false;
    }

    method SendResp(m: WireMessage, delivered: bool)
      modifies conn`toClient
      ensures conn.View() == Replied(old(conn.View()), m, delivered)
    {
      if conn.open || delivered {
        conn.toClient := conn.toClient + [m];
      }
    }

    /** One round of the message loop. */
    method Receive(delivered: bool)
      requires !stopped && conn.toWorker != []
      modifies this`executing, this`stopped, conn`toWorker, conn`toClient
      ensures var m, l := old(conn.toWorker)[0], old(conn.View());
              && View() == WorkerAfter(old(View()), m)
              && conn.View() == LinkAfter(l.(toWorker := l.toWorker[1..]), m, delivered)
      ensures conn.toWorker == old(conn.toWorker)[1..]
      ensures var m := old(conn.toWorker)[0];
              && stopped == m.kind.MsgShutdown?
              && executing == old(executing)
                 + (if m.kind.MsgExec? && m.exec.Some? then [Job(m.id, m.exec.value)] else [])
              && conn.toClient == old(conn.toClient)
                 + if !conn.open && !delivered then []
                   else if m.kind.MsgPing? then [WireMessage(MsgPong, m.id, None, None, "")]
                   else if m.kind.MsgExec? && m.exec.None? then
                     [WireMessage(MsgResult, m.id, None, None, "exec request payload missing")]
                   else []
    {
      var msg := conn.toWorker[0];
      conn.toWorker := conn.toWorker[1..];
      match msg.kind
      case MsgExec =>
        if msg.exec.None? {
          SendResp(WireMessage(MsgResult, msg.id, None, None, "exec request payload missing"), delivered);
        } else {
          executing := executing + [Job(msg.id, msg.exec.value)];
        }
      case MsgPing => SendResp(WireMessage(MsgPong, msg.id, None, None, ""), delivered);
      case MsgShutdown => stopped := true;
      case _ =>
    }

    /** The end of an execution goroutine. */
    method Complete(j: nat, result: ExecutionResult, err: Option<string>, delivered: bool)
      requires j < |executing|
      modifies this`executing, conn`toClient
      ensures executing == old(executing[..j] + executing[j + 1..]) && stopped == old(stopped)
      ensures var job := old(executing)[j];
              conn.View() == Replied(old(conn.View()), ReplyTo(Execution(job.id, job.req, result, err)), delivered)
      ensures conn.toWorker == old(conn.toWorker)
      ensures conn.toClient == old(conn.toClient)
              + if !conn.open && !delivered then []
                else [WireMessage(MsgResult, old(executing)[j].id, None, Some(result),
                                  if err.Some? then err.value else "")]
    {
      var resp := WireMessage(MsgResult, executing[j].id, None, Some(result), "");
      if err.Some? {
        resp := resp.(error := err.value);
      }
      executing := executing[..j] + executing[j + 1..];
      SendResp(resp, delivered);
    }
  }

  // ---------------------------------------------------------------- calls, client and worker together

  /** A call that has sent its request: its decoder's channel, and what the call returned if it has.
      A call that returned early leaves its decoder reading. */
  datatype Call = Call(body: CallBody, id: MessageId, inbox: Inbox, outcome: Option<Outcome>)

  /** `done` is the history of executions. The decoder is shared by all calls, and once it has failed it
      fails for ever. */
  datatype System = System(
    client: ClientState, link: Link, worker: WorkerState, calls: seq<Call>, done: seq<Execution>, decoderFailed: bool)

  datatype Action =
    | Begin(body: CallBody, ctxDone: bool, encodes: bool)
    | Decode(call: nat, fails: bool) | Return(call: nat) | GiveUp(call: nat)
    | Close(encodes: bool) | Break
    | WorkerReceives(delivered: bool)
    | WorkerCompletes(job: nat, result: ExecutionResult, err: Option<string>, delivered: bool)

  const START := System(ClientState(0, false), Link(true, [], []), WorkerState([], false), [], [], false)

  function SetCall(s: System, c: nat, call: Call): System
    requires c < |s.calls|
  {
    s.(calls := s.calls[c := call])
  }

  function ApplyClient(s: System, a: Action): System
    requires a.Begin? || a.Return? || a.GiveUp? || a.Close? || a.Break?
  {
    match a
    case Begin(body, ctxDone, encodes) =>
      if Refusal(s.client, body, ctxDone).Some? then s
      else
        var n := s.client.lastSeq + 1;
        var t := s.(client := s.client.(lastSeq := n), link := Written(s.link, RequestOf(body, n), encodes));
        if encodes then t.(calls := s.calls + [Call(body, IdOf(body, n), Reading, None)]) else t
    case Return(c) =>
      if c >= |s.calls| || s.calls[c].outcome.Some? || s.calls[c].inbox.Reading? then s
      else
        var call := s.calls[c];
        SetCall(s, c, call.(outcome := Some(OutcomeOf(call.body, call.id, call.inbox))))
    case GiveUp(c) =>
      if c >= |s.calls| || s.calls[c].outcome.Some? || s.calls[c].body.PingCall? then s
      else SetCall(s, c, s.calls[c].(outcome := Some(Outcome(NO_RESULT, Some(ContextDone)))))
    case Close(encodes) =>
      if s.client.closed then s
      else s.(client := s.client.(closed := true), link := Hung(Written(s.link, SHUTDOWN, encodes)))
    case Break => s.(link := Hung(s.link))
  }

  /** Decode of one waiting call, whichever gets to read first: the next reply, or an error once the
      connection is down, and from then on. While it is open and nothing has come the call blocks. */
  function ApplyDecode(s: System, c: nat, fails: bool): System {
    if c >= |s.calls| || !s.calls[c].inbox.Reading? then s
    else if s.decoderFailed || (fails && !s.link.open) then
      SetCall(s, c, s.calls[c].(inbox := Unreadable)).(decoderFailed := true)
    else if s.link.toClient == [] then s
    else
      SetCall(s, c, s.calls[c].(inbox := Got(s.link.toClient[0])))
      .(link := s.link.(toClient := s.link.toClient[1..]))
  }

  function ApplyWorker(s: System, a: Action): System
    requires a.WorkerReceives? || a.WorkerCompletes?
  {
    match a
    case WorkerReceives(delivered) =>
      if s.worker.stopped || s.link.toWorker == [] then s
      else
        var m := s.link.toWorker[0];
        s.(worker := WorkerAfter(s.worker, m),
           link := LinkAfter(s.link.(toWorker := s.link.toWorker[1..]), m, delivered))
    case WorkerCompletes(j, result, err, delivered) =>
      if j >= |s.worker.executing| then s
      else
        var jobs := s.worker.executing;
        var e := Execution(jobs[j].id, jobs[j].req, result, err);
        s.(worker := s.worker.(executing := jobs[..j] + jobs[j + 1..]),
           link := Replied(s.link, ReplyTo(e), delivered), done := s.done + [e])
  }

  function Apply(s: System, a: Action): System {
    match a
    case Decode(c, fails) => ApplyDecode(s, c, fails)
    case WorkerReceives(_) | WorkerCompletes(_, _, _, _) => ApplyWorker(s, a)
    case _ => ApplyClient(s, a)
  }

  function After(s: System, actions: seq<Action>): System {
    if actions == [] then s else Apply(After(s, actions[..|actions| - 1]), actions[|actions| - 1])
  }
}
