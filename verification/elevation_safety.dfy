/** What holds under every interleaving of concurrent, cancelled and orphaned calls to the elevated
    worker: answers belong to their requests, nothing is executed twice, and while the connection is
    open every pending decoder has exactly one reply on its way. */
module ElevationSafety {
  import opened Text
  import opened Executor
  import opened Elevation

  function Number(id: MessageId): nat { if id.NoId? then 0 else id.n }

  // ---------------------------------------------------------------- requests and their calls

  ghost predicate CallsNumbered(s: System) {
    && (forall i :: 0 <= i < |s.calls| ==>
          && s.calls[i].id == IdOf(s.calls[i].body, Number(s.calls[i].id))
          && 0 < Number(s.calls[i].id) <= s.client.lastSeq)
    && (forall i, j :: 0 <= i < j < |s.calls| ==> Number(s.calls[i].id) < Number(s.calls[j].id))
  }

  /** Some call sent this very message. */
  ghost predicate Asked(s: System, m: WireMessage) {
    exists i :: 0 <= i < |s.calls| && m == RequestOf(s.calls[i].body, Number(s.calls[i].id))
  }

  /** Some Run call with this identifier carried this request. */
  ghost predicate AskedFor(s: System, id: MessageId, req: ExecutionRequest) {
    exists i :: 0 <= i < |s.calls| && s.calls[i].id == id && s.calls[i].body == RunCall(req)
  }

  ghost predicate WorkIsAsked(s: System) {
    && (forall k :: 0 <= k < |s.link.toWorker| ==> s.link.toWorker[k] == SHUTDOWN || Asked(s, s.link.toWorker[k]))
    && (forall k :: 0 <= k < |s.worker.executing| ==> AskedFor(s, s.worker.executing[k].id, s.worker.executing[k].req))
    && (forall k :: 0 <= k < |s.done| ==> AskedFor(s, s.done[k].id, s.done[k].req))
  }

  /** Calls are only added, and keep their identifier and body. */
  ghost predicate CallsGrow(s: System, t: System) {
    && |s.calls| <= |t.calls|
    && forall i :: 0 <= i < |s.calls| ==> t.calls[i].id == s.calls[i].id && t.calls[i].body == s.calls[i].body
  }

  lemma CallsGrowBy(s: System, a: Action)
    ensures CallsGrow(s, Apply(s, a)) && s.done <= Apply(s, a).done
  {
    hide RunOutcome, PingOutcome, Written, Replied, WorkerAfter, LinkAfter, RequestOf;
  }

  lemma AskedKept(s: System, t: System)
    requires CallsGrow(s, t)
    ensures forall m :: Asked(s, m) ==> Asked(t, m)
    ensures forall id, req :: AskedFor(s, id, req) ==> AskedFor(t, id, req)
  {
    hide RequestOf;
    forall m | Asked(s, m) ensures Asked(t, m) {
      var i :| 0 <= i < |s.calls| && m == RequestOf(s.calls[i].body, Number(s.calls[i].id));
      assert t.calls[i].id == s.calls[i].id;
    }
    forall id, req | AskedFor(s, id, req) ensures AskedFor(t, id, req) {
      var i :| 0 <= i < |s.calls| && s.calls[i].id == id && s.calls[i].body == RunCall(req);
      assert t.calls[i].id == s.calls[i].id;
    }
  }

  lemma CallsNumberedKept(s: System, a: Action)
    requires CallsNumbered(s)
    ensures CallsNumbered(Apply(s, a))
  {
    hide RunOutcome, PingOutcome, Written, Replied, WorkerAfter, LinkAfter, RequestOf;
  }

  lemma WorkIsAskedKept(s: System, a: Action)
    requires CallsNumbered(s) && WorkIsAsked(s)
    ensures WorkIsAsked(Apply(s, a))
  {
    hide RunOutcome, PingOutcome, Asked, AskedFor, CallsGrow, CallsNumbered;
    var t := Apply(s, a);
    CallsGrowBy(s, a);
    AskedKept(s, t);
    if a.Begin? && Refusal(s.client, a.body, a.ctxDone).None? && a.encodes {
      NewCallAsked(s, a);
    } else if a.WorkerReceives? && s.link.toWorker != [] {
      AskedExec(s, s.link.toWorker[0]);
    }
  }

  lemma NewCallAsked(s: System, a: Action)
    requires a.Begin? && Refusal(s.client, a.body, a.ctxDone).None? && a.encodes
    ensures var t := Apply(s, a); Asked(t, RequestOf(a.body, t.client.lastSeq))
  {
    hide RequestOf;
    var t := Apply(s, a);
    assert t.calls[|s.calls|].body == a.body;
  }

  lemma AskedExec(s: System, m: WireMessage)
    requires CallsNumbered(s)
    ensures Asked(s, m) && m.kind.MsgExec? ==> m.exec.Some? && AskedFor(s, m.id, m.exec.value)
    ensures Asked(s, m) ==> (m.kind.MsgExec? || m.kind.MsgPing?) && 0 < Number(m.id) <= s.client.lastSeq
    ensures m == SHUTDOWN ==> m.kind.MsgShutdown?
  {
    if Asked(s, m) {
      var i :| 0 <= i < |s.calls| && m == RequestOf(s.calls[i].body, Number(s.calls[i].id));
      assert s.calls[i].id == m.id;
    }
  }

  // ---------------------------------------------------------------- nothing is executed twice

  /** Requests wait in the order of their numbers, after everything the worker has taken; jobs are
      distinct, finished executions are distinct, and no job is finished already. */
  ghost predicate Ordered(s: System) {
    && (forall j, k :: 0 <= j < k < |s.link.toWorker|
                       && s.link.toWorker[j] != SHUTDOWN && s.link.toWorker[k] != SHUTDOWN ==>
          Number(s.link.toWorker[j].id) < Number(s.link.toWorker[k].id))
    && (forall j, k :: 0 <= j < |s.worker.executing| && 0 <= k < |s.link.toWorker| && s.link.toWorker[k] != SHUTDOWN ==>
          Number(s.worker.executing[j].id) < Number(s.link.toWorker[k].id))
    && (forall j, k :: 0 <= j < |s.done| && 0 <= k < |s.link.toWorker| && s.link.toWorker[k] != SHUTDOWN ==>
          Number(s.done[j].id) < Number(s.link.toWorker[k].id))
    && (forall j, k :: 0 <= j < k < |s.worker.executing| ==>
          Number(s.worker.executing[j].id) < Number(s.worker.executing[k].id))
    && (forall j, k :: 0 <= j < |s.done| && 0 <= k < |s.worker.executing| ==>
          Number(s.done[j].id) != Number(s.worker.executing[k].id))
    && (forall j, k :: 0 <= j < k < |s.done| ==> Number(s.done[j].id) != Number(s.done[k].id))
  }

  lemma NumbersUsed(s: System)
    requires CallsNumbered(s) && WorkIsAsked(s)
    ensures forall k :: 0 <= k < |s.link.toWorker| ==> Number(s.link.toWorker[k].id) <= s.client.lastSeq
    ensures forall k :: 0 <= k < |s.worker.executing| ==> Number(s.worker.executing[k].id) <= s.client.lastSeq
    ensures forall k :: 0 <= k < |s.done| ==> Number(s.done[k].id) <= s.client.lastSeq
  {
    hide Asked;
    forall k | 0 <= k < |s.link.toWorker| ensures Number(s.link.toWorker[k].id) <= s.client.lastSeq {
      AskedExec(s, s.link.toWorker[k]);
    }
  }

  lemma RequestNumber(body: CallBody, n: nat)
    ensures Number(RequestOf(body, n).id) == n && RequestOf(body, n) != SHUTDOWN
  {
  }

  lemma OrderedKeptByClient(s: System, a: Action)
    requires CallsNumbered(s) && WorkIsAsked(s) && Ordered(s)
    requires !a.WorkerReceives? && !a.WorkerCompletes?
    ensures Ordered(Apply(s, a))
  {
    hide RunOutcome, PingOutcome, OutcomeOf, Asked, AskedFor, CallsNumbered, WorkIsAsked, RequestOf;
    if a.Begin? {
      NumbersUsed(s);
      RequestNumber(a.body, s.client.lastSeq + 1);
    }
  }

  lemma OrderedKeptByReceiving(s: System, delivered: bool)
    requires CallsNumbered(s) && WorkIsAsked(s) && Ordered(s)
    ensures Ordered(ApplyWorker(s, WorkerReceives(delivered)))
  {
    hide RunOutcome, PingOutcome, Asked, AskedFor, CallsNumbered, WorkIsAsked;
    if s.link.toWorker != [] {
      TakenIsAsked(s);
      AskedExec(s, s.link.toWorker[0]);
    }
  }

  lemma OrderedKeptByCompleting(s: System, a: Action)
    requires Ordered(s) && a.WorkerCompletes?
    ensures Ordered(ApplyWorker(s, a))
  {
    hide ReplyTo;
  }

  lemma OrderedKept(s: System, a: Action)
    requires CallsNumbered(s) && WorkIsAsked(s) && Ordered(s)
    ensures Ordered(Apply(s, a))
  {
    hide Ordered, CallsNumbered, WorkIsAsked, ApplyWorker, ApplyClient, ApplyDecode;
    if a.WorkerReceives? {
      OrderedKeptByReceiving(s, a.delivered);
    } else if a.WorkerCompletes? {
      OrderedKeptByCompleting(s, a);
    } else {
      OrderedKeptByClient(s, a);
    }
  }

  lemma TakenIsAsked(s: System)
    requires WorkIsAsked(s) && s.link.toWorker != []
    ensures s.link.toWorker[0] == SHUTDOWN || Asked(s, s.link.toWorker[0])
  {
  }

  // ---------------------------------------------------------------- answers belong to their requests

  /** A reply the worker sent: the answer to a finished execution, or a pong. */
  ghost predicate Genuine(done: seq<Execution>, m: WireMessage) {
    || (exists k :: 0 <= k < |done| && m == ReplyTo(done[k]))
    || m == PongTo(PingId(Number(m.id)))
  }

  ghost predicate RepliesGenuine(s: System) {
    && (forall k :: 0 <= k < |s.link.toClient| ==> Genuine(s.done, s.link.toClient[k]))
    && (forall i :: 0 <= i < |s.calls| && s.calls[i].inbox.Got? ==> Genuine(s.done, s.calls[i].inbox.msg))
  }

  ghost predicate RepliesNumbered(s: System) {
    forall k :: 0 <= k < |s.link.toClient| ==> Number(s.link.toClient[k].id) <= s.client.lastSeq
  }

  lemma RepliesNumberedKept(s: System, a: Action)
    requires CallsNumbered(s) && WorkIsAsked(s) && RepliesNumbered(s)
    ensures RepliesNumbered(Apply(s, a))
  {
    hide RunOutcome, PingOutcome, CallsNumbered, WorkIsAsked, RequestOf;
    NumbersUsed(s);
  }

  /** The worker executed this request under this identifier, without an error text, and got this result. */
  ghost predicate ExecutedWith(done: seq<Execution>, id: MessageId, req: ExecutionRequest, result: ExecutionResult) {
    exists k :: && 0 <= k < |done| && done[k].id == id && done[k].req == req && done[k].result == result
                && (done[k].err.None? || done[k].err == Some(""))
  }

  ghost predicate Correlated(s: System) {
    forall i :: 0 <= i < |s.calls| && s.calls[i].body.RunCall? && s.calls[i].outcome.Some?
                && s.calls[i].outcome.value.err.None? ==>
      ExecutedWith(s.done, s.calls[i].id, s.calls[i].body.req, s.calls[i].outcome.value.result)
  }

  lemma HistoryGrows(s: seq<Execution>, t: seq<Execution>)
    requires s <= t
    ensures forall m :: Genuine(s, m) ==> Genuine(t, m)
    ensures forall id, req, result :: ExecutedWith(s, id, req, result) ==> ExecutedWith(t, id, req, result)
  {
    hide ReplyTo;
    forall m | Genuine(s, m) ensures Genuine(t, m) {
      if k :| 0 <= k < |s| && m == ReplyTo(s[k]) {
        assert t[k] == s[k];
      }
    }
    forall id, req, result | ExecutedWith(s, id, req, result) ensures ExecutedWith(t, id, req, result) {
      var k :| 0 <= k < |s| && s[k].id == id && s[k].req == req && s[k].result == result
          && (s[k].err.None? || s[k].err == Some(""));
      assert t[k] == s[k];
    }
  }

  lemma NewReplyGenuine(done: seq<Execution>, e: Execution)
    ensures Genuine(done + [e], ReplyTo(e))
  {
    assert (done + [e])[|done|] == e;
  }

  /** The worker answers a ping with a pong of the same identifier, and no Exec lacks its payload. */
  lemma AnswerToTaken(s: System)
    requires CallsNumbered(s) && WorkIsAsked(s) && s.link.toWorker != []
    ensures var m := s.link.toWorker[0];
            && (m.kind.MsgExec? ==> m.exec.Some?)
            && (m.kind.MsgPing? ==> Genuine(s.done, PongTo(m.id)))
  {
    var m := s.link.toWorker[0];
    if m != SHUTDOWN {
      var i :| 0 <= i < |s.calls| && m == RequestOf(s.calls[i].body, Number(s.calls[i].id));
    }
  }

  lemma RepliesGenuineKept(s: System, a: Action)
    requires CallsNumbered(s) && WorkIsAsked(s) && RepliesGenuine(s)
    ensures RepliesGenuine(Apply(s, a))
  {
    hide RunOutcome, PingOutcome, CallsNumbered, WorkIsAsked, Genuine, ReplyTo, RequestOf;
    var t := Apply(s, a);
    CallsGrowBy(s, a);
    HistoryGrows(s.done, t.done);
    if a.WorkerReceives? && s.link.toWorker != [] {
      AnswerToTaken(s);
    } else if a.WorkerCompletes? && a.job < |s.worker.executing| {
      NewReplyGenuine(s.done, t.done[|s.done|]);
    }
  }

  /** A genuine reply with the identifier of a Run call that is accepted without error carries the
      result of executing that call's request. */
  lemma AcceptedReplyAnswers(s: System, i: nat)
    requires CallsNumbered(s) && WorkIsAsked(s) && i < |s.calls| && s.calls[i].body.RunCall?
    requires s.calls[i].inbox.Got? && Genuine(s.done, s.calls[i].inbox.msg)
    requires RunOutcome(s.calls[i].id, s.calls[i].inbox).err.None?
    ensures ExecutedWith(s.done, s.calls[i].id, s.calls[i].body.req, RunOutcome(s.calls[i].id, s.calls[i].inbox).result)
  {
    var c := s.calls[i];
    var k :| 0 <= k < |s.done| && c.inbox.msg == ReplyTo(s.done[k]);
    assert AskedFor(s, s.done[k].id, s.done[k].req);
    var j :| 0 <= j < |s.calls| && s.calls[j].id == s.done[k].id && s.calls[j].body == RunCall(s.done[k].req);
    assert Number(s.calls[i].id) == Number(s.calls[j].id);
    assert i == j;
  }

  lemma CorrelatedKept(s: System, a: Action)
    requires CallsNumbered(s) && WorkIsAsked(s) && RepliesGenuine(s) && Correlated(s)
    ensures Correlated(Apply(s, a))
  {
    hide RunOutcome, PingOutcome, CallsNumbered, WorkIsAsked, Genuine, ReplyTo, RequestOf, ExecutedWith;
    var t := Apply(s, a);
    CallsGrowBy(s, a);
    HistoryGrows(s.done, t.done);
    if a.Return? && a.call < |s.calls| && !s.calls[a.call].inbox.Reading? {
      var c := s.calls[a.call];
      if c.body.RunCall? && RunOutcome(c.id, c.inbox).err.None? {
        assert c.inbox.Got? by { UnreadableIsError(c.id, c.inbox); }
        AcceptedReplyAnswers(s, a.call);
      }
    }
  }

  lemma UnreadableIsError(id: MessageId, inbox: Inbox)
    ensures RunOutcome(id, inbox).err.None? ==> inbox.Got?
  {
  }

  // ---------------------------------------------------------------- pending decoders are owed replies

  function Decoders(calls: seq<Call>): nat {
    if calls == [] then 0
    else Decoders(calls[..|calls| - 1]) + if calls[|calls| - 1].inbox.Reading? then 1 else 0
  }

  /** While the connection is open, each pending decoder is owed exactly one of the messages under way. */
  ghost predicate Conserved(s: System) {
    s.link.open ==>
      && !s.client.closed && !s.worker.stopped && SHUTDOWN !in s.link.toWorker && !s.decoderFailed
      && Decoders(s.calls) == |s.link.toWorker| + |s.worker.executing| + |s.link.toClient|
  }

  /** Until the client hangs up or its decoder fails, there are never more messages under way than
      decoders pending, on an open connection or not. */
  ghost predicate Bounded(s: System) {
    !s.client.closed && !s.decoderFailed ==>
      && SHUTDOWN !in s.link.toWorker
      && |s.link.toWorker| + |s.worker.executing| + |s.link.toClient| <= Decoders(s.calls)
  }

  lemma {:induction false} DecodersUpdate(calls: seq<Call>, i: nat, c: Call)
    requires i < |calls|
    ensures Decoders(calls[i := c])
         == Decoders(calls) - (if calls[i].inbox.Reading? then 1 else 0) + (if c.inbox.Reading? then 1 else 0)
  {
    var n := |calls| - 1;
    if i == n {
      assert calls[i := c][..n] == calls[..n];
    } else {
      assert calls[i := c][..n] == calls[..n][i := c];
      DecodersUpdate(calls[..n], i, c);
    }
  }

  lemma DecodersAppend(calls: seq<Call>, c: Call)
    ensures Decoders(calls + [c]) == Decoders(calls) + if c.inbox.Reading? then 1 else 0
  {
    assert (calls + [c])[..|calls|] == calls;
  }

  lemma RequestIsNotShutdown(body: CallBody, n: nat)
    ensures RequestOf(body, n) != SHUTDOWN
  {
  }

  lemma ConservedKept(s: System, a: Action)
    requires CallsNumbered(s) && WorkIsAsked(s) && Conserved(s)
    ensures Conserved(Apply(s, a))
  {
    hide RunOutcome, PingOutcome, CallsNumbered, WorkIsAsked, Decoders, RequestOf, ReplyTo, Asked;
    match a
    case Begin(body, _, _) =>
      DecodersAppend(s.calls, Call(body, IdOf(body, s.client.lastSeq + 1), Reading, None));
      RequestIsNotShutdown(body, s.client.lastSeq + 1);
    case Return(c) =>
      if c < |s.calls| { DecodersUpdate(s.calls, c, Apply(s, a).calls[c]); }
    case GiveUp(c) =>
      if c < |s.calls| { DecodersUpdate(s.calls, c, Apply(s, a).calls[c]); }
    case Decode(c, _) =>
      if c < |s.calls| { DecodersUpdate(s.calls, c, Apply(s, a).calls[c]); }
    case WorkerReceives(_) =>
      if s.link.toWorker != [] {
        TakenIsAsked(s);
        AskedExec(s, s.link.toWorker[0]);
        assert s.link.open ==> s.link.toWorker[0] in s.link.toWorker;
      }
    case _ =>
  }

  lemma BoundedKept(s: System, a: Action)
    requires CallsNumbered(s) && WorkIsAsked(s) && Bounded(s)
    ensures Bounded(Apply(s, a))
  {
    hide RunOutcome, PingOutcome, CallsNumbered, WorkIsAsked, Decoders, RequestOf, ReplyTo, Asked;
    match a
    case Begin(body, _, _) =>
      DecodersAppend(s.calls, Call(body, IdOf(body, s.client.lastSeq + 1), Reading, None));
      RequestIsNotShutdown(body, s.client.lastSeq + 1);
    case Return(c) =>
      if c < |s.calls| { DecodersUpdate(s.calls, c, Apply(s, a).calls[c]); }
    case GiveUp(c) =>
      if c < |s.calls| { DecodersUpdate(s.calls, c, Apply(s, a).calls[c]); }
    case Decode(c, _) =>
      if c < |s.calls| { DecodersUpdate(s.calls, c, Apply(s, a).calls[c]); }
    case WorkerReceives(_) =>
      if s.link.toWorker != [] {
        TakenIsAsked(s);
        AskedExec(s, s.link.toWorker[0]);
      }
    case _ =>
  }

  // ---------------------------------------------------------------- every interleaving

  ghost predicate Sound(s: System) {
    && CallsNumbered(s) && WorkIsAsked(s) && Ordered(s)
    && RepliesGenuine(s) && RepliesNumbered(s) && Correlated(s) && Conserved(s) && Bounded(s)
  }

  lemma SoundAtStart()
    ensures Sound(START)
  {
  }

  lemma SoundKept(s: System, a: Action)
    requires Sound(s)
    ensures Sound(Apply(s, a))
  {
    hide CallsNumbered, WorkIsAsked, Ordered, RepliesGenuine, RepliesNumbered, Correlated, Conserved, Bounded, Apply;
    CallsNumberedKept(s, a);
    WorkIsAskedKept(s, a);
    OrderedKept(s, a);
    RepliesGenuineKept(s, a);
    RepliesNumberedKept(s, a);
    CorrelatedKept(s, a);
    ConservedKept(s, a);
    BoundedKept(s, a);
  }

  lemma {:induction false} AlwaysSound(actions: seq<Action>)
    ensures Sound(After(START, actions))
  {
    hide Sound, Apply;
    if actions == [] {
      SoundAtStart();
    } else {
      AlwaysSound(actions[..|actions| - 1]);
      SoundKept(After(START, actions[..|actions| - 1]), actions[|actions| - 1]);
    }
  }

  /** A Run that returns without error returns the result the worker got by executing that very
      request, and the worker executed it once. */
  lemma RpcCorrelation(actions: seq<Action>, i: nat)
    requires var s := After(START, actions);
             i < |s.calls| && s.calls[i].body.RunCall? && s.calls[i].outcome.Some? && s.calls[i].outcome.value.err.None?
    ensures var s := After(START, actions);
            && ExecutedWith(s.done, s.calls[i].id, s.calls[i].body.req, s.calls[i].outcome.value.result)
            && forall j, k :: 0 <= j < |s.done| && 0 <= k < |s.done| && s.done[j].id == s.done[k].id ==> j == k
  {
    hide CallsNumbered, WorkIsAsked, RepliesGenuine, Conserved, ExecutedWith, After;
    AlwaysSound(actions);
  }

  /** While the connection is open, pending decoders equal the requests queued, executing or answered
      but unread. */
  lemma RpcConservation(actions: seq<Action>)
    ensures var s := After(START, actions);
            s.link.open ==> Decoders(s.calls) == |s.link.toWorker| + |s.worker.executing| + |s.link.toClient|
  {
    hide CallsNumbered, WorkIsAsked, RepliesGenuine, Ordered, Correlated, After, Decoders;
    AlwaysSound(actions);
  }
}
