/** What becomes of a call to the elevated worker: undisturbed it returns what the worker got, an error text
    it returns is that of its own execution, and after the connection is gone nobody waits for ever. */
module ElevationProgress {
  import opened Text
  import opened Executor
  import opened Elevation
  import opened ElevationSafety
  import opened ElevationMismatch

  // ---------------------------------------------------------------- an undisturbed call

  /** An open connection on which nobody reads is empty in both directions. */
  lemma NothingUnderWay(s: System)
    requires Sound(s) && s.link.open && Decoders(s.calls) == 0
    ensures s.link.toWorker == [] && s.link.toClient == [] && s.worker.executing == []
    ensures !s.client.closed && !s.worker.stopped && !s.decoderFailed
  {
  }

  lemma RunGoesThrough(s: System, req: ExecutionRequest, result: ExecutionResult, err: Option<string>)
    requires s.link == Link(true, [], []) && s.worker == WorkerState([], false) && !s.client.closed && !s.decoderFailed
    ensures var c := |s.calls|;
            var asked := Apply(Apply(s, Begin(RunCall(req), false, true)), WorkerReceives(true));
            var t := Apply(Apply(Apply(asked, WorkerCompletes(0, result, err, true)), Decode(c, false)), Return(c));
            && |asked.worker.executing| == 1 && asked.worker.executing[0].req == req
            && |t.calls| == c + 1 && t.link == Link(true, [], []) && t.worker == WorkerState([], false)
            && !t.calls[c].inbox.Reading?
            && t.calls[c].outcome
               == Some(if err.None? || err.value == "" then Outcome(result, None)
                       else Outcome(result, Some(WorkerError(err.value))))
  {
    var sent := Apply(s, Begin(RunCall(req), false, true));
    assert sent.link.toWorker == [RequestOf(RunCall(req), s.client.lastSeq + 1)];
    var asked := Apply(sent, WorkerReceives(true));
    assert asked.worker.executing == [Job(ReqId(s.client.lastSeq + 1), req)];
    var done := Apply(asked, WorkerCompletes(0, result, err, true));
    assert |done.link.toClient| == 1;
  }

  /** On an open connection on which nobody reads, a Run whose steps are not disturbed returns what the
      execution of its request brought: the result, and the error text if there is one. */
  lemma FreshRunReturns(history: seq<Action>, req: ExecutionRequest, result: ExecutionResult, err: Option<string>)
    requires After(START, history).link.open && Decoders(After(START, history).calls) == 0
    ensures var s := After(START, history);
            var c := |s.calls|;
            var asked := Apply(Apply(s, Begin(RunCall(req), false, true)), WorkerReceives(true));
            var t := Apply(Apply(Apply(asked, WorkerCompletes(0, result, err, true)), Decode(c, false)), Return(c));
            && |asked.worker.executing| == 1 && asked.worker.executing[0].req == req
            && |t.calls| == c + 1
            && t.calls[c].outcome
               == Some(if err.None? || err.value == "" then Outcome(result, None)
                       else Outcome(result, Some(WorkerError(err.value))))
  {
    hide After, Sound, Apply, Decoders;
    AlwaysSound(history);
    NothingUnderWay(After(START, history));
    RunGoesThrough(After(START, history), req, result, err);
  }

  lemma PingGoesThrough(s: System)
    requires s.link == Link(true, [], []) && s.worker == WorkerState([], false) && !s.client.closed && !s.decoderFailed
    ensures var c := |s.calls|;
            var t := Apply(Apply(Apply(Apply(s, Begin(PingCall, false, true)), WorkerReceives(true)), Decode(c, false)),
                           Return(c));
            |t.calls| == c + 1 && t.calls[c].outcome == Some(Outcome(NO_RESULT, None))
  {
    var sent := Apply(s, Begin(PingCall, false, true));
    assert sent.link.toWorker == [RequestOf(PingCall, s.client.lastSeq + 1)];
    assert Apply(sent, WorkerReceives(true)).link.toClient == [PongTo(PingId(s.client.lastSeq + 1))];
  }

  /** Likewise a Ping is answered. */
  lemma FreshPingReturns(history: seq<Action>)
    requires After(START, history).link.open && Decoders(After(START, history).calls) == 0
    ensures var s := After(START, history);
            var c := |s.calls|;
            var t := Apply(Apply(Apply(Apply(s, Begin(PingCall, false, true)), WorkerReceives(true)), Decode(c, false)),
                           Return(c));
            |t.calls| == c + 1 && t.calls[c].outcome == Some(Outcome(NO_RESULT, None))
  {
    hide After, Sound, Apply, Decoders;
    AlwaysSound(history);
    NothingUnderWay(After(START, history));
    PingGoesThrough(After(START, history));
  }

  // ---------------------------------------------------------------- error texts

  ghost predicate FailedWith(done: seq<Execution>, id: MessageId, req: ExecutionRequest, o: Outcome) {
    exists k :: && 0 <= k < |done| && done[k].id == id && done[k].req == req && done[k].result == o.result
                && done[k].err.Some? && done[k].err.value != "" && o.err == Some(WorkerError(done[k].err.value))
  }

  predicate SaysWorkerError(o: Option<Outcome>) { o.Some? && o.value.err.Some? && o.value.err.value.WorkerError? }

  ghost predicate ErrorsCorrelated(s: System) {
    forall i :: 0 <= i < |s.calls| && s.calls[i].body.RunCall? && SaysWorkerError(s.calls[i].outcome) ==>
      FailedWith(s.done, s.calls[i].id, s.calls[i].body.req, s.calls[i].outcome.value)
  }

  lemma FailuresStay(s: seq<Execution>, t: seq<Execution>)
    requires s <= t
    ensures forall id, req, o :: FailedWith(s, id, req, o) ==> FailedWith(t, id, req, o)
  {
    forall id, req, o | FailedWith(s, id, req, o) ensures FailedWith(t, id, req, o) {
      var k :| 0 <= k < |s| && s[k].id == id && s[k].req == req && s[k].result == o.result
               && s[k].err.Some? && s[k].err.value != "" && o.err == Some(WorkerError(s[k].err.value));
      assert t[k] == s[k];
    }
  }

  /** A genuine reply with the identifier of a Run call that carries an error text. */
  lemma ReplyErrorIsOwn(s: System, i: nat)
    requires CallsNumbered(s) && WorkIsAsked(s) && i < |s.calls| && s.calls[i].body.RunCall?
    requires s.calls[i].inbox.Got? && Genuine(s.done, s.calls[i].inbox.msg)
    requires SaysWorkerError(Some(RunOutcome(s.calls[i].id, s.calls[i].inbox)))
    ensures FailedWith(s.done, s.calls[i].id, s.calls[i].body.req, RunOutcome(s.calls[i].id, s.calls[i].inbox))
  {
    var c := s.calls[i];
    var k :| 0 <= k < |s.done| && c.inbox.msg == ReplyTo(s.done[k]);
    assert AskedFor(s, s.done[k].id, s.done[k].req);
    var j :| 0 <= j < |s.calls| && s.calls[j].id == s.done[k].id && s.calls[j].body == RunCall(s.done[k].req);
    assert Number(s.calls[i].id) == Number(s.calls[j].id);
    assert i == j;
  }

  lemma ErrorsCorrelatedKept(s: System, a: Action)
    requires CallsNumbered(s) && WorkIsAsked(s) && RepliesGenuine(s) && ErrorsCorrelated(s)
    ensures ErrorsCorrelated(Apply(s, a))
  {
    hide Genuine, CallsNumbered, WorkIsAsked, FailedWith, Written, Replied, WorkerAfter, LinkAfter, RequestOf,
         RunOutcome, PingOutcome;
    var t := Apply(s, a);
    CallsGrowBy(s, a);
    FailuresStay(s.done, t.done);
    if a.Return? && a.call < |s.calls| && s.calls[a.call].inbox.Got? {
      var c := s.calls[a.call];
      if c.body.RunCall? && SaysWorkerError(Some(RunOutcome(c.id, c.inbox))) {
        ReplyErrorIsOwn(s, a.call);
      }
    } else if a.Return? && a.call < |s.calls| && s.calls[a.call].inbox.Unreadable? {
      UnreadableSays(s.calls[a.call].id);
    }
  }

  lemma UnreadableSays(id: MessageId)
    ensures RunOutcome(id, Unreadable) == Outcome(NO_RESULT, Some(ReceiveFailed))
  {
  }

  lemma {:induction false} AlwaysErrorsCorrelated(actions: seq<Action>)
    ensures Sound(After(START, actions)) && ErrorsCorrelated(After(START, actions))
  {
    hide Apply, CallsNumbered, WorkIsAsked, Ordered, RepliesGenuine, RepliesNumbered, Correlated, Conserved, Bounded,
         ErrorsCorrelated;
    AlwaysSound(actions);
    if actions == [] {
      NoErrorsAtStart();
    } else {
      AlwaysErrorsCorrelated(actions[..|actions| - 1]);
      ErrorsCorrelatedKept(After(START, actions[..|actions| - 1]), actions[|actions| - 1]);
    }
  }

  lemma NoErrorsAtStart()
    ensures After(START, []) == START && ErrorsCorrelated(START)
  {
  }

  /** Under any interleaving: a Run that returns the worker's error returns the error text, and the result,
      of executing its own request. */
  lemma ErrorIsOfOwnRequest(actions: seq<Action>, i: nat, text: string)
    requires var s := After(START, actions);
             && i < |s.calls| && s.calls[i].body.RunCall? && s.calls[i].outcome.Some?
             && s.calls[i].outcome.value.err == Some(WorkerError(text))
    ensures var s := After(START, actions);
            exists k :: && 0 <= k < |s.done| && s.done[k].id == s.calls[i].id && s.done[k].req == s.calls[i].body.req
                        && s.done[k].result == s.calls[i].outcome.value.result
                        && s.done[k].err == Some(text) && text != ""
  {
    hide After, Sound;
    AlwaysErrorsCorrelated(actions);
    var s := After(START, actions);
    assert FailedWith(s.done, s.calls[i].id, s.calls[i].body.req, s.calls[i].outcome.value);
  }

  // ---------------------------------------------------------------- the end of a connection

  /** Once the connection is down every waiting call can return: with an error, whatever it waits for. */
  lemma WaitersReturn(s: System, c: nat)
    requires !s.link.open && c < |s.calls| && s.calls[c].inbox.Reading? && s.calls[c].outcome.None?
    ensures var t := Apply(Apply(s, Decode(c, true)), Return(c));
            c < |t.calls| && t.calls[c].outcome == Some(Outcome(NO_RESULT, Some(ReceiveFailed)))
  {
  }

  lemma ClosedStepStays(s: System, a: Action)
    requires s.client.closed
    ensures var t := Apply(s, a);
            && t.client == s.client && |t.calls| == |s.calls| && (!s.link.open ==> !t.link.open)
            && (a.WorkerReceives? || t.link.toWorker == s.link.toWorker)
  {
    hide RunOutcome, PingOutcome;
  }

  /** After Close the connection is down, no call begins any more, and nothing more is asked of the worker. */
  lemma {:induction false} ClosedForGood(s: System, encodes: bool, more: seq<Action>)
    requires !s.client.closed
    ensures var closed := Apply(s, Close(encodes));
            var t := After(closed, more);
            && closed.client.closed && !closed.link.open
            && closed.link.toWorker == s.link.toWorker
               + (if encodes then [WireMessage(MsgShutdown, NoId, None, None, "")] else [])
            && t.client == closed.client && |t.calls| == |s.calls| && !t.link.open
  {
    hide Apply;
    CloseIs(s, encodes);
    if more != [] {
      ClosedForGood(s, encodes, more[..|more| - 1]);
      ClosedStepStays(After(Apply(s, Close(encodes)), more[..|more| - 1]), more[|more| - 1]);
    }
  }

  lemma CloseIs(s: System, encodes: bool)
    requires !s.client.closed
    ensures var closed := Apply(s, Close(encodes));
            && closed.client == s.client.(closed := true) && !closed.link.open && closed.calls == s.calls
            && closed.link.toWorker == s.link.toWorker
               + (if encodes then [WireMessage(MsgShutdown, NoId, None, None, "")] else [])
  {
  }

  function Received(s: System, n: nat): System
    decreases n
  {
    if n == 0 then s else Received(Apply(s, WorkerReceives(true)), n - 1)
  }

  /** The worker stops at the latest when it has taken all that is queued before a shutdown message. */
  lemma {:induction false} ShutdownStops(s: System)
    requires s.worker.stopped || (s.link.toWorker != [] && s.link.toWorker[|s.link.toWorker| - 1].kind.MsgShutdown?)
    ensures Received(s, |s.link.toWorker|).worker.stopped
    decreases |s.link.toWorker|
  {
    if s.worker.stopped {
      StoppedStays(s, |s.link.toWorker|);
    } else {
      var t := Apply(s, WorkerReceives(true));
      assert t.link.toWorker == s.link.toWorker[1..];
      if t.link.toWorker != [] {
        assert t.link.toWorker[|t.link.toWorker| - 1] == s.link.toWorker[|s.link.toWorker| - 1];
      }
      ShutdownStops(t);
    }
  }

  lemma {:induction false} StoppedStays(s: System, n: nat)
    requires s.worker.stopped
    ensures Received(s, n) == s
    decreases n
  {
    if n > 0 {
      StoppedStays(s, n - 1);
    }
  }

  /** Closing a connection whose writes succeed stops the worker: once it has taken what is queued. */
  lemma CloseStopsTheWorker(s: System)
    requires !s.client.closed
    ensures Received(Apply(s, Close(true)), |s.link.toWorker| + 1).worker.stopped
  {
    hide Apply, Received;
    CloseIs(s, true);
    ShutdownStops(Apply(s, Close(true)));
  }
}
