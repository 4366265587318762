/** When a call to the elevated worker can read another call's reply: never when calls are made one at
    a time and none is given up, and exactly when some other decoder is still reading. */
module ElevationMismatch {
  import opened Text
  import opened Elevation
  import opened ElevationSafety

  ghost predicate Mismatched(s: System, c: nat) {
    && c < |s.calls| && s.calls[c].outcome.Some?
    && s.calls[c].outcome.value.err.Some? && s.calls[c].outcome.value.err.value.IsMismatch()
  }

  ghost predicate NoBegin(actions: seq<Action>) { forall i :: 0 <= i < |actions| ==> !actions[i].Begin? }

  /** Nobody else reads, and everything under way belongs to call c, unless it can no longer be read. */
  ghost predicate OnlyMine(s: System, c: nat) {
    && c < |s.calls| && !Mismatched(s, c)
    && (forall i :: 0 <= i < |s.calls| && i != c ==> !s.calls[i].inbox.Reading?)
    && (s.calls[c].inbox.Got? ==> s.calls[c].inbox.msg.id == s.calls[c].id)
    && (!s.decoderFailed ==> UnderWayIsMine(s, c))
  }

  ghost predicate UnderWayIsMine(s: System, c: nat)
    requires c < |s.calls|
  {
    && (forall k :: 0 <= k < |s.link.toWorker| && s.link.toWorker[k] != SHUTDOWN ==>
          s.link.toWorker[k].id == s.calls[c].id)
    && (forall k :: 0 <= k < |s.worker.executing| ==> s.worker.executing[k].id == s.calls[c].id)
    && (forall k :: 0 <= k < |s.link.toClient| ==> s.link.toClient[k].id == s.calls[c].id)
  }

  lemma ExecutionsAnswerRuns(s: System, k: nat)
    requires CallsNumbered(s) && WorkIsAsked(s) && k < |s.done|
    ensures s.done[k].id.ReqId?
  {
    assert AskedFor(s, s.done[k].id, s.done[k].req);
  }

  /** A genuine reply with the call's own identifier is accepted as such. */
  lemma OwnReplyAccepted(s: System, c: nat)
    requires CallsNumbered(s) && WorkIsAsked(s) && c < |s.calls|
    requires s.calls[c].inbox.Got? ==> s.calls[c].inbox.msg.id == s.calls[c].id && Genuine(s.done, s.calls[c].inbox.msg)
    ensures var o := OutcomeOf(s.calls[c].body, s.calls[c].id, s.calls[c].inbox);
            o.err.Some? ==> !o.err.value.IsMismatch()
  {
    var call := s.calls[c];
    if call.body.PingCall? && call.inbox.Got? {
      if k :| 0 <= k < |s.done| && call.inbox.msg == ReplyTo(s.done[k]) {
        ExecutionsAnswerRuns(s, k);
        assert false;
      }
    }
  }

  lemma OnlyMineKept(s: System, c: nat, a: Action)
    requires Sound(s) && OnlyMine(s, c) && !a.Begin?
    ensures OnlyMine(Apply(s, a), c)
  {
    hide RunOutcome, PingOutcome, Genuine, CallsNumbered, WorkIsAsked, Ordered, RepliesNumbered, Correlated,
        Conserved, OutcomeOf;
    if a.Return? && a.call == c {
      OwnReplyAccepted(s, c);
    } else if a.WorkerReceives? && s.link.toWorker != [] {
      TakenIsAsked(s);
      AskedExec(s, s.link.toWorker[0]);
    }
  }

  lemma {:induction false} AloneNeverMismatches(s: System, c: nat, actions: seq<Action>)
    requires Sound(s) && OnlyMine(s, c) && NoBegin(actions)
    ensures Sound(After(s, actions)) && OnlyMine(After(s, actions), c)
  {
    hide Sound, OnlyMine, Apply;
    if actions != [] {
      var front, a := actions[..|actions| - 1], actions[|actions| - 1];
      AloneNeverMismatches(s, c, front);
      SoundKept(After(s, front), a);
      OnlyMineKept(After(s, front), c, a);
    }
  }

  lemma {:induction false} NobodyReads(calls: seq<Call>)
    ensures Decoders(calls) == 0 <==> forall i :: 0 <= i < |calls| ==> !calls[i].inbox.Reading?
  {
    if calls != [] {
      NobodyReads(calls[..|calls| - 1]);
      if Decoders(calls) == 0 {
        forall i | 0 <= i < |calls| ensures !calls[i].inbox.Reading? {
          if i < |calls| - 1 { assert calls[..|calls| - 1][i] == calls[i]; }
        }
      }
    }
  }

  lemma AloneAfterBegin(s: System, body: CallBody)
    requires Sound(s) && !s.client.closed && Decoders(s.calls) == 0
    ensures OnlyMine(Apply(s, Begin(body, false, true)), |s.calls|)
  {
    hide CallsNumbered, WorkIsAsked, Ordered, RepliesNumbered, RepliesGenuine, Correlated, Decoders;
    NobodyReads(s.calls);
  }

  // ---------------------------------------------------------------- another decoder makes a mismatch possible

  lemma {:induction false} AfterFirst(s: System, a: Action, rest: seq<Action>)
    ensures After(s, [a] + rest) == After(Apply(s, a), rest)
    decreases |rest|
  {
    hide Apply;
    if rest == [] {
      assert [a] + rest == [a];
      assert After(s, [a]) == Apply(After(s, []), a);
    } else {
      var front := rest[..|rest| - 1];
      assert ([a] + rest)[..|rest|] == [a] + front;
      AfterFirst(s, a, front);
    }
  }

  /** The call is waiting and still reading. */
  ghost predicate Waiting(s: System, c: nat) {
    !s.decoderFailed && c < |s.calls| && s.calls[c].inbox.Reading? && s.calls[c].outcome.None?
  }

  lemma WrongIdIsMismatch(body: CallBody, id: MessageId, m: WireMessage)
    requires m.id != id
    ensures var o := OutcomeOf(body, id, Got(m)); o.err.Some? && o.err.value.IsMismatch()
  {
  }

  lemma MismatchFromReply(s: System, c: nat) returns (actions: seq<Action>)
    requires Waiting(s, c) && s.link.toClient != [] && s.link.toClient[0].id != s.calls[c].id
    ensures NoBegin(actions) && Mismatched(After(s, actions), c)
  {
    hide OutcomeOf;
    actions := [Decode(c, false)] + ([Return(c)] + []);
    WrongIdIsMismatch(s.calls[c].body, s.calls[c].id, s.link.toClient[0]);
    AfterFirst(s, Decode(c, false), [Return(c)] + []);
    AfterFirst(Apply(s, Decode(c, false)), Return(c), []);
  }

  lemma MismatchFromJob(s: System, c: nat) returns (actions: seq<Action>)
    requires Waiting(s, c) && s.link.toClient == []
    requires s.worker.executing != [] && s.worker.executing[0].id != s.calls[c].id
    ensures NoBegin(actions) && Mismatched(After(s, actions), c)
  {
    hide Mismatched, After;
    var a := WorkerCompletes(0, NO_RESULT, None, true);
    var rest := MismatchFromReply(Apply(s, a), c);
    AfterFirst(s, a, rest);
    actions := [a] + rest;
  }

  lemma MismatchFromRequest(s: System, c: nat) returns (actions: seq<Action>)
    requires Waiting(s, c) && s.link.toClient == [] && s.worker.executing == [] && !s.worker.stopped
    requires s.link.toWorker != [] && s.link.toWorker[0].id != s.calls[c].id
    requires s.link.toWorker[0].kind.MsgPing? || (s.link.toWorker[0].kind.MsgExec? && s.link.toWorker[0].exec.Some?)
    ensures NoBegin(actions) && Mismatched(After(s, actions), c)
  {
    hide Mismatched, After;
    var a := WorkerReceives(true);
    var t := Apply(s, a);
    var rest;
    if s.link.toWorker[0].kind.MsgPing? {
      rest := MismatchFromReply(t, c);
    } else {
      rest := MismatchFromJob(t, c);
    }
    AfterFirst(s, a, rest);
    actions := [a] + rest;
  }

  /** While another decoder reads, a new call can be handed a reply that is not its own. */
  lemma OtherReaderCanMismatch(s: System, body: CallBody) returns (actions: seq<Action>)
    requires Sound(s) && s.link.open && Decoders(s.calls) > 0
    ensures NoBegin(actions) && Mismatched(After(Apply(s, Begin(body, false, true)), actions), |s.calls|)
  {
    hide Mismatched, After, Decoders, CallsNumbered, WorkIsAsked, Ordered, RepliesGenuine, Correlated, Asked;
    var t := Apply(s, Begin(body, false, true));
    NumbersUsed(s);
    if s.link.toClient != [] {
      actions := MismatchFromReply(t, |s.calls|);
    } else if s.worker.executing != [] {
      actions := MismatchFromJob(t, |s.calls|);
    } else {
      TakenIsAsked(s);
      AskedExec(s, s.link.toWorker[0]);
      assert s.link.toWorker[0] in s.link.toWorker;
      actions := MismatchFromRequest(t, |s.calls|);
    }
  }

  /** On an open connection a call is safe from other calls' replies, whatever happens until the next
      call begins, exactly when no other decoder is reading at its start. */
  lemma MismatchExactly(history: seq<Action>, body: CallBody)
    requires After(START, history).link.open
    ensures var s := After(START, history);
            var t := Apply(s, Begin(body, false, true));
            (forall actions :: NoBegin(actions) ==> !Mismatched(After(t, actions), |s.calls|))
            <==> Decoders(s.calls) == 0
  {
    hide Apply, Sound, Mismatched, Decoders, NoBegin;
    AlwaysSound(history);
    var s := After(START, history);
    var t := Apply(s, Begin(body, false, true));
    if Decoders(s.calls) == 0 {
      OpenMeans(s);
      AloneAfterBegin(s, body);
      SoundKept(s, Begin(body, false, true));
      forall actions | NoBegin(actions) ensures !Mismatched(After(t, actions), |s.calls|) {
        AloneNeverMismatches(t, |s.calls|, actions);
        OnlyMineIsNoMismatch(After(t, actions), |s.calls|);
      }
    } else {
      var actions := OtherReaderCanMismatch(s, body);
    }
  }

  lemma OpenMeans(s: System)
    requires Sound(s) && s.link.open
    ensures !s.client.closed && !s.decoderFailed
  {
  }

  lemma OnlyMineIsNoMismatch(s: System, c: nat)
    requires OnlyMine(s, c)
    ensures !Mismatched(s, c)
  {
  }

  // ---------------------------------------------------------------- one call at a time

  /** A call begins only when all earlier ones have returned, and none is given up. */
  ghost predicate Orderly(s: System, a: Action) {
    && !a.GiveUp?
    && (a.Begin? ==> forall i :: 0 <= i < |s.calls| ==> s.calls[i].outcome.Some?)
  }

  ghost predicate OneAtATime(actions: seq<Action>) {
    forall i :: 0 <= i < |actions| ==> Orderly(After(START, actions[..i]), actions[i])
  }

  /** A call that returned has read, no call mismatched, and all that is under way belongs to the last call. */
  ghost predicate Tidy(s: System) {
    && (forall i :: 0 <= i < |s.calls| && s.calls[i].outcome.Some? ==> !s.calls[i].inbox.Reading?)
    && (forall i :: 0 <= i < |s.calls| ==> !Mismatched(s, i))
    && (s.calls != [] ==> OnlyMine(s, |s.calls| - 1))
  }

  lemma SameCallsTidy(s: System, t: System)
    requires Tidy(s) && t == s.(client := t.client)
    ensures Tidy(t)
  {
    forall i | 0 <= i < |t.calls| ensures !Mismatched(t, i) {
      assert !Mismatched(s, i);
    }
  }

  lemma TidyAfterBegin(s: System, a: Action)
    requires Sound(s) && Tidy(s) && Orderly(s, a) && a.Begin?
    ensures Tidy(Apply(s, a))
  {
    hide Sound, Decoders, RequestOf, OnlyMine;
    var t := Apply(s, a);
    if Refusal(s.client, a.body, a.ctxDone).None? && a.encodes {
      NobodyReads(s.calls);
      AloneAfterBegin(s, a.body);
      assert t == Apply(s, Begin(a.body, false, true));
      forall i | 0 <= i < |t.calls| ensures !Mismatched(t, i) {
        assert i < |s.calls| ==> !Mismatched(s, i);
      }
    } else {
      SameCallsTidy(s, t);
    }
  }

  /** Only the last call can still be waiting, so only it can return. */
  lemma TidyKept(s: System, a: Action)
    requires Sound(s) && Tidy(s) && Orderly(s, a)
    requires forall i :: 0 <= i < |s.calls| - 1 ==> s.calls[i].outcome.Some?
    ensures Tidy(Apply(s, a))
    ensures forall i :: 0 <= i < |Apply(s, a).calls| - 1 ==> Apply(s, a).calls[i].outcome.Some?
  {
    hide Sound, OutcomeOf, RequestOf, OnlyMine;
    var t := Apply(s, a);
    if a.Begin? {
      TidyAfterBegin(s, a);
    } else if s.calls != [] {
      OnlyMineKept(s, |s.calls| - 1, a);
      forall i | 0 <= i < |t.calls| ensures !Mismatched(t, i) {
        assert !Mismatched(s, i);
        OnlyMineIsNoMismatch(t, |s.calls| - 1);
      }
    }
  }

  lemma {:induction false} OneAtATimeIsTidy(actions: seq<Action>)
    requires OneAtATime(actions)
    ensures var s := After(START, actions);
            Tidy(s) && forall i :: 0 <= i < |s.calls| - 1 ==> s.calls[i].outcome.Some?
  {
    hide Tidy, Orderly, Apply, Sound;
    if actions == [] {
      TidyAtStart();
    } else {
      var front, a := actions[..|actions| - 1], actions[|actions| - 1];
      forall i | 0 <= i < |front| ensures Orderly(After(START, front[..i]), front[i]) {
        assert front[..i] == actions[..i];
      }
      OneAtATimeIsTidy(front);
      AlwaysSound(front);
      TidyKept(After(START, front), a);
    }
  }

  lemma TidyAtStart()
    ensures Tidy(START) && After(START, []) == START
  {
  }

  /** Made one at a time and none given up, no call ever sees a reply that is not its own. */
  lemma SequentialCallsNeverMismatch(actions: seq<Action>, i: nat)
    requires OneAtATime(actions)
    ensures !Mismatched(After(START, actions), i)
  {
    hide OnlyMine;
    OneAtATimeIsTidy(actions);
  }
}
