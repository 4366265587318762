/** How an event stream ends: after the termination event is written nothing more is taken, and a barrier
    that a subscriber has flushed has ended that subscriber's stream. */
module StreamEndings {
  import opened Text
  import opened Events
  import opened EventDelivery
  import opened TerminationBarrier

  /** A termination event that gets written. */
  predicate Goodbye(e: SSEEvent) { e.kind == "termination" && e.data.Some? }

  /** Only the last event received can be a goodbye, and it is one exactly when the handler is leaving;
      then it holds no event. */
  predicate Ends(x: Handler) {
    && (forall k :: 0 <= k < |x.received| - 1 ==> !Goodbye(x.received[k]))
    && (x.leaving <==> x.received != [] && Goodbye(x.received[|x.received| - 1]))
    && (x.leaving ==> x.hand.None?)
  }

  ghost predicate AllEnd(s: System) { forall h :: h in s.handlers ==> Ends(s.handlers[h]) }

  /** Every event that belongs to a barrier is a goodbye. */
  ghost predicate BarriersSayGoodbye(s: System)
    requires Keyed(s)
  {
    forall h, e :: h in s.handlers && e in Outstanding(s, h) && e.done.Some? ==> Goodbye(e)
  }

  ghost predicate FlushedLeave(s: System) {
    forall k, h :: 0 <= k < |s.barriers| && h in s.barriers[k].flushed && h in s.handlers ==> s.handlers[h].leaving
  }

  lemma AllEndKept(s: System, a: Action)
    requires AllEnd(s)
    ensures AllEnd(Apply(s, a))
  {
    hide Broadcasted, Acknowledged, NewBarrier, TerminationEvent, Goodbye;
    if a.Flush? && a.h in s.handlers && s.handlers[a.h].hand.Some? {
      FlushEnds(s.handlers[a.h]);
    }
  }

  lemma FlushEnds(x: Handler)
    requires Ends(x) && x.hand.Some?
    ensures Ends(Flushed(x))
  {
  }

  lemma GoodbyesKept(s: System, a: Action)
    requires Keyed(s) && Keyed(Apply(s, a)) && BarriersSayGoodbye(s)
    ensures BarriersSayGoodbye(Apply(s, a))
  {
    hide Apply, Outstanding, Keyed, Goodbye;
    KeyedMeans(s);
    KeyedMeans(Apply(s, a));
    var t := Apply(s, a);
    forall h, e | h in t.handlers && e in Outstanding(t, h) && e.done.Some? ensures Goodbye(e) {
      if h in s.handlers {
        OutstandingAfter(s, a, h);
        NewGoodbye(s, a);
      } else {
        FreshHoldsNothing(s, a, h);
      }
    }
  }

  lemma KeyedMeans(s: System)
    requires Keyed(s)
    ensures s.handlers.Keys == s.broker.channels.Keys
  {
  }

  lemma NewGoodbye(s: System, a: Action)
    ensures Broadcasts(a) && |Apply(s, a).log| > |s.log| && Apply(s, a).log[|s.log|].done.Some? ==>
              Goodbye(Apply(s, a).log[|s.log|])
  {
  }

  /** A flush of a barrier's event is written and makes the handler leave. */
  lemma FlushLeaves(s: System, h: nat)
    requires Keyed(s) && h in s.handlers && s.handlers[h].hand.Some?
    requires s.handlers[h].hand.value.done.Some? ==> Goodbye(s.handlers[h].hand.value)
    ensures var t := Apply(s, Flush(h));
            && t.handlers.Keys == s.handlers.Keys && (s.handlers[h].hand.value.done.Some? ==> t.handlers[h].leaving)
            && (forall x :: x in s.handlers && s.handlers[x].leaving ==> t.handlers[x].leaving)
            && |t.barriers| == |s.barriers|
            && (forall k, x :: 0 <= k < |t.barriers| && x in t.barriers[k].flushed ==>
                  x in s.barriers[k].flushed || (x == h && s.handlers[h].hand.value.done == Some(k)))
  {
  }

  lemma FlushedLeaveKept(s: System, a: Action)
    requires Keyed(s) && FlushedLeave(s) && BarriersSayGoodbye(s) && TargetsKnown(s) && AllBalanced(s)
    ensures FlushedLeave(Apply(s, a))
  {
    hide Broadcasted, Acknowledged, Flushed, Goodbye, TerminationEvent, Full, SubDone;
    if a.Flush? && a.h in s.handlers && s.handlers[a.h].hand.Some? {
      assert s.handlers[a.h].hand.value in Outstanding(s, a.h);
      FlushLeaves(s, a.h);
    } else if a.Connect? {
      forall k | 0 <= k < |s.barriers| ensures s.broker.nextHandle !in s.barriers[k].flushed {
        assert Balanced(s.barriers[k]);
      }
    }
  }

  lemma {:induction false} AlwaysEnds(actions: seq<Action>)
    ensures var s := After(START, actions); AllEnd(s) && Keyed(s) && BarriersSayGoodbye(s) && FlushedLeave(s)
  {
    hide AllEnd, Keyed, Apply, FlushedLeave, Aimed, Owed, AllBalanced, TargetsKnown, Logged, Streaming, Outstanding;
    AlwaysBalanced(actions);
    if actions == [] {
      EndsAtStart();
    } else {
      var s, a := After(START, actions[..|actions| - 1]), actions[|actions| - 1];
      AlwaysEnds(actions[..|actions| - 1]);
      AlwaysBalanced(actions[..|actions| - 1]);
      AllEndKept(s, a);
      GoodbyesKept(s, a);
      FlushedLeaveKept(s, a);
    }
  }

  lemma EndsAtStart()
    ensures After(START, []) == START && AllEnd(START) && Keyed(START)
    ensures BarriersSayGoodbye(START) && FlushedLeave(START)
  {
  }

  /** In every reachable state a written termination event is the last thing a stream has received, and from
      then on the handler takes nothing more off its channel; and a subscriber that flushed the event of any
      barrier has ended its stream with it. */
  lemma TerminationIsLast(actions: seq<Action>, h: nat)
    requires h in After(START, actions).handlers
    ensures var s := After(START, actions);
            var x := s.handlers[h];
            && (forall k :: 0 <= k < |x.received| && x.received[k].kind == "termination" && x.received[k].data.Some? ==>
                  k == |x.received| - 1 && x.leaving && x.hand.None? && Apply(s, Receive(h)) == s)
            && (forall k :: 0 <= k < |s.barriers| && h in s.barriers[k].flushed ==>
                  && x.leaving && x.received != []
                  && x.received[|x.received| - 1].kind == "termination")
  {
    hide After;
    AlwaysEnds(actions);
  }
}
