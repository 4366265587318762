/** The termination barrier: every wait group counts exactly the targets that have not acknowledged,
    and an early return means everyone flushed the event or had no room for it. */
module TerminationBarrier {
  import opened Text
  import opened Events
  import opened EventDelivery

  ghost predicate Balanced(b: Barrier) {
    && b.group.acked <= b.targets
    && b.group.counter == |b.targets| - |b.group.acked|
    && b.group.acked == b.full + b.flushed
    && (b.early == Some(true) ==> b.group.acked == b.targets)
  }

  ghost predicate AllBalanced(s: System) {
    forall k :: 0 <= k < |s.barriers| ==> Balanced(s.barriers[k])
  }

  /** An event with a Done callback belongs to a barrier that targets the channel it is in, and marshals. */
  predicate AimedAt(s: System, e: SSEEvent, h: nat) {
    e.done.Some? ==> e.done.value < |s.barriers| && h in s.barriers[e.done.value].targets && e.data.Some?
  }

  ghost predicate Aimed(s: System)
    requires Keyed(s)
  {
    forall h, e :: h in s.handlers && e in Outstanding(s, h) ==> AimedAt(s, e, h)
  }

  /** The event of barrier k is in the hand or the buffer of the handler. */
  ghost predicate Holds(s: System, h: nat, k: nat)
    requires h in s.handlers && h in s.broker.channels
  {
    exists e :: e in Outstanding(s, h) && e.done == Some(k)
  }

  /** A connected target that has not acknowledged still holds the event. */
  ghost predicate Owed(s: System)
    requires Keyed(s)
  {
    forall k, h :: 0 <= k < |s.barriers| && h in s.barriers[k].targets && h !in s.barriers[k].group.acked
                   && h in s.handlers ==>
      Holds(s, h, k)
  }

  // ---------------------------------------------------------------- one barrier

  lemma NewBarrierBalanced(b: BrokerState, id: nat)
    ensures Balanced(NewBarrier(b, id))
  {
    assert |b.channels.Keys| == |b.channels|;
    assert Full(b) <= b.channels.Keys;
  }

  lemma AcknowledgedBalanced(b: Barrier, h: nat)
    requires Balanced(b) && h in b.targets
    ensures Balanced(Acknowledged(b, h, true))
  {
    assert b.group.acked + {h} <= b.targets;
  }

  lemma SubsetOfSameSize<T>(a: set<T>, b: set<T>)
    requires a <= b && |a| == |b|
    ensures a == b
  {
    assert b == a + (b - a);
  }

  // ---------------------------------------------------------------- every step

  /** What a step does to the events a handler still holds. */
  lemma OutstandingAfter(s: System, a: Action, h: nat)
    requires Keyed(s) && Keyed(Apply(s, a)) && h in s.handlers && h in Apply(s, a).handlers
    ensures var t := Apply(s, a);
            var was, now := Outstanding(s, h), Outstanding(t, h);
            if Broadcasts(a) && |t.log| > |s.log| then
              now == if |s.broker.channels[h]| < CAPACITY then was + [t.log[|s.log|]] else was
            else if a == Flush(h) && s.handlers[h].hand.Some? then now == was[1..] && was[0] == s.handlers[h].hand.value
            else now == was
  {
    hide Acknowledged, NewBarrier;
    var t := Apply(s, a);
    if Broadcasts(a) && |t.log| > |s.log| {
      SentOutstanding(s, t.log[|s.log|], h);
    } else if a == Receive(h) {
      var buffer := s.broker.channels[h];
      assert buffer != [] ==> buffer == [buffer[0]] + buffer[1..];
    }
  }

  lemma SentOutstanding(s: System, e: SSEEvent, h: nat)
    requires Keyed(s) && h in s.handlers
    ensures var t := Sent(s, e);
            && h in t.broker.channels
            && Outstanding(t, h)
               == if |s.broker.channels[h]| < CAPACITY then Outstanding(s, h) + [e] else Outstanding(s, h)
  {
  }

  /** Barriers keep their targets and only gain acknowledgements. */
  lemma BarriersGrow(s: System, a: Action, k: nat)
    requires k < |s.barriers|
    ensures var t := Apply(s, a);
            && k < |t.barriers| && t.barriers[k].targets == s.barriers[k].targets
            && s.barriers[k].group.acked <= t.barriers[k].group.acked
  {
    hide Broadcasted, Flushed, Taken;
  }

  lemma AllBalancedKept(s: System, a: Action)
    requires Keyed(s) && AllBalanced(s) && Aimed(s)
    ensures AllBalanced(Apply(s, a))
  {
    hide Balanced, Broadcasted, Flushed, Taken, Acknowledged, NewBarrier;
    if a.Terminate? {
      NewBarrierBalanced(s.broker, s.broker.lastId + 1);
    } else if a.Flush? && a.h in s.handlers && s.handlers[a.h].hand.Some? {
      var e := s.handlers[a.h].hand.value;
      assert e in Outstanding(s, a.h);
      assert AimedAt(s, e, a.h);
      if e.done.Some? {
        AcknowledgedBalanced(s.barriers[e.done.value], a.h);
      }
    } else if a.AllDone? && a.barrier < |s.barriers| && s.barriers[a.barrier].group.counter == 0 {
      EarlyBalanced(s.barriers[a.barrier]);
    } else if a.Timeout? && a.barrier < |s.barriers| {
      LateBalanced(s.barriers[a.barrier]);
    }
  }

  lemma EarlyBalanced(b: Barrier)
    requires Balanced(b) && b.group.counter == 0
    ensures Balanced(b.(early := Some(true)))
  {
    SubsetOfSameSize(b.group.acked, b.targets);
  }

  lemma LateBalanced(b: Barrier)
    requires Balanced(b)
    ensures Balanced(b.(early := Some(false)))
  {
  }

  lemma AimedKept(s: System, a: Action)
    requires Keyed(s) && Keyed(Apply(s, a)) && Aimed(s)
    ensures Aimed(Apply(s, a))
  {
    hide Apply, Outstanding;
    var t := Apply(s, a);
    forall h, e | h in t.handlers && e in Outstanding(t, h) ensures AimedAt(t, e, h) {
      if h in s.handlers {
        OutstandingAfter(s, a, h);
        if e in Outstanding(s, h) {
          assert AimedAt(s, e, h);
          if e.done.Some? { BarriersGrow(s, a, e.done.value); }
        } else {
          NewEventAimed(s, a, h);
        }
      } else {
        FreshHoldsNothing(s, a, h);
      }
    }
  }

  lemma FreshHoldsNothing(s: System, a: Action, h: nat)
    requires Keyed(s) && Keyed(Apply(s, a)) && h !in s.handlers && h in Apply(s, a).handlers
    ensures Outstanding(Apply(s, a), h) == [] && h == s.broker.nextHandle && Apply(s, a).barriers == s.barriers
  {
    hide Acknowledged, NewBarrier;
  }

  lemma NewEventAimed(s: System, a: Action, h: nat)
    requires Keyed(s) && Broadcasts(a) && |Apply(s, a).log| > |s.log| && h in s.handlers
    ensures AimedAt(Apply(s, a), Apply(s, a).log[|s.log|], h)
  {
  }

  lemma OwedKept(s: System, a: Action)
    requires Keyed(s) && Keyed(Apply(s, a)) && Owed(s) && AllBalanced(s) && TargetsKnown(s)
    ensures Owed(Apply(s, a))
  {
    hide Apply, Outstanding, Balanced, Holds;
    var t := Apply(s, a);
    forall k, h | 0 <= k < |t.barriers| && h in t.barriers[k].targets && h !in t.barriers[k].group.acked
                  && h in t.handlers
      ensures Holds(t, h, k)
    {
      if h !in s.handlers {
        FreshHoldsNothing(s, a, h);
        assert false;
      } else if k < |s.barriers| {
        BarriersGrow(s, a, k);
        assert Holds(s, h, k);
        HoldsKept(s, a, h, k);
      } else {
        NewBarrierOwed(s, a, h, k);
      }
    }
  }

  /** Every target was a subscriber once. */
  ghost predicate TargetsKnown(s: System) {
    forall k, h :: 0 <= k < |s.barriers| && h in s.barriers[k].targets ==> h < s.broker.nextHandle
  }

  lemma TargetsKnownKept(s: System, a: Action)
    requires Keyed(s) && TargetsKnown(s)
    ensures TargetsKnown(Apply(s, a))
  {
    hide Flushed, Taken, Offered;
  }

  lemma HoldsKept(s: System, a: Action, h: nat, k: nat)
    requires Keyed(s) && Keyed(Apply(s, a)) && h in s.handlers && h in Apply(s, a).handlers
    requires k < |s.barriers| && k < |Apply(s, a).barriers|
    requires Holds(s, h, k) && h !in Apply(s, a).barriers[k].group.acked
    ensures Holds(Apply(s, a), h, k)
  {
    hide Apply, Outstanding;
    var t := Apply(s, a);
    var e :| e in Outstanding(s, h) && e.done == Some(k);
    OutstandingAfter(s, a, h);
    if a == Flush(h) && s.handlers[h].hand.Some? && e == s.handlers[h].hand.value {
      FlushAcknowledges(s, h, k);
      assert false;
    } else {
      assert e in Outstanding(t, h);
    }
  }

  lemma FlushAcknowledges(s: System, h: nat, k: nat)
    requires Keyed(s) && h in s.handlers && s.handlers[h].hand.Some? && s.handlers[h].hand.value.done == Some(k)
    requires k < |s.barriers|
    ensures h in Apply(s, Flush(h)).barriers[k].group.acked
  {
  }

  lemma NewBarrierOwed(s: System, a: Action, h: nat, k: nat)
    requires Keyed(s) && Keyed(Apply(s, a)) && h in s.handlers && h in Apply(s, a).handlers
    requires |s.barriers| <= k < |Apply(s, a).barriers| && h !in Apply(s, a).barriers[k].group.acked
    ensures Holds(Apply(s, a), h, k)
  {
    hide Acknowledged, Flushed, Taken, Outstanding;
    var t := Apply(s, a);
    OutstandingAfter(s, a, h);
    assert a.Terminate?;
    assert t.log[|s.log|] in Outstanding(t, h);
  }

  // ---------------------------------------------------------------- every interleaving

  ghost predicate BarriersSound(s: System) {
    Keyed(s) && AllBalanced(s) && Aimed(s) && Owed(s) && TargetsKnown(s)
  }

  lemma {:induction false} AlwaysBalanced(actions: seq<Action>)
    ensures BarriersSound(After(START, actions))
  {
    hide Apply, AllBalanced, Aimed, Owed, TargetsKnown, Logged, Streaming;
    AlwaysSound(actions);
    if actions == [] {
      BalancedAtStart();
    } else {
      var s, a := After(START, actions[..|actions| - 1]), actions[|actions| - 1];
      AlwaysBalanced(actions[..|actions| - 1]);
      AllBalancedKept(s, a);
      AimedKept(s, a);
      OwedKept(s, a);
      TargetsKnownKept(s, a);
    }
  }

  lemma BalancedAtStart()
    ensures BarriersSound(START) && After(START, []) == START
  {
  }

  /** At every moment the wait-group counter of every barrier is the number of targets that have not
      acknowledged; one that returned before its timeout was flushed to every target that had room; and
      a connected target that has not acknowledged still holds the event. */
  lemma BarrierCountsUnacknowledged(actions: seq<Action>, k: nat)
    requires k < |After(START, actions).barriers|
    ensures var b := After(START, actions).barriers[k];
            && b.group.counter == |b.targets - b.group.acked| >= 0
            && (b.early == Some(true) ==> b.targets == b.full + b.flushed)
  {
    hide After, Aimed, Owed, TargetsKnown, Keyed;
    AlwaysBalanced(actions);
    var b := After(START, actions).barriers[k];
    assert Balanced(b);
    assert b.targets == (b.targets - b.group.acked) + b.group.acked;
  }

  /** Only a target that still holds the event, or left without flushing it, can hold a barrier up. */
  lemma OnlyHoldersDelay(actions: seq<Action>, k: nat, h: nat)
    requires k < |After(START, actions).barriers|
    requires var b := After(START, actions).barriers[k]; h in b.targets && h !in b.group.acked
    requires h in After(START, actions).handlers
    ensures var s := After(START, actions);
            h in s.broker.channels && exists e :: e in Outstanding(s, h) && e.done == Some(k)
  {
    hide After, Aimed, AllBalanced, TargetsKnown, Outstanding;
    AlwaysBalanced(actions);
    assert Holds(After(START, actions), h, k);
  }
}
