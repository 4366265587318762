/** Event streams end to end on the server side: any mix of subscribe, unsubscribe, broadcast, receive
    and flush steps, and any number of termination barriers at once. */
module EventDelivery {
  import opened Text
  import opened Events

  /** `full` and `flushed` are the targets whose buffer was full and those that flushed the event;
      `early` says whether BroadcastTermination returned before its timeout. */
  datatype Barrier = Barrier(
    eventId: nat, targets: set<nat>, full: set<nat>, flushed: set<nat>, group: Group, early: Option<bool>)

  /** `log` is the history of broadcasts: the event with identifier n is log[n - 1]. */
  datatype System = System(broker: BrokerState, handlers: map<nat, Handler>, barriers: seq<Barrier>, log: seq<SSEEvent>)

  datatype Action =
    | Connect | Disconnect(h: nat)
    | Publish(kind: string, runId: string, data: Option<string>) | Terminate
    | Receive(h: nat) | Flush(h: nat)
    | AllDone(barrier: nat) | Timeout(barrier: nat)

  const START := System(BrokerState(0, 0, map[]), map[], [], [])

  function Sent(s: System, e: SSEEvent): System { s.(broker := Broadcasted(s.broker, e), log := s.log + [e]) }

  function NewBarrier(b: BrokerState, id: nat): Barrier {
    Barrier(id, b.channels.Keys, Full(b), {}, Group(|b.channels| - |Full(b)|, Full(b)), None)
  }

  function Acknowledged(b: Barrier, h: nat, written: bool): Barrier {
    b.(group := SubDone(b.group, h), flushed := if written then b.flushed + {h} else b.flushed)
  }

  function ApplyBroadcast(s: System, a: Action): System
    requires a.Publish? || a.Terminate?
  {
    var id := s.broker.lastId + 1;
    match a
    case Publish(kind, runId, data) => Sent(s, SSEEvent(id, kind, runId, data, None))
    case Terminate =>
      if s.broker.channels == map[] then s
      else Sent(s, TerminationEvent(id, |s.barriers|)).(barriers := s.barriers + [NewBarrier(s.broker, id)])
  }

  function ApplyHandler(s: System, a: Action): System
    requires a.Receive? || a.Flush?
  {
    var h := a.h;
    if h !in s.handlers || h !in s.broker.channels then s
    else
      var handler := s.handlers[h];
      match a
      case Receive(_) =>
        var buffer := s.broker.channels[h];
        if handler.hand.Some? || handler.leaving || buffer == [] then s
        else
          s.(handlers := s.handlers[h := Taken(handler, buffer[0])],
             broker := s.broker.(channels := s.broker.channels[h := buffer[1..]]))
      case Flush(_) =>
        if handler.hand.None? then s
        else
          var e := handler.hand.value;
          var t := s.(handlers := s.handlers[h := Flushed(handler)]);
          if e.done.None? || e.done.value >= |s.barriers| then t
          else
            t.(barriers := s.barriers[e.done.value := Acknowledged(s.barriers[e.done.value], h, e.data.Some?)])
  }

  function Apply(s: System, a: Action): System {
    match a
    case Connect =>
      s.(broker := Subscribed(s.broker),
         handlers := s.handlers[s.broker.nextHandle := Handler(s.broker.lastId, [], None, false)])
    case Disconnect(h) =>
      if h !in s.handlers || s.handlers[h].hand.Some? then s
      else s.(broker := Unsubscribed(s.broker, h), handlers := s.handlers - {h})
    case Publish(_, _, _) | Terminate => ApplyBroadcast(s, a)
    case Receive(_) | Flush(_) => ApplyHandler(s, a)
    case AllDone(b) =>
      if b < |s.barriers| && s.barriers[b].early.None? && s.barriers[b].group.counter == 0 then
        s.(barriers := s.barriers[b := s.barriers[b].(early := Some(true))])
      else s
    case Timeout(b) =>
      if b < |s.barriers| && s.barriers[b].early.None? then
        s.(barriers := s.barriers[b := s.barriers[b].(early := Some(false))])
      else s
  }

  function After(s: System, actions: seq<Action>): System {
    if actions == [] then s else Apply(After(s, actions[..|actions| - 1]), actions[|actions| - 1])
  }

  // ---------------------------------------------------------------- what a subscriber got

  function InHand(s: Handler): seq<SSEEvent> { if s.hand.Some? then [s.hand.value] else [] }

  function Outstanding(s: System, h: nat): seq<SSEEvent>
    requires h in s.handlers && h in s.broker.channels
  {
    InHand(s.handlers[h]) + s.broker.channels[h]
  }

  /** Received plus buffered. */
  function Delivered(s: System, h: nat): seq<SSEEvent>
    requires h in s.handlers && h in s.broker.channels
  {
    s.handlers[h].received + Outstanding(s, h)
  }

  /** Events of the log, all after the joining point, in strictly increasing order. */
  ghost predicate Subsequence(log: seq<SSEEvent>, joined: nat, d: seq<SSEEvent>) {
    && (forall k :: 0 <= k < |d| ==> joined < d[k].id <= |log| && d[k] == log[d[k].id - 1])
    && (forall j, k :: 0 <= j < k < |d| ==> d[j].id < d[k].id)
  }

  ghost predicate Keyed(s: System) {
    && s.handlers.Keys == s.broker.channels.Keys
    && (forall h :: h in s.handlers ==> h < s.broker.nextHandle)
  }

  ghost predicate Logged(s: System) {
    |s.log| == s.broker.lastId && forall k :: 0 <= k < |s.log| ==> s.log[k].id == k + 1
  }

  ghost predicate Streaming(s: System)
    requires Keyed(s)
  {
    forall h :: h in s.handlers ==>
      && Subsequence(s.log, s.handlers[h].joined, Delivered(s, h))
      && |s.broker.channels[h]| <= CAPACITY
      && s.handlers[h].joined <= |s.log|
  }

  ghost predicate Sound(s: System) { Keyed(s) && Logged(s) && Streaming(s) }

  lemma SubsequenceExtends(log: seq<SSEEvent>, joined: nat, d: seq<SSEEvent>, e: SSEEvent)
    requires Subsequence(log, joined, d) && e.id == |log| + 1 && joined <= |log|
    ensures Subsequence(log + [e], joined, d) && Subsequence(log + [e], joined, d + [e])
  {
  }

  lemma OfferedDelivered(received: seq<SSEEvent>, hand: seq<SSEEvent>, buffer: seq<SSEEvent>, e: SSEEvent)
    ensures received + (hand + Offered(buffer, e))
         == if |buffer| < CAPACITY then (received + (hand + buffer)) + [e] else received + (hand + buffer)
  {
  }

  /** A broadcast appends the event to what each subscriber gets, or drops it if the buffer is full. */
  lemma SentDelivers(s: System, e: SSEEvent)
    requires Keyed(s)
    ensures Keyed(Sent(s, e)) && Sent(s, e).handlers == s.handlers
    ensures forall h :: h in s.handlers ==>
              Delivered(Sent(s, e), h)
              == if |s.broker.channels[h]| < CAPACITY then Delivered(s, h) + [e] else Delivered(s, h)
  {
    hide Offered;
    assert Sent(s, e).broker.channels.Keys == s.broker.channels.Keys;
    forall h | h in s.handlers
      ensures Delivered(Sent(s, e), h)
           == if |s.broker.channels[h]| < CAPACITY then Delivered(s, h) + [e] else Delivered(s, h)
    {
      OfferedDelivered(s.handlers[h].received, InHand(s.handlers[h]), s.broker.channels[h], e);
    }
  }

  lemma SentSound(s: System, e: SSEEvent)
    requires Sound(s) && e.id == s.broker.lastId + 1
    ensures Sound(Sent(s, e))
  {
    hide Delivered, Subsequence, Streaming;
    SentDelivers(s, e);
    var t := Sent(s, e);
    forall h | h in t.handlers
      ensures Subsequence(t.log, t.handlers[h].joined, Delivered(t, h)) && |t.broker.channels[h]| <= CAPACITY
    {
      StreamingAt(s, h);
      SubsequenceExtends(s.log, s.handlers[h].joined, Delivered(s, h), e);
    }
    StreamingIs(t, s);
  }

  lemma StreamingAt(s: System, h: nat)
    requires Keyed(s) && Streaming(s) && h in s.handlers
    ensures Subsequence(s.log, s.handlers[h].joined, Delivered(s, h)) && |s.broker.channels[h]| <= CAPACITY
    ensures s.handlers[h].joined <= |s.log|
  {
  }

  lemma StreamingIs(t: System, s: System)
    requires Keyed(t) && Keyed(s) && Streaming(s) && t.handlers == s.handlers && |s.log| <= |t.log|
    requires forall h :: h in t.handlers ==>
               Subsequence(t.log, t.handlers[h].joined, Delivered(t, h)) && |t.broker.channels[h]| <= CAPACITY
    ensures Streaming(t)
  {
  }

  /** The handlers, channels and log are as before up to moving events along. */
  ghost predicate SameStreams(s: System, t: System)
    requires Keyed(s)
  {
    && Keyed(t) && t.handlers.Keys == s.handlers.Keys && t.log == s.log && t.broker.lastId == s.broker.lastId
    && forall h :: h in s.handlers ==>
         && Delivered(t, h) == Delivered(s, h) && t.handlers[h].joined == s.handlers[h].joined
         && |t.broker.channels[h]| <= |s.broker.channels[h]|
  }

  lemma ReceivingDelivers(s: System, h: nat)
    requires Keyed(s)
    ensures SameStreams(s, Apply(s, Receive(h)))
  {
    var t := Apply(s, Receive(h));
    if h in s.handlers {
      var buffer := s.broker.channels[h];
      assert buffer != [] ==> buffer == [buffer[0]] + buffer[1..];
      assert Outstanding(t, h) == Outstanding(s, h);
    }
  }

  lemma FlushingDelivers(s: System, h: nat)
    requires Keyed(s)
    ensures SameStreams(s, Apply(s, Flush(h)))
  {
    hide Acknowledged;
    var t := Apply(s, Flush(h));
    if h in s.handlers {
      assert Delivered(t, h) == Delivered(s, h);
    }
  }

  lemma SameDeliveries(s: System, t: System)
    requires Keyed(s) && t.broker == s.broker && t.handlers == s.handlers && t.log == s.log
    ensures SameStreams(s, t)
  {
  }

  lemma SameStreamsSound(s: System, t: System)
    requires Sound(s) && SameStreams(s, t)
    ensures Sound(t)
  {
    hide Subsequence, Delivered;
  }

  lemma SoundKept(s: System, a: Action)
    requires Sound(s)
    ensures Sound(Apply(s, a))
  {
    hide Subsequence, Delivered, Acknowledged, Sound, SameStreams;
    SoundMeans(s);
    if a.Publish? {
      SentSound(s, SSEEvent(s.broker.lastId + 1, a.kind, a.runId, a.data, None));
    } else if a.Terminate? {
      if s.broker.channels != map[] {
        var t := Sent(s, TerminationEvent(s.broker.lastId + 1, |s.barriers|));
        SentSound(s, TerminationEvent(s.broker.lastId + 1, |s.barriers|));
        SameDeliveries(t, Apply(s, a));
        SameStreamsSound(t, Apply(s, a));
      }
    } else if a.Receive? {
      ReceivingDelivers(s, a.h);
      SameStreamsSound(s, Apply(s, a));
    } else if a.Flush? {
      FlushingDelivers(s, a.h);
      SameStreamsSound(s, Apply(s, a));
    } else if a.Connect? {
      ConnectSound(s);
    } else {
      QuietSound(s, a);
    }
  }

  lemma SoundMeans(s: System)
    requires Sound(s)
    ensures Keyed(s) && Logged(s)
  {
  }

  lemma ConnectSound(s: System)
    requires Sound(s)
    ensures Sound(Apply(s, Connect))
  {
    hide Subsequence, Acknowledged;
    var t := Apply(s, Connect);
    forall h | h in t.handlers ensures Subsequence(t.log, t.handlers[h].joined, Delivered(t, h)) {
      if h == s.broker.nextHandle {
        EmptySubsequence(t.log, s.broker.lastId);
        assert Delivered(t, h) == [];
      } else {
        assert Delivered(t, h) == Delivered(s, h);
      }
    }
  }

  lemma EmptySubsequence(log: seq<SSEEvent>, joined: nat)
    ensures Subsequence(log, joined, [])
  {
  }

  lemma QuietSound(s: System, a: Action)
    requires Sound(s) && (a.Disconnect? || a.AllDone? || a.Timeout?)
    ensures Sound(Apply(s, a))
  {
    hide Subsequence;
    var t := Apply(s, a);
    forall h | h in t.handlers ensures Delivered(t, h) == Delivered(s, h) {
    }
  }

  lemma {:induction false} AlwaysSound(actions: seq<Action>)
    ensures Sound(After(START, actions))
  {
    hide Sound, Apply;
    if actions == [] {
      SoundAtStart();
    } else {
      AlwaysSound(actions[..|actions| - 1]);
      SoundKept(After(START, actions[..|actions| - 1]), actions[|actions| - 1]);
    }
  }

  lemma SoundAtStart()
    ensures Sound(START) && After(START, []) == START
  {
  }

  /** What a subscriber has received plus buffered is a strictly increasing subsequence of the
      broadcasts since it joined, and its buffer never exceeds its capacity. */
  lemma OrderedDelivery(actions: seq<Action>, h: nat)
    requires h in After(START, actions).handlers
    ensures var s := After(START, actions);
            && h in s.broker.channels && Subsequence(s.log, s.handlers[h].joined, Delivered(s, h))
            && |s.broker.channels[h]| <= CAPACITY
  {
    hide Subsequence, After;
    AlwaysSound(actions);
  }

  // ---------------------------------------------------------------- an event is missed only on a full buffer

  /** The steps that broadcast an event. */
  predicate Broadcasts(a: Action) { a.Publish? || a.Terminate? }

  /** What a step may do to what a subscriber got: nothing, or one new event at the end. */
  ghost predicate Grows(s: System, t: System, h: nat)
    requires Keyed(s) && h in s.handlers
  {
    && Keyed(t) && h in t.handlers && s.log <= t.log
    && (Delivered(t, h) == Delivered(s, h)
        || (|t.log| == |s.log| + 1 && Delivered(t, h) == Delivered(s, h) + [t.log[|s.log|]]))
  }

  lemma SentGrows(s: System, e: SSEEvent, h: nat)
    requires Keyed(s) && h in s.handlers
    ensures Grows(s, Sent(s, e), h)
  {
    hide Delivered;
    SentDelivers(s, e);
  }

  lemma DeliveredGrows(s: System, a: Action, h: nat)
    requires Sound(s) && h in s.handlers && h in Apply(s, a).handlers
    ensures Grows(s, Apply(s, a), h)
  {
    hide Subsequence, Delivered, Acknowledged, SameStreams, Streaming, Logged, Keyed, Sent;
    SoundKept(s, a);
    SoundMeans(s);
    SoundMeans(Apply(s, a));
    if Broadcasts(a) {
      BroadcastGrows(s, a, h);
    } else if a.Receive? {
      ReceivingDelivers(s, a.h);
      SameStreamsMeans(s, Apply(s, a), h);
    } else if a.Flush? {
      FlushingDelivers(s, a.h);
      SameStreamsMeans(s, Apply(s, a), h);
    } else {
      SameBuffer(s, Apply(s, a), h);
    }
  }

  lemma BroadcastGrows(s: System, a: Action, h: nat)
    requires Keyed(s) && Keyed(Apply(s, a)) && h in s.handlers && Broadcasts(a)
    ensures Grows(s, Apply(s, a), h)
  {
    hide Delivered, Keyed, Sent;
    var id := s.broker.lastId + 1;
    if a.Publish? {
      SentGrows(s, SSEEvent(id, a.kind, a.runId, a.data, None), h);
    } else if s.broker.channels != map[] {
      var sent := Sent(s, TerminationEvent(id, |s.barriers|));
      SentGrows(s, TerminationEvent(id, |s.barriers|), h);
      SameBuffer(sent, Apply(s, a), h);
    }
  }

  lemma SameStreamsMeans(s: System, t: System, h: nat)
    requires Keyed(s) && SameStreams(s, t) && h in s.handlers
    ensures Keyed(t) && h in t.handlers && t.log == s.log && Delivered(t, h) == Delivered(s, h)
  {
  }

  lemma SameBuffer(s: System, t: System, h: nat)
    requires Keyed(s) && Keyed(t) && h in s.handlers && h in t.handlers
    requires t.handlers[h] == s.handlers[h] && t.broker.channels[h] == s.broker.channels[h]
    ensures Delivered(t, h) == Delivered(s, h)
  {
  }

  /** Handles are not reused: a subscriber with an old handle was there before. */
  lemma HandlesNotReused(s: System, a: Action, h: nat)
    requires Keyed(s) && h < s.broker.nextHandle && h in Apply(s, a).handlers
    ensures h in s.handlers && s.broker.nextHandle <= Apply(s, a).broker.nextHandle
  {
    hide Acknowledged, Flushed, Taken;
  }

  /** An event is among what a subscriber got exactly when there was room in its buffer. */
  lemma DeliveredAtOnce(s: System, a: Action, h: nat)
    requires Sound(s) && Broadcasts(a) && h in s.handlers
    ensures var t := Apply(s, a);
            && Keyed(t) && h in t.handlers && |t.log| == |s.log| + 1
            && (t.log[|s.log|] in Delivered(t, h) <==> |s.broker.channels[h]| < CAPACITY)
  {
    hide Delivered;
    SoundKept(s, a);
    var e := Apply(s, a).log[|s.log|];
    var sent := Sent(s, e);
    SentDelivers(s, e);
    SameBuffer(sent, Apply(s, a), h);
    assert e !in Delivered(s, h) by { NewEventIsNew(s, h, e); }
  }

  lemma NewEventIsNew(s: System, h: nat, e: SSEEvent)
    requires Sound(s) && h in s.handlers && e.id > |s.log|
    ensures e !in Delivered(s, h)
  {
    hide Delivered;
    StreamingAt(s, h);
  }

  /** For every broadcast at action i and every subscriber connected then and now: the event is among
      what the subscriber has received or has buffered exactly when its buffer had room at the time. */
  lemma {:induction false} MissedOnlyWhenFull(actions: seq<Action>, i: nat, h: nat)
    requires i < |actions| && Broadcasts(actions[i])
    requires h in After(START, actions[..i]).handlers && h in After(START, actions).handlers
    ensures var before, now := After(START, actions[..i]), After(START, actions);
            && h in before.broker.channels && h in now.broker.channels && |before.log| < |now.log|
            && (now.log[|before.log|] in Delivered(now, h) <==> |before.broker.channels[h]| < CAPACITY)
    decreases |actions|
  {
    hide Apply, Delivered, Streaming, Logged;
    var front, a := actions[..|actions| - 1], actions[|actions| - 1];
    var before, s := After(START, actions[..i]), After(START, front);
    AlwaysSound(actions[..i]);
    AlwaysSound(front);
    if i == |front| {
      DeliveredAtOnce(s, a, h);
    } else {
      assert front[..i] == actions[..i];
      StillConnected(actions[..i], actions[i..|front|], h);
      assert actions[..i] + actions[i..|front|] == front;
      HandlesNotReused(s, a, h);
      MissedOnlyWhenFull(front, i, h);
      DeliveredGrows(s, a, h);
      var e := s.log[|before.log|];
      LogNumber(s, |before.log|);
      SoundKept(s, a);
      LogNumber(Apply(s, a), |Apply(s, a).log| - 1);
    }
  }

  lemma LogNumber(s: System, k: int)
    requires Sound(s) && 0 <= k < |s.log|
    ensures s.log[k].id == k + 1
  {
  }

  lemma {:induction false} StillConnected(first: seq<Action>, rest: seq<Action>, h: nat)
    requires h in After(START, first).handlers
    ensures h < After(START, first + rest).broker.nextHandle
    decreases |rest|
  {
    hide Streaming, Logged, Apply;
    AlwaysSound(first);
    if rest == [] {
      assert first + rest == first;
    } else {
      var front := rest[..|rest| - 1];
      StillConnected(first, front, h);
      assert (first + rest)[..|first + rest| - 1] == first + front;
      HandlesGrow(After(START, first + front), rest[|rest| - 1]);
    }
  }

  lemma HandlesGrow(s: System, a: Action)
    ensures s.broker.nextHandle <= Apply(s, a).broker.nextHandle
  {
    hide Acknowledged, Flushed, Taken;
  }
}
