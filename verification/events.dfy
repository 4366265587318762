/** internal/server/events.go: the event broker, its subscribers' buffered channels, the termination
    barrier and the receive loop of an event stream. */
module Events {
  import opened Text

  const CAPACITY: nat := 128

  /** `data` is the marshalled payload, None when it does not marshal; `done` is the barrier whose wait
      group the event's Done callback counts down. */
  datatype SSEEvent = SSEEvent(id: nat, kind: string, runId: string, data: Option<string>, done: Option<nat>)

  const TERMINATION := "termination"
  const SHUTDOWN_REASON: Option<string> := Some("{\"reason\":\"shutdown\"}")

  function TerminationEvent(id: nat, barrier: nat): SSEEvent {
    SSEEvent(id, TERMINATION, "", SHUTDOWN_REASON, Some(barrier))
  }

  lemma TerminationEventId(id: nat, barrier: nat)
    ensures TerminationEvent(id, barrier).id == id
  {
  }

  /** A send that drops the event when the buffer is full. */
  function Offered<T>(buffer: seq<T>, e: T): seq<T> {
    if |buffer| < CAPACITY then buffer + [e] else buffer
  }

  /** The open channels by handle; a handle stands for the identity of a channel. */
  datatype BrokerState = BrokerState(lastId: nat, nextHandle: nat, channels: map<nat, seq<SSEEvent>>)

  function Subscribed(b: BrokerState): BrokerState {
    b.(nextHandle := b.nextHandle + 1, channels := b.channels[b.nextHandle := []])
  }

  function Unsubscribed(b: BrokerState, h: nat): BrokerState { b.(channels := b.channels - {h}) }

  function Broadcasted(b: BrokerState, e: SSEEvent): BrokerState {
    b.(lastId := e.id, channels := map h | h in b.channels :: Offered(b.channels[h], e))
  }

  function Full(b: BrokerState): set<nat> { set h | h in b.channels && |b.channels[h]| >= CAPACITY }

  /** A wait group with one sync.Once per target: `acked` are the targets whose Once has run. */
  datatype Group = Group(counter: int, acked: set<nat>)

  function SubDone(g: Group, h: nat): Group {
    if h in g.acked then g else Group(g.counter - 1, g.acked + {h})
  }

  class WaitGroup {
    var counter: int
    var acked: set<nat>

    function View(): Group
      reads this
    {
      Group(counter, acked)
    }

    constructor (count: nat)
      ensures View() == Group(count, {})
    {
      counter, acked := count, {};
    }

    method Done(h: nat)
      modifies this
      ensures View() == SubDone(old(View()), h)
      ensures acked == old(acked) + {h} && counter == if h in old(acked) then old(counter) else old(counter) - 1
    {
      if h !in acked {
        acked := acked + {h};
        counter := counter - 1;
      }
    }
  }

  /** A buffered channel. Sending on a closed channel and closing it twice panic. */
  class Channel {
    var buffer: seq<SSEEvent>
    var closed: bool

    constructor ()
      ensures buffer == [] && !closed
    {
      buffer, closed := [], false;
    }

    method TrySend(e: SSEEvent) returns (sent: bool)
      requires !closed
      modifies this`buffer
      ensures buffer == Offered(old(buffer), e) && (sent <==> |old(buffer)| < CAPACITY)
      ensures buffer == if |old(buffer)| < 128 then old(buffer) + [e] else old(buffer)
    {
      sent := |buffer| < CAPACITY;
      if sent {
        buffer := buffer + [e];
      }
    }

    method Close()
      requires !closed
      modifies this`closed
      ensures closed
    {
      closed := true;
    }
  }

  class EventBroker {
    var subscribers: map<nat, Channel>
    var lastEventID: nat
    var nextHandle: nat

    /** No subscriber's channel is closed, and no two handles share a channel. */
    ghost predicate Valid()
      reads this`subscribers, this`nextHandle, subscribers.Values
    {
      && (forall h :: h in subscribers ==> !subscribers[h].closed && h < nextHandle)
      && (forall h, k :: h in subscribers && k in subscribers && h != k ==> subscribers[h] != subscribers[k])
    }

    ghost function View(): BrokerState
      reads this, subscribers.Values
    {
      BrokerState(lastEventID, nextHandle, Channels())
    }

    ghost function Channels(): map<nat, seq<SSEEvent>>
      reads this`subscribers, subscribers.Values
    {
      map h | h in subscribers :: subscribers[h].buffer
    }

    constructor ()
      ensures Valid() && View() == BrokerState(0, 0, map[])
    {
      subscribers, lastEventID, nextHandle := map[], 0, 0;
    }

    method Subscribe() returns (h: nat)
      requires Valid()
      modifies this
      ensures Valid() && h == old(nextHandle) && h in subscribers && fresh(subscribers[h])
      ensures View() == Subscribed(old(View()))
    {
      var ch := new Channel();
      h := nextHandle;
      nextHandle := nextHandle + 1;
      subscribers := subscribers[h := ch];
    }

    method Unsubscribe(h: nat)
      requires Valid()
      modifies this, subscribers.Values
      ensures Valid()
      ensures View() == Unsubscribed(old(View()), h)
      ensures old(h in subscribers) ==> old(subscribers)[h].closed
    {
      if h in subscribers {
        var ch := subscribers[h];
        subscribers := subscribers - {h};
        ch.Close();
      }
    }

    /** The event has been offered to everyone except those in rest. */
    ghost predicate Offering(before: map<nat, seq<SSEEvent>>, rest: set<nat>, e: SSEEvent)
      reads this`subscribers, subscribers.Values
    {
      && before.Keys == subscribers.Keys
      && forall h :: h in subscribers ==>
           subscribers[h].buffer == if h in rest then before[h] else Offered(before[h], e)
    }

    method Offer(h: nat, e: SSEEvent, ghost before: map<nat, seq<SSEEvent>>, ghost rest: set<nat>)
      returns (sent: bool)
      requires Valid() && h in subscribers && h in rest && Offering(before, rest, e)
      modifies subscribers[h]
      ensures Valid() && Offering(before, rest - {h}, e)
      ensures sent <==> |before[h]| < CAPACITY
    {
      sent := subscribers[h].TrySend(e);
    }

    lemma OfferingBegins(b: BrokerState, e: SSEEvent)
      requires Channels() == b.channels
      ensures Offering(b.channels, subscribers.Keys, e) && b.channels.Keys == subscribers.Keys
    {
      assert Channels().Keys == subscribers.Keys;
    }

    lemma OfferingEnds(b: BrokerState, e: SSEEvent)
      requires Offering(b.channels, {}, e) && lastEventID == e.id && nextHandle == b.nextHandle
      ensures View() == Broadcasted(b, e)
    {
      assert View().channels == Broadcasted(b, e).channels;
    }

    method Broadcast(kind: string, runId: string, data: Option<string>) returns (id: nat)
      requires Valid()
      modifies this`lastEventID, subscribers.Values
      ensures Valid() && id == old(lastEventID) + 1
      ensures View() == Broadcasted(old(View()), SSEEvent(id, kind, runId, data, None))
    {
      ghost var before := View();
      lastEventID := lastEventID + 1;
      var ev := SSEEvent(lastEventID, kind, runId, data, None);
      var rest := subscribers.Keys;
      assert Offering(before.channels, rest, ev);
      hide *;
      while rest != {}
        invariant rest <= subscribers.Keys && subscribers == old(subscribers) && nextHandle == old(nextHandle)
        invariant Valid() && lastEventID == ev.id && Offering(before.channels, rest, ev)
      {
        var h :| h in rest;
        var sent := Offer(h, ev, before.channels, rest);
        rest := rest - {h};
      }
      OfferingEnds(before, ev);
      return ev.id;
    }

    /** The select of BroadcastTermination: with a full buffer the subscriber is counted down at once. */
    method OfferOrDone(h: nat, e: SSEEvent, group: WaitGroup, ghost before: BrokerState, ghost count: nat,
                       ghost rest: set<nat>)
      requires Valid() && h in subscribers && h in rest && Offering(before.channels, rest, e)
      requires Counted(group.View(), count, Full(before), rest)
      modifies subscribers[h], group
      ensures Valid() && Offering(before.channels, rest - {h}, e)
      ensures Counted(group.View(), count, Full(before), rest - {h})
    {
      assert before.channels.Keys == subscribers.Keys;
      hide *;
      var sent := Offer(h, e, before.channels, rest);
      FullIs(before, h);
      Recount(group.View(), count, Full(before), rest, h);
      if !sent {
        group.Done(h);
      }
    }

    /** The critical section of BroadcastTermination: the event to everyone, the wait group counting the
        subscribers, those with a full buffer counted down at once. */
    method BroadcastTermination(barrier: nat) returns (id: nat, wg: WaitGroup?)
      requires Valid()
      modifies this`lastEventID, subscribers.Values
      ensures Valid()
      ensures old(View()).channels == map[] ==> id == 0 && wg == null && View() == old(View())
      ensures old(View()).channels != map[] ==>
                && id == old(lastEventID) + 1
                && View() == Broadcasted(old(View()), TerminationEvent(id, barrier))
                && wg != null && fresh(wg)
                && wg.View() == Group(|old(View()).channels| - |Full(old(View()))|, Full(old(View())))
    {
      hide *;
      ghost var before := View();
      var count := |subscribers|;
      SizeOfView();
      if count == 0 {
        return 0, null;
      }
      lastEventID := lastEventID + 1;
      id := lastEventID;
      var group := new WaitGroup(count);
      var ev := TerminationEvent(id, barrier);
      var rest := subscribers.Keys;
      OfferingBegins(before, ev);
      CountedNone(before, count);
      TerminationEventId(id, barrier);
      while rest != {}
        invariant rest <= subscribers.Keys && subscribers == old(subscribers) && nextHandle == old(nextHandle)
        invariant Valid() && lastEventID == id && fresh(group) && Offering(before.channels, rest, ev)
        invariant Counted(group.View(), count, Full(before), rest)
      {
        var h :| h in rest;
        OfferOrDone(h, ev, group, before, count, rest);
        rest := rest - {h};
      }
      OfferingEnds(before, ev);
      CountedAll(group.View(), count, Full(before));
      wg := group;
    }

    /** The group has been counted down for the full channels that were offered the event. */
    static ghost predicate Counted(g: Group, count: nat, full: set<nat>, rest: set<nat>) {
      g.acked == full - rest && g.counter == count - |g.acked|
    }

    static lemma Recount(g: Group, count: nat, full: set<nat>, rest: set<nat>, h: nat)
      requires Counted(g, count, full, rest) && h in rest
      ensures Counted(if h in full then SubDone(g, h) else g, count, full, rest - {h})
    {
    }

    static lemma CountedAll(g: Group, count: nat, full: set<nat>)
      requires Counted(g, count, full, {})
      ensures g == Group(count - |full|, full)
    {
    }

    static lemma CountedNone(b: BrokerState, count: nat)
      ensures Counted(Group(count, {}), count, Full(b), b.channels.Keys)
    {
    }

    static lemma FullIs(b: BrokerState, h: nat)
      ensures h in b.channels ==> (h in Full(b) <==> |b.channels[h]| >= CAPACITY)
    {
    }

    lemma SizeOfView()
      ensures View() == BrokerState(lastEventID, nextHandle, Channels()) && |Channels()| == |subscribers|
      ensures |subscribers| == 0 ==> View().channels == map[]
    {
      assert Channels().Keys == subscribers.Keys;
    }
  }

  // ---------------------------------------------------------------- an event stream

  /** `received` are the events the handler is done with, `hand` the one it has taken off its channel. */
  datatype Handler = Handler(joined: nat, received: seq<SSEEvent>, hand: Option<SSEEvent>, leaving: bool)

  function Taken(s: Handler, e: SSEEvent): Handler { s.(hand := Some(e)) }

  /** Writes and flushes the event in hand; an event that does not marshal is skipped. */
  function Flushed(s: Handler): Handler
    requires s.hand.Some?
  {
    var e := s.hand.value;
    s.(received := s.received + [e], hand := None, leaving := s.leaving || (e.data.Some? && e.kind == TERMINATION))
  }

  class EventStream {
    const joined: nat
    var received: seq<SSEEvent>
    var hand: Option<SSEEvent>
    var leaving: bool

    function View(): Handler
      reads this
    {
      Handler(joined, received, hand, leaving)
    }

    constructor (lastId: nat)
      ensures View() == Handler(lastId, [], None, false)
    {
      joined, received, hand, leaving := lastId, [], None, false;
    }

    method Take(ch: Channel)
      requires ch.buffer != [] && hand.None? && !leaving
      modifies this`hand, ch`buffer
      ensures View() == Taken(old(View()), old(ch.buffer)[0])
      ensures hand == Some(old(ch.buffer)[0]) && received == old(received) && leaving == old(leaving)
      ensures ch.buffer == old(ch.buffer)[1..]
    {
      hand := Some(ch.buffer[0]);
      ch.buffer := ch.buffer[1..];
    }

    /** The body of the receive case; `wg` is the wait group of the event's Done callback. */
    method Handle(h: nat, wg: WaitGroup?) returns (written: bool)
      requires hand.Some? && (hand.value.done.Some? <==> wg != null)
      modifies this, wg
      ensures View() == Flushed(old(View())) && (written <==> old(hand).value.data.Some?)
      ensures received == old(received) + [old(hand).value] && hand == None
      ensures leaving <==> old(leaving) || (written && old(hand).value.kind == "termination")
      ensures wg != null ==>
                && h in wg.acked
                && wg.counter == if h in old(wg.acked) then old(wg.counter) else old(wg.counter) - 1
      ensures wg != null ==> wg.View() == SubDone(old(wg.View()), h)
    {
      var ev := hand.value;
      hand := None;
      received := received + [ev];
      if ev.data.None? {
        if wg != null {
          wg.Done(h);
        }
        return false;
      }
      if wg != null {
        wg.Done(h);
      }
      if ev.kind == TERMINATION {
        leaving := true;
      }
      return true;
    }
  }
}
