/** webui/src/lib/api/events.ts: the browser's event stream, its reconnects and its deduplication by
    event identifier. */
module BrowserStream {
  import opened Text

  datatype ConnectionStatus = Disconnected | Connecting | Connected | Reconnecting

  datatype Config = Config(initialBackoffMs: int, maxBackoffMs: int, backoffMultiplier: real)

  /** `source` and `timer` say whether an EventSource is open and a reconnect timer armed; `dispatched`
      are the identifiers of the events handed to the listeners, 0 for an event without one. */
  datatype Stream = Stream(
    status: ConnectionStatus, source: bool, timer: bool, manuallyClosed: bool, backoffMs: int,
    lastEventId: int, dispatched: seq<int>)

  function NewStream(c: Config): Stream { Stream(Disconnected, false, false, false, c.initialBackoffMs, 0, []) }

  function Min(a: int, b: int): int { if a < b then a else b }

  function Scheduled(c: Config, s: Stream): Stream {
    s.(timer := true, backoffMs := Min(c.maxBackoffMs, (s.backoffMs as real * c.backoffMultiplier).Floor))
  }

  function Failed(c: Config, s: Stream): Stream {
    var t := s.(source := false);
    if s.manuallyClosed then t.(status := Disconnected) else Scheduled(c, t.(status := Reconnecting))
  }

  /** `opens` says whether the EventSource factory succeeds. */
  function Dialled(c: Config, s: Stream, opens: bool): Stream {
    var t := s.(manuallyClosed := false, timer := false, source := false,
                status := if s.status.Reconnecting? then Reconnecting else Connecting);
    if opens then t.(source := true) else Failed(c, t)
  }

  function Opened(c: Config, s: Stream): Stream { s.(backoffMs := c.initialBackoffMs, status := Connected) }

  function Closed(s: Stream): Stream {
    s.(manuallyClosed := true, timer := false, source := false, status := Disconnected)
  }

  function Jumped(s: Stream, id: int): Stream { if id > s.lastEventId then s.(lastEventId := id) else s }

  function IdOf(id: Option<int>): int { if id.Some? then id.value else 0 }

  /** `id` is None when the event has no identifier or not a numeric one; `parses` tells of its data. */
  function Messaged(s: Stream, id: Option<int>, parses: bool): Stream {
    var n := IdOf(id);
    if !parses || (n > 0 && n <= s.lastEventId) then s
    else Jumped(s, n).(dispatched := s.dispatched + [n])
  }

  /** Unless disconnected there is an open source or an armed timer, never both. */
  predicate Alive(s: Stream) {
    && (s.manuallyClosed ==> s.status.Disconnected?)
    && (s.status.Disconnected? ==> !s.source && !s.timer)
    && (s.status.Connecting? || s.status.Connected? ==> s.source && !s.timer)
    && (s.status.Reconnecting? ==> s.source != s.timer)
  }

  class EventStreamManager {
    const config: Config
    var status: ConnectionStatus
    var source: bool
    var timer: bool
    var isManuallyClosed: bool
    var currentBackoffMs: int
    var lastEventId: int
    var dispatched: seq<int>

    function View(): Stream
      reads this
    {
      Stream(status, source, timer, isManuallyClosed, currentBackoffMs, lastEventId, dispatched)
    }

    constructor (c: Config)
      ensures config == c && View() == NewStream(c) && Alive(View())
    {
      config := c;
      status, source, timer, isManuallyClosed := Disconnected, false, false, false;
      currentBackoffMs, lastEventId, dispatched := c.initialBackoffMs, 0, [];
    }

    method SetLastEventId(id: int)
      modifies this
      ensures View() == Jumped(old(View()), id)
      ensures lastEventId == if id > old(lastEventId) then id else old(lastEventId)
      ensures Alive(old(View())) ==> Alive(View())
    {
      if id > lastEventId {
        lastEventId := id;
      }
    }

    method Connect(opens: bool)
      modifies this
      ensures View() == Dialled(config, old(View()), opens)
      ensures !isManuallyClosed && source == opens && timer == !opens
      ensures status == if !opens || old(status).Reconnecting? then Reconnecting else Connecting
      ensures opens ==> currentBackoffMs == old(currentBackoffMs)
      ensures lastEventId == old(lastEventId) && dispatched == old(dispatched)
      ensures Alive(View())
    {
      isManuallyClosed := false;
      timer := false;
      source := false;
      var wasReconnecting := status.Reconnecting?;
      status := if wasReconnecting then Reconnecting else Connecting;
      if !opens {
        HandleConnectionFailure();
        return;
      }
      source := true;
    }

    method OnOpen()
      modifies this
      ensures View() == Opened(config, old(View()))
      ensures status == Connected && currentBackoffMs == config.initialBackoffMs
      ensures source == old(source) && timer == old(timer) && isManuallyClosed == old(isManuallyClosed)
              && lastEventId == old(lastEventId) && dispatched == old(dispatched)
      ensures old(source) && Alive(old(View())) ==> Alive(View())
    {
      currentBackoffMs := config.initialBackoffMs;
      status := Connected;
    }

    method OnError()
      modifies this
      ensures View() == if old(isManuallyClosed) then old(View()) else Failed(config, old(View()))
      ensures old(source) && Alive(old(View())) ==> Alive(View())
    {
      if isManuallyClosed {
        return;
      }
      HandleConnectionFailure();
    }

    method HandleConnectionFailure()
      modifies this
      ensures View() == Failed(config, old(View()))
      ensures !source && isManuallyClosed == old(isManuallyClosed)
      ensures isManuallyClosed ==> status == Disconnected && timer == old(timer)
      ensures !isManuallyClosed ==> status == Reconnecting && timer
      ensures lastEventId == old(lastEventId) && dispatched == old(dispatched)
      ensures Alive(old(View())) || !old(isManuallyClosed) ==> Alive(View())
    {
      source := false;
      if isManuallyClosed {
        status := Disconnected;
        return;
      }
      status := Reconnecting;
      ScheduleReconnect();
    }

    method ScheduleReconnect()
      modifies this`timer, this`currentBackoffMs
      ensures View() == Scheduled(config, old(View()))
      ensures timer && currentBackoffMs <= config.maxBackoffMs
      ensures var raised := (old(currentBackoffMs) as real * config.backoffMultiplier).Floor;
              currentBackoffMs == if raised <= config.maxBackoffMs then raised else config.maxBackoffMs
    {
      timer := true;
      currentBackoffMs := Min(config.maxBackoffMs, (currentBackoffMs as real * config.backoffMultiplier).Floor);
    }

    method Disconnect()
      modifies this
      ensures View() == Closed(old(View()))
      ensures isManuallyClosed && !timer && !source && status == Disconnected
      ensures currentBackoffMs == old(currentBackoffMs) && lastEventId == old(lastEventId)
              && dispatched == old(dispatched)
      ensures Alive(View())
    {
      isManuallyClosed := true;
      timer := false;
      source := false;
      status := Disconnected;
    }

    method HandleMessage(id: Option<int>, parses: bool)
      modifies this`lastEventId, this`dispatched
      ensures View() == Messaged(old(View()), id, parses)
      ensures dispatched == old(dispatched)
              + if !parses then []
                else if id.None? then [0]
                else if 0 < id.value <= old(lastEventId) then []
                else [id.value]
      ensures var n := if id.Some? then id.value else 0;
              lastEventId == if parses && n > old(lastEventId) then n else old(lastEventId)
      ensures Alive(old(View())) ==> Alive(View())
    {
      var eventId := 0;
      if id.Some? {
        eventId := id.value;
      }
      if !parses {
        return;
      }
      if eventId > 0 && eventId <= lastEventId {
        return;
      }
      if eventId > lastEventId {
        lastEventId := eventId;
      }
      dispatched := dispatched + [eventId];
    }
  }

  // ---------------------------------------------------------------- whole lives of a stream

  datatype Action =
    | Connect(opens: bool) | TimerFires(opens: bool) | Open | Error | Disconnect
    | Message(id: Option<int>, parses: bool) | Jump(to: int)

  /** Source events need an open source, the timer's callback an armed timer. */
  function Apply(c: Config, s: Stream, a: Action): Stream {
    match a
    case Connect(opens) => Dialled(c, s, opens)
    case TimerFires(opens) => if s.timer && !s.manuallyClosed then Dialled(c, s, opens) else s
    case Open => if s.source then Opened(c, s) else s
    case Error => if s.source && !s.manuallyClosed then Failed(c, s) else s
    case Disconnect => Closed(s)
    case Message(id, parses) => if s.source then Messaged(s, id, parses) else s
    case Jump(id) => Jumped(s, id)
  }

  function After(c: Config, actions: seq<Action>): Stream {
    if actions == [] then NewStream(c) else Apply(c, After(c, actions[..|actions| - 1]), actions[|actions| - 1])
  }

  lemma {:induction false} NeverStuck(c: Config, actions: seq<Action>)
    ensures Alive(After(c, actions))
  {
    if actions != [] {
      NeverStuck(c, actions[..|actions| - 1]);
    }
  }

  /** Whatever happens, the delay of the next reconnect stays between the initial and the maximal one. */
  lemma {:induction false} BackoffBounded(c: Config, actions: seq<Action>)
    requires 0 <= c.initialBackoffMs <= c.maxBackoffMs && c.backoffMultiplier >= 1.0
    ensures c.initialBackoffMs <= After(c, actions).backoffMs <= c.maxBackoffMs
  {
    hide Apply;
    if actions != [] {
      BackoffBounded(c, actions[..|actions| - 1]);
      BackoffStep(c, After(c, actions[..|actions| - 1]), actions[|actions| - 1]);
    }
  }

  lemma BackoffStep(c: Config, s: Stream, a: Action)
    requires 0 <= c.initialBackoffMs <= s.backoffMs <= c.maxBackoffMs && c.backoffMultiplier >= 1.0
    ensures c.initialBackoffMs <= Apply(c, s, a).backoffMs <= c.maxBackoffMs
  {
    hide Scheduled;
    ScheduledBounded(c, s.(source := false, status := Reconnecting));
    ScheduledBounded(c, s.(source := false, status := Reconnecting, timer := false, manuallyClosed := false));
  }

  lemma ScheduledBounded(c: Config, s: Stream)
    requires 0 <= c.initialBackoffMs <= s.backoffMs <= c.maxBackoffMs && c.backoffMultiplier >= 1.0
    ensures c.initialBackoffMs <= Scheduled(c, s).backoffMs <= c.maxBackoffMs
  {
    BackoffGrows(s.backoffMs, c.backoffMultiplier);
  }

  lemma BackoffGrows(b: int, m: real)
    requires b >= 0 && m >= 1.0
    ensures (b as real * m).Floor >= b
  {
    assert b as real * m >= b as real * 1.0;
  }

  /** The positive identifiers dispatched so far, with the jumps, reach up to lastEventId exactly. */
  ghost predicate HighWater(s: Stream, actions: seq<Action>) {
    && s.lastEventId >= 0
    && (forall k :: 0 <= k < |s.dispatched| ==> s.dispatched[k] <= s.lastEventId)
    && (forall k :: 0 <= k < |actions| && actions[k].Jump? ==> actions[k].to <= s.lastEventId)
    && (s.lastEventId > 0 ==> s.lastEventId in s.dispatched || Jump(s.lastEventId) in actions)
  }

  ghost predicate Rising(ids: seq<int>) {
    forall j, k :: 0 <= j < k < |ids| && ids[j] > 0 && ids[k] > 0 ==> ids[j] < ids[k]
  }

  lemma ApplyIds(c: Config, s: Stream, a: Action)
    ensures var t := Apply(c, s, a);
            match a
            case Message(id, parses) => t == if s.source then Messaged(s, id, parses) else s
            case Jump(id) => t == Jumped(s, id)
            case _ => t.lastEventId == s.lastEventId && t.dispatched == s.dispatched
  {
  }

  lemma {:induction false} IdentifiersRise(c: Config, actions: seq<Action>)
    ensures var s := After(c, actions); HighWater(s, actions) && Rising(s.dispatched)
  {
    if actions != [] {
      var front, a := actions[..|actions| - 1], actions[|actions| - 1];
      IdentifiersRise(c, front);
      ApplyIds(c, After(c, front), a);
      HighWaterKept(c, After(c, front), front, a);
      assert front + [a] == actions;
    }
  }

  lemma HighWaterKept(c: Config, s: Stream, front: seq<Action>, a: Action)
    requires HighWater(s, front) && Rising(s.dispatched)
    ensures var t := Apply(c, s, a); HighWater(t, front + [a]) && Rising(t.dispatched)
  {
    hide Apply, Rising;
    ApplyIds(c, s, a);
    var t := Apply(c, s, a);
    assert forall x :: x in front ==> x in front + [a];
    if a.Message? && s.source && a.parses && !(0 < IdOf(a.id) <= s.lastEventId) {
      var n := IdOf(a.id);
      assert t.dispatched[|s.dispatched|] == n;
      assert forall x :: x in s.dispatched ==> x in t.dispatched;
      RisingAppend(s.dispatched, n, s.lastEventId);
    } else if a.Jump? {
      assert a == (front + [a])[|front|];
    }
  }

  lemma RisingAppend(ids: seq<int>, n: int, bound: int)
    requires Rising(ids) && (forall k :: 0 <= k < |ids| ==> ids[k] <= bound) && (n <= 0 || n > bound)
    ensures Rising(ids + [n])
  {
  }

  /** Over any input, across reconnects and jumps: positive identifiers are dispatched in strictly
      increasing order, so each at most once. */
  lemma DispatchedOnceInOrder(c: Config, actions: seq<Action>, j: nat, k: nat)
    requires var ids := After(c, actions).dispatched; j < |ids| && k < |ids| && ids[j] > 0 && ids[k] > 0
    ensures var ids := After(c, actions).dispatched; (j < k <==> ids[j] < ids[k])
  {
    hide After;
    IdentifiersRise(c, actions);
  }

  /** A message with a positive identifier on an open source is dispatched exactly when its data parses
      and it is beyond everything dispatched and every jump so far. */
  lemma DispatchedExactly(c: Config, actions: seq<Action>, id: int, parses: bool)
    requires id > 0 && After(c, actions).source
    ensures var s := After(c, actions);
            var t := After(c, actions + [Message(Some(id), parses)]);
            var fresh_ := parses && (forall k :: 0 <= k < |s.dispatched| ==> s.dispatched[k] < id)
                          && (forall k :: 0 <= k < |actions| && actions[k].Jump? ==> actions[k].to < id);
            t.dispatched == if fresh_ then s.dispatched + [id] else s.dispatched
  {
    hide Dialled, Opened, Closed, Failed;
    var s := After(c, actions);
    var a := Message(Some(id), parses);
    assert (actions + [a])[..|actions + [a]| - 1] == actions;
    IdentifiersRise(c, actions);
    if id <= s.lastEventId {
      if s.lastEventId in s.dispatched {
        var k :| 0 <= k < |s.dispatched| && s.dispatched[k] == s.lastEventId;
      } else {
        var k :| 0 <= k < |actions| && actions[k] == Jump(s.lastEventId);
      }
    }
  }
}
