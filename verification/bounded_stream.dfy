/** The run's events through a subscriber's bounded buffer, which drops what it has no room for. With room
    at every broadcast this is the stream of module Convergence. */
module BoundedStream {
  import opened Text
  import opened Executor
  import opened ExecutionSnapshots
  import opened AppStates
  import opened Convergence
  import opened StreamConvergence
  import opened StaleSnapshots
  import BrowserStream
  import Events

  /** The first `flushed` events of the core's channel are written to the connection, the others are in
      the subscriber's buffer. */
  datatype Net = Net(core: System, flushed: nat)
  {
    predicate Valid() { flushed <= |core.chan| }

    function Buffer(): seq<Wire>
      requires Valid()
    {
      core.chan[flushed..]
    }
  }

  datatype NetAction = Core(a: Action) | Flush

  predicate Sends(a: Action) { a.Broadcast? || a.Foreign? }

  /** A broadcast is offered to the buffer, the handler flushes from it, the browser reads what is flushed. */
  function NetApply(job: Job, n: Net, x: NetAction): (m: Net)
    requires n.Valid()
    ensures m.Valid()
  {
    match x
    case Flush => if n.flushed < |n.core.chan| then n.(flushed := n.flushed + 1) else n
    case Core(a) =>
      var t := Apply(job, n.core, a);
      if Sends(a) then
        if t.chan == n.core.chan then Net(t, n.flushed)
        else
          Net(t.(chan := n.core.chan[..n.flushed] + Events.Offered(n.Buffer(), t.chan[|t.chan| - 1])), n.flushed)
      else if a.DeliverEvent? then if n.flushed == 0 then n else Net(t, n.flushed - 1)
      else
        Net(t, n.flushed)
  }

  function NetAfter(job: Job, n: Net, xs: seq<NetAction>): (m: Net)
    requires n.Valid()
    ensures m.Valid()
  {
    if xs == [] then n else NetApply(job, NetAfter(job, n, xs[..|xs| - 1]), xs[|xs| - 1])
  }

  /** The buffer had room whenever an event was broadcast. */
  ghost predicate AlwaysRoom(job: Job, n: Net, xs: seq<NetAction>)
    requires n.Valid()
  {
    forall i :: 0 <= i < |xs| && xs[i].Core? && Sends(xs[i].a) ==>
      |NetAfter(job, n, xs[..i]).Buffer()| < Events.CAPACITY
  }

  lemma StepIsCore(job: Job, n: Net, x: NetAction)
    requires n.Valid() && (x.Core? && Sends(x.a) ==> |n.Buffer()| < Events.CAPACITY)
    ensures var m := NetApply(job, n, x); m.core == n.core || (x.Core? && m.core == Apply(job, n.core, x.a))
  {
    hide Effect, Handled, Reconciled;
    if x.Core? && Sends(x.a) {
      var t := Apply(job, n.core, x.a);
      if t.chan != n.core.chan {
        var w := t.chan[|t.chan| - 1];
        assert t.chan == n.core.chan + [w];
        assert n.core.chan[..n.flushed] + (n.Buffer() + [w]) == t.chan;
      }
    }
  }

  /** With room at every broadcast the bounded stream does what the unbounded one does. */
  lemma {:induction false} Refines(job: Job, n: Net, xs: seq<NetAction>) returns (actions: seq<Action>)
    requires n.Valid() && AlwaysRoom(job, n, xs)
    ensures After(job, n.core, actions) == NetAfter(job, n, xs).core
  {
    hide Apply, NetApply, Net.Buffer;
    if xs == [] {
      actions := [];
    } else {
      var front, x := xs[..|xs| - 1], xs[|xs| - 1];
      forall i | 0 <= i < |front| && front[i].Core? && Sends(front[i].a)
        ensures |NetAfter(job, n, front[..i]).Buffer()| < Events.CAPACITY
      {
        assert front[..i] == xs[..i];
      }
      var before := Refines(job, n, front);
      var m := NetAfter(job, n, front);
      StepIsCore(job, m, x);
      if NetApply(job, m, x).core == m.core {
        actions := before;
      } else {
        actions := before + [x.a];
        AfterOneMore(job, n.core, before, x.a);
      }
    }
  }

  /** What the browser reads off the connection passes its own deduplication exactly when the handlers of
      AppState run, and moves its mark as there. */
  lemma DeliveryIsTheStreams(job: Job, s: System, b: BrowserStream.Stream, codes: seq<string>, running: bool)
    requires s.chan != [] && s.chan[0].id > 0 && b.lastEventId == s.streamLast
    ensures var t, id := Apply(job, s, DeliverEvent(codes, running)), s.chan[0].id;
            var b' := BrowserStream.Messaged(b, Some(id), true);
            && b'.lastEventId == t.streamLast
            && (if id > s.streamLast then
                  b'.dispatched == b.dispatched + [id] && t.app == Handled(job, s.app, s.chan[0], codes, running)
                else b'.dispatched == b.dispatched && t.app == s.app)
  {
    hide Handled;
  }
}
