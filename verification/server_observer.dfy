/** The server's observer: each callback mutates the snapshot, broadcasts, and records the identifier, as
    three critical sections. Here they run one after the other; module Convergence interleaves them. */
module ServerObservers {
  import opened Text
  import opened Executor
  import opened Events
  import opened ExecutionSnapshots
  import Convergence

  class ServerObserver {
    const store: SnapshotStore
    const broker: EventBroker
    const runId: string

    constructor (s: SnapshotStore, b: EventBroker, run: string)
      ensures store == s && broker == b && runId == run
    {
      store, broker, runId := s, b, run;
    }

    /** The snapshot shows the callback and the identifier of its event, which went to every subscriber. */
    twostate predicate Published(item: Convergence.Item, kind: string, payload: Option<string>)
      reads this, store, broker, broker.subscribers.Values
    {
      var id := old(broker.lastEventID) + 1;
      && broker.Valid()
      && store.View() == Snapshot(if item.Opening? then runId else old(store.runId),
                                  Convergence.Effect(old(store.rows), item), id)
      && broker.View() == Broadcasted(old(broker.View()), SSEEvent(id, kind, runId, payload, None))
    }

    method OnRunStart(payload: Option<string>)
      requires broker.Valid()
      modifies store, broker, broker.subscribers.Values
      ensures Published(Convergence.Opening, "state_change", payload)
      ensures store.runId == runId && store.rows == old(store.rows) && store.lastEventId == broker.lastEventID
    {
      store.SetRunId(runId);
      Publish("state_change", payload);
    }

    method OnAssertionStart(code: string, minScore: int, payload: Option<string>)
      requires broker.Valid()
      modifies store, broker, broker.subscribers.Values
      ensures Published(Convergence.Start(code, minScore), "assertion_progress", payload)
      ensures store.rows == Started(old(store.rows), code) && store.lastEventId == broker.lastEventID
    {
      store.StartAssertion(code);
      Publish("assertion_progress", payload);
    }

    method OnAssertionComplete(code: string, e: Entry, payload: Option<string>)
      requires broker.Valid()
      modifies store, broker, broker.subscribers.Values
      ensures Published(Convergence.Finish(code, e), "assertion_progress", payload)
      ensures store.rows == Completed(old(store.rows), code, e) && store.lastEventId == broker.lastEventID
    {
      store.CompleteAssertion(code, e);
      Publish("assertion_progress", payload);
    }

    /** OnSectionStart, OnLog, OnRunComplete, OnRunCancelled and OnRunError, which leave the table alone. */
    method OnOther(kind: string, payload: Option<string>)
      requires broker.Valid()
      modifies store, broker, broker.subscribers.Values
      ensures Published(Convergence.Note, kind, payload)
      ensures store.rows == old(store.rows) && store.lastEventId == broker.lastEventID
    {
      Publish(kind, payload);
    }

    method Publish(kind: string, payload: Option<string>)
      requires broker.Valid()
      modifies store`lastEventId, broker`lastEventID, broker.subscribers.Values
      ensures broker.Valid() && store.lastEventId == old(broker.lastEventID) + 1
      ensures broker.View() == Broadcasted(old(broker.View()),
                                           SSEEvent(old(broker.lastEventID) + 1, kind, runId, payload, None))
    {
      var id := broker.Broadcast(kind, runId, payload);
      store.RecordEvent(id);
    }
  }
}
