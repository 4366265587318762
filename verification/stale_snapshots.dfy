/** Before an assertion completes the browser can fall behind: a snapshot fetched before the assertion
    started and applied after its start was shown takes it back to pending. The tables agree at every
    quiet moment exactly when no snapshot does that. */
module StaleSnapshots {
  import opened Text
  import opened Executor
  import opened ExecutionSnapshots
  import opened AppStates
  import opened Convergence
  import opened StreamConvergence

  /** The snapshot to be delivered shows as pending nothing that the browser shows as running. */
  ghost predicate NoRegress(job: Job, s: System, k: nat) {
    k < |s.flying| ==>
      forall c :: var v, inc := ClientEntry(job, s, c), Lookup(s.flying[k].snapshot.rows, c);
        v.Some? && v.value.status.Running? && inc.Some? ==> !inc.value.status.Pending?
  }

  /** The same for the assertions whose start the browser has passed: those that may show as running
      ahead of their event are left out. */
  ghost predicate KeepsStarts(job: Job, s: System, k: nat) {
    k < |s.flying| && |s.ids| <= |job.script| ==>
      forall j :: 0 <= j < |s.ids| && s.ids[j] <= s.streamLast && job.script[j].Start? ==>
        StaysRunning(job, s, k, job.script[j].code)
  }

  ghost predicate StaysRunning(job: Job, s: System, k: nat, c: string)
    requires k < |s.flying|
  {
    var v, inc := ClientEntry(job, s, c), Lookup(s.flying[k].snapshot.rows, c);
    v.Some? && v.value.status.Running? && inc.Some? ==> !inc.value.status.Pending?
  }

  predicate SameStanding(v: Entry, e: Entry) { v.status == e.status && v.passed == e.passed && v.score == e.score }

  ghost predicate AgreesOn(job: Job, s: System, c: string) {
    var v, e := ClientEntry(job, s, c), Lookup(s.rows, c);
    && (v.Some? && e.Some? ==> SameStanding(v.value, e.value))
    && (e.Some? && !e.value.status.Pending? ==> v.Some?)
  }

  /** Status, passed and score agree for every code. */
  ghost predicate Agrees(job: Job, s: System) { forall c :: AgreesOn(job, s, c) }

  /** Every start the browser has passed shows on its table. */
  ghost predicate StartsShown(job: Job, s: System) {
    |s.ids| <= |job.script| &&
    forall k :: 0 <= k < |s.ids| && s.ids[k] <= s.streamLast && job.script[k].Start? ==>
      var v := ClientEntry(job, s, job.script[k].code); v.Some? && !v.value.status.Pending?
  }

  lemma NotPendingAfterStart(job: Job, n: nat, k: nat)
    requires Ready(job) && k < n <= |job.script| && job.script[k].Start?
    ensures var e := At(job, n, job.script[k].code); e.Some? && !e.value.status.Pending?
  {
    hide At, Lookup, Legal, DistinctRows;
    var c := job.script[k].code;
    AlwaysExplained(job, n, c);
    assert job.script[k].About(c);
  }

  /** A delivered snapshot leaves an entry that is not pending so exactly when it does not take it back. */
  lemma SnapshotShows(job: Job, s: System, k: nat, c: string)
    requires Ready(job) && Sound(job, s) && k < |s.flying|
    requires var v := ClientEntry(job, s, c); v.Some? && !v.value.status.Pending?
    ensures var v := ClientEntry(job, Apply(job, s, DeliverSnapshot(k)), c);
            v.Some? && (!v.value.status.Pending? <==> StaysRunning(job, s, k, c))
  {
    hide ClientEntry, Lookup, Ready, Published, Buffered, ClientOk, Apply, Reflects, Folded;
    SnapshotOnEntry(job, s, k, c);
    assert Lookup(s.flying[k].snapshot.rows, c) == At(job, s.flying[k].version, c);
  }

  lemma StartsShownBySnapshot(job: Job, s: System, k: nat)
    requires Ready(job) && Sound(job, s) && StartsShown(job, s) && KeepsStarts(job, s, k)
    ensures StartsShown(job, Apply(job, s, DeliverSnapshot(k)))
  {
    hide ClientEntry, Lookup, Ready, Published, Buffered, ClientOk, Sound, InFlight, StaysRunning, Reconciled;
    if k < |s.flying| {
      var t := Apply(job, s, DeliverSnapshot(k));
      forall j | 0 <= j < |t.ids| && t.ids[j] <= t.streamLast && job.script[j].Start?
        ensures var v := ClientEntry(job, t, job.script[j].code); v.Some? && !v.value.status.Pending?
      {
        if s.ids[j] <= s.streamLast {
          SnapshotShows(job, s, k, job.script[j].code);
        } else {
          ReflectedStartShows(job, s, k, j);
        }
      }
    }
  }

  /** A start that the browser passes only by the snapshot's LastEventID is in the snapshot. */
  lemma ReflectedStartShows(job: Job, s: System, k: nat, j: nat)
    requires Ready(job) && Sound(job, s) && k < |s.flying| && j < |s.ids| <= |job.script| && job.script[j].Start?
    requires s.ids[j] > s.streamLast && s.ids[j] <= Apply(job, s, DeliverSnapshot(k)).streamLast
    ensures var v := ClientEntry(job, Apply(job, s, DeliverSnapshot(k)), job.script[j].code);
            v.Some? && !v.value.status.Pending?
  {
    hide ClientEntry, Lookup, Ready, Published, Buffered, ClientOk, Folded, At, EntryOk;
    var f, c := s.flying[k], job.script[j].code;
    assert s.ids[j] <= f.snapshot.last;
    SnapshotOnEntry(job, s, k, c);
    NotPendingAfterStart(job, f.version, j);
  }

  lemma StartsShownByEvent(job: Job, s: System, codes: seq<string>, running: bool)
    requires Ready(job) && Sound(job, s) && StartsShown(job, s)
    ensures StartsShown(job, Apply(job, s, DeliverEvent(codes, running)))
  {
    hide ClientEntry, Lookup, Ready, Published, Buffered, ClientOk, InFlight, Handled;
    var t := Apply(job, s, DeliverEvent(codes, running));
    if s.chan != [] && s.chan[0].id > s.streamLast {
      forall j | 0 <= j < |t.ids| && t.ids[j] <= t.streamLast && job.script[j].Start?
        ensures var v := ClientEntry(job, t, job.script[j].code); v.Some? && !v.value.status.Pending?
      {
        EventShows(job, s, codes, running, j);
      }
    } else {
      SameEntries(job, s, t);
    }
  }

  lemma SameEntries(job: Job, s: System, t: System)
    requires t.app == s.app
    ensures forall c :: ClientEntry(job, t, c) == ClientEntry(job, s, c)
  {
  }

  lemma EventShows(job: Job, s: System, codes: seq<string>, running: bool, j: nat)
    requires Ready(job) && Sound(job, s) && StartsShown(job, s) && s.chan != [] && s.chan[0].id > s.streamLast
    requires j < |s.ids| && s.ids[j] <= s.chan[0].id && job.script[j].Start?
    ensures var v := ClientEntry(job, Apply(job, s, DeliverEvent(codes, running)), job.script[j].code);
            v.Some? && !v.value.status.Pending?
  {
    hide ClientEntry, Lookup, Folded, InFlight, ClientOk, Handled, DistinctRows, InitialRows;
    var c := job.script[j].code;
    EventOnEntry(job, s, codes, running, c);
    NothingSkipped(job, s);
    if s.ids[j] <= s.streamLast {
      if ClientRows(job, s).None? {
        NoRowsNoEntry(job, s, c);
        assert false;
      }
      FinishIsNotPending(job, s);
    } else {
      var k := NextCallback(job, s, j);
    }
  }

  lemma NextCallback(job: Job, s: System, j: nat) returns (k: nat)
    requires Published(job, s) && Buffered(job, s) && s.chan != [] && s.chan[0].id > s.streamLast
    requires j < |s.ids| && s.streamLast < s.ids[j] <= s.chan[0].id
    ensures k == j && s.chan[0] == Wire(s.ids[j], Some(job.script[j]))
  {
    hide Folded;
    NothingSkipped(job, s);
    k := WhichCallback(job, s);
  }

  /** A completion event carries a terminal status. */
  lemma FinishIsNotPending(job: Job, s: System)
    requires Ready(job) && Published(job, s) && Buffered(job, s) && s.chan != []
    ensures s.chan[0].Wire? && s.chan[0].item.Some? && s.chan[0].item.value.Finish? ==>
              s.chan[0].item.value.entry.status.IsTerminal()
  {
    hide Folded, Lookup;
    if s.chan[0].Wire? && s.chan[0].item.Some? {
      var k := WhichCallback(job, s);
    }
  }

  lemma StartsShownByServer(job: Job, s: System, a: Action)
    requires Sound(job, s) && Sound(job, Apply(job, s, a)) && StartsShown(job, s)
    requires !a.DeliverSnapshot? && !a.DeliverEvent?
    ensures StartsShown(job, Apply(job, s, a))
  {
    hide ClientEntry, Effect, Folded, InFlight, ClientOk;
    SameEntries(job, s, Apply(job, s, a));
  }

  /** At a quiet moment the tables agree when every start shows. */
  lemma ShownMeansAgrees(job: Job, s: System, c: string)
    requires Ready(job) && Sound(job, s) && Delivered(s) && StartsShown(job, s)
    ensures AgreesOn(job, s, c)
  {
    hide ClientEntry, Lookup, InFlight, Folded, DistinctRows;
    DeliveredMeansSeen(job, s);
    AlwaysExplained(job, Version(s), c);
    var v, e := ClientEntry(job, s, c), Lookup(s.rows, c);
    assert e == At(job, Version(s), c);
    assert EntryOk(job, s.ids, Version(s), s.streamLast, c, v);
    if e.Some? && e.value.status.IsTerminal() {
      var k :| 0 <= k < Version(s) && job.script[k] == Finish(c, e.value);
    } else if e.Some? && e.value.status.Running? {
      var k :| 0 <= k < Version(s) && job.script[k].Start? && job.script[k].code == c;
    }
  }

  lemma AgreesMeansShown(job: Job, s: System)
    requires Ready(job) && Sound(job, s) && Delivered(s) && Agrees(job, s)
    ensures StartsShown(job, s)
  {
    hide ClientEntry, Lookup, InFlight, Folded, ClientOk, DistinctRows, Legal, Ready;
    DeliveredMeansSeen(job, s);
    forall k | 0 <= k < |s.ids| && job.script[k].Start?
      ensures var v := ClientEntry(job, s, job.script[k].code); v.Some? && !v.value.status.Pending?
    {
      NotPendingAfterStart(job, Version(s), k);
      assert AgreesOn(job, s, job.script[k].code);
    }
  }

  // ---------------------------------------------------------------- the theorems

  /** At any moment, quiet or not: a delivered snapshot leaves every passed start on the browser's table
      exactly when it shows none of those that run as pending. */
  lemma SnapshotKeepsStartsExactly(job: Job, start: System, actions: seq<Action>, k: nat)
    requires Ready(job) && Begins(job, start)
    requires var s := After(job, start, actions); StartsShown(job, s) && k < |s.flying|
    ensures var s := After(job, start, actions);
            StartsShown(job, Apply(job, s, DeliverSnapshot(k))) <==> KeepsStarts(job, s, k)
  {
    hide Sound, Ready, Begins, ClientEntry, StaysRunning, Reconciled;
    AlwaysSound(job, start, actions);
    var s := After(job, start, actions);
    if KeepsStarts(job, s, k) {
      StartsShownBySnapshot(job, s, k);
    } else {
      var j :| 0 <= j < |s.ids| && s.ids[j] <= s.streamLast && job.script[j].Start?
               && !StaysRunning(job, s, k, job.script[j].code);
      SnapshotShows(job, s, k, job.script[j].code);
    }
  }

  lemma NoRegressKeepsStarts(job: Job, s: System, k: nat)
    requires NoRegress(job, s, k)
    ensures KeepsStarts(job, s, k)
  {
    hide ClientEntry, Lookup;
  }

  /** Delivering a snapshot at a quiet moment keeps the tables in agreement exactly when it shows as
      pending nothing the browser shows as running. */
  lemma SnapshotAgreesExactly(job: Job, start: System, actions: seq<Action>, k: nat)
    requires Ready(job) && Begins(job, start)
    requires var s := After(job, start, actions); Delivered(s) && Agrees(job, s) && k < |s.flying|
    ensures var s := After(job, start, actions);
            Agrees(job, Apply(job, s, DeliverSnapshot(k))) <==> NoRegress(job, s, k)
  {
    hide Sound, Agrees, NoRegress, Ready, Begins, Apply, StartsShown;
    AlwaysSound(job, start, actions);
    var s := After(job, start, actions);
    var t := Apply(job, s, DeliverSnapshot(k));
    if NoRegress(job, s, k) {
      AgreesMeansShown(job, s);
      NoRegressKeepsStarts(job, s, k);
      StartsShownBySnapshot(job, s, k);
      SoundKept(job, s, DeliverSnapshot(k));
      StillDelivered(job, s, k);
      AgreesEverywhere(job, t);
    } else {
      RegressDisagrees(job, s, k);
    }
  }

  lemma StillDelivered(job: Job, s: System, k: nat)
    requires Delivered(s)
    ensures Delivered(Apply(job, s, DeliverSnapshot(k)))
  {
  }

  lemma AgreesEverywhere(job: Job, s: System)
    requires Ready(job) && Sound(job, s) && Delivered(s) && StartsShown(job, s)
    ensures Agrees(job, s)
  {
    hide Ready, Sound, StartsShown, AgreesOn;
    forall c ensures AgreesOn(job, s, c) {
      ShownMeansAgrees(job, s, c);
    }
  }

  lemma RegressDisagrees(job: Job, s: System, k: nat)
    requires Ready(job) && Sound(job, s) && Agrees(job, s) && !NoRegress(job, s, k)
    ensures !Agrees(job, Apply(job, s, DeliverSnapshot(k)))
  {
    hide ClientEntry, Lookup, Folded, ClientOk, Buffered, DistinctRows, Legal, Reconciled;
    var t, f := Apply(job, s, DeliverSnapshot(k)), s.flying[k];
    var c :| ClientEntry(job, s, c).Some? && ClientEntry(job, s, c).value.status.Running?
             && Lookup(f.snapshot.rows, c).Some? && Lookup(f.snapshot.rows, c).value.status.Pending?;
    SnapshotOnEntry(job, s, k, c);
    AlwaysExplained(job, f.version, c);
    AlwaysExplained(job, Version(s), c);
    assert At(job, f.version, c) == Lookup(f.snapshot.rows, c) && At(job, Version(s), c) == Lookup(s.rows, c);
    assert AgreesOn(job, s, c);
    assert !AgreesOn(job, t, c);
  }

  /** No snapshot of the sequence takes a running assertion back to pending. */
  ghost predicate NeverRegresses(job: Job, start: System, actions: seq<Action>) {
    forall i :: 0 <= i < |actions| && actions[i].DeliverSnapshot? ==>
      KeepsStarts(job, After(job, start, actions[..i]), actions[i].k)
  }

  lemma {:induction false} AlwaysShown(job: Job, start: System, actions: seq<Action>)
    requires Ready(job) && Begins(job, start) && NeverRegresses(job, start, actions)
    ensures StartsShown(job, After(job, start, actions))
  {
    hide Sound, Ready, Begins, KeepsStarts, StartsShown, Apply;
    if actions == [] {
      NothingToShow(job, start);
    } else {
      var front, a := actions[..|actions| - 1], actions[|actions| - 1];
      forall i | 0 <= i < |front| && front[i].DeliverSnapshot?
        ensures KeepsStarts(job, After(job, start, front[..i]), front[i].k)
      {
        assert front[..i] == actions[..i];
      }
      AlwaysShown(job, start, front);
      AlwaysSound(job, start, front);
      var s := After(job, start, front);
      SoundKept(job, s, a);
      if a.DeliverSnapshot? {
        StartsShownBySnapshot(job, s, a.k);
      } else if a.DeliverEvent? {
        StartsShownByEvent(job, s, a.codes, a.running);
      } else {
        StartsShownByServer(job, s, a);
      }
    }
  }

  lemma NothingToShow(job: Job, start: System)
    requires Begins(job, start)
    ensures StartsShown(job, start)
  {
  }

  /** Unless a snapshot took a running assertion back to pending, at every moment at which all events
      are delivered the browser's status, passed and score of every code are the server's. */
  lemma Converges(job: Job, start: System, actions: seq<Action>)
    requires Ready(job) && Begins(job, start) && NeverRegresses(job, start, actions)
    requires Delivered(After(job, start, actions))
    ensures Agrees(job, After(job, start, actions))
  {
    hide Sound, Ready, Begins, NeverRegresses, StartsShown, Agrees;
    AlwaysSound(job, start, actions);
    AlwaysShown(job, start, actions);
    AgreesEverywhere(job, After(job, start, actions));
  }

  // ---------------------------------------------------------------- the stale snapshot exists

  lemma AfterOneMore(job: Job, s: System, actions: seq<Action>, a: Action)
    ensures After(job, s, actions + [a]) == Apply(job, After(job, s, actions), a)
  {
    assert (actions + [a])[..|actions + [a]| - 1] == actions;
  }

  /** The first k callbacks are published and delivered, and nothing else is under way. */
  predicate Settled(s: System, k: nat) { s.pos == k && s.phase.Idle? && s.chan == [] && s.flying == [] }

  lemma {:induction false} Drain(job: Job, start: System, actions: seq<Action>) returns (more: seq<Action>)
    requires var s := After(job, start, actions); s.phase.Idle? && s.flying == []
    ensures Settled(After(job, start, more), After(job, start, actions).pos)
    decreases |After(job, start, actions).chan|
  {
    hide After, Handled;
    more := actions;
    if After(job, start, actions).chan != [] {
      AfterOneMore(job, start, actions, DeliverEvent([], false));
      more := Drain(job, start, actions + [DeliverEvent([], false)]);
    }
  }

  lemma PublishOne(job: Job, start: System, actions: seq<Action>, running: bool) returns (more: seq<Action>)
    requires var s := After(job, start, actions); s.phase.Idle? && s.pos < |job.script| && s.chan == []
    ensures var s := After(job, start, actions);
            After(job, start, more)
            == Apply(job, Apply(job, Apply(job, Apply(job, s, Mutate), Broadcast), Record), DeliverEvent([], running))
  {
    hide After, Apply;
    AfterOneMore(job, start, actions, Mutate);
    AfterOneMore(job, start, actions + [Mutate], Broadcast);
    AfterOneMore(job, start, actions + [Mutate] + [Broadcast], Record);
    AfterOneMore(job, start, actions + [Mutate] + [Broadcast] + [Record], DeliverEvent([], running));
    more := actions + [Mutate] + [Broadcast] + [Record] + [DeliverEvent([], running)];
  }

  /** The next callback is published and its event handled. */
  function Shown(job: Job, s: System, running: bool): System
    requires s.pos < |job.script|
  {
    var item, id := job.script[s.pos], s.lastId + 1;
    s.(rows := Effect(s.rows, item), last := id, pos := s.pos + 1, ids := s.ids + [id], lastId := id,
       streamLast := id, app := Handled(job, s.app, Wire(id, Some(item)), [], running))
  }

  lemma PublishedOne(job: Job, s: System, running: bool)
    requires s.phase.Idle? && s.pos < |job.script| && s.chan == [] && s.streamLast <= s.lastId
    ensures Apply(job, Apply(job, Apply(job, Apply(job, s, Mutate), Broadcast), Record), DeliverEvent([], running))
         == Shown(job, s, running)
  {
    hide Effect, Handled;
  }

  lemma {:induction false} Settle(job: Job, start: System, k: nat) returns (actions: seq<Action>)
    requires Ready(job) && Begins(job, start) && k <= |job.script|
    ensures Settled(After(job, start, actions), k)
  {
    hide Ready, Apply, Handled, Effect, After, Published, InFlight, ClientOk;
    if k == 0 {
      AfterNothing(job, start);
      actions := Drain(job, start, []);
    } else {
      var before := Settle(job, start, k - 1);
      AlwaysSound(job, start, before);
      actions := PublishOne(job, start, before, false);
      PublishedOne(job, After(job, start, before), false);
    }
  }

  lemma AfterNothing(job: Job, start: System)
    requires Begins(job, start)
    ensures After(job, start, []) == start && start.pos == 0 && start.phase.Idle? && start.flying == []
  {
  }

  /** All events are delivered, the server says running, and the browser shows the assertion as pending. */
  predicate Regressed(job: Job, s: System, c: string) {
    && Delivered(s) && Lookup(s.rows, c).Some? && Lookup(s.rows, c).value.status == Running
    && ClientEntry(job, s, c).Some? && ClientEntry(job, s, c).value.status == Pending
  }

  /** Whatever the run: when its first assertion starts there is an interleaving that ends with all events
      delivered, the server saying running, and the browser showing the assertion as pending. */
  lemma FirstStartCanRegress(job: Job, start: System, k: nat) returns (actions: seq<Action>)
    requires Ready(job) && Begins(job, start) && k < |job.script| && job.script[k].Start?
    requires forall i :: 0 <= i < k ==> !job.script[i].Start?
    ensures Regressed(job, After(job, start, actions), job.script[k].code)
  {
    hide Ready, Apply, Handled, Effect, After, Published, InFlight, ClientOk, Regressed;
    var before := Settle(job, start, k);
    AlwaysSound(job, start, before);
    var s := After(job, start, before);
    AfterOneMore(job, start, before, Fetch);
    var u := Apply(job, s, Fetch);
    FetchIs(job, s);
    var shown := PublishOne(job, start, before + [Fetch], true);
    PublishedOne(job, u, true);
    AfterOneMore(job, start, shown, DeliverSnapshot(0));
    AlwaysSound(job, start, before + [Fetch]);
    LateSnapshot(job, u, k);
    actions := shown + [DeliverSnapshot(0)];
  }

  lemma FetchIs(job: Job, s: System)
    ensures Apply(job, s, Fetch) == s.(flying := s.flying + [Fetched(Snapshot(job.runId, s.rows, s.last), Version(s))])
  {
  }

  /** The start of callback k is published and shown, then a snapshot from before it is delivered. */
  lemma LateSnapshot(job: Job, u: System, k: nat)
    requires Ready(job) && Sound(job, u) && k < |job.script| && job.script[k].Start?
    requires forall i :: 0 <= i < k ==> !job.script[i].Start?
    requires u.pos == k && u.phase.Idle? && u.chan == []
    requires u.flying == [Fetched(Snapshot(job.runId, u.rows, u.last), k)]
    ensures Regressed(job, Apply(job, Shown(job, u, true), DeliverSnapshot(0)), job.script[k].code)
  {
    hide Lookup, Put, Merge, InitialRows, Buffered, InFlight, ClientOk, Reflects, Legal, DistinctRows, Set;
    var c, item := job.script[k].code, job.script[k];
    BeforeItsStart(job, k);
    AtStep(job, k, c);
    assert At(job, k, c) == Lookup(u.rows, c);
    DistinctFolded(job, k);
    var rows := if ClientRows(job, u).None? then InitialRows([]) else ClientRows(job, u).value;
    var running := Entry(Running, false, 0, item.minScore, 0, "");
    LookupPut(rows, c, running, c);
    LookupMerge(Put(rows, c, running), u.rows, c);
  }

  /** Before the first start of the run its assertion's entry is pending. */
  lemma BeforeItsStart(job: Job, k: nat)
    requires Ready(job) && k < |job.script| && job.script[k].Start?
    requires forall i :: 0 <= i < k ==> !job.script[i].Start?
    ensures var e := At(job, k, job.script[k].code); e.Some? && e.value.status.Pending?
  {
    hide At, Lookup;
    var c := job.script[k].code;
    AlwaysExplained(job, k, c);
    assert job.script[k].About(c);
  }

  ghost predicate QuietAgreement(job: Job, start: System, actions: seq<Action>) {
    Delivered(After(job, start, actions)) ==> Agrees(job, After(job, start, actions))
  }

  /** The tables agree at every quiet moment of every interleaving exactly for the runs in which no
      assertion ever starts. */
  lemma AlwaysAgreesExactly(job: Job, start: System)
    requires Ready(job) && Begins(job, start)
    ensures (forall actions :: QuietAgreement(job, start, actions))
            <==> forall k :: 0 <= k < |job.script| ==> !job.script[k].Start?
  {
    hide Ready, Begins, After, Agrees, Sound, Delivered, Regressed;
    if k :| 0 <= k < |job.script| && job.script[k].Start? {
      var first := FirstStart(job, k);
      var actions := FirstStartCanRegress(job, start, first);
      Disagrees(job, After(job, start, actions), job.script[first].code);
      assert !QuietAgreement(job, start, actions);
    } else {
      forall actions ensures QuietAgreement(job, start, actions) {
        AlwaysSound(job, start, actions);
        if Delivered(After(job, start, actions)) {
          NoStartsShown(job, After(job, start, actions));
          AgreesEverywhere(job, After(job, start, actions));
        }
      }
    }
  }

  lemma NoStartsShown(job: Job, s: System)
    requires Sound(job, s) && forall k :: 0 <= k < |job.script| ==> !job.script[k].Start?
    ensures StartsShown(job, s)
  {
    hide Folded, InFlight, Buffered, ClientOk;
  }

  lemma Disagrees(job: Job, s: System, c: string)
    requires Regressed(job, s, c)
    ensures !Agrees(job, s) && Delivered(s)
  {
    hide Lookup, ClientEntry;
    assert !AgreesOn(job, s, c);
  }

  lemma {:induction false} FirstStart(job: Job, k: nat) returns (first: nat)
    requires k < |job.script| && job.script[k].Start?
    ensures first <= k && job.script[first].Start? && forall i :: 0 <= i < first ==> !job.script[i].Start?
  {
    if i :| 0 <= i < k && job.script[i].Start? {
      first := FirstStart(job, i);
    } else {
      first := k;
    }
  }
}
