/** What the browser misses through a bounded buffer: a completion shows exactly when the buffer had room
    for its own event or a snapshot that reflects it was applied, whatever else was dropped. */
module DroppedEvents {
  import opened Text
  import opened Executor
  import opened ExecutionSnapshots
  import opened AppStates
  import opened Convergence
  import opened StreamConvergence
  import opened StaleSnapshots
  import opened BoundedStream
  import Events

  // ---------------------------------------------------------------- what holds whatever is dropped

  /** What is known of an entry without knowing that events arrive. */
  ghost predicate EntryCore(job: Job, ids: seq<nat>, version: nat, seen: int, c: string, v: Option<Entry>)
    requires version <= |job.script| && |ids| <= |job.script|
  {
    && (v.Some? && v.value.status.IsTerminal() ==>
          && (exists k :: 0 <= k < version && job.script[k] == Finish(c, v.value))
          && 0 < |ids| && ids[0] <= seen
          && (forall j :: 0 <= j < |job.script| && job.script[j].Start? && job.script[j].code == c ==>
                j < |ids| && ids[j] <= seen))
    && (v.Some? && !v.value.status.IsTerminal() ==> v.value.output == "")
  }

  ghost predicate CoreOk(job: Job, s: System)
    requires Version(s) <= |job.script| && |s.ids| <= |job.script|
  {
    forall c :: EntryCore(job, s.ids, Version(s), s.streamLast, c, ClientEntry(job, s, c))
  }

  ghost predicate NetSound(job: Job, s: System) {
    Published(job, s) && InFlight(job, s) && Queued(job, s) && CoreOk(job, s)
  }

  lemma CoreGrows(job: Job, ids: seq<nat>, version: nat, seen: int, more: seq<nat>, newer: nat, c: string,
                  v: Option<Entry>)
    requires |ids| <= |more| <= |job.script| && version <= newer <= |job.script|
    requires EntryCore(job, ids, version, seen, c, v) && forall k :: 0 <= k < |ids| ==> more[k] == ids[k]
    ensures EntryCore(job, more, newer, seen, c, v)
  {
  }

  lemma CoreFromSnapshot(job: Job, ids: seq<nat>, version: nat, seen: int, c: string, v: Option<Entry>, m: nat,
                         last: nat)
    requires Ready(job) && |ids| <= |job.script| && m <= version <= |job.script|
    requires EntryCore(job, ids, version, seen, c, v) && Explained(job, m, c) && Reflects(ids, m, last)
    ensures EntryCore(job, ids, version, if last > seen then last else seen, c, MergeLookup(v, At(job, m, c)))
    ensures v.Some? && v.value.status.IsTerminal() ==> MergeLookup(v, At(job, m, c)) == v
    ensures !(v.Some? && v.value.status.IsTerminal()) && At(job, m, c).Some? ==>
              MergeLookup(v, At(job, m, c)) == At(job, m, c)
  {
    hide At, Lookup;
    var inc := At(job, m, c);
    if v.Some? && v.value.status.IsTerminal() {
      var k :| 0 <= k < version && job.script[k] == Finish(c, v.value);
      if inc.Some? && inc.value.status.IsTerminal() {
        var k' :| 0 <= k' < m && job.script[k'] == Finish(c, inc.value);
        assert k == k';
      }
    } else if inc.Some? && inc.value.status.IsTerminal() {
      var k :| 0 <= k < m && job.script[k] == Finish(c, inc.value);
      FinishIsLast(job, c, k);
    }
  }

  lemma CoreFromEvent(job: Job, ids: seq<nat>, version: nat, seen: int, k: nat, c: string, v: Option<Entry>)
    requires Ready(job) && k < |ids| <= |job.script| && k < version <= |job.script|
    requires ids[k] > seen && EntryCore(job, ids, version, seen, c, v)
    requires forall i, j :: 0 <= i < j < |ids| ==> ids[i] < ids[j]
    ensures EntryCore(job, ids, version, ids[k], c, EntryAfter(job.script[k], c, v))
    ensures v.Some? && v.value.status.IsTerminal() ==> EntryAfter(job.script[k], c, v) == v
  {
    var item := job.script[k];
    if item.About(c) {
      if v.Some? && v.value.status.IsTerminal() {
        var f :| 0 <= f < version && job.script[f] == Finish(c, v.value);
        FinishIsLast(job, c, f);
        assert item.Finish?;
      }
      if item.Finish? {
        assert item == Finish(c, item.entry);
        FinishIsLast(job, c, k);
      }
    }
  }

  lemma CoreSeesMore(job: Job, ids: seq<nat>, version: nat, seen: int, more: int, c: string, v: Option<Entry>)
    requires version <= |job.script| && |ids| <= |job.script| && seen <= more
    requires EntryCore(job, ids, version, seen, c, v)
    ensures EntryCore(job, ids, version, more, c, v)
  {
  }

  /** A table made up for the run, when nothing of it is on display. */
  lemma CoreInitial(job: Job, ids: seq<nat>, version: nat, seen: int, c: string, codes: seq<string>)
    requires version <= |job.script| && |ids| <= |job.script|
    ensures EntryCore(job, ids, version, seen, c, Lookup(InitialRows(codes), c))
  {
    hide InitialRows, Lookup;
    InitialLookup(codes, c);
  }

  lemma CoreBySnapshot(job: Job, s: System, k: nat, c: string)
    requires Ready(job) && NetSound(job, s) && k < |s.flying|
    ensures var t := Apply(job, s, DeliverSnapshot(k));
            && Version(t) == Version(s) && t.ids == s.ids
            && EntryCore(job, t.ids, Version(t), t.streamLast, c, ClientEntry(job, t, c))
    ensures var t, v, v' := Apply(job, s, DeliverSnapshot(k)), ClientEntry(job, s, c),
                            ClientEntry(job, Apply(job, s, DeliverSnapshot(k)), c);
            && s.flying[k].version <= |job.script|
            && (v.Some? && v.value.status.IsTerminal() ==> v' == v)
            && (!(v.Some? && v.value.status.IsTerminal()) && At(job, s.flying[k].version, c).Some? ==>
                  v' == At(job, s.flying[k].version, c))
  {
    hide EntryCore, Lookup, MergeLookup, Effect, Folded, At, Explained, Ready, ClientEntry, Merge, Reflects;
    var f := s.flying[k];
    SnapshotOnEntry(job, s, k, c);
    AlwaysExplained(job, f.version, c);
    CoreFromSnapshot(job, s.ids, Version(s), s.streamLast, c, ClientEntry(job, s, c), f.version, f.snapshot.last);
  }

  /** What an event the stream lets through does to an entry that is known as above. */
  lemma CoreByEvent(job: Job, s: System, codes: seq<string>, running: bool, c: string)
    requires Ready(job) && NetSound(job, s) && s.chan != [] && s.chan[0].id > s.streamLast
    ensures var t := Apply(job, s, DeliverEvent(codes, running));
            && Version(t) == Version(s) && t.ids == s.ids
            && EntryCore(job, t.ids, Version(t), t.streamLast, c, ClientEntry(job, t, c))
    ensures var v := ClientEntry(job, s, c);
            v.Some? && v.value.status.IsTerminal() ==>
              ClientEntry(job, Apply(job, s, DeliverEvent(codes, running)), c) == v
  {
    hide EntryCore, Lookup, Effect, Folded, Ready, InitialRows, ClientEntry, InFlight, EntryAfter, Put, Handled;
    var t := Apply(job, s, DeliverEvent(codes, running));
    var w, v := s.chan[0], ClientEntry(job, s, c);
    assert EntryCore(job, s.ids, Version(s), s.streamLast, c, v);
    if w.Earlier? {
      EarlierOnEntry(job, s, codes, running, c);
      CoreFromEarlier(job, s.ids, Version(s), s.streamLast, w.id, c, v);
    } else {
      EventOnEntry(job, s, codes, running, c);
      var base := v;
      if ClientRows(job, s).None? && ClientRows(job, t).Some? {
        base := Lookup(InitialRows(codes), c);
        NoRowsNoEntry(job, s, c);
        CoreInitial(job, s.ids, Version(s), s.streamLast, c, codes);
      }
      if w.item.None? {
        CoreSeesMore(job, s.ids, Version(s), s.streamLast, w.id, c, base);
      } else {
        var k := HeadCallback(job, s);
        CoreFromEvent(job, s.ids, Version(s), s.streamLast, k, c, base);
      }
    }
  }

  lemma CoreFromEarlier(job: Job, ids: seq<nat>, version: nat, seen: int, id: int, c: string, v: Option<Entry>)
    requires version <= |job.script| && |ids| <= |job.script| && id > seen
    requires EntryCore(job, ids, version, seen, c, v) && forall k :: 0 <= k < |ids| ==> id < ids[k]
    ensures EntryCore(job, ids, version, id, c, v) && EntryCore(job, ids, version, id, c, None)
    ensures v.Some? ==> !v.value.status.IsTerminal()
  {
  }

  lemma HeadCallback(job: Job, s: System) returns (k: nat)
    requires Published(job, s) && Queued(job, s) && s.chan != [] && s.chan[0].Wire? && s.chan[0].item.Some?
    ensures k < |s.ids| && s.chan[0] == Wire(s.ids[k], Some(job.script[k])) && k < Version(s)
    ensures forall i, j :: 0 <= i < j < |s.ids| ==> s.ids[i] < s.ids[j]
  {
    hide Folded;
    k :| 0 <= k < |s.ids| && s.chan[0] == Wire(s.ids[k], Some(job.script[k]));
  }

  // ---------------------------------------------------------------- every step

  lemma CoreByDelivery(job: Job, s: System, a: Action)
    requires Ready(job) && NetSound(job, s) && (a.DeliverSnapshot? || a.DeliverEvent?)
    ensures var t := Apply(job, s, a);
            && Version(t) == Version(s) <= |job.script| && t.ids == s.ids && |t.ids| <= |job.script|
            && CoreOk(job, t)
    ensures forall c :: var v := ClientEntry(job, s, c);
              v.Some? && v.value.status.IsTerminal() ==> ClientEntry(job, Apply(job, s, a), c) == v
  {
    hide Published, Queued, InFlight, EntryCore, Ready, Handled, Reconciled, Lookup;
    PublishedSizes(job, s);
    var t := Apply(job, s, a);
    forall c
      ensures EntryCore(job, t.ids, Version(t), t.streamLast, c, ClientEntry(job, t, c))
      ensures var v := ClientEntry(job, s, c);
              v.Some? && v.value.status.IsTerminal() ==> ClientEntry(job, t, c) == v
    {
      assert EntryCore(job, s.ids, Version(s), s.streamLast, c, ClientEntry(job, s, c));
      if a.DeliverSnapshot? && a.k < |s.flying| {
        CoreBySnapshot(job, s, a.k, c);
      } else if a.DeliverEvent? && s.chan != [] && s.chan[0].id > s.streamLast {
        CoreByEvent(job, s, a.codes, a.running, c);
      }
    }
  }

  lemma CoreByServer(job: Job, s: System, a: Action)
    requires NetSound(job, s) && Published(job, Apply(job, s, a)) && !a.DeliverSnapshot? && !a.DeliverEvent?
    ensures CoreOk(job, Apply(job, s, a))
    ensures forall c :: ClientEntry(job, Apply(job, s, a), c) == ClientEntry(job, s, c)
  {
    hide EntryCore, Lookup, Effect, Folded, Queued, InFlight;
    var t := Apply(job, s, a);
    forall c ensures EntryCore(job, t.ids, Version(t), t.streamLast, c, ClientEntry(job, t, c)) {
      assert EntryCore(job, s.ids, Version(s), s.streamLast, c, ClientEntry(job, s, c));
      CoreGrows(job, s.ids, Version(s), s.streamLast, t.ids, Version(t), c, ClientEntry(job, s, c));
    }
  }

  lemma ApplyKeepsSound(job: Job, s: System, a: Action)
    requires Ready(job) && NetSound(job, s)
    ensures NetSound(job, Apply(job, s, a))
    ensures forall c :: var v := ClientEntry(job, s, c);
              v.Some? && v.value.status.IsTerminal() ==> ClientEntry(job, Apply(job, s, a), c) == v
  {
    hide Published, Queued, InFlight, EntryCore, Apply, Ready, ClientEntry, CoreOk;
    PublishedKept(job, s, a);
    InFlightKept(job, s, a);
    if a.DeliverSnapshot? || a.DeliverEvent? {
      QueuedByClient(job, s, a);
      CoreByDelivery(job, s, a);
    } else {
      QueuedByServer(job, s, a);
      CoreByServer(job, s, a);
    }
  }

  /** The state a step of the bounded stream reaches: that of the unbounded one, or the same with the
      event it appended left out. */
  lemma NetStep(job: Job, n: Net, x: NetAction)
    requires n.Valid()
    ensures var m := NetApply(job, n, x);
            if x == Flush || (x.a.DeliverEvent? && n.flushed == 0) then m.core == n.core
            else if Sends(x.a) && |n.Buffer()| >= Events.CAPACITY then
              m.core == Apply(job, n.core, x.a).(chan := n.core.chan)
            else m.core == Apply(job, n.core, x.a)
  {
    hide Effect, Handled, Reconciled;
    if x.Core? && Sends(x.a) {
      var t := Apply(job, n.core, x.a);
      assert n.core.chan[..n.flushed] + n.Buffer() == n.core.chan;
      if t.chan != n.core.chan {
        var w := t.chan[|t.chan| - 1];
        assert t.chan == n.core.chan + [w];
        assert n.core.chan[..n.flushed] + (n.Buffer() + [w]) == t.chan;
      }
    }
  }

  lemma DroppingKeepsSound(job: Job, s: System, a: Action)
    requires Ready(job) && NetSound(job, s) && Sends(a)
    ensures NetSound(job, Apply(job, s, a).(chan := s.chan))
    ensures forall c :: ClientEntry(job, Apply(job, s, a).(chan := s.chan), c) == ClientEntry(job, s, c)
  {
    hide Published, InFlight, EntryCore, Ready, Effect, Lookup;
    var t := Apply(job, s, a);
    var u := t.(chan := s.chan);
    ApplyKeepsSound(job, s, a);
    SameButChannel(job, t, u);
    PublishedSizes(job, t);
    QueuedPrefix(job, t, u);
    forall c ensures ClientEntry(job, u, c) == ClientEntry(job, t, c) {
    }
  }

  lemma SameButChannel(job: Job, t: System, u: System)
    requires u == t.(chan := u.chan) && Published(job, t) && InFlight(job, t)
    ensures Published(job, u) && InFlight(job, u)
  {
    hide Folded;
  }

  lemma QueuedPrefix(job: Job, t: System, u: System)
    requires |t.ids| <= |job.script| && Queued(job, t) && u == t.(chan := u.chan) && u.chan <= t.chan
    ensures Queued(job, u)
  {
  }

  lemma NetKeepsSound(job: Job, n: Net, x: NetAction)
    requires Ready(job) && n.Valid() && NetSound(job, n.core)
    ensures NetSound(job, NetApply(job, n, x).core)
    ensures forall c :: var v := ClientEntry(job, n.core, c);
              v.Some? && v.value.status.IsTerminal() ==> ClientEntry(job, NetApply(job, n, x).core, c) == v
  {
    hide NetSound, Ready, ClientEntry, NetApply, Apply;
    NetStep(job, n, x);
    if x.Core? {
      ApplyKeepsSound(job, n.core, x.a);
      if Sends(x.a) {
        DroppingKeepsSound(job, n.core, x.a);
      }
    }
  }

  // ---------------------------------------------------------------- one completion

  /** Callback k, a completion, is the one whose event this step broadcasts into a buffer with room. */
  predicate BroadcastsWithRoom(job: Job, n: Net, x: NetAction, k: nat)
    requires n.Valid()
  {
    && x == Core(Broadcast) && n.core.phase.Mutated? && n.core.pos == k < |job.script|
    && |n.Buffer()| < Events.CAPACITY
  }

  /** This step applies a snapshot that reflects callback k. */
  predicate AppliesReflection(n: Net, x: NetAction, k: nat) {
    x.Core? && x.a.DeliverSnapshot? && x.a.k < |n.core.flying| && n.core.flying[x.a.k].version > k
  }

  predicate HadRoom(job: Job, n: Net, xs: seq<NetAction>, k: nat)
    requires n.Valid()
  {
    xs != [] &&
    (HadRoom(job, n, xs[..|xs| - 1], k)
     || BroadcastsWithRoom(job, NetAfter(job, n, xs[..|xs| - 1]), xs[|xs| - 1], k))
  }

  predicate Reflected(job: Job, n: Net, xs: seq<NetAction>, k: nat)
    requires n.Valid()
  {
    xs != [] &&
    (Reflected(job, n, xs[..|xs| - 1], k)
     || AppliesReflection(NetAfter(job, n, xs[..|xs| - 1]), xs[|xs| - 1], k))
  }

  ghost predicate IsShown(job: Job, s: System, k: nat)
    requires k < |job.script| && job.script[k].Finish?
  {
    ClientEntry(job, s, job.script[k].code) == Some(job.script[k].entry)
  }

  /** Its event is under way and was not passed. */
  ghost predicate UnderWay(job: Job, s: System, k: nat)
    requires k < |job.script|
  {
    k < |s.ids| && s.ids[k] > s.streamLast && Wire(s.ids[k], Some(job.script[k])) in s.chan
  }

  /** It neither shows nor is its event under way. */
  ghost predicate Absent(job: Job, s: System, k: nat)
    requires k < |job.script| && job.script[k].Finish?
  {
    && (var v := ClientEntry(job, s, job.script[k].code); v.Some? ==> !v.value.status.IsTerminal())
    && (forall i :: 0 <= i < |s.chan| && s.chan[i].Wire? ==> s.chan[i].item != Some(job.script[k]))
  }

  lemma ReflectionShows(job: Job, s: System, m: nat, k: nat)
    requires Ready(job) && NetSound(job, s) && m < |s.flying| && s.flying[m].version > k
    requires k < |job.script| && job.script[k].Finish?
    ensures IsShown(job, Apply(job, s, DeliverSnapshot(m)), k)
  {
    hide ClientEntry, Lookup, Published, Queued, Apply, At, DistinctRows, Folded;
    var c, f := job.script[k].code, s.flying[m];
    PublishedSizes(job, s);
    CoreBySnapshot(job, s, m, c);
    AlwaysExplained(job, f.version, c);
    var v := ClientEntry(job, s, c);
    if v.Some? && v.value.status.IsTerminal() {
      assert EntryCore(job, s.ids, Version(s), s.streamLast, c, v);
      var k' :| 0 <= k' < Version(s) && job.script[k'] == Finish(c, v.value);
      FinishIsLast(job, c, k);
    }
  }

  /** An event under way stays so until it shows; no other delivery passes it by. */
  lemma UnderWayBySnapshot(job: Job, s: System, m: nat, k: nat)
    requires Ready(job) && NetSound(job, s) && k < |job.script| && job.script[k].Finish? && UnderWay(job, s, k)
    ensures var t := Apply(job, s, DeliverSnapshot(m)); IsShown(job, t, k) || UnderWay(job, t, k)
  {
    hide ClientEntry, Lookup, Published, Queued, CoreOk, DistinctRows, Legal, Folded, Reconciled, Ready;
    if m < |s.flying| && s.flying[m].version > k {
      ReflectionShows(job, s, m, k);
    }
  }

  lemma UnderWayByEvent(job: Job, s: System, codes: seq<string>, running: bool, k: nat)
    requires Ready(job) && NetSound(job, s) && k < |job.script| && job.script[k].Finish? && UnderWay(job, s, k)
    ensures var t := Apply(job, s, DeliverEvent(codes, running)); IsShown(job, t, k) || UnderWay(job, t, k)
  {
    hide ClientEntry, Lookup, InFlight, CoreOk, DistinctRows, Legal, Folded, Handled, Ready;
    var w := Wire(s.ids[k], Some(job.script[k]));
    var i :| 0 <= i < |s.chan| && s.chan[i] == w;
    if i == 0 {
      EventOnEntry(job, s, codes, running, job.script[k].code);
    } else {
      assert s.chan[1..][i - 1] == w;
    }
  }

  lemma UnderWayKept(job: Job, n: Net, x: NetAction, k: nat)
    requires Ready(job) && n.Valid() && NetSound(job, n.core) && k < |job.script| && job.script[k].Finish?
    requires UnderWay(job, n.core, k)
    ensures var s := NetApply(job, n, x).core; IsShown(job, s, k) || UnderWay(job, s, k)
  {
    hide NetSound, Ready, IsShown, NetApply, Effect, Handled, Reconciled;
    NetStep(job, n, x);
    if x.Core? && x.a.DeliverSnapshot? {
      UnderWayBySnapshot(job, n.core, x.a.k, k);
    } else if x.Core? && x.a.DeliverEvent? {
      UnderWayByEvent(job, n.core, x.a.codes, x.a.running, k);
    } else if x.Core? {
      assert forall w :: w in n.core.chan ==> w in Apply(job, n.core, x.a).chan;
    }
  }

  lemma BroadcastPutsUnderWay(job: Job, n: Net, k: nat)
    requires n.Valid() && NetSound(job, n.core) && BroadcastsWithRoom(job, n, Core(Broadcast), k)
    ensures UnderWay(job, NetApply(job, n, Core(Broadcast)).core, k)
  {
    hide InFlight, CoreOk, Folded;
    NetStep(job, n, Core(Broadcast));
    var t := Apply(job, n.core, Broadcast);
    assert t.chan[|n.core.chan|] == Wire(t.ids[k], Some(job.script[k]));
  }

  lemma AbsentBySnapshot(job: Job, s: System, m: nat, k: nat)
    requires Ready(job) && NetSound(job, s) && k < |job.script| && job.script[k].Finish? && Absent(job, s, k)
    requires m < |s.flying| ==> s.flying[m].version <= k
    ensures Absent(job, Apply(job, s, DeliverSnapshot(m)), k)
  {
    hide ClientEntry, Lookup, Published, Queued, CoreOk, Folded, Reconciled, At, DistinctRows;
    var c := job.script[k].code;
    if m < |s.flying| {
      var f := s.flying[m];
      CoreBySnapshot(job, s, m, c);
      AlwaysExplained(job, f.version, c);
      SnapshotOnEntry(job, s, m, c);
      FinishIsLast(job, c, k);
    } else {
      SameEntries(job, s, Apply(job, s, DeliverSnapshot(m)));
    }
  }

  lemma AbsentByEvent(job: Job, s: System, codes: seq<string>, running: bool, k: nat)
    requires Ready(job) && NetSound(job, s) && k < |job.script| && job.script[k].Finish? && Absent(job, s, k)
    ensures Absent(job, Apply(job, s, DeliverEvent(codes, running)), k)
  {
    hide ClientEntry, Lookup, InFlight, CoreOk, Folded, Handled, InitialRows, DistinctRows;
    var c, t := job.script[k].code, Apply(job, s, DeliverEvent(codes, running));
    if s.chan != [] && s.chan[0].id > s.streamLast {
      if s.chan[0].Earlier? {
        EarlierOnEntry(job, s, codes, running, c);
      } else {
        EventOnEntry(job, s, codes, running, c);
        InitialLookup(codes, c);
        if s.chan[0].item.Some? {
          var j := HeadCallback(job, s);
          FinishIsLast(job, c, k);
        }
      }
    } else {
      SameEntries(job, s, t);
    }
  }

  lemma AbsentKept(job: Job, n: Net, x: NetAction, k: nat)
    requires Ready(job) && n.Valid() && NetSound(job, n.core) && k < |job.script| && job.script[k].Finish?
    requires Absent(job, n.core, k) && !BroadcastsWithRoom(job, n, x, k) && !AppliesReflection(n, x, k)
    ensures Absent(job, NetApply(job, n, x).core, k)
  {
    hide ClientEntry, NetApply, Effect, Handled, Reconciled, InFlight, CoreOk, Queued, Folded, DistinctRows;
    NetStep(job, n, x);
    if x.Core? && x.a.DeliverSnapshot? {
      AbsentBySnapshot(job, n.core, x.a.k, k);
    } else if x.Core? && x.a.DeliverEvent? {
      AbsentByEvent(job, n.core, x.a.codes, x.a.running, k);
    } else {
      SameEntries(job, n.core, NetApply(job, n, x).core);
      FinishIsLast(job, job.script[k].code, k);
    }
  }

  /** Where completion k stands, in terms of what happened so far. */
  ghost predicate Stands(job: Job, s: System, k: nat, room: bool, reflected: bool)
    requires k < |job.script| && job.script[k].Finish?
  {
    if reflected then IsShown(job, s, k)
    else if room then IsShown(job, s, k) || UnderWay(job, s, k)
    else Absent(job, s, k)
  }

  lemma ShownStays(job: Job, n: Net, x: NetAction, k: nat)
    requires Ready(job) && n.Valid() && NetSound(job, n.core) && k < |job.script| && job.script[k].Finish?
    requires IsShown(job, n.core, k)
    ensures IsShown(job, NetApply(job, n, x).core, k)
  {
    hide NetSound, ClientEntry, NetApply, DistinctRows;
    NetKeepsSound(job, n, x);
  }

  lemma StandsKept(job: Job, n: Net, x: NetAction, k: nat, room: bool, reflected: bool)
    requires Ready(job) && n.Valid() && NetSound(job, n.core) && k < |job.script| && job.script[k].Finish?
    requires Stands(job, n.core, k, room, reflected)
    ensures Stands(job, NetApply(job, n, x).core, k, room || BroadcastsWithRoom(job, n, x, k),
                   reflected || AppliesReflection(n, x, k))
  {
    hide NetSound, Ready, IsShown, UnderWay, Absent, NetApply;
    if IsShown(job, n.core, k) {
      ShownStays(job, n, x, k);
    }
    if AppliesReflection(n, x, k) {
      NetStep(job, n, x);
      ReflectionShows(job, n.core, x.a.k, k);
    } else if BroadcastsWithRoom(job, n, x, k) {
      BroadcastPutsUnderWay(job, n, k);
    } else if UnderWay(job, n.core, k) {
      UnderWayKept(job, n, x, k);
    }
    if Absent(job, n.core, k) && !BroadcastsWithRoom(job, n, x, k) && !AppliesReflection(n, x, k) {
      AbsentKept(job, n, x, k);
    }
  }

  lemma {:induction false} AlwaysStands(job: Job, n: Net, xs: seq<NetAction>, k: nat)
    requires Ready(job) && n.Valid() && Begins(job, n.core) && k < |job.script| && job.script[k].Finish?
    ensures var s := NetAfter(job, n, xs).core;
            NetSound(job, s) && Stands(job, s, k, HadRoom(job, n, xs, k), Reflected(job, n, xs, k))
  {
    hide NetSound, Ready, Begins, Stands, NetApply, BroadcastsWithRoom, AppliesReflection;
    if xs == [] {
      StandsAtStart(job, n, k);
    } else {
      var front, x := xs[..|xs| - 1], xs[|xs| - 1];
      AlwaysStands(job, n, front, k);
      var m := NetAfter(job, n, front);
      NetKeepsSound(job, m, x);
      StandsKept(job, m, x, k, HadRoom(job, n, front, k), Reflected(job, n, front, k));
    }
  }

  lemma StandsAtStart(job: Job, n: Net, k: nat)
    requires n.Valid() && Begins(job, n.core) && k < |job.script| && job.script[k].Finish?
    ensures NetSound(job, n.core) && Stands(job, n.core, k, false, false)
  {
  }

  // ---------------------------------------------------------------- the exact condition

  /** For every run and every interleaving of publishing, other goroutines' broadcasts, flushes, deliveries,
      fetches and snapshots: once everything under way has arrived, a completion shows on the browser
      exactly when the buffer had room at its own broadcast or a snapshot that reflects it was applied. */
  lemma ShownExactly(job: Job, n: Net, xs: seq<NetAction>, k: nat)
    requires Ready(job) && n.Valid() && Begins(job, n.core) && k < |job.script| && job.script[k].Finish?
    requires NetAfter(job, n, xs).core.chan == []
    ensures IsShown(job, NetAfter(job, n, xs).core, k) <==> HadRoom(job, n, xs, k) || Reflected(job, n, xs, k)
  {
    hide NetSound, Begins, NetAfter, HadRoom, Reflected, ClientEntry, DistinctRows;
    AlwaysStands(job, n, xs, k);
  }

  lemma {:induction false} NothingFetched(job: Job, n: Net, xs: seq<NetAction>, k: nat)
    requires n.Valid() && n.core.flying == [] && Core(Fetch) !in xs
    ensures NetAfter(job, n, xs).core.flying == [] && !Reflected(job, n, xs, k)
  {
    hide Effect, Handled, Reconciled;
    if xs != [] {
      NothingFetched(job, n, xs[..|xs| - 1], k);
      NetStep(job, NetAfter(job, n, xs[..|xs| - 1]), xs[|xs| - 1]);
    }
  }

  /** At any moment, arrived or not: a completion that had no room and that no applied snapshot reflects neither
      shows nor is under way. */
  lemma LostForGood(job: Job, n: Net, xs: seq<NetAction>, k: nat)
    requires Ready(job) && n.Valid() && Begins(job, n.core) && k < |job.script| && job.script[k].Finish?
    requires !HadRoom(job, n, xs, k) && !Reflected(job, n, xs, k)
    ensures Absent(job, NetAfter(job, n, xs).core, k)
  {
    hide NetSound, Begins, NetAfter, HadRoom, Reflected, ClientEntry, DistinctRows;
    AlwaysStands(job, n, xs, k);
  }

  /** Without snapshots room at its own broadcast is all that matters, whatever other events were dropped. */
  lemma ShownByEventsExactly(job: Job, n: Net, xs: seq<NetAction>, k: nat)
    requires Ready(job) && n.Valid() && Begins(job, n.core) && k < |job.script| && job.script[k].Finish?
    requires NetAfter(job, n, xs).core.chan == [] && Core(Fetch) !in xs
    ensures IsShown(job, NetAfter(job, n, xs).core, k) <==> HadRoom(job, n, xs, k)
  {
    hide NetAfter, HadRoom, IsShown, Ready;
    ShownExactly(job, n, xs, k);
    NothingFetched(job, n, xs, k);
  }

  /** A completion that had room converges to the server's entry. */
  lemma CompletedConvergesInBounds(job: Job, n: Net, xs: seq<NetAction>, k: nat)
    requires Ready(job) && n.Valid() && Begins(job, n.core) && k < |job.script| && job.script[k].Finish?
    requires NetAfter(job, n, xs).core.chan == [] && HadRoom(job, n, xs, k)
    ensures var s := NetAfter(job, n, xs).core;
            ClientEntry(job, s, job.script[k].code) == Lookup(s.rows, job.script[k].code) == Some(job.script[k].entry)
  {
    hide NetAfter, HadRoom, Reflected, ClientEntry, Lookup, Ready, Begins, InFlight, Queued, CoreOk;
    ShownExactly(job, n, xs, k);
    AlwaysStands(job, n, xs, k);
    RoomMeansBroadcast(job, n, xs, k);
    ServerHasIt(job, NetAfter(job, n, xs).core, k);
  }

  lemma ServerHasIt(job: Job, s: System, k: nat)
    requires Ready(job) && Published(job, s) && k < Version(s) && job.script[k].Finish?
    ensures Lookup(s.rows, job.script[k].code) == Some(job.script[k].entry)
  {
    hide Lookup, Folded, DistinctRows, Legal;
    AlwaysExplained(job, Version(s), job.script[k].code);
    assert At(job, Version(s), job.script[k].code) == Lookup(s.rows, job.script[k].code);
  }

  lemma {:induction false} RoomMeansBroadcast(job: Job, n: Net, xs: seq<NetAction>, k: nat)
    requires n.Valid() && HadRoom(job, n, xs, k)
    ensures k < Version(NetAfter(job, n, xs).core)
  {
    hide Effect, Handled, Reconciled;
    var front := xs[..|xs| - 1];
    if HadRoom(job, n, front, k) {
      RoomMeansBroadcast(job, n, front, k);
    }
    NetStep(job, NetAfter(job, n, front), xs[|xs| - 1]);
  }

  // ---------------------------------------------------------------- every run can lose a completion

  lemma AfterOne(job: Job, n: Net, xs: seq<NetAction>, x: NetAction, k: nat)
    requires n.Valid()
    ensures var m := NetAfter(job, n, xs);
            && NetAfter(job, n, xs + [x]) == NetApply(job, m, x)
            && (HadRoom(job, n, xs + [x], k) <==> HadRoom(job, n, xs, k) || BroadcastsWithRoom(job, m, x, k))
  {
    assert (xs + [x])[..|xs + [x]| - 1] == xs;
  }

  /** The steps xs fetch nothing and give callback k no room; the first `pos` callbacks are recorded. */
  ghost predicate Prepared(job: Job, n: Net, xs: seq<NetAction>, k: nat, pos: nat)
    requires n.Valid()
  {
    var s := NetAfter(job, n, xs).core;
    Core(Fetch) !in xs && !HadRoom(job, n, xs, k) && s.phase.Idle? && s.pos == pos && |s.ids| == pos
  }

  /** Three steps publish the next callback, which gives k no room unless it is k and there is room. */
  lemma PublishNext(job: Job, n: Net, xs: seq<NetAction>, k: nat, pos: nat) returns (more: seq<NetAction>)
    requires n.Valid() && Prepared(job, n, xs, k, pos) && pos < |job.script|
    requires pos == k ==> |NetAfter(job, n, xs).Buffer()| >= Events.CAPACITY
    ensures Prepared(job, n, more, k, pos + 1)
  {
    hide NetAfter, HadRoom, Effect;
    AfterOne(job, n, xs, Core(Mutate), k);
    AfterOne(job, n, xs + [Core(Mutate)], Core(Broadcast), k);
    AfterOne(job, n, xs + [Core(Mutate)] + [Core(Broadcast)], Core(Record), k);
    more := xs + [Core(Mutate)] + [Core(Broadcast)] + [Core(Record)];
  }

  lemma {:induction false} PublishUpTo(job: Job, n: Net, k: nat, pos: nat) returns (xs: seq<NetAction>)
    requires n.Valid() && Begins(job, n.core) && pos <= k < |job.script|
    ensures Prepared(job, n, xs, k, pos)
  {
    if pos == 0 {
      xs := [];
    } else {
      var before := PublishUpTo(job, n, k, pos - 1);
      xs := PublishNext(job, n, before, k, pos - 1);
    }
  }

  /** Other goroutines' broadcasts fill the buffer that nobody flushes. */
  lemma {:induction false} FillBuffer(job: Job, n: Net, xs: seq<NetAction>, k: nat) returns (more: seq<NetAction>)
    requires n.Valid() && Prepared(job, n, xs, k, k)
    ensures Prepared(job, n, more, k, k) && |NetAfter(job, n, more).Buffer()| >= Events.CAPACITY
    decreases Events.CAPACITY - |NetAfter(job, n, xs).Buffer()|
  {
    hide NetAfter, HadRoom;
    more := xs;
    if |NetAfter(job, n, xs).Buffer()| < Events.CAPACITY {
      AfterOne(job, n, xs, Core(Foreign), k);
      more := FillBuffer(job, n, xs + [Core(Foreign)], k);
    }
  }

  /** Everything still under way is flushed and delivered. */
  lemma {:induction false} DeliverAll(job: Job, n: Net, xs: seq<NetAction>, k: nat, pos: nat)
    returns (more: seq<NetAction>)
    requires n.Valid() && Prepared(job, n, xs, k, pos)
    ensures Prepared(job, n, more, k, pos) && NetAfter(job, n, more).core.chan == []
    ensures NetAfter(job, n, more).core.rows == NetAfter(job, n, xs).core.rows
    decreases |NetAfter(job, n, xs).core.chan|
  {
    hide NetAfter, HadRoom, Handled;
    more := xs;
    if NetAfter(job, n, xs).core.chan != [] {
      AfterOne(job, n, xs, Flush, k);
      AfterOne(job, n, xs + [Flush], Core(DeliverEvent([], false)), k);
      more := DeliverAll(job, n, xs + [Flush] + [Core(DeliverEvent([], false))], k, pos);
    }
  }

  /** Whatever the run and whichever its completion: there is an interleaving after which everything under
      way has arrived, the server has the completion, and the browser does not show it. */
  lemma CompletionCanBeLost(job: Job, n: Net, k: nat) returns (xs: seq<NetAction>)
    requires Ready(job) && n.Valid() && Begins(job, n.core) && k < |job.script| && job.script[k].Finish?
    ensures var s := NetAfter(job, n, xs).core;
            && Core(Fetch) !in xs && s.chan == [] && !IsShown(job, s, k)
            && Lookup(s.rows, job.script[k].code) == Some(job.script[k].entry)
  {
    hide NetAfter, HadRoom, IsShown, Ready, Begins, Lookup, NetSound;
    var published := PublishUpTo(job, n, k, k);
    var full := FillBuffer(job, n, published, k);
    var lost := PublishNext(job, n, full, k, k);
    xs := DeliverAll(job, n, lost, k, k + 1);
    ShownByEventsExactly(job, n, xs, k);
    AlwaysStands(job, n, xs, k);
    SoundPublishes(job, NetAfter(job, n, xs).core);
    ServerHasIt(job, NetAfter(job, n, xs).core, k);
  }

  lemma SoundPublishes(job: Job, s: System)
    requires NetSound(job, s)
    ensures Published(job, s)
  {
  }
}
