/** The browser's assertion table converges to the server's: a completed assertion stays completed, and
    when everything is delivered the completed entries are the server's. */
module StreamConvergence {
  import opened Text
  import opened Executor
  import opened ExecutionSnapshots
  import opened AppStates
  import opened Convergence

  // ---------------------------------------------------------------- the server's side

  /** The snapshot is the fold of the run's callbacks up to LastEventID, plus at most the one being
      published. */
  ghost predicate Published(job: Job, s: System) {
    && s.pos <= |job.script| && (!s.phase.Idle? ==> s.pos < |job.script|)
    && s.rows == Folded(job, Version(s))
    && |s.ids| == s.pos + (if s.phase.Sent? then 1 else 0)
    && (s.phase.Sent? ==> s.phase.id == s.ids[s.pos])
    && s.last == (if s.pos == 0 then job.last else s.ids[s.pos - 1])
    && job.last <= s.lastId
    && (forall i :: 0 <= i < |s.ids| ==> job.last < s.ids[i] <= s.lastId)
    && (forall i, j :: 0 <= i < j < |s.ids| ==> s.ids[i] < s.ids[j])
  }

  lemma PublishedKept(job: Job, s: System, a: Action)
    requires Published(job, s)
    ensures Published(job, Apply(job, s, a))
  {
    hide Effect, Handled, Reconciled;
  }

  /** The events under way are in order, those of the run are its broadcasts, and those from before the run
      come before them. */
  ghost predicate Queued(job: Job, s: System)
    requires |s.ids| <= |job.script|
  {
    && s.app.lastEventId <= s.streamLast <= s.lastId
    && (forall i :: 0 <= i < |s.chan| ==> s.chan[i].id <= s.lastId)
    && (forall i, j :: 0 <= i < j < |s.chan| ==> s.chan[i].id < s.chan[j].id)
    && (forall i :: 0 <= i < |s.chan| && s.chan[i].Wire? && s.chan[i].item.Some? ==>
          exists k :: 0 <= k < |s.ids| && s.chan[i] == Wire(s.ids[k], Some(job.script[k])))
    && (forall i :: 0 <= i < |s.chan| && s.chan[i].Earlier? ==>
          s.chan[i].event.NamesOther(job) && forall k :: 0 <= k < |s.ids| ==> s.chan[i].id < s.ids[k])
  }

  /** Every broadcast of the run that was not passed is under way. */
  ghost predicate Retained(job: Job, s: System)
    requires |s.ids| <= |job.script|
  {
    forall k :: 0 <= k < |s.ids| && s.ids[k] > s.streamLast ==> Wire(s.ids[k], Some(job.script[k])) in s.chan
  }

  ghost predicate Buffered(job: Job, s: System)
    requires |s.ids| <= |job.script|
  {
    Queued(job, s) && Retained(job, s)
  }

  /** Every identifier up to a snapshot's is reflected in it, and it reflects at most one callback more. */
  ghost predicate Reflects(ids: seq<nat>, version: nat, last: nat) {
    && version <= |ids| + 1
    && (forall k :: 0 <= k < |ids| && k + 1 < version ==> ids[k] <= last)
    && (forall k :: 0 <= k < |ids| && ids[k] <= last ==> k < version)
  }

  ghost predicate InFlight(job: Job, s: System) {
    forall i :: 0 <= i < |s.flying| ==>
      var f := s.flying[i];
      && f.version <= Version(s) && f.version <= |job.script|
      && f.snapshot == Snapshot(job.runId, Folded(job, f.version), f.snapshot.last)
      && f.snapshot.last <= s.lastId && Reflects(s.ids, f.version, f.snapshot.last)
  }

  lemma QueuedByServer(job: Job, s: System, a: Action)
    requires Published(job, s) && Queued(job, s) && Published(job, Apply(job, s, a))
    requires !a.DeliverSnapshot? && !a.DeliverEvent?
    ensures Queued(job, Apply(job, s, a))
  {
    hide Effect, Folded;
    var t := Apply(job, s, a);
    assert forall k :: 0 <= k < |s.ids| ==> t.ids[k] == s.ids[k];
  }

  lemma RetainedByServer(job: Job, s: System, a: Action)
    requires Published(job, s) && Retained(job, s) && Published(job, Apply(job, s, a))
    requires !a.DeliverSnapshot? && !a.DeliverEvent?
    ensures Retained(job, Apply(job, s, a))
  {
    hide Effect, Folded;
    var t := Apply(job, s, a);
    assert forall w :: w in s.chan ==> w in t.chan;
    if a.Broadcast? && s.phase.Mutated? {
      assert t.chan[|s.chan|] == Wire(t.ids[|s.ids|], Some(job.script[s.pos]));
      assert forall k :: 0 <= k < |s.ids| ==> t.ids[k] == s.ids[k];
    }
  }

  lemma BufferedByServer(job: Job, s: System, a: Action)
    requires Published(job, s) && Buffered(job, s) && Published(job, Apply(job, s, a))
    requires !a.DeliverSnapshot? && !a.DeliverEvent?
    ensures Buffered(job, Apply(job, s, a))
  {
    hide Queued, Retained, Apply, Published;
    QueuedByServer(job, s, a);
    RetainedByServer(job, s, a);
    PublishedSizes(job, Apply(job, s, a));
  }

  lemma QueuedByClient(job: Job, s: System, a: Action)
    requires Published(job, s) && Queued(job, s) && InFlight(job, s)
    requires a.DeliverSnapshot? || a.DeliverEvent?
    ensures Queued(job, Apply(job, s, a))
  {
    hide Effect, Folded, Merge, Put, InitialRows, Reflects, Handled;
    if a.DeliverEvent? && s.chan != [] {
      HandledLast(job, s.app, s.chan[0], a.codes, a.running);
    }
  }

  lemma RetainedByClient(job: Job, s: System, a: Action)
    requires Published(job, s) && Buffered(job, s) && (a.DeliverSnapshot? || a.DeliverEvent?)
    ensures Retained(job, Apply(job, s, a))
  {
    hide Effect, Folded, Reconciled, Handled;
    var t := Apply(job, s, a);
    if a.DeliverEvent? && s.chan != [] {
      forall k | 0 <= k < |t.ids| && t.ids[k] > t.streamLast ensures Wire(t.ids[k], Some(job.script[k])) in t.chan {
        var w := Wire(s.ids[k], Some(job.script[k]));
        assert w in s.chan && w != s.chan[0];
      }
    }
  }

  lemma BufferedByClient(job: Job, s: System, a: Action)
    requires Published(job, s) && Buffered(job, s) && InFlight(job, s)
    requires a.DeliverSnapshot? || a.DeliverEvent?
    ensures Buffered(job, Apply(job, s, a))
  {
    hide Queued, Retained, Apply, Published, InFlight;
    PublishedKept(job, s, a);
    PublishedSizes(job, Apply(job, s, a));
    QueuedByClient(job, s, a);
    RetainedByClient(job, s, a);
  }

  lemma HandledLast(job: Job, a: App, w: Wire, codes: seq<string>, running: bool)
    ensures Handled(job, a, w, codes, running).lastEventId == Max(a.lastEventId, w.id)
  {
  }

  lemma InFlightKept(job: Job, s: System, a: Action)
    requires Published(job, s) && InFlight(job, s)
    ensures InFlight(job, Apply(job, s, a))
  {
    hide Effect, Folded, Handled, Reconciled;
  }

  // ---------------------------------------------------------------- the browser's side, code by code

  /** What is known of the browser's entry v of code c after `version` callbacks, when it has passed
      every identifier up to `seen`. */
  ghost predicate EntryOk(job: Job, ids: seq<nat>, version: nat, seen: int, c: string, v: Option<Entry>)
    requires version <= |job.script| && |ids| <= |job.script|
  {
    && (v.Some? && v.value.status.IsTerminal() ==> exists k :: 0 <= k < version && job.script[k] == Finish(c, v.value))
    && (v.Some? && !v.value.status.IsTerminal() ==> !v.value.passed && v.value.score == 0 && v.value.output == "")
    && (v.Some? && v.value.status.Running? ==>
          exists k :: 0 <= k < version && job.script[k].Start? && job.script[k].code == c)
    && (forall k :: 0 <= k < |ids| && ids[k] <= seen && job.script[k].About(c) ==> v.Some?)
    && (forall k :: 0 <= k < |ids| && ids[k] <= seen && job.script[k].Finish? && job.script[k].code == c ==>
          v == Some(job.script[k].entry))
    && (v.Some? && v.value.status.IsTerminal() ==>
          forall j :: 0 <= j < |job.script| && job.script[j].Start? && job.script[j].code == c ==>
            j < |ids| && ids[j] <= seen)
    && (v.Some? && v.value.status.IsTerminal() ==> 0 < |ids| && ids[0] <= seen)
  }

  lemma EntryGrows(job: Job, ids: seq<nat>, version: nat, seen: int, more: seq<nat>, newer: nat, c: string,
                   v: Option<Entry>)
    requires |ids| <= |more| <= |job.script| && version <= newer <= |job.script|
    requires EntryOk(job, ids, version, seen, c, v)
    requires (forall k :: 0 <= k < |ids| ==> more[k] == ids[k]) && (forall k :: |ids| <= k < |more| ==> more[k] > seen)
    ensures EntryOk(job, more, newer, seen, c, v)
  {
  }

  /** A snapshot brings the entry of its version, unless the browser has a finished one already. */
  lemma EntryFromSnapshot(job: Job, ids: seq<nat>, version: nat, seen: int, c: string, v: Option<Entry>, m: nat,
                          last: nat)
    requires Ready(job) && |ids| <= |job.script| && m <= version <= |job.script|
    requires EntryOk(job, ids, version, seen, c, v) && Explained(job, m, c) && Reflects(ids, m, last)
    ensures EntryOk(job, ids, version, if last > seen then last else seen, c, MergeLookup(v, At(job, m, c)))
    ensures v.Some? && v.value.status.IsTerminal() ==> MergeLookup(v, At(job, m, c)) == v
  {
    hide At, Lookup;
    var inc := At(job, m, c);
    if v.Some? && v.value.status.IsTerminal() {
      var k :| 0 <= k < version && job.script[k] == Finish(c, v.value);
      if inc.Some? && inc.value.status.IsTerminal() {
        var k' :| 0 <= k' < m && job.script[k'] == Finish(c, inc.value);
        assert k == k';
      }
    } else {
      assert inc.Some? ==> MergeLookup(v, inc) == inc;
      if inc.Some? && inc.value.status.IsTerminal() {
        var k :| 0 <= k < m && job.script[k] == Finish(c, inc.value);
        FinishIsLast(job, c, k);
      }
    }
  }

  lemma FinishIsLast(job: Job, c: string, k: nat)
    requires Legal(job.script) && k < |job.script| && job.script[k].Finish? && job.script[k].code == c
    ensures forall j :: 0 <= j < |job.script| && job.script[j].About(c) ==> j <= k
    ensures forall j :: 0 <= j < |job.script| && job.script[j].Finish? && job.script[j].code == c ==> j == k
  {
  }

  /** A table the browser makes up for the run shows nothing but pending entries. */
  lemma {:induction false} InitialLookup(codes: seq<string>, c: string)
    ensures var v := Lookup(InitialRows(codes), c); v.Some? ==> v.value == Entry(Pending, false, 0, 0, 0, "")
  {
    if codes != [] {
      InitialLookup(codes[..|codes| - 1], c);
      LookupAppend(InitialRows(codes[..|codes| - 1]), Row(codes[|codes| - 1], Entry(Pending, false, 0, 0, 0, "")), c);
    }
  }

  /** The entry after the event of callback k, the next one of the run. */
  function EntryAfter(item: Item, c: string, v: Option<Entry>): Option<Entry> {
    if !item.About(c) then v
    else if item.Start? then Some(Entry(Running, false, 0, item.minScore, 0, ""))
    else Some(item.entry)
  }

  lemma EntryFromEvent(job: Job, ids: seq<nat>, version: nat, seen: int, k: nat, c: string, v: Option<Entry>)
    requires Ready(job) && k < |ids| <= |job.script| && k < version <= |job.script|
    requires ids[k] > seen && EntryOk(job, ids, version, seen, c, v)
    requires forall i, j :: 0 <= i < j < |ids| ==> ids[i] < ids[j]
    requires forall j :: 0 <= j < |ids| && ids[j] < ids[k] ==> ids[j] <= seen
    ensures EntryOk(job, ids, version, ids[k], c, EntryAfter(job.script[k], c, v))
    ensures v.Some? && v.value.status.IsTerminal() ==> EntryAfter(job.script[k], c, v) == v
  {
    var item := job.script[k];
    if item.About(c) {
      if v.Some? && v.value.status.IsTerminal() {
        var f :| 0 <= f < version && job.script[f] == Finish(c, v.value);
        FinishIsLast(job, c, f);
        assert item.Finish?;
      }
      if item.Finish? {
        assert item == Finish(c, item.entry);
        FinishIsLast(job, c, k);
      }
    }
  }

  lemma EntryFromForeign(job: Job, ids: seq<nat>, version: nat, seen: int, id: int, c: string, v: Option<Entry>)
    requires version <= |job.script| && |ids| <= |job.script| && id > seen
    requires EntryOk(job, ids, version, seen, c, v)
    requires forall j :: 0 <= j < |ids| && ids[j] <= id ==> ids[j] <= seen
    ensures EntryOk(job, ids, version, id, c, v)
  {
  }

  lemma EntryInitial(job: Job, ids: seq<nat>, version: nat, seen: int, c: string, codes: seq<string>)
    requires version <= |job.script| && |ids| <= |job.script|
    requires EntryOk(job, ids, version, seen, c, None)
    ensures EntryOk(job, ids, version, seen, c, Lookup(InitialRows(codes), c))
  {
    hide InitialRows, Lookup;
    InitialLookup(codes, c);
  }

  ghost predicate ClientOk(job: Job, s: System)
    requires Version(s) <= |job.script| && |s.ids| <= |job.script|
  {
    forall c :: EntryOk(job, s.ids, Version(s), s.streamLast, c, ClientEntry(job, s, c))
  }

  ghost predicate Sound(job: Job, s: System) {
    Published(job, s) && Buffered(job, s) && InFlight(job, s) && ClientOk(job, s)
  }

  lemma ClientByServer(job: Job, s: System, a: Action)
    requires Published(job, s) && Buffered(job, s) && ClientOk(job, s) && Published(job, Apply(job, s, a))
    requires !a.DeliverSnapshot? && !a.DeliverEvent?
    ensures ClientOk(job, Apply(job, s, a))
    ensures forall c :: ClientEntry(job, Apply(job, s, a), c) == ClientEntry(job, s, c)
  {
    hide EntryOk, Lookup, Effect, Folded;
    var t := Apply(job, s, a);
    forall c ensures EntryOk(job, t.ids, Version(t), t.streamLast, c, ClientEntry(job, t, c)) {
      assert EntryOk(job, s.ids, Version(s), s.streamLast, c, ClientEntry(job, s, c));
      EntryGrows(job, s.ids, Version(s), s.streamLast, t.ids, Version(t), c, ClientEntry(job, s, c));
    }
  }

  /** What a delivered snapshot does to one entry. */
  lemma SnapshotOnEntry(job: Job, s: System, k: nat, c: string)
    requires Ready(job) && Published(job, s) && InFlight(job, s) && k < |s.flying|
    ensures s.flying[k].version <= |job.script|
    ensures ClientEntry(job, Apply(job, s, DeliverSnapshot(k)), c)
         == MergeLookup(ClientEntry(job, s, c), At(job, s.flying[k].version, c))
  {
    hide Lookup, Merge, MergeLookup, Published;
    var f := s.flying[k];
    DistinctFolded(job, f.version);
    MergeNothing(At(job, f.version, c));
    if ClientRows(job, s).Some? {
      LookupMerge(ClientRows(job, s).value, f.snapshot.rows, c);
    }
  }

  lemma MergeNothing(e: Option<Entry>)
    ensures MergeLookup(None, e) == e
  {
  }

  lemma ClientBySnapshot(job: Job, s: System, k: nat, c: string)
    requires Ready(job) && Sound(job, s) && k < |s.flying|
    ensures var t := Apply(job, s, DeliverSnapshot(k));
            && Version(t) == Version(s) && t.ids == s.ids
            && EntryOk(job, t.ids, Version(t), t.streamLast, c, ClientEntry(job, t, c))
    ensures var v := ClientEntry(job, s, c);
            v.Some? && v.value.status.IsTerminal() ==> ClientEntry(job, Apply(job, s, DeliverSnapshot(k)), c) == v
  {
    hide EntryOk, Lookup, MergeLookup, Effect, Folded, At, Explained, Ready, ClientEntry, Merge, Reflects;
    var f := s.flying[k];
    SnapshotOnEntry(job, s, k, c);
    AlwaysExplained(job, f.version, c);
    EntryFromSnapshot(job, s.ids, Version(s), s.streamLast, c, ClientEntry(job, s, c), f.version, f.snapshot.last);
  }

  /** What a delivered event does to one entry. */
  lemma EventOnEntry(job: Job, s: System, codes: seq<string>, running: bool, c: string)
    requires s.chan != [] && s.chan[0].id > s.streamLast && s.chan[0].Wire?
    ensures var t := Apply(job, s, DeliverEvent(codes, running));
            var w, v, v' := s.chan[0], ClientEntry(job, s, c), ClientEntry(job, t, c);
            var base := if ClientRows(job, s).None? && ClientRows(job, t).Some? then Lookup(InitialRows(codes), c)
                        else v;
            v' == if w.item.None? then base else EntryAfter(w.item.value, c, base)
  {
    hide Lookup, InitialRows, Put;
    var w := s.chan[0];
    var rows := if ClientRows(job, s).None? then InitialRows(codes) else ClientRows(job, s).value;
    if w.item.Some? && w.item.value.Start? {
      LookupPut(rows, w.item.value.code, Entry(Running, false, 0, w.item.value.minScore, 0, ""), c);
    } else if w.item.Some? && w.item.value.Finish? {
      LookupPut(rows, w.item.value.code, w.item.value.entry, c);
    }
  }

  /** An event from before the run leaves the entry alone or takes the run off the display. */
  lemma EarlierOnEntry(job: Job, s: System, codes: seq<string>, running: bool, c: string)
    requires s.chan != [] && s.chan[0].id > s.streamLast && s.chan[0].Earlier? && s.chan[0].event.NamesOther(job)
    ensures var v' := ClientEntry(job, Apply(job, s, DeliverEvent(codes, running)), c);
            v' == ClientEntry(job, s, c) || v' == None
  {
    hide Lookup, InitialRows, Put;
  }

  /** It arrives only before anything of the run was passed, so before anything shows as completed. */
  lemma EntryFromEarlier(job: Job, ids: seq<nat>, version: nat, seen: int, id: int, c: string, v: Option<Entry>)
    requires version <= |job.script| && |ids| <= |job.script| && id > seen
    requires EntryOk(job, ids, version, seen, c, v) && forall k :: 0 <= k < |ids| ==> id < ids[k]
    ensures EntryOk(job, ids, version, id, c, v) && EntryOk(job, ids, version, id, c, None)
    ensures v.Some? ==> !v.value.status.IsTerminal()
  {
  }

  lemma ClientByEvent(job: Job, s: System, codes: seq<string>, running: bool, c: string)
    requires Ready(job) && Sound(job, s) && s.chan != [] && s.chan[0].id > s.streamLast
    ensures var t := Apply(job, s, DeliverEvent(codes, running));
            && Version(t) == Version(s) && t.ids == s.ids
            && EntryOk(job, t.ids, Version(t), t.streamLast, c, ClientEntry(job, t, c))
    ensures var v := ClientEntry(job, s, c);
            v.Some? && v.value.status.IsTerminal() ==>
              ClientEntry(job, Apply(job, s, DeliverEvent(codes, running)), c) == v
  {
    hide EntryOk, Lookup, Effect, Folded, Ready, InitialRows, ClientEntry, InFlight, EntryAfter, Put, Handled;
    var t := Apply(job, s, DeliverEvent(codes, running));
    var w, v := s.chan[0], ClientEntry(job, s, c);
    assert EntryOk(job, s.ids, Version(s), s.streamLast, c, v);
    if w.Earlier? {
      EarlierOnEntry(job, s, codes, running, c);
      EntryFromEarlier(job, s.ids, Version(s), s.streamLast, w.id, c, v);
      return;
    }
    EventOnEntry(job, s, codes, running, c);
    NothingSkipped(job, s);
    var base := v;
    if ClientRows(job, s).None? && ClientRows(job, t).Some? {
      base := Lookup(InitialRows(codes), c);
      NoRowsNoEntry(job, s, c);
      EntryInitial(job, s.ids, Version(s), s.streamLast, c, codes);
    }
    if w.item.None? {
      EntryFromForeign(job, s.ids, Version(s), s.streamLast, w.id, c, base);
    } else {
      var k := WhichCallback(job, s);
      EntryFromEvent(job, s.ids, Version(s), s.streamLast, k, c, base);
    }
  }

  lemma NoRowsNoEntry(job: Job, s: System, c: string)
    requires ClientRows(job, s).None?
    ensures ClientEntry(job, s, c) == None
  {
  }

  /** The head of the buffer is the next event: nothing of the run lies between it and what was passed. */
  lemma NothingSkipped(job: Job, s: System)
    requires Published(job, s) && Buffered(job, s) && s.chan != []
    ensures forall j :: 0 <= j < |s.ids| && s.ids[j] < s.chan[0].id ==> s.ids[j] <= s.streamLast
    ensures s.chan[0].Earlier? || s.chan[0].item.None? ==>
              forall j :: 0 <= j < |s.ids| ==> s.ids[j] != s.chan[0].id || s.ids[j] <= s.streamLast
  {
    hide Folded;
    forall j | 0 <= j < |s.ids| && s.ids[j] > s.streamLast ensures s.ids[j] >= s.chan[0].id {
      var w := Wire(s.ids[j], Some(job.script[j]));
      assert w in s.chan;
      var i :| 0 <= i < |s.chan| && s.chan[i] == w;
    }
    forall j | 0 <= j < |s.ids| && s.ids[j] > s.streamLast && s.ids[j] == s.chan[0].id
      ensures s.chan[0].Wire? && s.chan[0].item.Some?
    {
      var w := Wire(s.ids[j], Some(job.script[j]));
      assert w in s.chan;
      var i :| 0 <= i < |s.chan| && s.chan[i] == w;
      assert i == 0;
    }
  }

  lemma WhichCallback(job: Job, s: System) returns (k: nat)
    requires Published(job, s) && Buffered(job, s) && s.chan != [] && s.chan[0].Wire? && s.chan[0].item.Some?
    ensures k < |s.ids| && s.chan[0] == Wire(s.ids[k], Some(job.script[k])) && k < Version(s)
    ensures forall i, j :: 0 <= i < j < |s.ids| ==> s.ids[i] < s.ids[j]
  {
    hide Folded;
    k :| 0 <= k < |s.ids| && s.chan[0] == Wire(s.ids[k], Some(job.script[k]));
  }

  lemma SoundKept(job: Job, s: System, a: Action)
    requires Ready(job) && Sound(job, s)
    ensures Sound(job, Apply(job, s, a))
  {
    hide Published, Buffered, InFlight, EntryOk, Apply, Ready, ClientEntry;
    var t := Apply(job, s, a);
    PublishedKept(job, s, a);
    InFlightKept(job, s, a);
    if a.DeliverSnapshot? || a.DeliverEvent? {
      BufferedByClient(job, s, a);
      ClientByDelivery(job, s, a);
    } else {
      BufferedByServer(job, s, a);
      PublishedSizes(job, s);
      ClientByServer(job, s, a);
    }
  }

  lemma PublishedSizes(job: Job, s: System)
    requires Published(job, s)
    ensures Version(s) <= |job.script| && |s.ids| <= |job.script|
  {
  }

  lemma ClientByDelivery(job: Job, s: System, a: Action)
    requires Ready(job) && Sound(job, s) && (a.DeliverSnapshot? || a.DeliverEvent?)
    ensures var t := Apply(job, s, a);
            && Version(t) == Version(s) && t.ids == s.ids && Version(t) <= |job.script| && |t.ids| <= |job.script|
            && ClientOk(job, t)
    ensures forall c :: var v := ClientEntry(job, s, c);
              v.Some? && v.value.status.IsTerminal() ==> ClientEntry(job, Apply(job, s, a), c) == v
  {
    hide Published, Buffered, InFlight, EntryOk, Ready, Handled, Reconciled, Lookup;
    PublishedSizes(job, s);
    var t := Apply(job, s, a);
    forall c
      ensures EntryOk(job, t.ids, Version(t), t.streamLast, c, ClientEntry(job, t, c))
      ensures var v := ClientEntry(job, s, c);
              v.Some? && v.value.status.IsTerminal() ==> ClientEntry(job, t, c) == v
    {
      assert EntryOk(job, s.ids, Version(s), s.streamLast, c, ClientEntry(job, s, c));
      if a.DeliverSnapshot? && a.k < |s.flying| {
        ClientBySnapshot(job, s, a.k, c);
      } else if a.DeliverEvent? && s.chan != [] && s.chan[0].id > s.streamLast {
        ClientByEvent(job, s, a.codes, a.running, c);
      }
    }
  }

  lemma SoundAtStart(job: Job, s: System)
    requires Begins(job, s)
    ensures Sound(job, s)
  {
  }

  lemma {:induction false} AlwaysSound(job: Job, start: System, actions: seq<Action>)
    requires Ready(job) && Begins(job, start)
    ensures Sound(job, After(job, start, actions))
  {
    hide Sound, Apply, Ready, Begins;
    if actions == [] {
      SoundAtStart(job, start);
    } else {
      AlwaysSound(job, start, actions[..|actions| - 1]);
      SoundKept(job, After(job, start, actions[..|actions| - 1]), actions[|actions| - 1]);
    }
  }

  // ---------------------------------------------------------------- the theorems

  /** The key invariant: at every moment the snapshot's table is the fold of the callbacks whose events
      have identifiers up to LastEventID, plus at most one. */
  lemma SnapshotIsFold(job: Job, start: System, actions: seq<Action>)
    requires Ready(job) && Begins(job, start)
    ensures var s := After(job, start, actions);
            && Version(s) <= |job.script| && s.rows == Folded(job, Version(s)) && Reflects(s.ids, Version(s), s.last)
  {
    hide Buffered, InFlight, ClientOk, Folded, After, Ready, Begins;
    AlwaysSound(job, start, actions);
  }

  /** A completed assertion never leaves its terminal entry on the browser. */
  lemma CompletedStays(job: Job, start: System, actions: seq<Action>, a: Action, c: string)
    requires Ready(job) && Begins(job, start)
    requires var v := ClientEntry(job, After(job, start, actions), c); v.Some? && v.value.status.IsTerminal()
    ensures ClientEntry(job, After(job, start, actions + [a]), c) == ClientEntry(job, After(job, start, actions), c)
  {
    hide Published, Buffered, InFlight, EntryOk, Ready, Apply, ClientEntry, Begins;
    AlwaysSound(job, start, actions);
    var s := After(job, start, actions);
    assert (actions + [a])[..|actions + [a]| - 1] == actions;
    if a.DeliverSnapshot? || a.DeliverEvent? {
      ClientByDelivery(job, s, a);
    } else {
      PublishedKept(job, s, a);
      PublishedSizes(job, s);
      ClientByServer(job, s, a);
    }
  }

  /** Nothing is between its mutation and its broadcast, and every event has arrived. */
  predicate Delivered(s: System) { !s.phase.Mutated? && s.chan == [] }

  lemma DeliveredMeansSeen(job: Job, s: System)
    requires Published(job, s) && Buffered(job, s) && Delivered(s)
    ensures |s.ids| == Version(s) <= |job.script| && forall k :: 0 <= k < |s.ids| ==> s.ids[k] <= s.streamLast
  {
  }

  /** Once all events are delivered, an assertion completed on the server has the server's entry on the
      browser, whatever snapshots were applied and whatever is still in flight. */
  lemma CompletedConverges(job: Job, start: System, actions: seq<Action>, c: string)
    requires Ready(job) && Begins(job, start) && Delivered(After(job, start, actions))
    requires var e := Lookup(After(job, start, actions).rows, c); e.Some? && e.value.status.IsTerminal()
    ensures var s := After(job, start, actions); ClientEntry(job, s, c) == Lookup(s.rows, c)
  {
    hide InFlight, Lookup, Folded, After, ClientEntry, Begins;
    AlwaysSound(job, start, actions);
    var s := After(job, start, actions);
    DeliveredMeansSeen(job, s);
    AlwaysExplained(job, Version(s), c);
    assert EntryOk(job, s.ids, Version(s), s.streamLast, c, ClientEntry(job, s, c));
    var e := Lookup(s.rows, c);
    assert e == At(job, Version(s), c);
    var k :| 0 <= k < Version(s) && job.script[k] == Finish(c, e.value);
  }

  /** At the end of a run in which every assertion completed, the tables agree entirely. */
  lemma ConvergedAtTheEnd(job: Job, start: System, actions: seq<Action>, c: string)
    requires Ready(job) && Begins(job, start)
    requires var s := After(job, start, actions); Delivered(s) && Version(s) == |job.script|
    requires Lookup(job.rows, c).Some?
    requires exists k :: 0 <= k < |job.script| && job.script[k].Finish? && job.script[k].code == c
    ensures var s := After(job, start, actions);
            ClientEntry(job, s, c) == Lookup(s.rows, c) && ClientEntry(job, s, c).Some?
            && ClientEntry(job, s, c).value.status.IsTerminal()
  {
    hide InFlight, Lookup, Folded, After, ClientEntry, Begins, Buffered, ClientOk;
    AlwaysSound(job, start, actions);
    var s := After(job, start, actions);
    AlwaysExplained(job, Version(s), c);
    assert At(job, Version(s), c) == Lookup(s.rows, c);
    CompletedConverges(job, start, actions, c);
  }
}
