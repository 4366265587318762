/** One run, published in three steps per observer callback, and one browser that receives its events
    in order and fetches snapshots at arbitrary times. One action is one critical section, one delivery
    or one fetch. */
module Convergence {
  import opened Text
  import opened Executor
  import opened ExecutionSnapshots
  import opened AppStates

  // ---------------------------------------------------------------- the run

  /** An observer callback: the start of the run, whose event is a state_change, one about an assertion,
      or one that leaves the table alone. */
  datatype Item = Opening | Note | Start(code: string, minScore: int) | Finish(code: string, entry: Entry)
  {
    predicate About(c: string) { (Start? || Finish?) && code == c }
  }

  /** Nothing about an assertion follows its completion, a completion has a terminal status, and a run
      does not begin with one. */
  ghost predicate Legal(script: seq<Item>) {
    && (script != [] ==> !script[0].Finish?)
    && (forall i, j :: 0 <= i < j < |script| && script[i].Finish? ==> !script[j].About(script[i].code))
    && (forall i :: 0 <= i < |script| && script[i].Finish? ==> script[i].entry.status.IsTerminal())
  }

  /** `rows` is the table the run starts with, `last` the LastEventID left by earlier runs. */
  datatype Job = Job(runId: string, script: seq<Item>, rows: seq<Row>, last: nat)

  predicate IsFresh(e: Entry) { e.status.Pending? && !e.passed && e.score == 0 && e.durationMs == 0 && e.output == "" }

  /** Every assertion has a row of its own, reset for the run. */
  ghost predicate Ready(job: Job) {
    && Legal(job.script) && DistinctRows(job.rows)
    && (forall i :: 0 <= i < |job.rows| ==> IsFresh(job.rows[i].entry))
    && (forall i, c :: 0 <= i < |job.script| && job.script[i].About(c) ==> Lookup(job.rows, c).Some?)
  }

  function Effect(rows: seq<Row>, item: Item): seq<Row> {
    match item
    case Opening | Note => rows
    case Start(code, _) => Started(rows, code)
    case Finish(code, e) => Completed(rows, code, e)
  }

  /** The table after the first n callbacks. */
  function Folded(job: Job, n: nat): seq<Row>
    requires n <= |job.script|
  {
    if n == 0 then job.rows else Effect(Folded(job, n - 1), job.script[n - 1])
  }

  // ---------------------------------------------------------------- the system

  /** Where the observer stands: before the mutation, before the broadcast, before recording its id. */
  datatype Phase = Idle | Mutated | Sent(id: nat)

  /** An event from before the run that names another run, or none. */
  datatype EarlierEvent =
    | EarlierState(runId: string, kind: StatusKind)
    | EarlierProgress(runId: string, code: string, entry: Entry)
    | EarlierNote
  {
    predicate NamesOther(job: Job) {
      match this
      case EarlierState(id, kind) => id != job.runId || !kind.RunningKind?
      case EarlierProgress(id, _, _) => id != job.runId
      case EarlierNote => true
    }
  }

  /** A broadcast event: one of the run's, another goroutine's state_change, or one from before the run. */
  datatype Wire = Wire(id: nat, item: Option<Item>) | Earlier(id: nat, event: EarlierEvent)

  /** A fetched snapshot under way; `version` is the number of callbacks it reflects. */
  datatype Fetched = Fetched(snapshot: Snapshot, version: nat)

  /** `ids` are the identifiers of the run's broadcasts so far, `chan` the events not yet received. */
  datatype System = System(
    rows: seq<Row>, last: nat, pos: nat, phase: Phase, ids: seq<nat>, lastId: nat,
    chan: seq<Wire>, flying: seq<Fetched>, app: App, streamLast: int)

  datatype Action =
    | Mutate | Broadcast | Record | Foreign | Fetch
    | DeliverSnapshot(k: nat)
    | DeliverEvent(codes: seq<string>, running: bool)

  /** The browser displays nothing of this run yet and has passed no event beyond the broadcast ones;
      events from before the run may still be under way. */
  predicate Begins(job: Job, s: System) {
    && s.rows == job.rows && s.last == job.last && s.pos == 0 && s.phase == Idle && s.ids == []
    && s.flying == [] && job.last <= s.lastId
    && (forall i :: 0 <= i < |s.chan| ==> s.chan[i].id <= s.lastId)
    && (forall i :: 0 <= i < |s.chan| ==>
          if s.chan[i].Earlier? then s.chan[i].event.NamesOther(job) else s.chan[i].item.None?)
    && (forall i, j :: 0 <= i < j < |s.chan| ==> s.chan[i].id < s.chan[j].id)
    && s.app.lastEventId <= s.streamLast <= s.lastId
    && (s.app.execution.Some? ==> s.app.execution.value.runId != job.runId)
  }

  /** The number of callbacks the table reflects. */
  function Version(s: System): nat { if s.phase.Idle? then s.pos else s.pos + 1 }

  function ApplyServer(job: Job, s: System, a: Action): System
    requires a.Mutate? || a.Broadcast? || a.Record? || a.Foreign? || a.Fetch?
  {
    match a
    case Mutate =>
      if !s.phase.Idle? || s.pos >= |job.script| then s
      else s.(rows := Effect(s.rows, job.script[s.pos]), phase := Mutated)
    case Broadcast =>
      if !s.phase.Mutated? || s.pos >= |job.script| then s
      else
        var id := s.lastId + 1;
        s.(lastId := id, ids := s.ids + [id], chan := s.chan + [Wire(id, Some(job.script[s.pos]))], phase := Sent(id))
    case Record =>
      if !s.phase.Sent? then s else s.(last := s.phase.id, pos := s.pos + 1, phase := Idle)
    case Foreign => s.(lastId := s.lastId + 1, chan := s.chan + [Wire(s.lastId + 1, None)])
    case Fetch => s.(flying := s.flying + [Fetched(Snapshot(job.runId, s.rows, s.last), Version(s))])
  }

  function HandledEarlier(a: App, w: Wire, codes: seq<string>): App
    requires w.Earlier?
  {
    match w.event
    case EarlierState(id, kind) => StateChanged(a, w.id, id, kind, codes)
    case EarlierProgress(id, code, e) => Progressed(a, w.id, id, code, e, codes)
    case EarlierNote => a.(lastEventId := Max(a.lastEventId, w.id))
  }

  /** The handlers of AppState for an event the stream lets through; a state_change during the run names
      this run or none. */
  function Handled(job: Job, a: App, w: Wire, codes: seq<string>, running: bool): App {
    if w.Earlier? then HandledEarlier(a, w, codes)
    else if w.item.None? then StateChanged(a, w.id, job.runId, if running then RunningKind else OtherKind, codes)
    else
      match w.item.value
      case Opening => StateChanged(a, w.id, job.runId, RunningKind, codes)
      case Note => a.(lastEventId := Max(a.lastEventId, w.id))
      case Start(code, min) => Progressed(a, w.id, job.runId, code, Entry(Running, false, 0, min, 0, ""), codes)
      case Finish(code, e) => Progressed(a, w.id, job.runId, code, e, codes)
  }

  function ApplyClient(job: Job, s: System, a: Action): System
    requires a.DeliverSnapshot? || a.DeliverEvent?
  {
    match a
    case DeliverSnapshot(k) =>
      if k >= |s.flying| then s
      else
        var snap := s.flying[k].snapshot;
        s.(flying := s.flying[..k] + s.flying[k + 1..], app := Reconciled(s.app, snap),
           streamLast := if snap.last > s.app.lastEventId then Max(s.streamLast, snap.last) else s.streamLast)
    case DeliverEvent(codes, running) =>
      if s.chan == [] then s
      else
        var w := s.chan[0];
        var t := s.(chan := s.chan[1..]);
        if w.id <= s.streamLast then t
        else t.(streamLast := w.id, app := Handled(job, s.app, w, codes, running))
  }

  function Apply(job: Job, s: System, a: Action): System {
    if a.DeliverSnapshot? || a.DeliverEvent? then ApplyClient(job, s, a) else ApplyServer(job, s, a)
  }

  function After(job: Job, s: System, actions: seq<Action>): System {
    if actions == [] then s else Apply(job, After(job, s, actions[..|actions| - 1]), actions[|actions| - 1])
  }

  /** The browser's table for this run, if it displays the run. */
  function ClientRows(job: Job, s: System): Option<seq<Row>> {
    if s.app.execution.Some? && s.app.execution.value.runId == job.runId then Some(s.app.execution.value.rows) else None
  }

  function ClientEntry(job: Job, s: System, c: string): Option<Entry> {
    var rows := ClientRows(job, s);
    if rows.None? then None else Lookup(rows.value, c)
  }

  // ---------------------------------------------------------------- the table by code

  /** The entry of code c after n callbacks. */
  function At(job: Job, n: nat, c: string): Option<Entry>
    requires n <= |job.script|
  {
    Lookup(Folded(job, n), c)
  }

  function EffectOn(e: Option<Entry>, item: Item, c: string): Option<Entry> {
    if e.None? || !item.About(c) then e
    else if item.Start? then Some(e.value.(status := Running))
    else Some(item.entry)
  }

  lemma AtStep(job: Job, n: nat, c: string)
    requires n < |job.script|
    ensures At(job, n + 1, c) == EffectOn(At(job, n, c), job.script[n], c)
  {
    var rows := Folded(job, n);
    match job.script[n]
    case Opening | Note =>
    case Start(code, _) =>
      var e := Lookup(rows, code);
      if e.Some? { LookupSet(rows, code, e.value.(status := Running), c); }
    case Finish(code, e) => LookupSet(rows, code, e, c);
  }

  /** Before its first callback an entry is fresh; after its completion it is what the completion said;
      in between it is running and otherwise fresh. */
  ghost predicate Explained(job: Job, n: nat, c: string)
    requires n <= |job.script|
  {
    var e := At(job, n, c);
    && (e.Some? <==> Lookup(job.rows, c).Some?)
    && (forall k :: 0 <= k < n && job.script[k].Finish? && job.script[k].code == c ==> e == Some(job.script[k].entry))
    && (e.Some? && e.value.status.IsTerminal() ==> exists k :: 0 <= k < n && job.script[k] == Finish(c, e.value))
    && (e.Some? && !e.value.status.IsTerminal() ==>
          && !e.value.passed && e.value.score == 0 && e.value.durationMs == 0 && e.value.output == ""
          && (e.value.status.Running? <==> exists k :: 0 <= k < n && job.script[k].Start? && job.script[k].code == c))
  }

  lemma {:induction false} FreshLookup(rows: seq<Row>, c: string)
    requires forall i :: 0 <= i < |rows| ==> IsFresh(rows[i].entry)
    ensures Lookup(rows, c).Some? ==> IsFresh(Lookup(rows, c).value)
  {
    if rows != [] {
      FreshLookup(rows[1..], c);
    }
  }

  lemma {:induction false} AlwaysExplained(job: Job, n: nat, c: string)
    requires Ready(job) && n <= |job.script|
    ensures Explained(job, n, c)
  {
    hide Folded, Lookup, At;
    if n == 0 {
      ExplainedAtStart(job, c);
    } else {
      AlwaysExplained(job, n - 1, c);
      AtStep(job, n - 1, c);
      var item := job.script[n - 1];
      if item.Start? && item.code == c {
        assert job.script[n - 1].code == c;
      } else if item.Finish? && item.code == c {
        assert job.script[n - 1] == Finish(c, item.entry);
      }
    }
  }

  lemma ExplainedAtStart(job: Job, c: string)
    requires Ready(job)
    ensures Explained(job, 0, c)
  {
    FreshLookup(job.rows, c);
  }

  lemma {:induction false} DistinctFolded(job: Job, n: nat)
    requires DistinctRows(job.rows) && n <= |job.script|
    ensures DistinctRows(Folded(job, n)) && |Folded(job, n)| == |job.rows|
    ensures forall i :: 0 <= i < |job.rows| ==> Folded(job, n)[i].code == job.rows[i].code
  {
    if n > 0 {
      DistinctFolded(job, n - 1);
      var rows := Folded(job, n - 1);
      match job.script[n - 1]
      case Opening | Note =>
      case Start(code, _) =>
        var e := Lookup(rows, code);
        if e.Some? { SetCodes(rows, code, e.value.(status := Running)); }
      case Finish(code, e) => SetCodes(rows, code, e);
    }
  }

  lemma {:induction false} SetCodes(rows: seq<Row>, code: string, e: Entry)
    ensures |Set(rows, code, e)| == |rows|
    ensures forall i :: 0 <= i < |rows| ==> Set(rows, code, e)[i].code == rows[i].code
  {
    if rows != [] {
      SetCodes(rows[1..], code, e);
    }
  }
}
