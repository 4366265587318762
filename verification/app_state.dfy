/** webui/src/lib/state/appState.svelte.ts: the browser's copy of the assertion table, fed by progress
    events and by fetched snapshots. */
module AppStates {
  import opened Text
  import opened Executor
  import opened ExecutionSnapshots
  import opened BrowserStream

  datatype Execution = Execution(runId: string, rows: seq<Row>)

  datatype App = App(execution: Option<Execution>, lastEventId: int)

  /** createInitialAssertionsFromPlaybook, for the codes of the playbook the browser has loaded. */
  function InitialRows(codes: seq<string>): seq<Row> {
    if codes == [] then []
    else InitialRows(codes[..|codes| - 1]) + [Row(codes[|codes| - 1], Entry(Pending, false, 0, 0, 0, ""))]
  }

  /** { ...current, ...incoming }: a missing output leaves the current one. */
  function MergeEntry(current: Entry, incoming: Entry): Entry {
    incoming.(output := if incoming.output == "" then current.output else incoming.output)
  }

  function MergeRow(rows: seq<Row>, incoming: Row): seq<Row> {
    var current := Lookup(rows, incoming.code);
    if current.None? then rows + [incoming]
    else if !current.value.status.IsTerminal() || incoming.entry.status.IsTerminal() then
      Set(rows, incoming.code, MergeEntry(current.value, incoming.entry))
    else rows
  }

  function Merge(rows: seq<Row>, incoming: seq<Row>): seq<Row> {
    if incoming == [] then rows
    else MergeRow(Merge(rows, incoming[..|incoming| - 1]), incoming[|incoming| - 1])
  }

  function Max(a: int, b: int): int { if a > b then a else b }

  function Reconciled(a: App, s: Snapshot): App {
    var rows := if a.execution.None? || a.execution.value.runId != s.runId then s.rows
                else Merge(a.execution.value.rows, s.rows);
    App(Some(Execution(s.runId, rows)), Max(a.lastEventId, s.last))
  }

  function Put(rows: seq<Row>, code: string, e: Entry): seq<Row> {
    if Lookup(rows, code).Some? then Set(rows, code, e) else rows + [Row(code, e)]
  }

  /** What matters of a state_change event's status: idle, one of the running ones, or another. */
  datatype StatusKind = IdleKind | RunningKind | OtherKind

  /** Idle clears the display; an active run not on display gets a fresh table. */
  function StateChanged(a: App, id: int, runId: string, kind: StatusKind, codes: seq<string>): App {
    App(match kind
        case IdleKind => None
        case OtherKind => a.execution
        case RunningKind =>
          if a.execution.None? || a.execution.value.runId != runId then Some(Execution(runId, InitialRows(codes)))
          else a.execution,
        Max(a.lastEventId, id))
  }

  function Progressed(a: App, id: int, runId: string, code: string, e: Entry, codes: seq<string>): App {
    var rows := if a.execution.None? || a.execution.value.runId != runId then InitialRows(codes)
                else a.execution.value.rows;
    App(Some(Execution(runId, Put(rows, code, e))), Max(a.lastEventId, id))
  }

  class AppState {
    var execution: Option<Execution>
    var lastEventId: int
    /** The codes of the loaded playbook, in order; empty while none is loaded. */
    var playbookCodes: seq<string>
    const stream: EventStreamManager

    function View(): App
      reads this
    {
      App(execution, lastEventId)
    }

    constructor (s: EventStreamManager)
      ensures View() == App(None, 0) && stream == s && playbookCodes == []
    {
      execution, lastEventId, playbookCodes, stream := None, 0, [], s;
    }

    method CreateInitialAssertions() returns (list: seq<Row>)
      ensures list == InitialRows(playbookCodes)
      ensures |list| == |playbookCodes|
      ensures forall k :: 0 <= k < |list| ==> list[k] == Row(playbookCodes[k], Entry(Pending, false, 0, 0, 0, ""))
    {
      list := [];
      for i := 0 to |playbookCodes|
        invariant list == InitialRows(playbookCodes[..i]) && |list| == i
        invariant forall k :: 0 <= k < i ==> list[k] == Row(playbookCodes[k], Entry(Pending, false, 0, 0, 0, ""))
      {
        assert playbookCodes[..i + 1][..i] == playbookCodes[..i];
        list := list + [Row(playbookCodes[i], Entry(Pending, false, 0, 0, 0, ""))];
      }
      assert playbookCodes[..|playbookCodes|] == playbookCodes;
    }

    method FindIndex(rows: seq<Row>, code: string) returns (i: nat)
      ensures i <= |rows| && (forall k :: 0 <= k < i ==> rows[k].code != code)
      ensures i < |rows| ==> rows[i].code == code
      ensures Lookup(rows, code) == if i < |rows| then Some(rows[i].entry) else None
      ensures forall e :: Set(rows, code, e) == if i < |rows| then rows[i := Row(code, e)] else rows
    {
      i := 0;
      while i < |rows| && rows[i].code != code
        invariant i <= |rows| && forall k :: 0 <= k < i ==> rows[k].code != code
      {
        i := i + 1;
      }
      TableAt(rows, code, i);
    }

    method ReconcileExecution(snapshot: Snapshot)
      modifies this, stream
      ensures View() == Reconciled(old(View()), snapshot)
      ensures stream.View() == if snapshot.last > old(lastEventId) then Jumped(old(stream.View()), snapshot.last)
                               else old(stream.View())
      ensures execution.Some? && execution.value.runId == snapshot.runId
      ensures old(execution).None? || old(execution).value.runId != snapshot.runId ==>
                execution.value.rows == snapshot.rows
      ensures lastEventId == if snapshot.last > old(lastEventId) then snapshot.last else old(lastEventId)
      ensures snapshot.last > old(lastEventId) && snapshot.last > old(stream.lastEventId) ==>
                stream.lastEventId == snapshot.last
    {
      hide Lookup, Set;
      if execution.None? || execution.value.runId != snapshot.runId {
        execution := Some(Execution(snapshot.runId, snapshot.rows));
      } else {
        var rows := execution.value.rows;
        ghost var before := rows;
        for i := 0 to |snapshot.rows|
          invariant unchanged(this) && unchanged(stream)
          invariant rows == Merge(before, snapshot.rows[..i])
        {
          assert snapshot.rows[..i + 1][..i] == snapshot.rows[..i];
          var inc := snapshot.rows[i];
          var idx := FindIndex(rows, inc.code);
          if idx < |rows| {
            var current := rows[idx].entry;
            if !current.status.IsTerminal() || inc.entry.status.IsTerminal() {
              rows := rows[idx := Row(inc.code, MergeEntry(current, inc.entry))];
            }
          } else {
            rows := rows + [inc];
          }
        }
        assert snapshot.rows[..|snapshot.rows|] == snapshot.rows;
        execution := Some(Execution(snapshot.runId, rows));
      }
      if snapshot.last > lastEventId {
        lastEventId := snapshot.last;
        stream.SetLastEventId(snapshot.last);
      }
    }

    method HandleStateChange(id: int, runId: string, kind: StatusKind)
      modifies this
      ensures View() == StateChanged(old(View()), id, runId, kind, if kind.IdleKind? then [] else old(playbookCodes))
      ensures playbookCodes == if kind.IdleKind? then [] else old(playbookCodes)
      ensures lastEventId == if id > old(lastEventId) then id else old(lastEventId)
      ensures kind.IdleKind? ==> execution.None?
      ensures kind.OtherKind? ==> execution == old(execution)
      ensures kind.RunningKind? ==> execution.Some? && execution.value.runId == runId
      ensures kind.RunningKind? && old(execution).Some? && old(execution).value.runId == runId ==>
                execution == old(execution)
    {
      if id > lastEventId {
        lastEventId := id;
      }
      if kind.IdleKind? {
        playbookCodes := [];
        execution := None;
      }
      if kind.RunningKind? {
        if execution.None? || execution.value.runId != runId {
          var rows := CreateInitialAssertions();
          execution := Some(Execution(runId, rows));
        }
      }
    }

    method HandleAssertionProgress(id: int, runId: string, code: string, e: Entry)
      modifies this
      ensures View() == Progressed(old(View()), id, runId, code, e, old(playbookCodes))
      ensures playbookCodes == old(playbookCodes)
      ensures lastEventId == if id > old(lastEventId) then id else old(lastEventId)
      ensures execution.Some? && execution.value.runId == runId && Lookup(execution.value.rows, code) == Some(e)
      ensures old(execution).Some? && old(execution).value.runId == runId ==>
                forall other :: other != code ==>
                  Lookup(execution.value.rows, other) == Lookup(old(execution).value.rows, other)
    {
      if id > lastEventId {
        lastEventId := id;
      }
      if execution.None? || execution.value.runId != runId {
        var rows := CreateInitialAssertions();
        execution := Some(Execution(runId, rows));
      }
      var rows := execution.value.rows;
      var existing := FindIndex(rows, code);
      if existing < |rows| {
        rows := rows[existing := Row(code, e)];
      } else {
        rows := rows + [Row(code, e)];
      }
      ghost var before := execution.value.rows;
      forall other ensures Lookup(rows, other) == if other == code then Some(e) else Lookup(before, other) {
        LookupPut(before, code, e, other);
      }
      execution := Some(Execution(runId, rows));
    }
  }

  // ---------------------------------------------------------------- tables by code

  predicate DistinctRows(rows: seq<Row>) {
    forall i, j :: 0 <= i < j < |rows| ==> rows[i].code != rows[j].code
  }

  lemma LookupPut(rows: seq<Row>, code: string, e: Entry, other: string)
    ensures Lookup(Put(rows, code, e), other) == if other == code then Some(e) else Lookup(rows, other)
  {
    LookupSet(rows, code, e, other);
    LookupAppend(rows, Row(code, e), other);
  }

  /** One code of a merge: unfinished entries are overwritten, finished ones only by finished ones. */
  function MergeLookup(current: Option<Entry>, incoming: Option<Entry>): Option<Entry> {
    if incoming.None? then current
    else if current.None? then incoming
    else if !current.value.status.IsTerminal() || incoming.value.status.IsTerminal() then
      Some(MergeEntry(current.value, incoming.value))
    else current
  }

  lemma LookupMergeRow(rows: seq<Row>, incoming: Row, code: string)
    ensures Lookup(MergeRow(rows, incoming), code)
         == if code == incoming.code then MergeLookup(Lookup(rows, code), Some(incoming.entry)) else Lookup(rows, code)
  {
    var current := Lookup(rows, incoming.code);
    LookupAppend(rows, incoming, code);
    if current.Some? {
      LookupSet(rows, incoming.code, MergeEntry(current.value, incoming.entry), code);
    }
  }

  lemma {:induction false} LookupMerge(rows: seq<Row>, incoming: seq<Row>, code: string)
    requires DistinctRows(incoming)
    ensures Lookup(Merge(rows, incoming), code) == MergeLookup(Lookup(rows, code), Lookup(incoming, code))
  {
    hide MergeRow, MergeLookup, Lookup;
    if incoming == [] {
      LookupNothing(code, Lookup(rows, code));
    } else {
      var front, r := incoming[..|incoming| - 1], incoming[|incoming| - 1];
      assert front + [r] == incoming;
      LookupMerge(rows, front, code);
      LookupMergeRow(Merge(rows, front), r, code);
      LookupAppend(front, r, code);
      if code == r.code {
        LookupAbsent(front, code);
        LookupNothing(code, Lookup(rows, code));
      }
    }
  }

  /** What applying a snapshot of the run on display does to one code: a code only one side knows stays or
      is added; a terminal entry stays unless the incoming one is terminal too; otherwise the incoming entry
      replaces the current one, but for an output it lacks. */
  lemma MergeByCases(rows: seq<Row>, incoming: seq<Row>, code: string)
    requires DistinctRows(incoming)
    ensures var was, inc, now := Lookup(rows, code), Lookup(incoming, code), Lookup(Merge(rows, incoming), code);
            && (inc.None? ==> now == was)
            && (was.None? ==> now == inc)
            && (was.Some? && inc.Some? ==>
                  var a, b := was.value, inc.value;
                  if a.status in {Passed, Failed, Cancelled} && b.status !in {Passed, Failed, Cancelled} then now == was
                  else
                    && now.Some?
                    && now.value.status == b.status && now.value.passed == b.passed && now.value.score == b.score
                    && now.value.minScore == b.minScore && now.value.durationMs == b.durationMs
                    && now.value.output == if b.output != "" then b.output else a.output)
  {
    hide Merge, Lookup;
    LookupMerge(rows, incoming, code);
  }

  /** The first row with a code decides, and there is one exactly when the code has an entry. */
  lemma {:induction false} LookupIs(rows: seq<Row>, code: string)
    ensures Lookup(rows, code).Some? <==> exists k :: 0 <= k < |rows| && rows[k].code == code
    ensures Lookup(rows, code).Some? ==>
              exists k :: 0 <= k < |rows| && rows[k] == Row(code, Lookup(rows, code).value)
                          && forall h :: 0 <= h < k ==> rows[h].code != code
  {
    if rows != [] && rows[0].code != code {
      LookupIs(rows[1..], code);
      assert forall k :: 1 <= k < |rows| ==> rows[k] == rows[1..][k - 1];
      if Lookup(rows, code).Some? {
        var k :| 0 <= k < |rows| - 1 && rows[1..][k] == Row(code, Lookup(rows, code).value)
                 && forall h :: 0 <= h < k ==> rows[1..][h].code != code;
        assert rows[k + 1] == Row(code, Lookup(rows, code).value);
        assert forall h :: 0 < h < k + 1 ==> rows[h] == rows[1..][h - 1];
      }
    }
  }

  lemma LookupNothing(code: string, current: Option<Entry>)
    ensures Lookup([], code) == None && MergeLookup(current, None) == current
  {
  }

  lemma {:induction false} LookupAbsent(rows: seq<Row>, code: string)
    requires forall i :: 0 <= i < |rows| ==> rows[i].code != code
    ensures Lookup(rows, code) == None
  {
    if rows != [] {
      LookupAbsent(rows[1..], code);
    }
  }
}
