/** The execution snapshot of internal/server: the assertion table that the server's observer updates
    in place, and the copy a client fetches. */
module ExecutionSnapshots {
  import opened Text
  import opened PlaybookTypes
  import opened Executor

  /** An assertion's progress; an empty output is one left out of the message. */
  datatype Entry = Entry(status: AssertionStatus, passed: bool, score: int, minScore: int, durationMs: int,
                         output: string)

  datatype Row = Row(code: string, entry: Entry)

  /** `last` is LastEventID. */
  datatype Snapshot = Snapshot(runId: string, rows: seq<Row>, last: nat)

  // ---------------------------------------------------------------- tables searched from the front

  function Lookup(rows: seq<Row>, code: string): Option<Entry> {
    if rows == [] then None
    else if rows[0].code == code then Some(rows[0].entry)
    else Lookup(rows[1..], code)
  }

  /** Replaces the entry of the first row with the code. */
  function Set(rows: seq<Row>, code: string, e: Entry): seq<Row> {
    if rows == [] then []
    else if rows[0].code == code then [Row(code, e)] + rows[1..]
    else [rows[0]] + Set(rows[1..], code, e)
  }

  lemma {:induction false} TableAt(rows: seq<Row>, code: string, i: nat)
    requires i <= |rows| && (forall k :: 0 <= k < i ==> rows[k].code != code) && (i < |rows| ==> rows[i].code == code)
    ensures Lookup(rows, code) == if i < |rows| then Some(rows[i].entry) else None
    ensures forall e :: Set(rows, code, e) == if i < |rows| then rows[i := Row(code, e)] else rows
  {
    if i > 0 {
      TableAt(rows[1..], code, i - 1);
    }
  }

  lemma {:induction false} LookupSet(rows: seq<Row>, code: string, e: Entry, other: string)
    ensures Lookup(Set(rows, code, e), other)
         == if other == code && Lookup(rows, code).Some? then Some(e) else Lookup(rows, other)
  {
    if rows != [] {
      LookupSet(rows[1..], code, e, other);
    }
  }

  lemma {:induction false} LookupAppend(rows: seq<Row>, r: Row, other: string)
    ensures Lookup(rows + [r], other)
         == if Lookup(rows, other).None? && other == r.code then Some(r.entry) else Lookup(rows, other)
  {
    if rows != [] {
      assert (rows + [r])[1..] == rows[1..] + [r];
      LookupAppend(rows[1..], r, other);
    }
  }

  // ---------------------------------------------------------------- what the observer does to the table

  function SectionRows(s: Section, n: nat): seq<Row>
    requires n <= |s.assertions|
  {
    if n == 0 then []
    else
      var a := s.assertions[n - 1];
      SectionRows(s, n - 1) + [Row(a.code, Entry(Pending, false, 0, a.GetMinPassingScore(), 0, ""))]
  }

  function RowsUpTo(p: Playbook, n: nat): seq<Row>
    requires n <= |p.sections|
  {
    if n == 0 then [] else RowsUpTo(p, n - 1) + SectionRows(p.sections[n - 1], |p.sections[n - 1].assertions|)
  }

  /** The table of a freshly loaded playbook. */
  function RowsOf(p: Playbook): seq<Row> { RowsUpTo(p, |p.sections|) }

  function Reset(e: Entry): Entry { Entry(Pending, false, 0, e.minScore, 0, "") }

  function ResetAll(rows: seq<Row>): seq<Row> {
    if rows == [] then []
    else ResetAll(rows[..|rows| - 1]) + [rows[|rows| - 1].(entry := Reset(rows[|rows| - 1].entry))]
  }

  lemma ResetStep(rows: seq<Row>, i: nat)
    requires i < |rows|
    ensures ResetAll(rows[..i]) + rows[i..] == ResetAll(rows[..i]) + [rows[i]] + rows[i + 1..]
    ensures ResetAll(rows[..i + 1]) == ResetAll(rows[..i]) + [Row(rows[i].code, Reset(rows[i].entry))]
  {
    assert rows[..i + 1][..i] == rows[..i];
  }

  lemma {:induction false} ResetSize(rows: seq<Row>)
    ensures |ResetAll(rows)| == |rows|
  {
    if rows != [] {
      ResetSize(rows[..|rows| - 1]);
    }
  }

  lemma {:induction false} ResetEach(rows: seq<Row>)
    ensures |ResetAll(rows)| == |rows|
    ensures forall k :: 0 <= k < |rows| ==>
              ResetAll(rows)[k] == Row(rows[k].code, Entry(Pending, false, 0, rows[k].entry.minScore, 0, ""))
  {
    if rows != [] {
      ResetEach(rows[..|rows| - 1]);
    }
  }

  /** The number of assertions before section n. */
  function Offset(p: Playbook, n: nat): nat
    requires n <= |p.sections|
  {
    if n == 0 then 0 else Offset(p, n - 1) + |p.sections[n - 1].assertions|
  }

  /** The row of an assertion before any run. */
  function FirstRow(a: Assertion): (r: Row)
    ensures r.code == a.code && r.entry.minScore == a.GetMinPassingScore()
    ensures r.entry.status == Pending && !r.entry.passed && r.entry.score == 0 && r.entry.durationMs == 0
    ensures r.entry.output == ""
  {
    Row(a.code, Entry(Pending, false, 0, a.GetMinPassingScore(), 0, ""))
  }

  /** The n-th assertion of the playbook has the n-th row. */
  lemma {:induction false} RowIs(p: Playbook, n: nat, i: nat, j: nat)
    requires i < n <= |p.sections| && j < |p.sections[i].assertions|
    ensures |RowsUpTo(p, n)| == Offset(p, n) && Offset(p, i) + j < Offset(p, n)
    ensures RowsUpTo(p, n)[Offset(p, i) + j] == FirstRow(p.sections[i].assertions[j])
  {
    hide FirstRow;
    RowCount(p, n);
    RowCount(p, n - 1);
    SectionRowsAre(p.sections[n - 1], |p.sections[n - 1].assertions|);
    if i < n - 1 {
      RowIs(p, n - 1, i, j);
    }
  }

  /** Section by section and assertion by assertion, every assertion has its row. */
  ghost predicate InPlaybookOrder(p: Playbook, rows: seq<Row>) {
    forall i, j :: 0 <= i < |p.sections| && 0 <= j < |p.sections[i].assertions| ==> HasRow(p, rows, i, j)
  }

  predicate HasRow(p: Playbook, rows: seq<Row>, i: nat, j: nat)
    requires i < |p.sections| && j < |p.sections[i].assertions|
  {
    Offset(p, i) + j < |rows| && rows[Offset(p, i) + j] == FirstRow(p.sections[i].assertions[j])
  }

  lemma RowsInOrder(p: Playbook)
    ensures |RowsOf(p)| == Offset(p, |p.sections|) && InPlaybookOrder(p, RowsOf(p))
  {
    RowCount(p, |p.sections|);
    forall i, j | 0 <= i < |p.sections| && 0 <= j < |p.sections[i].assertions|
      ensures HasRow(p, RowsOf(p), i, j)
    {
      RowIs(p, |p.sections|, i, j);
    }
  }

  lemma {:induction false} RowCount(p: Playbook, n: nat)
    requires n <= |p.sections|
    ensures |RowsUpTo(p, n)| == Offset(p, n)
  {
    if n > 0 {
      RowCount(p, n - 1);
      SectionRowsAre(p.sections[n - 1], |p.sections[n - 1].assertions|);
    }
  }

  lemma {:induction false} SectionRowsAre(s: Section, n: nat)
    requires n <= |s.assertions|
    ensures |SectionRows(s, n)| == n
    ensures forall j :: 0 <= j < n ==> SectionRows(s, n)[j] == FirstRow(s.assertions[j])
  {
    hide Assertion.GetMinPassingScore;
    if n > 0 {
      SectionRowsAre(s, n - 1);
    }
  }

  function Started(rows: seq<Row>, code: string): seq<Row> {
    var e := Lookup(rows, code);
    if e.None? then rows else Set(rows, code, e.value.(status := Running))
  }

  function Completed(rows: seq<Row>, code: string, e: Entry): seq<Row> { Set(rows, code, e) }

  /** The fields of StateManager.snapshot, under its lock. */
  class SnapshotStore {
    var runId: string
    var rows: seq<Row>
    var lastEventId: nat

    function View(): Snapshot
      reads this
    {
      Snapshot(runId, rows, lastEventId)
    }

    constructor ()
      ensures View() == Snapshot("", [], 0)
    {
      runId, rows, lastEventId := "", [], 0;
    }

    /** The part of SetPlaybook that builds the table of a new playbook. */
    method LoadTable(p: Playbook)
      modifies this
      ensures View() == Snapshot("", RowsOf(p), 0)
      ensures |rows| == Offset(p, |p.sections|)
      ensures InPlaybookOrder(p, rows)
    {
      var assertions := [];
      for i := 0 to |p.sections|
        invariant unchanged(this) && assertions == RowsUpTo(p, i)
      {
        var sec := p.sections[i];
        for j := 0 to |sec.assertions|
          invariant unchanged(this) && assertions == RowsUpTo(p, i) + SectionRows(sec, j)
        {
          var a := sec.assertions[j];
          assertions := assertions + [Row(a.code, Entry(Pending, false, 0, a.GetMinPassingScore(), 0, ""))];
        }
      }
      runId, rows, lastEventId := "", assertions, 0;
      RowsInOrder(p);
    }

    /** handleRun clears the table in place; the minimum scores of an earlier run stay. */
    method ResetAssertions()
      modifies this`rows
      ensures rows == ResetAll(old(rows))
      ensures |rows| == |old(rows)|
      ensures forall k :: 0 <= k < |rows| ==>
                && rows[k].code == old(rows)[k].code && rows[k].entry.minScore == old(rows)[k].entry.minScore
                && rows[k].entry.status == Pending && !rows[k].entry.passed && rows[k].entry.score == 0
                && rows[k].entry.durationMs == 0 && rows[k].entry.output == ""
    {
      hide ResetAll;
      var i := 0;
      ghost var before := rows;
      ResetSize(before[..0]);
      assert before[0..] == before;
      while i < |rows|
        invariant i <= |rows| == |before|
        invariant rows == ResetAll(before[..i]) + before[i..]
      {
        ResetSize(before[..i]);
        ResetStep(before, i);
        var e := rows[i].entry;
        rows := rows[i := Row(rows[i].code, Entry(Pending, false, 0, e.minScore, 0, ""))];
        i := i + 1;
      }
      assert before[..i] == before;
      ResetEach(before);
    }

    method SetRunId(id: string)
      modifies this`runId
      ensures runId == id
    {
      runId := id;
    }

    method StartAssertion(code: string)
      modifies this`rows
      ensures rows == Started(old(rows), code)
      ensures |rows| == |old(rows)|
      ensures forall k :: 0 <= k < |rows| ==>
                rows[k] == if old(rows)[k].code == code && (forall h :: 0 <= h < k ==> old(rows)[h].code != code)
                           then Row(code, old(rows)[k].entry.(status := Running)) else old(rows)[k]
    {
      var i := 0;
      while i < |rows|
        invariant i <= |rows| && rows == old(rows)
        invariant forall k :: 0 <= k < i ==> rows[k].code != code
      {
        if rows[i].code == code {
          TableAt(rows, code, i);
          rows := rows[i := Row(code, rows[i].entry.(status := Running))];
          return;
        }
        i := i + 1;
      }
      TableAt(rows, code, i);
    }

    method CompleteAssertion(code: string, e: Entry)
      modifies this`rows
      ensures rows == Completed(old(rows), code, e)
      ensures |rows| == |old(rows)|
      ensures forall k :: 0 <= k < |rows| ==>
                rows[k] == if old(rows)[k].code == code && (forall h :: 0 <= h < k ==> old(rows)[h].code != code)
                           then Row(code, e) else old(rows)[k]
    {
      var i := 0;
      while i < |rows|
        invariant i <= |rows| && rows == old(rows)
        invariant forall k :: 0 <= k < i ==> rows[k].code != code
      {
        if rows[i].code == code {
          TableAt(rows, code, i);
          rows := rows[i := Row(code, e)];
          return;
        }
        i := i + 1;
      }
      TableAt(rows, code, i);
    }

    method RecordEvent(id: nat)
      modifies this`lastEventId
      ensures lastEventId == id
    {
      lastEventId := id;
    }

    method GetExecutionSnapshot() returns (s: Snapshot)
      ensures s == View()
    {
      s := Snapshot(runId, rows, lastEventId);
    }
  }
}
