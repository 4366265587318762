/** The engine's runs as the observer publishes them: on a playbook that validates cleanly their events
    meet what the stream needs, so the browser ends up with the engine's results. */
module RunScripts {
  import opened Text
  import opened PlaybookTypes
  import opened Validator
  import opened Executor
  import opened Report
  import Director
  import opened Traces
  import opened Conservation
  import DuplicateCodes
  import opened ExecutionSnapshots
  import opened AppStates
  import opened Convergence
  import opened StreamConvergence
  import opened StaleSnapshots
  import opened BoundedStream
  import opened DroppedEvents

  function EntryOf(r: Director.ProgressResult): Entry {
    Entry(r.status, r.passed, r.score, r.minScore, r.durationMs, r.output)
  }

  /** What the server's observer does with an event of the engine. */
  function ItemOf(e: Director.Event): Item {
    match e
    case RunStart(_) => Opening
    case AssertionStart(code, _, _, minScore) => Start(code, minScore)
    case AssertionComplete(r) => Finish(r.code, EntryOf(r))
    case _ => Note
  }

  function ScriptOf(es: seq<Director.Event>): seq<Item> { seq(|es|, i requires 0 <= i < |es| => ItemOf(es[i])) }

  // ---------------------------------------------------------------- which completion an event belongs to

  lemma {:induction false} CompletionsPrefix(es: seq<Director.Event>, k: nat)
    requires k <= |es|
    ensures Completions(es[..k]) <= Completions(es)
  {
    if k == |es| {
      assert es[..k] == es;
    } else {
      CompletionsPrefix(es[..|es| - 1], k);
      assert es[..|es| - 1][..k] == es[..k];
    }
  }

  lemma CompletionAt(es: seq<Director.Event>, k: nat)
    requires k < |es| && es[k].AssertionComplete?
    ensures |Completions(es[..k])| + 1 == |Completions(es[..k + 1])| <= |Completions(es)|
    ensures Completions(es)[|Completions(es[..k])|] == (es[k].result.code, es[k].result.status)
  {
    assert es[..k + 1][..k] == es[..k];
    CompletionsPrefix(es, k + 1);
  }

  lemma {:induction false} RejectedStays(pb: Playbook, es: seq<Director.Event>, k: nat)
    requires k <= |es| && Parse(pb, es[..k]).Rejected?
    ensures Parse(pb, es).Rejected?
  {
    if k == |es| {
      assert es[..k] == es;
    } else {
      assert es[..|es| - 1][..k] == es[..k];
      RejectedStays(pb, es[..|es| - 1], k);
    }
  }

  lemma PrefixStep(pb: Playbook, es: seq<Director.Event>, k: nat)
    requires k < |es|
    ensures Parse(pb, es[..k + 1]) == Delta(pb, Parse(pb, es[..k]), es[k])
    ensures !es[k].AssertionComplete? ==> Completions(es[..k + 1]) == Completions(es[..k])
  {
    assert es[..k + 1] == es[..k] + [es[k]];
    ParseStep(pb, es[..k], es[k]);
  }

  lemma WholePrefix(es: seq<Director.Event>)
    ensures es[..|es|] == es
  {
  }

  /** The assertion the engine is inside of is the next one to complete. */
  lemma {:induction false} NextCompletion(pb: Playbook, es: seq<Director.Event>, k: nat, s: nat, j: nat)
    requires k <= |es| && Parse(pb, es).Over? && Parse(pb, es[..k]) == Inside(s, j)
    ensures s < |pb.sections| && j < |pb.sections[s].assertions| && |Completions(es[..k])| < |Completions(es)|
    ensures Completions(es)[|Completions(es[..k])|].0 == pb.sections[s].assertions[j].code
    decreases |es| - k
  {
    hide Parse, Completions;
    WholePrefix(es);
    if k < |es| {
      PrefixStep(pb, es, k);
      if Parse(pb, es[..k + 1]).Rejected? {
        RejectedStays(pb, es, k + 1);
        assert false;
      } else if es[k].AssertionComplete? {
        CompletionAt(es, k);
      } else {
        NextCompletion(pb, es, k + 1, s, j);
      }
    }
  }

  /** An event about an assertion comes when all earlier assertions, and only they, are complete. */
  lemma AboutTheNext(pb: Playbook, es: seq<Director.Event>, k: nat, c: string)
    requires k < |es| && Parse(pb, es).Over? && ItemOf(es[k]).About(c)
    ensures |Completions(es[..k])| < |Completions(es)| && Completions(es)[|Completions(es[..k])|].0 == c
  {
    hide Parse, Completions;
    if es[k].AssertionComplete? {
      CompletionAt(es, k);
    } else {
      PrefixStep(pb, es, k);
      if Parse(pb, es[..k + 1]).Rejected? {
        RejectedStays(pb, es, k + 1);
        assert false;
      } else {
        var stage := Parse(pb, es[..k + 1]);
        NextCompletion(pb, es, k + 1, stage.section, stage.assertion);
      }
    }
  }

  lemma CompletionIsTerminal(pb: Playbook, es: seq<Director.Event>, k: nat)
    requires k < |es| && Parse(pb, es).Over? && es[k].AssertionComplete?
    ensures es[k].result.status.IsTerminal()
  {
    hide Parse, Completions;
    PrefixStep(pb, es, k);
    if Parse(pb, es[..k + 1]).Rejected? {
      RejectedStays(pb, es, k + 1);
      assert false;
    }
  }

  lemma CompletionsGrow(es: seq<Director.Event>, i: nat, j: nat)
    requires i < j < |es| && es[i].AssertionComplete?
    ensures |Completions(es[..i])| < |Completions(es[..j])|
  {
    hide Completions;
    assert es[..j][..i] == es[..i];
    CompletionAt(es[..j], i);
  }

  // ---------------------------------------------------------------- the table of the playbook

  lemma {:induction false} RowsAreCodes(p: Playbook, n: nat)
    requires n <= |p.sections|
    ensures var rows, occ := RowsUpTo(p, n), DuplicateCodes.CodesUpTo(p, n);
            && |rows| == |occ|
            && (forall k :: 0 <= k < |rows| ==> rows[k].code == occ[k].code && IsFresh(rows[k].entry))
  {
    if n > 0 {
      RowsAreCodes(p, n - 1);
      SectionRowsAreCodes(p.sections[n - 1], n - 1, |p.sections[n - 1].assertions|);
    }
  }

  lemma {:induction false} SectionRowsAreCodes(s: Section, i: nat, n: nat)
    requires n <= |s.assertions|
    ensures var rows, occ := SectionRows(s, n), DuplicateCodes.SectionCodes(s, i, n);
            && |rows| == |occ|
            && (forall k :: 0 <= k < |rows| ==> rows[k].code == occ[k].code && IsFresh(rows[k].entry))
  {
    if n > 0 {
      SectionRowsAreCodes(s, i, n - 1);
    }
  }

  /** The table is in the order of the completions. */
  lemma TableMatches(w: Director.World, pb: Playbook, runId: string, fmt: Formats)
    ensures var r := Director.RunOf(w, pb, runId, fmt);
            var rows, done := RowsOf(pb), Completions(r.events);
            && Parse(pb, r.events).Over? && |rows| == |done| == |Flat(r.trace.sections)|
            && (forall k :: 0 <= k < |rows| ==>
                  && rows[k].code == done[k].0 && IsFresh(rows[k].entry)
                  && done[k] == (Flat(r.trace.sections)[k].assertion.code, Flat(r.trace.sections)[k].status))
  {
    hide Director.RunOf, Parse, Completions, RowsUpTo;
    var r := Director.RunOf(w, pb, runId, fmt);
    var ss := r.trace.sections;
    FinalStanding(w, pb, runId, fmt);
    SameCodes(pb, ss, |ss|);
    assert ss[..|ss|] == ss;
    RowsAreCodes(pb, |pb.sections|);
    SummariesLength(Flat(ss));
    forall k | 0 <= k < |Flat(ss)| ensures Summaries(Flat(ss))[k] == (Flat(ss)[k].assertion.code, Flat(ss)[k].status) {
      SummaryAt(Flat(ss), k);
    }
  }

  lemma {:induction false} LookupAt(rows: seq<Row>, k: nat)
    requires k < |rows|
    ensures Lookup(rows, rows[k].code).Some?
  {
    if k > 0 {
      LookupAt(rows[1..], k - 1);
    }
  }

  /** One reset row per assertion, in playbook order: the table a run of the playbook starts with. */
  ghost predicate TableOf(pb: Playbook, rows: seq<Row>) {
    && |rows| == |RowsOf(pb)|
    && forall k :: 0 <= k < |rows| ==> rows[k].code == RowsOf(pb)[k].code && IsFresh(rows[k].entry)
  }

  lemma {:induction false} ResetIsFresh(rows: seq<Row>)
    ensures |ResetAll(rows)| == |rows|
    ensures forall k :: 0 <= k < |rows| ==> ResetAll(rows)[k].code == rows[k].code && IsFresh(ResetAll(rows)[k].entry)
  {
    if rows != [] {
      ResetIsFresh(rows[..|rows| - 1]);
    }
  }

  /** A playbook just loaded has such a table, and resetting the table any run has left gives one again. */
  lemma RerunsHaveATable(pb: Playbook, job: Job, n: nat)
    requires TableOf(pb, job.rows) && DistinctRows(job.rows) && n <= |job.script|
    ensures TableOf(pb, RowsOf(pb)) && TableOf(pb, ResetAll(Folded(job, n)))
  {
    hide RowsUpTo, Folded, ResetAll;
    RowsAreCodes(pb, |pb.sections|);
    DistinctFolded(job, n);
    ResetIsFresh(Folded(job, n));
  }

  function JobOf(w: Director.World, pb: Playbook, runId: string, fmt: Formats, rows: seq<Row>, last: nat): Job {
    Job(runId, ScriptOf(Director.RunOf(w, pb, runId, fmt).events), rows, last)
  }

  /** Any run on a playbook without validation errors publishes a script the stream can handle. */
  lemma RunsAreReady(w: Director.World, pb: Playbook, runId: string, fmt: Formats, agent: bool, rows: seq<Row>,
                     last: nat)
    requires PlaybookErrors(pb, agent) == [] && TableOf(pb, rows)
    ensures Ready(JobOf(w, pb, runId, fmt, rows, last))
  {
    hide PlaybookErrors, Director.RunOf, Parse, Completions, Flat, RowsOf, Lookup, ScriptOf;
    var r := Director.RunOf(w, pb, runId, fmt);
    var job, es := JobOf(w, pb, runId, fmt, rows, last), r.events;
    TableMatches(w, pb, runId, fmt);
    ValidTraceDistinct(w, pb, runId, fmt, agent);
    ObserverGrammar(w, pb, runId, fmt);
    ScriptIs(es);
    assert job.script[0] == ItemOf(es[0]) == Opening;
    forall i | 0 <= i < |es| && job.script[i].Finish? ensures job.script[i].entry.status.IsTerminal() {
      CompletionIsTerminal(pb, es, i);
    }
    forall i, j | 0 <= i < j < |es| && job.script[i].Finish? ensures !job.script[j].About(job.script[i].code) {
      var c := job.script[i].code;
      if job.script[j].About(c) {
        AboutTheNext(pb, es, i, c);
        AboutTheNext(pb, es, j, c);
        CompletionsGrow(es, i, j);
        assert false;
      }
    }
    forall i, c | 0 <= i < |es| && job.script[i].About(c) ensures Lookup(rows, c).Some? {
      AboutTheNext(pb, es, i, c);
      LookupAt(rows, |Completions(es[..i])|);
    }
  }

  lemma ScriptIs(es: seq<Director.Event>)
    ensures |ScriptOf(es)| == |es| && forall i :: 0 <= i < |es| ==> ScriptOf(es)[i] == ItemOf(es[i])
  {
  }

  /** Every completion has its event. */
  lemma {:induction false} CompletionHasEvent(es: seq<Director.Event>, m: nat)
    requires m < |Completions(es)|
    ensures exists k :: 0 <= k < |es| && es[k].AssertionComplete?
                        && (es[k].result.code, es[k].result.status) == Completions(es)[m]
  {
    var front := es[..|es| - 1];
    if m < |Completions(front)| {
      CompletionHasEvent(front, m);
      var k :| 0 <= k < |front| && front[k].AssertionComplete?
               && (front[k].result.code, front[k].result.status) == Completions(front)[m];
      assert es[k] == front[k];
    } else {
      assert es[|es| - 1].AssertionComplete?;
    }
  }

  /** From the engine to the screen: for any playbook without validation errors, any outside world, any
      moment of cancellation and any interleaving of publishing, delivery and fetches, once the run is
      published and delivered the browser shows for every assertion the status of the trace and all
      else its completion reported. */
  lemma ScreenShowsTheTrace(w: Director.World, pb: Playbook, runId: string, fmt: Formats, agent: bool, rows: seq<Row>,
                            last: nat, start: System, actions: seq<Action>, m: nat)
    requires PlaybookErrors(pb, agent) == [] && TableOf(pb, rows)
    requires var job := JobOf(w, pb, runId, fmt, rows, last);
             var s := After(job, start, actions);
             Begins(job, start) && Delivered(s) && Version(s) == |job.script|
    requires m < |Flat(Director.RunOf(w, pb, runId, fmt).trace.sections)|
    ensures var job := JobOf(w, pb, runId, fmt, rows, last);
            var a := Flat(Director.RunOf(w, pb, runId, fmt).trace.sections)[m];
            var v := ClientEntry(job, After(job, start, actions), a.assertion.code);
            && v.Some? && v.value.status == a.status
            && exists k :: 0 <= k < |Director.RunOf(w, pb, runId, fmt).events| &&
                 var e := Director.RunOf(w, pb, runId, fmt).events[k];
                 && e.AssertionComplete? && e.result.code == a.assertion.code
                 && v.value.status == e.result.status && v.value.passed == e.result.passed
                 && v.value.score == e.result.score && v.value.minScore == e.result.minScore
                 && v.value.durationMs == e.result.durationMs && v.value.output == e.result.output
  {
    hide PlaybookErrors, Director.RunOf, Parse, Completions, Flat, RowsOf, Lookup, ScriptOf, After, ClientEntry, Begins,
         Ready, Folded, Published, Buffered, InFlight;
    var job := JobOf(w, pb, runId, fmt, rows, last);
    var r := Director.RunOf(w, pb, runId, fmt);
    var a, s := Flat(r.trace.sections)[m], After(job, start, actions);
    RunsAreReady(w, pb, runId, fmt, agent, rows, last);
    TableMatches(w, pb, runId, fmt);
    ScriptIs(r.events);
    CompletionHasEvent(r.events, m);
    var k :| 0 <= k < |r.events| && r.events[k].AssertionComplete?
             && (r.events[k].result.code, r.events[k].result.status) == Completions(r.events)[m];
    assert job.script[k] == Finish(a.assertion.code, EntryOf(r.events[k].result));
    LookupAt(rows, m);
    ConvergedAtTheEnd(job, start, actions, a.assertion.code);
    FinalEntry(job, start, actions, a.assertion.code, k);
  }

  /** The final entry of the server is that of the completion. */
  lemma FinalEntry(job: Job, start: System, actions: seq<Action>, c: string, k: nat)
    requires Ready(job) && Begins(job, start) && k < |job.script| && job.script[k].Finish? && job.script[k].code == c
    requires Version(After(job, start, actions)) == |job.script|
    ensures Lookup(After(job, start, actions).rows, c) == Some(job.script[k].entry)
  {
    hide After, Folded, Lookup, Buffered, InFlight, ClientOk, Legal, DistinctRows;
    SnapshotIsFold(job, start, actions);
    AlwaysExplained(job, |job.script|, c);
    assert At(job, |job.script|, c) == Lookup(After(job, start, actions).rows, c);
  }

  /** A run of the engine in which some assertion starts has an interleaving with a quiet moment at which
      browser and server disagree; one in which none starts has not. */
  lemma RunsAgreeExactly(w: Director.World, pb: Playbook, runId: string, fmt: Formats, agent: bool, rows: seq<Row>,
                         last: nat, start: System)
    requires PlaybookErrors(pb, agent) == [] && TableOf(pb, rows) && Begins(JobOf(w, pb, runId, fmt, rows, last), start)
    ensures (forall actions :: QuietAgreement(JobOf(w, pb, runId, fmt, rows, last), start, actions))
            <==> forall k :: 0 <= k < |Director.RunOf(w, pb, runId, fmt).events| ==>
                   !Director.RunOf(w, pb, runId, fmt).events[k].AssertionStart?
  {
    hide PlaybookErrors, Director.RunOf, ScriptOf, Begins, Ready, QuietAgreement, TableOf;
    var job, es := JobOf(w, pb, runId, fmt, rows, last), Director.RunOf(w, pb, runId, fmt).events;
    RunsAreReady(w, pb, runId, fmt, agent, rows, last);
    AlwaysAgreesExactly(job, start);
    ScriptIs(es);
    forall k | 0 <= k < |es| ensures job.script[k].Start? <==> es[k].AssertionStart? {
      assert job.script[k] == ItemOf(es[k]);
    }
  }

  /** Every completion of every run of the engine can be lost to a full buffer: all that is under way has
      arrived, the server has the completion, and the browser does not show it. */
  lemma EngineCompletionCanBeLost(w: Director.World, pb: Playbook, runId: string, fmt: Formats, agent: bool,
                                  rows: seq<Row>, last: nat, n: Net, k: nat) returns (xs: seq<NetAction>)
    requires PlaybookErrors(pb, agent) == [] && TableOf(pb, rows) && n.Valid()
    requires Begins(JobOf(w, pb, runId, fmt, rows, last), n.core)
    requires var es := Director.RunOf(w, pb, runId, fmt).events; k < |es| && es[k].AssertionComplete?
    ensures var job, r := JobOf(w, pb, runId, fmt, rows, last), Director.RunOf(w, pb, runId, fmt).events[k].result;
            var s := NetAfter(job, n, xs).core;
            && Core(Fetch) !in xs && s.chan == [] && Lookup(s.rows, r.code) == Some(EntryOf(r))
            && ClientEntry(job, s, r.code) != Some(EntryOf(r))
  {
    hide PlaybookErrors, Director.RunOf, ScriptOf, Begins, Ready, TableOf, NetAfter, Lookup, ClientEntry;
    var job, es := JobOf(w, pb, runId, fmt, rows, last), Director.RunOf(w, pb, runId, fmt).events;
    RunsAreReady(w, pb, runId, fmt, agent, rows, last);
    ScriptIs(es);
    assert job.script[k] == ItemOf(es[k]);
    xs := CompletionCanBeLost(job, n, k);
  }
}
