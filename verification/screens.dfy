/** From the commands' replies to the browser's screen, through the engine, its observer, the published
    stream and the browser's table. */
module Screens {
  import opened Text
  import opened PlaybookTypes
  import opened Validator
  import opened Executor
  import opened Report
  import Director
  import Traces
  import Conservation
  import opened TraceEntries
  import Announcements
  import ReportedScores
  import opened ExecutionSnapshots
  import opened Convergence
  import opened StreamConvergence
  import RunScripts

  /** The completion event of an entry, as module Announcements has it. */
  function Completion(w: Director.World, s: nat, j: nat, total: nat, c: AssertionContext): Director.Event {
    var es := Announcements.EntryEvents(w, s, j, total, c);
    es[|es| - 1]
  }

  /** Events of an entry other than its completion complete nothing. */
  lemma {:induction false} WarningsComplete(phase: Director.Phase, code: string, logs: seq<CommandLog>)
    ensures forall e :: e in Announcements.Warnings(phase, code, logs) ==> !e.AssertionComplete?
  {
    if logs != [] {
      WarningsComplete(phase, code, logs[..|logs| - 1]);
    }
  }

  lemma OneCompletion(w: Director.World, s: nat, j: nat, total: nat, c: AssertionContext)
    ensures forall e :: e in Announcements.EntryEvents(w, s, j, total, c) && e.AssertionComplete? ==>
              e == Completion(w, s, j, total, c)
  {
    hide Announcements.Warnings, Total, Join, Director.Millis, PassScores;
    WarningsComplete(Director.PreCmd, c.assertion.code, c.preCmdLogs);
    WarningsComplete(Director.PostCmd, c.assertion.code, c.postCmdLogs);
  }

  lemma {:induction false} SectionCompletions(w: Director.World, s: nat, total: nat, cs: seq<AssertionContext>,
                                              e: Director.Event)
    requires e in Announcements.SectionEvents(w, s, total, cs) && e.AssertionComplete?
    ensures exists j :: 0 <= j < |cs| && e == Completion(w, s, j, total, cs[j])
  {
    hide Announcements.EntryEvents, Completion;
    var n := |cs| - 1;
    if e in Announcements.SectionEvents(w, s, total, cs[..n]) {
      SectionCompletions(w, s, total, cs[..n], e);
      var j :| 0 <= j < n && e == Completion(w, s, j, total, cs[..n][j]);
      assert cs[j] == cs[..n][j];
    } else {
      OneCompletion(w, s, n, total, cs[n]);
    }
  }

  /** Every completion the trace calls for is that of one of its entries. */
  lemma {:induction false} TraceCompletions(w: Director.World, pb: Playbook, ss: seq<SectionContext>, e: Director.Event)
    requires |ss| <= |pb.sections| && e in Announcements.TraceEvents(w, pb, ss) && e.AssertionComplete?
    ensures exists s, j :: 0 <= s < |ss| && 0 <= j < |ss[s].assertions|
                           && e == Completion(w, s, j, |pb.sections[s].assertions|, ss[s].assertions[j])
  {
    hide Announcements.SectionEvents, Completion;
    var n := |ss| - 1;
    if e in Announcements.TraceEvents(w, pb, ss[..n]) {
      TraceCompletions(w, pb, ss[..n], e);
      var s, j :| 0 <= s < n && 0 <= j < |ss[..n][s].assertions|
                  && e == Completion(w, s, j, |pb.sections[s].assertions|, ss[..n][s].assertions[j]);
      assert ss[s] == ss[..n][s];
    } else {
      SectionCompletions(w, n, |pb.sections[n].assertions|, ss[n].assertions, e);
      var j :| 0 <= j < |ss[n].assertions|
               && e == Completion(w, n, j, |pb.sections[n].assertions|, ss[n].assertions[j]);
    }
  }

  lemma {:induction false} InStory(es: seq<Director.Event>, e: Director.Event)
    requires e in es && e.AssertionComplete?
    ensures e in Announcements.Story(es)
  {
    if e != es[|es| - 1] {
      InStory(es[..|es| - 1], e);
    }
  }

  lemma RunCompletions(w: Director.World, pb: Playbook, runId: string, fmt: Formats, e: Director.Event)
    requires e in Director.RunOf(w, pb, runId, fmt).events && e.AssertionComplete?
    ensures var ss := Director.RunOf(w, pb, runId, fmt).trace.sections;
            && |ss| <= |pb.sections|
            && exists s, j :: 0 <= s < |ss| && 0 <= j < |ss[s].assertions|
                              && e == Completion(w, s, j, |pb.sections[s].assertions|, ss[s].assertions[j])
  {
    hide Director.RunOf, Announcements.Story, Announcements.TraceEvents, Completion, Generate;
    Announcements.EventsTellTheTrace(w, pb, runId, fmt);
    var r := Director.RunOf(w, pb, runId, fmt);
    var front := r.events[..|r.events| - 1];
    assert r.events == front + [r.events[|r.events| - 1]];
    InStory(front, e);
    TraceCompletions(w, pb, r.trace.sections, e);
  }

  lemma PlacesInOrder(ss: seq<SectionContext>, s: nat, j: nat, x: nat)
    requires s < x <= |ss| && j < |ss[s].assertions|
    ensures |Traces.Flat(ss[..s])| + j < |Traces.Flat(ss[..x])|
  {
    hide Traces.Flat;
    ReportedScores.FlatAt(ss[..x], s, j);
    assert ss[..x][..s] == ss[..s] && ss[..x][s] == ss[s];
  }

  /** Distinct codes: two entries with the same code are at the same place. */
  lemma SameCodeSamePlace(ss: seq<SectionContext>, s: nat, j: nat, x: nat, y: nat)
    requires Conservation.DistinctCodes(Traces.Flat(ss))
    requires s < |ss| && j < |ss[s].assertions| && x < |ss| && y < |ss[x].assertions|
    requires ss[s].assertions[j].assertion.code == ss[x].assertions[y].assertion.code
    ensures s == x && j == y
  {
    hide Traces.Flat;
    ReportedScores.FlatAt(ss, s, j);
    ReportedScores.FlatAt(ss, x, y);
    var a, b := |Traces.Flat(ss[..s])| + j, |Traces.Flat(ss[..x])| + y;
    assert Traces.Flat(ss)[a] == ss[s].assertions[j] && Traces.Flat(ss)[b] == ss[x].assertions[y];
    assert a == b;
    if s < x {
      PlacesInOrder(ss, s, j, x);
    } else if x < s {
      PlacesInOrder(ss, x, y, s);
    }
  }

  /** Once a run on a validated playbook is published and delivered, under any interleaving, the browser
      shows for every assertion the status and the verdict of the trace; as score the sum of what the
      commands executed so far contributed, all of them when it was not cancelled; and the pass mark, the
      duration and the outputs. */
  lemma ScreenShowsTheReplies(w: Director.World, pb: Playbook, runId: string, fmt: Formats, agent: bool, rows: seq<Row>,
                              last: nat, start: System, actions: seq<Action>, s: nat, j: nat)
    requires PlaybookErrors(pb, agent) == [] && RunScripts.TableOf(pb, rows)
    requires var job := RunScripts.JobOf(w, pb, runId, fmt, rows, last);
             var t := After(job, start, actions);
             Begins(job, start) && Delivered(t) && Version(t) == |job.script|
    requires var ss := Director.RunOf(w, pb, runId, fmt).trace.sections; s < |ss| && j < |ss[s].assertions|
    ensures var job := RunScripts.JobOf(w, pb, runId, fmt, rows, last);
            var c := Director.RunOf(w, pb, runId, fmt).trace.sections[s].assertions[j];
            var v := ClientEntry(job, After(job, start, actions), c.assertion.code);
            && v.Some? && v.value.status == c.status && v.value.passed == c.passed
            && |c.cmdLogs| <= |c.assertion.cmds|
            && v.value.score == Total(w, s, j, c.assertion.cmds, |c.cmdLogs|)
            && (c.status.IsFinished() ==> |c.cmdLogs| == |c.assertion.cmds| && v.value.score == c.score)
            && v.value.minScore == c.assertion.GetMinPassingScore()
            && v.value.durationMs == Director.Millis(c.start, c.end)
            && v.value.output == Join(c.outputs, "\n")
  {
    hide PlaybookErrors, Director.RunOf, RunScripts.ScriptOf, RunScripts.JobOf, RunScripts.TableOf, After, Begins,
         Delivered, Version, ClientEntry, Traces.Flat, Total, Outputs, Join, Director.Millis, PassScores, Answers,
         Gathered, Director.Excluded, Conservation.DistinctCodes, Completion;
    var ss := Director.RunOf(w, pb, runId, fmt).trace.sections;
    var c := ss[s].assertions[j];
    var m := |Traces.Flat(ss[..s])| + j;
    ReportedScores.FlatAt(ss, s, j);
    RunScripts.ScreenShowsTheTrace(w, pb, runId, fmt, agent, rows, last, start, actions, m);
    var es := Director.RunOf(w, pb, runId, fmt).events;
    var v := ClientEntry(RunScripts.JobOf(w, pb, runId, fmt, rows, last),
                         After(RunScripts.JobOf(w, pb, runId, fmt, rows, last), start, actions), c.assertion.code);
    var k :| 0 <= k < |es| && es[k].AssertionComplete? && es[k].result.code == c.assertion.code
             && v.value == Entry(es[k].result.status, es[k].result.passed, es[k].result.score, es[k].result.minScore,
                                 es[k].result.durationMs, es[k].result.output);
    RunCompletions(w, pb, runId, fmt, es[k]);
    var x, y :| 0 <= x < |ss| && 0 <= y < |ss[x].assertions|
                && es[k] == Completion(w, x, y, |pb.sections[x].assertions|, ss[x].assertions[y]);
    CompletionIs(w, x, y, |pb.sections[x].assertions|, ss[x].assertions[y]);
    Conservation.ValidTraceDistinct(w, pb, runId, fmt, agent);
    SameCodeSamePlace(ss, s, j, x, y);
    TraceTold(w, pb, runId, fmt);
    assert Told(w, s, j, c);
  }

  lemma CompletionIs(w: Director.World, s: nat, j: nat, total: nat, c: AssertionContext)
    ensures var e := Completion(w, s, j, total, c);
            && e.AssertionComplete? && e.result.code == c.assertion.code && e.result.status == c.status
            && e.result.passed == c.passed && e.result.minScore == c.assertion.GetMinPassingScore()
            && (|c.cmdLogs| <= |c.assertion.cmds| ==> e.result.score == Total(w, s, j, c.assertion.cmds, |c.cmdLogs|))
            && e.result.durationMs == Director.Millis(c.start, c.end) && e.result.output == Join(c.outputs, "\n")
  {
  }
}
