/** Nothing is lost or counted twice between a completed run of a valid playbook and its report. */
module Conservation {
  import opened Text
  import opened PlaybookTypes
  import opened Executor
  import opened Report
  import opened Director
  import opened Traces
  import opened Validator
  import DuplicateCodes

  /** The report map as one pass over the flat trace. */
  function Entries(f: seq<AssertionContext>, m: map<string, AssertionReport>): map<string, AssertionReport> {
    if f == [] then m
    else Entries(f[..|f| - 1], m)[f[|f| - 1].assertion.code := Entry(f[|f| - 1])]
  }

  lemma {:induction false} EntriesAppend(f: seq<AssertionContext>, g: seq<AssertionContext>,
                                         m: map<string, AssertionReport>)
    ensures Entries(f + g, m) == Entries(g, Entries(f, m))
  {
    if g == [] {
      assert f + g == f;
    } else {
      EntriesAppend(f, g[..|g| - 1], m);
      assert (f + g)[..|f + g| - 1] == f + g[..|g| - 1];
    }
  }

  lemma {:induction false} AssertionEntries(s: SectionContext, n: nat, p: Pages)
    requires n <= |s.assertions|
    ensures AssertionPages(s, n, p).entries == Entries(s.assertions[..n], p.entries)
  {
    hide AssertionLog, AssertionMarkdown;
    if n > 0 {
      AssertionEntries(s, n - 1, p);
      assert s.assertions[..n][..n - 1] == s.assertions[..n - 1];
    }
  }

  lemma {:induction false} SectionEntries(ss: seq<SectionContext>, n: nat, p: Pages)
    requires n <= |ss|
    ensures SectionPages(ss, n, p).entries == Entries(Flat(ss[..n]), p.entries)
  {
    hide AssertionPages, Descriptions;
    if n > 0 {
      SectionEntries(ss, n - 1, p);
      var s := ss[n - 1];
      AssertionEntries(s, |s.assertions|, SectionHead(s, SectionPages(ss, n - 1, p)));
      assert s.assertions[..|s.assertions|] == s.assertions;
      assert ss[..n][..n - 1] == ss[..n - 1];
      EntriesAppend(Flat(ss[..n - 1]), s.assertions, p.entries);
    }
  }

  lemma ReportEntries(t: ExecutionTrace, fmt: Formats)
    ensures Generate(t, fmt).structured.assertions == Entries(Flat(t.sections), map[])
  {
    hide SectionPages, Frontmatter;
    SectionEntries(t.sections, |t.sections|, Opening(t, fmt));
    assert t.sections[..|t.sections|] == t.sections;
  }

  predicate DistinctCodes(f: seq<AssertionContext>) {
    forall i, j :: 0 <= i < j < |f| ==> f[i].assertion.code != f[j].assertion.code
  }

  function PassedEntries(m: map<string, AssertionReport>): set<string> { set k | k in m && m[k].passed }

  lemma DistinctFront(f: seq<AssertionContext>)
    requires f != [] && DistinctCodes(f)
    ensures DistinctCodes(f[..|f| - 1])
    ensures forall i :: 0 <= i < |f| - 1 ==> f[i].assertion.code != f[|f| - 1].assertion.code
  {
  }

  /** The map holds the codes of the list and nothing else. */
  lemma {:induction false} EntriesKeys(f: seq<AssertionContext>, code: string)
    ensures code in Entries(f, map[]) <==> exists i :: 0 <= i < |f| && f[i].assertion.code == code
  {
    hide Entry;
    if f != [] {
      var n := |f| - 1;
      EntriesKeys(f[..n], code);
      if code in Entries(f[..n], map[]) {
        var i :| 0 <= i < n && f[..n][i].assertion.code == code;
        assert f[i].assertion.code == code;
      } else if f[n].assertion.code != code {
        forall i | 0 <= i < |f| ensures f[i].assertion.code != code {
          assert i < n ==> f[..n][i] == f[i];
        }
      }
    }
  }

  lemma {:induction false} EntriesAt(f: seq<AssertionContext>, i: nat)
    requires DistinctCodes(f) && i < |f|
    ensures f[i].assertion.code in Entries(f, map[]) && Entries(f, map[])[f[i].assertion.code] == Entry(f[i])
  {
    hide Entry, DistinctCodes;
    DistinctFront(f);
    if i < |f| - 1 {
      EntriesAt(f[..|f| - 1], i);
    }
  }

  /** The report carries the assertion's times, verdict, score, pass mark and context. */
  predicate Carries(e: AssertionReport, c: AssertionContext) {
    && e.start == c.start && e.end == c.end && e.passed == c.passed
    && e.score == c.score && e.minScore == c.minScore && e.context == c.context
  }

  lemma {:induction false} LastOneStands(f: seq<AssertionContext>, code: string)
    requires code in Entries(f, map[])
    ensures exists i :: 0 <= i < |f| && f[i].assertion.code == code && Carries(Entries(f, map[])[code], f[i])
                        && forall h :: i < h < |f| ==> f[h].assertion.code != code
  {
    var n := |f| - 1;
    if f[n].assertion.code == code {
      assert Carries(Entries(f, map[])[code], f[n]);
    } else {
      LastOneStands(f[..n], code);
      var i :| 0 <= i < n && f[..n][i].assertion.code == code && Carries(Entries(f[..n], map[])[code], f[..n][i])
               && forall h :: i < h < n ==> f[..n][h].assertion.code != code;
      assert f[i] == f[..n][i];
      assert forall h :: i < h < n ==> f[h] == f[..n][h];
    }
  }

  /** Of any trace, of invalid playbooks and cancelled runs too: a code is in the report exactly when some
      entry of the trace has it, and then the report carries the last such entry. */
  lemma ReportMapExactly(t: ExecutionTrace, fmt: Formats, code: string)
    ensures var m, f := Generate(t, fmt).structured.assertions, Flat(t.sections);
            && (code in m <==> exists i :: 0 <= i < |f| && f[i].assertion.code == code)
            && (code in m ==>
                  exists i :: 0 <= i < |f| && f[i].assertion.code == code
                              && m[code].start == f[i].start && m[code].end == f[i].end
                              && m[code].passed == f[i].passed && m[code].score == f[i].score
                              && m[code].minScore == f[i].minScore && m[code].context == f[i].context
                              && forall h :: i < h < |f| ==> f[h].assertion.code != code)
  {
    hide Generate, Flat, Entries;
    ReportEntries(t, fmt);
    var f := Flat(t.sections);
    EntriesKeys(f, code);
    if code in Entries(f, map[]) {
      LastOneStands(f, code);
    }
  }

  /** With distinct codes the map has one entry per assertion, and as many passed ones. */
  lemma {:induction false} EntriesCount(f: seq<AssertionContext>)
    requires DistinctCodes(f) && forall i :: 0 <= i < |f| ==> f[i].passed == f[i].status.Passed?
    ensures var m := Entries(f, map[]);
            && |m| == |f| && |PassedEntries(m)| == CountPassed(f)
            && (forall i :: 0 <= i < |f| ==>
                  && f[i].assertion.code in m
                  && var e := m[f[i].assertion.code];
                     && e.start == f[i].start && e.end == f[i].end && e.passed == f[i].passed
                     && e.score == f[i].score && e.minScore == f[i].minScore && e.context == f[i].context)
            && (forall k :: k in m ==> exists i :: 0 <= i < |f| && f[i].assertion.code == k)
  {
    hide DistinctCodes;
    forall i | 0 <= i < |f|
      ensures f[i].assertion.code in Entries(f, map[]) && Entries(f, map[])[f[i].assertion.code] == Entry(f[i])
    {
      EntriesAt(f, i);
    }
    forall k | k in Entries(f, map[]) ensures exists i :: 0 <= i < |f| && f[i].assertion.code == k {
      EntriesKeys(f, k);
    }
    if f != [] {
      DistinctFront(f);
      EntriesCount(f[..|f| - 1]);
      EntriesKeys(f[..|f| - 1], f[|f| - 1].assertion.code);
      EntriesAdd(Entries(f[..|f| - 1], map[]), f[|f| - 1]);
    }
  }

  lemma EntriesAdd(m: map<string, AssertionReport>, c: AssertionContext)
    requires c.assertion.code !in m
    ensures var m' := m[c.assertion.code := Entry(c)];
            && |m'| == |m| + 1
            && |PassedEntries(m')| == |PassedEntries(m)| + if c.passed then 1 else 0
  {
    var m' := m[c.assertion.code := Entry(c)];
    assert PassedEntries(m') == PassedEntries(m) + if c.passed then {c.assertion.code} else {};
    assert c.assertion.code !in PassedEntries(m);
  }

  /** The trace carries the codes of the playbook, in the validator's order. */
  lemma {:induction false} SameCodes(pb: Playbook, ss: seq<SectionContext>, n: nat)
    requires |ss| == |pb.sections| && n <= |ss|
    requires forall i :: 0 <= i < |ss| ==> Matches(pb.sections[i], ss[i], |pb.sections[i].assertions|)
    ensures var occ, f := DuplicateCodes.CodesUpTo(pb, n), Flat(ss[..n]);
            |occ| == |f| && forall k :: 0 <= k < |f| ==> occ[k].code == f[k].assertion.code
  {
    if n > 0 {
      SameCodes(pb, ss, n - 1);
      assert ss[..n][..n - 1] == ss[..n - 1];
      var s := pb.sections[n - 1];
      SectionCodesAt(s, n - 1, |s.assertions|);
      assert Matches(s, ss[n - 1], |s.assertions|);
    }
  }

  lemma {:induction false} SectionCodesAt(s: Section, i: nat, n: nat)
    requires n <= |s.assertions|
    ensures var occ := DuplicateCodes.SectionCodes(s, i, n);
            |occ| == n && forall k :: 0 <= k < n ==> occ[k].code == s.assertions[k].code
  {
    if n > 0 {
      SectionCodesAt(s, i, n - 1);
    }
  }

  /** The codes of the trace of a playbook without code errors are pairwise distinct. */
  lemma ValidTraceDistinct(w: World, pb: Playbook, runId: string, fmt: Formats, agent: bool)
    requires PlaybookErrors(pb, agent) == []
    ensures DistinctCodes(Flat(RunOf(w, pb, runId, fmt).trace.sections))
  {
    hide PlaybookErrors, RunOf, Parse;
    var ss := RunOf(w, pb, runId, fmt).trace.sections;
    FinalStanding(w, pb, runId, fmt);
    DuplicateCodes.NoCodeErrors(pb, agent);
    SameCodes(pb, ss, |ss|);
    assert ss[..|ss|] == ss;
  }

  predicate Completes(r: Run) { r.events != [] && r.events[|r.events| - 1].RunComplete? }

  /** The report map has exactly one entry per assertion of the trace, with that assertion's times, verdict,
      score, pass mark and context; as many entries passed as the statistics say; the statistics add up to
      the assertions; and the report spans the time of the trace. */
  predicate Conserved(r: Run)
    requires Completes(r)
  {
    var f := Flat(r.trace.sections);
    var report := r.events[|r.events| - 1].report;
    && |report.assertions| == |f| == report.passed + report.failed
    && |PassedEntries(report.assertions)| == report.passed == CountPassed(f)
    && (forall i :: 0 <= i < |f| ==>
          && f[i].assertion.code in report.assertions
          && var e := report.assertions[f[i].assertion.code];
             && e.start == f[i].start && e.end == f[i].end && e.passed == f[i].passed
             && e.score == f[i].score && e.minScore == f[i].minScore && e.context == f[i].context)
    && report.start == r.trace.start && report.end == r.trace.end
    && report.passed == r.trace.totalPassed && report.failed == r.trace.totalFailed
  }

  /** A run that completes on a playbook that validates cleanly reports every assertion once. */
  lemma ReportConservation(w: World, pb: Playbook, runId: string, fmt: Formats, agent: bool)
    requires PlaybookErrors(pb, agent) == [] && Completes(RunOf(w, pb, runId, fmt))
    ensures var r := RunOf(w, pb, runId, fmt); Complete(pb, r.trace) && Conserved(r)
  {
    hide PlaybookErrors, RunOf, Parse, Entries;
    var r := RunOf(w, pb, runId, fmt);
    FinalStanding(w, pb, runId, fmt);
    EmptyNotStarted(pb);
    OverIsLast(pb, r.events);
    ValidTraceDistinct(w, pb, runId, fmt, agent);
    EntriesCount(Flat(r.trace.sections));
    CompletedReport(w, pb, runId, fmt);
    ReportEntries(r.trace, fmt);
  }

  lemma CompletedReport(w: World, pb: Playbook, runId: string, fmt: Formats)
    requires Body(w, pb, runId).halt.None?
    ensures var r := RunOf(w, pb, runId, fmt);
            r.events != [] && r.events[|r.events| - 1] == RunComplete(r.trace, Generate(r.trace, fmt).structured)
    ensures var g := Generate(RunOf(w, pb, runId, fmt).trace, fmt).structured;
            var t := RunOf(w, pb, runId, fmt).trace;
            && g.passed == t.totalPassed && g.failed == t.totalFailed
            && g.start == t.start && g.end == t.end
  {
    hide SectionPages;
  }

  // ---------------------------------------------------------------- cancelled runs of valid playbooks

  lemma {:induction false} NoEmptySections(pb: Playbook, agent: bool, n: nat)
    requires n <= |pb.sections| && SectionListErrors(pb, agent, n) == []
    ensures forall i :: 0 <= i < n ==> pb.sections[i].assertions != []
  {
    hide SectionErrors;
    if n > 0 {
      NoEmptySections(pb, agent, n - 1);
      EmptySectionReported(pb.sections[n - 1], n - 1, PlaybookSeen(pb, n - 1), agent);
    }
  }

  lemma EmptySectionReported(s: Section, i: nat, seen: map<string, Path>, agent: bool)
    ensures s.assertions == [] ==> SectionErrors(s, i, seen, agent) != []
  {
    hide TitleErrors, AssertionListErrors;
  }

  /** On a playbook that validates cleanly a run ends as cancelled exactly when it cancelled an
      assertion; otherwise it ends as complete. */
  lemma ValidRunCancelledExactly(w: World, pb: Playbook, runId: string, fmt: Formats, agent: bool)
    requires PlaybookErrors(pb, agent) == []
    ensures var r := RunOf(w, pb, runId, fmt);
            && r.events != [] && IsLast(r.events[|r.events| - 1])
            && (r.events[|r.events| - 1].RunCancelled? <==> SomeCancelled(Flat(r.trace.sections)))
  {
    hide RunOf, Parse, SectionListErrors, HeadErrors, SomeCancelled, Flat;
    NoEmptySections(pb, agent, |pb.sections|);
    ObserverGrammar(w, pb, runId, fmt);
    TerminalEventMeaning(w, pb, runId, fmt);
  }
}
