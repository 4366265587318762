/** From the outside world to the report: what the structured report of a completed run says of every
    assertion of the playbook, told from the commands' replies alone. */
module ReportedScores {
  import opened Text
  import opened PlaybookTypes
  import opened Executor
  import opened Report
  import opened Director
  import opened Traces
  import opened Validator
  import opened Conservation
  import opened TraceEntries
  import Scoring

  /** Where an entry of section s stands in the flat trace. */
  lemma {:induction false} FlatAt(ss: seq<SectionContext>, s: nat, j: nat)
    requires s < |ss| && j < |ss[s].assertions|
    ensures |Flat(ss[..s])| + j < |Flat(ss)|
    ensures Flat(ss)[|Flat(ss[..s])| + j] == ss[s].assertions[j]
  {
    var n := |ss| - 1;
    if s < n {
      FlatAt(ss[..n], s, j);
      assert ss[..n][..s] == ss[..s];
    }
  }

  /** Every entry of the flat trace stands in some section. */
  lemma {:induction false} FlatFrom(ss: seq<SectionContext>, i: nat) returns (s: nat, j: nat)
    requires i < |Flat(ss)|
    ensures s < |ss| && j < |ss[s].assertions| && Flat(ss)[i] == ss[s].assertions[j]
  {
    var n := |ss| - 1;
    var before := Flat(ss[..n]);
    if i < |before| {
      s, j := FlatFrom(ss[..n], i);
    } else {
      s, j := n, i - |before|;
    }
  }

  /** On a completed run of a validated playbook every assertion is in the report: its score is the sum of
      what its commands contribute, its minimum the pass mark, it passed exactly when the one reaches the
      other, and its context is what was gathered without the keys some command of it excludes. */
  lemma EveryAssertionIsReported(w: World, pb: Playbook, runId: string, fmt: Formats, agent: bool, s: nat, j: nat)
    requires PlaybookErrors(pb, agent) == [] && Completes(RunOf(w, pb, runId, fmt))
    requires s < |pb.sections| && j < |pb.sections[s].assertions|
    ensures var r := RunOf(w, pb, runId, fmt);
            var a, m := pb.sections[s].assertions[j], r.events[|r.events| - 1].report.assertions;
            && a.code in m
            && var e, all := m[a.code], Gathered(w, s, j, a);
               && e.score == Total(w, s, j, a.cmds, |a.cmds|)
               && e.minScore == a.GetMinPassingScore()
               && (e.passed <==> e.score >= e.minScore)
               && (forall k :: k in e.context <==> k in all && !Excluded(a, k))
               && (forall k :: k in e.context ==> e.context[k] == all[k])
  {
    hide RunOf, Flat, PlaybookErrors, Total, Gathered, Excluded, CountPassed, PassedEntries, PassScores, Logged,
         Answers, Outputs;
    var r := RunOf(w, pb, runId, fmt);
    var ss := r.trace.sections;
    ReportConservation(w, pb, runId, fmt, agent);
    AllFinished(w, pb, runId, fmt);
    var i := |Flat(ss[..s])| + j;
    FlatAt(ss, s, j);
    TraceTold(w, pb, runId, fmt);
    assert Told(w, s, j, ss[s].assertions[j]);
    assert Matches(pb.sections[s], ss[s], |pb.sections[s].assertions|);
  }

  /** Of any run, of invalid playbooks and cancelled too: the context of every entry of the report is that of
      an assertion with its code, gathered without the keys some command of it excludes; nothing when the
      assertion did not finish. */
  lemma ReportedContexts(w: World, pb: Playbook, runId: string, fmt: Formats, code: string)
    requires code in Generate(RunOf(w, pb, runId, fmt).trace, fmt).structured.assertions
    ensures var ss := RunOf(w, pb, runId, fmt).trace.sections;
            var shown := Generate(RunOf(w, pb, runId, fmt).trace, fmt).structured.assertions[code].context;
            exists s, j :: 0 <= s < |ss| && 0 <= j < |ss[s].assertions|
                           && ss[s].assertions[j].assertion.code == code && shown == ss[s].assertions[j].context
                           && Shows(w, s, j, ss[s].assertions[j])
  {
    hide RunOf, Generate, Flat, Shows, Scored, Recorded;
    var t := RunOf(w, pb, runId, fmt).trace;
    ReportMapExactly(t, fmt, code);
    var f, e := Flat(t.sections), Generate(t, fmt).structured.assertions[code];
    var i :| 0 <= i < |f| && f[i].assertion.code == code && e.context == f[i].context;
    var s, j := FlatFrom(t.sections, i);
    TraceTold(w, pb, runId, fmt);
    assert Told(w, s, j, t.sections[s].assertions[j]);
  }

  /** A completed run finished every assertion. */
  lemma AllFinished(w: World, pb: Playbook, runId: string, fmt: Formats)
    requires Completes(RunOf(w, pb, runId, fmt))
    ensures var ss := RunOf(w, pb, runId, fmt).trace.sections;
            && |ss| == |pb.sections|
            && (forall i :: 0 <= i < |ss| ==> Matches(pb.sections[i], ss[i], |pb.sections[i].assertions|))
            && (forall i :: 0 <= i < |Flat(ss)| ==> Flat(ss)[i].status.IsFinished())
  {
    hide RunOf, Flat, Parse;
    FinalStanding(w, pb, runId, fmt);
    TerminalEventMeaning(w, pb, runId, fmt);
  }

  /** With the default pass mark and sensible scores: passed in the report exactly when every command's
      execution and verdict were good. */
  lemma ReportedPassMeansAllPass(w: World, pb: Playbook, runId: string, fmt: Formats, agent: bool, s: nat, j: nat)
    requires PlaybookErrors(pb, agent) == [] && Completes(RunOf(w, pb, runId, fmt))
    requires s < |pb.sections| && j < |pb.sections[s].assertions|
    requires var a := pb.sections[s].assertions[j];
             a.minPassingScore.None? && a.cmds != [] && Scoring.Sensible(a.cmds)
    ensures var r := RunOf(w, pb, runId, fmt);
            var a, m := pb.sections[s].assertions[j], r.events[|r.events| - 1].report.assertions;
            a.code in m && (m[a.code].passed <==> Scoring.AllPass(w, s, j, a.cmds, |a.cmds|))
  {
    hide RunOf, PlaybookErrors, Total, Gathered, Excluded, Scoring.AllPass;
    var cs := pb.sections[s].assertions[j].cmds;
    EveryAssertionIsReported(w, pb, runId, fmt, agent, s, j);
    Scoring.TotalBound(w, s, j, cs, |cs|);
    assert cs[..|cs|] == cs;
  }
}
