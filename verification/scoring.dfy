/** The scoring rule: when a finished assertion passes. */
module Scoring {
  import opened Text
  import opened PlaybookTypes
  import opened Executor
  import opened Report
  import opened Director
  import opened TraceEntries

  /** The verdict is pass: a set stderr rule that decides says so, or none does and a set stdout rule that
      decides says so, or neither does and the first exit code rule whose range holds the exit code says
      so, or none holds it and the exit code is zero. */
  predicate Approves(c: Cmd, r: Reply) {
    var rules, x := c.exitCodeRules, r.result.exitCode;
    if (c.stdErrRule.regex != "" || c.stdErrRule.code != "") && r.errVerdict != 0 then r.errVerdict == 1
    else if (c.stdOutRule.regex != "" || c.stdOutRule.code != "") && r.outVerdict != 0 then r.outVerdict == 1
    else
      || (exists i :: 0 <= i < |rules| && Holds(rules[i], x) && rules[i].result == 1
                      && forall h :: 0 <= h < i ==> !Holds(rules[h], x))
      || ((forall i :: 0 <= i < |rules| ==> !Holds(rules[i], x)) && x == 0)
  }

  lemma ApprovesIsVerdict(c: Cmd, r: Reply)
    ensures Approves(c, r) <==> Verdict(c, r) == 1
  {
    hide Verdict;
    VerdictByCases(c, r);
  }

  /** A command passes when it executes without error and its verdict is pass. */
  predicate CommandPasses(w: World, s: nat, j: nat, k: nat, c: Cmd) {
    var r := w.replies(Site(s, j, MainCmd, k));
    r.err.None? && Approves(c, r)
  }

  /** Commands whose pass score is positive and above their fail score. */
  predicate Sensible(cs: seq<Cmd>) {
    forall k :: 0 <= k < |cs| ==> cs[k].GetPassScore() >= 1 && cs[k].GetFailScore() < cs[k].GetPassScore()
  }

  predicate AllPass(w: World, s: nat, j: nat, cs: seq<Cmd>, n: nat)
    requires n <= |cs|
  {
    forall k :: 0 <= k < n ==> CommandPasses(w, s, j, k, cs[k])
  }

  lemma {:induction false} TotalBound(w: World, s: nat, j: nat, cs: seq<Cmd>, n: nat)
    requires Sensible(cs) && n <= |cs|
    ensures n <= PassScores(cs[..n])
    ensures Total(w, s, j, cs, n) <= PassScores(cs[..n])
    ensures Total(w, s, j, cs, n) == PassScores(cs[..n]) <==> AllPass(w, s, j, cs, n)
  {
    hide Verdict, Approves;
    if n > 0 {
      TotalBound(w, s, j, cs, n - 1);
      ApprovesIsVerdict(cs[n - 1], w.replies(Site(s, j, MainCmd, n - 1)));
      assert cs[..n][..n - 1] == cs[..n - 1];
      assert cs[..n][n - 1] == cs[n - 1];
      assert AllPass(w, s, j, cs, n) <==> AllPass(w, s, j, cs, n - 1) && CommandPasses(w, s, j, n - 1, cs[n - 1]);
    }
  }

  predicate AllScored(w: World, ss: seq<SectionContext>) {
    forall s, j :: 0 <= s < |ss| && 0 <= j < |ss[s].assertions| ==> Scored(w, s, j, ss[s].assertions[j])
  }

  lemma TraceScored(w: World, pb: Playbook, runId: string, fmt: Formats)
    ensures AllScored(w, RunOf(w, pb, runId, fmt).trace.sections)
  {
    hide RunOf, Scored, Shows, Recorded;
    TraceTold(w, pb, runId, fmt);
    var ss := RunOf(w, pb, runId, fmt).trace.sections;
    forall s, j | 0 <= s < |ss| && 0 <= j < |ss[s].assertions| ensures Scored(w, s, j, ss[s].assertions[j]) {
      assert Told(w, s, j, ss[s].assertions[j]);
    }
  }

  /** With the default pass mark, at least one command, positive pass scores and fail scores below
      them, an assertion that finished passed exactly when every one of its commands passed. */
  lemma PassesWhenAllCommandsPass(w: World, pb: Playbook, runId: string, fmt: Formats, s: nat, j: nat)
    requires var ss := RunOf(w, pb, runId, fmt).trace.sections;
             && s < |ss| && j < |ss[s].assertions|
             && var c := ss[s].assertions[j];
                c.status.IsFinished() && c.assertion.minPassingScore.None?
                && c.assertion.cmds != [] && Sensible(c.assertion.cmds)
    ensures var c := RunOf(w, pb, runId, fmt).trace.sections[s].assertions[j];
            c.status == Passed <==> AllPass(w, s, j, c.assertion.cmds, |c.assertion.cmds|)
  {
    hide RunOf, Total, AllPass;
    TraceScored(w, pb, runId, fmt);
    var c := RunOf(w, pb, runId, fmt).trace.sections[s].assertions[j];
    var cs := c.assertion.cmds;
    assert Scored(w, s, j, c);
    TotalBound(w, s, j, cs, |cs|);
    assert cs[..|cs|] == cs;
  }
}
