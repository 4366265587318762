/** What the entries of a trace say, told from the replies of the outside world alone: scores, verdicts,
    shown context, logs and outputs of every assertion, wherever the run was cancelled. */
module TraceEntries {
  import opened Text
  import opened PlaybookTypes
  import opened Executor
  import opened Report
  import opened Director

  // ---------------------------------------------------------------- what an entry should say

  /** The sum of what the first k commands contribute. */
  function Total(w: World, s: nat, j: nat, cs: seq<Cmd>, k: nat): int
    requires k <= |cs|
  {
    if k == 0 then 0
    else Total(w, s, j, cs, k - 1) + Contribution(cs[k - 1], w.replies(Site(s, j, MainCmd, k - 1)))
  }

  /** The outputs of the first k commands, of those without error. */
  function Outputs(w: World, s: nat, j: nat, cs: seq<Cmd>, k: nat): seq<string>
    requires k <= |cs|
  {
    if k == 0 then []
    else
      var r := w.replies(Site(s, j, MainCmd, k - 1));
      Outputs(w, s, j, cs, k - 1) + if r.err.Some? then [] else CmdOutputs(cs[k - 1], r.result)
  }

  /** The context map as the last command of the assertion leaves it. */
  function Gathered(w: World, s: nat, j: nat, a: Assertion): map<string, string> {
    if a.postCmds != [] then w.replies(Site(s, j, PostCmd, |a.postCmds| - 1)).context
    else if a.cmds != [] then w.replies(Site(s, j, MainCmd, |a.cmds| - 1)).context
    else if a.preCmds != [] then w.replies(Site(s, j, PreCmd, |a.preCmds| - 1)).context
    else map[]
  }

  /** The score of a finished entry is the sum over its commands, and the pass mark decides. */
  predicate Scored(w: World, s: nat, j: nat, c: AssertionContext) {
    c.status.IsFinished() ==>
      && c.score == Total(w, s, j, c.assertion.cmds, |c.assertion.cmds|)
      && c.minScore == c.assertion.GetMinPassingScore()
      && c.passed == (c.score >= c.minScore) && c.passed == c.status.Passed?
  }

  /** A finished entry shows what was gathered, but for the keys some command of the assertion excludes;
      any other entry shows nothing, has no score and did not pass. */
  ghost predicate Shows(w: World, s: nat, j: nat, c: AssertionContext) {
    var all := Gathered(w, s, j, c.assertion);
    && (c.status.IsFinished() ==>
          && (forall k :: k in c.context <==> k in all && !Excluded(c.assertion, k))
          && (forall k :: k in c.context ==> c.context[k] == all[k]))
    && (!c.status.IsFinished() ==>
          c.context == map[] && c.score == 0 && !c.passed && c.status.Cancelled?
          && c.minScore == if c.start.Some? then 0 else c.assertion.GetMinPassingScore())
  }

  /** The log records the reply to the command at its site, with two consecutive readings of the clock. */
  ghost predicate Answers(w: World, site: Site, e: Exec, l: CommandLog) {
    && l.exec == e && l.result == w.replies(site).result && l.err == w.replies(site).err
    && l.status == (if l.err.Some? then CommandFailed else CommandCompleted)
    && exists t: nat :: l.start == w.Now(t) && l.end == Some(w.clock(t + 1))
  }

  ghost predicate Logged(w: World, s: nat, j: nat, phase: Phase, es: seq<Exec>, logs: seq<CommandLog>) {
    && |logs| <= |es|
    && forall k :: 0 <= k < |logs| ==> Answers(w, Site(s, j, phase, k), es[k], logs[k])
  }

  function Execs(cs: seq<Cmd>): seq<Exec> { seq(|cs|, i requires 0 <= i < |cs| => cs[i].exec) }

  /** Every phase is logged command by command, up to its end when the assertion finished; the outputs
      are those of the logged commands; and the entry ends after it starts. */
  ghost predicate Recorded(w: World, s: nat, j: nat, c: AssertionContext) {
    var a := c.assertion;
    && Logged(w, s, j, PreCmd, a.preCmds, c.preCmdLogs)
    && Logged(w, s, j, MainCmd, Execs(a.cmds), c.cmdLogs)
    && Logged(w, s, j, PostCmd, a.postCmds, c.postCmdLogs)
    && (c.status.IsFinished() ==>
          |c.preCmdLogs| == |a.preCmds| && |c.cmdLogs| == |a.cmds| && |c.postCmdLogs| == |a.postCmds|)
    && c.outputs == Outputs(w, s, j, a.cmds, |c.cmdLogs|)
    && (c.start.Some? || c.status.IsFinished() ==>
          exists t: nat, u: nat :: t < u && c.start == w.Now(t) && c.end == w.Now(u))
  }

  ghost predicate Told(w: World, s: nat, j: nat, c: AssertionContext) {
    Scored(w, s, j, c) && Shows(w, s, j, c) && Recorded(w, s, j, c)
  }

  ghost predicate AllTold(w: World, ss: seq<SectionContext>) {
    forall s, j :: 0 <= s < |ss| && 0 <= j < |ss[s].assertions| ==> Told(w, s, j, ss[s].assertions[j])
  }

  // ---------------------------------------------------------------- the three command loops

  /** The context of the last of the first n commands of a phase; what came in when there is none. */
  function Last(w: World, s: nat, j: nat, phase: Phase, n: nat, before: map<string, string>): map<string, string> {
    if n == 0 then before else w.replies(Site(s, j, phase, n - 1)).context
  }

  lemma EntryAnswers(w: World, site: Site, e: Exec, tick: nat)
    ensures Answers(w, site, e, LogEntry(w, e, w.replies(site), tick))
  {
    assert LogEntry(w, e, w.replies(site), tick).start == w.Now(tick);
  }

  lemma {:induction false} SideTells(w: World, s: nat, j: nat, phase: Phase, es: seq<Exec>, code: string, f: Frame,
                                     k: nat)
    requires k <= |es| && !f.cancelled && f.logs == []
    ensures var g := SideAfter(w, s, j, phase, es, code, f, k);
            && g.score == f.score && g.outputs == f.outputs && g.ticks >= f.ticks
            && Logged(w, s, j, phase, es, g.logs) && |g.logs| <= k && (!g.cancelled ==> |g.logs| == k)
            && g.context == Last(w, s, j, phase, |g.logs|, f.context)
  {
    hide LogEntry, Answers;
    if k > 0 {
      SideTells(w, s, j, phase, es, code, f, k - 1);
      EntryAnswers(w, Site(s, j, phase, k - 1), es[k - 1],
                   SideAfter(w, s, j, phase, es, code, f, k - 1).ticks);
    }
  }

  lemma {:induction false} MainTells(w: World, s: nat, j: nat, cs: seq<Cmd>, f: Frame, k: nat)
    requires k <= |cs| && !f.cancelled && f.logs == [] && f.score == 0 && f.outputs == []
    ensures var g := MainAfter(w, s, j, cs, f, k);
            && g.ticks >= f.ticks && |g.logs| <= k && (!g.cancelled ==> |g.logs| == k)
            && Logged(w, s, j, MainCmd, Execs(cs), g.logs)
            && g.score == Total(w, s, j, cs, |g.logs|) && g.outputs == Outputs(w, s, j, cs, |g.logs|)
            && g.context == Last(w, s, j, MainCmd, |g.logs|, f.context)
  {
    hide LogEntry, Answers, Contribution, CmdOutputs;
    if k > 0 {
      MainTells(w, s, j, cs, f, k - 1);
      EntryAnswers(w, Site(s, j, MainCmd, k - 1), cs[k - 1].exec, MainAfter(w, s, j, cs, f, k - 1).ticks);
    }
  }

  // ---------------------------------------------------------------- one assertion

  lemma GatheredIs(w: World, s: nat, j: nat, a: Assertion)
    ensures Last(w, s, j, PostCmd, |a.postCmds|,
                 Last(w, s, j, MainCmd, |a.cmds|, Last(w, s, j, PreCmd, |a.preCmds|, map[])))
            == Gathered(w, s, j, a)
  {
  }

  /** The frame at the end of an assertion, with the logs of the two phases before. */
  ghost predicate FrameTells(w: World, s: nat, j: nat, a: Assertion, start: nat,
                             pre: seq<CommandLog>, main: seq<CommandLog>, f: Frame) {
    && Logged(w, s, j, PreCmd, a.preCmds, pre) && Logged(w, s, j, MainCmd, Execs(a.cmds), main)
    && Logged(w, s, j, PostCmd, a.postCmds, f.logs)
    && |main| <= |a.cmds| && f.outputs == Outputs(w, s, j, a.cmds, |main|) && start < f.ticks
    && (!f.cancelled ==>
          && |pre| == |a.preCmds| && |main| == |a.cmds| && |f.logs| == |a.postCmds|
          && f.score == Total(w, s, j, a.cmds, |a.cmds|) && f.context == Gathered(w, s, j, a))
  }

  lemma AssertionTells(w: World, s: nat, j: nat, a: Assertion, total: nat, polls: nat, ticks: nat, events: seq<Event>)
    ensures var pre := PreFrame(w, s, j, a, StartFrame(a, j, total, polls, ticks, events));
            var main := MainFrame(w, s, j, a, pre);
            FrameTells(w, s, j, a, ticks, pre.logs, main.logs, PostFrame(w, s, j, a, main))
  {
    hide SideAfter, MainAfter, Total, Outputs, Answers, Last, Gathered;
    var f := StartFrame(a, j, total, polls, ticks, events);
    var pre := PreFrame(w, s, j, a, f);
    SideTells(w, s, j, PreCmd, a.preCmds, a.code, f, |a.preCmds|);
    GatheredIs(w, s, j, a);
    NothingYet(w, s, j, a.cmds);
    if !pre.cancelled {
      MainTells(w, s, j, a.cmds, pre.(logs := []), |a.cmds|);
      var main := MainFrame(w, s, j, a, pre);
      if !main.cancelled {
        SideTells(w, s, j, PostCmd, a.postCmds, a.code, main.(logs := []), |a.postCmds|);
      }
    }
  }

  lemma NothingYet(w: World, s: nat, j: nat, cs: seq<Cmd>)
    ensures Outputs(w, s, j, cs, 0) == []
  {
  }

  lemma ConcludeTold(w: World, s: nat, j: nat, a: Assertion, start: nat,
                     pre: seq<CommandLog>, main: seq<CommandLog>, f: Frame)
    requires FrameTells(w, s, j, a, start, pre, main, f)
    ensures Told(w, s, j, Conclude(w, a, w.Now(start), pre, main, f))
  {
    hide Total, Outputs, Gathered, Logged, Excluded, ExcludedKeys, Visible, PassScores;
    ShownKeys(a, f.context);
    var c := Conclude(w, a, w.Now(start), pre, main, f);
    assert c.start == w.Now(start) && c.end == w.Now(f.ticks);
  }

  lemma AppendTold(w: World, ss: seq<SectionContext>, c: AssertionContext)
    requires ss != [] && AllTold(w, ss) && Told(w, |ss| - 1, |ss[|ss| - 1].assertions|, c)
    ensures AllTold(w, AppendLast(ss, c))
  {
    hide Told;
  }

  /** The entry an assertion leaves. */
  function EntryOf(w: World, s: nat, j: nat, a: Assertion, total: nat, t: RunState): AssertionContext {
    var pre := PreFrame(w, s, j, a, StartFrame(a, j, total, t.polls, t.ticks, t.events));
    var main := MainFrame(w, s, j, a, pre);
    Conclude(w, a, w.Now(t.ticks), pre.logs, main.logs, PostFrame(w, s, j, a, main))
  }

  lemma ExecuteTold(w: World, s: nat, j: nat, a: Assertion, total: nat, t: RunState)
    requires t.sections != [] && |t.sections| == s + 1 && |t.sections[s].assertions| == j && AllTold(w, t.sections)
    ensures var u := Execute(w, s, j, a, total, t);
            AllTold(w, u.sections) && |u.sections| == s + 1 && |u.sections[s].assertions| == j + 1
  {
    hide Told, Conclude, PreFrame, MainFrame, PostFrame, StartFrame, Announce, FrameTells;
    var pre := PreFrame(w, s, j, a, StartFrame(a, j, total, t.polls, t.ticks, t.events));
    var main := MainFrame(w, s, j, a, pre);
    AssertionTells(w, s, j, a, total, t.polls, t.ticks, t.events);
    ConcludeTold(w, s, j, a, t.ticks, pre.logs, main.logs, PostFrame(w, s, j, a, main));
    AppendTold(w, t.sections, EntryOf(w, s, j, a, total, t));
  }

  // ---------------------------------------------------------------- the whole trace

  /** j assertions of the open section are in the trace. */
  predicate OpenAt(t: RunState, s: nat, j: nat) {
    |t.sections| == s + 1 && |t.sections[s].assertions| == j
  }

  lemma {:induction false} AssertionsTold(w: World, pb: Playbook, s: nat, t: RunState, k: nat)
    requires s < |pb.sections| && k <= |pb.sections[s].assertions| && OpenAt(t, s, 0) && AllTold(w, t.sections)
    requires t.halt.None?
    ensures var u := AssertionsAfter(w, pb, s, t, k);
            && AllTold(w, u.sections) && |u.sections| == s + 1
            && (u.halt.None? ==> OpenAt(u, s, k))
  {
    hide Told, Execute, AllTold;
    if k > 0 {
      AssertionsTold(w, pb, s, t, k - 1);
      var u := AssertionsAfter(w, pb, s, t, k - 1);
      if u.halt.None? && !w.CancelledAt(u.polls) {
        ExecuteTold(w, s, k - 1, pb.sections[s].assertions[k - 1], |pb.sections[s].assertions|,
                    u.(polls := u.polls + 1));
      }
    }
  }

  lemma OpenTold(w: World, pb: Playbook, s: nat, t: RunState)
    requires s < |pb.sections| && AllTold(w, t.sections) && |t.sections| == s
    ensures AllTold(w, OpenSection(pb, s, t).sections) && OpenAt(OpenSection(pb, s, t), s, 0)
  {
    hide Told;
  }

  lemma {:induction false} SectionsTold(w: World, pb: Playbook, t: RunState, k: nat)
    requires k <= |pb.sections| && t.sections == [] && t.halt.None?
    ensures var u := SectionsAfter(w, pb, t, k);
            AllTold(w, u.sections) && (u.halt.None? ==> |u.sections| == k)
  {
    hide Told, AssertionsAfter;
    if k > 0 {
      SectionsTold(w, pb, t, k - 1);
      var u := SectionsAfter(w, pb, t, k - 1);
      if u.halt.None? && !w.CancelledAt(u.polls) {
        OpenTold(w, pb, k - 1, u);
        AssertionsTold(w, pb, k - 1, OpenSection(pb, k - 1, u), |pb.sections[k - 1].assertions|);
      }
    }
  }

  lemma UnrunTold(w: World, s: nat, j: nat, a: Assertion)
    ensures Told(w, s, j, Unrun(a))
  {
    hide PassScores, Gathered, Excluded;
  }

  lemma {:induction false} UnwindListTold(w: World, s: Section, from: nat, t: RunState, k: nat)
    requires from <= k <= |s.assertions| && t.sections != [] && AllTold(w, t.sections)
    ensures AllTold(w, UnwindList(s, from, t, k).sections)
    decreases k
  {
    hide Told, Unrun, AllTold, Announce, AppendLast;
    if from < k {
      UnwindListTold(w, s, from, t, k - 1);
      var ss := UnwindList(s, from, t, k - 1).sections;
      UnrunTold(w, |ss| - 1, |ss[|ss| - 1].assertions|, s.assertions[k - 1]);
      AppendTold(w, ss, Unrun(s.assertions[k - 1]));
    }
  }

  lemma ReachTold(w: World, s: Section, i: nat, t: RunState)
    requires AllTold(w, t.sections) && i <= |t.sections|
    ensures Reach(s, i, t).sections != [] && AllTold(w, Reach(s, i, t).sections)
  {
    hide Told;
  }

  lemma {:induction false} UnwindTold(w: World, pb: Playbook, from: nat, next: nat, t: RunState, k: nat)
    requires from <= k <= |pb.sections| && from < |pb.sections| && next <= |pb.sections[from].assertions|
    requires from <= |t.sections| <= from + 1 && AllTold(w, t.sections)
    ensures AllTold(w, UnwindAfter(pb, from, next, t, k).sections)
    decreases k
  {
    hide AllTold, UnwindList, Reach;
    if from < k {
      UnwindTold(w, pb, from, next, t, k - 1);
      var u := UnwindAfter(pb, from, next, t, k - 1);
      var s := pb.sections[k - 1];
      ReachTold(w, s, k - 1, u);
      UnwindListTold(w, s, if k - 1 == from then next else 0, Reach(s, k - 1, u), |s.assertions|);
    }
  }

  /** Every entry of every trace says what the replies of the outside world make it say. */
  lemma TraceTold(w: World, pb: Playbook, runId: string, fmt: Formats)
    ensures AllTold(w, RunOf(w, pb, runId, fmt).trace.sections)
  {
    hide Told, SectionsAfter, UnwindAfter, Generate;
    SectionsTold(w, pb, InitialState(runId), |pb.sections|);
    HaltsInside(w, pb, runId);
    var t := Body(w, pb, runId);
    if t.halt.Some? {
      UnwindTold(w, pb, t.halt.value.0, t.halt.value.1, t, |pb.sections|);
    }
  }
}
