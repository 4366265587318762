/** director/director.go: the run engine, against an arbitrary outside world. The functions say what a
    run does step by step; the methods are the nested loops, proved to do exactly that. */
module Director {
  import opened Text
  import opened PlaybookTypes
  import opened Executor
  import opened Report

  // ---------------------------------------------------------------- the outside world

  datatype Phase = PreCmd | MainCmd | PostCmd

  /** A command of the playbook by position; a run executes each at most once. */
  datatype Site = Site(section: nat, assertion: nat, phase: Phase, index: nat)

  /** What executing the command at a site brings: runExec's result and error, the verdicts of the two
      rules, and the assertion's context map as the command and its rules leave it. */
  datatype Reply = Reply(
    result: ExecutionResult, err: Option<string>, outVerdict: int, errVerdict: int,
    context: map<string, string>)

  /** cancelAt is the first poll of ctx.Err() that sees the cancellation; all later polls see it too. */
  datatype World = World(replies: Site -> Reply, cancelAt: Option<nat>, clock: nat -> int)
  {
    predicate CancelledAt(poll: nat) { cancelAt.Some? && cancelAt.value <= poll }
    function Now(tick: nat): Time { Some(clock(tick)) }
  }

  // ---------------------------------------------------------------- observer events

  datatype ProgressResult = ProgressResult(
    code: string, status: AssertionStatus, passed: bool, score: int, minScore: int,
    durationMs: int, output: string)

  datatype Event =
    | RunStart(runId: string)
    | SectionStart(title: string, index: nat, total: nat)
    | AssertionStart(code: string, index: nat, total: nat, minScore: int)
    | CommandWarning(phase: Phase, code: string, err: string)
    | AssertionComplete(result: ProgressResult)
    | RunComplete(trace: ExecutionTrace, report: FinalReport)
    | RunCancelled(runId: string, trace: ExecutionTrace)

  /** Duration.Milliseconds truncates toward zero. */
  function Millis(start: Time, end: Time): int {
    if start.None? || end.None? then 0
    else
      var d := end.value - start.value;
      if d >= 0 then d / 1_000_000 else -((-d) / 1_000_000)
  }

  /** Whole milliseconds, towards zero. */
  lemma MillisAre(start: Time, end: Time)
    requires start.Some? && end.Some?
    ensures var d, ms := end.value - start.value, Millis(start, end);
            && (d >= 0 ==> ms * 1_000_000 <= d < (ms + 1) * 1_000_000)
            && (d < 0 ==> (ms - 1) * 1_000_000 < d <= ms * 1_000_000)
  {
  }

  // ---------------------------------------------------------------- verdicts

  function FirstMatch(rules: seq<ExitCodeRule>, exitCode: int): Option<int> {
    if rules == [] then None
    else if rules[0].Matches(exitCode) then Some(rules[0].result)
    else FirstMatch(rules[1..], exitCode)
  }

  function ExitVerdict(rules: seq<ExitCodeRule>, exitCode: int): int {
    var m := FirstMatch(rules, exitCode);
    if m.Some? then m.value else if exitCode == 0 then 1 else -1
  }

  function RuleVerdict(rule: EvaluationRule, verdict: int): int { if rule.IsSet() then verdict else 0 }

  /** The first nonzero of the stderr rule and the stdout rule, then the exit code's verdict. */
  function Verdict(c: Cmd, r: Reply): int {
    if RuleVerdict(c.stdErrRule, r.errVerdict) != 0 then r.errVerdict
    else if RuleVerdict(c.stdOutRule, r.outVerdict) != 0 then r.outVerdict
    else ExitVerdict(c.exitCodeRules, r.result.exitCode)
  }

  function Contribution(c: Cmd, r: Reply): int {
    if r.err.Some? || Verdict(c, r) == -1 then c.GetFailScore()
    else if Verdict(c, r) == 1 then c.GetPassScore()
    else 0
  }

  /** The verdict by cases: a set stderr rule that decides, otherwise a set stdout rule that decides,
      otherwise the first exit code rule whose range holds the code, otherwise whether the code is zero. */
  lemma VerdictByCases(c: Cmd, r: Reply)
    ensures var rules, x, v := c.exitCodeRules, r.result.exitCode, Verdict(c, r);
            if (c.stdErrRule.regex != "" || c.stdErrRule.code != "") && r.errVerdict != 0 then v == r.errVerdict
            else if (c.stdOutRule.regex != "" || c.stdOutRule.code != "") && r.outVerdict != 0 then v == r.outVerdict
            else
              || (exists i :: 0 <= i < |rules| && Holds(rules[i], x) && v == rules[i].result
                              && forall h :: 0 <= h < i ==> !Holds(rules[h], x))
              || ((forall i :: 0 <= i < |rules| ==> !Holds(rules[i], x)) && v == if x == 0 then 1 else -1)
  {
    FirstMatchIs(c.exitCodeRules, r.result.exitCode);
  }

  predicate Holds(rule: ExitCodeRule, x: int) {
    (rule.min.None? || rule.min.value <= x) && (rule.max.None? || x <= rule.max.value)
  }

  lemma {:induction false} FirstMatchIs(rules: seq<ExitCodeRule>, x: int)
    ensures var m := FirstMatch(rules, x);
            || (exists i :: 0 <= i < |rules| && Holds(rules[i], x) && m == Some(rules[i].result)
                            && forall h :: 0 <= h < i ==> !Holds(rules[h], x))
            || ((forall i :: 0 <= i < |rules| ==> !Holds(rules[i], x)) && m == None)
  {
    if rules != [] && !Holds(rules[0], x) {
      FirstMatchIs(rules[1..], x);
      if i :| 0 <= i < |rules| - 1 && Holds(rules[1..][i], x) && FirstMatch(rules, x) == Some(rules[1..][i].result)
              && forall h :: 0 <= h < i ==> !Holds(rules[1..][h], x) {
        assert forall h :: 1 <= h < i + 1 ==> rules[h] == rules[1..][h - 1];
        assert Holds(rules[i + 1], x);
      } else {
        assert forall h :: 1 <= h < |rules| ==> rules[h] == rules[1..][h - 1];
      }
    }
  }

  /** What a command adds to the score, by the same cases. */
  lemma ContributionByCases(c: Cmd, r: Reply)
    ensures var fail := if c.failScore.Some? then c.failScore.value else -1;
            var pass := if c.passScore.Some? then c.passScore.value else 1;
            Contribution(c, r) == if r.err.Some? then fail
                                  else if Verdict(c, r) == 1 then pass
                                  else if Verdict(c, r) == -1 then fail
                                  else 0
  {
  }

  function CmdOutputs(c: Cmd, r: ExecutionResult): seq<string> {
    if c.exec.excludeFromReport then [REDACTED]
    else if r.stderr != "" then
      (if r.stdout != "" then [STDOUT_MARK, r.stdout] else []) + [STDERR_MARK, r.stderr]
    else [r.stdout]
  }

  // ---------------------------------------------------------------- context keys

  function ExecsHidden(es: seq<Exec>): set<string> {
    set e, g | e in es && g in e.gather && g.excludeFromReport :: g.key
  }

  function CmdsHidden(cs: seq<Cmd>): set<string> {
    set c, g | c in cs && g in c.exec.gather && g.excludeFromReport :: g.key
  }

  function ExcludedKeys(a: Assertion): set<string> {
    ExecsHidden(a.preCmds) + CmdsHidden(a.cmds) + ExecsHidden(a.postCmds)
  }

  function Visible(context: map<string, string>, hidden: set<string>): map<string, string> {
    map k | k in context && k !in hidden :: context[k]
  }

  /** Some command of the assertion gathers the key and excludes it from the report. */
  predicate Excluded(a: Assertion, k: string) {
    || (exists e, g :: e in a.preCmds && g in e.gather && g.excludeFromReport && g.key == k)
    || (exists c, g :: c in a.cmds && g in c.exec.gather && g.excludeFromReport && g.key == k)
    || (exists e, g :: e in a.postCmds && g in e.gather && g.excludeFromReport && g.key == k)
  }

  /** A gathered key is shown exactly when no command of any phase excludes it, with its value. */
  lemma ShownKeys(a: Assertion, context: map<string, string>)
    ensures var shown := Visible(context, ExcludedKeys(a));
            && (forall k :: k in shown <==>
                  && k in context
                  && (forall e, g :: e in a.preCmds && g in e.gather && g.excludeFromReport ==> g.key != k)
                  && (forall c, g :: c in a.cmds && g in c.exec.gather && g.excludeFromReport ==> g.key != k)
                  && (forall e, g :: e in a.postCmds && g in e.gather && g.excludeFromReport ==> g.key != k))
            && (forall k :: k in shown ==> shown[k] == context[k])
            && (forall k :: k in shown <==> k in context && !Excluded(a, k))
  {
  }

  // ---------------------------------------------------------------- one assertion

  /** The engine's variables inside an assertion; `logs` are those of the current phase. */
  datatype Frame = Frame(
    polls: nat, ticks: nat, events: seq<Event>, context: map<string, string>,
    cancelled: bool, logs: seq<CommandLog>, score: int, outputs: seq<string>)

  function LogEntry(w: World, e: Exec, r: Reply, tick: nat): CommandLog {
    CommandLog(e, if r.err.Some? then CommandFailed else CommandCompleted,
               w.Now(tick), w.Now(tick + 1), r.result, r.err)
  }

  /** One pre- or post-command. */
  function SideStep(w: World, site: Site, e: Exec, code: string, f: Frame): Frame {
    if w.CancelledAt(f.polls) then f.(polls := f.polls + 1, cancelled := true)
    else
      var r := w.replies(site);
      f.(polls := f.polls + 1, ticks := f.ticks + 2, context := r.context,
         logs := f.logs + [LogEntry(w, e, r, f.ticks)],
         events := if r.err.Some? then f.events + [CommandWarning(site.phase, code, r.err.value)] else f.events)
  }

  function SideAfter(w: World, s: nat, a: nat, phase: Phase, es: seq<Exec>, code: string, f: Frame, k: nat): Frame
    requires k <= |es|
  {
    if k == 0 then f
    else
      var g := SideAfter(w, s, a, phase, es, code, f, k - 1);
      if g.cancelled then g else SideStep(w, Site(s, a, phase, k - 1), es[k - 1], code, g)
  }

  function MainStep(w: World, site: Site, c: Cmd, f: Frame): Frame {
    if w.CancelledAt(f.polls) then f.(polls := f.polls + 1, cancelled := true)
    else
      var r := w.replies(site);
      f.(polls := f.polls + 1, ticks := f.ticks + 2, context := r.context,
         logs := f.logs + [LogEntry(w, c.exec, r, f.ticks)],
         score := f.score + Contribution(c, r),
         outputs := f.outputs + if r.err.Some? then [] else CmdOutputs(c, r.result))
  }

  function MainAfter(w: World, s: nat, a: nat, cs: seq<Cmd>, f: Frame, k: nat): Frame
    requires k <= |cs|
  {
    if k == 0 then f
    else
      var g := MainAfter(w, s, a, cs, f, k - 1);
      if g.cancelled then g else MainStep(w, Site(s, a, MainCmd, k - 1), cs[k - 1], g)
  }

  function StartFrame(a: Assertion, j: nat, total: nat, polls: nat, ticks: nat, events: seq<Event>): Frame {
    Frame(polls, ticks + 1, events + [AssertionStart(a.code, j + 1, total, a.GetMinPassingScore())],
          map[], false, [], 0, [])
  }

  function PreFrame(w: World, s: nat, j: nat, a: Assertion, f: Frame): Frame {
    SideAfter(w, s, j, PreCmd, a.preCmds, a.code, f, |a.preCmds|)
  }

  function MainFrame(w: World, s: nat, j: nat, a: Assertion, f: Frame): Frame {
    if f.cancelled then f.(logs := []) else MainAfter(w, s, j, a.cmds, f.(logs := []), |a.cmds|)
  }

  function PostFrame(w: World, s: nat, j: nat, a: Assertion, f: Frame): Frame {
    if f.cancelled then f.(logs := [])
    else SideAfter(w, s, j, PostCmd, a.postCmds, a.code, f.(logs := []), |a.postCmds|)
  }

  function Conclude(w: World, a: Assertion, start: Time, pre: seq<CommandLog>, main: seq<CommandLog>, f: Frame)
    : AssertionContext
  {
    var end := w.Now(f.ticks);
    if f.cancelled then
      AssertionContext(a, Cancelled, start, end, false, 0, 0, map[], pre, main, f.logs, f.outputs)
    else
      var passed := f.score >= a.GetMinPassingScore();
      AssertionContext(a, if passed then Passed else Failed, start, end, passed, f.score,
                       a.GetMinPassingScore(), Visible(f.context, ExcludedKeys(a)), pre, main, f.logs, f.outputs)
  }

  function Announce(c: AssertionContext, score: int): Event {
    AssertionComplete(ProgressResult(c.assertion.code, c.status, c.passed, score, c.assertion.GetMinPassingScore(),
                                     Millis(c.start, c.end), Join(c.outputs, "\n")))
  }

  // ---------------------------------------------------------------- the whole run

  /** The engine's variables outside an assertion; `halt` is where unwinding has to begin. */
  datatype RunState = RunState(
    polls: nat, ticks: nat, events: seq<Event>, sections: seq<SectionContext>,
    passed: nat, failed: nat, halt: Option<(nat, nat)>)

  function AppendLast(sections: seq<SectionContext>, c: AssertionContext): seq<SectionContext>
    requires sections != []
  {
    var n := |sections| - 1;
    sections[n := sections[n].(assertions := sections[n].assertions + [c])]
  }

  /** The assertion at (s, j), once started. */
  function Execute(w: World, s: nat, j: nat, a: Assertion, total: nat, t: RunState): RunState
    requires t.sections != []
  {
    var pre := PreFrame(w, s, j, a, StartFrame(a, j, total, t.polls, t.ticks, t.events));
    var main := MainFrame(w, s, j, a, pre);
    var post := PostFrame(w, s, j, a, main);
    var c := Conclude(w, a, w.Now(t.ticks), pre.logs, main.logs, post);
    t.(polls := post.polls, ticks := post.ticks + 1,
       events := post.events + [Announce(c, post.score)],
       sections := AppendLast(t.sections, c),
       passed := if c.status == Passed then t.passed + 1 else t.passed,
       failed := if c.status == Failed then t.failed + 1 else t.failed,
       halt := if post.cancelled then Some((s, j + 1)) else t.halt)
  }

  function AssertionStep(w: World, pb: Playbook, s: nat, j: nat, t: RunState): (r: RunState)
    requires s < |pb.sections| && j < |pb.sections[s].assertions| && t.sections != []
    ensures |r.sections| == |t.sections|
    ensures t.halt.None? && r.halt.Some? ==> r.halt.value.0 == s && j <= r.halt.value.1 <= j + 1
  {
    if w.CancelledAt(t.polls) then t.(polls := t.polls + 1, halt := Some((s, j)))
    else
      Execute(w, s, j, pb.sections[s].assertions[j], |pb.sections[s].assertions|, t.(polls := t.polls + 1))
  }

  function AssertionsAfter(w: World, pb: Playbook, s: nat, t: RunState, k: nat): (r: RunState)
    requires s < |pb.sections| && k <= |pb.sections[s].assertions| && t.sections != []
    ensures |r.sections| == |t.sections|
  {
    if k == 0 then t
    else
      var u := AssertionsAfter(w, pb, s, t, k - 1);
      if u.halt.Some? then u else AssertionStep(w, pb, s, k - 1, u)
  }

  function OpenSection(pb: Playbook, s: nat, t: RunState): RunState
    requires s < |pb.sections|
  {
    t.(polls := t.polls + 1,
       events := t.events + [SectionStart(pb.sections[s].title, s + 1, |pb.sections|)],
       sections := t.sections + [SectionContext(pb.sections[s], [])])
  }

  function SectionStep(w: World, pb: Playbook, s: nat, t: RunState): RunState
    requires s < |pb.sections|
  {
    if w.CancelledAt(t.polls) then t.(polls := t.polls + 1, halt := Some((s, 0)))
    else AssertionsAfter(w, pb, s, OpenSection(pb, s, t), |pb.sections[s].assertions|)
  }

  function SectionsAfter(w: World, pb: Playbook, t: RunState, k: nat): RunState
    requires k <= |pb.sections|
  {
    if k == 0 then t
    else
      var u := SectionsAfter(w, pb, t, k - 1);
      if u.halt.Some? then u else SectionStep(w, pb, k - 1, u)
  }

  /** An assertion that never ran. */
  function Unrun(a: Assertion): AssertionContext {
    AssertionContext(a, Cancelled, None, None, false, 0, a.GetMinPassingScore(), map[], [], [], [], [])
  }

  function UnwindOne(a: Assertion, t: RunState): RunState
    requires t.sections != []
  {
    t.(sections := AppendLast(t.sections, Unrun(a)), events := t.events + [Announce(Unrun(a), 0)])
  }

  function UnwindList(s: Section, from: nat, t: RunState, k: nat): (r: RunState)
    requires from <= k <= |s.assertions| && t.sections != []
    ensures |r.sections| == |t.sections|
    decreases k
  {
    if k == from then t else UnwindOne(s.assertions[k - 1], UnwindList(s, from, t, k - 1))
  }

  /** The trace entry of a section the unwinding reaches: the open one, or a new one. */
  function Reach(s: Section, i: nat, t: RunState): RunState {
    if i < |t.sections| then t else t.(sections := t.sections + [SectionContext(s, [])])
  }

  function UnwindAfter(pb: Playbook, from: nat, next: nat, t: RunState, k: nat): (r: RunState)
    requires from <= k <= |pb.sections| && from < |pb.sections| && next <= |pb.sections[from].assertions|
    requires from <= |t.sections| <= from + 1
    ensures k == from ==> r == t
    ensures from < k ==> |r.sections| == k
    decreases k
  {
    if k == from then t
    else
      var s := pb.sections[k - 1];
      UnwindList(s, if k - 1 == from then next else 0,
                 Reach(s, k - 1, UnwindAfter(pb, from, next, t, k - 1)), |s.assertions|)
  }

  function InitialState(runId: string): RunState { RunState(0, 1, [RunStart(runId)], [], 0, 0, None) }

  function Body(w: World, pb: Playbook, runId: string): RunState {
    SectionsAfter(w, pb, InitialState(runId), |pb.sections|)
  }

  datatype Run = Run(trace: ExecutionTrace, events: seq<Event>)

  predicate HaltInside(pb: Playbook, t: RunState) {
    t.halt.Some? ==>
      var (s, j) := t.halt.value;
      s < |pb.sections| && j <= |pb.sections[s].assertions| && s <= |t.sections| <= s + 1
  }

  function TraceOf(w: World, pb: Playbook, t: RunState, passed: int, failed: int): ExecutionTrace {
    ExecutionTrace(pb, t.sections, w.Now(0), w.Now(t.ticks), passed, failed)
  }

  /** What RunWithObserver returns and reports. */
  function RunOf(w: World, pb: Playbook, runId: string, fmt: Formats): Run {
    HaltsInside(w, pb, runId);
    var t := Body(w, pb, runId);
    if t.halt.Some? then
      var u := UnwindAfter(pb, t.halt.value.0, t.halt.value.1, t, |pb.sections|);
      var trace := TraceOf(w, pb, u, 0, 0);
      Run(trace, u.events + [RunCancelled(runId, trace)])
    else
      var trace := TraceOf(w, pb, t, t.passed, t.failed);
      Run(trace, t.events + [RunComplete(trace, Generate(trace, fmt).structured)])
  }

  lemma {:induction false} HaltsInSection(w: World, pb: Playbook, s: nat, t: RunState, k: nat)
    requires s < |pb.sections| && k <= |pb.sections[s].assertions| && |t.sections| == s + 1 && t.halt.None?
    ensures var r := AssertionsAfter(w, pb, s, t, k);
            r.halt.Some? ==> r.halt.value.0 == s && r.halt.value.1 <= k
  {
    hide AssertionStep;
    if k > 0 {
      HaltsInSection(w, pb, s, t, k - 1);
    }
  }

  lemma {:induction false} HaltsAfter(w: World, pb: Playbook, t: RunState, k: nat)
    requires k <= |pb.sections| && t.sections == [] && t.halt.None?
    ensures var r := SectionsAfter(w, pb, t, k);
            && HaltInside(pb, r) && (r.halt.None? ==> |r.sections| == k)
            && (r.halt.Some? ==> r.halt.value.0 < k)
  {
    hide AssertionsAfter;
    if k > 0 {
      HaltsAfter(w, pb, t, k - 1);
      var u := SectionsAfter(w, pb, t, k - 1);
      if u.halt.None? && !w.CancelledAt(u.polls) {
        HaltsInSection(w, pb, k - 1, OpenSection(pb, k - 1, u), |pb.sections[k - 1].assertions|);
      }
    }
  }

  lemma HaltsInside(w: World, pb: Playbook, runId: string)
    ensures HaltInside(pb, Body(w, pb, runId))
  {
    HaltsAfter(w, pb, InitialState(runId), |pb.sections|);
  }
}
