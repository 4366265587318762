/** Redaction as noninterference: what a command or a gathered key excludes from the report never
    shows in an observer event or in any of the three report outputs. */
module Redaction {
  import opened Text
  import opened PlaybookTypes
  import opened Executor
  import opened Report
  import opened Director
  import opened TraceEntries

  // ---------------------------------------------------------------- what may be seen

  /** Only the emptiness of an excluded output may be seen. */
  function Mark(s: string): string { if s == "" then "" else REDACTED }

  function PublicResult(e: Exec, r: ExecutionResult): ExecutionResult {
    if e.excludeFromReport then ExecutionResult(Mark(r.stdout), Mark(r.stderr), r.exitCode, false)
    else r.(success := false)
  }

  function PublicReply(a: Assertion, e: Exec, r: Reply): Reply {
    r.(result := PublicResult(e, r.result), context := Visible(r.context, ExcludedKeys(a)))
  }

  function PublicLog(l: CommandLog): CommandLog { l.(result := PublicResult(l.exec, l.result)) }

  function PublicLogs(ls: seq<CommandLog>): seq<CommandLog> {
    seq(|ls|, i requires 0 <= i < |ls| => PublicLog(ls[i]))
  }

  function PublicAssertion(c: AssertionContext): AssertionContext {
    c.(preCmdLogs := [], cmdLogs := PublicLogs(c.cmdLogs), postCmdLogs := [])
  }

  function PublicAssertions(cs: seq<AssertionContext>): seq<AssertionContext> {
    seq(|cs|, i requires 0 <= i < |cs| => PublicAssertion(cs[i]))
  }

  function PublicSection(s: SectionContext): SectionContext { s.(assertions := PublicAssertions(s.assertions)) }

  function PublicSections(ss: seq<SectionContext>): seq<SectionContext> {
    seq(|ss|, i requires 0 <= i < |ss| => PublicSection(ss[i]))
  }

  function PublicFrame(a: Assertion, f: Frame): Frame {
    f.(logs := PublicLogs(f.logs), context := Visible(f.context, ExcludedKeys(a)))
  }

  function PublicState(t: RunState): RunState { t.(sections := PublicSections(t.sections)) }

  function PublicTrace(t: ExecutionTrace): ExecutionTrace { t.(sections := PublicSections(t.sections)) }

  function ExecAt(a: Assertion, phase: Phase, k: nat): (e: Option<Exec>) {
    match phase
    case PreCmd => if k < |a.preCmds| then Some(a.preCmds[k]) else None
    case MainCmd => if k < |a.cmds| then Some(a.cmds[k].exec) else None
    case PostCmd => if k < |a.postCmds| then Some(a.postCmds[k]) else None
  }

  /** The two worlds answer the commands of an assertion alike, as far as may be seen. */
  ghost predicate AgreeOn(w: World, v: World, s: nat, j: nat, a: Assertion) {
    forall phase, k: nat {:trigger Site(s, j, phase, k)} :: ExecAt(a, phase, k).Some? ==>
      var e := ExecAt(a, phase, k).value;
      PublicReply(a, e, w.replies(Site(s, j, phase, k))) == PublicReply(a, e, v.replies(Site(s, j, phase, k)))
  }

  ghost predicate Agree(w: World, v: World, pb: Playbook) {
    && w.cancelAt == v.cancelAt && (forall n: nat :: w.clock(n) == v.clock(n))
    && forall s: nat, j: nat {:trigger pb.sections[s].assertions[j]} ::
         s < |pb.sections| && j < |pb.sections[s].assertions| ==> AgreeOn(w, v, s, j, pb.sections[s].assertions[j])
  }

  lemma ExcludedMeans(a: Assertion)
    ensures forall k :: k !in ExcludedKeys(a) <==>
              && (forall x, g :: x in a.preCmds && g in x.gather && g.excludeFromReport ==> g.key != k)
              && (forall c, g :: c in a.cmds && g in c.exec.gather && g.excludeFromReport ==> g.key != k)
              && (forall x, g :: x in a.postCmds && g in x.gather && g.excludeFromReport ==> g.key != k)
  {
  }

  lemma AgreementInKeys(a: Assertion, e: Exec, r: Reply, q: Reply)
    ensures PublicReply(a, e, r) == PublicReply(a, e, q) <==>
            && r.err == q.err && r.outVerdict == q.outVerdict && r.errVerdict == q.errVerdict
            && r.result.exitCode == q.result.exitCode
            && (!e.excludeFromReport ==> r.result.stdout == q.result.stdout && r.result.stderr == q.result.stderr)
            && (r.result.stdout == "" <==> q.result.stdout == "")
            && (r.result.stderr == "" <==> q.result.stderr == "")
            && (forall k :: k !in ExcludedKeys(a) ==>
                  (k in r.context <==> k in q.context) && (k in r.context ==> r.context[k] == q.context[k]))
  {
    hide ExcludedKeys;
    var hidden := ExcludedKeys(a);
    var x, y := Visible(r.context, hidden), Visible(q.context, hidden);
    assert forall k :: k in x <==> k in r.context && k !in hidden;
    assert forall k :: k in y <==> k in q.context && k !in hidden;
    if PublicReply(a, e, r) == PublicReply(a, e, q) {
      assert x == y;
      forall k | k !in hidden
        ensures (k in r.context <==> k in q.context) && (k in r.context ==> r.context[k] == q.context[k])
      {
        assert k in x <==> k in y;
        if k in x {
          assert x[k] == y[k];
        }
      }
    }
  }

  /** What agreement asks of one command, spelled out. */
  lemma AgreementMeans(a: Assertion, e: Exec, r: Reply, q: Reply)
    ensures PublicReply(a, e, r) == PublicReply(a, e, q) <==>
            && r.err == q.err && r.outVerdict == q.outVerdict && r.errVerdict == q.errVerdict
            && r.result.exitCode == q.result.exitCode
            && (!e.excludeFromReport ==> r.result.stdout == q.result.stdout && r.result.stderr == q.result.stderr)
            && (r.result.stdout == "" <==> q.result.stdout == "")
            && (r.result.stderr == "" <==> q.result.stderr == "")
            && (forall k ::
                  && (forall x, g :: x in a.preCmds && g in x.gather && g.excludeFromReport ==> g.key != k)
                  && (forall c, g :: c in a.cmds && g in c.exec.gather && g.excludeFromReport ==> g.key != k)
                  && (forall x, g :: x in a.postCmds && g in x.gather && g.excludeFromReport ==> g.key != k)
                  ==> (k in r.context <==> k in q.context) && (k in r.context ==> r.context[k] == q.context[k]))
  {
    hide ExcludedKeys, PublicReply;
    ExcludedMeans(a);
    AgreementInKeys(a, e, r, q);
  }

  // ---------------------------------------------------------------- the report sees only the public trace

  lemma StreamPublic(head: string, text: string)
    ensures Stream(head, text, true) == Stream(head, Mark(text), true)
  {
    assert REDACTED != "";
  }

  lemma CommandTextPublic(l: CommandLog)
    ensures CommandText(l) == CommandText(PublicLog(l))
  {
    hide Stream, ScriptText, TrimSpace;
    if l.exec.excludeFromReport {
      StreamPublic(">>> STDOUT <<<\n", l.result.stdout);
      StreamPublic(">>> STDERR <<<\n", l.result.stderr);
    }
  }

  lemma {:induction false} CommandTextsPublic(ls: seq<CommandLog>, n: nat)
    requires n <= |ls|
    ensures CommandTexts(PublicLogs(ls), n) == CommandTexts(ls, n)
  {
    hide CommandText;
    if n > 0 {
      CommandTextsPublic(ls, n - 1);
      CommandTextPublic(ls[n - 1]);
    }
  }

  lemma {:induction false} AssertionPagesPublic(s: SectionContext, n: nat, p: Pages)
    requires n <= |s.assertions|
    ensures AssertionPages(PublicSection(s), n, p) == AssertionPages(s, n, p)
  {
    hide CommandTexts, AssertionMarkdown;
    if n > 0 {
      AssertionPagesPublic(s, n - 1, p);
      var a := s.assertions[n - 1];
      CommandTextsPublic(a.cmdLogs, |a.cmdLogs|);
      MarkdownPublic(a);
    }
  }

  lemma MarkdownPublic(a: AssertionContext)
    ensures AssertionMarkdown(PublicAssertion(a)) == AssertionMarkdown(a)
  {
  }

  lemma {:induction false} SectionPagesPublic(ss: seq<SectionContext>, n: nat, p: Pages)
    requires n <= |ss|
    ensures SectionPages(PublicSections(ss), n, p) == SectionPages(ss, n, p)
  {
    hide AssertionPages, Descriptions, SectionFoot;
    if n > 0 {
      SectionPagesPublic(ss, n - 1, p);
      AssertionPagesPublic(ss[n - 1], |ss[n - 1].assertions|, SectionHead(ss[n - 1], SectionPages(ss, n - 1, p)));
    }
  }

  /** Log, markdown and structured report are functions of the public part of the trace. */
  lemma ReportIsPublic(t: ExecutionTrace, fmt: Formats)
    ensures Generate(PublicTrace(t), fmt) == Generate(t, fmt)
  {
    hide SectionPages, Frontmatter;
    SectionPagesPublic(t.sections, |t.sections|, Opening(t, fmt));
  }

  // ---------------------------------------------------------------- two runs side by side

  lemma PublicLogsAppend(ls: seq<CommandLog>, l: CommandLog)
    ensures PublicLogs(ls + [l]) == PublicLogs(ls) + [PublicLog(l)]
  {
  }

  lemma EntryAlike(w: World, v: World, a: Assertion, e: Exec, r: Reply, q: Reply, tick: nat)
    requires PublicReply(a, e, r) == PublicReply(a, e, q) && forall n: nat :: w.clock(n) == v.clock(n)
    ensures PublicLog(LogEntry(w, e, r, tick)) == PublicLog(LogEntry(v, e, q, tick))
    ensures r.err == q.err
  {
    hide Visible, ExcludedKeys;
  }

  lemma SideStepAlike(w: World, v: World, a: Assertion, site: Site, e: Exec, f: Frame, g: Frame)
    requires w.cancelAt == v.cancelAt && forall n: nat :: w.clock(n) == v.clock(n)
    requires PublicReply(a, e, w.replies(site)) == PublicReply(a, e, v.replies(site))
    requires PublicFrame(a, f) == PublicFrame(a, g)
    ensures PublicFrame(a, SideStep(w, site, e, a.code, f)) == PublicFrame(a, SideStep(v, site, e, a.code, g))
  {
    hide Visible, ExcludedKeys, PublicResult, PublicLogs, PublicLog, LogEntry;
    if !w.CancelledAt(f.polls) {
      EntryAlike(w, v, a, e, w.replies(site), v.replies(site), f.ticks);
      PublicLogsAppend(f.logs, LogEntry(w, e, w.replies(site), f.ticks));
      PublicLogsAppend(g.logs, LogEntry(v, e, v.replies(site), f.ticks));
    }
  }

  lemma {:induction false} SideAlike(w: World, v: World, s: nat, j: nat, a: Assertion, phase: Phase, es: seq<Exec>,
                                     f: Frame, g: Frame, k: nat)
    requires w.cancelAt == v.cancelAt && (forall n: nat :: w.clock(n) == v.clock(n)) && AgreeOn(w, v, s, j, a)
    requires k <= |es| && forall i :: 0 <= i < |es| ==> ExecAt(a, phase, i) == Some(es[i])
    requires PublicFrame(a, f) == PublicFrame(a, g)
    ensures PublicFrame(a, SideAfter(w, s, j, phase, es, a.code, f, k))
            == PublicFrame(a, SideAfter(v, s, j, phase, es, a.code, g, k))
  {
    hide Visible, ExcludedKeys, PublicReply, PublicLogs, SideStep;
    if k > 0 {
      SideAlike(w, v, s, j, a, phase, es, f, g, k - 1);
      var f', g' := SideAfter(w, s, j, phase, es, a.code, f, k - 1), SideAfter(v, s, j, phase, es, a.code, g, k - 1);
      if !f'.cancelled {
        SideStepAlike(w, v, a, Site(s, j, phase, k - 1), es[k - 1], f', g');
      }
    }
  }

  lemma CommandAlike(a: Assertion, c: Cmd, r: Reply, q: Reply)
    requires PublicReply(a, c.exec, r) == PublicReply(a, c.exec, q)
    ensures Contribution(c, r) == Contribution(c, q) && r.err == q.err
    ensures CmdOutputs(c, r.result) == CmdOutputs(c, q.result)
  {
    hide Visible, ExcludedKeys, ExitVerdict;
  }

  lemma MainStepAlike(w: World, v: World, a: Assertion, site: Site, c: Cmd, f: Frame, g: Frame)
    requires w.cancelAt == v.cancelAt && forall n: nat :: w.clock(n) == v.clock(n)
    requires PublicReply(a, c.exec, w.replies(site)) == PublicReply(a, c.exec, v.replies(site))
    requires PublicFrame(a, f) == PublicFrame(a, g)
    ensures PublicFrame(a, MainStep(w, site, c, f)) == PublicFrame(a, MainStep(v, site, c, g))
  {
    hide Visible, ExcludedKeys, PublicResult, PublicLogs, PublicLog, LogEntry, Contribution, CmdOutputs;
    if !w.CancelledAt(f.polls) {
      var r, q := w.replies(site), v.replies(site);
      CommandAlike(a, c, r, q);
      EntryAlike(w, v, a, c.exec, r, q, f.ticks);
      PublicLogsAppend(f.logs, LogEntry(w, c.exec, r, f.ticks));
      PublicLogsAppend(g.logs, LogEntry(v, c.exec, q, f.ticks));
    }
  }

  lemma {:induction false} MainAlike(w: World, v: World, s: nat, j: nat, a: Assertion, f: Frame, g: Frame, k: nat)
    requires w.cancelAt == v.cancelAt && (forall n: nat :: w.clock(n) == v.clock(n)) && AgreeOn(w, v, s, j, a)
    requires k <= |a.cmds| && PublicFrame(a, f) == PublicFrame(a, g)
    ensures PublicFrame(a, MainAfter(w, s, j, a.cmds, f, k)) == PublicFrame(a, MainAfter(v, s, j, a.cmds, g, k))
  {
    hide Visible, ExcludedKeys, PublicReply, PublicLogs, MainStep;
    if k > 0 {
      MainAlike(w, v, s, j, a, f, g, k - 1);
      var f', g' := MainAfter(w, s, j, a.cmds, f, k - 1), MainAfter(v, s, j, a.cmds, g, k - 1);
      assert ExecAt(a, MainCmd, k - 1) == Some(a.cmds[k - 1].exec);
      if !f'.cancelled {
        MainStepAlike(w, v, a, Site(s, j, MainCmd, k - 1), a.cmds[k - 1], f', g');
      }
    }
  }

  lemma ClearLogs(a: Assertion, f: Frame, g: Frame)
    requires PublicFrame(a, f) == PublicFrame(a, g)
    ensures PublicFrame(a, f.(logs := [])) == PublicFrame(a, g.(logs := []))
    ensures f.polls == g.polls && f.ticks == g.ticks && f.events == g.events && f.cancelled == g.cancelled
    ensures f.score == g.score && f.outputs == g.outputs && PublicLogs(f.logs) == PublicLogs(g.logs)
    ensures Visible(f.context, ExcludedKeys(a)) == Visible(g.context, ExcludedKeys(a))
  {
    hide Visible, ExcludedKeys, PublicLogs;
  }

  lemma PublicAppend(ss: seq<SectionContext>, c: AssertionContext)
    requires ss != []
    ensures PublicSections(ss) != []
    ensures PublicSections(AppendLast(ss, c)) == AppendLast(PublicSections(ss), PublicAssertion(c))
  {
    var n := |ss| - 1;
    assert PublicSections(AppendLast(ss, c))[n].assertions
           == PublicAssertions(ss[n].assertions) + [PublicAssertion(c)];
  }

  lemma ExecuteAlike(w: World, v: World, s: nat, j: nat, a: Assertion, total: nat, t: RunState, u: RunState)
    requires w.cancelAt == v.cancelAt && (forall n: nat :: w.clock(n) == v.clock(n)) && AgreeOn(w, v, s, j, a)
    requires t.sections != [] && u.sections != [] && PublicState(t) == PublicState(u)
    ensures PublicState(Execute(w, s, j, a, total, t)) == PublicState(Execute(v, s, j, a, total, u))
  {
    hide SideAfter, MainAfter, AgreeOn, PublicFrame, Visible, ExcludedKeys, PublicSections, AppendLast, PublicLogs,
         Join, Millis, PassScores;
    var f, g := StartFrame(a, j, total, t.polls, t.ticks, t.events),
        StartFrame(a, j, total, u.polls, u.ticks, u.events);
    SideAlike(w, v, s, j, a, PreCmd, a.preCmds, f, g, |a.preCmds|);
    var f1, g1 := PreFrame(w, s, j, a, f), PreFrame(v, s, j, a, g);
    ClearLogs(a, f1, g1);
    MainAlike(w, v, s, j, a, f1.(logs := []), g1.(logs := []), |a.cmds|);
    var f2, g2 := MainFrame(w, s, j, a, f1), MainFrame(v, s, j, a, g1);
    ClearLogs(a, f2, g2);
    SideAlike(w, v, s, j, a, PostCmd, a.postCmds, f2.(logs := []), g2.(logs := []), |a.postCmds|);
    var f3, g3 := PostFrame(w, s, j, a, f2), PostFrame(v, s, j, a, g2);
    ClearLogs(a, f3, g3);
    var c := Conclude(w, a, w.Now(t.ticks), f1.logs, f2.logs, f3);
    var d := Conclude(v, a, v.Now(u.ticks), g1.logs, g2.logs, g3);
    assert PublicAssertion(c) == PublicAssertion(d);
    PublicAppend(t.sections, c);
    PublicAppend(u.sections, d);
  }

  lemma {:induction false} AssertionsAlike(w: World, v: World, pb: Playbook, s: nat, t: RunState, u: RunState, k: nat)
    requires Agree(w, v, pb) && s < |pb.sections| && k <= |pb.sections[s].assertions|
    requires t.sections != [] && u.sections != [] && PublicState(t) == PublicState(u)
    ensures PublicState(AssertionsAfter(w, pb, s, t, k)) == PublicState(AssertionsAfter(v, pb, s, u, k))
  {
    hide Execute, PublicSections, AgreeOn;
    if k > 0 {
      AssertionsAlike(w, v, pb, s, t, u, k - 1);
      var t', u' := AssertionsAfter(w, pb, s, t, k - 1), AssertionsAfter(v, pb, s, u, k - 1);
      if t'.halt.None? && !w.CancelledAt(t'.polls) {
        ExecuteAlike(w, v, s, k - 1, pb.sections[s].assertions[k - 1], |pb.sections[s].assertions|,
                     t'.(polls := t'.polls + 1), u'.(polls := u'.polls + 1));
      }
    }
  }

  lemma OpenAlike(pb: Playbook, s: nat, t: RunState, u: RunState)
    requires s < |pb.sections| && PublicState(t) == PublicState(u)
    ensures PublicState(OpenSection(pb, s, t)) == PublicState(OpenSection(pb, s, u))
    ensures |t.sections| == |u.sections|
  {
    var c := SectionContext(pb.sections[s], []);
    assert |PublicSections(t.sections)| == |t.sections| && |PublicSections(u.sections)| == |u.sections|;
    assert PublicSections(t.sections + [c]) == PublicSections(t.sections) + [PublicSection(c)];
    assert PublicSections(u.sections + [c]) == PublicSections(u.sections) + [PublicSection(c)];
  }

  lemma {:induction false} SectionsAlike(w: World, v: World, pb: Playbook, t: RunState, k: nat)
    requires Agree(w, v, pb) && k <= |pb.sections|
    ensures PublicState(SectionsAfter(w, pb, t, k)) == PublicState(SectionsAfter(v, pb, t, k))
  {
    hide AssertionsAfter, PublicSections;
    if k > 0 {
      SectionsAlike(w, v, pb, t, k - 1);
      var t', u' := SectionsAfter(w, pb, t, k - 1), SectionsAfter(v, pb, t, k - 1);
      if t'.halt.None? && !w.CancelledAt(t'.polls) {
        OpenAlike(pb, k - 1, t', u');
        AssertionsAlike(w, v, pb, k - 1, OpenSection(pb, k - 1, t'), OpenSection(pb, k - 1, u'),
                        |pb.sections[k - 1].assertions|);
      }
    }
  }

  lemma {:induction false} UnwindListAlike(s: Section, from: nat, t: RunState, u: RunState, k: nat)
    requires from <= k <= |s.assertions| && t.sections != [] && u.sections != [] && PublicState(t) == PublicState(u)
    ensures PublicState(UnwindList(s, from, t, k)) == PublicState(UnwindList(s, from, u, k))
    decreases k
  {
    hide PublicSections, AppendLast, Announce, Unrun;
    if from < k {
      UnwindListAlike(s, from, t, u, k - 1);
      PublicAppend(UnwindList(s, from, t, k - 1).sections, Unrun(s.assertions[k - 1]));
      PublicAppend(UnwindList(s, from, u, k - 1).sections, Unrun(s.assertions[k - 1]));
    }
  }

  lemma ReachAlike(s: Section, i: nat, t: RunState, u: RunState)
    requires PublicState(t) == PublicState(u)
    ensures PublicState(Reach(s, i, t)) == PublicState(Reach(s, i, u)) && |t.sections| == |u.sections|
  {
    var c := SectionContext(s, []);
    assert |PublicSections(t.sections)| == |t.sections| && |PublicSections(u.sections)| == |u.sections|;
    assert PublicSections(t.sections + [c]) == PublicSections(t.sections) + [PublicSection(c)];
    assert PublicSections(u.sections + [c]) == PublicSections(u.sections) + [PublicSection(c)];
  }

  lemma {:induction false} UnwindAlike(pb: Playbook, from: nat, next: nat, t: RunState, u: RunState, k: nat)
    requires from <= k <= |pb.sections| && from < |pb.sections| && next <= |pb.sections[from].assertions|
    requires from <= |t.sections| <= from + 1 && from <= |u.sections| <= from + 1 && PublicState(t) == PublicState(u)
    ensures PublicState(UnwindAfter(pb, from, next, t, k)) == PublicState(UnwindAfter(pb, from, next, u, k))
    decreases k
  {
    hide PublicState, UnwindList, Reach;
    if from < k {
      UnwindAlike(pb, from, next, t, u, k - 1);
      var s, first := pb.sections[k - 1], if k - 1 == from then next else 0;
      var t', u' := UnwindAfter(pb, from, next, t, k - 1), UnwindAfter(pb, from, next, u, k - 1);
      ReachAlike(s, k - 1, t', u');
      ReachNonEmpty(s, k - 1, t');
      ReachNonEmpty(s, k - 1, u');
      UnwindListAlike(s, first, Reach(s, k - 1, t'), Reach(s, k - 1, u'), |s.assertions|);
    }
  }

  lemma ReachNonEmpty(s: Section, i: nat, t: RunState)
    ensures Reach(s, i, t).sections != []
  {
  }

  /** The terminal events hand over the raw trace; of it only the public part may be compared. */
  function PublicEvent(e: Event): Event {
    match e
    case RunComplete(trace, report) => RunComplete(PublicTrace(trace), report)
    case RunCancelled(runId, trace) => RunCancelled(runId, PublicTrace(trace))
    case _ => e
  }

  function PublicEvents(es: seq<Event>): seq<Event> {
    seq(|es|, i requires 0 <= i < |es| => PublicEvent(es[i]))
  }

  lemma PublicEventsAppend(es: seq<Event>, e: Event)
    ensures PublicEvents(es + [e]) == PublicEvents(es) + [PublicEvent(e)]
  {
  }

  /** Two runs that differ only in what is excluded from the report: all observer events are equal, up
      to the raw logs in the trace that the terminal event hands over, and the log, the markdown and the
      structured report are equal. */
  lemma NonInterference(w: World, v: World, pb: Playbook, runId: string, fmt: Formats)
    requires Agree(w, v, pb)
    ensures var r, q := RunOf(w, pb, runId, fmt), RunOf(v, pb, runId, fmt);
            && r.events != [] && q.events != []
            && r.events[..|r.events| - 1] == q.events[..|q.events| - 1]
            && PublicEvents(r.events) == PublicEvents(q.events)
            && PublicTrace(r.trace) == PublicTrace(q.trace)
            && Generate(r.trace, fmt) == Generate(q.trace, fmt)
  {
    hide SectionsAfter, UnwindAfter, Generate, PublicSections, PublicEvents;
    SectionsAlike(w, v, pb, InitialState(runId), |pb.sections|);
    HaltsInside(w, pb, runId);
    HaltsInside(v, pb, runId);
    var t, u := Body(w, pb, runId), Body(v, pb, runId);
    if t.halt.Some? {
      UnwindAlike(pb, t.halt.value.0, t.halt.value.1, t, u, |pb.sections|);
    } else {
      ReportIsPublic(TraceOf(w, pb, t, t.passed, t.failed), fmt);
      ReportIsPublic(TraceOf(v, pb, u, u.passed, u.failed), fmt);
    }
    var r, q := RunOf(w, pb, runId, fmt), RunOf(v, pb, runId, fmt);
    ReportIsPublic(r.trace, fmt);
    ReportIsPublic(q.trace, fmt);
    var before := r.events[..|r.events| - 1];
    assert r.events == before + [r.events[|r.events| - 1]];
    assert q.events == before + [q.events[|q.events| - 1]];
    PublicEventsAppend(before, r.events[|r.events| - 1]);
    PublicEventsAppend(before, q.events[|q.events| - 1]);
  }

  // ---------------------------------------------------------------- excluded keys

  /** Every finished entry of every trace shows what its assertion gathered but for the keys that a gather
      of one of its pre-commands, commands or post-commands excludes; any other entry shows nothing. */
  lemma EntriesShowExactly(w: World, pb: Playbook, runId: string, fmt: Formats, s: nat, j: nat)
    requires var ss := RunOf(w, pb, runId, fmt).trace.sections; s < |ss| && j < |ss[s].assertions|
    ensures var c := RunOf(w, pb, runId, fmt).trace.sections[s].assertions[j];
            var a, all := c.assertion, Gathered(w, s, j, c.assertion);
            && (c.status.IsFinished() ==>
                  forall k :: k in c.context <==>
                    && k in all
                    && (forall e, g :: e in a.preCmds && g in e.gather && g.excludeFromReport ==> g.key != k)
                    && (forall d, g :: d in a.cmds && g in d.exec.gather && g.excludeFromReport ==> g.key != k)
                    && (forall e, g :: e in a.postCmds && g in e.gather && g.excludeFromReport ==> g.key != k))
            && (c.status.IsFinished() ==> forall k :: k in c.context ==> c.context[k] == all[k])
            && (!c.status.IsFinished() ==> c.context == map[])
  {
    hide RunOf, Gathered, Scored, Recorded;
    TraceTold(w, pb, runId, fmt);
    var c := RunOf(w, pb, runId, fmt).trace.sections[s].assertions[j];
    assert Told(w, s, j, c);
    NotExcluded(c.assertion);
  }

  lemma NotExcluded(a: Assertion)
    ensures forall k :: !Excluded(a, k) <==>
              && (forall e, g :: e in a.preCmds && g in e.gather && g.excludeFromReport ==> g.key != k)
              && (forall c, g :: c in a.cmds && g in c.exec.gather && g.excludeFromReport ==> g.key != k)
              && (forall e, g :: e in a.postCmds && g in e.gather && g.excludeFromReport ==> g.key != k)
  {
  }
}
