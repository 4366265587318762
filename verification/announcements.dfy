/** The observer events of a run and its trace tell the same story, to the last field. */
module Announcements {
  import opened Text
  import opened PlaybookTypes
  import opened Executor
  import opened Report
  import opened Director
  import opened TraceEntries

  // ---------------------------------------------------------------- the events a trace calls for

  function Warnings(phase: Phase, code: string, logs: seq<CommandLog>): seq<Event> {
    if logs == [] then []
    else
      var l := logs[|logs| - 1];
      Warnings(phase, code, logs[..|logs| - 1])
      + if l.err.Some? then [CommandWarning(phase, code, l.err.value)] else []
  }

  /** An assertion that was started is announced with its number and pass mark; then come the failures of
      its pre- and post-commands; then its completion, with the status and verdict of the entry, the score
      of the commands that were logged, the pass mark, the duration and the outputs. */
  function EntryEvents(w: World, s: nat, j: nat, total: nat, c: AssertionContext): seq<Event> {
    var a := c.assertion;
    (if c.start.Some? then [AssertionStart(a.code, j + 1, total, a.GetMinPassingScore())] else [])
    + Warnings(PreCmd, a.code, c.preCmdLogs) + Warnings(PostCmd, a.code, c.postCmdLogs)
    + [AssertionComplete(ProgressResult(
         a.code, c.status, c.passed,
         if |c.cmdLogs| <= |a.cmds| then Total(w, s, j, a.cmds, |c.cmdLogs|) else 0,
         a.GetMinPassingScore(), Millis(c.start, c.end), Join(c.outputs, "\n")))]
  }

  function SectionEvents(w: World, s: nat, total: nat, cs: seq<AssertionContext>): seq<Event> {
    if cs == [] then []
    else SectionEvents(w, s, total, cs[..|cs| - 1]) + EntryEvents(w, s, |cs| - 1, total, cs[|cs| - 1])
  }

  function TraceEvents(w: World, pb: Playbook, ss: seq<SectionContext>): seq<Event>
    requires |ss| <= |pb.sections|
  {
    if ss == [] then []
    else
      var n := |ss| - 1;
      TraceEvents(w, pb, ss[..n]) + SectionEvents(w, n, |pb.sections[n].assertions|, ss[n].assertions)
  }

  /** The events but the section starts. */
  function Story(es: seq<Event>): seq<Event> {
    if es == [] then []
    else Story(es[..|es| - 1]) + if es[|es| - 1].SectionStart? then [] else [es[|es| - 1]]
  }

  lemma StoryStep(es: seq<Event>, e: Event)
    ensures Story(es + [e]) == Story(es) + if e.SectionStart? then [] else [e]
  {
    assert (es + [e])[..|es + [e]| - 1] == es;
  }

  lemma WarningsStep(phase: Phase, code: string, logs: seq<CommandLog>, l: CommandLog)
    ensures Warnings(phase, code, logs + [l])
            == Warnings(phase, code, logs) + if l.err.Some? then [CommandWarning(phase, code, l.err.value)] else []
  {
    assert (logs + [l])[..|logs + [l]| - 1] == logs;
  }

  lemma SectionStepEvents(w: World, s: nat, total: nat, cs: seq<AssertionContext>, c: AssertionContext)
    ensures SectionEvents(w, s, total, cs + [c]) == SectionEvents(w, s, total, cs) + EntryEvents(w, s, |cs|, total, c)
  {
    assert (cs + [c])[..|cs + [c]| - 1] == cs;
  }

  lemma AppendEvents(w: World, pb: Playbook, ss: seq<SectionContext>, c: AssertionContext)
    requires 0 < |ss| <= |pb.sections|
    ensures var n := |ss| - 1;
            TraceEvents(w, pb, AppendLast(ss, c))
            == TraceEvents(w, pb, ss) + EntryEvents(w, n, |ss[n].assertions|, |pb.sections[n].assertions|, c)
  {
    hide EntryEvents, SectionEvents;
    var n := |ss| - 1;
    var r := AppendLast(ss, c);
    assert r[..n] == ss[..n];
    SectionStepEvents(w, n, |pb.sections[n].assertions|, ss[n].assertions, c);
  }

  lemma OpenEvents(w: World, pb: Playbook, ss: seq<SectionContext>, s: Section)
    requires |ss| < |pb.sections|
    ensures TraceEvents(w, pb, ss + [SectionContext(s, [])]) == TraceEvents(w, pb, ss)
  {
    assert (ss + [SectionContext(s, [])])[..|ss|] == ss;
  }

  // ---------------------------------------------------------------- one assertion

  lemma {:induction false} SideWarnings(w: World, s: nat, j: nat, phase: Phase, es: seq<Exec>, code: string, f: Frame,
                                        k: nat)
    requires k <= |es| && !f.cancelled && f.logs == []
    ensures var g := SideAfter(w, s, j, phase, es, code, f, k);
            Story(g.events) == Story(f.events) + Warnings(phase, code, g.logs)
  {
    hide Story, Warnings;
    if k == 0 {
      NoWarnings(phase, code);
      assert Story(f.events) + [] == Story(f.events);
    } else {
      SideWarnings(w, s, j, phase, es, code, f, k - 1);
      var g := SideAfter(w, s, j, phase, es, code, f, k - 1);
      var r := w.replies(Site(s, j, phase, k - 1));
      if !g.cancelled && !w.CancelledAt(g.polls) {
        WarningsStep(phase, code, g.logs, LogEntry(w, es[k - 1], r, g.ticks));
        if r.err.Some? {
          StoryStep(g.events, CommandWarning(phase, code, r.err.value));
        }
      }
    }
  }

  lemma NoWarnings(phase: Phase, code: string)
    ensures Warnings(phase, code, []) == []
  {
  }

  lemma {:induction false} MainSilent(w: World, s: nat, j: nat, cs: seq<Cmd>, f: Frame, k: nat)
    requires k <= |cs|
    ensures MainAfter(w, s, j, cs, f, k).events == f.events
  {
    if k > 0 {
      MainSilent(w, s, j, cs, f, k - 1);
    }
  }

  /** What the commands of an assertion add to the story, and the score they leave. */
  lemma FrameEvents(w: World, s: nat, j: nat, a: Assertion, f: Frame)
    requires !f.cancelled && f.logs == [] && f.score == 0 && f.outputs == []
    ensures var pre := PreFrame(w, s, j, a, f);
            var main := MainFrame(w, s, j, a, pre);
            var post := PostFrame(w, s, j, a, main);
            && Story(post.events)
               == Story(f.events) + Warnings(PreCmd, a.code, pre.logs) + Warnings(PostCmd, a.code, post.logs)
            && |main.logs| <= |a.cmds| && post.score == Total(w, s, j, a.cmds, |main.logs|)
  {
    hide SideAfter, MainAfter, Story, Warnings, Total, Outputs, Answers, Last;
    NoWarnings(PreCmd, a.code);
    NoWarnings(PostCmd, a.code);
    NoScore(w, s, j, a.cmds);
    var pre := PreFrame(w, s, j, a, f);
    SideTells(w, s, j, PreCmd, a.preCmds, a.code, f, |a.preCmds|);
    SideWarnings(w, s, j, PreCmd, a.preCmds, a.code, f, |a.preCmds|);
    if !pre.cancelled {
      MainTells(w, s, j, a.cmds, pre.(logs := []), |a.cmds|);
      MainSilent(w, s, j, a.cmds, pre.(logs := []), |a.cmds|);
      var main := MainFrame(w, s, j, a, pre);
      if !main.cancelled {
        SideTells(w, s, j, PostCmd, a.postCmds, a.code, main.(logs := []), |a.postCmds|);
        SideWarnings(w, s, j, PostCmd, a.postCmds, a.code, main.(logs := []), |a.postCmds|);
      }
    }
  }

  lemma NoScore(w: World, s: nat, j: nat, cs: seq<Cmd>)
    ensures Total(w, s, j, cs, 0) == 0
  {
  }

  lemma EntryEventsAre(w: World, s: nat, j: nat, total: nat, a: Assertion, start: nat,
                       pre: seq<CommandLog>, main: seq<CommandLog>, f: Frame)
    requires |main| <= |a.cmds| && f.score == Total(w, s, j, a.cmds, |main|)
    ensures var c := Conclude(w, a, w.Now(start), pre, main, f);
            EntryEvents(w, s, j, total, c)
            == [AssertionStart(a.code, j + 1, total, a.GetMinPassingScore())] + Warnings(PreCmd, a.code, pre)
               + Warnings(PostCmd, a.code, f.logs) + [Announce(c, f.score)]
  {
    hide Warnings, Total, Visible, ExcludedKeys, PassScores, Join, Millis;
  }

  lemma ExecuteEvents(w: World, pb: Playbook, s: nat, j: nat, t: RunState)
    requires s < |pb.sections| && j < |pb.sections[s].assertions|
    requires |t.sections| == s + 1 && |t.sections[s].assertions| == j
    ensures var a, total := pb.sections[s].assertions[j], |pb.sections[s].assertions|;
            var u := Execute(w, s, j, a, total, t);
            && |u.sections| == s + 1 && |u.sections[s].assertions| == j + 1
            && Story(u.events) == Story(t.events) + EntryEvents(w, s, j, total, EntryOf(w, s, j, a, total, t))
            && TraceEvents(w, pb, u.sections)
               == TraceEvents(w, pb, t.sections) + EntryEvents(w, s, j, total, EntryOf(w, s, j, a, total, t))
  {
    hide PreFrame, MainFrame, PostFrame, Story, Warnings, Conclude, EntryEvents, Total, Announce, TraceEvents,
         PassScores;
    var a, total := pb.sections[s].assertions[j], |pb.sections[s].assertions|;
    var f := StartFrame(a, j, total, t.polls, t.ticks, t.events);
    var pre := PreFrame(w, s, j, a, f);
    var main := MainFrame(w, s, j, a, pre);
    var post := PostFrame(w, s, j, a, main);
    var c := Conclude(w, a, w.Now(t.ticks), pre.logs, main.logs, post);
    FrameEvents(w, s, j, a, f);
    EntryEventsAre(w, s, j, total, a, t.ticks, pre.logs, main.logs, post);
    StoryStep(t.events, AssertionStart(a.code, j + 1, total, a.GetMinPassingScore()));
    StoryStep(post.events, Announce(c, post.score));
    Announces(c, post.score);
    Regroup(Story(t.events), [AssertionStart(a.code, j + 1, total, a.GetMinPassingScore())],
            Warnings(PreCmd, a.code, pre.logs), Warnings(PostCmd, a.code, post.logs), [Announce(c, post.score)]);
    AppendEvents(w, pb, t.sections, c);
  }

  lemma Announces(c: AssertionContext, score: int)
    ensures Announce(c, score).AssertionComplete?
  {
  }

  lemma Regroup(a: seq<Event>, b: seq<Event>, c: seq<Event>, d: seq<Event>, e: seq<Event>)
    ensures a + b + c + d + e == a + (b + c + d + e)
  {
  }

  // ---------------------------------------------------------------- the whole run

  /** So far the events but the section starts are the run start and what the trace calls for. */
  predicate Tells(w: World, pb: Playbook, runId: string, t: RunState) {
    && |t.sections| <= |pb.sections|
    && Story(t.events) == [RunStart(runId)] + TraceEvents(w, pb, t.sections)
  }

  lemma TellsMore(w: World, pb: Playbook, runId: string, t: RunState, u: RunState, more: seq<Event>)
    requires Tells(w, pb, runId, t) && |u.sections| <= |pb.sections|
    requires Story(u.events) == Story(t.events) + more
    requires TraceEvents(w, pb, u.sections) == TraceEvents(w, pb, t.sections) + more
    ensures Tells(w, pb, runId, u)
  {
    hide Story, TraceEvents;
    var start := [RunStart(runId)];
    assert start + (TraceEvents(w, pb, t.sections) + more) == (start + TraceEvents(w, pb, t.sections)) + more;
  }

  lemma {:induction false} AssertionsTell(w: World, pb: Playbook, runId: string, s: nat, t: RunState, k: nat)
    requires s < |pb.sections| && k <= |pb.sections[s].assertions| && OpenAt(t, s, 0) && t.halt.None?
    requires Tells(w, pb, runId, t)
    ensures var u := AssertionsAfter(w, pb, s, t, k);
            && Tells(w, pb, runId, u) && |u.sections| == s + 1
            && |u.sections[s].assertions| == (if u.halt.None? then k else u.halt.value.1)
            && (u.halt.Some? ==> u.halt.value.0 == s && u.halt.value.1 <= k)
  {
    hide Execute, Story, TraceEvents, EntryEvents, EntryOf;
    if k > 0 {
      AssertionsTell(w, pb, runId, s, t, k - 1);
      var u := AssertionsAfter(w, pb, s, t, k - 1);
      if u.halt.None? && !w.CancelledAt(u.polls) {
        var a, total := pb.sections[s].assertions[k - 1], |pb.sections[s].assertions|;
        var v := u.(polls := u.polls + 1);
        ExecuteEvents(w, pb, s, k - 1, v);
        ExecuteHalt(w, s, k - 1, a, total, v);
        TellsMore(w, pb, runId, v, Execute(w, s, k - 1, a, total, v),
                  EntryEvents(w, s, k - 1, total, EntryOf(w, s, k - 1, a, total, v)));
      }
    }
  }

  lemma ExecuteHalt(w: World, s: nat, j: nat, a: Assertion, total: nat, t: RunState)
    requires t.sections != [] && t.halt.None?
    ensures var u := Execute(w, s, j, a, total, t); u.halt.Some? ==> u.halt.value == (s, j + 1)
  {
    hide PreFrame, MainFrame, PostFrame, Conclude, Announce;
  }

  lemma OpenTells(w: World, pb: Playbook, runId: string, s: nat, t: RunState)
    requires s < |pb.sections| && Tells(w, pb, runId, t) && |t.sections| == s
    ensures Tells(w, pb, runId, OpenSection(pb, s, t)) && OpenAt(OpenSection(pb, s, t), s, 0)
  {
    OpenEvents(w, pb, t.sections, pb.sections[s]);
    StoryStep(t.events, SectionStart(pb.sections[s].title, s + 1, |pb.sections|));
  }

  /** Where a halted run has to go on: in a section that is open with so many entries, or not open yet. */
  predicate HaltsWell(t: RunState) {
    t.halt.Some? ==>
      var (s, j) := t.halt.value;
      (|t.sections| == s + 1 && |t.sections[s].assertions| == j) || (|t.sections| == s && j == 0)
  }

  lemma {:induction false} SectionsTell(w: World, pb: Playbook, runId: string, k: nat)
    requires k <= |pb.sections|
    ensures var u := SectionsAfter(w, pb, InitialState(runId), k);
            Tells(w, pb, runId, u) && HaltsWell(u) && (u.halt.None? ==> |u.sections| == k)
  {
    hide AssertionsAfter, Story, TraceEvents, OpenSection;
    if k == 0 {
      FirstEvent(w, pb, runId);
    } else {
      SectionsTell(w, pb, runId, k - 1);
      var u := SectionsAfter(w, pb, InitialState(runId), k - 1);
      if u.halt.None? && !w.CancelledAt(u.polls) {
        OpenTells(w, pb, runId, k - 1, u);
        OpenGoesOn(pb, k - 1, u);
        AssertionsTell(w, pb, runId, k - 1, OpenSection(pb, k - 1, u), |pb.sections[k - 1].assertions|);
      }
    }
  }

  lemma OpenGoesOn(pb: Playbook, s: nat, t: RunState)
    requires s < |pb.sections|
    ensures OpenSection(pb, s, t).halt == t.halt
  {
  }

  lemma FirstEvent(w: World, pb: Playbook, runId: string)
    ensures Tells(w, pb, runId, InitialState(runId))
  {
    assert [RunStart(runId)] == [] + [RunStart(runId)];
    StoryStep([], RunStart(runId));
  }

  // ---------------------------------------------------------------- unwinding

  lemma UnrunEvents(w: World, s: nat, j: nat, total: nat, a: Assertion)
    ensures EntryEvents(w, s, j, total, Unrun(a)) == [Announce(Unrun(a), 0)]
  {
  }

  lemma UnwindOneTells(w: World, pb: Playbook, runId: string, a: Assertion, t: RunState)
    requires t.sections != [] && Tells(w, pb, runId, t)
    ensures var u := UnwindOne(a, t);
            && Tells(w, pb, runId, u) && |u.sections| == |t.sections|
            && |u.sections[|u.sections| - 1].assertions| == |t.sections[|t.sections| - 1].assertions| + 1
  {
    hide Story, TraceEvents, EntryEvents, Unrun, Announce;
    var n := |t.sections| - 1;
    var j, total := |t.sections[n].assertions|, |pb.sections[n].assertions|;
    AppendEvents(w, pb, t.sections, Unrun(a));
    UnrunEvents(w, n, j, total, a);
    StoryStep(t.events, Announce(Unrun(a), 0));
    Announces(Unrun(a), 0);
    TellsMore(w, pb, runId, t, UnwindOne(a, t), [Announce(Unrun(a), 0)]);
  }

  lemma {:induction false} UnwindListTells(w: World, pb: Playbook, runId: string, s: Section, from: nat, t: RunState,
                                           k: nat)
    requires from <= k <= |s.assertions| && t.sections != [] && Tells(w, pb, runId, t)
    ensures Tells(w, pb, runId, UnwindList(s, from, t, k))
    decreases k
  {
    hide Tells, UnwindOne;
    if from < k {
      UnwindListTells(w, pb, runId, s, from, t, k - 1);
      UnwindOneTells(w, pb, runId, s.assertions[k - 1], UnwindList(s, from, t, k - 1));
    }
  }

  lemma ReachTells(w: World, pb: Playbook, runId: string, s: Section, i: nat, t: RunState)
    requires i < |pb.sections| && i <= |t.sections| && Tells(w, pb, runId, t)
    ensures Reach(s, i, t).sections != [] && Tells(w, pb, runId, Reach(s, i, t))
  {
    hide Story;
    if i >= |t.sections| {
      OpenEvents(w, pb, t.sections, s);
    }
  }

  lemma {:induction false} UnwindTells(w: World, pb: Playbook, runId: string, from: nat, next: nat, t: RunState, k: nat)
    requires from <= k <= |pb.sections| && from < |pb.sections| && next <= |pb.sections[from].assertions|
    requires from <= |t.sections| <= from + 1 && Tells(w, pb, runId, t)
    ensures Tells(w, pb, runId, UnwindAfter(pb, from, next, t, k))
    decreases k
  {
    hide Tells, UnwindList, Reach;
    if from < k {
      UnwindTells(w, pb, runId, from, next, t, k - 1);
      var u := UnwindAfter(pb, from, next, t, k - 1);
      var s := pb.sections[k - 1];
      ReachTells(w, pb, runId, s, k - 1, u);
      UnwindListTells(w, pb, runId, s, if k - 1 == from then next else 0, Reach(s, k - 1, u), |s.assertions|);
    }
  }

  /** All events of a run but the section starts, in order: the run start; for every entry of the trace its
      start if it was started, the failures of its pre- and post-commands, and its completion; and a
      terminal event that hands over the trace, with the report when the run completed. */
  lemma EventsTellTheTrace(w: World, pb: Playbook, runId: string, fmt: Formats)
    ensures var r := RunOf(w, pb, runId, fmt);
            && r.events != [] && |r.trace.sections| <= |pb.sections|
            && Story(r.events[..|r.events| - 1]) == [RunStart(runId)] + TraceEvents(w, pb, r.trace.sections)
            && var last := r.events[|r.events| - 1];
               && (last.RunComplete? || last.RunCancelled?)
               && (last.RunComplete? ==> last.trace == r.trace && last.report == Generate(r.trace, fmt).structured)
               && (last.RunCancelled? ==> last.trace == r.trace && last.runId == runId)
    ensures var t := RunOf(w, pb, runId, fmt).trace;
            t.playbook == pb && t.start == w.Now(0) && exists n: nat :: 0 < n && t.end == w.Now(n)
  {
    hide SectionsAfter, UnwindAfter, Generate, Story, TraceEvents;
    SectionsTell(w, pb, runId, |pb.sections|);
    HaltsInside(w, pb, runId);
    var t := Body(w, pb, runId);
    Elapsed(w, pb, runId);
    var r := RunOf(w, pb, runId, fmt);
    if t.halt.Some? {
      UnwindTells(w, pb, runId, t.halt.value.0, t.halt.value.1, t, |pb.sections|);
      UnwindTicks(pb, t.halt.value.0, t.halt.value.1, t, |pb.sections|);
      var u := UnwindAfter(pb, t.halt.value.0, t.halt.value.1, t, |pb.sections|);
      assert r.events[..|r.events| - 1] == u.events;
      assert r.trace.end == w.Now(t.ticks);
    } else {
      assert r.events[..|r.events| - 1] == t.events;
      assert r.trace.end == w.Now(t.ticks);
    }
  }

  // ---------------------------------------------------------------- the clock

  lemma {:induction false} AssertionsElapse(w: World, pb: Playbook, s: nat, t: RunState, k: nat)
    requires s < |pb.sections| && k <= |pb.sections[s].assertions| && t.sections != []
    ensures AssertionsAfter(w, pb, s, t, k).ticks >= t.ticks
  {
    hide Execute;
    if k > 0 {
      AssertionsElapse(w, pb, s, t, k - 1);
      var u := AssertionsAfter(w, pb, s, t, k - 1);
      if u.halt.None? {
        ExecuteElapses(w, s, k - 1, pb.sections[s].assertions[k - 1], |pb.sections[s].assertions|,
                       u.(polls := u.polls + 1));
      }
    }
  }

  lemma ExecuteElapses(w: World, s: nat, j: nat, a: Assertion, total: nat, t: RunState)
    requires t.sections != []
    ensures Execute(w, s, j, a, total, t).ticks > t.ticks
  {
    hide PreFrame, MainFrame, PostFrame, Conclude, Announce, Total, Outputs, Logged;
    AssertionTells(w, s, j, a, total, t.polls, t.ticks, t.events);
  }

  lemma {:induction false} SectionsElapse(w: World, pb: Playbook, t: RunState, k: nat)
    requires k <= |pb.sections|
    ensures SectionsAfter(w, pb, t, k).ticks >= t.ticks
  {
    hide AssertionsAfter;
    if k > 0 {
      SectionsElapse(w, pb, t, k - 1);
      var u := SectionsAfter(w, pb, t, k - 1);
      if u.halt.None? {
        AssertionsElapse(w, pb, k - 1, OpenSection(pb, k - 1, u), |pb.sections[k - 1].assertions|);
      }
    }
  }

  lemma Elapsed(w: World, pb: Playbook, runId: string)
    ensures Body(w, pb, runId).ticks > 0
  {
    hide SectionsAfter;
    SectionsElapse(w, pb, InitialState(runId), |pb.sections|);
  }

  lemma {:induction false} UnwindListTicks(s: Section, from: nat, t: RunState, k: nat)
    requires from <= k <= |s.assertions| && t.sections != []
    ensures UnwindList(s, from, t, k).ticks == t.ticks
    decreases k
  {
    hide Announce, Unrun;
    if from < k {
      UnwindListTicks(s, from, t, k - 1);
    }
  }

  lemma {:induction false} UnwindTicks(pb: Playbook, from: nat, next: nat, t: RunState, k: nat)
    requires from <= k <= |pb.sections| && from < |pb.sections| && next <= |pb.sections[from].assertions|
    requires from <= |t.sections| <= from + 1
    ensures UnwindAfter(pb, from, next, t, k).ticks == t.ticks
    decreases k
  {
    hide UnwindList;
    if from < k {
      UnwindTicks(pb, from, next, t, k - 1);
      var u := UnwindAfter(pb, from, next, t, k - 1);
      var s := pb.sections[k - 1];
      UnwindListTicks(s, if k - 1 == from then next else 0, Reach(s, k - 1, u), |s.assertions|);
    }
  }
}
