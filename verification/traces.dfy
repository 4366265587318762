/** What every run of the engine keeps, whatever the playbook, the outside world and the moment of
    cancellation: the shape of the trace, the grammar of the observer events, and their agreement. */
module Traces {
  import opened Text
  import opened PlaybookTypes
  import opened Executor
  import opened Report
  import opened Director

  // ---------------------------------------------------------------- the flat view of a trace

  function Flat(ss: seq<SectionContext>): seq<AssertionContext> {
    if ss == [] then [] else Flat(ss[..|ss| - 1]) + ss[|ss| - 1].assertions
  }

  /** ctx is the trace of section sec with its first n assertions in it. */
  predicate Matches(sec: Section, ctx: SectionContext, n: nat) {
    && ctx.section == sec && |ctx.assertions| == n <= |sec.assertions|
    && forall i :: 0 <= i < n ==> ctx.assertions[i].assertion == sec.assertions[i]
  }

  /** The first n sections are in the trace, all complete but the last, which holds m assertions. */
  predicate Covers(pb: Playbook, ss: seq<SectionContext>, n: nat, m: nat) {
    && |ss| == n <= |pb.sections|
    && (forall i :: 0 <= i < n - 1 ==> Matches(pb.sections[i], ss[i], |pb.sections[i].assertions|))
    && (if n == 0 then m == 0 else Matches(pb.sections[n - 1], ss[n - 1], m))
  }

  function FullLength(pb: Playbook, n: nat): nat
    requires n <= |pb.sections|
  {
    if n == 0 then 0 else |pb.sections[n - 1].assertions|
  }

  /** The first `done` assertions passed or failed, all later ones were cancelled. */
  predicate DoneThenCancelled(f: seq<AssertionContext>, done: nat) {
    && done <= |f|
    && (forall i :: 0 <= i < done ==> f[i].status.IsFinished() && f[i].passed == f[i].status.Passed?)
    && (forall i :: done <= i < |f| ==> f[i].status == Cancelled && !f[i].passed)
  }

  function CountPassed(f: seq<AssertionContext>): nat {
    if f == [] then 0 else CountPassed(f[..|f| - 1]) + if f[|f| - 1].status.Passed? then 1 else 0
  }

  type Summary = (string, AssertionStatus)

  function Summaries(f: seq<AssertionContext>): seq<Summary> {
    if f == [] then []
    else Summaries(f[..|f| - 1]) + [(f[|f| - 1].assertion.code, f[|f| - 1].status)]
  }

  function Completions(es: seq<Event>): seq<Summary> {
    if es == [] then []
    else
      var e := es[|es| - 1];
      Completions(es[..|es| - 1]) + if e.AssertionComplete? then [(e.result.code, e.result.status)] else []
  }

  // ---------------------------------------------------------------- the event grammar

  datatype Stage =
    | NotStarted
    | Between(sections: nat, assertions: nat)
    | Inside(section: nat, assertion: nat)
    | Unwinding
    | Over(completed: bool)
    | Rejected

  /** The automaton an observer can rely on. Between(s, j): s sections were opened and j assertions of
      the last of them are complete. */
  function Delta(pb: Playbook, g: Stage, e: Event): Stage {
    match g
    case NotStarted => if e.RunStart? then Between(0, 0) else Rejected
    case Between(s, j) => FromBetween(pb, s, j, e)
    case Inside(s, j) =>
      if s >= |pb.sections| || j >= |pb.sections[s].assertions| then Rejected
      else
        var code := pb.sections[s].assertions[j].code;
        if e.CommandWarning? && e.code == code then g
        else if e.AssertionComplete? && e.result.code == code && e.result.status.IsFinished() then Between(s + 1, j + 1)
        else if e.AssertionComplete? && e.result.code == code && e.result.status.Cancelled? then Unwinding
        else Rejected
    case Unwinding =>
      if e.AssertionComplete? && e.result.status.Cancelled? then Unwinding
      else if e.RunCancelled? then Over(false)
      else Rejected
    case _ => Rejected
  }

  function FromBetween(pb: Playbook, s: nat, j: nat, e: Event): Stage {
    if s > |pb.sections| then Rejected
    else
      match e
      case SectionStart(title, index, total) =>
        if s < |pb.sections| && j == FullLength(pb, s) && title == pb.sections[s].title
           && index == s + 1 && total == |pb.sections|
        then Between(s + 1, 0) else Rejected
      case AssertionStart(code, index, total, _) =>
        if s > 0 && j < FullLength(pb, s) && code == pb.sections[s - 1].assertions[j].code
           && index == j + 1 && total == FullLength(pb, s)
        then Inside(s - 1, j) else Rejected
      case AssertionComplete(r) => if r.status.Cancelled? then Unwinding else Rejected
      case RunComplete(_, _) => if s == |pb.sections| && j == FullLength(pb, s) then Over(true) else Rejected
      case RunCancelled(_, _) => Over(false)
      case _ => Rejected
  }

  function Parse(pb: Playbook, es: seq<Event>): Stage {
    if es == [] then NotStarted else Delta(pb, Parse(pb, es[..|es| - 1]), es[|es| - 1])
  }

  lemma ParseStep(pb: Playbook, es: seq<Event>, e: Event)
    ensures Parse(pb, es + [e]) == Delta(pb, Parse(pb, es), e)
    ensures Completions(es + [e])
            == Completions(es) + if e.AssertionComplete? then [(e.result.code, e.result.status)] else []
  {
    assert (es + [e])[..|es + [e]| - 1] == es;
  }

  // ---------------------------------------------------------------- the invariant

  /** Events, trace and counters agree. */
  predicate Accounts(t: RunState) {
    var f := Flat(t.sections);
    && Completions(t.events) == Summaries(f)
    && DoneThenCancelled(f, t.passed + t.failed)
    && CountPassed(f) == t.passed
    && (t.halt.None? ==> |f| == t.passed + t.failed)
  }

  predicate Stable(pb: Playbook, t: RunState, n: nat, m: nat) {
    && Covers(pb, t.sections, n, m) && Accounts(t)
    && (if t.halt.None? then Parse(pb, t.events) == Between(n, m)
        else Parse(pb, t.events) == Unwinding
             || (Parse(pb, t.events).Between? && Parse(pb, t.events).sections <= |pb.sections|))
  }

  lemma FlatAppend(ss: seq<SectionContext>, c: AssertionContext)
    requires ss != []
    ensures Flat(AppendLast(ss, c)) == Flat(ss) + [c]
  {
    var r := AppendLast(ss, c);
    assert r[..|r| - 1] == ss[..|ss| - 1];
  }

  lemma FlatOpen(ss: seq<SectionContext>, s: Section)
    ensures Flat(ss + [SectionContext(s, [])]) == Flat(ss)
  {
    var r := ss + [SectionContext(s, [])];
    assert r[..|r| - 1] == ss;
  }

  lemma FlatStep(f: seq<AssertionContext>, c: AssertionContext)
    ensures Summaries(f + [c]) == Summaries(f) + [(c.assertion.code, c.status)]
    ensures CountPassed(f + [c]) == CountPassed(f) + if c.status.Passed? then 1 else 0
  {
    assert (f + [c])[..|f + [c]| - 1] == f;
  }

  lemma CoversAppend(pb: Playbook, ss: seq<SectionContext>, n: nat, m: nat, c: AssertionContext)
    requires Covers(pb, ss, n, m) && n > 0 && m < |pb.sections[n - 1].assertions|
    requires c.assertion == pb.sections[n - 1].assertions[m]
    ensures Covers(pb, AppendLast(ss, c), n, m + 1)
  {
  }

  lemma CoversOpen(pb: Playbook, ss: seq<SectionContext>, n: nat)
    requires n < |pb.sections| && Covers(pb, ss, n, FullLength(pb, n))
    ensures Covers(pb, ss + [SectionContext(pb.sections[n], [])], n + 1, 0)
  {
  }

  /** The commands of an assertion add warnings about it and nothing else. */
  predicate OnlyWarns(pb: Playbook, before: seq<Event>, after: seq<Event>, code: string) {
    && Completions(after) == Completions(before)
    && (InsideCode(pb, Parse(pb, before), code) ==> Parse(pb, after) == Parse(pb, before))
  }

  predicate InsideCode(pb: Playbook, g: Stage, code: string) {
    && g.Inside? && g.section < |pb.sections| && g.assertion < |pb.sections[g.section].assertions|
    && pb.sections[g.section].assertions[g.assertion].code == code
  }

  lemma {:induction false} SideWarns(pb: Playbook, w: World, s: nat, a: nat, phase: Phase, es: seq<Exec>,
                                     code: string, f: Frame, k: nat)
    requires k <= |es|
    ensures OnlyWarns(pb, f.events, SideAfter(w, s, a, phase, es, code, f, k).events, code)
  {
    if k > 0 {
      SideWarns(pb, w, s, a, phase, es, code, f, k - 1);
      var g := SideAfter(w, s, a, phase, es, code, f, k - 1);
      var site := Site(s, a, phase, k - 1);
      if !g.cancelled && !w.CancelledAt(g.polls) && w.replies(site).err.Some? {
        ParseStep(pb, g.events, CommandWarning(phase, code, w.replies(site).err.value));
      }
    }
  }

  lemma {:induction false} MainKeepsEvents(w: World, s: nat, a: nat, cs: seq<Cmd>, f: Frame, k: nat)
    requires k <= |cs|
    ensures MainAfter(w, s, a, cs, f, k).events == f.events
  {
    if k > 0 {
      MainKeepsEvents(w, s, a, cs, f, k - 1);
    }
  }

  lemma FramesWarn(pb: Playbook, w: World, s: nat, j: nat, a: Assertion, f: Frame)
    ensures var post := PostFrame(w, s, j, a, MainFrame(w, s, j, a, PreFrame(w, s, j, a, f)));
            OnlyWarns(pb, f.events, post.events, a.code)
  {
    hide SideAfter, MainAfter, Parse, Completions;
    var pre := PreFrame(w, s, j, a, f);
    var main := MainFrame(w, s, j, a, pre);
    SideWarns(pb, w, s, j, PreCmd, a.preCmds, a.code, f, |a.preCmds|);
    MainKeepsEvents(w, s, j, a.cmds, pre.(logs := []), |a.cmds|);
    SideWarns(pb, w, s, j, PostCmd, a.postCmds, a.code, main.(logs := []), |a.postCmds|);
  }

  lemma DoneStep(f: seq<AssertionContext>, done: nat, c: AssertionContext)
    requires DoneThenCancelled(f, done) && c.passed == c.status.Passed?
    ensures c.status == Cancelled ==> DoneThenCancelled(f + [c], done)
    ensures c.status.IsFinished() && done == |f| ==> DoneThenCancelled(f + [c], done + 1)
  {
  }

  lemma CompletionsStep(es: seq<Event>, e: Event)
    ensures Completions(es + [e])
            == Completions(es) + if e.AssertionComplete? then [(e.result.code, e.result.status)] else []
  {
    assert (es + [e])[..|es + [e]| - 1] == es;
  }

  /** What one more trace entry and its completion event do to the agreement. */
  lemma AccountsStep(t: RunState, u: RunState, c: AssertionContext, score: int, mid: seq<Event>)
    requires Accounts(t) && t.sections != [] && u.sections == AppendLast(t.sections, c)
    requires Completions(mid) == Completions(t.events) && u.events == mid + [Announce(c, score)]
    requires c.passed == c.status.Passed?
    requires if c.status == Cancelled then u.halt.Some? && u.passed == t.passed && u.failed == t.failed
             else c.status.IsFinished() && t.halt.None? && u.halt.None?
                  && u.passed == t.passed + (if c.passed then 1 else 0)
                  && u.failed == t.failed + (if c.passed then 0 else 1)
    ensures Accounts(u)
  {
    hide Join, Flat, Summaries, CountPassed, Completions, DoneThenCancelled, AppendLast, Millis, PassScores;
    var f := Flat(t.sections);
    FlatAppend(t.sections, c);
    FlatStep(f, c);
    CompletionsStep(mid, Announce(c, score));
    DoneStep(f, t.passed + t.failed, c);
  }

  lemma ExecuteKeeps(pb: Playbook, w: World, s: nat, j: nat, t: RunState)
    requires s < |pb.sections| && j < |pb.sections[s].assertions| && t.halt.None?
    requires Stable(pb, t, s + 1, j)
    ensures var u := Execute(w, s, j, pb.sections[s].assertions[j], |pb.sections[s].assertions|, t);
            Stable(pb, u, s + 1, j + 1) && (u.halt.Some? ==> Parse(pb, u.events) == Unwinding)
  {
    hide SideAfter, MainAfter, Accounts, Covers, Parse, Completions, Visible, ExcludedKeys, Millis, Join, PassScores;
    var a, total := pb.sections[s].assertions[j], |pb.sections[s].assertions|;
    CoversNonEmpty(pb, t.sections, s + 1, j);
    var f := StartFrame(a, j, total, t.polls, t.ticks, t.events);
    var pre := PreFrame(w, s, j, a, f);
    var main := MainFrame(w, s, j, a, pre);
    var post := PostFrame(w, s, j, a, main);
    var c := Conclude(w, a, w.Now(t.ticks), pre.logs, main.logs, post);
    var u := Execute(w, s, j, a, total, t);
    ParseStep(pb, t.events, AssertionStart(a.code, j + 1, total, a.GetMinPassingScore()));
    assert Parse(pb, f.events) == Inside(s, j);
    FramesWarn(pb, w, s, j, a, f);
    ParseStep(pb, post.events, Announce(c, post.score));
    AccountsStep(t, u, c, post.score, post.events);
    CoversAppend(pb, t.sections, s + 1, j, c);
  }

  lemma CoversNonEmpty(pb: Playbook, ss: seq<SectionContext>, n: nat, m: nat)
    requires Covers(pb, ss, n, m)
    ensures |ss| == n <= |pb.sections| && m <= FullLength(pb, n)
  {
  }

  /** An assertion poll or a section poll alone changes nothing the invariant speaks of. */
  lemma PollKeeps(pb: Playbook, t: RunState, n: nat, m: nat, polls: nat, halt: Option<(nat, nat)>)
    requires Stable(pb, t, n, m) && t.halt.None?
    ensures Stable(pb, t.(polls := polls, halt := halt), n, m)
  {
  }

  /** A halted run has begun to unwind, or has an assertion of the halting section left to cancel. */
  predicate Pending(pb: Playbook, t: RunState, s: nat, j: nat)
    requires s < |pb.sections|
  {
    Parse(pb, t.events) == Unwinding || j < |pb.sections[s].assertions| || pb.sections[s].assertions == []
  }

  predicate StandingIn(pb: Playbook, t: RunState, s: nat, k: nat)
    requires s < |pb.sections|
  {
    if t.halt.None? then Stable(pb, t, s + 1, k)
    else
      var (i, j) := t.halt.value;
      i == s && j <= k && Stable(pb, t, s + 1, j) && Pending(pb, t, s, j)
  }

  lemma AssertionStepKeeps(pb: Playbook, w: World, s: nat, j: nat, t: RunState)
    requires s < |pb.sections| && j < |pb.sections[s].assertions| && t.halt.None?
    requires Stable(pb, t, s + 1, j) && t.sections != []
    ensures StandingIn(pb, AssertionStep(w, pb, s, j, t), s, j + 1)
  {
    hide Stable, Conclude, Announce, PreFrame, MainFrame, PostFrame, StartFrame, Parse;
    PollKeeps(pb, t, s + 1, j, t.polls + 1, None);
    PollKeeps(pb, t, s + 1, j, t.polls + 1, Some((s, j)));
    ExecuteKeeps(pb, w, s, j, t.(polls := t.polls + 1));
  }

  lemma {:induction false} AssertionsKeep(pb: Playbook, w: World, s: nat, t: RunState, k: nat)
    requires s < |pb.sections| && k <= |pb.sections[s].assertions| && t.halt.None?
    requires Stable(pb, t, s + 1, 0)
    ensures t.sections != []
    ensures StandingIn(pb, AssertionsAfter(w, pb, s, t, k), s, k)
  {
    hide Stable, AssertionStep, Pending;
    StableSize(pb, t, s + 1, 0);
    if k > 0 {
      AssertionsKeep(pb, w, s, t, k - 1);
      var u := AssertionsAfter(w, pb, s, t, k - 1);
      if u.halt.None? {
        AssertionStepKeeps(pb, w, s, k - 1, u);
      }
    }
  }

  lemma OpenKeeps(pb: Playbook, s: nat, t: RunState)
    requires s < |pb.sections| && t.halt.None? && Stable(pb, t, s, FullLength(pb, s))
    ensures Stable(pb, OpenSection(pb, s, t), s + 1, 0) && OpenSection(pb, s, t).halt.None?
  {
    hide Covers;
    CoversOpen(pb, t.sections, s);
    FlatOpen(t.sections, pb.sections[s]);
    ParseStep(pb, t.events, SectionStart(pb.sections[s].title, s + 1, |pb.sections|));
  }

  /** Where a run stands after k sections: all of them complete, or halted at a recorded place. */
  predicate Standing(pb: Playbook, t: RunState, k: nat)
    requires k <= |pb.sections|
  {
    if t.halt.None? then Stable(pb, t, k, FullLength(pb, k))
    else
      var (s, j) := t.halt.value;
      s < k && j <= |pb.sections[s].assertions| && Pending(pb, t, s, j)
      && (Stable(pb, t, s + 1, j) || (j == 0 && Stable(pb, t, s, FullLength(pb, s))))
  }

  lemma SectionStepKeeps(pb: Playbook, w: World, s: nat, t: RunState)
    requires s < |pb.sections| && t.halt.None? && Stable(pb, t, s, FullLength(pb, s))
    ensures Standing(pb, SectionStep(w, pb, s, t), s + 1)
  {
    hide Stable, AssertionsAfter, OpenSection;
    PollKeeps(pb, t, s, FullLength(pb, s), t.polls + 1, Some((s, 0)));
    OpenKeeps(pb, s, t);
    AssertionsKeep(pb, w, s, OpenSection(pb, s, t), |pb.sections[s].assertions|);
  }

  lemma {:induction false} SectionsKeep(pb: Playbook, w: World, runId: string, k: nat)
    requires k <= |pb.sections|
    ensures Standing(pb, SectionsAfter(w, pb, InitialState(runId), k), k)
  {
    hide Stable, SectionStep, Pending;
    if k == 0 {
      InitialStable(pb, runId);
    } else {
      SectionsKeep(pb, w, runId, k - 1);
      var u := SectionsAfter(w, pb, InitialState(runId), k - 1);
      if u.halt.None? {
        SectionStepKeeps(pb, w, k - 1, u);
      }
    }
  }

  lemma InitialStable(pb: Playbook, runId: string)
    ensures Stable(pb, InitialState(runId), 0, 0)
  {
    assert [RunStart(runId)] == [] + [RunStart(runId)];
    ParseStep(pb, [], RunStart(runId));
  }

  // ---------------------------------------------------------------- unwinding

  lemma UnwindOneKeeps(pb: Playbook, a: Assertion, t: RunState, n: nat, m: nat)
    requires t.halt.Some? && Stable(pb, t, n, m) && n > 0 && m < FullLength(pb, n)
    requires a == pb.sections[n - 1].assertions[m]
    ensures t.sections != []
    ensures Stable(pb, UnwindOne(a, t), n, m + 1) && Parse(pb, UnwindOne(a, t).events) == Unwinding
  {
    hide Accounts, Completions, Millis, Join, PassScores;
    var u := UnwindOne(a, t);
    AccountsStep(t, u, Unrun(a), 0, t.events);
    CoversAppend(pb, t.sections, n, m, Unrun(a));
    ParseStep(pb, t.events, Announce(Unrun(a), 0));
  }

  lemma {:induction false} UnwindListKeeps(pb: Playbook, n: nat, from: nat, t: RunState, k: nat)
    requires 0 < n <= |pb.sections| && from <= k <= FullLength(pb, n)
    requires t.halt.Some? && Stable(pb, t, n, from)
    ensures t.sections != []
    ensures var u := UnwindList(pb.sections[n - 1], from, t, k);
            && u.halt == t.halt && Stable(pb, u, n, k)
            && (from < k || Parse(pb, t.events) == Unwinding ==> Parse(pb, u.events) == Unwinding)
    decreases k
  {
    hide Stable, UnwindOne;
    StableSize(pb, t, n, from);
    if from < k {
      UnwindListKeeps(pb, n, from, t, k - 1);
      var u := UnwindList(pb.sections[n - 1], from, t, k - 1);
      UnwindOneKeeps(pb, pb.sections[n - 1].assertions[k - 1], u, n, k - 1);
      UnwindOneHalt(pb.sections[n - 1].assertions[k - 1], u);
    }
  }

  lemma UnwindOneHalt(a: Assertion, t: RunState)
    requires t.sections != []
    ensures UnwindOne(a, t).halt == t.halt
  {
  }

  lemma ReachKeeps(pb: Playbook, s: nat, t: RunState)
    requires s < |pb.sections| && t.halt.Some? && Stable(pb, t, s, FullLength(pb, s))
    ensures Reach(pb.sections[s], s, t).halt == t.halt && Stable(pb, Reach(pb.sections[s], s, t), s + 1, 0)
  {
    hide Covers;
    CoversNonEmpty(pb, t.sections, s, FullLength(pb, s));
    CoversOpen(pb, t.sections, s);
    FlatOpen(t.sections, pb.sections[s]);
  }

  lemma StableSize(pb: Playbook, t: RunState, n: nat, m: nat)
    requires Stable(pb, t, n, m)
    ensures |t.sections| == n <= |pb.sections| && m <= FullLength(pb, n)
  {
  }

  lemma {:induction false} UnwindKeeps(pb: Playbook, from: nat, next: nat, t: RunState, k: nat)
    requires from < k <= |pb.sections| && next <= |pb.sections[from].assertions| && t.halt.Some?
    requires Stable(pb, t, from + 1, next) || (next == 0 && Stable(pb, t, from, FullLength(pb, from)))
    ensures from <= |t.sections| <= from + 1
    ensures var u := UnwindAfter(pb, from, next, t, k);
            && u.halt == t.halt && Stable(pb, u, k, FullLength(pb, k))
            && (|| next < |pb.sections[from].assertions| || Parse(pb, t.events) == Unwinding
                || (from + 1 < k && pb.sections[k - 1].assertions != [])
                ==> Parse(pb, u.events) == Unwinding)
    decreases k
  {
    hide Stable, UnwindList, Reach;
    var s := pb.sections[k - 1];
    if Stable(pb, t, from + 1, next) {
      StableSize(pb, t, from + 1, next);
    } else {
      StableSize(pb, t, from, FullLength(pb, from));
    }
    if k - 1 == from {
      if Stable(pb, t, from + 1, next) {
        ReachOpen(s, from, t);
        UnwindListKeeps(pb, k, next, t, |s.assertions|);
      } else {
        ReachKeeps(pb, from, t);
        ReachEvents(s, from, t);
        UnwindListKeeps(pb, k, 0, Reach(s, from, t), |s.assertions|);
      }
    } else {
      UnwindKeeps(pb, from, next, t, k - 1);
      var u := UnwindAfter(pb, from, next, t, k - 1);
      ReachKeeps(pb, k - 1, u);
      UnwindListKeeps(pb, k, 0, Reach(s, k - 1, u), |s.assertions|);
      ReachEvents(s, k - 1, u);
    }
  }

  lemma ReachOpen(s: Section, i: nat, t: RunState)
    requires i < |t.sections|
    ensures Reach(s, i, t) == t
  {
  }

  lemma ReachEvents(s: Section, i: nat, t: RunState)
    ensures Reach(s, i, t).events == t.events
  {
  }

  // ---------------------------------------------------------------- the theorems

  /** Every section and every assertion of the playbook has its entry in the trace, in order. */
  predicate Complete(pb: Playbook, trace: ExecutionTrace) {
    && |trace.sections| == |pb.sections|
    && forall i :: 0 <= i < |pb.sections| ==> Matches(pb.sections[i], trace.sections[i], |pb.sections[i].assertions|)
  }

  predicate IsLast(e: Event) { e.RunComplete? || e.RunCancelled? }

  /** The last event of a list the automaton has consumed. */
  lemma {:induction false} OverIsLast(pb: Playbook, es: seq<Event>)
    requires !Parse(pb, es).Rejected?
    ensures es != [] ==> (es[|es| - 1].RunComplete? <==> Parse(pb, es) == Over(true))
    ensures es != [] ==> (es[|es| - 1].RunCancelled? <==> Parse(pb, es) == Over(false))
    ensures es != [] ==> es[0].RunStart?
    ensures es != [] ==> !Parse(pb, es).NotStarted?
    ensures forall i :: 0 <= i < |es| - 1 ==> !IsLast(es[i])
    ensures forall i :: 0 < i < |es| ==> !es[i].RunStart?
  {
    if es != [] {
      var front := es[..|es| - 1];
      OverIsLast(pb, front);
      forall i | 0 <= i < |front| ensures front[i] == es[i] {}
    }
  }

  lemma FinalStanding(w: World, pb: Playbook, runId: string, fmt: Formats)
    ensures var r := RunOf(w, pb, runId, fmt);
            var t := Body(w, pb, runId);
            var f := Flat(r.trace.sections);
            && Complete(pb, r.trace) && Completions(r.events) == Summaries(f)
            && DoneThenCancelled(f, t.passed + t.failed) && CountPassed(f) == t.passed
            && Parse(pb, r.events) == Over(t.halt.None?)
            && r.trace.playbook == pb
            && (t.halt.None? ==> |f| == t.passed + t.failed
                                 && r.trace.totalPassed == t.passed && r.trace.totalFailed == t.failed)
            && (t.halt.Some? ==> r.trace.totalPassed == 0 && r.trace.totalFailed == 0)
  {
    hide SectionsAfter, UnwindAfter, Generate, Flat, Summaries, CountPassed, DoneThenCancelled, Completions, Parse,
         Matches;
    SectionsKeep(pb, w, runId, |pb.sections|);
    HaltsInside(w, pb, runId);
    var t, n := Body(w, pb, runId), |pb.sections|;
    var r := RunOf(w, pb, runId, fmt);
    if t.halt.Some? {
      var (s, j) := t.halt.value;
      UnwindKeeps(pb, s, j, t, n);
      UnwindCounts(pb, s, j, t, n);
      var u := UnwindAfter(pb, s, j, t, n);
      var trace := TraceOf(w, pb, u, 0, 0);
      ParseStep(pb, u.events, RunCancelled(runId, trace));
      assert r == Run(trace, u.events + [RunCancelled(runId, trace)]);
    } else {
      ParseStep(pb, t.events, r.events[|r.events| - 1]);
      assert r.events == t.events + [r.events[|r.events| - 1]];
    }
  }

  lemma {:induction false} UnwindCounts(pb: Playbook, from: nat, next: nat, t: RunState, k: nat)
    requires from <= k <= |pb.sections| && from < |pb.sections| && next <= |pb.sections[from].assertions|
    requires from <= |t.sections| <= from + 1
    ensures var u := UnwindAfter(pb, from, next, t, k); u.passed == t.passed && u.failed == t.failed
    decreases k
  {
    if from < k {
      UnwindCounts(pb, from, next, t, k - 1);
      var s := pb.sections[k - 1];
      var r := Reach(s, k - 1, UnwindAfter(pb, from, next, t, k - 1));
      UnwindListCounts(s, if k - 1 == from then next else 0, r, |s.assertions|);
    }
  }

  lemma {:induction false} UnwindListCounts(s: Section, from: nat, t: RunState, k: nat)
    requires from <= k <= |s.assertions| && t.sections != []
    ensures var u := UnwindList(s, from, t, k); u.passed == t.passed && u.failed == t.failed
    decreases k
  {
    if from < k {
      UnwindListCounts(s, from, t, k - 1);
    }
  }

  /** The trace is complete and in playbook order; its statuses are passed or failed up to some
      point and cancelled after it. */
  lemma TraceCompleteness(w: World, pb: Playbook, runId: string, fmt: Formats)
    ensures var trace := RunOf(w, pb, runId, fmt).trace;
            Complete(pb, trace) && exists done: nat :: DoneThenCancelled(Flat(trace.sections), done)
  {
    FinalStanding(w, pb, runId, fmt);
  }

  /** The events form one run by the grammar, ended by exactly one terminal event, and complete
      exactly the assertions of the trace, in order, with the statuses recorded there. */
  lemma ObserverGrammar(w: World, pb: Playbook, runId: string, fmt: Formats)
    ensures var r := RunOf(w, pb, runId, fmt);
            && Parse(pb, r.events).Over?
            && Completions(r.events) == Summaries(Flat(r.trace.sections))
            && r.events != [] && IsLast(r.events[|r.events| - 1])
            && (forall i :: 0 <= i < |r.events| - 1 ==> !IsLast(r.events[i]))
            && (forall i :: 0 <= i < |r.events| ==> (r.events[i].RunStart? <==> i == 0))
  {
    hide RunOf, Parse;
    FinalStanding(w, pb, runId, fmt);
    var r := RunOf(w, pb, runId, fmt);
    EmptyNotStarted(pb);
    OverIsLast(pb, r.events);
  }

  lemma EmptyNotStarted(pb: Playbook)
    ensures Parse(pb, []) == NotStarted
  {
  }

  predicate SomeCancelled(f: seq<AssertionContext>) { exists i :: 0 <= i < |f| && f[i].status == Cancelled }

  /** The playbook's last section, if it has one, is not empty. */
  predicate EndsFull(pb: Playbook) { pb.sections != [] ==> pb.sections[|pb.sections| - 1].assertions != [] }

  /** Run-complete means nothing was cancelled; when the last section is not empty run-cancelled means
      something was. */
  lemma TerminalEventMeaning(w: World, pb: Playbook, runId: string, fmt: Formats)
    ensures var r := RunOf(w, pb, runId, fmt);
            && r.events != []
            && (r.events[|r.events| - 1].RunComplete? ==> !SomeCancelled(Flat(r.trace.sections)))
            && (EndsFull(pb) ==> (r.events[|r.events| - 1].RunCancelled? <==> SomeCancelled(Flat(r.trace.sections))))
  {
    hide RunOf, Parse, UnwindAfter;
    var r := RunOf(w, pb, runId, fmt);
    var t := Body(w, pb, runId);
    FinalStanding(w, pb, runId, fmt);
    EmptyNotStarted(pb);
    OverIsLast(pb, r.events);
    if t.halt.Some? && EndsFull(pb) {
      HaltsInside(w, pb, runId);
      CancelledRunCancels(w, pb, runId, fmt);
    }
  }

  lemma CancelledRunCancels(w: World, pb: Playbook, runId: string, fmt: Formats)
    requires Body(w, pb, runId).halt.Some? && pb.sections != [] && EndsFull(pb)
    ensures SomeCancelled(Flat(RunOf(w, pb, runId, fmt).trace.sections))
  {
    hide SectionsAfter, UnwindAfter, Flat, Summaries, Completions, Parse, Stable, Generate;
    HaltsInside(w, pb, runId);
    SectionsKeep(pb, w, runId, |pb.sections|);
    var t := Body(w, pb, runId);
    var (s, j) := t.halt.value;
    UnwindKeeps(pb, s, j, t, |pb.sections|);
    var u := UnwindAfter(pb, s, j, t, |pb.sections|);
    UnwindingMeansCancelled(pb, u.events);
    StableCounts(pb, u, |pb.sections|, FullLength(pb, |pb.sections|));
    var f := Flat(u.sections);
    var k := |Summaries(f)| - 1;
    SummariesLength(f);
    SummaryAt(f, k);
    assert RunOf(w, pb, runId, fmt).trace.sections == u.sections;
  }

  lemma StableCounts(pb: Playbook, t: RunState, n: nat, m: nat)
    requires Stable(pb, t, n, m)
    ensures Completions(t.events) == Summaries(Flat(t.sections))
  {
  }

  lemma UnwindingMeansCancelled(pb: Playbook, es: seq<Event>)
    requires Parse(pb, es) == Unwinding
    ensures Completions(es) != [] && Completions(es)[|Completions(es)| - 1].1 == Cancelled
  {
    var e := es[|es| - 1];
    assert e.AssertionComplete? && e.result.status == Cancelled;
  }

  lemma {:induction false} SummaryAt(f: seq<AssertionContext>, k: nat)
    requires k < |f|
    ensures |Summaries(f)| == |f| && Summaries(f)[k] == (f[k].assertion.code, f[k].status)
  {
    if k == |f| - 1 {
      SummariesLength(f);
    } else {
      SummariesLength(f);
      SummaryAt(f[..|f| - 1], k);
    }
  }

  lemma {:induction false} SummariesLength(f: seq<AssertionContext>)
    ensures |Summaries(f)| == |f|
  {
    if f != [] {
      SummariesLength(f[..|f| - 1]);
    }
  }
}
