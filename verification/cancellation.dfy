/** When the terminal event of a run means what it says: run-cancelled implies a cancelled assertion in
    every world exactly for the playbooks whose last section is not empty. */
module Cancellation {
  import opened Text
  import opened PlaybookTypes
  import opened Executor
  import opened Report
  import opened Director
  import opened Traces

  // ---------------------------------------------------------------- the same run below poll p

  function Never(w: World): World { w.(cancelAt := None) }

  function From(w: World, p: nat): World { w.(cancelAt := Some(p)) }

  lemma {:induction false} SideBelow(w: World, p: nat, s: nat, a: nat, phase: Phase, es: seq<Exec>, code: string,
                                     f: Frame, k: nat)
    requires k <= |es| && !f.cancelled
    ensures var g := SideAfter(Never(w), s, a, phase, es, code, f, k);
            && !g.cancelled && f.polls <= g.polls
            && (g.polls <= p ==> SideAfter(From(w, p), s, a, phase, es, code, f, k) == g)
  {
    if k > 0 {
      SideBelow(w, p, s, a, phase, es, code, f, k - 1);
    }
  }

  lemma {:induction false} MainBelow(w: World, p: nat, s: nat, a: nat, cs: seq<Cmd>, f: Frame, k: nat)
    requires k <= |cs| && !f.cancelled
    ensures var g := MainAfter(Never(w), s, a, cs, f, k);
            && !g.cancelled && f.polls <= g.polls
            && (g.polls <= p ==> MainAfter(From(w, p), s, a, cs, f, k) == g)
  {
    hide Contribution, CmdOutputs;
    if k > 0 {
      MainBelow(w, p, s, a, cs, f, k - 1);
    }
  }

  lemma ExecuteBelow(w: World, p: nat, s: nat, j: nat, a: Assertion, total: nat, t: RunState)
    requires t.sections != [] && t.halt.None?
    ensures var u := Execute(Never(w), s, j, a, total, t);
            && u.halt.None? && t.polls <= u.polls
            && (u.polls <= p ==> Execute(From(w, p), s, j, a, total, t) == u)
  {
    hide SideAfter, MainAfter, AppendLast, Announce, Visible, ExcludedKeys;
    var v := Never(w);
    var f := StartFrame(a, j, total, t.polls, t.ticks, t.events);
    SideBelow(w, p, s, j, PreCmd, a.preCmds, a.code, f, |a.preCmds|);
    var pre := PreFrame(v, s, j, a, f);
    MainBelow(w, p, s, j, a.cmds, pre.(logs := []), |a.cmds|);
    var main := MainFrame(v, s, j, a, pre);
    SideBelow(w, p, s, j, PostCmd, a.postCmds, a.code, main.(logs := []), |a.postCmds|);
  }

  lemma {:induction false} AssertionsBelow(w: World, p: nat, pb: Playbook, s: nat, t: RunState, k: nat)
    requires s < |pb.sections| && k <= |pb.sections[s].assertions| && t.sections != [] && t.halt.None?
    ensures var u := AssertionsAfter(Never(w), pb, s, t, k);
            && u.halt.None? && t.polls <= u.polls
            && (u.polls <= p ==> AssertionsAfter(From(w, p), pb, s, t, k) == u)
  {
    hide Execute;
    if k > 0 {
      AssertionsBelow(w, p, pb, s, t, k - 1);
      var u := AssertionsAfter(Never(w), pb, s, t, k - 1);
      ExecuteBelow(w, p, s, k - 1, pb.sections[s].assertions[k - 1], |pb.sections[s].assertions|,
                   u.(polls := u.polls + 1));
    }
  }

  lemma {:induction false} SectionsBelow(w: World, p: nat, pb: Playbook, t: RunState, k: nat)
    requires k <= |pb.sections| && t.halt.None?
    ensures var u := SectionsAfter(Never(w), pb, t, k);
            && u.halt.None? && t.polls <= u.polls
            && (u.polls <= p ==> SectionsAfter(From(w, p), pb, t, k) == u)
  {
    hide AssertionsAfter;
    if k > 0 {
      SectionsBelow(w, p, pb, t, k - 1);
      var u := SectionsAfter(Never(w), pb, t, k - 1);
      AssertionsBelow(w, p, pb, k - 1, OpenSection(pb, k - 1, u), |pb.sections[k - 1].assertions|);
    }
  }

  // ---------------------------------------------------------------- the exact condition

  /** If the run ends as cancelled, some assertion of its trace is cancelled. */
  ghost predicate MeansIt(w: World, pb: Playbook, runId: string, fmt: Formats) {
    var r := RunOf(w, pb, runId, fmt);
    r.events != [] && r.events[|r.events| - 1].RunCancelled? ==> SomeCancelled(Flat(r.trace.sections))
  }

  /** The poll before the last section, in a run that nobody cancels. */
  function LastSectionPoll(w: World, pb: Playbook, runId: string): nat
    requires pb.sections != []
  {
    SectionsAfter(Never(w), pb, InitialState(runId), |pb.sections| - 1).polls
  }

  /** With an empty last section, a cancellation first seen by the poll before it cancels nothing: the
      run ends as cancelled with every assertion passed or failed. */
  lemma EmptyLastSectionCancelsNothing(w: World, pb: Playbook, runId: string, fmt: Formats)
    requires pb.sections != [] && !EndsFull(pb)
    ensures var r := RunOf(From(w, LastSectionPoll(w, pb, runId)), pb, runId, fmt);
            && r.events != [] && r.events[|r.events| - 1] == RunCancelled(runId, r.trace)
            && forall i :: 0 <= i < |Flat(r.trace.sections)| ==> Flat(r.trace.sections)[i].status.IsFinished()
  {
    hide SectionsAfter, Stable, Generate;
    var n, p := |pb.sections|, LastSectionPoll(w, pb, runId);
    var t := SectionsAfter(Never(w), pb, InitialState(runId), n - 1);
    SectionsBelow(w, p, pb, InitialState(runId), n - 1);
    SectionsKeep(pb, From(w, p), runId, n - 1);
    StableSize(pb, t, n - 1, FullLength(pb, n - 1));
    HaltsInside(From(w, p), pb, runId);
    BodyHalts(From(w, p), pb, runId, t);
    AllFinished(pb, t, n - 1);
    UnwindNothing(pb, t.(polls := p + 1, halt := Some((n - 1, 0))));
    FlatOpen(t.sections, pb.sections[n - 1]);
  }

  lemma BodyHalts(w: World, pb: Playbook, runId: string, t: RunState)
    requires pb.sections != [] && t.halt.None? && w.CancelledAt(t.polls)
    requires SectionsAfter(w, pb, InitialState(runId), |pb.sections| - 1) == t
    ensures Body(w, pb, runId) == t.(polls := t.polls + 1, halt := Some((|pb.sections| - 1, 0)))
  {
  }

  lemma UnwindNothing(pb: Playbook, t: RunState)
    requires pb.sections != [] && !EndsFull(pb) && |t.sections| == |pb.sections| - 1
    ensures var s := pb.sections[|pb.sections| - 1];
            UnwindAfter(pb, |pb.sections| - 1, 0, t, |pb.sections|)
            == t.(sections := t.sections + [SectionContext(s, [])])
  {
  }

  lemma AllFinished(pb: Playbook, t: RunState, n: nat)
    requires n <= |pb.sections| && t.halt.None? && Standing(pb, t, n)
    ensures forall i :: 0 <= i < |Flat(t.sections)| ==> Flat(t.sections)[i].status.IsFinished()
  {
    hide Parse, Completions, Summaries;
  }

  /** Run-cancelled implies a cancelled assertion, in every world, exactly when the last section of the
      playbook is not empty. */
  lemma RunCancelledMeansCancelled(pb: Playbook, runId: string, fmt: Formats)
    ensures (forall w: World :: MeansIt(w, pb, runId, fmt)) <==> EndsFull(pb)
  {
    hide RunOf, Flat;
    if EndsFull(pb) {
      forall w: World ensures MeansIt(w, pb, runId, fmt) {
        TerminalEventMeaning(w, pb, runId, fmt);
      }
    } else {
      var w := SomeWorld();
      var v := From(w, LastSectionPoll(w, pb, runId));
      EmptyLastSectionCancelsNothing(w, pb, runId, fmt);
      assert !MeansIt(v, pb, runId, fmt);
    }
  }

  function SomeWorld(): World {
    World(site => Reply(ExecutionResult("", "", 0, true), None, 0, 0, map[]), None, tick => 0)
  }

  /** The smallest case: one empty section, cancelled at the first poll. */
  lemma EmptySectionCancelsNothing(w: World, section: Section, pb: Playbook, runId: string, fmt: Formats)
    requires section.assertions == [] && pb.sections == [section]
    ensures var r := RunOf(From(w, 0), pb, runId, fmt);
            && r.events != [] && r.events[|r.events| - 1] == RunCancelled(runId, r.trace)
            && forall i :: 0 <= i < |Flat(r.trace.sections)| ==> Flat(r.trace.sections)[i].status.IsFinished()
  {
    hide RunOf, Flat;
    EmptyLastSectionCancelsNothing(w, pb, runId, fmt);
  }
}
