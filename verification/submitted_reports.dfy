/** The engine inside the server: a report that is submitted comes from a run in which no assertion was
    cancelled, because a context once cancelled stays so until the run is finalised. */
module SubmittedReports {
  import opened Text
  import opened PlaybookTypes
  import opened Report
  import Director
  import Traces
  import opened StateManagement
  import opened Lifecycle
  import opened Server
  import opened ServerSafety

  // ---------------------------------------------------------------- cancellation is seen at the end

  lemma {:induction false} SideSaw(w: Director.World, s: nat, a: nat, phase: Director.Phase, es: seq<Exec>,
                                   code: string, f: Director.Frame, k: nat)
    requires k <= |es| && !f.cancelled
    ensures var g := Director.SideAfter(w, s, a, phase, es, code, f, k); g.cancelled ==> w.CancelledAt(g.polls)
  {
    if k > 0 {
      SideSaw(w, s, a, phase, es, code, f, k - 1);
    }
  }

  lemma {:induction false} MainSaw(w: Director.World, s: nat, a: nat, cs: seq<Cmd>, f: Director.Frame, k: nat)
    requires k <= |cs| && !f.cancelled
    ensures var g := Director.MainAfter(w, s, a, cs, f, k); g.cancelled ==> w.CancelledAt(g.polls)
  {
    hide Director.Contribution, Director.CmdOutputs;
    if k > 0 {
      MainSaw(w, s, a, cs, f, k - 1);
    }
  }

  lemma ExecuteSaw(w: Director.World, s: nat, j: nat, a: Assertion, total: nat, t: Director.RunState)
    requires t.sections != [] && t.halt.None?
    ensures var u := Director.Execute(w, s, j, a, total, t); u.halt.Some? ==> w.CancelledAt(u.polls)
  {
    hide Director.SideAfter, Director.MainAfter, Director.AppendLast, Director.Announce, Director.Visible,
         Director.ExcludedKeys;
    var f := Director.StartFrame(a, j, total, t.polls, t.ticks, t.events);
    SideSaw(w, s, j, Director.PreCmd, a.preCmds, a.code, f, |a.preCmds|);
    var pre := Director.PreFrame(w, s, j, a, f);
    if !pre.cancelled {
      MainSaw(w, s, j, a.cmds, pre.(logs := []), |a.cmds|);
    }
    var main := Director.MainFrame(w, s, j, a, pre);
    if !main.cancelled {
      SideSaw(w, s, j, Director.PostCmd, a.postCmds, a.code, main.(logs := []), |a.postCmds|);
    }
  }

  lemma {:induction false} AssertionsSaw(w: Director.World, pb: Playbook, s: nat, t: Director.RunState, k: nat)
    requires s < |pb.sections| && k <= |pb.sections[s].assertions| && t.sections != [] && t.halt.None?
    ensures var u := Director.AssertionsAfter(w, pb, s, t, k); u.halt.Some? ==> w.CancelledAt(u.polls)
  {
    hide Director.Execute;
    if k > 0 {
      AssertionsSaw(w, pb, s, t, k - 1);
      var u := Director.AssertionsAfter(w, pb, s, t, k - 1);
      if u.halt.None? {
        ExecuteSaw(w, s, k - 1, pb.sections[s].assertions[k - 1], |pb.sections[s].assertions|,
                   u.(polls := u.polls + 1));
      }
    }
  }

  lemma {:induction false} SectionsSaw(w: Director.World, pb: Playbook, t: Director.RunState, k: nat)
    requires k <= |pb.sections| && t.halt.None?
    ensures var u := Director.SectionsAfter(w, pb, t, k); u.halt.Some? ==> w.CancelledAt(u.polls)
  {
    hide Director.AssertionsAfter;
    if k > 0 {
      SectionsSaw(w, pb, t, k - 1);
      var u := Director.SectionsAfter(w, pb, t, k - 1);
      if u.halt.None? {
        AssertionsSaw(w, pb, k - 1, Director.OpenSection(pb, k - 1, u), |pb.sections[k - 1].assertions|);
      }
    }
  }

  /** What the check at finalisation sees: the poll after the last one of the engine. */
  predicate SeenAtTheEnd(w: Director.World, pb: Playbook, runId: string) {
    w.CancelledAt(Director.Body(w, pb, runId).polls)
  }

  /** No assertion of the run's trace is cancelled. */
  predicate Clean(w: Director.World, pb: Playbook, runId: string, fmt: Formats) {
    !Traces.SomeCancelled(Traces.Flat(Director.RunOf(w, pb, runId, fmt).trace.sections))
  }

  /** A run whose context is not cancelled at finalisation was completed, and cancelled nothing. */
  lemma UnseenMeansClean(w: Director.World, pb: Playbook, runId: string, fmt: Formats)
    requires !SeenAtTheEnd(w, pb, runId)
    ensures Clean(w, pb, runId, fmt)
  {
    hide Director.SectionsAfter, Director.UnwindAfter, Traces.Flat, Traces.Parse, Generate;
    SectionsSaw(w, pb, Director.InitialState(runId), |pb.sections|);
    Director.HaltsInside(w, pb, runId);
    Traces.TerminalEventMeaning(w, pb, runId, fmt);
  }

  // ---------------------------------------------------------------- runs of the server are runs of the engine

  /** The outside worlds and the names of the server's runs, by run. */
  datatype Runs = Runs(world: nat -> Director.World, name: nat -> string, fmt: Formats)

  predicate CleanRun(e: Runs, s: System, r: nat) {
    r < |s.runs| && Clean(e.world(r), s.runs[r].playbook, e.name(r), e.fmt)
  }

  /** The final section of a run finds its context as the run's world has it. */
  predicate Witnessed(e: Runs, s: System, a: Action) {
    a.FinishRun? && a.run < |s.runs| && s.runs[a.run].phase.Executing? ==>
      s.runs[a.run].cancelled == SeenAtTheEnd(e.world(a.run), s.runs[a.run].playbook, e.name(a.run))
  }

  predicate ReportsClean(e: Runs, s: System) {
    && (s.sm.lastReport.Some? && !s.sm.lastReport.value.aborted ==> CleanRun(e, s, s.sm.lastReport.value.run))
    && (forall k :: 0 <= k < |s.submits| && !s.submits[k].report.aborted ==> CleanRun(e, s, s.submits[k].report.run))
  }

  /** Runs are only added, and keep their playbook. */
  lemma RunsStay(e: Runs, s: System, a: Action)
    ensures forall r: nat :: CleanRun(e, s, r) ==> CleanRun(e, Apply(s, a), r)
  {
    hide Clean, Notified, Disconnected, Connected, GraceExpired, IdleExpired, Stopped, Ran, StartOutcomeOf, WithRun,
         SubmitReport, WithSubmission, WithSubmitted, WithElevation, WithReport, WithCancel, CanCancel, WithPlaybook,
         WithDestination, Unloaded, RequiresElevation;
  }

  lemma ReportsCleanKept(e: Runs, s: System, a: Action)
    requires ReportsClean(e, s) && Witnessed(e, s, a)
    ensures ReportsClean(e, Apply(s, a))
  {
    hide CleanRun, Clean, SeenAtTheEnd, Apply;
    RunsStay(e, s, a);
    if a.FinishRun? {
      FinishReports(e, s, a.run, a.writeFails);
    } else {
      OldReports(s, a);
    }
  }

  /** Every step but the end of a run only keeps, drops or hands on the last report. */
  lemma OldReports(s: System, a: Action)
    requires !a.FinishRun?
    ensures var t := Apply(s, a);
            && (t.sm.lastReport == s.sm.lastReport || t.sm.lastReport.None?)
            && forall k :: 0 <= k < |t.submits| ==>
                 t.submits[k].report == (if k < |s.submits| then s.submits[k].report else t.submits[k].report)
                 && (k >= |s.submits| ==> s.sm.lastReport == Some(t.submits[k].report))
  {
    hide Notified, Disconnected, Connected, GraceExpired, IdleExpired, Stopped, Ran, RequiresElevation, SubmitUrl,
         WithDefaults, WithoutSubmissionErrors;
  }

  lemma FinishReports(e: Runs, s: System, r: nat, writeFails: bool)
    requires Witnessed(e, s, FinishRun(r, writeFails))
    ensures var t := Apply(s, FinishRun(r, writeFails));
            && t.submits == s.submits
            && (t.sm.lastReport == s.sm.lastReport
                || (t.sm.lastReport.Some?
                    && (!t.sm.lastReport.value.aborted ==> CleanRun(e, t, t.sm.lastReport.value.run))))
  {
    hide Clean, SeenAtTheEnd, HasHttps;
    if r < |s.runs| && s.runs[r].phase.Executing? && !s.runs[r].cancelled {
      UnseenMeansClean(e.world(r), s.runs[r].playbook, e.name(r), e.fmt);
    }
  }

  ghost predicate AllWitnessed(e: Runs, s: System, actions: seq<Action>) {
    forall i :: 0 <= i < |actions| ==> Witnessed(e, After(s, actions[..i]), actions[i])
  }

  lemma {:induction false} AlwaysClean(e: Runs, config: Config, disabled: bool, actions: seq<Action>)
    requires AllWitnessed(e, Start(config, disabled), actions)
    ensures ReportsClean(e, After(Start(config, disabled), actions))
  {
    hide ReportsClean, Apply, Witnessed;
    var s := Start(config, disabled);
    if actions == [] {
      NothingReported(e, config, disabled);
    } else {
      var front, a := actions[..|actions| - 1], actions[|actions| - 1];
      forall i | 0 <= i < |front| ensures Witnessed(e, After(s, front[..i]), front[i]) {
        assert front[..i] == actions[..i];
      }
      AlwaysClean(e, config, disabled, front);
      assert actions[..|actions| - 1] == front;
      ReportsCleanKept(e, After(s, front), a);
    }
  }

  lemma NothingReported(e: Runs, config: Config, disabled: bool)
    ensures ReportsClean(e, After(Start(config, disabled), []))
  {
  }

  /** Under every interleaving: whatever has been submitted is the report of a run whose trace has no
      cancelled assertion. */
  lemma SubmittedReportsAreClean(e: Runs, config: Config, disabled: bool, actions: seq<Action>, k: nat)
    requires AllWitnessed(e, Start(config, disabled), actions)
    requires k < |After(Start(config, disabled), actions).submits|
    ensures var s := After(Start(config, disabled), actions); CleanRun(e, s, s.submits[k].report.run)
  {
    hide CleanRun, After, Start, LifecycleSafe, NoLostWakeup, ActiveHasCause;
    AlwaysClean(e, config, disabled, actions);
    AlwaysSafe(config, disabled, actions);
  }
}
