/** A cancel request that is granted reaches a run, and that run ends as cancelled. */
module CancelReach {
  import opened Text
  import opened PlaybookTypes
  import opened Validator
  import opened StateManagement
  import opened Lifecycle
  import opened Server
  import opened ServerSafety

  // ---------------------------------------------------------------- whom a cancel reaches

  /** The cancel function the server holds is that of the latest run, and a status that can be cancelled
      means there is one. */
  predicate Reaches(s: System) {
    && (s.runs != [] ==> s.sm.cancelTarget == Some(|s.runs| - 1))
    && (CanCancel(s.sm) ==> s.runs != [])
  }

  lemma ReachesKept(s: System, a: Action)
    requires Reaches(s)
    ensures Reaches(Apply(s, a))
  {
    hide PlaybookErrors, RequiresElevation, HasHttps, SubmitUrl, DestinationAccepted, Config.Resolve,
         WithoutSubmissionErrors, Notified, Disconnected, Connected, GraceExpired, IdleExpired, Stopped, Ran;
  }

  lemma {:induction false} AlwaysReaches(config: Config, disabled: bool, actions: seq<Action>)
    ensures Reaches(After(Start(config, disabled), actions))
  {
    hide Reaches, Apply;
    if actions == [] {
      NobodyToReach(config, disabled);
    } else {
      var front := actions[..|actions| - 1];
      AlwaysReaches(config, disabled, front);
      ReachesKept(After(Start(config, disabled), front), actions[|actions| - 1]);
    }
  }

  lemma NobodyToReach(config: Config, disabled: bool)
    ensures Reaches(After(Start(config, disabled), []))
  {
  }

  // ---------------------------------------------------------------- what becomes of it

  /** A cancel handler is about to cancel the run, or its context is cancelled. */
  predicate Doomed(s: System, r: nat) {
    r < |s.runs| && (r in s.cancels || s.runs[r].cancelled)
  }

  lemma DoomedStays(s: System, a: Action, r: nat)
    requires Doomed(s, r)
    ensures Doomed(Apply(s, a), r)
  {
    hide PlaybookErrors, RequiresElevation, Notified, Disconnected, Connected, GraceExpired, IdleExpired, Stopped, Ran,
         StartOutcomeOf, WithRun, SubmitReport, WithSubmission, WithSubmitted, WithElevation, WithReport, WithCancel,
         CanCancel, WithPlaybook, WithDestination, Unloaded;
  }

  lemma {:induction false} DoomedForGood(s: System, more: seq<Action>, r: nat)
    requires Doomed(s, r)
    ensures Doomed(After(s, more), r)
  {
    hide Doomed, Apply;
    if more != [] {
      DoomedForGood(s, more[..|more| - 1], r);
      DoomedStays(After(s, more[..|more| - 1]), more[|more| - 1], r);
    }
  }

  lemma GrantedDooms(s: System)
    requires Reaches(s) && CanCancel(s.sm)
    ensures s.runs != [] && Doomed(Apply(s, RequestCancel), |s.runs| - 1)
    ensures Apply(s, RequestCancel).sm.status == RunningCancelling
  {
  }

  lemma FiredIsCancelled(s: System, r: nat)
    requires Doomed(s, r)
    ensures r < |Apply(s, FireCancel(r)).runs| && Apply(s, FireCancel(r)).runs[r].cancelled
  {
  }

  /** How a run whose context is cancelled ends. */
  lemma CancelledRunEnds(s: System, r: nat, writeFails: bool)
    requires r < |s.runs| && s.runs[r].phase.Executing? && s.runs[r].cancelled
    ensures var sm := Apply(s, FinishRun(r, writeFails)).sm;
            && sm.isCancelled && sm.status == Loaded && sm.lastReport == Some(RunReport(r, true))
            && sm.errors == s.sm.errors + [ExecutionAborted]
            && SubmitReport(sm).None?
  {
  }

  /** In every reachable state a cancel request that is granted goes to the latest run: from then on,
      whatever comes, a cancel handler still has to cancel that run or has done so; firing it does so; and
      once it has, the end of that run leaves a cancelled state with an aborted report that is not
      submitted. */
  lemma GrantedCancelReaches(config: Config, disabled: bool, actions: seq<Action>, more: seq<Action>, writeFails: bool)
    requires CanCancel(After(Start(config, disabled), actions).sm)
    ensures var s := After(Start(config, disabled), actions);
            var t, r := After(Apply(s, RequestCancel), more), |s.runs| - 1;
            && r >= 0 && r < |t.runs| && (r in t.cancels || t.runs[r].cancelled)
            && Apply(t, FireCancel(r)).runs[r].cancelled
            && (t.runs[r].phase.Executing? && r !in t.cancels ==>
                  var sm := Apply(t, FinishRun(r, writeFails)).sm;
                  && sm.isCancelled && sm.status == Loaded && sm.lastReport == Some(RunReport(r, true))
                  && SubmitReport(sm).None?)
  {
    hide After, Start, Apply, CanCancel, SubmitReport, Reaches;
    var s := After(Start(config, disabled), actions);
    AlwaysReaches(config, disabled, actions);
    GrantedDooms(s);
    var r := |s.runs| - 1;
    DoomedForGood(Apply(s, RequestCancel), more, r);
    var t := After(Apply(s, RequestCancel), more);
    FiredIsCancelled(t, r);
    if t.runs[r].phase.Executing? && r !in t.cancels {
      CancelledRunEnds(t, r, writeFails);
    }
  }

  /** The cancel at server shutdown reaches the latest run without a handler in between. */
  lemma ShutdownReaches(config: Config, disabled: bool, actions: seq<Action>)
    requires After(Start(config, disabled), actions).runs != []
    ensures var s := After(Start(config, disabled), actions);
            var t := Apply(s, ShutdownCancel);
            |t.runs| == |s.runs| && t.runs[|s.runs| - 1].cancelled && t.sm == s.sm && t.lm == s.lm
  {
    hide After, Start;
    AlwaysReaches(config, disabled, actions);
  }

  // ---------------------------------------------------------------- whether that is the right run

  /** Of the runs only the latest may be between its first and last critical section. */
  predicate OnlyLatestFlies(s: System) { forall r :: 0 <= r < |s.runs| - 1 ==> !s.runs[r].InFlight() }

  /** As long as exclusion holds, no run starts while another is in flight. */
  lemma OnlyLatestKept(s: System, a: Action)
    requires Exclusive(s) && OnlyLatestFlies(s)
    ensures OnlyLatestFlies(Apply(s, a))
  {
    hide PlaybookErrors, RequiresElevation, Notified, Disconnected, Connected, GraceExpired, IdleExpired, Stopped, Ran,
         WithRun, SubmitReport, WithSubmission, WithSubmitted, WithElevation, WithReport, WithCancel, CanCancel,
         WithPlaybook, WithDestination, Unloaded, Exclusive;
    if a.BeginRun? && StartOutcomeOf(s.sm).Started? {
      ExclusiveFacts(s);
      forall r | 0 <= r < |s.runs| ensures !s.runs[r].InFlight() {
        assert !Flies(s, RunFlight(r));
      }
    }
  }

  lemma {:induction false} AlwaysOnlyLatest(config: Config, disabled: bool, actions: seq<Action>)
    requires SafeLandings(Start(config, disabled), actions)
    ensures OnlyLatestFlies(After(Start(config, disabled), actions))
  {
    hide OnlyLatestFlies, Apply, Exclusive, LandsSafely;
    var s := Start(config, disabled);
    if actions == [] {
      NothingFlies(config, disabled);
    } else {
      var front := actions[..|actions| - 1];
      forall i | 0 <= i < |front| ensures LandsSafely(After(s, front[..i]), front[i]) {
        assert front[..i] == actions[..i];
      }
      AlwaysOnlyLatest(config, disabled, front);
      MutualExclusion(config, disabled, front);
      OnlyLatestKept(After(s, front), actions[|actions| - 1]);
    }
  }

  lemma NothingFlies(config: Config, disabled: bool)
    ensures OnlyLatestFlies(After(Start(config, disabled), []))
  {
  }

  /** When all loads land with CanMutate true, a granted cancel goes to the one run in flight. */
  lemma CancelReachesWhatRuns(config: Config, disabled: bool, actions: seq<Action>)
    requires SafeLandings(Start(config, disabled), actions)
    requires CanCancel(After(Start(config, disabled), actions).sm)
    ensures var s := After(Start(config, disabled), actions);
            && s.runs != [] && s.sm.cancelTarget == Some(|s.runs| - 1) && s.runs[|s.runs| - 1].InFlight()
            && forall r :: 0 <= r < |s.runs| && s.runs[r].InFlight() ==> Some(r) == s.sm.cancelTarget
  {
    hide After, Start, SafeLandings, Exclusive;
    var s := After(Start(config, disabled), actions);
    AlwaysReaches(config, disabled, actions);
    AlwaysOnlyLatest(config, disabled, actions);
    MutualExclusion(config, disabled, actions);
    SomethingFlies(s);
  }

  lemma SomethingFlies(s: System)
    requires Exclusive(s) && CanCancel(s.sm)
    ensures exists r :: 0 <= r < |s.runs| && s.runs[r].InFlight()
  {
    var f :| Flies(s, f);
    assert f.RunFlight?;
    assert s.runs[f.run].InFlight();
  }

  // ---------------------------------------------------------------- runs beyond reach

  /** A later run has started, and nobody has cancelled this one or is about to. */
  predicate OutOfReach(s: System, r: nat) {
    r + 1 < |s.runs| && r !in s.cancels && !s.runs[r].cancelled
  }

  lemma OutOfReachKept(s: System, a: Action, r: nat)
    requires Reaches(s) && OutOfReach(s, r)
    ensures OutOfReach(Apply(s, a), r)
  {
    hide PlaybookErrors, RequiresElevation, Notified, Disconnected, Connected, GraceExpired, IdleExpired, Stopped, Ran,
         StartOutcomeOf, WithRun, SubmitReport, WithSubmission, WithSubmitted, WithElevation, WithReport, WithCancel,
         CanCancel, WithPlaybook, WithDestination, Unloaded;
  }

  lemma {:induction false} OutOfReachForGood(s: System, more: seq<Action>, r: nat)
    requires Reaches(s) && OutOfReach(s, r)
    ensures Reaches(After(s, more)) && OutOfReach(After(s, more), r)
  {
    hide Reaches, OutOfReach, Apply;
    if more != [] {
      OutOfReachForGood(s, more[..|more| - 1], r);
      ReachesKept(After(s, more[..|more| - 1]), more[|more| - 1]);
      OutOfReachKept(After(s, more[..|more| - 1]), more[|more| - 1], r);
    }
  }

  /** A run that was not cancelled when a later one started never is: no request and no shutdown reaches it. */
  lemma NeverCancelled(config: Config, disabled: bool, actions: seq<Action>, more: seq<Action>, r: nat)
    requires var s := After(Start(config, disabled), actions);
             r + 1 < |s.runs| && r !in s.cancels && !s.runs[r].cancelled
    ensures var t := After(After(Start(config, disabled), actions), more);
            r < |t.runs| && !t.runs[r].cancelled
  {
    hide After, Start, Reaches;
    AlwaysReaches(config, disabled, actions);
    OutOfReachForGood(After(Start(config, disabled), actions), more, r);
  }

  predicate NobodyCancels(actions: seq<Action>) {
    forall i :: 0 <= i < |actions| ==> !actions[i].RequestCancel? && !actions[i].ShutdownCancel?
  }

  predicate NoneCancelled(s: System) { s.cancels == {} && forall r :: 0 <= r < |s.runs| ==> !s.runs[r].cancelled }

  lemma NoneCancelledKept(s: System, a: Action)
    requires NoneCancelled(s) && !a.RequestCancel? && !a.ShutdownCancel?
    ensures NoneCancelled(Apply(s, a))
  {
    hide PlaybookErrors, RequiresElevation, Notified, Disconnected, Connected, GraceExpired, IdleExpired, Stopped, Ran,
         StartOutcomeOf, WithRun, SubmitReport, WithSubmission, WithSubmitted, WithElevation, WithReport, WithCancel,
         CanCancel, WithPlaybook, WithDestination, Unloaded;
  }

  lemma {:induction false} NoneYetCancelled(config: Config, disabled: bool, actions: seq<Action>)
    requires NobodyCancels(actions)
    ensures NoneCancelled(After(Start(config, disabled), actions))
  {
    hide NoneCancelled, Apply;
    if actions == [] {
      NoneCancelledAtStart(config, disabled);
    } else {
      var front := actions[..|actions| - 1];
      NoneYetCancelled(config, disabled, front);
      NoneCancelledKept(After(Start(config, disabled), front), actions[|actions| - 1]);
    }
  }

  lemma NoneCancelledAtStart(config: Config, disabled: bool)
    ensures NoneCancelled(After(Start(config, disabled), []))
  {
  }

  /** In the gap a load leaves, a first run goes on that no cancel request will ever reach. */
  lemma LoadGapLosesTheFirst(config: Config, p: Playbook, agent: bool, more: seq<Action>)
    requires PlaybookErrors(p, agent) == []
    ensures var s := After(Start(config, false),
                          [CheckLoad, LandPlaybook(p, agent), CheckLoad, BeginRun, LandPlaybook(p, agent), BeginRun]);
            && Flies(s, RunFlight(0)) && Flies(s, RunFlight(1))
            && var t := After(s, more);
               0 < |t.runs| && !t.runs[0].cancelled
  {
    hide PlaybookErrors, After, Start;
    var actions := [CheckLoad, LandPlaybook(p, agent), CheckLoad, BeginRun, LandPlaybook(p, agent), BeginRun];
    LoadGapAdmitsTwoRuns(config, p, agent);
    NoneYetCancelled(config, false, actions);
    NeverCancelled(config, false, actions, more, 0);
  }
}
