/** What holds in every state the server can reach, under every interleaving: the shutdown timers, the
    start and submission gates, and mutual exclusion. */
module ServerSafety {
  import opened Text
  import opened PlaybookTypes
  import opened Validator
  import opened StateManagement
  import opened Lifecycle
  import opened Server

  // ---------------------------------------------------------------- lifecycle safety

  /** The client count is exact, an armed idle timer means all is quiet but for the status, and its
      callback really is pending. */
  predicate LifecycleSafe(s: System) {
    var m := s.lm;
    && m.activeClients == s.clients
    && (!m.disabled ==> m.timers.next > GRACE)
    && Justified(m) && (m.idleTimer.Some? ==> m.idleTimer.value != GRACE)
  }

  lemma LifecycleSafeKept(s: System, a: Action)
    requires LifecycleSafe(s)
    ensures LifecycleSafe(Apply(s, a))
  {
    hide StartOutcomeOf, WithRun, WithPlaybook, WithReport, SubmitReport, WithSubmission, WithElevation, WithSubmitted,
         WithDestination, Unloaded, WithCancel, CanCancel, PlaybookErrors, RequiresElevation;
  }

  /** While the manager is neither disabled nor stopped the grace period is over or its callback is still
      to come; once it is stopped it holds no timer. */
  predicate GraceSafe(s: System) {
    var m := s.lm;
    && (!m.disabled && !m.stopped ==> m.graceExpired || m.timers.Pending(GRACE))
    && (m.stopped ==> m.graceTimer.None? && m.idleTimer.None?)
    && (m.graceTimer.Some? ==> m.graceTimer.value == GRACE && !m.disabled)
  }

  lemma GraceSafeKept(s: System, a: Action)
    requires LifecycleSafe(s) && GraceSafe(s)
    ensures GraceSafe(Apply(s, a))
  {
    hide StartOutcomeOf, WithRun, WithPlaybook, WithReport, SubmitReport, WithSubmission, WithElevation, WithSubmitted,
         WithDestination, Unloaded, WithCancel, CanCancel, PlaybookErrors, RequiresElevation;
  }

  lemma {:induction false} GraceAlwaysSafe(config: Config, disabled: bool, actions: seq<Action>)
    ensures LifecycleSafe(After(Start(config, disabled), actions))
    ensures GraceSafe(After(Start(config, disabled), actions))
  {
    hide LifecycleSafe, GraceSafe, Apply;
    if actions == [] {
      GraceSafeAtStart(config, disabled);
    } else {
      var front, a := actions[..|actions| - 1], actions[|actions| - 1];
      GraceAlwaysSafe(config, disabled, front);
      LifecycleSafeKept(After(Start(config, disabled), front), a);
      GraceSafeKept(After(Start(config, disabled), front), a);
    }
  }

  lemma GraceSafeAtStart(config: Config, disabled: bool)
    ensures LifecycleSafe(After(Start(config, disabled), []))
    ensures GraceSafe(After(Start(config, disabled), []))
  {
  }

  /** In every reachable state: unless the manager is disabled or stopped, the grace period is over or its
      callback is pending; and once it is stopped it holds no timer. */
  lemma GraceAlwaysEnds(config: Config, disabled: bool, actions: seq<Action>)
    ensures var m := After(Start(config, disabled), actions).lm;
            && (!m.disabled && !m.stopped ==> m.graceExpired || m.timers.Pending(GRACE))
            && (m.stopped ==> m.graceTimer.None? && m.idleTimer.None?)
  {
    hide LifecycleSafe, After, Start;
    GraceAlwaysSafe(config, disabled, actions);
  }

  /** A shutdown is decided only by an idle callback, stale or not, that sees no client and no
      active status in its own critical section. */
  lemma ShutdownStep(s: System, a: Action)
    requires LifecycleSafe(s)
    ensures Apply(s, a).lm.shutdowns != s.lm.shutdowns ==>
              && a.IdleCallback? && a.timer in s.lm.timers.fired
              && s.clients == 0 && !s.sm.status.Active() && !s.lm.stopped && !s.lm.disabled
              && Apply(s, a).lm.shutdowns == s.lm.shutdowns + 1
  {
    hide StartOutcomeOf, WithRun, WithPlaybook, WithReport, SubmitReport, WithSubmission, WithElevation, WithSubmitted,
         WithDestination, Unloaded, WithCancel, CanCancel, PlaybookErrors, RequiresElevation;
  }

  // ---------------------------------------------------------------- no lost wake-up

  /** A run or submission that has yet to call OnExecutionStateChange. */
  predicate RunOwes(i: RunInfo) { !i.phase.RunDone? }
  predicate SubmitOwes(i: SubmitInfo) { !i.phase.SubmitDone? }

  ghost predicate SomeoneOwes(s: System) {
    (exists r :: 0 <= r < |s.runs| && RunOwes(s.runs[r]))
    || (exists k :: 0 <= k < |s.submits| && SubmitOwes(s.submits[k]))
  }

  predicate MustWake(s: System) { Quiet(s.lm, s.sm.status.Active()) }

  ghost predicate WillWake(s: System) { s.lm.idleTimer.Some? || s.lm.shutdowns > 0 || SomeoneOwes(s) }

  ghost predicate NoLostWakeup(s: System) { MustWake(s) ==> WillWake(s) }

  lemma InFlightOwes(s: System)
    requires SomeInFlight(s)
    ensures SomeoneOwes(s)
  {
    if r :| 0 <= r < |s.runs| && s.runs[r].InFlight() {
      assert RunOwes(s.runs[r]);
    } else {
      var k :| 0 <= k < |s.submits| && s.submits[k].phase.Sending?;
      assert SubmitOwes(s.submits[k]);
    }
  }

  /** Only the notices themselves settle a debt. */
  lemma DebtStays(s: System, a: Action)
    requires SomeoneOwes(s) && !a.NotifyRun? && !a.NotifySubmit?
    ensures SomeoneOwes(Apply(s, a))
  {
    hide StartOutcomeOf, WithRun, WithPlaybook, WithReport, SubmitReport, WithSubmission, WithElevation, WithSubmitted,
         WithDestination, Unloaded, WithCancel, CanCancel, PlaybookErrors, RequiresElevation,
         Notified, Disconnected, Connected, GraceExpired, IdleExpired, Stopped, Ran;
    var s' := Apply(s, a);
    if r :| 0 <= r < |s.runs| && RunOwes(s.runs[r]) {
      assert RunOwes(s'.runs[r]);
    } else {
      var k :| 0 <= k < |s.submits| && SubmitOwes(s.submits[k]);
      assert SubmitOwes(s'.submits[k]);
    }
  }

  /** A notice that settles a debt arms the timer when that is due; one that finds none changes nothing. */
  lemma NoticeWakes(s: System, a: Action)
    requires NoLostWakeup(s) && (a.NotifyRun? || a.NotifySubmit?)
    ensures NoLostWakeup(Apply(s, a))
  {
    var s' := Apply(s, a);
    if MustWake(s') && s' != s {
      assert s'.lm.idleTimer.Some?;
    }
  }

  /** Steps of the manager itself. */
  lemma LifecycleStepWakes(s: System, a: Action)
    requires LifecycleSafe(s) && NoLostWakeup(s)
    requires a.Connect? || a.Disconnect? || a.TimerFires? || a.GraceCallback? || a.IdleCallback? || a.StopManager?
    ensures NoLostWakeup(Apply(s, a))
  {
    var s' := Apply(s, a);
    if SomeoneOwes(s) {
      DebtStays(s, a);
    }
  }

  /** Steps that touch only the server state: whatever ends an active status leaves a debt. */
  lemma StateStepWakes(s: System, a: Action)
    requires NoLostWakeup(s) && ActiveHasCause(s)
    requires !(a.NotifyRun? || a.NotifySubmit?)
    requires !(a.Connect? || a.Disconnect? || a.TimerFires? || a.GraceCallback? || a.IdleCallback? || a.StopManager?)
    ensures NoLostWakeup(Apply(s, a))
  {
    hide StartOutcomeOf, WithRun, WithPlaybook, WithReport, SubmitReport, WithSubmission, WithElevation, WithSubmitted,
         WithDestination, Unloaded, WithCancel, CanCancel, PlaybookErrors, RequiresElevation, ActiveHasCause,
         SomeoneOwes;
    assert Apply(s, a).lm == s.lm;
    if s.sm.status.Active() {
      ActiveCause(s);
      InFlightOwes(s);
    }
    if SomeoneOwes(s) {
      DebtStays(s, a);
    }
  }

  lemma ActiveCause(s: System)
    requires ActiveHasCause(s) && s.sm.status.Active()
    ensures SomeInFlight(s)
  {
  }

  lemma NoLostWakeupKept(s: System, a: Action)
    requires LifecycleSafe(s) && NoLostWakeup(s) && ActiveHasCause(s)
    ensures NoLostWakeup(Apply(s, a))
  {
    hide NoLostWakeup, LifecycleSafe, ActiveHasCause, Apply;
    if a.NotifyRun? || a.NotifySubmit? {
      NoticeWakes(s, a);
    } else if a.Connect? || a.Disconnect? || a.TimerFires? || a.GraceCallback? || a.IdleCallback? || a.StopManager? {
      LifecycleStepWakes(s, a);
    } else {
      StateStepWakes(s, a);
    }
  }

  // ---------------------------------------------------------------- the gates

  /** The validation made at the playbook's load returned no errors. */
  predicate IsValid(p: Playbook, agent: bool) { PlaybookErrors(p, agent) == [] }

  /** A loaded playbook that failed its validation is flagged, and an aborted report is marked. */
  predicate Flagged(sm: State, agent: bool) {
    && (sm.playbook.Some? && !IsValid(sm.playbook.value, agent) ==> ValidationFailed in sm.errors)
    && Marked(sm)
  }

  predicate GatesHold(s: System) {
    && Flagged(s.sm, s.agent)
    && (forall r :: 0 <= r < |s.runs| ==> IsValid(s.runs[r].playbook, s.runs[r].agent))
    && (forall k :: 0 <= k < |s.submits| ==> !s.submits[k].report.aborted)
  }

  lemma {:induction false} FlagSurvives(errors: seq<ErrorCode>)
    ensures ValidationFailed in errors ==> ValidationFailed in WithoutSubmissionErrors(errors)
  {
    if errors != [] {
      FlagSurvives(errors[..|errors| - 1]);
    }
  }

  lemma GatesByLoad(s: System, a: Action)
    requires GatesHold(s)
    requires a.CheckLoad? || a.LandPlaybook? || a.LandError? || a.Unload? || a.UpdateDestination?
    ensures GatesHold(ApplyLoad(s, a))
  {
    hide PlaybookErrors;
  }

  lemma GatesByRun(s: System, a: Action)
    requires GatesHold(s) && (a.BeginRun? || a.ElevationResult? || a.FinishRun? || a.NotifyRun?)
    ensures GatesHold(ApplyRun(s, a))
  {
    hide RequiresElevation, PlaybookErrors, Notified, HasHttps;
  }

  lemma GatesBySubmit(s: System, a: Action)
    requires GatesHold(s) && (a.BeginSubmit? || a.FinishSubmit? || a.NotifySubmit?)
    ensures GatesHold(ApplySubmit(s, a))
  {
    hide PlaybookErrors, Notified, SubmitUrl;
    FlagSurvives(s.sm.errors);
  }

  lemma GatesKept(s: System, a: Action)
    requires GatesHold(s)
    ensures GatesHold(Apply(s, a))
  {
    hide PlaybookErrors, Notified, Disconnected, Connected, GraceExpired, IdleExpired, Stopped, Ran,
         ApplyLoad, ApplyRun, ApplySubmit;
    if a.CheckLoad? || a.LandPlaybook? || a.LandError? || a.Unload? || a.UpdateDestination? {
      GatesByLoad(s, a);
    } else if a.BeginRun? || a.ElevationResult? || a.FinishRun? || a.NotifyRun? {
      GatesByRun(s, a);
    } else if a.BeginSubmit? || a.FinishSubmit? || a.NotifySubmit? {
      GatesBySubmit(s, a);
    }
  }

  // ---------------------------------------------------------------- mutual exclusion

  /** Something between its first and its last critical section: a run or a submission. */
  datatype Flight = RunFlight(run: nat) | SubmitFlight(submit: nat)

  predicate Flies(s: System, f: Flight) {
    match f
    case RunFlight(r) => r < |s.runs| && s.runs[r].InFlight()
    case SubmitFlight(k) => k < |s.submits| && s.submits[k].phase.Sending?
  }

  ghost predicate AtMostOneFlies(s: System) {
    forall f, g :: Flies(s, f) && Flies(s, g) ==> f == g
  }

  /** The status is active exactly when something flies, and never more than one thing does. */
  ghost predicate Exclusive(s: System) {
    && AtMostOneFlies(s)
    && (s.sm.status.Active() <==> exists f :: Flies(s, f))
    && (s.sm.status.Submitting? ==> forall f :: Flies(s, f) ==> f.SubmitFlight?)
    && (s.sm.status.Active() && !s.sm.status.Submitting? ==> forall f :: Flies(s, f) ==> f.RunFlight?)
  }

  predicate Lands(a: Action) { a.LandPlaybook? || a.LandError? }

  /** A load mutation lands only when CanMutate holds at that moment. */
  predicate LandsSafely(s: System, a: Action) { Lands(a) && s.loads > 0 ==> !s.sm.status.Active() }

  /** One flight ends and leaves an inactive status. */
  lemma FlightEnds(s: System, t: System, f: Flight)
    requires Exclusive(s) && Flies(s, f) && !t.sm.status.Active()
    requires forall g :: Flies(t, g) ==> Flies(s, g) && g != f
    ensures Exclusive(t)
  {
    forall g ensures !Flies(t, g) {
      if Flies(t, g) {
        assert false;
      }
    }
  }

  lemma FlightBegins(s: System, t: System, f: Flight)
    requires Exclusive(s) && !s.sm.status.Active() && t.sm.status.Active() && Flies(t, f)
    requires forall g :: Flies(t, g) ==> Flies(s, g) || g == f
    requires t.sm.status.Submitting? <==> f.SubmitFlight?
    ensures Exclusive(t)
  {
    assert forall g :: !Flies(s, g);
  }

  /** The same things fly, and the status stays on its side. */
  lemma FlightsStay(s: System, t: System)
    requires Exclusive(s) && forall g :: Flies(t, g) <==> Flies(s, g)
    requires t.sm.status.Active() <==> s.sm.status.Active()
    requires t.sm.status.Submitting? <==> s.sm.status.Submitting?
    ensures Exclusive(t)
  {
    if s.sm.status.Active() {
      var f :| Flies(s, f);
      assert Flies(t, f);
    }
  }

  lemma ExclusiveRuns(s: System, a: Action)
    requires Exclusive(s)
    requires a.BeginRun? || a.ElevationResult? || a.FinishRun? || a.NotifyRun?
    ensures Exclusive(ApplyRun(s, a))
  {
    hide RequiresElevation, Notified, HasHttps, Exclusive;
    var t := ApplyRun(s, a);
    ExclusiveFacts(s);
    match a
    case BeginRun =>
      if StartOutcomeOf(s.sm).Started? {
        FlightBegins(s, t, RunFlight(|s.runs|));
      }
    case ElevationResult(r, ok) =>
      if t != s {
        assert Flies(s, RunFlight(r));
        if ok {
          assert s.sm.status.Active();
          FlightsStay(s, t);
        } else {
          FlightEnds(s, t, RunFlight(r));
        }
      }
    case FinishRun(r, _) =>
      if t != s {
        assert Flies(s, RunFlight(r));
        FlightEnds(s, t, RunFlight(r));
      }
    case NotifyRun(r) => FlightsStay(s, t);
  }

  lemma ExclusiveFacts(s: System)
    requires Exclusive(s)
    ensures forall f :: Flies(s, f) ==> s.sm.status.Active()
    ensures s.sm.status.Active() && !s.sm.status.Submitting? ==> forall f :: Flies(s, f) ==> f.RunFlight?
    ensures s.sm.status.Submitting? ==> forall f :: Flies(s, f) ==> f.SubmitFlight?
  {
  }

  lemma ExclusiveSubmits(s: System, a: Action)
    requires Exclusive(s)
    requires a.BeginSubmit? || a.FinishSubmit? || a.NotifySubmit?
    ensures Exclusive(ApplySubmit(s, a))
  {
    hide Notified, SubmitUrl, Exclusive, WithoutSubmissionErrors;
    var t := ApplySubmit(s, a);
    ExclusiveFacts(s);
    match a
    case BeginSubmit =>
      if SubmitReport(s.sm).Some? {
        FlightBegins(s, t, SubmitFlight(|s.submits|));
      }
    case FinishSubmit(k, _) =>
      if t != s {
        assert Flies(s, SubmitFlight(k));
        FlightEnds(s, t, SubmitFlight(k));
      }
    case NotifySubmit(k) => FlightsStay(s, t);
  }

  lemma ExclusiveKept(s: System, a: Action)
    requires Exclusive(s) && LandsSafely(s, a)
    ensures Exclusive(Apply(s, a))
  {
    hide RequiresElevation, PlaybookErrors, Notified, Disconnected, Connected, GraceExpired, IdleExpired, Stopped, Ran,
         Exclusive, ApplyRun, ApplySubmit;
    if a.BeginRun? || a.ElevationResult? || a.FinishRun? || a.NotifyRun? {
      ExclusiveRuns(s, a);
    } else if a.BeginSubmit? || a.FinishSubmit? || a.NotifySubmit? {
      ExclusiveSubmits(s, a);
    } else {
      FlightsStay(s, Apply(s, a));
    }
  }

  /** A load that lands while the status is active breaks exclusion, and only such a load does. */
  lemma LandingBreaksExclusionExactly(s: System, a: Action)
    requires Exclusive(s) && Lands(a) && s.loads > 0
    ensures Exclusive(Apply(s, a)) <==> !s.sm.status.Active()
  {
    if s.sm.status.Active() {
      var f :| Flies(s, f);
      assert Flies(Apply(s, a), f);
    } else {
      ExclusiveKept(s, a);
    }
  }

  // ---------------------------------------------------------------- every interleaving

  /** Whatever happens, in whatever order: the timers are safe, no wake-up is lost, an active status
      has a cause, no run starts on an invalid playbook and no aborted report is submitted. */
  lemma {:induction false} AlwaysSafe(config: Config, disabled: bool, actions: seq<Action>)
    ensures var s := After(Start(config, disabled), actions);
            LifecycleSafe(s) && NoLostWakeup(s) && ActiveHasCause(s) && GatesHold(s)
  {
    hide LifecycleSafe, NoLostWakeup, ActiveHasCause, GatesHold, Apply;
    if actions == [] {
      SafeAtStart(config, disabled);
    } else {
      var front, a := actions[..|actions| - 1], actions[|actions| - 1];
      AlwaysSafe(config, disabled, front);
      var s := After(Start(config, disabled), front);
      LifecycleSafeKept(s, a);
      NoLostWakeupKept(s, a);
      ActiveHasCauseKept(s, a);
      GatesKept(s, a);
    }
  }

  lemma SafeAtStart(config: Config, disabled: bool)
    ensures var s := Start(config, disabled);
            LifecycleSafe(s) && NoLostWakeup(s) && ActiveHasCause(s) && GatesHold(s) && Exclusive(s)
    ensures After(Start(config, disabled), []) == Start(config, disabled)
  {
  }

  /** The clamp of OnClientDisconnect at zero is never taken: in every reachable state with an event
      stream to disconnect the count is at least one, and it is exact afterwards. */
  lemma ClampNeverTaken(config: Config, disabled: bool, actions: seq<Action>)
    requires After(Start(config, disabled), actions).clients > 0
    ensures var s := After(Start(config, disabled), actions);
            && s.lm.activeClients == s.clients >= 1
            && Apply(s, Disconnect).lm.activeClients == s.lm.activeClients - 1 == Apply(s, Disconnect).clients
  {
    hide NoLostWakeup, ActiveHasCause, GatesHold, Start, After;
    AlwaysSafe(config, disabled, actions);
  }

  /** In every reachable state, whatever step comes next: shutdown is requested only by an idle
      callback that sees no event stream and no active status in its own critical section. */
  lemma ShutdownIsJustified(config: Config, disabled: bool, actions: seq<Action>, a: Action)
    ensures var s := After(Start(config, disabled), actions);
            Apply(s, a).lm.shutdowns != s.lm.shutdowns ==>
              && a.IdleCallback? && a.timer in s.lm.timers.fired
              && s.clients == 0 && !s.sm.status.Active() && !s.lm.stopped && !s.lm.disabled
              && Apply(s, a).lm.shutdowns == s.lm.shutdowns + 1
  {
    hide NoLostWakeup, ActiveHasCause, GatesHold, LifecycleSafe, Start, After, Apply;
    AlwaysSafe(config, disabled, actions);
    ShutdownStep(After(Start(config, disabled), actions), a);
  }

  /** No wake-up is lost: a server with no event stream and no active status, neither stopped nor disabled,
      has its idle callback pending or, before the grace period is over, that period's; or it has asked for
      shutdown, or has a run or submission in flight that still owes its notice. */
  lemma NoWakeupIsEverLost(config: Config, disabled: bool, actions: seq<Action>)
    ensures var s := After(Start(config, disabled), actions);
            s.clients == 0 && !s.sm.status.Active() && !s.lm.stopped && !s.lm.disabled
            ==> || (s.lm.idleTimer.Some? && s.lm.timers.Pending(s.lm.idleTimer.value))
                || (!s.lm.graceExpired && s.lm.timers.Pending(GRACE))
                || s.lm.shutdowns > 0 || SomeoneOwes(s)
  {
    hide After, Start, ActiveHasCause, GatesHold, SomeoneOwes;
    AlwaysSafe(config, disabled, actions);
    GraceAlwaysSafe(config, disabled, actions);
  }

  /** At every start of a run the validation made at the playbook's load returned no errors, at every
      start of a submission the report is not one of an aborted run. */
  lemma GatesAtTheDoor(config: Config, disabled: bool, actions: seq<Action>)
    ensures var s := After(Start(config, disabled), actions);
            && (StartOutcomeOf(s.sm).Started? ==> PlaybookErrors(StartOutcomeOf(s.sm).playbook, s.agent) == [])
            && (SubmitReport(s.sm).Some? ==> !SubmitReport(s.sm).value.aborted)
  {
    hide PlaybookErrors, SubmitUrl;
    AlwaysSafe(config, disabled, actions);
  }

  /** A playbook that lands can be started right away exactly when the validation of its load found nothing. */
  lemma LoadedStartsExactly(s: System, p: Playbook, agent: bool)
    requires s.loads > 0
    ensures StartOutcomeOf(Apply(s, LandPlaybook(p, agent)).sm).Started? <==> PlaybookErrors(p, agent) == []
  {
    hide PlaybookErrors;
    assert ValidationFailed in [ValidationFailed];
  }

  /** All loads are the handlers'. */
  predicate HandlerLoads(actions: seq<Action>) {
    forall i :: 0 <= i < |actions| && actions[i].LandPlaybook? ==> actions[i].agent
  }

  predicate AgentMode(s: System) { s.agent && forall r :: 0 <= r < |s.runs| ==> s.runs[r].agent }

  lemma AgentModeKept(s: System, a: Action)
    requires AgentMode(s) && (a.LandPlaybook? ==> a.agent)
    ensures AgentMode(Apply(s, a))
  {
    hide PlaybookErrors, RequiresElevation, Notified, Disconnected, Connected, GraceExpired, IdleExpired, Stopped, Ran,
         StartOutcomeOf, WithRun, SubmitReport, WithSubmission, WithSubmitted, WithElevation, WithReport, WithCancel,
         CanCancel, WithPlaybook, WithDestination, Unloaded;
  }

  lemma {:induction false} AlwaysAgentMode(config: Config, disabled: bool, actions: seq<Action>)
    requires HandlerLoads(actions)
    ensures AgentMode(After(Start(config, disabled), actions))
  {
    hide Apply, AgentMode;
    if actions == [] {
      AgentModeAtStart(config, disabled);
    } else {
      var front := actions[..|actions| - 1];
      AlwaysAgentMode(config, disabled, front);
      AgentModeKept(After(Start(config, disabled), front), actions[|actions| - 1]);
    }
  }

  lemma AgentModeAtStart(config: Config, disabled: bool)
    ensures AgentMode(Start(config, disabled)) && After(Start(config, disabled), []) == Start(config, disabled)
  {
  }

  /** As long as all loads are the handlers', every run there ever is has a playbook an agent accepts,
      and so has every run that could start. */
  lemma AgentGate(config: Config, disabled: bool, actions: seq<Action>)
    requires HandlerLoads(actions)
    ensures var s := After(Start(config, disabled), actions);
            && (forall r :: 0 <= r < |s.runs| ==> PlaybookErrors(s.runs[r].playbook, true) == [])
            && (StartOutcomeOf(s.sm).Started? ==> PlaybookErrors(StartOutcomeOf(s.sm).playbook, true) == [])
  {
    hide PlaybookErrors, LifecycleSafe, NoLostWakeup, ActiveHasCause, After, Start;
    AlwaysSafe(config, disabled, actions);
    AlwaysAgentMode(config, disabled, actions);
  }

  /** Every load in the sequence lands with CanMutate true. */
  ghost predicate SafeLandings(s: System, actions: seq<Action>) {
    forall i :: 0 <= i < |actions| ==> LandsSafely(After(s, actions[..i]), actions[i])
  }

  lemma {:induction false} MutualExclusion(config: Config, disabled: bool, actions: seq<Action>)
    requires SafeLandings(Start(config, disabled), actions)
    ensures Exclusive(After(Start(config, disabled), actions))
  {
    hide Exclusive, Apply, LandsSafely;
    var s := Start(config, disabled);
    if actions == [] {
      SafeAtStart(config, disabled);
    } else {
      var front, a := actions[..|actions| - 1], actions[|actions| - 1];
      forall i | 0 <= i < |front| ensures LandsSafely(After(s, front[..i]), front[i]) {
        assert front[..i] == actions[..i];
      }
      MutualExclusion(config, disabled, front);
      ExclusiveKept(After(s, front), a);
    }
  }

  lemma AfterStep(s: System, actions: seq<Action>, a: Action)
    ensures After(s, actions + [a]) == Apply(After(s, actions), a)
  {
    assert (actions + [a])[..|actions + [a]| - 1] == actions;
  }

  /** A checked load lands while a first run flies, and a second run starts. */
  lemma SecondRunStarts(s: System, p: Playbook, agent: bool)
    requires PlaybookErrors(p, agent) == [] && s.loads > 0 && |s.runs| == 1 && Flies(s, RunFlight(0))
    ensures var t := Apply(Apply(s, LandPlaybook(p, agent)), BeginRun);
            Flies(t, RunFlight(0)) && Flies(t, RunFlight(1))
  {
    hide PlaybookErrors, RequiresElevation;
  }

  lemma FirstRunStarts(s: System, config: Config, p: Playbook, agent: bool)
    requires PlaybookErrors(p, agent) == [] && s == Start(config, false)
    ensures var t := Apply(Apply(Apply(Apply(s, CheckLoad), LandPlaybook(p, agent)), CheckLoad), BeginRun);
            t.loads > 0 && |t.runs| == 1 && Flies(t, RunFlight(0))
  {
    hide PlaybookErrors, RequiresElevation;
  }

  /** The gap between CanMutate and SetPlaybook admits two runs at once: a load checked before a run
      starts and landing during it lets a second run start. */
  lemma LoadGapAdmitsTwoRuns(config: Config, p: Playbook, agent: bool)
    requires PlaybookErrors(p, agent) == []
    ensures var s := After(Start(config, false),
                          [CheckLoad, LandPlaybook(p, agent), CheckLoad, BeginRun, LandPlaybook(p, agent), BeginRun]);
            Flies(s, RunFlight(0)) && Flies(s, RunFlight(1))
  {
    hide PlaybookErrors, Flies, Apply, After;
    var s0, land := Start(config, false), LandPlaybook(p, agent);
    SafeAtStart(config, false);
    FirstRunStarts(s0, config, p, agent);
    AfterStep(s0, [], CheckLoad);
    AfterStep(s0, [] + [CheckLoad], land);
    AfterStep(s0, [] + [CheckLoad] + [land], CheckLoad);
    AfterStep(s0, [] + [CheckLoad] + [land] + [CheckLoad], BeginRun);
    AfterStep(s0, [] + [CheckLoad] + [land] + [CheckLoad] + [BeginRun], land);
    AfterStep(s0, [] + [CheckLoad] + [land] + [CheckLoad] + [BeginRun] + [land], BeginRun);
    SecondRunStarts(After(s0, [] + [CheckLoad] + [land] + [CheckLoad] + [BeginRun]), p, agent);
    assert [] + [CheckLoad] + [land] + [CheckLoad] + [BeginRun] + [land] + [BeginRun]
        == [CheckLoad, land, CheckLoad, BeginRun, land, BeginRun];
  }
}
