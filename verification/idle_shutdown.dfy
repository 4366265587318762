/** Timers alone bring an idle server to its shutdown. */
module IdleShutdown {
  import opened Text
  import opened PlaybookTypes
  import opened Validator
  import opened StateManagement
  import opened Lifecycle
  import opened Server
  import opened ServerSafety

  predicate TimersOnly(actions: seq<Action>) {
    forall i :: 0 <= i < |actions| ==>
      actions[i].TimerFires? || actions[i].GraceCallback? || actions[i].IdleCallback?
  }

  /** The timer t runs out and its callback gets the lock. */
  function RunOut(s: System, t: nat): System {
    Apply(Apply(s, TimerFires(t)), if t == GRACE && !s.lm.disabled then GraceCallback else IdleCallback(t))
  }

  lemma RunOutIs(s: System, t: nat)
    ensures exists more :: TimersOnly(more) && After(s, more) == RunOut(s, t)
  {
    hide Apply;
    var last := if t == GRACE && !s.lm.disabled then GraceCallback else IdleCallback(t);
    var more := [TimerFires(t), last];
    assert more[..1] == [TimerFires(t)] && more[..1][..0] == [];
    assert After(s, []) == s;
    assert After(s, more[..1]) == Apply(s, TimerFires(t));
    assert TimersOnly(more);
  }

  /** An armed idle timer of a quiet server, once it has run out, asks for shutdown. */
  lemma IdleRunsOut(s: System)
    requires LifecycleSafe(s) && s.lm.idleTimer.Some? && !s.sm.status.Active()
    ensures RunOut(s, s.lm.idleTimer.value).lm.shutdowns == s.lm.shutdowns + 1
  {
  }

  /** The end of the grace period arms the idle timer of a quiet server. */
  lemma GraceRunsOut(s: System)
    requires LifecycleSafe(s) && s.lm.timers.Pending(GRACE) && !s.lm.disabled && !s.lm.stopped && !s.lm.graceExpired
    requires s.clients == 0 && !s.sm.status.Active()
    ensures var t := RunOut(s, GRACE);
            && LifecycleSafe(t) && t.lm.idleTimer.Some? && t.sm == s.sm && t.lm.shutdowns == s.lm.shutdowns
  {
  }

  lemma {:induction false} AfterConcat(s: System, a: seq<Action>, b: seq<Action>)
    ensures After(s, a + b) == After(After(s, a), b)
  {
    hide Apply;
    if b == [] {
      assert a + b == a;
    } else {
      AfterConcat(s, a, b[..|b| - 1]);
      assert (a + b)[..|a + b| - 1] == a + b[..|b| - 1];
    }
  }

  lemma IdleShutsDown(s: System)
    requires LifecycleSafe(s) && s.lm.idleTimer.Some? && !s.sm.status.Active()
    ensures exists more :: TimersOnly(more) && After(s, more).lm.shutdowns > 0
  {
    hide LifecycleSafe, RunOut, After;
    IdleRunsOut(s);
    RunOutIs(s, s.lm.idleTimer.value);
  }

  /** From every reachable state with no event stream, no active status and nobody who owes a notice, of a
      manager neither stopped nor disabled, timers running out are enough to have shutdown requested. */
  lemma TimersShutDown(config: Config, disabled: bool, actions: seq<Action>)
    requires var s := After(Start(config, disabled), actions);
             s.clients == 0 && !s.sm.status.Active() && !s.lm.stopped && !s.lm.disabled && !SomeoneOwes(s)
    ensures var s := After(Start(config, disabled), actions);
            exists more :: TimersOnly(more) && After(s, more).lm.shutdowns > 0
  {
    hide LifecycleSafe, GraceSafe, After, Start, RunOut, SomeoneOwes, NoLostWakeup, ActiveHasCause, GatesHold;
    var s := After(Start(config, disabled), actions);
    NoWakeupIsEverLost(config, disabled, actions);
    GraceAlwaysSafe(config, disabled, actions);
    if s.lm.shutdowns > 0 {
      AfterNothing(s);
    } else if s.lm.idleTimer.Some? {
      IdleShutsDown(s);
    } else {
      GraceRunsOut(s);
      RunOutIs(s, GRACE);
      var first :| TimersOnly(first) && After(s, first) == RunOut(s, GRACE);
      IdleShutsDown(After(s, first));
      var more :| TimersOnly(more) && After(After(s, first), more).lm.shutdowns > 0;
      AfterConcat(s, first, more);
      assert TimersOnly(first + more);
    }
  }

  lemma AfterNothing(s: System)
    ensures TimersOnly([]) && After(s, []) == s
  {
  }

  // ---------------------------------------------------------------- timers nobody can stop

  /** Every scheduled timer is one the manager holds, so that Stop reaches it. */
  ghost predicate Held(m: Manager) {
    forall t :: t in m.timers.scheduled ==> m.graceTimer == Some(t) || m.idleTimer == Some(t)
  }

  /** Stop leaves nothing scheduled when the manager holds its timers. */
  lemma StopReachesAll(s: System)
    requires Held(s.lm)
    ensures Apply(s, StopManager).lm.timers.scheduled == {}
  {
  }

  /** A step lets go of a timer that is still scheduled exactly when it is the callback of an earlier idle
      timer that finds a new one armed: it clears the handle of the new one. */
  lemma LetsGoExactly(s: System, a: Action)
    requires LifecycleSafe(s) && GraceSafe(s) && Held(s.lm)
    ensures Held(Apply(s, a).lm) <==>
            !(&& a.IdleCallback? && a.timer in s.lm.timers.fired && (a.timer != GRACE || s.lm.disabled)
              && s.lm.idleTimer.Some? && s.lm.idleTimer.value in s.lm.timers.scheduled)
  {
    hide StartOutcomeOf, WithRun, WithPlaybook, WithReport, SubmitReport, WithSubmission, WithElevation, WithSubmitted,
         WithDestination, Unloaded, WithCancel, CanCancel, PlaybookErrors, RequiresElevation;
  }

  /** The grace period ends, the idle timer fires, and before its callback gets the lock a client comes and
      goes: the callback clears the handle of the new timer, which Stop then does not reach. */
  lemma TimerOutlivesStop(config: Config)
    ensures var s := After(Start(config, false),
                           [TimerFires(GRACE), GraceCallback, TimerFires(1), Connect, Disconnect, IdleCallback(1),
                            StopManager]);
            s.lm.stopped && s.lm.timers.scheduled == {2}
  {
    hide Apply, After;
    var s := Start(config, false);
    var s4 := Apply(Apply(Apply(Apply(s, TimerFires(GRACE)), GraceCallback), TimerFires(1)), Connect);
    FirstTwo(config);
    NextTwo(Apply(Apply(s, TimerFires(GRACE)), GraceCallback));
    LastThree(s4);
    AfterNothing(s);
    AfterStep(s, [], TimerFires(GRACE));
    AfterStep(s, [] + [TimerFires(GRACE)], GraceCallback);
    AfterStep(s, [] + [TimerFires(GRACE)] + [GraceCallback], TimerFires(1));
    AfterStep(s, [] + [TimerFires(GRACE)] + [GraceCallback] + [TimerFires(1)], Connect);
    var four := [] + [TimerFires(GRACE)] + [GraceCallback] + [TimerFires(1)] + [Connect];
    AfterStep(s, four, Disconnect);
    AfterStep(s, four + [Disconnect], IdleCallback(1));
    AfterStep(s, four + [Disconnect] + [IdleCallback(1)], StopManager);
    assert four + [Disconnect] + [IdleCallback(1)] + [StopManager]
        == [TimerFires(GRACE), GraceCallback, TimerFires(1), Connect, Disconnect, IdleCallback(1), StopManager];
  }

  lemma FirstTwo(config: Config)
    ensures var s := Apply(Apply(Start(config, false), TimerFires(GRACE)), GraceCallback);
            && s.lm == Manager(0, Some(GRACE), Some(1), true, false, false, 0, Timers(2, {1}, {}))
            && s.clients == 0 && !s.sm.status.Active()
  {
    var s := Apply(Start(config, false), TimerFires(GRACE));
    assert s.lm.timers.scheduled == {} && s.lm.timers.fired == {GRACE};
    assert Ran(s.lm, GRACE).timers.fired == {};
  }

  lemma NextTwo(s: System)
    requires s.lm == Manager(0, Some(GRACE), Some(1), true, false, false, 0, Timers(2, {1}, {}))
    requires s.clients == 0 && !s.sm.status.Active()
    ensures var t := Apply(Apply(s, TimerFires(1)), Connect);
            && t.lm == Manager(1, Some(GRACE), None, true, false, false, 0, Timers(2, {}, {1}))
            && t.clients == 1 && !t.sm.status.Active()
  {
  }

  lemma LastThree(s: System)
    requires s.lm == Manager(1, Some(GRACE), None, true, false, false, 0, Timers(2, {}, {1}))
    requires s.clients == 1 && !s.sm.status.Active()
    ensures var t := Apply(Apply(Apply(s, Disconnect), IdleCallback(1)), StopManager);
            t.lm.stopped && t.lm.timers.scheduled == {2}
  {
  }
}
