/** internal/server/lifecycle.go: client count, grace and idle timers, and the shutdown decision.
    A timer is scheduled, or fired with its callback waiting for the lock, or gone. */
module Lifecycle {
  import opened Text
  import opened StateManagement

  datatype Timers = Timers(next: nat, scheduled: set<nat>, fired: set<nat>)
  {
    /** time.AfterFunc */
    function After(): Timers { Timers(next + 1, scheduled + {next}, fired) }

    /** Timer.Stop: no effect on a callback that has fired already. */
    function Stop(t: nat): Timers { this.(scheduled := scheduled - {t}) }

    function Fire(t: nat): Timers {
      if t in scheduled then this.(scheduled := scheduled - {t}, fired := fired + {t}) else this
    }

    predicate Pending(t: nat) { t in scheduled || t in fired }
  }

  datatype Manager = Manager(
    activeClients: int, graceTimer: Option<nat>, idleTimer: Option<nat>, graceExpired: bool,
    stopped: bool, disabled: bool, shutdowns: nat, timers: Timers)

  function NewManager(disabled: bool): Manager {
    if disabled then Manager(0, None, None, true, false, true, 0, Timers(0, {}, {}))
    else Manager(0, Some(0), None, false, false, false, 0, Timers(1, {0}, {}))
  }

  /** The condition under which the idle countdown may start. */
  predicate Quiet(m: Manager, active: bool) {
    m.activeClients == 0 && m.graceExpired && !active && !m.stopped && !m.disabled
  }

  function Disarm(m: Manager): Manager {
    if m.idleTimer.None? then m else m.(idleTimer := None, timers := m.timers.Stop(m.idleTimer.value))
  }

  function Arm(m: Manager): Manager { m.(idleTimer := Some(m.timers.next), timers := m.timers.After()) }

  function Connected(m: Manager): Manager { Disarm(m.(activeClients := m.activeClients + 1)) }

  function Disconnected(m: Manager, active: bool): Manager {
    var n := m.(activeClients := if m.activeClients - 1 < 0 then 0 else m.activeClients - 1);
    if Quiet(n, active) then Arm(Disarm(n)) else n
  }

  function Notified(m: Manager, active: bool): Manager {
    if Quiet(m, active) && m.idleTimer.None? then Arm(m) else m
  }

  function GraceExpired(m: Manager, active: bool): Manager { Notified(m.(graceExpired := true), active) }

  predicate Decides(m: Manager, active: bool) {
    !m.stopped && !m.disabled && m.activeClients <= 0 && !active
  }

  function IdleExpired(m: Manager, active: bool): Manager {
    if Decides(m, active) then m.(idleTimer := None, shutdowns := m.shutdowns + 1) else m.(idleTimer := None)
  }

  function Stopped(m: Manager): Manager {
    var n := if m.graceTimer.None? then m else m.(graceTimer := None, timers := m.timers.Stop(m.graceTimer.value));
    Disarm(n.(stopped := true))
  }

  /** An armed idle timer means grace over, nobody connected, not stopped, not disabled, and a callback
      that is still to come. */
  predicate Justified(m: Manager) {
    m.idleTimer.Some? ==>
      && m.graceExpired && m.activeClients == 0 && !m.stopped && !m.disabled
      && m.timers.Pending(m.idleTimer.value)
  }

  class LifecycleManager {
    var activeClients: int
    var graceTimer: Option<nat>
    var idleTimer: Option<nat>
    var graceExpired: bool
    var stopped: bool
    const disabled: bool
    /** Calls of onShutdown so far. */
    var shutdowns: nat
    /** The runtime's timers. */
    var timers: Timers
    const state: StateManager

    constructor (sm: StateManager, off: bool)
      ensures View() == NewManager(off) && state == sm && Justified(View())
    {
      activeClients, idleTimer, stopped, shutdowns := 0, None, false, 0;
      disabled, state := off, sm;
      graceExpired := off;
      graceTimer := if off then None else Some(0);
      timers := if off then Timers(0, {}, {}) else Timers(1, {0}, {});
    }

    function View(): Manager
      reads this
    {
      Manager(activeClients, graceTimer, idleTimer, graceExpired, stopped, disabled, shutdowns, timers)
    }

    function IsExecutionActive(): bool
      reads this, state
    {
      state.status.RunningElevating? || state.status.RunningPlain? || state.status.RunningCancelling?
      || state.status.Submitting?
    }

    method OnClientConnect()
      modifies this
      ensures View() == Connected(old(View()))
      ensures activeClients == old(activeClients) + 1 && idleTimer == None
      ensures timers == if old(idleTimer).Some? then old(timers).Stop(old(idleTimer).value) else old(timers)
      ensures graceTimer == old(graceTimer) && graceExpired == old(graceExpired) && stopped == old(stopped)
              && shutdowns == old(shutdowns)
      ensures Justified(old(View())) ==> Justified(View())
    {
      activeClients := activeClients + 1;
      if idleTimer.Some? {
        timers := timers.Stop(idleTimer.value);
        idleTimer := None;
      }
    }

    method OnClientDisconnect()
      modifies this
      ensures View() == Disconnected(old(View()), state.status.Active())
      ensures activeClients == if old(activeClients) <= 1 then 0 else old(activeClients) - 1
      ensures if activeClients == 0 && graceExpired && !state.status.Active() && !stopped && !disabled
              then idleTimer == Some(old(timers).next) && idleTimer.value in timers.scheduled
                   && (old(idleTimer).Some? && old(idleTimer).value < old(timers).next ==>
                         old(idleTimer).value !in timers.scheduled)
              else idleTimer == old(idleTimer) && timers == old(timers)
      ensures graceTimer == old(graceTimer) && graceExpired == old(graceExpired) && stopped == old(stopped)
              && shutdowns == old(shutdowns)
      ensures Justified(old(View())) ==> Justified(View())
    {
      activeClients := activeClients - 1;
      if activeClients < 0 {
        activeClients := 0;
      }
      if activeClients == 0 && graceExpired && !IsExecutionActive() && !stopped && !disabled {
        if idleTimer.Some? {
          timers := timers.Stop(idleTimer.value);
        }
        idleTimer := Some(timers.next);
        timers := timers.After();
      }
    }

    method OnExecutionStateChange()
      modifies this
      ensures View() == Notified(old(View()), state.status.Active())
      ensures if activeClients == 0 && graceExpired && !state.status.Active() && !stopped && !disabled
                 && old(idleTimer).None?
              then idleTimer == Some(old(timers).next) && timers == old(timers).After()
              else idleTimer == old(idleTimer) && timers == old(timers)
      ensures activeClients == old(activeClients) && graceTimer == old(graceTimer)
              && graceExpired == old(graceExpired) && stopped == old(stopped) && shutdowns == old(shutdowns)
      ensures Justified(old(View())) ==> Justified(View())
    {
      if activeClients == 0 && graceExpired && !IsExecutionActive() && !stopped && !disabled {
        if idleTimer.None? {
          idleTimer := Some(timers.next);
          timers := timers.After();
        }
      }
    }

    method OnGracePeriodExpired()
      modifies this
      ensures View() == GraceExpired(old(View()), state.status.Active())
      ensures graceExpired
      ensures if activeClients == 0 && !state.status.Active() && !stopped && !disabled && old(idleTimer).None?
              then idleTimer == Some(old(timers).next) && timers == old(timers).After()
              else idleTimer == old(idleTimer) && timers == old(timers)
      ensures activeClients == old(activeClients) && graceTimer == old(graceTimer)
              && stopped == old(stopped) && shutdowns == old(shutdowns)
      ensures Justified(old(View())) ==> Justified(View())
    {
      graceExpired := true;
      if activeClients == 0 && !IsExecutionActive() && !stopped && !disabled {
        if idleTimer.None? {
          idleTimer := Some(timers.next);
          timers := timers.After();
        }
      }
    }

    method OnIdleTimeoutExpired()
      modifies this
      ensures View() == IdleExpired(old(View()), state.status.Active())
      ensures idleTimer == None
      ensures shutdowns == old(shutdowns)
              + if !stopped && !disabled && activeClients <= 0 && !state.status.Active() then 1 else 0
      ensures activeClients == old(activeClients) && graceTimer == old(graceTimer) && timers == old(timers)
              && graceExpired == old(graceExpired) && stopped == old(stopped)
      ensures Justified(old(View())) ==> Justified(View())
    {
      if stopped || disabled || activeClients > 0 || IsExecutionActive() {
        idleTimer := None;
        return;
      }
      idleTimer := None;
      shutdowns := shutdowns + 1;
    }

    method Stop()
      modifies this
      ensures View() == Stopped(old(View()))
      ensures stopped && graceTimer == None && idleTimer == None && timers.fired == old(timers).fired
      ensures old(graceTimer).Some? ==> old(graceTimer).value !in timers.scheduled
      ensures old(idleTimer).Some? ==> old(idleTimer).value !in timers.scheduled
      ensures activeClients == old(activeClients) && graceExpired == old(graceExpired)
              && shutdowns == old(shutdowns)
      ensures Justified(old(View())) ==> Justified(View())
    {
      stopped := true;
      if graceTimer.Some? {
        timers := timers.Stop(graceTimer.value);
        graceTimer := None;
      }
      if idleTimer.Some? {
        timers := timers.Stop(idleTimer.value);
        idleTimer := None;
      }
    }
  }
}
