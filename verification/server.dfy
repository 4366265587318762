/** The server as a system of interleaved critical sections: request handlers, run goroutines, remote
    submissions, cancel handlers, event streams and timer callbacks. One action is one critical
    section; an action that its code path would not reach leaves the state unchanged. */
module Server {
  import opened Text
  import opened PlaybookTypes
  import opened Validator
  import opened StateManagement
  import opened Lifecycle

  datatype RunPhase = AwaitingElevation | Executing | RunOwesNotice | RunDone

  /** A run goroutine; `agent` is the mode its playbook was validated in, `cancelled` its context. */
  datatype RunInfo = RunInfo(phase: RunPhase, playbook: Playbook, agent: bool, cancelled: bool)
  {
    /** Between the first and the last critical section of the run. */
    predicate InFlight() { phase.AwaitingElevation? || phase.Executing? }
  }

  datatype SubmitPhase = Sending | SubmitOwesNotice | SubmitDone

  datatype SubmitInfo = SubmitInfo(phase: SubmitPhase, report: RunReport)

  /** `cancels` are the runs some cancel handler is about to cancel, `loads` the load handlers past
      their CanMutate check, `clients` the event streams between connect and disconnect. `agent` is the
      mode in which the loaded playbook was validated: the handlers' loads validate as an agent does, a
      load from the command line, first of all loads, in the mode of the program. */
  datatype System = System(
    sm: State, lm: Manager, runs: seq<RunInfo>, submits: seq<SubmitInfo>,
    cancels: set<nat>, loads: nat, clients: nat, agent: bool)

  datatype Action =
    | CheckLoad | LandPlaybook(playbook: Playbook, agent: bool) | LandError(code: ErrorCode)
    | Unload | UpdateDestination(req: DestinationUpdate)
    | BeginRun | ElevationResult(run: nat, ok: bool) | FinishRun(run: nat, writeFails: bool) | NotifyRun(run: nat)
    | RequestCancel | FireCancel(run: nat) | ShutdownCancel
    | BeginSubmit | FinishSubmit(submit: nat, failed: bool) | NotifySubmit(submit: nat)
    | Connect | Disconnect
    | TimerFires(timer: nat) | GraceCallback | IdleCallback(timer: nat) | StopManager

  const GRACE: nat := 0

  function Start(config: Config, disabled: bool): System {
    System(NewState(config), NewManager(disabled), [], [], {}, 0, 0, true)
  }

  function SetRun(s: System, r: nat, info: RunInfo): System
    requires r < |s.runs|
  {
    s.(runs := s.runs[r := info])
  }

  function SetSubmit(s: System, k: nat, info: SubmitInfo): System
    requires k < |s.submits|
  {
    s.(submits := s.submits[k := info])
  }

  function CancelRun(s: System, r: nat): System {
    if r < |s.runs| then SetRun(s, r, s.runs[r].(cancelled := true)) else s
  }

  function ApplyLoad(s: System, a: Action): System
    requires a.CheckLoad? || a.LandPlaybook? || a.LandError? || a.Unload? || a.UpdateDestination?
  {
    match a
    case CheckLoad => if s.sm.status.Active() then s else s.(loads := s.loads + 1)
    case LandPlaybook(p, agent) =>
      if s.loads == 0 then s
      else
        s.(loads := s.loads - 1, agent := agent,
           sm := WithPlaybook(s.sm, p, PlaybookErrors(p, agent) != []))
    case LandError(code) => if s.loads == 0 then s else s.(loads := s.loads - 1, sm := WithLoadError(s.sm, code))
    case Unload => s.(sm := Unloaded(s.sm))
    case UpdateDestination(req) => s.(sm := WithDestination(s.sm, req))
  }

  function ApplyRun(s: System, a: Action): System
    requires a.BeginRun? || a.ElevationResult? || a.FinishRun? || a.NotifyRun?
  {
    match a
    case BeginRun =>
      var outcome := StartOutcomeOf(s.sm);
      if !outcome.Started? then s
      else
        var p := outcome.playbook;
        s.(sm := WithRun(s.sm, |s.runs|),
           runs := s.runs + [RunInfo(if RequiresElevation(p) then AwaitingElevation else Executing, p, s.agent, false)])
    case ElevationResult(r, ok) =>
      if r >= |s.runs| || !s.runs[r].phase.AwaitingElevation? then s
      else
        SetRun(s, r, s.runs[r].(phase := if ok then Executing else RunOwesNotice)).(sm := WithElevation(s.sm, ok))
    case FinishRun(r, writeFails) =>
      if r >= |s.runs| || !s.runs[r].phase.Executing? then s
      else
        SetRun(s, r, s.runs[r].(phase := RunOwesNotice))
        .(sm := WithReport(s.sm, r, s.runs[r].playbook, s.runs[r].cancelled, writeFails))
    case NotifyRun(r) =>
      if r >= |s.runs| || !s.runs[r].phase.RunOwesNotice? then s
      else SetRun(s, r, s.runs[r].(phase := RunDone)).(lm := Notified(s.lm, s.sm.status.Active()))
  }

  function ApplyCancel(s: System, a: Action): System
    requires a.RequestCancel? || a.FireCancel? || a.ShutdownCancel?
  {
    match a
    case RequestCancel =>
      s.(sm := WithCancel(s.sm),
         cancels := if CanCancel(s.sm) && s.sm.cancelTarget.Some? then s.cancels + {s.sm.cancelTarget.value}
                    else s.cancels)
    case FireCancel(r) => if r in s.cancels then CancelRun(s, r).(cancels := s.cancels - {r}) else s
    case ShutdownCancel => if s.sm.cancelTarget.Some? then CancelRun(s, s.sm.cancelTarget.value) else s
  }

  function ApplySubmit(s: System, a: Action): System
    requires a.BeginSubmit? || a.FinishSubmit? || a.NotifySubmit?
  {
    match a
    case BeginSubmit =>
      var report := SubmitReport(s.sm);
      if report.None? then s
      else s.(sm := WithSubmission(s.sm), submits := s.submits + [SubmitInfo(Sending, report.value)])
    case FinishSubmit(k, failed) =>
      if k >= |s.submits| || !s.submits[k].phase.Sending? then s
      else SetSubmit(s, k, s.submits[k].(phase := SubmitOwesNotice)).(sm := WithSubmitted(s.sm, failed))
    case NotifySubmit(k) =>
      if k >= |s.submits| || !s.submits[k].phase.SubmitOwesNotice? then s
      else SetSubmit(s, k, s.submits[k].(phase := SubmitDone)).(lm := Notified(s.lm, s.sm.status.Active()))
  }

  function ApplyLifecycle(s: System, a: Action): System
    requires a.Connect? || a.Disconnect? || a.TimerFires? || a.GraceCallback? || a.IdleCallback? || a.StopManager?
  {
    var active := s.sm.status.Active();
    match a
    case Connect => s.(lm := Connected(s.lm), clients := s.clients + 1)
    case Disconnect => if s.clients == 0 then s else s.(lm := Disconnected(s.lm, active), clients := s.clients - 1)
    case TimerFires(t) => s.(lm := s.lm.(timers := s.lm.timers.Fire(t)))
    case GraceCallback =>
      if GRACE !in s.lm.timers.fired || s.lm.disabled then s
      else s.(lm := GraceExpired(Ran(s.lm, GRACE), active))
    case IdleCallback(t) =>
      if t !in s.lm.timers.fired || (t == GRACE && !s.lm.disabled) then s
      else s.(lm := IdleExpired(Ran(s.lm, t), active))
    case StopManager => s.(lm := Stopped(s.lm))
  }

  /** The callback of a fired timer leaves the queue for the lock. */
  function Ran(m: Manager, t: nat): Manager { m.(timers := m.timers.(fired := m.timers.fired - {t})) }

  function Apply(s: System, a: Action): System {
    match a
    case CheckLoad | LandPlaybook(_, _) | LandError(_) | Unload | UpdateDestination(_) => ApplyLoad(s, a)
    case BeginRun | ElevationResult(_, _) | FinishRun(_, _) | NotifyRun(_) => ApplyRun(s, a)
    case RequestCancel | FireCancel(_) | ShutdownCancel => ApplyCancel(s, a)
    case BeginSubmit | FinishSubmit(_, _) | NotifySubmit(_) => ApplySubmit(s, a)
    case _ => ApplyLifecycle(s, a)
  }

  /** The state after any interleaving. */
  function After(s: System, actions: seq<Action>): System {
    if actions == [] then s else Apply(After(s, actions[..|actions| - 1]), actions[|actions| - 1])
  }

  // ---------------------------------------------------------------- an active status has a cause

  ghost predicate SomeInFlight(s: System) {
    (exists r :: 0 <= r < |s.runs| && s.runs[r].InFlight())
    || (exists k :: 0 <= k < |s.submits| && s.submits[k].phase.Sending?)
  }

  ghost predicate ActiveHasCause(s: System) { s.sm.status.Active() ==> SomeInFlight(s) }

  lemma ActiveHasCauseKept(s: System, a: Action)
    requires ActiveHasCause(s)
    ensures ActiveHasCause(Apply(s, a))
  {
    hide RequiresElevation, PlaybookErrors, Notified, Disconnected, Connected, GraceExpired, IdleExpired, Stopped, Ran;
    var s' := Apply(s, a);
    if s'.sm.status.Active() {
      if a.BeginRun? && StartOutcomeOf(s.sm).Started? {
        assert s'.runs[|s.runs|].InFlight();
      } else if a.BeginSubmit? && SubmitReport(s.sm).Some? {
        assert s'.submits[|s.submits|].phase.Sending?;
      } else {
        assert s.sm.status.Active();
        SomeInFlightKept(s, a);
      }
    }
  }

  /** A run leaves its flight only with a status that is not active. */
  lemma RunStaysInFlight(s: System, a: Action, r: nat)
    requires r < |s.runs| && s.runs[r].InFlight() && Apply(s, a).sm.status.Active()
    ensures r < |Apply(s, a).runs| && Apply(s, a).runs[r].InFlight()
  {
    hide RequiresElevation, PlaybookErrors, Notified, Disconnected, Connected, GraceExpired, IdleExpired, Stopped, Ran,
         StartOutcomeOf, WithRun, SubmitReport, WithSubmission, WithSubmitted, WithCancel, CanCancel;
  }

  lemma SubmitStaysInFlight(s: System, a: Action, k: nat)
    requires k < |s.submits| && s.submits[k].phase.Sending? && Apply(s, a).sm.status.Active()
    ensures k < |Apply(s, a).submits| && Apply(s, a).submits[k].phase.Sending?
  {
    hide RequiresElevation, PlaybookErrors, Notified, Disconnected, Connected, GraceExpired, IdleExpired, Stopped, Ran,
         StartOutcomeOf, WithRun, SubmitReport, WithSubmission, WithElevation, WithReport, WithCancel, CanCancel;
  }

  lemma SomeInFlightKept(s: System, a: Action)
    requires SomeInFlight(s) && Apply(s, a).sm.status.Active()
    ensures SomeInFlight(Apply(s, a))
  {
    hide Apply;
    if r :| 0 <= r < |s.runs| && s.runs[r].InFlight() {
      RunStaysInFlight(s, a, r);
    } else {
      var k :| 0 <= k < |s.submits| && s.submits[k].phase.Sending?;
      SubmitStaysInFlight(s, a, k);
    }
  }
}
