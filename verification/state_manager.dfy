/** internal/server/state.go, with the critical sections of handlers_execution.go and
    handlers_report.go that run under its mutex. Each method is one critical section. */
module StateManagement {
  import opened Text
  import opened PlaybookTypes
  import opened Validator

  datatype Status =
    | Idle | Loaded | RunningElevating | RunningPlain | RunningCancelling
    | ConfirmingSubmission | Submitting | Submitted | SubmissionError | Completed
  {
    /** The statuses in which CanMutate refuses. */
    predicate Active() { RunningElevating? || RunningPlain? || RunningCancelling? || Submitting? }
  }

  datatype ErrorCode =
    | ParseFailed | ValidationFailed | FetchFailed | ElevationFailed | ExecutionAborted
    | FolderWriteFailed | SubmissionFailed | SubmissionTimeout

  datatype HttpsSource = FromPlaybook | Custom | Off
  datatype FolderSource = FolderDefault | FolderCli | FolderPlaybook | FolderCustom | FolderOff

  datatype DestinationUpdate = DestinationUpdate(
    folder: Option<FolderSource>, path: Option<string>, source: Option<HttpsSource>, url: Option<string>)

  /** The command line's folder, empty when absent, whether the web interface is on, and filepath.Abs,
      which may fail. */
  datatype Config = Config(cliFolder: string, ui: bool, abs: string -> Option<string>)
  {
    /** resolveFolderPath */
    function Resolve(dir: string): string {
      var d := if dir == "" then "reports" else dir;
      if abs(d).Some? then abs(d).value else d
    }

    predicate Locked() { cliFolder != "" }
  }

  /** A generated report, with its provenance: the run, and whether that run's context was cancelled
      when it was finalised. */
  datatype RunReport = RunReport(run: nat, aborted: bool)

  /** Everything the mutex guards, except the execution snapshot. */
  datatype State = State(
    status: Status, playbook: Option<Playbook>, errors: seq<ErrorCode>,
    folder: FolderSource, path: string, https: HttpsSource, customUrl: Option<string>, config: Config,
    activeRun: Option<nat>, cancelTarget: Option<nat>, isCancelled: bool, lastReport: Option<RunReport>)

  predicate RequiresElevation(p: Playbook) {
    exists s, a | s in p.sections && a in s.assertions ::
      || (exists e | e in a.preCmds :: e.requireElevation)
      || (exists c | c in a.cmds :: c.exec.requireElevation)
      || (exists e | e in a.postCmds :: e.requireElevation)
  }

  /** Elevation is required exactly when no command of any phase, in any section, goes without it. */
  lemma ElevationIsForSome(p: Playbook)
    ensures !RequiresElevation(p) <==>
            forall s, a :: 0 <= s < |p.sections| && 0 <= a < |p.sections[s].assertions| ==>
              var x := p.sections[s].assertions[a];
              && (forall k :: 0 <= k < |x.preCmds| ==> !x.preCmds[k].requireElevation)
              && (forall k :: 0 <= k < |x.cmds| ==> !x.cmds[k].exec.requireElevation)
              && (forall k :: 0 <= k < |x.postCmds| ==> !x.postCmds[k].requireElevation)
  {
    if !RequiresElevation(p) {
      forall s, a | 0 <= s < |p.sections| && 0 <= a < |p.sections[s].assertions|
        ensures var x := p.sections[s].assertions[a];
                && (forall k :: 0 <= k < |x.preCmds| ==> !x.preCmds[k].requireElevation)
                && (forall k :: 0 <= k < |x.cmds| ==> !x.cmds[k].exec.requireElevation)
                && (forall k :: 0 <= k < |x.postCmds| ==> !x.postCmds[k].requireElevation)
      {
        assert p.sections[s] in p.sections && p.sections[s].assertions[a] in p.sections[s].assertions;
      }
    }
  }

  // ---------------------------------------------------------------- what each section does

  function NewState(c: Config): State {
    State(Idle, None, [], if c.Locked() then FolderCli else FolderDefault, c.Resolve(c.cliFolder), Off, None, c,
          None, None, false, None)
  }

  /** Where reports go after a load: two independent destinations with the web interface, one of the two
      without. */
  function WithDefaults(s: State, p: Playbook): State {
    var c := s.config;
    var wantsHttps := p.reportDestination == "https";
    if c.Locked() then
      s.(folder := FolderCli, path := c.Resolve(c.cliFolder), https := if c.ui && wantsHttps then FromPlaybook else Off)
    else if !c.ui && wantsHttps then s.(folder := FolderOff, https := FromPlaybook)
    else
      var own := p.reportDestinationFolder != "";
      s.(folder := if own then FolderPlaybook else FolderDefault,
         path := c.Resolve(if own then p.reportDestinationFolder else "reports"),
         https := if wantsHttps then FromPlaybook else Off)
  }

  function WithPlaybook(s: State, p: Playbook, invalid: bool): State {
    WithDefaults(s, p).(playbook := Some(p), status := Loaded, isCancelled := false, lastReport := None,
                        activeRun := None, errors := if invalid then [ValidationFailed] else [])
  }

  function WithLoadError(s: State, code: ErrorCode): State {
    s.(status := Idle, playbook := None, errors := [code])
  }

  function Unloaded(s: State): State {
    if s.status.Active() then s
    else NewState(s.config).(cancelTarget := s.cancelTarget)
  }

  /** No change while active; with a command-line folder no other folder source and no other path. */
  predicate DestinationAccepted(s: State, req: DestinationUpdate) {
    && !s.status.Active()
    && (s.config.Locked() ==>
          && (req.folder.Some? ==> req.folder.value == FolderCli)
          && (req.path.Some? ==> s.config.Resolve(req.path.value) == s.config.Resolve(s.config.cliFolder)))
  }

  function WithDestination(s: State, req: DestinationUpdate): State {
    if !DestinationAccepted(s, req) then s
    else
      s.(folder := if req.folder.Some? then req.folder.value else s.folder,
         path := if req.path.Some? then s.config.Resolve(req.path.value) else s.path,
         https := if req.source.Some? then req.source.value else s.https,
         customUrl := if req.url.Some? then req.url else s.customUrl)
  }

  datatype StartOutcome = NoPlaybook | Invalid | Conflict | Started(playbook: Playbook)

  function StartOutcomeOf(s: State): StartOutcome {
    if s.playbook.None? then NoPlaybook
    else if ValidationFailed in s.errors then Invalid
    else if s.status.Active() then Conflict
    else Started(s.playbook.value)
  }

  function WithRun(s: State, run: nat): State {
    if !StartOutcomeOf(s).Started? then s
    else
      s.(activeRun := Some(run), cancelTarget := Some(run), isCancelled := false, lastReport := None,
         errors := [],
         status := if RequiresElevation(s.playbook.value) then RunningElevating else RunningPlain)
  }

  function WithElevation(s: State, ok: bool): State {
    if !ok then s.(status := Loaded, errors := s.errors + [ElevationFailed])
    else if s.status.RunningElevating? then s.(status := RunningPlain)
    else s
  }

  predicate HasHttps(s: State, p: Playbook) {
    || (s.https.FromPlaybook? && p.https.Some?)
    || (s.https.Custom? && s.customUrl.Some? && s.customUrl.value != "")
  }

  function WithReport(s: State, run: nat, p: Playbook, aborted: bool, writeFails: bool): State {
    var r := s.(lastReport := Some(RunReport(run, aborted)));
    if aborted then r.(isCancelled := true, status := Loaded, errors := s.errors + [ExecutionAborted])
    else
      r.(errors := if !s.folder.FolderOff? && writeFails then s.errors + [FolderWriteFailed] else s.errors,
         status := if HasHttps(s, p) then ConfirmingSubmission else Completed)
  }

  predicate CanCancel(s: State) {
    s.status.RunningPlain? || s.status.RunningElevating?
  }

  function WithCancel(s: State): State {
    if CanCancel(s) then s.(status := RunningCancelling) else s
  }

  /** The URL a submission would go to; empty when no destination is configured. */
  function SubmitUrl(s: State): string {
    if s.https.Custom? && s.customUrl.Some? then s.customUrl.value
    else if s.https.FromPlaybook? && s.playbook.Some? && s.playbook.value.https.Some? then
      s.playbook.value.https.value.url
    else ""
  }

  function SubmitReport(s: State): Option<RunReport> {
    if s.status.Active() || s.isCancelled || SubmitUrl(s) == "" then None else s.lastReport
  }

  function WithSubmission(s: State): State {
    if SubmitReport(s).Some? then s.(status := Submitting) else s
  }

  function WithoutSubmissionErrors(errors: seq<ErrorCode>): seq<ErrorCode> {
    if errors == [] then []
    else
      var last := errors[|errors| - 1];
      WithoutSubmissionErrors(errors[..|errors| - 1])
      + if last.SubmissionFailed? || last.SubmissionTimeout? then [] else [last]
  }

  lemma WithoutLast(a: seq<ErrorCode>, e: ErrorCode)
    ensures WithoutSubmissionErrors(a + [e])
            == WithoutSubmissionErrors(a) + if e.SubmissionFailed? || e.SubmissionTimeout? then [] else [e]
  {
    assert (a + [e])[..|a + [e]| - 1] == a;
  }

  lemma Associates(a: seq<ErrorCode>, b: seq<ErrorCode>, c: seq<ErrorCode>)
    ensures a + (b + c) == (a + b) + c
  {
  }

  /** Dropping the submission errors goes list by list, so all others stay in their order. */
  lemma {:induction false} OthersInOrder(a: seq<ErrorCode>, b: seq<ErrorCode>)
    ensures WithoutSubmissionErrors(a + b) == WithoutSubmissionErrors(a) + WithoutSubmissionErrors(b)
  {
    hide WithoutSubmissionErrors;
    if b == [] {
      NoErrors();
      assert a + b == a;
      assert WithoutSubmissionErrors(a) + [] == WithoutSubmissionErrors(a);
    } else {
      var c, e := b[..|b| - 1], b[|b| - 1];
      OthersInOrder(a, c);
      WithoutLast(c, e);
      WithoutLast(a + c, e);
      assert b == c + [e];
      Associates(a, c, [e]);
      Associates(WithoutSubmissionErrors(a), WithoutSubmissionErrors(c),
                 if e.SubmissionFailed? || e.SubmissionTimeout? then [] else [e]);
    }
  }

  lemma NoErrors()
    ensures WithoutSubmissionErrors([]) == []
  {
  }

  lemma {:induction false} OthersStay(errors: seq<ErrorCode>)
    ensures forall e :: multiset(WithoutSubmissionErrors(errors))[e]
                        == if e.SubmissionFailed? || e.SubmissionTimeout? then 0 else multiset(errors)[e]
  {
    if errors != [] {
      var n := |errors| - 1;
      OthersStay(errors[..n]);
      assert errors == errors[..n] + [errors[n]];
    }
  }

  function WithSubmitted(s: State, failed: bool): State {
    if failed then s.(status := SubmissionError, errors := s.errors + [SubmissionFailed])
    else s.(status := Submitted, errors := WithoutSubmissionErrors(s.errors))
  }

  // ---------------------------------------------------------------- the class

  /** The folder's default is "reports". */
  lemma ResolveDefault(c: Config)
    ensures c.Resolve("") == c.Resolve("reports")
  {
  }

  /** The report of an aborted run is marked as such. */
  predicate Marked(s: State) { s.lastReport.Some? && s.lastReport.value.aborted ==> s.isCancelled }

  class StateManager {
    var status: Status
    var playbook: Option<Playbook>
    var errors: seq<ErrorCode>
    var folder: FolderSource
    var path: string
    var https: HttpsSource
    var customUrl: Option<string>
    const config: Config
    var activeRun: Option<nat>
    var cancelTarget: Option<nat>
    var isCancelled: bool
    var lastReport: Option<RunReport>

    constructor (c: Config)
      ensures View() == NewState(c) && Marked(View())
    {
      status, playbook, errors := Idle, None, [];
      folder := if c.Locked() then FolderCli else FolderDefault;
      path := c.Resolve(c.cliFolder);
      https, customUrl, config := Off, None, c;
      activeRun, cancelTarget, isCancelled, lastReport := None, None, false, None;
    }

    function View(): State
      reads this
    {
      State(status, playbook, errors, folder, path, https, customUrl, config, activeRun, cancelTarget, isCancelled,
            lastReport)
    }

    method CanMutate() returns (ok: bool)
      ensures ok == !View().status.Active()
    {
      ok := status != RunningElevating && status != RunningPlain && status != RunningCancelling && status != Submitting;
    }

    /** The part of SetPlaybook that chooses the report destinations. */
    method SetDestinations(p: Playbook)
      modifies this`folder, this`path, this`https
      ensures View() == WithDefaults(old(View()), p)
      ensures config.cliFolder != "" ==> folder == FolderCli && path == config.Resolve(config.cliFolder)
      ensures config.cliFolder == "" && !config.ui && p.reportDestination == "https" ==>
                folder == FolderOff && path == old(path)
      ensures config.cliFolder == "" && (config.ui || p.reportDestination != "https") ==>
                if p.reportDestinationFolder != "" then
                  folder == FolderPlaybook && path == config.Resolve(p.reportDestinationFolder)
                else folder == FolderDefault && path == config.Resolve("reports")
      ensures https.FromPlaybook? <==> p.reportDestination == "https" && (config.ui || config.cliFolder == "")
      ensures !https.FromPlaybook? ==> https.Off?
    {
      hide Config.Resolve;
      if config.ui {
        if config.cliFolder != "" {
          folder, path := FolderCli, config.Resolve(config.cliFolder);
        } else if p.reportDestinationFolder != "" {
          folder, path := FolderPlaybook, config.Resolve(p.reportDestinationFolder);
        } else {
          folder, path := FolderDefault, config.Resolve("reports");
        }
        https := if p.reportDestination == "https" then FromPlaybook else Off;
      } else if config.cliFolder != "" {
        folder, path, https := FolderCli, config.Resolve(config.cliFolder), Off;
      } else if p.reportDestination == "https" {
        folder, https := FolderOff, FromPlaybook;
      } else {
        https := Off;
        if p.reportDestinationFolder != "" {
          folder, path := FolderPlaybook, config.Resolve(p.reportDestinationFolder);
        } else {
          folder, path := FolderDefault, config.Resolve("reports");
        }
      }
    }

    method SetPlaybook(p: Playbook, valErrors: seq<ValidationError>)
      modifies this
      ensures View() == WithPlaybook(old(View()), p, valErrors != [])
      ensures playbook == Some(p) && status == Loaded && !isCancelled && lastReport == None && activeRun == None
      ensures errors == if valErrors == [] then [] else [ValidationFailed]
      ensures cancelTarget == old(cancelTarget) && customUrl == old(customUrl)
      ensures config.cliFolder != "" ==> folder == FolderCli && path == config.Resolve(config.cliFolder)
      ensures config.cliFolder == "" && !config.ui && p.reportDestination == "https" ==>
                folder == FolderOff && path == old(path)
      ensures config.cliFolder == "" && (config.ui || p.reportDestination != "https") ==>
                if p.reportDestinationFolder != "" then
                  folder == FolderPlaybook && path == config.Resolve(p.reportDestinationFolder)
                else folder == FolderDefault && path == config.Resolve("reports")
      ensures https.FromPlaybook? <==> p.reportDestination == "https" && (config.ui || config.cliFolder == "")
      ensures !https.FromPlaybook? ==> https.Off?
      ensures Marked(old(View())) ==> Marked(View())
    {
      hide WithDefaults;
      SetDestinations(p);
      playbook, status, errors := Some(p), Loaded, [];
      isCancelled, lastReport, activeRun := false, None, None;
      if |valErrors| > 0 {
        errors := errors + [ValidationFailed];
      }
    }

    method SetLoadError(code: ErrorCode)
      modifies this
      ensures View() == WithLoadError(old(View()), code)
      ensures status == Idle && playbook == None && errors == [code]
      ensures lastReport == old(lastReport) && isCancelled == old(isCancelled) && activeRun == old(activeRun)
              && cancelTarget == old(cancelTarget) && folder == old(folder) && path == old(path)
              && https == old(https) && customUrl == old(customUrl)
      ensures Marked(old(View())) ==> Marked(View())
    {
      status, playbook, errors := Idle, None, [code];
    }

    method ResetDestinations()
      modifies this`folder, this`path, this`https, this`customUrl
      ensures var fresh_ := NewState(config);
              && folder == fresh_.folder && path == fresh_.path && https == fresh_.https
              && customUrl == fresh_.customUrl
    {
      folder := if config.cliFolder != "" then FolderCli else FolderDefault;
      path := config.Resolve(config.cliFolder);
      https, customUrl := Off, None;
    }

    method UnloadPlaybook() returns (ok: bool)
      modifies this
      ensures View() == Unloaded(old(View())) && ok == !old(View()).status.Active()
      ensures !ok ==> View() == old(View())
      ensures ok ==>
                && status == Idle && playbook == None && errors == [] && lastReport == None && !isCancelled
                && activeRun == None && cancelTarget == old(cancelTarget) && https == Off && customUrl == None
                && (if config.cliFolder == "" then folder == FolderDefault && path == config.Resolve("reports")
                    else folder == FolderCli && path == config.Resolve(config.cliFolder))
      ensures Marked(old(View())) ==> Marked(View())
    {
      hide Config.Resolve;
      ResolveDefault(config);
      if status == RunningElevating || status == RunningPlain || status == RunningCancelling || status == Submitting {
        return false;
      }
      status, playbook, errors := Idle, None, [];
      lastReport, isCancelled, activeRun := None, false, None;
      ResetDestinations();
      ok := true;
    }

    method UpdateDestination(req: DestinationUpdate) returns (ok: bool)
      modifies this
      ensures View() == WithDestination(old(View()), req) && ok == DestinationAccepted(old(View()), req)
      ensures ok <==>
                && !old(status).Active()
                && (config.cliFolder != "" && req.folder.Some? ==> req.folder == Some(FolderCli))
                && (config.cliFolder != "" && req.path.Some? ==>
                      config.Resolve(req.path.value) == config.Resolve(config.cliFolder))
      ensures ok && config.cliFolder != "" && req.path.Some? ==> path == config.Resolve(config.cliFolder)
      ensures folder == (if ok && req.folder.Some? then req.folder.value else old(folder))
              && path == (if ok && req.path.Some? then config.Resolve(req.path.value) else old(path))
              && https == (if ok && req.source.Some? then req.source.value else old(https))
              && customUrl == (if ok && req.url.Some? then req.url else old(customUrl))
      ensures status == old(status) && playbook == old(playbook) && errors == old(errors)
              && activeRun == old(activeRun) && cancelTarget == old(cancelTarget)
              && isCancelled == old(isCancelled) && lastReport == old(lastReport)
      ensures Marked(old(View())) ==> Marked(View())
    {
      hide Config.Resolve;
      if status == RunningElevating || status == RunningPlain || status == RunningCancelling || status == Submitting {
        return false;
      }
      if config.cliFolder != "" {
        if req.folder.Some? && req.folder.value != FolderCli {
          return false;
        }
        if req.path.Some? && config.Resolve(req.path.value) != config.Resolve(config.cliFolder) {
          return false;
        }
      }
      if req.folder.Some? {
        folder := req.folder.value;
      }
      if req.path.Some? {
        path := config.Resolve(req.path.value);
      }
      if req.source.Some? {
        https := req.source.value;
      }
      if req.url.Some? {
        customUrl := req.url;
      }
      ok := true;
    }

    /** handleRun up to the launch of the goroutine. */
    method StartRun(run: nat) returns (outcome: StartOutcome)
      modifies this
      ensures outcome == StartOutcomeOf(old(View())) && View() == WithRun(old(View()), run)
      ensures outcome.NoPlaybook? <==> old(playbook).None?
      ensures outcome.Invalid? <==> old(playbook).Some? && ValidationFailed in old(errors)
      ensures outcome.Conflict? <==> old(playbook).Some? && ValidationFailed !in old(errors) && old(status).Active()
      ensures !outcome.Started? ==> View() == old(View())
      ensures outcome.Started? ==>
                && playbook == Some(outcome.playbook) == old(playbook)
                && cancelTarget == Some(run) && activeRun == Some(run)
                && !isCancelled && lastReport == None && errors == []
                && (status.RunningElevating? || status.RunningPlain?)
                && (status.RunningElevating? <==> RequiresElevation(outcome.playbook))
                && folder == old(folder) && path == old(path) && https == old(https) && customUrl == old(customUrl)
      ensures Marked(old(View())) ==> Marked(View())
    {
      hide RequiresElevation;
      if playbook.None? {
        return NoPlaybook;
      }
      for i := 0 to |errors|
        invariant ValidationFailed !in errors[..i]
      {
        if errors[i] == ValidationFailed {
          return Invalid;
        }
      }
      assert errors[..|errors|] == errors;
      if status == RunningPlain || status == RunningElevating || status == RunningCancelling || status == Submitting {
        return Conflict;
      }
      activeRun, cancelTarget := Some(run), Some(run);
      isCancelled, lastReport, errors := false, None, [];
      if RequiresElevation(playbook.value) {
        status := RunningElevating;
      } else {
        status := RunningPlain;
      }
      outcome := Started(playbook.value);
    }

    method ElevationDone(ok: bool)
      modifies this
      ensures View() == WithElevation(old(View()), ok)
      ensures status == if !ok then Loaded else if old(status).RunningElevating? then RunningPlain else old(status)
      ensures errors == old(errors) + if ok then [] else [ElevationFailed]
      ensures playbook == old(playbook) && activeRun == old(activeRun) && cancelTarget == old(cancelTarget)
              && isCancelled == old(isCancelled) && lastReport == old(lastReport)
      ensures Marked(old(View())) ==> Marked(View())
    {
      if !ok {
        status := Loaded;
        errors := errors + [ElevationFailed];
      } else if status == RunningElevating {
        status := RunningPlain;
      }
    }

    /** The final critical section of the run goroutine. */
    method FinishRun(run: nat, p: Playbook, cancelled: bool, writeFails: bool)
      modifies this
      ensures View() == WithReport(old(View()), run, p, cancelled, writeFails)
      ensures lastReport == Some(RunReport(run, cancelled)) && isCancelled == (cancelled || old(isCancelled))
      ensures status == if cancelled then Loaded
                        else if (old(https) == FromPlaybook && p.https.Some?)
                                || (old(https) == Custom && old(customUrl).Some? && old(customUrl) != Some(""))
                        then ConfirmingSubmission else Completed
      ensures errors == old(errors) + if cancelled then [ExecutionAborted]
                                      else if writeFails && old(folder) != FolderOff then [FolderWriteFailed]
                                      else []
      ensures playbook == old(playbook) && activeRun == old(activeRun) && cancelTarget == old(cancelTarget)
              && folder == old(folder) && path == old(path) && https == old(https) && customUrl == old(customUrl)
      ensures Marked(old(View())) ==> Marked(View())
    {
      lastReport := Some(RunReport(run, cancelled));
      if cancelled {
        isCancelled, status := true, Loaded;
        errors := errors + [ExecutionAborted];
        return;
      }
      if folder != FolderOff {
        if writeFails {
          errors := errors + [FolderWriteFailed];
        }
      }
      var hasHttps := (https == FromPlaybook && p.https.Some?)
                      || (https == Custom && customUrl.Some? && customUrl.value != "");
      if hasHttps {
        status := ConfirmingSubmission;
      } else {
        status := Completed;
      }
    }

    /** handleCancel: the run whose context the handler goes on to cancel, if any. */
    method RequestCancel() returns (target: Option<nat>)
      modifies this
      ensures View() == WithCancel(old(View()))
      ensures status == if old(status).RunningPlain? || old(status).RunningElevating? then RunningCancelling
                        else old(status)
      ensures old(status).RunningPlain? || old(status).RunningElevating? ==> target == old(cancelTarget)
      ensures !(old(status).RunningPlain? || old(status).RunningElevating?) ==> target == None
      ensures cancelTarget == old(cancelTarget) && errors == old(errors) && isCancelled == old(isCancelled)
              && lastReport == old(lastReport) && playbook == old(playbook) && activeRun == old(activeRun)
      ensures target == if CanCancel(old(View())) then old(View()).cancelTarget else None
      ensures Marked(old(View())) ==> Marked(View())
    {
      target := None;
      if status != RunningPlain && status != RunningElevating && status != RunningCancelling {
        return;
      }
      if status == RunningCancelling {
        return;
      }
      status := RunningCancelling;
      target := cancelTarget;
    }

    /** The gate of handleReportRemoteSubmit: the report the handler goes on to send, if any. */
    method StartSubmit() returns (report: Option<RunReport>)
      modifies this
      ensures report == SubmitReport(old(View())) && View() == WithSubmission(old(View()))
      ensures Marked(old(View())) ==> Marked(View())
      ensures report.Some? && Marked(old(View())) ==> !report.value.aborted
      ensures report.Some? <==>
                && !old(status).Active() && !isCancelled && lastReport.Some?
                && ((https.Custom? && customUrl.Some? && customUrl.value != "")
                    || (https.FromPlaybook? && playbook.Some? && playbook.value.https.Some?
                        && playbook.value.https.value.url != ""))
      ensures report.Some? ==> report == lastReport && status == Submitting
      ensures report.None? ==> status == old(status)
      ensures lastReport == old(lastReport) && errors == old(errors) && isCancelled == old(isCancelled)
              && playbook == old(playbook) && https == old(https) && customUrl == old(customUrl)
    {
      report := None;
      if status == RunningPlain || status == RunningElevating || status == RunningCancelling || status == Submitting {
        return;
      }
      if lastReport.None? || isCancelled {
        return;
      }
      var url := "";
      if https == Custom && customUrl.Some? {
        url := customUrl.value;
      } else if https == FromPlaybook && playbook.Some? && playbook.value.https.Some? {
        url := playbook.value.https.value.url;
      }
      if url == "" {
        return;
      }
      report := lastReport;
      status := Submitting;
    }

    method FinishSubmit(failed: bool)
      modifies this
      ensures View() == WithSubmitted(old(View()), failed)
      ensures status == if failed then SubmissionError else Submitted
      ensures failed ==> errors == old(errors) + [SubmissionFailed]
      ensures !failed ==> errors == WithoutSubmissionErrors(old(errors))
      ensures lastReport == old(lastReport) && isCancelled == old(isCancelled) && playbook == old(playbook)
              && cancelTarget == old(cancelTarget) && activeRun == old(activeRun)
      ensures Marked(old(View())) ==> Marked(View())
    {
      if failed {
        status := SubmissionError;
        errors := errors + [SubmissionFailed];
        return;
      }
      status := Submitted;
      var remaining := [];
      for i := 0 to |errors|
        invariant remaining == WithoutSubmissionErrors(errors[..i])
      {
        assert errors[..i + 1][..i] == errors[..i];
        if errors[i] != SubmissionFailed && errors[i] != SubmissionTimeout {
          remaining := remaining + [errors[i]];
        }
      }
      assert errors[..|errors|] == errors;
      errors := remaining;
    }
  }
}
