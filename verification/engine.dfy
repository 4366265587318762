/** director/director.go: RunWithObserver and unwindRemaining as the loops they are, proved to compute
    the run that module Director describes. */
module Engine {
  import opened Text
  import opened PlaybookTypes
  import opened Executor
  import opened Report
  import opened Director

  /** The context, the clock and the executor a run is given. */
  class Environment {
    const world: World
    var polls: nat
    var ticks: nat

    constructor (w: World)
      ensures world == w && polls == 0 && ticks == 0
    {
      world := w;
      polls, ticks := 0, 0;
    }

    /** ctx.Err() != nil */
    method Err() returns (cancelled: bool)
      modifies this
      ensures cancelled == world.CancelledAt(old(polls))
      ensures polls == old(polls) + 1 && ticks == old(ticks)
    {
      cancelled := world.cancelAt.Some? && world.cancelAt.value <= polls;
      polls := polls + 1;
    }

    method Now() returns (t: Time)
      modifies this
      ensures t == world.Now(old(ticks))
      ensures ticks == old(ticks) + 1 && polls == old(polls)
    {
      t := Some(world.clock(ticks));
      ticks := ticks + 1;
    }
  }

  class Observer {
    var events: seq<Event>

    constructor ()
      ensures events == []
    {
      events := [];
    }

    method Emit(e: Event)
      modifies this
      ensures events == old(events) + [e]
    {
      events := events + [e];
    }
  }

  ghost predicate At(env: Environment, ob: Observer, polls: nat, ticks: nat, events: seq<Event>)
    reads env, ob
  {
    env.polls == polls && env.ticks == ticks && ob.events == events
  }

  // ---------------------------------------------------------------- verdicts

  method EvaluateExitCode(rules: seq<ExitCodeRule>, exitCode: int) returns (result: int)
    ensures result == ExitVerdict(rules, exitCode)
    ensures || (exists i :: 0 <= i < |rules| && Holds(rules[i], exitCode) && result == rules[i].result
                            && forall h :: 0 <= h < i ==> !Holds(rules[h], exitCode))
            || ((forall i :: 0 <= i < |rules| ==> !Holds(rules[i], exitCode))
                && result == if exitCode == 0 then 1 else -1)
  {
    var i := 0;
    while i < |rules|
      invariant i <= |rules| && FirstMatch(rules, exitCode) == FirstMatch(rules[i..], exitCode)
      invariant forall h :: 0 <= h < i ==> !Holds(rules[h], exitCode)
    {
      var match_ := true;
      if rules[i].min.Some? && exitCode < rules[i].min.value {
        match_ := false;
      }
      if rules[i].max.Some? && exitCode > rules[i].max.value {
        match_ := false;
      }
      if match_ {
        return rules[i].result;
      }
      i := i + 1;
    }
    result := if exitCode == 0 then 1 else -1;
  }

  method Evaluate(c: Cmd, r: Reply) returns (result: int)
    ensures result == Verdict(c, r)
    ensures var rules, x := c.exitCodeRules, r.result.exitCode;
            if (c.stdErrRule.regex != "" || c.stdErrRule.code != "") && r.errVerdict != 0 then result == r.errVerdict
            else if (c.stdOutRule.regex != "" || c.stdOutRule.code != "") && r.outVerdict != 0 then
              result == r.outVerdict
            else
              || (exists i :: 0 <= i < |rules| && Holds(rules[i], x) && result == rules[i].result
                              && forall h :: 0 <= h < i ==> !Holds(rules[h], x))
              || ((forall i :: 0 <= i < |rules| ==> !Holds(rules[i], x)) && result == if x == 0 then 1 else -1)
  {
    result := EvaluateExitCode(c.exitCodeRules, r.result.exitCode);
    if c.stdOutRule.regex != "" || c.stdOutRule.code != "" {
      if r.outVerdict != 0 {
        result := r.outVerdict;
      }
    }
    if c.stdErrRule.regex != "" || c.stdErrRule.code != "" {
      if r.errVerdict != 0 {
        result := r.errVerdict;
      }
    }
  }

  // ---------------------------------------------------------------- excluded keys

  method CollectHidden(gs: seq<GatherSpec>, keys0: set<string>) returns (keys: set<string>)
    ensures keys == keys0 + set g | g in gs && g.excludeFromReport :: g.key
  {
    keys := keys0;
    for i := 0 to |gs|
      invariant keys == keys0 + set g | g in gs[..i] && g.excludeFromReport :: g.key
    {
      assert gs[..i + 1] == gs[..i] + [gs[i]];
      if gs[i].excludeFromReport {
        keys := keys + {gs[i].key};
      }
    }
    assert gs[..|gs|] == gs;
  }

  method CollectExecs(es: seq<Exec>, keys0: set<string>) returns (keys: set<string>)
    ensures keys == keys0 + ExecsHidden(es)
  {
    keys := keys0;
    for i := 0 to |es|
      invariant keys == keys0 + ExecsHidden(es[..i])
    {
      assert es[..i + 1] == es[..i] + [es[i]];
      keys := CollectHidden(es[i].gather, keys);
    }
    assert es[..|es|] == es;
  }

  method CollectCmds(cs: seq<Cmd>, keys0: set<string>) returns (keys: set<string>)
    ensures keys == keys0 + CmdsHidden(cs)
  {
    keys := keys0;
    for i := 0 to |cs|
      invariant keys == keys0 + CmdsHidden(cs[..i])
    {
      assert cs[..i + 1] == cs[..i] + [cs[i]];
      keys := CollectHidden(cs[i].exec.gather, keys);
    }
    assert cs[..|cs|] == cs;
  }

  method VisibleContext(a: Assertion, context: map<string, string>) returns (shown: map<string, string>)
    ensures shown == Visible(context, ExcludedKeys(a))
    ensures forall k :: k in shown <==>
              && k in context
              && (forall e, g :: e in a.preCmds && g in e.gather && g.excludeFromReport ==> g.key != k)
              && (forall c, g :: c in a.cmds && g in c.exec.gather && g.excludeFromReport ==> g.key != k)
              && (forall e, g :: e in a.postCmds && g in e.gather && g.excludeFromReport ==> g.key != k)
    ensures forall k :: k in shown ==> shown[k] == context[k]
  {
    hide ExecsHidden, CmdsHidden, Excluded;
    var hidden := CollectExecs(a.preCmds, {});
    hidden := CollectCmds(a.cmds, hidden);
    hidden := CollectExecs(a.postCmds, hidden);
    shown := map[];
    var todo := context.Keys;
    while todo != {}
      invariant todo <= context.Keys
      invariant shown == map k | k in context && k !in todo && k !in hidden :: context[k]
    {
      var k :| k in todo;
      todo := todo - {k};
      if k !in hidden {
        shown := shown[k := context[k]];
      }
    }
    assert hidden == ExcludedKeys(a);
    ShownKeys(a, context);
  }

  // ---------------------------------------------------------------- the three command loops

  /** The pre- or post-command loop. */
  method RunSide(env: Environment, ob: Observer, s: nat, j: nat, phase: Phase, es: seq<Exec>, code: string,
                 context0: map<string, string>, ghost f: Frame)
    returns (context: map<string, string>, logs: seq<CommandLog>, cancelled: bool)
    requires At(env, ob, f.polls, f.ticks, f.events) && context0 == f.context && !f.cancelled && f.logs == []
    modifies env, ob
    ensures var g := SideAfter(env.world, s, j, phase, es, code, f, |es|);
            && At(env, ob, g.polls, g.ticks, g.events)
            && context == g.context && logs == g.logs && cancelled == g.cancelled
            && g.score == f.score && g.outputs == f.outputs
  {
    context, logs, cancelled := context0, [], false;
    ghost var g := f;
    for k := 0 to |es|
      invariant g == SideAfter(env.world, s, j, phase, es, code, f, k) && !g.cancelled && !cancelled
      invariant At(env, ob, g.polls, g.ticks, g.events) && context == g.context && logs == g.logs
      invariant g.score == f.score && g.outputs == f.outputs
    {
      g := SideStep(env.world, Site(s, j, phase, k), es[k], code, g);
      var stop := env.Err();
      if stop {
        cancelled := true;
        SideStays(env.world, s, j, phase, es, code, f, k + 1, |es|);
        return;
      }
      var start := env.Now();
      var r := env.world.replies(Site(s, j, phase, k));
      var end := env.Now();
      context := r.context;
      if r.err.Some? {
        ob.Emit(CommandWarning(phase, code, r.err.value));
      }
      logs := logs + [CommandLog(es[k], if r.err.Some? then CommandFailed else CommandCompleted, start, end,
                                 r.result, r.err)];
    }
  }

  lemma {:induction false} SideStays(w: World, s: nat, j: nat, phase: Phase, es: seq<Exec>, code: string, f: Frame,
                                     k: nat, n: nat)
    requires k <= n <= |es| && SideAfter(w, s, j, phase, es, code, f, k).cancelled
    ensures SideAfter(w, s, j, phase, es, code, f, n) == SideAfter(w, s, j, phase, es, code, f, k)
    decreases n
  {
    hide SideStep;
    if k < n {
      SideStays(w, s, j, phase, es, code, f, k, n - 1);
    }
  }

  lemma {:induction false} MainStays(w: World, s: nat, j: nat, cs: seq<Cmd>, f: Frame, k: nat, n: nat)
    requires k <= n <= |cs| && MainAfter(w, s, j, cs, f, k).cancelled
    ensures MainAfter(w, s, j, cs, f, n) == MainAfter(w, s, j, cs, f, k)
    decreases n
  {
    hide MainStep;
    if k < n {
      MainStays(w, s, j, cs, f, k, n - 1);
    }
  }

  method RunMain(env: Environment, ob: Observer, s: nat, j: nat, cs: seq<Cmd>,
                 context0: map<string, string>, ghost f: Frame)
    returns (context: map<string, string>, logs: seq<CommandLog>, cancelled: bool, score: int, outputs: seq<string>)
    requires At(env, ob, f.polls, f.ticks, f.events) && context0 == f.context && !f.cancelled && f.logs == []
    requires f.score == 0 && f.outputs == []
    modifies env, ob
    ensures var g := MainAfter(env.world, s, j, cs, f, |cs|);
            && At(env, ob, g.polls, g.ticks, g.events)
            && context == g.context && logs == g.logs && cancelled == g.cancelled
            && score == g.score && outputs == g.outputs
  {
    hide Verdict, ExitVerdict, CmdOutputs, Holds, World.Now, World.CancelledAt;
    context, logs, cancelled, score, outputs := context0, [], false, 0, [];
    ghost var g := f;
    for k := 0 to |cs|
      invariant g == MainAfter(env.world, s, j, cs, f, k) && !g.cancelled && !cancelled
      invariant At(env, ob, g.polls, g.ticks, g.events) && context == g.context && logs == g.logs
      invariant score == g.score && outputs == g.outputs
    {
      var c := cs[k];
      g := MainStep(env.world, Site(s, j, MainCmd, k), c, g);
      var stop := env.Err();
      if stop {
        cancelled := true;
        MainStays(env.world, s, j, cs, f, k + 1, |cs|);
        return;
      }
      var start := env.Now();
      var r := env.world.replies(Site(s, j, MainCmd, k));
      var end := env.Now();
      context := r.context;
      if r.err.Some? {
        score := score + c.GetFailScore();
        logs := logs + [CommandLog(c.exec, CommandFailed, start, end, r.result, r.err)];
        continue;
      }
      logs := logs + [CommandLog(c.exec, CommandCompleted, start, end, r.result, r.err)];
      outputs := AppendOutputs(outputs, c, r.result);
      var result := Evaluate(c, r);
      if result == 1 {
        score := score + c.GetPassScore();
      } else if result == -1 {
        score := score + c.GetFailScore();
      }
    }
  }

  method AppendOutputs(outputs0: seq<string>, c: Cmd, res: ExecutionResult) returns (outputs: seq<string>)
    ensures outputs == outputs0 + CmdOutputs(c, res)
    ensures c.exec.excludeFromReport ==> outputs == outputs0 + [REDACTED]
    ensures !c.exec.excludeFromReport ==>
              && (res.stderr == "" ==> outputs == outputs0 + [res.stdout])
              && (res.stderr != "" && res.stdout == "" ==> outputs == outputs0 + [STDERR_MARK, res.stderr])
              && (res.stderr != "" && res.stdout != "" ==>
                    outputs == outputs0 + [STDOUT_MARK, res.stdout, STDERR_MARK, res.stderr])
  {
    outputs := outputs0;
    if c.exec.excludeFromReport {
      outputs := outputs + [REDACTED];
    } else if res.stderr != "" {
      if |res.stdout| > 0 {
        outputs := outputs + [STDOUT_MARK];
        outputs := outputs + [res.stdout];
      }
      outputs := outputs + [STDERR_MARK];
      outputs := outputs + [res.stderr];
    } else {
      outputs := outputs + [res.stdout];
    }
  }

  // ---------------------------------------------------------------- one assertion

  /** The body of the inner loop for the assertion at (s, j), after the poll that let it start. */
  method RunAssertion(env: Environment, ob: Observer, s: nat, j: nat, a: Assertion, total: nat,
                      sections0: seq<SectionContext>, ghost t: RunState)
    returns (sections: seq<SectionContext>, cancelled: bool, passed: bool)
    requires At(env, ob, t.polls, t.ticks, t.events) && sections0 == t.sections && t.sections != [] && t.halt.None?
    modifies env, ob
    ensures var u := Execute(env.world, s, j, a, total, t);
            && At(env, ob, u.polls, u.ticks, u.events) && sections == u.sections
            && cancelled == u.halt.Some? && (cancelled ==> u.halt == Some((s, j + 1)))
            && u.passed == t.passed + (if !cancelled && passed then 1 else 0)
            && u.failed == t.failed + (if !cancelled && !passed then 1 else 0)
  {
    hide SideAfter, MainAfter, SideStep, MainStep, Visible, ExcludedKeys;
    ob.Emit(AssertionStart(a.code, j + 1, total, a.GetMinPassingScore()));
    var start := env.Now();
    ghost var f := StartFrame(a, j, total, t.polls, t.ticks, t.events);
    ghost var pre := PreFrame(env.world, s, j, a, f);
    ghost var main := MainFrame(env.world, s, j, a, pre);
    ghost var post := PostFrame(env.world, s, j, a, main);
    var context, preLogs;
    context, preLogs, cancelled := RunSide(env, ob, s, j, PreCmd, a.preCmds, a.code, map[], f);
    var cmdLogs, postLogs, score, outputs := [], [], 0, [];
    if !cancelled {
      context, cmdLogs, cancelled, score, outputs := RunMain(env, ob, s, j, a.cmds, context, pre.(logs := []));
    }
    if !cancelled {
      context, postLogs, cancelled := RunSide(env, ob, s, j, PostCmd, a.postCmds, a.code, context, main.(logs := []));
    }
    var min := MinPassingScore(a);
    if cancelled {
      var end := env.Now();
      var c := AssertionContext(a, Cancelled, start, end, false, 0, 0, map[], preLogs, cmdLogs, postLogs, outputs);
      sections := AppendLast(sections0, c);
      passed := false;
      ob.Emit(AssertionComplete(ProgressResult(a.code, Cancelled, false, score, min, Millis(start, end),
          Join(outputs, "\n"))));
      return;
    }
    passed := score >= min;
    var status := if passed then Passed else Failed;
    var end := env.Now();
    var shown := VisibleContext(a, context);
    ob.Emit(AssertionComplete(ProgressResult(a.code, status, passed, score, min, Millis(start, end),
        Join(outputs, "\n"))));
    sections := AppendLast(
      sections0,
      AssertionContext(a, status, start, end, passed, score, min, shown, preLogs, cmdLogs, postLogs, outputs));
  }

  // ---------------------------------------------------------------- the outer loops

  method UnwindRemaining(env: Environment, ob: Observer, pb: Playbook, from: nat, next: nat, runId: string,
                         sections0: seq<SectionContext>, start: Time, ghost t: RunState)
    returns (trace: ExecutionTrace)
    requires from < |pb.sections| && next <= |pb.sections[from].assertions|
    requires from <= |t.sections| <= from + 1 && sections0 == t.sections
    requires At(env, ob, t.polls, t.ticks, t.events)
    modifies env, ob
    ensures var u := UnwindAfter(pb, from, next, t, |pb.sections|);
            && trace == ExecutionTrace(pb, u.sections, start, env.world.Now(u.ticks), 0, 0)
            && ob.events == u.events + [RunCancelled(runId, trace)]
  {
    hide UnwindOne;
    var sections := sections0;
    ghost var u := t;
    for i := from to |pb.sections|
      invariant u == UnwindAfter(pb, from, next, t, i)
      invariant u.polls == t.polls && u.ticks == t.ticks
      invariant At(env, ob, u.polls, u.ticks, u.events) && sections == u.sections
    {
      var s := pb.sections[i];
      if i >= |sections| {
        sections := sections + [SectionContext(s, [])];
      }
      ghost var r := Reach(s, i, u);
      var first := if i == from then next else 0;
      u := r;
      for k := first to |s.assertions|
        invariant u == UnwindList(s, first, r, k)
        invariant u.polls == t.polls && u.ticks == t.ticks
        invariant At(env, ob, u.polls, u.ticks, u.events) && sections == u.sections
      {
        ghost var before := u;
        u := UnwindOne(s.assertions[k], u);
        UnwindOneIs(s.assertions[k], before);
        sections := AppendLast(sections, Unrun(s.assertions[k]));
        ob.Emit(Announce(Unrun(s.assertions[k]), 0));
      }
    }
    var end := env.Now();
    trace := ExecutionTrace(pb, sections, start, end, 0, 0);
    ob.Emit(RunCancelled(runId, trace));
  }

  lemma UnwindOneIs(a: Assertion, t: RunState)
    requires t.sections != []
    ensures var u := UnwindOne(a, t);
            && u.polls == t.polls && u.ticks == t.ticks
            && u.sections == AppendLast(t.sections, Unrun(a))
            && u.events == t.events + [Announce(Unrun(a), 0)]
  {
  }

  /** Where the engine stands between two assertions or two sections. */
  ghost predicate Stands(env: Environment, ob: Observer, sections: seq<SectionContext>, passed: nat, failed: nat,
                         t: RunState)
    reads env, ob
  {
    && At(env, ob, t.polls, t.ticks, t.events) && sections == t.sections
    && passed == t.passed && failed == t.failed
  }

  /** The assertion loop of section s; `halted` is where unwinding has to begin. */
  method RunSection(env: Environment, ob: Observer, pb: Playbook, s: nat, sections0: seq<SectionContext>,
                    passed0: nat, failed0: nat, ghost t: RunState)
    returns (sections: seq<SectionContext>, passed: nat, failed: nat, halted: Option<(nat, nat)>)
    requires s < |pb.sections| && t.sections != [] && t.halt.None?
    requires Stands(env, ob, sections0, passed0, failed0, t)
    modifies env, ob
    ensures var u := AssertionsAfter(env.world, pb, s, t, |pb.sections[s].assertions|);
            Stands(env, ob, sections, passed, failed, u) && halted == u.halt
  {
    hide Execute;
    var section := pb.sections[s];
    sections, passed, failed, halted := sections0, passed0, failed0, None;
    ghost var u := t;
    for j := 0 to |section.assertions|
      invariant u == AssertionsAfter(env.world, pb, s, t, j) && u.halt.None? && halted.None?
      invariant u.sections != [] && Stands(env, ob, sections, passed, failed, u)
    {
      ghost var polled := u.(polls := u.polls + 1);
      u := AssertionStep(env.world, pb, s, j, u);
      var stop := env.Err();
      if stop {
        halted := Some((s, j));
        HaltStays(env.world, pb, s, t, j + 1, |section.assertions|);
        return;
      }
      var cancelled, ok;
      sections, cancelled, ok :=
        RunAssertion(env, ob, s, j, section.assertions[j], |section.assertions|, sections, polled);
      if cancelled {
        halted := Some((s, j + 1));
        HaltStays(env.world, pb, s, t, j + 1, |section.assertions|);
        return;
      }
      if ok {
        passed := passed + 1;
      } else {
        failed := failed + 1;
      }
    }
  }

  lemma {:induction false} HaltStays(w: World, pb: Playbook, s: nat, t: RunState, k: nat, n: nat)
    requires s < |pb.sections| && k <= n <= |pb.sections[s].assertions| && t.sections != []
    requires AssertionsAfter(w, pb, s, t, k).halt.Some?
    ensures AssertionsAfter(w, pb, s, t, n) == AssertionsAfter(w, pb, s, t, k)
    decreases n
  {
    hide AssertionStep;
    if k < n {
      HaltStays(w, pb, s, t, k, n - 1);
    }
  }

  lemma {:induction false} RunHaltStays(w: World, pb: Playbook, t: RunState, k: nat, n: nat)
    requires k <= n <= |pb.sections| && SectionsAfter(w, pb, t, k).halt.Some?
    ensures SectionsAfter(w, pb, t, n) == SectionsAfter(w, pb, t, k)
    decreases n
  {
    hide SectionStep;
    if k < n {
      RunHaltStays(w, pb, t, k, n - 1);
    }
  }

  lemma OpenSectionIs(pb: Playbook, s: nat, t: RunState)
    requires s < |pb.sections|
    ensures var u := OpenSection(pb, s, t);
            && u.polls == t.polls + 1 && u.ticks == t.ticks
            && u.events == t.events + [SectionStart(pb.sections[s].title, s + 1, |pb.sections|)]
            && u.sections == t.sections + [SectionContext(pb.sections[s], [])]
            && u.passed == t.passed && u.failed == t.failed && u.halt == t.halt
  {
  }

  /** A run that section k - 1 halted is what unwinding makes of it. */
  lemma HaltedRun(w: World, pb: Playbook, runId: string, fmt: Formats, k: nat)
    requires k <= |pb.sections|
    requires SectionsAfter(w, pb, InitialState(runId), k).halt.Some?
    ensures var t := SectionsAfter(w, pb, InitialState(runId), k);
            var (s, j) := t.halt.value;
            HaltInside(pb, t) && s < |pb.sections| &&
            var u := UnwindAfter(pb, s, j, t, |pb.sections|);
            var trace := TraceOf(w, pb, u, 0, 0);
            RunOf(w, pb, runId, fmt) == Run(trace, u.events + [RunCancelled(runId, trace)])
  {
    hide UnwindAfter, SectionsAfter, Generate;
    HaltsInside(w, pb, runId);
    RunHaltStays(w, pb, InitialState(runId), k, |pb.sections|);
  }

  lemma HaltedIn(w: World, pb: Playbook, runId: string, s: nat)
    requires s < |pb.sections| && SectionsAfter(w, pb, InitialState(runId), s).halt.None?
    ensures var u := SectionsAfter(w, pb, InitialState(runId), s);
            var t := SectionsAfter(w, pb, InitialState(runId), s + 1);
            && |u.sections| == s && t == SectionStep(w, pb, s, u)
            && (t.halt.Some? ==> t.halt.value.0 == s)
  {
    hide AssertionsAfter;
    HaltsAfter(w, pb, InitialState(runId), s);
    var u := SectionsAfter(w, pb, InitialState(runId), s);
    if !w.CancelledAt(u.polls) {
      HaltsInSection(w, pb, s, OpenSection(pb, s, u), |pb.sections[s].assertions|);
    }
  }

  method RunWithObserver(env: Environment, ob: Observer, pb: Playbook, runId: string, fmt: Formats)
    returns (trace: ExecutionTrace)
    requires env.polls == 0 && env.ticks == 0 && ob.events == []
    modifies env, ob
    ensures Run(trace, ob.events) == RunOf(env.world, pb, runId, fmt)
  {
    hide AssertionsAfter, UnwindAfter, Generate, OpenSection, RunOf, SectionsAfter;
    var start := env.Now();
    ob.Emit(RunStart(runId));
    var sections: seq<SectionContext>, passed, failed := [], 0, 0;
    ghost var w := env.world;
    ghost var u := InitialState(runId);
    NoSections(w, pb, runId);
    for s := 0 to |pb.sections|
      invariant u == SectionsAfter(w, pb, InitialState(runId), s) && u.halt.None?
      invariant Stands(env, ob, sections, passed, failed, u)
    {
      HaltedIn(w, pb, runId, s);
      OpenSectionIs(pb, s, u);
      ghost var begun := OpenSection(pb, s, u);
      u := SectionStep(w, pb, s, u);
      var stop := env.Err();
      if stop {
        HaltedRun(w, pb, runId, fmt, s + 1);
        trace := UnwindRemaining(env, ob, pb, s, 0, runId, sections, start, u);
        return;
      }
      ob.Emit(SectionStart(pb.sections[s].title, s + 1, |pb.sections|));
      sections := sections + [SectionContext(pb.sections[s], [])];
      var halted;
      sections, passed, failed, halted := RunSection(env, ob, pb, s, sections, passed, failed, begun);
      if halted.Some? {
        HaltedRun(w, pb, runId, fmt, s + 1);
        trace := UnwindRemaining(env, ob, pb, s, halted.value.1, runId, sections, start, u);
        return;
      }
    }
    var end := env.Now();
    trace := ExecutionTrace(pb, sections, start, end, passed, failed);
    var rep, _ := GenerateReport(trace, fmt);
    ob.Emit(RunComplete(trace, rep.structured));
    CompletedRun(w, pb, runId, fmt);
  }

  lemma NoSections(w: World, pb: Playbook, runId: string)
    ensures SectionsAfter(w, pb, InitialState(runId), 0) == InitialState(runId)
  {
  }

  lemma CompletedRun(w: World, pb: Playbook, runId: string, fmt: Formats)
    requires SectionsAfter(w, pb, InitialState(runId), |pb.sections|).halt.None?
    ensures var t := SectionsAfter(w, pb, InitialState(runId), |pb.sections|);
            var trace := TraceOf(w, pb, t, t.passed, t.failed);
            RunOf(w, pb, runId, fmt) == Run(trace, t.events + [RunComplete(trace, Generate(trace, fmt).structured)])
  {
  }
}
