/** Playbooks loaded in the builder's mode: which of them start although an agent would reject them. */
module BuilderLoads {
  import opened Text
  import opened PlaybookTypes
  import opened Validator
  import opened Preprocess
  import opened Baking
  import opened AgentReferences
  import opened StateManagement
  import opened Lifecycle
  import opened Server
  import opened ServerSafety

  /** A load in the builder's mode starts a playbook that an agent rejects exactly when the builder finds
      nothing and a reference is left where an agent looks. */
  lemma BuilderOnlyExactly(s: System, p: Playbook)
    requires s.loads > 0
    ensures StartOutcomeOf(Apply(s, LandPlaybook(p, false)).sm).Started? && PlaybookErrors(p, true) != []
            <==> PlaybookErrors(p, false) == [] && !AllSeenClear(p)
  {
    hide PlaybookErrors, AllSeenClear, Apply;
    LoadedStartsExactly(s, p, false);
    AgentAcceptsExactly(p);
  }

  // ---------------------------------------------------------------- the smallest examples

  const NO_RULE := EvaluationRule("", None, "", "")

  function ScriptFrom(file: string, gather: seq<GatherSpec>): Exec {
    Exec("", "", "", "", "", "", file, gather, false, false)
  }

  function OneAssertion(pre: seq<Exec>, main: Exec): Playbook {
    var a := Assertion("A", "abc", "abc", pre, [Cmd(main, None, None, NO_RULE, NO_RULE, [])], [], None, "", "");
    Playbook("abc", None, [Section("abc", [], [a])], "", "", None)
  }

  /** One command whose script is a file. */
  const UNBAKED := OneAssertion([], ScriptFrom("check.ts", []))

  /** One pre-command whose gather script is a file. */
  const HALF_BAKED := OneAssertion([ScriptFrom("", [GatherSpec("k", false, "", None, "", "gather.ts")])],
                                   ScriptFrom("", []))

  lemma TitleFine()
    ensures forall path :: TitleErrors("abc", path) == []
    ensures !IsBlank("A")
  {
    assert TrimLeft("abc") == "abc" && TrimRight("abc") == "abc";
    assert ByteLen("") == 0;
    assert "abc"[1..] == "bc" && "bc"[1..] == "c" && "c"[1..] == "";
    assert ByteLen("c") == 1 && ByteLen("bc") == 2 && ByteLen("abc") == 3;
    assert TrimLeft("A") == "A" && TrimRight("A") == "A";
  }

  lemma OneAssertionFine(pre: seq<Exec>, main: Exec)
    ensures PlaybookErrors(OneAssertion(pre, main), false) == []
  {
    hide TitleErrors, IsBlank;
    var p := OneAssertion(pre, main);
    var s := p.sections[0];
    TitleFine();
    assert AssertionListErrors(s, 0, map[], false, 0) == [];
    assert AssertionListErrors(s, 0, map[], false, 1) == [];
    assert SectionListErrors(p, false, 0) == [];
    assert SectionListErrors(p, false, 1) == [];
  }

  /** The builder's server runs a playbook that an agent rejects. */
  lemma BuilderRunsWhatAgentsReject(config: Config)
    ensures PlaybookErrors(UNBAKED, false) == [] && PlaybookErrors(UNBAKED, true) != []
    ensures var s := After(Start(config, false), [CheckLoad, LandPlaybook(UNBAKED, false), BeginRun]);
            Flies(s, RunFlight(0)) && s.runs[0].playbook == UNBAKED
  {
    hide PlaybookErrors, After, Flies;
    var s0, land := Start(config, false), LandPlaybook(UNBAKED, false);
    OneAssertionFine([], ScriptFrom("check.ts", []));
    AgentAcceptsExactly(UNBAKED);
    LeftWhereSeen();
    SafeAtStart(config, false);
    AfterStep(s0, [], CheckLoad);
    AfterStep(s0, [] + [CheckLoad], land);
    AfterStep(s0, [] + [CheckLoad] + [land], BeginRun);
    assert [] + [CheckLoad] + [land] + [BeginRun] == [CheckLoad, land, BeginRun];
    LoadedRuns(s0, UNBAKED);
  }

  lemma LeftWhereSeen()
    ensures !AllSeenClear(UNBAKED)
  {
    assert !ExecClear(UNBAKED.sections[0].assertions[0].cmds[0].exec);
    assert !SeenClear(UNBAKED.sections[0].assertions[0]);
  }

  lemma LoadedRuns(s: System, p: Playbook)
    requires s.sm.status.Idle? && s.loads == 0 && s.runs == [] && PlaybookErrors(p, false) == []
    ensures var t := Apply(Apply(Apply(s, CheckLoad), LandPlaybook(p, false)), BeginRun);
            Flies(t, RunFlight(0)) && t.runs[0].playbook == p
  {
    hide PlaybookErrors, RequiresElevation;
  }

  /** An agent accepts a playbook in which a file reference remains that baking would have replaced. */
  lemma AgentAcceptsHalfBaked()
    ensures PlaybookErrors(HALF_BAKED, true) == [] && !Unreferenced(Slots(HALF_BAKED))
  {
    hide PlaybookErrors, Unreferenced;
    var pre, main := [ScriptFrom("", [GatherSpec("k", false, "", None, "", "gather.ts")])], ScriptFrom("", []);
    OneAssertionFine(pre, main);
    assert SeenClear(HALF_BAKED.sections[0].assertions[0]);
    assert AllSeenClear(HALF_BAKED);
    AgentAcceptsExactly(HALF_BAKED);
    AcceptedIsBakedExactly(HALF_BAKED);
    assert HALF_BAKED.sections[0].assertions[0].preCmds[0].gather[0].codeFile == "gather.ts";
    assert !GathersClear(HALF_BAKED.sections[0].assertions[0].preCmds[0]);
    assert !HiddenClear(HALF_BAKED.sections[0].assertions[0]);
  }
}
