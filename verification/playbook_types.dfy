/** playbook/playbook_types.go: the playbook and the score getters. */
module PlaybookTypes {
  import opened Text

  datatype GatherSpec = GatherSpec(
    key: string, excludeFromReport: bool, regex: string, includeStdErr: Option<bool>,
    code: string, codeFile: string)

  datatype Exec = Exec(
    shell: string, shellFunc: string, shellFuncFile: string,
    script: string, scriptFileExtension: string,
    code: string, codeFile: string,
    gather: seq<GatherSpec>, excludeFromReport: bool, requireElevation: bool)

  datatype EvaluationRule = EvaluationRule(
    regex: string, includeStdErr: Option<bool>, code: string, codeFile: string)
  {
    /** Whether the director consults the rule at all. */
    predicate IsSet() { regex != "" || code != "" }
  }

  datatype ExitCodeRule = ExitCodeRule(min: Option<int>, max: Option<int>, result: int)
  {
    predicate Matches(exitCode: int) {
      (min.Some? ==> min.value <= exitCode) && (max.Some? ==> exitCode <= max.value)
    }
  }

  datatype Cmd = Cmd(
    exec: Exec, passScore: Option<int>, failScore: Option<int>,
    stdOutRule: EvaluationRule, stdErrRule: EvaluationRule, exitCodeRules: seq<ExitCodeRule>)
  {
    function GetPassScore(): int { if passScore.None? then 1 else passScore.value }
    function GetFailScore(): int { if failScore.None? then -1 else failScore.value }
  }

  datatype Assertion = Assertion(
    code: string, title: string, description: string,
    preCmds: seq<Exec>, cmds: seq<Cmd>, postCmds: seq<Exec>,
    minPassingScore: Option<int>, passDescription: string, failDescription: string)
  {
    function GetMinPassingScore(): int {
      if minPassingScore.Some? then minPassingScore.value
      else if PassScores(cmds) == 0 then 1
      else PassScores(cmds)
    }
  }

  datatype Section = Section(title: string, description: seq<string>, assertions: seq<Assertion>)

  datatype HttpsConfig = HttpsConfig(
    url: string, format: string, signatureSecret: string, additionalHeaders: map<string, string>)

  datatype Playbook = Playbook(
    title: string, frontmatter: Option<map<string, string>>, sections: seq<Section>,
    reportDestination: string, reportDestinationFolder: string, https: Option<HttpsConfig>)

  /** The sum of the pass scores of a list of commands. */
  function PassScores(cmds: seq<Cmd>): int {
    if cmds == [] then 0
    else PassScores(cmds[..|cmds| - 1]) + cmds[|cmds| - 1].GetPassScore()
  }

  /** The accumulating loop of Assertion.GetMinPassingScore. */
  method MinPassingScore(a: Assertion) returns (score: int)
    ensures score == a.GetMinPassingScore()
    ensures a.minPassingScore.Some? ==> score == a.minPassingScore.value
    ensures a.minPassingScore.None? ==> score == if PassScores(a.cmds) != 0 then PassScores(a.cmds) else 1
  {
    if a.minPassingScore.Some? {
      return a.minPassingScore.value;
    }
    var sum := 0;
    for i := 0 to |a.cmds|
      invariant sum == PassScores(a.cmds[..i])
    {
      assert a.cmds[..i + 1][..i] == a.cmds[..i];
      sum := sum + a.cmds[i].GetPassScore();
    }
    assert a.cmds[..|a.cmds|] == a.cmds;
    return if sum == 0 then 1 else sum;
  }
}
