/** playbook/validator.go: the three Validate methods and the code table they share. */
module Validator {
  import opened Text
  import opened PlaybookTypes

  /** The JSON path of a diagnostic, kept structured instead of rendered. */
  datatype Path =
    | PlaybookTitle | Destination | HttpsSettings | HttpsUrl | HttpsFormat | Sections
    | SectionTitle(section: nat)
    | SectionAssertions(section: nat)
    | AssertionCode(section: nat, assertion: nat)
    | PreCmdFile(section: nat, assertion: nat, cmd: nat, shell: bool)
    | CmdExecFile(section: nat, assertion: nat, cmd: nat, shell: bool)
    | RuleFile(section: nat, assertion: nat, cmd: nat, stdErr: bool)
    | GatherFile(section: nat, assertion: nat, cmd: nat, gather: nat)
    | PostCmdFile(section: nat, assertion: nat, cmd: nat, shell: bool)

  datatype Kind =
    | MissingTitle | InvalidTitle | MissingHttpsConfig | MissingUrl | InvalidUrl | InvalidFormat
    | InvalidDestination | EmptySections | EmptyAssertions
    | MissingCode | DuplicateCode | ProhibitedAgentFunc

  /** `cites` is the earlier declaration a duplicate-code message points at. */
  datatype ValidationError = ValidationError(path: Path, kind: Kind, cites: Option<Path>)

  function Err(path: Path, kind: Kind): ValidationError { ValidationError(path, kind, None) }

  /** The map seenCodes, shared by all nested calls of one validation. */
  class CodeTable {
    var paths: map<string, Path>

    constructor ()
      ensures paths == map[]
    {
      paths := map[];
    }
  }

  predicate IsBlank(s: string) { TrimSpace(s) == "" }

  // ---------------------------------------------------------------- what each level reports

  function TitleErrors(title: string, path: Path): seq<ValidationError> {
    if IsBlank(title) then [Err(path, MissingTitle)]
    else if ByteLen(TrimSpace(title)) < 3 then [Err(path, InvalidTitle)]
    else []
  }

  function DestinationErrors(p: Playbook): seq<ValidationError> {
    if p.reportDestination == "https" then
      if p.https.None? then [Err(HttpsSettings, MissingHttpsConfig)]
      else
        var c := p.https.value;
        (if IsBlank(c.url) then [Err(HttpsUrl, MissingUrl)]
         else if !HasPrefix(c.url, "https://") then [Err(HttpsUrl, InvalidUrl)]
         else [])
        + (if c.format != "" && c.format != "multipart" && c.format != "json"
           then [Err(HttpsFormat, InvalidFormat)] else [])
    else if p.reportDestination != "" && p.reportDestination != "folder" then
      [Err(Destination, InvalidDestination)]
    else []
  }

  function FileError(file: string, path: Path): seq<ValidationError> {
    if file != "" then [Err(path, ProhibitedAgentFunc)] else []
  }

  function CodeErrors(code: string, path: Path, seen: map<string, Path>): seq<ValidationError> {
    if IsBlank(code) then [Err(path, MissingCode)]
    else if code in seen then [ValidationError(path, DuplicateCode, Some(seen[code]))]
    else []
  }

  function Record(code: string, path: Path, seen: map<string, Path>): map<string, Path> {
    if IsBlank(code) || code in seen then seen else seen[code := path]
  }

  /** The two file references of one execution: code first, then shell function. */
  function ExecErrors(e: Exec, code: Path, shell: Path): seq<ValidationError> {
    FileError(e.codeFile, code) + FileError(e.shellFuncFile, shell)
  }

  function PreCmdErrors(a: Assertion, i: nat, j: nat, n: nat): seq<ValidationError>
    requires n <= |a.preCmds|
  {
    if n == 0 then []
    else
      PreCmdErrors(a, i, j, n - 1)
      + ExecErrors(a.preCmds[n - 1], PreCmdFile(i, j, n - 1, false), PreCmdFile(i, j, n - 1, true))
  }

  function GatherErrors(g: seq<GatherSpec>, i: nat, j: nat, k: nat, n: nat): seq<ValidationError>
    requires n <= |g|
  {
    if n == 0 then []
    else GatherErrors(g, i, j, k, n - 1) + FileError(g[n - 1].codeFile, GatherFile(i, j, k, n - 1))
  }

  function CmdFileErrors(c: Cmd, i: nat, j: nat, k: nat): seq<ValidationError> {
    ExecErrors(c.exec, CmdExecFile(i, j, k, false), CmdExecFile(i, j, k, true))
    + (FileError(c.stdOutRule.codeFile, RuleFile(i, j, k, false))
       + FileError(c.stdErrRule.codeFile, RuleFile(i, j, k, true)))
    + GatherErrors(c.exec.gather, i, j, k, |c.exec.gather|)
  }

  function CmdErrors(a: Assertion, i: nat, j: nat, n: nat): seq<ValidationError>
    requires n <= |a.cmds|
  {
    if n == 0 then [] else CmdErrors(a, i, j, n - 1) + CmdFileErrors(a.cmds[n - 1], i, j, n - 1)
  }

  function PostCmdErrors(a: Assertion, i: nat, j: nat, n: nat): seq<ValidationError>
    requires n <= |a.postCmds|
  {
    if n == 0 then []
    else
      PostCmdErrors(a, i, j, n - 1)
      + ExecErrors(a.postCmds[n - 1], PostCmdFile(i, j, n - 1, false), PostCmdFile(i, j, n - 1, true))
  }

  function AgentErrors(a: Assertion, i: nat, j: nat): seq<ValidationError> {
    PreCmdErrors(a, i, j, |a.preCmds|) + CmdErrors(a, i, j, |a.cmds|) + PostCmdErrors(a, i, j, |a.postCmds|)
  }

  function AssertionErrors(a: Assertion, i: nat, j: nat, seen: map<string, Path>, agent: bool)
    : seq<ValidationError>
  {
    CodeErrors(a.code, AssertionCode(i, j), seen) + if agent then AgentErrors(a, i, j) else []
  }

  /** The code table after the first n assertions of section i. */
  function SectionSeen(s: Section, i: nat, seen: map<string, Path>, n: nat): map<string, Path>
    requires n <= |s.assertions|
  {
    if n == 0 then seen
    else Record(s.assertions[n - 1].code, AssertionCode(i, n - 1), SectionSeen(s, i, seen, n - 1))
  }

  function AssertionListErrors(s: Section, i: nat, seen: map<string, Path>, agent: bool, n: nat)
    : seq<ValidationError>
    requires n <= |s.assertions|
  {
    if n == 0 then []
    else
      AssertionListErrors(s, i, seen, agent, n - 1)
      + AssertionErrors(s.assertions[n - 1], i, n - 1, SectionSeen(s, i, seen, n - 1), agent)
  }

  function SectionErrors(s: Section, i: nat, seen: map<string, Path>, agent: bool): seq<ValidationError> {
    TitleErrors(s.title, SectionTitle(i))
    + if |s.assertions| == 0 then [Err(SectionAssertions(i), EmptyAssertions)]
      else AssertionListErrors(s, i, seen, agent, |s.assertions|)
  }

  function PlaybookSeen(p: Playbook, n: nat): map<string, Path>
    requires n <= |p.sections|
  {
    if n == 0 then map[]
    else SectionSeen(p.sections[n - 1], n - 1, PlaybookSeen(p, n - 1), |p.sections[n - 1].assertions|)
  }

  function SectionListErrors(p: Playbook, agent: bool, n: nat): seq<ValidationError>
    requires n <= |p.sections|
  {
    if n == 0 then []
    else
      SectionListErrors(p, agent, n - 1)
      + SectionErrors(p.sections[n - 1], n - 1, PlaybookSeen(p, n - 1), agent)
  }

  function HeadErrors(p: Playbook): seq<ValidationError> {
    TitleErrors(p.title, PlaybookTitle) + DestinationErrors(p)
  }

  function BodyErrors(p: Playbook, agent: bool): seq<ValidationError> {
    if |p.sections| == 0 then [Err(Sections, EmptySections)]
    else SectionListErrors(p, agent, |p.sections|)
  }

  function PlaybookErrors(p: Playbook, agent: bool): seq<ValidationError> {
    HeadErrors(p) + BodyErrors(p, agent)
  }

  // ---------------------------------------------------------------- the methods

  method ValidateTitle(title: string, path: Path) returns (errs: seq<ValidationError>)
    ensures errs == TitleErrors(title, path)
  {
    errs := [];
    if TrimSpace(title) == "" {
      errs := errs + [Err(path, MissingTitle)];
    } else if ByteLen(TrimSpace(title)) < 3 {
      errs := errs + [Err(path, InvalidTitle)];
    }
  }

  method CheckFile(file: string, path: Path) returns (errs: seq<ValidationError>)
    ensures errs == FileError(file, path)
  {
    errs := [];
    if file != "" {
      errs := errs + [Err(path, ProhibitedAgentFunc)];
    }
  }

  method CheckExec(e: Exec, code: Path, shell: Path) returns (errs: seq<ValidationError>)
    ensures errs == ExecErrors(e, code, shell)
  {
    errs := CheckFile(e.codeFile, code);
    var more := CheckFile(e.shellFuncFile, shell);
    errs := errs + more;
  }

  method CheckCmd(c: Cmd, i: nat, j: nat, k: nat) returns (errs: seq<ValidationError>)
    ensures errs == CmdFileErrors(c, i, j, k)
  {
    errs := CheckExec(c.exec, CmdExecFile(i, j, k, false), CmdExecFile(i, j, k, true));
    var out := CheckFile(c.stdOutRule.codeFile, RuleFile(i, j, k, false));
    var err := CheckFile(c.stdErrRule.codeFile, RuleFile(i, j, k, true));
    var gathers := [];
    for g := 0 to |c.exec.gather|
      invariant gathers == GatherErrors(c.exec.gather, i, j, k, g)
    {
      var more := CheckFile(c.exec.gather[g].codeFile, GatherFile(i, j, k, g));
      gathers := gathers + more;
    }
    errs := errs + (out + err) + gathers;
  }

  /** The isAgent part of Assertion.Validate. */
  method CheckAgent(a: Assertion, i: nat, j: nat) returns (errs: seq<ValidationError>)
    ensures errs == AgentErrors(a, i, j)
  {
    hide ExecErrors, CmdFileErrors;
    errs := [];
    for k := 0 to |a.preCmds|
      invariant errs == PreCmdErrors(a, i, j, k)
    {
      var more := CheckExec(a.preCmds[k], PreCmdFile(i, j, k, false), PreCmdFile(i, j, k, true));
      errs := errs + more;
    }
    var main := [];
    for k := 0 to |a.cmds|
      invariant main == CmdErrors(a, i, j, k)
    {
      var more := CheckCmd(a.cmds[k], i, j, k);
      main := main + more;
    }
    var post := [];
    for k := 0 to |a.postCmds|
      invariant post == PostCmdErrors(a, i, j, k)
    {
      var more := CheckExec(a.postCmds[k], PostCmdFile(i, j, k, false), PostCmdFile(i, j, k, true));
      post := post + more;
    }
    errs := errs + main + post;
  }

  method ValidateAssertion(a: Assertion, i: nat, j: nat, seen: CodeTable, agent: bool)
    returns (errs: seq<ValidationError>)
    modifies seen
    ensures errs == AssertionErrors(a, i, j, old(seen.paths), agent)
    ensures seen.paths == Record(a.code, AssertionCode(i, j), old(seen.paths))
  {
    hide AgentErrors;
    errs := [];
    if TrimSpace(a.code) == "" {
      errs := errs + [Err(AssertionCode(i, j), MissingCode)];
    } else if a.code in seen.paths {
      errs := errs + [ValidationError(AssertionCode(i, j), DuplicateCode, Some(seen.paths[a.code]))];
    } else {
      seen.paths := seen.paths[a.code := AssertionCode(i, j)];
    }
    if agent {
      var files := CheckAgent(a, i, j);
      errs := errs + files;
    }
  }

  method ValidateSection(s: Section, i: nat, seen: CodeTable, agent: bool)
    returns (errs: seq<ValidationError>)
    modifies seen
    ensures errs == SectionErrors(s, i, old(seen.paths), agent)
    ensures seen.paths == SectionSeen(s, i, old(seen.paths), |s.assertions|)
  {
    hide AssertionErrors, Record, TitleErrors;
    errs := ValidateTitle(s.title, SectionTitle(i));
    if |s.assertions| == 0 {
      errs := errs + [Err(SectionAssertions(i), EmptyAssertions)];
    } else {
      var nested := [];
      for j := 0 to |s.assertions|
        invariant seen.paths == SectionSeen(s, i, old(seen.paths), j)
        invariant nested == AssertionListErrors(s, i, old(seen.paths), agent, j)
      {
        var more := ValidateAssertion(s.assertions[j], i, j, seen, agent);
        nested := nested + more;
      }
      errs := errs + nested;
    }
  }

  predicate HttpsWellFormed(https: Option<HttpsConfig>) {
    https.Some? && !IsBlank(https.value.url) && HasPrefix(https.value.url, "https://")
    && https.value.format in {"", "multipart", "json"}
  }

  method ValidateDestination(p: Playbook) returns (errs: seq<ValidationError>)
    ensures errs == DestinationErrors(p)
    ensures errs == [] <==>
              p.reportDestination in {"", "folder"} || (p.reportDestination == "https" && HttpsWellFormed(p.https))
    ensures forall e :: e in errs ==> e.path in {Destination, HttpsSettings, HttpsUrl, HttpsFormat}
  {
    errs := [];
    if p.reportDestination == "https" {
      if p.https.None? {
        errs := errs + [Err(HttpsSettings, MissingHttpsConfig)];
      } else {
        var c := p.https.value;
        if TrimSpace(c.url) == "" {
          errs := errs + [Err(HttpsUrl, MissingUrl)];
        } else if !HasPrefix(c.url, "https://") {
          errs := errs + [Err(HttpsUrl, InvalidUrl)];
        }
        if c.format != "" && c.format != "multipart" && c.format != "json" {
          errs := errs + [Err(HttpsFormat, InvalidFormat)];
        }
      }
    } else if p.reportDestination != "" && p.reportDestination != "folder" {
      errs := errs + [Err(Destination, InvalidDestination)];
    }
  }

  method ValidateHead(p: Playbook) returns (errs: seq<ValidationError>)
    ensures errs == HeadErrors(p)
  {
    errs := ValidateTitle(p.title, PlaybookTitle);
    var destination := ValidateDestination(p);
    errs := errs + destination;
  }

  method ValidateBody(p: Playbook, agent: bool) returns (errs: seq<ValidationError>)
    ensures errs == BodyErrors(p, agent)
  {
    hide SectionErrors, SectionSeen;
    errs := [];
    if |p.sections| == 0 {
      errs := errs + [Err(Sections, EmptySections)];
    } else {
      var seen := new CodeTable();
      for i := 0 to |p.sections|
        invariant seen.paths == PlaybookSeen(p, i)
        invariant errs == SectionListErrors(p, agent, i)
      {
        var more := ValidateSection(p.sections[i], i, seen, agent);
        errs := errs + more;
      }
    }
  }

  method Validate(p: Playbook, agent: bool) returns (errs: seq<ValidationError>)
    ensures errs == PlaybookErrors(p, agent)
  {
    var head := ValidateHead(p);
    var body := ValidateBody(p, agent);
    errs := head + body;
  }
}
