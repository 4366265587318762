/** Which errors a playbook deserves, told from the playbook alone; validation returns exactly these, each
    once, in the order of the document. */
module ValidationMeaning {
  import opened Text
  import opened PlaybookTypes
  import opened Validator

  // ---------------------------------------------------------------- what is wrong with a playbook

  predicate Blank(s: string) { forall k :: 0 <= k < |s| ==> IsSpace(s[k]) }

  /** A title of nothing but blanks is missing, one of less than three bytes inside its blanks is invalid. */
  predicate BadTitle(title: string, kind: Kind) {
    if Blank(title) then kind == MissingTitle
    else kind == InvalidTitle && ByteLen(TrimSpace(title)) < 3
  }

  predicate Declares(p: Playbook, path: Path, code: string) {
    && path.AssertionCode? && path.section < |p.sections| && path.assertion < |p.sections[path.section].assertions|
    && p.sections[path.section].assertions[path.assertion].code == code
  }

  /** The first assertion, in the order of the playbook, that declares the code. */
  ghost predicate FirstUse(p: Playbook, code: string, path: Path) {
    && Declares(p, path, code)
    && forall q :: Declares(p, q, code) ==> q == path || Before(Place(path), Place(q))
  }

  function FileOf(e: Exec, shell: bool): string { if shell then e.shellFuncFile else e.codeFile }

  /** The file reference an agent finds at a path of an assertion; empty when there is none. */
  function FileIn(a: Assertion, path: Path): string {
    match path
    case PreCmdFile(_, _, k, shell) => if k < |a.preCmds| then FileOf(a.preCmds[k], shell) else ""
    case CmdExecFile(_, _, k, shell) => if k < |a.cmds| then FileOf(a.cmds[k].exec, shell) else ""
    case RuleFile(_, _, k, stdErr) =>
      if k >= |a.cmds| then ""
      else if stdErr then a.cmds[k].stdErrRule.codeFile
      else a.cmds[k].stdOutRule.codeFile
    case GatherFile(_, _, k, g) =>
      if k < |a.cmds| && g < |a.cmds[k].exec.gather| then a.cmds[k].exec.gather[g].codeFile else ""
    case PostCmdFile(_, _, k, shell) => if k < |a.postCmds| then FileOf(a.postCmds[k], shell) else ""
    case _ => ""
  }

  predicate IsFile(path: Path) {
    path.PreCmdFile? || path.CmdExecFile? || path.RuleFile? || path.GatherFile? || path.PostCmdFile?
  }

  /** The path lies in assertion j of section i. */
  predicate InAssertion(path: Path, i: nat, j: nat) {
    (path.AssertionCode? || IsFile(path)) && path.section == i && path.assertion == j
  }

  ghost predicate Deserves(p: Playbook, agent: bool, e: ValidationError) {
    match e.path
    case PlaybookTitle => e.cites.None? && BadTitle(p.title, e.kind)
    case Destination =>
      e.cites.None? && p.reportDestination !in {"", "folder", "https"} && e.kind == InvalidDestination
    case HttpsSettings =>
      e.cites.None? && p.reportDestination == "https" && p.https.None? && e.kind == MissingHttpsConfig
    case HttpsUrl =>
      && e.cites.None? && p.reportDestination == "https" && p.https.Some?
      && (if Blank(p.https.value.url) then e.kind == MissingUrl
          else e.kind == InvalidUrl && !("https://" <= p.https.value.url))
    case HttpsFormat =>
      && e.cites.None? && p.reportDestination == "https" && p.https.Some?
      && p.https.value.format !in {"", "multipart", "json"} && e.kind == InvalidFormat
    case Sections => e.cites.None? && p.sections == [] && e.kind == EmptySections
    case SectionTitle(i) => i < |p.sections| && e.cites.None? && BadTitle(p.sections[i].title, e.kind)
    case SectionAssertions(i) =>
      i < |p.sections| && e.cites.None? && p.sections[i].assertions == [] && e.kind == EmptyAssertions
    case AssertionCode(i, j) =>
      && i < |p.sections| && j < |p.sections[i].assertions|
      && var code := p.sections[i].assertions[j].code;
         if Blank(code) then e.kind == MissingCode && e.cites.None?
         else e.kind == DuplicateCode && e.cites.Some? && e.cites.value != e.path && FirstUse(p, code, e.cites.value)
    case _ =>
      && agent && e.kind == ProhibitedAgentFunc && e.cites.None?
      && e.path.section < |p.sections| && e.path.assertion < |p.sections[e.path.section].assertions|
      && FileIn(p.sections[e.path.section].assertions[e.path.assertion], e.path) != ""
  }

  // ---------------------------------------------------------------- the order of the document

  datatype Key = Key(top: nat, section: nat, part: nat, assertion: nat, phase: nat, cmd: nat, item: nat)

  function Place(path: Path): Key {
    match path
    case PlaybookTitle => Key(0, 0, 0, 0, 0, 0, 0)
    case Destination | HttpsSettings | HttpsUrl => Key(1, 0, 0, 0, 0, 0, 0)
    case HttpsFormat => Key(1, 1, 0, 0, 0, 0, 0)
    case Sections => Key(2, 0, 0, 0, 0, 0, 0)
    case SectionTitle(i) => Key(2, i, 0, 0, 0, 0, 0)
    case SectionAssertions(i) => Key(2, i, 1, 0, 0, 0, 0)
    case AssertionCode(i, j) => Key(2, i, 1, j, 0, 0, 0)
    case PreCmdFile(i, j, k, shell) => Key(2, i, 1, j, 1, k, if shell then 1 else 0)
    case CmdExecFile(i, j, k, shell) => Key(2, i, 1, j, 2, k, if shell then 1 else 0)
    case RuleFile(i, j, k, stdErr) => Key(2, i, 1, j, 2, k, if stdErr then 3 else 2)
    case GatherFile(i, j, k, g) => Key(2, i, 1, j, 2, k, g + 4)
    case PostCmdFile(i, j, k, shell) => Key(2, i, 1, j, 3, k, if shell then 1 else 0)
  }

  predicate Before(a: Key, b: Key) {
    if a.top != b.top then a.top < b.top
    else if a.section != b.section then a.section < b.section
    else if a.part != b.part then a.part < b.part
    else if a.assertion != b.assertion then a.assertion < b.assertion
    else if a.phase != b.phase then a.phase < b.phase
    else if a.cmd != b.cmd then a.cmd < b.cmd
    else a.item < b.item
  }

  predicate InOrder(errs: seq<ValidationError>) {
    forall x, y :: 0 <= x < y < |errs| ==> Before(Place(errs[x].path), Place(errs[y].path))
  }

  lemma OrderConcat(a: seq<ValidationError>, b: seq<ValidationError>)
    requires InOrder(a) && InOrder(b)
    requires forall x, y :: x in a && y in b ==> Before(Place(x.path), Place(y.path))
    ensures InOrder(a + b)
    ensures forall e :: e in a + b <==> e in a || e in b
  {
    hide Place, Before;
    forall x, y | 0 <= x < y < |a + b| ensures Before(Place((a + b)[x].path), Place((a + b)[y].path)) {
      if x < |a| <= y {
        assert a[x] in a && b[y - |a|] in b;
      } else if |a| <= x {
        assert (a + b)[x] == b[x - |a|] && (a + b)[y] == b[y - |a|];
      }
    }
  }

  // ---------------------------------------------------------------- blanks and titles

  lemma {:induction false} TrimLeftBlank(s: string)
    ensures TrimLeft(s) == "" <==> Blank(s)
    ensures |TrimLeft(s)| <= |s| && TrimLeft(s) == s[|s| - |TrimLeft(s)|..]
    ensures forall k :: 0 <= k < |s| - |TrimLeft(s)| ==> IsSpace(s[k])
    ensures TrimLeft(s) != "" ==> !IsSpace(TrimLeft(s)[0])
  {
    hide IsSpace;
    if s != [] && IsSpace(s[0]) {
      TrimLeftBlank(s[1..]);
      assert forall k :: 1 <= k < |s| ==> s[k] == s[1..][k - 1];
    }
  }

  lemma {:induction false} TrimRightBlank(s: string)
    ensures TrimRight(s) == "" <==> Blank(s)
    ensures |TrimRight(s)| <= |s| && TrimRight(s) == s[..|TrimRight(s)|]
    ensures forall k :: |TrimRight(s)| <= k < |s| ==> IsSpace(s[k])
    ensures TrimRight(s) != "" ==> !IsSpace(TrimRight(s)[|TrimRight(s)| - 1])
  {
    hide IsSpace;
    if s != [] && IsSpace(s[|s| - 1]) {
      var front := s[..|s| - 1];
      TrimRightBlank(front);
      assert forall k :: 0 <= k < |s| - 1 ==> s[k] == front[k];
    }
  }

  lemma BlankIs(s: string)
    ensures IsBlank(s) <==> Blank(s)
  {
    hide IsSpace;
    TrimLeftBlank(s);
    TrimRightBlank(TrimLeft(s));
    if TrimLeft(s) != "" {
      assert !IsSpace(TrimLeft(s)[0]);
    }
  }

  /** What TrimSpace leaves is the part between the outermost characters that are not blank. */
  lemma TrimmedIs(s: string)
    ensures exists i, j :: 0 <= i <= j <= |s| && TrimSpace(s) == s[i..j]
                           && (forall k :: 0 <= k < i || j <= k < |s| ==> IsSpace(s[k]))
                           && (i < j ==> !IsSpace(s[i]) && !IsSpace(s[j - 1]))
  {
    hide IsSpace;
    TrimLeftBlank(s);
    TrimRightBlank(TrimLeft(s));
    var i := |s| - |TrimLeft(s)|;
    var j := i + |TrimSpace(s)|;
    assert TrimSpace(s) == s[i..j];
    assert forall k :: j <= k < |s| ==> s[k] == TrimLeft(s)[k - i];
  }

  lemma TitleIs(title: string, path: Path)
    ensures InOrder(TitleErrors(title, path))
    ensures forall e :: e in TitleErrors(title, path) <==> e.path == path && e.cites.None? && BadTitle(title, e.kind)
  {
    hide TrimSpace, ByteLen, IsBlank, Blank;
    BlankIs(title);
    forall e ensures e in TitleErrors(title, path) <==> e.path == path && e.cites.None? && BadTitle(title, e.kind) {
      if e.path == path && e.cites.None? && BadTitle(title, e.kind) {
        assert e == Err(path, e.kind);
      }
    }
  }

  // ---------------------------------------------------------------- the files of one assertion

  /** e reports a file left at a place of assertion j of section i that satisfies the condition. */
  predicate Reports(a: Assertion, i: nat, j: nat, e: ValidationError) {
    && IsFile(e.path) && InAssertion(e.path, i, j) && e.kind == ProhibitedAgentFunc && e.cites.None?
    && FileIn(a, e.path) != ""
  }

  lemma FileIs(file: string, path: Path)
    ensures InOrder(FileError(file, path))
    ensures forall e :: e in FileError(file, path) <==>
              e.path == path && e.kind == ProhibitedAgentFunc && e.cites.None? && file != ""
  {
    forall e: ValidationError | e.path == path && e.kind == ProhibitedAgentFunc && e.cites.None?
      ensures e == Err(path, e.kind) {
    }
  }

  lemma {:induction false} PreFiles(a: Assertion, i: nat, j: nat, n: nat)
    requires n <= |a.preCmds|
    ensures var errs := PreCmdErrors(a, i, j, n);
            InOrder(errs) && forall e :: e in errs <==> Reports(a, i, j, e) && e.path.PreCmdFile? && e.path.cmd < n
  {
    hide InOrder, FileError;
    if n == 0 {
      NoneInOrder();
    } else {
      PreFiles(a, i, j, n - 1);
      var x, code, shell := a.preCmds[n - 1], PreCmdFile(i, j, n - 1, false), PreCmdFile(i, j, n - 1, true);
      FileIs(x.codeFile, code);
      FileIs(x.shellFuncFile, shell);
      OrderConcat(FileError(x.codeFile, code), FileError(x.shellFuncFile, shell));
      OrderConcat(PreCmdErrors(a, i, j, n - 1), ExecErrors(x, code, shell));
    }
  }

  lemma {:induction false} PostFiles(a: Assertion, i: nat, j: nat, n: nat)
    requires n <= |a.postCmds|
    ensures var errs := PostCmdErrors(a, i, j, n);
            InOrder(errs) && forall e :: e in errs <==> Reports(a, i, j, e) && e.path.PostCmdFile? && e.path.cmd < n
  {
    hide InOrder, FileError;
    if n == 0 {
      NoneInOrder();
    } else {
      PostFiles(a, i, j, n - 1);
      var x, code, shell := a.postCmds[n - 1], PostCmdFile(i, j, n - 1, false), PostCmdFile(i, j, n - 1, true);
      FileIs(x.codeFile, code);
      FileIs(x.shellFuncFile, shell);
      OrderConcat(FileError(x.codeFile, code), FileError(x.shellFuncFile, shell));
      OrderConcat(PostCmdErrors(a, i, j, n - 1), ExecErrors(x, code, shell));
    }
  }

  lemma NoneInOrder()
    ensures InOrder([])
  {
  }

  lemma {:induction false} GatherFiles(a: Assertion, i: nat, j: nat, k: nat, n: nat)
    requires k < |a.cmds| && n <= |a.cmds[k].exec.gather|
    ensures var errs := GatherErrors(a.cmds[k].exec.gather, i, j, k, n);
            && InOrder(errs)
            && forall e :: e in errs <==>
                 Reports(a, i, j, e) && e.path.GatherFile? && e.path.cmd == k && e.path.gather < n
  {
    hide InOrder, FileError;
    if n == 0 {
      NoneInOrder();
    } else {
      GatherFiles(a, i, j, k, n - 1);
      var g := a.cmds[k].exec.gather;
      FileIs(g[n - 1].codeFile, GatherFile(i, j, k, n - 1));
      OrderConcat(GatherErrors(g, i, j, k, n - 1), FileError(g[n - 1].codeFile, GatherFile(i, j, k, n - 1)));
    }
  }

  predicate OfCmd(path: Path, k: nat) {
    (path.CmdExecFile? || path.RuleFile? || path.GatherFile?) && path.cmd == k
  }

  lemma CmdFiles(a: Assertion, i: nat, j: nat, k: nat)
    requires k < |a.cmds|
    ensures var errs := CmdFileErrors(a.cmds[k], i, j, k);
            InOrder(errs) && forall e :: e in errs <==> Reports(a, i, j, e) && OfCmd(e.path, k)
  {
    hide InOrder, FileError, GatherErrors;
    var c := a.cmds[k];
    var code, shell := CmdExecFile(i, j, k, false), CmdExecFile(i, j, k, true);
    var out, err := RuleFile(i, j, k, false), RuleFile(i, j, k, true);
    FileIs(c.exec.codeFile, code);
    FileIs(c.exec.shellFuncFile, shell);
    FileIs(c.stdOutRule.codeFile, out);
    FileIs(c.stdErrRule.codeFile, err);
    GatherFiles(a, i, j, k, |c.exec.gather|);
    var exec := ExecErrors(c.exec, code, shell);
    var rules := FileError(c.stdOutRule.codeFile, out) + FileError(c.stdErrRule.codeFile, err);
    OrderConcat(FileError(c.exec.codeFile, code), FileError(c.exec.shellFuncFile, shell));
    OrderConcat(FileError(c.stdOutRule.codeFile, out), FileError(c.stdErrRule.codeFile, err));
    OrderConcat(exec, rules);
    OrderConcat(exec + rules, GatherErrors(c.exec.gather, i, j, k, |c.exec.gather|));
  }

  lemma {:induction false} MainFiles(a: Assertion, i: nat, j: nat, n: nat)
    requires n <= |a.cmds|
    ensures var errs := CmdErrors(a, i, j, n);
            && InOrder(errs)
            && forall e :: e in errs <==>
                 && Reports(a, i, j, e) && (e.path.CmdExecFile? || e.path.RuleFile? || e.path.GatherFile?)
                 && e.path.cmd < n
  {
    hide InOrder, CmdFileErrors, FileIn;
    if n == 0 {
      NoneInOrder();
    } else {
      MainFiles(a, i, j, n - 1);
      CmdFiles(a, i, j, n - 1);
      OrderConcat(CmdErrors(a, i, j, n - 1), CmdFileErrors(a.cmds[n - 1], i, j, n - 1));
    }
  }

  lemma AgentFiles(a: Assertion, i: nat, j: nat)
    ensures InOrder(AgentErrors(a, i, j))
    ensures forall e :: e in AgentErrors(a, i, j) <==> Reports(a, i, j, e)
  {
    hide InOrder, PreCmdErrors, CmdErrors, PostCmdErrors;
    PreFiles(a, i, j, |a.preCmds|);
    MainFiles(a, i, j, |a.cmds|);
    PostFiles(a, i, j, |a.postCmds|);
    OrderConcat(PreCmdErrors(a, i, j, |a.preCmds|), CmdErrors(a, i, j, |a.cmds|));
    OrderConcat(PreCmdErrors(a, i, j, |a.preCmds|) + CmdErrors(a, i, j, |a.cmds|),
                PostCmdErrors(a, i, j, |a.postCmds|));
  }

  // ---------------------------------------------------------------- the code table

  /** The assertion of the path comes before assertion j of section i. */
  predicate Earlier(path: Path, i: nat, j: nat) {
    path.AssertionCode? && (path.section < i || (path.section == i && path.assertion < j))
  }

  /** The table holds the first use of every code declared before assertion j of section i. */
  ghost predicate Knows(p: Playbook, seen: map<string, Path>, i: nat, j: nat) {
    && (forall code :: code in seen ==> !IsBlank(code) && FirstUse(p, code, seen[code]) && Earlier(seen[code], i, j))
    && (forall code, q :: Declares(p, q, code) && Earlier(q, i, j) && !IsBlank(code) ==> code in seen)
  }

  lemma RecordKnows(p: Playbook, seen: map<string, Path>, i: nat, j: nat)
    requires i < |p.sections| && j < |p.sections[i].assertions| && Knows(p, seen, i, j)
    ensures Knows(p, Record(p.sections[i].assertions[j].code, AssertionCode(i, j), seen), i, j + 1)
  {
    hide IsBlank;
    var code, path := p.sections[i].assertions[j].code, AssertionCode(i, j);
    var next := Record(code, path, seen);
    forall q, c | Declares(p, q, c) && Earlier(q, i, j + 1) && !IsBlank(c) ensures c in next {
      if !Earlier(q, i, j) {
        assert q == path;
      }
    }
    if !IsBlank(code) && code !in seen {
      forall q | Declares(p, q, code) ensures q == path || Before(Place(path), Place(q)) {
        assert !Earlier(q, i, j);
      }
    }
  }

  lemma {:induction false} SectionKnows(p: Playbook, i: nat, seen: map<string, Path>, n: nat)
    requires i < |p.sections| && n <= |p.sections[i].assertions| && Knows(p, seen, i, 0)
    ensures Knows(p, SectionSeen(p.sections[i], i, seen, n), i, n)
  {
    hide Knows, Record;
    if n > 0 {
      SectionKnows(p, i, seen, n - 1);
      RecordKnows(p, SectionSeen(p.sections[i], i, seen, n - 1), i, n - 1);
    }
  }

  lemma NextSection(p: Playbook, seen: map<string, Path>, i: nat)
    requires i < |p.sections| && Knows(p, seen, i, |p.sections[i].assertions|)
    ensures Knows(p, seen, i + 1, 0)
  {
    hide IsBlank, FirstUse;
    forall q, c | Declares(p, q, c) && Earlier(q, i + 1, 0) && !IsBlank(c) ensures c in seen {
      assert Earlier(q, i, |p.sections[i].assertions|);
    }
  }

  lemma KnowsNothing(p: Playbook)
    ensures Knows(p, map[], 0, 0)
  {
  }

  lemma {:induction false} PlaybookKnows(p: Playbook, n: nat)
    requires n <= |p.sections|
    ensures Knows(p, PlaybookSeen(p, n), n, 0)
  {
    hide SectionSeen, Knows;
    if n == 0 {
      KnowsNothing(p);
    } else {
      PlaybookKnows(p, n - 1);
      SectionKnows(p, n - 1, PlaybookSeen(p, n - 1), |p.sections[n - 1].assertions|);
      NextSection(p, PlaybookSeen(p, n), n - 1);
    }
  }

  /** The code error of one assertion, judged by the table, is the one it deserves. */
  lemma CodeIs(p: Playbook, agent: bool, i: nat, j: nat, seen: map<string, Path>)
    requires i < |p.sections| && j < |p.sections[i].assertions| && Knows(p, seen, i, j)
    ensures var errs := CodeErrors(p.sections[i].assertions[j].code, AssertionCode(i, j), seen);
            && InOrder(errs)
            && forall e :: e in errs <==> Deserves(p, agent, e) && e.path == AssertionCode(i, j)
  {
    hide IsBlank, Blank;
    var code, path := p.sections[i].assertions[j].code, AssertionCode(i, j);
    BlankIs(code);
    var errs := CodeErrors(code, path, seen);
    assert code in seen ==> Earlier(seen[code], i, j);
    forall e ensures e in errs <==> Deserves(p, agent, e) && e.path == path {
      if Deserves(p, agent, e) && e.path == path {
        if Blank(code) {
          assert e == Err(path, MissingCode);
        } else {
          var first := e.cites.value;
          assert Declares(p, path, code) && Before(Place(first), Place(path));
          assert Earlier(first, i, j);
          OneFirst(p, code, first, seen[code]);
          assert e == ValidationError(path, DuplicateCode, Some(seen[code]));
        }
      }
    }
  }

  lemma OneFirst(p: Playbook, code: string, a: Path, b: Path)
    requires FirstUse(p, code, a) && FirstUse(p, code, b)
    ensures a == b
  {
  }

  // ---------------------------------------------------------------- the levels of the playbook

  lemma AssertionIs(p: Playbook, agent: bool, i: nat, j: nat, seen: map<string, Path>)
    requires i < |p.sections| && j < |p.sections[i].assertions| && Knows(p, seen, i, j)
    ensures var errs := AssertionErrors(p.sections[i].assertions[j], i, j, seen, agent);
            InOrder(errs) && forall e :: e in errs <==> Deserves(p, agent, e) && InAssertion(e.path, i, j)
  {
    hide InOrder, CodeErrors, AgentErrors, Knows, FileIn, FirstUse, BadTitle, Blank;
    var a := p.sections[i].assertions[j];
    var code, files := CodeErrors(a.code, AssertionCode(i, j), seen), if agent then AgentErrors(a, i, j) else [];
    CodeIs(p, agent, i, j, seen);
    AgentFiles(a, i, j);
    NoneInOrder();
    OrderConcat(code, files);
    forall e ensures e in code + files <==> Deserves(p, agent, e) && InAssertion(e.path, i, j) {
      if InAssertion(e.path, i, j) && IsFile(e.path) {
        assert Deserves(p, agent, e) <==> agent && Reports(a, i, j, e);
      }
    }
  }

  /** The path lies in one of the first n assertions of section i. */
  predicate InRow(path: Path, i: nat, n: nat) {
    (path.AssertionCode? || IsFile(path)) && path.section == i && path.assertion < n
  }

  lemma RowStep(i: nat, n: nat)
    ensures n == 0 ==> forall x :: !InRow(x, i, n)
    ensures n > 0 ==> forall x :: InRow(x, i, n) <==> InRow(x, i, n - 1) || InAssertion(x, i, n - 1)
    ensures n > 0 ==> forall x, y :: InRow(x, i, n - 1) && InAssertion(y, i, n - 1) ==> Before(Place(x), Place(y))
  {
  }

  lemma {:induction false} AssertionsAre(p: Playbook, agent: bool, i: nat, seen: map<string, Path>, n: nat)
    requires i < |p.sections| && n <= |p.sections[i].assertions| && Knows(p, seen, i, 0)
    ensures var errs := AssertionListErrors(p.sections[i], i, seen, agent, n);
            InOrder(errs) && forall e :: e in errs <==> Deserves(p, agent, e) && InRow(e.path, i, n)
  {
    hide InOrder, AssertionErrors, Deserves, Knows, InRow, InAssertion, Place, Before;
    RowStep(i, n);
    if n == 0 {
      NoneInOrder();
    } else {
      AssertionsAre(p, agent, i, seen, n - 1);
      SectionKnows(p, i, seen, n - 1);
      var before := SectionSeen(p.sections[i], i, seen, n - 1);
      AssertionIs(p, agent, i, n - 1, before);
      OrderConcat(AssertionListErrors(p.sections[i], i, seen, agent, n - 1),
                  AssertionErrors(p.sections[i].assertions[n - 1], i, n - 1, before, agent));
    }
  }

  predicate InSection(path: Path, i: nat) {
    (path.SectionTitle? || path.SectionAssertions? || path.AssertionCode? || IsFile(path)) && path.section == i
  }

  lemma SectionIs(p: Playbook, agent: bool, i: nat, seen: map<string, Path>)
    requires i < |p.sections| && Knows(p, seen, i, 0)
    ensures var errs := SectionErrors(p.sections[i], i, seen, agent);
            InOrder(errs) && forall e :: e in errs <==> Deserves(p, agent, e) && InSection(e.path, i)
  {
    hide InOrder, TitleErrors, AssertionListErrors, Knows, FirstUse, FileIn, BadTitle, Blank;
    var s := p.sections[i];
    var title, rest := TitleErrors(s.title, SectionTitle(i)), AssertionListErrors(s, i, seen, agent, |s.assertions|);
    TitleIs(s.title, SectionTitle(i));
    if |s.assertions| == 0 {
      var empty := Err(SectionAssertions(i), EmptyAssertions);
      OneInOrder(empty);
      OrderConcat(title, [empty]);
      forall e ensures e in title + [empty] <==> Deserves(p, agent, e) && InSection(e.path, i) {
        if Deserves(p, agent, e) && e.path == SectionAssertions(i) {
          assert e == empty;
        }
      }
    } else {
      AssertionsAre(p, agent, i, seen, |s.assertions|);
      OrderConcat(title, rest);
      forall e ensures e in title + rest <==> Deserves(p, agent, e) && InSection(e.path, i) {
      }
    }
  }

  lemma OneInOrder(e: ValidationError)
    ensures InOrder([e])
  {
  }

  predicate InSections(path: Path, n: nat) {
    (path.SectionTitle? || path.SectionAssertions? || path.AssertionCode? || IsFile(path)) && path.section < n
  }

  lemma SectionsStep(n: nat)
    ensures n == 0 ==> forall x :: !InSections(x, n)
    ensures n > 0 ==> forall x :: InSections(x, n) <==> InSections(x, n - 1) || InSection(x, n - 1)
    ensures n > 0 ==> forall x, y :: InSections(x, n - 1) && InSection(y, n - 1) ==> Before(Place(x), Place(y))
  {
  }

  lemma {:induction false} SectionsAre(p: Playbook, agent: bool, n: nat)
    requires n <= |p.sections|
    ensures var errs := SectionListErrors(p, agent, n);
            InOrder(errs) && forall e :: e in errs <==> Deserves(p, agent, e) && InSections(e.path, n)
  {
    hide InOrder, SectionErrors, Deserves, Knows, InSection, InSections, Place, Before;
    SectionsStep(n);
    if n == 0 {
      NoneInOrder();
    } else {
      SectionsAre(p, agent, n - 1);
      PlaybookKnows(p, n - 1);
      var last := SectionErrors(p.sections[n - 1], n - 1, PlaybookSeen(p, n - 1), agent);
      SectionIs(p, agent, n - 1, PlaybookSeen(p, n - 1));
      OrderConcat(SectionListErrors(p, agent, n - 1), last);
    }
  }

  predicate InHead(path: Path) {
    path.PlaybookTitle? || path.Destination? || path.HttpsSettings? || path.HttpsUrl? || path.HttpsFormat?
  }

  lemma DestinationIs(p: Playbook, agent: bool)
    ensures var errs := DestinationErrors(p);
            && InOrder(errs)
            && forall e :: e in errs <==> Deserves(p, agent, e) && InHead(e.path) && !e.path.PlaybookTitle?
  {
    hide IsBlank, Blank, FirstUse, FileIn, BadTitle;
    if p.https.Some? {
      BlankIs(p.https.value.url);
    }
    forall e ensures e in DestinationErrors(p) <==> Deserves(p, agent, e) && InHead(e.path) && !e.path.PlaybookTitle? {
      if Deserves(p, agent, e) && InHead(e.path) && !e.path.PlaybookTitle? {
        assert e == Err(e.path, e.kind);
      }
    }
  }

  lemma HeadIs(p: Playbook, agent: bool)
    ensures InOrder(HeadErrors(p))
    ensures forall e :: e in HeadErrors(p) <==> Deserves(p, agent, e) && InHead(e.path)
  {
    hide InOrder, TitleErrors, DestinationErrors, FirstUse, FileIn, BadTitle, Blank;
    TitleIs(p.title, PlaybookTitle);
    DestinationIs(p, agent);
    OrderConcat(TitleErrors(p.title, PlaybookTitle), DestinationErrors(p));
  }

  lemma BodyIs(p: Playbook, agent: bool)
    ensures InOrder(BodyErrors(p, agent))
    ensures forall e :: e in BodyErrors(p, agent) <==> Deserves(p, agent, e) && !InHead(e.path)
  {
    hide InOrder, SectionListErrors, FirstUse, FileIn, BadTitle, Blank;
    if |p.sections| == 0 {
      var none := Err(Sections, EmptySections);
      OneInOrder(none);
      forall e ensures e in BodyErrors(p, agent) <==> Deserves(p, agent, e) && !InHead(e.path) {
        if Deserves(p, agent, e) && e.path.Sections? {
          assert e == none;
        }
      }
    } else {
      SectionsAre(p, agent, |p.sections|);
      forall e ensures e in BodyErrors(p, agent) <==> Deserves(p, agent, e) && !InHead(e.path) {
        if Deserves(p, agent, e) && !InHead(e.path) {
          assert InSections(e.path, |p.sections|);
        }
      }
    }
  }

  /** Validation returns exactly the errors the playbook deserves, each once, in the order of the document;
      there is no other such list. */
  lemma ValidationExactly(p: Playbook, agent: bool)
    ensures InOrder(PlaybookErrors(p, agent))
    ensures forall e :: e in PlaybookErrors(p, agent) <==> Deserves(p, agent, e)
    ensures forall errs :: InOrder(errs) && (forall e :: e in errs <==> Deserves(p, agent, e)) ==>
              errs == PlaybookErrors(p, agent)
  {
    hide InOrder, HeadErrors, BodyErrors, Deserves, Place, Before;
    HeadIs(p, agent);
    BodyIs(p, agent);
    HeadFirst(p, agent);
    OrderConcat(HeadErrors(p), BodyErrors(p, agent));
    forall errs | InOrder(errs) && (forall e :: e in errs <==> Deserves(p, agent, e))
      ensures errs == PlaybookErrors(p, agent)
    {
      assert forall e :: e in errs <==> e in PlaybookErrors(p, agent);
      OneOrder(errs, PlaybookErrors(p, agent));
    }
  }

  lemma HeadFirst(p: Playbook, agent: bool)
    requires forall e :: e in HeadErrors(p) ==> InHead(e.path)
    requires forall e :: e in BodyErrors(p, agent) ==> !InHead(e.path)
    ensures forall x, y :: x in HeadErrors(p) && y in BodyErrors(p, agent) ==> Before(Place(x.path), Place(y.path))
  {
    hide HeadErrors, BodyErrors;
  }

  /** Two lists in order with the same members are the same. */
  lemma {:induction false} OneOrder(a: seq<ValidationError>, b: seq<ValidationError>)
    requires InOrder(a) && InOrder(b) && forall e :: e in a <==> e in b
    ensures a == b
  {
    hide InOrder;
    if a != [] {
      SomeThere(a, b);
      SameFirst(a, b);
      RestAlike(a, b);
      OneOrder(a[1..], b[1..]);
    } else if b != [] {
      SomeThere(b, a);
    }
  }

  lemma SomeThere(a: seq<ValidationError>, b: seq<ValidationError>)
    requires a != [] && forall e :: e in a ==> e in b
    ensures b != []
  {
    assert a[0] in b;
  }

  lemma SameFirst(a: seq<ValidationError>, b: seq<ValidationError>)
    requires a != [] && b != [] && InOrder(a) && InOrder(b) && forall e :: e in a <==> e in b
    ensures a[0] == b[0]
  {
    hide Place;
    assert a[0] in b && b[0] in a;
    var x :| 0 <= x < |b| && b[x] == a[0];
    var y :| 0 <= y < |a| && a[y] == b[0];
  }

  lemma RestAlike(a: seq<ValidationError>, b: seq<ValidationError>)
    requires a != [] && b != [] && a[0] == b[0] && InOrder(a) && InOrder(b) && forall e :: e in a <==> e in b
    ensures InOrder(a[1..]) && InOrder(b[1..]) && forall e :: e in a[1..] <==> e in b[1..]
  {
    FirstOnce(a);
    FirstOnce(b);
  }

  lemma FirstOnce(a: seq<ValidationError>)
    requires a != [] && InOrder(a)
    ensures InOrder(a[1..]) && forall e :: e in a[1..] <==> e in a && e != a[0]
  {
    hide Place;
    assert a == [a[0]] + a[1..];
    forall x | 0 <= x < |a| - 1 ensures a[1..][x] != a[0] {
      assert Before(Place(a[0].path), Place(a[x + 1].path));
    }
  }
}
