/** What the shared code table of the three Validate methods detects, stated over the flat list of
    assertion codes in playbook order. */
module DuplicateCodes {
  import opened Text
  import opened PlaybookTypes
  import opened Validator

  datatype Occurrence = Occurrence(code: string, path: Path)

  function SectionCodes(s: Section, i: nat, n: nat): seq<Occurrence>
    requires n <= |s.assertions|
  {
    if n == 0 then []
    else SectionCodes(s, i, n - 1) + [Occurrence(s.assertions[n - 1].code, AssertionCode(i, n - 1))]
  }

  function CodesUpTo(p: Playbook, n: nat): seq<Occurrence>
    requires n <= |p.sections|
  {
    if n == 0 then []
    else CodesUpTo(p, n - 1) + SectionCodes(p.sections[n - 1], n - 1, |p.sections[n - 1].assertions|)
  }

  /** Every assertion code of the playbook, in playbook order, with where it stands. */
  function Codes(p: Playbook): seq<Occurrence> { CodesUpTo(p, |p.sections|) }

  /** Where a code occurs first. */
  function First(occ: seq<Occurrence>, code: string): (r: Option<Path>)
    ensures r.None? ==> forall k :: 0 <= k < |occ| ==> occ[k].code != code
    ensures r.Some? ==> exists k :: 0 <= k < |occ| && occ[k] == Occurrence(code, r.value)
                                    && forall m :: 0 <= m < k ==> occ[m].code != code
  {
    if occ == [] then None
    else
      var front := occ[..|occ| - 1];
      var r := First(front, code);
      if r.Some? then
        r
      else if occ[|occ| - 1].code == code then
        assert occ[|occ| - 1] == Occurrence(code, occ[|occ| - 1].path);
        Some(occ[|occ| - 1].path)
      else None
  }

  /** The code error that position k of a code list deserves, independent of any table. */
  function ErrorAt(occ: seq<Occurrence>, k: nat): seq<ValidationError>
    requires k < |occ|
  {
    if IsBlank(occ[k].code) then [Err(occ[k].path, MissingCode)]
    else if First(occ[..k], occ[k].code).Some? then
      [ValidationError(occ[k].path, DuplicateCode, First(occ[..k], occ[k].code))]
    else []
  }

  function ErrorsOf(occ: seq<Occurrence>, n: nat): seq<ValidationError>
    requires n <= |occ|
  {
    if n == 0 then [] else ErrorsOf(occ, n - 1) + ErrorAt(occ, n - 1)
  }

  predicate IsCodeError(e: ValidationError) { e.kind == MissingCode || e.kind == DuplicateCode }

  /** The code errors of a diagnostic list, in order. */
  function OnlyCode(errs: seq<ValidationError>): seq<ValidationError> {
    if errs == [] then []
    else OnlyCode(errs[..|errs| - 1]) + if IsCodeError(errs[|errs| - 1]) then [errs[|errs| - 1]] else []
  }

  lemma {:induction false} OnlyCodeConcat(a: seq<ValidationError>, b: seq<ValidationError>)
    ensures OnlyCode(a + b) == OnlyCode(a) + OnlyCode(b)
  {
    if b == [] {
      assert a + b == a;
    } else {
      OnlyCodeConcat(a, b[..|b| - 1]);
      assert (a + b)[..|a + b| - 1] == a + b[..|b| - 1];
    }
  }

  lemma {:induction false} OnlyCodeNone(errs: seq<ValidationError>)
    requires forall e :: e in errs ==> !IsCodeError(e)
    ensures OnlyCode(errs) == []
  {
    if errs != [] {
      OnlyCodeNone(errs[..|errs| - 1]);
    }
  }

  lemma ExecErrorsPlain(e: Exec, code: Path, shell: Path)
    ensures OnlyCode(ExecErrors(e, code, shell)) == []
  {
    OnlyCodeNone(ExecErrors(e, code, shell));
  }

  lemma {:induction false} GatherErrorsPlain(g: seq<GatherSpec>, i: nat, j: nat, k: nat, n: nat)
    requires n <= |g|
    ensures OnlyCode(GatherErrors(g, i, j, k, n)) == []
  {
    if n > 0 {
      var last := FileError(g[n - 1].codeFile, GatherFile(i, j, k, n - 1));
      GatherErrorsPlain(g, i, j, k, n - 1);
      OnlyCodeNone(last);
      OnlyCodeConcat(GatherErrors(g, i, j, k, n - 1), last);
    }
  }

  lemma CmdFileErrorsPlain(c: Cmd, i: nat, j: nat, k: nat)
    ensures OnlyCode(CmdFileErrors(c, i, j, k)) == []
  {
    hide OnlyCode, ExecErrors, GatherErrors;
    var exec := ExecErrors(c.exec, CmdExecFile(i, j, k, false), CmdExecFile(i, j, k, true));
    var rules := FileError(c.stdOutRule.codeFile, RuleFile(i, j, k, false))
                 + FileError(c.stdErrRule.codeFile, RuleFile(i, j, k, true));
    ExecErrorsPlain(c.exec, CmdExecFile(i, j, k, false), CmdExecFile(i, j, k, true));
    OnlyCodeNone(rules);
    GatherErrorsPlain(c.exec.gather, i, j, k, |c.exec.gather|);
    OnlyCodeConcat(exec, rules);
    OnlyCodeConcat(exec + rules, GatherErrors(c.exec.gather, i, j, k, |c.exec.gather|));
  }

  lemma {:induction false} CmdErrorsPlain(a: Assertion, i: nat, j: nat, n: nat)
    requires n <= |a.cmds|
    ensures OnlyCode(CmdErrors(a, i, j, n)) == []
  {
    hide CmdFileErrors;
    if n > 0 {
      CmdErrorsPlain(a, i, j, n - 1);
      CmdFileErrorsPlain(a.cmds[n - 1], i, j, n - 1);
      OnlyCodeConcat(CmdErrors(a, i, j, n - 1), CmdFileErrors(a.cmds[n - 1], i, j, n - 1));
    }
  }

  lemma {:induction false} PreCmdErrorsPlain(a: Assertion, i: nat, j: nat, n: nat)
    requires n <= |a.preCmds|
    ensures OnlyCode(PreCmdErrors(a, i, j, n)) == []
  {
    hide ExecErrors;
    if n > 0 {
      var code, shell := PreCmdFile(i, j, n - 1, false), PreCmdFile(i, j, n - 1, true);
      PreCmdErrorsPlain(a, i, j, n - 1);
      ExecErrorsPlain(a.preCmds[n - 1], code, shell);
      OnlyCodeConcat(PreCmdErrors(a, i, j, n - 1), ExecErrors(a.preCmds[n - 1], code, shell));
    }
  }

  lemma {:induction false} PostCmdErrorsPlain(a: Assertion, i: nat, j: nat, n: nat)
    requires n <= |a.postCmds|
    ensures OnlyCode(PostCmdErrors(a, i, j, n)) == []
  {
    hide ExecErrors;
    if n > 0 {
      var code, shell := PostCmdFile(i, j, n - 1, false), PostCmdFile(i, j, n - 1, true);
      PostCmdErrorsPlain(a, i, j, n - 1);
      ExecErrorsPlain(a.postCmds[n - 1], code, shell);
      OnlyCodeConcat(PostCmdErrors(a, i, j, n - 1), ExecErrors(a.postCmds[n - 1], code, shell));
    }
  }

  lemma AgentErrorsPlain(a: Assertion, i: nat, j: nat)
    ensures OnlyCode(AgentErrors(a, i, j)) == []
  {
    hide OnlyCode;
    PreCmdErrorsPlain(a, i, j, |a.preCmds|);
    CmdErrorsPlain(a, i, j, |a.cmds|);
    PostCmdErrorsPlain(a, i, j, |a.postCmds|);
    OnlyCodeConcat(PreCmdErrors(a, i, j, |a.preCmds|), CmdErrors(a, i, j, |a.cmds|));
    OnlyCodeConcat(PreCmdErrors(a, i, j, |a.preCmds|) + CmdErrors(a, i, j, |a.cmds|),
                   PostCmdErrors(a, i, j, |a.postCmds|));
  }

  /** The table maps exactly the non-blank codes seen so far, each to its first place. */
  predicate Tracks(seen: map<string, Path>, occ: seq<Occurrence>) {
    && (forall c :: c in seen ==> !IsBlank(c) && First(occ, c) == Some(seen[c]))
    && (forall k :: 0 <= k < |occ| && !IsBlank(occ[k].code) ==> occ[k].code in seen)
  }

  lemma TracksStep(seen: map<string, Path>, occ: seq<Occurrence>, o: Occurrence)
    requires Tracks(seen, occ)
    ensures Tracks(Record(o.code, o.path, seen), occ + [o])
    ensures OnlyCode(CodeErrors(o.code, o.path, seen)) == CodeErrors(o.code, o.path, seen)
    ensures CodeErrors(o.code, o.path, seen) == ErrorAt(occ + [o], |occ|)
  {
    var longer := occ + [o];
    assert longer[..|longer| - 1] == occ;
    var errs := CodeErrors(o.code, o.path, seen);
    assert errs == [] || errs[..|errs| - 1] == [];
    if !IsBlank(o.code) && o.code in seen {
      assert First(occ, o.code).Some?;
    }
  }

  lemma {:induction false} ErrorsOfPrefix(a: seq<Occurrence>, b: seq<Occurrence>, n: nat)
    requires n <= |a|
    ensures ErrorsOf(a + b, n) == ErrorsOf(a, n)
  {
    if n > 0 {
      ErrorsOfPrefix(a, b, n - 1);
      assert (a + b)[..n - 1] == a[..n - 1];
    }
  }

  lemma AssertionStep(a: Assertion, i: nat, j: nat, seen: map<string, Path>, agent: bool, occ: seq<Occurrence>)
    requires Tracks(seen, occ)
    ensures var o := Occurrence(a.code, AssertionCode(i, j));
            && Tracks(Record(a.code, AssertionCode(i, j), seen), occ + [o])
            && ErrorsOf(occ + [o], |occ| + 1)
               == ErrorsOf(occ, |occ|) + OnlyCode(AssertionErrors(a, i, j, seen, agent))
  {
    hide Tracks, Record, ErrorsOf, ErrorAt, OnlyCode, AgentErrors, CodeErrors, First, IsBlank;
    var o := Occurrence(a.code, AssertionCode(i, j));
    TracksStep(seen, occ, o);
    ErrorsOfStep(occ, o);
    AgentErrorsPlain(a, i, j);
    OnlyCodeNothing();
    OnlyCodeConcat(CodeErrors(a.code, AssertionCode(i, j), seen), if agent then AgentErrors(a, i, j) else []);
  }

  lemma ErrorsOfStep(occ: seq<Occurrence>, o: Occurrence)
    ensures ErrorsOf(occ + [o], |occ| + 1) == ErrorsOf(occ, |occ|) + ErrorAt(occ + [o], |occ|)
  {
    hide ErrorAt;
    ErrorsOfPrefix(occ, [o], |occ|);
  }

  lemma OnlyCodeNothing()
    ensures OnlyCode([]) == []
  {
  }

  lemma Associative<T>(a: seq<T>, b: seq<T>, c: seq<T>)
    ensures (a + b) + c == a + (b + c)
  {
  }

  lemma {:induction false} SectionStep(
    s: Section, i: nat, seen: map<string, Path>, agent: bool, occ: seq<Occurrence>, n: nat)
    requires Tracks(seen, occ) && n <= |s.assertions|
    ensures var all := occ + SectionCodes(s, i, n);
            && Tracks(SectionSeen(s, i, seen, n), all)
            && ErrorsOf(all, |all|)
               == ErrorsOf(occ, |occ|) + OnlyCode(AssertionListErrors(s, i, seen, agent, n))
  {
    hide AssertionErrors, Record, Tracks, ErrorsOf;
    if n == 0 {
      assert occ + SectionCodes(s, i, n) == occ;
    } else {
      hide OnlyCode;
      SectionStep(s, i, seen, agent, occ, n - 1);
      var before := occ + SectionCodes(s, i, n - 1);
      var a := s.assertions[n - 1];
      var first := AssertionListErrors(s, i, seen, agent, n - 1);
      var last := AssertionErrors(a, i, n - 1, SectionSeen(s, i, seen, n - 1), agent);
      AssertionStep(a, i, n - 1, SectionSeen(s, i, seen, n - 1), agent, before);
      assert occ + SectionCodes(s, i, n) == before + [Occurrence(a.code, AssertionCode(i, n - 1))];
      OnlyCodeConcat(first, last);
      Associative(ErrorsOf(occ, |occ|), OnlyCode(first), OnlyCode(last));
    }
  }

  lemma SectionErrorsOnly(s: Section, i: nat, seen: map<string, Path>, agent: bool)
    ensures OnlyCode(SectionErrors(s, i, seen, agent))
            == OnlyCode(AssertionListErrors(s, i, seen, agent, |s.assertions|))
  {
    var title := TitleErrors(s.title, SectionTitle(i));
    OnlyCodeNone(title);
    if |s.assertions| == 0 {
      OnlyCodeNone(SectionErrors(s, i, seen, agent));
    } else {
      OnlyCodeConcat(title, AssertionListErrors(s, i, seen, agent, |s.assertions|));
    }
  }

  lemma NothingSeen()
    ensures Tracks(map[], []) && ErrorsOf([], 0) == OnlyCode([])
  {
  }

  lemma {:induction false} PlaybookStep(p: Playbook, agent: bool, n: nat)
    requires n <= |p.sections|
    ensures Tracks(PlaybookSeen(p, n), CodesUpTo(p, n))
    ensures ErrorsOf(CodesUpTo(p, n), |CodesUpTo(p, n)|) == OnlyCode(SectionListErrors(p, agent, n))
  {
    hide SectionErrors, AssertionListErrors, Tracks, OnlyCode, ErrorsOf, SectionSeen, SectionCodes;
    if n == 0 {
      NothingSeen();
    } else {
      PlaybookStep(p, agent, n - 1);
      var s, seen, occ := p.sections[n - 1], PlaybookSeen(p, n - 1), CodesUpTo(p, n - 1);
      var first, last := SectionListErrors(p, agent, n - 1), SectionErrors(s, n - 1, seen, agent);
      SectionStep(s, n - 1, seen, agent, occ, |s.assertions|);
      SectionErrorsOnly(s, n - 1, seen, agent);
      OnlyCodeConcat(first, last);
      assert SectionListErrors(p, agent, n) == first + last;
      assert CodesUpTo(p, n) == occ + SectionCodes(s, n - 1, |s.assertions|);
    }
  }

  lemma HeadErrorsPlain(p: Playbook)
    ensures OnlyCode(HeadErrors(p)) == []
  {
    OnlyCodeNone(HeadErrors(p));
  }

  /** The table threaded through three levels of methods reports exactly what the flat code list
      deserves, whatever else is wrong with the playbook and whether or not an agent validates it. */
  lemma CodeErrorsAreExact(p: Playbook, agent: bool)
    ensures OnlyCode(PlaybookErrors(p, agent)) == ErrorsOf(Codes(p), |Codes(p)|)
  {
    hide HeadErrors, SectionListErrors;
    HeadErrorsPlain(p);
    OnlyCodeConcat(HeadErrors(p), BodyErrors(p, agent));
    PlaybookStep(p, agent, |p.sections|);
    if |p.sections| == 0 {
      OnlyCodeNone(BodyErrors(p, agent));
    }
  }

  // ---------------------------------------------------------------- consequences

  function CountKind(errs: seq<ValidationError>, kind: Kind): nat {
    if errs == [] then 0
    else CountKind(errs[..|errs| - 1], kind) + if errs[|errs| - 1].kind == kind then 1 else 0
  }

  function NonBlank(occ: seq<Occurrence>): nat {
    if occ == [] then 0
    else NonBlank(occ[..|occ| - 1]) + if IsBlank(occ[|occ| - 1].code) then 0 else 1
  }

  function Distinct(occ: seq<Occurrence>): set<string> {
    set k | 0 <= k < |occ| && !IsBlank(occ[k].code) :: occ[k].code
  }

  lemma {:induction false} CountConcat(a: seq<ValidationError>, b: seq<ValidationError>, kind: Kind)
    ensures CountKind(a + b, kind) == CountKind(a, kind) + CountKind(b, kind)
  {
    if b == [] {
      assert a + b == a;
    } else {
      CountConcat(a, b[..|b| - 1], kind);
      assert (a + b)[..|a + b| - 1] == a + b[..|b| - 1];
    }
  }

  lemma {:induction false} CountOnlyCode(errs: seq<ValidationError>)
    ensures CountKind(OnlyCode(errs), DuplicateCode) == CountKind(errs, DuplicateCode)
  {
    if errs != [] {
      CountOnlyCode(errs[..|errs| - 1]);
      var last := errs[|errs| - 1];
      var tail := if IsCodeError(last) then [last] else [];
      CountConcat(OnlyCode(errs[..|errs| - 1]), tail, DuplicateCode);
      assert tail == [] || tail[..|tail| - 1] == [];
    }
  }

  lemma DistinctStep(front: seq<Occurrence>, o: Occurrence)
    ensures Distinct(front + [o]) == if IsBlank(o.code) then Distinct(front) else Distinct(front) + {o.code}
    ensures !IsBlank(o.code) ==> (First(front, o.code).Some? <==> o.code in Distinct(front))
  {
    var all := front + [o];
    assert forall k :: 0 <= k < |front| ==> all[k] == front[k];
    assert all[|front|] == o;
    assert forall c :: c in Distinct(front) ==> c in Distinct(all);
    assert !IsBlank(o.code) ==> o.code in Distinct(all);
  }

  lemma CountSingle(e: ValidationError, kind: Kind)
    ensures CountKind([e], kind) == if e.kind == kind then 1 else 0
  {
    assert [e][..0] == [];
  }

  lemma {:induction false} CountFlat(occ: seq<Occurrence>)
    ensures CountKind(ErrorsOf(occ, |occ|), DuplicateCode) + |Distinct(occ)| == NonBlank(occ)
  {
    if occ != [] {
      hide Distinct;
      var front, o := occ[..|occ| - 1], occ[|occ| - 1];
      assert occ == front + [o] && occ[..|front|] == front;
      CountFlat(front);
      ErrorsOfPrefix(front, [o], |front|);
      CountConcat(ErrorsOf(front, |front|), ErrorAt(occ, |front|), DuplicateCode);
      DistinctStep(front, o);
      hide CountKind;
      if IsBlank(o.code) {
        CountSingle(Err(o.path, MissingCode), DuplicateCode);
      } else if First(front, o.code).Some? {
        CountSingle(ValidationError(o.path, DuplicateCode, First(front, o.code)), DuplicateCode);
        assert Distinct(front) + {o.code} == Distinct(front);
      } else {
        assert ErrorAt(occ, |front|) == [];
        CountNone(DuplicateCode);
      }
    }
  }

  lemma CountNone(kind: Kind)
    ensures CountKind([], kind) == 0
  {
  }

  /** DUPLICATE_CODE errors number the non-blank codes minus the distinct ones. */
  lemma DuplicateCount(p: Playbook, agent: bool)
    ensures CountKind(PlaybookErrors(p, agent), DuplicateCode)
            == NonBlank(Codes(p)) - |Distinct(Codes(p))|
  {
    CodeErrorsAreExact(p, agent);
    CountOnlyCode(PlaybookErrors(p, agent));
    CountFlat(Codes(p));
  }

  /** Position k repeats the code that m declared first. */
  predicate Repeats(occ: seq<Occurrence>, m: nat, k: nat) {
    && m < k < |occ| && !IsBlank(occ[k].code) && occ[m].code == occ[k].code
    && forall x :: 0 <= x < m ==> occ[x].code != occ[k].code
  }

  ghost predicate DeservedBy(occ: seq<Occurrence>, e: ValidationError) {
    exists m: nat, k: nat ::
      Repeats(occ, m, k) && e == ValidationError(occ[k].path, DuplicateCode, Some(occ[m].path))
  }

  lemma {:induction false} InOnlyCode(errs: seq<ValidationError>, e: ValidationError)
    ensures e in OnlyCode(errs) <==> e in errs && IsCodeError(e)
  {
    if errs != [] {
      InOnlyCode(errs[..|errs| - 1], e);
    }
  }

  lemma {:induction false} InErrorsOf(occ: seq<Occurrence>, n: nat, e: ValidationError)
    requires n <= |occ|
    ensures e in ErrorsOf(occ, n) <==> exists k: nat :: k < n && e in ErrorAt(occ, k)
  {
    hide ErrorAt;
    if n > 0 {
      InErrorsOf(occ, n - 1, e);
    }
  }

  lemma DeservedAt(occ: seq<Occurrence>, k: nat, e: ValidationError)
    requires k < |occ|
    ensures e in ErrorAt(occ, k) && e.kind == DuplicateCode
            <==> exists m: nat :: Repeats(occ, m, k)
                   && e == ValidationError(occ[k].path, DuplicateCode, Some(occ[m].path))
  {
    var c := occ[k].code;
    var before := occ[..k];
    var first := First(before, c);
    if first.Some? && !IsBlank(c) {
      var m: nat :| m < |before| && before[m] == Occurrence(c, first.value)
                    && forall x :: 0 <= x < m ==> before[x].code != c;
      assert Repeats(occ, m, k);
      assert forall m': nat :: Repeats(occ, m', k) ==> m' == m;
    }
  }

  /** A DUPLICATE_CODE error is reported exactly at each repeated occurrence, and cites the first. */
  lemma DuplicatesAreExact(p: Playbook, agent: bool, e: ValidationError)
    ensures e in PlaybookErrors(p, agent) && e.kind == DuplicateCode <==> DeservedBy(Codes(p), e)
  {
    var occ := Codes(p);
    CodeErrorsAreExact(p, agent);
    InOnlyCode(PlaybookErrors(p, agent), e);
    InErrorsOf(occ, |occ|, e);
    forall k: nat | k < |occ| {
      DeservedAt(occ, k, e);
    }
    if DeservedBy(occ, e) {
      var m: nat, k: nat :|
        Repeats(occ, m, k) && e == ValidationError(occ[k].path, DuplicateCode, Some(occ[m].path));
      DeservedAt(occ, k, e);
    }
  }

  predicate AllDistinct(occ: seq<Occurrence>) {
    && (forall k :: 0 <= k < |occ| ==> !IsBlank(occ[k].code))
    && (forall m, k :: 0 <= m < k < |occ| ==> occ[m].code != occ[k].code)
  }

  lemma AllDistinctStep(front: seq<Occurrence>, o: Occurrence)
    ensures AllDistinct(front + [o]) <==> AllDistinct(front) && !IsBlank(o.code) && First(front, o.code).None?
  {
    var all := front + [o];
    assert all[|front|] == o;
    assert forall k :: 0 <= k < |front| ==> all[k] == front[k];
    if AllDistinct(all) {
      assert forall k :: 0 <= k < |front| ==> front[k].code != all[|front|].code;
    }
  }

  lemma {:induction false} NoErrors(occ: seq<Occurrence>)
    ensures ErrorsOf(occ, |occ|) == [] <==> AllDistinct(occ)
  {
    if occ != [] {
      hide AllDistinct;
      var front, o := occ[..|occ| - 1], occ[|occ| - 1];
      assert occ == front + [o] && occ[..|front|] == front;
      NoErrors(front);
      ErrorsOfPrefix(front, [o], |front|);
      AllDistinctStep(front, o);
    }
  }

  /** No code error at all means exactly: every code is non-blank and no two are equal. */
  lemma NoCodeErrors(p: Playbook, agent: bool)
    ensures (forall e :: e in PlaybookErrors(p, agent) ==> !IsCodeError(e)) <==> AllDistinct(Codes(p))
  {
    CodeErrorsAreExact(p, agent);
    NoErrors(Codes(p));
    var only := OnlyCode(PlaybookErrors(p, agent));
    forall e ensures e in only <==> e in PlaybookErrors(p, agent) && IsCodeError(e) {
      InOnlyCode(PlaybookErrors(p, agent), e);
    }
    if only != [] {
      assert only[0] in only;
    }
  }
}
