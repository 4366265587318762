/** Which file references an agent lets pass: all it looks at are those of the commands, so the gather
    scripts of pre- and post-commands are the ones that can remain, although baking replaces them too. */
module AgentReferences {
  import opened Text
  import opened PlaybookTypes
  import opened Validator
  import opened Preprocess
  import opened Baking

  predicate ExecClear(e: Exec) { e.codeFile == "" && e.shellFuncFile == "" }

  predicate GathersClear(e: Exec) { forall k :: 0 <= k < |e.gather| ==> e.gather[k].codeFile == "" }

  predicate CmdClear(c: Cmd) {
    ExecClear(c.exec) && GathersClear(c.exec) && c.stdOutRule.codeFile == "" && c.stdErrRule.codeFile == ""
  }

  /** No file reference where an agent looks. */
  predicate SeenClear(a: Assertion) {
    && (forall k :: 0 <= k < |a.preCmds| ==> ExecClear(a.preCmds[k]))
    && (forall k :: 0 <= k < |a.cmds| ==> CmdClear(a.cmds[k]))
    && (forall k :: 0 <= k < |a.postCmds| ==> ExecClear(a.postCmds[k]))
  }

  /** No file reference in the gather scripts of pre- and post-commands. */
  predicate HiddenClear(a: Assertion) {
    && (forall k :: 0 <= k < |a.preCmds| ==> GathersClear(a.preCmds[k]))
    && (forall k :: 0 <= k < |a.postCmds| ==> GathersClear(a.postCmds[k]))
  }

  predicate AllSeenClear(p: Playbook) {
    forall i, j :: 0 <= i < |p.sections| && 0 <= j < |p.sections[i].assertions| ==>
      SeenClear(p.sections[i].assertions[j])
  }

  predicate AllHiddenClear(p: Playbook) {
    forall i, j :: 0 <= i < |p.sections| && 0 <= j < |p.sections[i].assertions| ==>
      HiddenClear(p.sections[i].assertions[j])
  }

  // ---------------------------------------------------------------- what the agent finds

  lemma {:induction false} GatherErrorsExact(g: seq<GatherSpec>, i: nat, j: nat, k: nat, n: nat)
    requires n <= |g|
    ensures GatherErrors(g, i, j, k, n) == [] <==> forall x :: 0 <= x < n ==> g[x].codeFile == ""
  {
    if n > 0 {
      GatherErrorsExact(g, i, j, k, n - 1);
    }
  }

  lemma ExecErrorsExact(e: Exec, code: Path, shell: Path)
    ensures ExecErrors(e, code, shell) == [] <==> ExecClear(e)
    ensures ExecErrors(WithoutGathers(e), code, shell) == ExecErrors(e, code, shell)
  {
  }

  lemma CmdErrorsExact(c: Cmd, i: nat, j: nat, k: nat)
    ensures CmdFileErrors(c, i, j, k) == [] <==> CmdClear(c)
  {
    GatherErrorsExact(c.exec.gather, i, j, k, |c.exec.gather|);
  }

  lemma {:induction false} PreCmdErrorsExact(a: Assertion, i: nat, j: nat, n: nat)
    requires n <= |a.preCmds|
    ensures PreCmdErrors(a, i, j, n) == [] <==> forall x :: 0 <= x < n ==> ExecClear(a.preCmds[x])
  {
    hide ExecErrors, ExecClear;
    if n > 0 {
      PreCmdErrorsExact(a, i, j, n - 1);
      ExecErrorsExact(a.preCmds[n - 1], PreCmdFile(i, j, n - 1, false), PreCmdFile(i, j, n - 1, true));
    }
  }

  lemma {:induction false} PostCmdErrorsExact(a: Assertion, i: nat, j: nat, n: nat)
    requires n <= |a.postCmds|
    ensures PostCmdErrors(a, i, j, n) == [] <==> forall x :: 0 <= x < n ==> ExecClear(a.postCmds[x])
  {
    hide ExecErrors, ExecClear;
    if n > 0 {
      PostCmdErrorsExact(a, i, j, n - 1);
      ExecErrorsExact(a.postCmds[n - 1], PostCmdFile(i, j, n - 1, false), PostCmdFile(i, j, n - 1, true));
    }
  }

  lemma {:induction false} MainErrorsExact(a: Assertion, i: nat, j: nat, n: nat)
    requires n <= |a.cmds|
    ensures CmdErrors(a, i, j, n) == [] <==> forall x :: 0 <= x < n ==> CmdClear(a.cmds[x])
  {
    hide CmdFileErrors, CmdClear;
    if n > 0 {
      MainErrorsExact(a, i, j, n - 1);
      CmdErrorsExact(a.cmds[n - 1], i, j, n - 1);
    }
  }

  lemma AgentErrorsExact(a: Assertion, i: nat, j: nat)
    ensures AgentErrors(a, i, j) == [] <==> SeenClear(a)
  {
    hide ExecClear, CmdClear;
    PreCmdErrorsExact(a, i, j, |a.preCmds|);
    MainErrorsExact(a, i, j, |a.cmds|);
    PostCmdErrorsExact(a, i, j, |a.postCmds|);
  }

  lemma {:induction false} AssertionsExact(s: Section, i: nat, seen: map<string, Path>, n: nat)
    requires n <= |s.assertions|
    ensures AssertionListErrors(s, i, seen, true, n) == []
            <==> AssertionListErrors(s, i, seen, false, n) == []
                 && forall j :: 0 <= j < n ==> SeenClear(s.assertions[j])
  {
    hide AgentErrors, SeenClear, CodeErrors, Record;
    if n > 0 {
      AssertionsExact(s, i, seen, n - 1);
      AgentErrorsExact(s.assertions[n - 1], i, n - 1);
    }
  }

  lemma {:induction false} SectionsExact(p: Playbook, n: nat)
    requires n <= |p.sections|
    ensures SectionListErrors(p, true, n) == []
            <==> SectionListErrors(p, false, n) == [] && forall i, j ::
                   0 <= i < n && 0 <= j < |p.sections[i].assertions| ==> SeenClear(p.sections[i].assertions[j])
  {
    hide SeenClear, TitleErrors, AssertionListErrors;
    if n > 0 {
      SectionsExact(p, n - 1);
      var s := p.sections[n - 1];
      AssertionsExact(s, n - 1, PlaybookSeen(p, n - 1), |s.assertions|);
    }
  }

  /** An agent accepts a playbook exactly when a builder does and no file reference is left in a command,
      its rules and its gathers, or in the scripts of a pre- or post-command. */
  lemma AgentAcceptsExactly(p: Playbook)
    ensures PlaybookErrors(p, true) == [] <==> PlaybookErrors(p, false) == [] && AllSeenClear(p)
  {
    hide SeenClear, SectionListErrors, HeadErrors;
    SectionsExact(p, |p.sections|);
  }

  // ---------------------------------------------------------------- what can remain

  lemma {:induction false} ConcatUnreferenced<T(!new)>(f: T -> seq<Slot>, xs: seq<T>)
    ensures Unreferenced(Concat(f, xs)) <==> forall i :: 0 <= i < |xs| ==> Unreferenced(f(xs[i]))
  {
    if xs != [] {
      var n := |xs| - 1;
      ConcatUnreferenced(f, xs[..n]);
      BothUnreferenced(Concat(f, xs[..n]), f(xs[n]));
      assert forall i :: 0 <= i < n ==> xs[..n][i] == xs[i];
    }
  }

  lemma BothUnreferenced(a: seq<Slot>, b: seq<Slot>)
    ensures Unreferenced(a + b) <==> Unreferenced(a) && Unreferenced(b)
  {
    if Unreferenced(a + b) {
      NoFilesSplit(a, b);
    }
  }

  lemma ExecUnreferenced(e: Exec)
    ensures Unreferenced(ExecSlots(e)) <==> ExecClear(e) && GathersClear(e)
  {
    var own := [Slot(e.shellFuncFile, e.shellFunc), Slot(e.codeFile, e.code)];
    BothUnreferenced(own, Concat(GatherSlots, e.gather));
    ConcatUnreferenced(GatherSlots, e.gather);
    assert own[0].file == e.shellFuncFile && own[1].file == e.codeFile;
    assert forall k :: 0 <= k < |e.gather| ==> GatherSlots(e.gather[k])[0].file == e.gather[k].codeFile;
  }

  lemma CmdUnreferenced(c: Cmd)
    ensures Unreferenced(CmdSlots(c)) <==> CmdClear(c)
  {
    hide ExecSlots, ExecClear, GathersClear;
    ExecUnreferenced(c.exec);
    BothUnreferenced(ExecSlots(c.exec) + RuleSlots(c.stdOutRule), RuleSlots(c.stdErrRule));
    BothUnreferenced(ExecSlots(c.exec), RuleSlots(c.stdOutRule));
    assert RuleSlots(c.stdOutRule)[0].file == c.stdOutRule.codeFile;
    assert RuleSlots(c.stdErrRule)[0].file == c.stdErrRule.codeFile;
  }

  lemma AssertionUnreferenced(a: Assertion)
    ensures Unreferenced(AssertionSlots(a)) <==> SeenClear(a) && HiddenClear(a)
  {
    hide ExecSlots, CmdSlots, Unreferenced, ExecClear, GathersClear, CmdClear, Concat;
    var pre, main, post := Concat(ExecSlots, a.preCmds), Concat(CmdSlots, a.cmds), Concat(ExecSlots, a.postCmds);
    BothUnreferenced(pre + main, post);
    BothUnreferenced(pre, main);
    ConcatUnreferenced(ExecSlots, a.preCmds);
    ConcatUnreferenced(CmdSlots, a.cmds);
    ConcatUnreferenced(ExecSlots, a.postCmds);
    forall k | 0 <= k < |a.preCmds|
      ensures Unreferenced(ExecSlots(a.preCmds[k])) <==> ExecClear(a.preCmds[k]) && GathersClear(a.preCmds[k])
    {
      ExecUnreferenced(a.preCmds[k]);
    }
    forall k | 0 <= k < |a.cmds| ensures Unreferenced(CmdSlots(a.cmds[k])) <==> CmdClear(a.cmds[k]) {
      CmdUnreferenced(a.cmds[k]);
    }
    forall k | 0 <= k < |a.postCmds|
      ensures Unreferenced(ExecSlots(a.postCmds[k])) <==> ExecClear(a.postCmds[k]) && GathersClear(a.postCmds[k])
    {
      ExecUnreferenced(a.postCmds[k]);
    }
  }

  /** A playbook is free of references, as a successful bake leaves it, exactly when both kinds are gone. */
  lemma UnreferencedExactly(p: Playbook)
    ensures Unreferenced(Slots(p)) <==> AllSeenClear(p) && AllHiddenClear(p)
  {
    hide Unreferenced, AssertionSlots, SeenClear, HiddenClear, Concat;
    ConcatUnreferenced(SectionSlots, p.sections);
    forall i | 0 <= i < |p.sections|
      ensures Unreferenced(SectionSlots(p.sections[i]))
              <==> forall j :: 0 <= j < |p.sections[i].assertions| ==>
                     SeenClear(p.sections[i].assertions[j]) && HiddenClear(p.sections[i].assertions[j])
    {
      var s := p.sections[i];
      ConcatUnreferenced(AssertionSlots, s.assertions);
      forall j | 0 <= j < |s.assertions|
        ensures Unreferenced(AssertionSlots(s.assertions[j]))
                <==> SeenClear(s.assertions[j]) && HiddenClear(s.assertions[j])
      {
        AssertionUnreferenced(s.assertions[j]);
      }
    }
  }

  /** In a playbook an agent accepts, the references that remain are those of the gather scripts of pre- and
      post-commands. */
  lemma AcceptedIsBakedExactly(p: Playbook)
    requires PlaybookErrors(p, true) == []
    ensures Unreferenced(Slots(p)) <==> AllHiddenClear(p)
  {
    hide PlaybookErrors, AllSeenClear, AllHiddenClear, Unreferenced;
    AgentAcceptsExactly(p);
    UnreferencedExactly(p);
  }

  // ---------------------------------------------------------------- and any of those can

  function WithoutGathers(e: Exec): Exec { e.(gather := []) }

  function WithoutHidden(a: Assertion): Assertion {
    a.(preCmds := Each(WithoutGathers, a.preCmds), postCmds := Each(WithoutGathers, a.postCmds))
  }

  function SectionWithoutHidden(s: Section): Section { s.(assertions := Each(WithoutHidden, s.assertions)) }

  function PlaybookWithoutHidden(p: Playbook): Playbook { p.(sections := Each(SectionWithoutHidden, p.sections)) }

  lemma {:induction false} PreCmdsAlike(a: Assertion, i: nat, j: nat, n: nat)
    requires n <= |a.preCmds|
    ensures PreCmdErrors(WithoutHidden(a), i, j, n) == PreCmdErrors(a, i, j, n)
  {
    hide ExecErrors, WithoutGathers;
    if n > 0 {
      PreCmdsAlike(a, i, j, n - 1);
      ExecErrorsExact(a.preCmds[n - 1], PreCmdFile(i, j, n - 1, false), PreCmdFile(i, j, n - 1, true));
    }
  }

  lemma {:induction false} PostCmdsAlike(a: Assertion, i: nat, j: nat, n: nat)
    requires n <= |a.postCmds|
    ensures PostCmdErrors(WithoutHidden(a), i, j, n) == PostCmdErrors(a, i, j, n)
  {
    hide ExecErrors, WithoutGathers;
    if n > 0 {
      PostCmdsAlike(a, i, j, n - 1);
      ExecErrorsExact(a.postCmds[n - 1], PostCmdFile(i, j, n - 1, false), PostCmdFile(i, j, n - 1, true));
    }
  }

  lemma {:induction false} MainAlike(a: Assertion, i: nat, j: nat, n: nat)
    requires n <= |a.cmds|
    ensures CmdErrors(WithoutHidden(a), i, j, n) == CmdErrors(a, i, j, n)
  {
    hide CmdFileErrors;
    if n > 0 {
      MainAlike(a, i, j, n - 1);
    }
  }

  lemma {:induction false} AssertionsSame(s: Section, i: nat, seen: map<string, Path>, agent: bool, n: nat)
    requires n <= |s.assertions|
    ensures var t := SectionWithoutHidden(s);
            && |t.assertions| == |s.assertions|
            && SectionSeen(t, i, seen, n) == SectionSeen(s, i, seen, n)
            && AssertionListErrors(t, i, seen, agent, n) == AssertionListErrors(s, i, seen, agent, n)
  {
    hide AssertionErrors, Record, WithoutHidden;
    if n > 0 {
      AssertionsSame(s, i, seen, agent, n - 1);
      var a := s.assertions[n - 1];
      assert SectionWithoutHidden(s).assertions[n - 1] == WithoutHidden(a);
      AssertionSame(a, i, n - 1, SectionSeen(s, i, seen, n - 1), agent);
    }
  }

  lemma AssertionSame(a: Assertion, i: nat, j: nat, seen: map<string, Path>, agent: bool)
    ensures WithoutHidden(a).code == a.code
    ensures AssertionErrors(WithoutHidden(a), i, j, seen, agent) == AssertionErrors(a, i, j, seen, agent)
  {
    hide CodeErrors, PreCmdErrors, CmdErrors, PostCmdErrors, WithoutGathers;
    PreCmdsAlike(a, i, j, |a.preCmds|);
    MainAlike(a, i, j, |a.cmds|);
    PostCmdsAlike(a, i, j, |a.postCmds|);
  }

  lemma {:induction false} SectionsSame(p: Playbook, agent: bool, n: nat)
    requires n <= |p.sections|
    ensures var q := PlaybookWithoutHidden(p);
            && |q.sections| == |p.sections|
            && PlaybookSeen(q, n) == PlaybookSeen(p, n)
            && SectionListErrors(q, agent, n) == SectionListErrors(p, agent, n)
  {
    hide SectionWithoutHidden, TitleErrors, AssertionListErrors, SectionSeen;
    if n > 0 {
      SectionsSame(p, agent, n - 1);
      var s := p.sections[n - 1];
      AssertionsSame(s, n - 1, PlaybookSeen(p, n - 1), agent, |s.assertions|);
      SameTitle(s);
    }
  }

  lemma SameTitle(s: Section)
    ensures SectionWithoutHidden(s).title == s.title
  {
  }

  /** No validation looks at the gathers of pre- and post-commands: playbooks that differ only there have the
      same errors, in either mode. */
  lemma HiddenGathersDoNotMatter(p: Playbook, q: Playbook, agent: bool)
    requires PlaybookWithoutHidden(p) == PlaybookWithoutHidden(q)
    ensures PlaybookErrors(p, agent) == PlaybookErrors(q, agent)
  {
    hide SectionListErrors, SectionWithoutHidden, HeadErrors;
    SectionsSame(p, agent, |p.sections|);
    SectionsSame(q, agent, |q.sections|);
    SameHeadWithout(p);
    SameHeadWithout(q);
  }

  lemma SameHeadWithout(p: Playbook)
    ensures HeadErrors(PlaybookWithoutHidden(p)) == HeadErrors(p)
  {
  }
}
