/** What Preprocess promises: the baked prefix, the untouched rest, idempotence, and that a baked
    playbook validates for an agent exactly as the original validates for a builder. */
module Baking {
  import opened Text
  import opened PlaybookTypes
  import opened Validator
  import opened Preprocess

  /** The first slot whose file does not transpile; the length when there is none. */
  function Cut(t: Transpile, ss: seq<Slot>): (k: nat)
    ensures k <= |ss|
    ensures forall i :: 0 <= i < k ==> ss[i].file == "" || t(ss[i].file).Some?
    ensures k < |ss| ==> ss[k].file != "" && t(ss[k].file).None?
  {
    if ss == [] then 0
    else
      var front, last := ss[..|ss| - 1], ss[|ss| - 1];
      var k := Cut(t, front);
      if k < |front| then assert ss[k] == front[k]; k
      else if last.file != "" && t(last.file).None? then |front|
      else |ss|
  }

  function BakedSlot(t: Transpile, s: Slot): Slot {
    if s.file == "" || t(s.file).None? then s else Slot("", t(s.file).value)
  }

  /** The file references among some slots, in order. */
  function Files(ss: seq<Slot>): seq<string> {
    if ss == [] then []
    else Files(ss[..|ss| - 1]) + if ss[|ss| - 1].file == "" then [] else [ss[|ss| - 1].file]
  }

  /** Everything before the cut is baked, everything from the cut on is untouched, and the calls made
      are the references before the cut and the failing one. */
  predicate BakedUpToCut(t: Transpile, ss: seq<Slot>, r: Baked) {
    var k := Cut(t, ss);
    && |r.slots| == |ss|
    && (forall i :: 0 <= i < k ==> r.slots[i] == BakedSlot(t, ss[i]))
    && (forall i :: k <= i < |ss| ==> r.slots[i] == ss[i])
    && r.failed == (if k < |ss| then Some(ss[k].file) else None)
    && r.calls == Files(ss[..k]) + (if k < |ss| then [ss[k].file] else [])
  }

  lemma CutStep(t: Transpile, front: seq<Slot>, last: Slot)
    ensures Cut(t, front + [last])
            == if Cut(t, front) == |front| && (last.file == "" || t(last.file).Some?)
               then |front| + 1 else Cut(t, front)
  {
    var ss := front + [last];
    assert ss[..|ss| - 1] == front;
  }

  lemma BakeMeaningStep(t: Transpile, front: seq<Slot>, last: Slot, r: Baked)
    requires BakedUpToCut(t, front, r)
    ensures BakedUpToCut(t, front + [last], Continue(r, [last], BakeOne(t, last)))
  {
    hide Files, Cut;
    var k, ss := Cut(t, front), front + [last];
    CutStep(t, front, last);
    assert ss[..k] == front[..k] && ss[..|front|] == front;
    if k == |front| && last.file != "" && t(last.file).Some? {
      FilesStep(front, last);
      assert ss[..|front| + 1] == ss;
    } else if k == |front| && last.file == "" {
      FilesStep(front, last);
      assert ss[..|front| + 1] == ss;
    }
  }

  lemma FilesStep(front: seq<Slot>, last: Slot)
    ensures Files(front + [last]) == Files(front) + if last.file == "" then [] else [last.file]
  {
    var ss := front + [last];
    assert ss[..|ss| - 1] == front;
  }

  lemma NothingToBake(t: Transpile)
    ensures BakedUpToCut(t, [], BakeSlots(t, []))
  {
  }

  lemma {:induction false} BakeMeaning(t: Transpile, ss: seq<Slot>)
    ensures BakedUpToCut(t, ss, BakeSlots(t, ss))
  {
    hide BakedUpToCut;
    if ss == [] {
      NothingToBake(t);
    } else {
      var front, last := ss[..|ss| - 1], ss[|ss| - 1];
      BakeMeaning(t, front);
      BakeMeaningStep(t, front, last, BakeSlots(t, front));
      assert ss == front + [last];
    }
  }

  /** Preprocess stops at the first reference, in walk order, that does not transpile: everything
      before it is baked, it and everything after are untouched, and it succeeds exactly when
      every reference transpiles. */
  lemma PreprocessMeaning(t: Transpile, before: Playbook, after: Playbook, calls: seq<string>, failed: Option<string>)
    requires Outcome(t, Slots, Strip, before, after, calls, failed)
    ensures BakedUpToCut(t, Slots(before), Baked(Slots(after), calls, failed))
    ensures failed.None? <==> forall i :: 0 <= i < |Slots(before)| ==>
                                Slots(before)[i].file == "" || t(Slots(before)[i].file).Some?
  {
    BakeMeaning(t, Slots(before));
  }

  // ---------------------------------------------------------------- slots and skeleton determine the value

  lemma {:induction false} ConcatSplit<T(!new)>(f: T -> seq<Slot>, xs: seq<T>, ys: seq<T>)
    requires |xs| == |ys| && Concat(f, xs) == Concat(f, ys)
    requires forall i :: 0 <= i < |xs| ==> |f(xs[i])| == |f(ys[i])|
    ensures forall i :: 0 <= i < |xs| ==> f(xs[i]) == f(ys[i])
  {
    if xs != [] {
      var n := |xs| - 1;
      var a, b := Concat(f, xs[..n]), Concat(f, ys[..n]);
      assert Concat(f, xs) == a + f(xs[n]) && Concat(f, ys) == b + f(ys[n]);
      assert |a| == |b|;
      assert a == Concat(f, xs)[..|a|] == b;
      assert f(xs[n]) == Concat(f, xs)[|a|..] == f(ys[n]);
      ConcatSplit(f, xs[..n], ys[..n]);
      forall i | 0 <= i < |xs| ensures f(xs[i]) == f(ys[i]) {
        if i < n {
          assert xs[..n][i] == xs[i] && ys[..n][i] == ys[i];
        }
      }
    }
  }

  lemma {:induction false} ConcatLength<T(!new)>(f: T -> seq<Slot>, xs: seq<T>, ys: seq<T>)
    requires |xs| == |ys|
    requires forall i :: 0 <= i < |xs| ==> |f(xs[i])| == |f(ys[i])|
    ensures |Concat(f, xs)| == |Concat(f, ys)|
  {
    if xs != [] {
      var n := |xs| - 1;
      ConcatLength(f, xs[..n], ys[..n]);
    }
  }

  /** The element-wise facts a list equality of stripped elements carries. */
  lemma EachEqual<T(!new), U(!new)>(f: T -> U, xs: seq<T>, ys: seq<T>)
    requires Each(f, xs) == Each(f, ys)
    ensures |xs| == |ys| && forall i :: 0 <= i < |xs| ==> f(xs[i]) == f(ys[i])
  {
    assert forall i :: 0 <= i < |xs| ==> f(xs[i]) == Each(f, xs)[i];
  }

  lemma GathersLength(x: Exec, y: Exec)
    requires StripExec(x) == StripExec(y)
    ensures |Concat(GatherSlots, x.gather)| == |Concat(GatherSlots, y.gather)|
  {
    EachEqual(StripGather, x.gather, y.gather);
    ConcatLength(GatherSlots, x.gather, y.gather);
  }

  lemma SameExec(x: Exec, y: Exec)
    requires StripExec(x) == StripExec(y)
    ensures |ExecSlots(x)| == |ExecSlots(y)|
    ensures ExecSlots(x) == ExecSlots(y) ==> x == y
  {
    GathersLength(x, y);
    if ExecSlots(x) == ExecSlots(y) {
      hide Concat;
      assert ExecSlots(x)[0] == ExecSlots(y)[0] && ExecSlots(x)[1] == ExecSlots(y)[1];
      assert Concat(GatherSlots, x.gather) == ExecSlots(x)[2..] == ExecSlots(y)[2..] == Concat(GatherSlots, y.gather);
      EachEqual(StripGather, x.gather, y.gather);
      ConcatSplit(GatherSlots, x.gather, y.gather);
      forall i | 0 <= i < |x.gather| ensures x.gather[i] == y.gather[i] {
        assert GatherSlots(x.gather[i])[0] == GatherSlots(y.gather[i])[0];
        assert StripGather(x.gather[i]) == StripGather(y.gather[i]);
      }
    }
  }

  lemma SameExecs(xs: seq<Exec>, ys: seq<Exec>)
    requires Each(StripExec, xs) == Each(StripExec, ys)
    ensures |Concat(ExecSlots, xs)| == |Concat(ExecSlots, ys)|
    ensures Concat(ExecSlots, xs) == Concat(ExecSlots, ys) ==> xs == ys
  {
    hide Concat, ExecSlots, StripExec;
    EachEqual(StripExec, xs, ys);
    forall i | 0 <= i < |xs|
      ensures |ExecSlots(xs[i])| == |ExecSlots(ys[i])| && (ExecSlots(xs[i]) == ExecSlots(ys[i]) ==> xs[i] == ys[i])
    {
      SameExec(xs[i], ys[i]);
    }
    ConcatLength(ExecSlots, xs, ys);
    if Concat(ExecSlots, xs) == Concat(ExecSlots, ys) {
      ConcatSplit(ExecSlots, xs, ys);
    }
  }

  lemma SameCmd(x: Cmd, y: Cmd)
    requires StripCmd(x) == StripCmd(y)
    ensures |CmdSlots(x)| == |CmdSlots(y)|
    ensures CmdSlots(x) == CmdSlots(y) ==> x == y
  {
    hide ExecSlots, StripExec;
    SameExec(x.exec, y.exec);
    if CmdSlots(x) == CmdSlots(y) {
      var n := |ExecSlots(x.exec)|;
      assert ExecSlots(x.exec) == CmdSlots(x)[..n] == CmdSlots(y)[..n] == ExecSlots(y.exec);
      assert CmdSlots(x)[n] == CmdSlots(y)[n] && CmdSlots(x)[n + 1] == CmdSlots(y)[n + 1];
    }
  }

  lemma SameCmds(xs: seq<Cmd>, ys: seq<Cmd>)
    requires Each(StripCmd, xs) == Each(StripCmd, ys)
    ensures |Concat(CmdSlots, xs)| == |Concat(CmdSlots, ys)|
    ensures Concat(CmdSlots, xs) == Concat(CmdSlots, ys) ==> xs == ys
  {
    hide Concat, CmdSlots, StripCmd;
    EachEqual(StripCmd, xs, ys);
    forall i | 0 <= i < |xs|
      ensures |CmdSlots(xs[i])| == |CmdSlots(ys[i])| && (CmdSlots(xs[i]) == CmdSlots(ys[i]) ==> xs[i] == ys[i])
    {
      SameCmd(xs[i], ys[i]);
    }
    ConcatLength(CmdSlots, xs, ys);
    if Concat(CmdSlots, xs) == Concat(CmdSlots, ys) {
      ConcatSplit(CmdSlots, xs, ys);
    }
  }

  lemma SplitThree<T>(a: seq<T>, b: seq<T>, c: seq<T>, a': seq<T>, b': seq<T>, c': seq<T>)
    requires |a| == |a'| && |b| == |b'| && a + b + c == a' + b' + c'
    ensures a == a' && b == b' && c == c'
  {
    var w, w' := a + b + c, a' + b' + c';
    var m, n := |a|, |a| + |b|;
    assert a == w[..m] && b == w[m..n] && c == w[n..];
    assert a' == w'[..m] && b' == w'[m..n] && c' == w'[n..];
  }

  lemma SameAssertion(x: Assertion, y: Assertion)
    requires StripAssertion(x) == StripAssertion(y)
    ensures |AssertionSlots(x)| == |AssertionSlots(y)|
    ensures AssertionSlots(x) == AssertionSlots(y) ==> x == y
  {
    hide Concat, Each;
    SameExecs(x.preCmds, y.preCmds);
    SameCmds(x.cmds, y.cmds);
    SameExecs(x.postCmds, y.postCmds);
    if AssertionSlots(x) == AssertionSlots(y) {
      SplitThree(Concat(ExecSlots, x.preCmds), Concat(CmdSlots, x.cmds), Concat(ExecSlots, x.postCmds),
                 Concat(ExecSlots, y.preCmds), Concat(CmdSlots, y.cmds), Concat(ExecSlots, y.postCmds));
    }
  }

  lemma SameSection(x: Section, y: Section)
    requires StripSection(x) == StripSection(y)
    ensures |SectionSlots(x)| == |SectionSlots(y)|
    ensures SectionSlots(x) == SectionSlots(y) ==> x == y
  {
    hide Concat, AssertionSlots, StripAssertion;
    var xs, ys := x.assertions, y.assertions;
    EachEqual(StripAssertion, xs, ys);
    forall i | 0 <= i < |xs|
      ensures |AssertionSlots(xs[i])| == |AssertionSlots(ys[i])|
              && (AssertionSlots(xs[i]) == AssertionSlots(ys[i]) ==> xs[i] == ys[i])
    {
      SameAssertion(xs[i], ys[i]);
    }
    ConcatLength(AssertionSlots, xs, ys);
    if SectionSlots(x) == SectionSlots(y) {
      ConcatSplit(AssertionSlots, xs, ys);
    }
  }

  /** A playbook is determined by its slots and the rest of it. */
  lemma SamePlaybook(x: Playbook, y: Playbook)
    requires Strip(x) == Strip(y) && Slots(x) == Slots(y)
    ensures x == y
  {
    hide Concat, SectionSlots, StripSection;
    var xs, ys := x.sections, y.sections;
    EachEqual(StripSection, xs, ys);
    forall i | 0 <= i < |xs|
      ensures |SectionSlots(xs[i])| == |SectionSlots(ys[i])|
              && (SectionSlots(xs[i]) == SectionSlots(ys[i]) ==> xs[i] == ys[i])
    {
      SameSection(xs[i], ys[i]);
    }
    ConcatSplit(SectionSlots, xs, ys);
  }

  /** After a successful pass a second one, with any transpiler, changes nothing and calls it never. */
  lemma SecondPassDoesNothing(
    t: Transpile, p: Playbook, once: Playbook, calls: seq<string>,
    u: Transpile, twice: Playbook, more: seq<string>, failed: Option<string>)
    requires Outcome(t, Slots, Strip, p, once, calls, None)
    requires Outcome(u, Slots, Strip, once, twice, more, failed)
    ensures twice == once && more == [] && failed.None?
  {
    PreprocessMeaning(t, p, once, calls, None);
    PreprocessMeaning(u, once, twice, more, failed);
    forall i | 0 <= i < |Slots(once)| ensures Slots(once)[i].file == "" {
      assert Slots(once)[i] == BakedSlot(t, Slots(p)[i]);
    }
    assert Slots(once)[..|Slots(once)|] == Slots(once);
    NoFiles(Slots(once));
    assert Slots(twice) == Slots(once);
    SamePlaybook(twice, once);
  }

  lemma {:induction false} NoFiles(ss: seq<Slot>)
    requires forall i :: 0 <= i < |ss| ==> ss[i].file == ""
    ensures Files(ss) == []
  {
    if ss != [] {
      NoFiles(ss[..|ss| - 1]);
    }
  }

  // ---------------------------------------------------------------- baking and validation

  /** A slot list free of files, spread over the concatenated parts. */
  lemma {:induction false} ConcatNoFiles<T(!new)>(f: T -> seq<Slot>, xs: seq<T>)
    requires Unreferenced(Concat(f, xs))
    ensures forall i :: 0 <= i < |xs| ==> Unreferenced(f(xs[i]))
  {
    if xs != [] {
      var n := |xs| - 1;
      var a, b := Concat(f, xs[..n]), f(xs[n]);
      NoFilesSplit(a, b);
      ConcatNoFiles(f, xs[..n]);
      forall i | 0 <= i < |xs| ensures Unreferenced(f(xs[i])) {
        if i < n {
          assert xs[..n][i] == xs[i];
        }
      }
    }
  }

  predicate Unreferenced(ss: seq<Slot>) { forall i :: 0 <= i < |ss| ==> ss[i].file == "" }

  lemma NoFilesSplit(a: seq<Slot>, b: seq<Slot>)
    requires Unreferenced(a + b)
    ensures Unreferenced(a) && Unreferenced(b)
  {
    assert forall i :: 0 <= i < |a| ==> a[i] == (a + b)[i];
    assert forall i :: 0 <= i < |b| ==> b[i] == (a + b)[|a| + i];
  }

  lemma ExecNoErrors(e: Exec, code: Path, shell: Path)
    requires Unreferenced(ExecSlots(e))
    ensures ExecErrors(e, code, shell) == [] && Unreferenced(Concat(GatherSlots, e.gather))
  {
    assert ExecSlots(e)[0].file == "" && ExecSlots(e)[1].file == "";
    NoFilesSplit([Slot(e.shellFuncFile, e.shellFunc), Slot(e.codeFile, e.code)], Concat(GatherSlots, e.gather));
  }

  lemma {:induction false} GathersNoErrors(g: seq<GatherSpec>, i: nat, j: nat, k: nat, n: nat)
    requires n <= |g| && forall x :: 0 <= x < |g| ==> Unreferenced(GatherSlots(g[x]))
    ensures GatherErrors(g, i, j, k, n) == []
  {
    if n > 0 {
      GathersNoErrors(g, i, j, k, n - 1);
      assert GatherSlots(g[n - 1])[0].file == "";
    }
  }

  lemma CmdNoErrors(c: Cmd, i: nat, j: nat, k: nat)
    requires Unreferenced(CmdSlots(c))
    ensures CmdFileErrors(c, i, j, k) == []
  {
    NoFilesSplit(ExecSlots(c.exec) + RuleSlots(c.stdOutRule), RuleSlots(c.stdErrRule));
    NoFilesSplit(ExecSlots(c.exec), RuleSlots(c.stdOutRule));
    assert RuleSlots(c.stdOutRule)[0].file == "" && RuleSlots(c.stdErrRule)[0].file == "";
    ExecNoErrors(c.exec, CmdExecFile(i, j, k, false), CmdExecFile(i, j, k, true));
    ConcatNoFiles(GatherSlots, c.exec.gather);
    GathersNoErrors(c.exec.gather, i, j, k, |c.exec.gather|);
  }

  lemma {:induction false} PreCmdsNoErrors(a: Assertion, i: nat, j: nat, n: nat)
    requires n <= |a.preCmds| && forall x :: 0 <= x < |a.preCmds| ==> Unreferenced(ExecSlots(a.preCmds[x]))
    ensures PreCmdErrors(a, i, j, n) == []
  {
    hide ExecErrors, ExecSlots;
    if n > 0 {
      PreCmdsNoErrors(a, i, j, n - 1);
      ExecNoErrors(a.preCmds[n - 1], PreCmdFile(i, j, n - 1, false), PreCmdFile(i, j, n - 1, true));
    }
  }

  lemma {:induction false} PostCmdsNoErrors(a: Assertion, i: nat, j: nat, n: nat)
    requires n <= |a.postCmds| && forall x :: 0 <= x < |a.postCmds| ==> Unreferenced(ExecSlots(a.postCmds[x]))
    ensures PostCmdErrors(a, i, j, n) == []
  {
    hide ExecErrors, ExecSlots;
    if n > 0 {
      PostCmdsNoErrors(a, i, j, n - 1);
      ExecNoErrors(a.postCmds[n - 1], PostCmdFile(i, j, n - 1, false), PostCmdFile(i, j, n - 1, true));
    }
  }

  lemma {:induction false} CmdsNoErrors(a: Assertion, i: nat, j: nat, n: nat)
    requires n <= |a.cmds| && forall x :: 0 <= x < |a.cmds| ==> Unreferenced(CmdSlots(a.cmds[x]))
    ensures CmdErrors(a, i, j, n) == []
  {
    hide CmdFileErrors, CmdSlots;
    if n > 0 {
      CmdsNoErrors(a, i, j, n - 1);
      CmdNoErrors(a.cmds[n - 1], i, j, n - 1);
    }
  }

  /** An agent finds nothing to prohibit in an assertion without file references. */
  lemma AssertionNoErrors(a: Assertion, i: nat, j: nat)
    requires Unreferenced(AssertionSlots(a))
    ensures AgentErrors(a, i, j) == []
  {
    hide Concat, Unreferenced, PreCmdErrors, CmdErrors, PostCmdErrors, ExecSlots, CmdSlots;
    var pre, main, post := Concat(ExecSlots, a.preCmds), Concat(CmdSlots, a.cmds), Concat(ExecSlots, a.postCmds);
    NoFilesSplit(pre + main, post);
    NoFilesSplit(pre, main);
    ConcatNoFiles(ExecSlots, a.preCmds);
    ConcatNoFiles(CmdSlots, a.cmds);
    ConcatNoFiles(ExecSlots, a.postCmds);
    PreCmdsNoErrors(a, i, j, |a.preCmds|);
    CmdsNoErrors(a, i, j, |a.cmds|);
    PostCmdsNoErrors(a, i, j, |a.postCmds|);
  }

  lemma {:induction false} SectionAlike(
    s: Section, s': Section, i: nat, seen: map<string, Path>, n: nat)
    requires StripSection(s) == StripSection(s') && n <= |s.assertions|
    requires forall x :: 0 <= x < |s'.assertions| ==> Unreferenced(AssertionSlots(s'.assertions[x]))
    ensures |s.assertions| == |s'.assertions|
    ensures SectionSeen(s', i, seen, n) == SectionSeen(s, i, seen, n)
    ensures AssertionListErrors(s', i, seen, true, n) == AssertionListErrors(s, i, seen, false, n)
  {
    hide StripAssertion, AssertionSlots, AgentErrors, CodeErrors, Record;
    EachEqual(StripAssertion, s.assertions, s'.assertions);
    if n > 0 {
      SectionAlike(s, s', i, seen, n - 1);
      AssertionNoErrors(s'.assertions[n - 1], i, n - 1);
      SameCode(s.assertions[n - 1], s'.assertions[n - 1]);
    }
  }

  lemma SameCode(a: Assertion, a': Assertion)
    requires StripAssertion(a) == StripAssertion(a')
    ensures a.code == a'.code
  {
  }

  lemma {:induction false} SectionsAlike(p: Playbook, p': Playbook, n: nat)
    requires Strip(p) == Strip(p') && Unreferenced(Slots(p')) && n <= |p.sections|
    ensures |p.sections| == |p'.sections|
    ensures PlaybookSeen(p', n) == PlaybookSeen(p, n)
    ensures SectionListErrors(p', true, n) == SectionListErrors(p, false, n)
  {
    hide Concat, Unreferenced, SectionSlots, StripSection, SectionErrors, SectionSeen;
    EachEqual(StripSection, p.sections, p'.sections);
    if n > 0 {
      SectionsAlike(p, p', n - 1);
      ConcatNoFiles(SectionSlots, p'.sections);
      SectionErrorsAlike(p.sections[n - 1], p'.sections[n - 1], n - 1, PlaybookSeen(p, n - 1));
    }
  }

  lemma SectionErrorsAlike(s: Section, s': Section, i: nat, seen: map<string, Path>)
    requires StripSection(s) == StripSection(s') && Unreferenced(SectionSlots(s'))
    ensures |s.assertions| == |s'.assertions|
    ensures SectionSeen(s', i, seen, |s.assertions|) == SectionSeen(s, i, seen, |s.assertions|)
    ensures SectionErrors(s', i, seen, true) == SectionErrors(s, i, seen, false)
  {
    hide Concat, Unreferenced, AssertionSlots, StripAssertion, AssertionListErrors, SectionSeen, TitleErrors;
    ConcatNoFiles(AssertionSlots, s'.assertions);
    SectionAlike(s, s', i, seen, |s.assertions|);
  }

  /** Baking refines validation: what the agent reports on the baked playbook is, error for error,
      what the builder reports on the original. */
  lemma BakedValidatesAlike(t: Transpile, p: Playbook, p': Playbook, calls: seq<string>)
    requires Outcome(t, Slots, Strip, p, p', calls, None)
    ensures PlaybookErrors(p', true) == PlaybookErrors(p, false)
  {
    hide Concat, SectionListErrors, TitleErrors, DestinationErrors;
    PreprocessMeaning(t, p, p', calls, None);
    forall i | 0 <= i < |Slots(p')| ensures Slots(p')[i].file == "" {
      assert Slots(p')[i] == BakedSlot(t, Slots(p)[i]);
    }
    assert Unreferenced(Slots(p'));
    SectionsAlike(p, p', |p.sections|);
    SameHead(p, p');
  }

  lemma SameHead(p: Playbook, p': Playbook)
    requires Strip(p) == Strip(p')
    ensures HeadErrors(p') == HeadErrors(p)
  {
  }
}
