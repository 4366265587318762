/** internal/transpile/preprocess.go: baking external scripts into a playbook, in place.
    The reference semantics is flat: a list of script slots in walk order. */
module Preprocess {
  import opened Text
  import opened PlaybookTypes
  import opened Validator

  /** One place that may name an external script file. */
  datatype Slot = Slot(file: string, code: string)

  /** Transpile under a fixed base directory: a file reference to code, or nothing on error. */
  type Transpile = string -> Option<string>

  datatype Baked = Baked(slots: seq<Slot>, calls: seq<string>, failed: Option<string>)

  function BakeOne(t: Transpile, s: Slot): Baked {
    if s.file == "" then Baked([s], [], None)
    else if t(s.file).None? then Baked([s], [s.file], Some(s.file))
    else Baked([Slot("", t(s.file).value)], [s.file], None)
  }

  /** Continues after r with the slots b, whose own bake is rb; a failure leaves b untouched. */
  function Continue(r: Baked, b: seq<Slot>, rb: Baked): Baked {
    if r.failed.Some? then r.(slots := r.slots + b)
    else Baked(r.slots + rb.slots, r.calls + rb.calls, rb.failed)
  }

  /** Bakes a flat list of slots from the left and stops at the first reference that fails. */
  function BakeSlots(t: Transpile, ss: seq<Slot>): Baked {
    if ss == [] then Baked([], [], None)
    else
      var last := ss[|ss| - 1];
      Continue(BakeSlots(t, ss[..|ss| - 1]), [last], BakeOne(t, last))
  }

  // ---------------------------------------------------------------- slots and the rest

  function Concat<T>(f: T -> seq<Slot>, xs: seq<T>): seq<Slot> {
    if xs == [] then [] else Concat(f, xs[..|xs| - 1]) + f(xs[|xs| - 1])
  }

  function Each<T, U>(f: T -> U, xs: seq<T>): (r: seq<U>)
    ensures |r| == |xs| && forall i :: 0 <= i < |xs| ==> r[i] == f(xs[i])
  {
    seq(|xs|, i requires 0 <= i < |xs| => f(xs[i]))
  }

  function GatherSlots(g: GatherSpec): seq<Slot> { [Slot(g.codeFile, g.code)] }

  function ExecSlots(e: Exec): seq<Slot> {
    [Slot(e.shellFuncFile, e.shellFunc), Slot(e.codeFile, e.code)] + Concat(GatherSlots, e.gather)
  }

  function RuleSlots(r: EvaluationRule): seq<Slot> { [Slot(r.codeFile, r.code)] }

  function CmdSlots(c: Cmd): seq<Slot> {
    ExecSlots(c.exec) + RuleSlots(c.stdOutRule) + RuleSlots(c.stdErrRule)
  }

  function AssertionSlots(a: Assertion): seq<Slot> {
    Concat(ExecSlots, a.preCmds) + Concat(CmdSlots, a.cmds) + Concat(ExecSlots, a.postCmds)
  }

  function SectionSlots(s: Section): seq<Slot> { Concat(AssertionSlots, s.assertions) }

  /** All slots of the playbook in the order Preprocess walks them. */
  function Slots(p: Playbook): seq<Slot> { Concat(SectionSlots, p.sections) }

  // The Strip functions blank the slots and keep everything else.

  function StripGather(g: GatherSpec): GatherSpec { g.(code := "", codeFile := "") }

  function StripExec(e: Exec): Exec {
    e.(shellFunc := "", shellFuncFile := "", code := "", codeFile := "", gather := Each(StripGather, e.gather))
  }

  function StripRule(r: EvaluationRule): EvaluationRule { r.(code := "", codeFile := "") }

  function StripCmd(c: Cmd): Cmd {
    c.(exec := StripExec(c.exec), stdOutRule := StripRule(c.stdOutRule), stdErrRule := StripRule(c.stdErrRule))
  }

  function StripAssertion(a: Assertion): Assertion {
    a.(preCmds := Each(StripExec, a.preCmds), cmds := Each(StripCmd, a.cmds),
       postCmds := Each(StripExec, a.postCmds))
  }

  function StripSection(s: Section): Section { s.(assertions := Each(StripAssertion, s.assertions)) }

  function Strip(p: Playbook): Playbook { p.(sections := Each(StripSection, p.sections)) }

  // ---------------------------------------------------------------- the walk

  /** The transpiler with the record of its calls. */
  class Transpiler {
    const transpile: Transpile
    var calls: seq<string>

    constructor (t: Transpile)
      ensures transpile == t && calls == []
    {
      transpile := t;
      calls := [];
    }

    method Run(file: string) returns (code: Option<string>)
      modifies this
      ensures code == transpile(file) && calls == old(calls) + [file]
    {
      code := transpile(file);
      calls := calls + [file];
    }
  }

  lemma ContinueAssociates(r: Baked, b: seq<Slot>, rb: Baked, c: seq<Slot>, rc: Baked)
    ensures Continue(Continue(r, b, rb), c, rc) == Continue(r, b + c, Continue(rb, c, rc))
  {
  }

  lemma {:induction false} BakeConcat(t: Transpile, a: seq<Slot>, b: seq<Slot>)
    ensures BakeSlots(t, a + b) == Continue(BakeSlots(t, a), b, BakeSlots(t, b))
  {
    if b == [] {
      assert a + b == a;
    } else {
      var front, last := b[..|b| - 1], b[|b| - 1];
      BakeConcat(t, a, front);
      assert (a + b)[..|a + b| - 1] == a + front && b == front + [last];
      ContinueAssociates(BakeSlots(t, a), front, BakeSlots(t, front), [last], BakeOne(t, last));
    }
  }

  lemma {:induction false} ConcatAppend<T>(f: T -> seq<Slot>, a: seq<T>, b: seq<T>)
    ensures Concat(f, a + b) == Concat(f, a) + Concat(f, b)
  {
    if b == [] {
      assert a + b == a;
    } else {
      ConcatAppend(f, a, b[..|b| - 1]);
      assert (a + b)[..|a + b| - 1] == a + b[..|b| - 1];
    }
  }

  lemma ConcatOne<T>(f: T -> seq<Slot>, x: T)
    ensures Concat(f, [x]) == f(x)
  {
    assert [x][..0] == [];
    assert Concat(f, [x]) == [] + f(x);
  }

  /** What one element's bake does to the list around it. */
  lemma ListProgress<T>(t: Transpile, f: T -> seq<Slot>, before: seq<T>, after: seq<T>, i: nat, e: T,
                        calls: seq<string>, more: seq<string>, failed: Option<string>)
    requires |before| == |after| && i < |before| && after[i..] == before[i..]
    requires BakeSlots(t, Concat(f, before[..i])) == Baked(Concat(f, after[..i]), calls, None)
    requires BakeSlots(t, f(before[i])) == Baked(f(e), more, failed)
    ensures failed.None? ==>
              BakeSlots(t, Concat(f, before[..i + 1]))
              == Baked(Concat(f, after[i := e][..i + 1]), calls + more, None)
    ensures failed.Some? ==>
              BakeSlots(t, Concat(f, before)) == Baked(Concat(f, after[i := e]), calls + more, failed)
  {
    hide Concat, BakeSlots;
    var left, right := before[..i], before[i + 1..];
    var done := after[..i];
    ConcatOne(f, before[i]);
    ConcatOne(f, e);
    ConcatAppend(f, left, [before[i]]);
    ConcatAppend(f, done, [e]);
    BakeConcat(t, Concat(f, left), f(before[i]));
    assert before[..i + 1] == left + [before[i]];
    assert after[i := e][..i + 1] == done + [e];
    if failed.Some? {
      ConcatAppend(f, left + [before[i]], right);
      ConcatAppend(f, done + [e], right);
      BakeConcat(t, Concat(f, left + [before[i]]), Concat(f, right));
      assert before == left + [before[i]] + right;
      assert after[i := e] == done + [e] + right;
    }
  }

  /** after is what baking the slots of before leaves, and nothing but slots differs. */
  ghost predicate Outcome<T(!new), U(!new)>(
    t: Transpile, f: T -> seq<Slot>, strip: T -> U, before: T, after: T,
    calls: seq<string>, failed: Option<string>)
  {
    BakeSlots(t, f(before)) == Baked(f(after), calls, failed) && strip(after) == strip(before)
  }

  ghost predicate ListOutcome<T(!new), U(!new)>(
    t: Transpile, f: T -> seq<Slot>, strip: T -> U, before: seq<T>, after: seq<T>,
    calls: seq<string>, failed: Option<string>)
  {
    && BakeSlots(t, Concat(f, before)) == Baked(Concat(f, after), calls, failed)
    && Each(strip, after) == Each(strip, before)
  }

  /** The state of a list walk about to bake element i. */
  ghost predicate Walked<T(!new), U(!new)>(
    t: Transpile, f: T -> seq<Slot>, strip: T -> U, before: seq<T>, after: seq<T>,
    i: nat, calls: seq<string>)
  {
    && |after| == |before| && i <= |before| && after[i..] == before[i..]
    && (forall k :: 0 <= k < |before| ==> strip(after[k]) == strip(before[k]))
    && BakeSlots(t, Concat(f, before[..i])) == Baked(Concat(f, after[..i]), calls, None)
  }

  lemma WalkStep<T(!new), U(!new)>(
    t: Transpile, f: T -> seq<Slot>, strip: T -> U, before: seq<T>, after: seq<T>,
    i: nat, calls: seq<string>, e: T, more: seq<string>, failed: Option<string>)
    requires Walked(t, f, strip, before, after, i, calls) && i < |before|
    requires Outcome(t, f, strip, after[i], e, more, failed)
    ensures failed.None? ==> Walked(t, f, strip, before, after[i := e], i + 1, calls + more)
    ensures failed.Some? ==>
              ListOutcome(t, f, strip, before, after[i := e], calls + more, failed)
  {
    assert after[i] == after[i..][0] == before[i..][0] == before[i];
    ListProgress(t, f, before, after, i, e, calls, more, failed);
    assert after[i := e][i + 1..] == after[i..][1..];
  }

  lemma WalkDone<T(!new), U(!new)>(
    t: Transpile, f: T -> seq<Slot>, strip: T -> U, before: seq<T>, after: seq<T>, calls: seq<string>)
    requires Walked(t, f, strip, before, after, |before|, calls)
    ensures ListOutcome(t, f, strip, before, after, calls, None)
  {
    assert before[..|before|] == before && after[..|after|] == after;
  }

  lemma WalkStart<T(!new), U(!new)>(t: Transpile, f: T -> seq<Slot>, strip: T -> U, xs: seq<T>)
    ensures Walked(t, f, strip, xs, xs, 0, [])
  {
  }

  /** The `if file != "" { transpile }` block that every slot goes through. */
  method ProcessSlot(tr: Transpiler, s: Slot) returns (s': Slot, failed: Option<string>)
    modifies tr
    ensures old(tr.calls) <= tr.calls
    ensures BakeSlots(tr.transpile, [s]) == Baked([s'], tr.calls[|old(tr.calls)|..], failed)
  {
    s', failed := s, None;
    if s.file != "" {
      var code := tr.Run(s.file);
      if code.None? {
        failed := Some(s.file);
      } else {
        s' := Slot("", code.value);
      }
    }
    assert [s][..0] == [];
  }

  /** Two stretches of slots, the second left alone when the first fails. */
  lemma BakePair(t: Transpile, a: seq<Slot>, a': seq<Slot>, ca: seq<string>, fa: Option<string>,
                 b: seq<Slot>, b': seq<Slot>, cb: seq<string>, fb: Option<string>)
    requires BakeSlots(t, a) == Baked(a', ca, fa)
    requires fa.None? ==> BakeSlots(t, b) == Baked(b', cb, fb)
    requires fa.Some? ==> b' == b && cb == [] && fb == fa
    ensures BakeSlots(t, a + b) == Baked(a' + b', ca + cb, fb)
  {
    BakeConcat(t, a, b);
  }

  method ProcessGather(tr: Transpiler, g: GatherSpec) returns (g': GatherSpec, failed: Option<string>)
    modifies tr
    ensures old(tr.calls) <= tr.calls
    ensures Outcome(tr.transpile, GatherSlots, StripGather, g, g', tr.calls[|old(tr.calls)|..], failed)
  {
    var s;
    s, failed := ProcessSlot(tr, Slot(g.codeFile, g.code));
    g' := g.(code := s.code, codeFile := s.file);
  }

  method ProcessEvalRule(tr: Transpiler, r: EvaluationRule) returns (r': EvaluationRule, failed: Option<string>)
    modifies tr
    ensures old(tr.calls) <= tr.calls
    ensures Outcome(tr.transpile, RuleSlots, StripRule, r, r', tr.calls[|old(tr.calls)|..], failed)
  {
    var s;
    s, failed := ProcessSlot(tr, Slot(r.codeFile, r.code));
    r' := r.(code := s.code, codeFile := s.file);
  }

  method ProcessGathers(tr: Transpiler, gs: seq<GatherSpec>) returns (gs': seq<GatherSpec>, failed: Option<string>)
    modifies tr
    ensures old(tr.calls) <= tr.calls
    ensures ListOutcome(tr.transpile, GatherSlots, StripGather, gs, gs', tr.calls[|old(tr.calls)|..], failed)
  {
    hide Outcome, ListOutcome, Walked, GatherSlots, StripGather;
    gs', failed := gs, None;
    ghost var t, from := tr.transpile, |tr.calls|;
    WalkStart(t, GatherSlots, StripGather, gs);
    assert tr.calls[from..] == [];
    for i := 0 to |gs|
      invariant old(tr.calls) <= tr.calls && failed.None? && |gs'| == |gs|
      invariant Walked(t, GatherSlots, StripGather, gs, gs', i, tr.calls[from..])
    {
      ghost var calls := tr.calls;
      var x;
      x, failed := ProcessGather(tr, gs'[i]);
      WalkStep(t, GatherSlots, StripGather, gs, gs', i, calls[from..], x, tr.calls[|calls|..], failed);
      assert calls[from..] + tr.calls[|calls|..] == tr.calls[from..];
      gs' := gs'[i := x];
      if failed.Some? {
        return;
      }
    }
    WalkDone(t, GatherSlots, StripGather, gs, gs', tr.calls[from..]);
  }

  method ProcessExec(tr: Transpiler, e: Exec) returns (e': Exec, failed: Option<string>)
    modifies tr
    ensures old(tr.calls) <= tr.calls
    ensures Outcome(tr.transpile, ExecSlots, StripExec, e, e', tr.calls[|old(tr.calls)|..], failed)
  {
    hide BakeSlots, Concat, Each, GatherSlots, StripGather;
    ghost var t, from := tr.transpile, |tr.calls|;
    ghost var s1, s2 := Slot(e.shellFuncFile, e.shellFunc), Slot(e.codeFile, e.code);
    ghost var gathers := Concat(GatherSlots, e.gather);
    var s;
    s, failed := ProcessSlot(tr, Slot(e.shellFuncFile, e.shellFunc));
    e' := e.(shellFunc := s.code, shellFuncFile := s.file);
    ghost var first, f1, c1 := s, failed, tr.calls[from..];
    ghost var mid, second := |tr.calls|, s2;
    if failed.None? {
      s, failed := ProcessSlot(tr, Slot(e'.codeFile, e'.code));
      e' := e'.(code := s.code, codeFile := s.file);
      second := s;
    }
    ghost var c2, f2 := tr.calls[mid..], failed;
    BakePair(t, [s1], [first], c1, f1, [s2], [second], c2, f2);
    assert [s1] + [s2] == [s1, s2] && [first] + [second] == [first, second];
    mid := |tr.calls|;
    if failed.None? {
      var gs;
      gs, failed := ProcessGathers(tr, e'.gather);
      e' := e'.(gather := gs);
    }
    BakePair(t, [s1, s2], [first, second], c1 + c2, f2, gathers, Concat(GatherSlots, e'.gather), tr.calls[mid..],
        failed);
    assert c1 + c2 + tr.calls[mid..] == tr.calls[from..];
  }

  method ProcessExecs(tr: Transpiler, es: seq<Exec>) returns (es': seq<Exec>, failed: Option<string>)
    modifies tr
    ensures old(tr.calls) <= tr.calls
    ensures ListOutcome(tr.transpile, ExecSlots, StripExec, es, es', tr.calls[|old(tr.calls)|..], failed)
  {
    hide Outcome, ListOutcome, Walked, ExecSlots, StripExec;
    es', failed := es, None;
    ghost var t, from := tr.transpile, |tr.calls|;
    WalkStart(t, ExecSlots, StripExec, es);
    assert tr.calls[from..] == [];
    for i := 0 to |es|
      invariant old(tr.calls) <= tr.calls && failed.None? && |es'| == |es|
      invariant Walked(t, ExecSlots, StripExec, es, es', i, tr.calls[from..])
    {
      ghost var calls := tr.calls;
      var x;
      x, failed := ProcessExec(tr, es'[i]);
      WalkStep(t, ExecSlots, StripExec, es, es', i, calls[from..], x, tr.calls[|calls|..], failed);
      assert calls[from..] + tr.calls[|calls|..] == tr.calls[from..];
      es' := es'[i := x];
      if failed.Some? {
        return;
      }
    }
    WalkDone(t, ExecSlots, StripExec, es, es', tr.calls[from..]);
  }

  method ProcessCmd(tr: Transpiler, c: Cmd) returns (c': Cmd, failed: Option<string>)
    modifies tr
    ensures old(tr.calls) <= tr.calls
    ensures Outcome(tr.transpile, CmdSlots, StripCmd, c, c', tr.calls[|old(tr.calls)|..], failed)
  {
    hide BakeSlots, ExecSlots, RuleSlots, StripExec, StripRule;
    ghost var t, from := tr.transpile, |tr.calls|;
    var e;
    e, failed := ProcessExec(tr, c.exec);
    c' := c.(exec := e);
    ghost var f1, c1 := failed, tr.calls[from..];
    ghost var mid := |tr.calls|;
    if failed.None? {
      var r;
      r, failed := ProcessEvalRule(tr, c'.stdOutRule);
      c' := c'.(stdOutRule := r);
    }
    ghost var f2, c2 := failed, tr.calls[mid..];
    BakePair(t, ExecSlots(c.exec), ExecSlots(e), c1, f1, RuleSlots(c.stdOutRule), RuleSlots(c'.stdOutRule), c2, f2);
    mid := |tr.calls|;
    if failed.None? {
      var r;
      r, failed := ProcessEvalRule(tr, c'.stdErrRule);
      c' := c'.(stdErrRule := r);
    }
    BakePair(t, ExecSlots(c.exec) + RuleSlots(c.stdOutRule), ExecSlots(e) + RuleSlots(c'.stdOutRule), c1 + c2, f2,
             RuleSlots(c.stdErrRule), RuleSlots(c'.stdErrRule), tr.calls[mid..], failed);
    assert c1 + c2 + tr.calls[mid..] == tr.calls[from..];
  }

  method ProcessCmds(tr: Transpiler, cs: seq<Cmd>) returns (cs': seq<Cmd>, failed: Option<string>)
    modifies tr
    ensures old(tr.calls) <= tr.calls
    ensures ListOutcome(tr.transpile, CmdSlots, StripCmd, cs, cs', tr.calls[|old(tr.calls)|..], failed)
  {
    hide Outcome, ListOutcome, Walked, CmdSlots, StripCmd;
    cs', failed := cs, None;
    ghost var t, from := tr.transpile, |tr.calls|;
    WalkStart(t, CmdSlots, StripCmd, cs);
    assert tr.calls[from..] == [];
    for i := 0 to |cs|
      invariant old(tr.calls) <= tr.calls && failed.None? && |cs'| == |cs|
      invariant Walked(t, CmdSlots, StripCmd, cs, cs', i, tr.calls[from..])
    {
      ghost var calls := tr.calls;
      var x;
      x, failed := ProcessCmd(tr, cs'[i]);
      WalkStep(t, CmdSlots, StripCmd, cs, cs', i, calls[from..], x, tr.calls[|calls|..], failed);
      assert calls[from..] + tr.calls[|calls|..] == tr.calls[from..];
      cs' := cs'[i := x];
      if failed.Some? {
        return;
      }
    }
    WalkDone(t, CmdSlots, StripCmd, cs, cs', tr.calls[from..]);
  }

  method ProcessAssertion(tr: Transpiler, a: Assertion) returns (a': Assertion, failed: Option<string>)
    modifies tr
    ensures old(tr.calls) <= tr.calls
    ensures Outcome(tr.transpile, AssertionSlots, StripAssertion, a, a', tr.calls[|old(tr.calls)|..], failed)
  {
    hide BakeSlots, Concat, Each;
    ghost var t, from := tr.transpile, |tr.calls|;
    ghost var pre, main := Concat(ExecSlots, a.preCmds), Concat(CmdSlots, a.cmds);
    ghost var post := Concat(ExecSlots, a.postCmds);
    var es;
    es, failed := ProcessExecs(tr, a.preCmds);
    a' := a.(preCmds := es);
    ghost var f1, c1 := failed, tr.calls[from..];
    ghost var pre', mid := Concat(ExecSlots, es), |tr.calls|;
    if failed.None? {
      var cs;
      cs, failed := ProcessCmds(tr, a'.cmds);
      a' := a'.(cmds := cs);
    }
    ghost var f2, c2, main' := failed, tr.calls[mid..], Concat(CmdSlots, a'.cmds);
    BakePair(t, pre, pre', c1, f1, main, main', c2, f2);
    mid := |tr.calls|;
    if failed.None? {
      es, failed := ProcessExecs(tr, a'.postCmds);
      a' := a'.(postCmds := es);
    }
    BakePair(t, pre + main, pre' + main', c1 + c2, f2, post, Concat(ExecSlots, a'.postCmds), tr.calls[mid..], failed);
    assert c1 + c2 + tr.calls[mid..] == tr.calls[from..];
  }

  method ProcessSection(tr: Transpiler, s: Section) returns (s': Section, failed: Option<string>)
    modifies tr
    ensures old(tr.calls) <= tr.calls
    ensures Outcome(tr.transpile, SectionSlots, StripSection, s, s', tr.calls[|old(tr.calls)|..], failed)
  {
    hide BakeSlots, Concat, Each;
    var list;
    list, failed := ProcessAssertions(tr, s.assertions);
    s' := s.(assertions := list);
  }

  method ProcessAssertions(tr: Transpiler, list: seq<Assertion>) returns (list': seq<Assertion>, failed: Option<string>)
    modifies tr
    ensures old(tr.calls) <= tr.calls
    ensures ListOutcome(tr.transpile, AssertionSlots, StripAssertion, list, list', tr.calls[|old(tr.calls)|..], failed)
  {
    hide Outcome, ListOutcome, Walked, AssertionSlots, StripAssertion;
    list', failed := list, None;
    ghost var t, from := tr.transpile, |tr.calls|;
    WalkStart(t, AssertionSlots, StripAssertion, list);
    assert tr.calls[from..] == [];
    for i := 0 to |list|
      invariant old(tr.calls) <= tr.calls && failed.None? && |list'| == |list|
      invariant Walked(t, AssertionSlots, StripAssertion, list, list', i, tr.calls[from..])
    {
      ghost var calls := tr.calls;
      var x;
      x, failed := ProcessAssertion(tr, list'[i]);
      WalkStep(t, AssertionSlots, StripAssertion, list, list', i, calls[from..], x, tr.calls[|calls|..], failed);
      assert calls[from..] + tr.calls[|calls|..] == tr.calls[from..];
      list' := list'[i := x];
      if failed.Some? {
        return;
      }
    }
    WalkDone(t, AssertionSlots, StripAssertion, list, list', tr.calls[from..]);
  }

  /** The configuration that Preprocess updates in place. */
  class ConfigCell {
    var config: Playbook

    constructor (p: Playbook)
      ensures config == p
    {
      config := p;
    }

    /** Whether it succeeds or stops at a failing reference, the configuration left behind is the
        flat bake of its slots, and nothing else in it changed. */
    method Preprocess(tr: Transpiler) returns (failed: Option<string>)
      modifies this, tr
      ensures old(tr.calls) <= tr.calls
      ensures Outcome(tr.transpile, Slots, Strip, old(config), config, tr.calls[|old(tr.calls)|..], failed)
    {
      hide Outcome, ListOutcome, Walked, SectionSlots, StripSection;
      failed := None;
      ghost var t, from, before := tr.transpile, |tr.calls|, config;
      WalkStart(t, SectionSlots, StripSection, config.sections);
      assert tr.calls[from..] == [];
      for i := 0 to |config.sections|
        invariant old(tr.calls) <= tr.calls && failed.None?
        invariant Walked(t, SectionSlots, StripSection, before.sections, config.sections, i, tr.calls[from..])
        invariant config == before.(sections := config.sections) && |config.sections| == |before.sections|
      {
        ghost var calls, sections := tr.calls, config.sections;
        var s;
        s, failed := ProcessSection(tr, config.sections[i]);
        WalkStep(t, SectionSlots, StripSection, before.sections, sections, i, calls[from..], s, tr.calls[|calls|..],
            failed);
        assert calls[from..] + tr.calls[|calls|..] == tr.calls[from..];
        config := config.(sections := config.sections[i := s]);
        if failed.Some? {
          SectionsOutcome(t, before, config, tr.calls[from..], failed);
          return;
        }
      }
      WalkDone(t, SectionSlots, StripSection, before.sections, config.sections, tr.calls[from..]);
      SectionsOutcome(t, before, config, tr.calls[from..], failed);
    }
  }

  lemma SectionsOutcome(t: Transpile, before: Playbook, after: Playbook, calls: seq<string>, failed: Option<string>)
    requires ListOutcome(t, SectionSlots, StripSection, before.sections, after.sections, calls, failed)
    requires after == before.(sections := after.sections)
    ensures Outcome(t, Slots, Strip, before, after, calls, failed)
  {
  }
}
