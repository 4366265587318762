/** What Preprocess does to every single script of a playbook, addressed by its place in the document. */
module BakeOrder {
  import opened Text
  import opened PlaybookTypes
  import opened Preprocess
  import opened Baking

  // ---------------------------------------------------------------- addresses

  /** Phases 0, 1, 2 are pre-commands, commands and post-commands. Group 0 holds shell function and
      function, group 1 the gathers, group 2 the rules for stdout and stderr of a command. */
  datatype Ref = Ref(section: nat, assertion: nat, phase: nat, cmd: nat, group: nat, item: nat)

  predicate Before(a: Ref, b: Ref) {
    if a.section != b.section then a.section < b.section
    else if a.assertion != b.assertion then a.assertion < b.assertion
    else if a.phase != b.phase then a.phase < b.phase
    else if a.cmd != b.cmd then a.cmd < b.cmd
    else if a.group != b.group then a.group < b.group
    else a.item < b.item
  }

  function ExecOf(a: Assertion, phase: nat, k: nat): Option<Exec> {
    if phase == 0 && k < |a.preCmds| then Some(a.preCmds[k])
    else if phase == 1 && k < |a.cmds| then Some(a.cmds[k].exec)
    else if phase == 2 && k < |a.postCmds| then Some(a.postCmds[k])
    else None
  }

  function InExec(e: Exec, group: nat, item: nat): Option<Slot> {
    if group == 0 && item == 0 then Some(Slot(e.shellFuncFile, e.shellFunc))
    else if group == 0 && item == 1 then Some(Slot(e.codeFile, e.code))
    else if group == 1 && item < |e.gather| then Some(Slot(e.gather[item].codeFile, e.gather[item].code))
    else None
  }

  function InAssertion(a: Assertion, r: Ref): Option<Slot> {
    if r.phase == 1 && r.group == 2 && r.cmd < |a.cmds| then
      var c := a.cmds[r.cmd];
      if r.item == 0 then Some(Slot(c.stdOutRule.codeFile, c.stdOutRule.code))
      else if r.item == 1 then Some(Slot(c.stdErrRule.codeFile, c.stdErrRule.code))
      else None
    else
      var e := ExecOf(a, r.phase, r.cmd);
      if e.Some? then InExec(e.value, r.group, r.item) else None
  }

  /** The script at an address: the file it is in, if any, and the code in the playbook. */
  function At(p: Playbook, r: Ref): Option<Slot> {
    if r.section < |p.sections| && r.assertion < |p.sections[r.section].assertions|
    then InAssertion(p.sections[r.section].assertions[r.assertion], r)
    else None
  }

  // ---------------------------------------------------------------- two playbooks walked side by side

  predicate Increasing(refs: seq<Ref>) { forall x, y :: 0 <= x < y < |refs| ==> Before(refs[x], refs[y]) }

  predicate Within(r: Ref, lo: Ref, hi: Ref) { !Before(r, lo) && Before(r, hi) }

  /** The addresses are, in document order, all those of scripts from lo up to hi; the slots are what
      stands there in p and in q. */
  ghost predicate Lists(p: Playbook, q: Playbook, refs: seq<Ref>, ps: seq<Slot>, qs: seq<Slot>, lo: Ref, hi: Ref) {
    && |refs| == |ps| == |qs|
    && Increasing(refs)
    && (forall n :: 0 <= n < |refs| ==>
          Within(refs[n], lo, hi) && At(p, refs[n]) == Some(ps[n]) && At(q, refs[n]) == Some(qs[n]))
    && (forall r :: Within(r, lo, hi) && At(p, r).Some? ==> r in refs)
  }

  lemma Joined(p: Playbook, q: Playbook, a: seq<Ref>, ap: seq<Slot>, aq: seq<Slot>, lo: Ref, mid: Ref,
               b: seq<Ref>, bp: seq<Slot>, bq: seq<Slot>, hi: Ref)
    requires Lists(p, q, a, ap, aq, lo, mid) && Lists(p, q, b, bp, bq, mid, hi) && !Before(mid, lo) && !Before(hi, mid)
    ensures Lists(p, q, a + b, ap + bp, aq + bq, lo, hi)
  {
    hide At;
    var refs := a + b;
    forall n | 0 <= n < |refs|
      ensures Within(refs[n], lo, hi) && At(p, refs[n]) == Some((ap + bp)[n]) && At(q, refs[n]) == Some((aq + bq)[n])
    {
      if n >= |a| {
        assert refs[n] == b[n - |a|];
      }
    }
    forall x, y | 0 <= x < y < |refs| ensures Before(refs[x], refs[y]) {
      if x < |a| <= y {
        assert Within(a[x], lo, mid) && Within(b[y - |a|], mid, hi);
      } else if |a| <= x {
        assert Before(b[x - |a|], b[y - |a|]);
      }
    }
    forall r | Within(r, lo, hi) && At(p, r).Some? ensures r in refs {
      assert Within(r, lo, mid) || Within(r, mid, hi);
    }
  }

  lemma Nothing(p: Playbook, q: Playbook, lo: Ref, hi: Ref)
    requires forall r :: Within(r, lo, hi) ==> At(p, r).None?
    ensures Lists(p, q, [], [], [], lo, hi)
  {
  }

  lemma One(p: Playbook, q: Playbook, r: Ref, ps: Slot, qs: Slot, hi: Ref)
    requires At(p, r) == Some(ps) && At(q, r) == Some(qs) && Before(r, hi)
    requires forall x :: Before(r, x) && Before(x, hi) ==> At(p, x).None?
    ensures Lists(p, q, [r], [ps], [qs], r, hi)
  {
    hide At;
    forall x | Within(x, r, hi) && At(p, x).Some? ensures x in [r] {
      assert x == r || Before(r, x);
    }
  }

  predicate SameShape(p: Playbook, q: Playbook) { Strip(p) == Strip(q) }

  predicate Inside(p: Playbook, i: nat, j: nat) { i < |p.sections| && j < |p.sections[i].assertions| }

  lemma ShapeGoesDown(p: Playbook, q: Playbook, i: nat, j: nat)
    requires SameShape(p, q) && Inside(p, i, j)
    ensures Inside(q, i, j)
    ensures StripAssertion(p.sections[i].assertions[j]) == StripAssertion(q.sections[i].assertions[j])
  {
    EachEqual(StripSection, p.sections, q.sections);
    EachEqual(StripAssertion, p.sections[i].assertions, q.sections[i].assertions);
  }

  lemma ShapeOfCmds(a: Assertion, b: Assertion)
    requires StripAssertion(a) == StripAssertion(b)
    ensures |a.preCmds| == |b.preCmds| && |a.cmds| == |b.cmds| && |a.postCmds| == |b.postCmds|
    ensures forall phase, k :: ExecOf(a, phase, k).Some? ==>
              && ExecOf(b, phase, k).Some?
              && |ExecOf(a, phase, k).value.gather| == |ExecOf(b, phase, k).value.gather|
  {
    EachEqual(StripExec, a.preCmds, b.preCmds);
    EachEqual(StripCmd, a.cmds, b.cmds);
    EachEqual(StripExec, a.postCmds, b.postCmds);
    forall phase, k | ExecOf(a, phase, k).Some?
      ensures ExecOf(b, phase, k).Some?
              && |ExecOf(a, phase, k).value.gather| == |ExecOf(b, phase, k).value.gather|
    {
      var x, y := ExecOf(a, phase, k).value, ExecOf(b, phase, k).value;
      assert StripExec(x) == StripExec(y);
      EachEqual(StripGather, x.gather, y.gather);
    }
  }

  /** The two assertions at a place of the two playbooks, of the same shape. */
  predicate Pair(p: Playbook, q: Playbook, i: nat, j: nat, a: Assertion, b: Assertion) {
    && Inside(p, i, j) && Inside(q, i, j)
    && a == p.sections[i].assertions[j] && b == q.sections[i].assertions[j]
    && StripAssertion(a) == StripAssertion(b)
  }

  lemma {:induction false} GatherWalk(p: Playbook, q: Playbook, i: nat, j: nat, a: Assertion, b: Assertion, phase: nat,
                                      k: nat, n: nat) returns (refs: seq<Ref>)
    requires Pair(p, q, i, j, a, b) && ExecOf(a, phase, k).Some? && ExecOf(b, phase, k).Some?
    requires n <= |ExecOf(a, phase, k).value.gather| == |ExecOf(b, phase, k).value.gather|
    ensures var x, y := ExecOf(a, phase, k).value, ExecOf(b, phase, k).value;
            Lists(p, q, refs, Concat(GatherSlots, x.gather[..n]), Concat(GatherSlots, y.gather[..n]),
                  Ref(i, j, phase, k, 1, 0), Ref(i, j, phase, k, 1, n))
  {
    hide Lists, StripAssertion;
    var x, y := ExecOf(a, phase, k).value, ExecOf(b, phase, k).value;
    var lo := Ref(i, j, phase, k, 1, 0);
    if n == 0 {
      refs := [];
      Nothing(p, q, lo, lo);
    } else {
      refs := GatherWalk(p, q, i, j, a, b, phase, k, n - 1);
      var r, next := Ref(i, j, phase, k, 1, n - 1), Ref(i, j, phase, k, 1, n);
      var g, h := x.gather[n - 1], y.gather[n - 1];
      assert x.gather[..n][..n - 1] == x.gather[..n - 1] && y.gather[..n][..n - 1] == y.gather[..n - 1];
      One(p, q, r, Slot(g.codeFile, g.code), Slot(h.codeFile, h.code), next);
      Joined(p, q, refs, Concat(GatherSlots, x.gather[..n - 1]), Concat(GatherSlots, y.gather[..n - 1]), lo, r,
             [r], GatherSlots(g), GatherSlots(h), next);
      refs := refs + [r];
    }
  }

  /** The slots of one execution, up to its rules. */
  lemma ExecWalk(p: Playbook, q: Playbook, i: nat, j: nat, a: Assertion, b: Assertion, phase: nat, k: nat)
    returns (refs: seq<Ref>)
    requires Pair(p, q, i, j, a, b) && ExecOf(a, phase, k).Some?
    ensures ExecOf(b, phase, k).Some?
    ensures Lists(p, q, refs, ExecSlots(ExecOf(a, phase, k).value), ExecSlots(ExecOf(b, phase, k).value),
                  Ref(i, j, phase, k, 0, 0), Ref(i, j, phase, k, 2, 0))
  {
    hide Lists, StripAssertion, Concat;
    ShapeOfCmds(a, b);
    var x, y := ExecOf(a, phase, k).value, ExecOf(b, phase, k).value;
    var shell, code := Ref(i, j, phase, k, 0, 0), Ref(i, j, phase, k, 0, 1);
    var first, over, rules := Ref(i, j, phase, k, 1, 0), Ref(i, j, phase, k, 1, |x.gather|), Ref(i, j, phase, k, 2, 0);
    var xs, ys := Slot(x.shellFuncFile, x.shellFunc), Slot(y.shellFuncFile, y.shellFunc);
    var xc, yc := Slot(x.codeFile, x.code), Slot(y.codeFile, y.code);
    var xg, yg := Concat(GatherSlots, x.gather), Concat(GatherSlots, y.gather);
    One(p, q, shell, xs, ys, code);
    One(p, q, code, xc, yc, first);
    Joined(p, q, [shell], [xs], [ys], shell, code, [code], [xc], [yc], first);
    var gathers := GatherWalk(p, q, i, j, a, b, phase, k, |x.gather|);
    assert x.gather[..|x.gather|] == x.gather && y.gather[..|x.gather|] == y.gather;
    Joined(p, q, [shell] + [code], [xs] + [xc], [ys] + [yc], shell, first, gathers, xg, yg, over);
    NoMoreGathers(p, i, j, a, phase, k);
    Nothing(p, q, over, rules);
    Joined(p, q, [shell] + [code] + gathers, [xs] + [xc] + xg, [ys] + [yc] + yg, shell, over, [], [], [], rules);
    refs := [shell] + [code] + gathers + [];
    Listed(x, xs, xc, xg);
    Listed(y, ys, yc, yg);
  }

  lemma Listed(e: Exec, s: Slot, c: Slot, g: seq<Slot>)
    requires s == Slot(e.shellFuncFile, e.shellFunc) && c == Slot(e.codeFile, e.code)
    requires g == Concat(GatherSlots, e.gather)
    ensures [s] + [c] + g + [] == ExecSlots(e)
  {
  }

  lemma NoMoreGathers(p: Playbook, i: nat, j: nat, a: Assertion, phase: nat, k: nat)
    requires Inside(p, i, j) && a == p.sections[i].assertions[j] && ExecOf(a, phase, k).Some?
    ensures forall r :: Within(r, Ref(i, j, phase, k, 1, |ExecOf(a, phase, k).value.gather|), Ref(i, j, phase, k, 2, 0))
              ==> At(p, r).None?
  {
  }

  /** After the slots of an execution that has no rules comes the next execution. */
  lemma NoRules(p: Playbook, i: nat, j: nat, phase: nat, k: nat)
    requires phase != 1
    ensures forall r :: Within(r, Ref(i, j, phase, k, 2, 0), Ref(i, j, phase, k + 1, 0, 0)) ==> At(p, r).None?
  {
  }

  lemma {:induction false} SideWalk(p: Playbook, q: Playbook, i: nat, j: nat, a: Assertion, b: Assertion, phase: nat,
                                    xs: seq<Exec>, ys: seq<Exec>, n: nat) returns (refs: seq<Ref>)
    requires Pair(p, q, i, j, a, b) && n <= |xs| == |ys|
    requires (phase == 0 && xs == a.preCmds && ys == b.preCmds) || (phase == 2 && xs == a.postCmds && ys == b.postCmds)
    ensures Lists(p, q, refs, Concat(ExecSlots, xs[..n]), Concat(ExecSlots, ys[..n]),
                  Ref(i, j, phase, 0, 0, 0), Ref(i, j, phase, n, 0, 0))
  {
    hide Lists, StripAssertion, ExecSlots, At;
    var lo := Ref(i, j, phase, 0, 0, 0);
    if n == 0 {
      refs := [];
      Nothing(p, q, lo, lo);
    } else {
      refs := SideWalk(p, q, i, j, a, b, phase, xs, ys, n - 1);
      var last := ExecWalk(p, q, i, j, a, b, phase, n - 1);
      var at, rules, next := Ref(i, j, phase, n - 1, 0, 0), Ref(i, j, phase, n - 1, 2, 0), Ref(i, j, phase, n, 0, 0);
      var x, y := ExecSlots(xs[n - 1]), ExecSlots(ys[n - 1]);
      assert xs[..n][..n - 1] == xs[..n - 1] && ys[..n][..n - 1] == ys[..n - 1];
      NoRules(p, i, j, phase, n - 1);
      Nothing(p, q, rules, next);
      Joined(p, q, last, x, y, at, rules, [], [], [], next);
      Joined(p, q, refs, Concat(ExecSlots, xs[..n - 1]), Concat(ExecSlots, ys[..n - 1]), lo, at,
             last + [], x + [], y + [], next);
      assert x + [] == x && y + [] == y;
      refs := refs + (last + []);
    }
  }

  lemma RulesWalk(p: Playbook, q: Playbook, i: nat, j: nat, a: Assertion, b: Assertion, k: nat)
    returns (refs: seq<Ref>)
    requires Pair(p, q, i, j, a, b) && k < |a.cmds| && k < |b.cmds|
    ensures Lists(p, q, refs, RuleSlots(a.cmds[k].stdOutRule) + RuleSlots(a.cmds[k].stdErrRule),
                  RuleSlots(b.cmds[k].stdOutRule) + RuleSlots(b.cmds[k].stdErrRule),
                  Ref(i, j, 1, k, 2, 0), Ref(i, j, 1, k + 1, 0, 0))
  {
    hide Lists, StripAssertion;
    var out, err, next := Ref(i, j, 1, k, 2, 0), Ref(i, j, 1, k, 2, 1), Ref(i, j, 1, k + 1, 0, 0);
    var x, y := a.cmds[k], b.cmds[k];
    One(p, q, out, RuleSlots(x.stdOutRule)[0], RuleSlots(y.stdOutRule)[0], err);
    One(p, q, err, RuleSlots(x.stdErrRule)[0], RuleSlots(y.stdErrRule)[0], next);
    Joined(p, q, [out], RuleSlots(x.stdOutRule), RuleSlots(y.stdOutRule), out, err,
           [err], RuleSlots(x.stdErrRule), RuleSlots(y.stdErrRule), next);
    refs := [out] + [err];
  }

  lemma {:induction false} MainWalk(p: Playbook, q: Playbook, i: nat, j: nat, a: Assertion, b: Assertion, n: nat)
    returns (refs: seq<Ref>)
    requires Pair(p, q, i, j, a, b) && n <= |a.cmds| == |b.cmds|
    ensures Lists(p, q, refs, Concat(CmdSlots, a.cmds[..n]), Concat(CmdSlots, b.cmds[..n]),
                  Ref(i, j, 1, 0, 0, 0), Ref(i, j, 1, n, 0, 0))
  {
    hide Lists, StripAssertion, ExecSlots, At, RuleSlots;
    var lo := Ref(i, j, 1, 0, 0, 0);
    if n == 0 {
      refs := [];
      Nothing(p, q, lo, lo);
    } else {
      refs := MainWalk(p, q, i, j, a, b, n - 1);
      var exec := ExecWalk(p, q, i, j, a, b, 1, n - 1);
      var rules := RulesWalk(p, q, i, j, a, b, n - 1);
      var at, mid, next := Ref(i, j, 1, n - 1, 0, 0), Ref(i, j, 1, n - 1, 2, 0), Ref(i, j, 1, n, 0, 0);
      var x, y := a.cmds[n - 1], b.cmds[n - 1];
      var xr := RuleSlots(x.stdOutRule) + RuleSlots(x.stdErrRule);
      var yr := RuleSlots(y.stdOutRule) + RuleSlots(y.stdErrRule);
      assert a.cmds[..n][..n - 1] == a.cmds[..n - 1] && b.cmds[..n][..n - 1] == b.cmds[..n - 1];
      Joined(p, q, exec, ExecSlots(x.exec), ExecSlots(y.exec), at, mid, rules, xr, yr, next);
      assert ExecSlots(x.exec) + xr == CmdSlots(x) && ExecSlots(y.exec) + yr == CmdSlots(y);
      Joined(p, q, refs, Concat(CmdSlots, a.cmds[..n - 1]), Concat(CmdSlots, b.cmds[..n - 1]), lo, at,
             exec + rules, CmdSlots(x), CmdSlots(y), next);
      refs := refs + (exec + rules);
    }
  }

  /** Nothing stands beyond the last command of a phase. */
  lemma PhaseEnds(p: Playbook, i: nat, j: nat, a: Assertion)
    requires Inside(p, i, j) && a == p.sections[i].assertions[j]
    ensures forall r :: Within(r, Ref(i, j, 0, |a.preCmds|, 0, 0), Ref(i, j, 1, 0, 0, 0)) ==> At(p, r).None?
    ensures forall r :: Within(r, Ref(i, j, 1, |a.cmds|, 0, 0), Ref(i, j, 2, 0, 0, 0)) ==> At(p, r).None?
    ensures forall r :: Within(r, Ref(i, j, 2, |a.postCmds|, 0, 0), Ref(i, j + 1, 0, 0, 0, 0)) ==> At(p, r).None?
  {
  }

  /** A walk, prolonged over a stretch where nothing stands. */
  lemma Prolonged(p: Playbook, q: Playbook, refs: seq<Ref>, ps: seq<Slot>, qs: seq<Slot>, lo: Ref, mid: Ref, hi: Ref)
    requires Lists(p, q, refs, ps, qs, lo, mid) && !Before(mid, lo) && !Before(hi, mid)
    requires forall r :: Within(r, mid, hi) ==> At(p, r).None?
    ensures Lists(p, q, refs, ps, qs, lo, hi)
  {
    hide Lists, At;
    Nothing(p, q, mid, hi);
    Joined(p, q, refs, ps, qs, lo, mid, [], [], [], hi);
    assert refs + [] == refs && ps + [] == ps && qs + [] == qs;
  }

  lemma AssertionWalk(p: Playbook, q: Playbook, i: nat, j: nat, a: Assertion, b: Assertion) returns (refs: seq<Ref>)
    requires Pair(p, q, i, j, a, b)
    ensures Lists(p, q, refs, AssertionSlots(a), AssertionSlots(b),
                  Ref(i, j, 0, 0, 0, 0), Ref(i, j + 1, 0, 0, 0, 0))
  {
    hide Lists, StripAssertion, Concat, At;
    ShapeOfCmds(a, b);
    PhaseEnds(p, i, j, a);
    var start, main, post, next := Ref(i, j, 0, 0, 0, 0), Ref(i, j, 1, 0, 0, 0), Ref(i, j, 2, 0, 0, 0),
        Ref(i, j + 1, 0, 0, 0, 0);
    var pre := SideWalk(p, q, i, j, a, b, 0, a.preCmds, b.preCmds, |a.preCmds|);
    var cmds := MainWalk(p, q, i, j, a, b, |a.cmds|);
    var posts := SideWalk(p, q, i, j, a, b, 2, a.postCmds, b.postCmds, |a.postCmds|);
    assert a.preCmds[..|a.preCmds|] == a.preCmds && b.preCmds[..|a.preCmds|] == b.preCmds;
    assert a.cmds[..|a.cmds|] == a.cmds && b.cmds[..|a.cmds|] == b.cmds;
    assert a.postCmds[..|a.postCmds|] == a.postCmds && b.postCmds[..|a.postCmds|] == b.postCmds;
    var ap, am, ao := Concat(ExecSlots, a.preCmds), Concat(CmdSlots, a.cmds), Concat(ExecSlots, a.postCmds);
    var bp, bm, bo := Concat(ExecSlots, b.preCmds), Concat(CmdSlots, b.cmds), Concat(ExecSlots, b.postCmds);
    Prolonged(p, q, pre, ap, bp, start, Ref(i, j, 0, |a.preCmds|, 0, 0), main);
    Prolonged(p, q, cmds, am, bm, main, Ref(i, j, 1, |a.cmds|, 0, 0), post);
    Prolonged(p, q, posts, ao, bo, post, Ref(i, j, 2, |a.postCmds|, 0, 0), next);
    Joined(p, q, pre, ap, bp, start, main, cmds, am, bm, post);
    Joined(p, q, pre + cmds, ap + am, bp + bm, start, post, posts, ao, bo, next);
    refs := pre + cmds + posts;
  }

  lemma {:induction false} AssertionsWalk(p: Playbook, q: Playbook, i: nat, n: nat) returns (refs: seq<Ref>)
    requires SameShape(p, q) && i < |p.sections| && i < |q.sections|
    requires n <= |p.sections[i].assertions| == |q.sections[i].assertions|
    ensures Lists(p, q, refs, Concat(AssertionSlots, p.sections[i].assertions[..n]),
                  Concat(AssertionSlots, q.sections[i].assertions[..n]),
                  Ref(i, 0, 0, 0, 0, 0), Ref(i, n, 0, 0, 0, 0))
  {
    hide Lists, StripAssertion, AssertionSlots, At, SameShape;
    var lo := Ref(i, 0, 0, 0, 0, 0);
    var xs, ys := p.sections[i].assertions, q.sections[i].assertions;
    if n == 0 {
      refs := [];
      Nothing(p, q, lo, lo);
    } else {
      refs := AssertionsWalk(p, q, i, n - 1);
      ShapeGoesDown(p, q, i, n - 1);
      var last := AssertionWalk(p, q, i, n - 1, xs[n - 1], ys[n - 1]);
      assert xs[..n][..n - 1] == xs[..n - 1] && ys[..n][..n - 1] == ys[..n - 1];
      Joined(p, q, refs, Concat(AssertionSlots, xs[..n - 1]), Concat(AssertionSlots, ys[..n - 1]), lo,
             Ref(i, n - 1, 0, 0, 0, 0), last, AssertionSlots(xs[n - 1]), AssertionSlots(ys[n - 1]),
             Ref(i, n, 0, 0, 0, 0));
      refs := refs + last;
    }
  }

  lemma SectionEnds(p: Playbook, i: nat)
    requires i < |p.sections|
    ensures forall r :: Within(r, Ref(i, |p.sections[i].assertions|, 0, 0, 0, 0), Ref(i + 1, 0, 0, 0, 0, 0)) ==>
              At(p, r).None?
  {
  }

  lemma SameLengths(p: Playbook, q: Playbook)
    requires SameShape(p, q)
    ensures |p.sections| == |q.sections|
    ensures forall i :: 0 <= i < |p.sections| ==> |p.sections[i].assertions| == |q.sections[i].assertions|
  {
    EachEqual(StripSection, p.sections, q.sections);
    forall i | 0 <= i < |p.sections| ensures |p.sections[i].assertions| == |q.sections[i].assertions| {
      EachEqual(StripAssertion, p.sections[i].assertions, q.sections[i].assertions);
    }
  }

  lemma {:induction false} SectionsWalk(p: Playbook, q: Playbook, n: nat) returns (refs: seq<Ref>)
    requires SameShape(p, q) && n <= |p.sections| == |q.sections|
    ensures Lists(p, q, refs, Concat(SectionSlots, p.sections[..n]), Concat(SectionSlots, q.sections[..n]),
                  Ref(0, 0, 0, 0, 0, 0), Ref(n, 0, 0, 0, 0, 0))
  {
    hide Lists, At, SameShape, AssertionSlots;
    var lo := Ref(0, 0, 0, 0, 0, 0);
    if n == 0 {
      refs := [];
      Nothing(p, q, lo, lo);
    } else {
      refs := SectionsWalk(p, q, n - 1);
      SameLengths(p, q);
      var xs, ys := p.sections[n - 1].assertions, q.sections[n - 1].assertions;
      var last := AssertionsWalk(p, q, n - 1, |xs|);
      assert xs[..|xs|] == xs && ys[..|xs|] == ys;
      var at, next := Ref(n - 1, 0, 0, 0, 0, 0), Ref(n, 0, 0, 0, 0, 0);
      SectionEnds(p, n - 1);
      Prolonged(p, q, last, Concat(AssertionSlots, xs), Concat(AssertionSlots, ys), at,
                Ref(n - 1, |xs|, 0, 0, 0, 0), next);
      assert p.sections[..n][..n - 1] == p.sections[..n - 1] && q.sections[..n][..n - 1] == q.sections[..n - 1];
      Joined(p, q, refs, Concat(SectionSlots, p.sections[..n - 1]), Concat(SectionSlots, q.sections[..n - 1]), lo, at,
             last, SectionSlots(p.sections[n - 1]), SectionSlots(q.sections[n - 1]), next);
      refs := refs + last;
    }
  }

  // ---------------------------------------------------------------- what a pass does, address by address

  /** The scripts of two playbooks of the same shape, in document order, are their slots. */
  lemma Walk(p: Playbook, q: Playbook) returns (refs: seq<Ref>)
    requires SameShape(p, q)
    ensures |refs| == |Slots(p)| == |Slots(q)| && Increasing(refs)
    ensures forall n :: 0 <= n < |refs| ==> At(p, refs[n]) == Some(Slots(p)[n]) && At(q, refs[n]) == Some(Slots(q)[n])
    ensures forall r :: At(p, r).Some? ==> exists n :: 0 <= n < |refs| && refs[n] == r
  {
    hide At, SameShape, Concat;
    SameLengths(p, q);
    refs := SectionsWalk(p, q, |p.sections|);
    assert p.sections[..|p.sections|] == p.sections && q.sections[..|p.sections|] == q.sections;
    forall r | At(p, r).Some? ensures r in refs {
      Somewhere(p, r);
    }
  }

  lemma Somewhere(p: Playbook, r: Ref)
    requires At(p, r).Some?
    ensures Within(r, Ref(0, 0, 0, 0, 0, 0), Ref(|p.sections|, 0, 0, 0, 0, 0))
  {
  }

  /** A file that is gone, with its transpiled text in the playbook; a script without a file as it was. */
  predicate Inlined(t: Transpile, was: Slot, is_: Slot) {
    if was.file == "" then is_ == was
    else t(was.file).Some? && is_.file == "" && Some(is_.code) == t(was.file)
  }

  /** Of a pass that succeeds: every script of the document is inlined. Of one that fails: there is a script
      whose file does not transpile, all scripts before it in the document are inlined, it and all after it
      are as they were. */
  lemma BakedInOrder(t: Transpile, before: Playbook, after: Playbook, calls: seq<string>, failed: Option<string>)
    requires Outcome(t, Slots, Strip, before, after, calls, failed)
    ensures failed.None? ==>
              forall r :: At(before, r).Some? ==>
                At(after, r).Some? && Inlined(t, At(before, r).value, At(after, r).value)
    ensures failed.Some? ==>
              exists cut ::
                && At(before, cut).Some? && At(before, cut).value.file == failed.value && failed.value != ""
                && t(failed.value).None?
                && forall r :: At(before, r).Some? ==>
                     && At(after, r).Some?
                     && (Before(r, cut) ==> Inlined(t, At(before, r).value, At(after, r).value))
                     && (!Before(r, cut) ==> At(after, r) == At(before, r))
  {
    hide At, Strip, Slots, BakeSlots, Files;
    var refs := Walk(before, after);
    PreprocessMeaning(t, before, after, calls, failed);
    var k := Cut(t, Slots(before));
    if failed.None? {
      forall r | At(before, r).Some? ensures At(after, r).Some? && Inlined(t, At(before, r).value, At(after, r).value) {
        var n :| 0 <= n < |refs| && refs[n] == r;
      }
    } else {
      var cut := refs[k];
      forall r | At(before, r).Some?
        ensures && At(after, r).Some?
                && (Before(r, cut) ==> Inlined(t, At(before, r).value, At(after, r).value))
                && (!Before(r, cut) ==> At(after, r) == At(before, r))
      {
        var n :| 0 <= n < |refs| && refs[n] == r;
        InPlace(refs, n, k);
      }
    }
  }

  lemma InPlace(refs: seq<Ref>, n: nat, k: nat)
    requires Increasing(refs) && n < |refs| && k < |refs|
    ensures Before(refs[n], refs[k]) <==> n < k
  {
    if k < n {
      assert Before(refs[k], refs[n]);
    }
  }
}
