/** What a reader finds in the execution log and in the markdown document of any trace. */
module ReportTexts {
  import opened Text
  import opened PlaybookTypes
  import opened Executor
  import opened Report

  ghost predicate Shown(x: string, text: string) { exists before, after :: text == before + x + after }

  lemma ShownIn(x: string, a: string, y: string, b: string)
    requires Shown(x, y)
    ensures Shown(x, a + y + b)
  {
    var before, after :| y == before + x + after;
    assert a + y + b == (a + before) + x + (after + b);
  }

  lemma ShownAfter(x: string, a: string, y: string)
    requires Shown(x, y)
    ensures Shown(x, a + y)
  {
    ShownIn(x, a, y, "");
    assert a + y + "" == a + y;
  }

  lemma ShownBefore(x: string, y: string, b: string)
    requires Shown(x, y)
    ensures Shown(x, y + b)
  {
    ShownIn(x, "", y, b);
    assert "" + y + b == y + b;
  }

  lemma ShownWhole(x: string)
    ensures Shown(x, x)
  {
    assert x == "" + x + "";
  }

  lemma ShownInPrefix(x: string, y: string, text: string)
    requires Shown(x, y) && y <= text
    ensures Shown(x, text)
  {
    ShownBefore(x, y, text[|y|..]);
    assert text == y + text[|y|..];
  }

  // ---------------------------------------------------------------- one command

  /** An output that is not excluded is shown as it is, an excluded one as a mark. */
  ghost predicate ShowsStream(head: string, output: string, excluded: bool, text: string) {
    && (output != "" && !excluded ==> Shown(head + output, text))
    && (output != "" && excluded ==> Shown(head + "[REDACTED]\n", text))
  }

  lemma StreamShows(head: string, output: string, excluded: bool)
    ensures ShowsStream(head, output, excluded, Stream(head, output, excluded))
  {
    ShownWhole(head + "[REDACTED]\n");
    ShownWhole(head + output);
    ShownBefore(head + output, head + output, "\n");
    assert head + (output + "\n") == (head + output) + "\n";
    assert REDACTED + "\n" == "[REDACTED]\n";
  }

  /** What the log says of one command: its script, its error if it failed, and both outputs. */
  ghost predicate Tells(l: CommandLog, text: string) {
    && Shown(TrimSpace(l.exec.script), text)
    && (l.err.Some? ==> Shown(">>> ERROR: " + l.err.value + " <<<\n", text))
    && ShowsStream(">>> STDOUT <<<\n", l.result.stdout, l.exec.excludeFromReport, text)
    && ShowsStream(">>> STDERR <<<\n", l.result.stderr, l.exec.excludeFromReport, text)
  }

  lemma ScriptShows(script: string)
    ensures Shown(script, ScriptText(script))
  {
    ShownWhole(script);
    if '\n' in script {
      ShownBefore(script, script, "\n");
      ShownIn(script, ">>>>> SCRIPT <<<<<\n", WithNewline(script), "<<<<< END SCRIPT\n");
    } else {
      ShownIn(script, ">>>>> COMMAND: ", script, " <<<<<\n\n");
    }
  }

  /** A part of four is shown in the whole. */
  lemma ShownInFour(x: string, a: string, b: string, c: string, d: string, end: string)
    ensures Shown(x, a) ==> Shown(x, a + b + c + d + end)
    ensures Shown(x, b) ==> Shown(x, a + b + c + d + end)
    ensures Shown(x, c) ==> Shown(x, a + b + c + d + end)
    ensures Shown(x, d) ==> Shown(x, a + b + c + d + end)
  {
    hide Shown;
    if Shown(x, a) { ShownBefore(x, a, b); ShownBefore(x, a + b, c); ShownBefore(x, a + b + c, d); }
    if Shown(x, b) { ShownAfter(x, a, b); ShownBefore(x, a + b, c); ShownBefore(x, a + b + c, d); }
    if Shown(x, c) { ShownAfter(x, a + b, c); ShownBefore(x, a + b + c, d); }
    if Shown(x, d) { ShownAfter(x, a + b + c, d); }
    if Shown(x, a) || Shown(x, b) || Shown(x, c) || Shown(x, d) { ShownBefore(x, a + b + c + d, end); }
  }

  function ErrorLine(l: CommandLog): string {
    if l.err.Some? then ">>> ERROR: " + l.err.value + " <<<\n" else ""
  }

  function LastLines(l: CommandLog): string {
    "\n" + if l.err.Some? then ">>>>> Error executing command: " + l.err.value + " <<<<<\n\n" else ""
  }

  lemma CommandParts(l: CommandLog)
    ensures CommandText(l)
            == ScriptText(TrimSpace(l.exec.script)) + ErrorLine(l)
               + Stream(">>> STDOUT <<<\n", l.result.stdout, l.exec.excludeFromReport)
               + Stream(">>> STDERR <<<\n", l.result.stderr, l.exec.excludeFromReport) + LastLines(l)
  {
    hide ScriptText, Stream, TrimSpace;
  }

  lemma CommandTells(l: CommandLog)
    ensures Tells(l, CommandText(l))
  {
    hide Shown, ScriptText, Stream, CommandText, TrimSpace;
    CommandParts(l);
    var x := l.exec.excludeFromReport;
    var out, err := Stream(">>> STDOUT <<<\n", l.result.stdout, x), Stream(">>> STDERR <<<\n", l.result.stderr, x);
    var script, line, end := ScriptText(TrimSpace(l.exec.script)), ErrorLine(l), LastLines(l);
    ScriptShows(TrimSpace(l.exec.script));
    StreamShows(">>> STDOUT <<<\n", l.result.stdout, x);
    StreamShows(">>> STDERR <<<\n", l.result.stderr, x);
    ShownWhole(line);
    ShownInFour(TrimSpace(l.exec.script), script, line, out, err, end);
    ShownInFour(line, script, line, out, err, end);
    ShownInFour(">>> STDOUT <<<\n" + l.result.stdout, script, line, out, err, end);
    ShownInFour(">>> STDOUT <<<\n" + "[REDACTED]\n", script, line, out, err, end);
    ShownInFour(">>> STDERR <<<\n" + l.result.stderr, script, line, out, err, end);
    ShownInFour(">>> STDERR <<<\n" + "[REDACTED]\n", script, line, out, err, end);
  }

  lemma TellsIn(l: CommandLog, text: string, a: string, b: string)
    requires Tells(l, text)
    ensures Tells(l, a + text + b)
  {
    hide Shown, TrimSpace;
    var out, err := l.result.stdout, l.result.stderr;
    ShownIn(TrimSpace(l.exec.script), a, text, b);
    if l.err.Some? { ShownIn(">>> ERROR: " + l.err.value + " <<<\n", a, text, b); }
    if out != "" && !l.exec.excludeFromReport { ShownIn(">>> STDOUT <<<\n" + out, a, text, b); }
    if out != "" && l.exec.excludeFromReport { ShownIn(">>> STDOUT <<<\n" + "[REDACTED]\n", a, text, b); }
    if err != "" && !l.exec.excludeFromReport { ShownIn(">>> STDERR <<<\n" + err, a, text, b); }
    if err != "" && l.exec.excludeFromReport { ShownIn(">>> STDERR <<<\n" + "[REDACTED]\n", a, text, b); }
  }

  // ---------------------------------------------------------------- the order of the texts

  /** The text of a command comes right after those of the commands before it. */
  lemma {:induction false} CommandsInOrder(cs: seq<CommandLog>, k: nat, n: nat)
    requires k < n <= |cs|
    ensures CommandTexts(cs, k) + CommandText(cs[k]) <= CommandTexts(cs, n)
  {
    hide CommandText;
    if k < n - 1 {
      CommandsInOrder(cs, k, n - 1);
    }
  }

  /** Pages only grow at their ends. */
  predicate Grown(p: Pages, q: Pages) { p.log <= q.log && p.markdown <= q.markdown }

  lemma {:induction false} AssertionsInOrder(s: SectionContext, k: nat, n: nat, p: Pages)
    requires k < n <= |s.assertions|
    ensures var before, after := AssertionPages(s, k, p), AssertionPages(s, n, p);
            && before.log + AssertionLog(s.assertions[k]) <= after.log
            && before.markdown + AssertionMarkdown(s.assertions[k]) <= after.markdown
  {
    hide AssertionLog, AssertionMarkdown, Entry;
    if k < n - 1 {
      AssertionsInOrder(s, k, n - 1, p);
    }
  }

  lemma {:induction false} AssertionsGrow(s: SectionContext, n: nat, p: Pages)
    requires n <= |s.assertions|
    ensures Grown(p, AssertionPages(s, n, p))
  {
    hide AssertionLog, AssertionMarkdown, Entry;
    if n > 0 {
      AssertionsGrow(s, n - 1, p);
    }
  }

  /** Where section k begins, and that all it writes stays. */
  lemma {:induction false} SectionsInOrder(ss: seq<SectionContext>, k: nat, n: nat, p: Pages)
    requires k < n <= |ss|
    ensures var head := SectionHead(ss[k], SectionPages(ss, k, p));
            && Grown(SectionPages(ss, k, p), head)
            && Grown(AssertionPages(ss[k], |ss[k].assertions|, head), SectionPages(ss, n, p))
  {
    hide AssertionPages, Descriptions;
    if k < n - 1 {
      SectionsInOrder(ss, k, n - 1, p);
      var head := SectionHead(ss[n - 1], SectionPages(ss, n - 1, p));
      AssertionsGrow(ss[n - 1], |ss[n - 1].assertions|, head);
    }
  }

  // ---------------------------------------------------------------- the whole report

  lemma AssertionLogTells(a: AssertionContext, k: nat)
    requires k < |a.cmdLogs|
    ensures Tells(a.cmdLogs[k], AssertionLog(a))
    ensures Shown(">>>>>>> ASSERTION: " + a.assertion.title + " <<<<<<<\n\n", AssertionLog(a))
  {
    hide Tells, CommandText, Shown;
    var head := ">>>>>>> ASSERTION: " + a.assertion.title + " <<<<<<<\n\n";
    CommandTells(a.cmdLogs[k]);
    CommandsInOrder(a.cmdLogs, k, |a.cmdLogs|);
    var before, text := CommandTexts(a.cmdLogs, k), CommandText(a.cmdLogs[k]);
    var all := CommandTexts(a.cmdLogs, |a.cmdLogs|);
    var after := all[|before + text|..];
    TellsIn(a.cmdLogs[k], text, head + before, after);
    assert all == before + text + after;
    assert AssertionLog(a) == (head + before) + text + after;
    ShownWhole(head);
    ShownBefore(head, head, all);
  }

  /** In the log of any trace every command that was logged tells its script, its error and its outputs,
      excluded ones as marks. */
  lemma LogTells(t: ExecutionTrace, fmt: Formats, s: nat, j: nat, k: nat)
    requires s < |t.sections| && j < |t.sections[s].assertions| && k < |t.sections[s].assertions[j].cmdLogs|
    ensures Tells(t.sections[s].assertions[j].cmdLogs[k], Generate(t, fmt).log)
  {
    hide Tells, AssertionLog, AssertionMarkdown, SectionPages, AssertionPages, SectionHead, Opening;
    var p := Opening(t, fmt);
    var head := SectionHead(t.sections[s], SectionPages(t.sections, s, p));
    var a := t.sections[s].assertions[j];
    SectionsInOrder(t.sections, s, |t.sections|, p);
    AssertionsInOrder(t.sections[s], j, |t.sections[s].assertions|, head);
    AssertionLogTells(a, k);
    var before, log := AssertionPages(t.sections[s], j, head).log, Generate(t, fmt).log;
    var after := log[|before + AssertionLog(a)|..];
    TellsIn(a.cmdLogs[k], AssertionLog(a), before, after);
    assert log == before + AssertionLog(a) + after;
  }

  /** The line that tells the verdict: the playbook's own description, or a default. */
  function VerdictLine(a: AssertionContext): string {
    if a.passed && a.assertion.passDescription != "" then "> \U{2705} **Pass:** " + a.assertion.passDescription
    else if a.passed then "> \U{2705} **Assertion Passed**"
    else if a.assertion.failDescription != "" then "> \U{274C} **Fail:** " + a.assertion.failDescription
    else "> \U{274C} **Assertion Failed**"
  }

  lemma VerdictShows(a: AssertionContext)
    ensures Shown(VerdictLine(a), VerdictText(a))
  {
    hide Shown;
    ShownWhole(VerdictLine(a));
    ShownBefore(VerdictLine(a), VerdictLine(a), "\n\n");
  }

  function TitleBlock(a: Assertion): string { "### " + a.title + "\n\n" + a.description + "\n\n" }

  lemma MarkdownParts(a: AssertionContext)
    ensures AssertionMarkdown(a)
            == TitleBlock(a.assertion) + (if HasEvidence(a.outputs) then Block(a.outputs) else "") + VerdictText(a)
  {
    hide VerdictText, HasEvidence, Block;
  }

  lemma AssertionMarkdownShows(a: AssertionContext)
    ensures Shown(TitleBlock(a.assertion), AssertionMarkdown(a)) && Shown(VerdictLine(a), AssertionMarkdown(a))
  {
    hide Shown, HasEvidence, Block, VerdictText, VerdictLine, TitleBlock, AssertionMarkdown;
    MarkdownParts(a);
    VerdictShows(a);
    var head := TitleBlock(a.assertion);
    var evidence := if HasEvidence(a.outputs) then Block(a.outputs) else "";
    ShownWhole(head);
    ShownBefore(head, head, evidence);
    ShownBefore(head, head + evidence, VerdictText(a));
    ShownAfter(VerdictLine(a), head + evidence, VerdictText(a));
  }

  /** In the markdown of any trace every assertion stands with its title and description and with the
      verdict of its entry. */
  lemma MarkdownTells(t: ExecutionTrace, fmt: Formats, s: nat, j: nat)
    requires s < |t.sections| && j < |t.sections[s].assertions|
    ensures var a, md := t.sections[s].assertions[j], Generate(t, fmt).markdown;
            Shown(TitleBlock(a.assertion), md) && Shown(VerdictLine(a), md)
  {
    hide Shown, AssertionLog, AssertionMarkdown, SectionPages, AssertionPages, SectionHead, Opening, TitleBlock,
         VerdictLine;
    var p := Opening(t, fmt);
    var head := SectionHead(t.sections[s], SectionPages(t.sections, s, p));
    var a := t.sections[s].assertions[j];
    SectionsInOrder(t.sections, s, |t.sections|, p);
    AssertionsInOrder(t.sections[s], j, |t.sections[s].assertions|, head);
    AssertionMarkdownShows(a);
    var before, md := AssertionPages(t.sections[s], j, head).markdown, Generate(t, fmt).markdown;
    var after := md[|before + AssertionMarkdown(a)|..];
    assert md == before + AssertionMarkdown(a) + after;
    ShownIn(VerdictLine(a), before, AssertionMarkdown(a), after);
    ShownIn(TitleBlock(a.assertion), before, AssertionMarkdown(a), after);
  }

  /** The front matter the document opens with: the playbook's own keys and values, and a title and a date
      where it sets none. */
  lemma FrontmatterExactly(p: Playbook, start: Time, fmt: Formats, key: string)
    ensures var own := if p.frontmatter.Some? then p.frontmatter.value else map[];
            var full := Frontmatter(p, start, fmt);
            && (key in full <==> key in own || key == "title" || key == "date")
            && (key in own ==> full[key] == own[key])
            && ("title" !in own ==> full["title"] == p.title)
            && ("date" !in own ==> full["date"] == if start.Some? then fmt.day(start) else "")
  {
  }
}
