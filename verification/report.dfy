/** report/report.go: the structured report, the execution log and the markdown document. */
module Report {
  import opened Text
  import opened PlaybookTypes
  import opened Executor

  datatype AssertionReport = AssertionReport(
    start: Time, end: Time, passed: bool, score: int, minScore: int, context: map<string, string>)

  datatype FinalReport = FinalReport(
    start: Time, end: Time, assertions: map<string, AssertionReport>, passed: int, failed: int)

  datatype FinalResult = FinalResult(structured: FinalReport, log: string, markdown: string)

  /** Time layouts and YAML marshalling are foreign to the module. */
  datatype Formats = Formats(
    rfc3339: Time -> string, day: Time -> string, dateTime: Time -> string,
    yaml: map<string, string> -> string)

  const REDACTED := "[REDACTED]"
  const STDOUT_MARK := "# --- STDOUT ---"
  const STDERR_MARK := "# --- STDERR ---"

  // ---------------------------------------------------------------- the execution log

  function WithNewline(s: string): string { if HasSuffix(s, "\n") then s else s + "\n" }

  function Stream(head: string, text: string, exclude: bool): string {
    if text == "" then ""
    else head + if exclude then REDACTED + "\n" else WithNewline(text)
  }

  function ScriptText(script: string): string {
    if '\n' in script then
      ">>>>> SCRIPT <<<<<\n" + WithNewline(script) + "<<<<< END SCRIPT\n"
    else
      ">>>>> COMMAND: " + script + " <<<<<\n\n"
  }

  /** writeExecutionLog, with the caller's extra line for an execution error. */
  function CommandText(c: CommandLog): string {
    ScriptText(TrimSpace(c.exec.script))
    + (if c.err.Some? then ">>> ERROR: " + c.err.value + " <<<\n" else "")
    + Stream(">>> STDOUT <<<\n", c.result.stdout, c.exec.excludeFromReport)
    + Stream(">>> STDERR <<<\n", c.result.stderr, c.exec.excludeFromReport)
    + "\n"
    + if c.err.Some? then ">>>>> Error executing command: " + c.err.value + " <<<<<\n\n" else ""
  }

  function CommandTexts(cs: seq<CommandLog>, n: nat): string
    requires n <= |cs|
  {
    if n == 0 then "" else CommandTexts(cs, n - 1) + CommandText(cs[n - 1])
  }

  function AssertionLog(a: AssertionContext): string {
    ">>>>>>> ASSERTION: " + a.assertion.title + " <<<<<<<\n\n" + CommandTexts(a.cmdLogs, |a.cmdLogs|)
  }

  // ---------------------------------------------------------------- the markdown document

  predicate IsEvidenceMaterial(s: string) {
    TrimSpace(s) != "" && s != REDACTED && s != STDOUT_MARK && s != STDERR_MARK
  }

  predicate HasEvidence(outputs: seq<string>) { exists o :: o in outputs && IsEvidenceMaterial(o) }

  function VerdictText(a: AssertionContext): string {
    if a.passed then
      if a.assertion.passDescription != "" then "> \U{2705} **Pass:** " + a.assertion.passDescription + "\n\n"
      else "> \U{2705} **Assertion Passed**"
    else
      if a.assertion.failDescription != "" then "> \U{274C} **Fail:** " + a.assertion.failDescription + "\n\n"
      else "> \U{274C} **Assertion Failed**"
  }

  function AssertionMarkdown(a: AssertionContext): string {
    "### " + a.assertion.title + "\n\n" + a.assertion.description + "\n\n"
    + (if HasEvidence(a.outputs) then Block(a.outputs) else "")
    + VerdictText(a)
  }

  function Block(outputs: seq<string>): string { "**Evidence:**\n```\n" + Join(outputs, "\n") + "\n```\n\n" }

  function Descriptions(ds: seq<string>, n: nat): string
    requires n <= |ds|
  {
    if n == 0 then "" else Descriptions(ds, n - 1) + ds[n - 1] + "  \n"
  }

  /** Whatever the outputs, the document is two fixed texts around all of them or around nothing. */
  ghost predicate FramesOutputs(a: AssertionContext, before: string, after: string) {
    forall outputs :: AssertionMarkdown(a.(outputs := outputs))
                      == if HasEvidence(outputs) then before + Block(outputs) + after else before + after
  }

  /** Outputs without material evidence leave no trace in the document; with it all of them are shown, in
      order, between two texts that do not depend on them. */
  lemma EvidenceIsAllOrNothing(a: AssertionContext)
    ensures exists before, after :: FramesOutputs(a, before, after)
  {
    hide HasEvidence, Block;
    var before := "### " + a.assertion.title + "\n\n" + a.assertion.description + "\n\n";
    var after := VerdictText(a);
    forall outputs
      ensures AssertionMarkdown(a.(outputs := outputs))
           == if HasEvidence(outputs) then before + Block(outputs) + after else before + after
    {
      assert VerdictText(a.(outputs := outputs)) == after;
      assert before + "" == before;
    }
    assert FramesOutputs(a, before, after);
  }

  // ---------------------------------------------------------------- the three outputs

  function Entry(a: AssertionContext): AssertionReport {
    AssertionReport(a.start, a.end, a.passed, a.score, a.minScore, a.context)
  }

  /** The builders and the report map, as they are filled. */
  datatype Pages = Pages(log: string, markdown: string, entries: map<string, AssertionReport>)

  function AssertionPages(s: SectionContext, n: nat, p: Pages): Pages
    requires n <= |s.assertions|
  {
    if n == 0 then p
    else
      var q := AssertionPages(s, n - 1, p);
      var a := s.assertions[n - 1];
      Pages(q.log + AssertionLog(a), q.markdown + AssertionMarkdown(a), q.entries[a.assertion.code := Entry(a)])
  }

  function SectionHead(s: SectionContext, p: Pages): Pages {
    p.(markdown := p.markdown + "## " + s.section.title + "\n\n"
                   + Descriptions(s.section.description, |s.section.description|) + "\n",
       log := p.log + ">>>>>>>>> SECTION: " + s.section.title + " <<<<<<<<<\n\n")
  }

  function SectionFoot(p: Pages): Pages { p.(markdown := p.markdown + "---\n\n") }

  function SectionPages(ss: seq<SectionContext>, n: nat, p: Pages): Pages
    requires n <= |ss|
  {
    if n == 0 then p
    else SectionFoot(AssertionPages(ss[n - 1], |ss[n - 1].assertions|,
                                    SectionHead(ss[n - 1], SectionPages(ss, n - 1, p))))
  }

  /** The front matter the marshaller sees: the playbook's own, with title and date filled in. */
  function Frontmatter(p: Playbook, start: Time, f: Formats): map<string, string> {
    var own := if p.frontmatter.Some? then p.frontmatter.value else map[];
    var titled := if "title" in own then own else own["title" := p.title];
    if "date" in titled then titled
    else titled["date" := if start.None? then "" else f.day(start)]
  }

  function AfterReport(p: Playbook, start: Time, f: Formats): Playbook {
    if p.frontmatter.None? then p else p.(frontmatter := Some(Frontmatter(p, start, f)))
  }

  function Opening(t: ExecutionTrace, f: Formats): Pages {
    Pages(">>>>>>>>>>>> REPORT LOG: "
          + (if t.start.None? then "execution trace" else f.rfc3339(t.start)) + " <<<<<<<<<<<<\n\n",
          "---\n" + f.yaml(Frontmatter(t.playbook, t.start, f)) + "---\n\n"
          + "# " + t.playbook.title + "\n\nGenerated on: " + f.dateTime(t.start) + "\n\n---\n\n",
          map[])
  }

  function Generate(t: ExecutionTrace, f: Formats): FinalResult {
    var p := SectionPages(t.sections, |t.sections|, Opening(t, f));
    FinalResult(FinalReport(t.start, t.end, p.entries, t.totalPassed, t.totalFailed), p.log, p.markdown)
  }

  // ---------------------------------------------------------------- the loops

  method WriteExecutionLogs(cs: seq<CommandLog>) returns (log: string)
    ensures log == CommandTexts(cs, |cs|)
  {
    hide CommandText;
    log := "";
    for i := 0 to |cs|
      invariant log == CommandTexts(cs, i)
    {
      log := log + CommandText(cs[i]);
    }
  }

  lemma EvidenceIs(outputs: seq<string>)
    ensures HasEvidence(outputs) <==>
            exists k :: 0 <= k < |outputs| && TrimSpace(outputs[k]) != ""
                        && outputs[k] !in {REDACTED, STDOUT_MARK, STDERR_MARK}
  {
    hide TrimSpace;
    if HasEvidence(outputs) {
      var o :| o in outputs && IsEvidenceMaterial(o);
      var k :| 0 <= k < |outputs| && outputs[k] == o;
      assert TrimSpace(outputs[k]) != "";
    }
    forall k | 0 <= k < |outputs| && TrimSpace(outputs[k]) != ""
               && outputs[k] !in {REDACTED, STDOUT_MARK, STDERR_MARK}
      ensures HasEvidence(outputs)
    {
      assert outputs[k] in outputs && IsEvidenceMaterial(outputs[k]);
    }
  }

  method ShouldShowEvidence(outputs: seq<string>) returns (show: bool)
    ensures show == HasEvidence(outputs)
    ensures show <==> exists k :: 0 <= k < |outputs| && TrimSpace(outputs[k]) != ""
                                  && outputs[k] !in {REDACTED, STDOUT_MARK, STDERR_MARK}
  {
    EvidenceIs(outputs);
    show := false;
    for i := 0 to |outputs|
      invariant show == HasEvidence(outputs[..i])
    {
      assert outputs[..i + 1] == outputs[..i] + [outputs[i]];
      if IsEvidenceMaterial(outputs[i]) {
        assert outputs[i] in outputs;
        return true;
      }
    }
    assert outputs[..|outputs|] == outputs;
  }

  method WriteAssertionMarkdown(a: AssertionContext) returns (md: string)
    ensures md == AssertionMarkdown(a)
  {
    hide VerdictText, Join, IsEvidenceMaterial, HasEvidence;
    var show := ShouldShowEvidence(a.outputs);
    md := "### " + a.assertion.title + "\n\n" + a.assertion.description + "\n\n";
    md := md + (if show then "**Evidence:**\n```\n" + Join(a.outputs, "\n") + "\n```\n\n" else "");
    md := md + VerdictText(a);
  }

  method WriteAssertions(s: SectionContext, p: Pages) returns (q: Pages)
    ensures q == AssertionPages(s, |s.assertions|, p)
  {
    hide AssertionMarkdown, Entry, CommandTexts;
    q := p;
    for j := 0 to |s.assertions|
      invariant q == AssertionPages(s, j, p)
    {
      var a := s.assertions[j];
      var text := WriteExecutionLogs(a.cmdLogs);
      var md := WriteAssertionMarkdown(a);
      q := Pages(q.log + (">>>>>>> ASSERTION: " + a.assertion.title + " <<<<<<<\n\n" + text),
                 q.markdown + md, q.entries[a.assertion.code := Entry(a)]);
    }
  }

  /** `left` is the playbook afterwards: its front matter map, when it has one, is shared with the
      caller and keeps the title and date that were filled in. */
  method GenerateReport(t: ExecutionTrace, f: Formats) returns (r: FinalResult, left: Playbook)
    ensures r == Generate(t, f) && left == AfterReport(t.playbook, t.start, f)
    ensures left == t.playbook.(frontmatter := left.frontmatter)
    ensures left.frontmatter == if t.playbook.frontmatter.None? then None else Some(Frontmatter(t.playbook, t.start, f))
    ensures r.structured.start == t.start && r.structured.end == t.end
    ensures r.structured.passed == t.totalPassed && r.structured.failed == t.totalFailed
  {
    hide Opening, SectionHead, SectionFoot, AssertionPages, Frontmatter;
    left := t.playbook;
    if left.frontmatter.Some? {
      left := left.(frontmatter := Some(Frontmatter(left, t.start, f)));
    }
    var p := Opening(t, f);
    for i := 0 to |t.sections|
      invariant p == SectionPages(t.sections, i, Opening(t, f))
    {
      var q := WriteAssertions(t.sections[i], SectionHead(t.sections[i], p));
      p := SectionFoot(q);
    }
    r := FinalResult(FinalReport(t.start, t.end, p.entries, t.totalPassed, t.totalFailed), p.log, p.markdown);
  }

  /** What the playbook has become after reports of runs that started at these times. */
  function AfterReports(p: Playbook, starts: seq<Time>, f: Formats): Playbook {
    if starts == [] then p
    else AfterReport(AfterReports(p, starts[..|starts| - 1], f), starts[|starts| - 1], f)
  }

  function Day(start: Time, f: Formats): string { if start.None? then "" else f.day(start) }

  /** The first report fixes the front matter for all later ones. */
  lemma {:induction false} FirstReportSticks(p: Playbook, starts: seq<Time>, f: Formats)
    requires starts != []
    ensures AfterReports(p, starts, f) == AfterReport(p, starts[0], f)
  {
    var front := starts[..|starts| - 1];
    if front == [] {
      assert AfterReports(p, front, f) == p;
    } else {
      FirstReportSticks(p, front, f);
      if p.frontmatter.Some? {
        var filled := Frontmatter(p, starts[0], f);
        assert "title" in filled && "date" in filled;
      }
    }
  }

  /** After any number of reports of a loaded playbook a further one prints its own day exactly when the
      playbook has no front matter of its own, or the date it sets there is that day, or it sets none and
      the first report was made on the same day. */
  lemma {:induction false} DateSticks(p: Playbook, starts: seq<Time>, later: Time, f: Formats)
    requires starts != []
    ensures var printed := Frontmatter(AfterReports(p, starts, f), later, f);
            && "date" in printed
            && (printed["date"] == Day(later, f) <==>
                  || p.frontmatter.None?
                  || (if "date" in p.frontmatter.value then p.frontmatter.value["date"] == Day(later, f)
                      else Day(starts[0], f) == Day(later, f)))
            && (p.frontmatter.Some? ==> printed == Frontmatter(p, starts[0], f))
  {
    FirstReportSticks(p, starts, f);
  }
}
