/** executor/trace_types.go and executor/executor.go: execution results and the execution trace. */
module Executor {
  import opened Text
  import opened PlaybookTypes

  datatype ExecutionResult = ExecutionResult(stdout: string, stderr: string, exitCode: int, success: bool)

  datatype CommandStatus = CommandCompleted | CommandFailed

  /** A point in time; None is Go's zero time. */
  type Time = Option<int>

  datatype CommandLog = CommandLog(
    exec: Exec, status: CommandStatus, start: Time, end: Time,
    result: ExecutionResult, err: Option<string>)

  datatype AssertionStatus = Pending | Running | Passed | Failed | Cancelled
  {
    predicate IsFinished() { Passed? || Failed? }
    predicate IsTerminal() { Passed? || Failed? || Cancelled? }
  }

  datatype AssertionContext = AssertionContext(
    assertion: Assertion, status: AssertionStatus, start: Time, end: Time,
    passed: bool, score: int, minScore: int, context: map<string, string>,
    preCmdLogs: seq<CommandLog>, cmdLogs: seq<CommandLog>, postCmdLogs: seq<CommandLog>,
    outputs: seq<string>)

  datatype SectionContext = SectionContext(section: Section, assertions: seq<AssertionContext>)

  datatype ExecutionTrace = ExecutionTrace(
    playbook: Playbook, sections: seq<SectionContext>, start: Time, end: Time,
    totalPassed: int, totalFailed: int)
}
