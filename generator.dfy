/**
  The generate -> compile -> test -> feedback loop of `Generator.run`.

  The AI assistant, `Utils.createTemporaryFile`, `Utils.compileFiles` and the
  JUnit test runner are collaborators given as the answers they return: the
  assistant's as a function of the attempt number and the feedback it is
  handed, `createTemporaryFile`'s as a function of the candidate, and the
  compiler's and the test runner's as functions of the attempt number.
  One pass of the loop body is the function `Body`; the whole run is the fold
  `Generate`; `RunLoop` is the loop itself, proved equal to that fold.
 */
module Generator {
  import opened Options
  import opened Paths

  /** The retry budget hard-coded as `externalMaxRetries`. */
  const ExternalMaxRetries: nat := 5

  // ----- Records

  /** The feedback handed to the assistant: empty on the first call, else one error text. */
  datatype PreviousRunContainer = PreviousRunContainer(error: Option<string>)

  const NoPreviousRun := PreviousRunContainer(None)

  /**
    One candidate from the assistant. `attempts` is the assistant's own
    internal retry count; the loop never reads it.
   */
  datatype CodeContainer = CodeContainer(fileName: string, packageName: string, content: string, attempts: int)

  datatype CompilationContainer = CompilationContainer(compilationSuccessful: bool, errorMessage: string)

  datatype TestInfo = TestInfo(found: int, succeeded: int, errorOutput: string)

  /** The checked exceptions `AIAssistant.call` may throw. */
  datatype AssistantFailure = IOException(message: string) | InterruptedException

  datatype AssistantReply = Reply(code: CodeContainer) | Threw(failure: AssistantFailure)

  /** The sanitised invocation: the test file and the output directory. */
  datatype InputContainer = InputContainer(inputFile: Path, outputDirectory: Path)

  /** `InputContainer.build` only accepts an existing test file, so it has a file name. */
  predicate ValidInput(input: InputContainer)
  {
    |input.inputFile.names| > 0
  }

  /** The collaborators, as the answers they give. */
  datatype Collaborators = Collaborators(
    assistant: (nat, PreviousRunContainer) -> AssistantReply,
    createTemporaryFile: CodeContainer -> Path,
    compileFiles: nat -> CompilationContainer,
    runTestFile: nat -> TestInfo)

  /** What happened in one pass of the loop body. */
  datatype Event =
    | AssistantFailed(failure: AssistantFailure)
    | CompileFailed(code: CodeContainer, solution: Path, testCopy: Path, error: string)
    | Tested(code: CodeContainer, solution: Path, testCopy: Path, info: TestInfo)

  /** One pass: the value of `externalAttempts` in it, the feedback the assistant got, and what happened. */
  datatype Iteration = Iteration(attempt: nat, feedback: PreviousRunContainer, event: Event)

  /** How a run ends: the log line "Solution found", the log line "No solution found.", or a RuntimeException. */
  datatype Outcome = SolutionFound(solutionFilePath: Path) | NoSolutionFound | Aborted(cause: AssistantFailure)

  datatype RunReport = RunReport(outcome: Outcome, attempts: nat, testInfo: Option<TestInfo>, history: seq<Iteration>)

  /** The locals of `run` that one iteration hands to the next, plus the history so far. */
  datatype LoopState = LoopState(
    attempts: nat,
    previousRunContainer: PreviousRunContainer,
    testInfo: Option<TestInfo>,
    solutionFilePath: Option<Path>,
    history: seq<Iteration>)

  const Initial := LoopState(0, NoPreviousRun, None, None, [])

  // ----- The helpers of Generator

  /** `solutionNotFound`: no tests ran yet, or not every test found succeeded. */
  predicate SolutionNotFound(testInfo: Option<TestInfo>)
    ensures testInfo.None? ==> SolutionNotFound(testInfo)
    ensures testInfo.Some? && testInfo.value.found == 0 && testInfo.value.succeeded == 0 ==> !SolutionNotFound(testInfo)
    ensures testInfo.Some? && testInfo.value.found > testInfo.value.succeeded ==> SolutionNotFound(testInfo)
  {
    testInfo.None? || testInfo.value.succeeded != testInfo.value.found
  }

  /** `createPreviousRunContainer`: a fresh feedback record holding exactly `error`. */
  function CreatePreviousRunContainer(error: string): (r: PreviousRunContainer)
    ensures r.error == Some(error)
  {
    PreviousRunContainer(Some(error))
  }

  /** Where the test file is copied: the package's directories under the output directory. */
  function TestDestination(input: InputContainer, packageName: string): (r: Path)
    requires ValidInput(input)
    ensures |r.names| > 0 && r.names[|r.names| - 1] == input.inputFile.names[|input.inputFile.names| - 1]
    ensures (packageName == [] || (packageName[0] != '.' && packageName[0] != '/')) ==> r.absolute == input.outputDirectory.absolute
  {
    var packageDirectories := ReplaceDots(packageName);
    assert packageName != [] ==> packageDirectories[0] == (if packageName[0] == '.' then '/' else packageName[0]);
    Resolve(Resolve(input.outputDirectory, Parse(packageDirectories)), FileName(input.inputFile))
  }

  /** A failed pass goes round again; a successful test run or an exception does not. */
  predicate Retried(e: Event)
  {
    e.CompileFailed? || (e.Tested? && SolutionNotFound(Some(e.info)))
  }

  /** The feedback a failed pass leaves for the next one. */
  function FeedbackFrom(e: Event): PreviousRunContainer
  {
    match e
    case CompileFailed(_, _, _, error) => CreatePreviousRunContainer(error)
    case Tested(_, _, _, info) => CreatePreviousRunContainer(info.errorOutput)
    case AssistantFailed(_) => NoPreviousRun
  }

  // ----- One pass of the loop body

  /** What the collaborators make of attempt `attempt` when the assistant is handed `feedback`. */
  function IterationEvent(o: Collaborators, input: InputContainer, attempt: nat, feedback: PreviousRunContainer): (e: Event)
    requires ValidInput(input)
    ensures e.AssistantFailed? <==> o.assistant(attempt, feedback).Threw?
    ensures e.AssistantFailed? ==> e.failure == o.assistant(attempt, feedback).failure
    ensures !e.AssistantFailed? ==>
      && e.code == o.assistant(attempt, feedback).code
      && e.solution == o.createTemporaryFile(e.code)
      && e.testCopy == TestDestination(input, e.code.packageName)
    ensures e.CompileFailed? <==>
      o.assistant(attempt, feedback).Reply? && !o.compileFiles(attempt).compilationSuccessful
    ensures e.CompileFailed? ==> e.error == o.compileFiles(attempt).errorMessage
    ensures e.Tested? ==> e.info == o.runTestFile(attempt)
  {
    match o.assistant(attempt, feedback)
    case Threw(failure) => AssistantFailed(failure)
    case Reply(code) =>
      var solution := o.createTemporaryFile(code);
      var testCopy := TestDestination(input, code.packageName);
      var compilation := o.compileFiles(attempt);
      if !compilation.compilationSuccessful then
        CompileFailed(code, solution, testCopy, compilation.errorMessage)
      else
        Tested(code, solution, testCopy, o.runTestFile(attempt))
  }

  datatype BodyResult = Completed(state: LoopState) | Thrown(failure: AssistantFailure, state: LoopState)

  /**
    One pass of the `do` body: count the attempt, call the assistant, and
    either stop on its exception, or keep the old test result and record the
    compile error, or record the new test result and, if it fails, its output.
   */
  function Body(o: Collaborators, input: InputContainer, s: LoopState): (r: BodyResult)
    requires ValidInput(input)
    ensures r.state.attempts == s.attempts + 1
    ensures r.state.history == s.history + [Iteration(s.attempts + 1, s.previousRunContainer, IterationEvent(o, input, s.attempts + 1, s.previousRunContainer))]
    ensures r.Thrown? <==> IterationEvent(o, input, s.attempts + 1, s.previousRunContainer).AssistantFailed?
    ensures r.Completed? ==> r.state.solutionFilePath == Some(IterationEvent(o, input, s.attempts + 1, s.previousRunContainer).solution)
    ensures IterationEvent(o, input, s.attempts + 1, s.previousRunContainer).CompileFailed? ==>
      r.state.testInfo == s.testInfo && r.state.previousRunContainer == FeedbackFrom(IterationEvent(o, input, s.attempts + 1, s.previousRunContainer))
    ensures Retried(IterationEvent(o, input, s.attempts + 1, s.previousRunContainer)) ==>
      r.state.previousRunContainer == FeedbackFrom(IterationEvent(o, input, s.attempts + 1, s.previousRunContainer))
    ensures !Retried(IterationEvent(o, input, s.attempts + 1, s.previousRunContainer)) ==>
      r.state.previousRunContainer == s.previousRunContainer
    ensures IterationEvent(o, input, s.attempts + 1, s.previousRunContainer).Tested? ==>
      r.state.testInfo == Some(IterationEvent(o, input, s.attempts + 1, s.previousRunContainer).info)
    ensures r.Thrown? ==>
      && r.failure == IterationEvent(o, input, s.attempts + 1, s.previousRunContainer).failure
      && r.state.testInfo == s.testInfo
      && r.state.solutionFilePath == s.solutionFilePath
  {
    var attempt := s.attempts + 1;
    var e := IterationEvent(o, input, attempt, s.previousRunContainer);
    var history := s.history + [Iteration(attempt, s.previousRunContainer, e)];
    match e
    case AssistantFailed(failure) =>
      Thrown(failure, s.(attempts := attempt, history := history))
    case CompileFailed(_, solution, _, error) =>
      Completed(LoopState(attempt, CreatePreviousRunContainer(error), s.testInfo, Some(solution), history))
    case Tested(_, solution, _, info) =>
      var feedback := if SolutionNotFound(Some(info)) then CreatePreviousRunContainer(info.errorOutput) else s.previousRunContainer;
      Completed(LoopState(attempt, feedback, Some(info), Some(solution), history))
  }

  /** The `while` condition of the `do ... while`. */
  predicate KeepGoing(maxRetries: nat, s: LoopState)
    ensures KeepGoing(maxRetries, s) ==> s.attempts < maxRetries
    ensures !SolutionNotFound(s.testInfo) ==> !KeepGoing(maxRetries, s)
  {
    SolutionNotFound(s.testInfo) && s.attempts <= maxRetries - 1
  }

  /** The two log lines after the loop. */
  function Report(s: LoopState): (r: RunReport)
    requires s.testInfo.Some? ==> s.solutionFilePath.Some?
    ensures r.outcome.NoSolutionFound? <==> SolutionNotFound(s.testInfo)
    ensures !SolutionNotFound(s.testInfo) ==> r.outcome == SolutionFound(s.solutionFilePath.value)
    ensures r.attempts == s.attempts && r.testInfo == s.testInfo && r.history == s.history
  {
    var outcome := if SolutionNotFound(s.testInfo) then NoSolutionFound else SolutionFound(s.solutionFilePath.value);
    RunReport(outcome, s.attempts, s.testInfo, s.history)
  }

  // ----- The whole run as a fold

  /** The run from the top of an iteration in state `s` to its end. */
  function RunFrom(o: Collaborators, input: InputContainer, maxRetries: nat, s: LoopState): (r: RunReport)
    requires ValidInput(input)
    requires s.attempts < maxRetries
    requires s.testInfo.Some? ==> s.solutionFilePath.Some?
    ensures s.attempts < r.attempts <= maxRetries
    ensures |r.history| - |s.history| == r.attempts - s.attempts
    decreases maxRetries - s.attempts
  {
    match Body(o, input, s)
    case Thrown(failure, next) =>
      RunReport(Aborted(failure), next.attempts, next.testInfo, next.history)
    case Completed(next) =>
      if KeepGoing(maxRetries, next) then RunFrom(o, input, maxRetries, next) else Report(next)
  }

  /** `run` with a retry budget of `maxRetries`. */
  function Generate(o: Collaborators, input: InputContainer, maxRetries: nat): RunReport
    requires ValidInput(input)
    requires maxRetries >= 1
  {
    RunFrom(o, input, maxRetries, Initial)
  }

  /** The run from the top of the `do` body (first pass) or from the `while` test (later passes). */
  function Resume(o: Collaborators, input: InputContainer, maxRetries: nat, s: LoopState): RunReport
    requires ValidInput(input)
    requires 1 <= maxRetries
    requires s.attempts <= maxRetries
    requires s.testInfo.Some? ==> s.solutionFilePath.Some?
  {
    if s.attempts == 0 || KeepGoing(maxRetries, s) then RunFrom(o, input, maxRetries, s) else Report(s)
  }

  // ----- The loop

  /**
    The `do ... while` of `run`. The guard is true on entry, which makes the
    first pass unconditional, and `continue` jumps to the guard, as in Java.
   */
  method RunLoop(o: Collaborators, input: InputContainer, maxRetries: nat) returns (report: RunReport)
    requires ValidInput(input)
    requires maxRetries >= 1
    ensures report == Generate(o, input, maxRetries)
    ensures 1 <= report.attempts <= maxRetries
    ensures |report.history| == report.attempts
  {
    var testInfo: Option<TestInfo> := None;
    var externalAttempts: nat := 0;
    var solutionFilePath: Option<Path> := None;
    var previousRunContainer := NoPreviousRun;
    var history: seq<Iteration> := [];

    while externalAttempts == 0 || KeepGoing(maxRetries, LoopState(externalAttempts, previousRunContainer, testInfo, solutionFilePath, history))
      invariant externalAttempts <= maxRetries
      invariant |history| == externalAttempts
      invariant testInfo.Some? ==> solutionFilePath.Some?
      invariant externalAttempts == 0 ==> LoopState(externalAttempts, previousRunContainer, testInfo, solutionFilePath, history) == Initial
      invariant Resume(o, input, maxRetries, LoopState(externalAttempts, previousRunContainer, testInfo, solutionFilePath, history)) == Generate(o, input, maxRetries)
      decreases maxRetries - externalAttempts
    {
      ghost var before := LoopState(externalAttempts, previousRunContainer, testInfo, solutionFilePath, history);
      externalAttempts := externalAttempts + 1;

      // callAssistant: a checked exception becomes a RuntimeException that ends the run
      var feedback := previousRunContainer;
      var reply := o.assistant(externalAttempts, feedback);
      if reply.Threw? {
        history := history + [Iteration(externalAttempts, feedback, AssistantFailed(reply.failure))];
        report := RunReport(Aborted(reply.failure), externalAttempts, testInfo, history);
        assert IterationEvent(o, input, externalAttempts, feedback) == history[|history| - 1].event;
        return;
      }
      var codeContainer := reply.code;
      var solution := o.createTemporaryFile(codeContainer);
      solutionFilePath := Some(solution);
      var destinationFilePath := TestDestination(input, codeContainer.packageName);

      var compilationContainer := o.compileFiles(externalAttempts);
      if !compilationContainer.compilationSuccessful {
        history := history + [Iteration(externalAttempts, feedback, CompileFailed(codeContainer, solution, destinationFilePath, compilationContainer.errorMessage))];
        previousRunContainer := CreatePreviousRunContainer(compilationContainer.errorMessage);
        assert IterationEvent(o, input, externalAttempts, feedback) == history[|history| - 1].event;
        assert Body(o, input, before) == Completed(LoopState(externalAttempts, previousRunContainer, testInfo, solutionFilePath, history));
        continue;
      }

      var info := o.runTestFile(externalAttempts);
      testInfo := Some(info);
      history := history + [Iteration(externalAttempts, feedback, Tested(codeContainer, solution, destinationFilePath, info))];
      if SolutionNotFound(testInfo) {
        previousRunContainer := CreatePreviousRunContainer(info.errorOutput);
      }
      assert IterationEvent(o, input, externalAttempts, feedback) == history[|history| - 1].event;
      assert Body(o, input, before) == Completed(LoopState(externalAttempts, previousRunContainer, testInfo, solutionFilePath, history));
    }
    report := Report(LoopState(externalAttempts, previousRunContainer, testInfo, solutionFilePath, history));
  }

  /** `Generator.run`: the loop with the hard-coded budget of five attempts. */
  method Run(o: Collaborators, input: InputContainer) returns (report: RunReport)
    requires ValidInput(input)
    ensures report == Generate(o, input, ExternalMaxRetries)
    ensures 1 <= report.attempts <= ExternalMaxRetries
  {
    report := RunLoop(o, input, ExternalMaxRetries);
  }
}
