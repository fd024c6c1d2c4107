# Test-driven generation loop, in Dafny

This project models the core of a test-driven code generator. The generator
asks an AI assistant for a solution to a JUnit test file. It writes the
candidate and a copy of the test under the output directory, compiles both,
and runs the test. When compilation or a test fails, it gives the error text
back to the assistant and tries again, at most five times. This is
`Generator.run` with its helpers `solutionNotFound`,
`createPreviousRunContainer` and `callAssistant`.

Files:

- `options.dfy`: `Option`, where `None` plays Java's `null`.
- `paths.dfy`: the part of `java.nio.file.Path` that `run` uses on a Unix
  file system. It covers parsing a string (`Parse`), `resolve`,
  `getFileName`, and `String.replace(".", "/")` (`ReplaceDots`), with
  split/join lemmas.
- `generator.dfy`: the records of the loop (`PreviousRunContainer`,
  `CodeContainer`, `CompilationContainer`, `TestInfo`, `InputContainer`) and
  the collaborators, each given as the answers it returns:
  - the assistant, as a function of the attempt number and the feedback it is handed;
  - `createTemporaryFile`, as a function of the candidate;
  - `compileFiles` and the test runner, as functions of the attempt number.

  The file also holds one pass of the loop body as the function `Body`, and
  the whole run as the fold `Generate`. `RunLoop` is the `do … while` loop
  itself, a method that mutates the locals `externalAttempts`,
  `previousRunContainer`, `testInfo` and `solutionFilePath`, and is proved to
  compute `Generate`. `Run` fixes the budget at the hard-coded 5.
- `generator_properties.dfy`: the properties of a run. Each is a lemma about
  `Generate`, stated on the run's history. The history is one `Iteration`
  per pass: the attempt number, the feedback the assistant got, and what
  happened (assistant threw, compile failed, or tests ran).

The `do … while` is written as `while externalAttempts == 0 || KeepGoing(…)`.
The guard is true on entry, so the first pass always runs. As in Java, the
`continue` after a failed compilation jumps to the guard, which then sees
whatever `testInfo` an earlier pass left behind. The retry budget
`maxRetries` is a parameter with `maxRetries >= 1`, and `Run` instantiates
it at 5.

### Where the code departs from the intended rules

Two rules the generator is meant to follow are not what the code does. The
model follows the code in both cases.

- A run that found no tests is meant to count as failed: a test result
  should be a success only when `found > 0` and `succeeded == found`. The
  code (`solutionNotFound`, Generator.java:105-107) checks only
  `succeeded == found`, so "0 found, 0 succeeded" ends the run as solved.
  The predicate `Generator.SolutionNotFound` is the code's check, and
  `ZeroTestsCountAsSolved` proves the consequence.
- A transport failure of the assistant is meant not to use up an attempt.
  In the code, `externalAttempts` is incremented before the assistant is
  called (Generator.java:55-58). So the aborted pass is counted in the
  attempts the model reports (`FirstCallThrows`: `attempts == 1`).

## Model

| member | source | states |
|---|---|---|
| `Generator.RunLoop` | src/main/java/nl/boukenijhuis/Generator.java:47-97 | The loop computes exactly the fold `Generate` (the loop invariants tie the Java locals to the fold), uses between 1 and `maxRetries` attempts, and records one history entry per attempt |
| `Generator.Run` | src/main/java/nl/boukenijhuis/Generator.java:41-98 | `run` with `externalMaxRetries` fixed at 5: the result is `Generate` with budget 5, with 1 to 5 attempts |
| `Generator.Body` | src/main/java/nl/boukenijhuis/Generator.java:55-90 | One pass increments the attempt counter by exactly one and appends exactly one history entry. A thrown assistant call ends the pass with that exception and leaves `testInfo` and `solutionFilePath` as they were. A failed compile keeps the old `testInfo` and replaces the feedback with the compile error. A test run sets `testInfo` to the runner's result; if it fails, the feedback becomes its output, otherwise the feedback is unchanged. Every pass with a candidate sets `solutionFilePath` to that candidate's file |
| `Generator.IterationEvent` | src/main/java/nl/boukenijhuis/Generator.java:59-82 | A pass throws iff the assistant throws (`callAssistant`). Otherwise the candidate is the assistant's answer, the solution path is `createTemporaryFile`'s, and the test copy goes to `TestDestination` of that candidate's package. Tests run iff compilation succeeded, and the test result is the runner's answer |
| `Generator.Report` | src/main/java/nl/boukenijhuis/Generator.java:93-97 | After the loop, "No solution found" iff `solutionNotFound(testInfo)`; otherwise the outcome is "solution found" at the last `solutionFilePath`. Attempts, `testInfo` and history are reported as the loop left them |
| `Generator.SolutionNotFound` | src/main/java/nl/boukenijhuis/Generator.java:105-107 | A `null` test result is "not found"; 0 found with 0 succeeded counts as found; fewer successes than tests found is "not found" |
| `Generator.CreatePreviousRunContainer` | src/main/java/nl/boukenijhuis/Generator.java:100-103 | The new feedback record holds exactly the given error text and nothing else, so feedback is replaced rather than accumulated |
| `Generator.KeepGoing` | src/main/java/nl/boukenijhuis/Generator.java:91 | The `while` condition only repeats while attempts remain, and never after a test run with `succeeded == found` |
| `Generator.TestDestination` | src/main/java/nl/boukenijhuis/Generator.java:65-67 | The test copy's path ends with the input test file's name; for a package name not starting with '.' or '/' it is absolute exactly when the output directory is |
| `Generator.RunFrom` | src/main/java/nl/boukenijhuis/Generator.java:55-91 | From any iteration start, the run makes at least one more attempt and never goes past `maxRetries`. The history grows by exactly the attempts made |
| `GeneratorProperties.RunFromShape` | src/main/java/nl/boukenijhuis/Generator.java:47-97 | Induction over the loop: from a resumable state, the history keeps its prefix, is threaded and matches the collaborators' answers, `testInfo` is the latest test result, and the last pass decides the outcome |
| `GeneratorProperties.StepShape` | src/main/java/nl/boukenijhuis/Generator.java:55-91 | One pass keeps the history well formed. A pass the `while` condition repeats leaves a resumable state: its feedback is its own failure text, and its `testInfo` is the latest, failing, test result or `null` |
| `GeneratorProperties.StopShape` | src/main/java/nl/boukenijhuis/Generator.java:86-97 | A pass after which the loop stops decides the outcome. An assistant exception gives abort. A test with `succeeded == found` gives solution found at that pass's file. Otherwise, no solution, with exactly `maxRetries` attempts |
| `GeneratorProperties.GenerateShape` | src/main/java/nl/boukenijhuis/Generator.java:41-98 | The whole-run characterisation that the properties below unpack |
| `GeneratorProperties.AttemptsBounded` | src/main/java/nl/boukenijhuis/Generator.java:48-56 | Every run makes between 1 and `maxRetries` assistant calls. Pass `k` runs with `externalAttempts == k + 1`, so the counter goes up once per pass, before the call |
| `GeneratorProperties.FeedbackThreading` | src/main/java/nl/boukenijhuis/Generator.java:53-89 | The first assistant call gets an empty `PreviousRunContainer`. Each later call gets exactly the previous pass's failure text: its compile error if it did not compile, otherwise its test `errorOutput`. Nothing older is kept (`createPreviousRunContainer` replaces the record) |
| `GeneratorProperties.CompileFailureSkipsTests` | src/main/java/nl/boukenijhuis/Generator.java:71-82 | A pass runs the tests iff the assistant answered and compilation succeeded, and fails to compile iff compilation failed. The final `testInfo` is the result of the latest pass that ran tests, so compile failures leave it unchanged |
| `GeneratorProperties.StopsAtFirstSuccess` | src/main/java/nl/boukenijhuis/Generator.java:86-97 | Every pass but the last failed. The outcome is "solution found" iff the last pass ran tests with `succeeded == found`, and the reported path is that pass's `createTemporaryFile` result |
| `GeneratorProperties.ExhaustionUsesWholeBudget` | src/main/java/nl/boukenijhuis/Generator.java:91-94 | "No solution found" means exactly `maxRetries` attempts, all failed. A run that stopped earlier and did not abort found a solution |
| `GeneratorProperties.AbortEndsRun` | src/main/java/nl/boukenijhuis/Generator.java:110-119 | The run aborts iff the last assistant call threw, with that exception as its cause. No earlier pass threw |
| `GeneratorProperties.AbortedRunCompileCalls` | src/main/java/nl/boukenijhuis/Generator.java:59-71 | After an abort, no compile call follows the exception: there was one compile per earlier pass only |
| `GeneratorProperties.FirstCallThrows` | src/main/java/nl/boukenijhuis/Generator.java:110-119 | An exception on the first assistant call aborts after one attempt with no compile call, whatever `maxRetries` is |
| `GeneratorProperties.TestCopyFollowsCandidate` | src/main/java/nl/boukenijhuis/Generator.java:65-67 | In every pass with a candidate, the test copy's destination is recomputed from that pass's candidate package |
| `GeneratorProperties.FirstAttemptSolves` | src/main/java/nl/boukenijhuis/Generator.java:86-97 | A first candidate that compiles and passes ends the run after one attempt, with that candidate's file reported |
| `GeneratorProperties.ZeroTestsCountAsSolved` | src/main/java/nl/boukenijhuis/Generator.java:105-107 | A test run with 0 found and 0 succeeded counts as a solution (`solutionNotFound` tests only `succeeded != found`) |
| `GeneratorProperties.CompileFailureThenPass` | src/main/java/nl/boukenijhuis/Generator.java:71-91 | Compile failure on pass 1, then a full pass on pass 2 given that compile error as feedback: solved after 2 attempts with 2 compiler calls and 1 test run |
| `GeneratorProperties.AllCompilationsFail` | src/main/java/nl/boukenijhuis/Generator.java:72-76 | If nothing ever compiles: no solution, exactly `maxRetries` attempts, no test run, and `testInfo` still `null` |
| `GeneratorProperties.AllTestsFail` | src/main/java/nl/boukenijhuis/Generator.java:82-94 | If everything compiles and every test run fails: no solution, exactly `maxRetries` attempts, final `testInfo` is the last pass's result |
| `GeneratorProperties.TwoFoundNoneSucceeded` | src/test/java/nl/boukenijhuis/OllamaGptIT.java:56-76 | With the hard-coded budget, candidates that always compile and a runner that always reports 2 found, 0 succeeded: no solution after 5 attempts, and the final `testInfo` is that 2/0 result. The 2/0 result and the successful compilations are assumptions of the lemma, not derived |
| `GeneratorProperties.TestDestinationLayout` | src/main/java/nl/boukenijhuis/Generator.java:65-67 | For a package name without '/' that does not start with '.': destination = output directory / non-empty dot-separated pieces of the package / test file name |
| `GeneratorProperties.PackageDirectories` | src/main/java/nl/boukenijhuis/Generator.java:65-67 | A well-formed package `a.b.c` (its pieces join back to the name) gives `out/a/b/c/<test file>`; the default package gives `out/<test file>` |
| `Paths.ReplaceDots` | src/main/java/nl/boukenijhuis/Generator.java:66 | `replace(".", "/")` keeps the length and swaps each '.' for '/', leaving every other character |
| `Paths.SplitReplaceDots` | src/main/java/nl/boukenijhuis/Generator.java:66-67 | For a name without '/', the '/'-separated pieces after the replacement are the '.'-separated pieces before it |
| `Paths.Parse` | src/main/java/nl/boukenijhuis/Generator.java:67 | A string becomes an absolute path iff it starts with '/'. Its name elements are non-empty and free of '/' |
| `Paths.ParseJoin` | src/main/java/nl/boukenijhuis/Generator.java:67 | Parsing the '/'-join of non-empty, slash-free names gives back the relative path of exactly those names |
| `Paths.NonEmptyConcat` | src/main/java/nl/boukenijhuis/Generator.java:67 | Dropping empty path elements is an order-preserving filter: it distributes over concatenation |
| `Paths.Resolve` | src/main/java/nl/boukenijhuis/Generator.java:67 | `resolve` returns an absolute `other` unchanged; a relative `other` keeps the base's absoluteness and adds exactly its names' count |
| `Paths.ResolveNames` | src/main/java/nl/boukenijhuis/Generator.java:67 | The resolved path ends with `other`'s names, and, for a relative `other`, starts with the base's names |
| `Paths.FileName` | src/main/java/nl/boukenijhuis/Generator.java:65 | `getFileName()` is a relative path holding only the last name element |
| `Paths.JoinSplit` | src/main/java/nl/boukenijhuis/Generator.java:66-67 | Joining the pieces of a split gives back the original string |
| `Paths.SplitJoin` | src/main/java/nl/boukenijhuis/Generator.java:66-67 | Splitting the join of separator-free pieces gives back the pieces |

## Left out

- `main` (Generator.java:26-37) is not modelled. It loads the properties file, builds `Llama2` and prints the stack trace of any exception; this is process plumbing.
- `InputContainer.build` is not part of this model. Its guarantee that the test file exists, and so has a file name, is the precondition `ValidInput`.
- `Utils.createTemporaryFile` is not part of this model. The path it returns is a collaborator answer (`createTemporaryFile`), and the file it writes is not modelled.
- `Files.copy` of the test file is modelled only as its computed destination. The `IOException` that it or `createTemporaryFile` may throw out of `run` is not modelled.
- `compileFiles`, `addToClassLoader` and `TestRunner.runTestFile` are collaborators. Their answers are given per attempt number rather than computed from the files on disk. The class loader's accumulation of classes across passes is not modelled.
- The assistant is a function of the attempt number and the feedback. The Ollama and Llama2 clients, their HTTP traffic, their internal retry count and their context tracking are not modelled. `CodeContainer.attempts` is carried but never read by the loop.
- The `LOG` calls are not modelled, except the two final messages, which become the outcome.
- `ChatGptResponse` is a data record with no behaviour and is not modelled.
- `Paths.Parse` follows Unix path syntax only, and Windows paths are not modelled. It returns a path for every string. Java's `Path.of`/`resolve` instead throws `InvalidPathException` for a string containing a NUL character, or a character the platform charset cannot encode (Generator.java:67). So `Generator.TestDestination` gives a destination for a package name such as `"a\0b"`, where `run` would throw before `Files.copy`.
- Unchecked exceptions are not modelled. `callAssistant` (Generator.java:110-119) wraps only `IOException` and `InterruptedException`, which become `AssistantFailure`. A `RuntimeException` from the assistant, `compileFiles`, `addToClassLoader` or `runTestFile` would leave `run` unwrapped, but every collaborator here returns an answer.
- `externalAttempts` is a Java `int`. It never exceeds 5, so no overflow is modelled.
