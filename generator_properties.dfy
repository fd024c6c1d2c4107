/**
  What a run of `Generator.run` guarantees: the attempt count, how feedback
  is threaded from one pass to the next, when the loop stops, and what it
  reports. Every property is stated of `Generate`, which `RunLoop` is proved
  to compute.
 */
module GeneratorProperties {
  import opened Options
  import opened Paths
  import opened Generator

  // ----- Shapes of a history

  /**
    Pass `k` ran with `externalAttempts == k + 1`; the first pass got no
    feedback; every later pass got exactly the feedback of the pass before,
    which failed.
   */
  ghost predicate Threaded(h: seq<Iteration>)
  {
    && (forall k :: 0 <= k < |h| ==> h[k].attempt == k + 1)
    && (|h| > 0 ==> h[0].feedback == NoPreviousRun)
    && (forall k :: 0 <= k < |h| - 1 ==> Follows(h[k], h[k + 1]))
  }

  /** `next` is what the loop runs after `prev`: `prev` failed and `next` got its feedback. */
  predicate Follows(prev: Iteration, next: Iteration)
  {
    Retried(prev.event) && next.feedback == FeedbackFrom(prev.event)
  }

  /** Every pass recorded is what the collaborators answer for its attempt and its feedback. */
  ghost predicate Faithful(o: Collaborators, input: InputContainer, h: seq<Iteration>)
    requires ValidInput(input)
  {
    forall k :: 0 <= k < |h| ==> h[k].event == IterationEvent(o, input, h[k].attempt, h[k].feedback)
  }

  ghost predicate AllRetried(h: seq<Iteration>)
  {
    forall k :: 0 <= k < |h| ==> Retried(h[k].event)
  }

  /** The test result of the latest pass that ran the tests, if any did. */
  function LastTested(h: seq<Iteration>): Option<TestInfo>
  {
    if h == [] then None
    else if h[|h| - 1].event.Tested? then Some(h[|h| - 1].event.info)
    else LastTested(h[..|h| - 1])
  }

  /** The feedback live after the passes of `h`. */
  function CurrentFeedback(h: seq<Iteration>): PreviousRunContainer
  {
    if h == [] then NoPreviousRun else FeedbackFrom(h[|h| - 1].event)
  }

  /** A state at the top of a pass that the loop enters. */
  ghost predicate Resumable(o: Collaborators, input: InputContainer, s: LoopState)
    requires ValidInput(input)
  {
    && |s.history| == s.attempts
    && Threaded(s.history)
    && Faithful(o, input, s.history)
    && AllRetried(s.history)
    && s.previousRunContainer == CurrentFeedback(s.history)
    && s.testInfo == LastTested(s.history)
    && (s.testInfo.Some? ==> s.solutionFilePath.Some?)
  }

  /** How the last pass decides the outcome. */
  ghost predicate EndsWell(r: RunReport, maxRetries: nat)
  {
    && |r.history| > 0
    && var e := r.history[|r.history| - 1].event;
    && (r.outcome.Aborted? <==> e.AssistantFailed?)
    && (r.outcome.Aborted? ==> r.outcome.cause == e.failure)
    && (r.outcome.SolutionFound? <==> e.Tested? && !SolutionNotFound(Some(e.info)))
    && (r.outcome.SolutionFound? ==> r.outcome.solutionFilePath == e.solution)
    && (r.outcome.NoSolutionFound? <==> Retried(e))
    && (r.outcome.NoSolutionFound? ==> r.attempts == maxRetries)
  }

  /** The number of calls to `compileFiles` in a history. */
  function CompilerCalls(h: seq<Iteration>): (n: nat)
    ensures n <= |h|
  {
    if h == [] then 0 else CompilerCalls(h[..|h| - 1]) + (if h[|h| - 1].event.AssistantFailed? then 0 else 1)
  }

  /** The number of calls to the test runner in a history. */
  function TestRuns(h: seq<Iteration>): (n: nat)
    ensures n <= CompilerCalls(h)
  {
    if h == [] then 0 else TestRuns(h[..|h| - 1]) + (if h[|h| - 1].event.Tested? then 1 else 0)
  }

  // ----- The general invariant of the fold

  lemma {:induction false} LastTestedFails(h: seq<Iteration>)
    requires AllRetried(h)
    ensures SolutionNotFound(LastTested(h))
    decreases |h|
  {
    if h != [] && !h[|h| - 1].event.Tested? {
      LastTestedFails(h[..|h| - 1]);
    }
  }

  /** Appending a pass to a history keeps it threaded when the pass follows the last one. */
  lemma ThreadedExtend(h: seq<Iteration>, it: Iteration)
    requires Threaded(h)
    requires it.attempt == |h| + 1
    requires h == [] ==> it.feedback == NoPreviousRun
    requires h != [] ==> Follows(h[|h| - 1], it)
    ensures Threaded(h + [it])
  {
    var h' := h + [it];
    forall k | 0 <= k < |h'| - 1 ensures Follows(h'[k], h'[k + 1]) {
      if k < |h| - 1 {
        assert h'[k] == h[k] && h'[k + 1] == h[k + 1];
      }
    }
  }

  lemma FaithfulExtend(o: Collaborators, input: InputContainer, h: seq<Iteration>, it: Iteration)
    requires ValidInput(input)
    requires Faithful(o, input, h)
    requires it.event == IterationEvent(o, input, it.attempt, it.feedback)
    ensures Faithful(o, input, h + [it])
  {
    var h' := h + [it];
    forall k | 0 <= k < |h'| ensures h'[k].event == IterationEvent(o, input, h'[k].attempt, h'[k].feedback) {
      if k < |h| {
        assert h'[k] == h[k];
      }
    }
  }

  lemma LastTestedExtend(h: seq<Iteration>, it: Iteration)
    ensures LastTested(h + [it]) == if it.event.Tested? then Some(it.event.info) else LastTested(h)
  {
    assert (h + [it])[..|h|] == h;
  }

  lemma AllRetriedExtend(h: seq<Iteration>, it: Iteration)
    requires AllRetried(h)
    requires Retried(it.event)
    ensures AllRetried(h + [it])
  {
    var h' := h + [it];
    forall k | 0 <= k < |h'| ensures Retried(h'[k].event) {
      if k < |h| {
        assert h'[k] == h[k];
      }
    }
  }

  /** One pass from a resumable state: the history stays well formed, and the pass either repeats from a resumable state or decides the outcome. */
  lemma StepShape(o: Collaborators, input: InputContainer, maxRetries: nat, s: LoopState)
    requires ValidInput(input)
    requires s.attempts < maxRetries
    requires Resumable(o, input, s)
    ensures var next := Body(o, input, s).state;
      && |next.history| == next.attempts
      && next.history[..|s.history|] == s.history
      && Threaded(next.history)
      && Faithful(o, input, next.history)
      && next.testInfo == LastTested(next.history)
      && (Body(o, input, s).Completed? && KeepGoing(maxRetries, next) ==> Resumable(o, input, next))
  {
    var h := s.history;
    var e := IterationEvent(o, input, s.attempts + 1, s.previousRunContainer);
    var it := Iteration(s.attempts + 1, s.previousRunContainer, e);
    var b := Body(o, input, s);
    var next := b.state;
    assert next.history == h + [it];
    assert next.history[..|h|] == h;
    ThreadedExtend(h, it);
    FaithfulExtend(o, input, h, it);
    LastTestedExtend(h, it);
    if b.Completed? && KeepGoing(maxRetries, next) {
      assert Retried(e);
      AllRetriedExtend(h, it);
    }
  }

  /** A pass after which the loop stops decides the outcome as `EndsWell` says. */
  lemma StopShape(o: Collaborators, input: InputContainer, maxRetries: nat, s: LoopState)
    requires ValidInput(input)
    requires s.attempts < maxRetries
    requires Resumable(o, input, s)
    requires Body(o, input, s).Thrown? || !KeepGoing(maxRetries, Body(o, input, s).state)
    ensures EndsWell(RunFrom(o, input, maxRetries, s), maxRetries)
  {
    var e := IterationEvent(o, input, s.attempts + 1, s.previousRunContainer);
    if e.CompileFailed? {
      LastTestedFails(s.history);
    }
  }

  /** Everything the run from a resumable state guarantees. */
  lemma {:induction false} RunFromShape(o: Collaborators, input: InputContainer, maxRetries: nat, s: LoopState)
    requires ValidInput(input)
    requires s.attempts < maxRetries
    requires Resumable(o, input, s)
    ensures var r := RunFrom(o, input, maxRetries, s);
      && |r.history| == r.attempts
      && r.history[..|s.history|] == s.history
      && Threaded(r.history)
      && Faithful(o, input, r.history)
      && r.testInfo == LastTested(r.history)
      && EndsWell(r, maxRetries)
    decreases maxRetries - s.attempts
  {
    StepShape(o, input, maxRetries, s);
    var b := Body(o, input, s);
    var next := b.state;
    if b.Completed? && KeepGoing(maxRetries, next) {
      RunFromShape(o, input, maxRetries, next);
      var r := RunFrom(o, input, maxRetries, next);
      assert r.history[..|s.history|] == r.history[..|next.history|][..|s.history|];
    } else {
      StopShape(o, input, maxRetries, s);
    }
  }

  lemma {:induction false} GenerateShape(o: Collaborators, input: InputContainer, maxRetries: nat)
    requires ValidInput(input)
    requires maxRetries >= 1
    ensures var r := Generate(o, input, maxRetries);
      && |r.history| == r.attempts
      && Threaded(r.history)
      && Faithful(o, input, r.history)
      && r.testInfo == LastTested(r.history)
      && EndsWell(r, maxRetries)
  {
    RunFromShape(o, input, maxRetries, Initial);
  }

  // ----- The properties of a run

  /** Every run makes between 1 and `maxRetries` assistant calls, pass `k` with attempt number `k + 1`. */
  lemma AttemptsBounded(o: Collaborators, input: InputContainer, maxRetries: nat)
    requires ValidInput(input)
    requires maxRetries >= 1
    ensures var r := Generate(o, input, maxRetries);
      && 1 <= r.attempts <= maxRetries
      && |r.history| == r.attempts
      && forall k :: 0 <= k < |r.history| ==> r.history[k].attempt == k + 1
  {
    GenerateShape(o, input, maxRetries);
  }

  /**
    The first assistant call gets no feedback. Every later call gets the
    feedback of the pass just before, which failed: its compile error if it
    did not compile, otherwise its test output. Nothing older is kept.
   */
  lemma FeedbackThreading(o: Collaborators, input: InputContainer, maxRetries: nat)
    requires ValidInput(input)
    requires maxRetries >= 1
    ensures var h := Generate(o, input, maxRetries).history;
      && h[0].feedback == PreviousRunContainer(None)
      && forall k :: 0 <= k < |h| - 1 ==>
        && !h[k].event.AssistantFailed?
        && (h[k].event.CompileFailed? ==> h[k + 1].feedback == PreviousRunContainer(Some(h[k].event.error)))
        && (h[k].event.Tested? ==> h[k + 1].feedback == PreviousRunContainer(Some(h[k].event.info.errorOutput)))
  {
    GenerateShape(o, input, maxRetries);
    var h := Generate(o, input, maxRetries).history;
    forall k | 0 <= k < |h| - 1 ensures !h[k].event.AssistantFailed? && h[k + 1].feedback == FeedbackFrom(h[k].event) {
      assert Follows(h[k], h[k + 1]);
    }
  }

  /**
    A pass whose compilation fails runs no tests, and the test result the run
    ends with is the one of the latest pass that did run them.
   */
  lemma CompileFailureSkipsTests(o: Collaborators, input: InputContainer, maxRetries: nat)
    requires ValidInput(input)
    requires maxRetries >= 1
    ensures var r := Generate(o, input, maxRetries);
      && (forall k :: 0 <= k < |r.history| ==>
        (r.history[k].event.Tested? <==>
          o.assistant(k + 1, r.history[k].feedback).Reply? && o.compileFiles(k + 1).compilationSuccessful))
      && (forall k :: 0 <= k < |r.history| ==>
        (r.history[k].event.CompileFailed? <==>
          o.assistant(k + 1, r.history[k].feedback).Reply? && !o.compileFiles(k + 1).compilationSuccessful))
      && r.testInfo == LastTested(r.history)
  {
    GenerateShape(o, input, maxRetries);
  }

  /**
    The loop stops right after the first pass whose tests all succeed (as
    many succeeded as were found), and reports that pass's solution file.
   */
  lemma StopsAtFirstSuccess(o: Collaborators, input: InputContainer, maxRetries: nat)
    requires ValidInput(input)
    requires maxRetries >= 1
    ensures var r := Generate(o, input, maxRetries);
      var last := r.history[|r.history| - 1];
      && (forall k :: 0 <= k < |r.history| - 1 ==> Retried(r.history[k].event))
      && (r.outcome.SolutionFound? <==> last.event.Tested? && last.event.info.succeeded == last.event.info.found)
      && (r.outcome.SolutionFound? ==>
        && o.assistant(r.attempts, last.feedback).Reply?
        && r.outcome.solutionFilePath == o.createTemporaryFile(o.assistant(r.attempts, last.feedback).code))
  {
    GenerateShape(o, input, maxRetries);
    var r := Generate(o, input, maxRetries);
    forall k | 0 <= k < |r.history| - 1 ensures Retried(r.history[k].event) {
      assert Follows(r.history[k], r.history[k + 1]);
    }
  }

  /** A run that ends without a solution and without an exception has used the whole budget, and no pass succeeded. */
  lemma ExhaustionUsesWholeBudget(o: Collaborators, input: InputContainer, maxRetries: nat)
    requires ValidInput(input)
    requires maxRetries >= 1
    ensures var r := Generate(o, input, maxRetries);
      && (r.outcome.NoSolutionFound? ==> r.attempts == maxRetries && AllRetried(r.history))
      && (r.attempts < maxRetries && !r.outcome.Aborted? ==> r.outcome.SolutionFound?)
  {
    GenerateShape(o, input, maxRetries);
    var r := Generate(o, input, maxRetries);
    forall k | 0 <= k < |r.history| - 1 ensures Retried(r.history[k].event) {
      assert Follows(r.history[k], r.history[k + 1]);
    }
  }

  /**
    An exception from the assistant ends the run in the pass it happened:
    it is the last pass, no compile or test call follows it, and no earlier
    pass threw.
   */
  lemma AbortEndsRun(o: Collaborators, input: InputContainer, maxRetries: nat)
    requires ValidInput(input)
    requires maxRetries >= 1
    ensures var r := Generate(o, input, maxRetries);
      var last := r.history[|r.history| - 1];
      && (r.outcome.Aborted? <==> o.assistant(r.attempts, last.feedback).Threw?)
      && (r.outcome.Aborted? ==> r.outcome.cause == o.assistant(r.attempts, last.feedback).failure)
      && (forall k :: 0 <= k < |r.history| - 1 ==> !r.history[k].event.AssistantFailed?)
  {
    GenerateShape(o, input, maxRetries);
    var r := Generate(o, input, maxRetries);
    var last := r.history[|r.history| - 1];
    assert last.attempt == r.attempts;
    assert last.event == IterationEvent(o, input, last.attempt, last.feedback);
    forall k | 0 <= k < |r.history| - 1 ensures !r.history[k].event.AssistantFailed? {
      assert Follows(r.history[k], r.history[k + 1]);
    }
  }

  /** A run ended by an exception compiled once per earlier pass and never after it. */
  lemma AbortedRunCompileCalls(o: Collaborators, input: InputContainer, maxRetries: nat)
    requires ValidInput(input)
    requires maxRetries >= 1
    requires Generate(o, input, maxRetries).outcome.Aborted?
    ensures CompilerCalls(Generate(o, input, maxRetries).history) == Generate(o, input, maxRetries).attempts - 1
  {
    GenerateShape(o, input, maxRetries);
    var h := Generate(o, input, maxRetries).history;
    var prefix := h[..|h| - 1];
    forall k | 0 <= k < |prefix| ensures Retried(prefix[k].event) {
      assert Follows(h[k], h[k + 1]);
    }
    CompilerCallsOfRetried(prefix);
    assert CompilerCalls(h) == CompilerCalls(prefix);
  }

  lemma {:induction false} CompilerCallsOfRetried(h: seq<Iteration>)
    requires AllRetried(h)
    ensures CompilerCalls(h) == |h|
    decreases |h|
  {
    if h != [] {
      CompilerCallsOfRetried(h[..|h| - 1]);
    }
  }

  /** Every pass that got a candidate copies the test file under that candidate's own package. */
  lemma TestCopyFollowsCandidate(o: Collaborators, input: InputContainer, maxRetries: nat)
    requires ValidInput(input)
    requires maxRetries >= 1
    ensures var h := Generate(o, input, maxRetries).history;
      forall k :: 0 <= k < |h| && !h[k].event.AssistantFailed? ==>
        && h[k].event.testCopy == TestDestination(input, h[k].event.code.packageName)
        && o.assistant(k + 1, h[k].feedback).Reply?
        && h[k].event.code == o.assistant(k + 1, h[k].feedback).code
  {
    GenerateShape(o, input, maxRetries);
  }

  // ----- Particular runs

  /** An assistant whose first candidate compiles and passes its tests is called once. */
  lemma FirstAttemptSolves(o: Collaborators, input: InputContainer, maxRetries: nat)
    requires ValidInput(input)
    requires maxRetries >= 1
    requires o.assistant(1, NoPreviousRun).Reply?
    requires o.compileFiles(1).compilationSuccessful
    requires o.runTestFile(1).succeeded == o.runTestFile(1).found
    ensures var r := Generate(o, input, maxRetries);
      && r.attempts == 1
      && r.outcome == SolutionFound(o.createTemporaryFile(o.assistant(1, NoPreviousRun).code))
  {
    AttemptsBounded(o, input, maxRetries);
    StopsAtFirstSuccess(o, input, maxRetries);
    var r := Generate(o, input, maxRetries);
    assert RunFrom(o, input, maxRetries, Initial) == Report(Body(o, input, Initial).state);
  }

  /** A run whose tests find nothing, and so have nothing to fail, counts as solved. */
  lemma ZeroTestsCountAsSolved(o: Collaborators, input: InputContainer, maxRetries: nat)
    requires ValidInput(input)
    requires maxRetries >= 1
    requires o.assistant(1, NoPreviousRun).Reply?
    requires o.compileFiles(1).compilationSuccessful
    requires o.runTestFile(1).found == 0 && o.runTestFile(1).succeeded == 0
    ensures Generate(o, input, maxRetries).outcome.SolutionFound?
    ensures Generate(o, input, maxRetries).testInfo == Some(o.runTestFile(1))
  {
    FirstAttemptSolves(o, input, maxRetries);
    assert RunFrom(o, input, maxRetries, Initial) == Report(Body(o, input, Initial).state);
  }

  /**
    A compile failure on the first pass and a full pass on the second make two
    assistant calls, two compiler calls and one test run, and end solved.
   */
  lemma CompileFailureThenPass(o: Collaborators, input: InputContainer, maxRetries: nat)
    requires ValidInput(input)
    requires maxRetries >= 2
    requires o.assistant(1, NoPreviousRun).Reply?
    requires !o.compileFiles(1).compilationSuccessful
    requires o.assistant(2, PreviousRunContainer(Some(o.compileFiles(1).errorMessage))).Reply?
    requires o.compileFiles(2).compilationSuccessful
    requires o.runTestFile(2).succeeded == o.runTestFile(2).found
    ensures var r := Generate(o, input, maxRetries);
      && r.outcome.SolutionFound?
      && r.attempts == 2
      && CompilerCalls(r.history) == 2
      && TestRuns(r.history) == 1
  {
    GenerateShape(o, input, maxRetries);
    var r := Generate(o, input, maxRetries);
    var s1 := Body(o, input, Initial).state;
    assert s1.attempts == 1 && KeepGoing(maxRetries, s1);
    assert r == RunFrom(o, input, maxRetries, s1);
    var s2 := Body(o, input, s1).state;
    assert s2.testInfo == Some(o.runTestFile(2));
    assert !KeepGoing(maxRetries, s2);
    assert r == Report(s2);
    assert r.history[..1] == [r.history[0]];
    assert r.history[..2][..1] == r.history[..1];
    assert r.history[..2] == r.history;
  }

  /** If no candidate ever compiles, the run uses the whole budget, never runs the tests, and finds no solution. */
  lemma AllCompilationsFail(o: Collaborators, input: InputContainer, maxRetries: nat)
    requires ValidInput(input)
    requires maxRetries >= 1
    requires forall k, f :: o.assistant(k, f).Reply?
    requires forall k :: !o.compileFiles(k).compilationSuccessful
    ensures var r := Generate(o, input, maxRetries);
      && r.outcome == NoSolutionFound
      && r.attempts == maxRetries
      && r.testInfo == None
      && TestRuns(r.history) == 0
  {
    GenerateShape(o, input, maxRetries);
    var r := Generate(o, input, maxRetries);
    assert forall k :: 0 <= k < |r.history| ==> r.history[k].event.CompileFailed?;
    NoTestRuns(r.history);
  }

  lemma {:induction false} NoTestRuns(h: seq<Iteration>)
    requires forall k :: 0 <= k < |h| ==> h[k].event.CompileFailed?
    ensures TestRuns(h) == 0 && LastTested(h) == None
    decreases |h|
  {
    if h != [] {
      NoTestRuns(h[..|h| - 1]);
    }
  }

  /** If every candidate compiles and always fails its tests, the run uses the whole budget and ends with the last test result. */
  lemma AllTestsFail(o: Collaborators, input: InputContainer, maxRetries: nat)
    requires ValidInput(input)
    requires maxRetries >= 1
    requires forall k, f :: o.assistant(k, f).Reply?
    requires forall k :: o.compileFiles(k).compilationSuccessful
    requires forall k :: o.runTestFile(k).succeeded != o.runTestFile(k).found
    ensures var r := Generate(o, input, maxRetries);
      && r.outcome == NoSolutionFound
      && r.attempts == maxRetries
      && r.testInfo == Some(o.runTestFile(maxRetries))
  {
    GenerateShape(o, input, maxRetries);
    var r := Generate(o, input, maxRetries);
    var last := r.history[|r.history| - 1];
    assert last.event.Tested?;
  }

  /**
    With the hard-coded budget, a candidate whose two tests always fail leaves
    five attempts and no solution. The result "2 found, 0 succeeded" is the
    runner's answer assumed here, not derived; so is that every candidate
    compiles, which the scenario it mirrors does not itself show.
   */
  lemma TwoFoundNoneSucceeded(o: Collaborators, input: InputContainer)
    requires ValidInput(input)
    requires forall k, f :: o.assistant(k, f).Reply?
    requires forall k :: o.compileFiles(k).compilationSuccessful
    requires forall k :: o.runTestFile(k).found == 2 && o.runTestFile(k).succeeded == 0
    ensures var r := Generate(o, input, ExternalMaxRetries);
      && r.outcome == NoSolutionFound
      && r.attempts == 5
      && r.testInfo.Some? && r.testInfo.value.found == 2 && r.testInfo.value.succeeded == 0
  {
    AllTestsFail(o, input, ExternalMaxRetries);
  }

  /** An exception on the first assistant call ends the run at once, whatever budget remains. */
  lemma FirstCallThrows(o: Collaborators, input: InputContainer, maxRetries: nat)
    requires ValidInput(input)
    requires maxRetries >= 1
    requires o.assistant(1, NoPreviousRun).Threw?
    ensures var r := Generate(o, input, maxRetries);
      && r.outcome == Aborted(o.assistant(1, NoPreviousRun).failure)
      && r.attempts == 1
      && CompilerCalls(r.history) == 0
  {
    var r := Generate(o, input, maxRetries);
    assert r.history == Body(o, input, Initial).state.history;
    assert r.history[..0] == [];
  }

  // ----- Where the test file goes

  /**
    For a package name without slashes and not starting with a dot, the test
    copy sits under the output directory, one directory per non-empty
    dot-separated piece of the package name.
   */
  lemma TestDestinationLayout(input: InputContainer, packageName: string)
    requires ValidInput(input)
    requires '/' !in packageName
    requires packageName == [] || packageName[0] != '.'
    ensures var out := input.outputDirectory;
      TestDestination(input, packageName) ==
        Path(out.absolute, out.names + NonEmpty(Split(packageName, '.')) + [input.inputFile.names[|input.inputFile.names| - 1]])
  {
    SplitReplaceDots(packageName);
  }

  /** A well-formed package `a.b.c` puts the test copy at `out/a/b/c/<test file>`; the default package at `out/<test file>`. */
  lemma PackageDirectories(input: InputContainer, packageName: string)
    requires ValidInput(input)
    requires '/' !in packageName
    requires packageName == [] || forall i :: 0 <= i < |Split(packageName, '.')| ==> Split(packageName, '.')[i] != []
    ensures var out := input.outputDirectory;
      var name := input.inputFile.names[|input.inputFile.names| - 1];
      && Join(Split(packageName, '.'), '.') == packageName
      && (packageName != [] ==> TestDestination(input, packageName) == Path(out.absolute, out.names + Split(packageName, '.') + [name]))
      && (packageName == [] ==> TestDestination(input, packageName) == Path(out.absolute, out.names + [name]))
  {
    JoinSplit(packageName, '.');
    SplitLeadingSeparator(packageName, '.');
    TestDestinationLayout(input, packageName);
  }

  /** A package name starting with a dot becomes an absolute path, and the test copy leaves the output directory. */
  lemma LeadingDotLeavesOutputDirectory(input: InputContainer, packageName: string)
    requires ValidInput(input)
    requires |packageName| > 0 && packageName[0] == '.'
    ensures TestDestination(input, packageName).absolute
    ensures TestDestination(input, packageName).names ==
      NonEmpty(Split(ReplaceDots(packageName), '/')) + [input.inputFile.names[|input.inputFile.names| - 1]]
  {
  }
}
