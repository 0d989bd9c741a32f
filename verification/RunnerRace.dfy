/** Three concrete interleavings in which the worker's final write falls between the test and the set of
    stop(): the exceptions that RunnerTheorems and RunnerHooks name do occur. */
module RunnerRace {
  import opened RunnerProtocol
  import opened RunnerTheorems
  import opened RunnerHooks

  ghost function Extended(run: (seq<State>, seq<Step>), step: Step): (seq<State>, seq<Step>)
    requires run.0 != [] && Enabled(run.0[|run.0| - 1], step)
  {
    (run.0 + [Apply(run.0[|run.0| - 1], step)], run.1 + [step])
  }

  lemma ExtendedIsRun(run: (seq<State>, seq<Step>), step: Step)
    requires Run(run.0, run.1) && Enabled(run.0[|run.1|], step)
    ensures var next := Extended(run, step); Run(next.0, next.1)
  {
    var next := Extended(run, step);
    forall i | 0 <= i < |next.1| ensures MovesAt(next.0, next.1, i) {
      assert i < |run.1| ==> MovesAt(run.0, run.1, i);
    }
  }

  /** `run` ends in the state `s`. */
  ghost predicate EndsIn(run: (seq<State>, seq<Step>), s: State) {
    Run(run.0, run.1) && run.0[|run.1|] == s
  }

  lemma Go(run: (seq<State>, seq<Step>), s: State, step: Step) returns (next: (seq<State>, seq<Step>))
    requires EndsIn(run, s) && Enabled(s, step)
    ensures EndsIn(next, Apply(s, step))
  {
    ExtendedIsRun(run, step);
    next := Extended(run, step);
  }

  const BEFORE_EXIT: seq<Event> :=
    [PreRunInit(OK), Process(DONE), StopChildren, PostRunCleanup(OK)]

  /** start() is called and its worker gets as far as the loop. */
  lemma Started() returns (run: (seq<State>, seq<Step>))
    ensures EndsIn(run, State(ACTIVE, RUNNING, AtRest, [Worker(LoopTest, [PreRunInit(OK)], 0, Unraced)]))
  {
    var s := State(CREATED, NOT_STARTED, AtRest, []);
    run := ([s], []);
    run := Go(run, s, StartTest);
    run := Go(run, s.(control := StartTested), StartWrite);
    s := State(STARTING, NOT_STARTED, StartWritten, []);
    run := Go(run, s, StartGuard);
    run := Go(run, s.(control := StartPassed), StartCreate(true));
    run := Go(run, State(STARTING, NOT_STARTED, AtRest, [Worker(Born, [], 0, Unraced)]), Work(0, OK));
    run := Go(run, State(STARTING, RUNNING, AtRest, [Worker(Starting, [], 0, Unraced)]), Work(0, OK));
    run := Go(run, State(STARTING, RUNNING, AtRest, [Worker(Initializing, [], 0, Unraced)]), Work(0, OK));
    assert [] + [PreRunInit(OK)] == [PreRunInit(OK)];
    run := Go(run, State(STARTING, RUNNING, AtRest, [Worker(Initialized(OK), [PreRunInit(OK)], 0, Unraced)]), Work(0, OK));
  }

  /** The service finishes by itself; stop() has read ACTIVE just before the EXITED write. */
  lemma StopCaughtInBetween() returns (run: (seq<State>, seq<Step>))
    ensures EndsIn(run, State(EXITED, RUNNING, StopTested, [Worker(LoopTest, BEFORE_EXIT, 1, Unraced)]))
  {
    run := Started();
    var t := [PreRunInit(OK)];
    run := Go(run, State(ACTIVE, RUNNING, AtRest, [Worker(LoopTest, t, 0, Unraced)]), Work(0, OK));
    run := Go(run, State(ACTIVE, RUNNING, AtRest, [Worker(ProcessCall, t, 0, Unraced)]), Work(0, OK));
    run := Go(run, State(ACTIVE, RUNNING, AtRest, [Worker(Processing, t, 1, Unraced)]), Work(0, DONE));
    t := t + [Process(DONE)];
    run := Go(run, State(ACTIVE, RUNNING, AtRest, [Worker(ProcessDone, t, 1, Unraced)]), Work(0, OK));
    t := t + [StopChildren];
    run := Go(run, State(ACTIVE, RUNNING, AtRest, [Worker(LoopCleaning, t, 1, Unraced)]), StopTest);
    run := Go(run, State(ACTIVE, RUNNING, StopTested, [Worker(LoopCleaning, t, 1, Unraced)]), Work(0, OK));
    assert t + [PostRunCleanup(OK)] == BEFORE_EXIT;
    run := Go(run, State(ACTIVE, RUNNING, StopTested, [Worker(LoopCleaned, BEFORE_EXIT, 1, Unraced)]), Work(0, OK));
  }

  /** The race can make one life run two successful cleanups, although no cleanup failed. */
  lemma RaceCleansTwice() returns (run: (seq<State>, seq<Step>))
    ensures Run(run.0, run.1)
    ensures var s := run.0[|run.1|];
            && |s.workers| == 1 && s.workers[0].race == Caught(EXITED) && s.workers[0].at == FinishCleaned(true)
            && s.workers[0].trace == BEFORE_EXIT + [StopChildren, PostRunCleanup(OK)] && !LifeWord(s.workers[0].trace)
  {
    run := StopCaughtInBetween();
    var t := BEFORE_EXIT;
    run := Go(run, State(EXITED, RUNNING, StopTested, [Worker(LoopTest, t, 1, Unraced)]), StopSet);
    run := Go(run, State(STOP_REQUESTED, RUNNING, AtRest, [Worker(LoopTest, t, 1, Caught(EXITED))]), Work(0, OK));
    run := Go(run, State(STOP_REQUESTED, RUNNING, AtRest, [Worker(FinishTest, t, 1, Caught(EXITED))]), Work(0, OK));
    run := Go(run, State(STOP_REQUESTED, RUNNING, AtRest, [Worker(StopSeen, t, 1, Caught(EXITED))]), Work(0, OK));
    run := Go(run, State(STOPPING, RUNNING, AtRest, [Worker(FinishStopping, t, 1, Caught(EXITED))]), Work(0, OK));
    t := t + [StopChildren];
    run := Go(run, State(STOPPING, RUNNING, AtRest, [Worker(FinishCleaning, t, 1, Caught(EXITED))]), Work(0, OK));
    var u := t + [PostRunCleanup(OK)];
    assert u == BEFORE_EXIT + [StopChildren, PostRunCleanup(OK)];
    assert !Follows(u[3], u[4]);
  }

  /** A life that process() ended with an error can be caught as well: it then cleans up once, after its
      failed process(). */
  lemma RaceCleansAfterError() returns (run: (seq<State>, seq<Step>))
    ensures Run(run.0, run.1)
    ensures var s := run.0[|run.1|];
            && |s.workers| == 1 && s.workers[0].race == Caught(ERROR) && s.workers[0].at == FinishCleaned(true)
            && s.workers[0].trace == [PreRunInit(OK), Process(FAILURE), StopChildren, PostRunCleanup(OK)]
  {
    run := Started();
    var t := [PreRunInit(OK)];
    run := Go(run, State(ACTIVE, RUNNING, AtRest, [Worker(LoopTest, t, 0, Unraced)]), Work(0, OK));
    run := Go(run, State(ACTIVE, RUNNING, AtRest, [Worker(ProcessCall, t, 0, Unraced)]), Work(0, OK));
    run := Go(run, State(ACTIVE, RUNNING, AtRest, [Worker(Processing, t, 1, Unraced)]), StopTest);
    run := Go(run, State(ACTIVE, RUNNING, StopTested, [Worker(Processing, t, 1, Unraced)]), Work(0, FAILURE));
    t := t + [Process(FAILURE)];
    run := Go(run, State(ACTIVE, RUNNING, StopTested, [Worker(ProcessFailed, t, 1, Unraced)]), Work(0, OK));
    run := Go(run, State(ERROR, RUNNING, StopTested, [Worker(LoopTest, t, 1, Unraced)]), StopSet);
    run := Go(run, State(STOP_REQUESTED, RUNNING, AtRest, [Worker(LoopTest, t, 1, Caught(ERROR))]), Work(0, OK));
    run := Go(run, State(STOP_REQUESTED, RUNNING, AtRest, [Worker(FinishTest, t, 1, Caught(ERROR))]), Work(0, OK));
    run := Go(run, State(STOP_REQUESTED, RUNNING, AtRest, [Worker(StopSeen, t, 1, Caught(ERROR))]), Work(0, OK));
    run := Go(run, State(STOPPING, RUNNING, AtRest, [Worker(FinishStopping, t, 1, Caught(ERROR))]), Work(0, OK));
    t := t + [StopChildren];
    run := Go(run, State(STOPPING, RUNNING, AtRest, [Worker(FinishCleaning, t, 1, Caught(ERROR))]), Work(0, OK));
  }

  /** The race can leave the runner at STOP_REQUESTED with no worker: it can never be started again. */
  lemma RaceWedges() returns (run: (seq<State>, seq<Step>))
    ensures Run(run.0, run.1) && Wedged(run.0[|run.1|]) && run.0[|run.1|].workers != []
  {
    run := StopCaughtInBetween();
    var t := BEFORE_EXIT;
    run := Go(run, State(EXITED, RUNNING, StopTested, [Worker(LoopTest, t, 1, Unraced)]), Work(0, OK));
    run := Go(run, State(EXITED, RUNNING, StopTested, [Worker(FinishTest, t, 1, Unraced)]), Work(0, OK));
    run := Go(run, State(EXITED, RUNNING, StopTested, [Worker(Exiting, t, 1, Unraced)]), StopSet);
  }
}
