/** What a run of the active runner leaves behind: the State that each kind of end writes, the hook results in
    the trace, and what a later start() does. */
module RunnerOutcomes {
  import opened RunnerProtocol
  import opened RunnerTheorems
  import opened RunnerHooks

  // ---- the State a life ends with ------------------------------------------------------------------

  /** The last events of a life that is over and the State it wrote. */
  ghost predicate EndsAs(st: RunnerState, t: seq<Event>) {
    t != [] &&
    match t[|t| - 1]
    case PreRunInit(r) => (r == DONE && st == EXITED) || (r == FAILURE && st == ERROR)
    case Process(r) => r == FAILURE && st == ERROR
    case StopChildren => false
    case PostRunCleanup(r) =>
      if r == FAILURE then st == ERROR
      else |t| >= 3 && st == if t[|t| - 3] == Process(DONE) then EXITED else STOPPED
  }

  /** While no start() writes State: what State says to the newest worker, and after it, about its events. */
  ghost predicate EndOk(s: State) {
    && s.workers != [] && !Starts(s.control)
    && var w := s.workers[|s.workers| - 1];
       && (w.at.LoopTest? || w.at.FinishTest? ==>
             s.state == ACTIVE || s.state == STOP_REQUESTED || EndsAs(s.state, w.trace))
       && (w.at.FinishCleaning? ==> |w.trace| >= 2 && w.trace[|w.trace| - 2] != Process(DONE))
       && (w.at.FinishCleaned? ==> |w.trace| >= 3 && w.trace[|w.trace| - 3] != Process(DONE)
                                   && w.trace[|w.trace| - 1].PostRunCleanup?
                                   && (w.at.clean <==> w.trace[|w.trace| - 1].r != FAILURE))
       && (w.at.Exiting? || w.at.Gone? ==> w.race.Missed? || EndsAs(s.state, w.trace))
  }

  lemma BodyKeepsEnd(s: State, w: nat, r: Outcome)
    requires Inv(s) && EndOk(s) && w + 1 == |s.workers| && LifeOk(s.state, s.workers[w])
    requires var at := s.workers[w].at; at.Born? || InStart(at) || InBody(at) || at.LoopTest?
    ensures EndOk(DoWork(s, w, r))
  {
    assert PlaceOk(s, s.workers[w]);
  }

  lemma FinishKeepsEnd(s: State, w: nat, r: Outcome)
    requires Inv(s) && EndOk(s) && w + 1 == |s.workers| && LifeOk(s.state, s.workers[w])
    requires var at := s.workers[w].at; at.FinishTest? || at.StopSeen? || InFinish(at) || at.Exiting?
    ensures EndOk(DoWork(s, w, r))
  {
    assert PlaceOk(s, s.workers[w]);
  }

  lemma WorkKeepsEnd(s: State, w: nat, r: Outcome)
    requires Inv(s) && EndOk(s) && w + 1 == |s.workers| && LifeOk(s.state, s.workers[w]) && s.workers[w].at != Gone
    ensures EndOk(DoWork(s, w, r))
  {
    var at := s.workers[w].at;
    if at.Born? || InStart(at) || InBody(at) || at.LoopTest? {
      BodyKeepsEnd(s, w, r);
    } else {
      FinishKeepsEnd(s, w, r);
    }
  }

  lemma ControlKeepsEnd(s: State, step: Step)
    requires Inv(s) && EndOk(s) && Enabled(s, step) && !step.Work? && step != StartWrite
    ensures EndOk(Apply(s, step)) && |Apply(s, step).workers| == |s.workers|
  {
    assert PlaceOk(s, s.workers[|s.workers| - 1]);
  }

  lemma StepKeepsEnd(s: State, step: Step)
    requires Inv(s) && LivesOk(s) && EndOk(s) && Enabled(s, step) && step != StartWrite
    ensures EndOk(Apply(s, step)) && |Apply(s, step).workers| == |s.workers|
  {
    if step.Work? {
      assert LifeOk(s.state, s.workers[step.worker]);
      OthersStand(s, step.worker, step.r);
      WorkKeepsEnd(s, step.worker, step.r);
    } else {
      ControlKeepsEnd(s, step);
    }
  }

  /** `m` creates a worker, and no start() has written State between then and `i`. */
  lemma {:induction false} EndHolds(tr: seq<State>, steps: seq<Step>, m: nat, i: nat)
    requires Run(tr, steps) && m < i < |tr| && steps[m] == StartCreate(true)
    requires forall k :: m < k < i ==> steps[k] != StartWrite
    ensures EndOk(tr[i]) && |tr[i].workers| == |tr[m].workers| + 1
  {
    assert MovesAt(tr, steps, i - 1);
    if i > m + 1 {
      EndHolds(tr, steps, m, i - 1);
      RunInv(tr, steps, i - 1);
      RunLives(tr, steps, i - 1);
      StepKeepsEnd(tr[i - 1], steps[i - 1]);
    }
  }

  /** A worker that has made its last write leaves the State that its last events call for, until the next
      start(), whenever and however often it was told to stop; the one exception is a stop that it missed.
      EXITED follows a pre_run_init that was DONE and the cleanup after a process() that was DONE, ERROR every
      failure, STOPPED every other successful cleanup. */
  lemma FinalStateTold(tr: seq<State>, steps: seq<Step>, m: nat, i: nat)
    requires Run(tr, steps) && m < i < |tr| && steps[m] == StartCreate(true)
    requires forall k :: m < k < i ==> steps[k] != StartWrite
    ensures |tr[i].workers| == |tr[m].workers| + 1
    ensures var w := tr[i].workers[|tr[m].workers|];
            (w.at.Exiting? || w.at.Gone?) && !w.race.Missed? ==>
              var t := w.trace;
              && t != [] && var last := t[|t| - 1];
              && last != PreRunInit(OK) && !last.StopChildren? && last != Process(OK) && last != Process(DONE)
              && (last == PreRunInit(DONE) ==> tr[i].state == EXITED)
              && (last == PreRunInit(FAILURE) || last == Process(FAILURE) || last == PostRunCleanup(FAILURE)
                  ==> tr[i].state == ERROR)
              && (last == PostRunCleanup(OK) || last == PostRunCleanup(DONE) ==>
                    |t| >= 3 && tr[i].state == if t[|t| - 3] == Process(DONE) then EXITED else STOPPED)
  {
    EndHolds(tr, steps, m, i);
  }

  // ---- hook results --------------------------------------------------------------------------------

  /** What a hook returns is what the trace records, at that point and only there. */
  lemma HookResultsRecorded(tr: seq<State>, steps: seq<Step>, i: nat)
    requires Run(tr, steps) && i < |steps| && steps[i].Work?
    ensures var w, r := steps[i].worker, steps[i].r;
            && w < |tr[i].workers| == |tr[i + 1].workers|
            && var at, t, t' := tr[i].workers[w].at, tr[i].workers[w].trace, tr[i + 1].workers[w].trace;
               if at.Initializing? then t' == t + [PreRunInit(r)]
               else if at.Processing? then t' == t + [Process(r)]
               else if at.LoopCleaning? || at.FinishCleaning? then t' == t + [PostRunCleanup(r)]
               else if at.ProcessDone? || at.FinishStopping? then t' == t + [StopChildren]
               else t' == t
  {
    assert MovesAt(tr, steps, i);
  }

  ghost function Processes(t: seq<Event>): nat {
    if t == [] then 0 else Processes(t[..|t| - 1]) + if t[|t| - 1].Process? then 1 else 0
  }

  ghost predicate CountsOk(w: Worker) {
    w.began == Processes(w.trace) + if w.at.Processing? then 1 else 0
  }

  lemma WorkKeepsCount(s: State, w: nat, r: Outcome)
    requires w < |s.workers| && s.workers[w].at != Gone && CountsOk(s.workers[w])
    ensures |DoWork(s, w, r).workers| == |s.workers| && CountsOk(DoWork(s, w, r).workers[w])
  {
    var t := s.workers[w].trace;
    assert forall e: Event :: (t + [e])[..|t|] == t;
  }

  lemma StepKeepsCounts(s: State, step: Step)
    requires Enabled(s, step) && forall k :: 0 <= k < |s.workers| ==> CountsOk(s.workers[k])
    ensures forall k :: 0 <= k < |Apply(s, step).workers| ==> CountsOk(Apply(s, step).workers[k])
  {
    if step.Work? {
      OthersStand(s, step.worker, step.r);
      WorkKeepsCount(s, step.worker, step.r);
    }
  }

  /** The count that bounds process() after a stop is the true one: the calls in the trace and one under way. */
  lemma {:induction false} CallsCounted(tr: seq<State>, steps: seq<Step>, i: nat)
    requires Run(tr, steps) && i < |tr|
    ensures forall k :: 0 <= k < |tr[i].workers| ==> CountsOk(tr[i].workers[k])
  {
    if i > 0 {
      CallsCounted(tr, steps, i - 1);
      assert MovesAt(tr, steps, i - 1);
      StepKeepsCounts(tr[i - 1], steps[i - 1]);
    }
  }

  /** In every life, raced or not, the children are stopped right before each cleanup, and right after a
      process() that was DONE. */
  lemma ChildrenStoppedFirst(tr: seq<State>, steps: seq<Step>, i: nat, k: nat, m: nat)
    requires Run(tr, steps) && i < |tr| && k < |tr[i].workers| && m < |tr[i].workers[k].trace|
    ensures var t := tr[i].workers[k].trace;
            && (t[m].PostRunCleanup? ==> m > 0 && t[m - 1] == StopChildren)
            && (t[m] == Process(DONE) && m + 1 < |t| ==> t[m + 1] == StopChildren)
  {
    RunLives(tr, steps, i);
    var w := tr[i].workers[k];
    assert LifeOk(tr[i].state, w);
    var u := if w.race.Caught? then Before(w) else w.trace;
    assert forall j :: 0 <= j < |u| ==> u[j] == w.trace[j];
    if 0 < m < |u| {
      assert Follows(u[m - 1], u[m]);
    }
    if m + 1 < |u| {
      assert Follows(u[m], u[m + 1]);
    }
  }

  // ---- what start() does ---------------------------------------------------------------------------

  ghost function AfterGuard(s: State): State
    requires s.control == AtRest && Startable(s.state)
  {
    Apply(Apply(Apply(s, StartTest), StartWrite), StartGuard)
  }

  /** start() is let in exactly from the five states its test names. If the last thread has ended it goes on to
      create a thread, and then there is one new worker; if there is none to be had, or a thread still runs,
      it leaves ERROR and no worker. */
  lemma StartOutcome(tr: seq<State>, steps: seq<Step>, i: nat)
    requires Run(tr, steps) && i < |tr| && tr[i].control == AtRest
    ensures var s := tr[i];
            && (Enabled(s, StartTest) <==> s.state in {CREATED, INITIALIZED, EXITED, STOPPED, ERROR})
            && (Enabled(s, StartTest) ==>
                  var g := AfterGuard(s);
                  if s.workers == [] || s.workers[|s.workers| - 1].at == Gone then
                    && Enabled(g, StartCreate(true)) && Enabled(g, StartCreate(false)) && !Enabled(g, StartFail)
                    && Apply(g, StartCreate(true))
                       == s.(state := STARTING, workers := s.workers + [Worker(Born, [], 0, Unraced)])
                    && Enabled(Apply(g, StartCreate(false)), StartFail)
                    && Apply(Apply(g, StartCreate(false)), StartFail) == s.(state := ERROR)
                  else
                    && Enabled(g, StartFail) && !Enabled(g, StartCreate(true))
                    && Apply(g, StartFail) == s.(state := ERROR))
  {
    RunInv(tr, steps, i);
    var s := tr[i];
    if s.workers != [] {
      assert PlaceOk(s, s.workers[|s.workers| - 1]);
    }
  }

  /** A runner whose worker is past its last write takes a start() whenever control is at rest, from STOPPED,
      EXITED and ERROR alike, exactly if it is not wedged. */
  lemma RestartableIff(tr: seq<State>, steps: seq<Step>, i: nat)
    requires Run(tr, steps) && i < |tr| && tr[i].workers != [] && tr[i].control == AtRest
    requires var at := tr[i].workers[|tr[i].workers| - 1].at; at.Exiting? || at.Gone?
    ensures Enabled(tr[i], StartTest) <==> tr[i].state != STOP_REQUESTED
    ensures Enabled(tr[i], StartTest) <==> !Wedged(tr[i])
    ensures Enabled(tr[i], StartTest) <==> tr[i].state == STOPPED || tr[i].state == EXITED || tr[i].state == ERROR
  {
    RunInv(tr, steps, i);
    EndsInFinalState(tr, steps, i);
  }

  /** stop() is let in exactly from ACTIVE, and a worker can always take its next step, whatever its hook
      returns. */
  lemma NobodyWaits(s: State, w: nat, r: Outcome)
    requires s.control == AtRest && w < |s.workers|
    ensures Enabled(s, StopTest) <==> s.state == ACTIVE
    ensures Enabled(s, Work(w, r)) <==> s.workers[w].at != Gone
    ensures s.state == ACTIVE ==> Enabled(Apply(s, StopTest), StopSet)
                                  && Apply(Apply(s, StopTest), StopSet) == s.(state := STOP_REQUESTED)
  {
  }
}
