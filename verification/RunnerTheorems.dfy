/** What holds of the active runner in every interleaving. */
module RunnerTheorems {
  import opened RunnerProtocol

  predicate Alive(w: Worker) {
    w.at != Gone
  }

  /** Between Thread::start's acceptance and the worker's own write of State. */
  predicate InStart(at: Place) {
    at.Starting? || at.Initializing? || at.Initialized?
  }

  /** Places a worker reaches only while State is ACTIVE or STOP_REQUESTED. */
  predicate InBody(at: Place) {
    at.ProcessCall? || at.Processing? || at.ProcessDone? || at.LoopCleaning? || at.LoopCleaned? || at.ProcessFailed?
  }

  predicate InFinish(at: Place) {
    at.FinishStopping? || at.FinishCleaning? || at.FinishCleaned?
  }

  predicate Starts(c: Control) {
    c.StartWritten? || c.StartPassed? || c.StartFailed?
  }

  /** What came of a raced stop, if there was one, shows in State and in the newest worker's place. */
  ghost predicate RaceOk(s: State, w: Worker) {
    && (w.at.Born? || InStart(w.at) || s.state == ACTIVE || s.control.StopTested? ==> w.race == Unraced)
    && (w.race.Missed? <==> s.state == STOP_REQUESTED && (w.at.Exiting? || w.at.Gone?))
    && (w.race.Caught? ==> !InBody(w.at) && (w.race.final == EXITED || w.race.final == ERROR))
    && (w.race.Caught? && (w.at.LoopTest? || w.at.FinishTest?) ==> s.state == STOP_REQUESTED)
  }

  /** What the newest worker's place says about the shared variables. */
  ghost predicate PlaceOk(s: State, w: Worker) {
    var at := w.at;
    && (at.Born? ==> s.state == STARTING && s.control == AtRest)
    && (InStart(at) ==> s.state == STARTING && s.control == AtRest)
    && (InBody(at) ==> s.state == ACTIVE || s.state == STOP_REQUESTED)
    && (at.FinishTest? || at.Exiting? || at.Gone? ==> s.state != ACTIVE)
    && (at.StopSeen? ==> s.state == STOP_REQUESTED)
    && (InFinish(at) <==> s.state == STOPPING)
    && (s.state == STARTING && !at.Born? && !InStart(at) ==> Starts(s.control))
    && RaceOk(s, w)
    && (!at.Born? && !at.Gone? ==> s.thread == RUNNING)
    && (at.Gone? ==> s.thread == ENDED)
    && (s.control.StartPassed? ==> at.Gone?)
    && s.state != CREATED && s.state != INITIALIZED
  }

  ghost predicate ControlOk(s: State) {
    && (s.control.StartTested? ==> Startable(s.state))
    && (Starts(s.control) ==> s.state == STARTING)
    && (s.control.StopTested? ==> s.state == ACTIVE || s.state == EXITED || s.state == ERROR)
  }

  ghost predicate Inv(s: State) {
    && (forall k :: 0 <= k < |s.workers| - 1 ==> s.workers[k].at == Gone)
    && (if s.workers == [] then
          && s.thread == NOT_STARTED && !s.control.StopTested?
          && (Startable(s.state) || (s.state == STARTING && Starts(s.control)))
        else PlaceOk(s, s.workers[|s.workers| - 1]))
    && ControlOk(s)
  }

  lemma StopStepInv(s: State, step: Step)
    requires Inv(s) && Enabled(s, step) && (step.StopTest? || step.StopSet?)
    ensures Inv(Apply(s, step))
  {
    assert s.workers != [] ==> PlaceOk(s, s.workers[|s.workers| - 1]);
  }

  lemma ControlStepInv(s: State, step: Step)
    requires Inv(s) && Enabled(s, step) && !step.Work?
    ensures Inv(Apply(s, step))
  {
    if step.StopTest? || step.StopSet? {
      StopStepInv(s, step);
    }
  }

  lemma BirthStepInv(s: State, w: nat, r: Outcome)
    requires Inv(s) && w < |s.workers| && (s.workers[w].at.Born? || InStart(s.workers[w].at))
    ensures Inv(DoWork(s, w, r))
  {
    assert PlaceOk(s, s.workers[w]);
  }

  lemma LoopStepInv(s: State, w: nat, r: Outcome)
    requires Inv(s) && w < |s.workers| && (s.workers[w].at.LoopTest? || InBody(s.workers[w].at))
    ensures Inv(DoWork(s, w, r))
  {
    assert PlaceOk(s, s.workers[w]);
  }

  lemma FinishStepInv(s: State, w: nat, r: Outcome)
    requires Inv(s) && w < |s.workers|
    requires var at := s.workers[w].at; at.FinishTest? || at.StopSeen? || InFinish(at) || at.Exiting?
    ensures Inv(DoWork(s, w, r))
  {
    assert PlaceOk(s, s.workers[w]);
  }

  lemma WorkStepInv(s: State, w: nat, r: Outcome)
    requires Inv(s) && w < |s.workers| && s.workers[w].at != Gone
    ensures Inv(DoWork(s, w, r))
  {
    var at := s.workers[w].at;
    if at.Born? || InStart(at) {
      BirthStepInv(s, w, r);
    } else if at.LoopTest? || InBody(at) {
      LoopStepInv(s, w, r);
    } else {
      FinishStepInv(s, w, r);
    }
  }

  lemma StepInv(s: State, step: Step)
    requires Inv(s) && Enabled(s, step)
    ensures Inv(Apply(s, step))
  {
    if step.Work? {
      WorkStepInv(s, step.worker, step.r);
    } else {
      ControlStepInv(s, step);
    }
  }

  lemma {:induction false} RunInv(tr: seq<State>, steps: seq<Step>, i: nat)
    requires Run(tr, steps) && i < |tr|
    ensures Inv(tr[i])
  {
    if i > 0 {
      RunInv(tr, steps, i - 1);
      assert MovesAt(tr, steps, i - 1);
      StepInv(tr[i - 1], steps[i - 1]);
    }
  }

  /** At most one worker of a runner is alive in any state of any interleaving, and only the newest. */
  lemma OneWorkerAtATime(tr: seq<State>, steps: seq<Step>, i: nat)
    requires Run(tr, steps) && i < |tr|
    ensures forall k, l | 0 <= k < l < |tr[i].workers| :: !Alive(tr[i].workers[k]) || !Alive(tr[i].workers[l])
    ensures tr[i].control.StartPassed? ==> forall k :: 0 <= k < |tr[i].workers| ==> !Alive(tr[i].workers[k])
  {
    RunInv(tr, steps, i);
  }

  lemma OthersStand(s: State, w: nat, r: Outcome)
    requires w < |s.workers| && s.workers[w].at != Gone
    ensures var s' := DoWork(s, w, r);
            |s'.workers| == |s.workers| && forall k :: 0 <= k < |s.workers| && k != w ==> s'.workers[k] == s.workers[k]
  {
  }

  // ---- an accepted stop takes effect ---------------------------------------------------------------

  /** How many more steps of its own a worker takes once State is not ACTIVE. */
  ghost function Rank(at: Place): nat {
    match at
    case Gone => 0
    case Exiting => 1
    case FinishCleaned(_) => 2
    case FinishCleaning => 3
    case FinishStopping => 4
    case StopSeen => 5
    case FinishTest => 6
    case LoopTest => 7
    case LoopCleaned => 8
    case ProcessFailed => 8
    case LoopCleaning => 9
    case ProcessDone => 10
    case Processing => 11
    case ProcessCall => 12
    case Initialized(_) => 13
    case Initializing => 14
    case Starting => 15
    case Born => 16
  }

  /** The steps of worker `w` among `steps`. */
  ghost function StepsOf(steps: seq<Step>, w: nat): nat {
    if steps == [] then 0
    else StepsOf(steps[..|steps| - 1], w) + match steps[|steps| - 1] { case Work(v, _) => if v == w then 1 else 0 case _ => 0 }
  }

  /** Worker `w` has been told to stop, or has ended, and this life can only go on to its end. */
  ghost predicate Told(s: State, w: nat) {
    && w < |s.workers|
    && (Alive(s.workers[w]) ==> s.state != ACTIVE && Rank(s.workers[w].at) <= 12)
  }

  lemma ToldStep(s: State, step: Step, w: nat)
    requires Inv(s) && Enabled(s, step) && Told(s, w)
    ensures var s' := Apply(s, step);
            && Told(s', w)
            && var x, x' := s.workers[w], s'.workers[w];
               if step.Work? && step.worker == w then
                 && Rank(x'.at) < Rank(x.at)
                 && x'.began == x.began + (if x.at.ProcessCall? then 1 else 0)
                 && !x'.at.ProcessCall?
               else
                 x'.at == x.at && x'.began == x.began
  {
    if step.Work? {
      OthersStand(s, step.worker, step.r);
    }
  }

  lemma StopLands(s: State)
    requires Inv(s) && Enabled(s, StopSet)
    ensures var s' := Apply(s, StopSet);
            var n := |s.workers| - 1;
            && s.workers != [] && |s'.workers| == |s.workers| && Told(s', n)
            && s'.workers[n].at == s.workers[n].at && s'.workers[n].began == s.workers[n].began
  {
  }

  /** What is known of worker `w` in `s`, `n` of its steps after the stop was accepted in `s0`. */
  ghost predicate Ending(s0: State, s: State, w: nat, n: nat) {
    && Told(s, w) && w < |s0.workers|
    && Rank(s.workers[w].at) + n <= 12
    && s0.workers[w].began <= s.workers[w].began
    && s.workers[w].began + (if s.workers[w].at.ProcessCall? then 1 else 0) <= s0.workers[w].began + 1
  }

  lemma EndingStep(s0: State, s: State, step: Step, s': State, w: nat, n: nat)
    requires Inv(s) && Moves(s, step, s') && Ending(s0, s, w, n)
    ensures Ending(s0, s', w, n + if step.Work? && step.worker == w then 1 else 0)
  {
    ToldStep(s, step, w);
  }

  lemma StepsOfNext(steps: seq<Step>, i: nat, j: nat, w: nat)
    requires i < j <= |steps|
    ensures StepsOf(steps[i..j], w)
         == StepsOf(steps[i..j - 1], w) + if steps[j - 1].Work? && steps[j - 1].worker == w then 1 else 0
  {
    assert steps[i..j][..j - i - 1] == steps[i..j - 1];
  }

  lemma EndingBegins(tr: seq<State>, steps: seq<Step>, i: nat)
    requires Run(tr, steps) && i < |steps| && steps[i] == StopSet
    ensures tr[i].workers != [] && Ending(tr[i], tr[i + 1], |tr[i].workers| - 1, 0)
  {
    RunInv(tr, steps, i);
    assert MovesAt(tr, steps, i);
    StopLands(tr[i]);
  }

  lemma EndingGoesOn(tr: seq<State>, steps: seq<Step>, i: nat, j: nat, w: nat)
    requires Run(tr, steps) && i < j < |steps| && Ending(tr[i], tr[j], w, StepsOf(steps[i + 1..j], w))
    ensures Ending(tr[i], tr[j + 1], w, StepsOf(steps[i + 1..j + 1], w))
  {
    RunInv(tr, steps, j);
    assert MovesAt(tr, steps, j);
    StepsOfNext(steps, i + 1, j + 1, w);
    EndingStep(tr[i], tr[j], steps[j], tr[j + 1], w, StepsOf(steps[i + 1..j], w));
  }

  /** From the write of STOP_REQUESTED by any stop() that returned OK on, raced or not, State never is ACTIVE
      again in that worker's life, at most one more process() begins, and the worker is gone after at most
      12 steps of its own, whatever the hooks return and whoever runs in between. */
  lemma {:induction false} AcceptedStopEndsWorker(tr: seq<State>, steps: seq<Step>, i: nat, j: nat)
    requires Run(tr, steps) && i < j <= |steps| && steps[i] == StopSet
    ensures tr[i].workers != []
    ensures var w := |tr[i].workers| - 1; Ending(tr[i], tr[j], w, StepsOf(steps[i + 1..j], w))
    ensures var w, own := |tr[i].workers| - 1, StepsOf(steps[i + 1..j], |tr[i].workers| - 1);
            && w < |tr[j].workers| && own <= 12 && (own == 12 ==> tr[j].workers[w].at == Gone)
            && tr[j].workers[w].began <= tr[i].workers[w].began + 1
            && (tr[j].workers[w].at != Gone ==> tr[j].state != ACTIVE)
  {
    EndingBegins(tr, steps, i);
    if j == i + 1 {
      assert steps[i + 1..j] == [];
    } else {
      AcceptedStopEndsWorker(tr, steps, i, j - 1);
      EndingGoesOn(tr, steps, i, j - 1, |tr[i].workers| - 1);
    }
  }

  // ---- final states and the race in stop() ---------------------------------------------------------

  /** STOP_REQUESTED with no worker left to see it. */
  ghost predicate Wedged(s: State) {
    && s.state == STOP_REQUESTED && s.control == AtRest
    && forall k :: 0 <= k < |s.workers| ==> s.workers[k].at.Exiting? || s.workers[k].at.Gone?
  }

  ghost predicate FinalOrRestarted(s: State) {
    s.state == STOPPED || s.state == EXITED || s.state == ERROR || (s.state == STARTING && Starts(s.control))
  }

  /** A worker that has made its last write leaves State at STOPPED, EXITED or ERROR, or a restart has already
      begun, exactly if the runner is not wedged; raced or not. */
  lemma EndsInFinalState(tr: seq<State>, steps: seq<Step>, i: nat)
    requires Run(tr, steps) && i < |tr| && tr[i].workers != []
    requires var w := tr[i].workers[|tr[i].workers| - 1]; w.at.Exiting? || w.at.Gone?
    ensures FinalOrRestarted(tr[i]) <==> !Wedged(tr[i])
  {
    RunInv(tr, steps, i);
  }

  /** The runner is wedged exactly if the newest worker missed a raced stop. */
  lemma WedgedIffMissed(tr: seq<State>, steps: seq<Step>, i: nat)
    requires Run(tr, steps) && i < |tr|
    ensures Wedged(tr[i]) <==> tr[i].workers != [] && tr[i].workers[|tr[i].workers| - 1].race.Missed?
  {
    RunInv(tr, steps, i);
    if tr[i].workers != [] {
      assert PlaceOk(tr[i], tr[i].workers[|tr[i].workers| - 1]);
    }
  }

  lemma WedgedStep(s: State, step: Step)
    requires Wedged(s) && Enabled(s, step)
    ensures Wedged(Apply(s, step)) && step.Work? && |Apply(s, step).workers| == |s.workers|
  {
  }

  /** A wedged runner takes no start and no stop in any future: all that can still happen is that the last
      worker's thread ends. */
  lemma {:induction false} WedgedForever(tr: seq<State>, steps: seq<Step>, i: nat, j: nat)
    requires Run(tr, steps) && i <= j < |tr| && Wedged(tr[i])
    ensures Wedged(tr[j]) && |tr[j].workers| == |tr[i].workers|
    ensures forall k :: i <= k < j ==> steps[k].Work?
  {
    if i < j {
      WedgedForever(tr, steps, i, j - 1);
      assert MovesAt(tr, steps, j - 1);
      WedgedStep(tr[j - 1], steps[j - 1]);
    }
  }

  /** stop() tests and writes State in two steps. A write that finds ACTIVE is no race. Otherwise the worker
      has finished by itself, with EXITED or ERROR, and one thing decides: a worker that has not yet looked
      for a stop is caught by this one, a worker that has looked misses it and the runner is wedged. */
  lemma RacedStopOutcome(tr: seq<State>, steps: seq<Step>, i: nat)
    requires Run(tr, steps) && i < |steps| && steps[i] == StopSet
    ensures tr[i].workers != [] && |tr[i + 1].workers| == |tr[i].workers|
    ensures var w, race := tr[i].workers[|tr[i].workers| - 1], tr[i + 1].workers[|tr[i].workers| - 1].race;
            && (race == Unraced <==> tr[i].state == ACTIVE)
            && (race == Caught(tr[i].state) <==> tr[i].state != ACTIVE && (w.at.LoopTest? || w.at.FinishTest?))
            && (race == Missed <==> tr[i].state != ACTIVE && (w.at.Exiting? || w.at.Gone?))
            && (tr[i].state == ACTIVE || tr[i].state == EXITED || tr[i].state == ERROR)
    ensures Wedged(tr[i + 1]) <==> tr[i + 1].workers[|tr[i].workers| - 1].race == Missed
  {
    RunInv(tr, steps, i);
    assert MovesAt(tr, steps, i);
    assert PlaceOk(tr[i], tr[i].workers[|tr[i].workers| - 1]);
    WedgedIffMissed(tr, steps, i + 1);
  }
}
