/** The active runner: one control thread calling start() and stop(), and the worker threads that start()
    creates. All of them read and write `State` and `Thread::state_` one access at a time. */
module RunnerProtocol {

  datatype RunnerState =
    CREATED | INITIALIZED | STARTING | ACTIVE | STOP_REQUESTED | STOPPING | STOPPED | EXITED | ERROR

  datatype ThreadState = NOT_STARTED | RUNNING | ENDED

  /** What a user hook may return. */
  datatype Outcome = OK | DONE | FAILURE

  /** A hook call that has returned, and the stopping of the children. */
  datatype Event = PreRunInit(r: Outcome) | Process(r: Outcome) | StopChildren | PostRunCleanup(r: Outcome)

  /** Where the control thread is. A refused start() or stop() changes nothing and is not a step. */
  datatype Control =
    | AtRest
    | StartTested    // start() read a startable State
    | StartWritten   // State := STARTING done
    | StartPassed    // Thread::start saw a thread that is not RUNNING
    | StartFailed    // Thread::start failed, State := ERROR comes next
    | StopTested     // stop() read ACTIVE

  /** Where a worker is in Thread::runner and task_sm. */
  datatype Place =
    | Born                         // created, state_ := RUNNING comes next
    | Starting                     // task_sm_start reads State next
    | Initializing                 // in pre_run_init
    | Initialized(r: Outcome)      // State is written next
    | LoopTest                     // task_sm_run reads State next
    | ProcessCall                  // read ACTIVE, process() begins next
    | Processing                   // in process()
    | ProcessDone                  // process() returned DONE, children are stopped next
    | LoopCleaning                 // in post_run_cleanup
    | LoopCleaned                  // State := EXITED comes next
    | ProcessFailed                // State := ERROR comes next
    | FinishTest                   // task_sm_finish reads State next
    | StopSeen                     // read STOP_REQUESTED, State := STOPPING comes next
    | FinishStopping               // children are stopped next
    | FinishCleaning               // in post_run_cleanup
    | FinishCleaned(clean: bool)   // State := STOPPED or ERROR comes next
    | Exiting                      // state_ := EXITED comes next
    | Gone

  /** What came of a stop() that wrote STOP_REQUESTED although State was no longer the ACTIVE it read, but
      `final`: a worker that has not yet looked for a stop is caught by it, one that has looked misses it. */
  datatype Race = Unraced | Caught(final: RunnerState) | Missed

  /** One worker's life: its place, the events so far, and the number of process() calls begun. */
  datatype Worker = Worker(at: Place, trace: seq<Event>, began: nat, race: Race)

  datatype State = State(state: RunnerState, thread: ThreadState, control: Control, workers: seq<Worker>)

  datatype Step =
    | StartTest | StartWrite | StartGuard | StartCreate(created: bool) | StartFail
    | StopTest | StopSet
    | Work(worker: nat, r: Outcome)

  ghost predicate Init(s: State) {
    s == State(CREATED, NOT_STARTED, AtRest, [])
  }

  predicate Startable(st: RunnerState) {
    st == CREATED || st == INITIALIZED || st == EXITED || st == STOPPED || st == ERROR
  }

  predicate Enabled(s: State, step: Step) {
    match step
    case StartTest => s.control == AtRest && Startable(s.state)
    case StartWrite => s.control == StartTested
    case StartGuard => s.control == StartWritten
    case StartCreate(_) => s.control == StartPassed
    case StartFail => s.control == StartFailed
    case StopTest => s.control == AtRest && s.state == ACTIVE
    case StopSet => s.control == StopTested
    case Work(w, _) => w < |s.workers| && s.workers[w].at != Gone
  }

  function Apply(s: State, step: Step): State
    requires Enabled(s, step)
  {
    match step
    case StartTest => s.(control := StartTested)
    case StartWrite => s.(state := STARTING, control := StartWritten)
    case StartGuard => s.(control := if s.thread == RUNNING then StartFailed else StartPassed)
    case StartCreate(created) =>
      if created then s.(workers := s.workers + [Worker(Born, [], 0, Unraced)], control := AtRest)
      else s.(control := StartFailed)
    case StartFail => s.(state := ERROR, control := AtRest)
    case StopTest => s.(control := StopTested)
    case StopSet => MarkRace(s).(state := STOP_REQUESTED, control := AtRest)
    case Work(w, r) => DoWork(s, w, r)
  }

  function MarkRace(s: State): State {
    if s.state == ACTIVE || s.workers == [] then s
    else
      var n := |s.workers| - 1;
      var at := s.workers[n].at;
      var race := if at.LoopTest? || at.FinishTest? then Caught(s.state) else Missed;
      s.(workers := s.workers[n := s.workers[n].(race := race)])
  }

  function Goto(s: State, w: nat, at: Place): State
    requires w < |s.workers|
  {
    s.(workers := s.workers[w := s.workers[w].(at := at)])
  }

  function Log(s: State, w: nat, at: Place, e: Event): State
    requires w < |s.workers|
  {
    s.(workers := s.workers[w := s.workers[w].(at := at, trace := s.workers[w].trace + [e])])
  }

  /** The worker's next access to shared state, or the return of the hook it is in. */
  function DoWork(s: State, w: nat, r: Outcome): State
    requires w < |s.workers| && s.workers[w].at != Gone
  {
    match s.workers[w].at
    case Born => Goto(s, w, Starting).(thread := RUNNING)
    case Starting => Goto(s, w, if s.state == STARTING then Initializing else LoopTest)
    case Initializing => Log(s, w, Initialized(r), PreRunInit(r))
    case Initialized(q) => Goto(s, w, LoopTest).(state := match q case OK => ACTIVE case DONE => EXITED case FAILURE => ERROR)
    case LoopTest => Goto(s, w, if s.state == ACTIVE then ProcessCall else FinishTest)
    case ProcessCall =>
      s.(workers := s.workers[w := s.workers[w].(at := Processing, began := s.workers[w].began + 1)])
    case Processing =>
      Log(s, w, match r case OK => LoopTest case DONE => ProcessDone case FAILURE => ProcessFailed, Process(r))
    case ProcessDone => Log(s, w, LoopCleaning, StopChildren)
    case LoopCleaning => Log(s, w, if r == FAILURE then LoopTest else LoopCleaned, PostRunCleanup(r))
    case LoopCleaned => Goto(s, w, LoopTest).(state := EXITED)
    case ProcessFailed => Goto(s, w, LoopTest).(state := ERROR)
    case FinishTest => Goto(s, w, if s.state == STOP_REQUESTED then StopSeen else Exiting)
    case StopSeen => Goto(s, w, FinishStopping).(state := STOPPING)
    case FinishStopping => Log(s, w, FinishCleaning, StopChildren)
    case FinishCleaning => Log(s, w, FinishCleaned(r != FAILURE), PostRunCleanup(r))
    case FinishCleaned(clean) => Goto(s, w, Exiting).(state := if clean then STOPPED else ERROR)
    case Exiting => Goto(s, w, Gone).(thread := ENDED)
  }

  ghost predicate Moves(s: State, step: Step, s': State) {
    Enabled(s, step) && s' == Apply(s, step)
  }

  ghost predicate MovesAt(tr: seq<State>, steps: seq<Step>, i: nat)
    requires i < |steps| && |tr| == |steps| + 1
  {
    Moves(tr[i], steps[i], tr[i + 1])
  }

  /** An interleaving: the states and the step between each two. */
  ghost predicate Run(tr: seq<State>, steps: seq<Step>) {
    && |tr| == |steps| + 1 && Init(tr[0])
    && forall i :: 0 <= i < |steps| ==> MovesAt(tr, steps, i)
  }
}
