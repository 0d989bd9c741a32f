/** The hook calls of one worker's life form a word of a small language, unless a raced stop() caught the worker. */
module RunnerHooks {
  import opened RunnerProtocol
  import opened RunnerTheorems

  /** Which event may come right after which. Cleanup follows the stopping of the children and nothing else;
      a failed initialisation, a failed process() and a successful cleanup are the last events of a life; a
      process() that is DONE leads to cleanup; a failed cleanup allows another round. */
  predicate Follows(a: Event, b: Event) {
    match a
    case PreRunInit(r) => r == OK && (b.Process? || b.StopChildren?)
    case Process(OK) => b.Process? || b.StopChildren?
    case Process(DONE) => b.StopChildren?
    case Process(FAILURE) => false
    case StopChildren => b.PostRunCleanup?
    case PostRunCleanup(r) => r == FAILURE && (b.Process? || b.StopChildren?)
  }

  ghost predicate LifeWord(t: seq<Event>) {
    && (t != [] ==> t[0].PreRunInit?)
    && forall k :: 0 < k < |t| ==> Follows(t[k - 1], t[k])
  }

  /** The life may go on with process() or be stopped. */
  predicate Open(t: seq<Event>) {
    t != [] && var e := t[|t| - 1]; e == PreRunInit(OK) || e == Process(OK) || e == PostRunCleanup(FAILURE)
  }

  /** The life may end here. */
  predicate Closed(t: seq<Event>) {
    t != [] && var e := t[|t| - 1]; (e.PreRunInit? && e.r != OK) || e == Process(FAILURE) || e.PostRunCleanup?
  }

  predicate EndsWith(t: seq<Event>, e: Event) {
    t != [] && t[|t| - 1] == e
  }

  predicate CleanedUp(t: seq<Event>) {
    EndsWith(t, PostRunCleanup(OK)) || EndsWith(t, PostRunCleanup(DONE))
  }

  /** The last three events of a life that process() ended with DONE, or the last one of a life that it ended
      with an error, and the State that was written then. */
  predicate EndedItself(final: RunnerState, t: seq<Event>) {
    if final == EXITED then |t| >= 3 && t[|t| - 3] == Process(DONE) && t[|t| - 2] == StopChildren && CleanedUp(t)
    else final == ERROR && EndsWith(t, Process(FAILURE))
  }

  /** What an unraced worker's place says about the events so far. */
  ghost predicate WordAt(st: RunnerState, at: Place, t: seq<Event>) {
    match at
    case Born => t == []
    case Starting => t == []
    case Initializing => t == []
    case Initialized(r) => t == [PreRunInit(r)]
    case LoopTest => if st == ACTIVE || st == STOP_REQUESTED then Open(t) else Closed(t)
    case FinishTest => if st == STOP_REQUESTED then Open(t) else Closed(t)
    case ProcessDone => EndsWith(t, Process(DONE))
    case ProcessFailed => EndsWith(t, Process(FAILURE))
    case LoopCleaning => |t| >= 2 && t[|t| - 2] == Process(DONE) && EndsWith(t, StopChildren)
    case LoopCleaned => EndedItself(EXITED, t)
    case FinishCleaning => EndsWith(t, StopChildren)
    case FinishCleaned(clean) => if clean then CleanedUp(t) else EndsWith(t, PostRunCleanup(FAILURE))
    case Exiting => Closed(t)
    case Gone => Closed(t)
    case _ => Open(t)
  }

  /** How many events a caught worker has added since the raced stop. */
  function Added(at: Place): nat {
    match at
    case FinishCleaning => 1
    case FinishCleaned(_) => 2
    case Exiting => 2
    case Gone => 2
    case _ => 0
  }

  /** What a caught worker had done before the raced stop. */
  function Before(w: Worker): seq<Event> {
    if Added(w.at) <= |w.trace| then w.trace[..|w.trace| - Added(w.at)] else []
  }

  /** A caught worker had ended a whole word by itself; since then it has stopped its children again and made
      one more cleanup, as far as its place says. */
  ghost predicate CaughtAt(w: Worker, final: RunnerState) {
    var n := Added(w.at);
    && n <= |w.trace|
    && LifeWord(Before(w)) && EndedItself(final, Before(w))
    && (n >= 1 ==> w.trace[|w.trace| - n] == StopChildren)
    && (n == 2 ==> w.trace[|w.trace| - 1].PostRunCleanup?)
    && (w.at.FinishCleaned? ==> (w.at.clean <==> CleanedUp(w.trace)))
  }

  ghost predicate LifeOk(st: RunnerState, w: Worker) {
    match w.race
    case Unraced => LifeWord(w.trace) && WordAt(st, w.at, w.trace)
    case Caught(final) => CaughtAt(w, final)
    case Missed => LifeWord(w.trace) && (EndedItself(EXITED, w.trace) || EndedItself(ERROR, w.trace))
  }

  /** Between the test and the set of stop() a worker can leave ACTIVE only by ending itself. */
  ghost predicate TestedOk(s: State) {
    s.control.StopTested? && s.state != ACTIVE
    ==> s.workers != [] && EndedItself(s.state, s.workers[|s.workers| - 1].trace)
  }

  ghost predicate LivesOk(s: State) {
    && (forall k :: 0 <= k < |s.workers| ==> LifeOk(s.state, s.workers[k]))
    && TestedOk(s)
  }

  /** stop() reaches the newest life only: it leaves it Unraced, catches it or is missed by it. */
  lemma StopTurnsLife(s: State, n: nat)
    requires Inv(s) && Enabled(s, StopSet) && TestedOk(s)
    requires n + 1 == |s.workers| && LifeOk(s.state, s.workers[n])
    ensures LifeOk(STOP_REQUESTED, MarkRace(s).workers[n])
  {
    assert PlaceOk(s, s.workers[n]);
    if s.state != ACTIVE && (s.workers[n].at.LoopTest? || s.workers[n].at.FinishTest?) {
      assert Before(MarkRace(s).workers[n]) == s.workers[n].trace;
    }
  }

  lemma StopKeepsLives(s: State)
    requires Inv(s) && LivesOk(s) && Enabled(s, StopSet)
    ensures LivesOk(Apply(s, StopSet))
  {
    var n := |s.workers| - 1;
    assert LifeOk(s.state, s.workers[n]);
    StopTurnsLife(s, n);
    EndedLivesStand(s, Apply(s, StopSet), n);
  }

  /** Control's writes of State do not change what a worker will see as open or closed. */
  lemma ControlKeepsLives(s: State, step: Step)
    requires Inv(s) && LivesOk(s) && Enabled(s, step) && !step.Work?
    ensures LivesOk(Apply(s, step))
  {
    if step.StopSet? {
      StopKeepsLives(s);
    } else {
      var s' := Apply(s, step);
      forall k | 0 <= k < |s'.workers| ensures LifeOk(s'.state, s'.workers[k]) {
        if k < |s.workers| {
          assert LifeOk(s.state, s.workers[k]);
        }
      }
    }
  }

  lemma WordGrows(t: seq<Event>, e: Event)
    requires LifeWord(t) && if t == [] then e.PreRunInit? else Follows(t[|t| - 1], e)
    ensures LifeWord(t + [e]) && EndsWith(t + [e], e)
  {
    var u := t + [e];
    forall k | 0 < k < |u| ensures Follows(u[k - 1], u[k]) {
      assert k < |t| ==> u[k - 1] == t[k - 1] && u[k] == t[k];
    }
  }

  predicate Logs(at: Place) {
    at.Initializing? || at.Processing? || at.ProcessDone? || at.LoopCleaning? || at.FinishStopping? || at.FinishCleaning?
  }

  /** The event that the return from `at` adds. */
  function Logged(at: Place, r: Outcome): Event
    requires Logs(at)
  {
    match at
    case Initializing => PreRunInit(r)
    case Processing => Process(r)
    case ProcessDone => StopChildren
    case FinishStopping => StopChildren
    case _ => PostRunCleanup(r)
  }

  /** Where the worker goes with it. */
  function LoggedTo(at: Place, r: Outcome): Place
    requires Logs(at)
  {
    match at
    case Initializing => Initialized(r)
    case Processing => (match r case OK => LoopTest case DONE => ProcessDone case FAILURE => ProcessFailed)
    case ProcessDone => LoopCleaning
    case FinishStopping => FinishCleaning
    case LoopCleaning => if r == FAILURE then LoopTest else LoopCleaned
    case _ => FinishCleaned(r != FAILURE)
  }

  lemma WordLogs(st: RunnerState, at: Place, t: seq<Event>, r: Outcome)
    requires Logs(at) && LifeWord(t) && WordAt(st, at, t) && (InBody(at) ==> st == ACTIVE || st == STOP_REQUESTED)
    ensures LifeWord(t + [Logged(at, r)]) && WordAt(st, LoggedTo(at, r), t + [Logged(at, r)])
  {
    WordGrows(t, Logged(at, r));
  }

  /** A hook returned, or the children were stopped: an unraced worker's word grows by the event. */
  lemma LogKeepsWord(s: State, w: nat, r: Outcome)
    requires Inv(s) && 0 < |s.workers| == w + 1 && Logs(s.workers[w].at)
    requires s.workers[w].race == Unraced && LifeOk(s.state, s.workers[w])
    ensures var s' := DoWork(s, w, r); |s'.workers| == |s.workers| && LifeOk(s'.state, s'.workers[w])
  {
    var x := s.workers[w];
    assert InBody(x.at) ==> s.state == ACTIVE || s.state == STOP_REQUESTED by {
      assert PlaceOk(s, x);
    }
    WordLogs(s.state, x.at, x.trace, r);
    assert DoWork(s, w, r).workers[w] == x.(at := LoggedTo(x.at, r), trace := x.trace + [Logged(x.at, r)]);
  }

  /** A caught worker adds to what came before. */
  lemma CaughtGrows(x: Worker, y: Worker, final: RunnerState, e: Event)
    requires CaughtAt(x, final) && y.trace == x.trace + [e]
    requires || (x.at.FinishStopping? && y.at.FinishCleaning? && e == StopChildren)
             || (x.at.FinishCleaning? && e.PostRunCleanup? && y.at == FinishCleaned(e.r != FAILURE))
    ensures CaughtAt(y, final) && Before(y) == Before(x)
  {
    assert Before(y) == Before(x);
  }

  lemma LogKeepsCaught(s: State, w: nat, r: Outcome)
    requires Inv(s) && 0 < |s.workers| == w + 1 && Logs(s.workers[w].at)
    requires s.workers[w].race.Caught? && CaughtAt(s.workers[w], s.workers[w].race.final)
    ensures var x, y := s.workers[w], DoWork(s, w, r).workers[w];
            y.race == x.race && CaughtAt(y, x.race.final) && Before(y) == Before(x)
  {
    var x, y := s.workers[w], DoWork(s, w, r).workers[w];
    assert PlaceOk(s, x);
    CaughtGrows(x, y, x.race.final, Logged(x.at, r));
  }

  /** A caught worker that adds nothing only moves on. */
  lemma CaughtMoves(x: Worker, y: Worker, final: RunnerState)
    requires CaughtAt(x, final) && y.trace == x.trace && Added(y.at) == Added(x.at) && !y.at.FinishCleaned?
    ensures CaughtAt(y, final) && Before(y) == Before(x)
  {
  }

  /** The places in which a caught worker can be without being in a hook, and where they lead. */
  lemma CaughtPlaces(s: State, w: nat, r: Outcome)
    requires Inv(s) && 0 < |s.workers| == w + 1 && !Logs(s.workers[w].at) && s.workers[w].at != Gone
    requires s.workers[w].race.Caught?
    ensures var x, y := s.workers[w].at, DoWork(s, w, r).workers[w].at;
            || (x.LoopTest? && y.FinishTest?) || (x.FinishTest? && y.StopSeen?) || (x.StopSeen? && y.FinishStopping?)
            || (x.FinishCleaned? && y.Exiting?) || (x.Exiting? && y.Gone?)
  {
    assert PlaceOk(s, s.workers[w]);
  }

  lemma AccessKeepsCaught(s: State, w: nat, r: Outcome)
    requires Inv(s) && 0 < |s.workers| == w + 1 && !Logs(s.workers[w].at) && s.workers[w].at != Gone
    requires s.workers[w].race.Caught? && CaughtAt(s.workers[w], s.workers[w].race.final)
    ensures var x, y := s.workers[w], DoWork(s, w, r).workers[w];
            y.race == x.race && CaughtAt(y, x.race.final) && Before(y) == Before(x)
  {
    CaughtPlaces(s, w, r);
    CaughtMoves(s.workers[w], DoWork(s, w, r).workers[w], s.workers[w].race.final);
  }

  /** An access to State or state_: the word stands still and the new place agrees with it. */
  lemma AccessKeepsWord(s: State, w: nat, r: Outcome)
    requires Inv(s) && 0 < |s.workers| == w + 1 && !s.workers[w].race.Caught? && LifeOk(s.state, s.workers[w])
    requires !Logs(s.workers[w].at) && s.workers[w].at != Gone
    ensures var s' := DoWork(s, w, r); LifeOk(s'.state, s'.workers[w])
  {
    assert PlaceOk(s, s.workers[w]);
  }

  lemma WorkKeepsLife(s: State, w: nat, r: Outcome)
    requires Inv(s) && 0 < |s.workers| == w + 1 && LifeOk(s.state, s.workers[w]) && s.workers[w].at != Gone
    ensures var s' := DoWork(s, w, r); |s'.workers| == |s.workers| && LifeOk(s'.state, s'.workers[w])
  {
    OthersStand(s, w, r);
    assert PlaceOk(s, s.workers[w]);
    if s.workers[w].race.Caught? {
      if Logs(s.workers[w].at) {
        LogKeepsCaught(s, w, r);
      } else {
        AccessKeepsCaught(s, w, r);
      }
    } else if Logs(s.workers[w].at) {
      LogKeepsWord(s, w, r);
    } else {
      AccessKeepsWord(s, w, r);
    }
  }

  /** With stop() in between, the worker leaves ACTIVE only by a write of EXITED or ERROR of its own. */
  lemma WorkKeepsTested(s: State, w: nat, r: Outcome)
    requires Inv(s) && LivesOk(s) && 0 < |s.workers| == w + 1 && s.workers[w].at != Gone
    ensures TestedOk(DoWork(s, w, r))
  {
    assert PlaceOk(s, s.workers[w]) && LifeOk(s.state, s.workers[w]);
  }

  lemma WorkKeepsLives(s: State, w: nat, r: Outcome)
    requires Inv(s) && LivesOk(s) && w < |s.workers| && s.workers[w].at != Gone
    ensures LivesOk(DoWork(s, w, r))
  {
    assert w == |s.workers| - 1 && LifeOk(s.state, s.workers[w]);
    WorkKeepsLife(s, w, r);
    WorkKeepsTested(s, w, r);
    OthersStand(s, w, r);
    EndedLivesStand(s, DoWork(s, w, r), w);
  }

  lemma EndedLivesStand(s: State, s': State, w: nat)
    requires Inv(s) && LivesOk(s) && w + 1 == |s.workers| == |s'.workers|
    requires forall k :: 0 <= k < w ==> s'.workers[k] == s.workers[k]
    requires LifeOk(s'.state, s'.workers[w]) && TestedOk(s')
    ensures LivesOk(s')
  {
    forall k | 0 <= k < |s'.workers| ensures LifeOk(s'.state, s'.workers[k]) {
      assert k < w ==> s.workers[k].at == Gone && LifeOk(s.state, s.workers[k]);
    }
  }

  lemma {:induction false} RunLives(tr: seq<State>, steps: seq<Step>, i: nat)
    requires Run(tr, steps) && i < |tr|
    ensures LivesOk(tr[i])
  {
    if i > 0 {
      RunLives(tr, steps, i - 1);
      RunInv(tr, steps, i - 1);
      assert MovesAt(tr, steps, i - 1);
      if steps[i - 1].Work? {
        WorkKeepsLives(tr[i - 1], steps[i - 1].worker, steps[i - 1].r);
      } else {
        ControlKeepsLives(tr[i - 1], steps[i - 1]);
      }
    }
  }

  /** The hook calls of a life form a word of the language unless a stop() caught its worker after it had
      ended itself, and only then: for a life that is over this is an equivalence. A life that was not caught
      ended where it may. */
  lemma HooksFormWord(tr: seq<State>, steps: seq<Step>, i: nat, k: nat)
    requires Run(tr, steps) && i < |tr| && k < |tr[i].workers|
    ensures var w := tr[i].workers[k];
            && (!w.race.Caught? ==> LifeWord(w.trace))
            && (w.at.Exiting? || w.at.Gone? ==> (LifeWord(w.trace) <==> !w.race.Caught?))
            && ((w.at.Exiting? || w.at.Gone?) && !w.race.Caught? ==> Closed(w.trace))
  {
    RunLives(tr, steps, i);
    var w := tr[i].workers[k];
    assert LifeOk(tr[i].state, w);
    if w.race.Caught? && (w.at.Exiting? || w.at.Gone?) {
      var u := Before(w);
      assert w.trace[|u| - 1] == u[|u| - 1];
      assert !Follows(w.trace[|u| - 1], w.trace[|u|]);
    }
  }

  /** A stop can race only with a worker that ended itself: in a life in which no process() returned DONE or
      ERROR there is no race. */
  lemma RacedOnlyAfterOwnEnd(tr: seq<State>, steps: seq<Step>, i: nat, k: nat)
    requires Run(tr, steps) && i < |tr| && k < |tr[i].workers|
    ensures tr[i].workers[k].race != Unraced
            ==> Process(DONE) in tr[i].workers[k].trace || Process(FAILURE) in tr[i].workers[k].trace
  {
    RunLives(tr, steps, i);
    var w := tr[i].workers[k];
    assert LifeOk(tr[i].state, w);
    if w.race != Unraced {
      var u := if w.race.Caught? then Before(w) else w.trace;
      assert forall m :: 0 <= m < |u| ==> u[m] in w.trace;
    }
  }

  // ---- after a caught stop -------------------------------------------------------------------------

  /** What worker `n` has become since a stop caught it with the events `t`. */
  ghost predicate CaughtWith(s: State, n: nat, t: seq<Event>) {
    && n < |s.workers| && s.workers[n].race.Caught?
    && Added(s.workers[n].at) <= |s.workers[n].trace|
    && Before(s.workers[n]) == t
  }

  lemma CaughtWork(s: State, r: Outcome, n: nat, t: seq<Event>)
    requires Inv(s) && LivesOk(s) && CaughtWith(s, n, t) && s.workers[n].at != Gone
    ensures CaughtWith(DoWork(s, n, r), n, t)
  {
    assert LifeOk(s.state, s.workers[n]);
    OthersStand(s, n, r);
    if Logs(s.workers[n].at) {
      LogKeepsCaught(s, n, r);
    } else {
      AccessKeepsCaught(s, n, r);
    }
  }

  lemma CaughtControl(s: State, step: Step, n: nat, t: seq<Event>)
    requires Inv(s) && Enabled(s, step) && !step.Work? && CaughtWith(s, n, t)
    ensures CaughtWith(Apply(s, step), n, t)
  {
    assert Apply(s, step).workers[n] == s.workers[n];
  }

  lemma CaughtStep(s: State, step: Step, n: nat, t: seq<Event>)
    requires Inv(s) && LivesOk(s) && Enabled(s, step) && CaughtWith(s, n, t)
    ensures CaughtWith(Apply(s, step), n, t)
  {
    if step.Work? && step.worker == n {
      CaughtWork(s, step.r, n, t);
    } else if step.Work? {
      OthersStand(s, step.worker, step.r);
    } else {
      CaughtControl(s, step, n, t);
    }
  }

  /** Step `i` is a stop() that catches the newest worker. */
  ghost predicate Catches(tr: seq<State>, steps: seq<Step>, i: nat)
    requires |tr| == |steps| + 1
  {
    && i < |steps| && steps[i] == StopSet && tr[i].workers != []
    && var w := tr[i].workers[|tr[i].workers| - 1];
       tr[i].state != ACTIVE && (w.at.LoopTest? || w.at.FinishTest?)
  }

  lemma CatchBegins(tr: seq<State>, steps: seq<Step>, i: nat)
    requires Run(tr, steps) && Catches(tr, steps, i)
    ensures var n := |tr[i].workers| - 1; CaughtWith(tr[i + 1], n, tr[i].workers[n].trace)
    ensures EndedItself(tr[i].state, tr[i].workers[|tr[i].workers| - 1].trace)
  {
    RunLives(tr, steps, i);
    assert MovesAt(tr, steps, i);
    var n := |tr[i].workers| - 1;
    assert Before(tr[i + 1].workers[n]) == tr[i].workers[n].trace;
  }

  lemma CatchGoesOn(tr: seq<State>, steps: seq<Step>, j: nat, n: nat, t: seq<Event>)
    requires Run(tr, steps) && j < |steps| && CaughtWith(tr[j], n, t)
    ensures CaughtWith(tr[j + 1], n, t)
  {
    RunInv(tr, steps, j);
    RunLives(tr, steps, j);
    assert MovesAt(tr, steps, j);
    CaughtStep(tr[j], steps[j], n, t);
  }

  lemma {:induction false} CatchHolds(tr: seq<State>, steps: seq<Step>, i: nat, j: nat)
    requires Run(tr, steps) && Catches(tr, steps, i) && i < j < |tr|
    ensures var n := |tr[i].workers| - 1; CaughtWith(tr[j], n, tr[i].workers[n].trace)
  {
    if j == i + 1 {
      CatchBegins(tr, steps, i);
    } else {
      CatchHolds(tr, steps, i, j - 1);
      CatchGoesOn(tr, steps, j - 1, |tr[i].workers| - 1, tr[i].workers[|tr[i].workers| - 1].trace);
    }
  }

  /** A worker that a stop caught does stop again. It had ended itself; what it had done stays, and by the end
      of its life it has stopped its children once more and run one more cleanup, and nothing else. With
      AcceptedStopEndsWorker that end comes after at most 12 of its own steps. */
  lemma CaughtStopsAgain(tr: seq<State>, steps: seq<Step>, i: nat, j: nat) returns (r: Outcome)
    requires Run(tr, steps) && Catches(tr, steps, i) && i < j < |tr|
    ensures var n := |tr[i].workers| - 1;
            && EndedItself(tr[i].state, tr[i].workers[n].trace)
            && n < |tr[j].workers|
            && (tr[j].workers[n].at.Exiting? || tr[j].workers[n].at.Gone? ==>
                  tr[j].workers[n].trace == tr[i].workers[n].trace + [StopChildren, PostRunCleanup(r)])
  {
    CatchBegins(tr, steps, i);
    CatchHolds(tr, steps, i, j);
    RunLives(tr, steps, j);
    var w := tr[j].workers[|tr[i].workers| - 1];
    assert LifeOk(tr[j].state, w);
    r := OK;
    if w.at.Exiting? || w.at.Gone? {
      r := w.trace[|w.trace| - 1].r;
    }
  }

  /** In a word, pre_run_init is first and once, and everything after it presupposes that it returned OK. */
  lemma InitFirstAndOnce(t: seq<Event>, k: nat)
    requires LifeWord(t) && k < |t|
    ensures t[k].PreRunInit? <==> k == 0
    ensures k > 0 ==> t[0] == PreRunInit(OK)
  {
    if k > 0 {
      assert Follows(t[k - 1], t[k]);
      assert Follows(t[0], t[1]);
    }
  }

  /** What the language says of neighbours, spelled out: a failed process() and a successful cleanup end a life,
      the children are stopped right before each cleanup and nowhere else, and a process() that was DONE leads
      to that. */
  lemma WordOrder(t: seq<Event>, k: nat)
    requires LifeWord(t) && k + 1 < |t|
    ensures t[k] != Process(FAILURE) && t[k] != PostRunCleanup(OK) && t[k] != PostRunCleanup(DONE)
    ensures t[k] != PreRunInit(DONE) && t[k] != PreRunInit(FAILURE)
    ensures t[k] == StopChildren <==> t[k + 1].PostRunCleanup?
    ensures t[k] == Process(DONE) ==> t[k + 1] == StopChildren
  {
    assert Follows(t[k], t[k + 1]);
  }

  ghost predicate OnlyCleanupIsLast(t: seq<Event>) {
    forall m :: 0 <= m < |t| && t[m].PostRunCleanup? ==> m == |t| - 1
  }

  ghost predicate NoCleanupFailed(t: seq<Event>) {
    forall m :: 0 <= m < |t| ==> t[m] != PostRunCleanup(FAILURE)
  }

  /** In a word that ends with a successful cleanup every earlier cleanup failed; so exactly one cleanup ran
      if and only if none failed. */
  lemma OneSuccessfulCleanup(t: seq<Event>)
    requires LifeWord(t) && CleanedUp(t)
    ensures forall m :: 0 <= m < |t| - 1 && t[m].PostRunCleanup? ==> t[m] == PostRunCleanup(FAILURE)
    ensures OnlyCleanupIsLast(t) <==> NoCleanupFailed(t)
  {
    forall m | 0 <= m < |t| - 1 && t[m].PostRunCleanup? ensures t[m] == PostRunCleanup(FAILURE) {
      assert Follows(t[m], t[m + 1]);
    }
  }

  /** How many cleanups succeeded. */
  function GoodCleanups(t: seq<Event>): nat {
    if t == [] then 0
    else
      var e := t[|t| - 1];
      GoodCleanups(t[..|t| - 1]) + if e == PostRunCleanup(OK) || e == PostRunCleanup(DONE) then 1 else 0
  }

  lemma {:induction false} WordCleansAtMostOnce(t: seq<Event>)
    requires LifeWord(t)
    ensures GoodCleanups(t) == if CleanedUp(t) then 1 else 0
  {
    if t != [] {
      var u := t[..|t| - 1];
      WordCleansAtMostOnce(u);
      if u != [] {
        assert Follows(t[|t| - 2], t[|t| - 1]);
      }
    }
  }

  /** Successful cleanups of a caught life: the word's own, and the second one. */
  lemma CaughtCleanups(w: Worker, final: RunnerState)
    requires CaughtAt(w, final)
    ensures GoodCleanups(w.trace)
         == (if final == EXITED then 1 else 0) + if Added(w.at) == 2 && CleanedUp(w.trace) then 1 else 0
  {
    var t, n, u := w.trace, Added(w.at), Before(w);
    WordCleansAtMostOnce(u);
    if n == 0 {
      assert t == u;
    } else if n == 1 {
      assert t[..|t| - 1] == u;
    } else {
      assert t[..|t| - 1][..|t| - 2] == u;
    }
  }

  /** One life runs two successful cleanups exactly if a stop caught it after it had exited by itself and the
      second cleanup did not fail; never more than two. */
  lemma CleansTwiceIff(tr: seq<State>, steps: seq<Step>, i: nat, k: nat)
    requires Run(tr, steps) && i < |tr| && k < |tr[i].workers|
    requires tr[i].workers[k].at.Exiting? || tr[i].workers[k].at.Gone?
    ensures var w := tr[i].workers[k];
            && (GoodCleanups(w.trace) == 2 <==> w.race == Caught(EXITED) && !EndsWith(w.trace, PostRunCleanup(FAILURE)))
            && GoodCleanups(w.trace) <= 2
  {
    RunLives(tr, steps, i);
    var w := tr[i].workers[k];
    assert LifeOk(tr[i].state, w);
    if w.race.Caught? {
      CaughtCleanups(w, w.race.final);
    } else {
      WordCleansAtMostOnce(w.trace);
    }
  }

  /** The same for a worker that is about to write STOPPED in answer to the stop that caught it. */
  lemma CaughtCleanedOnce(w: Worker, final: RunnerState)
    requires CaughtAt(w, final) && w.at == FinishCleaned(true)
    ensures OnlyCleanupIsLast(w.trace) <==> NoCleanupFailed(w.trace) && final == ERROR
  {
    var t, u := w.trace, Before(w);
    assert t[|u| - 1] == u[|u| - 1];
    assert final == EXITED ==> t[|u| - 1].PostRunCleanup?;
    forall m | 0 <= m < |u| - 1 && t[m].PostRunCleanup? ensures t[m] == PostRunCleanup(FAILURE) {
      assert Follows(u[m], u[m + 1]);
    }
  }

  /** When a worker is about to write STOPPED, or EXITED after process() was DONE, its last event is a
      successful cleanup, whenever a stop arrived, so no process() came after it. It is the only cleanup
      exactly if none failed and no stop had caught the worker after its own exit; the successful ones are
      two in that case and else one. */
  lemma CleanedExactlyOnce(tr: seq<State>, steps: seq<Step>, i: nat, k: nat)
    requires Run(tr, steps) && i < |tr| && k < |tr[i].workers|
    requires tr[i].workers[k].at == LoopCleaned || tr[i].workers[k].at == FinishCleaned(true)
    ensures var t, race := tr[i].workers[k].trace, tr[i].workers[k].race;
            && CleanedUp(t) && t[0] == PreRunInit(OK)
            && (OnlyCleanupIsLast(t) <==> NoCleanupFailed(t) && race != Caught(EXITED))
            && GoodCleanups(t) == if race == Caught(EXITED) then 2 else 1
  {
    RunInv(tr, steps, i);
    RunLives(tr, steps, i);
    var w := tr[i].workers[k];
    assert k == |tr[i].workers| - 1 && PlaceOk(tr[i], w);
    assert LifeOk(tr[i].state, w);
    if w.race.Caught? {
      InitFirstAndOnce(Before(w), |Before(w)| - 1);
      CaughtCleanups(w, w.race.final);
      CaughtCleanedOnce(w, w.race.final);
    } else {
      OneSuccessfulCleanup(w.trace);
      InitFirstAndOnce(w.trace, |w.trace| - 1);
      WordCleansAtMostOnce(w.trace);
    }
  }
}
