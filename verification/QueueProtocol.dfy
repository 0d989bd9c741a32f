/** BlockingMsgQueue and the QueuedRouter drain loop under every interleaving of one producer and one
    consumer. The queue and its semaphore change in separate steps. */
module QueueProtocol {

  datatype Producer = Ready | Pushed    // Pushed: the item is in, the permit not yet given

  /** The consumer inside `receive_msgs`. `first` tells the timed take from the later ones. */
  datatype Consumer<T> =
    | Outside
    | Taking(first: bool)
    | Taken(first: bool)      // has a permit, front() comes next
    | Copied(value: T)        // front() returned true, pop() comes next
    | Dispatching(value: T)   // popped, the handler comes next
    | Finished(timedOut: bool)

  /** `accepted`, `popped` and `dispatched` are histories; `start` is |dispatched| when the current
      `receive_msgs` began. `failed` is the assertion "Sem available but queue is empty". */
  datatype State<T> = State(
    depth: nat,
    queue: seq<T>,
    sem: nat,
    producer: Producer,
    consumer: Consumer<T>,
    accepted: seq<T>,
    refused: nat,
    popped: seq<T>,
    dispatched: seq<T>,
    start: nat,
    failed: bool)

  datatype Step<T> =
    | Push(value: T)
    | Give
    | Call          // receive_msgs is entered
    | Take          // a take that gets a permit
    | Miss          // a take that finds none: try fails, or the timed wait runs out
    | Front
    | Pop
    | Dispatch
    | Return

  ghost predicate Init<T(!new)>(s: State<T>) {
    && s.queue == [] && s.sem == 0 && s.producer == Ready && s.consumer == Outside
    && s.accepted == [] && s.refused == 0 && s.popped == [] && s.dispatched == [] && s.start == 0 && !s.failed
  }

  predicate Enabled<T(!new)>(s: State<T>, step: Step<T>) {
    match step
    case Push(_) => s.producer.Ready?
    case Give => s.producer.Pushed?
    case Call => s.consumer.Outside?
    case Take => s.consumer.Taking? && s.sem > 0
    case Miss => s.consumer.Taking? && s.sem == 0
    case Front => s.consumer.Taken?
    case Pop => s.consumer.Copied?
    case Dispatch => s.consumer.Dispatching?
    case Return => s.consumer.Finished?
  }

  function Apply<T(!new)>(s: State<T>, step: Step<T>): State<T>
    requires Enabled(s, step)
  {
    match step
    case Push(v) =>
      if |s.queue| < s.depth then s.(queue := s.queue + [v], accepted := s.accepted + [v], producer := Pushed)
      else s.(refused := s.refused + 1)
    case Give => s.(sem := s.sem + 1, producer := Ready)
    case Call => s.(consumer := Taking(true), start := |s.dispatched|)
    case Take => s.(sem := s.sem - 1, consumer := Taken(s.consumer.first))
    case Miss => s.(consumer := Finished(s.consumer.first))
    case Front =>
      if s.queue != [] then s.(consumer := Copied(s.queue[0])) else s.(failed := true)
    case Pop =>
      if s.queue != [] then
        s.(queue := s.queue[1..], popped := s.popped + [s.queue[0]], consumer := Dispatching(s.consumer.value))
      else s.(failed := true)
    case Dispatch => s.(dispatched := s.dispatched + [s.consumer.value], consumer := Taking(false))
    case Return => s.(consumer := Outside)
  }

  ghost predicate Next<T(!new)>(s: State<T>, s': State<T>) {
    exists step :: Enabled(s, step) && s' == Apply(s, step)
  }

  ghost predicate NextAt<T(!new)>(tr: seq<State<T>>, i: nat)
    requires 0 < i < |tr|
  {
    Next(tr[i - 1], tr[i])
  }

  ghost predicate Run<T(!new)>(tr: seq<State<T>>) {
    && tr != [] && Init(tr[0])
    && forall i :: 0 < i < |tr| ==> NextAt(tr, i)
  }

  // ---- invariant -----------------------------------------------------------------------------------

  ghost predicate Inv<T(!new)>(s: State<T>) {
    && |s.queue| == s.sem + (if s.producer.Pushed? then 1 else 0)
                          + (if s.consumer.Taken? || s.consumer.Copied? then 1 else 0)
    && s.accepted == s.popped + s.queue
    && |s.queue| <= s.depth
    && (s.consumer.Copied? ==> s.queue != [] && s.queue[0] == s.consumer.value)
    && s.popped == s.dispatched + (if s.consumer.Dispatching? then [s.consumer.value] else [])
    && s.start <= |s.dispatched|
    && ((s.consumer.Taking? || s.consumer.Taken?) && s.consumer.first ==> s.start == |s.dispatched|)
    && ((s.consumer.Taking? || s.consumer.Taken?) && !s.consumer.first ==> s.start < |s.dispatched|)
    && (s.consumer.Finished? ==> (s.consumer.timedOut <==> s.start == |s.dispatched|))
    && !s.failed
  }

  lemma StepInv<T(!new)>(s: State<T>, step: Step<T>)
    requires Inv(s) && Enabled(s, step)
    ensures Inv(Apply(s, step))
  {
    if step.Pop? {
      assert s.queue == [s.queue[0]] + s.queue[1..];
      assert s.popped + s.queue == s.popped + [s.queue[0]] + s.queue[1..];
    }
  }

  lemma {:induction false} RunInv<T(!new)>(tr: seq<State<T>>, i: nat)
    requires Run(tr) && i < |tr|
    ensures Inv(tr[i])
  {
    if i > 0 {
      RunInv(tr, i - 1);
      assert NextAt(tr, i);
      var step :| Enabled(tr[i - 1], step) && tr[i] == Apply(tr[i - 1], step);
      StepInv(tr[i - 1], step);
    }
  }

  // ---- promises ------------------------------------------------------------------------------------

  /** The queue holds one item per permit, plus the one pushed and not yet given, plus the one taken and not
      yet popped. So a permit always finds an item, and with nobody in between a non-empty queue always has
      a permit: no wake-up is lost. */
  lemma PermitsMatchItems<T(!new)>(tr: seq<State<T>>, i: nat)
    requires Run(tr) && i < |tr|
    ensures var s := tr[i];
            |s.queue| == s.sem + (if s.producer.Pushed? then 1 else 0)
                               + (if s.consumer.Taken? || s.consumer.Copied? then 1 else 0)
    ensures !tr[i].failed
    ensures tr[i].consumer.Taken? ==> tr[i].queue != []
    ensures tr[i].queue != [] && tr[i].producer.Ready? && tr[i].consumer.Taking? ==> Enabled(tr[i], Take)
  {
    RunInv(tr, i);
  }

  /** FIFO, nothing lost and nothing twice: what was accepted is what was handled, then the item on its way
      to the handler, then the queue. */
  lemma FirstInFirstOut<T(!new)>(tr: seq<State<T>>, i: nat)
    requires Run(tr) && i < |tr|
    ensures var s := tr[i];
            && s.accepted == s.dispatched + (if s.consumer.Dispatching? then [s.consumer.value] else []) + s.queue
            && (s.consumer.Copied? ==> s.queue != [] && s.queue[0] == s.consumer.value)
            && |s.queue| <= s.depth
  {
    RunInv(tr, i);
  }

  /** `receive_msgs` hands on exactly the messages it took, in acceptance order: when it returns, those since
      its start; TIMEOUT exactly when there were none. */
  lemma DrainsInOrder<T(!new)>(tr: seq<State<T>>, i: nat)
    requires Run(tr) && i < |tr| && tr[i].consumer.Finished?
    ensures var s := tr[i];
            && s.start <= |s.dispatched| <= |s.accepted|
            && s.dispatched[s.start..] == s.accepted[s.start..|s.dispatched|]
            && s.dispatched == s.popped
            && (s.consumer.timedOut <==> s.dispatched[s.start..] == [])
  {
    RunInv(tr, i);
    var s := tr[i];
    assert s.accepted[..|s.dispatched|] == s.dispatched;
  }

  /** A timed-out or finished drain left nothing behind but what the producer is just adding. */
  lemma NothingLeftBehind<T(!new)>(tr: seq<State<T>>, i: nat)
    requires Run(tr) && i < |tr| && Enabled(tr[i], Miss)
    ensures |tr[i].queue| == if tr[i].producer.Pushed? then 1 else 0
    ensures tr[i].producer.Ready? ==> tr[i].dispatched == tr[i].accepted
  {
    RunInv(tr, i);
  }

  // ---- acceptance, from the steps alone ------------------------------------------------------------

  ghost predicate Moves<T(!new)>(s: State<T>, step: Step<T>, s': State<T>) {
    Enabled(s, step) && s' == Apply(s, step)
  }

  ghost function Pushes<T(!new)>(steps: seq<Step<T>>): nat {
    if steps == [] then 0 else Pushes(steps[..|steps| - 1]) + if steps[|steps| - 1].Push? then 1 else 0
  }

  function Pops<T>(steps: seq<Step<T>>): nat {
    if steps == [] then 0 else Pops(steps[..|steps| - 1]) + if steps[|steps| - 1].Pop? then 1 else 0
  }

  /** What a bounded queue accepts: in order, each pushed value that came when fewer than `depth` accepted
      values had not been popped. */
  function Admitted<T>(depth: nat, steps: seq<Step<T>>): seq<T> {
    if steps == [] then []
    else
      var before, last := steps[..|steps| - 1], steps[|steps| - 1];
      var sofar := Admitted(depth, before);
      if last.Push? && |sofar| - Pops(before) < depth then sofar + [last.value] else sofar
  }

  /** What the histories and the queue are after `steps`, whatever else the threads did in between. */
  ghost predicate AsAdmitted<T(!new)>(s: State<T>, depth: nat, steps: seq<Step<T>>) {
    var all := Admitted(depth, steps);
    && s.depth == depth && s.accepted == all && s.refused == Pushes(steps) - |all|
    && Pops(steps) <= |all| && s.popped == all[..Pops(steps)] && s.queue == all[Pops(steps)..]
  }

  lemma PopAdmitted<T(!new)>(s: State<T>, steps: seq<Step<T>>)
    requires Inv(s) && AsAdmitted(s, s.depth, steps) && Enabled(s, Step<T>.Pop)
    ensures AsAdmitted(Apply(s, Step<T>.Pop), s.depth, steps + [Step<T>.Pop])
  {
    assert (steps + [Step<T>.Pop])[..|steps|] == steps;
    var all, n := Admitted(s.depth, steps), Pops(steps);
    assert all[n..][0] == all[n] && all[n..][1..] == all[n + 1..];
  }

  lemma StepAdmitted<T(!new)>(s: State<T>, steps: seq<Step<T>>, step: Step<T>)
    requires Inv(s) && AsAdmitted(s, s.depth, steps) && Enabled(s, step)
    ensures AsAdmitted(Apply(s, step), s.depth, steps + [step])
  {
    assert (steps + [step])[..|steps|] == steps;
    if step.Pop? {
      PopAdmitted(s, steps);
    }
  }

  /** Over a whole interleaving the queue is the bounded queue that its pushes and pops alone define: a push is
      accepted exactly if there was room at that step, else it is counted as refused and changes nothing, and
      what was accepted is in the queue or has been popped, in order. */
  lemma {:induction false} AcceptedExactlyWithRoom<T(!new)>(tr: seq<State<T>>, steps: seq<Step<T>>)
    requires |tr| == |steps| + 1 && Init(tr[0])
    requires forall k :: 0 <= k < |steps| ==> Moves(tr[k], steps[k], tr[k + 1])
    ensures Inv(tr[|steps|]) && AsAdmitted(tr[|steps|], tr[0].depth, steps)
  {
    if steps != [] {
      var n := |steps| - 1;
      AcceptedExactlyWithRoom(tr[..n + 1], steps[..n]);
      assert Moves(tr[n], steps[n], tr[n + 1]);
      StepInv(tr[n], steps[n]);
      StepAdmitted(tr[n], steps[..n], steps[n]);
      assert steps[..n] + [steps[n]] == steps;
    }
  }

  /** At each push of an interleaving: a full queue refuses it and nothing but that count changes, else the
      value is the next one admitted. */
  lemma RefusedOnlyWhenFull<T(!new)>(tr: seq<State<T>>, steps: seq<Step<T>>, k: nat)
    requires |tr| == |steps| + 1 && Init(tr[0]) && k < |steps| && steps[k].Push?
    requires forall m :: 0 <= m < |steps| ==> Moves(tr[m], steps[m], tr[m + 1])
    ensures if |tr[k].queue| == tr[0].depth then tr[k + 1] == tr[k].(refused := tr[k].refused + 1)
            else Admitted(tr[0].depth, steps[..k + 1]) == tr[k].accepted + [steps[k].value] == tr[k + 1].accepted
  {
    AcceptedExactlyWithRoom(tr[..k + 1], steps[..k]);
    assert Moves(tr[k], steps[k], tr[k + 1]);
    assert steps[..k + 1][..k] == steps[..k];
  }

  // ---- termination of the drain --------------------------------------------------------------------

  predicate ByConsumer<T(!new)>(step: Step<T>) {
    step.Take? || step.Miss? || step.Front? || step.Pop? || step.Dispatch?
  }

  ghost function OwnSteps<T(!new)>(steps: seq<Step<T>>): nat {
    if steps == [] then 0 else OwnSteps(steps[..|steps| - 1]) + if ByConsumer(steps[|steps| - 1]) then 1 else 0
  }

  /** What the consumer still has to do inside this call: four steps per queued item and the last miss. */
  ghost function Left<T(!new)>(s: State<T>): int {
    4 * |s.queue| + match s.consumer
                    case Taking(_) => 1
                    case Taken(_) => 0
                    case Copied(_) => -1
                    case Dispatching(_) => 2
                    case _ => 0
  }

  lemma StepLeft<T(!new)>(s: State<T>, step: Step<T>)
    requires Inv(s) && Enabled(s, step) && !step.Call? && !step.Return?
    ensures Left(Apply(s, step)) <= Left(s) + (if step.Push? then 4 else 0) - (if ByConsumer(step) then 1 else 0)
    ensures Left(Apply(s, step)) >= 0
  {
    StepInv(s, step);
  }

  /** One call of `receive_msgs`, interleaved with any pushes: its own steps are bounded by the items queued
      when it began and those pushed meanwhile, so it ends. */
  lemma {:induction false} DrainTerminates<T(!new)>(tr: seq<State<T>>, steps: seq<Step<T>>)
    requires |tr| == |steps| + 1 && Inv(tr[0]) && tr[0].consumer == Taking(true)
    requires forall k :: 0 <= k < |steps| ==> Moves(tr[k], steps[k], tr[k + 1])
    requires forall k :: 0 <= k < |steps| ==> !steps[k].Call? && !steps[k].Return?
    ensures Inv(tr[|steps|]) && Left(tr[|steps|]) >= 0
    ensures OwnSteps(steps) + Left(tr[|steps|])
         <= 4 * (|tr[0].queue| + Pushes(steps)) + 1
  {
    if steps != [] {
      var n := |steps| - 1;
      DrainTerminates(tr[..n + 1], steps[..n]);
      assert Moves(tr[n], steps[n], tr[n + 1]);
      StepInv(tr[n], steps[n]);
      StepLeft(tr[n], steps[n]);
    }
  }

  lemma StepGrowth<T(!new)>(s: State<T>, step: Step<T>)
    requires Enabled(s, step)
    ensures |s.dispatched| <= |Apply(s, step).dispatched|
    ensures |Apply(s, step).accepted| <= |s.accepted| + if step.Push? then 1 else 0
  {
  }

  /** The same call dispatches at most the items queued when it began plus those pushed meanwhile. */
  lemma {:induction false} DispatchesBounded<T(!new)>(tr: seq<State<T>>, steps: seq<Step<T>>)
    requires |tr| == |steps| + 1 && Inv(tr[0]) && tr[0].consumer == Taking(true)
    requires forall k :: 0 <= k < |steps| ==> Moves(tr[k], steps[k], tr[k + 1])
    ensures Inv(tr[|steps|])
    ensures |tr[|steps|].accepted| <= |tr[0].accepted| + Pushes(steps)
    ensures |tr[0].dispatched| <= |tr[|steps|].dispatched| <= |tr[0].dispatched| + |tr[0].queue| + Pushes(steps)
  {
    if steps != [] {
      var n := |steps| - 1;
      DispatchesBounded(tr[..n + 1], steps[..n]);
      assert Moves(tr[n], steps[n], tr[n + 1]);
      StepInv(tr[n], steps[n]);
      StepGrowth(tr[n], steps[n]);
    }
    HandledWasAccepted(tr[0]);
    HandledWasAccepted(tr[|steps|]);
  }

  /** Neither side ever waits for the other: the producer can push or has a permit to give, and a consumer
      inside `receive_msgs` has a step of its own in every state, which does what its place says. With
      DrainTerminates every call comes to its end. */
  lemma NobodyBlocks<T(!new)>(s: State<T>, value: T)
    ensures s.producer == Ready ==> Enabled(s, Push(value))
    ensures s.producer == Pushed ==> Enabled(s, Give)
    ensures s.consumer == Outside ==> Enabled(s, Call) && Apply(s, Step<T>.Call).consumer == Taking(true)
    ensures s.consumer.Taking? ==> (Enabled(s, Take) <==> s.sem > 0) && (Enabled(s, Miss) <==> s.sem == 0)
    ensures s.consumer.Taken? ==> Enabled(s, Front)
    ensures s.consumer.Copied? ==> Enabled(s, Pop)
    ensures s.consumer.Dispatching? ==> Enabled(s, Dispatch)
    ensures s.consumer.Finished? ==> Enabled(s, Return) && Apply(s, Step<T>.Return) == s.(consumer := Outside)
  {
  }

  lemma HandledWasAccepted<T(!new)>(s: State<T>)
    requires Inv(s)
    ensures |s.dispatched| <= |s.accepted|
    ensures s.consumer.Taking? ==> |s.accepted| == |s.dispatched| + |s.queue|
  {
  }
}
