/** One order for all: the lock serialises the sends, so every queue takes messages in the order in which
    senders entered the broker, and no queue takes a message twice. */
module BrokerOrder {
  import opened Collections
  import opened BrokerProtocol
  import opened BrokerInvariant
  import opened BrokerTheorems

  /** Everything a queue ever took, in the order of the entries. */
  ghost predicate Queued(s: State) {
    && Distinct(s.entered)
    && (forall b :: b in s.entered ==> b < |s.bufs| && !s.bufs[b].owned)
    && (forall p :: 0 <= p < |s.pipes| ==> InOrder(s.pipes[p].pushed, s.entered))
  }

  /** A thread that waits for the lock has not entered with its buffer. */
  ghost predicate Waiting(s: State) {
    forall t :: 0 <= t < |s.senders| && s.senders[t].Holding? ==> s.senders[t].buf !in s.entered
  }

  /** How many subscriptions the thread in the delivery loop is done with. */
  function Passed(x: Sender, n: nat): nat {
    if x.Routing? || x.Receiving? || x.Pushing? then x.next else if x.Returning? then x.next + 1 else n
  }

  /** The thread in the section entered last, and only pipes it has passed can have its buffer. */
  ghost predicate Inside(s: State, t: nat) {
    && t < |s.senders| && !s.senders[t].Idle? && s.entered != []
    && s.entered[|s.entered| - 1] == s.senders[t].buf
    && Passed(s.senders[t], |s.subs|) <= |s.subs|
    && forall p :: 0 <= p < |s.pipes| && s.senders[t].buf in s.pipes[p].pushed
                   ==> p in s.subs[..Passed(s.senders[t], |s.subs|)] || Passed(s.senders[t], |s.subs|) == |s.subs|
  }

  ghost predicate Ordered(s: State) {
    && Queued(s) && Waiting(s)
    && (s.lock.Some? ==> Inside(s, s.lock.value))
  }

  /** Neither the order nor the queues' histories change. */
  ghost predicate SameHistory(s: State, s': State) {
    && s'.entered == s.entered && |s'.bufs| >= |s.bufs|
    && (forall b :: 0 <= b < |s.bufs| && s'.bufs[b].owned ==> s.bufs[b].owned)
    && |s'.pipes| == |s.pipes| && forall p :: 0 <= p < |s.pipes| ==> s'.pipes[p].pushed == s.pipes[p].pushed
  }

  lemma QueuedKept(s: State, s': State)
    requires Queued(s) && SameHistory(s, s')
    ensures Queued(s')
  {
  }

  /** No thread moves; a change of the list happens outside the section only. */
  lemma NobodyMoves(s: State, s': State)
    requires Shape(s) && Ordered(s) && SameHistory(s, s') && s'.senders == s.senders && s'.lock == s.lock
    requires s'.subs == s.subs || s.lock == None
    ensures Ordered(s')
  {
    QueuedKept(s, s');
  }

  lemma BeginOrdered(s: State, t: nat, b: BufId, id: MsgId)
    requires Shape(s) && Ordered(s) && t < |s.senders| && CanSend(s, t, BeginSend(b, id))
    ensures Ordered(DoBeginSend(s, t, b, id))
  {
    var s' := DoBeginSend(s, t, b, id);
    QueuedKept(s, s');
    assert b !in s.entered;
    assert s.lock.Some? ==> s'.senders[s.lock.value] == s.senders[s.lock.value];
  }

  /** A buffer enters once: no queue has it yet. */
  lemma EnterOrdered(s: State, t: nat)
    requires Inv(s) && Ordered(s) && t < |s.senders| && CanSend(s, t, Enter)
    ensures Ordered(DoSend(s, t, Enter))
  {
    var s' := DoSend(s, t, Enter);
    var b := s.senders[t].buf;
    SenderMoves(s.senders, t, Idle, b);
    assert Handles(s, b) > 0 && BufOk(s.bufs[b], Handles(s, b));
    forall p | 0 <= p < |s.pipes| ensures b !in s.pipes[p].pushed && InOrder(s'.pipes[p].pushed, s'.entered) {
      InOrderMembers(s.pipes[p].pushed, s.entered);
      InOrderSkip(s.pipes[p].pushed, s.entered, b);
    }
  }

  /** The thread in the section moves on without a push. */
  lemma InsiderMoves(s: State, s': State, t: nat)
    requires Shape(s) && Ordered(s) && SameHistory(s, s') && s'.subs == s.subs
    requires t < |s.senders| == |s'.senders| && s.lock == Some(t) && s'.senders == s.senders[t := s'.senders[t]]
    requires s'.lock == s.lock || s'.lock == None
    requires !s'.senders[t].Idle? && !s'.senders[t].Holding? && s'.senders[t].buf == s.senders[t].buf
    requires Passed(s.senders[t], |s.subs|) <= Passed(s'.senders[t], |s.subs|) <= |s.subs|
    ensures Ordered(s')
  {
    QueuedKept(s, s');
    var m, n := Passed(s.senders[t], |s.subs|), Passed(s'.senders[t], |s.subs|);
    assert forall p :: p in s.subs[..m] ==> p in s.subs[..n];
  }

  lemma LoopOrdered(s: State, t: nat, a: SendAction)
    requires Shape(s) && Ordered(s) && t < |s.senders| && CanSend(s, t, a) && (a.Visit? || a.TestFull?)
    ensures Ordered(DoSend(s, t, a))
  {
    assert InSection(s.senders[t]) && PositionOk(s, s.senders[t]);
    assert a.TestFull? ==> s.subs[s.senders[t].next] in s.subs;
    InsiderMoves(s, DoSend(s, t, a), t);
  }

  lemma DropOrdered(s: State, t: nat, a: SendAction)
    requires Shape(s) && Ordered(s) && t < |s.senders| && CanSend(s, t, a) && (a.Return? || a.Leave? || a.Unlock?)
    ensures Ordered(DoSend(s, t, a))
  {
    assert InSection(s.senders[t]) && PositionOk(s, s.senders[t]);
    InsiderMoves(s, DoSend(s, t, a), t);
  }

  lemma CloseOrdered(s: State, t: nat)
    requires Shape(s) && Ordered(s) && t < |s.senders| && CanSend(s, t, Close)
    ensures Ordered(DoSend(s, t, Close))
  {
    var s' := DoSend(s, t, Close);
    QueuedKept(s, s');
    assert s.lock.Some? ==> s'.senders[s.lock.value] == s.senders[s.lock.value];
  }

  /** The pushed buffer is the last to have entered, and its pipe does not have it yet. */
  lemma PushOrdered(s: State, t: nat)
    requires Shape(s) && Ordered(s) && t < |s.senders| && s.senders[t].Pushing?
    ensures Ordered(DoPush(s, t))
  {
    var s' := DoPush(s, t);
    var Pushing(b, i) := s.senders[t];
    assert InSection(s.senders[t]) && PositionOk(s, s.senders[t]);
    var p, n := s.subs[i], |s.entered| - 1;
    NotEarlier(s.subs, i);
    assert b !in s.pipes[p].pushed;
    assert s.entered == s.entered[..n] + [b];
    InOrderSkip(s.pipes[p].pushed, s.entered[..n], b);
    InOrderTake(s.pipes[p].pushed, s.entered[..n], b);
    assert s.subs[..i + 1] == s.subs[..i] + [p];
  }

  lemma SendOrdered(s: State, t: nat, a: SendAction)
    requires Inv(s) && Ordered(s) && t < |s.senders| && CanSend(s, t, a)
    ensures Ordered(DoSend(s, t, a))
  {
    match a
    case BeginSend(b, id) => BeginOrdered(s, t, b, id);
    case Enter => EnterOrdered(s, t);
    case Push => PushOrdered(s, t);
    case Close => CloseOrdered(s, t);
    case Visit => LoopOrdered(s, t, a);
    case TestFull => LoopOrdered(s, t, a);
    case _ => DropOrdered(s, t, a);
  }

  lemma PoolOrdered(s: State, a: PoolAction)
    requires Shape(s) && Ordered(s) && CanPool(s, a)
    ensures Ordered(DoPool(s, a))
  {
    NobodyMoves(s, DoPool(s, a));
  }

  lemma ReadOrdered(s: State, p: PipeId, a: ReadAction)
    requires Shape(s) && Ordered(s) && p < |s.pipes| && CanRead(s.pipes[p], a)
    ensures Ordered(DoRead(s, p, a))
  {
    NobodyMoves(s, DoRead(s, p, a));
  }

  lemma EditOrdered(s: State, p: PipeId, a: EditAction)
    requires Shape(s) && Ordered(s) && p < |s.pipes| && (a.Register? || a.Unregister? ==> s.lock == None)
    ensures Ordered(DoEdit(s, p, a))
  {
    NobodyMoves(s, DoEdit(s, p, a));
  }

  lemma StepOrdered(s: State, step: Step)
    requires Inv(s) && Ordered(s) && Enabled(s, step)
    ensures Ordered(Apply(s, step))
  {
    match step
    case SendStep(t, a) => SendOrdered(s, t, a);
    case PoolStep(a) => PoolOrdered(s, a);
    case ReadStep(p, a) => ReadOrdered(s, p, a);
    case EditStep(p, a) => EditOrdered(s, p, a);
  }

  lemma NextOrdered(s: State, s': State)
    requires Inv(s) && Ordered(s) && Next(s, s')
    ensures Ordered(s')
  {
    var step :| Enabled(s, step) && s' == Apply(s, step);
    StepOrdered(s, step);
  }

  lemma {:induction false} RunOrdered(tr: seq<State>, i: nat)
    requires Run(tr) && i < |tr|
    ensures Ordered(tr[i])
  {
    if i > 0 {
      RunOrdered(tr, i - 1);
      RunInv(tr, i - 1);
      assert NextAt(tr, i);
      NextOrdered(tr[i - 1], tr[i]);
    }
  }

  /** A queue takes no message twice, and takes them in the order of the sends' entries. */
  lemma QueueFollowsEntries(tr: seq<State>, i: nat, p: PipeId)
    requires Run(tr) && i < |tr| && p < |tr[i].pipes|
    ensures Distinct(tr[i].pipes[p].pushed) && InOrder(tr[i].pipes[p].pushed, tr[i].entered)
  {
    RunOrdered(tr, i);
    InOrderMembers(tr[i].pipes[p].pushed, tr[i].entered);
  }

  /** Any two queues took the messages they have in common in the same order. */
  lemma QueuesAgree(tr: seq<State>, i: nat, p: PipeId, q: PipeId)
    requires Run(tr) && i < |tr| && p < |tr[i].pipes| && q < |tr[i].pipes|
    ensures var a, b := tr[i].pipes[p].pushed, tr[i].pipes[q].pushed;
            Filter(a, x => x in b) == Filter(b, x => x in a)
  {
    RunOrdered(tr, i);
    CommonInOrder(tr[i].pipes[p].pushed, tr[i].pipes[q].pushed, tr[i].entered);
  }
}
