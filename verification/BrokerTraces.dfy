/** Runs of the broker together with their steps: what was asked for in a call is what is delivered later. */
module BrokerTraces {
  import opened Collections
  import opened BrokerProtocol
  import opened BrokerInvariant
  import opened BrokerTheorems

  ghost predicate StepAt(tr: seq<State>, steps: seq<Step>, i: nat)
    requires i < |steps| && |tr| == |steps| + 1
  {
    Enabled(tr[i], steps[i]) && tr[i + 1] == Apply(tr[i], steps[i])
  }

  ghost predicate RunBy(tr: seq<State>, steps: seq<Step>) {
    && |tr| == |steps| + 1 && Init(tr[0])
    && forall i :: 0 <= i < |steps| ==> StepAt(tr, steps, i)
  }

  lemma RunByIsRun(tr: seq<State>, steps: seq<Step>)
    requires RunBy(tr, steps)
    ensures Run(tr)
  {
    forall i | 0 < i < |tr| ensures NextAt(tr, i) {
      assert StepAt(tr, steps, i - 1);
    }
  }

  // ---- what never changes --------------------------------------------------------------------------

  ghost predicate SameFixtures(s: State, s': State) {
    && s'.minSize == s.minSize && s'.stats.numItems == s.stats.numItems
    && |s'.senders| == |s.senders| && |s'.pipes| == |s.pipes|
    && (forall p :: 0 <= p < |s.pipes| ==> s'.pipes[p].depth == s.pipes[p].depth)
    && |s'.bufs| >= |s.bufs| && (forall b :: 0 <= b < |s.bufs| ==> s'.bufs[b].size == s.bufs[b].size)
  }

  lemma LoopFixtures(s: State, t: nat, a: SendAction)
    requires t < |s.senders| && CanSend(s, t, a) && (a.BeginSend? || a.Visit? || a.TestFull? || a.Push?)
    ensures SameFixtures(s, DoSend(s, t, a))
  {
  }

  lemma EdgeFixtures(s: State, t: nat, a: SendAction)
    requires t < |s.senders| && CanSend(s, t, a) && !(a.BeginSend? || a.Visit? || a.TestFull? || a.Push?)
    ensures SameFixtures(s, DoSend(s, t, a))
  {
  }

  lemma ReadFixtures(s: State, p: PipeId, a: ReadAction)
    requires p < |s.pipes| && CanRead(s.pipes[p], a)
    ensures SameFixtures(s, DoRead(s, p, a))
  {
  }

  lemma StepFixtures(s: State, step: Step)
    requires Enabled(s, step)
    ensures SameFixtures(s, Apply(s, step))
  {
    match step
    case PoolStep(a) =>
    case ReadStep(p, a) => ReadFixtures(s, p, a);
    case EditStep(p, a) =>
    case SendStep(t, a) =>
      if a.BeginSend? || a.Visit? || a.TestFull? || a.Push? {
        LoopFixtures(s, t, a);
      } else {
        EdgeFixtures(s, t, a);
      }
  }

  /** Sizes, depths and the numbers of items, threads and pipes stay what they were. */
  lemma {:induction false} FixturesKept(tr: seq<State>, steps: seq<Step>, i: nat, j: nat)
    requires RunBy(tr, steps) && i <= j < |tr|
    ensures SameFixtures(tr[i], tr[j])
  {
    if i < j {
      FixturesKept(tr, steps, i, j - 1);
      assert StepAt(tr, steps, j - 1);
      StepFixtures(tr[j - 1], steps[j - 1]);
    }
  }

  // ---- allocation ----------------------------------------------------------------------------------

  /** An allocation is granted exactly if the pool has an item left. A granted buffer is a new one that its
      caller owns, and it has the size asked for ever after; a refused one changes no buffer. */
  lemma AllocationGranted(tr: seq<State>, steps: seq<Step>, i: nat, j: nat, size: nat, counted: bool)
    requires RunBy(tr, steps) && i < j < |tr| && steps[i] == PoolStep(Allocate(size, counted))
    ensures var b, st := |tr[i].bufs|, tr[i].stats;
            if st.itemsInUse < st.numItems then
              && |tr[i + 1].bufs| == b + 1 && tr[i + 1].bufs[..b] == tr[i].bufs
              && tr[i + 1].bufs[b].owned && tr[i + 1].bufs[b].refs == 1
              && b < |tr[j].bufs| && tr[j].bufs[b].size == size
            else tr[i + 1].bufs == tr[i].bufs && tr[i + 1].stats == tr[i].stats
  {
    assert StepAt(tr, steps, i);
    if tr[i].stats.itemsInUse < tr[i].stats.numItems {
      FixturesKept(tr, steps, i + 1, j);
    }
  }

  /** The sends among the first `n` steps that found the pool empty. */
  ghost function FailedSends(tr: seq<State>, steps: seq<Step>, n: nat): nat
    requires n <= |steps| && |tr| == |steps| + 1
  {
    if n == 0 then 0
    else FailedSends(tr, steps, n - 1)
         + if steps[n - 1].PoolStep? && steps[n - 1].pool.Allocate? && steps[n - 1].pool.counted
              && tr[n - 1].stats.itemsInUse >= tr[n - 1].stats.numItems then 1 else 0
  }

  lemma StepFailures(s: State, step: Step)
    requires Enabled(s, step)
    ensures Apply(s, step).allocFailures == s.allocFailures
              + if step.PoolStep? && step.pool.Allocate? && step.pool.counted
                   && s.stats.itemsInUse >= s.stats.numItems then 1 else 0
  {
  }

  lemma {:induction false} FailuresCounted(tr: seq<State>, steps: seq<Step>, n: nat)
    requires RunBy(tr, steps) && n <= |steps|
    ensures tr[n].allocFailures == FailedSends(tr, steps, n)
  {
    if n > 0 {
      FailuresCounted(tr, steps, n - 1);
      assert StepAt(tr, steps, n - 1);
      StepFailures(tr[n - 1], steps[n - 1]);
    }
  }

  // ---- registration and subscription, from the calls alone -----------------------------------------

  lemma EditSubs(s: State, p: PipeId, q: PipeId, a: EditAction)
    requires p < |s.pipes|
    ensures q in DoEdit(s, p, a).subs
            <==> (p == q && a == Register) || (q in s.subs && !(p == q && a == Unregister))
  {
    WithoutMembers(s.subs, p);
  }

  lemma StepSubs(s: State, step: Step, p: PipeId)
    requires Enabled(s, step)
    ensures p in Apply(s, step).subs
            <==> step == EditStep(p, Register) || (p in s.subs && step != EditStep(p, Unregister))
  {
    if step.EditStep? {
      EditSubs(s, step.pipe, p, step.edit);
    }
  }

  /** A pipe is in the list exactly if some call registered it and none has unregistered it since. */
  lemma {:induction false} RegisteredIff(tr: seq<State>, steps: seq<Step>, n: nat, p: PipeId)
    requires RunBy(tr, steps) && n < |tr|
    ensures p in tr[n].subs
            <==> exists i :: 0 <= i < n && steps[i] == EditStep(p, Register)
                             && forall k :: i < k < n ==> steps[k] != EditStep(p, Unregister)
  {
    if n > 0 {
      RegisteredIff(tr, steps, n - 1, p);
      assert StepAt(tr, steps, n - 1);
      StepSubs(tr[n - 1], steps[n - 1], p);
      if p in tr[n].subs && steps[n - 1] != EditStep(p, Register) {
        var i :| 0 <= i < n - 1 && steps[i] == EditStep(p, Register)
                 && forall k :: i < k < n - 1 ==> steps[k] != EditStep(p, Unregister);
        assert forall k :: i < k < n ==> steps[k] != EditStep(p, Unregister);
      }
    }
  }

  lemma EditIds(s: State, p: PipeId, q: PipeId, id: MsgId, a: EditAction)
    requires p < |s.pipes| && q < |s.pipes|
    ensures id in DoEdit(s, p, a).pipes[q].ids
            <==> (p == q && a == Subscribe(id)) || (id in s.pipes[q].ids && !(p == q && a == Unsubscribe(id)))
  {
    if a.Unsubscribe? {
      WithoutMembers(s.pipes[p].ids, a.id);
    }
  }

  lemma StepIds(s: State, step: Step, p: PipeId, id: MsgId)
    requires Enabled(s, step) && p < |s.pipes|
    ensures p < |Apply(s, step).pipes|
    ensures id in Apply(s, step).pipes[p].ids
            <==> step == EditStep(p, Subscribe(id)) || (id in s.pipes[p].ids && step != EditStep(p, Unsubscribe(id)))
  {
    if step.EditStep? {
      EditIds(s, step.pipe, p, id, step.edit);
    }
  }

  /** A pipe listens to an ID exactly if it was made to, by a call or from the start, and no call has ended
      that since, however often the ID was added. */
  lemma {:induction false} SubscribedIff(tr: seq<State>, steps: seq<Step>, n: nat, p: PipeId, id: MsgId)
    requires RunBy(tr, steps) && n < |tr| && p < |tr[0].pipes|
    ensures p < |tr[n].pipes|
    ensures id in tr[n].pipes[p].ids
            <==> || (id in tr[0].pipes[p].ids && forall k :: 0 <= k < n ==> steps[k] != EditStep(p, Unsubscribe(id)))
                 || (exists i :: 0 <= i < n && steps[i] == EditStep(p, Subscribe(id))
                                 && forall k :: i < k < n ==> steps[k] != EditStep(p, Unsubscribe(id)))
  {
    if n > 0 {
      SubscribedIff(tr, steps, n - 1, p, id);
      assert StepAt(tr, steps, n - 1);
      StepIds(tr[n - 1], steps[n - 1], p, id);
      if i :| 0 <= i < n - 1 && steps[i] == EditStep(p, Subscribe(id))
              && forall k :: i < k < n - 1 ==> steps[k] != EditStep(p, Unsubscribe(id))
      {
        assert steps[n - 1] != EditStep(p, Unsubscribe(id))
               ==> forall k :: i < k < n ==> steps[k] != EditStep(p, Unsubscribe(id));
      }
    }
  }

  // ---- from the call to the delivery ---------------------------------------------------------------

  /** Buffer `b` was sent by thread `t` with the ID `id`. */
  ghost predicate SentWith(s: State, t: nat, b: BufId, id: MsgId) {
    && b < |s.bufs| && !s.bufs[b].owned && s.bufs[b].msgId == id
    && forall u :: 0 <= u < |s.senders| && u != t ==> s.senders[u].Idle? || s.senders[u].buf != b
  }

  lemma SendKeepsMessage(s: State, u: nat, a: SendAction, t: nat, b: BufId, id: MsgId)
    requires u < |s.senders| && CanSend(s, u, a) && SentWith(s, t, b, id)
    ensures SentWith(DoSend(s, u, a), t, b, id)
  {
    var s' := DoSend(s, u, a);
    assert forall v :: 0 <= v < |s.senders| && v != u ==> s'.senders[v] == s.senders[v];
    assert a.BeginSend? || s'.senders[u].Idle? || s'.senders[u].buf == s.senders[u].buf;
  }

  lemma StepKeepsMessage(s: State, step: Step, t: nat, b: BufId, id: MsgId)
    requires Enabled(s, step) && SentWith(s, t, b, id)
    ensures SentWith(Apply(s, step), t, b, id)
  {
    if step.SendStep? {
      SendKeepsMessage(s, step.thread, step.send, t, b, id);
    }
  }

  lemma MessageBegins(s: State, t: nat, b: BufId, id: MsgId)
    requires Inv(s) && t < |s.senders| && CanSend(s, t, BeginSend(b, id)) && s.bufs[b].size >= s.minSize
    ensures SentWith(DoSend(s, t, BeginSend(b, id)), t, b, id)
  {
    forall u | 0 <= u < |s.senders| && u != t && !s.senders[u].Idle? ensures s.senders[u].buf != b {
      OwnedIsUnheld(s, b, u);
    }
  }

  /** A message that was taken over keeps the ID its sender gave it, and stays in that sender's hands. */
  lemma {:induction false} MessageKept(tr: seq<State>, steps: seq<Step>, i: nat, j: nat, t: nat, b: BufId, id: MsgId)
    requires RunBy(tr, steps) && i < j < |tr| && steps[i] == SendStep(t, BeginSend(b, id))
    requires b < |tr[i].bufs| && tr[i].bufs[b].size >= tr[i].minSize
    ensures b < |tr[j].bufs| && tr[j].bufs[b].msgId == id && !tr[j].bufs[b].owned
    ensures forall u :: 0 <= u < |tr[j].senders| && u != t ==> tr[j].senders[u].Idle? || tr[j].senders[u].buf != b
    ensures SentWith(tr[j], t, b, id)
  {
    assert StepAt(tr, steps, j - 1);
    if j == i + 1 {
      RunByIsRun(tr, steps);
      RunInv(tr, i);
      MessageBegins(tr[i], t, b, id);
    } else {
      MessageKept(tr, steps, i, j - 1, t, b, id);
      StepKeepsMessage(tr[j - 1], steps[j - 1], t, b, id);
    }
  }

  /** Thread `t` has entered with `b`, and as long as it is inside `p` has not changed its mind about `id`. */
  ghost predicate Steady(s: State, t: nat, b: BufId, p: PipeId, id: MsgId) {
    && t < |s.senders| && b < |s.bufs| && !s.bufs[b].owned && s.senders[t] != Holding(b)
    && (InSection(s.senders[t]) && s.senders[t].buf == b ==> (p, id) !in s.changed)
  }

  lemma OtherKeepsSteady(s: State, u: nat, a: SendAction, t: nat, b: BufId, p: PipeId, id: MsgId)
    requires Shape(s) && u < |s.senders| && u != t && CanSend(s, u, a) && Steady(s, t, b, p, id)
    ensures Steady(DoSend(s, u, a), t, b, p, id)
  {
    assert DoSend(s, u, a).senders[t] == s.senders[t];
    assert a.Enter? ==> !InSection(s.senders[t]);
  }

  lemma OwnKeepsSteady(s: State, t: nat, a: SendAction, b: BufId, p: PipeId, id: MsgId)
    requires t < |s.senders| && CanSend(s, t, a) && Steady(s, t, b, p, id)
    ensures Steady(DoSend(s, t, a), t, b, p, id)
  {
    var x := s.senders[t];
    assert a.BeginSend? ==> DoSend(s, t, a).senders[t] == Holding(a.buf) || DoSend(s, t, a) == s;
    assert !a.BeginSend? ==> DoSend(s, t, a).senders[t] != Holding(b);
  }

  lemma EditKeepsSteady(s: State, q: PipeId, a: EditAction, t: nat, b: BufId, p: PipeId, id: MsgId)
    requires q < |s.pipes| && p < |s.pipes| && Steady(s, t, b, p, id)
    requires id in DoEdit(s, q, a).pipes[p].ids <==> id in s.pipes[p].ids
    ensures Steady(DoEdit(s, q, a), t, b, p, id)
  {
  }

  lemma PoolKeepsSteady(s: State, a: PoolAction, t: nat, b: BufId, p: PipeId, id: MsgId)
    requires CanPool(s, a) && Steady(s, t, b, p, id)
    ensures Steady(DoPool(s, a), t, b, p, id)
  {
  }

  lemma ReadKeepsSteady(s: State, q: PipeId, a: ReadAction, t: nat, b: BufId, p: PipeId, id: MsgId)
    requires q < |s.pipes| && CanRead(s.pipes[q], a) && Steady(s, t, b, p, id)
    ensures Steady(DoRead(s, q, a), t, b, p, id)
  {
  }

  lemma StepKeepsSteady(s: State, step: Step, t: nat, b: BufId, p: PipeId, id: MsgId)
    requires Shape(s) && Enabled(s, step) && Steady(s, t, b, p, id) && p < |s.pipes|
    requires p < |Apply(s, step).pipes| && (id in Apply(s, step).pipes[p].ids <==> id in s.pipes[p].ids)
    ensures Steady(Apply(s, step), t, b, p, id)
  {
    match step
    case SendStep(u, a) =>
      if u == t {
        OwnKeepsSteady(s, t, a, b, p, id);
      } else {
        OtherKeepsSteady(s, u, a, t, b, p, id);
      }
    case EditStep(q, a) => EditKeepsSteady(s, q, a, t, b, p, id);
    case PoolStep(a) => PoolKeepsSteady(s, a, t, b, p, id);
    case ReadStep(q, a) => ReadKeepsSteady(s, q, a, t, b, p, id);
  }

  /** From entering on, up to `j`, `p` neither began nor ceased to listen to `id`. */
  ghost predicate Unchanging(tr: seq<State>, e: nat, j: nat, p: PipeId, id: MsgId)
    requires j < |tr|
  {
    forall k | e < k <= j ::
      p < |tr[k].pipes| && p < |tr[j].pipes| && (id in tr[k].pipes[p].ids <==> id in tr[j].pipes[p].ids)
  }

  lemma {:induction false} SteadyHolds(tr: seq<State>, steps: seq<Step>, e: nat, j: nat, t: nat, b: BufId, p: PipeId, id: MsgId)
    requires RunBy(tr, steps) && e < j < |tr| && steps[e] == SendStep(t, Enter)
    requires t < |tr[e].senders| && tr[e].senders[t] == Holding(b) && b < |tr[e].bufs| && !tr[e].bufs[b].owned
    requires Unchanging(tr, e, j, p, id)
    ensures Steady(tr[j], t, b, p, id)
  {
    assert StepAt(tr, steps, j - 1);
    if j > e + 1 {
      SteadyHolds(tr, steps, e, j - 1, t, b, p, id);
      RunByIsRun(tr, steps);
      RunInv(tr, j - 1);
      StepKeepsSteady(tr[j - 1], steps[j - 1], t, b, p, id);
    }
  }

  /** The whole way of a message: thread `t` sends a buffer that is large enough with the ID `id`, enters the
      broker with it and comes to the end of the delivery loop. Each pipe that neither began nor ceased to
      listen to that very ID in between has been called exactly if it is registered and listens to it; what
      other senders, readers and edits of other subscriptions did meanwhile does not matter. */
  lemma DeliveredAsSent(tr: seq<State>, steps: seq<Step>, i: nat, e: nat, j: nat, t: nat, b: BufId, id: MsgId, p: PipeId)
    requires RunBy(tr, steps) && i < e < j < |tr|
    requires steps[i] == SendStep(t, BeginSend(b, id)) && b < |tr[i].bufs| && tr[i].bufs[b].size >= tr[i].minSize
    requires steps[e] == SendStep(t, Enter) && t < |tr[e].senders| && tr[e].senders[t] == Holding(b)
    requires t < |tr[j].senders| && (tr[j].senders[t] == Leaving(b) || tr[j].senders[t] == Unlocking(b))
    requires Unchanging(tr, e, j, p, id)
    ensures b < |tr[j].bufs| && p < |tr[j].pipes|
    ensures p in tr[j].bufs[b].calls <==> p in tr[j].subs && id in tr[j].pipes[p].ids
  {
    MessageKept(tr, steps, i, e, t, b, id);
    MessageKept(tr, steps, i, j, t, b, id);
    SteadyHolds(tr, steps, e, j, t, b, p, id);
    RunByIsRun(tr, steps);
    DeliveredExactly(tr, j, t);
    assert Stable(tr[j], p, id);
  }

  // ---- who may step when ---------------------------------------------------------------------------

  /** Callers are held up by nothing but the lock and the rule to send and return only what they own; editing
      a subscription and allocating are possible in every state. */
  lemma WhoMayStep(s: State, t: nat, p: PipeId, b: BufId, id: MsgId, size: nat)
    requires t < |s.senders| && p < |s.pipes| && b < |s.bufs|
    ensures Enabled(s, PoolStep(Allocate(size, true))) && Enabled(s, PoolStep(Allocate(size, false)))
    ensures Enabled(s, PoolStep(ReturnUnused(b))) <==> s.bufs[b].owned
    ensures Enabled(s, EditStep(p, Subscribe(id))) && Enabled(s, EditStep(p, Unsubscribe(id)))
    ensures Enabled(s, EditStep(p, Register)) <==> s.lock == None
    ensures Enabled(s, EditStep(p, Unregister)) <==> s.lock == None
    ensures Enabled(s, SendStep(t, BeginSend(b, id))) <==> s.senders[t] == Idle && s.bufs[b].owned
    ensures Enabled(s, SendStep(t, Enter)) <==> s.senders[t].Holding? && s.lock == None
    ensures Enabled(s, ReadStep(p, CopyFront)) <==> s.pipes[p].consumer == Waiting && s.pipes[p].queue != []
  {
  }
}
