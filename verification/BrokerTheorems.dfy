/** What the broker promises, for every state of every interleaving. */
module BrokerTheorems {
  import opened Collections
  import opened Pool
  import opened BrokerProtocol
  import opened BrokerInvariant

  lemma {:induction false} RunInv(tr: seq<State>, i: nat)
    requires Run(tr) && i < |tr|
    ensures Inv(tr[i])
  {
    if i == 0 {
      InitInv(tr[0]);
    } else {
      RunInv(tr, i - 1);
      assert NextAt(tr, i);
      var step :| Enabled(tr[i - 1], step) && tr[i] == Apply(tr[i - 1], step);
      StepInv(tr[i - 1], step);
    }
  }

  // ---- reference counting --------------------------------------------------------------------------

  /** Where any handle to a buffer exists, the buffer is live and its counter is the number of handles;
      where none exists, the buffer is still its caller's or has been released, or is about to be, once. */
  lemma CountIsHandles(tr: seq<State>, i: nat, b: BufId)
    requires Run(tr) && i < |tr|
    ensures Handles(tr[i], b) > 0 ==> Live(tr[i].bufs, b) && tr[i].bufs[b].refs == Handles(tr[i], b)
    ensures b < |tr[i].bufs| && Handles(tr[i], b) == 0 && !tr[i].bufs[b].owned
            ==> tr[i].bufs[b].pending + tr[i].bufs[b].frees == 1
  {
    RunInv(tr, i);
  }

  /** No copy, drop or pop ever touches a buffer that has gone back to the pool. */
  lemma NoUseAfterRelease(tr: seq<State>)
    requires Run(tr)
    ensures forall i :: 0 <= i < |tr| ==> !tr[i].fault
  {
    forall i | 0 <= i < |tr| ensures !tr[i].fault {
      RunInv(tr, i);
    }
  }

  /** Wherever a handle is, in a queue, with a reader or in a sender's hands, its buffer has not been released
      and no release of it is due. */
  lemma HandlesAreLive(tr: seq<State>, i: nat, b: BufId)
    requires Run(tr) && i < |tr|
    requires || (exists p :: 0 <= p < |tr[i].pipes| && (b in tr[i].pipes[p].queue
                             || tr[i].pipes[p].consumer == Copied(b) || tr[i].pipes[p].consumer == Popped(b)))
             || (exists t :: 0 <= t < |tr[i].senders| && tr[i].senders[t] != Idle && tr[i].senders[t].buf == b)
    ensures b < |tr[i].bufs| && tr[i].bufs[b].frees == 0 && tr[i].bufs[b].pending == 0 && tr[i].bufs[b].refs > 0
  {
    RunInv(tr, i);
    if t :| 0 <= t < |tr[i].senders| && tr[i].senders[t] != Idle && tr[i].senders[t].buf == b {
      SenderMoves(tr[i].senders, t, Idle, b);
    } else {
      var p :| 0 <= p < |tr[i].pipes| && (b in tr[i].pipes[p].queue
                 || tr[i].pipes[p].consumer == Copied(b) || tr[i].pipes[p].consumer == Popped(b));
      PipeMoves(tr[i].pipes, p, tr[i].pipes[p], b);
      assert HeldByPipe(tr[i].pipes[p], b) > 0;
    }
    assert Handles(tr[i], b) > 0;
    CountIsHandles(tr, i, b);
  }

  /** A reader that is about to pop finds the message it copied at the head, and a thread inside a pipe's
      receive finds that pipe: nothing can take either away from under them. */
  lemma NothingTakenAway(tr: seq<State>, i: nat, p: PipeId, t: nat)
    requires Run(tr) && i < |tr| && p < |tr[i].pipes| && t < |tr[i].senders|
    ensures tr[i].pipes[p].consumer.Copied? ==>
              tr[i].pipes[p].queue != [] && tr[i].pipes[p].queue[0] == tr[i].pipes[p].consumer.buf
    ensures InReceive(tr[i].senders[t]) ==>
              tr[i].senders[t].next < |tr[i].subs| && tr[i].subs[tr[i].senders[t].next] < |tr[i].pipes|
  {
    RunInv(tr, i);
    assert PipeOk(tr[i].pipes[p]) && PositionOk(tr[i], tr[i].senders[t]);
    assert InReceive(tr[i].senders[t]) ==> tr[i].subs[tr[i].senders[t].next] in tr[i].subs;
  }

  /** A buffer goes back to the pool at most once, whichever way it goes, and never while a handle exists. */
  lemma ReleasedAtMostOnce(tr: seq<State>, i: nat, b: BufId)
    requires Run(tr) && i < |tr| && b < |tr[i].bufs|
    ensures tr[i].bufs[b].pending + tr[i].bufs[b].frees <= 1
    ensures tr[i].bufs[b].frees == 1 ==> Handles(tr[i], b) == 0 && !tr[i].bufs[b].owned
  {
    RunInv(tr, i);
    assert BufOk(tr[i].bufs[b], Handles(tr[i], b));
  }

  /** From the making of the SharedMsg to its end, whatever the pipes' readers do, the message stays live;
      inside the delivery loop the broker's own handle and its parameter are both still counted. */
  lemma AliveThroughDelivery(tr: seq<State>, i: nat, t: nat)
    requires Run(tr) && i < |tr| && t < |tr[i].senders| && !tr[i].senders[t].Idle?
    ensures Live(tr[i].bufs, tr[i].senders[t].buf)
    ensures tr[i].bufs[tr[i].senders[t].buf].refs >= Depth(tr[i].senders[t])
    ensures tr[i].senders[t].Routing? || InReceive(tr[i].senders[t]) || tr[i].senders[t].Leaving?
            ==> tr[i].bufs[tr[i].senders[t].buf].refs >= 2
    ensures InReceive(tr[i].senders[t]) ==> tr[i].bufs[tr[i].senders[t].buf].refs >= 3
  {
    RunInv(tr, i);
    var b := tr[i].senders[t].buf;
    SenderMoves(tr[i].senders, t, Idle, b);
    CountIsHandles(tr, i, b);
  }

  /** `send_buf` takes a buffer over exactly if it is large enough for a message header. Otherwise nothing
      happens at all: the buffer stays with its caller, who still has to return it. */
  lemma TakenIffLargeEnough(s: State, t: nat, b: BufId, id: MsgId)
    requires Inv(s) && t < |s.senders| && CanSend(s, t, BeginSend(b, id))
    ensures var s' := DoSend(s, t, BeginSend(b, id));
            && (s.bufs[b].size < s.minSize <==> s' == s)
            && (s.bufs[b].size >= s.minSize <==> s'.senders[t] == Holding(b))
            && (s'.senders[t] == Holding(b) ==>
                  !s'.bufs[b].owned && s'.bufs[b].msgId == id && s'.bufs[b].refs == Handles(s', b) == 1)
  {
    assert BufOk(s.bufs[b], Handles(s, b));
    SenderMoves(s.senders, t, Holding(b), b);
  }

  // ---- pool accounting -----------------------------------------------------------------------------

  /** The buffers somebody still answers for: a caller, a handle, or a release under way. */
  ghost function InUse(s: State): set<BufId> {
    set b: BufId | b < |s.bufs| && (s.bufs[b].owned || Handles(s, b) > 0 || s.bufs[b].pending > 0)
  }

  ghost function NotFreed(bufs: seq<Buf>): set<BufId> {
    if bufs == [] then {}
    else NotFreed(bufs[..|bufs| - 1]) + if bufs[|bufs| - 1].frees == 0 then {|bufs| - 1} else {}
  }

  lemma {:induction false} NotFreedMembers(bufs: seq<Buf>, b: BufId)
    ensures b in NotFreed(bufs) <==> b < |bufs| && bufs[b].frees == 0
  {
    if bufs != [] {
      NotFreedMembers(bufs[..|bufs| - 1], b);
    }
  }

  lemma {:induction false} CountNotFreed(bufs: seq<Buf>)
    requires forall b :: 0 <= b < |bufs| ==> bufs[b].frees <= 1
    ensures |NotFreed(bufs)| == |bufs| - Freed(bufs)
  {
    if bufs != [] {
      CountNotFreed(bufs[..|bufs| - 1]);
      NotFreedMembers(bufs[..|bufs| - 1], |bufs| - 1);
    }
  }

  lemma InUseIsNotFreed(s: State)
    requires Inv(s)
    ensures InUse(s) == NotFreed(s.bufs) && |InUse(s)| == s.stats.itemsInUse
  {
    forall b: BufId ensures b in InUse(s) <==> b in NotFreed(s.bufs) {
      NotFreedMembers(s.bufs, b);
      assert b < |s.bufs| ==> BufOk(s.bufs[b], Handles(s, b));
    }
    assert forall b :: 0 <= b < |s.bufs| ==> BufOk(s.bufs[b], Handles(s, b));
    CountNotFreed(s.bufs);
  }

  /** ItemsInUse is allocations minus releases, and the number of buffers still answered for; it never
      exceeds the pool and is positive whenever a release is due. */
  lemma BuffersConserved(tr: seq<State>, i: nat)
    requires Run(tr) && i < |tr|
    ensures var st := tr[i].stats;
            && st.itemsInUse == st.allocCount - st.releaseCount == |InUse(tr[i])|
            && st.allocCount == |tr[i].bufs|
            && 0 <= st.itemsInUse <= st.waterMark <= st.numItems
    ensures forall a | CanPool(tr[i], a) && !a.Allocate? :: tr[i].stats.itemsInUse > 0
  {
    RunInv(tr, i);
    InUseIsNotFreed(tr[i]);
    forall a | CanPool(tr[i], a) && !a.Allocate? ensures tr[i].stats.itemsInUse > 0 {
      assert a.buf in InUse(tr[i]);
    }
  }

  /** Nobody is in `send_buf`, every queue is drained, no caller holds a buffer, no release is under way. */
  ghost predicate Quiet(s: State) {
    && (forall t :: 0 <= t < |s.senders| ==> s.senders[t] == Idle)
    && (forall p :: 0 <= p < |s.pipes| ==> s.pipes[p].queue == [] && s.pipes[p].consumer == Waiting)
    && (forall b :: 0 <= b < |s.bufs| ==> !s.bufs[b].owned && s.bufs[b].pending == 0)
  }

  /** After any history, a quiet broker has every buffer back: also those nobody subscribed to and those a
      full pipe turned away. */
  lemma QuietMeansAllReturned(tr: seq<State>, i: nat)
    requires Run(tr) && i < |tr| && Quiet(tr[i])
    ensures tr[i].stats.itemsInUse == 0 && tr[i].stats.releaseCount == tr[i].stats.allocCount
  {
    var s := tr[i];
    RunInv(tr, i);
    InUseIsNotFreed(s);
    forall b: BufId ensures Handles(s, b) == 0 {
      NobodyHolds(s.senders, s.pipes, b);
    }
    assert InUse(s) == {};
  }

  lemma StepWaterMark(s: State, step: Step)
    requires StatsOk(s.stats, s.bufs) && Enabled(s, step)
    ensures var s' := Apply(s, step);
            s'.stats.waterMark == if s'.stats.itemsInUse > s.stats.waterMark then s'.stats.itemsInUse else s.stats.waterMark
  {
    match step
    case PoolStep(_) =>
    case SendStep(t, a) => SendStats(s, t, a);
    case ReadStep(p, a) => ReadStats(s, p, a);
    case EditStep(_, _) =>
  }

  lemma NextWaterMark(s: State, s': State)
    requires StatsOk(s.stats, s.bufs) && Next(s, s')
    ensures s'.stats.waterMark
         == if s'.stats.itemsInUse > s.stats.waterMark then s'.stats.itemsInUse else s.stats.waterMark
  {
    var step :| Enabled(s, step) && s' == Apply(s, step);
    StepWaterMark(s, step);
  }

  lemma RunWaterMark(tr: seq<State>, n: nat)
    requires Run(tr) && 0 < n < |tr|
    ensures var before, now := tr[n - 1].stats, tr[n].stats;
            now.waterMark == if now.itemsInUse > before.waterMark then now.itemsInUse else before.waterMark
  {
    RunInv(tr, n - 1);
    assert NextAt(tr, n);
    NextWaterMark(tr[n - 1], tr[n]);
  }

  /** Over the whole run the water mark is the maximum of ItemsInUse: it bounds every earlier value `i` and
      was reached at `peak`. */
  lemma {:induction false} WaterMarkIsPeakOfRun(tr: seq<State>, i: nat, n: nat) returns (peak: nat)
    requires Run(tr) && i <= n < |tr|
    ensures peak <= n && tr[peak].stats.itemsInUse == tr[n].stats.waterMark
    ensures tr[i].stats.itemsInUse <= tr[n].stats.waterMark
  {
    if n == 0 {
      peak := 0;
    } else {
      RunWaterMark(tr, n);
      peak := WaterMarkIsPeakOfRun(tr, if i < n then i else 0, n - 1);
      if tr[n].stats.waterMark != tr[n - 1].stats.waterMark {
        peak := n;
      }
    }
  }

  // ---- routing -------------------------------------------------------------------------------------

  /** What registration and subscription calls mean, as sets. */
  datatype Registry = Registry(registered: set<PipeId>, wanted: seq<set<MsgId>>) {
    ghost predicate Reaches(p: PipeId, id: MsgId) {
      p in registered && p < |wanted| && id in wanted[p]
    }
  }

  function Abs(s: State): Registry {
    Registry(set p | p in s.subs, seq(|s.pipes|, p requires 0 <= p < |s.pipes| => set id | id in s.pipes[p].ids))
  }

  function SpecStep(r: Registry, step: Step): Registry {
    match step
    case EditStep(p, Register) => r.(registered := r.registered + {p})
    case EditStep(p, Unregister) => r.(registered := r.registered - {p})
    case EditStep(p, Subscribe(id)) => if p < |r.wanted| then r.(wanted := r.wanted[p := r.wanted[p] + {id}]) else r
    case EditStep(p, Unsubscribe(id)) => if p < |r.wanted| then r.(wanted := r.wanted[p := r.wanted[p] - {id}]) else r
    case _ => r
  }

  lemma EditRefines(s: State, p: PipeId, a: EditAction)
    requires p < |s.pipes|
    ensures Abs(DoEdit(s, p, a)) == SpecStep(Abs(s), EditStep(p, a))
  {
    var s' := DoEdit(s, p, a);
    match a
    case Register => assert Abs(s').registered == Abs(s).registered + {p};
    case Unregister =>
      WithoutMembers(s.subs, p);
      assert Abs(s').registered == Abs(s).registered - {p};
    case Subscribe(id) =>
      assert Abs(s').wanted[p] == Abs(s).wanted[p] + {id};
      assert Abs(s').wanted == Abs(s).wanted[p := Abs(s').wanted[p]];
    case Unsubscribe(id) =>
      WithoutMembers(s.pipes[p].ids, id);
      assert Abs(s').wanted[p] == Abs(s).wanted[p] - {id};
      assert Abs(s').wanted == Abs(s).wanted[p := Abs(s').wanted[p]];
  }

  lemma SameRegistry(s: State, s': State)
    requires s'.subs == s.subs && |s'.pipes| == |s.pipes|
    requires forall p :: 0 <= p < |s.pipes| ==> s'.pipes[p].ids == s.pipes[p].ids
    ensures Abs(s') == Abs(s)
  {
    assert Abs(s').wanted == Abs(s).wanted;
  }

  lemma SendRefines(s: State, t: nat, a: SendAction)
    requires t < |s.senders| && CanSend(s, t, a)
    ensures Abs(DoSend(s, t, a)) == Abs(s)
  {
    SameRegistry(s, DoSend(s, t, a));
  }

  lemma ReadRefines(s: State, p: PipeId, a: ReadAction)
    requires p < |s.pipes| && CanRead(s.pipes[p], a)
    ensures Abs(DoRead(s, p, a)) == Abs(s)
  {
    SameRegistry(s, DoRead(s, p, a));
  }

  /** The lists with their duplicates, re-registrations and erase-removes simulate the set specification,
      and no other step of any thread shows in it. */
  lemma RoutingRefinesSets(s: State, step: Step)
    requires Enabled(s, step)
    ensures Abs(Apply(s, step)) == SpecStep(Abs(s), step)
  {
    match step
    case EditStep(p, a) => EditRefines(s, p, a);
    case PoolStep(a) => SameRegistry(s, DoPool(s, a));
    case SendStep(t, a) => SendRefines(s, t, a);
    case ReadStep(p, a) => ReadRefines(s, p, a);
  }

  /** A delivery loop that is over has made its calls in list order, each pipe once. Whatever edits, senders
      and readers overlapped it, each pipe that did not change its mind about this ID meanwhile was called
      exactly if the set specification names it; and if none did, the calls are just the pipes it names. */
  lemma DeliveredExactly(tr: seq<State>, i: nat, t: nat)
    requires Run(tr) && i < |tr| && t < |tr[i].senders|
    requires tr[i].senders[t].Leaving? || tr[i].senders[t].Unlocking?
    ensures var s, b := tr[i], tr[i].senders[t].buf;
            && b < |s.bufs| && Distinct(s.bufs[b].calls) && InOrder(s.bufs[b].calls, s.subs)
            && (forall p | Stable(s, p, s.bufs[b].msgId) :: p in s.bufs[b].calls <==> Abs(s).Reaches(p, s.bufs[b].msgId))
            && ((forall p :: p in s.subs ==> Stable(s, p, s.bufs[b].msgId)) ==>
                  s.bufs[b].calls == Filter(s.subs, p => Abs(s).Reaches(p, s.bufs[b].msgId)))
  {
    var s := tr[i];
    RunInv(tr, i);
    var b := s.senders[t].buf;
    assert Progress(s, s.senders[t]);
    assert s.subs[..|s.subs|] == s.subs;
    var id := s.bufs[b].msgId;
    forall p | Stable(s, p, id) ensures p in s.bufs[b].calls <==> Abs(s).Reaches(p, id) {
      assert p in s.bufs[b].calls <==> p in s.subs && Wants(s.pipes, p, id);
    }
    if forall p :: p in s.subs ==> Stable(s, p, id) {
      FilterExtensional(s.subs, p => p in s.bufs[b].calls, p => Abs(s).Reaches(p, id));
    }
  }

  /** Even while subscriptions are edited, no pipe is ever called twice with one message, and only pipes
      registered at that time are called. */
  lemma CalledAtMostOnce(tr: seq<State>, i: nat)
    requires Run(tr) && i < |tr|
    ensures forall b :: 0 <= b < |tr[i].bufs| ==> Distinct(tr[i].bufs[b].calls)
    ensures forall t :: 0 <= t < |tr[i].senders| && InSection(tr[i].senders[t]) ==>
              var b := tr[i].senders[t].buf;
              b < |tr[i].bufs| && forall p :: p in tr[i].bufs[b].calls ==> p in Abs(tr[i]).registered
  {
    var s := tr[i];
    RunInv(tr, i);
    forall t | 0 <= t < |s.senders| && InSection(s.senders[t])
      ensures var b := s.senders[t].buf; b < |s.bufs| && forall p :: p in s.bufs[b].calls ==> p in Abs(s).registered
    {
      assert Progress(s, s.senders[t]);
      CallsDistinct(s, s.senders[t]);
    }
  }

  /** When the loop is over, every pipe it called either has the handle in the history of its queue or was
      found full; and what a queue took in is what its reader has popped, in order, and what is still there. */
  lemma EveryCallQueuedOrFull(tr: seq<State>, i: nat, t: nat)
    requires Run(tr) && i < |tr| && t < |tr[i].senders|
    requires tr[i].senders[t].Leaving? || tr[i].senders[t].Unlocking?
    ensures var s, b := tr[i], tr[i].senders[t].buf;
            && b < |s.bufs|
            && (forall p :: p in s.bufs[b].calls ==>
                  p in s.bufs[b].refused || (p in s.bufs[b].kept && p < |s.pipes| && b in s.pipes[p].pushed))
            && (forall p :: 0 <= p < |s.pipes| ==> s.pipes[p].pushed == s.pipes[p].popped + s.pipes[p].queue
                                                   && |s.pipes[p].queue| <= s.pipes[p].depth)
  {
    RunInv(tr, i);
    var s := tr[i];
    var b := s.senders[t].buf;
    assert Progress(s, s.senders[t]);
    assert KeptOk(s, b);
    assert forall p :: 0 <= p < |s.pipes| ==> PipeOk(s.pipes[p]);
  }

  /** A pipe is recorded as full exactly when its queue was, at the moment it was asked; only the reader can
      touch that queue before the push, so the push still finds room. */
  lemma RefusedExactlyWhenFull(s: State, t: nat)
    requires Inv(s) && t < |s.senders| && (s.senders[t].Receiving? || s.senders[t].Pushing?)
    ensures var p := s.subs[s.senders[t].next];
            && p < |s.pipes|
            && (s.senders[t].Pushing? ==> |s.pipes[p].queue| < s.pipes[p].depth)
            && (s.senders[t].Receiving? ==>
                  var s' := DoTestFull(s, t);
                  var b := s.senders[t].buf;
                  && b < |s.bufs|
                  && s'.bufs[b].refused == s.bufs[b].refused + (if |s.pipes[p].queue| == s.pipes[p].depth then [p] else [])
                  && (s'.senders[t].Pushing? <==> |s.pipes[p].queue| < s.pipes[p].depth))
  {
    assert PositionOk(s, s.senders[t]) && Progress(s, s.senders[t]);
    assert s.subs[s.senders[t].next] in s.subs;
    assert PipeOk(s.pipes[s.subs[s.senders[t].next]]);
  }

  // ---- draining ------------------------------------------------------------------------------------

  /** The steps that finish what was begun: nothing new is allocated, sent, registered or edited. */
  predicate Finishing(step: Step) {
    match step
    case PoolStep(a) => a.PoolRelease?
    case SendStep(_, a) => !a.BeginSend?
    case ReadStep(_, _) => true
    case EditStep(_, _) => false
  }

  /** An upper bound on the finishing steps a thread still causes, with `n` subscriptions. */
  ghost function SenderWork(x: Sender, n: nat): int {
    match x
    case Idle => 0
    case Holding(_) => 8 * n + 5
    case Routing(_, i) => 8 * (n - i) + 4
    case Receiving(_, i) => 8 * (n - i) + 3
    case Pushing(_, i) => 8 * (n - i) + 2
    case Returning(_, i) => 8 * (n - i) - 3
    case Leaving(_) => 3
    case Unlocking(_) => 2
    case Closing(_) => 1
  }

  ghost function PipeWork(p: Pipe): int {
    3 * |p.queue| + if p.consumer.Waiting? then 0 else if p.consumer.Copied? then -1 else 1
  }

  ghost function SendersWork(ss: seq<Sender>, n: nat): int {
    if ss == [] then 0 else SendersWork(ss[..|ss| - 1], n) + SenderWork(ss[|ss| - 1], n)
  }

  ghost function PipesWork(ps: seq<Pipe>): int {
    if ps == [] then 0 else PipesWork(ps[..|ps| - 1]) + PipeWork(ps[|ps| - 1])
  }

  ghost function Work(s: State): int {
    SendersWork(s.senders, |s.subs|) + PipesWork(s.pipes) + s.stats.itemsInUse
  }

  lemma {:induction false} SenderWorks(ss: seq<Sender>, t: nat, x: Sender, n: nat)
    requires t < |ss|
    ensures SendersWork(ss[t := x], n) == SendersWork(ss, n) - SenderWork(ss[t], n) + SenderWork(x, n)
  {
    var k := |ss| - 1;
    if t < k {
      SenderWorks(ss[..k], t, x, n);
      assert ss[t := x][..k] == ss[..k][t := x];
    } else {
      assert ss[t := x][..k] == ss[..k];
    }
  }

  lemma {:induction false} PipeWorks(ps: seq<Pipe>, p: PipeId, x: Pipe)
    requires p < |ps|
    ensures PipesWork(ps[p := x]) == PipesWork(ps) - PipeWork(ps[p]) + PipeWork(x)
  {
    var k := |ps| - 1;
    if p < k {
      PipeWorks(ps[..k], p, x);
      assert ps[p := x][..k] == ps[..k][p := x];
    } else {
      assert ps[p := x][..k] == ps[..k];
    }
  }

  lemma {:induction false} WorkParts(ss: seq<Sender>, ps: seq<Pipe>, n: nat)
    requires forall t :: 0 <= t < |ss| ==> SenderWork(ss[t], n) >= 0
    requires forall p :: 0 <= p < |ps| ==> PipeWork(ps[p]) >= 0
    ensures SendersWork(ss, n) >= 0 && PipesWork(ps) >= 0
    decreases |ss| + |ps|
  {
    if ss != [] {
      WorkParts(ss[..|ss| - 1], ps, n);
    } else if ps != [] {
      WorkParts(ss, ps[..|ps| - 1], n);
    }
  }

  lemma WorkIsNatural(s: State)
    requires Inv(s)
    ensures Work(s) >= 0
  {
    forall t | 0 <= t < |s.senders| ensures SenderWork(s.senders[t], |s.subs|) >= 0 {
      assert PositionOk(s, s.senders[t]);
    }
    forall p | 0 <= p < |s.pipes| ensures PipeWork(s.pipes[p]) >= 0 {
      assert PipeOk(s.pipes[p]);
    }
    WorkParts(s.senders, s.pipes, |s.subs|);
    InUseIsNotFreed(s);
  }

  lemma LoopFinishes(s: State, t: nat, a: SendAction)
    requires Shape(s) && t < |s.senders| && CanSend(s, t, a) && (a.Visit? || a.TestFull?)
    ensures Work(DoSend(s, t, a)) < Work(s)
  {
    var s' := DoSend(s, t, a);
    assert PositionOk(s, s.senders[t]);
    assert a.TestFull? ==> s.subs[s.senders[t].next] in s.subs;
    assert s'.subs == s.subs && s'.pipes == s.pipes && s'.stats == s.stats;
    assert SenderWork(s'.senders[t], |s.subs|) < SenderWork(s.senders[t], |s.subs|);
    SenderWorks(s.senders, t, s'.senders[t], |s.subs|);
  }

  lemma EdgeFinishes(s: State, t: nat, a: SendAction)
    requires Shape(s) && t < |s.senders| && CanSend(s, t, a)
    requires a.Enter? || a.Return? || a.Leave? || a.Unlock? || a.Close?
    ensures Work(DoSend(s, t, a)) < Work(s)
  {
    assert PositionOk(s, s.senders[t]);
    SenderWorks(s.senders, t, DoSend(s, t, a).senders[t], |s.subs|);
  }

  lemma PushFinishes(s: State, t: nat)
    requires Shape(s) && t < |s.senders| && s.senders[t].Pushing?
    ensures Work(DoPush(s, t)) < Work(s)
  {
    var s' := DoPush(s, t);
    assert PositionOk(s, s.senders[t]);
    var p := s.subs[s.senders[t].next];
    SenderWorks(s.senders, t, s'.senders[t], |s.subs|);
    PipeWorks(s.pipes, p, s'.pipes[p]);
  }

  lemma ReaderFinishes(s: State, p: PipeId, a: ReadAction)
    requires Shape(s) && p < |s.pipes| && CanRead(s.pipes[p], a)
    ensures Work(DoRead(s, p, a)) < Work(s)
  {
    assert PipeOk(s.pipes[p]);
    PipeWorks(s.pipes, p, DoRead(s, p, a).pipes[p]);
  }

  lemma FinishingDecreases(s: State, step: Step)
    requires Inv(s) && Enabled(s, step) && Finishing(step)
    ensures 0 <= Work(Apply(s, step)) < Work(s)
  {
    StepInv(s, step);
    WorkIsNatural(Apply(s, step));
    match step
    case PoolStep(_) =>
    case ReadStep(p, a) => ReaderFinishes(s, p, a);
    case SendStep(t, a) =>
      if a.Push? {
        PushFinishes(s, t);
      } else if a.Visit? || a.TestFull? {
        LoopFinishes(s, t, a);
      } else {
        EdgeFinishes(s, t, a);
      }
  }

  /** The step a thread inside `send_buf` is about to take. */
  function NextAction(x: Sender): SendAction
    requires !x.Idle?
  {
    match x
    case Holding(_) => Enter
    case Routing(_, _) => Visit
    case Receiving(_, _) => TestFull
    case Pushing(_, _) => Push
    case Returning(_, _) => Return
    case Leaving(_) => Leave
    case Unlocking(_) => Unlock
    case Closing(_) => Close
  }

  /** Something has been begun and not finished: a thread is inside `send_buf`, a queue or its reader holds a
      handle, or a release is due. What callers hold does not matter. */
  ghost predicate Busy(s: State) {
    || (exists t :: 0 <= t < |s.senders| && s.senders[t] != Idle)
    || (exists p :: 0 <= p < |s.pipes| && !(s.pipes[p].queue == [] && s.pipes[p].consumer == Waiting))
    || (exists b :: 0 <= b < |s.bufs| && s.bufs[b].pending > 0)
  }

  /** There is no deadlock, also while callers hold buffers: where something is unfinished, some thread can go
      on with it. */
  lemma NeverStuck(s: State) returns (step: Step)
    requires Inv(s) && Busy(s)
    ensures Finishing(step) && Enabled(s, step)
  {
    if b :| 0 <= b < |s.bufs| && s.bufs[b].pending > 0 {
      step := PoolStep(PoolRelease(b));
    } else if p :| 0 <= p < |s.pipes| && !(s.pipes[p].queue == [] && s.pipes[p].consumer == Waiting) {
      step := ReadStep(p, match s.pipes[p].consumer
                          case Waiting => CopyFront
                          case Copied(_) => PopFront
                          case Popped(_) => DropFront);
    } else {
      var t :| 0 <= t < |s.senders| && s.senders[t] != Idle;
      var u := if s.lock.Some? then s.lock.value else t;
      step := SendStep(u, NextAction(s.senders[u]));
    }
  }

  ghost predicate NextFinishing(s: State, s': State) {
    exists step :: Finishing(step) && Enabled(s, step) && s' == Apply(s, step)
  }

  ghost predicate FinishingAt(tr: seq<State>, k: nat)
    requires 0 < k < |tr|
  {
    NextFinishing(tr[k - 1], tr[k])
  }

  lemma NextFinishingDecreases(s: State, s': State)
    requires Inv(s) && NextFinishing(s, s')
    ensures 0 <= Work(s') < Work(s)
  {
    var step :| Finishing(step) && Enabled(s, step) && s' == Apply(s, step);
    FinishingDecreases(s, step);
  }

  lemma FinishingLowers(tr: seq<State>, k: nat)
    requires Run(tr) && 0 < k < |tr| && FinishingAt(tr, k)
    ensures 0 <= Work(tr[k]) < Work(tr[k - 1])
  {
    RunInv(tr, k - 1);
    NextFinishingDecreases(tr[k - 1], tr[k]);
  }

  /** From any reachable state, finishing what was begun takes at most `Work` steps, in whatever order the
      threads run. */
  lemma {:induction false} EveryDrainEnds(tr: seq<State>, i: nat, j: nat)
    requires Run(tr) && i <= j < |tr|
    requires forall k :: i < k <= j ==> FinishingAt(tr, k)
    ensures 0 <= Work(tr[j]) <= Work(tr[i]) - (j - i)
  {
    if i == j {
      RunInv(tr, j);
      WorkIsNatural(tr[j]);
    } else {
      EveryDrainEnds(tr, i, j - 1);
      assert FinishingAt(tr, j);
      FinishingLowers(tr, j);
    }
  }

  ghost function OwnedByCallers(s: State): set<BufId> {
    set b: BufId | b < |s.bufs| && s.bufs[b].owned
  }

  lemma IdleHolds(s: State)
    requires Inv(s) && !Busy(s)
    ensures InUse(s) == OwnedByCallers(s)
  {
    forall b: BufId ensures Handles(s, b) == 0 {
      NobodyHolds(s.senders, s.pipes, b);
    }
  }

  /** Where nothing is left to finish, the buffers in use are exactly those that callers hold, so if callers
      hold none the pool has every buffer back: no thread can be left waiting for the lock and no buffer can
      be stranded. */
  lemma DrainedPoolIsWhole(tr: seq<State>, i: nat)
    requires Run(tr) && i < |tr|
    requires forall step :: Finishing(step) ==> !Enabled(tr[i], step)
    ensures InUse(tr[i]) == OwnedByCallers(tr[i]) && tr[i].stats.itemsInUse == |OwnedByCallers(tr[i])|
    ensures tr[i].stats.releaseCount == tr[i].stats.allocCount - |OwnedByCallers(tr[i])|
    ensures forall t :: 0 <= t < |tr[i].senders| ==> tr[i].senders[t] == Idle
  {
    RunInv(tr, i);
    if Busy(tr[i]) {
      var step := NeverStuck(tr[i]);
      assert false;
    }
    IdleHolds(tr[i]);
    InUseIsNotFreed(tr[i]);
  }
}
