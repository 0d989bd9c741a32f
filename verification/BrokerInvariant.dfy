/** The counting invariant of the broker protocol and its preservation by every step. */
module BrokerInvariant {
  import opened Collections
  import opened Pool
  import opened BrokerProtocol

  // ---- who holds a handle --------------------------------------------------------------------------

  ghost function Depth(x: Sender): nat {
    match x
    case Idle => 0
    case Routing(_, _) => 2
    case Receiving(_, _) => 3
    case Pushing(_, _) => 3
    case Returning(_, _) => 3
    case Leaving(_) => 2
    case _ => 1
  }

  ghost function HeldBySender(x: Sender, b: BufId): nat {
    if x.Idle? || x.buf != b then 0 else Depth(x)
  }

  ghost function HeldByPipe(p: Pipe, b: BufId): nat {
    multiset(p.queue)[b] + if p.consumer.Waiting? || p.consumer.buf != b then 0 else 1
  }

  ghost function HeldBySenders(ss: seq<Sender>, b: BufId): nat {
    if ss == [] then 0 else HeldBySenders(ss[..|ss| - 1], b) + HeldBySender(ss[|ss| - 1], b)
  }

  ghost function HeldByPipes(ps: seq<Pipe>, b: BufId): nat {
    if ps == [] then 0 else HeldByPipes(ps[..|ps| - 1], b) + HeldByPipe(ps[|ps| - 1], b)
  }

  /** The number of live handles to `b`: thread locals and parameters, queue slots, consumer copies. */
  ghost function Handles(s: State, b: BufId): nat {
    HeldBySenders(s.senders, b) + HeldByPipes(s.pipes, b)
  }

  lemma {:induction false} SenderMoves(ss: seq<Sender>, t: nat, x: Sender, b: BufId)
    requires t < |ss|
    ensures HeldBySenders(ss[t := x], b) == HeldBySenders(ss, b) - HeldBySender(ss[t], b) + HeldBySender(x, b)
    ensures HeldBySender(ss[t], b) <= HeldBySenders(ss, b)
  {
    var n := |ss| - 1;
    if t < n {
      SenderMoves(ss[..n], t, x, b);
      assert ss[t := x][..n] == ss[..n][t := x];
    } else {
      assert ss[t := x][..n] == ss[..n];
    }
  }

  lemma {:induction false} PipeMoves(ps: seq<Pipe>, p: PipeId, x: Pipe, b: BufId)
    requires p < |ps|
    ensures HeldByPipes(ps[p := x], b) == HeldByPipes(ps, b) - HeldByPipe(ps[p], b) + HeldByPipe(x, b)
    ensures HeldByPipe(ps[p], b) <= HeldByPipes(ps, b)
  {
    var n := |ps| - 1;
    if p < n {
      PipeMoves(ps[..n], p, x, b);
      assert ps[p := x][..n] == ps[..n][p := x];
    } else {
      assert ps[p := x][..n] == ps[..n];
    }
  }

  // ---- reference counts ----------------------------------------------------------------------------

  ghost predicate BufOk(x: Buf, handles: nat) {
    && x.pending + x.frees <= 1
    && (x.owned ==> handles == 0 && x.pending == 0 && x.frees == 0 && x.calls == [])
    && (!x.owned && handles > 0 ==> x.refs == handles && x.pending == 0 && x.frees == 0)
    && (!x.owned && handles == 0 ==> x.pending + x.frees == 1)
  }

  /** The counter in every buffer agrees with the handles that exist. */
  ghost predicate Counted(s: State) {
    && (forall b :: 0 <= b < |s.bufs| ==> BufOk(s.bufs[b], Handles(s, b)))
    && (forall b: BufId :: b >= |s.bufs| ==> Handles(s, b) == 0)
  }

  /** The same counters; the records of calls may differ. */
  ghost predicate SameBut(x: Buf, y: Buf) {
    y == x.(calls := y.calls, kept := y.kept, refused := y.refused)
  }

  /** `s'` has the handles of `s` and `d` more to `b`. */
  ghost predicate HandlesShift(s: State, s': State, b: BufId, d: int) {
    forall x: BufId :: Handles(s', x) == Handles(s, x) + if x == b then d else 0
  }

  lemma CopyCounted(s: State, s': State, b: BufId)
    requires Counted(s) && Handles(s, b) > 0
    requires HandlesShift(s, s', b, 1)
    requires |s'.bufs| == |s.bufs|
    requires forall x :: 0 <= x < |s.bufs| && x != b ==> s'.bufs[x] == s.bufs[x]
    requires b < |s.bufs| ==> SameBut(s.bufs[b].(refs := s.bufs[b].refs + 1), s'.bufs[b])
    ensures Live(s.bufs, b) && Counted(s')
  {
  }

  lemma SameCounted(s: State, s': State, b: BufId)
    requires Counted(s) && |s'.bufs| == |s.bufs| && HandlesShift(s, s', b, 0) && Handles(s, b) > 0
    requires forall x :: 0 <= x < |s.bufs| && x != b ==> s'.bufs[x] == s.bufs[x]
    requires b < |s.bufs| ==> SameBut(s.bufs[b], s'.bufs[b])
    ensures Counted(s')
  {
  }

  lemma DropCounted(s: State, s': State, b: BufId)
    requires Counted(s) && Handles(s, b) > 0
    requires HandlesShift(s, s', b, -1)
    requires s'.bufs == DropHandle(s, b).bufs
    ensures Live(s.bufs, b) && Counted(s')
  {
  }

  // ---- pool counters -------------------------------------------------------------------------------

  ghost function Freed(bufs: seq<Buf>): nat {
    if bufs == [] then 0 else Freed(bufs[..|bufs| - 1]) + bufs[|bufs| - 1].frees
  }

  lemma {:induction false} FreedUpdate(bufs: seq<Buf>, b: BufId, x: Buf)
    requires b < |bufs|
    ensures Freed(bufs[b := x]) == Freed(bufs) - bufs[b].frees + x.frees
  {
    var n := |bufs| - 1;
    if b < n {
      FreedUpdate(bufs[..n], b, x);
      assert bufs[b := x][..n] == bufs[..n][b := x];
    } else {
      assert bufs[b := x][..n] == bufs[..n];
    }
  }

  ghost predicate StatsOk(st: Stats, bufs: seq<Buf>) {
    && st.allocCount == |bufs|
    && st.releaseCount == Freed(bufs)
    && st.itemsInUse == st.allocCount - st.releaseCount
    && st.itemsInUse <= st.waterMark <= st.numItems
  }

  // ---- lock, positions and queues ------------------------------------------------------------------

  predicate InSection(x: Sender) {
    x.Routing? || x.Receiving? || x.Pushing? || x.Returning? || x.Leaving? || x.Unlocking?
  }

  predicate InReceive(x: Sender) {
    x.Receiving? || x.Pushing? || x.Returning?
  }

  ghost predicate PositionOk(s: State, x: Sender) {
    && (x.Routing? ==> x.next <= |s.subs|)
    && (InReceive(x) ==> x.next < |s.subs|)
    && (x.Pushing? ==> s.subs[x.next] < |s.pipes| && |s.pipes[s.subs[x.next]].queue| < s.pipes[s.subs[x.next]].depth)
  }

  ghost predicate PipeOk(p: Pipe) {
    && |p.queue| <= p.depth
    && (p.consumer.Copied? ==> p.queue != [] && p.queue[0] == p.consumer.buf)
    && p.pushed == p.popped + p.queue
  }

  ghost predicate Shape(s: State) {
    && Distinct(s.subs) && (forall p :: p in s.subs ==> p < |s.pipes|)
    && (s.lock.Some? ==> s.lock.value < |s.senders|)
    && (forall t :: 0 <= t < |s.senders| ==> (InSection(s.senders[t]) <==> s.lock == Some(t)))
    && (forall t :: 0 <= t < |s.senders| ==> PositionOk(s, s.senders[t]))
    && (forall p :: 0 <= p < |s.pipes| ==> PipeOk(s.pipes[p]))
  }

  // ---- who was called ------------------------------------------------------------------------------

  ghost predicate Wants(pipes: seq<Pipe>, p: PipeId, id: MsgId) {
    p < |pipes| && pipes[p].Accepts(id)
  }

  /** No edit has changed whether `p` wants `id` since the lock was last taken. */
  ghost predicate Stable(s: State, p: PipeId, id: MsgId) {
    (p, id) !in s.changed
  }

  /** The first `i` subscriptions have been visited: the calls were made in list order, and among the pipes
      that have not changed their mind exactly those that want the message were called. */
  ghost predicate CalledUpTo(s: State, b: BufId, i: nat) {
    && b < |s.bufs| && i <= |s.subs|
    && InOrder(s.bufs[b].calls, s.subs[..i])
    && forall p | Stable(s, p, s.bufs[b].msgId) ::
         p in s.bufs[b].calls <==> p in s.subs[..i] && Wants(s.pipes, p, s.bufs[b].msgId)
  }

  /** Every call but a last one still under way, to `at`, has led to a queued handle or found a full pipe. */
  ghost predicate Settled(x: Buf, at: Option<PipeId>) {
    forall p :: p in x.calls ==> p in x.kept || p in x.refused || at == Some(p)
  }

  ghost predicate Progress(s: State, x: Sender) {
    match x
    case Holding(b) => b < |s.bufs| && s.bufs[b].calls == []
    case Routing(b, i) => CalledUpTo(s, b, i) && Settled(s.bufs[b], None)
    case Receiving(b, i) => CalledUpTo(s, b, i + 1) && Settled(s.bufs[b], Some(s.subs[i]))
    case Pushing(b, i) => CalledUpTo(s, b, i + 1) && Settled(s.bufs[b], Some(s.subs[i]))
    case Returning(b, i) => CalledUpTo(s, b, i + 1) && Settled(s.bufs[b], None)
    case Leaving(b) => CalledUpTo(s, b, |s.subs|) && Settled(s.bufs[b], None)
    case Unlocking(b) => CalledUpTo(s, b, |s.subs|) && Settled(s.bufs[b], None)
    case _ => true
  }

  /** What is recorded as kept did go into that pipe's queue. */
  ghost predicate KeptOk(s: State, b: BufId)
    requires b < |s.bufs|
  {
    forall p :: p in s.bufs[b].kept ==> p < |s.pipes| && b in s.pipes[p].pushed
  }

  ghost predicate Kept(s: State) {
    forall b :: 0 <= b < |s.bufs| ==> KeptOk(s, b)
  }

  ghost predicate Called(s: State) {
    && (forall b :: 0 <= b < |s.bufs| ==> Distinct(s.bufs[b].calls))
    && (forall t :: 0 <= t < |s.senders| ==> Progress(s, s.senders[t]))
    && (forall t, u | 0 <= t < u < |s.senders| && !s.senders[t].Idle? && !s.senders[u].Idle? ::
          s.senders[t].buf != s.senders[u].buf)
  }

  ghost predicate Inv(s: State) {
    && Counted(s)
    && StatsOk(s.stats, s.bufs)
    && Shape(s)
    && Called(s)
    && Kept(s)
    && !s.fault
  }

  // ---- establishment -------------------------------------------------------------------------------

  lemma {:induction false} NobodyHolds(ss: seq<Sender>, ps: seq<Pipe>, b: BufId)
    requires forall t :: 0 <= t < |ss| ==> ss[t] == Idle
    requires forall p :: 0 <= p < |ps| ==> ps[p].queue == [] && ps[p].consumer == Waiting
    ensures HeldBySenders(ss, b) == 0 && HeldByPipes(ps, b) == 0
    decreases |ss| + |ps|
  {
    if ss != [] {
      NobodyHolds(ss[..|ss| - 1], ps, b);
    } else if ps != [] {
      NobodyHolds(ss, ps[..|ps| - 1], b);
    }
  }

  lemma InitInv(s: State)
    requires Init(s)
    ensures Inv(s)
  {
    forall b: BufId ensures Handles(s, b) == 0 {
      NobodyHolds(s.senders, s.pipes, b);
    }
  }

  // ---- preservation: handles and counts ------------------------------------------------------------

  /** A thread that moves on shifts the handles by what its new place holds beyond the old one. */
  lemma SenderShift(s: State, s': State, t: nat)
    requires t < |s.senders| == |s'.senders| && s'.pipes == s.pipes && s'.senders == s.senders[t := s'.senders[t]]
    requires !s.senders[t].Idle?
    requires s'.senders[t].Idle? || s'.senders[t].buf == s.senders[t].buf
    ensures HandlesShift(s, s', s.senders[t].buf, Depth(s'.senders[t]) - Depth(s.senders[t]))
    ensures Handles(s, s.senders[t].buf) >= Depth(s.senders[t]) > 0
  {
    SenderMoves(s.senders, t, s'.senders[t], s.senders[t].buf);
    forall x: BufId {
      SenderMoves(s.senders, t, s'.senders[t], x);
    }
  }

  lemma PipeShift(s: State, s': State, p: PipeId, b: BufId, d: int)
    requires p < |s.pipes| == |s'.pipes| && s'.senders == s.senders && s'.pipes == s.pipes[p := s'.pipes[p]]
    requires forall x: BufId :: HeldByPipe(s'.pipes[p], x) == HeldByPipe(s.pipes[p], x) + if x == b then d else 0
    ensures HandlesShift(s, s', b, d)
    ensures Handles(s, b) >= HeldByPipe(s.pipes[p], b)
  {
    PipeMoves(s.pipes, p, s'.pipes[p], b);
    forall x: BufId {
      PipeMoves(s.pipes, p, s'.pipes[p], x);
    }
  }

  lemma BeginSendCounted(s: State, t: nat, b: BufId, id: MsgId)
    requires Counted(s) && !s.fault && t < |s.senders| && CanSend(s, t, BeginSend(b, id))
    ensures var s' := DoBeginSend(s, t, b, id); Counted(s') && !s'.fault
  {
    var s' := DoBeginSend(s, t, b, id);
    if s' != s {
      forall x: BufId ensures Handles(s', x) == Handles(s, x) + if x == b then 1 else 0 {
        SenderMoves(s.senders, t, s'.senders[t], x);
      }
    }
  }

  /** Entering the broker and entering a pipe each copy the handle. */
  lemma CopyStepCounted(s: State, t: nat, a: SendAction)
    requires Counted(s) && !s.fault && t < |s.senders| && CanSend(s, t, a)
    requires a.Enter? || (a.Visit? && DoSend(s, t, a).senders[t].Receiving?)
    ensures var s' := DoSend(s, t, a); Counted(s') && !s'.fault
  {
    var s' := DoSend(s, t, a);
    SenderShift(s, s', t);
    CopyCounted(s, s', s.senders[t].buf);
  }

  lemma DropStepCounted(s: State, t: nat, a: SendAction)
    requires Counted(s) && !s.fault && t < |s.senders| && CanSend(s, t, a)
    requires a.Return? || a.Leave? || a.Close?
    ensures var s' := DoSend(s, t, a); Counted(s') && !s'.fault
  {
    var s' := DoSend(s, t, a);
    SenderShift(s, s', t);
    DropCounted(s, s', s.senders[t].buf);
  }

  lemma MoveStepCounted(s: State, t: nat, a: SendAction)
    requires Counted(s) && !s.fault && t < |s.senders| && CanSend(s, t, a)
    requires a.Unlock? || (a.Visit? && !DoSend(s, t, a).senders[t].Receiving?)
    ensures var s' := DoSend(s, t, a); Counted(s') && !s'.fault
  {
    var s' := DoSend(s, t, a);
    SenderShift(s, s', t);
    SameCounted(s, s', s.senders[t].buf);
  }

  lemma TestFullCounted(s: State, t: nat)
    requires Counted(s) && Shape(s) && !s.fault && t < |s.senders| && s.senders[t].Receiving?
    ensures var s' := DoTestFull(s, t); Counted(s') && !s'.fault
  {
    var s' := DoTestFull(s, t);
    assert PositionOk(s, s.senders[t]);
    assert s.subs[s.senders[t].next] in s.subs;
    SenderShift(s, s.(senders := s'.senders), t);
    assert s.senders[t].buf < |s.bufs|;
    SenderShift(s, s', t);
    SameCounted(s, s', s.senders[t].buf);
  }

  lemma QueuePush(q: seq<BufId>, b: BufId, x: BufId)
    ensures multiset(q + [b])[x] == multiset(q)[x] + if x == b then 1 else 0
  {
  }

  lemma QueuePop(q: seq<BufId>, x: BufId)
    requires q != []
    ensures multiset(q[1..])[x] == multiset(q)[x] - if x == q[0] then 1 else 0
  {
    assert q == [q[0]] + q[1..];
  }

  lemma PushShift(s: State, s': State, t: nat, p: PipeId, b: BufId)
    requires t < |s.senders| && s.senders[t].Pushing? && s.senders[t].buf == b
    requires s'.senders == s.senders[t := Returning(b, s.senders[t].next)]
    requires p < |s.pipes| == |s'.pipes| && s'.pipes == s.pipes[p := s'.pipes[p]]
    requires s'.pipes[p].queue == s.pipes[p].queue + [b] && s'.pipes[p].consumer == s.pipes[p].consumer
    ensures HandlesShift(s, s', b, 1) && Handles(s, b) > 0
  {
    var mid := s.(pipes := s'.pipes);
    forall x: BufId ensures HeldByPipe(s'.pipes[p], x) == HeldByPipe(s.pipes[p], x) + if x == b then 1 else 0 {
      QueuePush(s.pipes[p].queue, b, x);
    }
    PipeShift(s, mid, p, b, 1);
    SenderShift(mid, s', t);
    SenderMoves(s.senders, t, Idle, b);
  }

  /** The push puts one handle into the queue while the pipe's parameter still exists. */
  lemma PushCounted(s: State, t: nat)
    requires Counted(s) && Shape(s) && !s.fault && t < |s.senders| && s.senders[t].Pushing?
    ensures var s' := DoPush(s, t); Counted(s') && !s'.fault
  {
    var s' := DoPush(s, t);
    var Pushing(b, i) := s.senders[t];
    assert PositionOk(s, s.senders[t]);
    PushShift(s, s', t, s.subs[i], b);
    CopyCounted(s, s', b);
  }

  lemma SendCounted(s: State, t: nat, a: SendAction)
    requires Counted(s) && Shape(s) && !s.fault && t < |s.senders| && CanSend(s, t, a)
    ensures var s' := DoSend(s, t, a); Counted(s') && !s'.fault
  {
    match a
    case BeginSend(b, id) => BeginSendCounted(s, t, b, id);
    case Enter => CopyStepCounted(s, t, a);
    case Visit =>
      if DoSend(s, t, a).senders[t].Receiving? {
        CopyStepCounted(s, t, a);
      } else {
        MoveStepCounted(s, t, a);
      }
    case TestFull => TestFullCounted(s, t);
    case Push => PushCounted(s, t);
    case Return => DropStepCounted(s, t, a);
    case Leave => DropStepCounted(s, t, a);
    case Unlock => MoveStepCounted(s, t, a);
    case Close => DropStepCounted(s, t, a);
  }

  lemma CopyFrontCounted(s: State, p: PipeId)
    requires Counted(s) && !s.fault && p < |s.pipes| && CanRead(s.pipes[p], CopyFront)
    ensures var s' := DoRead(s, p, CopyFront); Counted(s') && !s'.fault
  {
    var s' := DoRead(s, p, CopyFront);
    PipeShift(s, s', p, s.pipes[p].queue[0], 1);
    CopyCounted(s, s', s.pipes[p].queue[0]);
  }

  lemma PopFrontCounted(s: State, p: PipeId)
    requires Counted(s) && !s.fault && p < |s.pipes| && PipeOk(s.pipes[p]) && s.pipes[p].consumer.Copied?
    ensures var s' := DoPopFront(s, p); Counted(s') && !s'.fault
  {
    var s' := DoPopFront(s, p);
    var q := s.pipes[p];
    var b := q.consumer.buf;
    forall x: BufId ensures HeldByPipe(s'.pipes[p], x) == HeldByPipe(q, x) + if x == b then -1 else 0 {
      QueuePop(q.queue, x);
    }
    PipeShift(s, s', p, b, -1);
    DropCounted(s, s', b);
  }

  lemma DropFrontCounted(s: State, p: PipeId)
    requires Counted(s) && !s.fault && p < |s.pipes| && CanRead(s.pipes[p], DropFront)
    ensures var s' := DoRead(s, p, DropFront); Counted(s') && !s'.fault
  {
    var s' := DoRead(s, p, DropFront);
    PipeShift(s, s', p, s.pipes[p].consumer.buf, -1);
    DropCounted(s, s', s.pipes[p].consumer.buf);
  }

  lemma ReadCounted(s: State, p: PipeId, a: ReadAction)
    requires Counted(s) && !s.fault && p < |s.pipes| && PipeOk(s.pipes[p]) && CanRead(s.pipes[p], a)
    ensures var s' := DoRead(s, p, a); Counted(s') && !s'.fault
  {
    match a
    case CopyFront => CopyFrontCounted(s, p);
    case PopFront => PopFrontCounted(s, p);
    case DropFront => DropFrontCounted(s, p);
  }

  lemma PoolCounted(s: State, a: PoolAction)
    requires Counted(s) && CanPool(s, a)
    ensures Counted(DoPool(s, a))
  {
    assert forall b: BufId :: Handles(DoPool(s, a), b) == Handles(s, b);
  }

  lemma EditCounted(s: State, p: PipeId, a: EditAction)
    requires Counted(s) && p < |s.pipes|
    ensures Counted(DoEdit(s, p, a))
  {
    var s' := DoEdit(s, p, a);
    if a.Subscribe? || a.Unsubscribe? {
      PipeShift(s, s', p, 0, 0);
    }
    assert forall b: BufId :: Handles(s', b) == Handles(s, b);
  }

  // ---- preservation: pool counters -----------------------------------------------------------------

  lemma {:induction false} FreedSame(bufs: seq<Buf>, bufs': seq<Buf>)
    requires |bufs| == |bufs'| && forall b :: 0 <= b < |bufs| ==> bufs[b].frees == bufs'[b].frees
    ensures Freed(bufs) == Freed(bufs')
  {
    if bufs != [] {
      FreedSame(bufs[..|bufs| - 1], bufs'[..|bufs| - 1]);
    }
  }

  lemma PoolStats(s: State, a: PoolAction)
    requires Counted(s) && StatsOk(s.stats, s.bufs) && CanPool(s, a)
    ensures var s' := DoPool(s, a); StatsOk(s'.stats, s'.bufs)
  {
    var s' := DoPool(s, a);
    match a
    case Allocate(_, _) =>
      if s.stats.MemAvail() {
        assert s'.bufs[..|s'.bufs| - 1] == s.bufs;
      }
    case ReturnUnused(b) =>
      assert BufOk(s.bufs[b], Handles(s, b));
      FreedUpdate(s.bufs, b, s'.bufs[b]);
    case PoolRelease(b) =>
      assert BufOk(s.bufs[b], Handles(s, b));
      FreedUpdate(s.bufs, b, s'.bufs[b]);
  }

  lemma LoopStats(s: State, t: nat, a: SendAction)
    requires StatsOk(s.stats, s.bufs) && t < |s.senders| && CanSend(s, t, a)
    requires a.BeginSend? || a.Visit? || a.TestFull?
    ensures var s' := DoSend(s, t, a); StatsOk(s'.stats, s'.bufs) && s'.stats == s.stats
  {
    FreedSame(s.bufs, DoSend(s, t, a).bufs);
  }

  lemma EdgeStats(s: State, t: nat, a: SendAction)
    requires StatsOk(s.stats, s.bufs) && t < |s.senders| && CanSend(s, t, a)
    requires a.Enter? || a.Return? || a.Leave? || a.Unlock? || a.Close?
    ensures var s' := DoSend(s, t, a); StatsOk(s'.stats, s'.bufs) && s'.stats == s.stats
  {
    FreedSame(s.bufs, DoSend(s, t, a).bufs);
  }

  lemma SendStats(s: State, t: nat, a: SendAction)
    requires StatsOk(s.stats, s.bufs) && t < |s.senders| && CanSend(s, t, a)
    ensures var s' := DoSend(s, t, a); StatsOk(s'.stats, s'.bufs) && s'.stats == s.stats
  {
    if a.Push? {
      FreedSame(s.bufs, DoPush(s, t).bufs);
    } else if a.BeginSend? || a.Visit? || a.TestFull? {
      LoopStats(s, t, a);
    } else {
      EdgeStats(s, t, a);
    }
  }

  lemma ReadStats(s: State, p: PipeId, a: ReadAction)
    requires StatsOk(s.stats, s.bufs) && p < |s.pipes| && CanRead(s.pipes[p], a)
    ensures var s' := DoRead(s, p, a); StatsOk(s'.stats, s'.bufs) && s'.stats == s.stats
  {
    FreedSame(s.bufs, DoRead(s, p, a).bufs);
  }

  // ---- preservation: lock, positions, queues -------------------------------------------------------

  /** One pipe changed, without its queue growing. */
  lemma PipeChanged(s: State, s': State, p: PipeId)
    requires Shape(s) && p < |s.pipes| == |s'.pipes| && s'.pipes == s.pipes[p := s'.pipes[p]]
    requires s'.subs == s.subs && s'.senders == s.senders && s'.lock == s.lock
    requires PipeOk(s.pipes[p]) ==> PipeOk(s'.pipes[p])
    requires |s'.pipes[p].queue| <= |s.pipes[p].queue| && s'.pipes[p].depth == s.pipes[p].depth
    ensures Shape(s')
  {
    forall u | 0 <= u < |s'.senders| ensures PositionOk(s', s'.senders[u]) {
      assert PositionOk(s, s.senders[u]);
    }
  }

  /** One thread moved, taking or releasing the lock with it if it crossed the section's border. */
  lemma SenderMoved(s: State, s': State, t: nat)
    requires Shape(s) && t < |s.senders| == |s'.senders| && s'.senders == s.senders[t := s'.senders[t]]
    requires s'.subs == s.subs && s'.pipes == s.pipes
    requires PositionOk(s, s.senders[t]) ==> PositionOk(s', s'.senders[t])
    requires if InSection(s.senders[t]) == InSection(s'.senders[t]) then s'.lock == s.lock
             else if InSection(s.senders[t]) then s'.lock == None
             else s.lock == None && s'.lock == Some(t)
    ensures Shape(s')
  {
    forall u | 0 <= u < |s'.senders| ensures PositionOk(s', s'.senders[u]) {
      assert PositionOk(s, s.senders[u]);
    }
  }

  lemma PushShape(s: State, t: nat)
    requires Shape(s) && t < |s.senders| && s.senders[t].Pushing?
    ensures Shape(DoPush(s, t))
  {
    var s' := DoPush(s, t);
    assert PositionOk(s, s.senders[t]);
    assert PipeOk(s.pipes[s.subs[s.senders[t].next]]);
    forall u | 0 <= u < |s'.senders| ensures PositionOk(s', s'.senders[u]) {
      assert PositionOk(s, s.senders[u]);
    }
  }

  lemma LoopShape(s: State, t: nat, a: SendAction)
    requires Shape(s) && t < |s.senders| && CanSend(s, t, a) && (a.Visit? || a.TestFull?)
    ensures Shape(DoSend(s, t, a))
  {
    assert PositionOk(s, s.senders[t]);
    SenderMoved(s, DoSend(s, t, a), t);
  }

  lemma EdgeShape(s: State, t: nat, a: SendAction)
    requires Shape(s) && t < |s.senders| && CanSend(s, t, a)
    requires a.Enter? || a.Return? || a.Leave? || a.Unlock? || a.Close?
    ensures Shape(DoSend(s, t, a))
  {
    SenderMoved(s, DoSend(s, t, a), t);
  }

  lemma SendShape(s: State, t: nat, a: SendAction)
    requires Shape(s) && t < |s.senders| && CanSend(s, t, a)
    ensures Shape(DoSend(s, t, a))
  {
    if a.Push? {
      PushShape(s, t);
    } else if a.BeginSend? {
      SenderMoved(s, DoBeginSend(s, t, a.buf, a.id), t);
    } else if a.Visit? || a.TestFull? {
      LoopShape(s, t, a);
    } else {
      EdgeShape(s, t, a);
    }
  }

  lemma ReadShape(s: State, p: PipeId, a: ReadAction)
    requires Shape(s) && p < |s.pipes| && CanRead(s.pipes[p], a)
    ensures Shape(DoRead(s, p, a))
  {
    assert PipeOk(s.pipes[p]);
    PipeChanged(s, DoRead(s, p, a), p);
  }

  lemma EditShape(s: State, p: PipeId, a: EditAction)
    requires Shape(s) && p < |s.pipes| && (a.Register? || a.Unregister? ==> s.lock == None)
    ensures Shape(DoEdit(s, p, a))
  {
    match a
    case Register => LinkKeepsDistinct(s.subs, p);
    case Unregister =>
      UnlinkKeepsDistinct(s.subs, p);
      WithoutMembers(s.subs, p);
    case _ => PipeChanged(s, DoEdit(s, p, a), p);
  }

  // ---- preservation: calls -------------------------------------------------------------------------

  ghost predicate SameRecord(x: Buf, y: Buf) {
    y.calls == x.calls && y.kept == x.kept && y.refused == x.refused && y.msgId == x.msgId
  }

  /** A step that leaves the call records as they were, and what the pipes want as far as it is not marked
      as changed. */
  ghost predicate Recorded(s: State, s': State) {
    && |s'.bufs| >= |s.bufs|
    && (forall b :: 0 <= b < |s.bufs| ==> SameRecord(s.bufs[b], s'.bufs[b]))
    && (forall b :: |s.bufs| <= b < |s'.bufs| ==> s'.bufs[b].calls == s'.bufs[b].kept == [])
    && |s'.pipes| == |s.pipes| && (forall p :: 0 <= p < |s.pipes| ==> s'.pipes[p].pushed == s.pipes[p].pushed)
    && s.changed <= s'.changed
    && (forall p, id | Stable(s', p, id) :: Wants(s'.pipes, p, id) == Wants(s.pipes, p, id))
  }

  lemma CalledKept(s: State, s': State, b: BufId, i: nat)
    requires CalledUpTo(s, b, i) && Recorded(s, s') && s'.subs == s.subs
    ensures CalledUpTo(s', b, i)
  {
    var id := s.bufs[b].msgId;
    forall p | Stable(s', p, id) ensures p in s'.bufs[b].calls <==> p in s'.subs[..i] && Wants(s'.pipes, p, id) {
      assert Stable(s, p, id);
    }
  }

  lemma ProgressKept(s: State, s': State, x: Sender)
    requires Progress(s, x) && Recorded(s, s') && (s'.subs == s.subs || !InSection(x))
    ensures Progress(s', x)
  {
    match x
    case Routing(b, i) => CalledKept(s, s', b, i);
    case Receiving(b, i) => CalledKept(s, s', b, i + 1);
    case Pushing(b, i) => CalledKept(s, s', b, i + 1);
    case Returning(b, i) => CalledKept(s, s', b, i + 1);
    case Leaving(b) => CalledKept(s, s', b, |s.subs|);
    case Unlocking(b) => CalledKept(s, s', b, |s.subs|);
    case _ =>
  }

  lemma NoSenderMoves(s: State, s': State)
    requires Shape(s) && Called(s) && Recorded(s, s') && s'.senders == s.senders
    requires s'.subs == s.subs || s.lock == None
    ensures Called(s')
  {
    forall u | 0 <= u < |s.senders| ensures Progress(s', s'.senders[u]) {
      ProgressKept(s, s', s.senders[u]);
    }
  }

  /** A thread moves while the records stand still; its own claim must hold where it arrives. */
  lemma OneSenderMoves(s: State, s': State, t: nat)
    requires Called(s) && Recorded(s, s') && s'.subs == s.subs
    requires t < |s.senders| == |s'.senders| && s'.senders == s.senders[t := s'.senders[t]]
    requires !s.senders[t].Idle? && (s'.senders[t].Idle? || s'.senders[t].buf == s.senders[t].buf)
    requires Progress(s', s.senders[t]) ==> Progress(s', s'.senders[t])
    ensures Called(s')
  {
    forall u | 0 <= u < |s.senders| ensures Progress(s', s'.senders[u]) {
      ProgressKept(s, s', s.senders[u]);
    }
  }

  /** The element at `i` of a list without duplicates is not among the earlier ones. */
  lemma NotEarlier(subs: seq<PipeId>, i: nat)
    requires Distinct(subs) && i < |subs|
    ensures subs[i] !in subs[..i]
  {
  }

  /** A visit that calls the pipe at `i`, or passes it over because it does not want the message. */
  lemma CalledNext(s: State, s': State, b: BufId, i: nat, call: bool)
    requires Distinct(s.subs) && i < |s.subs| && CalledUpTo(s, b, i)
    requires s'.subs == s.subs && s'.pipes == s.pipes && s'.changed == s.changed && b < |s'.bufs|
    requires s'.bufs[b].msgId == s.bufs[b].msgId && call == Wants(s.pipes, s.subs[i], s.bufs[b].msgId)
    requires s'.bufs[b].calls == s.bufs[b].calls + if call then [s.subs[i]] else []
    ensures CalledUpTo(s', b, i + 1)
  {
    var x, calls := s.subs[i], s.bufs[b].calls;
    NotEarlier(s.subs, i);
    assert s.subs[..i + 1] == s.subs[..i] + [x];
    InOrderMembers(calls, s.subs[..i]);
    if call {
      InOrderTake(calls, s.subs[..i], x);
    } else {
      assert s'.bufs[b].calls == calls;
      InOrderSkip(calls, s.subs[..i], x);
    }
    forall p | Stable(s', p, s.bufs[b].msgId)
      ensures p in s'.bufs[b].calls <==> p in s.subs[..i + 1] && Wants(s.pipes, p, s.bufs[b].msgId)
    {
      assert Stable(s, p, s.bufs[b].msgId);
    }
  }

  lemma CallsDistinct(s: State, x: Sender)
    requires Distinct(s.subs) && InSection(x) && Progress(s, x)
    ensures Distinct(s.bufs[x.buf].calls) && forall p :: p in s.bufs[x.buf].calls ==> p in s.subs
  {
    var i := if x.Routing? then x.next else if InReceive(x) then x.next + 1 else |s.subs|;
    assert CalledUpTo(s, x.buf, i);
    InOrderMembers(s.bufs[x.buf].calls, s.subs[..i]);
  }

  lemma VisitProgress(s: State, t: nat)
    requires Shape(s) && Called(s) && t < |s.senders| && s.senders[t].Routing?
    ensures var s' := DoVisit(s, t); Progress(s', s'.senders[t])
  {
    var s' := DoVisit(s, t);
    var Routing(b, i) := s.senders[t];
    assert Progress(s, s.senders[t]) && PositionOk(s, s.senders[t]);
    if i < |s.subs| {
      assert s.subs[i] in s.subs;
      CalledNext(s, s', b, i, s'.senders[t].Receiving?);
    } else {
      CalledKept(s, s', b, i);
    }
  }

  /** The thread in the delivery loop changes the records of its own buffer only. */
  lemma OwnerMoves(s: State, s': State, t: nat)
    requires Shape(s) && Called(s) && t < |s.senders| == |s'.senders| && s'.senders == s.senders[t := s'.senders[t]]
    requires InSection(s.senders[t]) && InSection(s'.senders[t]) && s'.senders[t].buf == s.senders[t].buf
    requires |s'.bufs| == |s.bufs| && s'.subs == s.subs && s.senders[t].buf < |s.bufs|
    requires forall x :: 0 <= x < |s.bufs| && x != s.senders[t].buf ==> s'.bufs[x] == s.bufs[x]
    requires Progress(s', s'.senders[t])
    ensures Called(s')
  {
    var b := s.senders[t].buf;
    CallsDistinct(s', s'.senders[t]);
    forall u | 0 <= u < |s.senders| && u != t ensures Progress(s', s'.senders[u]) {
      assert Progress(s, s.senders[u]);
      assert !InSection(s.senders[u]);
      assert !s.senders[u].Idle? ==> s.senders[u].buf != b;
    }
  }

  lemma TestFullProgress(s: State, t: nat)
    requires Shape(s) && Called(s) && t < |s.senders| && s.senders[t].Receiving?
    ensures var s' := DoTestFull(s, t);
            Progress(s', s'.senders[t])
  {
    assert Progress(s, s.senders[t]) && PositionOk(s, s.senders[t]);
    assert s.subs[s.senders[t].next] in s.subs;
  }

  lemma PushProgress(s: State, t: nat)
    requires Shape(s) && Called(s) && t < |s.senders| && s.senders[t].Pushing?
    ensures var s' := DoPush(s, t);
            Progress(s', s'.senders[t])
  {
    var s' := DoPush(s, t);
    var Pushing(b, i) := s.senders[t];
    assert Progress(s, s.senders[t]) && PositionOk(s, s.senders[t]);
    assert s.subs[i] in s.subs;
    assert forall p, id :: Wants(s'.pipes, p, id) == Wants(s.pipes, p, id);
  }

  lemma LoopCalled(s: State, t: nat, a: SendAction)
    requires Shape(s) && Called(s) && t < |s.senders| && CanSend(s, t, a)
    requires a.Visit? || a.TestFull? || a.Push?
    ensures Called(DoSend(s, t, a))
  {
    assert Progress(s, s.senders[t]) && PositionOk(s, s.senders[t]);
    match a {
      case Visit => VisitProgress(s, t);
      case TestFull => TestFullProgress(s, t);
      case Push => PushProgress(s, t);
    }
    assert !a.Visit? ==> s.subs[s.senders[t].next] in s.subs;
    OwnerMoves(s, DoSend(s, t, a), t);
  }

  /** A buffer that its caller still owns is in no other thread's hands. */
  lemma OwnedIsUnheld(s: State, b: BufId, u: nat)
    requires Counted(s) && b < |s.bufs| && s.bufs[b].owned && u < |s.senders| && !s.senders[u].Idle?
    ensures s.senders[u].buf != b
  {
    assert BufOk(s.bufs[b], Handles(s, b));
    SenderMoves(s.senders, u, Idle, b);
  }

  lemma BeginSendCalled(s: State, t: nat, b: BufId, id: MsgId)
    requires Counted(s) && Shape(s) && Called(s) && t < |s.senders| && CanSend(s, t, BeginSend(b, id))
    ensures Called(DoBeginSend(s, t, b, id))
  {
    var s' := DoBeginSend(s, t, b, id);
    assert BufOk(s.bufs[b], Handles(s, b));
    forall u | 0 <= u < |s.senders| && u != t && !s.senders[u].Idle?
      ensures s.senders[u].buf != b && Progress(s', s'.senders[u])
    {
      OwnedIsUnheld(s, b, u);
      assert Progress(s, s.senders[u]);
    }
  }

  lemma EnterCalled(s: State, t: nat)
    requires Shape(s) && Called(s) && t < |s.senders| && CanSend(s, t, Enter)
    ensures Called(DoSend(s, t, Enter))
  {
    var s' := DoSend(s, t, Enter);
    assert Progress(s, s.senders[t]);
    assert s.subs[..0] == [];
    forall u | 0 <= u < |s.senders| && u != t ensures Progress(s', s'.senders[u]) {
      assert Progress(s, s.senders[u]);
      assert !InSection(s.senders[u]);
    }
  }

  lemma DropCalled(s: State, t: nat, a: SendAction)
    requires Shape(s) && Called(s) && t < |s.senders| && CanSend(s, t, a)
    requires a.Return? || a.Leave? || a.Unlock? || a.Close?
    ensures Called(DoSend(s, t, a))
  {
    assert PositionOk(s, s.senders[t]);
    OneSenderMoves(s, DoSend(s, t, a), t);
  }

  lemma SendCalled(s: State, t: nat, a: SendAction)
    requires Counted(s) && Shape(s) && Called(s) && t < |s.senders| && CanSend(s, t, a)
    ensures Called(DoSend(s, t, a))
  {
    match a
    case BeginSend(b, id) => BeginSendCalled(s, t, b, id);
    case Enter => EnterCalled(s, t);
    case Visit => LoopCalled(s, t, a);
    case TestFull => LoopCalled(s, t, a);
    case Push => LoopCalled(s, t, a);
    case Unlock => DropCalled(s, t, a);
    case Return => DropCalled(s, t, a);
    case Leave => DropCalled(s, t, a);
    case Close => DropCalled(s, t, a);
  }

  /** Nothing but a push adds to the record of kept handles, and histories of queues only grow. */
  lemma KeptStays(s: State, s': State)
    requires Kept(s) && |s'.bufs| >= |s.bufs| && |s'.pipes| == |s.pipes|
    requires forall b :: 0 <= b < |s.bufs| ==> s'.bufs[b].kept == s.bufs[b].kept
    requires forall b :: |s.bufs| <= b < |s'.bufs| ==> s'.bufs[b].kept == []
    requires forall p :: 0 <= p < |s.pipes| ==> s'.pipes[p].pushed == s.pipes[p].pushed
    ensures Kept(s')
  {
    forall b | 0 <= b < |s'.bufs| ensures KeptOk(s', b) {
      assert b < |s.bufs| ==> KeptOk(s, b);
    }
  }

  lemma PushKept(s: State, t: nat)
    requires Shape(s) && Called(s) && Kept(s) && t < |s.senders| && s.senders[t].Pushing?
    ensures Kept(DoPush(s, t))
  {
    var s' := DoPush(s, t);
    var Pushing(x, i) := s.senders[t];
    assert Progress(s, s.senders[t]) && PositionOk(s, s.senders[t]);
    forall b | 0 <= b < |s'.bufs| ensures KeptOk(s', b) {
      assert KeptOk(s, b);
    }
  }

  lemma PoolKept(s: State, a: PoolAction)
    requires Kept(s) && CanPool(s, a)
    ensures Kept(DoPool(s, a))
  {
    KeptStays(s, DoPool(s, a));
  }

  lemma SendKept(s: State, t: nat, a: SendAction)
    requires Shape(s) && Called(s) && Kept(s) && t < |s.senders| && CanSend(s, t, a)
    ensures Kept(DoSend(s, t, a))
  {
    if a.Push? {
      PushKept(s, t);
    } else {
      KeptStays(s, DoSend(s, t, a));
    }
  }

  lemma ReadKept(s: State, p: PipeId, a: ReadAction)
    requires Kept(s) && p < |s.pipes| && CanRead(s.pipes[p], a)
    ensures Kept(DoRead(s, p, a))
  {
    KeptStays(s, DoRead(s, p, a));
  }

  // ---- every step ----------------------------------------------------------------------------------

  lemma PoolShape(s: State, a: PoolAction)
    requires Shape(s) && CanPool(s, a)
    ensures Shape(DoPool(s, a)) && DoPool(s, a).fault == s.fault
  {
  }

  lemma PoolInv(s: State, a: PoolAction)
    requires Inv(s) && CanPool(s, a)
    ensures Inv(DoPool(s, a))
  {
    PoolCounted(s, a);
    PoolStats(s, a);
    PoolShape(s, a);
    PoolCalled(s, a);
    PoolKept(s, a);
  }

  lemma SendInv(s: State, t: nat, a: SendAction)
    requires Inv(s) && t < |s.senders| && CanSend(s, t, a)
    ensures Inv(DoSend(s, t, a))
  {
    SendCounted(s, t, a);
    SendStats(s, t, a);
    SendShape(s, t, a);
    SendCalled(s, t, a);
    SendKept(s, t, a);
  }

  lemma ReadRecorded(s: State, p: PipeId, a: ReadAction)
    requires p < |s.pipes| && CanRead(s.pipes[p], a)
    ensures Recorded(s, DoRead(s, p, a))
  {
    var s' := DoRead(s, p, a);
    assert s'.changed == s.changed;
    assert forall q :: 0 <= q < |s.pipes| ==> s'.pipes[q].ids == s.pipes[q].ids;
  }

  lemma ReadCalled(s: State, p: PipeId, a: ReadAction)
    requires Shape(s) && Called(s) && p < |s.pipes| && CanRead(s.pipes[p], a)
    ensures Called(DoRead(s, p, a))
  {
    ReadRecorded(s, p, a);
    NoSenderMoves(s, DoRead(s, p, a));
  }

  lemma PoolCalled(s: State, a: PoolAction)
    requires Shape(s) && Called(s) && CanPool(s, a)
    ensures Called(DoPool(s, a))
  {
    NoSenderMoves(s, DoPool(s, a));
  }

  lemma ReadInv(s: State, p: PipeId, a: ReadAction)
    requires Inv(s) && p < |s.pipes| && CanRead(s.pipes[p], a)
    ensures Inv(DoRead(s, p, a))
  {
    assert PipeOk(s.pipes[p]);
    ReadCounted(s, p, a);
    ReadStats(s, p, a);
    ReadShape(s, p, a);
    ReadCalled(s, p, a);
    ReadKept(s, p, a);
  }

  /** An edit marks the pipe as changed exactly if what it wants did change. */
  lemma EditCalled(s: State, p: PipeId, a: EditAction)
    requires Shape(s) && Called(s) && p < |s.pipes| && (a.Register? || a.Unregister? ==> s.lock == None)
    ensures Called(DoEdit(s, p, a))
  {
    var s' := DoEdit(s, p, a);
    if a.Unsubscribe? {
      WithoutMembers(s.pipes[p].ids, a.id);
    }
    forall q: PipeId, id: MsgId | Stable(s', q, id) ensures Wants(s'.pipes, q, id) == Wants(s.pipes, q, id) {
      assert q != p && q < |s.pipes| ==> s'.pipes[q] == s.pipes[q];
    }
    NoSenderMoves(s, s');
  }

  lemma EditInv(s: State, p: PipeId, a: EditAction)
    requires Inv(s) && p < |s.pipes| && (a.Register? || a.Unregister? ==> s.lock == None)
    ensures Inv(DoEdit(s, p, a))
  {
    EditCounted(s, p, a);
    EditShape(s, p, a);
    EditCalled(s, p, a);
    KeptStays(s, DoEdit(s, p, a));
  }

  lemma StepInv(s: State, step: Step)
    requires Inv(s) && Enabled(s, step)
    ensures Inv(Apply(s, step))
  {
    match step
    case PoolStep(a) => PoolInv(s, a);
    case SendStep(t, a) => SendInv(s, t, a);
    case ReadStep(p, a) => ReadInv(s, p, a);
    case EditStep(p, a) => EditInv(s, p, a);
  }
}
