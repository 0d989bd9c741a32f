/** The zero-copy broker as a transition system: any number of sender threads, one consumer per pipe,
    one buffer pool. Each step is one thing a thread does between two points where another may run. */
module BrokerProtocol {
  import opened Collections
  import opened Pool

  type BufId = nat    // position in allocation order
  type PipeId = nat
  type MsgId = nat

  /** A pool buffer. `refs` and `size` are the fields of `Buf`; `owned` says that the caller of the
      allocation still has the raw pointer and no handle was made yet. `pending` counts drops that reached
      zero and have not yet run `Buf::release`, `frees` the completed releases. `calls` records, in order,
      the pipes whose `receive` was called with this buffer, `kept` those that queued it, `refused` those
      that were full. */
  datatype Buf = Buf(size: nat, msgId: MsgId, owned: bool, refs: int, pending: nat, frees: nat,
                     calls: seq<PipeId>, kept: seq<PipeId>, refused: seq<PipeId>)

  /** Where a thread is inside `send_buf`. `next` is the position in the subscription list. */
  datatype Sender =
    | Idle
    | Holding(buf: BufId)              // SharedMsg built, lock not yet taken
    | Routing(buf: BufId, next: nat)   // in `receive`, which has its own by-value handle
    | Receiving(buf: BufId, next: nat) // in the pipe's `receive`, before the full() test
    | Pushing(buf: BufId, next: nat)   // full() was false, push comes next
    | Returning(buf: BufId, next: nat) // the pipe's parameter is about to go
    | Leaving(buf: BufId)              // list exhausted, the broker's parameter is about to go
    | Unlocking(buf: BufId)
    | Closing(buf: BufId)              // lock released, SharedMsg about to go

  /** A queued pipe's reader: `sm = q.front()`, then `q.pop()`, then the end of sm's scope. */
  datatype Consumer = Waiting | Copied(buf: BufId) | Popped(buf: BufId)

  /** A pipe with its subscription. A synchronous pipe is one of depth 0: it keeps no handle. `pushed` and
      `popped` are the histories of its queue. */
  datatype Pipe = Pipe(ids: seq<MsgId>, depth: nat, queue: seq<BufId>, consumer: Consumer,
                       pushed: seq<BufId>, popped: seq<BufId>) {
    predicate Accepts(id: MsgId) { id in ids }
  }

  /** `changed` holds the pipes that came to want an ID, or ceased to, since a sender last took the lock;
      `entered` the buffers in the order in which senders took the lock with them. `fault` is set by any use
      of a handle whose buffer is gone, and by a pop that does not find the expected head. */
  datatype State = State(
    minSize: nat,
    stats: Stats,
    allocFailures: nat,
    bufs: seq<Buf>,
    senders: seq<Sender>,
    lock: Option<nat>,
    subs: seq<PipeId>,
    pipes: seq<Pipe>,
    changed: set<(PipeId, MsgId)>,
    entered: seq<BufId>,
    fault: bool)

  datatype PoolAction = Allocate(size: nat, counted: bool) | ReturnUnused(buf: BufId) | PoolRelease(buf: BufId)

  datatype SendAction = BeginSend(buf: BufId, id: MsgId) | Enter | Visit | TestFull | Push | Return | Leave | Unlock | Close

  datatype ReadAction = CopyFront | PopFront | DropFront

  datatype EditAction = Register | Unregister | Subscribe(id: MsgId) | Unsubscribe(id: MsgId)

  datatype Step =
    | PoolStep(pool: PoolAction)
    | SendStep(thread: nat, send: SendAction)
    | ReadStep(reader: PipeId, read: ReadAction)
    | EditStep(pipe: PipeId, edit: EditAction)

  ghost predicate Init(s: State) {
    && s.stats == Stats(s.stats.numItems, 0, 0, 0, 0)
    && s.allocFailures == 0 && s.bufs == [] && s.lock == None && s.subs == [] && s.changed == {} && s.entered == [] && !s.fault
    && (forall t :: 0 <= t < |s.senders| ==> s.senders[t] == Idle)
    && (forall p :: 0 <= p < |s.pipes| ==> Untouched(s.pipes[p]))
  }

  predicate Untouched(p: Pipe) {
    p.queue == [] && p.consumer == Waiting && p.pushed == [] && p.popped == []
  }

  // ---- handles -------------------------------------------------------------------------------------

  predicate Live(bufs: seq<Buf>, b: BufId) {
    b < |bufs| && !bufs[b].owned && bufs[b].pending == 0 && bufs[b].frees == 0
  }

  /** Copy construction of a handle. */
  function CopyHandle(s: State, b: BufId): State {
    if b < |s.bufs| then
      s.(bufs := s.bufs[b := s.bufs[b].(refs := s.bufs[b].refs + 1)], fault := s.fault || !Live(s.bufs, b))
    else
      s.(fault := true)
  }

  /** Destruction of a handle; the one that finds zero owes the pool a release. */
  function DropHandle(s: State, b: BufId): State {
    if b < |s.bufs| then
      var buf := s.bufs[b].(refs := s.bufs[b].refs - 1);
      s.(bufs := s.bufs[b := if buf.refs == 0 then buf.(pending := buf.pending + 1) else buf],
         fault := s.fault || !Live(s.bufs, b))
    else
      s.(fault := true)
  }

  function RecordCall(s: State, b: BufId, p: PipeId): State {
    if b < |s.bufs| then s.(bufs := s.bufs[b := s.bufs[b].(calls := s.bufs[b].calls + [p])]) else s.(fault := true)
  }

  function RecordKept(s: State, b: BufId, p: PipeId): State {
    if b < |s.bufs| then s.(bufs := s.bufs[b := s.bufs[b].(kept := s.bufs[b].kept + [p])]) else s.(fault := true)
  }

  function RecordRefused(s: State, b: BufId, p: PipeId): State {
    if b < |s.bufs| then s.(bufs := s.bufs[b := s.bufs[b].(refused := s.bufs[b].refused + [p])]) else s.(fault := true)
  }

  function At(s: State, t: nat, where: Sender): State
    requires t < |s.senders|
  {
    s.(senders := s.senders[t := where])
  }

  // ---- steps ---------------------------------------------------------------------------------------

  /** When a thread can take a step: where it is in the code, whether the lock is free, and the two rules
      the API states for callers (send or return a buffer at most once, and only your own). */
  predicate Enabled(s: State, step: Step) {
    match step
    case PoolStep(a) => CanPool(s, a)
    case SendStep(t, a) => t < |s.senders| && CanSend(s, t, a)
    case ReadStep(p, a) => p < |s.pipes| && CanRead(s.pipes[p], a)
    case EditStep(p, a) => p < |s.pipes| && (a.Register? || a.Unregister? ==> s.lock == None)
  }

  predicate CanPool(s: State, a: PoolAction) {
    match a
    case Allocate(_, _) => true
    case ReturnUnused(b) => b < |s.bufs| && s.bufs[b].owned
    case PoolRelease(b) => b < |s.bufs| && s.bufs[b].pending > 0
  }

  predicate CanSend(s: State, t: nat, a: SendAction)
    requires t < |s.senders|
  {
    var x := s.senders[t];
    match a
    case BeginSend(b, _) => x.Idle? && b < |s.bufs| && s.bufs[b].owned
    case Enter => x.Holding? && s.lock == None
    case Visit => x.Routing?
    case TestFull => x.Receiving?
    case Push => x.Pushing?
    case Return => x.Returning?
    case Leave => x.Leaving?
    case Unlock => x.Unlocking?
    case Close => x.Closing?
  }

  predicate CanRead(p: Pipe, a: ReadAction) {
    match a
    case CopyFront => p.consumer.Waiting? && p.queue != []
    case PopFront => p.consumer.Copied?
    case DropFront => p.consumer.Popped?
  }

  function Apply(s: State, step: Step): State
    requires Enabled(s, step)
  {
    match step
    case PoolStep(a) => DoPool(s, a)
    case SendStep(t, a) => DoSend(s, t, a)
    case ReadStep(p, a) => DoRead(s, p, a)
    case EditStep(p, a) => DoEdit(s, p, a)
  }

  function DoPool(s: State, a: PoolAction): State
    requires CanPool(s, a)
  {
    match a
    case Allocate(size, counted) => DoAllocate(s, size, counted)
    case ReturnUnused(b) =>
      s.(bufs := s.bufs[b := s.bufs[b].(owned := false, frees := s.bufs[b].frees + 1)], stats := s.stats.Released())
    case PoolRelease(b) =>
      s.(bufs := s.bufs[b := s.bufs[b].(pending := s.bufs[b].pending - 1, frees := s.bufs[b].frees + 1)],
         stats := s.stats.Released())
  }

  function DoSend(s: State, t: nat, a: SendAction): State
    requires t < |s.senders| && CanSend(s, t, a)
  {
    match a
    case BeginSend(b, id) => DoBeginSend(s, t, b, id)
    case Enter =>
      var b := s.senders[t].buf;
      At(CopyHandle(s.(lock := Some(t), changed := {}, entered := s.entered + [b]), b), t, Routing(b, 0))
    case Visit => DoVisit(s, t)
    case TestFull => DoTestFull(s, t)
    case Push => DoPush(s, t)
    case Return => At(DropHandle(s, s.senders[t].buf), t, Routing(s.senders[t].buf, s.senders[t].next + 1))
    case Leave => At(DropHandle(s, s.senders[t].buf), t, Unlocking(s.senders[t].buf))
    case Unlock => At(s.(lock := None), t, Closing(s.senders[t].buf))
    case Close => At(DropHandle(s, s.senders[t].buf), t, Idle)
  }

  function DoRead(s: State, p: PipeId, a: ReadAction): State
    requires p < |s.pipes| && CanRead(s.pipes[p], a)
  {
    match a
    case CopyFront =>
      var b := s.pipes[p].queue[0];
      CopyHandle(SetPipe(s, p, s.pipes[p].(consumer := Copied(b))), b)
    case PopFront => DoPopFront(s, p)
    case DropFront => DropHandle(SetPipe(s, p, s.pipes[p].(consumer := Waiting)), s.pipes[p].consumer.buf)
  }

  function DoEdit(s: State, p: PipeId, a: EditAction): State
    requires p < |s.pipes|
  {
    match a
    case Register => s.(subs := Link(s.subs, p))
    case Unregister => s.(subs := Without(s.subs, p))
    case Subscribe(id) => SetIds(s, p, id, s.pipes[p].ids + [id])
    case Unsubscribe(id) => SetIds(s, p, id, Without(s.pipes[p].ids, id))
  }

  function SetIds(s: State, p: PipeId, id: MsgId, ids: seq<MsgId>): State
    requires p < |s.pipes|
  {
    SetPipe(s, p, s.pipes[p].(ids := ids)).(changed := if (id in ids) == (id in s.pipes[p].ids) then s.changed
                                                       else s.changed + {(p, id)})
  }

  function SetPipe(s: State, p: PipeId, pipe: Pipe): State
    requires p < |s.pipes|
  {
    s.(pipes := s.pipes[p := pipe])
  }

  /** `allocate` under the pool lock; `Broker::send` counts a failure, `get_message_buf` does not. */
  function DoAllocate(s: State, size: nat, counted: bool): State {
    if s.stats.MemAvail() then
      s.(stats := s.stats.Acquired(), bufs := s.bufs + [Buf(size, 0, true, 1, 0, 0, [], [], [])])
    else if counted then s.(allocFailures := s.allocFailures + 1)
    else s
  }

  /** `send_buf` up to the lock: a buffer too small for a message is left alone, else a handle is made and
      the count set to 1. `id` is what the caller wrote into the buffer. */
  function DoBeginSend(s: State, t: nat, b: BufId, id: MsgId): State
    requires t < |s.senders| && b < |s.bufs|
  {
    if s.bufs[b].size >= s.minSize then
      At(s.(bufs := s.bufs[b := s.bufs[b].(msgId := id, owned := false, refs := 1)]), t, Holding(b))
    else s
  }

  /** One turn of the subscription loop. */
  function DoVisit(s: State, t: nat): State
    requires t < |s.senders| && s.senders[t].Routing?
  {
    var Routing(b, i) := s.senders[t];
    if i >= |s.subs| then At(s, t, Leaving(b))
    else if s.subs[i] < |s.pipes| && b < |s.bufs| && s.pipes[s.subs[i]].Accepts(s.bufs[b].msgId) then
      At(RecordCall(CopyHandle(s, b), b, s.subs[i]), t, Receiving(b, i))
    else At(s, t, Routing(b, i + 1))
  }

  function DoTestFull(s: State, t: nat): State
    requires t < |s.senders| && s.senders[t].Receiving?
  {
    var Receiving(b, i) := s.senders[t];
    if i < |s.subs| && s.subs[i] < |s.pipes| then
      var pipe := s.pipes[s.subs[i]];
      if |pipe.queue| >= pipe.depth then At(RecordRefused(s, b, s.subs[i]), t, Returning(b, i))
      else At(s, t, Pushing(b, i))
    else s.(fault := true)
  }

  function DoPush(s: State, t: nat): State
    requires t < |s.senders| && s.senders[t].Pushing?
  {
    var Pushing(b, i) := s.senders[t];
    if i < |s.subs| && s.subs[i] < |s.pipes| then
      var p := s.subs[i];
      var pipe := s.pipes[p].(queue := s.pipes[p].queue + [b], pushed := s.pipes[p].pushed + [b]);
      At(RecordKept(CopyHandle(SetPipe(s, p, pipe), b), b, p), t, Returning(b, i))
    else s.(fault := true)
  }

  function DoPopFront(s: State, p: PipeId): State
    requires p < |s.pipes| && s.pipes[p].consumer.Copied?
  {
    var b := s.pipes[p].consumer.buf;
    if s.pipes[p].queue != [] && s.pipes[p].queue[0] == b then
      var pipe := s.pipes[p].(queue := s.pipes[p].queue[1..], consumer := Popped(b), popped := s.pipes[p].popped + [b]);
      DropHandle(SetPipe(s, p, pipe), b)
    else s.(fault := true)
  }

  ghost predicate Next(s: State, s': State) {
    exists step :: Enabled(s, step) && s' == Apply(s, step)
  }

  ghost predicate NextAt(tr: seq<State>, i: nat)
    requires 0 < i < |tr|
  {
    Next(tr[i - 1], tr[i])
  }

  /** A finite prefix of an interleaving, starting from a fresh broker. */
  ghost predicate Run(tr: seq<State>) {
    && tr != [] && Init(tr[0])
    && forall i :: 0 < i < |tr| ==> NextAt(tr, i)
  }
}
