/** Subscriptions, pipes and the broker as objects, one caller at a time. What other threads may do in the
    middle of `SendBuf` is the subject of BrokerProtocol. */
module Broker {
  import opened Collections
  import opened Pool

  type MsgId = nat

  /** A message: its header's ID and the bytes after the header. */
  datatype Msg = Msg(id: MsgId, body: seq<bv8>)

  class Subscription {
    var ids: seq<MsgId>

    constructor (ids: seq<MsgId>)
      ensures this.ids == ids
    {
      this.ids := ids;
    }

    /** Adds the ID even if it is there already. */
    method Subscribe(id: MsgId)
      modifies this
      ensures ids == old(ids) + [id]
    {
      ids := ids + [id];
    }

    /** Erases every occurrence and keeps the others in order. */
    method Unsubscribe(id: MsgId)
      modifies this
      ensures ids == Without(old(ids), id)
      ensures forall x :: x in ids <==> x in old(ids) && x != id
    {
      var kept := [];
      for i := 0 to |ids|
        invariant ids == old(ids) && kept == Without(ids[..i], id)
      {
        assert ids[..i + 1][..i] == ids[..i];
        if ids[i] != id {
          kept := kept + [ids[i]];
        }
      }
      assert ids[..|ids|] == ids;
      WithoutMembers(ids, id);
      ids := kept;
    }

    method IsSubscribed(id: MsgId) returns (found: bool)
      ensures found <==> id in ids
    {
      for i := 0 to |ids|
        invariant id !in ids[..i]
      {
        if ids[i] == id {
          return true;
        }
      }
      return false;
    }
  }

  /** A pool buffer. `released` says that it has been given back. */
  class Buf {
    const size: nat
    var msg: Msg
    var refs: int
    var released: bool

    constructor (size: nat)
      ensures this.size == size && refs == 1 && !released
    {
      this.size := size;
      msg, refs, released := Msg(0, []), 1, false;
    }
  }

  /** The queued pipe. Depth 0 gives a pipe that handles messages at once and keeps none. */
  class Pipe {
    const subs: Subscription
    const depth: nat
    var queue: seq<Buf>

    constructor (ids: seq<MsgId>, depth: nat)
      ensures fresh(subs) && subs.ids == ids && this.depth == depth && queue == []
    {
      subs := new Subscription(ids);
      this.depth := depth;
      queue := [];
    }

    /** A full queue drops the message; otherwise the queue slot is one more handle. */
    method Receive(buf: Buf)
      modifies this, buf`refs
      ensures |old(queue)| < depth ==> queue == old(queue) + [buf] && buf.refs == old(buf.refs) + 1
      ensures |old(queue)| >= depth ==> queue == old(queue) && buf.refs == old(buf.refs)
    {
      if |queue| < depth {
        queue := queue + [buf];
        buf.refs := buf.refs + 1;
      }
    }
  }

  /** Whether this pipe, as it is now, would keep a handle to a message with this ID. */
  ghost predicate Takes(p: Pipe, id: MsgId)
    reads p, p.subs
  {
    id in p.subs.ids && |p.queue| < p.depth
  }

  ghost function Takers(list: seq<Pipe>, id: MsgId): nat
    reads list, set p | p in list :: p.subs
  {
    if list == [] then 0 else Takers(list[..|list| - 1], id) + if Takes(list[|list| - 1], id) then 1 else 0
  }

  lemma {:induction false} NoTakers(list: seq<Pipe>, id: MsgId)
    ensures Takers(list, id) == 0 <==> forall p :: p in list ==> !Takes(p, id)
  {
    if list != [] {
      NoTakers(list[..|list| - 1], id);
      assert list == list[..|list| - 1] + [list[|list| - 1]];
    }
  }

  ghost function TakingPipes(list: seq<Pipe>, id: MsgId): set<Pipe>
    reads list, set p | p in list :: p.subs
  {
    set p | p in list && Takes(p, id)
  }

  lemma TakingGrows(list: seq<Pipe>, p: Pipe, id: MsgId)
    ensures TakingPipes(list + [p], id) == TakingPipes(list, id) + if Takes(p, id) then {p} else {}
  {
  }

  /** Takers counts the subscribed pipes with room, each once. */
  lemma {:induction false} TakersCount(list: seq<Pipe>, id: MsgId)
    requires Distinct(list)
    ensures Takers(list, id) == |TakingPipes(list, id)|
    ensures forall p :: p in TakingPipes(list, id) <==> p in list && id in p.subs.ids && |p.queue| < p.depth
  {
    if list != [] {
      var rest, last := list[..|list| - 1], list[|list| - 1];
      TakersCount(rest, id);
      TakingGrows(rest, last, id);
      assert rest + [last] == list && last !in rest;
    }
  }

  class Broker {
    const minSize: nat            // the size of a message header
    const pool: MsgBufPool
    var list: seq<Pipe>
    var registeredPipes: int
    var allocateFailures: nat

    ghost predicate Valid()
      reads this, pool
    {
      pool.Valid() && Distinct(list)
    }

    constructor (minSize: nat)
      ensures Valid() && list == [] && registeredPipes == 0 && allocateFailures == 0 && this.minSize == minSize
      ensures fresh(pool) && pool.itemsInUse == 0 && pool.numItems == 100
    {
      this.minSize := minSize;
      pool := new MsgBufPool(100);
      list, registeredPipes, allocateFailures := [], 0, 0;
    }

    /** The counter counts calls, the list holds each pipe once: they agree as long as clients register and
        unregister in turn. */
    method RegisterPipe(pipe: Pipe)
      requires Valid()
      modifies this
      ensures Valid() && list == (if pipe in old(list) then old(list) else old(list) + [pipe])
      ensures registeredPipes == old(registeredPipes) + 1
      ensures |list| - registeredPipes == old(|list| - registeredPipes) <==> pipe !in old(list)
    {
      LinkKeepsDistinct(list, pipe);
      list := Link(list, pipe);
      registeredPipes := registeredPipes + 1;
    }

    method UnregisterPipe(pipe: Pipe)
      requires Valid()
      modifies this
      ensures Valid() && list == Without(old(list), pipe) && registeredPipes == old(registeredPipes) - 1
      ensures forall p :: p in list <==> p in old(list) && p != pipe
      ensures |list| - registeredPipes == old(|list| - registeredPipes) <==> pipe in old(list)
    {
      WithoutLength(list, pipe);
      UnlinkKeepsDistinct(list, pipe);
      WithoutMembers(list, pipe);
      list := Without(list, pipe);
      registeredPipes := registeredPipes - 1;
    }

    /** The delivery loop: every subscription once, each subscribed pipe given a handle of its own. */
    method Receive(buf: Buf)
      requires Distinct(list)
      modifies buf`refs, list
      ensures buf.refs == old(buf.refs) + old(Takers(list, buf.msg.id))
      ensures forall k :: 0 <= k < |list| ==>
                list[k].queue == old(list[k].queue)
                  + if old(buf.msg.id in list[k].subs.ids && |list[k].queue| < list[k].depth) then [buf] else []
    {
      buf.refs := buf.refs + 1;           // the by-value parameter
      for i := 0 to |list|
        invariant buf.refs == old(buf.refs) + 1 + old(Takers(list[..i], buf.msg.id))
        invariant forall k :: 0 <= k < i ==>
                    list[k].queue == old(list[k].queue) + if old(Takes(list[k], buf.msg.id)) then [buf] else []
        invariant forall k :: i <= k < |list| ==> list[k].queue == old(list[k].queue)
      {
        var pipe := list[i];
        assert list[..i + 1][..i] == list[..i];
        var wanted := pipe.subs.IsSubscribed(buf.msg.id);
        if wanted {
          buf.refs := buf.refs + 1;       // the parameter of the pipe's receive
          pipe.Receive(buf);
          buf.refs := buf.refs - 1;
        }
      }
      assert list[..|list|] == list;
      buf.refs := buf.refs - 1;
    }

    /** Sends a buffer that only the caller has. Afterwards it has one handle for every registered pipe that is
        subscribed to it and has room, in that pipe's queue and nowhere else; it has gone back to the pool
        exactly if there is no such pipe. A buffer too small for a message is left alone. */
    method SendBuf(buf: Buf)
      requires Valid() && pool.itemsInUse > 0 && !buf.released
      modifies buf`refs, buf`released, pool, list
      ensures Valid()
      ensures buf.size < minSize ==>
                && buf.refs == old(buf.refs) && !buf.released && pool.itemsInUse == old(pool.itemsInUse)
                && forall p :: p in list ==> p.queue == old(p.queue)
      ensures buf.size >= minSize ==>
                && buf.refs == old(Takers(list, buf.msg.id))
                && (forall p :: p in list ==>
                      p.queue == old(p.queue)
                        + if old(buf.msg.id in p.subs.ids && |p.queue| < p.depth) then [buf] else [])
                && (buf.released <==> forall p :: p in list ==> !old(buf.msg.id in p.subs.ids && |p.queue| < p.depth))
                && pool.itemsInUse == old(pool.itemsInUse) - (if buf.released then 1 else 0)
    {
      if buf.size < minSize {
        return;
      }
      NoTakers(list, buf.msg.id);
      buf.refs := 1;                      // the SharedMsg
      Receive(buf);
      buf.refs := buf.refs - 1;
      if buf.refs == 0 {
        buf.released := true;
        pool.Release();
      }
    }

    method GetMessageBuf(size: nat) returns (buf: Buf?)
      requires Valid()
      modifies pool
      ensures Valid() && (buf != null <==> old(pool.itemsInUse) < pool.numItems)
      ensures buf != null ==> fresh(buf) && buf.size == size && buf.refs == 1 && !buf.released
      ensures pool.itemsInUse == old(pool.itemsInUse) + if buf != null then 1 else 0
    {
      var ok := pool.Allocate();
      buf := null;
      if ok {
        buf := new Buf(size);
      }
    }

    method ReturnMessageBuf(buf: Buf?)
      requires Valid() && (buf != null ==> !buf.released && pool.itemsInUse > 0)
      modifies pool, buf
      ensures Valid() && pool.itemsInUse == old(pool.itemsInUse) - if buf != null then 1 else 0
      ensures buf != null ==> buf.released
    {
      if buf != null {
        pool.Release();
        buf.released := true;
      }
    }

    /** `send<TMsg>`: a copy of the message goes to every pipe that takes it; with none, or with the pool
        empty, the pool ends as it began, and only the second is counted as a failure. */
    method Send(msg: Msg) returns (ghost sent: Buf?)
      requires Valid()
      modifies this`allocateFailures, pool, list
      ensures Valid() && (sent != null <==> old(pool.itemsInUse) < pool.numItems)
      ensures allocateFailures == old(allocateFailures) + if sent == null then 1 else 0
      ensures sent == null ==> pool.itemsInUse == old(pool.itemsInUse) && forall p :: p in list ==> p.queue == old(p.queue)
      ensures sent != null ==>
                && fresh(sent) && sent.msg == msg && sent.size == minSize + |msg.body|
                && sent.refs == old(Takers(list, msg.id))
                && (sent.released <==> sent.refs == 0)
                && pool.itemsInUse == old(pool.itemsInUse) + (if sent.refs == 0 then 0 else 1)
                && forall p :: p in list ==>
                     p.queue == old(p.queue) + if old(msg.id in p.subs.ids && |p.queue| < p.depth) then [sent] else []
    {
      NoTakers(list, msg.id);
      var buf := GetMessageBuf(minSize + |msg.body|);
      sent := buf;
      if buf != null {
        buf.msg := msg;
        SendBuf(buf);
      } else {
        allocateFailures := allocateFailures + 1;
      }
    }
  }
}
