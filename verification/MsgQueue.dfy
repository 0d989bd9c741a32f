/** BlockingMsgQueue and QueuedRouter as the objects they are, for one thread at a time. What happens when
    producer and consumer interleave is the subject of QueueProtocol. */
module MsgQueue {
  import opened Collections

  class BlockingMsgQueue<T> {
    const depth: nat
    var queue: seq<T>
    var sem: nat

    ghost predicate Valid()
      reads this
    {
      sem == |queue| && |queue| <= depth
    }

    constructor (depth: nat)
      ensures Valid() && queue == [] && this.depth == depth
    {
      this.depth := depth;
      queue, sem := [], 0;
    }

    method Emplace(item: T) returns (ok: bool)
      requires Valid()
      modifies this
      ensures Valid()
      ensures ok <==> |old(queue)| < depth
      ensures queue == old(queue) + if ok then [item] else []
    {
      if |queue| < depth {
        queue := queue + [item];
        sem := sem + 1;
        return true;
      }
      return false;
    }

    /** `front` takes a permit, copies the head and pops it; with no permit it fails. */
    method Front() returns (head: Option<T>)
      requires Valid()
      modifies this
      ensures Valid()
      ensures old(queue) == [] ==> head == None && queue == []
      ensures old(queue) != [] ==> head == Some(old(queue)[0]) && queue == old(queue)[1..]
    {
      if sem == 0 {
        return None;
      }
      sem := sem - 1;
      assert queue != [];     // "Sem available but queue is empty" cannot be
      head := Some(queue[0]);
      queue := queue[1..];
    }
  }

  type MsgId = nat
  datatype Msg = Msg(id: MsgId, body: seq<int>)
  datatype DequeueStat = Ok | Timeout

  class QueuedRouter {
    const types: set<MsgId>
    const queue: BlockingMsgQueue<Msg>
    var handled: seq<Msg>

    ghost predicate Valid()
      reads this, queue
    {
      queue.Valid()
    }

    constructor (types: set<MsgId>, limit: nat)
      ensures Valid() && fresh(queue) && queue.queue == [] && handled == []
      ensures this.types == types && queue.depth == limit
    {
      this.types := types;
      queue := new BlockingMsgQueue(limit);
      handled := [];
    }

    /** Called by the broker: unknown messages and those a full queue refuses are dropped without notice. */
    method Receive(msg: Msg)
      requires Valid()
      modifies queue
      ensures Valid() && handled == old(handled)
      ensures queue.queue == old(queue.queue)
                             + if msg.id in types && |old(queue.queue)| < queue.depth then [msg] else []
    {
      if msg.id in types {
        var _ := queue.Emplace(msg);
      }
    }

    /** With nobody pushing meanwhile, one call handles the whole queue in order. */
    method ReceiveMsgs() returns (status: DequeueStat)
      requires Valid()
      modifies this, queue
      ensures Valid() && queue.queue == []
      ensures handled == old(handled) + old(queue.queue)
      ensures status == Timeout <==> old(queue.queue) == []
    {
      status := Timeout;
      var pkt := queue.Front();
      if pkt.Some? {
        status := Ok;
        handled := handled + [pkt.value];
        pkt := queue.Front();
        while pkt.Some?
          invariant queue.Valid()
          invariant handled + (if pkt.Some? then [pkt.value] else []) + queue.queue == old(handled) + old(queue.queue)
          invariant pkt.None? ==> queue.queue == []
          decreases |queue.queue| + if pkt.Some? then 1 else 0
        {
          handled := handled + [pkt.value];
          pkt := queue.Front();
        }
      }
    }
  }
}
