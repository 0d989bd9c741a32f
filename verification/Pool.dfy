/** MsgBufPool: the buffer accounting of src/msg/Pool.cpp. */
module Pool {

  /** The counters of MsgBufPool::Stats and its two update operators. */
  datatype Stats = Stats(numItems: nat, itemsInUse: int, waterMark: int, allocCount: int, releaseCount: int) {

    predicate MemAvail() {
      itemsInUse < numItems
    }

    /** `operator++`: the water mark moves by one, it is not recomputed. */
    function Acquired(): Stats {
      var inUse := itemsInUse + 1;
      Stats(numItems, inUse, if inUse > waterMark then waterMark + 1 else waterMark, allocCount + 1, releaseCount)
    }

    /** `operator--`. */
    function Released(): Stats {
      this.(itemsInUse := itemsInUse - 1, releaseCount := releaseCount + 1)
    }
  }

  /** What one call does to a pool: an allocation attempt or the release of a buffer it handed out. */
  datatype PoolCall = Allocate | Release

  function After(st: Stats, call: PoolCall): Stats {
    match call
    case Allocate => if st.MemAvail() then st.Acquired() else st
    case Release => st.Released()
  }

  /** The counters before the first call and after each call. */
  function History(st: Stats, calls: seq<PoolCall>): (h: seq<Stats>)
    ensures |h| == |calls| + 1
  {
    if calls == [] then [st]
    else
      var h := History(st, calls[..|calls| - 1]);
      h + [After(h[|h| - 1], calls[|calls| - 1])]
  }

  /** Callers release only what they were given: at every release some buffer is in use. */
  ghost predicate Disciplined(st: Stats, calls: seq<PoolCall>) {
    forall i :: 0 <= i < |calls| && calls[i] == Release ==> History(st, calls)[i].itemsInUse > 0
  }

  ghost predicate PeakOf(h: seq<Stats>, peak: int) {
    && (forall i :: 0 <= i < |h| ==> h[i].itemsInUse <= peak)
    && (exists i :: 0 <= i < |h| && h[i].itemsInUse == peak)
  }

  lemma HistoryPrefix(st: Stats, calls: seq<PoolCall>)
    requires calls != []
    ensures History(st, calls)[..|calls|] == History(st, calls[..|calls| - 1])
  {
  }

  /** Bumping the water mark by one still makes it the maximum of ItemsInUse over the whole history. */
  lemma {:induction false} WaterMarkIsPeak(numItems: nat, calls: seq<PoolCall>)
    requires Disciplined(Stats(numItems, 0, 0, 0, 0), calls)
    ensures var h := History(Stats(numItems, 0, 0, 0, 0), calls);
            var last := h[|calls|];
            && PeakOf(h, last.waterMark)
            && 0 <= last.itemsInUse <= last.waterMark <= numItems == last.numItems
            && last.itemsInUse == last.allocCount - last.releaseCount
  {
    var st := Stats(numItems, 0, 0, 0, 0);
    var h := History(st, calls);
    if calls == [] {
      assert h[0].itemsInUse == 0;
    } else {
      var n := |calls| - 1;
      var g := History(st, calls[..n]);
      HistoryPrefix(st, calls);
      assert forall i :: 0 <= i <= n ==> h[i] == g[i];
      WaterMarkIsPeak(numItems, calls[..n]);
      var k :| 0 <= k < |g| && g[k].itemsInUse == g[n].waterMark;
      assert h[k].itemsInUse == g[n].waterMark && h[n] == g[n];
      assert h[n + 1] == After(h[n], calls[n]);
      if h[n + 1].waterMark == h[n].waterMark {
        assert h[k].itemsInUse == h[n + 1].waterMark;
      } else {
        assert h[n + 1].itemsInUse == h[n + 1].waterMark;
      }
    }
  }

  /** The pool object. Its lock makes each method one step. */
  class MsgBufPool {
    const numItems: nat
    var itemsInUse: nat
    var waterMark: nat
    var allocCount: nat
    var releaseCount: nat
    ghost var calls: seq<PoolCall>

    ghost function View(): Stats
      reads this
    {
      Stats(numItems, itemsInUse, waterMark, allocCount, releaseCount)
    }

    ghost predicate Valid()
      reads this
    {
      var empty := Stats(numItems, 0, 0, 0, 0);
      Disciplined(empty, calls) && View() == History(empty, calls)[|calls|]
    }

    constructor (maxItems: nat)
      ensures Valid() && numItems == maxItems && calls == []
    {
      numItems := maxItems;
      itemsInUse, waterMark, allocCount, releaseCount := 0, 0, 0, 0;
      calls := [];
    }

    /** Takes a buffer if one is left; the result says whether the caller got one. */
    method Allocate() returns (ok: bool)
      requires Valid()
      modifies this
      ensures Valid() && calls == old(calls) + [PoolCall.Allocate]
      ensures ok <==> old(itemsInUse) < numItems
      ensures itemsInUse == old(itemsInUse) + (if ok then 1 else 0)
      ensures allocCount == old(allocCount) + (if ok then 1 else 0) && releaseCount == old(releaseCount)
    {
      ok := itemsInUse < numItems;
      if ok {
        allocCount := allocCount + 1;
        itemsInUse := itemsInUse + 1;
        if itemsInUse > waterMark {
          waterMark := waterMark + 1;
        }
      }
      Extend(PoolCall.Allocate);
    }

    /** Gives one buffer back. The caller must hold one. */
    method Release()
      requires Valid() && itemsInUse > 0
      modifies this
      ensures Valid() && calls == old(calls) + [PoolCall.Release]
      ensures itemsInUse == old(itemsInUse) - 1 && releaseCount == old(releaseCount) + 1
      ensures waterMark == old(waterMark) && allocCount == old(allocCount)
    {
      releaseCount := releaseCount + 1;
      itemsInUse := itemsInUse - 1;
      Extend(PoolCall.Release);
    }

    ghost method Extend(call: PoolCall)
      requires var h := History(Stats(numItems, 0, 0, 0, 0), calls);
               && Disciplined(Stats(numItems, 0, 0, 0, 0), calls)
               && View() == After(h[|calls|], call)
               && (call == PoolCall.Release ==> h[|calls|].itemsInUse > 0)
      modifies this`calls
      ensures Valid() && calls == old(calls) + [call]
    {
      var empty := Stats(numItems, 0, 0, 0, 0);
      ghost var before := calls;
      calls := calls + [call];
      assert calls[..|calls| - 1] == before;
      HistoryPrefix(empty, calls);
      assert forall i :: 0 <= i <= |before| ==> History(empty, calls)[i] == History(empty, before)[i];
    }

    /** WaterMark as documented: the highest number of items in use at once. */
    method HighWater() returns (n: nat)
      requires Valid()
      ensures PeakOf(History(Stats(numItems, 0, 0, 0, 0), calls), n)
      ensures itemsInUse <= n <= numItems
    {
      WaterMarkIsPeak(numItems, calls);
      n := waterMark;
    }
  }
}
