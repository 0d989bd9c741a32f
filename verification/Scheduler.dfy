/** MsgScheduler of the messaging example: a table of messages with periods in scheduler ticks. */
module Scheduler {

  type MsgId = nat

  datatype Entry = Entry(msgId: MsgId, wakeupCount: nat, inUse: bool)

  const NUM_SCHED_TBL_ENTRIES: nat := 10
  const SIZE_LIMIT: nat := 0x1_0000_0000_0000_0000    // size_t wraps here

  /** The remainder by a period of 0 is undefined, so entries in use have one. */
  ghost predicate Sound(table: seq<Entry>) {
    forall e :: 0 <= e < |table| && table[e].inUse ==> table[e].wakeupCount > 0
  }

  predicate Due(entry: Entry, tick: nat)
    requires entry.inUse ==> entry.wakeupCount > 0
  {
    entry.inUse && tick % entry.wakeupCount == 0
  }

  /** The messages of the entries due at `tick`, in table order. */
  function Emission(table: seq<Entry>, tick: nat): seq<MsgId>
    requires Sound(table)
  {
    if table == [] then []
    else Emission(table[..|table| - 1], tick)
         + if Due(table[|table| - 1], tick) then [table[|table| - 1].msgId] else []
  }

  lemma {:induction false} EmissionMembers(table: seq<Entry>, tick: nat, id: MsgId)
    requires Sound(table)
    ensures id in Emission(table, tick) <==> exists e :: 0 <= e < |table| && table[e].msgId == id && Due(table[e], tick)
  {
    if table != [] {
      var n := |table| - 1;
      EmissionMembers(table[..n], tick, id);
      assert forall e :: 0 <= e < n ==> table[..n][e] == table[e];
      if id in Emission(table[..n], tick) {
        var e :| 0 <= e < n && table[..n][e].msgId == id && Due(table[..n][e], tick);
        assert table[e].msgId == id && Due(table[e], tick);
      }
    }
  }

  /** Everything sent by ticks 1 to `n`. */
  function Sent(table: seq<Entry>, n: nat): seq<MsgId>
    requires Sound(table)
  {
    if n == 0 then [] else Sent(table, n - 1) + Emission(table, n)
  }

  // ---- which entry sent what -----------------------------------------------------------------------

  /** The entries that send at `tick`, by position. */
  function DueEntries(table: seq<Entry>, tick: nat): seq<nat>
    requires Sound(table)
  {
    if table == [] then []
    else DueEntries(table[..|table| - 1], tick) + if Due(table[|table| - 1], tick) then [|table| - 1] else []
  }

  /** The entries that sent in ticks 1 to `n`, one for every message sent. */
  function Senders(table: seq<Entry>, n: nat): seq<nat>
    requires Sound(table)
  {
    if n == 0 then [] else Senders(table, n - 1) + DueEntries(table, n)
  }

  /** `sent` is what the entries `sources` send. */
  ghost predicate SentBy(table: seq<Entry>, sources: seq<nat>, sent: seq<MsgId>) {
    |sent| == |sources| && forall i :: 0 <= i < |sources| ==> sources[i] < |table| && sent[i] == table[sources[i]].msgId
  }

  ghost predicate Ascending(s: seq<nat>) {
    forall i, j :: 0 <= i < j < |s| ==> s[i] < s[j]
  }

  lemma {:induction false} DueMembers(table: seq<Entry>, tick: nat, e: nat)
    requires Sound(table)
    ensures e in DueEntries(table, tick) <==> e < |table| && Due(table[e], tick)
  {
    if table != [] {
      DueMembers(table[..|table| - 1], tick, e);
    }
  }

  lemma {:induction false} DueAscend(table: seq<Entry>, tick: nat)
    requires Sound(table)
    ensures Ascending(DueEntries(table, tick)) && forall e :: e in DueEntries(table, tick) ==> e < |table|
  {
    if table != [] {
      var rest := DueEntries(table[..|table| - 1], tick);
      DueAscend(table[..|table| - 1], tick);
      assert forall i :: 0 <= i < |rest| ==> rest[i] in rest;
    }
  }

  lemma {:induction false} DueSend(table: seq<Entry>, tick: nat)
    requires Sound(table)
    ensures SentBy(table, DueEntries(table, tick), Emission(table, tick))
  {
    if table != [] {
      var n := |table| - 1;
      DueSend(table[..n], tick);
      assert SentBy(table, DueEntries(table[..n], tick), Emission(table[..n], tick));
    }
  }

  /** Each tick's messages come from exactly the entries in use whose period divides it, in table order. */
  lemma EmittedInTableOrder(table: seq<Entry>, tick: nat)
    requires Sound(table)
    ensures SentBy(table, DueEntries(table, tick), Emission(table, tick)) && Ascending(DueEntries(table, tick))
    ensures forall e: nat :: e in DueEntries(table, tick) <==> e < |table| && Due(table[e], tick)
  {
    DueSend(table, tick);
    DueAscend(table, tick);
    forall e: nat ensures e in DueEntries(table, tick) <==> e < |table| && Due(table[e], tick) {
      DueMembers(table, tick, e);
    }
  }

  lemma AscendingOnce(s: seq<nat>, x: nat)
    requires Ascending(s)
    ensures multiset(s)[x] == if x in s then 1 else 0
    decreases |s|
  {
    if s != [] {
      var n := |s| - 1;
      AscendingOnce(s[..n], x);
      assert s == s[..n] + [s[n]];
    }
  }

  /** How often an entry is to send in `n` ticks. */
  function Quota(entry: Entry, n: nat): nat
    requires entry.inUse ==> entry.wakeupCount > 0
  {
    if entry.inUse then n / entry.wakeupCount else 0
  }

  lemma QuotaStep(table: seq<Entry>, e: nat, n: nat)
    requires Sound(table) && e < |table|
    ensures Quota(table[e], n + 1) == Quota(table[e], n) + multiset(DueEntries(table, n + 1))[e]
  {
    DueMembers(table, n + 1, e);
    DueAscend(table, n + 1);
    AscendingOnce(DueEntries(table, n + 1), e);
    if table[e].inUse {
      QuotientStep(n, table[e].wakeupCount);
    }
  }

  /** Every message sent is put down to an entry that carries it. */
  lemma {:induction false} EverythingHasSender(table: seq<Entry>, n: nat)
    requires Sound(table)
    ensures SentBy(table, Senders(table, n), Sent(table, n))
  {
    if n > 0 {
      EverythingHasSender(table, n - 1);
      EmittedInTableOrder(table, n);
    }
  }

  lemma SendersGrow(table: seq<Entry>, e: nat, n: nat)
    requires Sound(table) && e < |table| && multiset(Senders(table, n))[e] == Quota(table[e], n)
    ensures multiset(Senders(table, n + 1))[e] == Quota(table[e], n + 1)
  {
    QuotaStep(table, e, n);
    assert Senders(table, n + 1) == Senders(table, n) + DueEntries(table, n + 1);
  }

  /** In `n` ticks each entry in use with period W has sent its message exactly floor(n / W) times, the others
      never, also where entries share a message. */
  lemma {:induction false} SentPerEntry(table: seq<Entry>, e: nat, n: nat)
    requires Sound(table) && e < |table|
    ensures multiset(Senders(table, n))[e] == if table[e].inUse then n / table[e].wakeupCount else 0
  {
    for m := 0 to n
      invariant multiset(Senders(table, m))[e] == Quota(table[e], m)
    {
      SendersGrow(table, e, m);
    }
  }

  // ---- how often a message is sent -----------------------------------------------------------------

  /** How often a message is due in `n` ticks by its periods: the sum of n / W over the entries that carry it. */
  function Owed(table: seq<Entry>, id: MsgId, n: nat): nat
    requires Sound(table)
  {
    if table == [] then 0
    else
      var last := table[|table| - 1];
      Owed(table[..|table| - 1], id, n) + if last.inUse && last.msgId == id then n / last.wakeupCount else 0
  }

  lemma NonzeroMultiple(d: int, w: nat)
    requires w > 0
    ensures d > 0 ==> d * w >= w
    ensures d < 0 ==> d * w + w <= 0
  {
  }

  lemma QuotientRemainder(n: nat, w: nat, q: nat, r: nat)
    requires w > 0 && n == q * w + r && r < w
    ensures n / w == q && n % w == r
  {
    var d := n / w - q;
    assert d * w == n / w * w - q * w;
    NonzeroMultiple(d, w);
  }

  lemma QuotientStep(n: nat, w: nat)
    requires w > 0
    ensures (n + 1) / w == n / w + if (n + 1) % w == 0 then 1 else 0
  {
    var q, r := n / w, n % w;
    if r + 1 == w {
      assert n + 1 == (q + 1) * w;
      QuotientRemainder(n + 1, w, q + 1, 0);
    } else {
      QuotientRemainder(n + 1, w, q, r + 1);
    }
  }

  lemma {:induction false} OneMoreTick(table: seq<Entry>, id: MsgId, n: nat)
    requires Sound(table)
    ensures Owed(table, id, n + 1) == Owed(table, id, n) + multiset(Emission(table, n + 1))[id]
  {
    if table != [] {
      OneMoreTick(table[..|table| - 1], id, n);
      var last := table[|table| - 1];
      if last.inUse {
        QuotientStep(n, last.wakeupCount);
      }
    }
  }

  lemma {:induction false} NothingOwedAtStart(table: seq<Entry>, id: MsgId)
    requires Sound(table)
    ensures Owed(table, id, 0) == 0
  {
    if table != [] {
      NothingOwedAtStart(table[..|table| - 1], id);
    }
  }

  lemma SentGrows(table: seq<Entry>, id: MsgId, n: nat)
    requires Sound(table) && multiset(Sent(table, n))[id] == Owed(table, id, n)
    ensures multiset(Sent(table, n + 1))[id] == Owed(table, id, n + 1)
  {
    OneMoreTick(table, id, n);
    assert Sent(table, n + 1) == Sent(table, n) + Emission(table, n + 1);
  }

  /** After n ticks every message has been sent as often as the periods of all entries that carry it divide
      the ticks: the sum of n / W over them. */
  lemma {:induction false} SentAsOwed(table: seq<Entry>, id: MsgId, n: nat)
    requires Sound(table)
    ensures multiset(Sent(table, n))[id] == Owed(table, id, n)
  {
    NothingOwedAtStart(table, id);
    for m := 0 to n
      invariant multiset(Sent(table, m))[id] == Owed(table, id, m)
    {
      SentGrows(table, id, m);
    }
  }

  /** Entry `e` is the only one in use that carries its message. */
  ghost predicate SoleCarrier(table: seq<Entry>, e: nat) {
    && e < |table| && table[e].inUse
    && forall k :: 0 <= k < |table| && k != e && table[k].inUse ==> table[k].msgId != table[e].msgId
  }

  lemma {:induction false} NoCarrierOwesNothing(table: seq<Entry>, id: MsgId, n: nat)
    requires Sound(table) && forall k :: 0 <= k < |table| && table[k].inUse ==> table[k].msgId != id
    ensures Owed(table, id, n) == 0
  {
    if table != [] {
      NoCarrierOwesNothing(table[..|table| - 1], id, n);
    }
  }

  lemma {:induction false} SoleCarrierOwes(table: seq<Entry>, e: nat, n: nat)
    requires Sound(table) && SoleCarrier(table, e)
    ensures Owed(table, table[e].msgId, n) == n / table[e].wakeupCount
  {
    var last := |table| - 1;
    if e == last {
      NoCarrierOwesNothing(table[..last], table[e].msgId, n);
    } else {
      assert SoleCarrier(table[..last], e);
      SoleCarrierOwes(table[..last], e, n);
    }
  }

  /** An entry in use whose message no other entry carries is sent exactly floor(n / W) times in n ticks. */
  lemma SentPerPeriod(table: seq<Entry>, e: nat, n: nat)
    requires Sound(table) && SoleCarrier(table, e)
    ensures multiset(Sent(table, n))[table[e].msgId] == n / table[e].wakeupCount
  {
    SentAsOwed(table, table[e].msgId, n);
    SoleCarrierOwes(table, e, n);
  }

  class MsgScheduler {
    var wkupCount: nat
    const schedTbl: array<Entry>
    var bus: seq<MsgId>             // what send_cmd has put on the command broker
    ghost var ticks: nat

    /** As long as the counter has not wrapped, the bus holds exactly what the table asks for. */
    ghost predicate Valid()
      reads this, schedTbl
    {
      && schedTbl.Length == NUM_SCHED_TBL_ENTRIES && Sound(schedTbl[..])
      && wkupCount == ticks % SIZE_LIMIT
      && (ticks < SIZE_LIMIT ==> bus == Sent(schedTbl[..], ticks))
    }

    constructor (entries: seq<Entry>)
      requires |entries| <= 10 && Sound(entries)
      ensures Valid() && fresh(schedTbl) && ticks == 0 && bus == [] && schedTbl.Length == 10
      ensures schedTbl[..|entries|] == entries
      ensures forall e :: |entries| <= e < NUM_SCHED_TBL_ENTRIES ==> !schedTbl[e].inUse
    {
      schedTbl := new Entry[NUM_SCHED_TBL_ENTRIES](_ => Entry(0, 0, false));
      wkupCount, bus, ticks := 0, [], 0;
      new;
      for i := 0 to |entries|
        invariant schedTbl[..i] == entries[..i]
        invariant forall e :: i <= e < NUM_SCHED_TBL_ENTRIES ==> !schedTbl[e].inUse
        invariant wkupCount == 0 && bus == [] && ticks == 0
      {
        schedTbl[i] := entries[i];
      }
    }

    /** One period: count it, then send every entry whose period divides the count, in table order. */
    method Run()
      requires Valid()
      modifies this
      ensures Valid() && ticks == old(ticks) + 1
      ensures wkupCount == (old(wkupCount) + 1) % 0x1_0000_0000_0000_0000
      ensures bus == old(bus) + Emission(schedTbl[..], wkupCount)
    {
      wkupCount := (wkupCount + 1) % SIZE_LIMIT;
      ticks := ticks + 1;
      ghost var table := schedTbl[..];
      for i := 0 to schedTbl.Length
        invariant wkupCount == (old(wkupCount) + 1) % SIZE_LIMIT && ticks == old(ticks) + 1
        invariant bus == old(bus) + Emission(table[..i], wkupCount)
      {
        assert table[..i + 1][..i] == table[..i];
        var entry := schedTbl[i];
        if entry.inUse && wkupCount % entry.wakeupCount == 0 {
          bus := bus + [entry.msgId];
        }
      }
      assert table[..schedTbl.Length] == table;
      if ticks < SIZE_LIMIT {
        assert wkupCount == ticks;
      }
    }

    /** Until the counter wraps, the bus has seen every message as often as it was due, and from each entry as
        often as its period divides the ticks. */
    lemma SentInTime(id: MsgId, e: nat)
      requires Valid() && ticks < 0x1_0000_0000_0000_0000 && e < 10
      ensures multiset(bus)[id] == Owed(schedTbl[..], id, ticks)
      ensures var sources := Senders(schedTbl[..], ticks);
              && SentBy(schedTbl[..], sources, bus)
              && multiset(sources)[e] == if schedTbl[e].inUse then ticks / schedTbl[e].wakeupCount else 0
    {
      SentAsOwed(schedTbl[..], id, ticks);
      EverythingHasSender(schedTbl[..], ticks);
      SentPerEntry(schedTbl[..], e, ticks);
    }
  }
}
