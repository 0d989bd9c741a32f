/** Sequences the way the framework's containers use them: search, erase-remove, filtered walk. */
module Collections {

  datatype Option<+T> = None | Some(value: T)

  ghost predicate Distinct<T>(s: seq<T>) {
    forall i, j :: 0 <= i < j < |s| ==> s[i] != s[j]
  }

  /** The elements of `s` that satisfy `keep`, in order. */
  function Filter<T>(s: seq<T>, keep: T -> bool): seq<T> {
    if s == [] then []
    else Filter(s[..|s| - 1], keep) + if keep(s[|s| - 1]) then [s[|s| - 1]] else []
  }

  lemma {:induction false} FilterMembers<T>(s: seq<T>, keep: T -> bool)
    ensures forall x :: x in Filter(s, keep) <==> x in s && keep(x)
  {
    if s != [] {
      FilterMembers(s[..|s| - 1], keep);
      assert s == s[..|s| - 1] + [s[|s| - 1]];
    }
  }

  lemma {:induction false} FilterDistinct<T>(s: seq<T>, keep: T -> bool)
    requires Distinct(s)
    ensures Distinct(Filter(s, keep))
  {
    if s != [] {
      FilterDistinct(s[..|s| - 1], keep);
      FilterMembers(s[..|s| - 1], keep);
    }
  }

  lemma {:induction false} FilterExtensional<T>(s: seq<T>, f: T -> bool, g: T -> bool)
    requires forall x :: x in s ==> f(x) == g(x)
    ensures Filter(s, f) == Filter(s, g)
  {
    if s != [] {
      FilterExtensional(s[..|s| - 1], f, g);
    }
  }

  /** The positions whose element satisfies `keep`. */
  function PickedAt<T>(s: seq<T>, keep: T -> bool): seq<nat> {
    if s == [] then []
    else PickedAt(s[..|s| - 1], keep) + if keep(s[|s| - 1]) then [|s| - 1] else []
  }

  lemma {:induction false} PickedMembers<T>(s: seq<T>, keep: T -> bool, i: nat)
    ensures i in PickedAt(s, keep) <==> i < |s| && keep(s[i])
  {
    if s != [] {
      PickedMembers(s[..|s| - 1], keep, i);
    }
  }

  lemma {:induction false} PickedAscend<T>(s: seq<T>, keep: T -> bool)
    ensures forall j, k :: 0 <= j < k < |PickedAt(s, keep)| ==> PickedAt(s, keep)[j] < PickedAt(s, keep)[k]
  {
    if s != [] {
      var before := PickedAt(s[..|s| - 1], keep);
      PickedAscend(s[..|s| - 1], keep);
      forall k | 0 <= k < |before| ensures before[k] < |s| - 1 {
        PickedMembers(s[..|s| - 1], keep, before[k]);
      }
    }
  }

  /** Filter lists the elements at exactly the positions that satisfy `keep`, from front to back. */
  lemma {:induction false} FilterPicks<T>(s: seq<T>, keep: T -> bool)
    ensures |PickedAt(s, keep)| == |Filter(s, keep)|
    ensures forall k :: 0 <= k < |Filter(s, keep)| ==>
              PickedAt(s, keep)[k] < |s| && Filter(s, keep)[k] == s[PickedAt(s, keep)[k]]
  {
    if s != [] {
      FilterPicks(s[..|s| - 1], keep);
    }
  }

  lemma {:induction false} FilterTwice<T>(s: seq<T>, f: T -> bool, g: T -> bool, both: T -> bool)
    requires forall x :: x in s ==> (both(x) <==> f(x) && g(x))
    ensures Filter(Filter(s, f), g) == Filter(s, both)
  {
    if s != [] {
      var n := |s| - 1;
      var rest := Filter(s[..n], f);
      FilterTwice(s[..n], f, g, both);
      if f(s[n]) {
        assert Filter(s, f) == rest + [s[n]] && (rest + [s[n]])[..|rest|] == rest;
      } else {
        assert Filter(s, f) == rest;
      }
    }
  }

  // ---- sublists ------------------------------------------------------------------------------------

  /** `sub` lists some of the elements of `s`, in the order of `s`. */
  ghost predicate InOrder<T>(sub: seq<T>, s: seq<T>) {
    sub == Filter(s, x => x in sub)
  }

  lemma InOrderMembers<T>(sub: seq<T>, s: seq<T>)
    requires InOrder(sub, s)
    ensures forall x :: x in sub ==> x in s
    ensures Distinct(s) ==> Distinct(sub)
  {
    FilterMembers(s, x => x in sub);
    if Distinct(s) {
      FilterDistinct(s, x => x in sub);
    }
  }

  /** The list may grow by an element that the sublist leaves out, and shrink by it again. */
  lemma InOrderSkip<T>(sub: seq<T>, s: seq<T>, x: T)
    requires x !in sub
    ensures InOrder(sub, s + [x]) <==> InOrder(sub, s)
  {
    assert (s + [x])[..|s|] == s;
  }

  lemma InOrderTake<T>(sub: seq<T>, s: seq<T>, x: T)
    requires InOrder(sub, s) && x !in s
    ensures InOrder(sub + [x], s + [x])
  {
    assert (s + [x])[..|s|] == s;
    FilterExtensional(s, y => y in sub, y => y in sub + [x]);
  }

  /** Two sublists of one list have their common elements in the same order. */
  lemma CommonInOrder<T>(p: seq<T>, q: seq<T>, s: seq<T>)
    requires InOrder(p, s) && InOrder(q, s)
    ensures Filter(p, x => x in q) == Filter(q, x => x in p)
  {
    FilterTwice(s, x => x in p, x => x in q, x => x in p && x in q);
    FilterTwice(s, x => x in q, x => x in p, x => x in p && x in q);
  }

  // ---- erase-remove and subscription lists ---------------------------------------------------------

  /** `s` with every occurrence of `x` erased (`erase(remove(...))`). */
  function Without<T(==)>(s: seq<T>, x: T): seq<T> {
    Filter(s, y => y != x)
  }

  lemma WithoutMembers<T>(s: seq<T>, x: T)
    ensures forall y :: y in Without(s, x) <==> y in s && y != x
  {
    FilterMembers(s, y => y != x);
  }

  lemma {:induction false} WithoutLength<T>(s: seq<T>, x: T)
    requires Distinct(s)
    ensures |Without(s, x)| == |s| - if x in s then 1 else 0
  {
    if s != [] {
      var n := |s| - 1;
      WithoutLength(s[..n], x);
      assert s == s[..n] + [s[n]];
      assert s[n] !in s[..n];
    }
  }

  /** ETL's subscription list: a known router keeps its place, a new one goes to the end. */
  function Link<T(==)>(s: seq<T>, x: T): seq<T> {
    if x in s then s else s + [x]
  }

  lemma LinkKeepsDistinct<T>(s: seq<T>, x: T)
    requires Distinct(s)
    ensures Distinct(Link(s, x))
    ensures forall y :: y in Link(s, x) <==> y in s || y == x
    ensures Link(s, x)[..|s|] == s
  {
  }

  lemma UnlinkKeepsDistinct<T>(s: seq<T>, x: T)
    requires Distinct(s)
    ensures Distinct(Without(s, x))
  {
    FilterDistinct(s, y => y != x);
  }
}
