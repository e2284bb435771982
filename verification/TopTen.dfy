/** The lists of the ten longest transfers and executions, kept sorted as entries arrive. */
module TopTen {

  const TOP: nat := 10

  /** First position whose entry is shorter than the new one. */
  function PlaceFrom<T>(top: seq<T>, x: T, duration: T -> nat, i: nat): (r: nat)
    requires i <= |top|
    ensures i <= r <= |top|
    decreases |top| - i
  {
    if i == |top| || duration(x) > duration(top[i]) then i else PlaceFrom(top, x, duration, i + 1)
  }

  function Trim<T>(top: seq<T>): seq<T> {
    if |top| > TOP then top[..TOP] else top
  }

  /** Insert in front of the first shorter entry, then drop what is beyond the tenth. */
  function Insert<T>(top: seq<T>, x: T, duration: T -> nat): seq<T> {
    var i := PlaceFrom(top, x, duration, 0);
    Trim(top[..i] + [x] + top[i..])
  }

  /** The list after a history of entries. */
  function Online<T>(history: seq<T>, duration: T -> nat): seq<T> {
    if history == [] then []
    else Insert(Online(history[..|history| - 1], duration), history[|history| - 1], duration)
  }

  /** The list operation itself: walk to the place, insert, pop the overflow off the back. */
  method InsertInPlace<T>(top: seq<T>, x: T, duration: T -> nat) returns (r: seq<T>)
    ensures r == Insert(top, x, duration)
  {
    if |top| == 0 {
      r := [x];
      return;
    }
    r := top;
    var inserted := false;
    var i := 0;
    while i < |top| && !inserted
      invariant i <= |top|
      invariant !inserted ==> r == top && PlaceFrom(top, x, duration, 0) == PlaceFrom(top, x, duration, i)
      invariant inserted ==> r == top[..PlaceFrom(top, x, duration, 0)] + [x] + top[PlaceFrom(top, x, duration, 0)..]
    {
      if duration(x) > duration(top[i]) {
        r := top[..i] + [x] + top[i..];
        inserted := true;
      }
      i := i + 1;
    }
    if !inserted {
      assert top[..|top|] == top && top[|top|..] == [];
      r := r + [x];
    }
    ghost var all := r;
    while |r| > TOP
      invariant r == all || (|r| >= TOP && r == all[..|r|])
      invariant |r| <= |all|
    {
      r := r[..|r| - 1];
    }
    assert r == Trim(all);
  }

  // ----- Offline sorting -----

  /** `perm` lists every index once, longest entry first, earlier entry first among equals. */
  ghost predicate StableSort<T>(h: seq<T>, perm: seq<nat>, duration: T -> nat) {
    && |perm| == |h|
    && (forall i | 0 <= i < |perm| :: perm[i] < |h|)
    && (forall k | 0 <= k < |h| :: k in perm)
    && (forall i, j | 0 <= i < j < |perm| :: Before(h, perm[i], perm[j], duration))
  }

  /** A strict order on indices, so each index is listed once. */
  predicate Before<T>(h: seq<T>, a: nat, b: nat, duration: T -> nat) {
    a < |h| && b < |h| && (duration(h[a]) > duration(h[b]) || (duration(h[a]) == duration(h[b]) && a < b))
  }

  function Pick<T>(h: seq<T>, perm: seq<nat>, n: nat): (r: seq<T>)
    requires n <= |perm| && forall i | 0 <= i < |perm| :: perm[i] < |h|
    ensures |r| == n
  {
    seq(n, i requires 0 <= i < n => h[perm[i]])
  }

  function Min(a: nat, b: nat): nat { if a < b then a else b }

  function Without(perm: seq<nat>, q: nat): (r: seq<nat>)
    requires q < |perm|
    ensures |r| == |perm| - 1
    ensures forall i | 0 <= i < |r| :: r[i] == if i < q then perm[i] else perm[i + 1]
  {
    perm[..q] + perm[q + 1..]
  }

  /** A stable sort of a history, without its last entry, sorts the history before it. */
  lemma SortWithout<T>(h: seq<T>, perm: seq<nat>, duration: T -> nat, q: nat)
    requires h != [] && StableSort(h, perm, duration) && q < |perm| && perm[q] == |h| - 1
    ensures StableSort(h[..|h| - 1], Without(perm, q), duration)
  {
    var g, perm0 := h[..|h| - 1], Without(perm, q);
    forall i | 0 <= i < |perm0| ensures perm0[i] < |g| {
      var i' := if i < q then i else i + 1;
      assert i' < q ==> Before(h, perm[i'], perm[q], duration);
      assert q < i' ==> Before(h, perm[q], perm[i'], duration);
    }
    forall k | 0 <= k < |g| ensures k in perm0 {
      assert k in perm;
      var i :| 0 <= i < |perm| && perm[i] == k;
      assert perm0[if i < q then i else i - 1] == k;
    }
    forall i, j | 0 <= i < j < |perm0| ensures Before(g, perm0[i], perm0[j], duration) {
      assert Before(h, perm[if i < q then i else i + 1], perm[if j < q then j else j + 1], duration);
    }
  }

  /** In a sorted list the new entry's place is its rank, or the end if its rank is beyond the list. */
  lemma {:induction false} PlaceIsRank<T>(top: seq<T>, x: T, duration: T -> nat, q: nat, i: nat)
    requires i <= |top| && i <= q
    requires forall k | 0 <= k < |top| && k < q :: duration(top[k]) >= duration(x)
    requires forall k | q <= k < |top| :: duration(top[k]) < duration(x)
    ensures PlaceFrom(top, x, duration, i) == Min(q, |top|)
    decreases |top| - i
  {
    if i < |top| && duration(x) <= duration(top[i]) {
      PlaceIsRank(top, x, duration, q, i + 1);
    }
  }

  /** After any history the online list is the first ten entries of the stable descending sort of the
      whole history by duration. */
  lemma {:induction false} OnlineIsSortedPrefix<T>(h: seq<T>, perm: seq<nat>, duration: T -> nat)
    requires StableSort(h, perm, duration)
    ensures Online(h, duration) == Pick(h, perm, Min(10, |h|))
  {
    if h != [] {
      var n := |h| - 1;
      var g, x := h[..n], h[n];
      assert n in perm;
      var q :| 0 <= q < |perm| && perm[q] == n;
      SortWithout(h, perm, duration, q);
      OnlineIsSortedPrefix(g, Without(perm, q), duration);
      InsertKeepsPrefix(h, perm, duration, q, Online(g, duration));
    }
  }

  lemma InsertKeepsPrefix<T>(h: seq<T>, perm: seq<nat>, duration: T -> nat, q: nat, top: seq<T>)
    requires h != [] && StableSort(h, perm, duration) && q < |perm| && perm[q] == |h| - 1
    requires StableSort(h[..|h| - 1], Without(perm, q), duration)
    requires top == Pick(h[..|h| - 1], Without(perm, q), Min(TOP, |h| - 1))
    ensures Insert(top, h[|h| - 1], duration) == Pick(h, perm, Min(TOP, |h|))
  {
    var n := |h| - 1;
    var x := h[n];
    forall k | 0 <= k < |top|
      ensures top[k] == h[perm[if k < q then k else k + 1]]
      ensures k < q ==> duration(top[k]) >= duration(x)
      ensures q <= k ==> duration(top[k]) < duration(x)
    {
      if k < q {
        assert Before(h, perm[k], perm[q], duration);
      } else {
        assert Before(h, perm[q], perm[k + 1], duration);
      }
    }
    PlaceIsRank(top, x, duration, q, 0);
    var i := Min(q, |top|);
    var all := top[..i] + [x] + top[i..];
    var goal := Pick(h, perm, Min(TOP, |h|));
    assert Insert(top, x, duration) == Trim(all);
    forall k | 0 <= k < |goal| ensures all[k] == goal[k] {
      assert all[k] == if k < i then top[k] else if k == i then x else top[k - 1];
    }
    assert all[..|goal|] == goal;
  }

  /** There is such a sort of every history. */
  lemma {:induction false} StableSortExists<T>(h: seq<T>, duration: T -> nat) returns (perm: seq<nat>)
    ensures StableSort(h, perm, duration)
  {
    if h == [] {
      perm := [];
    } else {
      var n := |h| - 1;
      var g := h[..n];
      var perm0 := StableSortExists(g, duration);
      var q := 0;
      while q < |perm0| && duration(h[perm0[q]]) >= duration(h[n])
        invariant q <= |perm0|
        invariant forall k | 0 <= k < q :: duration(h[perm0[k]]) >= duration(h[n])
      {
        q := q + 1;
      }
      perm := With(perm0, q, n);
      SortWith(h, perm0, duration, q);
    }
  }

  function With(perm: seq<nat>, q: nat, n: nat): (r: seq<nat>)
    requires q <= |perm|
    ensures |r| == |perm| + 1
    ensures forall i | 0 <= i < |r| :: r[i] == if i < q then perm[i] else if i == q then n else perm[i - 1]
  {
    perm[..q] + [n] + perm[q..]
  }

  lemma OrderWith<T>(h: seq<T>, perm0: seq<nat>, duration: T -> nat, q: nat, i: nat, j: nat)
    requires h != [] && StableSort(h[..|h| - 1], perm0, duration) && q <= |perm0| && i < j <= |perm0|
    requires forall k | 0 <= k < q :: duration(h[perm0[k]]) >= duration(h[|h| - 1])
    requires q < |perm0| ==> duration(h[perm0[q]]) < duration(h[|h| - 1])
    ensures var perm := With(perm0, q, |h| - 1);
            Before(h, perm[i], perm[j], duration)
  {
    var g := h[..|h| - 1];
    if i != q && j != q {
      assert Before(g, perm0[if i < q then i else i - 1], perm0[if j < q then j else j - 1], duration);
    } else if i == q && q < j - 1 {
      assert Before(g, perm0[q], perm0[j - 1], duration);
    }
  }

  lemma SortWith<T>(h: seq<T>, perm0: seq<nat>, duration: T -> nat, q: nat)
    requires h != [] && StableSort(h[..|h| - 1], perm0, duration) && q <= |perm0|
    requires forall k | 0 <= k < q :: duration(h[perm0[k]]) >= duration(h[|h| - 1])
    requires q < |perm0| ==> duration(h[perm0[q]]) < duration(h[|h| - 1])
    ensures StableSort(h, With(perm0, q, |h| - 1), duration)
  {
    hide Before;
    var n := |h| - 1;
    var perm := With(perm0, q, n);
    forall k | 0 <= k < |h| ensures k in perm {
      if k == n {
        assert perm[q] == n;
      } else {
        assert k in perm0;
        var i :| 0 <= i < |perm0| && perm0[i] == k;
        assert perm[if i < q then i else i + 1] == k;
      }
    }
    forall i, j | 0 <= i < j < |perm| ensures Before(h, perm[i], perm[j], duration) {
      OrderWith(h, perm0, duration, q, i, j);
    }
  }
}
