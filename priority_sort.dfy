/**
 * Ordering by descending priority. The reference order is a stable insertion
 * sort; what any stable descending order must satisfy is stated by
 * `StablySortedFrom`, and the two are shown to coincide.
 */
module PrioritySort {

  datatype Prioritized<T> = Prioritized(item: T, priority: int)

  function Items<T>(xs: seq<Prioritized<T>>): (r: seq<T>)
    ensures |r| == |xs| && forall i :: 0 <= i < |xs| ==> r[i] == xs[i].item
  {
    seq(|xs|, i requires 0 <= i < |xs| => xs[i].item)
  }

  lemma ItemsAppend<T>(a: seq<Prioritized<T>>, b: seq<Prioritized<T>>)
    ensures Items(a + b) == Items(a) + Items(b)
  {
  }

  /** Inserting adds the element's item and nothing else. */
  lemma {:induction false} InsertItems<T>(x: Prioritized<T>, sorted: seq<Prioritized<T>>)
    ensures multiset(Items(Insert(x, sorted))) == multiset(Items(sorted)) + multiset{x.item}
    decreases |sorted|
  {
    if |sorted| > 0 && sorted[0].priority >= x.priority {
      InsertItems(x, sorted[1..]);
      ItemsAppend([sorted[0]], Insert(x, sorted[1..]));
      ItemsAppend([sorted[0]], sorted[1..]);
      assert sorted == [sorted[0]] + sorted[1..];
    } else {
      ItemsAppend([x], sorted);
    }
  }

  /** Sorting reorders the items: the same items, as often as before. */
  lemma {:induction false} SortDescendingItems<T>(xs: seq<Prioritized<T>>)
    ensures multiset(Items(SortDescending(xs))) == multiset(Items(xs))
    decreases |xs|
  {
    if |xs| > 0 {
      var init, last := xs[..|xs| - 1], xs[|xs| - 1];
      SortDescendingItems(init);
      InsertItems(last, SortDescending(init));
      assert xs == init + [last];
      ItemsAppend(init, [last]);
    }
  }

  /** The elements of one priority, in their order. */
  function WithPriority<T>(xs: seq<Prioritized<T>>, p: int): seq<Prioritized<T>>
    decreases |xs|
  {
    if |xs| == 0 then [] else (if xs[0].priority == p then [xs[0]] else []) + WithPriority(xs[1..], p)
  }

  predicate NonIncreasing<T>(xs: seq<Prioritized<T>>) {
    forall i, j :: 0 <= i < j < |xs| ==> xs[i].priority >= xs[j].priority
  }

  /** r lists the elements of xs by non-increasing priority, each priority's
      elements in the order xs has them. */
  ghost predicate StablySortedFrom<T>(r: seq<Prioritized<T>>, xs: seq<Prioritized<T>>) {
    NonIncreasing(r) && forall p :: WithPriority(r, p) == WithPriority(xs, p)
  }

  /** Puts x after every element whose priority is at least x's. */
  function Insert<T>(x: Prioritized<T>, sorted: seq<Prioritized<T>>): seq<Prioritized<T>>
    decreases |sorted|
  {
    if |sorted| == 0 then [x]
    else if sorted[0].priority >= x.priority then [sorted[0]] + Insert(x, sorted[1..])
    else [x] + sorted
  }

  function SortDescending<T>(xs: seq<Prioritized<T>>): seq<Prioritized<T>>
    decreases |xs|
  {
    if |xs| == 0 then [] else Insert(xs[|xs| - 1], SortDescending(xs[..|xs| - 1]))
  }

  // ---------------------------------------------------------------------------

  lemma {:induction false} WithPriorityAppend<T>(a: seq<Prioritized<T>>, b: seq<Prioritized<T>>, p: int)
    ensures WithPriority(a + b, p) == WithPriority(a, p) + WithPriority(b, p)
    decreases |a|
  {
    if |a| == 0 {
      assert a + b == b;
    } else {
      assert (a + b)[1..] == a[1..] + b;
      WithPriorityAppend(a[1..], b, p);
    }
  }

  lemma {:induction false} WithPriorityMembers<T>(xs: seq<Prioritized<T>>, p: int)
    ensures forall x :: x in WithPriority(xs, p) <==> x in xs && x.priority == p
    decreases |xs|
  {
    if |xs| > 0 {
      WithPriorityMembers(xs[1..], p);
      assert xs == [xs[0]] + xs[1..];
    }
  }

  lemma {:induction false} WithPriorityUniform<T>(xs: seq<Prioritized<T>>, p: int)
    ensures forall i :: 0 <= i < |WithPriority(xs, p)| ==> WithPriority(xs, p)[i].priority == p
    decreases |xs|
  {
    if |xs| > 0 {
      WithPriorityUniform(xs[1..], p);
      var h: seq<Prioritized<T>> := if xs[0].priority == p then [xs[0]] else [];
      var r := WithPriority(xs, p);
      assert r == h + WithPriority(xs[1..], p);
      forall i | 0 <= i < |r| ensures r[i].priority == p {
        if i >= |h| { assert r[i] == WithPriority(xs[1..], p)[i - |h|]; }
      }
    }
  }

  lemma {:induction false} WithPriorityAbsent<T>(xs: seq<Prioritized<T>>, p: int)
    requires forall i :: 0 <= i < |xs| ==> xs[i].priority != p
    ensures WithPriority(xs, p) == []
    decreases |xs|
  {
    if |xs| > 0 {
      WithPriorityAbsent(xs[1..], p);
    }
  }

  predicate AtMost<T>(xs: seq<Prioritized<T>>, bound: int) {
    forall i :: 0 <= i < |xs| ==> xs[i].priority <= bound
  }

  lemma NonIncreasingCons<T>(x: Prioritized<T>, xs: seq<Prioritized<T>>)
    ensures NonIncreasing([x] + xs) <==> NonIncreasing(xs) && AtMost(xs, x.priority)
  {
    var r := [x] + xs;
    if NonIncreasing(xs) && AtMost(xs, x.priority) {
      forall i, j | 0 <= i < j < |r| ensures r[i].priority >= r[j].priority {
        assert r[j] == xs[j - 1];
        if i > 0 { assert r[i] == xs[i - 1]; }
      }
    }
    if NonIncreasing(r) {
      forall i | 0 <= i < |xs| ensures xs[i].priority <= x.priority {
        assert r[0] == x && r[i + 1] == xs[i];
        assert r[0].priority >= r[i + 1].priority;
      }
      forall i, j | 0 <= i < j < |xs| ensures xs[i].priority >= xs[j].priority {
        assert r[i + 1] == xs[i] && r[j + 1] == xs[j];
      }
    }
  }

  lemma {:induction false} InsertMultiset<T>(x: Prioritized<T>, sorted: seq<Prioritized<T>>)
    ensures multiset(Insert(x, sorted)) == multiset(sorted) + multiset{x}
    decreases |sorted|
  {
    if |sorted| > 0 && sorted[0].priority >= x.priority {
      InsertMultiset(x, sorted[1..]);
      assert sorted == [sorted[0]] + sorted[1..];
    }
  }

  lemma {:induction false} InsertAtMost<T>(x: Prioritized<T>, sorted: seq<Prioritized<T>>, bound: int)
    requires AtMost(sorted, bound) && x.priority <= bound
    ensures AtMost(Insert(x, sorted), bound)
    decreases |sorted|
  {
    if |sorted| > 0 {
      if sorted[0].priority >= x.priority {
        InsertAtMost(x, sorted[1..], bound);
        var r := Insert(x, sorted);
        forall i | 0 <= i < |r| ensures r[i].priority <= bound {
          if i > 0 { assert r[i] == Insert(x, sorted[1..])[i - 1]; }
        }
      } else {
        var r := [x] + sorted;
        forall i | 0 <= i < |r| ensures r[i].priority <= bound {
          if i > 0 { assert r[i] == sorted[i - 1]; }
        }
      }
    }
  }

  lemma {:induction false} InsertSorted<T>(x: Prioritized<T>, sorted: seq<Prioritized<T>>)
    requires NonIncreasing(sorted)
    ensures NonIncreasing(Insert(x, sorted))
    decreases |sorted|
  {
    if |sorted| > 0 {
      NonIncreasingCons(sorted[0], sorted[1..]);
      assert sorted == [sorted[0]] + sorted[1..];
      if sorted[0].priority >= x.priority {
        InsertSorted(x, sorted[1..]);
        InsertAtMost(x, sorted[1..], sorted[0].priority);
        NonIncreasingCons(sorted[0], Insert(x, sorted[1..]));
      } else {
        NonIncreasingCons(x, sorted);
      }
    }
  }

  lemma WithPrioritySingle<T>(x: Prioritized<T>, p: int)
    ensures WithPriority([x], p) == if x.priority == p then [x] else []
  {
    assert WithPriority([x], p) == (if x.priority == p then [x] else []) + WithPriority([x][1..], p);
  }

  lemma {:induction false} InsertWithPriority<T>(x: Prioritized<T>, sorted: seq<Prioritized<T>>, p: int)
    requires NonIncreasing(sorted)
    ensures WithPriority(Insert(x, sorted), p) == WithPriority(sorted, p) + WithPriority([x], p)
    decreases |sorted|
  {
    if |sorted| > 0 {
      NonIncreasingCons(sorted[0], sorted[1..]);
      assert sorted == [sorted[0]] + sorted[1..];
      if sorted[0].priority >= x.priority {
        InsertWithPriority(x, sorted[1..], p);
        InsertPast(x, sorted, p);
      } else {
        InsertInFront(x, sorted, p);
      }
    } else {
      WithPrioritySingle(x, p);
    }
  }

  /** x goes after a head of at least its priority. */
  lemma InsertPast<T>(x: Prioritized<T>, sorted: seq<Prioritized<T>>, p: int)
    requires |sorted| > 0 && sorted[0].priority >= x.priority
    requires WithPriority(Insert(x, sorted[1..]), p) == WithPriority(sorted[1..], p) + WithPriority([x], p)
    ensures WithPriority(Insert(x, sorted), p) == WithPriority(sorted, p) + WithPriority([x], p)
  {
    var h: seq<Prioritized<T>> := if sorted[0].priority == p then [sorted[0]] else [];
    assert Insert(x, sorted) == [sorted[0]] + Insert(x, sorted[1..]);
    assert WithPriority(Insert(x, sorted), p) == h + WithPriority(Insert(x, sorted[1..]), p);
    assert WithPriority(sorted, p) == h + WithPriority(sorted[1..], p);
  }

  /** x goes in front of a sorted sequence whose priorities are all below its own. */
  lemma InsertInFront<T>(x: Prioritized<T>, sorted: seq<Prioritized<T>>, p: int)
    requires |sorted| > 0 && sorted[0].priority < x.priority && NonIncreasing(sorted)
    ensures WithPriority(Insert(x, sorted), p) == WithPriority(sorted, p) + WithPriority([x], p)
  {
    WithPrioritySingle(x, p);
    WithPriorityAppend([x], sorted, p);
    if p == x.priority {
      forall i | 0 <= i < |sorted| ensures sorted[i].priority != p {
        assert sorted[0].priority >= sorted[i].priority || i == 0;
      }
      WithPriorityAbsent(sorted, p);
    }
  }

  /** The reference sort is stable and descending. */
  lemma {:induction false} SortDescendingStable<T>(xs: seq<Prioritized<T>>)
    ensures StablySortedFrom(SortDescending(xs), xs)
    ensures multiset(SortDescending(xs)) == multiset(xs)
    decreases |xs|
  {
    if |xs| > 0 {
      var init, last := xs[..|xs| - 1], xs[|xs| - 1];
      SortDescendingStable(init);
      InsertSorted(last, SortDescending(init));
      InsertMultiset(last, SortDescending(init));
      assert xs == init + [last];
      forall p ensures WithPriority(SortDescending(xs), p) == WithPriority(xs, p) {
        InsertWithPriority(last, SortDescending(init), p);
        WithPriorityAppend(init, [last], p);
      }
    }
  }

  /** The same elements of each priority, in the same order. */
  ghost predicate SameClasses<T>(a: seq<Prioritized<T>>, b: seq<Prioritized<T>>) {
    forall p :: WithPriority(a, p) == WithPriority(b, p)
  }

  /** At most one sequence is a stable descending ordering of xs. */
  lemma {:induction false} StableUnique<T>(a: seq<Prioritized<T>>, b: seq<Prioritized<T>>)
    requires NonIncreasing(a) && NonIncreasing(b)
    requires SameClasses(a, b)
    ensures a == b
    decreases |a|
  {
    if |a| > 0 {
      StableUniqueStep(a, b);
      StableUnique(a[1..], b[1..]);
      assert a == [a[0]] + a[1..] && b == [b[0]] + b[1..];
    } else {
      NonEmptyWithPriority(b);
      assert WithPriority(b, if |b| > 0 then b[0].priority else 0) == WithPriority(a, if |b| > 0 then b[0].priority else 0);
    }
  }

  /** Two stable descending orderings agree on their first element and on
      the classes of what follows it. */
  lemma StableUniqueStep<T>(a: seq<Prioritized<T>>, b: seq<Prioritized<T>>)
    requires NonIncreasing(a) && NonIncreasing(b) && SameClasses(a, b) && |a| > 0
    ensures |b| > 0 && a[0] == b[0]
    ensures NonIncreasing(a[1..]) && NonIncreasing(b[1..]) && SameClasses(a[1..], b[1..])
  {
    NonEmptyWithPriority(a);
    assert WithPriority(b, a[0].priority) == WithPriority(a, a[0].priority);
    assert |b| > 0;
    SameHead(a, b);
    forall p ensures WithPriority(a[1..], p) == WithPriority(b[1..], p) {
      SameTail(a, b, p);
    }
    NonIncreasingCons(a[0], a[1..]);
    NonIncreasingCons(b[0], b[1..]);
    assert a == [a[0]] + a[1..] && b == [b[0]] + b[1..];
  }

  lemma SameHead<T>(a: seq<Prioritized<T>>, b: seq<Prioritized<T>>)
    requires |a| > 0 && |b| > 0 && NonIncreasing(a) && NonIncreasing(b)
    requires SameClasses(a, b)
    ensures a[0] == b[0]
  {
    var pa, pb := a[0].priority, b[0].priority;
    WithPriorityMembers(a, pb);
    WithPriorityMembers(b, pa);
    assert b[0] in WithPriority(b, pb);
    assert b[0] in WithPriority(a, pb);
    var i :| 0 <= i < |a| && a[i] == b[0];
    assert a[0] in WithPriority(a, pa);
    assert a[0] in WithPriority(b, pa);
    var j :| 0 <= j < |b| && b[j] == a[0];
    assert pa == pb;
    assert WithPriority(a, pa)[0] == a[0];
    assert WithPriority(b, pa)[0] == b[0];
  }

  lemma SameTail<T>(a: seq<Prioritized<T>>, b: seq<Prioritized<T>>, p: int)
    requires |a| > 0 && |b| > 0 && a[0] == b[0]
    requires WithPriority(a, p) == WithPriority(b, p)
    ensures WithPriority(a[1..], p) == WithPriority(b[1..], p)
  {
    var h: seq<Prioritized<T>> := if a[0].priority == p then [a[0]] else [];
    assert WithPriority(a, p) == h + WithPriority(a[1..], p);
    assert WithPriority(b, p) == h + WithPriority(b[1..], p);
    assert WithPriority(a[1..], p) == WithPriority(a, p)[|h|..];
    assert WithPriority(b[1..], p) == WithPriority(b, p)[|h|..];
  }

  lemma NonEmptyWithPriority<T>(xs: seq<Prioritized<T>>)
    ensures |xs| > 0 ==> WithPriority(xs, xs[0].priority) != []
    ensures |xs| == 0 ==> forall p :: WithPriority(xs, p) == []
  {
  }

  /** Whatever satisfies the stable descending specification is the reference order. */
  lemma StablySortedIsSortDescending<T>(r: seq<Prioritized<T>>, xs: seq<Prioritized<T>>)
    requires StablySortedFrom(r, xs)
    ensures r == SortDescending(xs)
  {
    SortDescendingStable(xs);
    StableUnique(r, SortDescending(xs));
  }

  /** Equal per-priority contents mean the same elements. */
  lemma StableIsPermutation<T>(r: seq<Prioritized<T>>, xs: seq<Prioritized<T>>)
    requires StablySortedFrom(r, xs)
    ensures multiset(r) == multiset(xs)
  {
    StablySortedIsSortDescending(r, xs);
    SortDescendingStable(xs);
  }

  // ---------------------------------------------------------------------------
  // Concatenating one block per priority, as `krsort` and `array_merge` do.

  predicate StrictlyDecreasing(keys: seq<int>) {
    forall i, j :: 0 <= i < j < |keys| ==> keys[i] > keys[j]
  }

  function Blocks<T>(xs: seq<Prioritized<T>>, keys: seq<int>): seq<Prioritized<T>>
    decreases |keys|
  {
    if |keys| == 0 then [] else WithPriority(xs, keys[0]) + Blocks(xs, keys[1..])
  }

  lemma {:induction false} BlocksAppend<T>(xs: seq<Prioritized<T>>, keys: seq<int>, k: int)
    ensures Blocks(xs, keys + [k]) == Blocks(xs, keys) + WithPriority(xs, k)
    decreases |keys|
  {
    if |keys| == 0 {
      assert Blocks(xs, [k]) == WithPriority(xs, k) + Blocks(xs, []);
    } else {
      assert (keys + [k])[1..] == keys[1..] + [k];
      BlocksAppend(xs, keys[1..], k);
    }
  }

  lemma {:induction false} BlocksMembers<T>(xs: seq<Prioritized<T>>, keys: seq<int>)
    ensures forall x :: x in Blocks(xs, keys) ==> x.priority in keys
    decreases |keys|
  {
    if |keys| > 0 {
      var head, tail := WithPriority(xs, keys[0]), Blocks(xs, keys[1..]);
      BlocksMembers(xs, keys[1..]);
      WithPriorityUniform(xs, keys[0]);
      forall x: Prioritized<T> | x in head + tail ensures x.priority in keys {
        if x in head {
          var i :| 0 <= i < |head| && head[i] == x;
        } else {
          assert x in tail;
          var m :| 0 <= m < |keys[1..]| && keys[1..][m] == x.priority;
          assert keys[m + 1] == x.priority;
        }
      }
    }
  }

  lemma {:induction false} BlocksNonIncreasing<T>(xs: seq<Prioritized<T>>, keys: seq<int>)
    requires StrictlyDecreasing(keys)
    ensures NonIncreasing(Blocks(xs, keys))
    decreases |keys|
  {
    if |keys| > 0 {
      var k := keys[0];
      var head, tail := WithPriority(xs, k), Blocks(xs, keys[1..]);
      BlocksNonIncreasing(xs, keys[1..]);
      BlocksMembers(xs, keys[1..]);
      WithPriorityUniform(xs, k);
      var r := head + tail;
      forall i, j | 0 <= i < j < |r| ensures r[i].priority >= r[j].priority {
        if j < |head| {
          assert r[i] == head[i] && r[j] == head[j];
        } else if i < |head| {
          assert r[i] == head[i] && r[j] == tail[j - |head|] && r[j] in tail;
          var m :| 0 <= m < |keys[1..]| && keys[1..][m] == r[j].priority;
          assert keys[m + 1] == r[j].priority;
        } else {
          assert r[i] == tail[i - |head|] && r[j] == tail[j - |head|];
        }
      }
    }
  }

  lemma {:induction false} BlocksWithPriority<T>(xs: seq<Prioritized<T>>, keys: seq<int>, p: int)
    requires StrictlyDecreasing(keys)
    ensures WithPriority(Blocks(xs, keys), p) == if p in keys then WithPriority(xs, p) else []
    decreases |keys|
  {
    if |keys| > 0 {
      var k := keys[0];
      var head, tail := WithPriority(xs, k), Blocks(xs, keys[1..]);
      BlocksWithPriority(xs, keys[1..], p);
      WithPriorityAppend(head, tail, p);
      WithPriorityUniform(xs, k);
      assert p in keys <==> p == k || p in keys[1..] by {
        assert keys == [k] + keys[1..];
      }
      if p == k {
        WithPriorityOfUniform(head, p);
        assert p !in keys[1..];
      } else {
        WithPriorityAbsent(head, p);
      }
    }
  }

  lemma {:induction false} WithPriorityOfUniform<T>(xs: seq<Prioritized<T>>, p: int)
    requires forall i :: 0 <= i < |xs| ==> xs[i].priority == p
    ensures WithPriority(xs, p) == xs
    decreases |xs|
  {
    if |xs| > 0 {
      WithPriorityOfUniform(xs[1..], p);
      assert xs == [xs[0]] + xs[1..];
    }
  }

  /** One block per priority, highest first, is the stable descending order
      as soon as every priority present has its block. */
  lemma BlocksSorted<T>(xs: seq<Prioritized<T>>, keys: seq<int>)
    requires StrictlyDecreasing(keys)
    requires forall i :: 0 <= i < |xs| ==> xs[i].priority in keys
    ensures StablySortedFrom(Blocks(xs, keys), xs)
    ensures Blocks(xs, keys) == SortDescending(xs)
  {
    BlocksNonIncreasing(xs, keys);
    forall p ensures WithPriority(Blocks(xs, keys), p) == WithPriority(xs, p) {
      BlocksWithPriority(xs, keys, p);
      if p !in keys {
        WithPriorityAbsent(xs, p);
      }
    }
    StablySortedIsSortDescending(Blocks(xs, keys), xs);
  }
}
