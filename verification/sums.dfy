/** Sums over listings: what they do not depend on, and how they split. */
module Sums {

  function Sum<T>(items: seq<T>, weight: T -> real): real {
    if items == [] then 0.0 else Sum(items[..|items| - 1], weight) + weight(items[|items| - 1])
  }

  function Count<T>(items: seq<T>, weight: T -> int): int {
    if items == [] then 0 else Count(items[..|items| - 1], weight) + weight(items[|items| - 1])
  }

  lemma {:induction false} SumWithout<T>(items: seq<T>, weight: T -> real, i: nat)
    requires i < |items|
    ensures Sum(items, weight) == Sum(items[..i] + items[i + 1..], weight) + weight(items[i])
  {
    var last := |items| - 1;
    if i == last {
      assert items[..i] + items[i + 1..] == items[..last];
    } else {
      SumWithout(items[..last], weight, i);
      var rest := items[..i] + items[i + 1..];
      assert items[..last][..i] + items[..last][i + 1..] == rest[..|rest| - 1];
    }
  }

  lemma WithoutOne<T>(items: seq<T>, i: nat)
    requires i < |items|
    ensures multiset(items[..i] + items[i + 1..]) == multiset(items) - multiset{items[i]}
  {
    assert items == items[..i] + [items[i]] + items[i + 1..];
  }

  /** A sum does not depend on the order of its terms. */
  lemma {:induction false} SumIsOrderFree<T>(a: seq<T>, b: seq<T>, weight: T -> real)
    requires multiset(a) == multiset(b)
    ensures Sum(a, weight) == Sum(b, weight)
  {
    if a == [] {
      assert |multiset(b)| == 0;
    } else {
      var front, x := a[..|a| - 1], a[|a| - 1];
      assert a == front + [x];
      assert x in multiset(b);
      var i :| 0 <= i < |b| && b[i] == x;
      WithoutOne(b, i);
      SumWithout(b, weight, i);
      hide Sum;
      SumIsOrderFree(front, b[..i] + b[i + 1..], weight);
    }
  }

  lemma {:induction false} SumAppend<T>(a: seq<T>, b: seq<T>, weight: T -> real)
    ensures Sum(a + b, weight) == Sum(a, weight) + Sum(b, weight)
  {
    if b == [] {
      assert a + b == a;
    } else {
      SumAppend(a, b[..|b| - 1], weight);
      assert (a + b)[..|a + b| - 1] == a + b[..|b| - 1];
    }
  }

  lemma {:induction false} SumUpdate<T>(items: seq<T>, weight: T -> real, i: nat, x: T)
    requires i < |items|
    ensures Sum(items[i := x], weight) == Sum(items, weight) - weight(items[i]) + weight(x)
  {
    var last := |items| - 1;
    if i < last {
      SumUpdate(items[..last], weight, i, x);
      assert items[i := x][..last] == items[..last][i := x];
    } else {
      assert items[i := x][..last] == items[..last];
    }
  }

  lemma SumOneMore<T>(items: seq<T>, x: T, weight: T -> real)
    ensures Sum(items + [x], weight) == Sum(items, weight) + weight(x)
  {
    assert (items + [x])[..|items|] == items;
  }

  ghost predicate Distinct<T>(s: seq<T>) {
    forall i, j :: 0 <= i < j < |s| ==> s[i] != s[j]
  }

  ghost function Elements<T>(s: seq<T>): set<T> {
    set x | x in s
  }

  lemma {:induction false} DistinctCount<T>(s: seq<T>)
    requires Distinct(s)
    ensures |Elements(s)| == |s|
  {
    if s != [] {
      var front, last := s[..|s| - 1], s[|s| - 1];
      DistinctCount(front);
      assert s == front + [last];
      assert Elements(s) == Elements(front) + {last};
    }
  }

  lemma ProperSubsetIsSmaller<T>(a: set<T>, b: set<T>)
    requires a < b
    ensures |a| < |b|
  {
    assert b == a + (b - a);
    assert b - a != {};
    assert |b| == |a| + |b - a|;
  }

  /** The weight of the items filed under one key. */
  function Group<T, K(==)>(items: seq<T>, key: T -> K, weight: T -> int, k: K): int {
    if items == [] then 0
    else
      var last := |items| - 1;
      Group(items[..last], key, weight, k) + (if key(items[last]) == k then weight(items[last]) else 0)
  }

  function GroupTotals<T, K(==)>(items: seq<T>, key: T -> K, weight: T -> int, keys: seq<K>): int {
    if keys == [] then 0
    else GroupTotals(items, key, weight, keys[..|keys| - 1]) + Group(items, key, weight, keys[|keys| - 1])
  }

  lemma {:induction false} GroupTotalsGrow<T, K>(items: seq<T>, key: T -> K, weight: T -> int, keys: seq<K>)
    requires items != [] && Distinct(keys)
    ensures GroupTotals(items, key, weight, keys)
         == GroupTotals(items[..|items| - 1], key, weight, keys)
            + (if key(items[|items| - 1]) in keys then weight(items[|items| - 1]) else 0)
  {
    if keys != [] {
      var front, k := keys[..|keys| - 1], keys[|keys| - 1];
      assert keys == front + [k];
      GroupTotalsGrow(items, key, weight, front);
      assert k !in front;
    }
  }

  lemma {:induction false} NothingToGroup<T, K>(key: T -> K, weight: T -> int, keys: seq<K>)
    ensures GroupTotals([], key, weight, keys) == 0
  {
    if keys != [] {
      NothingToGroup(key, weight, keys[..|keys| - 1]);
    }
  }

  /** A breakdown by any key, listed over distinct keys that cover the items, adds up to the whole. */
  lemma {:induction false} BreakdownAddsUp<T, K>(items: seq<T>, key: T -> K, weight: T -> int, keys: seq<K>)
    requires Distinct(keys) && forall x :: x in items ==> key(x) in keys
    ensures GroupTotals(items, key, weight, keys) == Count(items, weight)
  {
    if items == [] {
      NothingToGroup(key, weight, keys);
    } else {
      assert items[|items| - 1] in items;
      BreakdownAddsUp(items[..|items| - 1], key, weight, keys);
      GroupTotalsGrow(items, key, weight, keys);
    }
  }

  lemma {:induction false} AbsentKey<T, K>(items: seq<T>, key: T -> K, weight: T -> int, k: K)
    requires forall x :: x in items ==> key(x) != k
    ensures Group(items, key, weight, k) == 0
  {
    if items != [] {
      assert items[|items| - 1] in items;
      AbsentKey(items[..|items| - 1], key, weight, k);
    }
  }

  lemma CountStep<T>(items: seq<T>, weight: T -> int, i: nat)
    requires i < |items|
    ensures Count(items[..i + 1], weight) == Count(items[..i], weight) + weight(items[i])
  {
    assert items[..i + 1][..i] == items[..i];
  }

  lemma GroupStep<T, K>(items: seq<T>, key: T -> K, weight: T -> int, i: nat, k: K)
    requires i < |items|
    ensures Group(items[..i + 1], key, weight, k)
         == Group(items[..i], key, weight, k) + (if key(items[i]) == k then weight(items[i]) else 0)
  {
    assert items[..i + 1][..i] == items[..i];
  }

  /** Everything filed under its key, as a map: what a dictionary of accumulators holds. */
  ghost function Filed<T, K>(items: seq<T>, key: T -> K, weight: T -> int): map<K, int> {
    map k | k in (set i | 0 <= i < |items| :: key(items[i])) :: Group(items, key, weight, k)
  }

  lemma FiledStep<T, K>(items: seq<T>, key: T -> K, weight: T -> int, i: nat)
    requires i < |items|
    ensures var before, k := Filed(items[..i], key, weight), key(items[i]);
            Filed(items[..i + 1], key, weight)
            == before[k := (if k in before then before[k] else 0) + weight(items[i])]
  {
    var before, after, k := Filed(items[..i], key, weight), Filed(items[..i + 1], key, weight), key(items[i]);
    assert items[..i + 1] == items[..i] + [items[i]];
    forall j ensures j in after <==> j in before || j == k {
      if j in before {
        var n :| 0 <= n < i && key(items[..i][n]) == j;
        assert key(items[..i + 1][n]) == j;
      }
      assert key(items[..i + 1][i]) == k;
    }
    if k !in before {
      forall x | x in items[..i] ensures key(x) != k {
        var n :| 0 <= n < i && items[..i][n] == x;
      }
      AbsentKey(items[..i], key, weight, k);
    }
    forall j | j in after
      ensures after[j] == before[k := (if k in before then before[k] else 0) + weight(items[i])][j]
    {
      GroupStep(items, key, weight, i, j);
    }
  }

  lemma NothingFiled<T, K>(items: seq<T>, key: T -> K, weight: T -> int)
    ensures Filed(items[..0], key, weight) == map[] && Count(items[..0], weight) == 0
  {}

  lemma SameKeys<T, K>(items: seq<T>, key: T -> K, one: T -> int, other: T -> int)
    ensures Filed(items, key, one).Keys == Filed(items, key, other).Keys
  {}

  function Listed<K(==)>(accounts: map<K, int>, keys: seq<K>): int
    requires forall k :: k in keys ==> k in accounts
  {
    if keys == [] then 0
    else
      var k := keys[|keys| - 1];
      assert k in keys;
      Listed(accounts, keys[..|keys| - 1]) + accounts[k]
  }

  lemma {:induction false} ListedIsGrouped<T, K>(items: seq<T>, key: T -> K, weight: T -> int, keys: seq<K>)
    requires forall k :: k in keys ==> k in Filed(items, key, weight)
    ensures Listed(Filed(items, key, weight), keys) == GroupTotals(items, key, weight, keys)
  {
    if keys != [] {
      assert keys[|keys| - 1] in keys;
      ListedIsGrouped(items, key, weight, keys[..|keys| - 1]);
    }
  }

  /** However a dictionary of accumulators is listed, its entries add up to the whole. */
  lemma FiledAddsUp<T, K>(items: seq<T>, key: T -> K, weight: T -> int, keys: seq<K>)
    requires Distinct(keys) && Elements(keys) == Filed(items, key, weight).Keys
    ensures Listed(Filed(items, key, weight), keys) == Count(items, weight)
  {
    forall x | x in items ensures key(x) in keys {
      var i :| 0 <= i < |items| && items[i] == x;
      assert key(items[i]) in Filed(items, key, weight).Keys;
      assert key(items[i]) in Elements(keys);
    }
    ListedIsGrouped(items, key, weight, keys);
    BreakdownAddsUp(items, key, weight, keys);
  }
}
