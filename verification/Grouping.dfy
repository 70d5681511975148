/** Splitting a list by a key into an insertion-ordered dictionary, as the dead letter queue does. */
module Grouping {

  /** The items with a key, in order. */
  function Selected<T, K(==)>(items: seq<T>, key: T -> K, k: K): seq<T> {
    if items == [] then []
    else
      var n := |items| - 1;
      Selected(items[..n], key, k) + if key(items[n]) == k then [items[n]] else []
  }

  /** The keys in the order they are first seen. */
  function FirstSeen<T, K(==)>(items: seq<T>, key: T -> K): seq<K> {
    if items == [] then []
    else
      var n := |items| - 1;
      var before := FirstSeen(items[..n], key);
      if key(items[n]) in before then before else before + [key(items[n])]
  }

  /** The first `n` groups one after the other. */
  function Joined<T>(groups: seq<seq<T>>, n: nat): seq<T>
    requires n <= |groups|
  {
    if n == 0 then [] else Joined(groups, n - 1) + groups[n - 1]
  }

  /** One group for each key, in first-seen order, holding the items with that key. */
  ghost predicate IsGrouping<T, K>(items: seq<T>, key: T -> K, groups: seq<seq<T>>) {
    && |groups| == |FirstSeen(items, key)|
    && forall g | 0 <= g < |groups| :: groups[g] == Selected(items, key, FirstSeen(items, key)[g])
  }

  /** `keys` and `groups` are the dictionary: its keys in insertion order, and its entries. */
  method GroupBy<T(==), K(==)>(items: seq<T>, key: T -> K) returns (result: seq<seq<T>>)
    ensures IsGrouping(items, key, result)
  {
    var keys: seq<K>, groups: map<K, seq<T>> := [], map[];
    for i := 0 to |items|
      invariant keys == FirstSeen(items[..i], key)
      invariant forall k :: k in keys <==> k in groups.Keys
      invariant forall k | k in groups.Keys :: groups[k] == Selected(items[..i], key, k)
    {
      var k := key(items[i]);
      OneMore(items, key, i);
      if k !in groups.Keys {
        keys := keys + [k];
        groups := groups[k := []];
      }
      groups := groups[k := groups[k] + [items[i]]];
    }
    assert items[..|items|] == items;
    result := [];
    for g := 0 to |keys|
      invariant |result| == g
      invariant forall h | 0 <= h < g :: result[h] == groups[keys[h]]
    {
      result := result + [groups[keys[g]]];
    }
  }

  lemma OneMore<T, K>(items: seq<T>, key: T -> K, i: nat)
    requires i < |items|
    ensures var k, seen := key(items[i]), FirstSeen(items[..i], key);
            && FirstSeen(items[..i + 1], key) == (if k in seen then seen else seen + [k])
            && Selected(items[..i + 1], key, k) == Selected(items[..i], key, k) + [items[i]]
            && (k !in seen ==> Selected(items[..i], key, k) == [])
    ensures forall k | k != key(items[i]) :: Selected(items[..i + 1], key, k) == Selected(items[..i], key, k)
  {
    assert items[..i + 1][..i] == items[..i];
    SelectedSeen(items[..i], key, key(items[i]));
    forall k | k != key(items[i])
      ensures Selected(items[..i + 1], key, k) == Selected(items[..i], key, k)
    {
    }
  }

  lemma {:induction false} SelectedSeen<T, K>(items: seq<T>, key: T -> K, k: K)
    ensures k in FirstSeen(items, key) <==> Selected(items, key, k) != []
    ensures forall x :: x in Selected(items, key, k) <==> x in items && key(x) == k
  {
    if items != [] {
      SelectedSeen(items[..|items| - 1], key, k);
      assert items == items[..|items| - 1] + [items[|items| - 1]];
    }
  }

  lemma {:induction false} FirstSeenDistinct<T, K>(items: seq<T>, key: T -> K)
    ensures forall g, h | 0 <= g < h < |FirstSeen(items, key)| :: FirstSeen(items, key)[g] != FirstSeen(items, key)[h]
  {
    if items != [] {
      FirstSeenDistinct(items[..|items| - 1], key);
    }
  }

  /** Where each key is first seen. */
  function FirstAt<T, K(==)>(items: seq<T>, key: T -> K): seq<nat> {
    if items == [] then []
    else
      var n := |items| - 1;
      FirstAt(items[..n], key) + if key(items[n]) in FirstSeen(items[..n], key) then [] else [n]
  }

  /** The keys come in the order of their first items. */
  lemma {:induction false} KeysInOrder<T, K>(items: seq<T>, key: T -> K)
    ensures var at, keys := FirstAt(items, key), FirstSeen(items, key);
            && |at| == |keys|
            && (forall g | 0 <= g < |at| :: at[g] < |items| && key(items[at[g]]) == keys[g])
            && (forall g, h | 0 <= g < h < |at| :: at[g] < at[h])
  {
    if items != [] {
      KeysInOrder(items[..|items| - 1], key);
    }
  }

  /** And each is the first: no earlier item has its key, and every item's key is among them. */
  lemma {:induction false} NoneSeenBefore<T, K>(items: seq<T>, key: T -> K, g: nat, i: nat)
    requires g < |FirstAt(items, key)| && i < FirstAt(items, key)[g]
    ensures i < |items| && g < |FirstSeen(items, key)| && key(items[i]) != FirstSeen(items, key)[g]
  {
    var n := |items| - 1;
    KeysInOrder(items, key);
    KeysInOrder(items[..n], key);
    if g < |FirstAt(items[..n], key)| {
      NoneSeenBefore(items[..n], key, g, i);
    } else {
      SelectedSeen(items[..n], key, key(items[n]));
      assert items[..n][i] == items[i];
      assert items[i] in items[..n];
    }
  }

  /** The positions of the items with a key. */
  function SelectedAt<T, K(==)>(items: seq<T>, key: T -> K, k: K): seq<nat> {
    if items == [] then []
    else
      var n := |items| - 1;
      SelectedAt(items[..n], key, k) + if key(items[n]) == k then [n] else []
  }

  /** A group holds the items of its key in the order they are listed. */
  lemma {:induction false} SelectedInOrder<T, K>(items: seq<T>, key: T -> K, k: K)
    ensures var at := SelectedAt(items, key, k);
            && |at| == |Selected(items, key, k)|
            && (forall j | 0 <= j < |at| :: at[j] < |items| && items[at[j]] == Selected(items, key, k)[j])
            && (forall i, j | 0 <= i < j < |at| :: at[i] < at[j])
            && (forall i | 0 <= i < |items| :: i in at <==> key(items[i]) == k)
  {
    if items != [] {
      SelectedInOrder(items[..|items| - 1], key, k);
    }
  }

  /** The groups partition the items: an item is in one of them, that of its key, and in no other. */
  lemma EachInItsGroup<T, K>(items: seq<T>, key: T -> K, groups: seq<seq<T>>, x: T)
    requires IsGrouping(items, key, groups) && x in items
    ensures exists g :: 0 <= g < |groups| && OnlyGroup(items, key, groups, g, x)
    ensures forall g, y | 0 <= g < |groups| && y in groups[g] :: y in items && key(y) == FirstSeen(items, key)[g]
    ensures forall g | 0 <= g < |groups| :: groups[g] != []
  {
    forall g | 0 <= g < |groups|
      ensures groups[g] != []
      ensures forall y :: y in groups[g] <==> y in items && key(y) == FirstSeen(items, key)[g]
    {
      SelectedSeen(items, key, FirstSeen(items, key)[g]);
    }
    SelectedSeen(items, key, key(x));
    FirstSeenDistinct(items, key);
    var g :| 0 <= g < |groups| && FirstSeen(items, key)[g] == key(x);
    assert OnlyGroup(items, key, groups, g, x);
  }

  ghost predicate OnlyGroup<T, K>(items: seq<T>, key: T -> K, groups: seq<seq<T>>, g: nat, x: T) {
    && g < |groups| && x in groups[g]
    && forall h | 0 <= h < |groups| && x in groups[h] :: h == g
  }

  /** Grouping keeps every item exactly as often as it is listed. */
  lemma GroupingConserves<T(!new), K>(items: seq<T>, key: T -> K, groups: seq<seq<T>>)
    requires IsGrouping(items, key, groups)
    ensures multiset(Joined(groups, |groups|)) == multiset(items)
  {
    forall x: T
      ensures multiset(Joined(groups, |groups|))[x] == multiset(items)[x]
    {
      KeepsCount(items, key, groups, x);
    }
  }

  lemma KeepsCount<T, K>(items: seq<T>, key: T -> K, groups: seq<seq<T>>, x: T)
    requires IsGrouping(items, key, groups)
    ensures multiset(Joined(groups, |groups|))[x] == multiset(items)[x]
  {
    JoinedCount(items, key, groups, |groups|, x);
    SelectedSeen(items, key, key(x));
    if x !in items {
      assert multiset(items)[x] == 0;
    }
  }

  /** The key of `x` is among the first `n` keys. */
  ghost predicate SeenBy<T, K>(items: seq<T>, key: T -> K, n: nat, x: T) {
    exists g :: 0 <= g < n && g < |FirstSeen(items, key)| && FirstSeen(items, key)[g] == key(x)
  }

  lemma {:induction false} JoinedCount<T, K>(items: seq<T>, key: T -> K, groups: seq<seq<T>>, n: nat, x: T)
    requires IsGrouping(items, key, groups) && n <= |groups|
    ensures multiset(Joined(groups, n))[x] == if SeenBy(items, key, n, x) then multiset(items)[x] else 0
  {
    if n > 0 {
      JoinedCount(items, key, groups, n - 1, x);
      SelectedCount(items, key, FirstSeen(items, key)[n - 1], x);
      SeenOnce(items, key, n, x);
    }
  }

  lemma SeenOnce<T, K>(items: seq<T>, key: T -> K, n: nat, x: T)
    requires 1 <= n <= |FirstSeen(items, key)|
    ensures SeenBy(items, key, n, x) <==> SeenBy(items, key, n - 1, x) || FirstSeen(items, key)[n - 1] == key(x)
    ensures !(SeenBy(items, key, n - 1, x) && FirstSeen(items, key)[n - 1] == key(x))
  {
  }

  lemma {:induction false} SelectedCount<T, K>(items: seq<T>, key: T -> K, k: K, x: T)
    ensures multiset(Selected(items, key, k))[x] == if key(x) == k then multiset(items)[x] else 0
  {
    if items != [] {
      var n := |items| - 1;
      SelectedCount(items[..n], key, k, x);
      assert items == items[..n] + [items[n]];
    }
  }
}
