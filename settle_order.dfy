/** The settle order of a moon set: the moon indices sorted by descending
    normalised target angle, as `orderData.sort((a, b) => b.ang - a.ang)`
    leaves them. The sort is stable, so moons with equal angles keep their
    index order. */
module SettleOrder {

  /** The indices 0 .. n-1 in order, as orderData is built. */
  function Range(n: nat): (s: seq<nat>)
    ensures |s| == n
    ensures forall j :: 0 <= j < n ==> s[j] == j
  {
    if n == 0 then [] else Range(n - 1) + [n - 1]
  }

  /** The angle of index x (every index the sort sees has one). */
  function Key(keys: seq<real>, x: nat): real
  {
    if x < |keys| then keys[x] else 0.0
  }

  /** a settles before b: a larger angle, or the same angle and a smaller index. */
  predicate Before(keys: seq<real>, a: nat, b: nat)
  {
    Key(keys, a) > Key(keys, b) || (Key(keys, a) == Key(keys, b) && a < b)
  }

  /** Every neighbouring pair of the order is in settle order. */
  ghost predicate Ordered(keys: seq<real>, order: seq<nat>)
  {
    forall j :: 0 <= j < |order| - 1 ==> Before(keys, order[j], order[j + 1])
  }

  /** Every index of the order is below b. */
  ghost predicate Below(order: seq<nat>, b: nat)
  {
    forall j :: 0 <= j < |order| ==> order[j] < b
  }

  /** Stable insertion of index i behind every entry whose angle is at least as large. */
  function Insert(keys: seq<real>, i: nat, order: seq<nat>): seq<nat>
  {
    if order == [] then [i]
    else if Key(keys, order[0]) >= Key(keys, i) then [order[0]] + Insert(keys, i, order[1..])
    else [i] + order
  }

  /** The sort applied to the first n indices, inserted in index order. */
  function SortByAngle(keys: seq<real>, n: nat): seq<nat>
  {
    if n == 0 then [] else Insert(keys, n - 1, SortByAngle(keys, n - 1))
  }

  /** Insertion adds exactly i and keeps every other index. */
  lemma {:induction false} InsertContents(keys: seq<real>, i: nat, order: seq<nat>)
    ensures multiset(Insert(keys, i, order)) == multiset(order) + multiset{i}
    ensures |Insert(keys, i, order)| == |order| + 1
  {
    if order != [] && Key(keys, order[0]) >= Key(keys, i) {
      InsertContents(keys, i, order[1..]);
      assert order == [order[0]] + order[1..];
    }
  }

  /** Insertion of an index below b keeps every index below b. */
  lemma {:induction false} InsertBelow(keys: seq<real>, i: nat, order: seq<nat>, b: nat)
    requires Below(order, b) && i < b
    ensures Below(Insert(keys, i, order), b)
  {
    if order != [] && Key(keys, order[0]) >= Key(keys, i) {
      InsertBelow(keys, i, order[1..], b);
    }
  }

  /** Inserting an index larger than all present ones keeps the order,
      and the head is either the old head or the new index. */
  lemma {:induction false} InsertOrdered(keys: seq<real>, i: nat, order: seq<nat>)
    requires Below(order, i) && Ordered(keys, order)
    ensures Ordered(keys, Insert(keys, i, order))
    ensures Insert(keys, i, order)[0] == i || (order != [] && Insert(keys, i, order)[0] == order[0])
  {
    if order != [] && Key(keys, order[0]) >= Key(keys, i) {
      var rest := order[1..];
      InsertOrdered(keys, i, rest);
      var t := Insert(keys, i, rest);
      var r := [order[0]] + t;
      assert Before(keys, order[0], t[0]);
      forall j | 0 <= j < |r| - 1
        ensures Before(keys, r[j], r[j + 1])
      {
        if j > 0 {
          assert r[j] == t[j - 1] && r[j + 1] == t[j];
        }
      }
    }
  }

  /** The first n indices, sorted, are all below n. */
  lemma {:induction false} SortBelow(keys: seq<real>, n: nat)
    ensures Below(SortByAngle(keys, n), n)
  {
    if n > 0 {
      SortBelow(keys, n - 1);
      InsertBelow(keys, n - 1, SortByAngle(keys, n - 1), n);
    }
  }

  /** The first n indices, sorted: each index exactly once. */
  lemma {:induction false} SortIsPermutation(keys: seq<real>, n: nat)
    ensures multiset(SortByAngle(keys, n)) == multiset(Range(n))
    ensures |SortByAngle(keys, n)| == n
  {
    if n > 0 {
      SortIsPermutation(keys, n - 1);
      InsertContents(keys, n - 1, SortByAngle(keys, n - 1));
      assert Range(n) == Range(n - 1) + [n - 1];
    }
  }

  /** The sorted indices run from the largest angle down, ties by index. */
  lemma {:induction false} SortIsOrdered(keys: seq<real>, n: nat)
    ensures Ordered(keys, SortByAngle(keys, n))
  {
    if n > 0 {
      SortIsOrdered(keys, n - 1);
      SortBelow(keys, n - 1);
      InsertOrdered(keys, n - 1, SortByAngle(keys, n - 1));
    }
  }
}
