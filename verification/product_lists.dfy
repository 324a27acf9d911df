/**
 * The two list rules that both the virtual trader's StrategyManager and the
 * `!crypto add_product` / `remove_product` commands apply to a product list:
 * append an id only when it is absent, and Python's `list.remove`, which
 * deletes the first occurrence.
 */
module ProductLists {

  predicate NoDuplicates<T(==)>(xs: seq<T>) {
    forall i, j :: 0 <= i < j < |xs| ==> xs[i] != xs[j]
  }

  /** `if x not in xs: xs.append(x)` */
  function WithItem<T(==)>(xs: seq<T>, x: T): (r: seq<T>)
    ensures x in r
    ensures forall y :: y in xs ==> y in r
    ensures forall y :: y in r ==> y in xs || y == x
    ensures NoDuplicates(xs) ==> NoDuplicates(r)
    ensures xs <= r && |r| == (if x in xs then |xs| else |xs| + 1)
  {
    if x in xs then xs else xs + [x]
  }

  /** `xs.remove(x)` when `x in xs`; the list unchanged otherwise. */
  function RemoveFirst<T(==)>(xs: seq<T>, x: T): (r: seq<T>)
    ensures forall y :: y in r ==> y in xs
    ensures x !in xs ==> r == xs
    ensures x in xs ==> |r| == |xs| - 1
  {
    if xs == [] then []
    else if xs[0] == x then xs[1..]
    else [xs[0]] + RemoveFirst(xs[1..], x)
  }

  /** The position of the first occurrence of `x`, as `xs.index(x)` reports it. */
  function IndexOf<T(==)>(xs: seq<T>, x: T): (i: nat)
    requires x in xs
    ensures i < |xs| && xs[i] == x && x !in xs[..i]
  {
    if xs[0] == x then 0 else 1 + IndexOf(xs[1..], x)
  }

  /** Removal cuts the list at the first occurrence of the item and closes the gap. */
  lemma {:induction false} RemoveFirstAt<T>(xs: seq<T>, x: T)
    requires x in xs
    ensures RemoveFirst(xs, x) == xs[..IndexOf(xs, x)] + xs[IndexOf(xs, x) + 1..]
  {
    if xs[0] != x {
      var i := IndexOf(xs[1..], x);
      RemoveFirstAt(xs[1..], x);
      assert xs[1..][..i] + xs[1..][i + 1..] == xs[1..i + 1] + xs[i + 2..];
      assert [xs[0]] + xs[1..i + 1] == xs[..i + 1];
    }
  }

  /** Removal takes away exactly one occurrence of the item, and nothing else. */
  lemma {:induction false} RemoveFirstCounts<T>(xs: seq<T>, x: T)
    ensures multiset(RemoveFirst(xs, x)) == multiset(xs) - multiset{x}
  {
    if xs != [] {
      assert xs == [xs[0]] + xs[1..];
      assert multiset(xs) == multiset{xs[0]} + multiset(xs[1..]);
      if xs[0] != x {
        RemoveFirstCounts(xs[1..], x);
        assert multiset(RemoveFirst(xs, x)) == multiset{xs[0]} + multiset(RemoveFirst(xs[1..], x));
      }
    }
  }

  /** Adding an item that is already there, or adding twice, changes nothing. */
  lemma AddTwiceIsAddOnce<T>(xs: seq<T>, x: T)
    ensures WithItem(WithItem(xs, x), x) == WithItem(xs, x)
  {
  }

  /** On a duplicate-free list, removal deletes every occurrence and keeps the list duplicate-free. */
  lemma {:induction false} RemoveFromDistinct<T>(xs: seq<T>, x: T)
    requires NoDuplicates(xs)
    ensures x !in RemoveFirst(xs, x)
    ensures NoDuplicates(RemoveFirst(xs, x))
    ensures forall y :: y in xs && y != x ==> y in RemoveFirst(xs, x)
  {
    if xs != [] {
      assert NoDuplicates(xs[1..]);
      if xs[0] == x {
        assert x !in xs[1..] by {
          forall k | 0 <= k < |xs[1..]| ensures xs[1..][k] != x {
            assert xs[1..][k] == xs[k + 1];
          }
        }
      } else {
        RemoveFromDistinct(xs[1..], x);
        var rest := RemoveFirst(xs[1..], x);
        assert xs[0] !in rest by {
          assert xs[0] !in xs[1..] by {
            forall k | 0 <= k < |xs[1..]| ensures xs[1..][k] != xs[0] {
              assert xs[1..][k] == xs[k + 1];
            }
          }
        }
        forall y | y in xs && y != x ensures y in [xs[0]] + rest {
          if y != xs[0] {
            assert y in xs[1..];
          }
        }
      }
    }
  }

  /** Removing an item just appended to a list that lacked it restores the list. */
  lemma {:induction false} RemoveAfterAppend<T>(xs: seq<T>, x: T)
    requires x !in xs
    ensures RemoveFirst(WithItem(xs, x), x) == xs
  {
    if xs != [] {
      assert (xs + [x])[1..] == xs[1..] + [x];
      RemoveAfterAppend(xs[1..], x);
    }
  }
}
