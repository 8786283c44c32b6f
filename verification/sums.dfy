/** Sums of per-member coefficients over a set.

    The calculator adds one coefficient for each member of a set (medication
    groups, disease groups) while iterating the set in whatever order its
    iterator yields. `SumOver` fixes one canonical order, a duplicate-free
    listing of the whole element type; the lemmas below show that the total
    depends only on which members are present: each member contributes its
    coefficient exactly once, and summing along any other duplicate-free
    listing of the set gives the same total.
 */
module Sums {

  predicate Distinct<T(==)>(xs: seq<T>) {
    forall i, j :: 0 <= i < j < |xs| ==> xs[i] != xs[j]
  }

  /** The elements of a sequence, as a set. */
  function Elements<T(==)>(xs: seq<T>): set<T> {
    set i | 0 <= i < |xs| :: xs[i]
  }

  /** f summed over the members of s, visited in the order of `universe`. */
  function SumOver<T(==)>(universe: seq<T>, s: set<T>, f: T -> real): real
  {
    if |universe| == 0 then 0.0
    else (if universe[0] in s then f(universe[0]) else 0.0) + SumOver(universe[1..], s, f)
  }

  /** f summed along a sequence: the running total of a for-each loop. */
  function SeqSum<T(==)>(xs: seq<T>, f: T -> real): real
  {
    if |xs| == 0 then 0.0 else f(xs[0]) + SeqSum(xs[1..], f)
  }

  /** Only membership of the universe's elements matters. */
  lemma {:induction false} SumOverAgree<T>(universe: seq<T>, s1: set<T>, s2: set<T>, f: T -> real)
    requires forall x :: x in universe ==> (x in s1 <==> x in s2)
    ensures SumOver(universe, s1, f) == SumOver(universe, s2, f)
  {
    if |universe| > 0 {
      assert universe[0] in universe;
      forall x | x in universe[1..] ensures x in s1 <==> x in s2 {
        assert x in universe;
      }
      SumOverAgree(universe[1..], s1, s2, f);
    }
  }

  /** The empty set contributes nothing. */
  lemma {:induction false} SumOverEmpty<T>(universe: seq<T>, f: T -> real)
    ensures SumOver(universe, {}, f) == 0.0
  {
    if |universe| > 0 {
      SumOverEmpty(universe[1..], f);
    }
  }

  /** Adding a new member adds its coefficient exactly once. */
  lemma {:induction false} SumOverInsert<T>(universe: seq<T>, s: set<T>, x: T, f: T -> real)
    requires Distinct(universe)
    requires x in universe && x !in s
    ensures SumOver(universe, s + {x}, f) == SumOver(universe, s, f) + f(x)
  {
    var rest := universe[1..];
    assert Distinct(rest) by {
      forall i, j | 0 <= i < j < |rest| ensures rest[i] != rest[j] {
        assert rest[i] == universe[i + 1] && rest[j] == universe[j + 1];
      }
    }
    if universe[0] == x {
      assert x !in rest by {
        forall i | 0 <= i < |rest| ensures rest[i] != x {
          assert rest[i] == universe[i + 1];
        }
      }
      SumOverAgree(rest, s + {x}, s, f);
    } else {
      assert x in rest by {
        var k :| 0 <= k < |universe| && universe[k] == x;
        assert rest[k - 1] == x;
      }
      SumOverInsert(rest, s, x, f);
    }
  }

  /** Removing a member takes its coefficient away again. */
  lemma SumOverRemove<T>(universe: seq<T>, s: set<T>, x: T, f: T -> real)
    requires Distinct(universe)
    requires x in universe && x in s
    ensures SumOver(universe, s, f) == SumOver(universe, s - {x}, f) + f(x)
  {
    SumOverInsert(universe, s - {x}, x, f);
    assert (s - {x}) + {x} == s;
  }

  /** Iteration order is irrelevant: summing along any duplicate-free listing
      of a set gives the canonical total. */
  lemma {:induction false} IterationOrderIrrelevant<T>(universe: seq<T>, order: seq<T>, f: T -> real)
    requires Distinct(universe) && Distinct(order)
    requires forall x :: x in order ==> x in universe
    ensures SeqSum(order, f) == SumOver(universe, Elements(order), f)
  {
    if |order| == 0 {
      assert Elements(order) == {};
      SumOverEmpty(universe, f);
    } else {
      var rest := order[1..];
      assert Distinct(rest) by {
        forall i, j | 0 <= i < j < |rest| ensures rest[i] != rest[j] {
          assert rest[i] == order[i + 1] && rest[j] == order[j + 1];
        }
      }
      forall x | x in rest ensures x in universe {
        assert x in order;
      }
      IterationOrderIrrelevant(universe, rest, f);
      assert Elements(order) == Elements(rest) + {order[0]} by {
        forall y | y in Elements(order) ensures y in Elements(rest) + {order[0]} {
          var i :| 0 <= i < |order| && order[i] == y;
          if i > 0 {
            assert rest[i - 1] == y;
          }
        }
        forall y | y in Elements(rest) ensures y in Elements(order) {
          var i :| 0 <= i < |rest| && rest[i] == y;
          assert order[i + 1] == y;
        }
      }
      assert order[0] !in Elements(rest) by {
        forall i | 0 <= i < |rest| ensures rest[i] != order[0] {
          assert rest[i] == order[i + 1];
        }
      }
      assert order[0] in order;
      SumOverInsert(universe, Elements(rest), order[0], f);
    }
  }

  /** Sums over the same set with coefficient tables that agree on it coincide. */
  lemma {:induction false} SumOverCongruent<T>(universe: seq<T>, s: set<T>, f: T -> real, g: T -> real)
    requires forall x :: x in s ==> f(x) == g(x)
    ensures SumOver(universe, s, f) == SumOver(universe, s, g)
  {
    if |universe| > 0 {
      SumOverCongruent(universe[1..], s, f, g);
    }
  }

  /** Summing along a concatenation adds the sums of the parts. */
  lemma {:induction false} SeqSumAppend<T>(xs: seq<T>, ys: seq<T>, f: T -> real)
    ensures SeqSum(xs + ys, f) == SeqSum(xs, f) + SeqSum(ys, f)
  {
    if |xs| > 0 {
      assert (xs + ys)[1..] == xs[1..] + ys;
      SeqSumAppend(xs[1..], ys, f);
    } else {
      assert xs + ys == ys;
    }
  }

  /** A set holding the whole universe sums f along the universe. */
  lemma {:induction false} SumOverFull<T>(universe: seq<T>, s: set<T>, f: T -> real)
    requires forall x :: x in universe ==> x in s
    ensures SumOver(universe, s, f) == SeqSum(universe, f)
  {
    if |universe| > 0 {
      assert universe[0] in universe;
      forall x | x in universe[1..] ensures x in s {
        assert x in universe;
      }
      SumOverFull(universe[1..], s, f);
    }
  }

  /** f summed along four elements. */
  lemma SeqSumOfFour<T>(w: T, x: T, y: T, z: T, f: T -> real)
    ensures SeqSum([w, x, y, z], f) == f(w) + f(x) + f(y) + f(z)
  {
    assert [z][1..] == [];
    assert SeqSum([z], f) == f(z);
    assert [y, z][1..] == [z];
    assert SeqSum([y, z], f) == f(y) + f(z);
    assert [x, y, z][1..] == [y, z];
    assert SeqSum([x, y, z], f) == f(x) + f(y) + f(z);
    assert [w, x, y, z][1..] == [x, y, z];
  }
}
