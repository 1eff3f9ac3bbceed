/** Sequences of rows. */
module Sequences {

  lemma ConcatAssociates<T>(x: seq<T>, y: seq<T>, z: seq<T>)
    ensures (x + y) + z == x + (y + z)
  {
  }

  function Flatten<T>(rows: seq<seq<T>>): seq<T> {
    if rows == [] then [] else rows[0] + Flatten(rows[1..])
  }

  lemma {:induction false} InFlatten<T>(rows: seq<seq<T>>, p: nat, x: T)
    requires p < |rows| && x in rows[p]
    ensures x in Flatten(rows)
  {
    if p > 0 {
      InFlatten(rows[1..], p - 1, x);
    }
  }

  lemma {:induction false} FromFlatten<T>(rows: seq<seq<T>>, x: T) returns (p: nat)
    requires x in Flatten(rows)
    ensures p < |rows| && x in rows[p]
  {
    if x in rows[0] {
      p := 0;
    } else {
      p := FromFlatten(rows[1..], x);
      p := p + 1;
    }
  }

  lemma {:induction false} FlattenSnoc<T>(rows: seq<seq<T>>, k: nat)
    requires 0 < k <= |rows|
    ensures Flatten(rows[..k]) == Flatten(rows[..k - 1]) + rows[k - 1]
  {
    if k == 1 {
      assert rows[..1][1..] == [];
      assert rows[..0] == [];
    } else {
      assert rows[..k][1..] == rows[1..][..k - 1];
      assert rows[..k - 1][1..] == rows[1..][..k - 2];
      FlattenSnoc(rows[1..], k - 1);
      ConcatAssociates(rows[0], Flatten(rows[1..][..k - 2]), rows[k - 1]);
    }
  }

  lemma {:induction false} FlattenLength<T>(rows: seq<seq<T>>, p: nat)
    requires p < |rows|
    ensures |rows[p]| <= |Flatten(rows)|
  {
    if p > 0 {
      FlattenLength(rows[1..], p - 1);
    }
  }

  lemma SubsetSize<T>(a: set<T>, b: set<T>)
    requires a <= b
    ensures |a| <= |b|
  {
    assert b == a + (b - a);
  }

  // ---- one element less ----

  function Without<T>(es: seq<T>, i: nat): (rest: seq<T>)
    requires i < |es|
    ensures |rest| == |es| - 1
  {
    es[..i] + es[i + 1..]
  }

  lemma WithoutMultiset<T>(es: seq<T>, i: nat)
    requires i < |es|
    ensures multiset(Without(es, i)) == multiset(es) - multiset{es[i]}
  {
    assert es == es[..i] + [es[i]] + es[i + 1..];
    assert multiset(es) == multiset(es[..i]) + multiset{es[i]} + multiset(es[i + 1..]);
  }
}
