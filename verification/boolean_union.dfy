/**
 * The OR-merge of two per-day flag arrays (`orBooleanArrays`), which the app
 * keeps in three copies: CentralViewModel.swift, WatchKitApp/WatchViewModel.swift
 * and WatchKitApp/ContentViewModel.swift. Index `i` is day `i + 1` of the month;
 * a position past the end of an array reads as `false`.
 *
 * `Union` is the reference definition, given structurally; the three copies are
 * methods proved equal to it.
 */
module BooleanUnion {

  function Max(a: int, b: int): int
  {
    if a < b then b else a
  }

  /** The flag of day index `i`, reading positions outside the array as `false`. */
  function At(s: seq<bool>, i: int): bool
  {
    0 <= i < |s| && s[i]
  }

  /** Element-wise OR of two flag arrays; the shorter one is padded with `false`. */
  function Union(a: seq<bool>, b: seq<bool>): (r: seq<bool>)
    ensures |r| == Max(|a|, |b|)
  {
    if a == [] then b
    else if b == [] then a
    else [a[0] || b[0]] + Union(a[1..], b[1..])
  }

  /** `big` keeps every day that `small` marks true (the monotonicity order). */
  ghost predicate Covers(big: seq<bool>, small: seq<bool>)
  {
    forall i :: 0 <= i < |small| && small[i] ==> At(big, i)
  }

  /** Each day of the union is the OR of the two inputs' days, missing days reading as `false`. */
  lemma {:induction false} UnionAt(a: seq<bool>, b: seq<bool>)
    ensures forall i :: 0 <= i < |Union(a, b)| ==> Union(a, b)[i] == (At(a, i) || At(b, i))
  {
    if a != [] && b != [] {
      UnionAt(a[1..], b[1..]);
      var r := Union(a, b);
      forall i | 0 <= i < |r|
        ensures r[i] == (At(a, i) || At(b, i))
      {
        if i > 0 {
          assert r[i] == Union(a[1..], b[1..])[i - 1];
          assert At(a, i) == At(a[1..], i - 1);
          assert At(b, i) == At(b[1..], i - 1);
        }
      }
    }
  }

  /** The union is determined by its days: any array of the right length with the right days is it. */
  lemma UnionUnique(a: seq<bool>, b: seq<bool>, r: seq<bool>)
    requires |r| == Max(|a|, |b|)
    requires forall i :: 0 <= i < |r| ==> r[i] == (At(a, i) || At(b, i))
    ensures r == Union(a, b)
  {
    UnionAt(a, b);
  }

  /** A day true in either input is true in the union, and a day true in the union is true in an input. */
  lemma UnionCoversBoth(a: seq<bool>, b: seq<bool>)
    ensures Covers(Union(a, b), a) && Covers(Union(a, b), b)
    ensures forall i :: At(Union(a, b), i) ==> At(a, i) || At(b, i)
  {
    UnionAt(a, b);
  }

  /** The union is the least array covering both inputs. */
  lemma UnionLeast(a: seq<bool>, b: seq<bool>, c: seq<bool>)
    requires Covers(c, a) && Covers(c, b)
    ensures Covers(c, Union(a, b))
  {
    UnionAt(a, b);
  }

  lemma CoversTransitive(a: seq<bool>, b: seq<bool>, c: seq<bool>)
    requires Covers(a, b) && Covers(b, c)
    ensures Covers(a, c)
  {
    forall i | 0 <= i < |c| && c[i]
      ensures At(a, i)
    {
      assert At(b, i);
    }
  }

  lemma UnionCommutative(a: seq<bool>, b: seq<bool>)
    ensures Union(a, b) == Union(b, a)
  {
    UnionAt(a, b);
    UnionAt(b, a);
  }

  lemma UnionAssociative(a: seq<bool>, b: seq<bool>, c: seq<bool>)
    ensures Union(Union(a, b), c) == Union(a, Union(b, c))
  {
    UnionAt(a, b);
    UnionAt(b, c);
    UnionAt(Union(a, b), c);
    UnionAt(a, Union(b, c));
    var l, r := Union(Union(a, b), c), Union(a, Union(b, c));
    forall i | 0 <= i < |l|
      ensures l[i] == r[i]
    {
      assert At(Union(a, b), i) == (At(a, i) || At(b, i));
      assert At(Union(b, c), i) == (At(b, i) || At(c, i));
    }
  }

  lemma UnionIdempotent(a: seq<bool>)
    ensures Union(a, a) == a
  {
    UnionAt(a, a);
  }

  /** Folding the same arrays in another order yields the same merge. */
  lemma UnionOrderIrrelevant(a: seq<bool>, b: seq<bool>, c: seq<bool>)
    ensures Union(Union(a, b), c) == Union(Union(a, c), b)
  {
    UnionAssociative(a, b, c);
    UnionCommutative(b, c);
    UnionAssociative(a, c, b);
  }

  /** The empty array is the identity of the merge. */
  lemma {:induction false} UnionEmpty(a: seq<bool>)
    ensures Union(a, []) == a && Union([], a) == a
  {
  }
}
