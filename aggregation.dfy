/**
 * The table arithmetic the farm and the cluster use to add power curves:
 * the curves become columns of one table indexed by wind speed (the union
 * of their speeds, in ascending order), every column is filled by
 * `interpolate(method='index')` and the columns are added with
 * `sum(axis=1)`. Inside a column's own speed range the fill is the line
 * between its neighbouring rows; after its last row the last value is
 * carried forward; before its first row the cell stays missing, and the
 * sum counts a missing cell as 0.
 */
module Aggregation {
  import opened Common
  import opened Interpolation

  /** Union of two ascending speed lists, ascending and without repeats. */
  function Merge(a: seq<real>, b: seq<real>): seq<real>
    decreases |a| + |b|
  {
    if |a| == 0 then b
    else if |b| == 0 then a
    else if a[0] < b[0] then [a[0]] + Merge(a[1..], b)
    else if b[0] < a[0] then [b[0]] + Merge(a, b[1..])
    else [a[0]] + Merge(a[1..], b[1..])
  }

  /** The index of the concatenated table: all speeds of all columns. */
  function UnionGrid(cols: seq<Curve>): seq<real>
    decreases |cols|
  {
    if |cols| == 0 then []
    else Merge(UnionGrid(cols[..|cols| - 1]), Speeds(cols[|cols| - 1]))
  }

  /** Cell of one column at speed `s` after index interpolation; a missing cell counts 0. */
  function ColumnAt(c: Curve, s: real): real {
    if |c| == 0 || s < c[0].speed then 0.0
    else InterpClamped(c, s)
  }

  /** Row sum at speed `s`. */
  function SumAt(cols: seq<Curve>, s: real): real
    decreases |cols|
  {
    if |cols| == 0 then 0.0
    else SumAt(cols[..|cols| - 1], s) + ColumnAt(cols[|cols| - 1], s)
  }

  /** `concat(cols, axis=1).interpolate(method='index').sum(axis=1)`. */
  function Aggregate(cols: seq<Curve>): Curve {
    var g := UnionGrid(cols);
    seq(|g|, i requires 0 <= i < |g| => Point(g[i], SumAt(cols, g[i])))
  }

  // ----- the union grid

  lemma {:induction false} MergeMembers(a: seq<real>, b: seq<real>)
    ensures forall x :: x in Merge(a, b) <==> x in a || x in b
    decreases |a| + |b|
  {
    if |a| == 0 || |b| == 0 {
    } else if a[0] < b[0] {
      MergeMembers(a[1..], b);
      assert a == [a[0]] + a[1..];
    } else if b[0] < a[0] {
      MergeMembers(a, b[1..]);
      assert b == [b[0]] + b[1..];
    } else {
      MergeMembers(a[1..], b[1..]);
      assert a == [a[0]] + a[1..];
      assert b == [b[0]] + b[1..];
    }
  }

  lemma HeadBelowTail(a: seq<real>, x: real)
    requires Increasing(a) && |a| > 0 && x in a[1..]
    ensures a[0] < x
  {
    var k :| 0 <= k < |a[1..]| && a[1..][k] == x;
    assert a[k + 1] == x;
  }

  lemma {:induction false} MergeIncreasing(a: seq<real>, b: seq<real>)
    requires Increasing(a) && Increasing(b)
    ensures Increasing(Merge(a, b))
    decreases |a| + |b|
  {
    if |a| == 0 || |b| == 0 {
    } else {
      var h, rest;
      if a[0] < b[0] {
        h, rest := a[0], Merge(a[1..], b);
        MergeIncreasing(a[1..], b);
        MergeMembers(a[1..], b);
        forall x | x in rest ensures h < x {
          if x in a[1..] { HeadBelowTail(a, x); } else { assert x in b; }
        }
      } else if b[0] < a[0] {
        h, rest := b[0], Merge(a, b[1..]);
        MergeIncreasing(a, b[1..]);
        MergeMembers(a, b[1..]);
        forall x | x in rest ensures h < x {
          if x in b[1..] { HeadBelowTail(b, x); } else { assert x in a; }
        }
      } else {
        h, rest := a[0], Merge(a[1..], b[1..]);
        MergeIncreasing(a[1..], b[1..]);
        MergeMembers(a[1..], b[1..]);
        forall x | x in rest ensures h < x {
          if x in a[1..] { HeadBelowTail(a, x); } else { HeadBelowTail(b, x); }
        }
      }
      assert Merge(a, b) == [h] + rest;
      forall i, j | 0 <= i < j < |[h] + rest|
        ensures ([h] + rest)[i] < ([h] + rest)[j]
      {
        if i == 0 { assert rest[j - 1] in rest; }
      }
    }
  }

  /**
   * The grid is ascending without repeats and holds exactly the speeds of
   * the columns.
   */
  lemma {:induction false} UnionGridProperties(cols: seq<Curve>)
    requires forall k :: 0 <= k < |cols| ==> StrictlyIncreasing(cols[k])
    ensures Increasing(UnionGrid(cols))
    ensures forall x :: x in UnionGrid(cols) <==>
      exists k, i :: 0 <= k < |cols| && 0 <= i < |cols[k]| && cols[k][i].speed == x
    decreases |cols|
  {
    if |cols| > 0 {
      var front, c := cols[..|cols| - 1], cols[|cols| - 1];
      UnionGridProperties(front);
      StrictlyIncreasingSpeeds(c);
      MergeIncreasing(UnionGrid(front), Speeds(c));
      MergeMembers(UnionGrid(front), Speeds(c));
      forall x
        ensures x in UnionGrid(cols) <==>
          exists k, i :: 0 <= k < |cols| && 0 <= i < |cols[k]| && cols[k][i].speed == x
      {
        if x in Speeds(c) {
          var i :| 0 <= i < |c| && Speeds(c)[i] == x;
          assert cols[|cols| - 1][i].speed == x;
        }
        if exists k, i :: 0 <= k < |cols| && 0 <= i < |cols[k]| && cols[k][i].speed == x {
          var k, i :| 0 <= k < |cols| && 0 <= i < |cols[k]| && cols[k][i].speed == x;
          if k == |cols| - 1 {
            assert Speeds(c)[i] == x;
          } else {
            assert front[k][i].speed == x;
          }
        }
      }
    }
  }

  /**
   * The aggregated curve is indexed by the union of the columns' speeds,
   * ascending; each row holds the sum of the columns' cells at its speed.
   */
  lemma AggregateShape(cols: seq<Curve>)
    requires forall k :: 0 <= k < |cols| ==> StrictlyIncreasing(cols[k])
    ensures StrictlyIncreasing(Aggregate(cols))
    ensures Speeds(Aggregate(cols)) == UnionGrid(cols)
    ensures forall i :: 0 <= i < |Aggregate(cols)| ==>
      Aggregate(cols)[i].value == SumAt(cols, Aggregate(cols)[i].speed)
  {
    UnionGridProperties(cols);
  }

  // ----- one column

  /**
   * A column contributes nothing before its first row, its own value at
   * each of its rows, and its last value after its last row.
   */
  lemma ColumnAtCases(c: Curve, s: real)
    requires StrictlyIncreasing(c) && |c| > 0
    ensures s < c[0].speed ==> ColumnAt(c, s) == 0.0
    ensures forall k :: 0 <= k < |c| && c[k].speed == s ==> ColumnAt(c, s) == c[k].value
    ensures s >= Last(c).speed ==> ColumnAt(c, s) == Last(c).value
  {
    forall k | 0 <= k < |c| && c[k].speed == s ensures ColumnAt(c, s) == c[k].value {
      InterpAtSample(c, k, c[0].value, Last(c).value);
    }
    if s >= Last(c).speed {
      InterpClampedOutside(c, s);
    }
  }

  /** A table with a single column sums to that column. */
  lemma AggregateSingle(c: Curve)
    requires StrictlyIncreasing(c)
    ensures Aggregate([c]) == c
  {
    var cols := [c];
    assert cols[..0] == [];
    assert UnionGrid(cols) == Speeds(c);
    var r := Aggregate(cols);
    forall i | 0 <= i < |c| ensures r[i] == c[i] {
      ColumnAtCases(c, c[i].speed);
      assert SumAt(cols, c[i].speed) == ColumnAt(c, c[i].speed);
    }
  }

  /** A single scaled column sums to the scaled curve. */
  lemma AggregateSingleScaled(c: Curve, n: real)
    requires StrictlyIncreasing(c)
    ensures Aggregate([Scale(c, n)]) == Scale(c, n)
  {
    AggregateSingle(Scale(c, n));
  }

  // ----- bounds

  lemma {:induction false} SumAtBounds(cols: seq<Curve>, s: real, hi: real)
    requires 0.0 <= hi
    requires forall k :: 0 <= k < |cols| ==> ValuesWithin(cols[k], 0.0, hi)
    ensures 0.0 <= SumAt(cols, s) <= |cols| as real * hi
    decreases |cols|
  {
    if |cols| > 0 {
      var c := cols[|cols| - 1];
      SumAtBounds(cols[..|cols| - 1], s, hi);
      if |c| > 0 && s >= c[0].speed {
        InterpClampedBounds(c, s, 0.0, hi);
      }
    }
  }

  /**
   * When every column's values lie in [0, hi], every aggregated value lies
   * in [0, number of columns times hi].
   */
  lemma AggregateBounds(cols: seq<Curve>, hi: real)
    requires 0.0 <= hi
    requires forall k :: 0 <= k < |cols| ==> ValuesWithin(cols[k], 0.0, hi)
    ensures ValuesWithin(Aggregate(cols), 0.0, |cols| as real * hi)
  {
    var r := Aggregate(cols);
    forall i | 0 <= i < |r| ensures 0.0 <= r[i].value <= |cols| as real * hi {
      SumAtBounds(cols, r[i].speed, hi);
    }
  }
}
