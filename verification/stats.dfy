/** The arithmetic both weather analysers share: sums, the values of a column
    with missing cells, and means. */
module Stats {
  import opened PyValue

  /** `sum(xs)` */
  function Sum(xs: seq<real>): real
  {
    if xs == [] then 0.0 else Sum(xs[..|xs| - 1]) + xs[|xs| - 1]
  }

  /** The values present in a column of optional cells, in order: the list
      built by appending only where a value exists, or a pandas column with
      its NaN cells dropped. */
  function Present(cells: seq<Option<real>>): (xs: seq<real>)
    ensures |xs| <= |cells|
  {
    if cells == [] then []
    else Present(cells[..|cells| - 1]) + (if cells[|cells| - 1].Some? then [cells[|cells| - 1].value] else [])
  }

  /** Each cell, or 0 where it is missing: `data.get(key, 0)`. */
  function Defaulted(cells: seq<Option<real>>): (xs: seq<real>)
    ensures |xs| == |cells|
  {
    seq(|cells|, k requires 0 <= k < |cells| => cells[k].GetOr(0.0))
  }

  /** The mean of the present values; `None` (NaN in pandas, `None` in the
      list-based code) when there is none. */
  function Mean(cells: seq<Option<real>>): Option<real>
  {
    var xs := Present(cells);
    if xs == [] then None else Some(Sum(xs) / |xs| as real)
  }

  lemma {:induction false} PresentEmptyIffAllMissing(cells: seq<Option<real>>)
    ensures Present(cells) == [] <==> forall k :: 0 <= k < |cells| ==> cells[k].None?
  {
    if cells != [] {
      var p := cells[..|cells| - 1];
      PresentEmptyIffAllMissing(p);
      assert forall k :: 0 <= k < |p| ==> p[k] == cells[k];
    }
  }

  /** Bounds on every element bound the sum by the length. */
  lemma {:induction false} SumBounds(xs: seq<real>, lo: real, hi: real)
    requires forall i :: 0 <= i < |xs| ==> lo <= xs[i] <= hi
    ensures lo * |xs| as real <= Sum(xs) <= hi * |xs| as real
  {
    if xs != [] {
      var p := xs[..|xs| - 1];
      assert forall i :: 0 <= i < |p| ==> p[i] == xs[i];
      SumBounds(p, lo, hi);
      BoundsStep(Sum(p), |p| as real, xs[|xs| - 1], lo, hi);
      assert Sum(xs) == Sum(p) + xs[|xs| - 1];
      assert |xs| as real == |p| as real + 1.0;
    }
  }

  /** Every present value is the value of some cell. */
  lemma {:induction false} PresentFromCells(cells: seq<Option<real>>, lo: real, hi: real)
    requires forall k :: 0 <= k < |cells| && cells[k].Some? ==> lo <= cells[k].value <= hi
    ensures forall i :: 0 <= i < |Present(cells)| ==> lo <= Present(cells)[i] <= hi
  {
    if cells != [] {
      var p := cells[..|cells| - 1];
      assert forall k :: 0 <= k < |p| ==> p[k] == cells[k];
      PresentFromCells(p, lo, hi);
    }
  }

  lemma BoundsStep(s: real, n: real, v: real, lo: real, hi: real)
    requires lo * n <= s <= hi * n && lo <= v <= hi
    ensures lo * (n + 1.0) <= s + v <= hi * (n + 1.0)
  {
  }

  lemma QuotientBounds(s: real, n: real, lo: real, hi: real)
    requires n > 0.0 && lo * n <= s <= hi * n
    ensures lo <= s / n <= hi
  {
    assert (s / n) * n == s;
  }

  /** A mean lies between the smallest and the largest value it averages,
      and it exists exactly when some cell is present. */
  lemma MeanWithinBounds(cells: seq<Option<real>>, lo: real, hi: real)
    requires forall k :: 0 <= k < |cells| && cells[k].Some? ==> lo <= cells[k].value <= hi
    ensures Mean(cells).Some? <==> exists k :: 0 <= k < |cells| && cells[k].Some?
    ensures Mean(cells).Some? ==> lo <= Mean(cells).value <= hi
  {
    PresentEmptyIffAllMissing(cells);
    var xs := Present(cells);
    if xs != [] {
      PresentFromCells(cells, lo, hi);
      SumBounds(xs, lo, hi);
      MeanBounds(xs, lo, hi);
    }
  }

  lemma MeanBounds(xs: seq<real>, lo: real, hi: real)
    requires xs != []
    requires lo * |xs| as real <= Sum(xs) <= hi * |xs| as real
    ensures lo <= Sum(xs) / |xs| as real <= hi
  {
    QuotientBounds(Sum(xs), |xs| as real, lo, hi);
  }

  /** Summing the defaulted cells adds exactly the present values. */
  lemma {:induction false} DefaultedSumIsPresentSum(cells: seq<Option<real>>)
    ensures Sum(Defaulted(cells)) == Sum(Present(cells))
  {
    if cells != [] {
      var p := cells[..|cells| - 1];
      DefaultedSumIsPresentSum(p);
      var d := Defaulted(cells);
      assert d[..|d| - 1] == Defaulted(p);
      assert Sum(d) == Sum(Defaulted(p)) + cells[|cells| - 1].GetOr(0.0);
      var ys := Present(p);
      var last := cells[|cells| - 1];
      if last.Some? {
        var xs := ys + [last.value];
        assert Present(cells) == xs;
        assert xs[..|xs| - 1] == ys;
      } else {
        assert Present(cells) == ys;
      }
    }
  }

  lemma SumSnoc(xs: seq<real>, x: real)
    ensures Sum(xs + [x]) == Sum(xs) + x
  {
    assert (xs + [x])[..|xs|] == xs;
  }

  lemma PresentSnoc(cells: seq<Option<real>>, c: Option<real>)
    ensures Present(cells + [c]) == Present(cells) + (if c.Some? then [c.value] else [])
  {
    assert (cells + [c])[..|cells|] == cells;
  }

  lemma DefaultedSnoc(cells: seq<Option<real>>, c: Option<real>)
    ensures Defaulted(cells + [c]) == Defaulted(cells) + [c.GetOr(0.0)]
  {
  }
}
