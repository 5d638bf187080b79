/** Sums and averages over the ledger, the arithmetic the summary is computed from. */
module Ledger {
  import opened Records

  /** The sum of column `m` over `items`, accumulated from the first item to the last. */
  function Total(items: seq<Item>, m: Metric): real
  {
    if |items| == 0 then 0.0
    else Total(items[..|items| - 1], m) + items[|items| - 1].Get(m)
  }

  /** The average of column `m`; only defined for a non-empty ledger. */
  function Mean(items: seq<Item>, m: Metric): real
    requires |items| > 0
  {
    Total(items, m) / (|items| as real)
  }

  /** The accumulation loop that sums all three columns in one pass, starting
      from an all-zero accumulator. */
  method Accumulate(items: seq<Item>) returns (acc: Summary)
    ensures forall m :: acc.Get(m) == Total(items, m)
  {
    acc := Summary(0.0, 0.0, 0.0);
    var i := 0;
    while i < |items|
      invariant 0 <= i <= |items|
      invariant acc.time == Total(items[..i], Time)
      invariant acc.complexity == Total(items[..i], Complexity)
      invariant acc.cost == Total(items[..i], Cost)
    {
      assert items[..i + 1][..i] == items[..i];
      acc := Summary(acc.time + items[i].time,
                     acc.complexity + items[i].complexity,
                     acc.cost + items[i].cost);
      i := i + 1;
    }
    assert items[..|items|] == items;
  }

  /** The sum over two ledgers laid end to end is the sum of their sums. */
  lemma {:induction false} TotalConcat(a: seq<Item>, b: seq<Item>, m: Metric)
    ensures Total(a + b, m) == Total(a, m) + Total(b, m)
  {
    if |b| == 0 {
      assert a + b == a;
    } else {
      var b' := b[..|b| - 1];
      assert (a + b)[..|a + b| - 1] == a + b';
      TotalConcat(a, b', m);
    }
  }

  /** When every item's column lies in [lo, hi], the sum lies between n * lo and n * hi. */
  lemma {:induction false} TotalBounds(items: seq<Item>, m: Metric, lo: real, hi: real)
    requires forall i :: 0 <= i < |items| ==> lo <= items[i].Get(m) <= hi
    ensures (|items| as real) * lo <= Total(items, m) <= (|items| as real) * hi
  {
    if |items| > 0 {
      var init := items[..|items| - 1];
      TotalBounds(init, m, lo, hi);
      assert lo <= items[|items| - 1].Get(m) <= hi;
    }
  }

  /** The average of a column never leaves the range of that column's values;
      in particular a ledger whose items all agree on a column averages to that value. */
  lemma MeanBounds(items: seq<Item>, m: Metric, lo: real, hi: real)
    requires |items| > 0
    requires forall i :: 0 <= i < |items| ==> lo <= items[i].Get(m) <= hi
    ensures lo <= Mean(items, m) <= hi
  {
    TotalBounds(items, m, lo, hi);
    var n := |items| as real;
    assert Mean(items, m) * n == Total(items, m);
  }

  /** Appending one item moves the average to the old sum plus the new value,
      over the new count. */
  lemma MeanAfterAppend(items: seq<Item>, x: Item, m: Metric)
    ensures Mean(items + [x], m) == (Total(items, m) + x.Get(m)) / ((|items| + 1) as real)
  {
    assert (items + [x])[..|items|] == items;
  }
}
