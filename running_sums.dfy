/** Running and grouped sums over a column whose cells may be NaN, as pandas computes
    them: `cumsum()` leaves NaN where the value is NaN and carries on summing the
    values that are present; `sum()` and `count()` in a group skip NaN. */
module RunningSums {
  import opened Cells

  function ValueOr0(x: Option<real>): real
  {
    match x
    case Some(v) => v
    case None => 0.0
  }

  /** Sum of the values that are present (0 when none is). */
  function PresentSum(xs: seq<Option<real>>): real
  {
    if xs == [] then 0.0 else ValueOr0(xs[0]) + PresentSum(xs[1..])
  }

  /** Number of values that are present. */
  function PresentCount(xs: seq<Option<real>>): nat
  {
    if xs == [] then 0 else (if xs[0].Some? then 1 else 0) + PresentCount(xs[1..])
  }

  /** `cumsum()` with the running total so far carried in `acc`. */
  function CumsumFrom(xs: seq<Option<real>>, acc: real): (r: seq<Option<real>>)
    ensures |r| == |xs|
  {
    if xs == [] then []
    else
      match xs[0]
      case None => [None] + CumsumFrom(xs[1..], acc)
      case Some(v) => [Some(acc + v)] + CumsumFrom(xs[1..], acc + v)
  }

  /** The cumulative column has one entry per row; it is NaN exactly where the value
      is NaN, and elsewhere the sum of all present values up to and including that row. */
  function Cumsum(xs: seq<Option<real>>): (r: seq<Option<real>>)
    ensures |r| == |xs|
    ensures forall i :: 0 <= i < |xs| ==> (r[i].None? <==> xs[i].None?)
    ensures forall i :: 0 <= i < |xs| && xs[i].Some? ==> r[i] == Some(PresentSum(xs[..i + 1]))
  {
    CumsumFromAt(xs, 0.0);
    CumsumFrom(xs, 0.0)
  }

  lemma {:induction false} CumsumFromAt(xs: seq<Option<real>>, acc: real)
    ensures |CumsumFrom(xs, acc)| == |xs|
    ensures forall i :: 0 <= i < |xs| ==>
      CumsumFrom(xs, acc)[i] == (if xs[i].None? then None else Some(acc + PresentSum(xs[..i + 1])))
  {
    if xs != [] {
      var acc' := acc + ValueOr0(xs[0]);
      CumsumFromAt(xs[1..], acc');
      forall i | 0 <= i < |xs|
        ensures CumsumFrom(xs, acc)[i] == (if xs[i].None? then None else Some(acc + PresentSum(xs[..i + 1])))
      {
        assert xs[..i + 1][0] == xs[0];
        assert xs[..i + 1][1..] == xs[1..][..i];
        if i > 0 {
          assert CumsumFrom(xs, acc)[i] == CumsumFrom(xs[1..], acc')[i - 1];
          assert xs[1..][i - 1] == xs[i];
          assert xs[1..][..i - 1 + 1] == xs[1..][..i];
        } else {
          assert xs[1..][..0] == [];
        }
      }
    }
  }

  lemma {:induction false} PresentSumSnoc(xs: seq<Option<real>>, x: Option<real>)
    ensures PresentSum(xs + [x]) == PresentSum(xs) + ValueOr0(x)
  {
    if xs == [] {
      assert xs + [x] == [x];
      assert [x][1..] == [];
    } else {
      assert (xs + [x])[1..] == xs[1..] + [x];
      PresentSumSnoc(xs[1..], x);
    }
  }

  /** When every value is present: the first running total is the first value and each
      later one is the previous running total plus the row's value. */
  lemma CumsumRecurrence(xs: seq<Option<real>>)
    requires forall i :: 0 <= i < |xs| ==> xs[i].Some?
    ensures |Cumsum(xs)| == |xs|
    ensures forall i :: 0 <= i < |xs| ==> Cumsum(xs)[i].Some?
    ensures |xs| > 0 ==> Cumsum(xs)[0] == xs[0]
    ensures forall i :: 0 < i < |xs| ==> Cumsum(xs)[i].value == Cumsum(xs)[i - 1].value + xs[i].value
  {
    if |xs| > 0 {
      assert xs[..1] == [xs[0]];
      assert [xs[0]][1..] == [];
    }
    forall i | 0 < i < |xs|
      ensures Cumsum(xs)[i].value == Cumsum(xs)[i - 1].value + xs[i].value
    {
      assert xs[..i + 1] == xs[..i] + [xs[i]];
      assert xs[..i - 1 + 1] == xs[..i];
      PresentSumSnoc(xs[..i], xs[i]);
    }
  }

  // ---------------------------------------------------------------------------
  // groupby(key)[value].agg(["count", "sum"])

  /** The per-key row of the summary: count of present values, and their sum. */
  datatype Totals = Totals(trades: nat, total: real)

  /** The values of the rows whose key is `k`, in row order. */
  function ValuesFor(keys: seq<Cell>, values: seq<Option<real>>, k: Cell): seq<Option<real>>
    requires |keys| == |values|
  {
    if keys == [] then []
    else (if keys[0] == k then [values[0]] else []) + ValuesFor(keys[1..], values[1..], k)
  }

  /** The summary table as a map from each group key to its totals, folded row by row.
      NaN keys form no group (groupby drops them). */
  function GroupTotals(keys: seq<Cell>, values: seq<Option<real>>): (r: map<Cell, Totals>)
    requires |keys| == |values|
    ensures forall k :: k in r <==> k in keys && k != Missing
  {
    if keys == [] then map[]
    else
      var m := GroupTotals(keys[1..], values[1..]);
      if keys[0] == Missing then m
      else
        var old_ := if keys[0] in m then m[keys[0]] else Totals(0, 0.0);
        m[keys[0] := Totals(old_.trades + (if values[0].Some? then 1 else 0), old_.total + ValueOr0(values[0]))]
  }

  /** The summary has one row per distinct non-NaN key; that row counts the present
      values of the key's rows and adds them up. */
  lemma {:induction false} GroupTotalsSpec(keys: seq<Cell>, values: seq<Option<real>>)
    requires |keys| == |values|
    ensures forall k :: k in GroupTotals(keys, values) ==>
      GroupTotals(keys, values)[k] == Totals(PresentCount(ValuesFor(keys, values, k)), PresentSum(ValuesFor(keys, values, k)))
  {
    if keys != [] {
      GroupTotalsSpec(keys[1..], values[1..]);
      var m := GroupTotals(keys[1..], values[1..]);
      forall k | k in GroupTotals(keys, values)
        ensures GroupTotals(keys, values)[k] == Totals(PresentCount(ValuesFor(keys, values, k)), PresentSum(ValuesFor(keys, values, k)))
      {
        var vs := ValuesFor(keys[1..], values[1..], k);
        if keys[0] == k {
          assert ValuesFor(keys, values, k) == [values[0]] + vs;
          assert ([values[0]] + vs)[1..] == vs;
          if k !in m {
            assert k !in keys[1..];
            NoValuesFor(keys[1..], values[1..], k);
          }
        } else {
          assert ValuesFor(keys, values, k) == vs;
        }
      }
    }
  }

  lemma {:induction false} NoValuesFor(keys: seq<Cell>, values: seq<Option<real>>, k: Cell)
    requires |keys| == |values| && k !in keys
    ensures ValuesFor(keys, values, k) == []
  {
    if keys != [] {
      NoValuesFor(keys[1..], values[1..], k);
    }
  }
}
