/**
 * The pure set-up and evaluation arithmetic of the coordinator script
 * (src/hogwild/coordinator.py): the train/validation partition by index,
 * the model dimension, and the per-label counts behind the accuracy figures.
 */
module CoordinatorData {
  import opened Base

  // ---------------------------------------------------------------------------
  // Train/validation split (coordinator.py:24-28)
  // ---------------------------------------------------------------------------

  /** `[x for x in range(n) if x not in val_indices]`. */
  function TrainIndices(n: nat, val: seq<int>): (r: seq<nat>)
    ensures forall i :: 0 <= i < |r| ==> r[i] < n && r[i] !in val
    ensures forall x :: 0 <= x < n && x !in val ==> x in r
    ensures forall i, j :: 0 <= i < j < |r| ==> r[i] < r[j]
    decreases n
  {
    if n == 0 then []
    else TrainIndices(n - 1, val) + (if n - 1 in val then [] else [n - 1])
  }

  /** `[xs[x] for x in idx]`. */
  function Pick<T>(xs: seq<T>, idx: seq<int>): (r: seq<T>)
    requires forall i :: 0 <= i < |idx| ==> 0 <= idx[i] < |xs|
    ensures |r| == |idx|
    ensures forall i :: 0 <= i < |idx| ==> r[i] == xs[idx[i]]
  {
    seq(|idx|, i requires 0 <= i < |idx| => xs[idx[i]])
  }

  datatype Partition<T> = Partition(train: seq<T>, validation: seq<T>)

  /**
   * The split of one per-sample list (`data` or `targets`) by the validation
   * indices. The indices come from `random.sample(range(len(targets)), k)`,
   * so they lie within the list.
   */
  function SplitByIndex<T>(xs: seq<T>, val: seq<int>): (p: Partition<T>)
    requires forall i :: 0 <= i < |val| ==> 0 <= val[i] < |xs|
    ensures |p.validation| == |val|
    ensures forall k :: 0 <= k < |val| ==> p.validation[k] == xs[val[k]]
    ensures |p.train| == |TrainIndices(|xs|, val)|
    ensures forall k :: 0 <= k < |p.train| ==> p.train[k] == xs[TrainIndices(|xs|, val)[k]]
  {
    Partition(Pick(xs, TrainIndices(|xs|, val)), Pick(xs, val))
  }

  /** The validation indices below `n`, as a set. */
  ghost function ValBelow(n: nat, val: seq<int>): set<int> {
    set x | x in val && 0 <= x < n
  }

  lemma {:induction false} TrainCountBelow(n: nat, val: seq<int>)
    ensures |TrainIndices(n, val)| + |ValBelow(n, val)| == n
  {
    if n > 0 {
      TrainCountBelow(n - 1, val);
      if n - 1 in val {
        assert ValBelow(n, val) == ValBelow(n - 1, val) + {n - 1};
      } else {
        assert ValBelow(n, val) == ValBelow(n - 1, val);
      }
    }
  }

  lemma {:induction false} DistinctCard(val: seq<int>)
    requires Distinct(val)
    ensures |set x | x in val| == |val|
  {
    if val != [] {
      var rest := val[1..];
      assert Distinct(rest) by {
        forall i, j | 0 <= i < j < |rest| ensures rest[i] != rest[j] {
          assert rest[i] == val[i + 1] && rest[j] == val[j + 1];
        }
      }
      DistinctCard(rest);
      assert val[0] !in rest by {
        forall j | 0 <= j < |rest| ensures rest[j] != val[0] {
          assert rest[j] == val[j + 1];
        }
      }
      assert (set x | x in val) == (set x | x in rest) + {val[0]} by {
        assert val == [val[0]] + rest;
      }
    }
  }

  /**
   * With duplicate-free validation indices drawn from `range(n)`, every index
   * lands in exactly one part, the train part keeps the original order, and
   * the two parts add up to the whole.
   */
  lemma SplitPartition<T>(xs: seq<T>, val: seq<int>)
    requires forall i :: 0 <= i < |val| ==> 0 <= val[i] < |xs|
    requires Distinct(val)
    ensures forall x :: 0 <= x < |xs| ==> (x in TrainIndices(|xs|, val) <==> x !in val)
    ensures var t := TrainIndices(|xs|, val);
            forall i, j :: 0 <= i < j < |t| ==> t[i] < t[j]
    ensures var p := SplitByIndex(xs, val);
            |p.train| + |p.validation| == |xs|
  {
    TrainCountBelow(|xs|, val);
    DistinctCard(val);
    assert ValBelow(|xs|, val) == set x | x in val;
  }

  // ---------------------------------------------------------------------------
  // Model dimension (coordinator.py:60)
  // ---------------------------------------------------------------------------

  /**
   * One data point: a sparse vector, the insertion-ordered items of a dict
   * from feature index to value.
   */
  type SparsePoint = seq<(int, real)>

  /** The feature indices of a data point, in the dict's iteration order. */
  function Features(p: SparsePoint): (ks: seq<int>)
    ensures |ks| == |p|
    ensures forall j :: 0 <= j < |p| ==> ks[j] == p[j].0
  {
    seq(|p|, j requires 0 <= j < |p| => p[j].0)
  }

  /** Python's `max` over a non-empty list of integers. */
  function MaxOf(xs: seq<int>): (m: int)
    requires xs != []
    ensures m in xs
    ensures forall y :: y in xs ==> y <= m
  {
    if |xs| == 1 then xs[0]
    else
      var rest := MaxOf(xs[1..]);
      assert forall y :: y in xs ==> y == xs[0] || y in xs[1..];
      if xs[0] < rest then rest else xs[0]
  }

  /** `max([max(k) for k in data])` when no `max` raises. */
  function MaxFeature(data: seq<SparsePoint>): (m: int)
    requires data != []
    requires forall i :: 0 <= i < |data| ==> data[i] != []
    ensures forall i, x :: 0 <= i < |data| && x in Features(data[i]) ==> x <= m
    ensures exists i :: 0 <= i < |data| && m in Features(data[i])
  {
    var head := MaxOf(Features(data[0]));
    if |data| == 1 then head
    else
      var rest := MaxFeature(data[1..]);
      assert forall i :: 1 <= i < |data| ==> data[1..][i - 1] == data[i];
      if head < rest then rest else head
  }

  /**
   * `dim = max([max(k) for k in data]) + 1`; None where Python raises
   * ValueError (no data points, or a data point without features).
   */
  function Dim(data: seq<SparsePoint>): (r: Option<int>)
    ensures r.None? <==> data == [] || exists i :: 0 <= i < |data| && data[i] == []
    ensures r.Some? ==> forall i, x :: 0 <= i < |data| && x in Features(data[i]) ==> x < r.value
    ensures r.Some? ==> exists i :: 0 <= i < |data| && r.value - 1 in Features(data[i])
  {
    if data == [] || exists i :: 0 <= i < |data| && data[i] == [] then None
    else Some(MaxFeature(data) + 1)
  }

  // ---------------------------------------------------------------------------
  // Per-label counts behind the accuracy figures (coordinator.py:138-143)
  // ---------------------------------------------------------------------------

  /** `sum([1 for x in targets if x == lbl])`. */
  function CountLabel(targets: seq<int>, lbl: int): (b: nat)
    ensures b <= |targets|
  {
    if targets == [] then 0
    else (if targets[0] == lbl then 1 else 0) + CountLabel(targets[1..], lbl)
  }

  /** The count is the number of occurrences of `lbl` among the targets. */
  lemma {:induction false} CountLabelIsMultiplicity(targets: seq<int>, lbl: int)
    ensures CountLabel(targets, lbl) == multiset(targets)[lbl]
  {
    if targets != [] {
      CountLabelIsMultiplicity(targets[1..], lbl);
      assert targets == [targets[0]] + targets[1..];
      assert multiset(targets) == multiset{targets[0]} + multiset(targets[1..]);
    }
  }

  /**
   * `sum([1 for x in zip(targets, prediction) if x[0] == lbl and x[1] == lbl])`;
   * `zip` stops at the shorter list.
   */
  function CountCorrect(targets: seq<int>, prediction: seq<int>, lbl: int): (a: nat)
    ensures a <= CountLabel(targets, lbl)
    ensures a <= CountLabel(prediction, lbl)
  {
    if targets == [] || prediction == [] then 0
    else
      (if targets[0] == lbl && prediction[0] == lbl then 1 else 0)
      + CountCorrect(targets[1..], prediction[1..], lbl)
  }

  /** Reference definition: the positions, within both lists, where target and prediction are `lbl`. */
  ghost function CorrectFrom(targets: seq<int>, prediction: seq<int>, lbl: int, lo: nat): set<nat> {
    set i: nat | lo <= i < |targets| && i < |prediction| && targets[i] == lbl && prediction[i] == lbl
  }

  /** The count over the suffixes from `lo` is the number of matching positions from `lo` on. */
  lemma {:induction false} CountCorrectFrom(targets: seq<int>, prediction: seq<int>, lbl: int, lo: nat)
    requires lo <= |targets| && lo <= |prediction|
    ensures CountCorrect(targets[lo..], prediction[lo..], lbl) == |CorrectFrom(targets, prediction, lbl, lo)|
    decreases |targets| - lo
  {
    if lo == |targets| || lo == |prediction| {
      assert CorrectFrom(targets, prediction, lbl, lo) == {};
    } else {
      CountCorrectFrom(targets, prediction, lbl, lo + 1);
      assert targets[lo..][1..] == targets[lo + 1..];
      assert prediction[lo..][1..] == prediction[lo + 1..];
      var here: set<nat> := if targets[lo] == lbl && prediction[lo] == lbl then {lo} else {};
      assert CorrectFrom(targets, prediction, lbl, lo) == here + CorrectFrom(targets, prediction, lbl, lo + 1);
    }
  }

  /** The true-positive count is the number of positions where both lists hold `lbl`. */
  lemma CountCorrectCounts(targets: seq<int>, prediction: seq<int>, lbl: int)
    ensures CountCorrect(targets, prediction, lbl) == |CorrectFrom(targets, prediction, lbl, 0)|
  {
    CountCorrectFrom(targets, prediction, lbl, 0);
    assert targets[0..] == targets && prediction[0..] == prediction;
  }

  /** The four counts `a`, `b`, `c`, `d` of the script. */
  datatype LabelTally = LabelTally(correctPos: nat, totalPos: nat, correctNeg: nat, totalNeg: nat)

  /** Labels 1 and -1 are counted on disjoint positions. */
  lemma {:induction false} LabelTotals(targets: seq<int>)
    ensures CountLabel(targets, 1) + CountLabel(targets, -1) <= |targets|
    ensures (forall i :: 0 <= i < |targets| ==> targets[i] == 1 || targets[i] == -1)
            ==> CountLabel(targets, 1) + CountLabel(targets, -1) == |targets|
  {
    if targets != [] {
      LabelTotals(targets[1..]);
      assert forall i :: 1 <= i < |targets| ==> targets[1..][i - 1] == targets[i];
    }
  }

  function Tally(targets: seq<int>, prediction: seq<int>): (t: LabelTally)
    ensures t.correctPos <= t.totalPos && t.correctNeg <= t.totalNeg
    ensures t.totalPos + t.totalNeg <= |targets|
    ensures t.totalPos == CountLabel(targets, 1) && t.totalNeg == CountLabel(targets, -1)
    ensures t.correctPos == |CorrectFrom(targets, prediction, 1, 0)|
    ensures t.correctNeg == |CorrectFrom(targets, prediction, -1, 0)|
    ensures t.totalPos == multiset(targets)[1] && t.totalNeg == multiset(targets)[-1]
  {
    CountLabelIsMultiplicity(targets, 1);
    CountLabelIsMultiplicity(targets, -1);
    LabelTotals(targets);
    CountCorrectCounts(targets, prediction, 1);
    CountCorrectCounts(targets, prediction, -1);
    LabelTally(CountCorrect(targets, prediction, 1), CountLabel(targets, 1),
               CountCorrect(targets, prediction, -1), CountLabel(targets, -1))
  }
}
