/**
 * The structure of `FocalLoss` and `ConsistencyLoss`: reduction checks,
 * the flattening of spatial inputs, the removal of ignored rows and the
 * reductions. The numerical kernels (log-softmax, the weighted NLL term,
 * the `(1 - pt)^gamma` factor and the cosine similarity) are abstract: a
 * focal loss is given by its per-row value as a function of a row of logits
 * and its label, and a consistency loss by its per-item similarities.
 */
module Losses {
  import opened PyOps

  /** The value of a loss: a scalar, a vector of unreduced values, or NaN. */
  datatype LossValue = Scalar(value: real) | Items(items: seq<real>) | NotANumber

  /** `sum` over a vector. */
  function SumOf(s: seq<real>): real
  {
    if s == [] then 0.0 else SumOf(s[..|s| - 1]) + s[|s| - 1]
  }

  /** Summing a concatenation sums the two parts. */
  lemma {:induction false} SumAppend(a: seq<real>, b: seq<real>)
    ensures SumOf(a + b) == SumOf(a) + SumOf(b)
  {
    if b == [] {
      assert a + b == a;
    } else {
      var n := |b| - 1;
      assert (a + b)[..|a + b| - 1] == a + b[..n];
      SumAppend(a, b[..n]);
    }
  }

  // ---------------------------------------------------------------------------
  // FocalLoss configuration

  datatype Reduction = Mean | Sum | Unreduced

  datatype FocalConfig = FocalConfig(reduction: Reduction, ignoreIndex: int)

  datatype ConfigError = UnknownReduction

  /**
   * The check in `FocalLoss.__init__`: the reduction must be `mean`, `sum`
   * or `none`; any other string is rejected.
   */
  function NewFocalLoss(reduction: string, ignoreIndex: int): (r: Result<FocalConfig, ConfigError>)
    ensures r.Err? <==> reduction !in {"mean", "sum", "none"}
    ensures r.Ok? ==> r.value.ignoreIndex == ignoreIndex
    ensures r.Ok? ==>
      && (r.value.reduction == Mean <==> reduction == "mean")
      && (r.value.reduction == Sum <==> reduction == "sum")
      && (r.value.reduction == Unreduced <==> reduction == "none")
  {
    if reduction == "mean" then Ok(FocalConfig(Mean, ignoreIndex))
    else if reduction == "sum" then Ok(FocalConfig(Sum, ignoreIndex))
    else if reduction == "none" then Ok(FocalConfig(Unreduced, ignoreIndex))
    else Err(UnknownReduction)
  }

  // ---------------------------------------------------------------------------
  // Flattening

  /**
   * A batch as `FocalLoss.forward` receives it: logits `(N, C)` with labels
   * `(N,)`, or logits `(N, C, D)` with labels `(N, D)`, where `D` stands for
   * the trailing sizes `d1 … dK` taken together in row-major order (the
   * order both `reshape` and `view` use).
   */
  datatype Batch =
    | Plain(logits: seq<seq<real>>, labels: seq<int>)
    | Spatial(grid: seq<seq<seq<real>>>, targets: seq<seq<int>>, classes: nat, points: nat)

  predicate WellShaped(b: Batch)
  {
    match b
    case Plain(x, y) => |x| == |y|
    case Spatial(x, y, c, d) =>
      && |x| == |y|
      && forall n :: 0 <= n < |x| ==>
           |x[n]| == c && |y[n]| == d && forall k :: 0 <= k < c ==> |x[n][k]| == d
  }

  /** `x.permute(0, 2, …, 1).reshape(-1, C)`: row `n·D + j` holds the logits of point `j` of item `n`. */
  function FlattenLogits(x: seq<seq<seq<real>>>, c: nat, d: nat): (rows: seq<seq<real>>)
    requires forall n :: 0 <= n < |x| ==> |x[n]| == c && forall k :: 0 <= k < c ==> |x[n][k]| == d
    ensures |rows| == |x| * d
    ensures forall i :: 0 <= i < |rows| ==> |rows[i]| == c
  {
    seq(|x| * d, i requires 0 <= i < |x| * d =>
      DivBelow(i, |x|, d);
      seq(c, k requires 0 <= k < c => x[i / d][k][i % d]))
  }

  /** `y.view(-1)`: position `n·D + j` holds the label of point `j` of item `n`. */
  function FlattenLabels(y: seq<seq<int>>, d: nat): (labels: seq<int>)
    requires forall n :: 0 <= n < |y| ==> |y[n]| == d
    ensures |labels| == |y| * d
  {
    seq(|y| * d, i requires 0 <= i < |y| * d =>
      DivBelow(i, |y|, d);
      y[i / d][i % d])
  }

  /**
   * The flattening keeps each logit row paired with its label: logit
   * `(n, k, j)` lands in row `n·D + j`, column `k`, and label `(n, j)` at
   * position `n·D + j`.
   */
  lemma FlattenPairing(x: seq<seq<seq<real>>>, y: seq<seq<int>>, c: nat, d: nat, n: nat, j: nat, k: nat)
    requires WellShaped(Spatial(x, y, c, d))
    requires n < |x| && j < d && k < c
    ensures n * d + j < |x| * d
    ensures FlattenLogits(x, c, d)[n * d + j][k] == x[n][k][j]
    ensures FlattenLabels(y, d)[n * d + j] == y[n][j]
  {
    MulMonotone(n + 1, |x|, d);
    DivModOfFlat(n, j, d);
  }

  /** The logit rows `forward` works on after its reshaping step. */
  function Rows(b: Batch): (x: seq<seq<real>>)
    requires WellShaped(b)
    ensures b.Plain? ==> x == b.logits
    ensures b.Spatial? ==> |x| == |b.grid| * b.points && forall i :: 0 <= i < |x| ==> |x[i]| == b.classes
  {
    match b
    case Plain(x, _) => x
    case Spatial(x, _, c, d) => FlattenLogits(x, c, d)
  }

  /** The labels `forward` works on after its reshaping step. */
  function Labels(b: Batch): (y: seq<int>)
    requires WellShaped(b)
    ensures |y| == |Rows(b)|
  {
    match b
    case Plain(_, y) => y
    case Spatial(_, y, _, d) => FlattenLabels(y, d)
  }

  // ---------------------------------------------------------------------------
  // Ignored rows

  /**
   * `y != ignore_index` as the positions it keeps: in increasing order,
   * each with a label other than `ignore`, and every such position present.
   */
  function Unignored(labels: seq<int>, ignore: int): (pos: seq<nat>)
    ensures forall k :: 0 <= k < |pos| ==> pos[k] < |labels| && labels[pos[k]] != ignore
    ensures forall k, m :: 0 <= k < m < |pos| ==> pos[k] < pos[m]
    ensures forall i :: 0 <= i < |labels| && labels[i] != ignore ==> i in pos
  {
    if labels == [] then []
    else
      var prefix := labels[..|labels| - 1];
      var before := Unignored(prefix, ignore);
      if labels[|labels| - 1] != ignore then before + [|labels| - 1] else before
  }

  /** The per-row losses of the kept rows, in order (a recursive reference). */
  function MaskedLosses(x: seq<seq<real>>, y: seq<int>, ignore: int, rowLoss: (seq<real>, int) -> real): (m: seq<real>)
    requires |x| == |y|
    ensures |m| <= |y|
    ensures m == [] <==> forall i :: 0 <= i < |y| ==> y[i] == ignore
  {
    if y == [] then []
    else
      var n := |y| - 1;
      var before := MaskedLosses(x[..n], y[..n], ignore, rowLoss);
      assert forall i :: 0 <= i < n ==> y[..n][i] == y[i];
      before + if y[n] != ignore then [rowLoss(x[n], y[n])] else []
  }

  /** The per-row losses of the rows at the given positions, in order (`x[mask]`, `y[mask]`, then the loss). */
  function Gather(x: seq<seq<real>>, y: seq<int>, pos: seq<nat>, rowLoss: (seq<real>, int) -> real): (g: seq<real>)
    requires |x| == |y| && forall k :: 0 <= k < |pos| ==> pos[k] < |y|
    ensures |g| == |pos|
  {
    seq(|pos|, k requires 0 <= k < |pos| => rowLoss(x[pos[k]], y[pos[k]]))
  }

  /** Gathering positions below `n` reads only the first `n` rows. */
  lemma GatherPrefix(x: seq<seq<real>>, y: seq<int>, pos: seq<nat>, rowLoss: (seq<real>, int) -> real, n: nat)
    requires |x| == |y| && n <= |y| && forall k :: 0 <= k < |pos| ==> pos[k] < n
    ensures Gather(x[..n], y[..n], pos, rowLoss) == Gather(x, y, pos, rowLoss)
  {
  }

  /** One more position appends its row's loss. */
  lemma GatherSnoc(x: seq<seq<real>>, y: seq<int>, pos: seq<nat>, rowLoss: (seq<real>, int) -> real, i: nat)
    requires |x| == |y| && i < |y| && forall k :: 0 <= k < |pos| ==> pos[k] < |y|
    ensures Gather(x, y, pos + [i], rowLoss) == Gather(x, y, pos, rowLoss) + [rowLoss(x[i], y[i])]
  {
  }

  /**
   * Masking and then computing the loss row by row gives the reference
   * list: the kept rows keep their order and stay paired with their labels.
   */
  lemma {:induction false} MaskThenLoss(x: seq<seq<real>>, y: seq<int>, ignore: int, rowLoss: (seq<real>, int) -> real)
    requires |x| == |y|
    ensures MaskedLosses(x, y, ignore, rowLoss) == Gather(x, y, Unignored(y, ignore), rowLoss)
  {
    if y != [] {
      var n := |y| - 1;
      var pre := Unignored(y[..n], ignore);
      MaskThenLoss(x[..n], y[..n], ignore, rowLoss);
      GatherPrefix(x, y, pre, rowLoss, n);
      if y[n] != ignore {
        assert Unignored(y, ignore) == pre + [n];
        GatherSnoc(x, y, pre, rowLoss, n);
      } else {
        assert Unignored(y, ignore) == pre;
      }
    }
  }

  /**
   * `FocalLoss.forward`: reshape, drop the ignored rows, return 0 when none
   * remain (whatever the reduction), otherwise reduce the per-row losses of
   * the remaining rows by mean or sum, or return them as they are.
   */
  function FocalForward(cfg: FocalConfig, b: Batch, rowLoss: (seq<real>, int) -> real): (r: LossValue)
    requires WellShaped(b)
    ensures var m := MaskedLosses(Rows(b), Labels(b), cfg.ignoreIndex, rowLoss);
      && ((forall i :: 0 <= i < |Labels(b)| ==> Labels(b)[i] == cfg.ignoreIndex) ==> r == Scalar(0.0))
      && (m != [] && cfg.reduction == Mean ==> r == Scalar(SumOf(m) / |m| as real))
      && (m != [] && cfg.reduction == Sum ==> r == Scalar(SumOf(m)))
      && (m != [] && cfg.reduction == Unreduced ==> r == Items(m))
  {
    var x, y := Rows(b), Labels(b);
    var pos := Unignored(y, cfg.ignoreIndex);
    if |pos| == 0 then Scalar(0.0)
    else
      var losses := Gather(x, y, pos, rowLoss);
      MaskThenLoss(x, y, cfg.ignoreIndex, rowLoss);
      match cfg.reduction
      case Mean => Scalar(SumOf(losses) / |losses| as real)
      case Sum => Scalar(SumOf(losses))
      case Unreduced => Items(losses)
  }

  // ---------------------------------------------------------------------------
  // ConsistencyLoss

  /** The unreduced consistency loss: `alpha` times the sum of the two similarities, item by item. */
  function ConsistencyItems(alpha: real, sim1: seq<real>, sim2: seq<real>): (items: seq<real>)
    requires |sim1| == |sim2|
    ensures |items| == |sim1|
    ensures forall i :: 0 <= i < |sim1| ==> items[i] == alpha * (sim1[i] + sim2[i])
  {
    seq(|sim1|, i requires 0 <= i < |sim1| => alpha * (sim1[i] + sim2[i]))
  }

  /** Scaling item by item scales the total: the items add up to `alpha` times both similarity sums. */
  lemma {:induction false} ConsistencySum(alpha: real, sim1: seq<real>, sim2: seq<real>)
    requires |sim1| == |sim2|
    ensures SumOf(ConsistencyItems(alpha, sim1, sim2)) == alpha * (SumOf(sim1) + SumOf(sim2))
  {
    if sim1 != [] {
      var n := |sim1| - 1;
      var items := ConsistencyItems(alpha, sim1, sim2);
      var prefix := ConsistencyItems(alpha, sim1[..n], sim2[..n]);
      ConsistencyPrefix(alpha, sim1, sim2, n);
      ConsistencySum(alpha, sim1[..n], sim2[..n]);
      var earlier, last := SumOf(sim1[..n]) + SumOf(sim2[..n]), sim1[n] + sim2[n];
      assert SumOf(sim1) + SumOf(sim2) == earlier + last;
      assert SumOf(items) == SumOf(prefix) + items[n];
      assert items[n] == alpha * last;
      assert alpha * (earlier + last) == alpha * earlier + alpha * last;
    }
  }

  /** The items of a prefix are the prefix of the items. */
  lemma ConsistencyPrefix(alpha: real, sim1: seq<real>, sim2: seq<real>, n: nat)
    requires |sim1| == |sim2| && n <= |sim1|
    ensures ConsistencyItems(alpha, sim1, sim2)[..n] == ConsistencyItems(alpha, sim1[..n], sim2[..n])
  {
    var items := ConsistencyItems(alpha, sim1, sim2);
    var prefix := ConsistencyItems(alpha, sim1[..n], sim2[..n]);
    forall i | 0 <= i < n
      ensures items[i] == prefix[i]
    {
      assert sim1[..n][i] == sim1[i] && sim2[..n][i] == sim2[i];
    }
  }

  /**
   * `ConsistencyLoss.forward` given the per-item similarities of the two
   * pairs: the mean for `mean` (NaN on an empty batch), the sum for `sum`,
   * and the unreduced values for any other string.
   */
  function ConsistencyForward(alpha: real, reduction: string, sim1: seq<real>, sim2: seq<real>): (r: LossValue)
    requires |sim1| == |sim2|
    ensures reduction == "mean" && |sim1| == 0 ==> r == NotANumber
    ensures reduction == "mean" && |sim1| > 0 ==> r == Scalar(alpha * (SumOf(sim1) + SumOf(sim2)) / |sim1| as real)
    ensures reduction == "sum" ==> r == Scalar(alpha * (SumOf(sim1) + SumOf(sim2)))
    ensures reduction != "mean" && reduction != "sum" ==>
      && r.Items? && |r.items| == |sim1|
      && forall i :: 0 <= i < |sim1| ==> r.items[i] == alpha * (sim1[i] + sim2[i])
  {
    var items := ConsistencyItems(alpha, sim1, sim2);
    ConsistencySum(alpha, sim1, sim2);
    var total := SumOf(items);
    if reduction == "mean" then (if |items| == 0 then NotANumber else Scalar(total / |items| as real))
    else if reduction == "sum" then Scalar(total)
    else Items(items)
  }
}
