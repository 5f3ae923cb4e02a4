/**
 * `RSNA2024Loss`: building the per-pair criterion from a configuration
 * dictionary, and the aggregation in `forward` of one loss per
 * (condition, level) pair and, optionally, one loss per level.
 *
 * The criterion's value on the logits and targets of one pair is abstract
 * (`criterion(c, l)`), as is the level cross-entropy on one level column
 * (`levelLoss(l)`); what is modelled is which values are taken, how they are
 * weighted and averaged, and when `forward` fails.
 */
module CompositeLoss {
  import opened PyOps
  import opened Losses

  // ---------------------------------------------------------------------------
  // Configuration

  /** A value in the `ce_loss` dictionary. */
  datatype CfgValue = Str(s: string) | Int(n: int) | Real(x: real) | Reals(xs: seq<real>)

  type CeConfig = map<string, CfgValue>

  /** The criterion `__init__` builds for the (condition, level) pairs. */
  datatype Criterion =
    | CrossEntropy(options: CeConfig)
    | Focal(config: FocalConfig, alpha: Option<CfgValue>, gamma: Option<CfgValue>)

  datatype BuildError =
    | MissingName                        // `ce_loss.pop('name')` on a dictionary without it
    | Unsupported(name: CfgValue)        // a name other than the two criteria
    | UnexpectedKeyword                  // `FocalLoss(**ce_loss)` with a key it has no parameter for
    | BadIgnoreIndex                     // a non-integer `ignore_index`
    | FocalRejected(reason: ConfigError) // `FocalLoss.__init__` rejects the reduction

  datatype Rsna2024Loss = Rsna2024Loss(
    conditions: seq<string>,
    levels: seq<string>,
    criterion: Criterion,
    conditionWeight: seq<real>,
    overallWeight: real,
    levelWeight: real)

  const DefaultConditions: seq<string> := ["spinal_canal_stenosis", "left_neural_foraminal_narrowing",
    "right_neural_foraminal_narrowing", "left_subarticular_stenosis", "right_subarticular_stenosis"]
  const DefaultLevels: seq<string> := ["L1/L2", "L2/L3", "L3/L4", "L4/L5", "L5/S1"]
  const DefaultCeLoss: CeConfig := map["name" := Str("CrossEntropyLoss"), "weight" := Reals([1.0, 2.0, 4.0])]

  /** The keyword parameters of `FocalLoss.__init__`. */
  const FocalKeywords: set<string> := {"alpha", "gamma", "reduction", "ignore_index"}

  /**
   * `FocalLoss(**options)`: a key outside its parameters is rejected, the
   * reduction (default `mean`) must be one of the three names, and
   * `ignore_index` defaults to -100.
   */
  function FocalCriterion(options: CeConfig): (r: Result<Criterion, BuildError>)
    ensures r == Err(UnexpectedKeyword) <==> !(options.Keys <= FocalKeywords)
    ensures r == Err(FocalRejected(UnknownReduction)) <==>
      && options.Keys <= FocalKeywords
      && "reduction" in options
      && options["reduction"] !in {Str("mean"), Str("sum"), Str("none")}
    ensures r.Ok? <==>
      && options.Keys <= FocalKeywords
      && ("reduction" in options ==> options["reduction"] in {Str("mean"), Str("sum"), Str("none")})
      && ("ignore_index" in options ==> options["ignore_index"].Int?)
    ensures r.Ok? ==>
      && r.value.Focal?
      && (r.value.config.reduction == Mean <==> "reduction" !in options || options["reduction"] == Str("mean"))
      && (r.value.config.reduction == Sum <==> "reduction" in options && options["reduction"] == Str("sum"))
      && (r.value.config.reduction == Unreduced <==> "reduction" in options && options["reduction"] == Str("none"))
      && ("ignore_index" in options ==> options["ignore_index"] == Int(r.value.config.ignoreIndex))
      && ("ignore_index" !in options ==> r.value.config.ignoreIndex == -100)
  {
    if !(options.Keys <= FocalKeywords) then Err(UnexpectedKeyword)
    else
      var reduction := if "reduction" in options then options["reduction"] else Str("mean");
      var ignore := if "ignore_index" in options then options["ignore_index"] else Int(-100);
      if !reduction.Str? then Err(FocalRejected(UnknownReduction))
      else match NewFocalLoss(reduction.s, if ignore.Int? then ignore.n else -100)
        case Err(e) => Err(FocalRejected(e))
        case Ok(cfg) =>
          if !ignore.Int? then Err(BadIgnoreIndex)
          else Ok(Focal(cfg,
                        if "alpha" in options then Some(options["alpha"]) else None,
                        if "gamma" in options then Some(options["gamma"]) else None))
  }

  /**
   * The dispatch in `__init__` on the popped name: only `CrossEntropyLoss`
   * and `FocalLoss` are supported, each built from the remaining entries.
   */
  function BuildCriterion(name: CfgValue, options: CeConfig): (r: Result<Criterion, BuildError>)
    ensures name == Str("CrossEntropyLoss") ==> r == Ok(CrossEntropy(options))
    ensures name == Str("FocalLoss") ==> r == FocalCriterion(options)
    ensures name !in {Str("CrossEntropyLoss"), Str("FocalLoss")} ==> r == Err(Unsupported(name))
  {
    if name == Str("CrossEntropyLoss") then Ok(CrossEntropy(options))
    else if name == Str("FocalLoss") then FocalCriterion(options)
    else Err(Unsupported(name))
  }

  /**
   * `RSNA2024Loss.__init__` without touching the caller's dictionary: the
   * `name` entry selects the criterion, the other entries configure it, and
   * an absent `condition_weight` becomes one `1.0` per condition.
   */
  function NewRsna2024Loss(conditions: seq<string>, levels: seq<string>, ceLoss: CeConfig,
                           conditionWeight: Option<seq<real>>, overallWeight: real, levelWeight: real)
    : (r: Result<Rsna2024Loss, BuildError>)
    ensures r == Err(MissingName) <==> "name" !in ceLoss
    ensures "name" in ceLoss && ceLoss["name"] !in {Str("CrossEntropyLoss"), Str("FocalLoss")} ==>
      r == Err(Unsupported(ceLoss["name"]))
    ensures r.Ok? ==>
      && r.value.conditions == conditions && r.value.levels == levels
      && r.value.overallWeight == overallWeight && r.value.levelWeight == levelWeight
      && "name" in ceLoss
      && (ceLoss["name"] == Str("CrossEntropyLoss") ==> r.value.criterion == CrossEntropy(ceLoss - {"name"}))
      && (ceLoss["name"] == Str("FocalLoss") ==> r.value.criterion.Focal?)
    ensures "name" in ceLoss ==>
      && (r.Err? <==> BuildCriterion(ceLoss["name"], ceLoss - {"name"}).Err?)
      && (r.Err? ==> r.error == BuildCriterion(ceLoss["name"], ceLoss - {"name"}).error)
      && (r.Ok? ==> r.value.criterion == BuildCriterion(ceLoss["name"], ceLoss - {"name"}).value)
    ensures r.Ok? && conditionWeight.Some? ==> r.value.conditionWeight == conditionWeight.value
    ensures r.Ok? && conditionWeight.None? ==>
      |r.value.conditionWeight| == |conditions| && forall c :: 0 <= c < |conditions| ==> r.value.conditionWeight[c] == 1.0
  {
    if "name" !in ceLoss then Err(MissingName)
    else match BuildCriterion(ceLoss["name"], ceLoss - {"name"})
      case Err(e) => Err(e)
      case Ok(criterion) =>
        var weight := if conditionWeight.None? then seq(|conditions|, _ => 1.0) else conditionWeight.value;
        Ok(Rsna2024Loss(conditions, levels, criterion, weight, overallWeight, levelWeight))
  }

  /**
   * Built with every default, the loss uses the weighted cross-entropy
   * `[1, 2, 4]` and weight 1 for each of the five conditions; as a function
   * of its arguments this holds however many times it is built.
   */
  lemma DefaultsBuild()
    ensures NewRsna2024Loss(DefaultConditions, DefaultLevels, DefaultCeLoss, None, 1.0, 0.0)
         == Ok(Rsna2024Loss(DefaultConditions, DefaultLevels, CrossEntropy(map["weight" := Reals([1.0, 2.0, 4.0])]),
                            [1.0, 1.0, 1.0, 1.0, 1.0], 1.0, 0.0))
  {
    assert DefaultCeLoss - {"name"} == map["weight" := Reals([1.0, 2.0, 4.0])];
    assert seq(|DefaultConditions|, _ => 1.0) == [1.0, 1.0, 1.0, 1.0, 1.0];
  }

  /**
   * With `FocalLoss` as the name, a reduction outside the three names and a
   * keyword `FocalLoss.__init__` has no parameter for are both rejected,
   * and a valid configuration builds the focal criterion it describes.
   */
  lemma FocalConfigurations()
    ensures NewRsna2024Loss(DefaultConditions, DefaultLevels,
              map["name" := Str("FocalLoss"), "reduction" := Str("bad")], None, 1.0, 0.0)
         == Err(FocalRejected(UnknownReduction))
    ensures NewRsna2024Loss(DefaultConditions, DefaultLevels,
              map["name" := Str("FocalLoss"), "weight" := Reals([1.0])], None, 1.0, 0.0)
         == Err(UnexpectedKeyword)
    ensures var built := NewRsna2024Loss(DefaultConditions, DefaultLevels,
              map["name" := Str("FocalLoss"), "reduction" := Str("sum"), "gamma" := Real(2.0)], None, 1.0, 0.0);
      built.Ok? && built.value.criterion == Focal(FocalConfig(Sum, -100), None, Some(Real(2.0)))
  {
    var bad := map["name" := Str("FocalLoss"), "reduction" := Str("bad")];
    assert bad - {"name"} == map["reduction" := Str("bad")];
    var extra := map["name" := Str("FocalLoss"), "weight" := Reals([1.0])];
    assert extra - {"name"} == map["weight" := Reals([1.0])];
    assert "weight" !in FocalKeywords;
    var good := map["name" := Str("FocalLoss"), "reduction" := Str("sum"), "gamma" := Real(2.0)];
    assert good - {"name"} == map["reduction" := Str("sum"), "gamma" := Real(2.0)];
  }

  /** A Python dictionary the constructor receives by reference. */
  class ConfigDict {
    var entries: CeConfig

    constructor(entries: CeConfig)
      ensures this.entries == entries
    {
      this.entries := entries;
    }
  }

  /**
   * `RSNA2024Loss.__init__` as written: `ce_loss.pop('name')` removes the
   * name from the caller's dictionary (replacing `weight` or `alpha` by a
   * tensor of the same values leaves its contents as they were), and the
   * loss built is the one `NewRsna2024Loss` gives for the dictionary as it
   * was before the call.
   */
  method InitInPlace(conditions: seq<string>, levels: seq<string>, ceLoss: ConfigDict,
                     conditionWeight: Option<seq<real>>, overallWeight: real, levelWeight: real)
    returns (r: Result<Rsna2024Loss, BuildError>)
    modifies ceLoss
    ensures ceLoss.entries == old(ceLoss.entries) - {"name"}
    ensures r == NewRsna2024Loss(conditions, levels, old(ceLoss.entries), conditionWeight, overallWeight, levelWeight)
  {
    if "name" !in ceLoss.entries {
      assert ceLoss.entries - {"name"} == ceLoss.entries;
      return Err(MissingName);
    }
    var name := ceLoss.entries["name"];
    ceLoss.entries := ceLoss.entries - {"name"};
    var built := BuildCriterion(name, ceLoss.entries);
    if built.Err? {
      return Err(built.error);
    }
    var weight := if conditionWeight.None? then seq(|conditions|, _ => 1.0) else conditionWeight.value;
    r := Ok(Rsna2024Loss(conditions, levels, built.value, weight, overallWeight, levelWeight));
  }

  /**
   * The default `ce_loss` is one dictionary shared by every call that omits
   * it. The first such construction succeeds and pops its name; the second
   * finds no `name` and fails.
   */
  method DefaultDictionaryReused() returns (first: Result<Rsna2024Loss, BuildError>, second: Result<Rsna2024Loss, BuildError>)
    ensures first.Ok? && first.value.criterion == CrossEntropy(map["weight" := Reals([1.0, 2.0, 4.0])])
    ensures second == Err(MissingName)
  {
    var shared := new ConfigDict(DefaultCeLoss);
    first := InitInPlace(DefaultConditions, DefaultLevels, shared, None, 1.0, 0.0);
    DefaultsBuild();
    second := InitInPlace(DefaultConditions, DefaultLevels, shared, None, 1.0, 0.0);
  }

  // ---------------------------------------------------------------------------
  // forward

  /** The sizes of the condition and level axes of `logits` (and `targets`). */
  datatype LogitShape = LogitShape(conditions: nat, levels: nat)

  /** The optional level inputs: how many level columns `level_logits` has, and the target columns. */
  datatype LevelInputs = LevelInputs(logitColumns: nat, targets: seq<seq<int>>)

  datatype ForwardError =
    | IndexOutOfRange     // a condition or level beyond a tensor's axis, or beyond `condition_weight`
    | EmptyStack          // `torch.stack` of an empty list
    | MissingLevelInputs  // a level loss weight with no level inputs

  datatype LossReport = LossReport(overall: real, level: real, total: real)

  /** The label the level cross-entropy ignores. */
  const IgnoredTarget := -100

  /** `torch.mean` of a non-empty list of scalars. */
  function Average(s: seq<real>): (r: real)
    requires s != []
    ensures r * |s| as real == SumOf(s)
  {
    SumOf(s) / |s| as real
  }

  /**
   * The partial losses in the order `forward` appends them: position
   * `c·L + l` holds the criterion's value on condition `c` at level `l`
   * times the weight of condition `c`.
   */
  function Partials(conds: nat, levels: nat, weights: seq<real>, criterion: (nat, nat) -> real): (p: seq<real>)
    requires levels == 0 || conds <= |weights|
    ensures |p| == conds * levels
  {
    if conds == 0 then []
    else
      assert conds * levels == (conds - 1) * levels + levels;
      Partials(conds - 1, levels, weights, criterion) + WeightedRow(conds - 1, levels, weights, criterion)
  }

  /** The first `l` weighted partial losses of condition `c`. */
  function WeightedRow(c: nat, l: nat, weights: seq<real>, criterion: (nat, nat) -> real): (row: seq<real>)
    requires l == 0 || c < |weights|
    ensures |row| == l
  {
    seq(l, j requires 0 <= j < l => criterion(c, j) * weights[c])
  }

  /** The unweighted criterion values of condition `c` at levels `0 .. l-1`. */
  function CondRow(c: nat, l: nat, criterion: (nat, nat) -> real): (row: seq<real>)
    ensures |row| == l
  {
    seq(l, j requires 0 <= j < l => criterion(c, j))
  }

  /** Each partial loss is the criterion on its own pair, scaled by its own condition's weight. */
  lemma {:induction false} PartialsAt(conds: nat, levels: nat, weights: seq<real>, criterion: (nat, nat) -> real, c: nat, l: nat)
    requires conds <= |weights| && c < conds && l < levels
    ensures c * levels + l < conds * levels
    ensures Partials(conds, levels, weights, criterion)[c * levels + l] == criterion(c, l) * weights[c]
  {
    MulMonotone(c + 1, conds, levels);
    var prev := Partials(conds - 1, levels, weights, criterion);
    assert |prev| == (conds - 1) * levels;
    if c < conds - 1 {
      PartialsAt(conds - 1, levels, weights, criterion, c, l);
    } else {
      assert c * levels == |prev|;
    }
  }

  /** One more level appends its weighted partial loss to a row. */
  lemma WeightedRowStep(c: nat, l: nat, weights: seq<real>, criterion: (nat, nat) -> real)
    requires c < |weights|
    ensures WeightedRow(c, l + 1, weights, criterion) == WeightedRow(c, l, weights, criterion) + [criterion(c, l) * weights[c]]
  {
    var longer := WeightedRow(c, l + 1, weights, criterion);
    assert longer[..l] == WeightedRow(c, l, weights, criterion);
    assert longer[l] == criterion(c, l) * weights[c];
    assert longer == longer[..l] + [longer[l]];
  }

  /** A weighted row sums to the weight times the row's sum. */
  lemma {:induction false} WeightedRowSum(c: nat, l: nat, weights: seq<real>, criterion: (nat, nat) -> real)
    requires c < |weights|
    ensures SumOf(WeightedRow(c, l, weights, criterion)) == weights[c] * SumOf(CondRow(c, l, criterion))
  {
    if l > 0 {
      var row := WeightedRow(c, l, weights, criterion);
      var plain := CondRow(c, l, criterion);
      assert row[..l - 1] == WeightedRow(c, l - 1, weights, criterion);
      assert plain[..l - 1] == CondRow(c, l - 1, criterion);
      WeightedRowSum(c, l - 1, weights, criterion);
    }
  }

  /** The sum over conditions of each condition's weight times its summed criterion values. */
  function WeightedSum(conds: nat, levels: nat, weights: seq<real>, criterion: (nat, nat) -> real): real
    requires conds <= |weights|
  {
    if conds == 0 then 0.0
    else WeightedSum(conds - 1, levels, weights, criterion) + weights[conds - 1] * SumOf(CondRow(conds - 1, levels, criterion))
  }

  /**
   * The partial losses add up condition by condition: their sum is the
   * sum over conditions of the condition weight times that condition's
   * criterion values summed over levels. So the overall loss is this
   * weighted sum divided by `|conditions|·|levels|`.
   */
  lemma {:induction false} PartialsSum(conds: nat, levels: nat, weights: seq<real>, criterion: (nat, nat) -> real)
    requires conds <= |weights|
    ensures SumOf(Partials(conds, levels, weights, criterion)) == WeightedSum(conds, levels, weights, criterion)
  {
    if conds > 0 {
      PartialsSum(conds - 1, levels, weights, criterion);
      PartialsSumStep(conds, levels, weights, criterion);
      WeightedSumStep(conds, levels, weights, criterion);
    } else {
      assert Partials(conds, levels, weights, criterion) == [];
    }
  }

  /**
   * The overall loss as a weighted mean: the mean of the partial losses is
   * the condition-weighted sum of all criterion values divided by the
   * number of (condition, level) pairs.
   */
  lemma OverallIsWeightedMean(conds: nat, levels: nat, weights: seq<real>, criterion: (nat, nat) -> real)
    requires 0 < conds <= |weights| && 0 < levels
    ensures Partials(conds, levels, weights, criterion) != []
    ensures Average(Partials(conds, levels, weights, criterion)) == WeightedSum(conds, levels, weights, criterion) / (conds * levels) as real
  {
    MulMonotone(1, conds, levels);
    PartialsSum(conds, levels, weights, criterion);
  }

  /** Each condition contributes the sum of its weighted row to the weighted sum. */
  lemma WeightedSumStep(conds: nat, levels: nat, weights: seq<real>, criterion: (nat, nat) -> real)
    requires 0 < conds <= |weights|
    ensures WeightedSum(conds, levels, weights, criterion)
         == WeightedSum(conds - 1, levels, weights, criterion) + SumOf(WeightedRow(conds - 1, levels, weights, criterion))
  {
    WeightedRowSum(conds - 1, levels, weights, criterion);
  }

  /** Adding a condition adds the sum of its weighted row. */
  lemma PartialsSumStep(conds: nat, levels: nat, weights: seq<real>, criterion: (nat, nat) -> real)
    requires 0 < conds <= |weights|
    ensures SumOf(Partials(conds, levels, weights, criterion))
         == SumOf(Partials(conds - 1, levels, weights, criterion)) + SumOf(WeightedRow(conds - 1, levels, weights, criterion))
  {
    var prev := Partials(conds - 1, levels, weights, criterion);
    var row := WeightedRow(conds - 1, levels, weights, criterion);
    assert Partials(conds, levels, weights, criterion) == prev + row;
    SumAppend(prev, row);
  }

  /**
   * `torch.any(level_target != -100)`, as a scan from the back: the column
   * counts exactly when some entry is not the ignored label.
   */
  predicate Counted(column: seq<int>): (b: bool)
    ensures b <==> exists i :: 0 <= i < |column| && column[i] != IgnoredTarget
  {
    if column == [] then false
    else
      var prefix := column[..|column| - 1];
      assert forall i :: 0 <= i < |prefix| ==> prefix[i] == column[i];
      column[|column| - 1] != IgnoredTarget || Counted(prefix)
  }

  /**
   * The levels below `upto` that enter the level loss, in order: exactly
   * those whose target column has an entry other than -100.
   */
  function QualifyingLevels(targets: seq<seq<int>>, upto: nat): (q: seq<nat>)
    requires upto <= |targets|
    ensures forall k :: 0 <= k < |q| ==> q[k] < upto && Counted(targets[q[k]])
    ensures forall k, m :: 0 <= k < m < |q| ==> q[k] < q[m]
    ensures forall l :: 0 <= l < upto && Counted(targets[l]) ==> l in q
  {
    if upto == 0 then []
    else
      var before := QualifyingLevels(targets, upto - 1);
      if Counted(targets[upto - 1]) then before + [upto - 1] else before
  }

  /** The level losses of the given levels, in order. */
  function LevelLosses(levels: seq<nat>, levelLoss: nat -> real): (s: seq<real>)
    ensures |s| == |levels|
  {
    seq(|levels|, k requires 0 <= k < |levels| => levelLoss(levels[k]))
  }

  /** Looking at one more level appends its loss exactly when it qualifies. */
  lemma LevelLossesStep(targets: seq<seq<int>>, l: nat, levelLoss: nat -> real)
    requires l < |targets|
    ensures LevelLosses(QualifyingLevels(targets, l + 1), levelLoss)
         == LevelLosses(QualifyingLevels(targets, l), levelLoss) + (if Counted(targets[l]) then [levelLoss(l)] else [])
  {
    var before := QualifyingLevels(targets, l);
    if Counted(targets[l]) {
      assert QualifyingLevels(targets, l + 1) == before + [l];
      LevelLossesSnoc(before, l, levelLoss);
    } else {
      assert LevelLosses(before, levelLoss) + [] == LevelLosses(before, levelLoss);
    }
  }

  /** One more qualifying level appends its level loss. */
  lemma LevelLossesSnoc(levels: seq<nat>, l: nat, levelLoss: nat -> real)
    ensures LevelLosses(levels + [l], levelLoss) == LevelLosses(levels, levelLoss) + [levelLoss(l)]
  {
    var longer := LevelLosses(levels + [l], levelLoss);
    assert longer[|levels|] == levelLoss(l);
    assert longer[..|levels|] == LevelLosses(levels, levelLoss);
    assert longer == longer[..|levels|] + [longer[|levels|]];
  }

  /**
   * When `forward` fails, stated on the sizes involved: no pair at all, an
   * axis or `condition_weight` shorter than the loss's conditions or
   * levels, and, with a positive level weight, missing level inputs, level
   * inputs with too few columns, or no level with a counted target.
   */
  function ForwardFailure(loss: Rsna2024Loss, shape: LogitShape, level: Option<LevelInputs>): Option<ForwardError>
  {
    var n, m := |loss.conditions|, |loss.levels|;
    if n == 0 || m == 0 then Some(EmptyStack)
    else if n > shape.conditions || m > shape.levels || n > |loss.conditionWeight| then Some(IndexOutOfRange)
    else if loss.levelWeight <= 0.0 then None
    else if level.None? then Some(MissingLevelInputs)
    else if m > level.value.logitColumns || m > |level.value.targets| then Some(IndexOutOfRange)
    else if QualifyingLevels(level.value.targets, m) == [] then Some(EmptyStack)
    else None
  }

  /**
   * The nested loops of `forward` over conditions and levels: each pair's
   * criterion value times its condition's weight is appended, and a pair
   * beyond the logits' axes or beyond `condition_weight` fails.
   */
  method CollectPartials(n: nat, m: nat, shape: LogitShape, weights: seq<real>, criterion: (nat, nat) -> real)
    returns (r: Result<seq<real>, ForwardError>)
    ensures r.Err? <==> n > 0 && m > 0 && (n > shape.conditions || m > shape.levels || n > |weights|)
    ensures r.Err? ==> r.error == IndexOutOfRange
    ensures r.Ok? ==> (m == 0 || n <= |weights|) && r.value == Partials(n, m, weights, criterion)
  {
    var partials: seq<real> := [];
    var c := 0;
    while c < n
      invariant 0 <= c <= n
      invariant m > 0 ==> c <= shape.conditions && c <= |weights| && (c > 0 ==> m <= shape.levels)
      invariant partials == Partials(c, m, weights, criterion)
    {
      var l := 0;
      while l < m
        invariant 0 <= l <= m
        invariant l > 0 ==> c < shape.conditions && c < |weights| && l <= shape.levels
        invariant partials == Partials(c, m, weights, criterion) + WeightedRow(c, l, weights, criterion)
      {
        if c >= shape.conditions || l >= shape.levels || c >= |weights| {
          return Err(IndexOutOfRange);
        }
        WeightedRowStep(c, l, weights, criterion);
        partials := partials + [criterion(c, l) * weights[c]];
        l := l + 1;
      }
      assert partials == Partials(c + 1, m, weights, criterion);
      c := c + 1;
    }
    r := Ok(partials);
  }

  /**
   * The level loop of `forward`: the loss of each level whose target column
   * has an entry other than -100 is appended, and a level beyond the level
   * inputs' columns fails.
   */
  method CollectLevelLosses(m: nat, inputs: LevelInputs, levelLoss: nat -> real)
    returns (r: Result<seq<real>, ForwardError>)
    ensures r.Err? <==> m > inputs.logitColumns || m > |inputs.targets|
    ensures r.Err? ==> r.error == IndexOutOfRange
    ensures r.Ok? ==> m <= |inputs.targets| && r.value == LevelLosses(QualifyingLevels(inputs.targets, m), levelLoss)
  {
    var levelLosses: seq<real> := [];
    var l := 0;
    while l < m
      invariant 0 <= l <= m
      invariant l <= inputs.logitColumns && l <= |inputs.targets|
      invariant levelLosses == LevelLosses(QualifyingLevels(inputs.targets, l), levelLoss)
    {
      if l >= inputs.logitColumns || l >= |inputs.targets| {
        return Err(IndexOutOfRange);
      }
      LevelLossesStep(inputs.targets, l, levelLoss);
      if Counted(inputs.targets[l]) {
        levelLosses := levelLosses + [levelLoss(l)];
      }
      l := l + 1;
    }
    r := Ok(levelLosses);
  }

  /**
   * `RSNA2024Loss.forward`. The overall loss is the mean over all
   * (condition, level) pairs of the weighted partial losses; the level loss
   * is the mean over the qualifying levels when the level weight is
   * positive and 0 otherwise; the total is their weighted sum.
   */
  method Forward(loss: Rsna2024Loss, shape: LogitShape, criterion: (nat, nat) -> real,
                 level: Option<LevelInputs>, levelLoss: nat -> real)
    returns (r: Result<LossReport, ForwardError>)
    ensures r.Err? <==> ForwardFailure(loss, shape, level).Some?
    ensures r.Err? ==> r.error == ForwardFailure(loss, shape, level).value
    ensures r.Ok? ==>
      && 0 < |loss.conditions| <= |loss.conditionWeight| && 0 < |loss.levels|
      && r.value.overall == Average(Partials(|loss.conditions|, |loss.levels|, loss.conditionWeight, criterion))
    ensures r.Ok? && loss.levelWeight > 0.0 ==>
      && level.Some? && |loss.levels| <= |level.value.targets|
      && QualifyingLevels(level.value.targets, |loss.levels|) != []
      && r.value.level == Average(LevelLosses(QualifyingLevels(level.value.targets, |loss.levels|), levelLoss))
    ensures r.Ok? && loss.levelWeight <= 0.0 ==> r.value.level == 0.0
    ensures r.Ok? ==> r.value.total == loss.overallWeight * r.value.overall + loss.levelWeight * r.value.level
  {
    var n, m := |loss.conditions|, |loss.levels|;
    var partials := CollectPartials(n, m, shape, loss.conditionWeight, criterion);
    if partials.Err? {
      return Err(partials.error);
    }
    if partials.value == [] {
      return Err(EmptyStack);
    }
    var overall := Average(partials.value);

    var levelValue := 0.0;
    if loss.levelWeight > 0.0 {
      if level.None? {
        return Err(MissingLevelInputs);
      }
      var levelLosses := CollectLevelLosses(m, level.value, levelLoss);
      if levelLosses.Err? {
        return Err(levelLosses.error);
      }
      if levelLosses.value == [] {
        return Err(EmptyStack);
      }
      levelValue := Average(levelLosses.value);
    }
    r := Ok(LossReport(overall, levelValue, loss.overallWeight * overall + loss.levelWeight * levelValue));
  }
}
