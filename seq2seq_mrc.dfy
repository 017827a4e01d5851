/** The evaluate/predict wrappers of the sequence-to-sequence MRC trainer:
    metric computation is switched off around the inherited inference loop and
    restored afterwards, post-processing and metrics are optional, and every
    metric key is prefixed with `<prefix>_`. */
module Seq2SeqMrcTrainer {
  import opened Wrappers
  import opened Python

  type Metrics = map<string, Value>

  /** `key.startswith(f"{prefix}_")`. */
  predicate HasMetricPrefix(key: string, prefix: string)
    ensures HasMetricPrefix(key, prefix) <==>
              |prefix| < |key| && key[..|prefix|] == prefix && key[|prefix|] == '_'
  {
    prefix + "_" <= key
  }

  /** `f"{prefix}_{key}"`: the prefix can be cut off again. */
  function MetricKey(prefix: string, key: string): (k: string)
    ensures HasMetricPrefix(k, prefix)
    ensures k[|prefix| + 1..] == key
  {
    var k := prefix + "_" + key;
    assert k[..|prefix| + 1] == prefix + "_";
    k
  }

  /** The keys of `m` that stay where they are once the prefix loop is done
      with the keys outside `todo`: the prefixed ones and those still to visit. */
  function Kept<V>(m: map<string, V>, prefix: string, todo: set<string>): map<string, V>
  {
    map k | k in m && (HasMetricPrefix(k, prefix) || k in todo) :: m[k]
  }

  /** The unprefixed keys already visited, moved to `prefix_key`. */
  function Moved<V>(m: map<string, V>, prefix: string, todo: set<string>): map<string, V>
  {
    map k | k in m && k !in todo && !HasMetricPrefix(k, prefix) :: MetricKey(prefix, k) := m[k]
  }

  /** What the prefix loop leaves behind: prefixed keys stay, every other key
      `k` moves to `prefix_k`, and a moved value overrides a prefixed key it
      lands on. */
  function Prefixed<V>(m: map<string, V>, prefix: string): (r: map<string, V>)
    ensures forall k :: k in m && HasMetricPrefix(k, prefix) ==> k in r
  {
    Kept(m, prefix, {}) + Moved(m, prefix, {})
  }

  /** Every moved key carries the prefix and comes from an unprefixed key. */
  lemma MovedKeys<V>(m: map<string, V>, prefix: string, todo: set<string>)
    ensures forall k :: k in Moved(m, prefix, todo) ==>
              && HasMetricPrefix(k, prefix)
              && var k0 := k[|prefix| + 1..];
                 k0 in m && k0 !in todo && !HasMetricPrefix(k0, prefix) && k == MetricKey(prefix, k0)
                 && Moved(m, prefix, todo)[k] == m[k0]
  {
    forall k | k in Moved(m, prefix, todo)
      ensures && HasMetricPrefix(k, prefix)
              && var k0 := k[|prefix| + 1..];
                 k0 in m && k0 !in todo && !HasMetricPrefix(k0, prefix) && k == MetricKey(prefix, k0)
                 && Moved(m, prefix, todo)[k] == m[k0]
    {
      var k0 :| k0 in m && k0 !in todo && !HasMetricPrefix(k0, prefix) && k == MetricKey(prefix, k0);
    }
  }

  /** The result of the prefix loop: an unprefixed key is gone and its value sits under `prefix_k` (winning any
      clash), a prefixed key keeps its value unless such a clash overrode it,
      and no key comes from anywhere else. */
  lemma {:induction false} PrefixedSpec<V>(m: map<string, V>, prefix: string)
    ensures forall k :: k in m && !HasMetricPrefix(k, prefix) ==>
              k !in Prefixed(m, prefix) && Prefixed(m, prefix)[MetricKey(prefix, k)] == m[k]
    ensures forall k :: k in m && HasMetricPrefix(k, prefix) ==> k in Prefixed(m, prefix)
    ensures forall k :: k in m && HasMetricPrefix(k, prefix)
                        && !(k[|prefix| + 1..] in m && !HasMetricPrefix(k[|prefix| + 1..], prefix)) ==>
              Prefixed(m, prefix)[k] == m[k]
    ensures forall k :: k in Prefixed(m, prefix) ==>
              || (k in m && HasMetricPrefix(k, prefix))
              || (k[|prefix| + 1..] in m && !HasMetricPrefix(k[|prefix| + 1..], prefix))
  {
    MovedKeys(m, prefix, {});
    var moved := Moved(m, prefix, {});
    forall k | k in m && !HasMetricPrefix(k, prefix)
      ensures MetricKey(prefix, k) in moved
    {
    }
  }

  /** Every key the prefix loop leaves behind carries the prefix. */
  lemma PrefixedKeysHavePrefix<V>(m: map<string, V>, prefix: string)
    ensures forall k :: k in Prefixed(m, prefix) ==> HasMetricPrefix(k, prefix)
  {
    MovedKeys(m, prefix, {});
  }

  /** A dict whose keys all carry the prefix passes through unchanged. */
  lemma PrefixedLeavesPrefixedAlone<V>(m: map<string, V>, prefix: string)
    requires forall k :: k in m ==> HasMetricPrefix(k, prefix)
    ensures Prefixed(m, prefix) == m
  {
    MovedKeys(m, prefix, {});
    assert Moved(m, prefix, {}).Keys == {};
    assert Kept(m, prefix, {}) == m;
  }

  /** Running the prefix loop on its own output changes nothing. */
  lemma PrefixedIdempotent<V>(m: map<string, V>, prefix: string)
    ensures Prefixed(Prefixed(m, prefix), prefix) == Prefixed(m, prefix)
  {
    PrefixedKeysHavePrefix(m, prefix);
    PrefixedLeavesPrefixedAlone(Prefixed(m, prefix), prefix);
  }

  /** Popping a key that only the left map holds and inserting a new one. */
  lemma PopAndInsert<V>(kept: map<string, V>, moved: map<string, V>, key: string, newKey: string)
    requires key in kept && key !in moved
    ensures ((kept + moved) - {key})[newKey := kept[key]] == (kept - {key}) + moved[newKey := kept[key]]
  {
  }

  /** Visiting an unprefixed key moves exactly that key. */
  lemma VisitUnprefixed<V>(m: map<string, V>, prefix: string, todo: set<string>, key: string)
    requires key in todo && key in m && !HasMetricPrefix(key, prefix)
    ensures var state := Kept(m, prefix, todo) + Moved(m, prefix, todo);
            && key in state && state[key] == m[key]
            && (state - {key})[MetricKey(prefix, key) := state[key]]
               == Kept(m, prefix, todo - {key}) + Moved(m, prefix, todo - {key})
  {
    MovedKeys(m, prefix, todo);
    MovedKeys(m, prefix, todo - {key});
    var kept, before, after := Kept(m, prefix, todo), Moved(m, prefix, todo), Moved(m, prefix, todo - {key});
    assert key !in before;
    forall k | k in before ensures k in after && after[k] == before[k] {
      assert k[|prefix| + 1..] != key;
    }
    assert MetricKey(prefix, key) in after;
    assert after == before[MetricKey(prefix, key) := m[key]];
    assert Kept(m, prefix, todo - {key}) == kept - {key};
    PopAndInsert(kept, before, key, MetricKey(prefix, key));
  }

  /** Visiting a prefixed key changes nothing. */
  lemma VisitPrefixed<V>(m: map<string, V>, prefix: string, todo: set<string>, key: string)
    requires key in todo && HasMetricPrefix(key, prefix)
    ensures Kept(m, prefix, todo - {key}) == Kept(m, prefix, todo)
    ensures Moved(m, prefix, todo - {key}) == Moved(m, prefix, todo)
  {
  }

  /** The in-place loop of `evaluate`: for every key of the original dict (in
      whatever order it is visited), a key without the prefix is popped and
      reinserted as `prefix_key`. */
  method PrefixMetricKeys<V>(metrics: map<string, V>, prefix: string) returns (result: map<string, V>)
    ensures result == Prefixed(metrics, prefix)
  {
    result := metrics;
    var todo := metrics.Keys;
    while todo != {}
      invariant todo <= metrics.Keys
      invariant result == Kept(metrics, prefix, todo) + Moved(metrics, prefix, todo)
      decreases todo
    {
      var key :| key in todo;
      if !HasMetricPrefix(key, prefix) {
        VisitUnprefixed(metrics, prefix, todo, key);
        var value := result[key];  // metrics.pop(key)
        result := (result - {key})[MetricKey(prefix, key) := value];
      } else {
        VisitPrefixed(metrics, prefix, todo, key);
      }
      todo := todo - {key};
    }
  }

  /** The generation defaults and loop choice taken from `self.args`. */
  datatype TrainingArguments = TrainingArguments(
    generationMaxLength: Option<int>,
    generationNumBeams: Option<int>,
    useLegacyPredictionLoop: bool)

  /** One call of the inherited inference loop: which loop (`legacy` for
      `prediction_loop`), on what, with which flags, and whether
      `compute_metrics` is set on the trainer while it runs. */
  datatype LoopCall<D> = LoopCall(
    legacy: bool,
    dataset: D,
    description: string,
    predictionLossOnly: Option<bool>,
    ignoreKeys: Option<seq<string>>,
    metricsEnabled: bool)

  /** What `predict` returns: the post-processed predictions, or `{}`. */
  datatype Predictions<P> = Processed(predictions: P) | EmptyPredictions

  class MRCSeq2SeqTrainer<D, E, O, P> {
    const args: TrainingArguments
    const evalDataset: D
    const evalExamples: E
    const postProcessFunction: Option<(E, D, O) -> P>
    var computeMetrics: Option<P -> Metrics>
    var maxLength: Option<int>
    var numBeams: Option<int>

    constructor (args: TrainingArguments, evalDataset: D, evalExamples: E,
                 postProcessFunction: Option<(E, D, O) -> P>, computeMetrics: Option<P -> Metrics>)
      ensures this.args == args && this.evalDataset == evalDataset && this.evalExamples == evalExamples
      ensures this.postProcessFunction == postProcessFunction && this.computeMetrics == computeMetrics
    {
      this.args := args;
      this.evalDataset := evalDataset;
      this.evalExamples := evalExamples;
      this.postProcessFunction := postProcessFunction;
      this.computeMetrics := computeMetrics;
      maxLength := None;
      numBeams := None;
    }

    /** Runs the evaluation loop with metric computation switched off and
        restores it whatever the loop does; then, when both a post-processing
        and a metrics function are set, returns the metrics with every key
        prefixed, and `{}` otherwise. An exception of the loop propagates. */
    method Evaluate(evalDatasetArg: Option<D>, evalExamplesArg: Option<E>, ignoreKeys: Option<seq<string>>,
                    metricKeyPrefix: string, maxLengthArg: Option<int>, numBeamsArg: Option<int>,
                    loop: LoopCall<D> -> Result<O, PyError>)
      returns (r: Result<Metrics, PyError>)
      modifies this`computeMetrics, this`maxLength, this`numBeams
      ensures computeMetrics == old(computeMetrics)
      ensures maxLength == if maxLengthArg.Some? then maxLengthArg else args.generationMaxLength
      ensures numBeams == if numBeamsArg.Some? then numBeamsArg else args.generationNumBeams
      ensures var dataset := if evalDatasetArg.None? then evalDataset else evalDatasetArg.value;
              var examples := if evalExamplesArg.None? then evalExamples else evalExamplesArg.value;
              var call := LoopCall(args.useLegacyPredictionLoop, dataset, "Evaluation",
                                   if computeMetrics.None? then Some(true) else None, ignoreKeys, false);
              match loop(call)
              case Failure(e) => r == Failure(e)
              case Success(output) =>
                r == Success(if postProcessFunction.Some? && computeMetrics.Some?
                             then Prefixed(computeMetrics.value(postProcessFunction.value(examples, dataset, output)),
                                           metricKeyPrefix)
                             else map[])
    {
      maxLength := if maxLengthArg.Some? then maxLengthArg else args.generationMaxLength;
      numBeams := if numBeamsArg.Some? then numBeamsArg else args.generationNumBeams;
      var dataset := if evalDatasetArg.None? then evalDataset else evalDatasetArg.value;
      var examples := if evalExamplesArg.None? then evalExamples else evalExamplesArg.value;

      var savedMetrics := computeMetrics;
      computeMetrics := None;
      var output := loop(LoopCall(args.useLegacyPredictionLoop, dataset, "Evaluation",
                                  if savedMetrics.None? then Some(true) else None, ignoreKeys,
                                  computeMetrics.Some?));
      computeMetrics := savedMetrics;  // the `finally` block
      if output.Failure? {
        return Failure(output.error);
      }

      var metrics: Metrics;
      if postProcessFunction.Some? && computeMetrics.Some? {
        var evalPreds := postProcessFunction.value(examples, dataset, output.value);
        metrics := computeMetrics.value(evalPreds);
        metrics := PrefixMetricKeys(metrics, metricKeyPrefix);
      } else {
        metrics := map[];
      }
      return Success(metrics);
    }

    /** Runs the prediction loop with metric computation switched off, and
        leaves it off; returns the post-processed predictions, or `{}` when no
        post-processing function is set. */
    method Predict(predictDataset: D, predictExamples: E, ignoreKeys: Option<seq<string>>,
                   maxLengthArg: Option<int>, numBeamsArg: Option<int>,
                   loop: LoopCall<D> -> Result<O, PyError>)
      returns (r: Result<Predictions<P>, PyError>)
      modifies this`computeMetrics, this`maxLength, this`numBeams
      ensures computeMetrics == None
      ensures maxLength == if maxLengthArg.Some? then maxLengthArg else args.generationMaxLength
      ensures numBeams == if numBeamsArg.Some? then numBeamsArg else args.generationNumBeams
      ensures var call := LoopCall(args.useLegacyPredictionLoop, predictDataset, "Prediction",
                                   Some(false), ignoreKeys, false);
              match loop(call)
              case Failure(e) => r == Failure(e)
              case Success(output) =>
                r == Success(if postProcessFunction.Some?
                             then Processed(postProcessFunction.value(predictExamples, predictDataset, output))
                             else EmptyPredictions)
    {
      maxLength := if maxLengthArg.Some? then maxLengthArg else args.generationMaxLength;
      numBeams := if numBeamsArg.Some? then numBeamsArg else args.generationNumBeams;

      computeMetrics := None;
      var output := loop(LoopCall(args.useLegacyPredictionLoop, predictDataset, "Prediction",
                                  Some(false), ignoreKeys, computeMetrics.Some?));
      if output.Failure? {
        return Failure(output.error);
      }
      if postProcessFunction.Some? {
        r := Success(Processed(postProcessFunction.value(predictExamples, predictDataset, output.value)));
      } else {
        r := Success(EmptyPredictions);
      }
    }
  }
}
