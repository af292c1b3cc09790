/**
 * The anomaly detector (agents/anomaly_detector.py): a two-state machine
 * (fitted or not) around an isolation forest, which bootstrap-fits on the
 * first usable batch and then reports the records the forest labels as
 * outliers.
 */
module Detection {
  import opened Wrappers
  import opened Records
  import opened Features

  /**
   * The isolation forest, kept abstract. Training on a table may fail; once
   * trained on a table, the forest scores each row on its own, and `predict`
   * labels a row an outlier when its score exceeds the threshold learnt from
   * the training table.
   */
  datatype Forest = Forest(
    fitFails: seq<FeatureRow> -> bool,
    score: (seq<FeatureRow>, FeatureRow) -> real,
    threshold: seq<FeatureRow> -> real)

  /** `predict(X)[i] == 1` for the forest trained on `model`. */
  predicate Label(forest: Forest, model: seq<FeatureRow>, row: FeatureRow) {
    forest.score(model, row) > forest.threshold(model)
  }

  /** `is_fitted`, and the table the forest was last trained on successfully. */
  datatype DetectorState = DetectorState(isFitted: bool, trainedOn: seq<FeatureRow>)

  /**
   * A reported anomaly: the copied log record (its Timestamp, if any, turned
   * into its ISO string) together with the two keys `update` sets,
   * `anomaly_score` and `anomaly_features`.
   */
  datatype Anomaly = Anomaly(log: Record, score: real, features: seq<(string, real)>)

  const ScoreKey := "anomaly_score"
  const FeaturesKey := "anomaly_features"

  /** The state `fit(logs)` leaves behind. */
  function AfterFit(forest: Forest, s: DetectorState, logs: seq<Record>): (r: DetectorState)
    ensures |logs| == 0 ==> r == s
    ensures |logs| > 0 ==>
      (r.isFitted <==> PrepareFeatures(logs).Ok? && !forest.fitFails(PrepareFeatures(logs).value))
    ensures |logs| > 0 && r.isFitted ==> r.trainedOn == PrepareFeatures(logs).value
    ensures !r.isFitted ==> r.trainedOn == s.trainedOn
  {
    if |logs| == 0 then s
    else match PrepareFeatures(logs)
      case Err(_) => s.(isFitted := false)
      case Ok(table) =>
        if forest.fitFails(table) then s.(isFitted := false) else DetectorState(true, table)
  }

  /** The state `detect(logs)` leaves behind: it fits only while unfitted, and only on a batch it can read. */
  function AfterDetect(forest: Forest, s: DetectorState, logs: seq<Record>): (r: DetectorState)
    ensures s.isFitted ==> r == s
    ensures |logs| == 0 || PrepareFeatures(logs).Err? ==> r == s
    ensures !s.isFitted && |logs| > 0 && PrepareFeatures(logs).Ok? ==> r == AfterFit(forest, s, logs)
  {
    if |logs| == 0 || PrepareFeatures(logs).Err? || s.isFitted then s
    else AfterFit(forest, s, logs)
  }

  /** The dictionary `detect` builds for one outlying record. */
  function MakeAnomaly(log: Record, score: real, row: FeatureRow, isoformat: int -> string): (a: Anomaly)
    ensures a.log.Keys == log.Keys - {ScoreKey, FeaturesKey}
    ensures forall k :: k in a.log && k != "timestamp" ==> a.log[k] == log[k]
    ensures "timestamp" in a.log ==>
      a.log["timestamp"] == (if log["timestamp"].Time? then Str(isoformat(log["timestamp"].t)) else log["timestamp"])
    ensures a.score == score && a.features == NamedFeatures(row)
  {
    var copied := map k | k in log && k != ScoreKey && k != FeaturesKey ::
      if k == "timestamp" && log[k].Time? then Str(isoformat(log[k].t)) else log[k];
    Anomaly(copied, score, NamedFeatures(row))
  }

  /** Positions among the first `n` rows that the forest labels as outliers, in increasing order. */
  function Outliers(forest: Forest, model: seq<FeatureRow>, table: seq<FeatureRow>, n: nat): (ix: seq<nat>)
    requires n <= |table|
    ensures |ix| <= n
    ensures forall k :: 0 <= k < |ix| ==> ix[k] < n && Label(forest, model, table[ix[k]])
    ensures forall i :: 0 <= i < n && Label(forest, model, table[i]) ==> i in ix
    ensures forall k, l :: 0 <= k < l < |ix| ==> ix[k] < ix[l]
  {
    if n == 0 then []
    else Outliers(forest, model, table, n - 1) + (if Label(forest, model, table[n - 1]) then [n - 1] else [])
  }

  /** The `anomalies` list after the loop has visited the first `n` records. */
  function Flagged(forest: Forest, model: seq<FeatureRow>, logs: seq<Record>, table: seq<FeatureRow>,
                   isoformat: int -> string, n: nat): (found: seq<Anomaly>)
    requires |table| == |logs| && n <= |logs|
    ensures |found| <= n
    ensures forall k :: 0 <= k < |found| ==> found[k].score > forest.threshold(model)
  {
    if n == 0 then []
    else
      var row := table[n - 1];
      Flagged(forest, model, logs, table, isoformat, n - 1)
      + (if Label(forest, model, row)
         then [MakeAnomaly(logs[n - 1], forest.score(model, row), row, isoformat)]
         else [])
  }

  /** The loop's result is the outlying records, in input order, each turned into its anomaly. */
  lemma {:induction false} FlaggedFollowsOutliers(forest: Forest, model: seq<FeatureRow>, logs: seq<Record>,
                                                  table: seq<FeatureRow>, isoformat: int -> string, n: nat)
    requires |table| == |logs| && n <= |logs|
    ensures var found, ix := Flagged(forest, model, logs, table, isoformat, n), Outliers(forest, model, table, n);
      && |found| == |ix|
      && forall k :: 0 <= k < |ix| ==>
           found[k] == MakeAnomaly(logs[ix[k]], forest.score(model, table[ix[k]]), table[ix[k]], isoformat)
  {
    if n > 0 {
      FlaggedFollowsOutliers(forest, model, logs, table, isoformat, n - 1);
    }
  }

  /** What `detect(logs)` returns from state `s`. */
  function Detected(forest: Forest, s: DetectorState, logs: seq<Record>, isoformat: int -> string): (found: seq<Anomaly>)
    ensures |logs| == 0 || PrepareFeatures(logs).Err? ==> found == []
    ensures !AfterDetect(forest, s, logs).isFitted ==> found == []
    ensures found != [] ==> |logs| > 0 && PrepareFeatures(logs).Ok? && AfterDetect(forest, s, logs).isFitted
    ensures |found| <= |logs|
  {
    if |logs| == 0 then []
    else match PrepareFeatures(logs)
      case Err(_) => []
      case Ok(table) =>
        var after := AfterDetect(forest, s, logs);
        if !after.isFitted then []
        else
          FlaggedFollowsOutliers(forest, after.trainedOn, logs, table, isoformat, |logs|);
          Flagged(forest, after.trainedOn, logs, table, isoformat, |logs|)
  }

  /**
   * The result of `detect` is the order-preserving subsequence of the batch the
   * forest labels as outliers: for increasing positions `ix`, the k-th anomaly
   * is record `ix[k]` copied, with that record's score (above the threshold)
   * and its 8 features; every outlier of the batch is reported.
   */
  lemma DetectedAreOutliers(forest: Forest, s: DetectorState, logs: seq<Record>, isoformat: int -> string)
    requires |logs| > 0 && PrepareFeatures(logs).Ok? && AfterDetect(forest, s, logs).isFitted
    ensures var found, table, model :=
        Detected(forest, s, logs, isoformat), PrepareFeatures(logs).value, AfterDetect(forest, s, logs).trainedOn;
      var ix := Outliers(forest, model, table, |logs|);
      && |found| == |ix|
      && (forall k, l :: 0 <= k < l < |ix| ==> ix[k] < ix[l])
      && (forall i :: 0 <= i < |logs| && Label(forest, model, table[i]) ==> i in ix)
      && forall k :: 0 <= k < |ix| ==>
           && ix[k] < |logs|
           && found[k].score == forest.score(model, table[ix[k]]) > forest.threshold(model)
           && found[k] == MakeAnomaly(logs[ix[k]], found[k].score, table[ix[k]], isoformat)
  {
    var table := PrepareFeatures(logs).value;
    var model := AfterDetect(forest, s, logs).trainedOn;
    FlaggedFollowsOutliers(forest, model, logs, table, isoformat, |logs|);
  }

  class AnomalyDetector {
    const forest: Forest
    var isFitted: bool
    var trainedOn: seq<FeatureRow>

    function State(): DetectorState
      reads this
    {
      DetectorState(isFitted, trainedOn)
    }

    constructor(forest: Forest)
      ensures this.forest == forest && !isFitted
    {
      this.forest := forest;
      isFitted := false;
      trainedOn := [];
    }

    /** `fit`: trains on the batch; a batch it cannot read, or a failed training, leaves it unfitted. */
    method Fit(logs: seq<Record>)
      modifies this
      ensures State() == AfterFit(forest, old(State()), logs)
    {
      if |logs| == 0 {
        return;
      }
      var prepared := PrepareFeatures(logs);
      if prepared.Err? {
        isFitted := false;
        return;
      }
      if forest.fitFails(prepared.value) {
        isFitted := false;
      } else {
        trainedOn := prepared.value;
        isFitted := true;
      }
    }

    /** `detect`: bootstrap-fits while unfitted, then reports the outlying records in order. */
    method Detect(logs: seq<Record>, isoformat: int -> string) returns (found: seq<Anomaly>)
      modifies this
      ensures found == Detected(forest, old(State()), logs, isoformat)
      ensures State() == AfterDetect(forest, old(State()), logs)
    {
      if |logs| == 0 {
        return [];
      }
      var prepared := PrepareFeatures(logs);
      if prepared.Err? {
        return [];
      }
      var table := prepared.value;
      ghost var before := State();
      if !isFitted {
        Fit(logs);
      }
      assert State() == AfterDetect(forest, before, logs);
      if !isFitted {
        return [];
      }
      found := Collect(trainedOn, logs, table, isoformat);
    }

    /** The loop of `detect` over the batch, the scores and the labels of the forest trained on `model`. */
    method Collect(model: seq<FeatureRow>, logs: seq<Record>, table: seq<FeatureRow>, isoformat: int -> string)
      returns (found: seq<Anomaly>)
      requires |table| == |logs|
      ensures found == Flagged(forest, model, logs, table, isoformat, |logs|)
    {
      found := [];
      for idx := 0 to |logs|
        invariant found == Flagged(forest, model, logs, table, isoformat, idx)
      {
        var row := table[idx];
        if Label(forest, model, row) {
          found := found + [MakeAnomaly(logs[idx], forest.score(model, row), row, isoformat)];
        }
        assert found == Flagged(forest, model, logs, table, isoformat, idx + 1);
      }
    }
  }
}
