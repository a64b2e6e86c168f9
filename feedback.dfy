/**
 * The feedback-driven trainer of python/anomaly_detector.py: the training
 * gate of `train_model` and the per-point rule of `detect_anomalies`.
 *
 * The scaler and isolation forest are an abstract oracle. Fitting replaces
 * the model token by `Fitted(sample)`: with a fixed random seed the fitted
 * pair is determined by the sample it was fitted on. Scoring is a caller's
 * `Predictor`, applied once to the whole batch with the model as it was on
 * entry, before any point is examined.
 */
module Feedback {
  import opened Telemetry

  /** `train_model` refuses samples smaller than this. */
  const MIN_TRAINING_POINTS: nat := 120
  /** A retrain happens when the false-positive counter exceeds this. */
  const FALSE_POSITIVE_LIMIT: nat := 10

  /** The scaler and forest pair, identified by the sample it was last fitted on. */
  datatype ModelState = Unfitted | Fitted(sample: seq<TelemetryRecord>)

  /** `predict` of the fitted pipeline: true for an outlier (-1), false for an inlier (1). */
  type Predictor = (ModelState, FeatureVector) -> bool

  /** `datetime.now().isoformat()` as read while the i-th point of a batch is examined. */
  type Clock = nat -> string

  /** The fields `is_trained`, the model, `training_data` and `incorrect_anomalies`. */
  datatype Trainer = Trainer(
    isTrained: bool,
    model: ModelState,
    trainingData: seq<TelemetryRecord>,
    incorrectAnomalies: int)

  /** The state right after `__init__`. */
  function InitialTrainer(): Trainer {
    Trainer(false, Unfitted, [], 0)
  }

  /** What holds between any two points processed by the engine. */
  ghost predicate Invariant(t: Trainer) {
    && 0 <= t.incorrectAnomalies <= FALSE_POSITIVE_LIMIT
    && (t.isTrained <==> t.model.Fitted?)
    && (t.isTrained ==>
          MIN_TRAINING_POINTS <= |t.model.sample| && t.model.sample <= t.trainingData)
  }

  lemma InitialTrainerInvariant()
    ensures Invariant(InitialTrainer())
  {
  }

  /** `train_model(data)`: a refused fit changes nothing; a successful one replaces the model. */
  function Fit(t: Trainer, data: seq<TelemetryRecord>): (r: Trainer)
    ensures r.trainingData == t.trainingData && r.incorrectAnomalies == t.incorrectAnomalies
    ensures r.isTrained <==> t.isTrained || |data| >= MIN_TRAINING_POINTS
    ensures |data| < MIN_TRAINING_POINTS ==> r.model == t.model
    ensures |data| >= MIN_TRAINING_POINTS ==> r.model == Fitted(data)
  {
    if |data| < MIN_TRAINING_POINTS then t
    else t.(isTrained := true, model := Fitted(data))
  }

  /** The boolean `train_model` returns. */
  predicate FitSucceeds(data: seq<TelemetryRecord>) {
    |data| >= MIN_TRAINING_POINTS
  }

  /** Fitting on the whole buffer keeps the invariant. */
  lemma FitBufferKeepsInvariant(t: Trainer)
    requires Invariant(t)
    ensures Invariant(Fit(t, t.trainingData))
  {
  }

  /** Trainer state after one point and what that point contributes to the result. */
  datatype Detection = Detection(trainer: Trainer, anomalies: seq<Anomaly>)

  /** One iteration of the loop of `detect_anomalies`, for a point labelled `outlier`. */
  function Step(t: Trainer, p: TelemetryRecord, outlier: bool, detectedAt: string): Detection {
    if !outlier then Detection(t, [])
    else
      var anomaly := MakeAnomaly(p, detectedAt);
      if !anomaly.engineFailure then
        var grown := t.(trainingData := t.trainingData + [p],
                        incorrectAnomalies := t.incorrectAnomalies + 1);
        if grown.incorrectAnomalies > FALSE_POSITIVE_LIMIT then
          Detection(Fit(grown, grown.trainingData).(incorrectAnomalies := 0), [])
        else
          Detection(grown, [])
      else
        Detection(t, [anomaly])
  }

  /** Inliers and true anomalies leave the trainer as it was; a false positive grows the buffer by that point. */
  lemma StepEffects(t: Trainer, p: TelemetryRecord, outlier: bool, detectedAt: string)
    requires Invariant(t)
    ensures var d := Step(t, p, outlier, detectedAt);
      && (!outlier ==> d == Detection(t, []))
      && (outlier && p.engineFailure ==> d == Detection(t, [MakeAnomaly(p, detectedAt)]))
      && (outlier && !p.engineFailure ==>
            && d.anomalies == []
            && d.trainer.trainingData == t.trainingData + [p]
            && (t.incorrectAnomalies < FALSE_POSITIVE_LIMIT ==>
                  d.trainer == t.(trainingData := t.trainingData + [p],
                                  incorrectAnomalies := t.incorrectAnomalies + 1))
            && (t.incorrectAnomalies == FALSE_POSITIVE_LIMIT ==>
                  d.trainer.incorrectAnomalies == 0 &&
                  (t.isTrained ==> d.trainer.model == Fitted(t.trainingData + [p]))))
  {
  }

  lemma StepKeepsInvariant(t: Trainer, p: TelemetryRecord, outlier: bool, detectedAt: string)
    requires Invariant(t)
    ensures Invariant(Step(t, p, outlier, detectedAt).trainer)
    ensures t.isTrained ==> Step(t, p, outlier, detectedAt).trainer.isTrained
  {
    if outlier && !p.engineFailure {
      var grown := t.(trainingData := t.trainingData + [p],
                      incorrectAnomalies := t.incorrectAnomalies + 1);
      assert t.isTrained ==> t.model.sample <= grown.trainingData;
    }
  }

  /**
   * The loop of `detect_anomalies` over `ps` with the labels `preds`, fixed
   * before the loop: the state after the points of `ps` in order, and the
   * anomalies collected.
   */
  function Scan(t: Trainer, ps: seq<TelemetryRecord>, preds: seq<bool>, clock: Clock): Detection
    requires |preds| == |ps|
    decreases |ps|
  {
    if ps == [] then Detection(t, [])
    else
      var n := |ps| - 1;
      var d := Scan(t, ps[..n], preds[..n], clock);
      var e := Step(d.trainer, ps[n], preds[n], clock(n));
      Detection(e.trainer, d.anomalies + e.anomalies)
  }

  /** `self.model.predict(...)` over the whole batch, computed once with the model on entry. */
  function Predictions(model: ModelState, ps: seq<TelemetryRecord>, predict: Predictor): (preds: seq<bool>)
    ensures |preds| == |ps|
    ensures forall i :: 0 <= i < |ps| ==> preds[i] == predict(model, ExtractFeatures(ps[i]))
  {
    seq(|ps|, i requires 0 <= i < |ps| => predict(model, ExtractFeatures(ps[i])))
  }

  /** `detect_anomalies(ps)`: nothing happens while untrained. */
  function DetectAnomalies(t: Trainer, ps: seq<TelemetryRecord>, predict: Predictor, clock: Clock): (d: Detection)
    ensures !t.isTrained ==> d == Detection(t, [])
  {
    if !t.isTrained then Detection(t, [])
    else Scan(t, ps, Predictions(t.model, ps, predict), clock)
  }

  // ---- Reference definitions, independent of the trainer state ----

  /** The anomalies for the points labelled outlier whose engine really failed, in input order. */
  function ConfirmedAnomalies(ps: seq<TelemetryRecord>, preds: seq<bool>, clock: Clock): seq<Anomaly>
    requires |preds| == |ps|
    decreases |ps|
  {
    if ps == [] then []
    else
      var n := |ps| - 1;
      ConfirmedAnomalies(ps[..n], preds[..n], clock) +
      (if preds[n] && ps[n].engineFailure then [MakeAnomaly(ps[n], clock(n))] else [])
  }

  /** The points labelled outlier whose engine had not failed, in input order. */
  function FalsePositives(ps: seq<TelemetryRecord>, preds: seq<bool>): seq<TelemetryRecord>
    requires |preds| == |ps|
    decreases |ps|
  {
    if ps == [] then []
    else
      var n := |ps| - 1;
      FalsePositives(ps[..n], preds[..n]) +
      (if preds[n] && !ps[n].engineFailure then [ps[n]] else [])
  }

  // ---- What the loop computes ----

  /** The result is exactly the confirmed anomalies, whatever the trainer does meanwhile. */
  lemma {:induction false} ScanAnomalies(t: Trainer, ps: seq<TelemetryRecord>, preds: seq<bool>, clock: Clock)
    requires |preds| == |ps|
    ensures Scan(t, ps, preds, clock).anomalies == ConfirmedAnomalies(ps, preds, clock)
    decreases |ps|
  {
    if ps != [] {
      var n := |ps| - 1;
      ScanAnomalies(t, ps[..n], preds[..n], clock);
    }
  }

  /** Each false positive is appended to the buffer once, in input order, and nothing else is. */
  lemma {:induction false} ScanTrainingData(t: Trainer, ps: seq<TelemetryRecord>, preds: seq<bool>, clock: Clock)
    requires |preds| == |ps|
    ensures Scan(t, ps, preds, clock).trainer.trainingData == t.trainingData + FalsePositives(ps, preds)
    decreases |ps|
  {
    if ps != [] {
      var n := |ps| - 1;
      ScanTrainingData(t, ps[..n], preds[..n], clock);
    }
  }

  /** The counter ends at the number of false positives since the last retrain: (start + FPs) mod 11. */
  lemma {:induction false} ScanCounter(t: Trainer, ps: seq<TelemetryRecord>, preds: seq<bool>, clock: Clock)
    requires |preds| == |ps|
    requires 0 <= t.incorrectAnomalies <= FALSE_POSITIVE_LIMIT
    ensures Scan(t, ps, preds, clock).trainer.incorrectAnomalies ==
            (t.incorrectAnomalies + |FalsePositives(ps, preds)|) % (FALSE_POSITIVE_LIMIT + 1)
    decreases |ps|
  {
    if ps != [] {
      var n := |ps| - 1;
      ScanCounter(t, ps[..n], preds[..n], clock);
      var k := t.incorrectAnomalies + |FalsePositives(ps[..n], preds[..n])|;
      if preds[n] && !ps[n].engineFailure {
        assert |FalsePositives(ps, preds)| == |FalsePositives(ps[..n], preds[..n])| + 1;
        if k % 11 == 10 {
          assert (k + 1) % 11 == 0;
        } else {
          assert (k + 1) % 11 == k % 11 + 1;
        }
      }
    }
  }

  /** The invariant holds after every point, and a trained model stays trained. */
  lemma {:induction false} ScanKeepsInvariant(t: Trainer, ps: seq<TelemetryRecord>, preds: seq<bool>, clock: Clock)
    requires |preds| == |ps|
    requires Invariant(t)
    ensures Invariant(Scan(t, ps, preds, clock).trainer)
    ensures t.isTrained ==> Scan(t, ps, preds, clock).trainer.isTrained
    decreases |ps|
  {
    if ps != [] {
      var n := |ps| - 1;
      ScanKeepsInvariant(t, ps[..n], preds[..n], clock);
      StepKeepsInvariant(Scan(t, ps[..n], preds[..n], clock).trainer, ps[n], preds[n], clock(n));
    }
  }

  /**
   * Which model is in place after the false positives `fp`, counted from
   * trainer `t`. With k = start counter + |fp|: no retrain has happened
   * while k <= 10; otherwise the model was last fitted, successfully, on
   * the buffer as it stood when the counter last passed 10, i.e. holding
   * all but the last k mod 11 false positives.
   */
  ghost predicate ModelAfter(t: Trainer, fp: seq<TelemetryRecord>, m: ModelState)
    requires 0 <= t.incorrectAnomalies <= FALSE_POSITIVE_LIMIT
  {
    var k := t.incorrectAnomalies + |fp|;
    && (k <= FALSE_POSITIVE_LIMIT ==> m == t.model)
    && (k > FALSE_POSITIVE_LIMIT ==>
          m == Fitted(t.trainingData + fp[..|fp| - k % (FALSE_POSITIVE_LIMIT + 1)]))
  }

  /** One step of the loop keeps `ModelAfter` in step with the false positives seen. */
  lemma ModelAfterStep(t: Trainer, fp0: seq<TelemetryRecord>, d0: Trainer,
                       p: TelemetryRecord, outlier: bool, detectedAt: string)
    requires Invariant(d0) && d0.isTrained
    requires 0 <= t.incorrectAnomalies <= FALSE_POSITIVE_LIMIT
    requires d0.incorrectAnomalies == (t.incorrectAnomalies + |fp0|) % (FALSE_POSITIVE_LIMIT + 1)
    requires d0.trainingData == t.trainingData + fp0
    requires ModelAfter(t, fp0, d0.model)
    ensures ModelAfter(t, fp0 + (if outlier && !p.engineFailure then [p] else []),
                       Step(d0, p, outlier, detectedAt).trainer.model)
  {
    var e := Step(d0, p, outlier, detectedAt);
    StepEffects(d0, p, outlier, detectedAt);
    var k0 := t.incorrectAnomalies + |fp0|;
    if outlier && !p.engineFailure {
      var fp := fp0 + [p];
      if d0.incorrectAnomalies == FALSE_POSITIVE_LIMIT {
        assert (k0 + 1) % 11 == 0;
        assert fp[..|fp| - 0] == fp;
        assert e.trainer.model == Fitted(t.trainingData + fp);
      } else if k0 <= FALSE_POSITIVE_LIMIT {
        assert e.trainer.model == d0.model == t.model;
      } else {
        assert (k0 + 1) % 11 == k0 % 11 + 1;
        assert k0 % 11 <= k0 - 11;
        assert fp[..|fp| - (k0 + 1) % 11] == fp0[..|fp0| - k0 % 11];
        assert e.trainer.model == d0.model;
      }
    } else {
      assert fp0 + [] == fp0;
    }
  }

  /** The model the loop leaves behind, in terms of the false positives of the batch. */
  lemma {:induction false} ScanModel(t: Trainer, ps: seq<TelemetryRecord>, preds: seq<bool>, clock: Clock)
    requires |preds| == |ps|
    requires Invariant(t) && t.isTrained
    ensures ModelAfter(t, FalsePositives(ps, preds), Scan(t, ps, preds, clock).trainer.model)
    decreases |ps|
  {
    if ps == [] {
      assert t.incorrectAnomalies + 0 <= FALSE_POSITIVE_LIMIT;
    } else {
      var n := |ps| - 1;
      ScanModel(t, ps[..n], preds[..n], clock);
      ScanCounter(t, ps[..n], preds[..n], clock);
      ScanTrainingData(t, ps[..n], preds[..n], clock);
      ScanKeepsInvariant(t, ps[..n], preds[..n], clock);
      var d0 := Scan(t, ps[..n], preds[..n], clock).trainer;
      ModelAfterStep(t, FalsePositives(ps[..n], preds[..n]), d0, ps[n], preds[n], clock(n));
    }
  }

  // ---- The 10th and the 11th false positive ----

  /** Every point of an all-false-positive batch is a false positive. */
  lemma {:induction false} AllFalsePositives(ps: seq<TelemetryRecord>, preds: seq<bool>)
    requires |preds| == |ps|
    requires forall i :: 0 <= i < |ps| ==> preds[i] && !ps[i].engineFailure
    ensures FalsePositives(ps, preds) == ps
    decreases |ps|
  {
    if ps != [] {
      var n := |ps| - 1;
      var front, frontPreds := ps[..n], preds[..n];
      forall i | 0 <= i < |front|
        ensures frontPreds[i] && !front[i].engineFailure
      {
        assert front[i] == ps[i] && frontPreds[i] == preds[i];
      }
      AllFalsePositives(front, frontPreds);
      assert front + [ps[n]] == ps;
    }
  }

  /**
   * From a fresh counter, up to ten false positives in a row do not retrain,
   * and the eleventh retrains on the whole buffer and resets the counter.
   */
  lemma RetrainOnEleventhFalsePositive(t: Trainer, ps: seq<TelemetryRecord>, preds: seq<bool>, clock: Clock)
    requires |preds| == |ps| <= FALSE_POSITIVE_LIMIT + 1
    requires Invariant(t) && t.isTrained && t.incorrectAnomalies == 0
    requires forall i :: 0 <= i < |ps| ==> preds[i] && !ps[i].engineFailure
    ensures var d := Scan(t, ps, preds, clock);
      && d.anomalies == []
      && d.trainer.trainingData == t.trainingData + ps
      && (|ps| <= FALSE_POSITIVE_LIMIT ==>
            d.trainer.model == t.model && d.trainer.incorrectAnomalies == |ps|)
      && (|ps| == FALSE_POSITIVE_LIMIT + 1 ==>
            d.trainer.model == Fitted(t.trainingData + ps) && d.trainer.incorrectAnomalies == 0)
  {
    AllFalsePositives(ps, preds);
    ScanModel(t, ps, preds, clock);
    ScanCounter(t, ps, preds, clock);
    ScanTrainingData(t, ps, preds, clock);
    ScanAnomalies(t, ps, preds, clock);
    NoConfirmedAmongFalsePositives(ps, preds, clock);
    assert ps[..|ps| - 0] == ps;
  }

  /** A batch of false positives confirms nothing. */
  lemma {:induction false} NoConfirmedAmongFalsePositives(ps: seq<TelemetryRecord>, preds: seq<bool>, clock: Clock)
    requires |preds| == |ps|
    requires forall i :: 0 <= i < |ps| ==> !ps[i].engineFailure
    ensures ConfirmedAnomalies(ps, preds, clock) == []
    decreases |ps|
  {
    if ps != [] {
      NoConfirmedAmongFalsePositives(ps[..|ps| - 1], preds[..|ps| - 1], clock);
    }
  }

  // ---- Which points become anomalies, and which are fed back ----

  /** An anomaly is reported exactly for an outlier whose engine failed, copied from that point. */
  lemma {:induction false} ConfirmedAnomaliesMembers(ps: seq<TelemetryRecord>, preds: seq<bool>, clock: Clock, a: Anomaly)
    requires |preds| == |ps|
    ensures a in ConfirmedAnomalies(ps, preds, clock) <==>
      exists i :: 0 <= i < |ps| && preds[i] && ps[i].engineFailure && a == MakeAnomaly(ps[i], clock(i))
    decreases |ps|
  {
    if ps != [] {
      var n := |ps| - 1;
      ConfirmedAnomaliesMembers(ps[..n], preds[..n], clock, a);
      if a in ConfirmedAnomalies(ps[..n], preds[..n], clock) {
        var i :| 0 <= i < n && preds[..n][i] && ps[..n][i].engineFailure && a == MakeAnomaly(ps[..n][i], clock(i));
        assert preds[i] && ps[i].engineFailure && a == MakeAnomaly(ps[i], clock(i));
      }
      if exists i :: 0 <= i < |ps| && preds[i] && ps[i].engineFailure && a == MakeAnomaly(ps[i], clock(i)) {
        var i :| 0 <= i < |ps| && preds[i] && ps[i].engineFailure && a == MakeAnomaly(ps[i], clock(i));
        if i < n {
          assert preds[..n][i] && ps[..n][i].engineFailure && a == MakeAnomaly(ps[..n][i], clock(i));
        }
      }
    }
  }

  /** A point is fed back exactly when it was labelled outlier and its engine had not failed. */
  lemma {:induction false} FalsePositivesMembers(ps: seq<TelemetryRecord>, preds: seq<bool>, p: TelemetryRecord)
    requires |preds| == |ps|
    ensures p in FalsePositives(ps, preds) <==>
      exists i :: 0 <= i < |ps| && preds[i] && !ps[i].engineFailure && p == ps[i]
    decreases |ps|
  {
    if ps != [] {
      var n := |ps| - 1;
      FalsePositivesMembers(ps[..n], preds[..n], p);
      if p in FalsePositives(ps[..n], preds[..n]) {
        var i :| 0 <= i < n && preds[..n][i] && !ps[..n][i].engineFailure && p == ps[..n][i];
        assert preds[i] && !ps[i].engineFailure && p == ps[i];
      }
      if exists i :: 0 <= i < |ps| && preds[i] && !ps[i].engineFailure && p == ps[i] {
        var i :| 0 <= i < |ps| && preds[i] && !ps[i].engineFailure && p == ps[i];
        if i < n {
          assert preds[..n][i] && !ps[..n][i].engineFailure && p == ps[..n][i];
        }
      }
    }
  }

  /** Every point is either reported, fed back or (as an inlier) dropped: the two outputs count the outliers. */
  lemma {:induction false} OutliersAccountedFor(ps: seq<TelemetryRecord>, preds: seq<bool>, clock: Clock)
    requires |preds| == |ps|
    ensures |ConfirmedAnomalies(ps, preds, clock)| + |FalsePositives(ps, preds)| ==
            |set i | 0 <= i < |ps| && preds[i]|
    decreases |ps|
  {
    if ps != [] {
      var n := |ps| - 1;
      OutliersAccountedFor(ps[..n], preds[..n], clock);
      var before := set i | 0 <= i < n && preds[..n][i];
      var after := set i | 0 <= i < |ps| && preds[i];
      if preds[n] {
        assert after == before + {n};
      } else {
        assert after == before;
      }
    }
  }

  /** `detect_anomalies` as a whole, from a state the engine can reach. */
  lemma DetectAnomaliesContract(t: Trainer, ps: seq<TelemetryRecord>, predict: Predictor, clock: Clock)
    requires Invariant(t)
    ensures var d := DetectAnomalies(t, ps, predict, clock);
      var preds := Predictions(t.model, ps, predict);
      var fp := FalsePositives(ps, preds);
      && Invariant(d.trainer)
      && (t.isTrained ==>
            && d.trainer.isTrained
            && d.anomalies == ConfirmedAnomalies(ps, preds, clock)
            && d.trainer.trainingData == t.trainingData + fp
            && d.trainer.incorrectAnomalies ==
                 (t.incorrectAnomalies + |fp|) % (FALSE_POSITIVE_LIMIT + 1))
  {
    if t.isTrained {
      var preds := Predictions(t.model, ps, predict);
      ScanKeepsInvariant(t, ps, preds, clock);
      ScanAnomalies(t, ps, preds, clock);
      ScanTrainingData(t, ps, preds, clock);
      ScanCounter(t, ps, preds, clock);
    }
  }
}
