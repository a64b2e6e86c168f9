/**
 * One cycle of `run_detection_loop` of python/anomaly_detector.py, and a
 * finite run of cycles after the start-up clean of the store.
 */
module Ingestion {
  import opened Wrappers
  import opened Telemetry
  import opened Feedback
  import opened AnomalyStore
  import opened TelemetrySource

  /** `[d for d in new_data if d.get('trainingPhase', True)]`. */
  function TrainingRecords(batch: seq<TelemetryRecord>): seq<TelemetryRecord>
    decreases |batch|
  {
    if batch == [] then []
    else
      var n := |batch| - 1;
      TrainingRecords(batch[..n]) + (if IsTrainingRecord(batch[n]) then [batch[n]] else [])
  }

  /** `[d for d in new_data if not d.get('trainingPhase', True)]`. */
  function TestingRecords(batch: seq<TelemetryRecord>): seq<TelemetryRecord>
    decreases |batch|
  {
    if batch == [] then []
    else
      var n := |batch| - 1;
      TestingRecords(batch[..n]) + (if IsTrainingRecord(batch[n]) then [] else [batch[n]])
  }

  /**
   * The two comprehensions split the batch: every record lands in exactly
   * one part, training records (flag absent or true) in the first and the
   * others in the second, so the parts are disjoint and together hold the batch.
   */
  lemma PartitionSpec(batch: seq<TelemetryRecord>)
    ensures multiset(TrainingRecords(batch)) + multiset(TestingRecords(batch)) == multiset(batch)
    ensures forall d :: d in TrainingRecords(batch) ==> IsTrainingRecord(d)
    ensures forall d :: d in TestingRecords(batch) ==> !IsTrainingRecord(d)
    ensures forall d :: !(d in TrainingRecords(batch) && d in TestingRecords(batch))
  {
    PartitionCovers(batch);
    PartitionSides(batch);
  }

  /** Together the two parts hold every record of the batch, as often as it occurs there. */
  lemma {:induction false} PartitionCovers(batch: seq<TelemetryRecord>)
    ensures multiset(TrainingRecords(batch)) + multiset(TestingRecords(batch)) == multiset(batch)
    decreases |batch|
  {
    if batch != [] {
      var n := |batch| - 1;
      var front := batch[..n];
      PartitionCovers(front);
      assert batch == front + [batch[n]];
      assert multiset(batch) == multiset(front) + multiset{batch[n]};
      if IsTrainingRecord(batch[n]) {
        assert TrainingRecords(batch) == TrainingRecords(front) + [batch[n]];
        assert TestingRecords(batch) == TestingRecords(front);
      } else {
        assert TrainingRecords(batch) == TrainingRecords(front);
        assert TestingRecords(batch) == TestingRecords(front) + [batch[n]];
      }
    }
  }

  /** The training part holds only training records and the testing part only the others. */
  lemma {:induction false} PartitionSides(batch: seq<TelemetryRecord>)
    ensures forall d :: d in TrainingRecords(batch) ==> IsTrainingRecord(d)
    ensures forall d :: d in TestingRecords(batch) ==> !IsTrainingRecord(d)
    decreases |batch|
  {
    if batch != [] {
      var n := |batch| - 1;
      PartitionSides(batch[..n]);
    }
  }

  /** The fields `is_trained`, model, `training_data`, `incorrect_anomalies`, `last_position`, and the store file. */
  datatype DetectorState = DetectorState(trainer: Trainer, lastPosition: nat, anomaliesFile: StoreFile)

  /** What a cycle ends with: no new data, the anomalies detected, or the error raised while reading. */
  datatype CycleOutcome =
    | NoNewData
    | Processed(detected: seq<Anomaly>)
    | Failed(error: LoadError)

  datatype Cycle = Cycle(state: DetectorState, outcome: CycleOutcome)

  /** Lines 152-154: training records extend the buffer and trigger a fit, only while untrained. */
  function TrainingStep(t: Trainer, training: seq<TelemetryRecord>): (r: Trainer)
    ensures t.isTrained || training == [] ==> r == t
  {
    if training != [] && !t.isTrained then
      var grown := t.(trainingData := t.trainingData + training);
      Fit(grown, grown.trainingData)
    else t
  }

  /** Lines 157-162: detection when there is testing data and a trained model. */
  function TestingStep(t: Trainer, testing: seq<TelemetryRecord>, predict: Predictor, clock: Clock): (r: Detection)
    ensures testing == [] || !t.isTrained ==> r == Detection(t, [])
  {
    if testing != [] && t.isTrained then DetectAnomalies(t, testing, predict, clock)
    else Detection(t, [])
  }

  /** The body of one iteration of the `while True` loop. */
  function RunCycle(s: DetectorState, file: Option<seq<string>>, decode: Decoder,
                    predict: Predictor, clock: Clock): Cycle
  {
    var load := LoadTelemetry(file, s.lastPosition, decode);
    match load.result
    case Failure(e) => Cycle(s.(lastPosition := load.position), Failed(e))
    case Success(newData) =>
      if newData == [] then Cycle(s.(lastPosition := load.position), NoNewData)
      else
        var t1 := TrainingStep(s.trainer, TrainingRecords(newData));
        var d := TestingStep(t1, TestingRecords(newData), predict, clock);
        var store := if d.anomalies != [] then Save(s.anomaliesFile, d.anomalies) else s.anomaliesFile;
        Cycle(DetectorState(d.trainer, load.position, store), Processed(d.anomalies))
  }

  /** A retrain only ever fits the buffer it has, so initial training keeps the invariant too. */
  lemma TrainingStepKeepsInvariant(t: Trainer, training: seq<TelemetryRecord>)
    requires Invariant(t)
    ensures Invariant(TrainingStep(t, training))
    ensures t.isTrained ==> TrainingStep(t, training).isTrained
  {
  }

  /** A cycle keeps the engine invariant, and a trained model stays trained. */
  lemma CycleKeepsInvariant(s: DetectorState, file: Option<seq<string>>, decode: Decoder,
                            predict: Predictor, clock: Clock)
    requires Invariant(s.trainer)
    ensures Invariant(RunCycle(s, file, decode, predict, clock).state.trainer)
    ensures s.trainer.isTrained ==> RunCycle(s, file, decode, predict, clock).state.trainer.isTrained
  {
    var load := LoadTelemetry(file, s.lastPosition, decode);
    if load.result.Success? && load.result.value != [] {
      var newData := load.result.value;
      var t1 := TrainingStep(s.trainer, TrainingRecords(newData));
      TrainingStepKeepsInvariant(s.trainer, TrainingRecords(newData));
      DetectAnomaliesContract(t1, TestingRecords(newData), predict, clock);
    }
  }

  /**
   * What a cycle that read new records does: the cursor moves to the line
   * count; training records join the buffer only while untrained; detection
   * runs only on a non-empty testing part with a trained model and yields the
   * confirmed anomalies of that part; false positives join the buffer; the
   * store is rewritten only when something was detected.
   */
  lemma CycleWithData(s: DetectorState, lines: seq<string>, decode: Decoder,
                      predict: Predictor, clock: Clock)
    requires Invariant(s.trainer)
    requires DecodeLines(Unread(lines, s.lastPosition), decode).Some?
    requires DecodeLines(Unread(lines, s.lastPosition), decode).value != []
    ensures var newData := DecodeLines(Unread(lines, s.lastPosition), decode).value;
      var training := TrainingRecords(newData);
      var testing := TestingRecords(newData);
      var c := RunCycle(s, Some(lines), decode, predict, clock);
      var t1 := TrainingStep(s.trainer, training);
      var runs := testing != [] && t1.isTrained;
      var preds := Predictions(t1.model, testing, predict);
      && c.state.lastPosition == |lines|
      && c.outcome.Processed?
      && (s.trainer.isTrained ==> t1 == s.trainer)
      && (!s.trainer.isTrained && training != [] ==>
            t1 == Fit(s.trainer.(trainingData := s.trainer.trainingData + training),
                      s.trainer.trainingData + training))
      && (runs ==> c.outcome.detected == ConfirmedAnomalies(testing, preds, clock))
      && (runs ==> c.state.trainer == DetectAnomalies(t1, testing, predict, clock).trainer)
      && (runs ==> c.state.trainer.trainingData == t1.trainingData + FalsePositives(testing, preds))
      && (runs ==> c.state.trainer.incorrectAnomalies ==
                     (t1.incorrectAnomalies + |FalsePositives(testing, preds)|) % (FALSE_POSITIVE_LIMIT + 1))
      && (!runs ==> c.outcome.detected == [] && c.state.trainer == t1)
      && c.state.anomaliesFile ==
           (if c.outcome.detected == [] then s.anomaliesFile
            else Save(s.anomaliesFile, c.outcome.detected))
  {
    var newData := DecodeLines(Unread(lines, s.lastPosition), decode).value;
    var t1 := TrainingStep(s.trainer, TrainingRecords(newData));
    TrainingStepKeepsInvariant(s.trainer, TrainingRecords(newData));
    DetectAnomaliesContract(t1, TestingRecords(newData), predict, clock);
  }

  /** A cycle that reads nothing new, or fails to read, changes nothing but the cursor. */
  lemma CycleWithoutData(s: DetectorState, file: Option<seq<string>>, decode: Decoder,
                         predict: Predictor, clock: Clock)
    requires var r := LoadTelemetry(file, s.lastPosition, decode).result;
             r.Failure? || r.value == []
    ensures var c := RunCycle(s, file, decode, predict, clock);
      && c.state.trainer == s.trainer
      && c.state.anomaliesFile == s.anomaliesFile
      && (c.outcome.Failed? || c.outcome.NoNewData?)
      && (file.None? || c.outcome.Failed? ==> c.state.lastPosition == s.lastPosition)
      && (file.Some? && c.outcome.NoNewData? ==> c.state.lastPosition == |file.value|)
  {
  }

  /** One poll of the telemetry file: its contents then (`None` if absent) and the clock during the cycle. */
  datatype Poll = Poll(file: Option<seq<string>>, clock: Clock)

  /** The state and outcomes after the given polls, from `s`. */
  function RunCycles(s: DetectorState, polls: seq<Poll>, decode: Decoder, predict: Predictor): Cycles
    decreases |polls|
  {
    if polls == [] then Cycles(s, [])
    else
      var n := |polls| - 1;
      var before := RunCycles(s, polls[..n], decode, predict);
      var c := RunCycle(before.state, polls[n].file, decode, predict, polls[n].clock);
      Cycles(c.state, before.outcomes + [c.outcome])
  }

  datatype Cycles = Cycles(state: DetectorState, outcomes: seq<CycleOutcome>)

  /** The anomalies a sequence of outcomes reports, in order. */
  function Reported(outcomes: seq<CycleOutcome>): seq<Anomaly>
    decreases |outcomes|
  {
    if outcomes == [] then []
    else
      var n := |outcomes| - 1;
      Reported(outcomes[..n]) + (if outcomes[n].Processed? then outcomes[n].detected else [])
  }

  /** The start of `run_detection_loop`: the store is cleaned, then the cycles run. */
  function RunDetectionLoop(s: DetectorState, polls: seq<Poll>, decode: Decoder, predict: Predictor): Cycles {
    RunCycles(s.(anomaliesFile := Clean(s.anomaliesFile)), polls, decode, predict)
  }

  /**
   * Over any number of cycles the engine invariant holds, and the store
   * holds the anomalies the cycles reported, in the order reported, after
   * those already in it.
   */
  lemma {:induction false} RunCyclesSpec(s: DetectorState, polls: seq<Poll>, decode: Decoder, predict: Predictor)
    requires Invariant(s.trainer)
    ensures var r := RunCycles(s, polls, decode, predict);
      && Invariant(r.state.trainer)
      && |r.outcomes| == |polls|
      && ExistingAnomalies(r.state.anomaliesFile) == ExistingAnomalies(s.anomaliesFile) + Reported(r.outcomes)
    decreases |polls|
  {
    if polls != [] {
      var n := |polls| - 1;
      RunCyclesSpec(s, polls[..n], decode, predict);
      var before := RunCycles(s, polls[..n], decode, predict);
      var c := RunCycle(before.state, polls[n].file, decode, predict, polls[n].clock);
      CycleKeepsInvariant(before.state, polls[n].file, decode, predict, polls[n].clock);
      var outcomes := before.outcomes + [c.outcome];
      assert outcomes[..n] == before.outcomes;
      assert ExistingAnomalies(s.anomaliesFile) + Reported(before.outcomes) +
             (if c.outcome.Processed? then c.outcome.detected else []) ==
             ExistingAnomalies(s.anomaliesFile) + Reported(outcomes);
    }
  }

  /** After start-up, the store holds exactly the anomalies detected since, in order. */
  lemma RunDetectionLoopStore(polls: seq<Poll>, decode: Decoder, predict: Predictor, f: StoreFile)
    ensures var r := RunDetectionLoop(DetectorState(InitialTrainer(), 0, f), polls, decode, predict);
      && Invariant(r.state.trainer)
      && ExistingAnomalies(r.state.anomaliesFile) == Reported(r.outcomes)
  {
    RunCyclesSpec(DetectorState(InitialTrainer(), 0, Clean(f)), polls, decode, predict);
  }

  /**
   * A run from a fresh detector: 120 training records fit the model; a
   * testing record with vibration 9.0 g and a failed engine that the model
   * flags is reported as one CRITICAL anomaly and saved into the cleaned
   * store; eleven flagged testing records with a healthy engine then add no
   * anomaly and cause exactly one retrain, on the buffer grown by those eleven.
   */
  lemma EndToEndScenario(train: seq<TelemetryRecord>, fault: TelemetryRecord, healthy: seq<TelemetryRecord>,
                         predict: Predictor, clock: Clock, f: StoreFile)
    requires |train| == MIN_TRAINING_POINTS && forall i :: 0 <= i < |train| ==> IsTrainingRecord(train[i])
    requires fault.vibration == 9.0 && fault.engineFailure
    requires predict(Fitted(train), ExtractFeatures(fault))
    requires |healthy| == FALSE_POSITIVE_LIMIT + 1
    requires forall i :: 0 <= i < |healthy| ==>
               !healthy[i].engineFailure && predict(Fitted(train), ExtractFeatures(healthy[i]))
    ensures var t1 := TrainingStep(InitialTrainer(), TrainingRecords(train));
      var d1 := TestingStep(t1, [fault], predict, clock);
      var d2 := TestingStep(d1.trainer, healthy, predict, clock);
      && t1.isTrained && t1.model == Fitted(train)
      && d1.anomalies == [MakeAnomaly(fault, clock(0))]
      && d1.anomalies[0].severity == Critical
      && Save(Clean(f), d1.anomalies) == Stored([MakeAnomaly(fault, clock(0))])
      && d2.anomalies == []
      && d2.trainer.model == Fitted(train + healthy)
      && d2.trainer.incorrectAnomalies == 0
  {
    AllTrainingRecords(train);
    var t1 := TrainingStep(InitialTrainer(), TrainingRecords(train));
    assert t1 == Trainer(true, Fitted(train), train, 0);
    var p1 := Predictions(t1.model, [fault], predict);
    assert p1 == [true];
    assert ConfirmedAnomalies([fault], p1, clock) == [MakeAnomaly(fault, clock(0))];
    assert FalsePositives([fault], p1) == [];
    DetectAnomaliesContract(t1, [fault], predict, clock);
    var d1 := TestingStep(t1, [fault], predict, clock);
    assert d1.trainer.trainingData == train && d1.trainer.incorrectAnomalies == 0;
    ScanModel(t1, [fault], p1, clock);
    assert d1.trainer.model == Fitted(train);
    var p2 := Predictions(d1.trainer.model, healthy, predict);
    RetrainOnEleventhFalsePositive(d1.trainer, healthy, p2, clock);
  }

  /** A batch of training records goes entirely to the training part. */
  lemma {:induction false} AllTrainingRecords(batch: seq<TelemetryRecord>)
    requires forall i :: 0 <= i < |batch| ==> IsTrainingRecord(batch[i])
    ensures TrainingRecords(batch) == batch
    decreases |batch|
  {
    if batch != [] {
      var n := |batch| - 1;
      AllTrainingRecords(batch[..n]);
      assert batch[..n] + [batch[n]] == batch;
    }
  }
}
