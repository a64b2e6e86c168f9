/**
 * The class `AnomalyDetector` of python/anomaly_detector.py. Its fields are
 * updated in place by its methods; each method is proved against the
 * specification functions of Feedback, AnomalyStore, TelemetrySource and
 * Ingestion.
 */
module Detector {
  import opened Wrappers
  import opened Telemetry
  import opened Feedback
  import opened AnomalyStore
  import opened TelemetrySource
  import opened Ingestion

  class AnomalyDetector {
    var isTrained: bool
    /** The fitted scaler and isolation forest pair. */
    var model: ModelState
    var trainingData: seq<TelemetryRecord>
    var incorrectAnomalies: int
    var lastPosition: nat
    /** Contents of the file at `anomalies_file`. */
    var anomaliesFile: StoreFile

    function TrainerState(): Trainer
      reads this
    {
      Trainer(isTrained, model, trainingData, incorrectAnomalies)
    }

    function State(): DetectorState
      reads this
    {
      DetectorState(TrainerState(), lastPosition, anomaliesFile)
    }

    /** `__init__`: untrained, empty buffer, counter and cursor at zero; the store file is as found. */
    constructor (storeOnDisk: StoreFile)
      ensures State() == DetectorState(InitialTrainer(), 0, storeOnDisk)
    {
      isTrained := false;
      model := Unfitted;
      trainingData := [];
      incorrectAnomalies := 0;
      lastPosition := 0;
      anomaliesFile := storeOnDisk;
    }

    /** `train_model(data)`: refuses fewer than 120 points, otherwise refits and marks trained. */
    method TrainModel(data: seq<TelemetryRecord>) returns (ok: bool)
      modifies this
      ensures ok == FitSucceeds(data)
      ensures TrainerState() == Fit(old(TrainerState()), data)
      ensures lastPosition == old(lastPosition) && anomaliesFile == old(anomaliesFile)
    {
      if |data| < MIN_TRAINING_POINTS {
        return false;
      }
      model := Fitted(data);
      isTrained := true;
      return true;
    }

    /**
     * `detect_anomalies(points)`: labels the batch once with the model on
     * entry, then walks the points, feeding false positives back and
     * retraining after the eleventh.
     */
    method DetectAnomalies(points: seq<TelemetryRecord>, predict: Predictor, clock: Clock)
      returns (anomalies: seq<Anomaly>)
      modifies this
      ensures Detection(TrainerState(), anomalies) ==
              Feedback.DetectAnomalies(old(TrainerState()), points, predict, clock)
      ensures lastPosition == old(lastPosition) && anomaliesFile == old(anomaliesFile)
    {
      if !isTrained {
        return [];
      }
      var predictions := Predictions(model, points, predict);
      ghost var start := TrainerState();
      anomalies := [];
      var i := 0;
      while i < |points|
        invariant 0 <= i <= |points|
        invariant Scan(start, points[..i], predictions[..i], clock) == Detection(TrainerState(), anomalies)
        invariant lastPosition == old(lastPosition) && anomaliesFile == old(anomaliesFile)
      {
        var point := points[i];
        assert points[..i + 1][..i] == points[..i];
        assert predictions[..i + 1][..i] == predictions[..i];
        if predictions[i] {
          var anomaly := MakeAnomaly(point, clock(i));
          if !anomaly.engineFailure {
            trainingData := trainingData + [point];
            incorrectAnomalies := incorrectAnomalies + 1;
            if incorrectAnomalies > FALSE_POSITIVE_LIMIT {
              var _ := TrainModel(trainingData);
              incorrectAnomalies := 0;
            }
          } else {
            anomalies := anomalies + [anomaly];
          }
        }
        i := i + 1;
      }
      assert points[..i] == points && predictions[..i] == predictions;
    }

    /** `save_anomalies(added)`: the store is rewritten as its old entries followed by `added`. */
    method SaveAnomalies(added: seq<Anomaly>)
      modifies this
      ensures anomaliesFile == Save(old(anomaliesFile), added)
      ensures TrainerState() == old(TrainerState()) && lastPosition == old(lastPosition)
    {
      var existing := ExistingAnomalies(anomaliesFile);
      anomaliesFile := Stored(existing + added);
    }

    /** `clean_anomalies()`: the store file is truncated. */
    method CleanAnomalies()
      modifies this
      ensures anomaliesFile == Clean(old(anomaliesFile))
      ensures TrainerState() == old(TrainerState()) && lastPosition == old(lastPosition)
    {
      anomaliesFile := Blank;
    }

    /** `load_telemetry_data()`, with the telemetry file given as `None` when it is missing. */
    method LoadTelemetryData(file: Option<seq<string>>, decode: Decoder)
      returns (data: Result<seq<TelemetryRecord>, LoadError>)
      modifies this
      ensures Load(data, lastPosition) == LoadTelemetry(file, old(lastPosition), decode)
      ensures TrainerState() == old(TrainerState()) && anomaliesFile == old(anomaliesFile)
    {
      if file.None? {
        return Success([]);
      }
      var lines := file.value;
      var unread := Unread(lines, lastPosition);
      var records := [];
      var i := 0;
      while i < |unread|
        invariant 0 <= i <= |unread|
        invariant DecodeLines(unread[..i], decode) == Some(records)
      {
        assert unread[..i + 1][..i] == unread[..i];
        if !IsBlank(unread[i]) {
          var decoded := decode(unread[i]);
          if decoded.None? {
            assert DecodeLines(unread[..i + 1], decode).None?;
            MalformedPrefixFails(unread, i + 1, decode);
            return Failure(MalformedLine);
          }
          records := records + [decoded.value];
        }
        i := i + 1;
      }
      assert unread[..i] == unread;
      lastPosition := |lines|;
      return Success(records);
    }

    /** One iteration of the loop of `run_detection_loop`. */
    method RunCycle(file: Option<seq<string>>, decode: Decoder, predict: Predictor, clock: Clock)
      returns (outcome: CycleOutcome)
      modifies this
      ensures Cycle(State(), outcome) == Ingestion.RunCycle(old(State()), file, decode, predict, clock)
    {
      var loaded := LoadTelemetryData(file, decode);
      if loaded.Failure? {
        return Failed(loaded.error);
      }
      var newData := loaded.value;
      if newData == [] {
        return NoNewData;
      }
      var training := TrainingRecords(newData);
      var testing := TestingRecords(newData);
      if training != [] && !isTrained {
        trainingData := trainingData + training;
        var _ := TrainModel(trainingData);
      }
      var anomalies := [];
      if testing != [] && isTrained {
        anomalies := DetectAnomalies(testing, predict, clock);
        if anomalies != [] {
          SaveAnomalies(anomalies);
        }
      }
      return Processed(anomalies);
    }

    /** `run_detection_loop` for the given polls: clean the store, then one cycle per poll. */
    method RunDetectionLoop(polls: seq<Poll>, decode: Decoder, predict: Predictor)
      returns (outcomes: seq<CycleOutcome>)
      modifies this
      ensures Cycles(State(), outcomes) == Ingestion.RunDetectionLoop(old(State()), polls, decode, predict)
    {
      CleanAnomalies();
      ghost var start := State();
      outcomes := [];
      var i := 0;
      while i < |polls|
        invariant 0 <= i <= |polls|
        invariant Cycles(State(), outcomes) == RunCycles(start, polls[..i], decode, predict)
      {
        assert polls[..i + 1][..i] == polls[..i];
        var outcome := RunCycle(polls[i].file, decode, predict, polls[i].clock);
        outcomes := outcomes + [outcome];
        i := i + 1;
      }
      assert polls[..i] == polls;
    }
  }
}
