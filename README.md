# Feedback-driven telemetry anomaly detector, modelled in Dafny

This project models two programs. The first is the anomaly-detection
engine `AnomalyDetector` (python/anomaly_detector.py). It reads telemetry
records from a line-delimited file, starting at a cursor. It fits an
outlier model once at least 120 training records have been seen, and it
scores testing records. A flagged record whose `engineFailure` label is
false is a false positive: it goes back into the training buffer, and
the eleventh such record triggers a retrain. Every other flagged record
becomes an anomaly with a severity tier and is appended to a JSON store.

The second is the telemetry simulator `Aircraft` (cpp/aircraft.cpp). It
produces those records one tick at a time. The first 120 ticks are
training ticks with a healthy engine. After that, random draws set and
clear the fault, and vibration is drawn in a band that depends on the
fault.

Modules, one per component:

- `Telemetry` (telemetry.dfy): records, feature extraction, severity tiers, anomalies.
- `Feedback` (feedback.dfy): the training gate and the per-point feedback rule, as functions, with the lemmas about a whole batch.
- `AnomalyStore` (anomaly_store.dfy): save and clean of the store file.
- `TelemetrySource` (telemetry_source.dfy): the cursor-based reader.
- `Ingestion` (ingestion.dfy): one cycle of the detection loop, and a finite run of cycles.
- `Detector` (anomaly_detector.dfy): class `AnomalyDetector`. Its fields are updated in place, and each method is proved to leave the state its specification function describes.
- `Simulator` (aircraft.dfy): class `Aircraft` and its tick functions.
- `Wrappers` (wrappers.dfy): `Option` and `Result`.

The isolation forest and the scaler form an abstract oracle. A fit replaces
the model token with `Fitted(sample)`: with a fixed random seed, the fitted
pair depends only on its sample. Scoring is a caller-supplied `Predictor`.
It is applied once to the whole batch, with the model as it was on entry,
as line 73 does. A retrain in the middle of a batch therefore does not
relabel the rest of that batch. JSON decoding of a telemetry line is a
caller-supplied `Decoder`. `datetime.now()` is a `Clock` indexed by the
point's position in the batch. The simulator's `rand()` values are
parameters (`Draws`), and its trigonometric flight update is a
caller-supplied `FlightDynamics`.

Behaviour of the code worth noting, which the model follows:

- `engineFailure` is read without a default (line 84), for every scored record labelled outlier; a missing field there raises a KeyError. It is not treated as true.
- `detect_anomalies` on an untrained model returns `[]` and raises nothing (lines 65-67).
- The cursor does not move when the telemetry file is missing. It also does not move when a line fails to decode, because `json.loads` raises before line 35. If the file has shrunk, the cursor is set back to the new line count.
- `clean_anomalies` leaves a zero-byte file, which `json.load` rejects. The next save therefore reads it as empty (`StoreFile.Blank`).

## Model

| member | source | states |
|---|---|---|
| Telemetry.ExtractFeatures | python/anomaly_detector.py:40-47 | the feature vector has four entries, in the fixed order altitude, airspeed, pitch, vibration |
| Telemetry.IsTrainingRecord | python/anomaly_detector.py:149-150 | a record is for training when its flag is absent or true (no contract of its own; `Ingestion.PartitionSpec` states the split it drives) |
| Telemetry.FeaturesDetermineMeasurements | python/anomaly_detector.py:40-47 | two records give equal feature vectors exactly when their four measurements agree |
| Telemetry.CalculateSeverity | python/anomaly_detector.py:103-113 | CRITICAL iff vibration > 8.0, HIGH iff 6.0 < v <= 8.0, MEDIUM iff 4.0 < v <= 6.0, LOW iff v <= 4.0 (non-overlapping bands) |
| Telemetry.SeverityAtLeast | python/anomaly_detector.py:103-113 | a point reaches a tier or higher exactly when its vibration exceeds that tier's threshold (4.0, 6.0, 8.0) |
| Telemetry.SeverityMonotone | python/anomaly_detector.py:103-113 | severity is a non-decreasing step function of vibration |
| Telemetry.SeverityExamples | python/anomaly_detector.py:103-113 | 9.0 gives CRITICAL, 7.0 HIGH, 5.0 MEDIUM, 3.0 LOW |
| Telemetry.MakeAnomaly | python/anomaly_detector.py:78-87 | the anomaly record of an outlier: its fields, the clock reading and its severity (no contract of its own; `Feedback.ConfirmedAnomaliesMembers` states what each reported anomaly holds) |
| Feedback.InitialTrainerInvariant | python/anomaly_detector.py:18-24 | the state after `__init__` satisfies the engine invariant (counter in 0..10, trained iff fitted, a fitted sample has at least 120 points and is a prefix of the buffer) |
| Feedback.InitialTrainer | python/anomaly_detector.py:18-24 | untrained, unfitted, empty buffer, counter 0 (no contract of its own; `Feedback.InitialTrainerInvariant` states that it meets the engine invariant) |
| Feedback.Fit | python/anomaly_detector.py:49-61 | fewer than 120 points: model and `is_trained` unchanged; 120 or more: model refitted on exactly that sample and `is_trained` set; buffer and counter never touched |
| Feedback.FitBufferKeepsInvariant | python/anomaly_detector.py:94 | fitting on the whole buffer keeps the engine invariant |
| Feedback.Step | python/anomaly_detector.py:77-97 | one iteration of the loop for a labelled point (no contract of its own; `Feedback.StepEffects` states each branch, `Feedback.StepKeepsInvariant` the invariant) |
| Feedback.StepEffects | python/anomaly_detector.py:76-97 | inliers and outliers with a failed engine leave the trainer unchanged (the latter yield one anomaly); a false positive appends the point, increments the counter, and at the 11th refits on the grown buffer and resets the counter |
| Feedback.StepKeepsInvariant | python/anomaly_detector.py:88-96 | one point keeps the engine invariant, and a trained model stays trained |
| Feedback.Predictions | python/anomaly_detector.py:69-73 | one label per point, each computed with the model as it was on entry |
| Feedback.DetectAnomalies | python/anomaly_detector.py:63-67 | while untrained, the result is empty and the state is unchanged |
| Feedback.Scan | python/anomaly_detector.py:76-101 | the whole loop, one `Step` per point in order (no contract of its own; `Feedback.ScanAnomalies`, `ScanTrainingData`, `ScanCounter`, `ScanModel` and `ScanKeepsInvariant` state its result) |
| Feedback.ScanAnomalies | python/anomaly_detector.py:76-101 | the loop returns exactly the confirmed anomalies (outliers with `engineFailure` true, in input order), whatever retraining happens meanwhile |
| Feedback.ScanTrainingData | python/anomaly_detector.py:88-90 | afterwards the buffer is the old buffer followed by the false positives, each once, in input order |
| Feedback.ScanCounter | python/anomaly_detector.py:91-95 | the counter ends at (start + number of false positives) mod 11 |
| Feedback.ScanKeepsInvariant | python/anomaly_detector.py:76-97 | the engine invariant holds after the whole loop, and a trained model stays trained |
| Feedback.ModelAfterStep | python/anomaly_detector.py:91-95 | one point keeps the closed form of which model is in place in step with the false positives seen |
| Feedback.ScanModel | python/anomaly_detector.py:91-95 | no retrain while start + false positives <= 10; otherwise the model was last fitted, successfully, on the old buffer plus all but the last (k mod 11) false positives |
| Feedback.AllFalsePositives | python/anomaly_detector.py:88 | in a batch of flagged healthy points, every point is a false positive |
| Feedback.RetrainOnEleventhFalsePositive | python/anomaly_detector.py:91-95 | from counter 0, up to 10 consecutive false positives keep the model and leave the counter at their number; the 11th refits on the buffer grown by all eleven and resets the counter to 0 |
| Feedback.NoConfirmedAmongFalsePositives | python/anomaly_detector.py:88-97 | points whose engine had not failed never become anomalies |
| Feedback.ConfirmedAnomaliesMembers | python/anomaly_detector.py:77-97 | an anomaly is reported iff it is built from some input point that was labelled outlier and has `engineFailure` true: its fields copied, its severity computed, its time the clock at that point |
| Feedback.FalsePositivesMembers | python/anomaly_detector.py:88-90 | a point is fed back iff it was labelled outlier and its engine had not failed |
| Feedback.OutliersAccountedFor | python/anomaly_detector.py:77-97 | reported anomalies plus fed-back points equal the number of outliers; inliers go to neither |
| Feedback.DetectAnomaliesContract | python/anomaly_detector.py:63-101 | from a reachable state: invariant kept; once trained, the result is the confirmed anomalies, the buffer grows by the false positives, and the counter is (start + false positives) mod 11 |
| AnomalyStore.ExistingAnomalies | python/anomaly_detector.py:118-123 | a stored array reads as its entries; a missing, blank or unparsable file reads as empty |
| AnomalyStore.Save | python/anomaly_detector.py:115-130 | the store becomes an array holding the existing entries unchanged and in order, followed by exactly the new ones |
| AnomalyStore.Clean | python/anomaly_detector.py:134-136 | a cleaned store reads as empty |
| AnomalyStore.CleanThenSave | python/anomaly_detector.py:134-136 | clean followed by save(xs) leaves exactly xs |
| AnomalyStore.SaveIntoMissing | python/anomaly_detector.py:119-126 | saving into a missing store creates it with exactly the saved anomalies |
| AnomalyStore.SaveAllAppends | python/anomaly_detector.py:115-130 | repeated saves give the prior entries followed by every batch, in the order saved; nothing is dropped or reordered |
| TelemetrySource.Unread | python/anomaly_detector.py:32 | the lines from the cursor on, or none when the cursor is past the end |
| TelemetrySource.IsBlank | python/anomaly_detector.py:33 | a line is skipped when every character is one that `str.strip()` removes (no contract of its own; used by `NonBlank` and `DecodeLinesSpec`) |
| TelemetrySource.NonBlank | python/anomaly_detector.py:32-33 | the non-blank lines in file order (no contract of its own; `TelemetrySource.DecodeLinesSpec` states that decoding yields one record per such line) |
| TelemetrySource.DecodeLines | python/anomaly_detector.py:32-34 | decoding each non-blank line in turn, failing at the first line that does not decode (no contract of its own; `TelemetrySource.DecodeLinesSpec` and `TelemetrySource.MalformedPrefixFails` characterise it) |
| TelemetrySource.DecodeLinesSpec | python/anomaly_detector.py:32-34 | reading succeeds iff every non-blank unread line decodes; then it yields one record per non-blank line, in file order |
| TelemetrySource.LoadTelemetry | python/anomaly_detector.py:26-38 | missing file: no records, cursor kept; a malformed line: error, cursor kept; otherwise the decoded records and the cursor at the line count |
| TelemetrySource.LoadAfterAppend | python/anomaly_detector.py:32-35 | after a read, the next read of the appended file yields exactly the lines appended in between |
| Ingestion.TrainingRecords | python/anomaly_detector.py:149 | the training comprehension (no contract of its own; `Ingestion.PartitionSpec` and `Ingestion.AllTrainingRecords` state what it keeps) |
| Ingestion.TestingRecords | python/anomaly_detector.py:150 | the testing comprehension (no contract of its own; `Ingestion.PartitionSpec` states what it keeps) |
| Ingestion.PartitionSpec | python/anomaly_detector.py:149-150 | the training and testing parts are disjoint, together hold the batch (as a multiset), and hold the records with the flag absent or true and with the flag false respectively |
| Ingestion.PartitionCovers | python/anomaly_detector.py:149-150 | the two parts together hold every record of the batch, as often as it occurs there |
| Ingestion.PartitionSides | python/anomaly_detector.py:149-150 | the training part holds only records whose flag is absent or true; the testing part only the others |
| Ingestion.AllTrainingRecords | python/anomaly_detector.py:149 | a batch of training records goes entirely to the training part |
| Ingestion.TrainingStep | python/anomaly_detector.py:152-154 | with a trained model or no training records, nothing changes |
| Ingestion.TrainingStepKeepsInvariant | python/anomaly_detector.py:152-154 | initial training keeps the engine invariant |
| Ingestion.TestingStep | python/anomaly_detector.py:157-159 | with no testing records or an untrained model there is no detection: no anomalies and the trainer unchanged |
| Ingestion.RunCycle | python/anomaly_detector.py:146-163 | one iteration of the `while True` loop (no contract of its own; `Ingestion.CycleWithData`, `CycleWithoutData` and `CycleKeepsInvariant` state its effect) |
| Ingestion.CycleKeepsInvariant | python/anomaly_detector.py:146-163 | a cycle keeps the engine invariant, and a trained model stays trained |
| Ingestion.CycleWithData | python/anomaly_detector.py:146-162 | with new records: the cursor moves to the line count; training records join the buffer and trigger a fit only while untrained; detection runs only on a non-empty testing part with a trained model, yields its confirmed anomalies and leaves the trainer `detect_anomalies` leaves (false positives join the buffer, the counter becomes (start + false positives) mod 11); the store is rewritten only when something was detected |
| Ingestion.CycleWithoutData | python/anomaly_detector.py:146-163 | a cycle that reads nothing new or fails to read changes only the cursor, and keeps it on a missing file or a read error |
| Ingestion.RunCycles | python/anomaly_detector.py:143-163 | one cycle per poll, in order (no contract of its own; `Ingestion.RunCyclesSpec` states the invariant and the store over the run) |
| Ingestion.RunDetectionLoop | python/anomaly_detector.py:138-163 | the start-up clean, then the cycles (no contract of its own; `Ingestion.RunDetectionLoopStore` states the store it leaves) |
| Ingestion.RunCyclesSpec | python/anomaly_detector.py:143-163 | over any number of cycles the invariant holds, and the store holds its prior entries followed by every reported anomaly, in order |
| Ingestion.RunDetectionLoopStore | python/anomaly_detector.py:138-163 | after the start-up clean, the store holds exactly the anomalies detected since, in order |
| Ingestion.EndToEndScenario | python/anomaly_detector.py:146-162 | 120 training records fit the model; a flagged 9.0 g fault becomes one CRITICAL anomaly saved into the cleaned store; 11 flagged healthy records add no anomaly and cause one retrain on the buffer grown by them |
| Detector.AnomalyDetector.constructor | python/anomaly_detector.py:11-24 | untrained, empty buffer, counter and cursor 0 |
| Detector.AnomalyDetector.TrainModel | python/anomaly_detector.py:49-61 | returns whether there were at least 120 points, and leaves the state `Fit` describes |
| Detector.AnomalyDetector.DetectAnomalies | python/anomaly_detector.py:63-101 | the loop leaves the trainer state and returns the anomalies that `Feedback.DetectAnomalies` describes |
| Detector.AnomalyDetector.SaveAnomalies | python/anomaly_detector.py:115-132 | the store becomes `Save` of the old store; nothing else changes |
| Detector.AnomalyDetector.CleanAnomalies | python/anomaly_detector.py:134-136 | the store becomes blank; nothing else changes |
| Detector.AnomalyDetector.LoadTelemetryData | python/anomaly_detector.py:26-38 | the loop returns what `LoadTelemetry` describes and moves the cursor as it says |
| Detector.AnomalyDetector.RunCycle | python/anomaly_detector.py:146-163 | one cycle leaves the state and outcome `Ingestion.RunCycle` describes |
| Detector.AnomalyDetector.RunDetectionLoop | python/anomaly_detector.py:138-163 | clean, then one cycle per poll, as `Ingestion.RunDetectionLoop` describes |
| TelemetrySource.MalformedPrefixFails | python/anomaly_detector.py:32-34 | once a line fails to decode, reading the whole unread part fails |
| Simulator.InitialState | cpp/aircraft.cpp:8-9 | the member initialisers (no contract of its own; `Simulator.RunFromStart` and `Simulator.LoggedRecords` state what runs from it log) |
| Simulator.AfterUpdatePhase | cpp/aircraft.cpp:27-34 | training iff simulationTime <= 120, with the fault then cleared; testing keeps the fault; no other field changes |
| Simulator.AfterUpdateFlightParameters | cpp/aircraft.cpp:36-48 | the flight values become what the supplied dynamics gives for the old values, the fault flag and the time; no other field changes |
| Simulator.NextEngineFailure | cpp/aircraft.cpp:50-55 | training: unchanged; testing: the second draw % 10 == 0 clears the fault regardless, else the first draw % 20 == 0 sets it, else unchanged |
| Simulator.NextVibration | cpp/aircraft.cpp:57-63 | in [5.0, 10.0] with the fault, in [2.5, 3.5] without |
| Simulator.DelayMs | cpp/aircraft.cpp:20 | the delay is 0 exactly on training ticks, and 500 ms on testing ticks |
| Simulator.AfterTick | cpp/aircraft.cpp:14-19 | one pass of the loop body up to the log (no contract of its own; `Simulator.TickFacts` and `Simulator.TestingTickFault` state its effect) |
| Simulator.Run | cpp/aircraft.cpp:13-19 | the state after the given ticks (no contract of its own; `Simulator.RunFromStart` characterises it) |
| Simulator.LogFrom | cpp/aircraft.cpp:13-19 | the states logged by the given ticks (no contract of its own; `Simulator.LogAt`, `LogLength` and `LoggedRecords` characterise it through `Log`) |
| Simulator.TickFacts | cpp/aircraft.cpp:14-19 | a tick advances the clock by one; the phase follows the new clock; a training tick logs a healthy engine; the logged vibration is in the band of the logged fault flag |
| Simulator.TestingTickFault | cpp/aircraft.cpp:50-55 | after tick 120 the fault follows the two draws from the flag before the tick |
| Simulator.RunFromStart | cpp/aircraft.cpp:9-19 | after n ticks from construction the clock reads n, the phase is training iff n <= 120, training means a healthy engine, and vibration is in band |
| Simulator.LogAt | cpp/aircraft.cpp:13-19 | the k-th logged record is the state after k + 1 ticks |
| Simulator.LogLength | cpp/aircraft.cpp:19 | one record is logged per tick |
| Simulator.LoggedRecords | cpp/aircraft.cpp:9-23 | logged record k has simulationTime k + 1 and is a training record iff k < 120, with a healthy engine while training and vibration in its band; testing never returns to training; the delay is 0 then 500 ms |
| Simulator.TrainingRecordsLogged | cpp/aircraft.cpp:14-15 | n ticks log exactly min(n, 120) training records |
| Simulator.Aircraft.constructor | cpp/aircraft.cpp:8-9 | the member initialisers: altitude 1000, airspeed 250, pitch 2, no fault, vibration 2.5, time 0, training |
| Simulator.Aircraft.UpdatePhase | cpp/aircraft.cpp:27-34 | leaves the state `AfterUpdatePhase` describes |
| Simulator.Aircraft.UpdateFlightParameters | cpp/aircraft.cpp:36-48 | only the flight values change, to what the supplied dynamics gives |
| Simulator.Aircraft.UpdateEngineStatus | cpp/aircraft.cpp:50-55 | only the fault flag changes, to `NextEngineFailure` |
| Simulator.Aircraft.UpdateVibration | cpp/aircraft.cpp:57-63 | only the vibration changes, to `NextVibration` of the current fault flag |
| Simulator.Aircraft.Tick | cpp/aircraft.cpp:14-20 | increment, phase, flight, engine, vibration in that order; returns the logged state and the delay for the phase |
| Simulator.Aircraft.StartSimulation | cpp/aircraft.cpp:11-25 | the first n passes of the loop log `LogFrom` of the start state and leave `Run` of it |

## Left out

- IsolationForest and StandardScaler (python/anomaly_detector.py:4-5, 12-17, 56-58, 70-73) are foreign numerical code. They are modelled as the `Fitted(sample)` token and a caller-supplied predictor. `contamination`, `random_state` and `n_estimators` are therefore not modelled.
- Feedback.DetectAnomalies: on a trained model and an empty batch the model returns `[]`. The source would hand an empty array to the scaler, which rejects it. The one caller never passes an empty batch (line 157).
- JSON decoding and encoding (`json.loads`, `json.load`, `json.dump`) and file open/read/write. The telemetry file is a sequence of lines, or `None` when missing. A line's decoding is a caller-supplied function. The store file is `Missing`, `Blank`, `Malformed` or `Stored(entries)`.
- Lines that are valid JSON but not complete telemetry records (a number such as `42`, or an object lacking `altitude` or `timestamp`) are outside the model; the `Decoder` yields `None` only for a line `json.loads` rejects. In the source such a line is decoded at line 34 and the cursor still moves at line 35. What follows depends on the line. A non-object makes `d.get` raise at line 149, and that batch is lost. An object missing a measurement that is a training record joins the buffer at line 153; `extract_features` then raises in every later fit (line 55), so the model never trains. A testing record scored by a trained model makes detection raise. If a measurement is missing, this happens at line 69, before any point is examined: the trainer is unchanged and no anomaly of that batch is saved. If the record is labelled outlier and lacks `timestamp`, it happens at line 79, after the earlier points of the batch were examined: their false positives stay in the buffer and in the counter (lines 90-91), and may already have caused a retrain (line 94); only the anomalies collected for the batch are dropped. The same object raises nothing when it is a testing record while untrained, or a training record once trained, because then it is never read.
- A `trainingPhase` value that is not a JSON boolean is outside the model. Lines 149-150 test the truthiness of `d.get('trainingPhase', True)`, so `null`, `0` or `""` make a record a testing record, and a present `true`-like value such as `1` a training record. `Option<bool>` holds only an absent flag or a boolean; a `Decoder` that mapped `null` to an absent flag would wrongly send such a record to training.
- Records without `engineFailure` or `timestamp` are outside the model, which requires both fields. The source accepts them as training records and as inlier testing records, because it reads those two fields only for an outlier (lines 79 and 84).
- `AnomalyStore.Save`: a store file that holds valid JSON other than an array would make `existing + new` raise. The model has no such case.
- `IsBlank` follows the set of characters for which Python's `str.isspace()` holds. Text-mode newline translation by `readlines` is taken as already done.
- Reading errors other than a missing file (permissions, encoding) are not modelled.
- `time.sleep`, `print`, the unused `threading` import and the `KeyboardInterrupt`/`Exception` handling with its 2 s / 5 s back-off (python/anomaly_detector.py:143-173) are process control and timing. The cycle's outcome records `Failed`, where the source would back off.
- The `while True` loops (python/anomaly_detector.py:143, cpp/aircraft.cpp:13) are infinite. The model runs them for a given finite sequence of polls or ticks.
- `datetime.now()` is the caller-supplied `Clock`. The source's unused `self.anomalies` list is not modelled.
- `Aircraft::updateFlightParameters` (cpp/aircraft.cpp:36-48) is trigonometry on doubles. It is a caller-supplied function of the flight values, the fault flag and the time, called at its place in the tick.
- `logTelemetry`, the wall-clock timestamp and `TelemetryLogger` (cpp/aircraft.cpp:65-70, cpp/telemetry_logger.cpp, cpp/telemetry_logger.hpp) are file output. `Tick` returns the logged state instead.
- `rand()` is not modelled. Each tick takes three draws, in the source's call order. A training tick calls `rand()` once, for the vibration, so there the first two draws are unused.
- RAND_MAX is fixed at glibc's 2147483647.
- Doubles are modelled as `real`, with no rounding. `simulationTime` is an unbounded integer: the source's 32-bit `int` would overflow only after 2^31 ticks.
