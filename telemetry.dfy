/**
 * Telemetry records, the feature extractor and the severity classifier
 * of the anomaly detector (python/anomaly_detector.py).
 */
module Telemetry {
  import opened Wrappers

  /**
   * One line of the telemetry stream after JSON decoding. The four
   * measurements are read for every record that is fitted or scored;
   * `timestamp` and `engineFailure` are read only for a scored record
   * labelled outlier, and the model requires them of every record.
   * `trainingPhase` is the one field read with a default
   * (`d.get('trainingPhase', True)`); the source tests its truthiness, and
   * the model holds only an absent flag or a JSON boolean.
   */
  datatype TelemetryRecord = TelemetryRecord(
    timestamp: real,
    altitude: real,
    airspeed: real,
    pitch: real,
    vibration: real,
    engineFailure: bool,
    trainingPhase: Option<bool>)

  /** `d.get('trainingPhase', True)`: an absent flag means the record is for training. */
  predicate IsTrainingRecord(d: TelemetryRecord) {
    d.trainingPhase.GetOr(true)
  }

  /** The feature vector handed to the scaler and the isolation forest. */
  type FeatureVector = seq<real>

  const FEATURE_COUNT: nat := 4

  /** Features in the fixed order altitude, airspeed, pitch, vibration. */
  function ExtractFeatures(p: TelemetryRecord): (f: FeatureVector)
    ensures |f| == FEATURE_COUNT
    ensures f[0] == p.altitude && f[1] == p.airspeed && f[2] == p.pitch && f[3] == p.vibration
  {
    [p.altitude, p.airspeed, p.pitch, p.vibration]
  }

  /** Two records give the same features exactly when their four measurements agree. */
  lemma FeaturesDetermineMeasurements(p: TelemetryRecord, q: TelemetryRecord)
    ensures ExtractFeatures(p) == ExtractFeatures(q) <==>
      (p.altitude == q.altitude && p.airspeed == q.airspeed &&
       p.pitch == q.pitch && p.vibration == q.vibration)
  {
    if ExtractFeatures(p) == ExtractFeatures(q) {
      assert ExtractFeatures(p)[0] == ExtractFeatures(q)[0];
      assert ExtractFeatures(p)[1] == ExtractFeatures(q)[1];
      assert ExtractFeatures(p)[2] == ExtractFeatures(q)[2];
      assert ExtractFeatures(p)[3] == ExtractFeatures(q)[3];
    }
  }

  datatype Severity = Low | Medium | High | Critical

  /** Position of a tier in the order Low < Medium < High < Critical. */
  function Rank(s: Severity): nat {
    match s
    case Low => 0
    case Medium => 1
    case High => 2
    case Critical => 3
  }

  /** The vibration a reading must exceed to reach tier `s` (Low is reached by every reading). */
  function Threshold(s: Severity): real
    requires s != Low
  {
    match s
    case Medium => 4.0
    case High => 6.0
    case Critical => 8.0
  }

  /** Severity tier of a data point, from its vibration; the bands do not overlap. */
  function CalculateSeverity(p: TelemetryRecord): (s: Severity)
    ensures s == Critical <==> p.vibration > 8.0
    ensures s == High <==> 6.0 < p.vibration <= 8.0
    ensures s == Medium <==> 4.0 < p.vibration <= 6.0
    ensures s == Low <==> p.vibration <= 4.0
  {
    var vibration := p.vibration;
    if vibration > 8.0 then Critical
    else if vibration > 6.0 then High
    else if vibration > 4.0 then Medium
    else Low
  }

  /** A point reaches tier `s` or higher exactly when its vibration exceeds that tier's threshold. */
  lemma SeverityAtLeast(p: TelemetryRecord, s: Severity)
    requires s != Low
    ensures Rank(CalculateSeverity(p)) >= Rank(s) <==> p.vibration > Threshold(s)
  {
  }

  /** Severity is a non-decreasing step function of vibration. */
  lemma SeverityMonotone(p: TelemetryRecord, q: TelemetryRecord)
    requires p.vibration <= q.vibration
    ensures Rank(CalculateSeverity(p)) <= Rank(CalculateSeverity(q))
  {
  }

  /** The four sample readings 9.0, 7.0, 5.0 and 3.0 fall in the four tiers. */
  lemma SeverityExamples(p: TelemetryRecord)
    ensures p.vibration == 9.0 ==> CalculateSeverity(p) == Critical
    ensures p.vibration == 7.0 ==> CalculateSeverity(p) == High
    ensures p.vibration == 5.0 ==> CalculateSeverity(p) == Medium
    ensures p.vibration == 3.0 ==> CalculateSeverity(p) == Low
  {
  }

  /** A confirmed anomaly as written to the anomaly store. */
  datatype Anomaly = Anomaly(
    timestamp: real,
    altitude: real,
    airspeed: real,
    pitch: real,
    vibration: real,
    engineFailure: bool,
    detectedAt: string,
    severity: Severity)

  /** The anomaly dictionary built for an outlier point; `detectedAt` is the clock reading. */
  function MakeAnomaly(p: TelemetryRecord, detectedAt: string): Anomaly {
    Anomaly(p.timestamp, p.altitude, p.airspeed, p.pitch, p.vibration,
            p.engineFailure, detectedAt, CalculateSeverity(p))
  }
}
