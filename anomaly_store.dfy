/**
 * The anomaly store of python/anomaly_detector.py: a JSON array in one file,
 * rewritten whole on every save (read, concatenate, write).
 */
module AnomalyStore {
  import opened Telemetry

  /**
   * What `json.load` makes of the store file. `Blank` is the empty file that
   * `clean_anomalies` leaves behind, which is not a JSON document.
   */
  datatype StoreFile =
    | Missing
    | Blank
    | Malformed
    | Stored(entries: seq<Anomaly>)

  /** The anomalies `save_anomalies` starts from: a missing or unparsable store reads as empty. */
  function ExistingAnomalies(f: StoreFile): (xs: seq<Anomaly>)
    ensures f.Stored? ==> xs == f.entries
    ensures !f.Stored? ==> xs == []
  {
    match f
    case Stored(entries) => entries
    case _ => []
  }

  /** `save_anomalies(added)`: the store afterwards holds what it held, then `added`. */
  function Save(f: StoreFile, added: seq<Anomaly>): (r: StoreFile)
    ensures r.Stored?
    ensures |r.entries| == |ExistingAnomalies(f)| + |added|
    ensures r.entries[..|ExistingAnomalies(f)|] == ExistingAnomalies(f)
    ensures r.entries[|ExistingAnomalies(f)|..] == added
  {
    Stored(ExistingAnomalies(f) + added)
  }

  /** `clean_anomalies()`: the store file is truncated to zero bytes. */
  function Clean(f: StoreFile): (r: StoreFile)
    ensures ExistingAnomalies(r) == []
  {
    Blank
  }

  /** After a clean, the next save leaves exactly the saved anomalies. */
  lemma CleanThenSave(f: StoreFile, xs: seq<Anomaly>)
    ensures Save(Clean(f), xs) == Stored(xs)
  {
  }

  /** Saving into a store that does not exist yet creates it with exactly those anomalies. */
  lemma SaveIntoMissing(xs: seq<Anomaly>)
    ensures Save(Missing, xs) == Stored(xs)
  {
  }

  /** The concatenation of a sequence of batches, in order. */
  function Concat(batches: seq<seq<Anomaly>>): seq<Anomaly>
    decreases |batches|
  {
    if batches == [] then [] else Concat(batches[..|batches| - 1]) + batches[|batches| - 1]
  }

  /** The store after saving each batch in turn. */
  function SaveAll(f: StoreFile, batches: seq<seq<Anomaly>>): StoreFile
    decreases |batches|
  {
    if batches == [] then f else Save(SaveAll(f, batches[..|batches| - 1]), batches[|batches| - 1])
  }

  /**
   * Repeated saves accumulate: the store holds the prior entries followed
   * by every batch in the order saved; nothing is dropped or reordered.
   */
  lemma {:induction false} SaveAllAppends(f: StoreFile, batches: seq<seq<Anomaly>>)
    ensures ExistingAnomalies(SaveAll(f, batches)) == ExistingAnomalies(f) + Concat(batches)
    decreases |batches|
  {
    if batches != [] {
      var n := |batches| - 1;
      SaveAllAppends(f, batches[..n]);
      assert ExistingAnomalies(f) + Concat(batches[..n]) + batches[n] ==
             ExistingAnomalies(f) + Concat(batches);
    }
  }
}
