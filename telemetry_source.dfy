/**
 * The telemetry file as `load_telemetry_data` of python/anomaly_detector.py
 * sees it: a sequence of lines read from a cursor, blank lines skipped and
 * every other line decoded as one JSON object.
 */
module TelemetrySource {
  import opened Wrappers
  import opened Telemetry

  /** The characters Python's `str.strip()` removes (those for which `str.isspace()` holds). */
  predicate IsPythonWhitespace(c: char) {
    || c == ' ' || ('\t' <= c <= '\r') || ('\U{1C}' <= c <= '\U{1F}')
    || c == '\U{85}' || c == '\U{A0}' || c == '\U{1680}' || ('\U{2000}' <= c <= '\U{200A}')
    || c == '\U{2028}' || c == '\U{2029}' || c == '\U{202F}' || c == '\U{205F}' || c == '\U{3000}'
  }

  /** `not line.strip()`. */
  predicate IsBlank(line: string) {
    forall i :: 0 <= i < |line| ==> IsPythonWhitespace(line[i])
  }

  /**
   * `json.loads` on one line: `None` exactly when decoding raises (a JSON
   * syntax error). A line that decodes to a complete telemetry record gives
   * `Some`; lines that are valid JSON but not complete records are outside
   * this model.
   */
  type Decoder = string -> Option<TelemetryRecord>

  /** `lines[last_position:]`: empty when the cursor is past the end. */
  function Unread(lines: seq<string>, position: nat): (u: seq<string>)
    ensures position <= |lines| ==> u == lines[position..]
    ensures position > |lines| ==> u == []
  {
    if position <= |lines| then lines[position..] else []
  }

  /** The non-blank lines, in order. */
  function NonBlank(lines: seq<string>): seq<string>
    decreases |lines|
  {
    if lines == [] then []
    else
      var n := |lines| - 1;
      NonBlank(lines[..n]) + (if IsBlank(lines[n]) then [] else [lines[n]])
  }

  /** Decoding every non-blank line in turn; `None` as soon as one fails (the exception `json.loads` raises). */
  function DecodeLines(lines: seq<string>, decode: Decoder): Option<seq<TelemetryRecord>>
    decreases |lines|
  {
    if lines == [] then Some([])
    else
      var n := |lines| - 1;
      match DecodeLines(lines[..n], decode)
      case None => None
      case Some(rs) =>
        if IsBlank(lines[n]) then Some(rs)
        else match decode(lines[n])
          case None => None
          case Some(r) => Some(rs + [r])
  }

  /**
   * Decoding succeeds exactly when every non-blank line decodes, and then
   * yields one record per non-blank line, in file order.
   */
  lemma {:induction false} DecodeLinesSpec(lines: seq<string>, decode: Decoder)
    ensures DecodeLines(lines, decode).Some? <==>
      forall i :: 0 <= i < |lines| && !IsBlank(lines[i]) ==> decode(lines[i]).Some?
    ensures DecodeLines(lines, decode).Some? ==>
      var rs := DecodeLines(lines, decode).value;
      && |rs| == |NonBlank(lines)|
      && forall k :: 0 <= k < |rs| ==> decode(NonBlank(lines)[k]) == Some(rs[k])
    decreases |lines|
  {
    if lines != [] {
      var n := |lines| - 1;
      DecodeLinesSpec(lines[..n], decode);
      assert forall i :: 0 <= i < n ==> lines[..n][i] == lines[i];
    }
  }

  /** Once a prefix of the lines fails to decode, so does the whole. */
  lemma {:induction false} MalformedPrefixFails(lines: seq<string>, k: nat, decode: Decoder)
    requires k <= |lines|
    requires DecodeLines(lines[..k], decode).None?
    ensures DecodeLines(lines, decode).None?
    decreases |lines| - k
  {
    if k < |lines| {
      assert lines[..k + 1][..k] == lines[..k];
      MalformedPrefixFails(lines, k + 1, decode);
    } else {
      assert lines[..k] == lines;
    }
  }

  /** Why reading the source failed. */
  datatype LoadError = MalformedLine

  /** What one call of `load_telemetry_data` returns and where it leaves the cursor. */
  datatype Load = Load(result: Result<seq<TelemetryRecord>, LoadError>, position: nat)

  /**
   * `load_telemetry_data` with the file given as `None` when it does not exist.
   * A missing file yields no records and keeps the cursor; a malformed line
   * raises before the cursor moves; otherwise the cursor jumps to the line count.
   */
  function LoadTelemetry(file: Option<seq<string>>, position: nat, decode: Decoder): (l: Load)
    ensures file.None? ==> l == Load(Success([]), position)
    ensures file.Some? && DecodeLines(Unread(file.value, position), decode).None? ==>
              l == Load(Failure(MalformedLine), position)
    ensures file.Some? && DecodeLines(Unread(file.value, position), decode).Some? ==>
              l == Load(Success(DecodeLines(Unread(file.value, position), decode).value), |file.value|)
  {
    match file
    case None => Load(Success([]), position)
    case Some(lines) =>
      match DecodeLines(Unread(lines, position), decode)
      case None => Load(Failure(MalformedLine), position)
      case Some(records) => Load(Success(records), |lines|)
  }

  /**
   * Reading the same file twice: the second read picks up exactly the lines
   * appended in between (the producer only appends).
   */
  lemma {:induction false} LoadAfterAppend(lines: seq<string>, more: seq<string>, position: nat, decode: Decoder)
    requires position <= |lines|
    requires DecodeLines(Unread(lines, position), decode).Some?
    ensures LoadTelemetry(Some(lines), position, decode).position == |lines|
    ensures LoadTelemetry(Some(lines + more), |lines|, decode).result == LoadTelemetry(Some(more), 0, decode).result
  {
    assert Unread(lines + more, |lines|) == more == Unread(more, 0);
  }
}
