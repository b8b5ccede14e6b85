/** The video analysis page (src/VideoAnalysis.tsx): the chosen or
    captured file, the analysis request and its outcome, and the local
    history of the last ten results. */
module VideoAnalysis {
  import opened Wrappers
  import opened Strings
  import JsNumber
  import opened FileUpload

  /** At most this many results are kept in the history. */
  const HistoryLimit: nat := 10

  /** The analysis service's response, carried through unchanged. */
  datatype AnalysisResponse = AnalysisResponse(body: string)

  /** A saved result: the response with its own id and timestamp. */
  datatype HistoryEntry = HistoryEntry(result: AnalysisResponse, id: string, timestamp: string)

  /** How the analysis request settles: with a response, or with an error
      that is an `Error` carrying a message or something else. */
  datatype Outcome = Succeeded(response: AnalysisResponse) | Failed(message: Option<string>)

  const AnalysisFailed := "视频分析失败，请重试"

  /** The history after `saveResultToLocal`: the new entry in front, then
      the previous entries, cut to ten. */
  function Saved(history: seq<HistoryEntry>, entry: HistoryEntry): (r: seq<HistoryEntry>)
    ensures |r| <= HistoryLimit
    ensures |r| >= 1 && r[0] == entry
    ensures r[1..] == history[..if |history| < HistoryLimit then |history| else HistoryLimit - 1]
  {
    var h := [entry] + history;
    assert h[1..] == history;
    if |h| <= HistoryLimit then h
    else
      assert h[..HistoryLimit][1..] == history[..HistoryLimit - 1];
      h[..HistoryLimit]
  }

  /** Saving twice keeps the newer entry first and the older second. */
  lemma SavedTwice(history: seq<HistoryEntry>, first: HistoryEntry, second: HistoryEntry)
    ensures var r := Saved(Saved(history, first), second);
      r[0] == second && |r| >= 2 && r[1] == first
  {
  }

  /** The unit `formatFileSize` picks. */
  datatype SizeUnit = B | KB | MB

  /** A rendered size: the amount shown and its unit. */
  datatype SizeText = SizeText(amount: real, unit: SizeUnit)

  /** `formatFileSize(bytes)`: bytes below 1024, kilobytes below 1048576,
      megabytes from there, the larger units to one decimal. */
  function FormatFileSize(bytes: nat): (s: SizeText)
    ensures s.unit == B <==> bytes < 1024
    ensures s.unit == KB <==> 1024 <= bytes < 1048576
    ensures s.unit == MB <==> bytes >= 1048576
    ensures s.unit == B ==> s.amount == bytes as real
    ensures s.unit == KB ==> bytes as real / 1024.0 - 0.05 < s.amount <= bytes as real / 1024.0 + 0.05
    ensures s.unit == MB ==> bytes as real / 1048576.0 - 0.05 < s.amount <= bytes as real / 1048576.0 + 0.05
  {
    if bytes < 1024 then SizeText(bytes as real, B)
    else if bytes < 1048576 then SizeText(JsNumber.Round1(bytes as real / 1024.0), KB)
    else SizeText(JsNumber.Round1(bytes as real / 1048576.0), MB)
  }

  /** A kilobyte reading never shows more than 1024.0 and a megabyte
      reading never less than 1.0. */
  lemma FileSizeUnitsMeet(bytes: nat)
    ensures FormatFileSize(bytes).unit == KB ==> 1.0 <= FormatFileSize(bytes).amount <= 1024.0
    ensures FormatFileSize(bytes).unit == MB ==> FormatFileSize(bytes).amount >= 1.0
  {
    var x := bytes as real;
    if 1024 <= bytes < 1048576 {
      assert 1.0 <= x / 1024.0 < 1024.0;
      assert 10.0 <= x / 1024.0 * 10.0 < 10240.0;
    } else if bytes >= 1048576 {
      assert x / 1048576.0 >= 1.0;
      assert x / 1048576.0 * 10.0 >= 10.0;
    }
  }

  /** The page's state. */
  class VideoAnalysisPage {
    var selectedFile: Option<File>
    var isAnalyzing: bool
    var analysisResult: Option<AnalysisResponse>
    var error: Option<string>
    /** The `analysis_history` list of the local store. */
    var history: seq<HistoryEntry>

    constructor (history: seq<HistoryEntry>)
      ensures selectedFile.None? && !isAnalyzing && analysisResult.None? && error.None?
      ensures this.history == history
    {
      selectedFile := None;
      isAnalyzing := false;
      analysisResult := None;
      error := None;
      this.history := history;
    }

    /** `handleFileSelect(file)`. */
    method HandleFileSelect(file: File)
      modifies this`selectedFile, this`error, this`analysisResult
      ensures selectedFile == Some(file) && error.None? && analysisResult.None?
    {
      selectedFile := Some(file);
      error := None;
      analysisResult := None;
    }

    /** `saveResultToLocal(result)` at time `now` (`isoTime` in ISO form). */
    method SaveResultToLocal(result: AnalysisResponse, now: nat, isoTime: string)
      modifies this`history
      ensures history == Saved(old(history), HistoryEntry(result, "analysis_" + NatToString(now), isoTime))
    {
      var newResult := HistoryEntry(result, "analysis_" + NatToString(now), isoTime);
      var h := [newResult] + history;
      history := if |h| <= HistoryLimit then h else h[..HistoryLimit];
    }

    /** `handleAnalyze()` for the file `file` seen by the handler, run
        until the request settles with `outcome`. */
    method Analyze(file: Option<File>, outcome: Outcome, now: nat, isoTime: string) returns (started: bool)
      modifies this`isAnalyzing, this`error, this`analysisResult, this`history
      ensures started <==> file.Some?
      ensures !started ==> isAnalyzing == old(isAnalyzing) && error == old(error) &&
                           analysisResult == old(analysisResult) && history == old(history)
      ensures started ==> !isAnalyzing
      ensures started && outcome.Succeeded? ==>
        error.None? && analysisResult == Some(outcome.response) &&
        history == Saved(old(history), HistoryEntry(outcome.response, "analysis_" + NatToString(now), isoTime))
      ensures started && outcome.Failed? ==>
        error == Some(outcome.message.GetOr(AnalysisFailed)) &&
        analysisResult == old(analysisResult) && history == old(history)
    {
      if file.None? {
        return false;
      }
      started := true;
      isAnalyzing := true;
      error := None;
      match outcome {
        case Succeeded(response) =>
          analysisResult := Some(response);
          SaveResultToLocal(response, now, isoTime);
        case Failed(message) =>
          error := Some(message.GetOr(AnalysisFailed));
      }
      isAnalyzing := false;
    }

    /** `handleAnalyze()` from the analyse button: it reads the current
        file and does nothing when there is none. */
    method HandleAnalyze(outcome: Outcome, now: nat, isoTime: string) returns (started: bool)
      modifies this`isAnalyzing, this`error, this`analysisResult, this`history
      ensures started <==> selectedFile.Some?
      ensures !started ==> isAnalyzing == old(isAnalyzing) && error == old(error) &&
                           analysisResult == old(analysisResult) && history == old(history)
      ensures started ==> !isAnalyzing
      ensures started && outcome.Succeeded? ==>
        error.None? && analysisResult == Some(outcome.response) &&
        history == Saved(old(history), HistoryEntry(outcome.response, "analysis_" + NatToString(now), isoTime))
      ensures started && outcome.Failed? ==>
        error == Some(outcome.message.GetOr(AnalysisFailed)) &&
        analysisResult == old(analysisResult) && history == old(history)
    {
      started := Analyze(selectedFile, outcome, now, isoTime);
    }

    /** `handleCapture(image)`: the captured picture becomes the selected
        file, then the analysis starts, but the handler still sees the file
        selected before the capture, so with none it does nothing. */
    method HandleCapture(mimeType: string, size: nat, outcome: Outcome, now: nat, isoTime: string)
      returns (started: bool)
      modifies this
      ensures selectedFile == Some(File("capture_" + NatToString(now) + ".jpg", mimeType, size))
      ensures started <==> old(selectedFile).Some?
      ensures !started ==> isAnalyzing == old(isAnalyzing) && error.None? && analysisResult.None? && history == old(history)
      ensures started ==> !isAnalyzing
      ensures started && outcome.Succeeded? ==>
        error.None? && analysisResult == Some(outcome.response) &&
        history == Saved(old(history), HistoryEntry(outcome.response, "analysis_" + NatToString(now), isoTime))
      ensures started && outcome.Failed? ==>
        error == Some(outcome.message.GetOr(AnalysisFailed)) && analysisResult.None? && history == old(history)
    {
      var stale := selectedFile;
      selectedFile := Some(File("capture_" + NatToString(now) + ".jpg", mimeType, size));
      error := None;
      analysisResult := None;
      started := Analyze(stale, outcome, now, isoTime);
    }
  }
}
