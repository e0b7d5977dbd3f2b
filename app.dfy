/**
 * The batch runner of the main page: the state the page keeps (URL, bearer
 * token, selected file, the processing flag, the process button's enabled
 * state, the log) and the handlers that change it. `OnProcessClicked` is the
 * run: it refuses to start while a run is in progress, takes the extracted
 * rows, dispatches them one at a time in order, counts successes and
 * errors, and always clears the processing flag at the end.
 *
 * The extractor and the dispatcher are reached through the page's injected
 * services: the run receives the extractor's outcome (`read`) and, for the
 * i-th dispatch (counting from 0), what the HTTP client does with the
 * request (`network(i)`). Log lines are kept without their timestamps.
 */
module App {
  import opened Wrappers
  import opened Text
  import ExcelProcessor
  import opened HttpService

  /** The number of characters of a row shown in the log before it is cut. */
  const PreviewLimit := 50

  const NoDataLine := "No data found in Excel file."
  const InvalidFileLine := "Invalid file type selected. Please choose an Excel file (.xlsx or .xls)"

  /** What the file picker returned: the file's name and its full path. */
  datatype PickedFile = PickedFile(fileName: string, fullPath: string)

  /** How a click on the process button ended. */
  datatype RunOutcome =
    | AlreadyRunning
    | ReadFailed(message: string)
    | NoData
    | Completed(successCount: nat, errorCount: nat)

  /** What the HTTP client does with the request of each dispatch, by its 0-based position in the run. */
  type Network = nat -> Transport

  /** The row as the log shows it: whole when it fits, otherwise its first 50 characters and "...". */
  function Preview(rowData: string): (preview: string)
    ensures |preview| <= PreviewLimit + 3
    ensures |rowData| <= PreviewLimit ==> preview == rowData
    ensures |rowData| > PreviewLimit ==>
              |preview| == PreviewLimit + 3 && preview[..PreviewLimit] == rowData[..PreviewLimit] && EndsWith(preview, "...")
  {
    if |rowData| > PreviewLimit then rowData[..PreviewLimit] + "..." else rowData
  }

  /** `Path.GetFileName` of a path that may be `null`; a `null` name renders as "". */
  function FileNameOf(path: Option<string>): string {
    if path.Some? then GetFileName(path.value) else ""
  }

  /** The result of dispatching each row, in row order. */
  function RowResults(url: string, bearerToken: string, rows: seq<string>, network: Network): seq<HttpRequestResult> {
    seq(|rows|, i requires 0 <= i < |rows| => SendPostRequest(url, bearerToken, rows[i], network(i)))
  }

  function CountSuccesses(results: seq<HttpRequestResult>): nat
    decreases |results|
  {
    if results == [] then 0
    else CountSuccesses(results[..|results| - 1]) + (if results[|results| - 1].isSuccess then 1 else 0)
  }

  function CountErrors(results: seq<HttpRequestResult>): nat
    decreases |results|
  {
    if results == [] then 0
    else CountErrors(results[..|results| - 1]) + (if results[|results| - 1].isSuccess then 0 else 1)
  }

  function RowStartLine(i: nat, rowData: string): string {
    "Processing row " + IntToString(i + 1) + ": " + Preview(rowData)
  }

  function RowResultLine(i: nat, result: HttpRequestResult): string {
    if result.isSuccess then
      "✅ Row " + IntToString(i + 1) + " sent successfully (Status: " + IntToString(result.statusCode) + ")"
    else
      "❌ Row " + IntToString(i + 1) + " failed: " + result.message
  }

  /** The two log lines of each of the first n rows: the preview before the dispatch, the outcome after it. */
  function DispatchLog(rows: seq<string>, results: seq<HttpRequestResult>, n: nat): seq<string>
    requires n <= |rows| && |results| == |rows|
  {
    if n == 0 then []
    else DispatchLog(rows, results, n - 1) + [RowStartLine(n - 1, rows[n - 1]), RowResultLine(n - 1, results[n - 1])]
  }

  function StartLog(path: Option<string>): seq<string> {
    ["Starting processing...", "Reading Excel file: " + FileNameOf(path)]
  }

  function SummaryLog(successCount: nat, errorCount: nat): seq<string> {
    ["\n🎉 Processing completed!",
     "✅ Success: " + IntToString(successCount) + ", ❌ Errors: " + IntToString(errorCount)]
  }

  /** How a run that was not refused ends, for the extractor's outcome `read`. */
  function RunOutcomeOf(read: Result<seq<string>, string>, url: string, bearerToken: string, network: Network)
    : (outcome: RunOutcome)
    ensures outcome != AlreadyRunning
    ensures outcome.ReadFailed? <==> read.Failure?
    ensures outcome.NoData? <==> read.Success? && read.value == []
    ensures outcome.ReadFailed? ==> outcome.message == read.error
    ensures outcome.Completed? ==> outcome.successCount + outcome.errorCount == |read.value|
  {
    match read
    case Failure(message) => ReadFailed(message)
    case Success(rows) =>
      if rows == [] then NoData
      else
        var results := RowResults(url, bearerToken, rows, network);
        CountsPartition(results);
        Completed(CountSuccesses(results), CountErrors(results))
  }

  /** The lines a run adds once rows were found: the count, two lines per row, the summary. */
  function RowsLog(rows: seq<string>, url: string, bearerToken: string, network: Network): seq<string> {
    var results := RowResults(url, bearerToken, rows, network);
    ["Found " + IntToString(|rows|) + " rows to process"]
    + DispatchLog(rows, results, |rows|)
    + SummaryLog(CountSuccesses(results), CountErrors(results))
  }

  /** The lines a run that was not refused adds to the log after the two opening lines. */
  function RunTail(read: Result<seq<string>, string>, url: string, bearerToken: string, network: Network): seq<string> {
    match read
    case Failure(message) => ["❌ Error during processing: " + message]
    case Success(rows) => if rows == [] then [NoDataLine] else RowsLog(rows, url, bearerToken, network)
  }

  class MainPage {
    var url: string
    var bearerToken: string
    var selectedFilePath: Option<string>
    var isProcessing: bool
    /** Whether the process button is enabled. */
    var processButtonEnabled: bool
    /** The log, one message per line. */
    var log: seq<string>

    /** `ValidateInputs`'s condition: URL, token and file all given, and no run in progress. */
    predicate InputsValid()
      reads this
    {
      !IsBlank(url) && !IsBlank(bearerToken) && !IsNullOrWhiteSpace(selectedFilePath) && !isProcessing
    }

    constructor()
      ensures url == "" && bearerToken == "" && selectedFilePath == None
      ensures !isProcessing && !processButtonEnabled && log == []
    {
      url := "";
      bearerToken := "";
      selectedFilePath := None;
      isProcessing := false;
      processButtonEnabled := false;
      log := [];
      new;
      ValidateInputs();
    }

    method ValidateInputs()
      modifies this`processButtonEnabled
      ensures processButtonEnabled == InputsValid()
    {
      processButtonEnabled := !IsBlank(url) && !IsBlank(bearerToken)
                              && !IsNullOrWhiteSpace(selectedFilePath) && !isProcessing;
    }

    /** The `Url` property's setter. */
    method SetUrl(value: string)
      modifies this`url, this`processButtonEnabled
      ensures url == value && processButtonEnabled == InputsValid()
    {
      url := value;
      ValidateInputs();
    }

    /** The `BearerToken` property's setter. */
    method SetBearerToken(value: string)
      modifies this`bearerToken, this`processButtonEnabled
      ensures bearerToken == value && processButtonEnabled == InputsValid()
    {
      bearerToken := value;
      ValidateInputs();
    }

    method AddToLog(message: string)
      modifies this`log
      ensures log == old(log) + [message]
    {
      log := log + [message];
    }

    method OnClearLogClicked()
      modifies this`log
      ensures log == []
    {
      log := [];
    }

    /**
     * The file picker's answer is `picked`: a file, None when the user
     * cancelled, or the message of the exception the picker threw.
     */
    method OnSelectFileClicked(picked: Result<Option<PickedFile>, string>)
      modifies this`selectedFilePath, this`log, this`processButtonEnabled
      ensures picked.Failure? ==>
                selectedFilePath == old(selectedFilePath) && processButtonEnabled == old(processButtonEnabled)
                && log == old(log) + ["Error selecting file: " + picked.error]
      ensures picked.Success? ==> processButtonEnabled == InputsValid()
      ensures picked.Success? && picked.value.None? ==>
                selectedFilePath == old(selectedFilePath) && log == old(log)
      ensures picked.Success? && picked.value.Some? && ExcelProcessor.IsValidExcelFile(picked.value.value.fileName) ==>
                selectedFilePath == Some(picked.value.value.fullPath)
                && log == old(log) + ["File selected: " + picked.value.value.fileName]
      ensures picked.Success? && picked.value.Some? && !ExcelProcessor.IsValidExcelFile(picked.value.value.fileName) ==>
                selectedFilePath == None && log == old(log) + [InvalidFileLine]
    {
      match picked
      case Failure(message) =>
        AddToLog("Error selecting file: " + message);
      case Success(result) =>
        if result.Some? {
          if ExcelProcessor.IsValidExcelFile(result.value.fileName) {
            selectedFilePath := Some(result.value.fullPath);
            AddToLog("File selected: " + result.value.fileName);
          } else {
            selectedFilePath := None;
            AddToLog(InvalidFileLine);
          }
        }
        ValidateInputs();
    }

    /**
     * One iteration of the dispatch loop: log the preview, send the row, log
     * its outcome. `log0` and `results` are the loop's view: the log before
     * the first row and the results of all rows.
     */
    method DispatchRow(i: nat, textData: seq<string>, network: Network,
                       ghost log0: seq<string>, ghost results: seq<HttpRequestResult>)
      returns (result: HttpRequestResult)
      requires i < |textData| && results == RowResults(url, bearerToken, textData, network)
      requires log == log0 + DispatchLog(textData, results, i)
      modifies this`log
      ensures result == SendPostRequest(url, bearerToken, textData[i], network(i)) == results[i]
      ensures log == old(log) + [RowStartLine(i, textData[i]), RowResultLine(i, result)]
      ensures log == log0 + DispatchLog(textData, results, i + 1)
    {
      AddToLog(RowStartLine(i, textData[i]));
      result := SendPostRequest(url, bearerToken, textData[i], network(i));
      AddToLog(RowResultLine(i, result));
      RowStep(log0, textData, results, i);
    }

    /**
     * The loop of `OnProcessClicked`: each row in turn is previewed in the
     * log, dispatched, counted as a success or an error, and its outcome
     * logged before the next row starts.
     */
    method DispatchRows(textData: seq<string>, network: Network) returns (successCount: nat, errorCount: nat)
      modifies this`log
      ensures successCount + errorCount == |textData|
      ensures successCount == CountSuccesses(RowResults(url, bearerToken, textData, network))
      ensures errorCount == CountErrors(RowResults(url, bearerToken, textData, network))
      ensures log == old(log) + DispatchLog(textData, RowResults(url, bearerToken, textData, network), |textData|)
    {
      ghost var log0 := log;
      ghost var results := RowResults(url, bearerToken, textData, network);
      successCount, errorCount := 0, 0;
      var i := 0;
      while i < |textData|
        invariant 0 <= i <= |textData|
        invariant successCount + errorCount == i
        invariant successCount == CountSuccesses(results[..i]) && errorCount == CountErrors(results[..i])
        invariant log == log0 + DispatchLog(textData, results, i)
      {
        var result := DispatchRow(i, textData, network, log0, results);
        CountsStep(results, i);
        if result.isSuccess {
          successCount := successCount + 1;
        } else {
          errorCount := errorCount + 1;
        }
        i := i + 1;
      }
      assert results[..i] == results;
      CountsPartition(results);
    }

    /** The part of `OnProcessClicked` that runs once rows were found: announce, dispatch, summarise. */
    method ProcessRows(textData: seq<string>, network: Network) returns (outcome: RunOutcome)
      requires textData != []
      modifies this`log
      ensures outcome == RunOutcomeOf(Success(textData), url, bearerToken, network)
      ensures log == old(log) + RowsLog(textData, url, bearerToken, network)
    {
      ghost var log0 := log;
      ghost var results := RowResults(url, bearerToken, textData, network);
      var found := "Found " + IntToString(|textData|) + " rows to process";
      AddToLog(found);
      var successCount, errorCount := DispatchRows(textData, network);
      ghost var dispatchLog := DispatchLog(textData, results, |textData|);
      AppendAssociates(log0, [found], dispatchLog);
      ghost var summary := SummaryLog(successCount, errorCount);
      LogSummary(successCount, errorCount);
      AppendAssociates(log0, [found] + dispatchLog, summary);
      outcome := Completed(successCount, errorCount);
    }

    /** The two opening lines of a run. */
    method LogStart()
      modifies this`log
      ensures log == old(log) + StartLog(selectedFilePath)
    {
      AddToLog("Starting processing...");
      AddToLog("Reading Excel file: " + FileNameOf(selectedFilePath));
    }

    /** The two closing lines of a run that dispatched its rows. */
    method LogSummary(successCount: nat, errorCount: nat)
      modifies this`log
      ensures log == old(log) + SummaryLog(successCount, errorCount)
    {
      AddToLog("\n🎉 Processing completed!");
      AddToLog("✅ Success: " + IntToString(successCount) + ", ❌ Errors: " + IntToString(errorCount));
    }

    /** The body of `OnProcessClicked`'s `try` block, once the run has started. */
    method Process(read: Result<seq<string>, string>, network: Network) returns (outcome: RunOutcome)
      modifies this`log
      ensures outcome == RunOutcomeOf(read, url, bearerToken, network)
      ensures log == old(log) + StartLog(selectedFilePath) + RunTail(read, url, bearerToken, network)
    {
      LogStart();
      match read {
        case Failure(message) =>
          AddToLog("❌ Error during processing: " + message);
          outcome := ReadFailed(message);
        case Success(textData) =>
          if |textData| == 0 {
            AddToLog(NoDataLine);
            outcome := NoData;
          } else {
            outcome := ProcessRows(textData, network);
          }
      }
    }

    /**
     * `OnProcessClicked`: refused while a run is in progress; otherwise the
     * flag is set, the run proceeds, and the flag is cleared and the button
     * re-validated on every way out.
     */
    method OnProcessClicked(read: Result<seq<string>, string>, network: Network) returns (outcome: RunOutcome)
      modifies this`isProcessing, this`processButtonEnabled, this`log
      ensures old(isProcessing) ==>
                outcome == AlreadyRunning && isProcessing && processButtonEnabled == old(processButtonEnabled)
                && log == old(log)
      ensures !old(isProcessing) ==>
                outcome == RunOutcomeOf(read, url, bearerToken, network)
                && log == old(log) + StartLog(selectedFilePath) + RunTail(read, url, bearerToken, network)
      ensures !old(isProcessing) ==> !isProcessing && processButtonEnabled == InputsValid()
    {
      if isProcessing {
        return AlreadyRunning;
      }
      isProcessing := true;
      processButtonEnabled := false;
      outcome := Process(read, network);
      // finally
      isProcessing := false;
      processButtonEnabled := true;
      ValidateInputs();
    }
  }

  // ---------------------------------------------------------------------------
  // Properties of a run

  /** Every dispatched row is counted once, as a success or as an error. */
  lemma {:induction false} CountsPartition(results: seq<HttpRequestResult>)
    ensures CountSuccesses(results) + CountErrors(results) == |results|
    decreases |results|
  {
    if results != [] {
      CountsPartition(results[..|results| - 1]);
    }
  }

  lemma AppendAssociates(a: seq<string>, b: seq<string>, c: seq<string>)
    ensures (a + b) + c == a + (b + c)
  {
  }

  /** Dispatching one more row adds its result to exactly one of the two counts. */
  lemma CountsStep(results: seq<HttpRequestResult>, i: nat)
    requires i < |results|
    ensures CountSuccesses(results[..i + 1]) == CountSuccesses(results[..i]) + (if results[i].isSuccess then 1 else 0)
    ensures CountErrors(results[..i + 1]) == CountErrors(results[..i]) + (if results[i].isSuccess then 0 else 1)
  {
    assert results[..i + 1][..i] == results[..i];
  }

  /** One more dispatched row: two more log lines at the end. */
  lemma RowStep(log0: seq<string>, rows: seq<string>, results: seq<HttpRequestResult>, i: nat)
    requires i < |rows| && |results| == |rows|
    ensures (log0 + DispatchLog(rows, results, i)) + [RowStartLine(i, rows[i]), RowResultLine(i, results[i])]
            == log0 + DispatchLog(rows, results, i + 1)
  {
    AppendAssociates(log0, DispatchLog(rows, results, i), [RowStartLine(i, rows[i]), RowResultLine(i, results[i])]);
  }

  /** When every row succeeds, every row is counted as a success. */
  lemma {:induction false} AllSucceededCount(results: seq<HttpRequestResult>)
    requires forall i :: 0 <= i < |results| ==> results[i].isSuccess
    ensures CountSuccesses(results) == |results| && CountErrors(results) == 0
    decreases |results|
  {
    if results != [] {
      AllSucceededCount(results[..|results| - 1]);
    }
  }

  /** The dispatch loop writes exactly two lines per row. */
  lemma {:induction false} DispatchLogLength(rows: seq<string>, results: seq<HttpRequestResult>, n: nat)
    requires n <= |rows| && |results| == |rows|
    ensures |DispatchLog(rows, results, n)| == 2 * n
  {
    if n > 0 {
      DispatchLogLength(rows, results, n - 1);
    }
  }

  /**
   * The log of the dispatch loop holds, for each row i, in turn, the
   * preview line and then that row's outcome line: no row is logged out of
   * order, and each row's outcome comes before the next row starts.
   */
  lemma {:induction false} DispatchLogInOrder(rows: seq<string>, results: seq<HttpRequestResult>, n: nat, i: nat)
    requires i < n <= |rows| && |results| == |rows|
    ensures |DispatchLog(rows, results, n)| == 2 * n
    ensures DispatchLog(rows, results, n)[2 * i] == RowStartLine(i, rows[i])
    ensures DispatchLog(rows, results, n)[2 * i + 1] == RowResultLine(i, results[i])
  {
    DispatchLogLength(rows, results, n);
    DispatchLogLength(rows, results, n - 1);
    if i < n - 1 {
      DispatchLogInOrder(rows, results, n - 1, i);
    }
  }

  /** Two rows whose requests all get a 200: two successes, no error. */
  lemma TwoRowsAllSucceed(network: Network)
    requires forall i, request :: network(i)(request) == Responded(HttpResponse(200, "OK", ""))
    ensures RunOutcomeOf(Success(["Alice 30", "Bob 25"]), "https://host/api", "secret", network) == Completed(2, 0)
  {
    var url, token, rows := "https://host/api", "secret", ["Alice 30", "Bob 25"];
    assert !IsWhiteSpace(url[0]) && !IsWhiteSpace(token[0]);
    var results := RowResults(url, token, rows, network);
    forall i | 0 <= i < |results| ensures results[i].isSuccess {
      SentRequestIsClassified(url, token, rows[i], network(i));
    }
    AllSucceededCount(results);
  }

  /** The first request times out and the second gets a 201: one success, one error, the first reported as a timeout. */
  lemma TimeoutThenSuccess(network: Network)
    requires forall request :: network(0)(request) == TimedOut
    requires forall request :: network(1)(request) == Responded(HttpResponse(201, "Created", ""))
    ensures var results := RowResults("https://host/api", "secret", ["Alice 30", "Bob 25"], network);
            results[0] == HttpRequestResult(false, TimeoutMessage, 0) && results[1].isSuccess
    ensures RunOutcomeOf(Success(["Alice 30", "Bob 25"]), "https://host/api", "secret", network) == Completed(1, 1)
  {
    var url, token, rows := "https://host/api", "secret", ["Alice 30", "Bob 25"];
    assert !IsWhiteSpace(url[0]) && !IsWhiteSpace(token[0]);
    var results := RowResults(url, token, rows, network);
    SentRequestIsClassified(url, token, rows[0], network(0));
    SentRequestIsClassified(url, token, rows[1], network(1));
    assert results[..2] == results && results[..2][..1] == results[..1];
    assert CountSuccesses(results[..1]) == 0 && CountErrors(results[..1]) == 1 by {
      assert results[..1][..0] == [];
    }
    CountsPartition(results);
  }
}
