# Auto Interactive Tool: the row-batch dispatch pipeline, in Dafny

The Auto Interactive Tool is an app page that reads a spreadsheet,
flattens each row that holds text in its first `Rows` rows and `Columns`
columns into one string (see "## Findings"), and posts the rows one at a
time to a URL with a bearer token. It logs each step and counts how many
rows succeeded and how many failed. This project models the three parts of
that pipeline and proves what they promise:

- `ExcelProcessor` (`excel_processor.dfy`) is the row extractor. It reads the
  first worksheet. Each row in rows 1..Rows that has a non-blank cell in
  columns 1..Columns (the used range's counts, see "## Findings") becomes
  the texts of its non-blank cells there, joined by single spaces in column
  order. Failures are wrapped in one error message. The module also holds
  the file-name check that admits only `.xlsx` and `.xls`.
- `HttpService` (`http_service.dfy`) is the dispatcher. It checks the URL and
  then the token. It builds a JSON POST with a `Bearer` header and turns
  whatever the HTTP client did into an `HttpRequestResult`, so it never
  throws. The client is a parameter, `send`. It maps a request to a response,
  a transport error, a timeout or another exception.
- `App` (`app.dfy`) is the main page, a class with the page's fields:
  - the URL, the token and the selected file;
  - the processing flag and the process button's enabled state;
  - the log.

  Its methods are the page's handlers. `OnProcessClicked` refuses to start
  while a run is in progress. Otherwise it logs the start, takes the
  extractor's outcome and dispatches the rows strictly in order, counting
  successes and errors. If rows were found it then logs a summary; a read
  failure logs the error line instead, and an empty result the no-data line.
  On every path it clears the flag and re-validates the button. What the
  HTTP client does on the i-th dispatch (from 0) is `network(i)`.
- `Text` (`text.dfy`) models the .NET string and path functions the code
  relies on: `String.IsNullOrWhiteSpace`, `ToLowerInvariant`,
  `Path.GetExtension`, `Path.GetFileName` and integer formatting.
  `Wrappers` (`wrappers.dfy`) holds `Option`, which models `null`, and
  `Result`, which models a value or an exception's message.

Log lines are kept as strings without their `[HH:mm:ss]` timestamps. A
run's whole log is stated through specification functions:
- `StartLog`, then `RunTail`, for the run as a whole;
- `RowsLog`, `DispatchLog` and `SummaryLog`, for the part after rows were found.

## Model

| member | source | states |
|---|---|---|
| `ExcelProcessor.FlattenRange` | ExcelProcessor.cs:39-60 | The nested row/column loop, with the row text built up in place and a `hasData` flag, returns exactly `Flatten` of the range: for each row in order, its non-blank cells joined by single spaces, and rows without data dropped. |
| `ExcelProcessor.ReadExcelFile` | ExcelProcessor.cs:22-70 | An open or read failure gives `Failure("Error reading Excel file: " + message)`. A workbook with no worksheet gives the same prefix plus "No worksheet found in the Excel file.". Otherwise the result is the flattened rows 1..Rows and columns 1..Columns of the first sheet. A failure never carries partial rows. |
| `ExcelProcessor.ReadExcelFileUsedRange` | ExcelProcessor.cs:36-44 | Corrected extractor: the same error cases, and loops over the used range's own bounds. |
| `ExcelProcessor.IsValidExcelFile` | ExcelProcessor.cs:79-80 | A blank or white-space-only file name is never valid. |
| `ExcelProcessor.IsValidExcelFileIffSuffix` | ExcelProcessor.cs:79-83 | The check accepts a name exactly when, lower-cased, it ends with ".xlsx" or ".xls", because only then is `Path.GetExtension`, lower-cased, one of the two. |
| `ExcelProcessor.SuffixIsExtension` | ExcelProcessor.cs:82 | A name ending in ".xlsx" or ".xls", ignoring case, has that extension once lower-cased. |
| `ExcelProcessor.IsValidExcelFileIgnoresCase` | ExcelProcessor.cs:82 | Lower-casing the name first never changes the verdict. |
| `ExcelProcessor.DataXlsxIsAccepted` | ExcelProcessor.cs:82-83 | "Data.XLSX" is accepted. |
| `ExcelProcessor.DataCsvIsRejected` | ExcelProcessor.cs:82-83 | "data.csv" is rejected. |
| `ExcelProcessor.JoinCons` | ExcelProcessor.cs:49-51 | A joined row is its first cell, then exactly one space, then the rest joined. There is no leading separator. |
| `ExcelProcessor.JoinNonBlank` | ExcelProcessor.cs:47-58 | Joining cells whose last one is not blank never yields a blank string. |
| `ExcelProcessor.RowCellsProperties` | ExcelProcessor.cs:44-54 | A row contributes at most one text per column. Every text it contributes is non-blank. It contributes something exactly when some column in range has a non-blank cell. |
| `ExcelProcessor.FlattenBound` | ExcelProcessor.cs:56-59 | There are never more output strings than rows scanned. |
| `ExcelProcessor.FlattenNonBlank` | ExcelProcessor.cs:47-58 | No output string is empty or white space only. |
| `ExcelProcessor.FlattenFollowsDataRows` | ExcelProcessor.cs:39-60 | The k-th output string is the joined non-blank cells of the k-th row that has data. |
| `ExcelProcessor.DataRowsAscending` | ExcelProcessor.cs:39-60 | The rows that yield output are strictly ascending. They are exactly the rows in range that hold a non-blank cell. |
| `ExcelProcessor.NoDimensionNoRows` | ExcelProcessor.cs:36-39 | A worksheet without a used range yields an empty list, not an error. |
| `ExcelProcessor.UsedRangeReadsEveryDataRow` | ExcelProcessor.cs:36-39 | When every stored cell lies inside the used range, the corrected extractor outputs a row exactly when that row holds a non-blank cell. |
| `ExcelProcessor.AsWrittenSkipsOffsetRows` | ExcelProcessor.cs:36-39 | Take a sheet whose used range is A2:A2 and holds "x". The loops as written return nothing, while the used range yields ["x"]. |
| `ExcelProcessor.AsWrittenSkipsOffsetColumns` | ExcelProcessor.cs:37-44 | Take a sheet whose used range is B1:C1 and holds "a" in B1 and "b" in C1. The loops as written read columns A and B only and return ["a"], while the used range yields ["a b"]. |
| `ExcelProcessor.UsedRangeKeepsEveryCell` | ExcelProcessor.cs:44-54 | When every stored cell lies inside the used range, a row's cells over the used range's columns are exactly its cells over any wider column range: the corrected extractor keeps every non-blank cell of a row, in column order. |
| `ExcelProcessor.RowCellsSplit` | ExcelProcessor.cs:44-54 | Scanning a column range gives the cells of its left part followed by those of its right part. |
| `ExcelProcessor.RowCellsBlank` | ExcelProcessor.cs:47-53 | Columns without a non-blank cell contribute nothing to a row's text. |
| `Text.ExtensionFrom` | ExcelProcessor.cs:82 | `Path.GetExtension` is either empty, or a suffix of the name that starts with '.', is at least two characters long and contains no further '.' or directory separator. |
| `Text.ExtensionFromDot` | ExcelProcessor.cs:82 | Take the last '.' in the name, with no separator after it. If it is not the final character, the extension starts at that '.'. |
| `Text.GetFileName` | AutoInteractiveTool/MainPage.xaml.cs:165 | `Path.GetFileName` is the longest suffix of the path that contains no directory separator. |
| `HttpService.OutboundRequest` | HttpService.cs:32-60 | A request exists only when both the URL and the token are non-blank. It is sent to the URL with scheme "Bearer" and the token. Its JSON body has the single key "data", which holds the row, and is sent as "application/json" in "utf-8". |
| `HttpService.Classify` | HttpService.cs:63-100 | Success means exactly that a response arrived with a 2xx status. The status code is the response's status, or 0 when no response arrived. The message is "Success" exactly on success. Otherwise it is "Error: reason - body", "HTTP Error: …", "Request timeout" or "Unexpected error: …", depending on what happened. |
| `HttpService.SendPostRequest` | HttpService.cs:27-101 | A blank URL gives (false, "URL cannot be empty", 0). A blank token with a non-blank URL gives (false, "Bearer token cannot be empty", 0). Success implies the built request got a 2xx response with that status. The message is "Success" exactly on success. |
| `HttpService.GuardsSendNothing` | HttpService.cs:32-50 | When a guard fails, the result is the same whatever the client would do: no request is made. The result is a failure with status 0. |
| `HttpService.SentRequestIsClassified` | HttpService.cs:52-72 | With both inputs present, the result is the classification of the client's answer to the built request. |
| `HttpService.NonZeroStatusMeansResponse` | HttpService.cs:67-99 | A non-zero status code is only reported when a response was obtained. |
| `App.Preview` | AutoInteractiveTool/MainPage.xaml.cs:191 | A row of at most 50 characters is shown whole. A longer one is shown as its first 50 characters followed by "...", 53 in all. |
| `App.RunOutcomeOf` | AutoInteractiveTool/MainPage.xaml.cs:166-212 | A run that starts is never refused. It fails exactly when the extractor failed, and keeps its message. It ends with "no data" exactly when no rows were found. Otherwise successes plus errors equal the number of rows. |
| `App.MainPage.constructor` | AutoInteractiveTool/MainPage.xaml.cs:50-64 | The page starts with an empty URL, token and log, no file and no run, and a disabled process button. |
| `App.MainPage.ValidateInputs` | AutoInteractiveTool/MainPage.xaml.cs:252-261 | The button is enabled exactly when the URL, the token and the file path are non-blank and no run is in progress. |
| `App.MainPage.SetUrl` | AutoInteractiveTool/MainPage.xaml.cs:27-36 | Setting the URL stores it and re-validates the button. |
| `App.MainPage.SetBearerToken` | AutoInteractiveTool/MainPage.xaml.cs:39-48 | Setting the token stores it and re-validates the button. |
| `App.MainPage.AddToLog` | AutoInteractiveTool/MainPage.xaml.cs:266-272 | Appends one line to the log and changes nothing else. |
| `App.MainPage.OnClearLogClicked` | AutoInteractiveTool/MainPage.xaml.cs:242-247 | Empties the log. |
| `App.MainPage.OnSelectFileClicked` | AutoInteractiveTool/MainPage.xaml.cs:80-141 | A valid file name sets the selected path and logs "File selected: …". An invalid one clears the path and logs the invalid-type line. A cancelled pick changes neither. Every outcome except a picker exception re-validates the button. A picker exception only logs "Error selecting file: …". |
| `App.MainPage.DispatchRow` | AutoInteractiveTool/MainPage.xaml.cs:191-205 | Logs row i's preview, sends row i through `network(i)`, and logs its outcome. The result is row i's entry in `RowResults`, and the log grows by exactly those two lines. |
| `App.MainPage.DispatchRows` | AutoInteractiveTool/MainPage.xaml.cs:176-209 | Dispatches every row once, in index order. Success and error counts are those of the results and add up to the number of rows. The loop keeps `successCount + errorCount == i`. The log grows by two lines per row, in row order. |
| `App.MainPage.ProcessRows` | AutoInteractiveTool/MainPage.xaml.cs:174-212 | With rows present, the outcome is `Completed` with the counts, and the log grows by the count line, the per-row lines and the two summary lines. |
| `App.MainPage.LogStart` | AutoInteractiveTool/MainPage.xaml.cs:162-165 | Logs "Starting processing..." and then the selected file's name. |
| `App.MainPage.LogSummary` | AutoInteractiveTool/MainPage.xaml.cs:211-212 | Logs the completion line and then the success and error counts. |
| `App.MainPage.Process` | AutoInteractiveTool/MainPage.xaml.cs:162-221 | The body of the run. It has the outcome `RunOutcomeOf` and logs the two opening lines followed by exactly one of: the error line, the no-data line, or the rows' log. |
| `App.MainPage.OnProcessClicked` | AutoInteractiveTool/MainPage.xaml.cs:146-237 | While a run is in progress, a click changes nothing. Otherwise the run ends with the flag cleared and the button re-validated, on every path, including the error path and the no-data path. |
| `App.CountsPartition` | AutoInteractiveTool/MainPage.xaml.cs:196-205 | Every result is counted once, as a success or as an error. |
| `App.CountsStep` | AutoInteractiveTool/MainPage.xaml.cs:196-205 | One more result raises exactly one of the two counts by one, according to whether it succeeded. |
| `App.AllSucceededCount` | AutoInteractiveTool/MainPage.xaml.cs:196-199 | When every row succeeds, the success count is the number of rows and the error count is 0. |
| `App.DispatchLogLength` | AutoInteractiveTool/MainPage.xaml.cs:180-205 | The loop writes exactly two log lines per row. |
| `App.DispatchLogInOrder` | AutoInteractiveTool/MainPage.xaml.cs:180-205 | Lines 2i and 2i+1 of the loop's log are row i's preview and row i's outcome. So each row's outcome is logged before the next row starts. |
| `App.TwoRowsAllSucceed` | AutoInteractiveTool/MainPage.xaml.cs:180-212 | Two rows whose requests all get a 200 end as two successes and no error. |
| `App.TimeoutThenSuccess` | AutoInteractiveTool/MainPage.xaml.cs:180-212 | Take a first request that times out and a second that gets a 201. The first row is reported as (false, "Request timeout", 0), the second succeeds, and the run counts one of each. |

## Left out

- The spreadsheet library is not modelled: opening the file, how the library enumerates worksheets, and reading cells. The workbook arrives as a value or as the message of the exception that opening it threw. Releasing the package and the file is not modelled.
- The HTTP client, JSON serialisation, the 30-second timeout and `Dispose` are not modelled. What the client does with a request is the `send` parameter. A request-construction failure, such as an invalid URL, shows up as one of its exception outcomes.
- `Task.Delay(100)` after each row is timing only and is not modelled. The code waits after every row, including the last one.
- The progress bar fraction (floating point) and the progress label are not modelled. The labels, button texts, colours, `DisplayAlert`, the file-type filter, `FindByName` and `OnPropertyChanged` are not modelled either.
- Log timestamps (`DateTime.Now`) are not modelled. The log is a sequence of lines, not one `StringBuilder` text.
- async/await and interleaving are not modelled: each await is an ordinary call. The URL and token are read from the page's fields, and nothing changes them during a run.
- The runner receives the extractor's outcome rather than calling it. The page gets the extractor through dependency injection. `AutoInteractiveTool/MauiProgram.cs` only registers services and fonts and is not part of this model.
- `ExcelProcessor.IsValidExcelFile`: its own contract only states the blank-name case. The full characterisation is `IsValidExcelFileIffSuffix`. A `null` file name is not modelled; the picker never passes one.
- `App.Preview`: lengths count Unicode scalar values, where .NET counts UTF-16 code units. The two differ only for characters outside the Basic Multilingual Plane.
- `Text.ToLowerChar`: only A to Z are lower-cased. This is exact for comparing with ".xlsx" and ".xls", since those are ASCII.
- `Text.GetFileName` and `Text.ExtensionFrom` follow Windows path rules: both '\\' and '/' separate directories. On the app's iOS, Android and macOS targets '\\' is an ordinary character, so there `Path.GetFileName("/docs/a\\b.xlsx")` is "a\\b.xlsx" where the model gives "b.xlsx". This only changes the file name in the "Reading Excel file:" log line; the extension check is unaffected, since an ".xlsx" or ".xls" suffix holds no separator under either rule. Windows drive-relative roots such as "C:name" are not treated as separators either.
- `Text.IsWhiteSpace` follows Unicode's White_Space property, which is what `Char.IsWhiteSpace` uses.
- `App.MainPage.DispatchRow` takes the loop's starting log and all rows' results as ghost parameters, so that it can state the loop invariant's step. They change nothing at run time.

## Findings

| source | as written | input that shows it | evidently intended | confidence | as-written member | corrected member |
|---|---|---|---|---|---|---|
| ExcelProcessor.cs:36-44 | The loops run over rows `1..Dimension.Rows` and columns `1..Dimension.Columns`. `Rows` and `Columns` are the number of rows and columns the used range spans, not its last row and column. | A sheet whose only value is "x" in cell A2: the used range is A2:A2, so `Rows` is 1, only row 1 is read, and the result is an empty list. A sheet with "a" in B1 and "b" in C1: the used range is B1:C1, so `Columns` is 2, only columns A and B are read, and the result is ["a"] instead of ["a b"]. | Read every row of the used range, from its first row to its last (`Dimension.Start.Row..Dimension.End.Row`, and the same for columns). | not executed | `ExcelProcessor.AsWrittenSkipsOffsetRows`, `ExcelProcessor.AsWrittenSkipsOffsetColumns` | `ExcelProcessor.UsedRangeReadsEveryDataRow`, `ExcelProcessor.UsedRangeKeepsEveryCell` |
