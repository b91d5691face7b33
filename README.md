# Daily pothole report: a verified model

`daily-report-bt.py` reads a list of social-media posts and asks a remote
language model whether each one reports a pothole. It then prints the
ones that do as a summary. This project models the script's own logic in
Dafny and proves properties of it. It covers two pieces:

- **The classifier decision** (`analyze_post_for_pothole`, after the remote
  call). The model's answer is stripped, split into lines, and its first line
  is stripped and upper-cased.
  - When that line is `YES`, the summary
    `Reporter: <reporter>, Location: <location>, Link: <link>` is produced.
    The location is the stripped second line, or `Location Unclear` when
    there is no second line.
  - Any other answer gives `None`, and so does a failed remote call.
- **The main block.** An empty load prints "No posts loaded. Exiting." and
  stops. Otherwise the header is printed and the posts are walked in order.
  - A post carrying `text`, `reporter` and `link` is classified, and a truthy
    summary is collected.
  - A post missing a key is reported as skipped.
  - Finally each summary is printed as `- <summary>`, or "No pothole reports
    found in the provided posts." when none was collected.

Modules:

- `Wrappers` (`wrappers.dfy`): `Option`.
- `PyText` (`pytext.dfy`): the Python string built-ins the parser relies on.
  - `str.strip()` uses the whitespace set of `str.isspace()`.
  - `str.split` uses a one-character separator, with its inverse `Join`.
  - `str.upper()` is limited to ASCII letters.
- `PotholeClassifier` (`classifier.dfy`): the response parser and the decision.
  - The remote call is an `Outcome`: `Success(text)` or `Failure(message)`.
- `DailyReport` (`daily_report.dfy`): the main block, written as methods with
  loops.
  - Each method is proved against the recursive specification functions
    `ExpectedReports`, `ExpectedCalls`, `LoopLog` and `Closing`.
  - The classifier is a function-typed parameter. `PotholeAnalyzer(remote)`
    is the script's own classifier, built from a remote model
    `remote: string -> Outcome`.

## Model

| member | source | states |
|---|---|---|
| PyText.SkipSpace | daily-report-bt.py:64 | the index it returns is the first non-whitespace position at or after the start; everything skipped is whitespace |
| PyText.SkipSpaceBack | daily-report-bt.py:64 | the end it returns leaves only whitespace behind it and stops at a non-whitespace character or at the lower bound |
| PyText.Strip | daily-report-bt.py:64 | the stripped string is no longer than its input, and neither of its ends is whitespace |
| PyText.StripIsSlice | daily-report-bt.py:64 | the stripped string is a contiguous slice of the input, and everything cut away on either side is whitespace |
| PyText.StripPadded | daily-report-bt.py:64 | any whitespace around a string with non-whitespace ends is removed exactly: `strip(a + m + b) == m` |
| PyText.StripIdempotent | daily-report-bt.py:66 | stripping an already stripped line changes nothing |
| PyText.Split | daily-report-bt.py:64-66 | splitting on `'\n'` always gives at least one piece (so the `len(lines) >= 1` guard always holds); no piece contains the separator; joining the pieces gives the input back |
| PyText.JoinFirstSep | daily-report-bt.py:64 | in a join of separator-free pieces, the first piece is a prefix followed by the separator exactly when there is more than one piece |
| PyText.JoinInjective | daily-report-bt.py:64 | separator-free pieces are determined by their join |
| PyText.SplitJoin | daily-report-bt.py:64 | splitting the join of separator-free pieces gives those pieces back |
| PyText.ToUpper | daily-report-bt.py:66 | upper-casing keeps the length, maps each character in place, and leaves no lower-case ASCII letter |
| PotholeClassifier.UpperIsYes | daily-report-bt.py:66 | the modelled upper-casing gives `YES` (`ToUpper(w) == "YES"`) exactly when `w` is "yes" in some mix of ASCII cases |
| PotholeClassifier.SummaryText | daily-report-bt.py:68 | a summary is 30 characters longer than its three parts and starts with `Reporter: ` |
| PotholeClassifier.ParseResponse | daily-report-bt.py:64-70 | a produced summary is never empty and starts with `Reporter: ` |
| PotholeClassifier.ParseResponseByLines | daily-report-bt.py:64-70 | for any separator-free lines that join to the stripped answer, the result is the summary with the stripped second line (or `Location Unclear`) when the stripped first line is "yes" in any case, and `None` otherwise |
| PotholeClassifier.LinesAfter | daily-report-bt.py:64 | a first line without a break, followed by nothing or by a new line, is the first of the answer's lines; there is a second line exactly when something follows |
| PotholeClassifier.LinesOfTwo | daily-report-bt.py:64-67 | two break-free lines, followed by nothing or by a new line, are the first two of the answer's lines |
| PotholeClassifier.FirstLineDecides | daily-report-bt.py:66-70 | a summary is produced if and only if the first line of the stripped answer, stripped, is "yes" in some mix of cases; any other first line (`NO`, `MAYBE`, empty) gives `None` |
| PotholeClassifier.SecondLineIsLocation | daily-report-bt.py:67-68 | with a YES first line and a second line, the summary names the stripped second line as the location; later lines are ignored |
| PotholeClassifier.SingleYesLineIsUnclear | daily-report-bt.py:67-68 | a lone YES line gives the summary with the location `Location Unclear` |
| PotholeClassifier.Classify | daily-report-bt.py:62-74 | a failed remote call yields `None`; a produced summary is non-empty and starts with `Reporter: ` |
| PotholeClassifier.ErrorLog | daily-report-bt.py:72-73 | a failed call prints exactly one line, which ends with the exception's message; a successful call prints nothing |
| PotholeClassifier.FailureLooksNegative | daily-report-bt.py:66-74 | callers cannot tell a failed call from a negative answer: for every answer whose stripped first line is not "yes" in any case, success and failure both yield `None` |
| DailyReport.PotholeAnalyzer | daily-report-bt.py:36-74 | the script's classifier as the loop calls it: a failed remote call yields `None` and prints exactly one diagnostic, a successful one prints nothing, and every summary starts with `Reporter: `; see also `AnalyzerSummariesTruthy`, `FailedCallIgnored` and `AllFailuresNoReports` |
| DailyReport.Closing | daily-report-bt.py:127-131 | no reports give the single "none found" line; otherwise one `- <report>` line per report, in order |
| DailyReport.SayAll | daily-report-bt.py:73 | the printed lines are the diagnostics, one per line, in order |
| DailyReport.ReportLines | daily-report-bt.py:128-129 | one printed line `- <report>` per report, in order |
| DailyReport.HandlePost | daily-report-bt.py:119-124 | for one post: it is classified and its truthy summary kept only when it has the three keys; otherwise the skip warning is printed and nothing is called |
| DailyReport.CollectReports | daily-report-bt.py:115-124 | the loop's collected reports, classifier calls and printed diagnostics equal the recursive specifications over all posts |
| DailyReport.PrintReports | daily-report-bt.py:127-131 | the closing lines are one `- ` line per report, or the "none found" message when there are none |
| DailyReport.Run | daily-report-bt.py:108-131 | an empty load makes no classifier call and prints only "No posts loaded. Exiting."; otherwise the output is the header, the loop's diagnostics and the closing lines, and reports and calls match the specifications |
| DailyReport.Step | daily-report-bt.py:117-124 | one more post extends the reports, the calls and the log by exactly that post's share |
| DailyReport.OfOne | daily-report-bt.py:119-122 | a single post yields its own contribution and its own call |
| DailyReport.ReportsAppend | daily-report-bt.py:117-122 | the reports over two runs of posts are those of the first run followed by those of the second: encounter order is kept |
| DailyReport.CallsAppend | daily-report-bt.py:117-120 | the classifier calls over two runs of posts are those of the first run followed by those of the second |
| DailyReport.InsertOne | daily-report-bt.py:117-124 | a post between two runs adds exactly its own report and its own call, in place |
| DailyReport.SkippedPostIgnored | daily-report-bt.py:119-124 | a post missing a key changes neither the reports nor the calls, wherever it stands |
| DailyReport.NoneVerdictIgnored | daily-report-bt.py:120-122 | a post classified `None` adds no report, yet its call is still made |
| DailyReport.CallsComeFromPosts | daily-report-bt.py:119-120 | every classifier call is made with the text, reporter and link of some post that has all three keys |
| DailyReport.ReportsComeFromPosts | daily-report-bt.py:120-122 | every collected report is non-empty and is the summary the classifier gave for some post with the three keys |
| DailyReport.ReportsBounded | daily-report-bt.py:115-122 | there are never more reports than classifier calls, nor more calls than posts |
| DailyReport.AnalyzerSummariesTruthy | daily-report-bt.py:121 | with the script's classifier, `if summary:` keeps exactly the summaries that are not `None`, and each starts with `Reporter: ` |
| DailyReport.FailedCallIgnored | daily-report-bt.py:72-74 | with the script's classifier, a post whose remote call fails adds no report |
| DailyReport.AllFailuresNoReports | daily-report-bt.py:117-122 | with the script's classifier, when every remote call fails nothing is reported |
| DailyReport.NoReportsMessageIff | daily-report-bt.py:127-131 | on a non-empty load, the output ends with the "none found" message exactly when no report was collected |

## Left out

- The Gemini client is left out: `genai.configure`, the model object and its generation and safety settings (lines 14-33), and `generate_content` itself (line 63). It is a foreign network library. The call is modelled as a value `Success(text)` or `Failure(message)`, supplied as the function `remote`.
- Prompt construction (lines 49-60) is left out. The prompt only embeds the post text, so `remote` is a function of that text. The model therefore assumes that identical texts get identical answers, whereas a real remote model may answer differently each time.
- `load_posts_from_file` (lines 77-103) is file I/O and JSON decoding by a library. Posts are taken as a given sequence of maps from string keys to string values.
  - Non-object list elements are not modelled. The script does not skip them: for a number or `null`, the key test on line 119 raises `TypeError`; for a string or a list that passes that test (it contains the three keys as substrings or elements), the lookup on line 120 raises `TypeError` (one that fails the test is skipped with the warning). In the raising cases the whole run stops, unlike a record missing a key, which is only skipped.
  - Values that are not strings are not modelled.
  - The loader's own error messages are not modelled.
- The API-key placeholder check and the `exit()` calls (lines 8-12, 112) are environment and process control. `Run` simply returns after "No posts loaded. Exiting.".
- PyText.ToUpper upper-cases ASCII letters only. Python's `str.upper()` also maps some non-ASCII characters to ASCII letters (for example U+017F becomes `S`). Such an answer counts as YES in Python but not in the model.
- PyText.Strip uses exactly the code points for which Python's `str.isspace()` holds. It has no Unicode database beyond that list.
- DailyReport.SkippedPost carries the post itself instead of Python's rendering of the dictionary in the warning line.
- PotholeClassifier.Outcome carries an exception's message as an abstract string. Which exceptions the client raises, and how they render, is not modelled.
- The main block is one stretch of code in the script. Here it is split into `HandlePost`, `CollectReports` (the first loop), `PrintReports` (the second loop) and `Run`, which composes them.

