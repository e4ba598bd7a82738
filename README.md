# aiDoc console analysis — a Dafny model

aiDoc opens a web page in a browser and collects the browser's console
messages. It classifies every warning and error into one of six
categories: Authentication, Network, JavaScript, Resource, DOM or Other.
It counts the classified messages per category and prints them as
bordered blocks followed by a per-category summary. Optional analyses can
run alongside: a screenshot, the process's memory use, an axe-core
accessibility audit, the page's security headers, and its cookies and
local storage. Their results can be exported as a JSON or an HTML report.

This project models that decision logic in Dafny:

- `ErrorCategory` models the classifier.
  - It lower-cases the message, then tests five keyword groups in a fixed
    order; the first group with a matching substring wins.
  - The model is proved equal to an ordered first-match over a rule table.
  - It is proved insensitive to case.
  - Two quirks of the code are proved:
    - `failed to load resource` is caught by the Network group's
      `failed to load` before the Resource group is reached.
    - The DOM term `querySelector` keeps a capital `S`. The message it is
      tested against is already lower-cased, so it never matches.
- `ConsoleLog` models the aggregator as a class.
  - The class holds the stored entries, the category counters, and the
    counters' insertion order.
  - Its invariant ties the counters and their order to functions of the
    stored entries.
  - The counts are proved to add up to the number of warning and error
    entries.
  - The formatted text is proved to list the blocks in insertion order,
    then the summary in first-seen order, or the fallback sentence
    exactly when there is nothing to show.
- `AdvancedFeatures` models the optional analyses.
  - The gating flags are constants of the class, and `results` is its
    mutable map.
  - Each collaborator's answer is a parameter; `None` (or `false`) stands
    for a call that raised.
  - The proved properties cover:
    - which result keys `analyze` writes;
    - a disabled analysis (key absent) versus a failed one (key holding
      `None`);
    - the five-header projection of the security check;
    - how the export option selects the report format and the file name.
- `PageState` models the page snapshot and its 1000-character
  page-source excerpt.
- `Text` holds the string functions the code relies on: ASCII
  lower-casing, substring test, join, repetition, decimal rendering.
- `Colors` holds the ANSI colour codes.
- `Wrappers` holds an `Option` type.

Three behaviours of the code that a reader might not expect are modelled
as written:

- The DOM term `querySelector` can never match, whereas a lower-case
  `queryselector` would (aidoc/AiDoc.py:63).
- A significant entry without a timestamp is not skipped. The code raises
  a TypeError when it divides the default `''` by 1000
  (aidoc/AiDoc.py:84, 92). `GetFormattedLogs` answers `None` in that case.
- A message with `failed to load resource` is not always Network. An
  Authentication term in the same message wins first, so
  `FailedToLoadResourceIsNetwork` states both outcomes.

## Model

| member | source | states |
|---|---|---|
| ErrorCategory.Categorize | aidoc/AiDoc.py:53-65 | The if/elif chain over the lower-cased message; what it computes is stated by the lemmas below |
| ErrorCategory.CategorizeIsFirstMatch | aidoc/AiDoc.py:53-65 | The if/elif chain is the first match, in the order Authentication, Network, JavaScript, Resource, DOM, over the lower-cased message, with Other when nothing matches |
| ErrorCategory.FirstMatch | aidoc/AiDoc.py:55-65 | The first-match result is Other or the category of some rule |
| ErrorCategory.FirstMatchCons | aidoc/AiDoc.py:55-65 | A rule table is searched head first: its first rule wins when any of its terms occurs, otherwise the rest decides |
| ErrorCategory.FirstMatchChoosesRule | aidoc/AiDoc.py:55-65 | With distinct categories, rule k is chosen iff one of its terms occurs and no earlier rule's term does |
| ErrorCategory.FirstMatchOther | aidoc/AiDoc.py:65 | The search gives Other iff no rule has a term in the message |
| ErrorCategory.CategorizeChoosesFirstMatchingRule | aidoc/AiDoc.py:53-65 | `categorize` returns group k iff a term of group k occurs in the lower-cased message and no term of an earlier group does |
| ErrorCategory.CategorizeOtherIffNoMatch | aidoc/AiDoc.py:65 | `categorize` returns Other iff no keyword of any group occurs in the lower-cased message |
| ErrorCategory.CategorizeIgnoresCase | aidoc/AiDoc.py:54 | Two messages that differ only in the case of letters get the same category |
| ErrorCategory.CategorizeOfLower | aidoc/AiDoc.py:54 | Lower-casing a message first does not change its category |
| ErrorCategory.FailedToLoadResourceIsNetwork | aidoc/AiDoc.py:55-62 | A message containing "failed to load resource" is Authentication when it also has an authentication term, else Network, and never Resource |
| ErrorCategory.ResourceTermRedundant | aidoc/AiDoc.py:61 | The fourth Resource term adds nothing: the group matches iff one of its first three terms matches |
| ErrorCategory.QuerySelectorNeverMatches | aidoc/AiDoc.py:54-63 | "querySelector" never occurs in a lower-cased message |
| ErrorCategory.DomGroupEffectiveTerms | aidoc/AiDoc.py:63 | The DOM group matches iff "element", "node" or "document" occurs |
| ErrorCategory.QuerySelectorAloneIsOther | aidoc/AiDoc.py:54-65 | A message whose only keyword is "queryselector", in any case, is Other |
| ErrorCategory.UndefinedPropertyIsJavaScript | aidoc/AiDoc.py:53-65 | "Cannot read properties of undefined" is JavaScript |
| ErrorCategory.TypeErrorHasNoAuthenticationTerm | aidoc/AiDoc.py:55 | That message contains no authentication term |
| ErrorCategory.TypeErrorHasNoNetworkTerm | aidoc/AiDoc.py:57 | That message contains no network term |
| ErrorCategory.ConnectionRefusedIsNetwork | aidoc/AiDoc.py:53-65 | "net::ERR_CONNECTION_REFUSED" is Network |
| ErrorCategory.ConnectionRefusedHasNoAuthenticationTerm | aidoc/AiDoc.py:55 | That message contains no authentication term |
| ErrorCategory.PermissionDeniedIsAuthentication | aidoc/AiDoc.py:55-56 | Any message containing "401 permission denied" is Authentication, whatever else it contains |
| ConsoleLog.Significant | aidoc/AiDoc.py:74 | Only stored entries at level SEVERE, ERROR or WARNING are selected, and no more of them than are stored |
| ConsoleLog.SignificantComplete | aidoc/AiDoc.py:74 | Every stored entry at level SEVERE, ERROR or WARNING is selected |
| ConsoleLog.SignificantAppend | aidoc/AiDoc.py:73-74 | Selection keeps insertion order: the selection of two runs of entries is the first run's selection followed by the second's |
| ConsoleLog.CountsOf | aidoc/AiDoc.py:72-76 | The counters after adding each entry in turn; a counter is never zero |
| ConsoleLog.FirstSeen | aidoc/AiDoc.py:70-76 | The counters' keys in the order the categories were first counted; its properties are the lemmas below |
| ConsoleLog.CountAppend | aidoc/AiDoc.py:74-76 | Appending one entry raises the reference count of a category by one iff the entry is significant and of that category |
| ConsoleLog.CountsOfCountsEachCategory | aidoc/AiDoc.py:72-76 | Each counter equals the number of significant stored entries of its category, and a category has a counter iff that number is positive |
| ConsoleLog.FirstSeenListsKeys | aidoc/AiDoc.py:70-76 | The key order lists exactly the counted categories, each once |
| ConsoleLog.FirstSeenOnlyGrows | aidoc/AiDoc.py:76 | Later entries only append to the key order; a category's place never changes |
| ConsoleLog.FirstSeenEmpty | aidoc/AiDoc.py:70-76 | With no significant entry, the key order is empty |
| ConsoleLog.SumOfCountsIsSignificantCount | aidoc/AiDoc.py:72-76 | The counters add up to the number of significant stored entries |
| ConsoleLog.ConsoleLogHandler.constructor | aidoc/AiDoc.py:68-70 | A new handler has no entries and no counters |
| ConsoleLog.ConsoleLogHandler.AddLog | aidoc/AiDoc.py:72-76 | The entry is appended, earlier entries unchanged. A significant entry increments its category's counter from 0 if absent and appends a new category to the key order. Nothing else changes. The counters still add up to the number of significant entries |
| ConsoleLog.BlockLines | aidoc/AiDoc.py:88-94 | A block has seven lines |
| ConsoleLog.Blocks | aidoc/AiDoc.py:80-94 | The blocks of the stored entries have seven lines per significant entry |
| ConsoleLog.SummaryLines | aidoc/AiDoc.py:96-99 | The summary has one line per key |
| ConsoleLog.FormattedLines | aidoc/AiDoc.py:78-99 | The list holds seven lines per significant entry, then, when some category is counted, the heading and one line per key |
| ConsoleLog.Render | aidoc/AiDoc.py:101 | An empty list gives the fallback sentence; otherwise the text starts with the first line |
| ConsoleLog.BlocksInOrder | aidoc/AiDoc.py:80-94 | Lines 7k to 7k+6 are the block of the k-th significant entry, in insertion order |
| ConsoleLog.SummaryLinesInOrder | aidoc/AiDoc.py:96-99 | Summary line j names the j-th category of the key order with its count |
| ConsoleLog.RenderFallbackIffNothingSignificant | aidoc/AiDoc.py:96-101 | The text is the "No significant console logs found." sentence iff no significant entry is stored |
| ConsoleLog.ConsoleLogHandler.GetFormattedLogs | aidoc/AiDoc.py:78-101 | Fails (TypeError) iff a significant entry has no timestamp; otherwise the newline-joined blocks and summary, or the fallback sentence |
| ConsoleLog.ConsoleLogHandler.FormatBlocks | aidoc/AiDoc.py:80-94 | The first loop produces the blocks of all significant entries, or fails on the first one without a timestamp |
| ConsoleLog.ConsoleLogHandler.FormatSummary | aidoc/AiDoc.py:98-99 | The second loop produces one summary line per counter, in key order |
| ConsoleLog.CategorizationScenario | tests/test_aidoc.py:18-28 | After one SEVERE "Cannot read properties of undefined" entry, the counters are exactly {JavaScript: 1} |
| PageState.Excerpt | aidoc/AiDoc.py:303 | A page source of at most 1000 characters is kept whole; a longer one becomes its first 1000 characters followed by "..." |
| PageState.ExcerptIdempotent | aidoc/AiDoc.py:303 | Taking the excerpt of an excerpt changes nothing |
| PageState.CapturePageState | aidoc/AiDoc.py:298-328 | The snapshot carries the browser's URL, title, resource timings and script error records unchanged, with the excerpt of the source. A script error record is an `error` event (message, file, line, column, stack or null, time) or an unhandled rejection (its reason as any value, time), as the listeners of lines 330-352 push them |
| AdvancedFeatures.ScreenshotPath | aidoc/AiDoc.py:120-123 | The screenshot path lies under reports/screenshots/error_ and ends in .png |
| AdvancedFeatures.ScreenshotPathDeterminesCount | aidoc/AiDoc.py:122-123 | Screenshot names taken at the same time differ for different error counts |
| AdvancedFeatures.HeaderOr | aidoc/AiDoc.py:182-186 | `headers.get(name, 'Not Set')` on the case-insensitive header dictionary; stated through ProjectSecurityHeaders |
| AdvancedFeatures.ProjectSecurityHeaders | aidoc/AiDoc.py:181-187 | The keys are exactly the five security header names, each mapped to the response's value or "Not Set" |
| AdvancedFeatures.SecurityHeadersHasFiveKeys | aidoc/AiDoc.py:181-187 | The security report always has five entries |
| AdvancedFeatures.SecurityHeadersIgnoreOtherHeaders | aidoc/AiDoc.py:181-187 | A response header whose name, in any spelling, is none of the five does not change the report |
| AdvancedFeatures.SecurityHeaderLookupIgnoresCase | aidoc/AiDoc.py:179-187 | A header sent under any spelling of one of the five names is reported under that name, with the value sent |
| AdvancedFeatures.SecurityHeadersDependOnlyOnTheFive | aidoc/AiDoc.py:179-187 | Two responses that agree on the five (case-insensitive) names give the same report |
| AdvancedFeatures.ParseFormat | aidoc/AiDoc.py:245-256 | A recognised format lower-cases to its extension |
| AdvancedFeatures.ParseFormatInverse | aidoc/AiDoc.py:245-256 | An export format is recognised as JSON or HTML iff it lower-cases to "json" or "html" |
| AdvancedFeatures.ParseFormatOfExtension | aidoc/AiDoc.py:245-256 | "json" and "html" are recognised as their own formats |
| AdvancedFeatures.KeyInjective | aidoc/AiDoc.py:220-233 | The five analyses are stored under five different keys |
| AdvancedFeatures.Named | aidoc/AiDoc.py:220-253 | The report's `advanced_features` has a key "screenshots", "memory", "accessibility", "security" or "storage" exactly for each analysis in `results`, holding its value, and no other key |
| AdvancedFeatures.ReportPath | aidoc/AiDoc.py:246-259 | A report lies under reports/<extension>/ and ends in .<extension> |
| AdvancedFeatures.ReportPaths | aidoc/AiDoc.py:246-259 | The report is written to reports/json/report_<time>.json or reports/html/report_<time>.html |
| AdvancedFeatures.AdvancedFeatures.constructor | aidoc/AiDoc.py:104-112 | The flags and export format are those given, and no result is stored |
| AdvancedFeatures.AdvancedFeatures.CaptureScreenshot | aidoc/AiDoc.py:114-129 | None when disabled or when saving raises; otherwise reports/screenshots/error_<count>_<time>.png |
| AdvancedFeatures.AdvancedFeatures.GetMemoryUsage | aidoc/AiDoc.py:131-146 | None when disabled or when the process query raises; otherwise resident and virtual size in MiB (bytes / 1024 / 1024) and the percentage |
| AdvancedFeatures.AdvancedFeatures.CheckAccessibility | aidoc/AiDoc.py:148-169 | None when disabled or when axe-core raises; otherwise axe-core's result unchanged |
| AdvancedFeatures.AdvancedFeatures.AnalyzeSecurityHeaders | aidoc/AiDoc.py:171-192 | None when disabled or when the request raises; otherwise the five header names mapped to the response's value (looked up ignoring case) or "Not Set" |
| AdvancedFeatures.AdvancedFeatures.InspectStorage | aidoc/AiDoc.py:194-216 | None when disabled or when either browser call raises; otherwise the cookies and local storage items unchanged |
| AdvancedFeatures.AdvancedFeatures.Run | aidoc/AiDoc.py:220-233 | The value stored for an analysis, tagged by that analysis |
| AdvancedFeatures.AdvancedFeatures.Enrichment | aidoc/AiDoc.py:218-233 | Only enabled analyses get a key, each holding a value of its own analysis |
| AdvancedFeatures.AdvancedFeatures.Analyze | aidoc/AiDoc.py:218-233 | `results` gains exactly the entries of the enabled analyses, overwriting earlier values under the same keys and keeping every other key |
| AdvancedFeatures.AdvancedFeatures.EnrichmentKeys | aidoc/AiDoc.py:218-233 | A key is written iff its analysis is enabled, and for screenshots also some error category exists; its value is that analysis's answer, with the screenshot given the number of categories |
| AdvancedFeatures.AdvancedFeatures.RunNoneIffFails | aidoc/AiDoc.py:114-216 | An enabled analysis answers None iff its collaborator raised |
| AdvancedFeatures.AdvancedFeatures.StoredNoneMeansFailed | aidoc/AiDoc.py:114-233 | A key holding None means the analysis ran and failed; a missing key means it was disabled (or, for screenshots, no error was categorised) |
| AdvancedFeatures.AdvancedFeatures.NothingEnabledStoresNothing | aidoc/AiDoc.py:114-233 | With every flag off, every analysis answers None and `analyze` writes nothing |
| AdvancedFeatures.AdvancedFeatures.OnlyMemoryStoresMemory | aidoc/AiDoc.py:218-233 | With only memory monitoring on, "memory" is the one key written, holding a record when the process query succeeds |
| AdvancedFeatures.AdvancedFeatures.ScreenshotNamedByCategoryCount | aidoc/AiDoc.py:220-221 | The stored screenshot path names the number of distinct error categories |
| AdvancedFeatures.AdvancedFeatures.ExportResults | aidoc/AiDoc.py:235-296 | Nothing without a format (None or empty). A report of page info, the rendered console log text and the current results under their keys goes to the file of a format recognised ignoring case when the write succeeds. Failure otherwise |
| AdvancedFeatures.AdvancedFeatures.ExportedFileNamedByFormat | aidoc/AiDoc.py:245-259 | An exported file lies under reports/<format>/ and ends in .<format>, with the format lower-cased |
| AdvancedFeatures.ScreenshotScenario | tests/test_aidoc.py:30-40 | A screenshot for one error, whose save call returns, gets the path reports/screenshots/error_1_<time>.png |
| AdvancedFeatures.StorageScenario | tests/test_aidoc.py:55-66 | One cookie and one local storage item are reported with one cookie and one item |
| Text.Lower | aidoc/AiDoc.py:54 | `str.lower()`: same length, every ASCII capital replaced by its small letter, every other character kept |
| Text.Contains | aidoc/AiDoc.py:55 | `term in message`: some position of the message starts the term |
| Text.Join | aidoc/AiDoc.py:101 | `'\n'.join(...)`: a non-empty join starts with its first line |
| Text.JoinSnoc | aidoc/AiDoc.py:80-101 | Joining one more line gives the earlier join, the separator and that line: the text the appends of lines 88-99 build is the join of the list |
| Text.NatToString | aidoc/AiDoc.py:99 | `str(count)`: a non-empty string of decimal digits whose value is the count |

## Left out

- Lower-casing covers ASCII letters only; Python's `str.lower` also folds other alphabets. This changes some categories: Python lowers the Kelvin sign (U+212A) to an ASCII `k`, so "networ" followed by a Kelvin sign is Network in the program and Other in the model. Python also lowers U+0130 to two characters, which changes a message's length.
- Log entries are dictionaries whose keys may be missing (an `Option` per field). Values of an unexpected type, such as a non-string level, are not modelled.
- The timestamp text (`datetime.fromtimestamp(ms / 1000).strftime(...)[:-3]`) is a parameter of the formatter and always answers. `datetime.fromtimestamp` raises for a timestamp outside the platform's range, so `GetFormattedLogs` fails only for a missing timestamp, not for an out-of-range one. `datetime.now()` is a string in the environment.
- The insertion order of the `results` dictionary is not modelled: `results` is a map keyed by analysis. The stored values carry a tag naming their analysis.
- Memory sizes are exact reals; floating-point rounding is not modelled.
- Axe-core results are reduced to the URL and the violations. The printing of the violations is left out.
- Cookies are reduced to a name and a value.
- The page information exported is the snapshot of `capture_page_state`; the `load_time` entry that `main_impl` adds to it is left out with `main_impl`.
- The response's header dictionary is a map whose names are lower-cased, standing for the case-insensitive dictionary of the HTTP client.
- Collaborators (WebDriver, psutil, axe-core, requests, the file system) are not modelled; only their answers are, as parameters. `os.makedirs`, `open`, `json.dump` and the HTML template are reduced to "the write succeeds or raises". The report's content is the `Report` value.
- Console output (`print`, the colour codes' effect, the banner, `print_report`) is left out. The colour constants themselves appear in the formatted log text.
- The JavaScript snippets run in the browser (error listeners, resource timings, local storage) are left out. Their results enter as parameters.
- `inject_error_listeners`, `main` and `main_impl` (argument parsing, browser start-up, login, waiting, shutdown) are orchestration around the browser and are left out.
- The test at tests/test_aidoc.py:75-87 expects a screenshot after an HTML export, which `export_results` never takes; it is not modelled.
- PageState.CapturePageState: a rejection reason is a JSON-like `ScriptValue`. How the WebDriver converts a value that is not JSON (an `Error` object, a function, a DOM node) is not modelled, and line and column numbers are integers rather than JavaScript numbers.
- AdvancedFeatures.AdvancedFeatures.ExportResults: a format other than json or html ends in the failure message. In the code, `filename` is unbound in that case, and the NameError raised by the success message is caught. The command line only offers json and html.
