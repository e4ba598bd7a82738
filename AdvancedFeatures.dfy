/**
 * The optional analyses (`AdvancedFeatures`, aidoc/AiDoc.py:103-296).
 *
 * Each analysis is switched on by its own flag and, when off, answers
 * `None`. `analyze` stores one result per enabled analysis in `results`;
 * a stored `None` means the analysis ran and its collaborator raised, an
 * absent key means the analysis did not run. `export_results` picks the
 * report format and file name from the export option.
 *
 * The browser, the operating system, axe-core and the HTTP client are
 * represented by an `Environment` value: what each of them answers during
 * one analysis, with `None` (or `false`) for a call that raises.
 */
module AdvancedFeatures {
  import opened Wrappers
  import opened Text
  import opened ErrorCategory
  import opened PageState

  datatype Feature = Screenshots | Memory | Accessibility | Security | Storage

  /** The key under which `analyze` stores a feature's result. */
  function Key(f: Feature): string {
    match f
    case Screenshots => "screenshots"
    case Memory => "memory"
    case Accessibility => "accessibility"
    case Security => "security"
    case Storage => "storage"
  }

  /** Different features are stored under different keys. */
  lemma KeyInjective(f: Feature, g: Feature)
    ensures Key(f) == Key(g) <==> f == g
  {
  }

  /** The results dictionary as the report holds it, under the keys of `analyze`. */
  function Named(results: map<Feature, Option<FeatureValue>>): (r: map<string, Option<FeatureValue>>)
    ensures forall f :: Key(f) in r <==> f in results
    ensures forall f | f in results :: r[Key(f)] == results[f]
    ensures forall k | k in r :: exists f :: f in results && k == Key(f)
  {
    map f | f in results :: Key(f) := results[f]
  }

  /** `process.memory_info()` (bytes) and `process.memory_percent()` */
  datatype ProcessMemory = ProcessMemory(rssBytes: nat, vmsBytes: nat, percent: real)

  /** The memory record of `get_memory_usage`, sizes in MiB. */
  datatype MemoryInfo = MemoryInfo(rss: real, vms: real, percent: real)

  datatype Violation = Violation(id: string, impact: string, description: string)

  /** The part of axe-core's result that the analysis reads. */
  datatype AxeReport = AxeReport(url: string, violations: seq<Violation>)

  datatype Cookie = Cookie(name: string, value: string)

  datatype StorageInfo = StorageInfo(cookies: seq<Cookie>, localStorage: map<string, string>)

  /** A stored analysis result, tagged by the analysis that produced it. */
  datatype FeatureValue =
    | ScreenshotFile(path: string)
    | MemoryUsage(memory: MemoryInfo)
    | AccessibilityReport(report: AxeReport)
    | SecurityHeaders(headers: map<string, string>)
    | StorageContents(storage: StorageInfo)

  /** The analysis that produced a stored result. */
  function Producer(v: FeatureValue): Feature {
    match v
    case ScreenshotFile(_) => Screenshots
    case MemoryUsage(_) => Memory
    case AccessibilityReport(_) => Accessibility
    case SecurityHeaders(_) => Security
    case StorageContents(_) => Storage
  }

  datatype Environment = Environment(
    now: string,                                    // datetime.now().strftime("%Y%m%d_%H%M%S")
    screenshotCallReturned: bool,                   // os.makedirs and save_screenshot return, whatever they answer
    process: Option<ProcessMemory>,
    axe: Option<AxeReport>,
    responseHeaders: Option<map<string, string>>,  // requests.get(url).headers, names lower-cased
    cookies: Option<seq<Cookie>>,
    localStorage: Option<map<string, string>>)

  /** The collaborator of `f` raises in `env`. */
  predicate Fails(f: Feature, env: Environment) {
    match f
    case Screenshots => !env.screenshotCallReturned
    case Memory => env.process.None?
    case Accessibility => env.axe.None?
    case Security => env.responseHeaders.None?
    case Storage => env.cookies.None? || env.localStorage.None?
  }

  const ScreenshotDir: string := "reports/screenshots"

  function ScreenshotPath(errorCount: nat, now: string): (path: string)
    ensures ScreenshotDir + "/error_" <= path
    ensures path[|path| - 4..] == ".png"
  {
    ScreenshotDir + "/error_" + NatToString(errorCount) + "_" + now + ".png"
  }

  /** The screenshot file name records the error count it was taken for. */
  lemma ScreenshotPathDeterminesCount(m: nat, n: nat, now: string)
    requires ScreenshotPath(m, now) == ScreenshotPath(n, now)
    ensures m == n
  {
    var prefix, suffix := ScreenshotDir + "/error_", "_" + now + ".png";
    var a, b := NatToString(m), NatToString(n);
    assert ScreenshotPath(m, now) == prefix + a + suffix;
    assert ScreenshotPath(n, now) == prefix + b + suffix;
    assert |a| == |b|;
    assert a == (prefix + a + suffix)[|prefix|..|prefix| + |a|];
    assert b == (prefix + b + suffix)[|prefix|..|prefix| + |b|];
  }

  const NotSet: string := "Not Set"

  const SecurityHeaderNames: seq<string> :=
    ["Strict-Transport-Security", "Content-Security-Policy", "X-Frame-Options",
     "X-Content-Type-Options", "X-XSS-Protection"]

  /**
   * `headers.get(name, 'Not Set')` on the response's case-insensitive header
   * dictionary, whose names are kept lower-cased here.
   */
  function HeaderOr(headers: map<string, string>, name: string): string {
    if Lower(name) in headers then headers[Lower(name)] else NotSet
  }

  /** The five security headers and what the response sent for each. */
  function ProjectSecurityHeaders(headers: map<string, string>): (r: map<string, string>)
    ensures r.Keys == set name | name in SecurityHeaderNames
    ensures forall name | name in r :: r[name] == HeaderOr(headers, name)
  {
    map name | name in SecurityHeaderNames :: HeaderOr(headers, name)
  }

  /** Exactly five names are reported, whatever the response sent. */
  lemma SecurityHeadersHasFiveKeys(headers: map<string, string>)
    ensures |ProjectSecurityHeaders(headers)| == 5
  {
    var r := ProjectSecurityHeaders(headers);
    var names := SecurityHeaderNames;
    assert r.Keys == {names[0], names[1], names[2], names[3], names[4]};
    assert |names[0]| == 25 && |names[1]| == 23 && |names[2]| == 15 && |names[3]| == 22 && |names[4]| == 16;
  }

  /**
   * A header sent under a name that is none of the five, in any spelling,
   * does not change the report.
   */
  lemma SecurityHeadersIgnoreOtherHeaders(headers: map<string, string>, name: string, value: string)
    requires forall reported | reported in SecurityHeaderNames :: Lower(reported) != Lower(name)
    ensures ProjectSecurityHeaders(headers[Lower(name) := value]) == ProjectSecurityHeaders(headers)
  {
    var before, after := ProjectSecurityHeaders(headers), ProjectSecurityHeaders(headers[Lower(name) := value]);
    forall reported | reported in SecurityHeaderNames
      ensures after[reported] == before[reported]
    {
      assert Lower(reported) in headers[Lower(name) := value] <==> Lower(reported) in headers;
    }
  }

  /** A header sent under any spelling of one of the five names is reported under that name. */
  lemma SecurityHeaderLookupIgnoresCase(headers: map<string, string>, name: string, spelling: string, value: string)
    requires name in SecurityHeaderNames && Lower(spelling) == Lower(name)
    ensures ProjectSecurityHeaders(headers[Lower(spelling) := value])[name] == value
  {
  }

  /** Two responses that send the same values for the five names give the same report. */
  lemma SecurityHeadersDependOnlyOnTheFive(a: map<string, string>, b: map<string, string>)
    requires forall reported | reported in SecurityHeaderNames ::
               (Lower(reported) in a <==> Lower(reported) in b) &&
               (Lower(reported) in a ==> a[Lower(reported)] == b[Lower(reported)])
    ensures ProjectSecurityHeaders(a) == ProjectSecurityHeaders(b)
  {
    var ra, rb := ProjectSecurityHeaders(a), ProjectSecurityHeaders(b);
    forall reported | reported in SecurityHeaderNames ensures ra[reported] == rb[reported] {
      assert HeaderOr(a, reported) == HeaderOr(b, reported);
    }
  }

  lemma MergeThenUpdate<K, V>(base: map<K, V>, written: map<K, V>, k: K, v: V)
    ensures (base + written)[k := v] == base + written[k := v]
  {
  }

  datatype ExportFormat = Json | Html

  function Extension(format: ExportFormat): string {
    match format
    case Json => "json"
    case Html => "html"
  }

  /** `export_format.lower() == 'json'` / `== 'html'` */
  function ParseFormat(s: string): (r: Option<ExportFormat>)
    ensures r.Some? ==> Lower(s) == Extension(r.value)
  {
    var format := Lower(s);
    if format == "json" then Some(Json) else if format == "html" then Some(Html) else None
  }

  /** A format is recognised exactly when it is its extension spelled in any case. */
  lemma ParseFormatInverse(s: string, format: ExportFormat)
    ensures ParseFormat(s) == Some(format) <==> Lower(s) == Extension(format)
  {
  }

  /** Every extension is recognised as its own format. */
  lemma ParseFormatOfExtension(format: ExportFormat)
    ensures ParseFormat(Extension(format)) == Some(format)
  {
    LowerIdempotent(Extension(format));
    assert Lower(Extension(format)) == Extension(format);
  }

  function ReportPath(format: ExportFormat, now: string): (path: string)
    ensures "reports/" + Extension(format) + "/" <= path
    ensures path[|path| - 5..] == "." + Extension(format)
  {
    "reports/" + Extension(format) + "/report_" + now + "." + Extension(format)
  }

  /** The two file names of `export_results`. */
  lemma ReportPaths(now: string)
    ensures ReportPath(Json, now) == "reports/json/report_" + now + ".json"
    ensures ReportPath(Html, now) == "reports/html/report_" + now + ".html"
  {
  }

  /**
   * What `export_results` writes: the page, the console logs and the
   * analysis results. The program passes the console logs as the text of
   * `get_formatted_logs`, colour codes included.
   */
  datatype Report = Report(pageInfo: PageInfo, consoleLogs: string, advancedFeatures: map<string, Option<FeatureValue>>)

  datatype ExportOutcome =
    | NotRequested
    | Exported(format: ExportFormat, path: string, report: Report)
    | ExportFailed  // the write raised, or the format is neither json nor html

  class AdvancedFeatures {
    const enableScreenshots: bool
    const enableMemory: bool
    const enableAccessibility: bool
    const enableSecurity: bool
    const enableStorage: bool
    const exportFormat: Option<string>
    var results: map<Feature, Option<FeatureValue>>

    /** Every flag defaults to off and the export format to none (`kwargs.get`). */
    constructor (enableScreenshots: bool := false, enableMemory: bool := false, enableAccessibility: bool := false,
                 enableSecurity: bool := false, enableStorage: bool := false, exportFormat: Option<string> := None)
      ensures this.enableScreenshots == enableScreenshots && this.enableMemory == enableMemory
      ensures this.enableAccessibility == enableAccessibility && this.enableSecurity == enableSecurity
      ensures this.enableStorage == enableStorage && this.exportFormat == exportFormat
      ensures results == map[]
    {
      this.enableScreenshots := enableScreenshots;
      this.enableMemory := enableMemory;
      this.enableAccessibility := enableAccessibility;
      this.enableSecurity := enableSecurity;
      this.enableStorage := enableStorage;
      this.exportFormat := exportFormat;
      results := map[];
    }

    predicate Enabled(f: Feature) {
      match f
      case Screenshots => enableScreenshots
      case Memory => enableMemory
      case Accessibility => enableAccessibility
      case Security => enableSecurity
      case Storage => enableStorage
    }

    /** `capture_screenshot(error_count)`: the saved file's path. */
    function CaptureScreenshot(errorCount: nat, env: Environment): (r: Option<string>)
      ensures r.Some? <==> enableScreenshots && env.screenshotCallReturned
      ensures r.Some? ==> r.value == ScreenshotPath(errorCount, env.now)
    {
      if !enableScreenshots then None
      else if env.screenshotCallReturned then Some(ScreenshotPath(errorCount, env.now))
      else None
    }

    /** `get_memory_usage`: resident and virtual size converted from bytes to MiB. */
    function GetMemoryUsage(env: Environment): (r: Option<MemoryInfo>)
      ensures r.Some? <==> enableMemory && env.process.Some?
      ensures r.Some? ==>
                && r.value.rss * 1048576.0 == env.process.value.rssBytes as real
                && r.value.vms * 1048576.0 == env.process.value.vmsBytes as real
                && r.value.percent == env.process.value.percent
    {
      if !enableMemory then None
      else match env.process
        case None => None
        case Some(p) => Some(MemoryInfo(p.rssBytes as real / 1024.0 / 1024.0, p.vmsBytes as real / 1024.0 / 1024.0, p.percent))
    }

    /** `check_accessibility`: axe-core's result, unchanged. */
    function CheckAccessibility(env: Environment): (r: Option<AxeReport>)
      ensures r.Some? <==> enableAccessibility && env.axe.Some?
      ensures r.Some? ==> r.value == env.axe.value
    {
      if !enableAccessibility then None else env.axe
    }

    /** `analyze_security_headers`: the five security headers of the current page's response. */
    function AnalyzeSecurityHeaders(env: Environment): (r: Option<map<string, string>>)
      ensures r.Some? <==> enableSecurity && env.responseHeaders.Some?
      ensures r.Some? ==> r.value.Keys == set name | name in SecurityHeaderNames
      ensures r.Some? ==>
                forall name | name in r.value ::
                  r.value[name] == if Lower(name) in env.responseHeaders.value then env.responseHeaders.value[Lower(name)]
                                   else NotSet
    {
      if !enableSecurity then None
      else match env.responseHeaders
        case None => None
        case Some(headers) => Some(ProjectSecurityHeaders(headers))
    }

    /** `inspect_storage`: the cookies and the local storage items, both or nothing. */
    function InspectStorage(env: Environment): (r: Option<StorageInfo>)
      ensures r.Some? <==> enableStorage && env.cookies.Some? && env.localStorage.Some?
      ensures r.Some? ==> r.value.cookies == env.cookies.value && r.value.localStorage == env.localStorage.value
    {
      if !enableStorage then None
      else match (env.cookies, env.localStorage)
        case (Some(cookies), Some(items)) => Some(StorageInfo(cookies, items))
        case _ => None
    }

    /** What `analyze` stores under the key of `f`. */
    function Run(f: Feature, errorCategories: map<Category, nat>, env: Environment): (r: Option<FeatureValue>)
      ensures r.Some? ==> Producer(r.value) == f
    {
      match f
      case Screenshots =>
        (match CaptureScreenshot(|errorCategories|, env) case Some(path) => Some(ScreenshotFile(path)) case None => None)
      case Memory =>
        (match GetMemoryUsage(env) case Some(info) => Some(MemoryUsage(info)) case None => None)
      case Accessibility =>
        (match CheckAccessibility(env) case Some(report) => Some(AccessibilityReport(report)) case None => None)
      case Security =>
        (match AnalyzeSecurityHeaders(env) case Some(headers) => Some(SecurityHeaders(headers)) case None => None)
      case Storage =>
        (match InspectStorage(env) case Some(info) => Some(StorageContents(info)) case None => None)
    }

    /** The entries `analyze` writes, one enabled analysis after the other. */
    function Enrichment(errorCategories: map<Category, nat>, env: Environment): (written: map<Feature, Option<FeatureValue>>)
      ensures forall f | f in written :: Enabled(f)
      ensures forall f | f in written && written[f].Some? :: Producer(written[f].value) == f
    {
      var none: map<Feature, Option<FeatureValue>> := map[];
      var screenshots := if enableScreenshots && errorCategories != map[] then none[Screenshots := Run(Screenshots, errorCategories, env)] else none;
      var memory := if enableMemory then screenshots[Memory := Run(Memory, errorCategories, env)] else screenshots;
      var accessibility := if enableAccessibility then memory[Accessibility := Run(Accessibility, errorCategories, env)] else memory;
      var security := if enableSecurity then accessibility[Security := Run(Security, errorCategories, env)] else accessibility;
      if enableStorage then security[Storage := Run(Storage, errorCategories, env)] else security
    }

    /**
     * `analyze(error_categories)`: run every enabled analysis and store its
     * result; screenshots are taken only when some error was categorised.
     */
    method Analyze(errorCategories: map<Category, nat>, env: Environment)
      modifies this
      ensures results == old(results) + Enrichment(errorCategories, env)
    {
      ghost var written: map<Feature, Option<FeatureValue>> := map[];
      assert results == old(results) + written;
      if enableScreenshots && errorCategories != map[] {
        results := results[Screenshots := Run(Screenshots, errorCategories, env)];
        MergeThenUpdate(old(results), written, Screenshots, Run(Screenshots, errorCategories, env));
        written := written[Screenshots := Run(Screenshots, errorCategories, env)];
      }
      if enableMemory {
        results := results[Memory := Run(Memory, errorCategories, env)];
        MergeThenUpdate(old(results), written, Memory, Run(Memory, errorCategories, env));
        written := written[Memory := Run(Memory, errorCategories, env)];
      }
      if enableAccessibility {
        results := results[Accessibility := Run(Accessibility, errorCategories, env)];
        MergeThenUpdate(old(results), written, Accessibility, Run(Accessibility, errorCategories, env));
        written := written[Accessibility := Run(Accessibility, errorCategories, env)];
      }
      if enableSecurity {
        results := results[Security := Run(Security, errorCategories, env)];
        MergeThenUpdate(old(results), written, Security, Run(Security, errorCategories, env));
        written := written[Security := Run(Security, errorCategories, env)];
      }
      if enableStorage {
        results := results[Storage := Run(Storage, errorCategories, env)];
        MergeThenUpdate(old(results), written, Storage, Run(Storage, errorCategories, env));
        written := written[Storage := Run(Storage, errorCategories, env)];
      }
      assert written == Enrichment(errorCategories, env);
    }

    /** `analyze` writes a key exactly for the enabled analyses, the screenshot only when some error was categorised. */
    lemma EnrichmentKeys(errorCategories: map<Category, nat>, env: Environment, f: Feature)
      ensures f in Enrichment(errorCategories, env) <==> Enabled(f) && (f == Screenshots ==> errorCategories != map[])
      ensures f in Enrichment(errorCategories, env) ==> Enrichment(errorCategories, env)[f] == Run(f, errorCategories, env)
    {
    }

    /** An analysis that ran stores `None` exactly when its collaborator raised. */
    lemma RunNoneIffFails(errorCategories: map<Category, nat>, env: Environment, f: Feature)
      requires Enabled(f)
      ensures Run(f, errorCategories, env).None? <==> Fails(f, env)
    {
    }

    /**
     * Disabled and failed are told apart: a key holding `None` means the
     * analysis ran and failed, a missing key means it did not run.
     */
    lemma StoredNoneMeansFailed(errorCategories: map<Category, nat>, env: Environment, f: Feature)
      ensures (f in Enrichment(errorCategories, env) && Enrichment(errorCategories, env)[f].None?) <==>
                (Enabled(f) && (f == Screenshots ==> errorCategories != map[]) && Fails(f, env))
    {
      EnrichmentKeys(errorCategories, env, f);
      if Enabled(f) {
        RunNoneIffFails(errorCategories, env, f);
      }
    }

    /**
     * With every analysis switched off, each analysis answers `None` and
     * `analyze` leaves `results` as it was.
     */
    lemma NothingEnabledStoresNothing(errorCategories: map<Category, nat>, env: Environment)
      requires !enableScreenshots && !enableMemory && !enableAccessibility && !enableSecurity && !enableStorage
      ensures CaptureScreenshot(|errorCategories|, env).None? && GetMemoryUsage(env).None?
      ensures CheckAccessibility(env).None? && AnalyzeSecurityHeaders(env).None? && InspectStorage(env).None?
      ensures Enrichment(errorCategories, env) == map[]
    {
    }

    /** With only memory monitoring on, the memory record is the one result stored. */
    lemma OnlyMemoryStoresMemory(errorCategories: map<Category, nat>, env: Environment)
      requires enableMemory && !enableScreenshots && !enableAccessibility && !enableSecurity && !enableStorage
      ensures Enrichment(errorCategories, env).Keys == {Memory}
      ensures env.process.Some? ==> Enrichment(errorCategories, env)[Memory].Some?
    {
      forall f ensures f in Enrichment(errorCategories, env) <==> f == Memory {
        EnrichmentKeys(errorCategories, env, f);
      }
    }

    /** The screenshot is named after the number of distinct error categories. */
    lemma ScreenshotNamedByCategoryCount(errorCategories: map<Category, nat>, env: Environment)
      requires enableScreenshots && errorCategories != map[] && env.screenshotCallReturned
      ensures Enrichment(errorCategories, env)[Screenshots] == Some(ScreenshotFile(ScreenshotPath(|errorCategories|, env.now)))
    {
      EnrichmentKeys(errorCategories, env, Screenshots);
    }

    /**
     * `export_results`: nothing without an export format; otherwise the
     * report goes to the JSON or HTML file named after the format and the
     * time, and any other format, or a failed write, ends in the failure
     * message.
     */
    function ExportResults(consoleLogs: string, pageInfo: PageInfo, now: string, written: bool): (r: ExportOutcome)
      reads this
      ensures r.NotRequested? <==> exportFormat.None? || exportFormat.value == ""
      ensures r.Exported? <==> exportFormat.Some? && ParseFormat(exportFormat.value).Some? && written
      ensures r.Exported? ==>
                && r.format == ParseFormat(exportFormat.value).value
                && r.path == ReportPath(r.format, now)
                && r.report == Report(pageInfo, consoleLogs, Named(results))
    {
      if exportFormat.None? || exportFormat.value == "" then NotRequested
      else match ParseFormat(exportFormat.value)
        case Some(format) =>
          if written then Exported(format, ReportPath(format, now), Report(pageInfo, consoleLogs, Named(results))) else ExportFailed
        case None => ExportFailed
    }

    /** The report file sits in the directory of its format and carries the format as its extension. */
    lemma ExportedFileNamedByFormat(consoleLogs: string, pageInfo: PageInfo, now: string, written: bool)
      requires ExportResults(consoleLogs, pageInfo, now, written).Exported?
      ensures var path, format := ExportResults(consoleLogs, pageInfo, now, written).path, Lower(exportFormat.value);
              && ("reports/" + format + "/") <= path
              && path[|path| - |format| - 1..] == "." + format
    {
      var r := ExportResults(consoleLogs, pageInfo, now, written);
      ParseFormatInverse(exportFormat.value, r.format);
    }
  }

  /** A saved screenshot for one error is named after that count. */
  method ScreenshotScenario(now: string) returns (path: Option<string>)
    ensures path == Some("reports/screenshots/error_1_" + now + ".png")
  {
    var features := new AdvancedFeatures(enableScreenshots := true);
    var env := Environment(now, true, None, None, None, None, None);
    path := features.CaptureScreenshot(1, env);
    assert NatToString(1) == "1";
    assert ScreenshotDir + "/error_" + "1" + "_" == "reports/screenshots/error_1_";
  }

  /** One cookie and one local storage item are reported as such. */
  method StorageScenario() returns (info: Option<StorageInfo>)
    ensures info.Some? && |info.value.cookies| == 1 && |info.value.localStorage| == 1
  {
    var features := new AdvancedFeatures(enableStorage := true);
    var env := Environment("", false, None, None, None, Some([Cookie("test", "value")]), Some(map["key" := "value"]));
    info := features.InspectStorage(env);
  }
}
