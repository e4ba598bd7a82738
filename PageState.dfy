/**
 * The page snapshot of `capture_page_state` (aidoc/AiDoc.py:298-328): the
 * current URL and title, a bounded excerpt of the page source, and the
 * resource timings and script errors that the browser reports.
 */
module PageState {

  import opened Wrappers

  /** Longest page source kept verbatim. */
  const ExcerptLimit: nat := 1000

  /**
   * `page_source[:1000] + "..."` when the source is longer than 1000
   * characters, the whole source otherwise.
   */
  function Excerpt(pageSource: string): (r: string)
    ensures |pageSource| <= ExcerptLimit ==> r == pageSource
    ensures |pageSource| > ExcerptLimit ==>
              |r| == ExcerptLimit + 3 && pageSource[..ExcerptLimit] <= r && r[ExcerptLimit..] == "..."
    ensures |r| <= ExcerptLimit + 3
  {
    if |pageSource| > ExcerptLimit then pageSource[..ExcerptLimit] + "..." else pageSource
  }

  /** Taking the excerpt of an excerpt changes nothing more. */
  lemma ExcerptIdempotent(pageSource: string)
    ensures Excerpt(Excerpt(pageSource)) == Excerpt(pageSource)
  {
    var once := Excerpt(pageSource);
    if |pageSource| > ExcerptLimit {
      assert once[..ExcerptLimit] == pageSource[..ExcerptLimit];
    }
  }

  /** One entry of `performance.getEntriesByType("resource")`. */
  datatype ResourceTiming = ResourceTiming(
    name: string,
    duration: real,
    startTime: real,
    responseEnd: real,
    initiatorType: string)

  /**
   * A value as the browser hands it back from a script: `event.reason` of
   * an unhandled rejection may be any of these.
   */
  datatype ScriptValue =
    | Null
    | Boolean(b: bool)
    | Number(x: real)
    | Str(s: string)
    | Array(items: seq<ScriptValue>)
    | Object(fields: map<string, ScriptValue>)

  /**
   * One record of `window.jsErrors`, filled by the injected listeners
   * (aidoc/AiDoc.py:330-352); the constructor is the record's `type`.
   * An `error` event keeps the message, the script's file, line and column,
   * and the stack of its error object when there is one (`null` otherwise).
   * An `unhandledrejection` keeps the rejection reason, whatever its value.
   */
  datatype ScriptError =
    | ErrorEvent(message: string, filename: string, lineno: int, colno: int, stack: Option<string>, timestamp: string)
    | Rejection(reason: ScriptValue, timestamp: string)

  datatype PageInfo = PageInfo(
    url: string,
    title: string,
    pageSourceExcerpt: string,
    networkRequests: seq<ResourceTiming>,
    jsErrors: seq<ScriptError>)

  /**
   * `capture_page_state`: the browser's answers are the parameters; only
   * the page source is transformed.
   */
  function CapturePageState(currentUrl: string, title: string, pageSource: string,
                            networkRequests: seq<ResourceTiming>, jsErrors: seq<ScriptError>): (r: PageInfo)
    ensures r.url == currentUrl && r.title == title
    ensures r.pageSourceExcerpt == Excerpt(pageSource)
    ensures |r.pageSourceExcerpt| <= ExcerptLimit + 3
    ensures r.networkRequests == networkRequests && r.jsErrors == jsErrors
  {
    PageInfo(currentUrl, title, Excerpt(pageSource), networkRequests, jsErrors)
  }
}
