/**
 * `FetchResult`, what a web fetcher hands back: the HTTP status, the body
 * (or an error message), an optional content-type hint and an optional
 * error. The fetcher and opener interfaces themselves are abstract.
 */
module BrowserBase {
  import opened Wrappers

  datatype FetchResult = FetchResult(statusCode: int, text: string, contentType: Option<string>, error: Option<string>)

  /** The dataclass constructor with its defaults: no content type, no error. */
  function Fetched(statusCode: int, text: string): (r: FetchResult)
    ensures r.statusCode == statusCode && r.text == text && r.contentType.None? && r.error.None?
  {
    FetchResult(statusCode, text, None, None)
  }

  /** The `ok` property: a 2xx status and no error recorded. */
  predicate Ok(r: FetchResult) {
    200 <= r.statusCode < 300 && r.error.None?
  }

  /** A result without an error is ok exactly when its status is in the 2xx class. */
  lemma OkIsSuccessClass(r: FetchResult)
    ensures Ok(r) <==> r.error.None? && r.statusCode / 100 == 2
    ensures r.error.Some? ==> !Ok(r)
  {
  }

  /** The boundary cases: 200, 201 and 299 are ok; 199, 300 and 404 are not; an error spoils a 200. */
  lemma OkBoundaries(text: string, err: string)
    ensures Ok(Fetched(200, text)) && Ok(Fetched(201, text)) && Ok(Fetched(299, text))
    ensures !Ok(Fetched(199, text)) && !Ok(Fetched(300, text)) && !Ok(Fetched(404, text))
    ensures !Ok(Fetched(200, text).(error := Some(err)))
  {
  }
}
