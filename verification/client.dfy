/**
 * What the React pages see of the outside world: the requests they send
 * through the shared axios instance, the responses that come back, and the
 * toasts they show.  A network call is a parameter of the handler that
 * makes it (the outcome the server and network chose).
 */
module Client {
  import opened Wrappers
  import opened Text
  import opened ListQuery

  /** A sonner toast, recorded in the order shown. */
  datatype Toast = Success(msg: string) | Error(msg: string)

  /** A request sent to the API; `B` is the page's request-body type. */
  datatype Request<B> =
    | Get(path: string, params: seq<Param>)
    | Post(path: string, body: B)
    | Put(path: string, body: B)
    | Delete(path: string)

  /** The outcome of a `GET` of a list: a failure, or the rows with the `x-total-count` header if sent. */
  datatype FetchResponse<T> = FetchFailed | FetchOk(data: seq<T>, totalHeader: Option<string>)

  /** A rejected request: its status and the server's `detail`, if any. */
  datatype Failure = Failure(status: nat, detail: Option<string>)

  /** `${endpoint}/${id}`. */
  function ItemPath(endpoint: string, id: string): string {
    endpoint + "/" + id
  }

  /**
   * `parseInt(response.headers['x-total-count'] || '0', 10)`: an absent or
   * empty header counts as `'0'`; leading white space is skipped and the
   * leading digits are read.  A header with no leading digits (NaN) is
   * read as 0 here.
   */
  function ParseTotal(header: Option<string>): (n: nat)
    ensures header.None? || header == Some("") ==> n == 0
  {
    var text := if header.None? || header.value == "" then "0" else header.value;
    match ParseIntPrefix(TrimStart(text))
    case Some(v) => v
    case None => 0
  }

  /** The count the backend writes with `str(total)` is the count the client reads. */
  lemma ParseTotalOfShow(n: nat)
    ensures ParseTotal(Some(ShowNat(n))) == n
  {
    assert ShowNat(n) != [];
    assert TrimStart(ShowNat(n)) == ShowNat(n);
    ParseShowRoundTrip(n);
  }
}
