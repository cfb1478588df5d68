/**
 * The reusable list controller `useCrudResource(endpoint, filters, options)`
 * (frontend/src/hooks/useCrudResource.js).  The hook's state variables are
 * the fields of a `CrudResource`; each setter that React would follow with
 * the `fetchItems` effect is a method that takes the outcome of that fetch.
 * `T` is the row type, `D` the request-body type.
 */
module CrudResource {
  import opened Wrappers
  import opened Text
  import opened ListQuery
  import opened Client
  import Pagination

  class CrudResource<T, D> {
    const endpoint: string
    const entityName: string
    const pageSize: int
    var filters: seq<(string, JsValue)>
    var items: seq<T>
    var loading: bool
    var page: int
    var totalCount: nat
    /** Everything sent to the API and every toast shown, in order. */
    var requests: seq<Request<D>>
    var toasts: seq<Toast>

    /** The hook's initial state, before the mount effect's first fetch. */
    constructor (endpoint: string, filters: seq<(string, JsValue)>, entityName: Option<string>, pageSize: Option<int>)
      requires pageSize.Some? ==> pageSize.value >= 1
      ensures this.endpoint == endpoint && this.filters == filters
      ensures this.entityName == entityName.GetOr("item") && this.pageSize == pageSize.GetOr(20)
      ensures items == [] && loading && page == 1 && totalCount == 0
      ensures requests == [] && toasts == []
    {
      this.endpoint := endpoint;
      this.filters := filters;
      this.entityName := entityName.GetOr("item");
      this.pageSize := pageSize.GetOr(20);
      items := [];
      loading := true;
      page := 1;
      totalCount := 0;
      requests := [];
      toasts := [];
    }

    /** `Math.ceil(totalCount / pageSize)`. */
    function TotalPages(): (t: nat)
      reads this
      requires pageSize >= 1
      ensures t * pageSize >= totalCount
      ensures t > 0 ==> (t - 1) * pageSize < totalCount
    {
      Pagination.TotalPages(totalCount, pageSize)
    }

    /** The query `fetchItems` sends for the current filters and page. */
    function Query(): seq<Param>
      reads this
    {
      SentFilters(filters) + PagingParams(page, pageSize)
    }

    /** The toast a fetch with this outcome shows. */
    function FetchToasts(resp: FetchResponse<T>): seq<Toast> {
      if resp.FetchFailed? then [Error("Failed to fetch " + entityName + "s")] else []
    }

    /**
     * `fetchItems`: one `GET` with the current query.  Success replaces the
     * rows and the count; failure keeps both and shows one error toast.
     * Either way `loading` ends false.
     */
    method Fetch(resp: FetchResponse<T>)
      modifies this
      ensures requests == old(requests) + [Get(endpoint, old(Query()))]
      ensures resp.FetchOk? ==> items == resp.data && totalCount == ParseTotal(resp.totalHeader)
      ensures resp.FetchFailed? ==> items == old(items) && totalCount == old(totalCount)
      ensures toasts == old(toasts) + FetchToasts(resp)
      ensures !loading
      ensures filters == old(filters) && page == old(page)
    {
      loading := true;
      var params := BuildParams(filters, page, pageSize);
      requests := requests + [Get(endpoint, params)];
      if resp.FetchOk? {
        items := resp.data;
        totalCount := ParseTotal(resp.totalHeader);
      } else {
        toasts := toasts + [Error("Failed to fetch " + entityName + "s")];
      }
      loading := false;
    }

    /**
     * The shared shape of `createItem`, `updateItem` and `deleteItem`: send
     * `req`; on success toast `message` and refetch;
     * on failure nothing else happens and the error is handed back.
     */
    method Mutate(req: Request<D>, message: string, outcome: Result<Option<T>, Failure>, refetch: FetchResponse<T>)
      returns (r: Result<Option<T>, Failure>)
      modifies this
      ensures r == outcome
      ensures outcome.Err? ==> requests == old(requests) + [req] && toasts == old(toasts)
      ensures outcome.Err? ==> items == old(items) && totalCount == old(totalCount) && loading == old(loading)
      ensures outcome.Ok? ==> requests == old(requests) + [req, Get(endpoint, old(Query()))]
      ensures outcome.Ok? ==> toasts == old(toasts) + [Success(message)] + FetchToasts(refetch)
      ensures outcome.Ok? && refetch.FetchOk? ==> items == refetch.data && totalCount == ParseTotal(refetch.totalHeader)
      ensures outcome.Ok? && refetch.FetchFailed? ==> items == old(items) && totalCount == old(totalCount)
      ensures outcome.Ok? ==> !loading
      ensures filters == old(filters) && page == old(page)
    {
      requests := requests + [req];
      r := outcome;
      if outcome.Ok? {
        toasts := toasts + [Success(message)];
        Fetch(refetch);
      }
    }

    /** `createItem(data)`: `POST endpoint`, returning the created row. */
    method CreateItem(data: D, outcome: Result<T, Failure>, refetch: FetchResponse<T>) returns (r: Result<T, Failure>)
      modifies this
      ensures r == outcome
      ensures outcome.Err? ==> requests == old(requests) + [Post(endpoint, data)] && toasts == old(toasts)
      ensures outcome.Err? ==> items == old(items) && totalCount == old(totalCount) && loading == old(loading)
      ensures outcome.Ok? ==> requests == old(requests) + [Post(endpoint, data), Get(endpoint, old(Query()))]
      ensures outcome.Ok? ==> toasts == old(toasts) + [Success(entityName + " created successfully")] + FetchToasts(refetch)
      ensures outcome.Ok? && refetch.FetchOk? ==> items == refetch.data && totalCount == ParseTotal(refetch.totalHeader)
      ensures outcome.Ok? && refetch.FetchFailed? ==> items == old(items) && totalCount == old(totalCount)
      ensures outcome.Ok? ==> !loading
      ensures filters == old(filters) && page == old(page)
    {
      var o := if outcome.Ok? then Ok(Some(outcome.value)) else Err(outcome.error);
      var m := Mutate(Post(endpoint, data), entityName + " created successfully", o, refetch);
      r := outcome;
    }

    /** `updateItem(id, data)`: `PUT endpoint/id`, returning the updated row. */
    method UpdateItem(id: string, data: D, outcome: Result<T, Failure>, refetch: FetchResponse<T>) returns (r: Result<T, Failure>)
      modifies this
      ensures r == outcome
      ensures outcome.Err? ==> requests == old(requests) + [Put(ItemPath(endpoint, id), data)] && toasts == old(toasts)
      ensures outcome.Err? ==> items == old(items) && totalCount == old(totalCount) && loading == old(loading)
      ensures outcome.Ok? ==> requests == old(requests) + [Put(ItemPath(endpoint, id), data), Get(endpoint, old(Query()))]
      ensures outcome.Ok? ==> toasts == old(toasts) + [Success(entityName + " updated successfully")] + FetchToasts(refetch)
      ensures outcome.Ok? && refetch.FetchOk? ==> items == refetch.data && totalCount == ParseTotal(refetch.totalHeader)
      ensures outcome.Ok? && refetch.FetchFailed? ==> items == old(items) && totalCount == old(totalCount)
      ensures outcome.Ok? ==> !loading
      ensures filters == old(filters) && page == old(page)
    {
      var o := if outcome.Ok? then Ok(Some(outcome.value)) else Err(outcome.error);
      var m := Mutate(Put(ItemPath(endpoint, id), data), entityName + " updated successfully", o, refetch);
      r := outcome;
    }

    /** `deleteItem(id)`: `DELETE endpoint/id`. */
    method DeleteItem(id: string, outcome: Result<(), Failure>, refetch: FetchResponse<T>) returns (r: Result<(), Failure>)
      modifies this
      ensures r == outcome
      ensures outcome.Err? ==> requests == old(requests) + [Delete(ItemPath(endpoint, id))] && toasts == old(toasts)
      ensures outcome.Err? ==> items == old(items) && totalCount == old(totalCount) && loading == old(loading)
      ensures outcome.Ok? ==> requests == old(requests) + [Delete(ItemPath(endpoint, id)), Get(endpoint, old(Query()))]
      ensures outcome.Ok? ==> toasts == old(toasts) + [Success(entityName + " deleted successfully")] + FetchToasts(refetch)
      ensures outcome.Ok? && refetch.FetchOk? ==> items == refetch.data && totalCount == ParseTotal(refetch.totalHeader)
      ensures outcome.Ok? && refetch.FetchFailed? ==> items == old(items) && totalCount == old(totalCount)
      ensures outcome.Ok? ==> !loading
      ensures filters == old(filters) && page == old(page)
    {
      var o := if outcome.Ok? then Ok(None) else Err(outcome.error);
      var m := Mutate(Delete(ItemPath(endpoint, id)), entityName + " deleted successfully", o, refetch);
      r := outcome;
    }

    /**
     * One `fetchItems` with query `q` answered by `resp`: the GET is logged;
     * the rows and the header count replace the list, or the failure toast
     * is shown and the list stays; `loading` ends false.
     */
    twostate predicate Refetched(q: seq<Param>, resp: FetchResponse<T>)
      reads this
    {
      && requests == old(requests) + [Get(endpoint, q)]
      && toasts == old(toasts) + FetchToasts(resp)
      && (resp.FetchOk? ==> items == resp.data && totalCount == ParseTotal(resp.totalHeader))
      && (resp.FetchFailed? ==> items == old(items) && totalCount == old(totalCount))
      && !loading
    }

    /** No request was sent and the list, its count, `loading` and the toasts are as they were. */
    twostate predicate ListKept()
      reads this
    {
      && requests == old(requests) && toasts == old(toasts)
      && items == old(items) && totalCount == old(totalCount) && loading == old(loading)
    }

    /** `setPage(p)`: the effect refetches only when the page actually changed. */
    method SetPage(p: int, resp: FetchResponse<T>)
      modifies this
      ensures page == p && filters == old(filters)
      ensures p == old(page) ==> ListKept()
      ensures p != old(page) ==> Refetched(SentFilters(filters) + PagingParams(p, pageSize), resp)
    {
      if p != page {
        page := p;
        Fetch(resp);
      }
    }

    /** `resetPage()`: back to page 1, refetching when the page was another one. */
    method ResetPage(resp: FetchResponse<T>)
      modifies this
      ensures page == 1 && filters == old(filters)
      ensures old(page) == 1 ==> ListKept()
      ensures old(page) != 1 ==> Refetched(SentFilters(filters) + PagingParams(1, pageSize), resp)
    {
      SetPage(1, resp);
    }

    /** A new `filters` object from the caller: the effect refetches when its contents differ. */
    method SetFilters(f: seq<(string, JsValue)>, resp: FetchResponse<T>)
      modifies this
      ensures filters == f && page == old(page)
      ensures f == old(filters) ==> ListKept()
      ensures f != old(filters) ==> Refetched(SentFilters(f) + PagingParams(page, pageSize), resp)
    {
      if f != filters {
        filters := f;
        Fetch(resp);
      }
    }
  }
}
