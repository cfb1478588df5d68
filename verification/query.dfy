/**
 * How the list pages turn their filter state into the query string of
 * `GET /<entity>?...`: the generic loop of useCrudResource.js and the
 * inline copies in TasksPage.js, NotesPage.js, PostsPage.js and
 * ActivityPage.js.  A query string is the sequence of `(key, value)`
 * pairs appended to a `URLSearchParams`, in order.
 */
module ListQuery {
  import opened Text

  datatype Param = Param(key: string, value: string)

  /** The filter values a JavaScript object can hold here. */
  datatype JsValue = JStr(s: string) | JBool(b: bool) | JNull

  predicate Truthy(v: JsValue) {
    match v
    case JStr(s) => s != []
    case JBool(b) => b
    case JNull => false
  }

  /** `value && value !== 'all'`. */
  predicate IsSent(v: JsValue) {
    Truthy(v) && v != JStr("all")
  }

  /** How `URLSearchParams.append` renders the value. */
  function ParamText(v: JsValue): string {
    match v
    case JStr(s) => s
    case JBool(b) => if b then "true" else "false"
    case JNull => "null"
  }

  /** The filter entries that are sent, in `Object.entries` order. */
  function SentFilters(filters: seq<(string, JsValue)>): seq<Param> {
    if filters == [] then []
    else
      (if IsSent(filters[0].1) then [Param(filters[0].0, ParamText(filters[0].1))] else [])
      + SentFilters(filters[1..])
  }

  /** `limit=pageSize&offset=(page-1)*pageSize`. */
  function PagingParams(page: int, pageSize: int): seq<Param> {
    [Param("limit", ShowInt(pageSize)), Param("offset", ShowInt((page - 1) * pageSize))]
  }

  /** All values sent under `key`, in order. */
  function ValuesOf(ps: seq<Param>, key: string): seq<string> {
    if ps == [] then []
    else (if ps[0].key == key then [ps[0].value] else []) + ValuesOf(ps[1..], key)
  }

  lemma {:induction false} ValuesOfAppend(a: seq<Param>, b: seq<Param>, key: string)
    ensures ValuesOf(a + b, key) == ValuesOf(a, key) + ValuesOf(b, key)
  {
    if a == [] {
      assert a + b == b;
    } else {
      assert (a + b)[1..] == a[1..] + b;
      ValuesOfAppend(a[1..], b, key);
    }
  }

  lemma {:induction false} SentFiltersAppend(a: seq<(string, JsValue)>, x: (string, JsValue))
    ensures SentFilters(a + [x]) ==
      SentFilters(a) + (if IsSent(x.1) then [Param(x.0, ParamText(x.1))] else [])
  {
    var last := if IsSent(x.1) then [Param(x.0, ParamText(x.1))] else [];
    if a == [] {
      assert a + [x] == [x] && [x][1..] == [];
      assert SentFilters([x]) == last + SentFilters([]);
    } else {
      var head := if IsSent(a[0].1) then [Param(a[0].0, ParamText(a[0].1))] else [];
      assert (a + [x])[0] == a[0] && (a + [x])[1..] == a[1..] + [x];
      assert SentFilters(a + [x]) == head + SentFilters(a[1..] + [x]);
      SentFiltersAppend(a[1..], x);
      assert SentFilters(a) == head + SentFilters(a[1..]);
      assert head + (SentFilters(a[1..]) + last) == (head + SentFilters(a[1..])) + last;
    }
  }

  /**
   * `fetchItems` of useCrudResource: append every sent filter entry, then
   * `limit` and `offset`.
   */
  method BuildParams(filters: seq<(string, JsValue)>, page: int, pageSize: int)
    returns (params: seq<Param>)
    ensures params == SentFilters(filters) + PagingParams(page, pageSize)
  {
    params := [];
    var i := 0;
    while i < |filters|
      invariant 0 <= i <= |filters|
      invariant params == SentFilters(filters[..i])
    {
      var (key, value) := filters[i];
      assert filters[..i + 1] == filters[..i] + [filters[i]];
      SentFiltersAppend(filters[..i], filters[i]);
      if value.JStr? && value.s != [] && value.s != "all" {
        params := params + [Param(key, value.s)];
      } else if value.JBool? && value.b {
        params := params + [Param(key, "true")];
      }
      i := i + 1;
    }
    assert filters[..i] == filters;
    params := params + [Param("limit", ShowInt(pageSize))];
    params := params + [Param("offset", ShowInt((page - 1) * pageSize))];
  }

  /** A filter entry is sent, with its rendered value, exactly when it is truthy and not `'all'`. */
  lemma {:induction false} SentFiltersMembership(filters: seq<(string, JsValue)>, p: Param)
    ensures p in SentFilters(filters) <==>
      exists i :: 0 <= i < |filters| && filters[i].0 == p.key && IsSent(filters[i].1)
        && ParamText(filters[i].1) == p.value
  {
    if filters != [] {
      SentFiltersMembership(filters[1..], p);
      if p in SentFilters(filters[1..]) {
        var i :| 0 <= i < |filters[1..]| && filters[1..][i].0 == p.key && IsSent(filters[1..][i].1)
          && ParamText(filters[1..][i].1) == p.value;
        assert filters[i + 1] == filters[1..][i];
      }
      if exists i :: (0 <= i < |filters| && filters[i].0 == p.key && IsSent(filters[i].1)
                      && ParamText(filters[i].1) == p.value)
      {
        var i :| 0 <= i < |filters| && filters[i].0 == p.key && IsSent(filters[i].1)
          && ParamText(filters[i].1) == p.value;
        if i > 0 {
          assert filters[1..][i - 1] == filters[i];
        }
      }
    }
  }

  lemma ValuesOfSingle(p: Param, key: string)
    ensures ValuesOf([p], key) == (if p.key == key then [p.value] else [])
  {
    assert [p][1..] == [];
  }

  /** What the paging suffix carries under each key. */
  lemma PagingParamsValues(page: int, pageSize: int, key: string)
    ensures ValuesOf(PagingParams(page, pageSize), key) ==
      (if key == "limit" then [ShowInt(pageSize)] else [])
      + (if key == "offset" then [ShowInt((page - 1) * pageSize)] else [])
  {
    var l, o := Param("limit", ShowInt(pageSize)), Param("offset", ShowInt((page - 1) * pageSize));
    assert PagingParams(page, pageSize) == [l] + [o];
    ValuesOfAppend([l], [o], key);
    ValuesOfSingle(l, key);
    ValuesOfSingle(o, key);
  }

  // ---- the inline copies of the list pages (page size 20) ----

  const PageSize: int := 20

  /** `if (v && v !== 'all') params.append(key, v)` for a string filter. */
  function OptionalFilter(key: string, v: string): seq<Param> {
    if v != [] && v != "all" then [Param(key, v)] else []
  }

  /** `if (v) params.append(key, v)`: the search box, where `'all'` is an ordinary word. */
  function OptionalSearch(v: string): seq<Param> {
    if v != [] then [Param("search", v)] else []
  }

  /** `if (flag) params.append(key, 'true')`. */
  function OptionalFlag(key: string, flag: bool): seq<Param> {
    if flag then [Param(key, "true")] else []
  }

  /** `fetchTasks` (TasksPage.js). */
  function TasksParams(search: string, status: string, priority: string, tag: string, page: int): seq<Param> {
    OptionalSearch(search) + OptionalFilter("status", status) + OptionalFilter("priority", priority)
      + OptionalFilter("tag_id", tag) + PagingParams(page, PageSize)
  }

  /** `fetchNotes` (NotesPage.js). */
  function NotesParams(search: string, pinned: bool, color: string, tag: string, page: int): seq<Param> {
    OptionalSearch(search) + OptionalFlag("is_pinned", pinned) + OptionalFilter("color", color)
      + OptionalFilter("tag_id", tag) + PagingParams(page, PageSize)
  }

  /** `fetchPosts` (PostsPage.js). */
  function PostsParams(search: string, published: bool, tag: string, page: int): seq<Param> {
    OptionalSearch(search) + OptionalFlag("is_published", published) + OptionalFilter("tag_id", tag)
      + PagingParams(page, PageSize)
  }

  lemma OptionalFilterValues(k: string, v: string, key: string)
    ensures ValuesOf(OptionalFilter(k, v), key) == (if k == key && v != [] && v != "all" then [v] else [])
  {
    if v != [] && v != "all" {
      ValuesOfSingle(Param(k, v), key);
    }
  }

  lemma OptionalSearchValues(v: string, key: string)
    ensures ValuesOf(OptionalSearch(v), key) == (if key == "search" && v != [] then [v] else [])
  {
    if v != [] {
      ValuesOfSingle(Param("search", v), key);
    }
  }

  lemma OptionalFlagValues(k: string, flag: bool, key: string)
    ensures ValuesOf(OptionalFlag(k, flag), key) == (if k == key && flag then ["true"] else [])
  {
    if flag {
      ValuesOfSingle(Param(k, "true"), key);
    }
  }

  lemma ValuesOfConcat4(a: seq<Param>, b: seq<Param>, c: seq<Param>, d: seq<Param>, key: string)
    ensures ValuesOf(a + b + c + d, key) == ValuesOf(a, key) + ValuesOf(b, key) + ValuesOf(c, key) + ValuesOf(d, key)
  {
    ValuesOfAppend(a + b + c, d, key);
    ValuesOfAppend(a + b, c, key);
    ValuesOfAppend(a, b, key);
  }

  /**
   * What a task-list query carries under any `key`: the search term when it
   * is not empty, each filter when set and not `'all'`, then one `limit` and
   * one `offset`.
   */
  lemma TasksQuery(search: string, status: string, priority: string, tag: string, page: int, key: string)
    ensures ValuesOf(TasksParams(search, status, priority, tag, page), key) ==
      (if key == "search" && search != [] then [search] else [])
      + (if key == "status" && status != [] && status != "all" then [status] else [])
      + (if key == "priority" && priority != [] && priority != "all" then [priority] else [])
      + (if key == "tag_id" && tag != [] && tag != "all" then [tag] else [])
      + (if key == "limit" then [ShowInt(PageSize)] else [])
      + (if key == "offset" then [ShowInt((page - 1) * PageSize)] else [])
  {
    var a, b, c, d, e := OptionalSearch(search), OptionalFilter("status", status), OptionalFilter("priority", priority),
      OptionalFilter("tag_id", tag), PagingParams(page, PageSize);
    ValuesOfAppend(a + b + c + d, e, key);
    ValuesOfConcat4(a, b, c, d, key);
    OptionalSearchValues(search, key);
    OptionalFilterValues("status", status, key);
    OptionalFilterValues("priority", priority, key);
    OptionalFilterValues("tag_id", tag, key);
    PagingParamsValues(page, PageSize, key);
  }

  /** What a note-list query carries under any `key`: `is_pinned` is `'true'` when on and is never sent as `'false'`. */
  lemma NotesQuery(search: string, pinned: bool, color: string, tag: string, page: int, key: string)
    ensures ValuesOf(NotesParams(search, pinned, color, tag, page), key) ==
      (if key == "search" && search != [] then [search] else [])
      + (if key == "is_pinned" && pinned then ["true"] else [])
      + (if key == "color" && color != [] && color != "all" then [color] else [])
      + (if key == "tag_id" && tag != [] && tag != "all" then [tag] else [])
      + (if key == "limit" then [ShowInt(PageSize)] else [])
      + (if key == "offset" then [ShowInt((page - 1) * PageSize)] else [])
  {
    var a, b, c, d, e := OptionalSearch(search), OptionalFlag("is_pinned", pinned), OptionalFilter("color", color),
      OptionalFilter("tag_id", tag), PagingParams(page, PageSize);
    ValuesOfAppend(a + b + c + d, e, key);
    ValuesOfConcat4(a, b, c, d, key);
    OptionalSearchValues(search, key);
    OptionalFlagValues("is_pinned", pinned, key);
    OptionalFilterValues("color", color, key);
    OptionalFilterValues("tag_id", tag, key);
    PagingParamsValues(page, PageSize, key);
  }

  /** What a post-list query carries under any `key`: `is_published` is `'true'` when on and is never sent as `'false'`. */
  lemma PostsQuery(search: string, published: bool, tag: string, page: int, key: string)
    ensures ValuesOf(PostsParams(search, published, tag, page), key) ==
      (if key == "search" && search != [] then [search] else [])
      + (if key == "is_published" && published then ["true"] else [])
      + (if key == "tag_id" && tag != [] && tag != "all" then [tag] else [])
      + (if key == "limit" then [ShowInt(PageSize)] else [])
      + (if key == "offset" then [ShowInt((page - 1) * PageSize)] else [])
  {
    var a, b, c, e := OptionalSearch(search), OptionalFlag("is_published", published), OptionalFilter("tag_id", tag),
      PagingParams(page, PageSize);
    ValuesOfConcat4(a, b, c, e, key);
    OptionalSearchValues(search, key);
    OptionalFlagValues("is_published", published, key);
    OptionalFilterValues("tag_id", tag, key);
    PagingParamsValues(page, PageSize, key);
  }

  /** The activity feed's query string: `?entity_type=<filter>` unless the filter is `'all'`. */
  function ActivityQuery(filter: string): (q: string)
    ensures q == [] <==> filter == "all"
    ensures filter != "all" ==> StartsWith(q, "?entity_type=") && q[|"?entity_type="|..] == filter
  {
    if filter != "all" then "?entity_type=" + filter else ""
  }
}
