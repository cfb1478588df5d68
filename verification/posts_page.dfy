/**
 * The posts list (frontend/src/pages/PostsPage.js): its filtered, paged
 * fetch, the publish toggle and the create / edit / delete dialogs.
 */
module PostsPage {
  import opened Wrappers
  import opened Text
  import opened ListQuery
  import opened Client
  import opened TagComponents
  import Pagination

  /** A post as the API returns it. */
  datatype PostView = PostView(
    id: string, title: string, content: Option<string>, isPublished: bool, tags: Option<seq<TagView>>)

  /** The dialog's `formData`. */
  datatype PostForm = PostForm(title: string, content: string, isPublished: bool, tagIds: seq<string>)

  const EmptyForm := PostForm("", "", false, [])

  datatype PostBody = FullPost(form: PostForm) | PublishOnly(isPublished: bool)

  /** The fetch effect's dependencies (`search` is the debounced search box). */
  datatype PostFilters = PostFilters(search: string, published: bool, tag: string)

  const NoFilters := PostFilters("", false, "")

  /** `openEdit`'s form: a missing content becomes `''`, the tags become their ids (`[]` without tags). */
  function EditForm(n: PostView): (f: PostForm)
    ensures f.title == n.title && f.isPublished == n.isPublished
    ensures f.content == (if n.content.Some? then n.content.value else "")
    ensures f.tagIds == (if n.tags.Some? then Ids(n.tags.value) else [])
  {
    PostForm(n.title, if n.content.Some? then n.content.value else "", n.isPublished,
      if n.tags.Some? then Ids(n.tags.value) else [])
  }

  /** The query `fetchPosts` sends. */
  function Query(f: PostFilters, page: int): seq<Param> {
    PostsParams(f.search, f.published, f.tag, page)
  }

  function PostFetchToasts(resp: FetchResponse<PostView>): seq<Toast> {
    if resp.FetchFailed? then [Error("Failed to fetch posts")] else []
  }

  /** `PUT /posts/<id>` with the whole form. */
  function UpdateRequest(n: PostView, form: PostForm): Request<PostBody> {
    Put(ItemPath("/posts", n.id), FullPost(form))
  }

  /** `togglePublish`'s request: exactly `{is_published: !post.is_published}`. */
  function PublishRequest(n: PostView): (r: Request<PostBody>)
    ensures r.Put? && r.body == PublishOnly(!n.isPublished)
  {
    Put(ItemPath("/posts", n.id), PublishOnly(!n.isPublished))
  }

  class PostsPage {
    var posts: seq<PostView>
    var loading: bool
    var searchInput: string
    var filters: PostFilters
    var page: int
    var totalCount: nat
    var isCreateOpen: bool
    var isEditOpen: bool
    var isDeleteOpen: bool
    var selectedPost: Option<PostView>
    var formLoading: bool
    var formData: PostForm
    var requests: seq<Request<PostBody>>
    var toasts: seq<Toast>

    /** The initial state; `?search=` and `?published=true` may preset the filters. */
    constructor (search: string, publishedParam: Option<string>)
      ensures posts == [] && loading && searchInput == search
      ensures filters == PostFilters(search, publishedParam == Some("true"), "")
      ensures page == 1 && totalCount == 0 && selectedPost.None? && formData == EmptyForm
      ensures !isCreateOpen && !isEditOpen && !isDeleteOpen && !formLoading
      ensures requests == [] && toasts == []
    {
      posts := [];
      loading := true;
      searchInput := search;
      filters := PostFilters(search, publishedParam == Some("true"), "");
      page := 1;
      totalCount := 0;
      isCreateOpen := false;
      isEditOpen := false;
      isDeleteOpen := false;
      selectedPost := None;
      formLoading := false;
      formData := EmptyForm;
      requests := [];
      toasts := [];
    }

    /** `Math.ceil(totalCount / PAGE_SIZE)`. */
    function TotalPages(): (t: nat)
      reads this
      ensures t * PageSize >= totalCount
      ensures t > 0 ==> (t - 1) * PageSize < totalCount
    {
      Pagination.TotalPages(totalCount, PageSize)
    }

    /**
     * One `fetchPosts` with query `q` answered by `resp`: the GET is logged;
     * the rows and the header count replace the list, or the failure toast
     * is shown and the list stays.
     */
    twostate predicate Refetched(q: seq<Param>, resp: FetchResponse<PostView>)
      reads this
    {
      && requests == old(requests) + [Get("/posts", q)]
      && toasts == old(toasts) + PostFetchToasts(resp)
      && (resp.FetchOk? ==> posts == resp.data && totalCount == ParseTotal(resp.totalHeader))
      && (resp.FetchFailed? ==> posts == old(posts) && totalCount == old(totalCount))
      && !loading
    }

    /** No request was sent and the list, its count and the toasts are as they were. */
    twostate predicate ListKept()
      reads this
    {
      && requests == old(requests) && toasts == old(toasts)
      && posts == old(posts) && totalCount == old(totalCount) && loading == old(loading)
    }

    /** `fetchPosts`. */
    method Fetch(resp: FetchResponse<PostView>)
      modifies this`loading, this`requests, this`posts, this`totalCount, this`toasts
      ensures Refetched(Query(old(filters), old(page)), resp)
      ensures !loading
    {
      loading := true;
      requests := requests + [Get("/posts", Query(filters, page))];
      if resp.FetchOk? {
        posts := resp.data;
        totalCount := ParseTotal(resp.totalHeader);
      }
      toasts := toasts + PostFetchToasts(resp);
      loading := false;
    }

    /** A change to the fetch effect's dependencies: one fetch, only if some dependency changed. */
    method Apply(f: PostFilters, p: int, resp: FetchResponse<PostView>)
      modifies this`filters, this`page, this`loading, this`requests, this`posts, this`totalCount, this`toasts
      ensures filters == f && page == p && searchInput == old(searchInput)
      ensures f == old(filters) && p == old(page) ==> ListKept()
      ensures f != old(filters) || p != old(page) ==> Refetched(Query(f, p), resp)
      ensures formData == old(formData) && selectedPost == old(selectedPost)
    {
      var changed := f != filters || p != page;
      filters := f;
      page := p;
      if changed {
        Fetch(resp);
      }
    }

    method SetSearchInput(s: string)
      modifies this`searchInput
      ensures searchInput == s && filters == old(filters) && page == old(page)
      ensures requests == old(requests) && posts == old(posts)
    {
      searchInput := s;
    }

    /** The debounced `search` catching up with the search box. */
    method SearchSettled(resp: FetchResponse<PostView>)
      modifies this`filters, this`page, this`loading, this`requests, this`posts, this`totalCount, this`toasts
      ensures filters == old(filters).(search := old(searchInput)) && page == old(page)
      ensures old(filters.search) == old(searchInput) ==> ListKept()
      ensures old(filters.search) != old(searchInput) ==> Refetched(Query(filters, page), resp)
    {
      Apply(filters.(search := searchInput), page, resp);
    }

    /** The published filter button: `setPublishedFilter(!publishedFilter)`. */
    method TogglePublishedFilter(resp: FetchResponse<PostView>)
      modifies this`filters, this`page, this`loading, this`requests, this`posts, this`totalCount, this`toasts
      ensures filters == old(filters).(published := !old(filters.published)) && page == old(page)
      ensures Refetched(Query(filters, page), resp)
    {
      Apply(filters.(published := !filters.published), page, resp);
    }

    method SetTagFilter(v: string, resp: FetchResponse<PostView>)
      modifies this`filters, this`page, this`loading, this`requests, this`posts, this`totalCount, this`toasts
      ensures filters == old(filters).(tag := v) && page == old(page)
      ensures v == old(filters.tag) ==> ListKept()
      ensures v != old(filters.tag) ==> Refetched(Query(filters, page), resp)
    {
      Apply(filters.(tag := v), page, resp);
    }

    method SetPage(p: int, resp: FetchResponse<PostView>)
      modifies this`filters, this`page, this`loading, this`requests, this`posts, this`totalCount, this`toasts
      ensures page == p && filters == old(filters)
      ensures p == old(page) ==> ListKept()
      ensures p != old(page) ==> Refetched(Query(filters, p), resp)
    {
      Apply(filters, p, resp);
    }

    /** `clearFilters`: published off, tag and search box emptied, page 1. */
    method ClearFilters(resp: FetchResponse<PostView>)
      modifies this`searchInput, this`filters, this`page, this`loading, this`requests, this`posts, this`totalCount, this`toasts
      ensures searchInput == "" && page == 1
      ensures filters == NoFilters.(search := old(filters.search))
      ensures filters == old(filters) && old(page) == 1 ==> ListKept()
      ensures filters != old(filters) || old(page) != 1 ==> Refetched(Query(filters, 1), resp)
    {
      searchInput := "";
      Apply(NoFilters.(search := filters.search), 1, resp);
    }

    /** The `try` part shared by `handleCreate` and `handleUpdate`. */
    method Submit(req: Request<PostBody>, success: string, failure: string, outcome: Result<(), Failure>, refetch: FetchResponse<PostView>)
      modifies this`formLoading, this`requests, this`toasts, this`formData, this`selectedPost
      modifies this`loading, this`posts, this`totalCount
      ensures outcome.Ok? ==> requests == old(requests) + [req, Get("/posts", Query(old(filters), old(page)))]
      ensures outcome.Ok? ==> toasts == old(toasts) + [Success(success)] + PostFetchToasts(refetch)
      ensures outcome.Ok? ==> formData == EmptyForm && selectedPost.None?
      ensures outcome.Ok? && refetch.FetchOk? ==> posts == refetch.data && totalCount == ParseTotal(refetch.totalHeader)
      ensures outcome.Ok? && refetch.FetchFailed? ==> posts == old(posts) && totalCount == old(totalCount)
      ensures outcome.Err? ==> requests == old(requests) + [req] && toasts == old(toasts) + [Error(failure)]
      ensures outcome.Err? ==> formData == old(formData) && posts == old(posts) && selectedPost == old(selectedPost)
      ensures outcome.Err? ==> totalCount == old(totalCount) && loading == old(loading)
      ensures outcome.Ok? ==> !loading
      ensures !formLoading
    {
      formLoading := true;
      requests := requests + [req];
      if outcome.Ok? {
        toasts := toasts + [Success(success)];
        // resetForm()
        formData := EmptyForm;
        selectedPost := None;
        Fetch(refetch);
      } else {
        toasts := toasts + [Error(failure)];
      }
      formLoading := false;
    }

    /** `handleCreate`: a blank title is refused before any request, keeping the form. */
    method HandleCreate(outcome: Result<(), Failure>, refetch: FetchResponse<PostView>) returns (sent: bool)
      modifies this`formLoading, this`requests, this`toasts, this`formData, this`selectedPost, this`loading, this`posts, this`totalCount, this`isCreateOpen
      ensures sent <==> !IsBlank(old(formData.title))
      ensures !sent ==> formLoading == old(formLoading)
      ensures !sent || outcome.Err? ==> isCreateOpen == old(isCreateOpen) && formData == old(formData) && selectedPost == old(selectedPost)
      ensures !sent ==> requests == old(requests) && formData == old(formData) && posts == old(posts)
      ensures !sent || outcome.Err? ==> totalCount == old(totalCount) && loading == old(loading)
      ensures !sent ==> toasts == old(toasts) + [Error("Title is required")]
      ensures sent && outcome.Ok? ==> requests == old(requests) + [Post("/posts", FullPost(old(formData))), Get("/posts", Query(old(filters), old(page)))]
      ensures sent && outcome.Ok? ==> formData == EmptyForm && selectedPost.None? && !isCreateOpen
      ensures sent && outcome.Ok? ==> toasts == old(toasts) + [Success("Post created successfully")] + PostFetchToasts(refetch)
      ensures sent && outcome.Ok? && refetch.FetchOk? ==> posts == refetch.data && totalCount == ParseTotal(refetch.totalHeader)
      ensures sent && outcome.Ok? && refetch.FetchFailed? ==> posts == old(posts) && totalCount == old(totalCount)
      ensures sent && outcome.Ok? ==> !loading
      ensures sent && outcome.Err? ==> requests == old(requests) + [Post("/posts", FullPost(old(formData)))]
      ensures sent && outcome.Err? ==> posts == old(posts)
      ensures sent && outcome.Err? ==> formData == old(formData) && toasts == old(toasts) + [Error("Failed to create post")]
      ensures filters == old(filters) && page == old(page)
    {
      var blank := IsBlank(formData.title);
      sent := !blank;
      if blank {
        toasts := toasts + [Error("Title is required")];
      } else {
        Submit(Post("/posts", FullPost(formData)), "Post created successfully", "Failed to create post", outcome, refetch);
        if outcome.Ok? {
          isCreateOpen := false;
        }
      }
    }

    /** `handleUpdate`: like create, with `PUT /posts/<selected id>`; no selected post ends in the failure toast. */
    method HandleUpdate(outcome: Result<(), Failure>, refetch: FetchResponse<PostView>) returns (sent: bool)
      modifies this`formLoading, this`requests, this`toasts, this`formData, this`selectedPost, this`loading, this`posts, this`totalCount, this`isEditOpen
      ensures sent <==> !IsBlank(old(formData.title)) && old(selectedPost).Some?
      ensures IsBlank(old(formData.title)) ==> formLoading == old(formLoading)
      ensures !IsBlank(old(formData.title)) ==> !formLoading
      ensures !sent || outcome.Err? ==> isEditOpen == old(isEditOpen) && formData == old(formData) && selectedPost == old(selectedPost)
      ensures !sent ==> requests == old(requests) && formData == old(formData) && posts == old(posts)
      ensures !sent || outcome.Err? ==> totalCount == old(totalCount) && loading == old(loading)
      ensures !sent ==> toasts == old(toasts) + [Error(if IsBlank(old(formData.title)) then "Title is required" else "Failed to update post")]
      ensures sent && outcome.Ok? ==> requests == old(requests) + [UpdateRequest(old(selectedPost).value, old(formData)), Get("/posts", Query(old(filters), old(page)))]
      ensures sent && outcome.Ok? ==> formData == EmptyForm && selectedPost.None? && !isEditOpen
      ensures sent && outcome.Ok? ==> toasts == old(toasts) + [Success("Post updated successfully")] + PostFetchToasts(refetch)
      ensures sent && outcome.Ok? && refetch.FetchOk? ==> posts == refetch.data && totalCount == ParseTotal(refetch.totalHeader)
      ensures sent && outcome.Ok? && refetch.FetchFailed? ==> posts == old(posts) && totalCount == old(totalCount)
      ensures sent && outcome.Ok? ==> !loading
      ensures sent && outcome.Err? ==> requests == old(requests) + [UpdateRequest(old(selectedPost).value, old(formData))]
      ensures sent && outcome.Err? ==> posts == old(posts)
      ensures sent && outcome.Err? ==> formData == old(formData) && toasts == old(toasts) + [Error("Failed to update post")]
      ensures filters == old(filters) && page == old(page)
    {
      var blank := IsBlank(formData.title);
      sent := !blank && selectedPost.Some?;
      if blank {
        toasts := toasts + [Error("Title is required")];
      } else if selectedPost.None? {
        formLoading := true;
        toasts := toasts + [Error("Failed to update post")];
        formLoading := false;
      } else {
        Submit(UpdateRequest(selectedPost.value, formData), "Post updated successfully", "Failed to update post", outcome, refetch);
        if outcome.Ok? {
          isEditOpen := false;
        }
      }
    }

    /** `handleDelete`: success closes the dialog, clears the selection and refetches. */
    method HandleDelete(outcome: Result<(), Failure>, refetch: FetchResponse<PostView>)
      modifies this`formLoading, this`requests, this`toasts, this`isDeleteOpen, this`selectedPost
      modifies this`loading, this`posts, this`totalCount
      ensures old(selectedPost).None? ==>
        requests == old(requests) && posts == old(posts) && toasts == old(toasts) + [Error("Failed to delete post")]
      ensures old(selectedPost).Some? && outcome.Ok? ==>
        requests == old(requests) + [Delete(ItemPath("/posts", old(selectedPost).value.id)), Get("/posts", Query(old(filters), old(page)))]
        && selectedPost.None? && !isDeleteOpen
        && toasts == old(toasts) + [Success("Post deleted successfully")] + PostFetchToasts(refetch)
      ensures old(selectedPost).Some? && outcome.Ok? && refetch.FetchOk? ==>
        posts == refetch.data && totalCount == ParseTotal(refetch.totalHeader)
      ensures old(selectedPost).Some? && outcome.Ok? && refetch.FetchFailed? ==> posts == old(posts) && totalCount == old(totalCount)
      ensures old(selectedPost).Some? && outcome.Ok? ==> !loading
      ensures old(selectedPost).None? || outcome.Err? ==> totalCount == old(totalCount) && loading == old(loading)
      ensures old(selectedPost).None? || outcome.Err? ==> isDeleteOpen == old(isDeleteOpen) && selectedPost == old(selectedPost)
      ensures old(selectedPost).Some? && outcome.Err? ==>
        requests == old(requests) + [Delete(ItemPath("/posts", old(selectedPost).value.id))]
        && selectedPost == old(selectedPost) && posts == old(posts) && toasts == old(toasts) + [Error("Failed to delete post")]
      ensures !formLoading
    {
      formLoading := true;
      if selectedPost.None? {
        toasts := toasts + [Error("Failed to delete post")];
      } else {
        requests := requests + [Delete(ItemPath("/posts", selectedPost.value.id))];
        if outcome.Ok? {
          toasts := toasts + [Success("Post deleted successfully")];
          isDeleteOpen := false;
          selectedPost := None;
          Fetch(refetch);
        } else {
          toasts := toasts + [Error("Failed to delete post")];
        }
      }
      formLoading := false;
    }

    /**
     * `togglePublish(post)`: send the flipped flag; the success toast is
     * chosen by the flag as it was before the toggle, then the list is refetched.
     */
    method TogglePublish(post: PostView, outcome: Result<(), Failure>, refetch: FetchResponse<PostView>)
      modifies this`requests, this`toasts, this`loading, this`posts, this`totalCount
      ensures outcome.Ok? ==> requests == old(requests) + [PublishRequest(post), Get("/posts", Query(filters, page))]
      ensures outcome.Ok? && post.isPublished ==> toasts == old(toasts) + [Success("Post unpublished")] + PostFetchToasts(refetch)
      ensures outcome.Ok? && !post.isPublished ==> toasts == old(toasts) + [Success("Post published")] + PostFetchToasts(refetch)
      ensures outcome.Ok? && refetch.FetchOk? ==> posts == refetch.data && totalCount == ParseTotal(refetch.totalHeader)
      ensures outcome.Ok? && refetch.FetchFailed? ==> posts == old(posts) && totalCount == old(totalCount)
      ensures outcome.Ok? ==> !loading
      ensures outcome.Err? ==> totalCount == old(totalCount) && loading == old(loading)
      ensures outcome.Err? ==> requests == old(requests) + [PublishRequest(post)] && posts == old(posts)
      ensures outcome.Err? ==> toasts == old(toasts) + [Error("Failed to update post")]
    {
      requests := requests + [PublishRequest(post)];
      if outcome.Ok? {
        toasts := toasts + [Success(if post.isPublished then "Post unpublished" else "Post published")];
        Fetch(refetch);
      } else {
        toasts := toasts + [Error("Failed to update post")];
      }
    }

    /** `openEdit(post)`. */
    method OpenEdit(post: PostView)
      modifies this`selectedPost, this`formData, this`isEditOpen
      ensures selectedPost == Some(post) && formData == EditForm(post) && isEditOpen
      ensures posts == old(posts) && requests == old(requests) && filters == old(filters) && page == old(page)
    {
      selectedPost := Some(post);
      formData := EditForm(post);
      isEditOpen := true;
    }

    /** `openDelete(post)`. */
    method OpenDelete(post: PostView)
      modifies this`selectedPost, this`isDeleteOpen
      ensures selectedPost == Some(post) && isDeleteOpen
      ensures posts == old(posts) && requests == old(requests) && formData == old(formData)
    {
      selectedPost := Some(post);
      isDeleteOpen := true;
    }
  }
}
