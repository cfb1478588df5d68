/**
 * The task board (frontend/src/pages/TasksPage.js): its filtered, paged
 * fetch, drag-and-drop reordering, the quick status change with rollback,
 * and the create / edit / delete dialogs.
 */
module TasksPage {
  import opened Wrappers
  import opened Text
  import opened ListQuery
  import opened Client
  import opened TagComponents
  import Pagination

  /** A task as the API returns it. Dates are kept as the ISO strings the API sends. */
  datatype TaskView = TaskView(
    id: string, title: string, description: Option<string>, status: string, priority: string,
    dueDate: Option<string>, tags: Option<seq<TagView>>)

  /** The dialog's `formData`. */
  datatype TaskForm = TaskForm(
    title: string, description: string, status: string, priority: string,
    dueDate: Option<string>, tagIds: seq<string>)

  const EmptyForm := TaskForm("", "", "todo", "medium", None, [])

  /** The bodies this page sends. */
  datatype TaskBody = FullTask(form: TaskForm) | StatusOnly(status: string) | ReorderBody(taskIds: seq<string>)

  /** The filter values the fetch effect depends on (`search` is the debounced search box). */
  datatype TaskFilters = TaskFilters(search: string, status: string, priority: string, tag: string)

  const NoFilters := TaskFilters("", "", "", "")

  // ---- arrayMove and the status rewrite ----

  /** `s` without the element at `i`. */
  function RemoveAt<T>(s: seq<T>, i: nat): (r: seq<T>)
    requires i < |s|
    ensures |r| == |s| - 1
    ensures forall k :: 0 <= k < i ==> r[k] == s[k]
    ensures forall k :: i <= k < |r| ==> r[k] == s[k + 1]
  {
    s[..i] + s[i + 1..]
  }

  /** `x` inserted into `s` so that it lands at index `i`. */
  function InsertAt<T>(s: seq<T>, i: nat, x: T): (r: seq<T>)
    requires i <= |s|
    ensures |r| == |s| + 1 && r[i] == x
    ensures RemoveAt(r, i) == s
  {
    var r := s[..i] + [x] + s[i..];
    assert RemoveAt(r, i) == s;
    r
  }

  /** dnd-kit's `arrayMove(s, from, to)`: `splice` the element out at `from` and back in at `to`. */
  function ArrayMove<T>(s: seq<T>, from: nat, to: nat): seq<T>
    requires from < |s| && to < |s|
  {
    InsertAt(RemoveAt(s, from), to, s[from])
  }

  /** The move is a permutation: same length, same elements, the moved one at `to`, the others in their old order. */
  lemma ArrayMoveIsMove<T>(s: seq<T>, from: nat, to: nat)
    requires from < |s| && to < |s|
    ensures |ArrayMove(s, from, to)| == |s|
    ensures multiset(ArrayMove(s, from, to)) == multiset(s)
    ensures ArrayMove(s, from, to)[to] == s[from]
    ensures RemoveAt(ArrayMove(s, from, to), to) == RemoveAt(s, from)
  {
    var r := RemoveAt(s, from);
    assert s == s[..from] + [s[from]] + s[from + 1..];
    assert r == s[..from] + s[from + 1..];
    assert multiset(s) == multiset(r) + multiset{s[from]};
    var m := ArrayMove(s, from, to);
    assert m == r[..to] + [s[from]] + r[to..];
    assert r == r[..to] + r[to..];
    assert multiset(m) == multiset(r) + multiset{s[from]};
  }

  /** Moving an element to where it already is changes nothing. */
  lemma ArrayMoveInPlace<T>(s: seq<T>, i: nat)
    requires i < |s|
    ensures ArrayMove(s, i, i) == s
  {
    assert s == s[..i] + [s[i]] + s[i + 1..];
  }

  function TaskIds(ts: seq<TaskView>): (r: seq<string>)
    ensures |r| == |ts| && forall i :: 0 <= i < |ts| ==> r[i] == ts[i].id
  {
    seq(|ts|, i requires 0 <= i < |ts| => ts[i].id)
  }

  /** `tasks.findIndex(t => t.id === id)`, -1 when absent. */
  function FindIndex(ts: seq<TaskView>, id: string): (i: int)
    ensures -1 <= i < |ts|
    ensures i == -1 <==> forall k :: 0 <= k < |ts| ==> ts[k].id != id
    ensures i >= 0 ==> ts[i].id == id && forall k :: 0 <= k < i ==> ts[k].id != id
  {
    if ts == [] then -1
    else if ts[0].id == id then 0
    else
      var j := FindIndex(ts[1..], id);
      if j == -1 then -1 else j + 1
  }

  /** `tasks.map(t => t.id === id ? { ...t, status } : t)`. */
  function WithStatus(ts: seq<TaskView>, id: string, status: string): (r: seq<TaskView>)
    ensures |r| == |ts|
    ensures forall i :: 0 <= i < |ts| ==> r[i] == (if ts[i].id == id then ts[i].(status := status) else ts[i])
  {
    if ts == [] then [] else [if ts[0].id == id then ts[0].(status := status) else ts[0]] + WithStatus(ts[1..], id, status)
  }

  /** The rewrite keeps every id in place, and rewriting to the status a task already has changes nothing. */
  lemma WithStatusFacts(ts: seq<TaskView>, id: string, status: string)
    ensures TaskIds(WithStatus(ts, id, status)) == TaskIds(ts)
    ensures (forall i :: 0 <= i < |ts| && ts[i].id == id ==> ts[i].status == status) ==> WithStatus(ts, id, status) == ts
    ensures WithStatus(WithStatus(ts, id, status), id, status) == WithStatus(ts, id, status)
  {
  }

  /** `openEdit`'s form: a missing description becomes `''`, the tags become their ids (`[]` without tags). */
  function EditForm(t: TaskView): (f: TaskForm)
    ensures f.title == t.title && f.status == t.status && f.priority == t.priority && f.dueDate == t.dueDate
    ensures t.description.None? ==> f.description == ""
    ensures t.description.Some? ==> f.description == t.description.value
    ensures t.tags.None? ==> f.tagIds == []
    ensures t.tags.Some? ==> f.tagIds == Ids(t.tags.value)
  {
    TaskForm(t.title, if t.description.Some? then t.description.value else "", t.status, t.priority,
      t.dueDate, if t.tags.Some? then Ids(t.tags.value) else [])
  }

  /** The list after dropping `activeId` onto `overId`. */
  function Dropped(ts: seq<TaskView>, activeId: string, overId: string): seq<TaskView>
    requires activeId in TaskIds(ts) && overId in TaskIds(ts)
  {
    ArrayMove(ts, FindIndex(ts, activeId), FindIndex(ts, overId))
  }

  /** `POST /tasks/reorder` with the complete id sequence of the new order. */
  function ReorderRequest(ts: seq<TaskView>): Request<TaskBody> {
    Post("/tasks/reorder", ReorderBody(TaskIds(ts)))
  }

  /** `PUT /tasks/<id>` with the whole form. */
  function UpdateRequest(t: TaskView, form: TaskForm): Request<TaskBody> {
    Put(ItemPath("/tasks", t.id), FullTask(form))
  }

  function TaskFetchToasts(resp: FetchResponse<TaskView>): seq<Toast> {
    if resp.FetchFailed? then [Error("Failed to fetch tasks")] else []
  }

  /** The dragged task ends where it was dropped, and the others keep their order. */
  lemma DroppedIsMove(ts: seq<TaskView>, activeId: string, overId: string)
    requires activeId in TaskIds(ts) && overId in TaskIds(ts)
    ensures multiset(Dropped(ts, activeId, overId)) == multiset(ts)
    ensures Dropped(ts, activeId, overId)[FindIndex(ts, overId)].id == activeId
    ensures RemoveAt(Dropped(ts, activeId, overId), FindIndex(ts, overId)) == RemoveAt(ts, FindIndex(ts, activeId))
  {
    ArrayMoveIsMove(ts, FindIndex(ts, activeId), FindIndex(ts, overId));
  }

  /** The query `fetchTasks` sends for these filters and this page. */
  function Query(f: TaskFilters, page: int): seq<Param> {
    TasksParams(f.search, f.status, f.priority, f.tag, page)
  }

  class TasksPage {
    var tasks: seq<TaskView>
    var loading: bool
    var searchInput: string
    var filters: TaskFilters
    var page: int
    var totalCount: nat
    var isCreateOpen: bool
    var isEditOpen: bool
    var isDeleteOpen: bool
    var selectedTask: Option<TaskView>
    var formLoading: bool
    var formData: TaskForm
    var requests: seq<Request<TaskBody>>
    var toasts: seq<Toast>

    /** The initial state; `search`, `status` and `priority` may come from the URL (`?status=...`). */
    constructor (search: string, status: string, priority: string)
      ensures tasks == [] && loading && searchInput == search && filters == TaskFilters(search, status, priority, "")
      ensures page == 1 && totalCount == 0 && selectedTask.None? && formData == EmptyForm
      ensures !isCreateOpen && !isEditOpen && !isDeleteOpen && !formLoading
      ensures requests == [] && toasts == []
    {
      tasks := [];
      loading := true;
      searchInput := search;
      filters := TaskFilters(search, status, priority, "");
      page := 1;
      totalCount := 0;
      isCreateOpen := false;
      isEditOpen := false;
      isDeleteOpen := false;
      selectedTask := None;
      formLoading := false;
      formData := EmptyForm;
      requests := [];
      toasts := [];
    }

    /** `Math.ceil(totalCount / PAGE_SIZE)`, handed to the Pagination component. */
    function TotalPages(): (t: nat)
      reads this
      ensures t * PageSize >= totalCount
      ensures t > 0 ==> (t - 1) * PageSize < totalCount
      ensures totalCount == 0 <==> t == 0
    {
      Pagination.TotalPages(totalCount, PageSize)
    }

    /**
     * One `fetchTasks` with query `q` answered by `resp`: the GET is logged;
     * the rows and the header count replace the list, or the failure toast
     * is shown and the list stays.
     */
    twostate predicate Refetched(q: seq<Param>, resp: FetchResponse<TaskView>)
      reads this
    {
      && requests == old(requests) + [Get("/tasks", q)]
      && toasts == old(toasts) + TaskFetchToasts(resp)
      && (resp.FetchOk? ==> tasks == resp.data && totalCount == ParseTotal(resp.totalHeader))
      && (resp.FetchFailed? ==> tasks == old(tasks) && totalCount == old(totalCount))
      && !loading
    }

    /** No request was sent and the list, its count and the toasts are as they were. */
    twostate predicate ListKept()
      reads this
    {
      && requests == old(requests) && toasts == old(toasts)
      && tasks == old(tasks) && totalCount == old(totalCount) && loading == old(loading)
    }

    /** `fetchTasks`. */
    method Fetch(resp: FetchResponse<TaskView>)
      modifies this`loading, this`requests, this`tasks, this`totalCount, this`toasts
      ensures Refetched(Query(old(filters), old(page)), resp)
      ensures !loading
    {
      loading := true;
      requests := requests + [Get("/tasks", Query(filters, page))];
      if resp.FetchOk? {
        tasks := resp.data;
        totalCount := ParseTotal(resp.totalHeader);
      }
      toasts := toasts + TaskFetchToasts(resp);
      loading := false;
    }

    /**
     * A change to the fetch effect's dependencies: the effect runs once
     * after the render, and only if some dependency changed.
     */
    method Apply(f: TaskFilters, p: int, resp: FetchResponse<TaskView>)
      modifies this`filters, this`page, this`loading, this`requests, this`tasks, this`totalCount, this`toasts
      ensures filters == f && page == p && searchInput == old(searchInput)
      ensures f == old(filters) && p == old(page) ==> ListKept()
      ensures f != old(filters) || p != old(page) ==> Refetched(Query(f, p), resp)
      ensures formData == old(formData) && selectedTask == old(selectedTask)
    {
      var changed := f != filters || p != page;
      filters := f;
      page := p;
      if changed {
        Fetch(resp);
      }
    }

    /** Typing in the search box: no request until the debounced value settles. */
    method SetSearchInput(s: string)
      modifies this`searchInput
      ensures searchInput == s && filters == old(filters) && page == old(page)
      ensures requests == old(requests) && tasks == old(tasks)
    {
      searchInput := s;
    }

    /** The debounced `search` catching up with the search box. */
    method SearchSettled(resp: FetchResponse<TaskView>)
      modifies this`filters, this`page, this`loading, this`requests, this`tasks, this`totalCount, this`toasts
      ensures filters == old(filters).(search := old(searchInput)) && page == old(page)
      ensures old(filters.search) == old(searchInput) ==> ListKept()
      ensures old(filters.search) != old(searchInput) ==> Refetched(Query(filters, page), resp)
    {
      Apply(filters.(search := searchInput), page, resp);
    }

    /** A status filter choice; the page is not reset. */
    method SetStatusFilter(v: string, resp: FetchResponse<TaskView>)
      modifies this`filters, this`page, this`loading, this`requests, this`tasks, this`totalCount, this`toasts
      ensures filters == old(filters).(status := v) && page == old(page)
      ensures v == old(filters.status) ==> ListKept()
      ensures v != old(filters.status) ==> Refetched(Query(filters, page), resp)
    {
      Apply(filters.(status := v), page, resp);
    }

    method SetPriorityFilter(v: string, resp: FetchResponse<TaskView>)
      modifies this`filters, this`page, this`loading, this`requests, this`tasks, this`totalCount, this`toasts
      ensures filters == old(filters).(priority := v) && page == old(page)
      ensures v == old(filters.priority) ==> ListKept()
      ensures v != old(filters.priority) ==> Refetched(Query(filters, page), resp)
    {
      Apply(filters.(priority := v), page, resp);
    }

    method SetTagFilter(v: string, resp: FetchResponse<TaskView>)
      modifies this`filters, this`page, this`loading, this`requests, this`tasks, this`totalCount, this`toasts
      ensures filters == old(filters).(tag := v) && page == old(page)
      ensures v == old(filters.tag) ==> ListKept()
      ensures v != old(filters.tag) ==> Refetched(Query(filters, page), resp)
    {
      Apply(filters.(tag := v), page, resp);
    }

    /** `onPageChange` from the Pagination component. */
    method SetPage(p: int, resp: FetchResponse<TaskView>)
      modifies this`filters, this`page, this`loading, this`requests, this`tasks, this`totalCount, this`toasts
      ensures page == p && filters == old(filters)
      ensures p == old(page) ==> ListKept()
      ensures p != old(page) ==> Refetched(Query(filters, p), resp)
    {
      Apply(filters, p, resp);
    }

    /**
     * `clearFilters`: the search box and the three selects are emptied and
     * the page goes back to 1.  The debounced search follows later
     * (`SearchSettled`).
     */
    method ClearFilters(resp: FetchResponse<TaskView>)
      modifies this`searchInput, this`filters, this`page, this`loading, this`requests, this`tasks, this`totalCount, this`toasts
      ensures searchInput == "" && page == 1
      ensures filters == NoFilters.(search := old(filters.search))
      ensures filters == old(filters) && old(page) == 1 ==> ListKept()
      ensures filters != old(filters) || old(page) != 1 ==> Refetched(Query(filters, 1), resp)
    {
      searchInput := "";
      Apply(NoFilters.(search := filters.search), 1, resp);
    }

    /**
     * `handleDragEnd`: a drop on the dragged card itself, or on nothing,
     * changes nothing (`sent` is false).  Otherwise the list is rearranged
     * at once and the new id order is posted; a failed post toasts and
     * refetches, without restoring the old order.
     */
    method HandleDragEnd(activeId: string, overId: Option<string>, outcome: Result<(), Failure>, refetch: FetchResponse<TaskView>)
      returns (sent: bool)
      modifies this`tasks, this`requests, this`toasts, this`loading, this`totalCount
      requires activeId in TaskIds(tasks)
      requires overId.Some? ==> overId.value in TaskIds(tasks)
      ensures sent <==> overId.Some? && overId.value != activeId
      ensures !sent ==> tasks == old(tasks) && requests == old(requests) && toasts == old(toasts)
      ensures !sent || outcome.Ok? ==> totalCount == old(totalCount) && loading == old(loading)
      ensures sent && outcome.Ok? ==> tasks == Dropped(old(tasks), activeId, overId.value)
      ensures sent && outcome.Ok? ==> requests == old(requests) + [ReorderRequest(Dropped(old(tasks), activeId, overId.value))]
      ensures sent && outcome.Err? ==>
        requests == old(requests) + [ReorderRequest(Dropped(old(tasks), activeId, overId.value)), Get("/tasks", Query(old(filters), old(page)))]
      ensures sent && outcome.Err? ==> toasts == old(toasts) + [Error("Failed to reorder tasks")] + TaskFetchToasts(refetch)
      ensures sent && outcome.Err? && refetch.FetchOk? ==> tasks == refetch.data && totalCount == ParseTotal(refetch.totalHeader)
      ensures sent && outcome.Err? && refetch.FetchFailed? ==>
        tasks == Dropped(old(tasks), activeId, overId.value) && totalCount == old(totalCount)
      ensures sent && outcome.Err? ==> !loading
      ensures sent && outcome.Ok? ==> toasts == old(toasts)
    {
      sent := overId.Some? && overId.value != activeId;
      if sent {
        SendOrder(Dropped(tasks, activeId, overId.value), outcome, refetch);
      }
    }

    /** The part of `handleDragEnd` after `arrayMove`: show `order` at once and post its ids. */
    method SendOrder(order: seq<TaskView>, outcome: Result<(), Failure>, refetch: FetchResponse<TaskView>)
      modifies this`tasks, this`requests, this`toasts, this`loading, this`totalCount
      ensures outcome.Ok? ==> tasks == order && requests == old(requests) + [ReorderRequest(order)] && toasts == old(toasts)
      ensures outcome.Ok? ==> totalCount == old(totalCount) && loading == old(loading)
      ensures outcome.Err? ==> requests == old(requests) + [ReorderRequest(order), Get("/tasks", Query(filters, page))]
      ensures outcome.Err? ==> toasts == old(toasts) + [Error("Failed to reorder tasks")] + TaskFetchToasts(refetch)
      ensures outcome.Err? ==> tasks == (if refetch.FetchOk? then refetch.data else order)
      ensures outcome.Err? ==> totalCount == (if refetch.FetchOk? then ParseTotal(refetch.totalHeader) else old(totalCount))
      ensures outcome.Err? ==> !loading
    {
      tasks := order;
      requests := requests + [ReorderRequest(order)];
      if outcome.Err? {
        toasts := toasts + [Error("Failed to reorder tasks")];
        Fetch(refetch);
      }
    }

    /**
     * `handleQuickUpdate(task, newStatus)`: nothing when the status is the
     * same; otherwise only that task's status is rewritten at once and
     * `{status}` is sent.  Success toasts and refetches; failure puts back
     * the whole list as it was before.
     */
    method HandleQuickUpdate(task: TaskView, newStatus: string, outcome: Result<(), Failure>, refetch: FetchResponse<TaskView>)
      modifies this`tasks, this`requests, this`toasts, this`loading, this`totalCount
      ensures task.status == newStatus ==> tasks == old(tasks) && requests == old(requests) && toasts == old(toasts)
      ensures task.status == newStatus || outcome.Err? ==> totalCount == old(totalCount) && loading == old(loading)
      ensures task.status != newStatus && outcome.Err? ==>
        tasks == old(tasks) && requests == old(requests) + [Put(ItemPath("/tasks", task.id), StatusOnly(newStatus))]
        && toasts == old(toasts) + [Error("Failed to update status")]
      ensures task.status != newStatus && outcome.Ok? ==>
        requests == old(requests) + [Put(ItemPath("/tasks", task.id), StatusOnly(newStatus)), Get("/tasks", Query(old(filters), old(page)))]
        && toasts == old(toasts) + [Success("Status updated")] + TaskFetchToasts(refetch)
        && (refetch.FetchOk? ==> tasks == refetch.data && totalCount == ParseTotal(refetch.totalHeader))
        && (refetch.FetchFailed? ==> tasks == WithStatus(old(tasks), task.id, newStatus) && totalCount == old(totalCount))
        && !loading
      ensures filters == old(filters) && page == old(page) && formData == old(formData)
    {
      if task.status == newStatus {
        return;
      }
      var previousTasks := tasks;
      tasks := WithStatus(tasks, task.id, newStatus);
      requests := requests + [Put(ItemPath("/tasks", task.id), StatusOnly(newStatus))];
      if outcome.Ok? {
        toasts := toasts + [Success("Status updated")];
        Fetch(refetch);
      } else {
        toasts := toasts + [Error("Failed to update status")];
        tasks := previousTasks;
      }
    }

    /** `resetForm`. */
    method ResetForm()
      modifies this`formData, this`selectedTask
      ensures formData == EmptyForm && selectedTask.None?
      ensures tasks == old(tasks) && requests == old(requests) && toasts == old(toasts)
      ensures filters == old(filters) && page == old(page)
      ensures isCreateOpen == old(isCreateOpen) && isEditOpen == old(isEditOpen) && isDeleteOpen == old(isDeleteOpen)
    {
      formData := EmptyForm;
      selectedTask := None;
    }

    /**
     * `handleCreate`: a blank title is refused with a toast and no request,
     * keeping the form (`sent` is false); otherwise the form is posted.
     * Success closes the dialog, clears the form and refetches.
     */
    method HandleCreate(outcome: Result<(), Failure>, refetch: FetchResponse<TaskView>) returns (sent: bool)
      modifies this`formLoading, this`requests, this`toasts, this`formData, this`selectedTask, this`loading, this`tasks, this`totalCount, this`isCreateOpen
      ensures sent <==> !IsBlank(old(formData.title))
      ensures !sent ==> formLoading == old(formLoading)
      ensures !sent || outcome.Err? ==> isCreateOpen == old(isCreateOpen) && formData == old(formData) && selectedTask == old(selectedTask)
      ensures !sent ==> requests == old(requests) && formData == old(formData) && tasks == old(tasks)
      ensures !sent ==> toasts == old(toasts) + [Error("Title is required")]
      ensures !sent || outcome.Err? ==> totalCount == old(totalCount) && loading == old(loading)
      ensures sent && outcome.Ok? ==> requests == old(requests) + [Post("/tasks", FullTask(old(formData))), Get("/tasks", Query(old(filters), old(page)))]
      ensures sent && outcome.Ok? ==> formData == EmptyForm && selectedTask.None? && !isCreateOpen
      ensures sent && outcome.Ok? ==> toasts == old(toasts) + [Success("Task created successfully")] + TaskFetchToasts(refetch)
      ensures sent && outcome.Ok? && refetch.FetchOk? ==> tasks == refetch.data && totalCount == ParseTotal(refetch.totalHeader)
      ensures sent && outcome.Ok? && refetch.FetchFailed? ==> tasks == old(tasks) && totalCount == old(totalCount)
      ensures sent && outcome.Ok? ==> !loading
      ensures sent && outcome.Err? ==> requests == old(requests) + [Post("/tasks", FullTask(old(formData)))]
      ensures sent && outcome.Err? ==> formData == old(formData) && tasks == old(tasks)
      ensures sent && outcome.Err? ==> toasts == old(toasts) + [Error("Failed to create task")]
      ensures sent ==> !formLoading
      ensures filters == old(filters) && page == old(page)
    {
      var blank := IsBlank(formData.title);
      sent := !blank;
      if blank {
        toasts := toasts + [Error("Title is required")];
      } else {
        Submit(Post("/tasks", FullTask(formData)), "Task created successfully", "Failed to create task", outcome, refetch);
        if outcome.Ok? {
          isCreateOpen := false;
        }
      }
    }

    /**
     * The `try` part shared by `handleCreate` and `handleUpdate`: send the
     * form; success toasts, clears the form and refetches; failure toasts.
     */
    method Submit(req: Request<TaskBody>, success: string, failure: string, outcome: Result<(), Failure>, refetch: FetchResponse<TaskView>)
      modifies this`formLoading, this`requests, this`toasts, this`formData, this`selectedTask
      modifies this`loading, this`tasks, this`totalCount
      ensures outcome.Ok? ==> requests == old(requests) + [req, Get("/tasks", Query(old(filters), old(page)))]
      ensures outcome.Ok? ==> toasts == old(toasts) + [Success(success)] + TaskFetchToasts(refetch)
      ensures outcome.Ok? ==> formData == EmptyForm && selectedTask.None?
      ensures outcome.Ok? && refetch.FetchOk? ==> tasks == refetch.data && totalCount == ParseTotal(refetch.totalHeader)
      ensures outcome.Ok? && refetch.FetchFailed? ==> tasks == old(tasks) && totalCount == old(totalCount)
      ensures outcome.Err? ==> requests == old(requests) + [req] && toasts == old(toasts) + [Error(failure)]
      ensures outcome.Err? ==> formData == old(formData) && tasks == old(tasks) && selectedTask == old(selectedTask)
      ensures outcome.Err? ==> totalCount == old(totalCount) && loading == old(loading)
      ensures outcome.Ok? ==> !loading
      ensures !formLoading
    {
      formLoading := true;
      requests := requests + [req];
      if outcome.Ok? {
        toasts := toasts + [Success(success)];
        // resetForm()
        formData := EmptyForm;
        selectedTask := None;
        Fetch(refetch);
      } else {
        toasts := toasts + [Error(failure)];
      }
      formLoading := false;
    }

    /**
     * `handleUpdate`: like create, but `PUT /tasks/<selected id>`.  With no
     * selected task the `selectedTask.id` lookup throws inside the `try`,
     * which ends as the failure toast with no request.
     */
    method HandleUpdate(outcome: Result<(), Failure>, refetch: FetchResponse<TaskView>) returns (sent: bool)
      modifies this`formLoading, this`requests, this`toasts, this`formData, this`selectedTask, this`loading, this`tasks, this`totalCount, this`isEditOpen
      ensures sent <==> !IsBlank(old(formData.title)) && old(selectedTask).Some?
      ensures IsBlank(old(formData.title)) ==> formLoading == old(formLoading)
      ensures !IsBlank(old(formData.title)) ==> !formLoading
      ensures !sent || outcome.Err? ==> isEditOpen == old(isEditOpen) && formData == old(formData) && selectedTask == old(selectedTask)
      ensures !sent ==> requests == old(requests) && formData == old(formData) && tasks == old(tasks)
      ensures !sent ==> toasts == old(toasts) + [Error(if IsBlank(old(formData.title)) then "Title is required" else "Failed to update task")]
      ensures !sent || outcome.Err? ==> totalCount == old(totalCount) && loading == old(loading)
      ensures sent && outcome.Ok? ==> requests == old(requests) + [UpdateRequest(old(selectedTask).value, old(formData)), Get("/tasks", Query(old(filters), old(page)))]
      ensures sent && outcome.Ok? ==> formData == EmptyForm && selectedTask.None? && !isEditOpen
      ensures sent && outcome.Ok? ==> toasts == old(toasts) + [Success("Task updated successfully")] + TaskFetchToasts(refetch)
      ensures sent && outcome.Ok? && refetch.FetchOk? ==> tasks == refetch.data && totalCount == ParseTotal(refetch.totalHeader)
      ensures sent && outcome.Ok? && refetch.FetchFailed? ==> tasks == old(tasks) && totalCount == old(totalCount)
      ensures sent && outcome.Ok? ==> !loading
      ensures sent && outcome.Err? ==> requests == old(requests) + [UpdateRequest(old(selectedTask).value, old(formData))]
      ensures sent && outcome.Err? ==> formData == old(formData) && tasks == old(tasks)
      ensures sent && outcome.Err? ==> toasts == old(toasts) + [Error("Failed to update task")]
      ensures filters == old(filters) && page == old(page)
    {
      var blank := IsBlank(formData.title);
      sent := !blank && selectedTask.Some?;
      if blank {
        toasts := toasts + [Error("Title is required")];
      } else if selectedTask.None? {
        formLoading := true;
        toasts := toasts + [Error("Failed to update task")];
        formLoading := false;
      } else {
        Submit(UpdateRequest(selectedTask.value, formData), "Task updated successfully",
          "Failed to update task", outcome, refetch);
        if outcome.Ok? {
          isEditOpen := false;
        }
      }
    }

    /** `handleDelete`: `DELETE /tasks/<selected id>`; success closes the dialog, clears the selection and refetches. */
    method HandleDelete(outcome: Result<(), Failure>, refetch: FetchResponse<TaskView>)
      modifies this`formLoading, this`requests, this`toasts, this`isDeleteOpen, this`selectedTask
      modifies this`loading, this`tasks, this`totalCount
      ensures old(selectedTask).None? ==>
        requests == old(requests) && tasks == old(tasks) && toasts == old(toasts) + [Error("Failed to delete task")]
      ensures old(selectedTask).Some? && outcome.Ok? ==>
        requests == old(requests) + [Delete(ItemPath("/tasks", old(selectedTask).value.id)), Get("/tasks", Query(old(filters), old(page)))]
        && selectedTask.None? && !isDeleteOpen
        && toasts == old(toasts) + [Success("Task deleted successfully")] + TaskFetchToasts(refetch)
      ensures old(selectedTask).Some? && outcome.Ok? && refetch.FetchOk? ==>
        tasks == refetch.data && totalCount == ParseTotal(refetch.totalHeader)
      ensures old(selectedTask).Some? && outcome.Ok? && refetch.FetchFailed? ==> tasks == old(tasks) && totalCount == old(totalCount)
      ensures old(selectedTask).Some? && outcome.Ok? ==> !loading
      ensures old(selectedTask).None? || outcome.Err? ==> totalCount == old(totalCount) && loading == old(loading)
      ensures old(selectedTask).None? || outcome.Err? ==> isDeleteOpen == old(isDeleteOpen) && selectedTask == old(selectedTask)
      ensures old(selectedTask).Some? && outcome.Err? ==>
        requests == old(requests) + [Delete(ItemPath("/tasks", old(selectedTask).value.id))]
        && selectedTask == old(selectedTask) && tasks == old(tasks) && toasts == old(toasts) + [Error("Failed to delete task")]
      ensures !formLoading
    {
      formLoading := true;
      if selectedTask.None? {
        toasts := toasts + [Error("Failed to delete task")];
      } else {
        requests := requests + [Delete(ItemPath("/tasks", selectedTask.value.id))];
        if outcome.Ok? {
          toasts := toasts + [Success("Task deleted successfully")];
          isDeleteOpen := false;
          selectedTask := None;
          Fetch(refetch);
        } else {
          toasts := toasts + [Error("Failed to delete task")];
        }
      }
      formLoading := false;
    }

    /** `openEdit(task)`. */
    method OpenEdit(task: TaskView)
      modifies this`selectedTask, this`formData, this`isEditOpen
      ensures selectedTask == Some(task) && formData == EditForm(task) && isEditOpen
      ensures tasks == old(tasks) && requests == old(requests) && filters == old(filters) && page == old(page)
    {
      selectedTask := Some(task);
      formData := EditForm(task);
      isEditOpen := true;
    }

    /** `openDelete(task)`. */
    method OpenDelete(task: TaskView)
      modifies this`selectedTask, this`isDeleteOpen
      ensures selectedTask == Some(task) && isDeleteOpen
      ensures tasks == old(tasks) && requests == old(requests) && formData == old(formData)
    {
      selectedTask := Some(task);
      isDeleteOpen := true;
    }
  }
}
