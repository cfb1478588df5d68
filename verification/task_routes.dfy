/**
 * The task endpoints (backend/routes/tasks.py) over the in-memory store.
 * Every handler acts for `userId`, the authenticated user.
 */
module TaskRoutes {
  import opened Wrappers
  import opened Store
  import opened Listing
  import opened Schemas

  const NotFound := HttpError(404, "Task not found")

  /** The filters of `GET /tasks` once FastAPI has parsed them. */
  datatype TaskFilter = TaskFilter(
    search: Option<string>, status: Option<TaskStatus>, priority: Option<TaskPriority>, tagId: Option<string>)

  /** The query parameters FastAPI checks before the handler runs: enum values and paging bounds. */
  function ParseFilter(search: Option<string>, status: Option<string>, priority: Option<string>, tagId: Option<string>, limit: int, offset: int): (r: Result<TaskFilter, HttpError>)
    ensures r.Ok? <==> (PagingValid(limit, offset)
      && (status.None? || ParseStatus(status.value).Some?)
      && (priority.None? || ParsePriority(priority.value).Some?))
    ensures r.Ok? ==> r.value.search == search && r.value.tagId == tagId
    ensures r.Ok? ==> ((r.value.status.None? <==> status.None?)
      && (status.Some? ==> StatusName(r.value.status.value) == status.value))
    ensures r.Ok? ==> ((r.value.priority.None? <==> priority.None?)
      && (priority.Some? ==> PriorityName(r.value.priority.value) == priority.value))
    ensures r.Err? ==> r.error == Unprocessable
  {
    var st := if status.Some? then ParseStatus(status.value) else None;
    var pr := if priority.Some? then ParsePriority(priority.value) else None;
    if !PagingValid(limit, offset) || (status.Some? && st.None?) || (priority.Some? && pr.None?) then Err(Unprocessable)
    else Ok(TaskFilter(search, st, pr, tagId))
  }

  /** The `WHERE` clause of `get_tasks`. */
  predicate Selected(t: Task, userId: string, f: TaskFilter, ilike: Matcher) {
    t.userId == userId
    && SearchHit(ilike, f.search, t.title, t.description)
    && (f.status.Some? ==> t.status == StatusName(f.status.value))
    && (f.priority.Some? ==> t.priority == PriorityName(f.priority.value))
    && TagHit(f.tagId, t.tags)
  }

  /** `ORDER BY position, created_at DESC`. */
  function OrderKey(t: Task): SortKey {
    SortKey(t.position, -t.createdAt)
  }

  /** The rows the `WHERE` clause keeps, as a test on task ids. */
  function Matches(tasks: map<string, Task>, userId: string, f: TaskFilter, ilike: Matcher): string -> bool {
    (id: string) => id in tasks && Selected(tasks[id], userId, f, ilike)
  }

  /** `OrderKey` on task ids. */
  function IdOrder(tasks: map<string, Task>): string -> SortKey {
    (id: string) => if id in tasks then OrderKey(tasks[id]) else SortKey(0, 0)
  }

  /**
   * `GET /tasks`: the count of the user's matching tasks (the
   * `X-Total-Count` header) and the page of them, in position order.
   */
  method ListTasks(
    db: Database, userId: string, scan: seq<string>, ilike: Matcher, search: Option<string>,
    status: Option<string>, priority: Option<string>, tagId: Option<string>, limit: int, offset: int
  ) returns (r: Result<Page<string>, HttpError>)
    requires ScanOf(scan, db.tasks)
    ensures r.Err? <==> ParseFilter(search, status, priority, tagId, limit, offset).Err?
    ensures r.Err? ==> r.error == Unprocessable
    ensures r.Ok? ==> (var f := ParseFilter(search, status, priority, tagId, limit, offset).value;
      && r.value.rows == Window(OrderBy(Keep(scan, Matches(db.tasks, userId, f, ilike)), IdOrder(db.tasks)), offset, limit)
      && r.value.total == |set id | id in db.tasks && Selected(db.tasks[id], userId, f, ilike)|
      && (forall id :: id in r.value.rows ==> id in db.tasks && Selected(db.tasks[id], userId, f, ilike))
      && (forall i, j :: 0 <= i < j < |r.value.rows| ==> (
            var a, b := db.tasks[r.value.rows[i]], db.tasks[r.value.rows[j]];
            a.position < b.position || (a.position == b.position && a.createdAt >= b.createdAt)))
      && Distinct(r.value.rows)
      && |r.value.rows| == (if offset >= r.value.total then 0
                            else if r.value.total - offset < limit then r.value.total - offset else limit))
  {
    var parsed := ParseFilter(search, status, priority, tagId, limit, offset);
    if parsed.Err? {
      return Err(parsed.error);
    }
    var f := parsed.value;
    var tasks := db.tasks;
    var keep := Matches(tasks, userId, f, ilike);
    var key := IdOrder(tasks);
    var page := ListPage(scan, keep, key, offset as nat, limit as nat);
    TaskPageFacts(tasks, userId, f, ilike, scan, offset as nat, limit as nat);
    r := Ok(page);
  }

  /** The window `ListTasks` returns holds matching tasks, in position order, once each, as many as fit. */
  lemma TaskPageFacts(tasks: map<string, Task>, userId: string, f: TaskFilter, ilike: Matcher, scan: seq<string>, offset: nat, limit: nat)
    requires ScanOf(scan, tasks)
    ensures var rows := Window(OrderBy(Keep(scan, Matches(tasks, userId, f, ilike)), IdOrder(tasks)), offset, limit);
      var total := |set id | id in tasks && Selected(tasks[id], userId, f, ilike)|;
      && total == |Keep(scan, Matches(tasks, userId, f, ilike))|
      && (forall id :: id in rows ==> id in tasks && Selected(tasks[id], userId, f, ilike))
      && (forall i, j :: 0 <= i < j < |rows| ==> (
            var a, b := tasks[rows[i]], tasks[rows[j]];
            a.position < b.position || (a.position == b.position && a.createdAt >= b.createdAt)))
      && Distinct(rows)
      && |rows| == (if offset >= total then 0 else if total - offset < limit then total - offset else limit)
  {
    var keep, key := Matches(tasks, userId, f, ilike), IdOrder(tasks);
    PageCount(scan, keep, set id | id in tasks && Selected(tasks[id], userId, f, ilike));
    PageFacts(scan, keep, key, offset, limit);
    var rows := Window(OrderBy(Keep(scan, keep), key), offset, limit);
    assert forall i, j :: 0 <= i < j < |rows| ==> KeyLe(OrderKey(tasks[rows[i]]), OrderKey(tasks[rows[j]]));
  }

  /** `GET /tasks/{id}`: a task of another user is as absent as a missing one. */
  function GetTask(db: Database, userId: string, id: string): (r: Result<Task, HttpError>)
    reads db
    ensures r.Ok? <==> id in db.tasks && db.tasks[id].userId == userId
    ensures r.Ok? ==> r.value == db.tasks[id]
    ensures r.Err? ==> r.error == NotFound
  {
    if id in db.tasks && db.tasks[id].userId == userId then Ok(db.tasks[id]) else Err(NotFound)
  }

  predicate Owns(tasks: map<string, Task>, userId: string, id: string) {
    id in tasks && tasks[id].userId == userId
  }

  /** `select(func.max(Task.position)) … .scalar() or 0`, as a loop over the user's rows. */
  method MaxPosition(tasks: map<string, Task>, userId: string, scan: seq<string>) returns (m: int)
    requires ScanOf(scan, tasks)
    ensures (forall id :: Owns(tasks, userId, id) ==> tasks[id].position <= m)
    ensures (exists id :: Owns(tasks, userId, id)) ==> exists id :: Owns(tasks, userId, id) && tasks[id].position == m
    ensures (forall id :: !Owns(tasks, userId, id)) ==> m == 0
  {
    var best: Option<int> := None;
    var i := 0;
    while i < |scan|
      invariant 0 <= i <= |scan|
      invariant best.None? ==> forall k :: 0 <= k < i ==> !Owns(tasks, userId, scan[k])
      invariant best.Some? ==> forall k :: 0 <= k < i && Owns(tasks, userId, scan[k]) ==> tasks[scan[k]].position <= best.value
      invariant best.Some? ==> exists k :: 0 <= k < i && Owns(tasks, userId, scan[k]) && tasks[scan[k]].position == best.value
    {
      var id := scan[i];
      if id in tasks && tasks[id].userId == userId {
        if best.None? || tasks[id].position > best.value {
          best := Some(tasks[id].position);
        }
      }
      i := i + 1;
    }
    m := if best.Some? then best.value else 0;
    forall id | Owns(tasks, userId, id) ensures tasks[id].position <= m {
      var k :| 0 <= k < |scan| && scan[k] == id;
    }
    if best.Some? {
      var k :| 0 <= k < |scan| && Owns(tasks, userId, scan[k]) && tasks[scan[k]].position == best.value;
    }
  }

  /**
   * `POST /tasks`: the new task goes after every task of its owner
   * (position = highest + 1, or 1 for a first task) and keeps only the
   * tags the owner has.
   */
  method CreateTask(db: Database, userId: string, payload: TaskCreate, scan: seq<string>, newId: string, now: int)
    returns (t: Task)
    requires ScanOf(scan, db.tasks) && newId !in db.tasks
    modifies db
    ensures db.tasks == old(db.tasks)[newId := t]
    ensures t.userId == userId && t.title == payload.title && t.description == payload.description
    ensures t.status == StatusName(payload.status) && t.priority == PriorityName(payload.priority)
    ensures t.dueDate == payload.dueDate && t.createdAt == now && t.updatedAt == now
    ensures t.tags == if payload.tagIds.Some? then OwnedTagIds(db.tags, userId, payload.tagIds.value) else {}
    ensures forall id :: Owns(old(db.tasks), userId, id) ==> old(db.tasks)[id].position < t.position
    ensures (forall id :: !Owns(old(db.tasks), userId, id)) ==> t.position == 1
    ensures (exists id :: Owns(old(db.tasks), userId, id)) ==>
      exists id :: Owns(old(db.tasks), userId, id) && old(db.tasks)[id].position == t.position - 1
    ensures db.activities == old(db.activities) + [Activity(userId, "created", "task", Some(newId), Some(t.title), None, now)]
    ensures db.users == old(db.users) && db.tags == old(db.tags) && db.notes == old(db.notes) && db.posts == old(db.posts)
  {
    var maxPos := MaxPosition(db.tasks, userId, scan);
    var tags: set<string> := {};
    if payload.tagIds.Some? && payload.tagIds.value != [] {
      tags := SelectOwnedTags(db.tags, userId, payload.tagIds.value);
    }
    t := Task(userId, payload.title, payload.description, StatusName(payload.status), PriorityName(payload.priority),
      payload.dueDate, maxPos + 1, tags, now, now);
    db.tasks := db.tasks[newId := t];
    db.LogActivity(userId, "created", "task", newId, t.title, now);
  }

  /** The activity an update logs: a status change into `completed` counts as completing. */
  function UpdateAction(oldStatus: string, newStatus: string): (a: string)
    ensures a == "completed" || a == "updated"
    ensures a == "completed" <==> oldStatus != newStatus && newStatus == "completed"
  {
    if oldStatus != newStatus && newStatus == "completed" then "completed" else "updated"
  }

  /** Leaving the status alone, or saving an already completed task, is an ordinary update. */
  lemma NoCompletionWithoutChange(t: Task, payload: TaskUpdate)
    requires payload.status.None? || t.status == "completed"
    ensures UpdateAction(t.status, if payload.status.Some? then StatusName(payload.status.value) else t.status) == "updated"
  {
  }

  /** Moving a task into `completed` from any other status is logged as completing it. */
  lemma CompletionLogged(t: Task)
    requires t.status != "completed"
    ensures UpdateAction(t.status, StatusName(Completed)) == "completed"
  {
  }

  /**
   * `u` is `t` after `payload`: each field the payload gives replaces the
   * task's, the others stay, a `tag_ids` list replaces the tags with those
   * of the owner it names, and the update is stamped `now`.
   */
  predicate Patched(t: Task, u: Task, payload: TaskUpdate, tags: map<string, Tag>, now: int) {
    && u.userId == t.userId && u.createdAt == t.createdAt && u.updatedAt == now
    && u.title == (if payload.title.Some? then payload.title.value else t.title)
    && u.description == (if payload.description.Some? then payload.description else t.description)
    && u.status == (if payload.status.Some? then StatusName(payload.status.value) else t.status)
    && u.priority == (if payload.priority.Some? then PriorityName(payload.priority.value) else t.priority)
    && u.dueDate == (if payload.dueDate.Some? then payload.dueDate else t.dueDate)
    && u.position == (if payload.position.Some? then payload.position.value else t.position)
    && u.tags == (if payload.tagIds.Some? then OwnedTagIds(tags, t.userId, payload.tagIds.value) else t.tags)
  }

  /** The assignments of `update_task`, tag lookup included. */
  method PatchTask(tags: map<string, Tag>, t: Task, payload: TaskUpdate, now: int) returns (u: Task)
    ensures Patched(t, u, payload, tags, now)
  {
    var found := t.tags;
    if payload.tagIds.Some? {
      found := SelectOwnedTags(tags, t.userId, payload.tagIds.value);
    }
    u := Task(t.userId,
      if payload.title.Some? then payload.title.value else t.title,
      if payload.description.Some? then payload.description else t.description,
      if payload.status.Some? then StatusName(payload.status.value) else t.status,
      if payload.priority.Some? then PriorityName(payload.priority.value) else t.priority,
      if payload.dueDate.Some? then payload.dueDate else t.dueDate,
      if payload.position.Some? then payload.position.value else t.position,
      found, t.createdAt, now);
  }

  /**
   * `PUT /tasks/{id}`: the fields the payload gives replace the task's,
   * the others stay; a `tag_ids` list replaces the tags with the owned
   * subset it names.
   */
  method UpdateTask(db: Database, userId: string, id: string, payload: TaskUpdate, now: int)
    returns (r: Result<Task, HttpError>)
    modifies db
    ensures !Owns(old(db.tasks), userId, id) ==> (r == Err(NotFound) && db.tasks == old(db.tasks)
      && db.activities == old(db.activities))
    ensures Owns(old(db.tasks), userId, id) ==> r.Ok? && db.tasks == old(db.tasks)[id := r.value]
    ensures r.Ok? ==> Patched(old(db.tasks)[id], r.value, payload, db.tags, now)
    ensures r.Ok? ==> (db.activities == old(db.activities)
      + [Activity(userId, UpdateAction(old(db.tasks)[id].status, r.value.status), "task", Some(id), Some(r.value.title), None, now)])
    ensures db.users == old(db.users) && db.tags == old(db.tags) && db.notes == old(db.notes) && db.posts == old(db.posts)
  {
    if !(id in db.tasks && db.tasks[id].userId == userId) {
      return Err(NotFound);
    }
    var t := db.tasks[id];
    var u := PatchTask(db.tags, t, payload, now);
    db.tasks := db.tasks[id := u];
    db.LogActivity(userId, UpdateAction(t.status, u.status), "task", id, u.title, now);
    r := Ok(u);
  }

  /** The index of the last occurrence of `x`: the one a `{tid: idx}` dict keeps. */
  function LastIndex(ids: seq<string>, x: string): (k: nat)
    requires x in ids
    ensures k < |ids| && ids[k] == x
    ensures forall j :: k < j < |ids| ==> ids[j] != x
  {
    if ids[|ids| - 1] == x then |ids| - 1 else LastIndex(ids[..|ids| - 1], x)
  }

  /** The tasks after `POST /tasks/reorder` with `ids` at time `now`: `onupdate` stamps every row the `UPDATE` matches. */
  function Reordered(tasks: map<string, Task>, userId: string, ids: seq<string>, now: int): map<string, Task> {
    map id | id in tasks :: if id in ids && tasks[id].userId == userId then tasks[id].(position := LastIndex(ids, id), updatedAt := now) else tasks[id]
  }

  /** Every listed task of the user moves to its (last) index and is stamped `now`; every other task is untouched. */
  lemma ReorderedFacts(tasks: map<string, Task>, userId: string, ids: seq<string>, now: int)
    ensures Reordered(tasks, userId, ids, now).Keys == tasks.Keys
    ensures forall i :: 0 <= i < |ids| && Owns(tasks, userId, ids[i]) ==>
      Reordered(tasks, userId, ids, now)[ids[i]] == tasks[ids[i]].(position := LastIndex(ids, ids[i]), updatedAt := now)
    ensures forall id :: id in tasks && (id !in ids || tasks[id].userId != userId) ==>
      Reordered(tasks, userId, ids, now)[id] == tasks[id]
  {
  }

  /** With each id listed once, a task's new position is exactly its index in the list. */
  lemma DistinctIdsGetTheirIndex(tasks: map<string, Task>, userId: string, ids: seq<string>, i: nat, now: int)
    requires Distinct(ids) && i < |ids| && Owns(tasks, userId, ids[i])
    ensures Reordered(tasks, userId, ids, now)[ids[i]].position == i
  {
    var k := LastIndex(ids, ids[i]);
    assert ids[k] == ids[i];
  }

  /** An empty list changes nothing. */
  lemma EmptyReorderChangesNothing(tasks: map<string, Task>, userId: string, now: int)
    ensures Reordered(tasks, userId, [], now) == tasks
  {
  }

  lemma LastIndexSnoc(ids: seq<string>, y: string, x: string)
    requires x in ids && x != y
    ensures x in ids + [y] && LastIndex(ids + [y], x) == LastIndex(ids, x)
  {
    assert (ids + [y])[..|ids|] == ids;
  }

  /** One step of the reorder loop extends the list by one id. */
  lemma ReorderStep(tasks: map<string, Task>, userId: string, ids: seq<string>, i: nat, now: int)
    requires i < |ids|
    ensures var cur := Reordered(tasks, userId, ids[..i], now);
      var x := ids[i];
      Reordered(tasks, userId, ids[..i + 1], now)
        == if x in cur && cur[x].userId == userId then cur[x := cur[x].(position := i, updatedAt := now)] else cur
  {
    var pre := ids[..i];
    var x := ids[i];
    assert ids[..i + 1] == pre + [x];
    var cur := Reordered(tasks, userId, pre, now);
    var next := Reordered(tasks, userId, pre + [x], now);
    var want := if x in cur && cur[x].userId == userId then cur[x := cur[x].(position := i, updatedAt := now)] else cur;
    assert next.Keys == want.Keys;
    forall y | y in next ensures next[y] == want[y] {
      if y == x {
        assert LastIndex(pre + [x], x) == i;
      } else if y in pre {
        LastIndexSnoc(pre, x, y);
      }
    }
    assert next == want;
  }

  /**
   * `POST /tasks/reorder`: the `CASE` update, written as the loop over the
   * list it amounts to, a later occurrence of an id overwriting an earlier one.
   */
  method ReorderTasks(db: Database, userId: string, ids: seq<string>, now: int)
    modifies db`tasks
    ensures db.tasks == Reordered(old(db.tasks), userId, ids, now)
    ensures db.users == old(db.users) && db.tags == old(db.tags) && db.notes == old(db.notes)
    ensures db.posts == old(db.posts) && db.activities == old(db.activities)
  {
    ghost var start := db.tasks;
    var i := 0;
    while i < |ids|
      invariant 0 <= i <= |ids|
      invariant db.tasks == Reordered(start, userId, ids[..i], now)
    {
      ReorderStep(start, userId, ids, i, now);
      var x := ids[i];
      if x in db.tasks && db.tasks[x].userId == userId {
        db.tasks := db.tasks[x := db.tasks[x].(position := i, updatedAt := now)];
      }
      i := i + 1;
    }
    assert ids[..i] == ids;
  }

  /** `DELETE /tasks/{id}`. */
  method DeleteTask(db: Database, userId: string, id: string, now: int) returns (r: Result<(), HttpError>)
    modifies db
    ensures !Owns(old(db.tasks), userId, id) ==> (r == Err(NotFound) && db.tasks == old(db.tasks)
      && db.activities == old(db.activities))
    ensures Owns(old(db.tasks), userId, id) ==> (r == Ok(()) && db.tasks == old(db.tasks) - {id}
      && db.activities == old(db.activities) + [Activity(userId, "deleted", "task", Some(id), Some(old(db.tasks)[id].title), None, now)])
    ensures db.users == old(db.users) && db.tags == old(db.tags) && db.notes == old(db.notes) && db.posts == old(db.posts)
  {
    if !(id in db.tasks && db.tasks[id].userId == userId) {
      return Err(NotFound);
    }
    var title := db.tasks[id].title;
    db.tasks := db.tasks - {id};
    db.LogActivity(userId, "deleted", "task", id, title, now);
    r := Ok(());
  }
}
