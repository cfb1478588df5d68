/**
 * The activity timeline, analytics, export and dashboard endpoints
 * (backend/routes/data.py).  Times are whole seconds since the epoch
 * and a date is the day number `t / 86400` (UTC).
 */
module DataRoutes {
  import opened Wrappers
  import opened Text
  import opened Store
  import opened Listing

  const SecondsPerDay: int := 86400
  const ServerError := HttpError(500, "Internal Server Error")

  // ------------------------------------------------------------ activities

  /** The `WHERE` clause of `get_activities`: the user's rows, of one entity type when one is given. */
  predicate Listed(a: Activity, userId: string, entityType: Option<string>) {
    a.userId == userId && (entityType.None? || entityType.value == [] || a.entityType == entityType.value)
  }

  function Indices(n: nat): (r: seq<int>)
    ensures |r| == n && forall i :: 0 <= i < n ==> r[i] == i
  {
    seq(n, i => i)
  }

  lemma IndicesDistinct(n: nat)
    ensures Distinct(Indices(n))
  {
  }

  /** The activities at the given positions. */
  function Pick(acts: seq<Activity>, rows: seq<int>): (r: seq<Activity>)
    requires forall k :: 0 <= k < |rows| ==> 0 <= rows[k] < |acts|
    ensures |r| == |rows| && forall k :: 0 <= k < |rows| ==> r[k] == acts[rows[k]]
  {
    if rows == [] then [] else [acts[rows[0]]] + Pick(acts, rows[1..])
  }

  /** The positions of the listed activities, in log order. */
  function ListedAt(acts: seq<Activity>, userId: string, entityType: Option<string>): int -> bool {
    (i: int) => 0 <= i < |acts| && Listed(acts[i], userId, entityType)
  }

  /** `ORDER BY created_at DESC` on log positions. */
  function NewestFirst(acts: seq<Activity>): int -> SortKey {
    (i: int) => if 0 <= i < |acts| then SortKey(0, -acts[i].createdAt) else SortKey(0, 0)
  }

  /** The rows `ListPage` picks from the log are listed positions, newest first, `limit` of them unless fewer match. */
  lemma ActivityRows(acts: seq<Activity>, userId: string, entityType: Option<string>, limit: nat)
    ensures var rows := Window(OrderBy(Keep(Indices(|acts|), ListedAt(acts, userId, entityType)), NewestFirst(acts)), 0, limit);
      var n := |set i | 0 <= i < |acts| && Listed(acts[i], userId, entityType)|;
      && (forall k :: 0 <= k < |rows| ==> 0 <= rows[k] < |acts| && Listed(acts[rows[k]], userId, entityType))
      && (forall i, j :: 0 <= i < j < |rows| ==> acts[rows[i]].createdAt >= acts[rows[j]].createdAt)
      && |rows| == (if n < limit then n else limit)
      && Distinct(rows)
  {
    var scan := Indices(|acts|);
    IndicesDistinct(|acts|);
    var keep := ListedAt(acts, userId, entityType);
    var key := NewestFirst(acts);
    forall i | 0 <= i < |acts| ensures i in scan {
      assert scan[i] == i;
    }
    PageCount(scan, keep, set i | 0 <= i < |acts| && Listed(acts[i], userId, entityType));
    PageFacts(scan, keep, key, 0, limit);
    var rows := Window(OrderBy(Keep(scan, keep), key), 0, limit);
    forall k | 0 <= k < |rows| ensures 0 <= rows[k] < |acts| && Listed(acts[rows[k]], userId, entityType) {
      assert rows[k] in rows;
      assert keep(rows[k]);
    }
    forall i, j | 0 <= i < j < |rows| ensures acts[rows[i]].createdAt >= acts[rows[j]].createdAt {
      assert KeyLe(key(rows[i]), key(rows[j]));
    }
  }

  /** The feed `get_activities` returns: the first `limit` listed activities, newest first. */
  function Feed(acts: seq<Activity>, userId: string, entityType: Option<string>, limit: nat): seq<Activity> {
    var rows := Window(OrderBy(Keep(Indices(|acts|), ListedAt(acts, userId, entityType)), NewestFirst(acts)), 0, limit);
    ActivityRows(acts, userId, entityType, limit);
    Pick(acts, rows)
  }

  /**
   * `GET /activities`: the user's most recent activities, newest first.
   * `limit` is only bounded above, so a negative one reaches the database,
   * which refuses it.
   */
  method GetActivities(db: Database, userId: string, limit: int, entityType: Option<string>)
    returns (r: Result<seq<Activity>, HttpError>)
    ensures limit > 100 ==> r == Err(Unprocessable)
    ensures limit < 0 ==> r == Err(ServerError)
    ensures r.Ok? <==> 0 <= limit <= 100
    ensures r.Ok? ==> (
      && r.value == Feed(db.activities, userId, entityType, limit)
      && (forall a :: a in r.value ==> a in db.activities && Listed(a, userId, entityType))
      && (forall i, j :: 0 <= i < j < |r.value| ==> r.value[i].createdAt >= r.value[j].createdAt)
      && (var n := |set i | 0 <= i < |db.activities| && Listed(db.activities[i], userId, entityType)|;
          |r.value| == if n < limit then n else limit))
  {
    if limit > 100 {
      return Err(Unprocessable);
    }
    if limit < 0 {
      return Err(ServerError);
    }
    var acts := db.activities;
    var page := ListPage(Indices(|acts|), ListedAt(acts, userId, entityType), NewestFirst(acts), 0, limit as nat);
    ActivityRows(acts, userId, entityType, limit as nat);
    var shown := Pick(acts, page.rows);
    forall a | a in shown ensures a in acts && Listed(a, userId, entityType) {
      var k :| 0 <= k < |shown| && shown[k] == a;
    }
    r := Ok(shown);
  }

  // ------------------------------------------------------------- analytics

  /** `func.date(created_at)` as a day number. */
  function Day(t: int): int {
    t / SecondsPerDay
  }

  /** The grouped count for one date: events at or after `start` that fall on `day`. */
  function CountOn(events: seq<int>, start: int, day: int): (n: nat)
    ensures n <= |events|
  {
    if events == [] then 0
    else (if events[0] >= start && Day(events[0]) == day then 1 else 0) + CountOn(events[1..], start, day)
  }

  /** The times of the user's activities with the given entity type and action, when these are given. */
  function Times(acts: seq<Activity>, userId: string, entityType: Option<string>, action: Option<string>): (ts: seq<int>)
    ensures |ts| <= |acts|
  {
    if acts == [] then []
    else
      var a := acts[0];
      (if a.userId == userId && (entityType.None? || a.entityType == entityType.value) && (action.None? || a.action == action.value)
       then [a.createdAt] else [])
      + Times(acts[1..], userId, entityType, action)
  }

  datatype DayCount = DayCount(day: int, count: nat)

  /** `series` is the day series of `events` over the `cutoff` days up to `today`. */
  predicate IsSeries(series: seq<DayCount>, events: seq<int>, start: int, today: int, cutoff: int) {
    && |series| == (if cutoff > 0 then cutoff else 0)
    && forall k :: 0 <= k < |series| ==>
         series[k] == DayCount(today - (cutoff - 1 - k), CountOn(events, start, today - (cutoff - 1 - k)))
  }

  /**
   * The loop `for i in range(cutoff - 1, -1, -1)`: one entry per day from
   * `cutoff - 1` days before `today` up to `today`, each with its grouped
   * count (0 for a day without events); none at all for a cutoff below 1.
   */
  method DaySeries(events: seq<int>, start: int, today: int, cutoff: int) returns (series: seq<DayCount>)
    ensures IsSeries(series, events, start, today, cutoff)
    ensures cutoff > 0 ==> series[|series| - 1].day == today
  {
    series := [];
    var i := cutoff - 1;
    while i >= 0
      invariant i >= -1 || i == cutoff - 1
      invariant i <= cutoff - 1
      invariant |series| == cutoff - 1 - i
      invariant forall k :: 0 <= k < |series| ==>
        series[k] == DayCount(today - (cutoff - 1 - k), CountOn(events, start, today - (cutoff - 1 - k)))
    {
      var date := today - i;
      series := series + [DayCount(date, CountOn(events, start, date))];
      i := i - 1;
    }
  }

  /** The days of a series are consecutive and ascending. */
  lemma SeriesConsecutive(series: seq<DayCount>, events: seq<int>, start: int, today: int, cutoff: int, k: nat)
    requires IsSeries(series, events, start, today, cutoff)
    requires k + 1 < |series|
    ensures series[k + 1].day == series[k].day + 1
  {
  }

  /** The group counts of `values`: one entry per value that occurs, never a zero count. */
  function CountsBy(values: seq<string>): (m: map<string, nat>)
    ensures forall v :: v in m <==> v in values
    ensures forall v :: v in m ==> m[v] == multiset(values)[v] && m[v] > 0
  {
    map v | v in values :: multiset(values)[v]
  }

  /** `d.get(key, 0)`. */
  function CountOf(m: map<string, nat>, key: string): nat {
    if key in m then m[key] else 0
  }

  /** No group holds more rows than there are. */
  lemma {:induction false} CountAtMostSize(values: seq<string>, v: string)
    ensures multiset(values)[v] <= |values|
  {
    if values != [] {
      CountAtMostSize(values[1..], v);
      assert values == [values[0]] + values[1..];
    }
  }

  /** A quotient stays below any bound its dividend stays below in multiples of the divisor. */
  lemma QuotientBelow(a: nat, d: nat, b: nat)
    requires d > 0 && a < b * d
    ensures a / d < b
  {
    var q := a / d;
    assert q * d <= a;
  }

  /**
   * `int(completed / max(total, 1) * 100)`, computed exactly: the share of
   * completed tasks in percent, rounded down.
   */
  function Score(completed: nat, total: nat): (s: nat)
    requires completed <= total
    ensures s <= 100
    ensures total == 0 ==> s == 0
    ensures 0 < total && completed == total ==> s == 100
    ensures completed < total ==> s < 100
  {
    var d := if total > 1 then total else 1;
    ScoreFacts(completed, total, d);
    (completed * 100) / d
  }

  lemma ScoreFacts(completed: nat, total: nat, d: nat)
    requires completed <= total && d == (if total > 1 then total else 1)
    ensures (completed * 100) / d <= 100
    ensures total == 0 ==> (completed * 100) / d == 0
    ensures 0 < total && completed == total ==> (completed * 100) / d == 100
    ensures completed < total ==> (completed * 100) / d < 100
  {
    assert completed <= d;
    assert completed * 100 <= d * 100;
    QuotientBelow(completed * 100, d, 101);
    if completed < total {
      assert completed * 100 < total * 100;
      QuotientBelow(completed * 100, d, 100);
    }
    if 0 < total && completed == total {
      assert completed * 100 == 100 * d;
    }
  }

  /** The productivity score of the user's tasks, given by their statuses. */
  function Productivity(statuses: seq<string>): (s: nat)
    ensures s <= 100
    ensures statuses == [] ==> s == 0
    ensures statuses != [] && (forall k :: 0 <= k < |statuses| ==> statuses[k] == "completed") ==> s == 100
  {
    CountAtMostSize(statuses, "completed");
    AllSame(statuses, "completed");
    Score(CountOf(CountsBy(statuses), "completed"), |statuses|)
  }

  lemma {:induction false} AllSame(values: seq<string>, v: string)
    ensures (forall k :: 0 <= k < |values| ==> values[k] == v) ==> multiset(values)[v] == |values|
  {
    if values != [] && (forall k :: 0 <= k < |values| ==> values[k] == v) {
      AllSame(values[1..], v);
      assert values == [values[0]] + values[1..];
    }
  }

  /** `min(days, 14)`: the number of days the series cover. */
  function Cutoff(days: int): (c: int)
    ensures c <= 14 && c <= days && (c == days || c == 14)
  {
    if days < 14 then days else 14
  }

  /**
   * The three day series of the analytics response over the window of
   * `Cutoff(days)` days ending on the day of `now`: completed tasks,
   * published posts and all of the user's activity.
   */
  predicate IsActivitySeries(completed: seq<DayCount>, published: seq<DayCount>, all: seq<DayCount>,
                             acts: seq<Activity>, userId: string, days: int, now: int)
  {
    var cutoff := Cutoff(days);
    var start, today := now - cutoff * SecondsPerDay, Day(now);
    && IsSeries(completed, Times(acts, userId, Some("task"), Some("completed")), start, today, cutoff)
    && IsSeries(published, Times(acts, userId, Some("post"), Some("published")), start, today, cutoff)
    && IsSeries(all, Times(acts, userId, None, None), start, today, cutoff)
  }

  method ActivitySeries(acts: seq<Activity>, userId: string, days: int, now: int)
    returns (completed: seq<DayCount>, published: seq<DayCount>, all: seq<DayCount>)
    ensures IsActivitySeries(completed, published, all, acts, userId, days, now)
  {
    var cutoff := Cutoff(days);
    var start, today := now - cutoff * SecondsPerDay, Day(now);
    completed := DaySeries(Times(acts, userId, Some("task"), Some("completed")), start, today, cutoff);
    published := DaySeries(Times(acts, userId, Some("post"), Some("published")), start, today, cutoff);
    all := DaySeries(Times(acts, userId, None, None), start, today, cutoff);
  }

  datatype Analytics = Analytics(
    tasksByStatus: map<string, nat>, tasksByPriority: map<string, nat>,
    tasksCompletedOverTime: seq<DayCount>, notesByColor: map<string, nat>,
    postsPublishedOverTime: seq<DayCount>, activityOverTime: seq<DayCount>, productivityScore: nat)

  /** The values `field` takes over the user's rows, in scan order. */
  function TaskValues(tasks: map<string, Task>, userId: string, scan: seq<string>, byPriority: bool): seq<string> {
    if scan == [] then []
    else
      var id := scan[0];
      (if id in tasks && tasks[id].userId == userId then [if byPriority then tasks[id].priority else tasks[id].status] else [])
      + TaskValues(tasks, userId, scan[1..], byPriority)
  }

  function NoteColors(notes: map<string, Note>, userId: string, scan: seq<string>): seq<string> {
    if scan == [] then []
    else
      var id := scan[0];
      (if id in notes && notes[id].userId == userId then [notes[id].color] else []) + NoteColors(notes, userId, scan[1..])
  }

  /**
   * `GET /analytics`: `days` beyond 365 is refused; the series cover the
   * last `min(days, 14)` days; the score is the completed share of the
   * user's tasks.
   */
  method GetAnalytics(db: Database, userId: string, days: int, now: int, taskScan: seq<string>, noteScan: seq<string>)
    returns (r: Result<Analytics, HttpError>)
    requires ScanOf(taskScan, db.tasks) && ScanOf(noteScan, db.notes)
    ensures r.Err? <==> days > 365
    ensures r.Err? ==> r.error == Unprocessable
    ensures r.Ok? ==> r.value.tasksByStatus == CountsBy(TaskValues(db.tasks, userId, taskScan, false))
    ensures r.Ok? ==> r.value.tasksByPriority == CountsBy(TaskValues(db.tasks, userId, taskScan, true))
    ensures r.Ok? ==> r.value.notesByColor == CountsBy(NoteColors(db.notes, userId, noteScan))
    ensures r.Ok? ==> r.value.productivityScore == Productivity(TaskValues(db.tasks, userId, taskScan, false))
    ensures r.Ok? ==> IsActivitySeries(r.value.tasksCompletedOverTime, r.value.postsPublishedOverTime,
      r.value.activityOverTime, db.activities, userId, days, now)
  {
    if days > 365 {
      return Err(Unprocessable);
    }
    var tasks, notes := db.tasks, db.notes;
    var completed, published, activity := ActivitySeries(db.activities, userId, days, now);
    var statuses := TaskValues(tasks, userId, taskScan, false);
    var byStatus := CountsBy(statuses);
    var byPriority := CountsBy(TaskValues(tasks, userId, taskScan, true));
    var byColor := CountsBy(NoteColors(notes, userId, noteScan));
    var score := Productivity(statuses);
    r := Ok(Analytics(byStatus, byPriority, completed, byColor, published, activity, score));
  }

  // ---------------------------------------------------------------- export

  /** A value of an exported record: text, `null`, a boolean, a timestamp or a list of tag names. */
  datatype Cell = Str(s: string) | Null | Flag(b: bool) | Stamp(t: int) | Names(items: seq<string>)
  datatype Field = Field(name: string, value: Cell)
  datatype Section = Section(name: string, rows: seq<seq<Field>>)

  function OptStr(s: Option<string>): Cell {
    if s.Some? then Str(s.value) else Null
  }

  function OptStamp(t: Option<int>): Cell {
    if t.Some? then Stamp(t.value) else Null
  }

  /**
   * `[tag.name for tag in t.tags]`: the names of the tags in `ids`, in the
   * order the tag table is scanned.
   */
  function TagNames(tags: map<string, Tag>, tagScan: seq<string>, ids: set<string>): (names: seq<string>)
    ensures |names| <= |tagScan|
    ensures forall n :: n in names ==> exists id :: id in ids && id in tags && tags[id].name == n
    ensures forall id :: id in tagScan && id in ids && id in tags ==> tags[id].name in names
  {
    if tagScan == [] then []
    else
      var rest := TagNames(tags, tagScan[1..], ids);
      assert forall id :: id in tagScan ==> id == tagScan[0] || id in tagScan[1..];
      (if tagScan[0] in ids && tagScan[0] in tags then [tags[tagScan[0]].name] else []) + rest
  }

  /** The tags of `ids` that exist in the tag table. */
  function Tagged(tags: map<string, Tag>, ids: set<string>): string -> bool {
    id => id in ids && id in tags
  }

  /** The names are those of the scanned tags in `ids`, one per tag, in scan order. */
  lemma {:induction false} TagNamesOfKept(tags: map<string, Tag>, tagScan: seq<string>, ids: set<string>)
    ensures |TagNames(tags, tagScan, ids)| == |Keep(tagScan, Tagged(tags, ids))|
    ensures forall k :: 0 <= k < |TagNames(tags, tagScan, ids)| ==>
      Keep(tagScan, Tagged(tags, ids))[k] in tags
      && TagNames(tags, tagScan, ids)[k] == tags[Keep(tagScan, Tagged(tags, ids))[k]].name
  {
    if tagScan != [] {
      TagNamesOfKept(tags, tagScan[1..], ids);
    }
  }

  /** Over a tag scan that lists each tag once, every tag of `ids` gives exactly one name. */
  lemma TagNamesOnePerTag(tags: map<string, Tag>, tagScan: seq<string>, ids: set<string>)
    requires Distinct(tagScan)
    ensures |TagNames(tags, tagScan, ids)| == |set id | id in tagScan && id in ids && id in tags|
  {
    TagNamesOfKept(tags, tagScan, ids);
    PageCount(tagScan, Tagged(tags, ids), set id | id in tagScan && id in ids && id in tags);
  }

  function TaskRecord(id: string, t: Task, names: seq<string>): seq<Field> {
    [Field("id", Str(id)), Field("title", Str(t.title)), Field("description", OptStr(t.description)),
     Field("status", Str(t.status)), Field("priority", Str(t.priority)), Field("due_date", OptStamp(t.dueDate)),
     Field("tags", Names(names)), Field("created_at", Stamp(t.createdAt)), Field("updated_at", Stamp(t.updatedAt))]
  }

  function NoteRecord(id: string, n: Note, names: seq<string>): seq<Field> {
    [Field("id", Str(id)), Field("title", Str(n.title)), Field("content", OptStr(n.content)),
     Field("color", Str(n.color)), Field("is_pinned", Flag(n.isPinned)), Field("tags", Names(names)),
     Field("created_at", Stamp(n.createdAt)), Field("updated_at", Stamp(n.updatedAt))]
  }

  function PostRecord(id: string, p: Post, names: seq<string>): seq<Field> {
    [Field("id", Str(id)), Field("title", Str(p.title)), Field("content", OptStr(p.content)),
     Field("is_published", Flag(p.isPublished)), Field("published_at", OptStamp(p.publishedAt)),
     Field("tags", Names(names)), Field("created_at", Stamp(p.createdAt)), Field("updated_at", Stamp(p.updatedAt))]
  }

  /** The list comprehension over a table's selected rows, in scan order. */
  function Records(scan: seq<string>, keep: string -> bool, record: string -> seq<Field>): seq<seq<Field>> {
    var ids := Keep(scan, keep);
    seq(|ids|, k requires 0 <= k < |ids| => record(ids[k]))
  }

  /** Over a scan that lists each row once, the comprehension gives one record per selected row and no other. */
  lemma RecordsFacts(scan: seq<string>, keep: string -> bool, record: string -> seq<Field>, owned: set<string>)
    requires Distinct(scan)
    requires forall id :: id in owned ==> id in scan && keep(id)
    requires forall id :: id in scan && keep(id) ==> id in owned
    ensures |Records(scan, keep, record)| == |owned|
    ensures forall id :: id in owned ==> record(id) in Records(scan, keep, record)
    ensures forall row :: row in Records(scan, keep, record) ==> exists id :: id in owned && row == record(id)
  {
    var ids := Keep(scan, keep);
    var rows := Records(scan, keep, record);
    PageCount(scan, keep, owned);
    KeepFacts(scan, keep);
    forall id | id in owned ensures record(id) in rows {
      var k :| 0 <= k < |ids| && ids[k] == id;
      assert rows[k] == record(id);
    }
    forall row | row in rows ensures exists id :: id in owned && row == record(id) {
      var k :| 0 <= k < |rows| && rows[k] == row;
      assert ids[k] in ids;
    }
  }

  /** `data["tasks"]`: one record per task of the user, carrying its fields and tag names. */
  function TaskRecords(db: Database, userId: string, scan: seq<string>, tagScan: seq<string>): (rows: seq<seq<Field>>)
    reads db
    requires ScanOf(scan, db.tasks)
    ensures |rows| == |set id | id in db.tasks && db.tasks[id].userId == userId|
    ensures forall id :: id in db.tasks && db.tasks[id].userId == userId ==>
      TaskRecord(id, db.tasks[id], TagNames(db.tags, tagScan, db.tasks[id].tags)) in rows
    ensures forall row :: row in rows ==> exists id ::
      && id in db.tasks && db.tasks[id].userId == userId
      && row == TaskRecord(id, db.tasks[id], TagNames(db.tags, tagScan, db.tasks[id].tags))
  {
    var tasks, tags := db.tasks, db.tags;
    var keep := (id: string) => id in tasks && tasks[id].userId == userId;
    var record := (id: string) => if id in tasks then TaskRecord(id, tasks[id], TagNames(tags, tagScan, tasks[id].tags)) else [];
    RecordsFacts(scan, keep, record, set id | id in tasks && tasks[id].userId == userId);
    Records(scan, keep, record)
  }

  /** `data["notes"]`: one record per note of the user, carrying its fields and tag names. */
  function NoteRecords(db: Database, userId: string, scan: seq<string>, tagScan: seq<string>): (rows: seq<seq<Field>>)
    reads db
    requires ScanOf(scan, db.notes)
    ensures |rows| == |set id | id in db.notes && db.notes[id].userId == userId|
    ensures forall id :: id in db.notes && db.notes[id].userId == userId ==>
      NoteRecord(id, db.notes[id], TagNames(db.tags, tagScan, db.notes[id].tags)) in rows
    ensures forall row :: row in rows ==> exists id ::
      && id in db.notes && db.notes[id].userId == userId
      && row == NoteRecord(id, db.notes[id], TagNames(db.tags, tagScan, db.notes[id].tags))
  {
    var notes, tags := db.notes, db.tags;
    var keep := (id: string) => id in notes && notes[id].userId == userId;
    var record := (id: string) => if id in notes then NoteRecord(id, notes[id], TagNames(tags, tagScan, notes[id].tags)) else [];
    RecordsFacts(scan, keep, record, set id | id in notes && notes[id].userId == userId);
    Records(scan, keep, record)
  }

  /** `data["posts"]`: one record per post of the user, carrying its fields and tag names. */
  function PostRecords(db: Database, userId: string, scan: seq<string>, tagScan: seq<string>): (rows: seq<seq<Field>>)
    reads db
    requires ScanOf(scan, db.posts)
    ensures |rows| == |set id | id in db.posts && db.posts[id].userId == userId|
    ensures forall id :: id in db.posts && db.posts[id].userId == userId ==>
      PostRecord(id, db.posts[id], TagNames(db.tags, tagScan, db.posts[id].tags)) in rows
    ensures forall row :: row in rows ==> exists id ::
      && id in db.posts && db.posts[id].userId == userId
      && row == PostRecord(id, db.posts[id], TagNames(db.tags, tagScan, db.posts[id].tags))
  {
    var posts, tags := db.posts, db.tags;
    var keep := (id: string) => id in posts && posts[id].userId == userId;
    var record := (id: string) => if id in posts then PostRecord(id, posts[id], TagNames(tags, tagScan, posts[id].tags)) else [];
    RecordsFacts(scan, keep, record, set id | id in posts && posts[id].userId == userId);
    Records(scan, keep, record)
  }

  /** `entity_type in [name, "all"]`. */
  predicate Includes(entityType: string, name: string) {
    entityType == name || entityType == "all"
  }

  /** The section names an export request yields, in the order the data dict is filled. */
  function SectionNames(entityType: string): (names: seq<string>)
    ensures "tasks" in names <==> Includes(entityType, "tasks")
    ensures "notes" in names <==> Includes(entityType, "notes")
    ensures "posts" in names <==> Includes(entityType, "posts")
    ensures forall n :: n in names ==> n == "tasks" || n == "notes" || n == "posts"
    ensures entityType == "all" ==> names == ["tasks", "notes", "posts"]
  {
    (if Includes(entityType, "tasks") then ["tasks"] else [])
    + (if Includes(entityType, "notes") then ["notes"] else [])
    + (if Includes(entityType, "posts") then ["posts"] else [])
  }

  /** An unknown entity type exports nothing. */
  lemma UnknownTypeExportsNothing(entityType: string)
    requires entityType !in {"tasks", "notes", "posts", "all"}
    ensures SectionNames(entityType) == []
  {
  }

  /** Each scan lists its table's keys once: the rows the database returns. */
  predicate ScansOf(db: Database, scans: Scans)
    reads db
  {
    ScanOf(scans.tasks, db.tasks) && ScanOf(scans.notes, db.notes) && ScanOf(scans.posts, db.posts) && ScanOf(scans.tags, db.tags)
  }

  function SectionRows(db: Database, userId: string, name: string, scans: Scans): seq<seq<Field>>
    reads db
    requires ScansOf(db, scans)
  {
    if name == "tasks" then TaskRecords(db, userId, scans.tasks, scans.tags)
    else if name == "notes" then NoteRecords(db, userId, scans.notes, scans.tags)
    else PostRecords(db, userId, scans.posts, scans.tags)
  }

  /** The order the database returns each table's rows. */
  datatype Scans = Scans(tasks: seq<string>, notes: seq<string>, posts: seq<string>, tags: seq<string>)

  function SectionsFor(db: Database, userId: string, names: seq<string>, scans: Scans): (sections: seq<Section>)
    reads db
    requires ScansOf(db, scans)
    ensures |sections| == |names|
    ensures forall k :: 0 <= k < |sections| ==> (sections[k].name == names[k]
      && sections[k].rows == SectionRows(db, userId, names[k], scans))
  {
    if names == [] then [] else [Section(names[0], SectionRows(db, userId, names[0], scans))] + SectionsFor(db, userId, names[1..], scans)
  }

  /** The `data` dict of `export_data`: a section per included entity type, in the order tasks, notes, posts. */
  function ExportSections(db: Database, userId: string, entityType: string, scans: Scans): seq<Section>
    reads db
    requires ScansOf(db, scans)
  {
    SectionsFor(db, userId, SectionNames(entityType), scans)
  }

  /** A CSV cell: a list of tag names is joined with `", "`, every other value passes through. */
  function Flatten(f: Field): (g: Field)
    ensures g.name == f.name
    ensures f.value.Names? ==> g.value == Str(Join(f.value.items, ", "))
    ensures !f.value.Names? ==> g == f
  {
    if f.value.Names? then Field(f.name, Str(Join(f.value.items, ", "))) else f
  }

  function FlattenRow(row: seq<Field>): (r: seq<Field>)
    ensures |r| == |row| && forall k :: 0 <= k < |row| ==> r[k] == Flatten(row[k])
  {
    seq(|row|, k requires 0 <= k < |row| => Flatten(row[k]))
  }

  function Header(row: seq<Field>): (h: seq<string>)
    ensures |h| == |row| && forall k :: 0 <= k < |row| ==> h[k] == row[k].name
  {
    seq(|row|, k requires 0 <= k < |row| => row[k].name)
  }

  /** One section of the CSV: its title line, the header taken from its first row, and the flattened rows. */
  datatype CsvBlock = CsvBlock(title: string, header: seq<string>, rows: seq<seq<Field>>)

  function Block(s: Section): CsvBlock
    requires s.rows != []
  {
    CsvBlock("\n=== " + Upper(s.name) + " ===\n", Header(s.rows[0]),
      seq(|s.rows|, k requires 0 <= k < |s.rows| => FlattenRow(s.rows[k])))
  }

  /** The blocks the CSV writer emits for `sections`: one per non-empty section, in order. */
  function CsvBlocks(sections: seq<Section>): seq<CsvBlock> {
    if sections == [] then []
    else (if sections[0].rows != [] then [Block(sections[0])] else []) + CsvBlocks(sections[1..])
  }

  /** The writing loop over `data.items()`. */
  method WriteCsv(sections: seq<Section>) returns (blocks: seq<CsvBlock>)
    ensures blocks == CsvBlocks(sections)
  {
    blocks := [];
    var i := 0;
    while i < |sections|
      invariant 0 <= i <= |sections|
      invariant blocks + CsvBlocks(sections[i..]) == CsvBlocks(sections)
    {
      assert sections[i..][1..] == sections[i + 1..];
      if sections[i].rows != [] {
        blocks := blocks + [Block(sections[i])];
      }
      i := i + 1;
    }
    assert sections[i..] == [];
  }

  /** The CSV holds no list cells, no empty block, and exactly one block per non-empty section. */
  lemma {:induction false} CsvBlocksFacts(sections: seq<Section>)
    ensures |CsvBlocks(sections)| <= |sections|
    ensures forall b :: b in CsvBlocks(sections) ==> b.rows != [] && |b.header| == |b.rows[0]|
    ensures forall b, row, f :: b in CsvBlocks(sections) && row in b.rows && f in row ==> !f.value.Names?
    ensures (forall s :: s in sections ==> s.rows != []) ==> |CsvBlocks(sections)| == |sections|
  {
    if sections != [] {
      CsvBlocksFacts(sections[1..]);
      if sections[0].rows != [] {
        var b := Block(sections[0]);
        forall row, f | row in b.rows && f in row ensures !f.value.Names? {
          var k :| 0 <= k < |b.rows| && b.rows[k] == row;
          var j :| 0 <= j < |row| && row[j] == f;
          assert f == Flatten(sections[0].rows[k][j]);
        }
      }
      forall s | s in sections[1..] ensures s in sections {
      }
    }
  }

  datatype Export = Json(data: seq<Section>) | Csv(blocks: seq<CsvBlock>)

  /** `POST /export`: JSON only for the format `"json"`, CSV for anything else. */
  method ExportData(db: Database, userId: string, entityType: string, format: string, scans: Scans) returns (e: Export)
    requires ScansOf(db, scans)
    ensures format == "json" ==> e == Json(ExportSections(db, userId, entityType, scans))
    ensures format != "json" ==> e == Csv(CsvBlocks(ExportSections(db, userId, entityType, scans)))
  {
    var data := ExportSections(db, userId, entityType, scans);
    if format == "json" {
      e := Json(data);
    } else {
      var blocks := WriteCsv(data);
      e := Csv(blocks);
    }
  }

  // ------------------------------------------------------- dashboard stats

  datatype Stats = Stats(
    taskTotal: nat, taskCompleted: nat, taskInProgress: nat, noteTotal: nat, notePinned: nat,
    postTotal: nat, postPublished: nat, tagTotal: nat)

  /** `func.count(id)` over the rows of a table scan that a `WHERE`/`FILTER` condition selects. */
  function RowCount(scan: seq<string>, selects: string -> bool): nat {
    |Keep(scan, selects)|
  }

  /** The first query: all, completed and in-progress tasks of the user. */
  function TaskCounts(tasks: map<string, Task>, scan: seq<string>, userId: string): (c: (nat, nat, nat))
    requires ScanOf(scan, tasks)
    ensures c.0 == |set id | id in tasks && tasks[id].userId == userId|
    ensures c.1 == |set id | id in tasks && tasks[id].userId == userId && tasks[id].status == "completed"|
    ensures c.2 == |set id | id in tasks && tasks[id].userId == userId && tasks[id].status == "in_progress"|
  {
    var own := (id: string) => id in tasks && tasks[id].userId == userId;
    var completed := (id: string) => id in tasks && tasks[id].userId == userId && tasks[id].status == "completed";
    var inProgress := (id: string) => id in tasks && tasks[id].userId == userId && tasks[id].status == "in_progress";
    PageCount(scan, own, set id | id in tasks && tasks[id].userId == userId);
    PageCount(scan, completed, set id | id in tasks && tasks[id].userId == userId && tasks[id].status == "completed");
    PageCount(scan, inProgress, set id | id in tasks && tasks[id].userId == userId && tasks[id].status == "in_progress");
    (RowCount(scan, own), RowCount(scan, completed), RowCount(scan, inProgress))
  }

  /** The second query: all and pinned notes of the user. */
  function NoteCounts(notes: map<string, Note>, scan: seq<string>, userId: string): (c: (nat, nat))
    requires ScanOf(scan, notes)
    ensures c.0 == |set id | id in notes && notes[id].userId == userId|
    ensures c.1 == |set id | id in notes && notes[id].userId == userId && notes[id].isPinned|
  {
    var own := (id: string) => id in notes && notes[id].userId == userId;
    var pinned := (id: string) => id in notes && notes[id].userId == userId && notes[id].isPinned;
    PageCount(scan, own, set id | id in notes && notes[id].userId == userId);
    PageCount(scan, pinned, set id | id in notes && notes[id].userId == userId && notes[id].isPinned);
    (RowCount(scan, own), RowCount(scan, pinned))
  }

  /** The third query: all and published posts of the user. */
  function PostCounts(posts: map<string, Post>, scan: seq<string>, userId: string): (c: (nat, nat))
    requires ScanOf(scan, posts)
    ensures c.0 == |set id | id in posts && posts[id].userId == userId|
    ensures c.1 == |set id | id in posts && posts[id].userId == userId && posts[id].isPublished|
  {
    var own := (id: string) => id in posts && posts[id].userId == userId;
    var published := (id: string) => id in posts && posts[id].userId == userId && posts[id].isPublished;
    PageCount(scan, own, set id | id in posts && posts[id].userId == userId);
    PageCount(scan, published, set id | id in posts && posts[id].userId == userId && posts[id].isPublished);
    (RowCount(scan, own), RowCount(scan, published))
  }

  /** The fourth query: the user's tags. */
  function TagCount(tags: map<string, Tag>, scan: seq<string>, userId: string): (c: nat)
    requires ScanOf(scan, tags)
    ensures c == |set id | id in tags && tags[id].userId == userId|
  {
    var own := (id: string) => id in tags && tags[id].userId == userId;
    PageCount(scan, own, set id | id in tags && tags[id].userId == userId);
    RowCount(scan, own)
  }

  /** `GET /dashboard/stats`: each count is the number of the user's rows its `FILTER` selects. */
  function DashboardStats(db: Database, userId: string, scans: Scans): (s: Stats)
    reads db
    requires ScansOf(db, scans)
    ensures s.taskTotal == |set id | id in db.tasks && db.tasks[id].userId == userId|
    ensures s.taskCompleted == |set id | id in db.tasks && db.tasks[id].userId == userId && db.tasks[id].status == "completed"|
    ensures s.taskInProgress == |set id | id in db.tasks && db.tasks[id].userId == userId && db.tasks[id].status == "in_progress"|
    ensures s.noteTotal == |set id | id in db.notes && db.notes[id].userId == userId|
    ensures s.notePinned == |set id | id in db.notes && db.notes[id].userId == userId && db.notes[id].isPinned|
    ensures s.postTotal == |set id | id in db.posts && db.posts[id].userId == userId|
    ensures s.postPublished == |set id | id in db.posts && db.posts[id].userId == userId && db.posts[id].isPublished|
    ensures s.tagTotal == |set id | id in db.tags && db.tags[id].userId == userId|
  {
    var t := TaskCounts(db.tasks, scans.tasks, userId);
    var n := NoteCounts(db.notes, scans.notes, userId);
    var p := PostCounts(db.posts, scans.posts, userId);
    Stats(t.0, t.1, t.2, n.0, n.1, p.0, p.1, TagCount(db.tags, scans.tags, userId))
  }

  /** The filtered counts never exceed their totals, and completed and in-progress tasks are counted apart. */
  lemma StatsBounded(db: Database, userId: string, scans: Scans)
    requires ScansOf(db, scans)
    ensures var s := DashboardStats(db, userId, scans);
      && s.taskCompleted + s.taskInProgress <= s.taskTotal
      && s.notePinned <= s.noteTotal && s.postPublished <= s.postTotal
  {
    var tasks := set id | id in db.tasks && db.tasks[id].userId == userId;
    var completed := set id | id in db.tasks && db.tasks[id].userId == userId && db.tasks[id].status == "completed";
    var inProgress := set id | id in db.tasks && db.tasks[id].userId == userId && db.tasks[id].status == "in_progress";
    SubsetCard(completed + inProgress, tasks);
    assert completed * inProgress == {};
    SubsetCard(set id | id in db.notes && db.notes[id].userId == userId && db.notes[id].isPinned,
      set id | id in db.notes && db.notes[id].userId == userId);
    SubsetCard(set id | id in db.posts && db.posts[id].userId == userId && db.posts[id].isPublished,
      set id | id in db.posts && db.posts[id].userId == userId);
  }

  lemma SubsetCard(a: set<string>, b: set<string>)
    requires a <= b
    ensures |a| <= |b|
  {
    assert b == a + (b - a);
  }
}
