/**
 * The server's tables as an in-memory store (backend/models.py gives the
 * shapes): each table maps a row id to its record, every record carries
 * the id of the user who owns it, and the activity log is a sequence in
 * insertion order.  Timestamps are integers (seconds); ids are given by
 * the caller in place of `uuid4`.
 */
module Store {
  import opened Wrappers
  import SearchSanitizer
  import Listing

  datatype User = User(
    email: string, passwordHash: string, fullName: string, bio: Option<string>,
    avatarUrl: Option<string>, createdAt: int, updatedAt: int)

  datatype Tag = Tag(userId: string, name: string, color: string, createdAt: int)

  /** A task; `tags` is the set of its rows in `task_tags`. */
  datatype Task = Task(
    userId: string, title: string, description: Option<string>, status: string, priority: string,
    dueDate: Option<int>, position: int, tags: set<string>, createdAt: int, updatedAt: int)

  datatype Note = Note(
    userId: string, title: string, content: Option<string>, color: string, isPinned: bool,
    tags: set<string>, createdAt: int, updatedAt: int)

  datatype Post = Post(
    userId: string, title: string, content: Option<string>, isPublished: bool,
    publishedAt: Option<int>, tags: set<string>, createdAt: int, updatedAt: int)

  datatype Activity = Activity(
    userId: string, action: string, entityType: string, entityId: Option<string>,
    entityTitle: Option<string>, details: Option<string>, createdAt: int)

  /** An `HTTPException`: its status code and `detail`. */
  datatype HttpError = HttpError(status: nat, detail: string)

  class Database {
    var users: map<string, User>
    var tags: map<string, Tag>
    var tasks: map<string, Task>
    var notes: map<string, Note>
    var posts: map<string, Post>
    var activities: seq<Activity>

    constructor ()
      ensures users == map[] && tags == map[] && tasks == map[] && notes == map[] && posts == map[]
      ensures activities == []
    {
      users, tags, tasks, notes, posts := map[], map[], map[], map[], map[];
      activities := [];
    }

    /** `users.email` is declared `unique`. */
    predicate EmailsUnique()
      reads this
    {
      forall a, b :: a in users && b in users && users[a].email == users[b].email ==> a == b
    }

    /** `log_activity`: one row appended to the log; nothing else changes. */
    method LogActivity(userId: string, action: string, entityType: string, entityId: string, entityTitle: string, now: int)
      modifies this
      ensures activities == old(activities) + [Activity(userId, action, entityType, Some(entityId), Some(entityTitle), None, now)]
      ensures users == old(users) && tags == old(tags) && tasks == old(tasks)
      ensures notes == old(notes) && posts == old(posts)
    {
      activities := activities + [Activity(userId, action, entityType, Some(entityId), Some(entityTitle), None, now)];
    }
  }

  /** The ids of `tagIds` that name a tag of `userId`. */
  function OwnedTagIds(tags: map<string, Tag>, userId: string, tagIds: seq<string>): set<string> {
    set id | id in tagIds && id in tags && tags[id].userId == userId
  }

  /**
   * The loop that looks each id up with `Tag.user_id == current_user.id`
   * and appends the tags found.
   */
  method SelectOwnedTags(tags: map<string, Tag>, userId: string, tagIds: seq<string>) returns (found: set<string>)
    ensures found == OwnedTagIds(tags, userId, tagIds)
    ensures forall id :: id in found ==> id in tagIds && id in tags && tags[id].userId == userId
    ensures forall i :: 0 <= i < |tagIds| && tagIds[i] in tags && tags[tagIds[i]].userId == userId ==> tagIds[i] in found
  {
    found := {};
    var i := 0;
    while i < |tagIds|
      invariant 0 <= i <= |tagIds|
      invariant found == OwnedTagIds(tags, userId, tagIds[..i])
    {
      var id := tagIds[i];
      if id in tags && tags[id].userId == userId {
        found := found + {id};
      }
      assert tagIds[..i + 1] == tagIds[..i] + [id];
      i := i + 1;
    }
    assert tagIds[..i] == tagIds;
  }

  /** `ILIKE`, which belongs to the database: does `text` match `pattern`? */
  type Matcher = (string, string) -> bool

  /**
   * The `search` filter of the list routes: applied only for a non-empty
   * term, it keeps a row whose title, or whose non-null body, matches the
   * escaped pattern `%term%`.
   */
  predicate SearchHit(ilike: Matcher, search: Option<string>, title: string, body: Option<string>) {
    search.None? || search.value == []
    || ilike(SearchSanitizer.SearchPattern(search.value), title)
    || (body.Some? && ilike(SearchSanitizer.SearchPattern(search.value), body.value))
  }

  /** A `tag_id` filter: applied only for a non-empty id. */
  predicate TagHit(tagId: Option<string>, tags: set<string>) {
    tagId.None? || tagId.value == [] || tagId.value in tags
  }

  /** `limit: int = Query(20, ge=1, le=100)` and `offset: int = Query(0, ge=0)`. */
  predicate PagingValid(limit: int, offset: int) {
    1 <= limit <= 100 && offset >= 0
  }

  /** FastAPI's answer to a query parameter that fails its declaration. */
  const Unprocessable := HttpError(422, "Unprocessable Entity")

  /** `scan` lists the keys of `m` once each, in the order the database visits them. */
  predicate ScanOf<V>(scan: seq<string>, m: map<string, V>) {
    Listing.Distinct(scan) && (forall id :: id in scan ==> id in m) && (forall id :: id in m ==> id in scan)
  }
}
