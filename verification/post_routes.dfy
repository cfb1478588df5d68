/** The post endpoints (backend/routes/posts.py) over the in-memory store. */
module PostRoutes {
  import opened Wrappers
  import opened Store
  import opened Listing
  import opened Schemas

  const NotFound := HttpError(404, "Post not found")

  datatype PostFilter = PostFilter(search: Option<string>, isPublished: Option<bool>, tagId: Option<string>)

  /** The `WHERE` clause of `get_posts`. */
  predicate Selected(p: Post, userId: string, f: PostFilter, ilike: Matcher) {
    p.userId == userId
    && SearchHit(ilike, f.search, p.title, p.content)
    && (f.isPublished.Some? ==> p.isPublished == f.isPublished.value)
    && TagHit(f.tagId, p.tags)
  }

  /** `ORDER BY created_at DESC`. */
  function OrderKey(p: Post): SortKey {
    SortKey(0, -p.createdAt)
  }

  /** The rows the `WHERE` clause keeps, as a test on post ids. */
  function Matches(posts: map<string, Post>, userId: string, f: PostFilter, ilike: Matcher): string -> bool {
    (id: string) => id in posts && Selected(posts[id], userId, f, ilike)
  }

  /** `OrderKey` on post ids. */
  function IdOrder(posts: map<string, Post>): string -> SortKey {
    (id: string) => if id in posts then OrderKey(posts[id]) else SortKey(0, 0)
  }

  /** `GET /posts`: the count of the user's matching posts and the page of them, newest first. */
  method ListPosts(
    db: Database, userId: string, scan: seq<string>, ilike: Matcher, f: PostFilter, limit: int, offset: int
  ) returns (r: Result<Page<string>, HttpError>)
    requires ScanOf(scan, db.posts)
    ensures r.Err? <==> !PagingValid(limit, offset)
    ensures r.Err? ==> r.error == Unprocessable
    ensures r.Ok? ==> (
      && r.value.rows == Window(OrderBy(Keep(scan, Matches(db.posts, userId, f, ilike)), IdOrder(db.posts)), offset, limit)
      && r.value.total == |set id | id in db.posts && Selected(db.posts[id], userId, f, ilike)|
      && (forall id :: id in r.value.rows ==> id in db.posts && Selected(db.posts[id], userId, f, ilike))
      && (forall i, j :: 0 <= i < j < |r.value.rows| ==>
            db.posts[r.value.rows[i]].createdAt >= db.posts[r.value.rows[j]].createdAt)
      && Distinct(r.value.rows)
      && |r.value.rows| == (if offset >= r.value.total then 0
                            else if r.value.total - offset < limit then r.value.total - offset else limit))
  {
    if !PagingValid(limit, offset) {
      return Err(Unprocessable);
    }
    var posts := db.posts;
    var keep := Matches(posts, userId, f, ilike);
    var key := IdOrder(posts);
    var page := ListPage(scan, keep, key, offset as nat, limit as nat);
    PostPageFacts(posts, userId, f, ilike, scan, offset as nat, limit as nat);
    r := Ok(page);
  }

  /** The window `ListPosts` returns holds matching posts, newest first, once each, as many as fit. */
  lemma PostPageFacts(posts: map<string, Post>, userId: string, f: PostFilter, ilike: Matcher, scan: seq<string>, offset: nat, limit: nat)
    requires ScanOf(scan, posts)
    ensures var rows := Window(OrderBy(Keep(scan, Matches(posts, userId, f, ilike)), IdOrder(posts)), offset, limit);
      var total := |set id | id in posts && Selected(posts[id], userId, f, ilike)|;
      && total == |Keep(scan, Matches(posts, userId, f, ilike))|
      && (forall id :: id in rows ==> id in posts && Selected(posts[id], userId, f, ilike))
      && (forall i, j :: 0 <= i < j < |rows| ==> (
            var a, b := posts[rows[i]], posts[rows[j]];
            a.createdAt >= b.createdAt))
      && Distinct(rows)
      && |rows| == (if offset >= total then 0 else if total - offset < limit then total - offset else limit)
  {
    var keep, key := Matches(posts, userId, f, ilike), IdOrder(posts);
    PageCount(scan, keep, set id | id in posts && Selected(posts[id], userId, f, ilike));
    PageFacts(scan, keep, key, offset, limit);
    var rows := Window(OrderBy(Keep(scan, keep), key), offset, limit);
    assert forall i, j :: 0 <= i < j < |rows| ==> KeyLe(OrderKey(posts[rows[i]]), OrderKey(posts[rows[j]]));
  }

  predicate Owns(posts: map<string, Post>, userId: string, id: string) {
    id in posts && posts[id].userId == userId
  }

  /** `GET /posts/{id}`: a post of another user is as absent as a missing one. */
  function GetPost(db: Database, userId: string, id: string): (r: Result<Post, HttpError>)
    reads db
    ensures r.Ok? <==> Owns(db.posts, userId, id)
    ensures r.Ok? ==> r.value == db.posts[id]
    ensures r.Err? ==> r.error == NotFound
  {
    if id in db.posts && db.posts[id].userId == userId then Ok(db.posts[id]) else Err(NotFound)
  }

  /** The action logged for a new post. */
  function CreateAction(isPublished: bool): (a: string)
    ensures a == "published" || a == "created"
  {
    if isPublished then "published" else "created"
  }

  /**
   * `POST /posts`: a post created published is stamped `now` and logged as
   * published; a draft (or `null` flag, left to the column default) has
   * no publication date.
   */
  method CreatePost(db: Database, userId: string, payload: PostCreate, newId: string, now: int) returns (p: Post)
    requires newId !in db.posts
    modifies db
    ensures db.posts == old(db.posts)[newId := p]
    ensures p.userId == userId && p.title == payload.title && p.content == payload.content
    ensures p.isPublished == (payload.isPublished == Some(true))
    ensures p.publishedAt == (if p.isPublished then Some(now) else None)
    ensures p.tags == (if payload.tagIds.Some? then OwnedTagIds(db.tags, userId, payload.tagIds.value) else {})
    ensures p.createdAt == now && p.updatedAt == now
    ensures db.activities == old(db.activities) + [Activity(userId, CreateAction(p.isPublished), "post", Some(newId), Some(p.title), None, now)]
    ensures db.users == old(db.users) && db.tags == old(db.tags) && db.tasks == old(db.tasks) && db.notes == old(db.notes)
  {
    var tags: set<string> := {};
    if payload.tagIds.Some? && payload.tagIds.value != [] {
      tags := SelectOwnedTags(db.tags, userId, payload.tagIds.value);
    }
    var published := payload.isPublished == Some(true);
    p := Post(userId, payload.title, payload.content, published, if published then Some(now) else None, tags, now, now);
    db.posts := db.posts[newId := p];
    db.LogActivity(userId, CreateAction(published), "post", newId, p.title, now);
  }

  /**
   * `u` is `p` after `payload`: given fields replace, the others stay, and
   * publishing stamps `now` only a post that was never published before.
   */
  predicate Patched(p: Post, u: Post, payload: PostUpdate, tags: map<string, Tag>, now: int) {
    && u.userId == p.userId && u.createdAt == p.createdAt && u.updatedAt == now
    && u.title == (if payload.title.Some? then payload.title.value else p.title)
    && u.content == (if payload.content.Some? then payload.content else p.content)
    && u.isPublished == (if payload.isPublished.Some? then payload.isPublished.value else p.isPublished)
    && u.publishedAt == (if payload.isPublished == Some(true) && p.publishedAt.None? then Some(now) else p.publishedAt)
    && u.tags == (if payload.tagIds.Some? then OwnedTagIds(tags, p.userId, payload.tagIds.value) else p.tags)
  }

  method PatchPost(tags: map<string, Tag>, p: Post, payload: PostUpdate, now: int) returns (u: Post)
    ensures Patched(p, u, payload, tags, now)
  {
    var found := p.tags;
    if payload.tagIds.Some? {
      found := SelectOwnedTags(tags, p.userId, payload.tagIds.value);
    }
    var publishedAt := p.publishedAt;
    if payload.isPublished.Some? && payload.isPublished.value && publishedAt.None? {
      publishedAt := Some(now);
    }
    u := Post(p.userId,
      if payload.title.Some? then payload.title.value else p.title,
      if payload.content.Some? then payload.content else p.content,
      if payload.isPublished.Some? then payload.isPublished.value else p.isPublished,
      publishedAt, found, p.createdAt, now);
  }

  /** The action an update logs: only the step from draft to published counts as publishing. */
  function UpdateAction(wasPublished: bool, isPublished: bool): (a: string)
    ensures a == "published" || a == "updated"
    ensures a == "published" <==> !wasPublished && isPublished
  {
    if !wasPublished && isPublished then "published" else "updated"
  }

  /** A post that has once been published keeps its first publication date through every update. */
  lemma FirstPublicationDateKept(p: Post, u: Post, payload: PostUpdate, tags: map<string, Tag>, now: int)
    requires p.publishedAt.Some? && Patched(p, u, payload, tags, now)
    ensures u.publishedAt == p.publishedAt
  {
  }

  /** Publishing a draft that was never published stamps it and is logged as publishing. */
  lemma PublishingDraft(p: Post, u: Post, payload: PostUpdate, tags: map<string, Tag>, now: int)
    requires !p.isPublished && p.publishedAt.None? && payload.isPublished == Some(true)
    requires Patched(p, u, payload, tags, now)
    ensures u.publishedAt == Some(now) && UpdateAction(p.isPublished, u.isPublished) == "published"
  {
  }

  /** Unpublishing is an ordinary update and keeps the old publication date. */
  lemma Unpublishing(p: Post, u: Post, payload: PostUpdate, tags: map<string, Tag>, now: int)
    requires payload.isPublished == Some(false) && Patched(p, u, payload, tags, now)
    ensures !u.isPublished && u.publishedAt == p.publishedAt && UpdateAction(p.isPublished, u.isPublished) == "updated"
  {
  }

  /** `PUT /posts/{id}`. */
  method UpdatePost(db: Database, userId: string, id: string, payload: PostUpdate, now: int)
    returns (r: Result<Post, HttpError>)
    modifies db
    ensures !Owns(old(db.posts), userId, id) ==> (r == Err(NotFound) && db.posts == old(db.posts)
      && db.activities == old(db.activities))
    ensures Owns(old(db.posts), userId, id) ==> r.Ok? && db.posts == old(db.posts)[id := r.value]
    ensures r.Ok? ==> Patched(old(db.posts)[id], r.value, payload, db.tags, now)
    ensures r.Ok? ==> (db.activities == old(db.activities)
      + [Activity(userId, UpdateAction(old(db.posts)[id].isPublished, r.value.isPublished), "post", Some(id), Some(r.value.title), None, now)])
    ensures db.users == old(db.users) && db.tags == old(db.tags) && db.tasks == old(db.tasks) && db.notes == old(db.notes)
  {
    if !(id in db.posts && db.posts[id].userId == userId) {
      return Err(NotFound);
    }
    var p := db.posts[id];
    var u := PatchPost(db.tags, p, payload, now);
    db.posts := db.posts[id := u];
    db.LogActivity(userId, UpdateAction(p.isPublished, u.isPublished), "post", id, u.title, now);
    r := Ok(u);
  }

  /** `DELETE /posts/{id}`. */
  method DeletePost(db: Database, userId: string, id: string, now: int) returns (r: Result<(), HttpError>)
    modifies db
    ensures !Owns(old(db.posts), userId, id) ==> (r == Err(NotFound) && db.posts == old(db.posts)
      && db.activities == old(db.activities))
    ensures Owns(old(db.posts), userId, id) ==> (r == Ok(()) && db.posts == old(db.posts) - {id}
      && db.activities == old(db.activities) + [Activity(userId, "deleted", "post", Some(id), Some(old(db.posts)[id].title), None, now)])
    ensures db.users == old(db.users) && db.tags == old(db.tags) && db.tasks == old(db.tasks) && db.notes == old(db.notes)
  {
    if !(id in db.posts && db.posts[id].userId == userId) {
      return Err(NotFound);
    }
    var title := db.posts[id].title;
    db.posts := db.posts - {id};
    db.LogActivity(userId, "deleted", "post", id, title, now);
    r := Ok(());
  }
}
