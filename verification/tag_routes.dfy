/** The tag endpoints (backend/routes/tags.py) over the in-memory store. */
module TagRoutes {
  import opened Wrappers
  import opened Store
  import opened Listing
  import opened Schemas

  const NotFound := HttpError(404, "Tag not found")
  const NameTaken := HttpError(400, "Tag with this name already exists")

  /** The colour the create route stores when the request sends none or an empty one (the `Tag.color` column default, `default`, is never reached). */
  const FallbackColor := "#6366f1"

  predicate Owns(tags: map<string, Tag>, userId: string, id: string) {
    id in tags && tags[id].userId == userId
  }

  /** Does some tag of `userId` other than `except` already carry `name`? */
  predicate Clashes(tags: map<string, Tag>, userId: string, name: string, except: Option<string>) {
    exists id :: id in tags && tags[id].userId == userId && tags[id].name == name && Some(id) != except
  }

  /** No user has two tags of the same name: what the two name checks keep. */
  predicate NamesUnique(tags: map<string, Tag>) {
    forall a, b :: a in tags && b in tags && a != b && tags[a].userId == tags[b].userId ==> tags[a].name != tags[b].name
  }

  /** `GET /tags`: the ids of the user's tags, each once. */
  function ListTags(db: Database, userId: string, scan: seq<string>): (ids: seq<string>)
    requires ScanOf(scan, db.tags)
    reads db
    ensures forall id :: id in ids ==> Owns(db.tags, userId, id)
    ensures forall id :: Owns(db.tags, userId, id) ==> id in ids
    ensures Distinct(ids)
  {
    var tags := db.tags;
    var keep := (id: string) => Owns(tags, userId, id);
    KeepFacts(scan, keep);
    Keep(scan, keep)
  }

  /** `tag_data.color or "#6366f1"`: a null or empty colour falls back. */
  function StoredColor(color: Option<string>): (c: string)
    ensures c != []
    ensures color.Some? && color.value != [] ==> c == color.value
  {
    if color.Some? && color.value != [] then color.value else FallbackColor
  }

  /**
   * An omitted colour is already `"default"` after parsing, so the
   * fallback colour is stored only for an explicit `null` or `""`.
   */
  lemma OmittedColorIsDefault(name: string)
    requires 1 <= |name| <= TagNameMax
    ensures var p := ParseTagCreate(name, Omitted);
      p.Ok? && StoredColor(p.value.color) == "default"
  {
  }

  /** `POST /tags`. */
  method CreateTag(db: Database, userId: string, payload: TagCreate, newId: string, now: int)
    returns (r: Result<Tag, HttpError>)
    requires newId !in db.tags
    modifies db
    ensures r.Err? <==> Clashes(old(db.tags), userId, payload.name, None)
    ensures r.Err? ==> r.error == NameTaken && db.tags == old(db.tags)
    ensures r.Ok? ==> (db.tags == old(db.tags)[newId := r.value]
      && r.value == Tag(userId, payload.name, StoredColor(payload.color), now))
    ensures NamesUnique(old(db.tags)) ==> NamesUnique(db.tags)
    ensures db.users == old(db.users) && db.tasks == old(db.tasks) && db.notes == old(db.notes)
    ensures db.posts == old(db.posts) && db.activities == old(db.activities)
  {
    if Clashes(db.tags, userId, payload.name, None) {
      return Err(NameTaken);
    }
    var tag := Tag(userId, payload.name, StoredColor(payload.color), now);
    db.tags := db.tags[newId := tag];
    r := Ok(tag);
  }

  /**
   * `PUT /tags/{id}`: a new name must not be another of the user's tag
   * names; the colour is replaced when given.
   */
  method UpdateTag(db: Database, userId: string, id: string, payload: TagUpdate)
    returns (r: Result<Tag, HttpError>)
    modifies db
    ensures !Owns(old(db.tags), userId, id) ==> r == Err(NotFound)
    ensures Owns(old(db.tags), userId, id) ==>
      (r.Err? <==> payload.name.Some? && Clashes(old(db.tags), userId, payload.name.value, Some(id)))
    ensures r.Err? ==> db.tags == old(db.tags) && (r.error == NotFound || r.error == NameTaken)
    ensures r.Ok? ==> (var t := old(db.tags)[id];
      && db.tags == old(db.tags)[id := r.value]
      && r.value.userId == t.userId && r.value.createdAt == t.createdAt
      && r.value.name == (if payload.name.Some? then payload.name.value else t.name)
      && r.value.color == (if payload.color.Some? then payload.color.value else t.color))
    ensures NamesUnique(old(db.tags)) ==> NamesUnique(db.tags)
    ensures db.users == old(db.users) && db.tasks == old(db.tasks) && db.notes == old(db.notes)
    ensures db.posts == old(db.posts) && db.activities == old(db.activities)
  {
    if !(id in db.tags && db.tags[id].userId == userId) {
      return Err(NotFound);
    }
    var tag := db.tags[id];
    if payload.name.Some? {
      if Clashes(db.tags, userId, payload.name.value, Some(id)) {
        return Err(NameTaken);
      }
      tag := tag.(name := payload.name.value);
    }
    if payload.color.Some? {
      tag := tag.(color := payload.color.value);
    }
    ghost var before := db.tags;
    db.tags := db.tags[id := tag];
    if NamesUnique(before) {
      forall a, b | a in db.tags && b in db.tags && a != b && db.tags[a].userId == db.tags[b].userId
        ensures db.tags[a].name != db.tags[b].name
      {
        if a == id {
          assert !(b in before && before[b].userId == userId && before[b].name == tag.name && Some(b) != Some(id));
        } else if b == id {
          assert !(a in before && before[a].userId == userId && before[a].name == tag.name && Some(a) != Some(id));
        }
      }
    }
    r := Ok(tag);
  }

  /** The tasks once `tagId` is gone from every tag set (the `ON DELETE CASCADE` of `task_tags`). */
  function TasksWithout(tasks: map<string, Task>, tagId: string): (m: map<string, Task>)
    ensures m.Keys == tasks.Keys
    ensures forall id :: id in m ==> m[id] == tasks[id].(tags := tasks[id].tags - {tagId})
  {
    map id | id in tasks :: tasks[id].(tags := tasks[id].tags - {tagId})
  }

  function NotesWithout(notes: map<string, Note>, tagId: string): (m: map<string, Note>)
    ensures m.Keys == notes.Keys
    ensures forall id :: id in m ==> m[id] == notes[id].(tags := notes[id].tags - {tagId})
  {
    map id | id in notes :: notes[id].(tags := notes[id].tags - {tagId})
  }

  function PostsWithout(posts: map<string, Post>, tagId: string): (m: map<string, Post>)
    ensures m.Keys == posts.Keys
    ensures forall id :: id in m ==> m[id] == posts[id].(tags := posts[id].tags - {tagId})
  {
    map id | id in posts :: posts[id].(tags := posts[id].tags - {tagId})
  }

  /** `DELETE /tags/{id}`: the tag goes, and so do its links to tasks, notes and posts. */
  method DeleteTag(db: Database, userId: string, id: string) returns (r: Result<(), HttpError>)
    modifies db
    ensures !Owns(old(db.tags), userId, id) ==> (r == Err(NotFound) && db.tags == old(db.tags)
      && db.tasks == old(db.tasks) && db.notes == old(db.notes) && db.posts == old(db.posts))
    ensures Owns(old(db.tags), userId, id) ==> (r == Ok(()) && db.tags == old(db.tags) - {id}
      && db.tasks == TasksWithout(old(db.tasks), id) && db.notes == NotesWithout(old(db.notes), id)
      && db.posts == PostsWithout(old(db.posts), id))
    ensures db.users == old(db.users) && db.activities == old(db.activities)
  {
    if !(id in db.tags && db.tags[id].userId == userId) {
      return Err(NotFound);
    }
    db.tags := db.tags - {id};
    db.tasks := TasksWithout(db.tasks, id);
    db.notes := NotesWithout(db.notes, id);
    db.posts := PostsWithout(db.posts, id);
    r := Ok(());
  }

  /** After the cascade no task, note or post refers to the deleted tag, and every other link stays. */
  lemma CascadeFacts(db: Database, id: string, other: string)
    requires other != id
    ensures forall k :: k in TasksWithout(db.tasks, id) ==> id !in TasksWithout(db.tasks, id)[k].tags
    ensures forall k :: k in NotesWithout(db.notes, id) ==> id !in NotesWithout(db.notes, id)[k].tags
    ensures forall k :: k in PostsWithout(db.posts, id) ==> id !in PostsWithout(db.posts, id)[k].tags
    ensures forall k :: k in db.tasks ==> (other in TasksWithout(db.tasks, id)[k].tags <==> other in db.tasks[k].tags)
  {
  }
}
