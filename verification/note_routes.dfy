/** The note endpoints (backend/routes/notes.py) over the in-memory store. */
module NoteRoutes {
  import opened Wrappers
  import opened Store
  import opened Listing
  import opened Schemas

  const NotFound := HttpError(404, "Note not found")

  datatype NoteFilter = NoteFilter(search: Option<string>, isPinned: Option<bool>, color: Option<string>, tagId: Option<string>)

  /** A `color` filter: applied unless absent, empty or `"all"`. */
  predicate ColorHit(color: Option<string>, noteColor: string) {
    color.None? || color.value == [] || color.value == "all" || noteColor == color.value
  }

  /** The `WHERE` clause of `get_notes`. */
  predicate Selected(n: Note, userId: string, f: NoteFilter, ilike: Matcher) {
    n.userId == userId
    && SearchHit(ilike, f.search, n.title, n.content)
    && (f.isPinned.Some? ==> n.isPinned == f.isPinned.value)
    && ColorHit(f.color, n.color)
    && TagHit(f.tagId, n.tags)
  }

  /** `ORDER BY is_pinned DESC, created_at DESC`. */
  function OrderKey(n: Note): SortKey {
    SortKey(if n.isPinned then 0 else 1, -n.createdAt)
  }

  /** The rows the `WHERE` clause keeps, as a test on note ids. */
  function Matches(notes: map<string, Note>, userId: string, f: NoteFilter, ilike: Matcher): string -> bool {
    (id: string) => id in notes && Selected(notes[id], userId, f, ilike)
  }

  /** `OrderKey` on note ids. */
  function IdOrder(notes: map<string, Note>): string -> SortKey {
    (id: string) => if id in notes then OrderKey(notes[id]) else SortKey(0, 0)
  }

  /**
   * `GET /notes`: the count of the user's matching notes and the page of
   * them, pinned notes first and newest first within each group.
   */
  method ListNotes(
    db: Database, userId: string, scan: seq<string>, ilike: Matcher, f: NoteFilter, limit: int, offset: int
  ) returns (r: Result<Page<string>, HttpError>)
    requires ScanOf(scan, db.notes)
    ensures r.Err? <==> !PagingValid(limit, offset)
    ensures r.Err? ==> r.error == Unprocessable
    ensures r.Ok? ==> (
      && r.value.rows == Window(OrderBy(Keep(scan, Matches(db.notes, userId, f, ilike)), IdOrder(db.notes)), offset, limit)
      && r.value.total == |set id | id in db.notes && Selected(db.notes[id], userId, f, ilike)|
      && (forall id :: id in r.value.rows ==> id in db.notes && Selected(db.notes[id], userId, f, ilike))
      && (forall i, j :: 0 <= i < j < |r.value.rows| ==> (
            var a, b := db.notes[r.value.rows[i]], db.notes[r.value.rows[j]];
            (b.isPinned ==> a.isPinned) && (a.isPinned == b.isPinned ==> a.createdAt >= b.createdAt)))
      && Distinct(r.value.rows)
      && |r.value.rows| == (if offset >= r.value.total then 0
                            else if r.value.total - offset < limit then r.value.total - offset else limit))
  {
    if !PagingValid(limit, offset) {
      return Err(Unprocessable);
    }
    var notes := db.notes;
    var keep := Matches(notes, userId, f, ilike);
    var key := IdOrder(notes);
    var page := ListPage(scan, keep, key, offset as nat, limit as nat);
    NotePageFacts(notes, userId, f, ilike, scan, offset as nat, limit as nat);
    r := Ok(page);
  }

  /** The window `ListNotes` returns holds matching notes, pinned first, newest first within each group, once each, as many as fit. */
  lemma NotePageFacts(notes: map<string, Note>, userId: string, f: NoteFilter, ilike: Matcher, scan: seq<string>, offset: nat, limit: nat)
    requires ScanOf(scan, notes)
    ensures var rows := Window(OrderBy(Keep(scan, Matches(notes, userId, f, ilike)), IdOrder(notes)), offset, limit);
      var total := |set id | id in notes && Selected(notes[id], userId, f, ilike)|;
      && total == |Keep(scan, Matches(notes, userId, f, ilike))|
      && (forall id :: id in rows ==> id in notes && Selected(notes[id], userId, f, ilike))
      && (forall i, j :: 0 <= i < j < |rows| ==> (
            var a, b := notes[rows[i]], notes[rows[j]];
            (b.isPinned ==> a.isPinned) && (a.isPinned == b.isPinned ==> a.createdAt >= b.createdAt)))
      && Distinct(rows)
      && |rows| == (if offset >= total then 0 else if total - offset < limit then total - offset else limit)
  {
    var keep, key := Matches(notes, userId, f, ilike), IdOrder(notes);
    PageCount(scan, keep, set id | id in notes && Selected(notes[id], userId, f, ilike));
    PageFacts(scan, keep, key, offset, limit);
    var rows := Window(OrderBy(Keep(scan, keep), key), offset, limit);
    assert forall i, j :: 0 <= i < j < |rows| ==> KeyLe(OrderKey(notes[rows[i]]), OrderKey(notes[rows[j]]));
  }

  predicate Owns(notes: map<string, Note>, userId: string, id: string) {
    id in notes && notes[id].userId == userId
  }

  /** `GET /notes/{id}`: a note of another user is as absent as a missing one. */
  function GetNote(db: Database, userId: string, id: string): (r: Result<Note, HttpError>)
    reads db
    ensures r.Ok? <==> Owns(db.notes, userId, id)
    ensures r.Ok? ==> r.value == db.notes[id]
    ensures r.Err? ==> r.error == NotFound
  {
    if id in db.notes && db.notes[id].userId == userId then Ok(db.notes[id]) else Err(NotFound)
  }

  /**
   * `POST /notes`: a colour or pin flag sent as `null` is left out of the
   * `INSERT`, so the column defaults (`"default"`, unpinned) apply.
   */
  method CreateNote(db: Database, userId: string, payload: NoteCreate, newId: string, now: int) returns (n: Note)
    requires newId !in db.notes
    modifies db
    ensures db.notes == old(db.notes)[newId := n]
    ensures n.userId == userId && n.title == payload.title && n.content == payload.content
    ensures n.color == (if payload.color.Some? then payload.color.value else "default")
    ensures n.isPinned == (payload.isPinned == Some(true))
    ensures n.tags == (if payload.tagIds.Some? then OwnedTagIds(db.tags, userId, payload.tagIds.value) else {})
    ensures n.createdAt == now && n.updatedAt == now
    ensures db.activities == old(db.activities) + [Activity(userId, "created", "note", Some(newId), Some(n.title), None, now)]
    ensures db.users == old(db.users) && db.tags == old(db.tags) && db.tasks == old(db.tasks) && db.posts == old(db.posts)
  {
    var tags: set<string> := {};
    if payload.tagIds.Some? && payload.tagIds.value != [] {
      tags := SelectOwnedTags(db.tags, userId, payload.tagIds.value);
    }
    n := Note(userId, payload.title, payload.content,
      if payload.color.Some? then payload.color.value else "default",
      if payload.isPinned.Some? then payload.isPinned.value else false,
      tags, now, now);
    db.notes := db.notes[newId := n];
    db.LogActivity(userId, "created", "note", newId, n.title, now);
  }

  /** A note created from a body that names only a title is unpinned, plain and untagged. */
  lemma TitleOnlyNote(title: string)
    requires 1 <= |title| <= TitleMax
    ensures var p := ParseNoteCreate(title, Omitted, Omitted, Omitted, Omitted);
      && p.Ok? && p.value.color == Some("default") && p.value.isPinned == Some(false) && p.value.tagIds == Some([])
  {
  }

  /** `u` is `n` after `payload`: given fields replace, the others stay. */
  predicate Patched(n: Note, u: Note, payload: NoteUpdate, tags: map<string, Tag>, now: int) {
    && u.userId == n.userId && u.createdAt == n.createdAt && u.updatedAt == now
    && u.title == (if payload.title.Some? then payload.title.value else n.title)
    && u.content == (if payload.content.Some? then payload.content else n.content)
    && u.color == (if payload.color.Some? then payload.color.value else n.color)
    && u.isPinned == (if payload.isPinned.Some? then payload.isPinned.value else n.isPinned)
    && u.tags == (if payload.tagIds.Some? then OwnedTagIds(tags, n.userId, payload.tagIds.value) else n.tags)
  }

  method PatchNote(tags: map<string, Tag>, n: Note, payload: NoteUpdate, now: int) returns (u: Note)
    ensures Patched(n, u, payload, tags, now)
  {
    var found := n.tags;
    if payload.tagIds.Some? {
      found := SelectOwnedTags(tags, n.userId, payload.tagIds.value);
    }
    u := Note(n.userId,
      if payload.title.Some? then payload.title.value else n.title,
      if payload.content.Some? then payload.content else n.content,
      if payload.color.Some? then payload.color.value else n.color,
      if payload.isPinned.Some? then payload.isPinned.value else n.isPinned,
      found, n.createdAt, now);
  }

  /** Pinning or unpinning through an update touches nothing but the flag and the stamp. */
  lemma PinToggle(n: Note, u: Note, tags: map<string, Tag>, pinned: bool, now: int)
    requires Patched(n, u, NoteUpdate(None, None, None, Some(pinned), None), tags, now)
    ensures u == n.(isPinned := pinned, updatedAt := now)
  {
  }

  /** `PUT /notes/{id}`. */
  method UpdateNote(db: Database, userId: string, id: string, payload: NoteUpdate, now: int)
    returns (r: Result<Note, HttpError>)
    modifies db
    ensures !Owns(old(db.notes), userId, id) ==> (r == Err(NotFound) && db.notes == old(db.notes)
      && db.activities == old(db.activities))
    ensures Owns(old(db.notes), userId, id) ==> r.Ok? && db.notes == old(db.notes)[id := r.value]
    ensures r.Ok? ==> Patched(old(db.notes)[id], r.value, payload, db.tags, now)
    ensures r.Ok? ==> (db.activities == old(db.activities)
      + [Activity(userId, "updated", "note", Some(id), Some(r.value.title), None, now)])
    ensures db.users == old(db.users) && db.tags == old(db.tags) && db.tasks == old(db.tasks) && db.posts == old(db.posts)
  {
    if !(id in db.notes && db.notes[id].userId == userId) {
      return Err(NotFound);
    }
    var u := PatchNote(db.tags, db.notes[id], payload, now);
    db.notes := db.notes[id := u];
    db.LogActivity(userId, "updated", "note", id, u.title, now);
    r := Ok(u);
  }

  /** `DELETE /notes/{id}`. */
  method DeleteNote(db: Database, userId: string, id: string, now: int) returns (r: Result<(), HttpError>)
    modifies db
    ensures !Owns(old(db.notes), userId, id) ==> (r == Err(NotFound) && db.notes == old(db.notes)
      && db.activities == old(db.activities))
    ensures Owns(old(db.notes), userId, id) ==> (r == Ok(()) && db.notes == old(db.notes) - {id}
      && db.activities == old(db.activities) + [Activity(userId, "deleted", "note", Some(id), Some(old(db.notes)[id].title), None, now)])
    ensures db.users == old(db.users) && db.tags == old(db.tags) && db.tasks == old(db.tasks) && db.posts == old(db.posts)
  {
    if !(id in db.notes && db.notes[id].userId == userId) {
      return Err(NotFound);
    }
    var title := db.notes[id].title;
    db.notes := db.notes - {id};
    db.LogActivity(userId, "deleted", "note", id, title, now);
    r := Ok(());
  }
}
