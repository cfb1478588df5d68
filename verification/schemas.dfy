/**
 * The request payloads the server accepts (backend/schemas.py): each
 * `Parse…` function turns the fields a client supplied into the record a
 * route handler receives, filling in the schema's defaults, or returns the
 * list of constraint violations pydantic would report, in field order.
 */
module Schemas {
  import opened Wrappers
  import opened Text

  datatype TaskStatus = Todo | InProgress | Completed
  datatype TaskPriority = Low | Medium | High

  function StatusName(s: TaskStatus): string {
    match s
    case Todo => "todo"
    case InProgress => "in_progress"
    case Completed => "completed"
  }

  function PriorityName(p: TaskPriority): string {
    match p
    case Low => "low"
    case Medium => "medium"
    case High => "high"
  }

  /** The enum member whose value is `s`, if any. */
  function ParseStatus(s: string): (r: Option<TaskStatus>)
    ensures r.Some? ==> StatusName(r.value) == s
    ensures r.None? ==> forall t :: StatusName(t) != s
  {
    if s == "todo" then Some(Todo)
    else if s == "in_progress" then Some(InProgress)
    else if s == "completed" then Some(Completed)
    else None
  }

  function ParsePriority(s: string): (r: Option<TaskPriority>)
    ensures r.Some? ==> PriorityName(r.value) == s
    ensures r.None? ==> forall p :: PriorityName(p) != s
  {
    if s == "low" then Some(Low)
    else if s == "medium" then Some(Medium)
    else if s == "high" then Some(High)
    else None
  }

  lemma StatusNamesRoundTrip(t: TaskStatus, p: TaskPriority)
    ensures ParseStatus(StatusName(t)) == Some(t)
    ensures ParsePriority(PriorityName(p)) == Some(p)
  {
  }

  /** A field the client either left out of the JSON body or gave a value. */
  datatype Supplied<T> = Omitted | Given(value: T)

  function OrDefault<T>(f: Supplied<T>, default: T): T {
    if f.Given? then f.value else default
  }

  /** One entry of pydantic's error list. */
  datatype Violation =
    | TooShort(field: string, min: nat)
    | TooLong(field: string, max: nat)
    | NotAnOption(field: string)
    | ValueError(field: string, message: string)
    | NotAnEmail(field: string)

  /** `Field(min_length=lo, max_length=hi)` on a string field. */
  function LengthViolations(field: string, s: string, lo: nat, hi: nat): (r: seq<Violation>)
    ensures r == [] <==> lo <= |s| <= hi
    ensures |r| <= 1
  {
    if |s| < lo then [TooShort(field, lo)]
    else if |s| > hi then [TooLong(field, hi)]
    else []
  }

  /** The same constraint on an optional field: `None` is never checked. */
  function OptionalLengthViolations(field: string, s: Option<string>, lo: nat, hi: nat): (r: seq<Violation>)
    ensures r == [] <==> (s.None? || lo <= |s.value| <= hi)
  {
    if s.Some? then LengthViolations(field, s.value, lo, hi) else []
  }

  /** `min_length` alone. */
  function MinLengthViolations(field: string, s: string, lo: nat): (r: seq<Violation>)
    ensures r == [] <==> lo <= |s|
  {
    if |s| < lo then [TooShort(field, lo)] else []
  }

  // ---------------------------------------------------------------- users

  /** `str.isalpha` and `str.isdigit`, restricted to ASCII. */
  predicate AnyAlpha(v: string) {
    exists i :: 0 <= i < |v| && IsAsciiLetter(v[i])
  }

  predicate AnyDigit(v: string) {
    exists i :: 0 <= i < |v| && IsAsciiDigit(v[i])
  }

  /** The `password_complexity` validator: the letter test first, then the digit test. */
  function PasswordComplexity(v: string): (r: Result<string, string>)
    ensures r.Ok? <==> AnyAlpha(v) && AnyDigit(v)
    ensures r.Ok? ==> r.value == v
    ensures !AnyAlpha(v) ==> r == Err("Password must contain at least one letter")
    ensures AnyAlpha(v) && !AnyDigit(v) ==> r == Err("Password must contain at least one digit")
  {
    if !AnyAlpha(v) then Err("Password must contain at least one letter")
    else if !AnyDigit(v) then Err("Password must contain at least one digit")
    else Ok(v)
  }

  /** The password field: `min_length=8`, and only a long enough value reaches the validator. */
  function PasswordViolations(v: string): (r: seq<Violation>)
    ensures r == [] <==> |v| >= 8 && PasswordComplexity(v).Ok?
  {
    if |v| < 8 then [TooShort("password", 8)]
    else match PasswordComplexity(v)
      case Ok(_) => []
      case Err(m) => [ValueError("password", m)]
  }

  datatype UserRegister = UserRegister(email: string, password: string, fullName: string)

  /**
   * `UserRegister`: `emailValid` is the verdict of the e-mail syntax check
   * `EmailStr` delegates to, which is not part of this model.
   */
  function ParseUserRegister(email: string, emailValid: bool, password: string, fullName: string): (r: Result<UserRegister, seq<Violation>>)
    ensures r.Ok? <==> emailValid && |password| >= 8 && AnyAlpha(password) && AnyDigit(password) && |fullName| >= 2
    ensures r.Ok? ==> r.value == UserRegister(email, password, fullName)
    ensures r.Err? ==> r.error != []
  {
    var errors := (if emailValid then [] else [NotAnEmail("email")])
      + PasswordViolations(password) + MinLengthViolations("full_name", fullName, 2);
    if errors == [] then Ok(UserRegister(email, password, fullName)) else Err(errors)
  }

  /** `UserUpdate`: every field optional, nothing checked. */
  datatype UserUpdate = UserUpdate(fullName: Option<string>, bio: Option<string>, avatarUrl: Option<string>)

  // ----------------------------------------------------------------- tags

  const TagNameMax: nat := 50

  datatype TagCreate = TagCreate(name: string, color: Option<string>)
  datatype TagUpdate = TagUpdate(name: Option<string>, color: Option<string>)

  /** `TagCreate`: a name of 1..50 characters; an omitted colour is `"default"`. */
  function ParseTagCreate(name: string, color: Supplied<Option<string>>): (r: Result<TagCreate, seq<Violation>>)
    ensures r.Ok? <==> 1 <= |name| <= 50
    ensures r.Ok? ==> r.value.name == name
    ensures r.Ok? && color.Omitted? ==> r.value.color == Some("default")
    ensures r.Ok? && color.Given? ==> r.value.color == color.value
  {
    var errors := LengthViolations("name", name, 1, TagNameMax);
    if errors == [] then Ok(TagCreate(name, OrDefault(color, Some("default")))) else Err(errors)
  }

  /** `TagUpdate`: a supplied name obeys the same bounds. */
  function ParseTagUpdate(name: Option<string>, color: Option<string>): (r: Result<TagUpdate, seq<Violation>>)
    ensures r.Ok? <==> (name.None? || 1 <= |name.value| <= 50)
    ensures r.Ok? ==> r.value == TagUpdate(name, color)
  {
    var errors := OptionalLengthViolations("name", name, 1, TagNameMax);
    if errors == [] then Ok(TagUpdate(name, color)) else Err(errors)
  }

  // ---------------------------------------------------------------- tasks

  const TitleMax: nat := 255

  datatype TaskCreate = TaskCreate(
    title: string, description: Option<string>, status: TaskStatus, priority: TaskPriority,
    dueDate: Option<int>, tagIds: Option<seq<string>>)

  datatype TaskUpdate = TaskUpdate(
    title: Option<string>, description: Option<string>, status: Option<TaskStatus>,
    priority: Option<TaskPriority>, dueDate: Option<int>, position: Option<int>,
    tagIds: Option<seq<string>>)

  /** An enum field given as its JSON text. */
  function EnumViolations<E>(field: string, parsed: Option<E>): (r: seq<Violation>)
    ensures r == [] <==> parsed.Some?
  {
    if parsed.Some? then [] else [NotAnOption(field)]
  }

  function ParsedStatus(s: Supplied<string>): Supplied<Option<TaskStatus>> {
    if s.Given? then Given(ParseStatus(s.value)) else Omitted
  }

  function ParsedPriority(s: Supplied<string>): Supplied<Option<TaskPriority>> {
    if s.Given? then Given(ParsePriority(s.value)) else Omitted
  }

  function SuppliedEnumViolations<E>(field: string, f: Supplied<Option<E>>): (r: seq<Violation>)
    ensures r == [] <==> (f.Omitted? || f.value.Some?)
  {
    if f.Given? then EnumViolations(field, f.value) else []
  }

  /**
   * `TaskCreate`: a title of 1..255 characters; status defaults to todo,
   * priority to medium and `tag_ids` to the empty list.
   */
  function ParseTaskCreate(
    title: string, description: Supplied<Option<string>>, status: Supplied<string>,
    priority: Supplied<string>, dueDate: Supplied<Option<int>>, tagIds: Supplied<Option<seq<string>>>
  ): (r: Result<TaskCreate, seq<Violation>>)
    ensures r.Ok? <==> (1 <= |title| <= 255
      && (status.Omitted? || ParseStatus(status.value).Some?)
      && (priority.Omitted? || ParsePriority(priority.value).Some?))
    ensures r.Ok? ==> r.value.title == title
    ensures r.Ok? ==> r.value.status == (if status.Given? then ParseStatus(status.value).value else Todo)
    ensures r.Ok? ==> r.value.priority == (if priority.Given? then ParsePriority(priority.value).value else Medium)
    ensures r.Ok? ==> r.value.tagIds == (if tagIds.Given? then tagIds.value else Some([]))
    ensures r.Ok? ==> r.value.description == (if description.Given? then description.value else None)
    ensures r.Ok? ==> r.value.dueDate == (if dueDate.Given? then dueDate.value else None)
  {
    var st := ParsedStatus(status);
    var pr := ParsedPriority(priority);
    var errors := LengthViolations("title", title, 1, TitleMax)
      + SuppliedEnumViolations("status", st) + SuppliedEnumViolations("priority", pr);
    if errors == [] then
      Ok(TaskCreate(title, OrDefault(description, None),
        if st.Given? then st.value.value else Todo,
        if pr.Given? then pr.value.value else Medium,
        OrDefault(dueDate, None), OrDefault(tagIds, Some([]))))
    else Err(errors)
  }

  /** `TaskUpdate`: every field defaults to `None`; a supplied title obeys the create bounds. */
  function ParseTaskUpdate(
    title: Option<string>, description: Option<string>, status: Option<string>, priority: Option<string>,
    dueDate: Option<int>, position: Option<int>, tagIds: Option<seq<string>>
  ): (r: Result<TaskUpdate, seq<Violation>>)
    ensures r.Ok? <==> ((title.None? || 1 <= |title.value| <= 255)
      && (status.None? || ParseStatus(status.value).Some?)
      && (priority.None? || ParsePriority(priority.value).Some?))
    ensures r.Ok? ==> (r.value.title == title && r.value.description == description
      && r.value.dueDate == dueDate && r.value.position == position && r.value.tagIds == tagIds)
    ensures r.Ok? ==> ((r.value.status.None? <==> status.None?)
      && (status.Some? ==> StatusName(r.value.status.value) == status.value))
    ensures r.Ok? ==> ((r.value.priority.None? <==> priority.None?)
      && (priority.Some? ==> PriorityName(r.value.priority.value) == priority.value))
  {
    var st := if status.Some? then Given(ParseStatus(status.value)) else Omitted;
    var pr := if priority.Some? then Given(ParsePriority(priority.value)) else Omitted;
    var errors := OptionalLengthViolations("title", title, 1, TitleMax)
      + SuppliedEnumViolations("status", st) + SuppliedEnumViolations("priority", pr);
    if errors == [] then
      Ok(TaskUpdate(title, description,
        if st.Given? then st.value else None,
        if pr.Given? then pr.value else None,
        dueDate, position, tagIds))
    else Err(errors)
  }

  // ---------------------------------------------------------------- notes

  datatype NoteCreate = NoteCreate(
    title: string, content: Option<string>, color: Option<string>, isPinned: Option<bool>,
    tagIds: Option<seq<string>>)

  datatype NoteUpdate = NoteUpdate(
    title: Option<string>, content: Option<string>, color: Option<string>, isPinned: Option<bool>,
    tagIds: Option<seq<string>>)

  /** `NoteCreate`: colour defaults to `"default"`, `is_pinned` to false, `tag_ids` to `[]`. */
  function ParseNoteCreate(
    title: string, content: Supplied<Option<string>>, color: Supplied<Option<string>>,
    isPinned: Supplied<Option<bool>>, tagIds: Supplied<Option<seq<string>>>
  ): (r: Result<NoteCreate, seq<Violation>>)
    ensures r.Ok? <==> 1 <= |title| <= 255
    ensures r.Ok? ==> (r.value.title == title
      && r.value.content == (if content.Given? then content.value else None)
      && r.value.color == (if color.Given? then color.value else Some("default"))
      && r.value.isPinned == (if isPinned.Given? then isPinned.value else Some(false))
      && r.value.tagIds == (if tagIds.Given? then tagIds.value else Some([])))
  {
    var errors := LengthViolations("title", title, 1, TitleMax);
    if errors == [] then
      Ok(NoteCreate(title, OrDefault(content, None), OrDefault(color, Some("default")),
        OrDefault(isPinned, Some(false)), OrDefault(tagIds, Some([]))))
    else Err(errors)
  }

  function ParseNoteUpdate(
    title: Option<string>, content: Option<string>, color: Option<string>, isPinned: Option<bool>,
    tagIds: Option<seq<string>>
  ): (r: Result<NoteUpdate, seq<Violation>>)
    ensures r.Ok? <==> (title.None? || 1 <= |title.value| <= 255)
    ensures r.Ok? ==> r.value == NoteUpdate(title, content, color, isPinned, tagIds)
  {
    var errors := OptionalLengthViolations("title", title, 1, TitleMax);
    if errors == [] then Ok(NoteUpdate(title, content, color, isPinned, tagIds)) else Err(errors)
  }

  // ---------------------------------------------------------------- posts

  datatype PostCreate = PostCreate(
    title: string, content: Option<string>, isPublished: Option<bool>, tagIds: Option<seq<string>>)

  datatype PostUpdate = PostUpdate(
    title: Option<string>, content: Option<string>, isPublished: Option<bool>, tagIds: Option<seq<string>>)

  /** `PostCreate`: `is_published` defaults to false and `tag_ids` to `[]`. */
  function ParsePostCreate(
    title: string, content: Supplied<Option<string>>, isPublished: Supplied<Option<bool>>,
    tagIds: Supplied<Option<seq<string>>>
  ): (r: Result<PostCreate, seq<Violation>>)
    ensures r.Ok? <==> 1 <= |title| <= 255
    ensures r.Ok? ==> (r.value.title == title
      && r.value.content == (if content.Given? then content.value else None)
      && r.value.isPublished == (if isPublished.Given? then isPublished.value else Some(false))
      && r.value.tagIds == (if tagIds.Given? then tagIds.value else Some([])))
  {
    var errors := LengthViolations("title", title, 1, TitleMax);
    if errors == [] then
      Ok(PostCreate(title, OrDefault(content, None), OrDefault(isPublished, Some(false)), OrDefault(tagIds, Some([]))))
    else Err(errors)
  }

  function ParsePostUpdate(
    title: Option<string>, content: Option<string>, isPublished: Option<bool>, tagIds: Option<seq<string>>
  ): (r: Result<PostUpdate, seq<Violation>>)
    ensures r.Ok? <==> (title.None? || 1 <= |title.value| <= 255)
    ensures r.Ok? ==> r.value == PostUpdate(title, content, isPublished, tagIds)
  {
    var errors := OptionalLengthViolations("title", title, 1, TitleMax);
    if errors == [] then Ok(PostUpdate(title, content, isPublished, tagIds)) else Err(errors)
  }

  /** An omitted `TaskUpdate` changes nothing: all of its fields are `None`. */
  lemma EmptyTaskUpdate()
    ensures ParseTaskUpdate(None, None, None, None, None, None, None)
      == Ok(TaskUpdate(None, None, None, None, None, None, None))
  {
  }
}
