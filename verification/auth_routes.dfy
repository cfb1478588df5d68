/**
 * The account and profile endpoints (backend/routes/auth.py).  Password
 * hashing, token signing and the file system are the platform's: a hash
 * arrives as a value, password checking as a function, and the avatar
 * handler reports which stored file it would remove instead of removing it.
 */
module AuthRoutes {
  import opened Wrappers
  import opened Text
  import opened Store
  import opened Schemas

  const EmailTaken := HttpError(400, "Email already registered")
  const BadCredentials := HttpError(401, "Incorrect email or password")
  const BadFileType := HttpError(400, "Invalid file type. Allowed: JPEG, PNG, GIF, WEBP")
  const FileTooLarge := HttpError(413, "File too large. Maximum size is 5 MB")
  const BadFileName := HttpError(400, "Invalid filename")

  const MaxAvatarSize: nat := 5 * 1024 * 1024
  const AllowedImageTypes: set<string> := {"image/jpeg", "image/png", "image/gif", "image/webp"}
  const AllowedExtensions: set<string> := {"jpg", "jpeg", "png", "gif", "webp"}
  const UploadsPrefix := "/uploads/"

  predicate EmailInUse(users: map<string, User>, email: string) {
    exists id :: id in users && users[id].email == email
  }

  /**
   * `POST /auth/register`: a new account for an unused email, logged as
   * `registered`; the token's subject, the new id, is returned.
   */
  method Register(db: Database, payload: UserRegister, newId: string, passwordHash: string, now: int)
    returns (r: Result<string, HttpError>)
    requires newId !in db.users
    modifies db
    ensures r.Err? <==> EmailInUse(old(db.users), payload.email)
    ensures r.Err? ==> r.error == EmailTaken && db.users == old(db.users) && db.activities == old(db.activities)
    ensures r.Ok? ==> (r.value == newId
      && db.users == old(db.users)[newId := User(payload.email, passwordHash, payload.fullName, None, None, now, now)]
      && db.activities == old(db.activities) + [Activity(newId, "registered", "user", Some(newId), Some(payload.fullName), None, now)])
    ensures old(db.EmailsUnique()) ==> db.EmailsUnique()
    ensures db.tags == old(db.tags) && db.tasks == old(db.tasks) && db.notes == old(db.notes) && db.posts == old(db.posts)
  {
    if EmailInUse(db.users, payload.email) {
      return Err(EmailTaken);
    }
    db.users := db.users[newId := User(payload.email, passwordHash, payload.fullName, None, None, now, now)];
    db.LogActivity(newId, "registered", "user", newId, payload.fullName, now);
    r := Ok(newId);
  }

  /**
   * `POST /auth/login`: succeeds exactly for the account with this email
   * whose hash the password matches, and logs `logged_in`; an unknown
   * email and a wrong password get the same answer.
   */
  method Login(db: Database, email: string, password: string, verify: (string, string) -> bool, now: int)
    returns (r: Result<string, HttpError>)
    requires db.EmailsUnique()
    modifies db
    ensures r.Ok? <==> exists id :: id in db.users && db.users[id].email == email && verify(password, db.users[id].passwordHash)
    ensures r.Ok? ==> (r.value in db.users && db.users[r.value].email == email
      && db.activities == old(db.activities)
        + [Activity(r.value, "logged_in", "user", Some(r.value), Some(db.users[r.value].fullName), None, now)])
    ensures r.Err? ==> r.error == BadCredentials && db.activities == old(db.activities)
    ensures db.users == old(db.users) && db.tags == old(db.tags) && db.tasks == old(db.tasks)
    ensures db.notes == old(db.notes) && db.posts == old(db.posts)
  {
    if !EmailInUse(db.users, email) {
      return Err(BadCredentials);
    }
    var id :| id in db.users && db.users[id].email == email;
    var user := db.users[id];
    if !verify(password, user.passwordHash) {
      return Err(BadCredentials);
    }
    db.LogActivity(id, "logged_in", "user", id, user.fullName, now);
    r := Ok(id);
  }

  /**
   * `PUT /profile`: the fields the payload gives replace the user's, the
   * others stay; logged as an update of the profile.
   */
  method UpdateProfile(db: Database, userId: string, payload: UserUpdate, now: int) returns (u: User)
    requires userId in db.users
    modifies db
    ensures var old_ := old(db.users)[userId];
      && u.email == old_.email && u.passwordHash == old_.passwordHash && u.createdAt == old_.createdAt
      && u.fullName == (if payload.fullName.Some? then payload.fullName.value else old_.fullName)
      && u.bio == (if payload.bio.Some? then payload.bio else old_.bio)
      && u.avatarUrl == (if payload.avatarUrl.Some? then payload.avatarUrl else old_.avatarUrl)
      && u.updatedAt == now
    ensures db.users == old(db.users)[userId := u]
    ensures db.activities == old(db.activities) + [Activity(userId, "updated", "profile", Some(userId), Some("Profile"), None, now)]
    ensures old(db.EmailsUnique()) ==> db.EmailsUnique()
    ensures db.tags == old(db.tags) && db.tasks == old(db.tasks) && db.notes == old(db.notes) && db.posts == old(db.posts)
  {
    var cur := db.users[userId];
    u := cur.(
      fullName := if payload.fullName.Some? then payload.fullName.value else cur.fullName,
      bio := if payload.bio.Some? then payload.bio else cur.bio,
      avatarUrl := if payload.avatarUrl.Some? then payload.avatarUrl else cur.avatarUrl,
      updatedAt := now);
    db.users := db.users[userId := u];
    db.LogActivity(userId, "updated", "profile", userId, "Profile", now);
  }

  // ------------------------------------------------------------ avatars

  /** `s` with its trailing `/`s removed, as a path's last component is read. */
  function StripTrailingSlashes(s: string): (r: string)
    ensures r == [] || r[|r| - 1] != '/'
  {
    if s != [] && s[|s| - 1] == '/' then StripTrailingSlashes(s[..|s| - 1]) else s
  }

  /** What follows the last `/`. */
  function AfterLastSlash(s: string): (r: string)
    ensures '/' !in r
  {
    if s == [] || s[|s| - 1] == '/' then [] else AfterLastSlash(s[..|s| - 1]) + [s[|s| - 1]]
  }

  /** `PurePath(s).name` for a path without `.` components. */
  function BaseName(s: string): (r: string)
    ensures '/' !in r
  {
    AfterLastSlash(StripTrailingSlashes(s))
  }

  /** `s.rfind('.')`. */
  function LastDot(s: string): (r: Option<nat>)
    ensures r.Some? ==> r.value < |s| && s[r.value] == '.' && forall k :: r.value < k < |s| ==> s[k] != '.'
    ensures r.None? ==> '.' !in s
  {
    if s == [] then None
    else if s[|s| - 1] == '.' then Some(|s| - 1)
    else LastDot(s[..|s| - 1])
  }

  /** `PurePath.suffix` of a name: from its last dot, unless that dot leads or ends it. */
  function Suffix(name: string): (r: string)
    ensures r == [] || (r[0] == '.' && '.' !in r[1..])
  {
    var i := LastDot(name);
    if i.Some? && 0 < i.value < |name| - 1 then name[i.value..] else []
  }

  /** `s.lstrip('.')`. */
  function LStripDots(s: string): (r: string)
    ensures r == [] || r[0] != '.'
  {
    if s != [] && s[0] == '.' then LStripDots(s[1..]) else s
  }

  /**
   * The extension the stored file gets: the upload's suffix, lower-cased,
   * when it is one of the image extensions; `"jpg"` otherwise and when
   * the upload has no name.
   */
  function Extension(filename: Option<string>): (ext: string)
    ensures ext in AllowedExtensions
    ensures '/' !in ext && '.' !in ext
  {
    var ext := if filename.Some? && filename.value != [] then Lower(LStripDots(Suffix(BaseName(filename.value)))) else "jpg";
    if ext in AllowedExtensions then ext else "jpg"
  }

  /** A plain name keeps its image extension, whatever its case and whatever directories precede it. */
  lemma ExtensionKept(dir: string, stem: string, ext: string)
    requires dir == [] || dir[|dir| - 1] == '/'
    requires stem != [] && '/' !in stem && '.' !in stem && '.' !in ext && '/' !in ext
    requires Lower(ext) in AllowedExtensions
    ensures Extension(Some(dir + stem + "." + ext)) == Lower(ext)
  {
    assert |Lower(ext)| == |ext|;
    SuffixOfPlainName(dir, stem, ext);
    assert LStripDots("." + ext) == ext by {
      assert ("." + ext)[1..] == ext;
    }
  }

  /** The suffix of `dir/stem.ext` is `.ext`. */
  lemma SuffixOfPlainName(dir: string, stem: string, ext: string)
    requires dir == [] || dir[|dir| - 1] == '/'
    requires stem != [] && ext != [] && '/' !in stem && '.' !in ext && '/' !in ext
    ensures Suffix(BaseName(dir + stem + "." + ext)) == "." + ext
  {
    var name := stem + "." + ext;
    assert dir + stem + "." + ext == dir + name;
    NoSlashInDotted(stem, ext);
    BaseNameOf(dir, name);
    LastDotOf(stem, ext);
    assert name[|stem|..] == "." + ext;
  }

  lemma NoSlashInDotted(stem: string, ext: string)
    requires '/' !in stem && '/' !in ext
    ensures '/' !in stem + "." + ext
  {
    var name := stem + "." + ext;
    forall k | 0 <= k < |name| ensures name[k] != '/' {
      if k < |stem| { assert name[k] == stem[k]; }
      else if k > |stem| { assert name[k] == ext[k - |stem| - 1]; }
    }
  }

  /** The last component of `dir/name` is `name`. */
  lemma BaseNameOf(dir: string, name: string)
    requires dir == [] || dir[|dir| - 1] == '/'
    requires name != [] && '/' !in name
    ensures BaseName(dir + name) == name
  {
    var path := dir + name;
    assert path[|path| - 1] == name[|name| - 1];
    assert StripTrailingSlashes(path) == path;
    AfterLastSlashOf(dir, name);
  }

  lemma {:induction false} AfterLastSlashOf(dir: string, name: string)
    requires dir == [] || dir[|dir| - 1] == '/'
    requires '/' !in name
    ensures AfterLastSlash(dir + name) == name
    decreases |name|
  {
    if name == [] {
      assert dir + name == dir;
    } else {
      var path := dir + name;
      assert path[..|path| - 1] == dir + name[..|name| - 1];
      AfterLastSlashOf(dir, name[..|name| - 1]);
      assert name == name[..|name| - 1] + [name[|name| - 1]];
    }
  }

  lemma {:induction false} LastDotOf(stem: string, ext: string)
    requires '.' !in ext
    ensures LastDot(stem + "." + ext) == Some(|stem|)
    decreases |ext|
  {
    var s := stem + "." + ext;
    if ext != [] {
      assert s[|s| - 1] == ext[|ext| - 1];
      assert s[..|s| - 1] == stem + "." + ext[..|ext| - 1];
      LastDotOf(stem, ext[..|ext| - 1]);
    }
  }

  /** `f"{current_user.id}_{uuid.uuid4().hex[:8]}.{ext}"`, with the random part given as `token`. */
  function StoredName(userId: string, token: string, filename: Option<string>): string {
    userId + "_" + token + "." + Extension(filename)
  }

  /** A stored name built from ids without a separator is one path component: the directory guard never fires. */
  lemma StoredNameIsOneComponent(userId: string, token: string, filename: Option<string>)
    requires '/' !in userId && '/' !in token
    ensures '/' !in StoredName(userId, token, filename)
  {
    var ext := Extension(filename);
    var name := StoredName(userId, token, filename);
    forall k | 0 <= k < |name| ensures name[k] != '/' {
      if k < |userId| { assert name[k] == userId[k]; }
      else if k == |userId| { assert name[k] == '_'; }
      else if k < |userId| + 1 + |token| { assert name[k] == token[k - |userId| - 1]; }
      else if k == |userId| + 1 + |token| { assert name[k] == '.'; }
      else { assert name[k] == ext[k - |userId| - 2 - |token|]; }
    }
  }

  /**
   * The stored file an old avatar URL names, relative to the application
   * root (`avatar_url.lstrip("/")`): only for a URL under `/uploads/`.
   */
  function OldUpload(avatarUrl: Option<string>): (r: Option<string>)
    ensures r.Some? ==> avatarUrl.Some? && StartsWith(avatarUrl.value, UploadsPrefix) && r.value == avatarUrl.value[1..]
    ensures avatarUrl.Some? && StartsWith(avatarUrl.value, UploadsPrefix) ==> r.Some?
  {
    if avatarUrl.Some? && avatarUrl.value != [] && StartsWith(avatarUrl.value, UploadsPrefix) then Some(avatarUrl.value[1..])
    else None
  }

  /** An avatar URL pointing elsewhere (an external image, say) never leads to a removal. */
  lemma ForeignAvatarKept(url: string)
    requires !StartsWith(url, UploadsPrefix)
    ensures OldUpload(Some(url)).None?
  {
  }

  /**
   * `POST /profile/avatar`: the content type is checked first, then the
   * size, then the stored name; on success the avatar URL points at the
   * new file, the file the old URL named (if it was an upload) is the one
   * to remove, and the change is logged.
   */
  method UploadAvatar(db: Database, userId: string, contentType: string, size: nat, filename: Option<string>, token: string, now: int)
    returns (r: Result<User, HttpError>, removal: Option<string>)
    requires userId in db.users
    modifies db
    ensures r.Err? <==> (contentType !in AllowedImageTypes || size > MaxAvatarSize
      || '/' in StoredName(userId, token, filename))
    ensures contentType !in AllowedImageTypes ==> r == Err(BadFileType)
    ensures contentType in AllowedImageTypes && size > MaxAvatarSize ==> r == Err(FileTooLarge)
    ensures contentType in AllowedImageTypes && size <= MaxAvatarSize && '/' in StoredName(userId, token, filename) ==> r == Err(BadFileName)
    ensures r.Err? ==> removal.None? && db.users == old(db.users) && db.activities == old(db.activities)
    ensures r.Ok? ==> (var before := old(db.users)[userId];
      && r.value == before.(avatarUrl := Some(UploadsPrefix + StoredName(userId, token, filename)), updatedAt := now)
      && db.users == old(db.users)[userId := r.value]
      && removal == OldUpload(before.avatarUrl)
      && db.activities == old(db.activities) + [Activity(userId, "updated", "profile", Some(userId), Some("Avatar"), None, now)])
    ensures old(db.EmailsUnique()) ==> db.EmailsUnique()
    ensures db.tags == old(db.tags) && db.tasks == old(db.tasks) && db.notes == old(db.notes) && db.posts == old(db.posts)
  {
    removal := None;
    if contentType !in AllowedImageTypes {
      return Err(BadFileType), None;
    }
    if size > MaxAvatarSize {
      return Err(FileTooLarge), None;
    }
    var name := StoredName(userId, token, filename);
    if '/' in name {
      return Err(BadFileName), None;
    }
    var user := db.users[userId];
    removal := OldUpload(user.avatarUrl);
    user := user.(avatarUrl := Some(UploadsPrefix + name), updatedAt := now);
    db.users := db.users[userId := user];
    db.LogActivity(userId, "updated", "profile", userId, "Avatar", now);
    r := Ok(user);
  }

  /** Any other extension is replaced by `jpg`. */
  lemma OtherExtensionReplaced(dir: string, stem: string, ext: string)
    requires dir == [] || dir[|dir| - 1] == '/'
    requires stem != [] && ext != [] && '/' !in stem && '.' !in ext && '/' !in ext
    requires Lower(ext) !in AllowedExtensions
    ensures Extension(Some(dir + stem + "." + ext)) == "jpg"
  {
    SuffixOfPlainName(dir, stem, ext);
    assert LStripDots("." + ext) == ext by {
      assert ("." + ext)[1..] == ext;
    }
  }

  /** A hidden file's leading dot is not a suffix: `.png` is stored as `jpg`. */
  lemma HiddenFileHasNoExtension(dir: string, ext: string)
    requires dir == [] || dir[|dir| - 1] == '/'
    requires ext != [] && '.' !in ext && '/' !in ext
    ensures Extension(Some(dir + "." + ext)) == "jpg"
  {
    var name := "" + "." + ext;
    var path := dir + "." + ext;
    assert BaseName(path) == name by {
      assert path == dir + name;
      NoSlashInDotted("", ext);
      BaseNameOf(dir, name);
    }
    assert Suffix(name) == [] by {
      LastDotOf("", ext);
    }
    assert Lower(LStripDots([])) !in AllowedExtensions by {
      assert |Lower(LStripDots([]))| == 0;
    }
  }
}
