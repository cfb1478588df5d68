/**
 * The profile page (frontend/src/pages/ProfilePage.js): where the avatar
 * image comes from, the one field rule of the profile form, the save, and
 * the client-side checks an avatar file passes before it is uploaded.
 */
module ProfilePage {
  import opened Wrappers
  import opened Text
  import opened FormRules
  import opened Schemas
  import AuthRoutes
  import RegisterPage

  const NameRequired := "Full name is required"
  const NameTooShort := "Name must be at least 2 characters"
  const Saved := "Profile updated successfully"
  const SaveFailed := "Failed to update profile"
  const ImageTooLarge := "Image size must be less than 5MB"
  const ImageWrongType := "Invalid file type. Allowed: JPEG, PNG, GIF, WEBP"
  const AvatarSaved := "Avatar updated successfully"
  const UploadFailed := "Failed to upload avatar"

  /** `5 * 1024 * 1024`: the largest size the page lets through. */
  const MaxImageSize: nat := 5 * 1024 * 1024
  /** `allowedTypes`, in the order the page lists them. */
  const AllowedTypes: seq<string> := ["image/jpeg", "image/png", "image/gif", "image/webp"]

  /**
   * `getAvatarUrl`: no image for a missing or empty URL; a path the server
   * serves (one starting with `/uploads`) is put behind the backend's base
   * URL; any other URL is used as it is.
   */
  function AvatarUrl(avatar: Option<string>, apiUrl: string): (r: Option<string>)
    ensures r.None? <==> avatar.None? || avatar.value == []
    ensures r.Some? && StartsWith(avatar.value, "/uploads") ==> r.value == apiUrl + avatar.value
    ensures r.Some? && !StartsWith(avatar.value, "/uploads") ==> r == avatar
  {
    if avatar.None? || avatar.value == [] then None
    else if StartsWith(avatar.value, "/uploads") then Some(apiUrl + avatar.value)
    else avatar
  }

  /** An avatar stored by the upload route is shown from the backend, under the name it was stored as. */
  lemma UploadedAvatarServedByBackend(userId: string, token: string, filename: Option<string>, apiUrl: string)
    ensures var path := AuthRoutes.UploadsPrefix + AuthRoutes.StoredName(userId, token, filename);
      AvatarUrl(Some(path), apiUrl) == Some(apiUrl + path)
  {
    var path := AuthRoutes.UploadsPrefix + AuthRoutes.StoredName(userId, token, filename);
    assert path[..|"/uploads"|] == "/uploads";
  }

  /** A URL the upload route did not produce (an absolute `https://` one, say) is left alone. */
  lemma ForeignAvatarUnchanged(url: string, apiUrl: string)
    requires url != [] && url[0] != '/'
    ensures AvatarUrl(Some(url), apiUrl) == Some(url)
  {
    assert url[..1] != "/uploads"[..1];
  }

  /**
   * The `full_name` rule: blank once trimmed is "required"; otherwise the
   * untrimmed length must be at least two.
   */
  function NameRule(s: string): (r: Option<string>)
    ensures r.None? <==> !IsBlank(s) && |s| >= 2
    ensures r == Some(NameRequired) <==> IsBlank(s)
    ensures r == Some(NameTooShort) <==> !IsBlank(s) && |s| < 2
  {
    if IsBlank(s) then Some(NameRequired)
    else if |s| < 2 then Some(NameTooShort)
    else None
  }

  function Rules(fullName: string): (r: seq<FieldResult>)
    ensures DistinctFields(r)
  {
    [FieldResult("full_name", NameRule(fullName))]
  }

  /** The profile form is valid exactly when the name is not blank and has two characters. */
  lemma ValidIff(fullName: string)
    ensures ErrorsOf(Rules(fullName)) == map[] <==> !IsBlank(fullName) && |fullName| >= 2
  {
    var rs := Rules(fullName);
    assert rs[..0] == [];
    assert ErrorsOf(rs) == Recorded(map[], rs[0]);
    if rs[0].message.Some? {
      assert "full_name" in ErrorsOf(rs);
    }
  }

  /** A name made only of white space passes the sign-up rule but not this one. */
  lemma SpacesPassSignUpOnly()
    ensures RegisterPage.FullNameRule("  ") == None
    ensures NameRule("  ") == Some(NameRequired)
  {
    BlankIffAllSpace("  ");
  }

  /** `user?.field || ''`: a missing or empty value starts the form empty. */
  function OrEmpty(s: Option<string>): (r: string)
    ensures s.Some? ==> r == s.value
    ensures s.None? ==> r == []
  {
    if s.Some? then s.value else []
  }

  /** The part of a picked file the page looks at. */
  datatype ImageFile = ImageFile(size: nat, mimeType: string)

  /** The page's two checks on a picked file, in its order: size first, then type. */
  function FileProblem(f: ImageFile): (r: Option<string>)
    ensures r.None? <==> f.size <= MaxImageSize && f.mimeType in AllowedTypes
    ensures f.size > MaxImageSize ==> r == Some(ImageTooLarge)
    ensures f.size <= MaxImageSize && f.mimeType !in AllowedTypes ==> r == Some(ImageWrongType)
  {
    if f.size > MaxImageSize then Some(ImageTooLarge)
    else if f.mimeType !in AllowedTypes then Some(ImageWrongType)
    else None
  }

  /**
   * The page lets a file through exactly when the upload route's own type
   * and size checks accept it: the two sides agree on the limit and the list.
   */
  lemma ClientChecksMatchServer(f: ImageFile)
    ensures FileProblem(f).None? <==>
      f.mimeType in AuthRoutes.AllowedImageTypes && f.size <= AuthRoutes.MaxAvatarSize
  {
    assert forall t :: t in AllowedTypes <==> t in AuthRoutes.AllowedImageTypes;
  }

  /** What the page asks the server to do. */
  datatype Request = PutProfile(update: UserUpdate) | PostAvatar(file: ImageFile)

  /** A toast: success or error, with its message (an error may carry any JSON `detail`). */
  datatype Toast = Success(text: string) | Failure(detail: Detail)

  /** `error.response?.data?.detail || 'Failed to upload avatar'`. */
  function UploadFailureMessage(detail: Detail): (m: Detail)
    ensures DetailTruthy(m)
    ensures DetailTruthy(detail) ==> m == detail
    ensures !DetailTruthy(detail) ==> m == DString(UploadFailed)
  {
    if DetailTruthy(detail) then detail else DString(UploadFailed)
  }

  class ProfilePage {
    var fullName: string
    var bio: string
    var errors: map<string, string>
    var loading: bool
    var avatarLoading: bool
    var requests: seq<Request>
    var toasts: seq<Toast>

    /** The form starts from the signed-in user's name and bio, or empty. */
    constructor (userName: Option<string>, userBio: Option<string>)
      ensures fullName == OrEmpty(userName) && bio == OrEmpty(userBio)
      ensures errors == map[] && !loading && !avatarLoading && requests == [] && toasts == []
    {
      fullName, bio := OrEmpty(userName), OrEmpty(userBio);
      errors := map[];
      loading, avatarLoading := false, false;
      requests, toasts := [], [];
    }

    method Edit(name: string, about: string)
      modifies this
      ensures fullName == name && bio == about
      ensures errors == old(errors) && loading == old(loading) && avatarLoading == old(avatarLoading)
      ensures requests == old(requests) && toasts == old(toasts)
    {
      fullName, bio := name, about;
    }

    /** `validate`: the new error object replaces the old one. */
    method Validate() returns (valid: bool)
      modifies this
      ensures errors == ErrorsOf(Rules(fullName))
      ensures valid <==> errors == map[]
      ensures fullName == old(fullName) && bio == old(bio) && loading == old(loading)
      ensures avatarLoading == old(avatarLoading) && requests == old(requests) && toasts == old(toasts)
    {
      var rs := Rules(fullName);
      assert rs[..0] == [];
      assert ErrorsOf(rs) == Recorded(map[], rs[0]);
      var newErrors: map<string, string> := map[];
      if IsBlank(fullName) {
        newErrors := newErrors["full_name" := NameRequired];
      } else if |fullName| < 2 {
        newErrors := newErrors["full_name" := NameTooShort];
      }
      errors := newErrors;
      valid := |newErrors| == 0;
    }

    /**
     * `handleSubmit`: a valid form is sent whole (name and bio, so an
     * emptied bio is stored empty and the avatar is left alone); the
     * outcome of `updateProfile` is a parameter.
     */
    method HandleSubmit(outcome: Result<(), Detail>) returns (sent: bool)
      modifies this
      ensures sent <==> !IsBlank(fullName) && |fullName| >= 2
      ensures errors == ErrorsOf(Rules(fullName))
      ensures fullName == old(fullName) && bio == old(bio) && avatarLoading == old(avatarLoading)
      ensures sent ==> !loading
      ensures !sent ==> requests == old(requests) && toasts == old(toasts) && loading == old(loading)
      ensures sent ==> requests == old(requests) + [PutProfile(UserUpdate(Some(fullName), Some(bio), None))]
      ensures sent && outcome.Ok? ==> toasts == old(toasts) + [Success(Saved)]
      ensures sent && outcome.Err? ==> toasts == old(toasts) + [Failure(DString(SaveFailed))]
    {
      ValidIff(fullName);
      sent := Validate();
      if !sent {
        return;
      }
      loading := true;
      requests := requests + [PutProfile(UserUpdate(Some(fullName), Some(bio), None))];
      if outcome.Ok? {
        toasts := toasts + [Success(Saved)];
      } else {
        toasts := toasts + [Failure(DString(SaveFailed))];
      }
      loading := false;
    }

    /**
     * `handleAvatarUpload`: no file does nothing; a file the checks refuse
     * gets its toast and is not sent; otherwise the upload is posted and,
     * when it succeeds, the profile is fetched again through an empty
     * update. Either failure ends in the upload's error toast.
     */
    method HandleAvatarUpload(file: Option<ImageFile>, upload: Result<(), Detail>, refetch: Result<(), Detail>)
      returns (posted: bool)
      modifies this
      ensures posted <==> file.Some? && FileProblem(file.value).None?
      ensures fullName == old(fullName) && bio == old(bio) && errors == old(errors) && loading == old(loading)
      ensures posted ==> !avatarLoading
      ensures !posted ==> avatarLoading == old(avatarLoading)
      ensures file.None? ==> requests == old(requests) && toasts == old(toasts)
      ensures file.Some? && !posted ==> (requests == old(requests)
        && toasts == old(toasts) + [Failure(DString(FileProblem(file.value).value))])
      ensures posted && upload.Err? ==> (requests == old(requests) + [PostAvatar(file.value)]
        && toasts == old(toasts) + [Failure(UploadFailureMessage(upload.error))])
      ensures posted && upload.Ok? ==>
        requests == old(requests) + [PostAvatar(file.value), PutProfile(UserUpdate(None, None, None))]
      ensures posted && upload.Ok? && refetch.Ok? ==> toasts == old(toasts) + [Success(AvatarSaved)]
      ensures posted && upload.Ok? && refetch.Err? ==> toasts == old(toasts) + [Failure(UploadFailureMessage(refetch.error))]
    {
      posted := false;
      if file.None? {
        return;
      }
      var f := file.value;
      if f.size > MaxImageSize {
        toasts := toasts + [Failure(DString(ImageTooLarge))];
        return;
      }
      if f.mimeType !in AllowedTypes {
        toasts := toasts + [Failure(DString(ImageWrongType))];
        return;
      }
      posted := true;
      avatarLoading := true;
      requests := requests + [PostAvatar(f)];
      if upload.Err? {
        toasts := toasts + [Failure(UploadFailureMessage(upload.error))];
      } else {
        requests := requests + [PutProfile(UserUpdate(None, None, None))];
        if refetch.Ok? {
          toasts := toasts + [Success(AvatarSaved)];
        } else {
          toasts := toasts + [Failure(UploadFailureMessage(refetch.error))];
        }
      }
      avatarLoading := false;
    }
  }
}
