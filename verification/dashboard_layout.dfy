/**
 * The dashboard shell (frontend/src/pages/DashboardLayout.js): which
 * sidebar entry is highlighted for the current path, and the avatar shown
 * in the header.
 */
module DashboardLayout {
  import opened Wrappers
  import opened Text
  import ProfilePage

  const Overview := "/dashboard"

  /** `navItems`' paths, in sidebar order. */
  const NavPaths: seq<string> := [
    "/dashboard", "/dashboard/tasks", "/dashboard/notes", "/dashboard/posts",
    "/dashboard/analytics", "/dashboard/activity"]

  /**
   * `isActive`: the overview entry only on its own path, every other entry
   * on any path that starts with it (a plain prefix, with no check for a
   * `/` after it).
   */
  function IsActive(pathname: string, path: string): (r: bool)
    ensures path == Overview ==> (r <==> pathname == Overview)
    ensures path != Overview ==> (r <==> StartsWith(pathname, path))
  {
    if path == Overview then pathname == Overview else StartsWith(pathname, path)
  }

  /** On a page below the dashboard the overview entry is never highlighted. */
  lemma OverviewNotActiveOnSubpages(pathname: string)
    requires StartsWith(pathname, Overview + "/")
    ensures !IsActive(pathname, Overview)
  {
    assert |pathname| > |Overview|;
  }

  /** A path starting with both of two prefixes means the shorter is a prefix of the longer. */
  lemma PrefixesNest(p: string, a: string, b: string)
    requires StartsWith(p, a) && StartsWith(p, b) && |a| <= |b|
    ensures StartsWith(b, a)
  {
    assert b[..|a|] == p[..|b|][..|a|] == p[..|a|];
  }

  /** No sidebar path other than the overview starts with another one. */
  lemma NavPathsIndependent()
    ensures forall i, j :: 1 <= i < |NavPaths| && 1 <= j < |NavPaths| && i != j ==> !StartsWith(NavPaths[i], NavPaths[j])
  {
    forall i, j | 1 <= i < |NavPaths| && 1 <= j < |NavPaths| && i != j
      ensures !StartsWith(NavPaths[i], NavPaths[j])
    {
      var a, b := NavPaths[i], NavPaths[j];
      assert |a| >= 15 && |b| >= 15;
      assert a[11] != b[11] || a[12] != b[12];
    }
  }

  /** At most one sidebar entry is highlighted, whatever the path. */
  lemma AtMostOneActive(pathname: string)
    ensures forall i, j :: 0 <= i < j < |NavPaths| && IsActive(pathname, NavPaths[i]) ==> !IsActive(pathname, NavPaths[j])
  {
    NavPathsIndependent();
    forall i, j | 0 <= i < j < |NavPaths| && IsActive(pathname, NavPaths[i])
      ensures !IsActive(pathname, NavPaths[j])
    {
      var a, b := NavPaths[i], NavPaths[j];
      if i == 0 {
        assert pathname == Overview;
        assert |b| > |Overview|;
      } else if IsActive(pathname, b) {
        if |a| <= |b| {
          PrefixesNest(pathname, a, b);
        } else {
          PrefixesNest(pathname, b, a);
        }
      }
    }
  }

  /** With no `/` check, a longer name that merely starts like an entry still highlights it. */
  lemma NoSegmentBoundary(rest: string)
    ensures IsActive("/dashboard/tasks" + rest, "/dashboard/tasks")
  {
    var p := "/dashboard/tasks" + rest;
    assert p[..|"/dashboard/tasks"|] == "/dashboard/tasks";
  }

  /** The header avatar: the uploaded path behind the backend URL, any other URL as it is. */
  function AvatarSrc(avatar: Option<string>, apiUrl: string): (r: Option<string>)
    ensures r.None? <==> avatar.None? || avatar.value == []
    ensures r.Some? ==> (r.value == if StartsWith(avatar.value, "/uploads") then apiUrl + avatar.value else avatar.value)
  {
    if avatar.None? || avatar.value == [] then None
    else if StartsWith(avatar.value, "/uploads") then Some(apiUrl + avatar.value)
    else avatar
  }

  /** The header and the profile page show the same image for the same user. */
  lemma SameAvatarAsProfile(avatar: Option<string>, apiUrl: string)
    ensures AvatarSrc(avatar, apiUrl) == ProfilePage.AvatarUrl(avatar, apiUrl)
  {
  }

  /**
   * The letter shown without an avatar: the first character of the name,
   * upper-cased, or `U` when there is no name.
   */
  function Initial(fullName: Option<string>): (r: string)
    ensures |r| == 1
    ensures fullName.None? || fullName.value == [] ==> r == "U"
    ensures fullName.Some? && fullName.value != [] ==> r[0] == ToUpperAscii(fullName.value[0])
  {
    if fullName.None? || fullName.value == [] then "U" else Upper(fullName.value[..1])
  }
}
