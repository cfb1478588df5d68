/**
 * The activity timeline (frontend/src/pages/ActivityPage.js): the query
 * the filter sends, the sentence shown for each logged action, the icon
 * and colour lookups, and the grouping of the feed into day buckets.
 */
module ActivityPage {
  import opened Wrappers
  import opened Text
  import opened Listing
  import Store
  import DataRoutes
  import ListQuery

  const FetchFailed := "Failed to fetch activities"

  // ----------------------------------------------------------- the query

  /** The `entity_type` the server receives: none for `'all'`, the filter itself otherwise. */
  function EntityParam(filter: string): (r: Option<string>)
    ensures r.None? <==> filter == "all"
    ensures r.Some? ==> r.value == filter
  {
    if filter != "all" then Some(filter) else None
  }

  /** The query string carries exactly the `entity_type` the server then reads. */
  lemma QueryCarriesParam(filter: string)
    ensures EntityParam(filter).None? ==> ListQuery.ActivityQuery(filter) == []
    ensures EntityParam(filter).Some? ==> ListQuery.ActivityQuery(filter) == "?entity_type=" + EntityParam(filter).value
  {
  }

  /** With `'all'` the server lists every activity of the user. */
  lemma AllListsEverything(a: Store.Activity, userId: string)
    ensures DataRoutes.Listed(a, userId, EntityParam("all")) <==> a.userId == userId
  {
  }

  /**
   * Any other choice lists exactly the user's activities of that entity
   * type; so "Account" (`user`) shows sign-ups and sign-ins but not the
   * profile and avatar edits, which are logged under `profile`.
   */
  lemma FilterSelectsEntity(a: Store.Activity, userId: string, filter: string)
    requires filter != "all" && filter != []
    ensures DataRoutes.Listed(a, userId, EntityParam(filter)) <==> a.userId == userId && a.entityType == filter
  {
  }

  lemma AccountFilterLeavesOutProfileEdits(a: Store.Activity)
    requires a.entityType == "profile"
    ensures !DataRoutes.Listed(a, a.userId, EntityParam("user"))
  {
  }

  // ------------------------------------------------------- getActionText

  /** The `actions` table: a sentence for each action the backend logs. */
  function Template(action: string, entityType: string): (r: Option<string>)
    ensures r.Some? <==> action in {"created", "updated", "deleted", "completed", "published", "logged_in", "registered"}
    ensures r.Some? ==> r.value != []
  {
    match action
    case "created" => Some("Created " + entityType)
    case "updated" => Some("Updated " + entityType)
    case "deleted" => Some("Deleted " + entityType)
    case "completed" => Some("Completed " + entityType)
    case "published" => Some("Published " + entityType)
    case "logged_in" => Some("Logged in")
    case "registered" => Some("Created account")
    case _ => None
  }

  /** Sign-up and sign-in never show the title. */
  predicate AccountAction(action: string) {
    action == "logged_in" || action == "registered"
  }

  /** The title is appended when it is truthy and the action is not an account one. */
  predicate TitleShown(action: string, entityTitle: Option<string>) {
    entityTitle.Some? && entityTitle.value != [] && !AccountAction(action)
  }

  /** `actions[action] || action`: every sentence is non-empty, so a known action never falls through. */
  function Lead(action: string, entityType: string): (r: string)
    ensures Template(action, entityType).Some? ==> r == Template(action, entityType).value
    ensures Template(action, entityType).None? ==> r == action
  {
    var t := Template(action, entityType);
    if t.Some? && t.value != [] then t.value else action
  }

  /** `getActionText`. */
  function ActionText(action: string, entityType: string, entityTitle: Option<string>): (r: string)
    ensures StartsWith(r, Lead(action, entityType))
    ensures !TitleShown(action, entityTitle) ==> r == Lead(action, entityType)
    ensures TitleShown(action, entityTitle) ==> |r| == |Lead(action, entityType)| + |entityTitle.value| + 4
  {
    var text := Lead(action, entityType);
    if TitleShown(action, entityTitle) then text + ": \"" + entityTitle.value + "\"" else text
  }

  /** A shown title can be read back out of the sentence, between `: "` and the closing quote. */
  lemma TitleReadBack(action: string, entityType: string, entityTitle: Option<string>)
    requires TitleShown(action, entityTitle)
    ensures var r := ActionText(action, entityType, entityTitle);
      var n := |Lead(action, entityType)|;
      && r[n..n + 3] == ": \""
      && r[n + 3..|r| - 1] == entityTitle.value
      && r[|r| - 1] == '"'
  {
    var lead := Lead(action, entityType);
    var r := ActionText(action, entityType, entityTitle);
    assert r == lead + ": \"" + entityTitle.value + "\"";
    var n := |lead|;
    assert r[n..n + 3] == ": \"";
    assert r[n + 3..|r| - 1] == entityTitle.value;
  }

  /** An account action reads the same whatever title was logged with it. */
  lemma AccountTextIgnoresTitle(action: string, entityType: string, t1: Option<string>, t2: Option<string>)
    requires AccountAction(action)
    ensures ActionText(action, entityType, t1) == ActionText(action, entityType, t2)
    ensures ActionText(action, entityType, t1) == (if action == "logged_in" then "Logged in" else "Created account")
  {
  }

  /** An action the table does not know is shown as itself, followed by the title if there is one. */
  lemma UnknownActionShownAsIs(action: string, entityType: string, entityTitle: Option<string>)
    requires Template(action, entityType).None?
    ensures StartsWith(ActionText(action, entityType, entityTitle), action)
    ensures entityTitle.None? ==> ActionText(action, entityType, entityTitle) == action
  {
  }

  // ------------------------------------------------------ icons, colours

  datatype Icon = Plus | Pencil | Trash | CheckCircle | Send | LogIn | Person | ListTodo | FileText | PenSquare

  const ActionIcons: map<string, Icon> := map[
    "created" := Plus, "updated" := Pencil, "deleted" := Trash, "completed" := CheckCircle,
    "published" := Send, "logged_in" := LogIn, "registered" := Person]

  const EntityIcons: map<string, Icon> := map[
    "task" := ListTodo, "note" := FileText, "post" := PenSquare, "user" := Person, "profile" := Person]

  const ActionColors: map<string, string> := map[
    "created" := "text-emerald-500 bg-emerald-500/10",
    "updated" := "text-blue-500 bg-blue-500/10",
    "deleted" := "text-red-500 bg-red-500/10",
    "completed" := "text-green-500 bg-green-500/10",
    "published" := "text-purple-500 bg-purple-500/10",
    "logged_in" := "text-cyan-500 bg-cyan-500/10",
    "registered" := "text-indigo-500 bg-indigo-500/10"]

  const DefaultColor := "text-gray-500 bg-gray-500/10"

  function ActionIcon(action: string): (r: Icon)
    ensures action in ActionIcons ==> r == ActionIcons[action]
    ensures action !in ActionIcons ==> r == Plus
  {
    if action in ActionIcons then ActionIcons[action] else Plus
  }

  function EntityIcon(entityType: string): (r: Icon)
    ensures entityType in EntityIcons ==> r == EntityIcons[entityType]
    ensures entityType !in EntityIcons ==> r == FileText
  {
    if entityType in EntityIcons then EntityIcons[entityType] else FileText
  }

  function ActionColor(action: string): (r: string)
    ensures action in ActionColors ==> r == ActionColors[action]
    ensures action !in ActionColors ==> r == DefaultColor
  {
    if action in ActionColors then ActionColors[action] else DefaultColor
  }

  /** The three tables cover the same actions: exactly those with a sentence get their own icon and colour. */
  lemma TablesAgree(action: string, entityType: string)
    ensures action in ActionIcons <==> Template(action, entityType).Some?
    ensures action in ActionColors <==> Template(action, entityType).Some?
    ensures Template(action, entityType).None? ==> ActionColor(action) == DefaultColor && ActionIcon(action) == Plus
  {
  }

  // ------------------------------------------------------------ grouping

  /** The day keys in the order they first appear: the key order `Object.entries` gives back. */
  function DaysInOrder<T>(items: seq<T>, dayOf: T -> string): seq<string> {
    if items == [] then []
    else
      var earlier := DaysInOrder(items[..|items| - 1], dayOf);
      var d := dayOf(items[|items| - 1]);
      if d in earlier then earlier else earlier + [d]
  }

  /** The test that puts an item in day `d`'s bucket. */
  function OnDay<T>(dayOf: T -> string, d: string): T -> bool {
    (x: T) => dayOf(x) == d
  }

  /** Each day appears once, and the days are exactly those of the items. */
  lemma {:induction false} DaysFacts<T>(items: seq<T>, dayOf: T -> string)
    ensures Distinct(DaysInOrder(items, dayOf))
    ensures forall i :: 0 <= i < |items| ==> dayOf(items[i]) in DaysInOrder(items, dayOf)
    ensures forall d :: d in DaysInOrder(items, dayOf) ==> exists i :: 0 <= i < |items| && dayOf(items[i]) == d
  {
    if items != [] {
      var init := items[..|items| - 1];
      DaysFacts(init, dayOf);
      assert forall i :: 0 <= i < |init| ==> init[i] == items[i];
      var days := DaysInOrder(items, dayOf);
      forall d | d in days ensures exists i :: 0 <= i < |items| && dayOf(items[i]) == d {
        if d in DaysInOrder(init, dayOf) {
          var i :| 0 <= i < |init| && dayOf(init[i]) == d;
          assert dayOf(items[i]) == d;
        } else {
          assert dayOf(items[|items| - 1]) == d;
        }
      }
    }
  }

  /**
   * The `reduce` that builds `groups`: each item is pushed onto the bucket
   * of its day, a bucket being created the first time its day is seen.
   * `dayOf` is the `yyyy-MM-dd` rendering of `created_at` in the
   * browser's time zone.
   */
  method GroupByDay<T>(items: seq<T>, dayOf: T -> string) returns (days: seq<string>, groups: map<string, seq<T>>)
    ensures days == DaysInOrder(items, dayOf)
    ensures forall d :: d in groups <==> d in days
    ensures forall d :: d in groups ==> groups[d] == Keep(items, OnDay(dayOf, d))
  {
    days, groups := [], map[];
    var i := 0;
    while i < |items|
      invariant 0 <= i <= |items|
      invariant days == DaysInOrder(items[..i], dayOf)
      invariant forall d :: d in groups <==> d in days
      invariant forall d :: d in groups ==> groups[d] == Keep(items[..i], OnDay(dayOf, d))
    {
      GroupStep(items, dayOf, i, days, groups);
      var x := items[i];
      var d := dayOf(x);
      if d !in groups {
        groups := groups[d := []];
        days := days + [d];
      }
      groups := groups[d := groups[d] + [x]];
      i := i + 1;
    }
    assert items[..|items|] == items;
  }

  /** One step of the `reduce`: pushing item `i` onto its day's bucket keeps the buckets exact. */
  lemma GroupStep<T>(items: seq<T>, dayOf: T -> string, i: nat, days: seq<string>, groups: map<string, seq<T>>)
    requires i < |items|
    requires days == DaysInOrder(items[..i], dayOf)
    requires forall d :: d in groups <==> d in days
    requires forall d :: d in groups ==> groups[d] == Keep(items[..i], OnDay(dayOf, d))
    ensures var x, d := items[i], dayOf(items[i]);
      var days' := if d in groups then days else days + [d];
      var start := if d in groups then groups else groups[d := []];
      var groups' := start[d := start[d] + [x]];
      && days' == DaysInOrder(items[..i + 1], dayOf)
      && (forall e :: e in groups' <==> e in days')
      && (forall e :: e in groups' ==> groups'[e] == Keep(items[..i + 1], OnDay(dayOf, e)))
  {
    var x := items[i];
    var d := dayOf(x);
    var pre := items[..i];
    var days' := if d in groups then days else days + [d];
    var start := if d in groups then groups else groups[d := []];
    var groups' := start[d := start[d] + [x]];
    assert days' == DaysInOrder(items[..i + 1], dayOf) by {
      assert items[..i + 1][..i] == pre;
      assert items[..i + 1][i] == x;
    }
    forall e | e in groups' ensures groups'[e] == Keep(items[..i + 1], OnDay(dayOf, e)) {
      assert items[..i + 1] == pre + [x];
      KeepSnoc(pre, x, OnDay(dayOf, e));
      if e == d && d !in groups {
        DaysFacts(pre, dayOf);
        KeepNone(pre, OnDay(dayOf, d));
      }
    }
  }

  /** The sizes of the buckets of `days`, added up. */
  function BucketSizes<T>(items: seq<T>, dayOf: T -> string, days: seq<string>): nat {
    if days == [] then 0
    else BucketSizes(items, dayOf, days[..|days| - 1]) + |Keep(items, OnDay(dayOf, days[|days| - 1]))|
  }

  /** How many times `d` occurs in `days`. */
  function Occurrences(days: seq<string>, d: string): nat {
    if days == [] then 0
    else Occurrences(days[..|days| - 1], d) + (if days[|days| - 1] == d then 1 else 0)
  }

  lemma {:induction false} OccurrencesDistinct(days: seq<string>, d: string)
    requires Distinct(days)
    ensures Occurrences(days, d) == if d in days then 1 else 0
  {
    if days != [] {
      var init := days[..|days| - 1];
      assert Distinct(init) by {
        forall i, j | 0 <= i < j < |init| ensures init[i] != init[j] {
          assert init[i] == days[i] && init[j] == days[j];
        }
      }
      OccurrencesDistinct(init, d);
      assert days == init + [days[|days| - 1]];
      assert days[|days| - 1] !in init;
    }
  }

  /** One more item adds one to the bucket of its day, once for every time that day is listed. */
  lemma {:induction false} BucketSizesSnoc<T>(items: seq<T>, x: T, dayOf: T -> string, days: seq<string>)
    ensures BucketSizes(items + [x], dayOf, days) == BucketSizes(items, dayOf, days) + Occurrences(days, dayOf(x))
  {
    if days != [] {
      BucketSizesSnoc(items, x, dayOf, days[..|days| - 1]);
      KeepSnoc(items, x, OnDay(dayOf, days[|days| - 1]));
    }
  }

  /** Every item lands in exactly one bucket: the buckets together hold as many items as the feed. */
  lemma {:induction false} BucketsPartition<T>(items: seq<T>, dayOf: T -> string)
    ensures BucketSizes(items, dayOf, DaysInOrder(items, dayOf)) == |items|
  {
    if items != [] {
      var init := items[..|items| - 1];
      var x := items[|items| - 1];
      var d := dayOf(x);
      var earlier := DaysInOrder(init, dayOf);
      assert items == init + [x];
      BucketsPartition(init, dayOf);
      DaysFacts(init, dayOf);
      BucketSizesSnoc(init, x, dayOf, earlier);
      OccurrencesDistinct(earlier, d);
      if d !in earlier {
        KeepNone(init, OnDay(dayOf, d));
        KeepSnoc(init, x, OnDay(dayOf, d));
        assert (earlier + [d])[..|earlier|] == earlier;
      }
    }
  }

  /** Each item is in the bucket of its own day, and a bucket holds only items of its day, in feed order. */
  lemma BucketMembers<T>(items: seq<T>, dayOf: T -> string, d: string)
    ensures forall x :: x in Keep(items, OnDay(dayOf, d)) ==> x in items && dayOf(x) == d
    ensures forall i :: 0 <= i < |items| && dayOf(items[i]) == d ==> items[i] in Keep(items, OnDay(dayOf, d))
  {
    KeepFacts(items, OnDay(dayOf, d));
  }

  // ---------------------------------------------------------- the fetch

  class ActivityPage {
    var filter: string
    var activities: seq<Store.Activity>
    var loading: bool
    var requests: seq<string>
    var errorToasts: seq<string>

    constructor ()
      ensures filter == "all" && activities == [] && loading && requests == [] && errorToasts == []
    {
      filter, activities, loading := "all", [], true;
      requests, errorToasts := [], [];
    }

    /**
     * `fetchActivities`, run whenever the filter changes: the response
     * replaces the list; a failure keeps the old list and shows a toast.
     */
    method Fetch(chosen: string, response: Option<seq<Store.Activity>>)
      modifies this
      ensures filter == chosen && !loading
      ensures requests == old(requests) + ["/activities" + ListQuery.ActivityQuery(chosen)]
      ensures response.Some? ==> activities == response.value && errorToasts == old(errorToasts)
      ensures response.None? ==> activities == old(activities) && errorToasts == old(errorToasts) + [FetchFailed]
    {
      filter := chosen;
      loading := true;
      requests := requests + ["/activities" + ListQuery.ActivityQuery(filter)];
      if response.Some? {
        activities := response.value;
      } else {
        errorToasts := errorToasts + [FetchFailed];
      }
      loading := false;
    }
  }
}
