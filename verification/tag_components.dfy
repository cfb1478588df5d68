/**
 * The tag widgets (frontend/src/components/TagComponents.js): the badge
 * colour lookup, the selector's toggle and its rendering of the selected
 * ids, the settings-page tag manager and the `useTags` hook.
 */
module TagComponents {
  import opened Wrappers
  import opened Text
  import opened Client

  /** A tag as the API returns it to the client. */
  datatype TagView = TagView(id: string, name: string, color: string)

  datatype ColorOption = ColorOption(value: string, title: string, cls: string)

  /** The palette offered for tags. */
  const TagColors: seq<ColorOption> := [
    ColorOption("default", "Gray", "bg-slate-500"),
    ColorOption("red", "Red", "bg-red-500"),
    ColorOption("orange", "Orange", "bg-orange-500"),
    ColorOption("yellow", "Yellow", "bg-yellow-500"),
    ColorOption("green", "Green", "bg-green-500"),
    ColorOption("blue", "Blue", "bg-blue-500"),
    ColorOption("purple", "Purple", "bg-purple-500"),
    ColorOption("pink", "Pink", "bg-pink-500")
  ]

  const FallbackClass: string := "bg-slate-500"

  /** `options.find(c => c.value === color)?.class`. */
  function FindClass(options: seq<ColorOption>, color: string): (r: Option<string>)
    ensures r.None? <==> forall i :: 0 <= i < |options| ==> options[i].value != color
    ensures r.Some? ==> exists i :: (0 <= i < |options| && options[i].value == color && options[i].cls == r.value
                                     && forall j :: 0 <= j < i ==> options[j].value != color)
  {
    if options == [] then None
    else if options[0].value == color then Some(options[0].cls)
    else
      var r := FindClass(options[1..], color);
      if r.Some? then
        var i :| 0 <= i < |options[1..]| && options[1..][i].value == color && options[1..][i].cls == r.value
          && forall j :: 0 <= j < i ==> options[1..][j].value != color;
        assert options[i + 1] == options[1..][i];
        assert forall j :: 1 <= j < i + 1 ==> options[j] == options[1..][j - 1];
        r
      else r
  }

  /** `TagBadge`'s colour class: the palette entry for the tag's colour, else `'bg-slate-500'`. */
  function BadgeClass(color: string): string {
    var found := FindClass(TagColors, color);
    if found.Some? && found.value != "" then found.value else FallbackClass
  }

  /** No two palette entries share a value. */
  predicate DistinctValues(options: seq<ColorOption>) {
    forall i, j :: 0 <= i < j < |options| ==> options[i].value != options[j].value
  }

  /** With distinct values, the lookup finds the class of the one entry carrying the colour. */
  lemma FindClassUnique(options: seq<ColorOption>, color: string, i: nat)
    requires DistinctValues(options) && i < |options| && options[i].value == color
    ensures FindClass(options, color) == Some(options[i].cls)
  {
    var found := FindClass(options, color);
    var k :| 0 <= k < |options| && options[k].value == color && options[k].cls == found.value
      && forall j :: 0 <= j < k ==> options[j].value != color;
    assert k == i;
  }

  lemma PaletteDistinct()
    ensures DistinctValues(TagColors)
  {
  }

  /** A palette colour gets its own class; any other colour gets the fallback, and every class shown is a palette class. */
  lemma BadgeClassLookup(color: string)
    ensures forall i :: 0 <= i < |TagColors| && TagColors[i].value == color ==> BadgeClass(color) == TagColors[i].cls
    ensures (forall i :: 0 <= i < |TagColors| ==> TagColors[i].value != color) ==> BadgeClass(color) == FallbackClass
    ensures exists i :: 0 <= i < |TagColors| && TagColors[i].cls == BadgeClass(color)
  {
    var palette := TagColors;
    assert palette[0].cls == FallbackClass;
    assert forall i :: 0 <= i < |palette| ==> palette[i].cls != "";
    PaletteDistinct();
    forall i | 0 <= i < |palette| && palette[i].value == color
      ensures BadgeClass(color) == palette[i].cls
    {
      FindClassUnique(palette, color, i);
      assert palette[i].cls != "";
    }
    var found := FindClass(palette, color);
    if found.Some? {
      var k :| 0 <= k < |palette| && palette[k].value == color && palette[k].cls == found.value
        && forall j :: 0 <= j < k ==> palette[j].value != color;
      assert palette[k].cls != "";
      assert BadgeClass(color) == palette[k].cls;
    } else {
      assert BadgeClass(color) == palette[0].cls;
    }
  }

  /** `selectedTags.filter(id => id !== tagId)`. */
  function Remove(ids: seq<string>, id: string): (r: seq<string>)
    ensures id !in r
    ensures forall x :: x != id ==> (x in r <==> x in ids)
    ensures id !in ids ==> r == ids
  {
    if ids == [] then []
    else (if ids[0] == id then [] else [ids[0]]) + Remove(ids[1..], id)
  }

  /** `toggleTag`: drop every occurrence of a selected id, or append an unselected one. */
  function ToggleTag(selected: seq<string>, id: string): (r: seq<string>)
    ensures id in selected ==> r == Remove(selected, id)
    ensures id !in selected ==> r == selected + [id] && r[|r| - 1] == id
    ensures id in r <==> id !in selected
    ensures forall x :: x != id ==> (x in r <==> x in selected)
  {
    if id in selected then Remove(selected, id) else selected + [id]
  }

  lemma {:induction false} RemoveAppended(s: seq<string>, id: string)
    requires id !in s
    ensures Remove(s + [id], id) == s
  {
    if s == [] {
      assert [id][1..] == [];
    } else {
      assert (s + [id])[1..] == s[1..] + [id];
      RemoveAppended(s[1..], id);
    }
  }

  lemma {:induction false} RemoveTwice(s: seq<string>, id: string)
    ensures Remove(Remove(s, id), id) == Remove(s, id)
  {
    if s != [] {
      var head := if s[0] == id then [] else [s[0]];
      RemoveConcat(head, Remove(s[1..], id), id);
      RemoveTwice(s[1..], id);
      if head != [] {
        assert head[1..] == [];
      }
    }
  }

  lemma {:induction false} RemoveConcat(a: seq<string>, b: seq<string>, id: string)
    ensures Remove(a + b, id) == Remove(a, id) + Remove(b, id)
  {
    if a == [] {
      assert a + b == b;
    } else {
      assert (a + b)[1..] == a[1..] + b;
      RemoveConcat(a[1..], b, id);
    }
  }

  /** Toggling an unselected id on and off again gives back the original selection. */
  lemma ToggleTwice(selected: seq<string>, id: string)
    requires id !in selected
    ensures ToggleTag(ToggleTag(selected, id), id) == selected
  {
    RemoveAppended(selected, id);
  }

  /** The other ids keep their relative order: ignoring the toggled id, the selection is unchanged. */
  lemma ToggleKeepsOthers(selected: seq<string>, id: string)
    ensures Remove(ToggleTag(selected, id), id) == Remove(selected, id)
  {
    if id in selected {
      RemoveTwice(selected, id);
    } else {
      RemoveAppended(selected, id);
    }
  }

  /** `availableTags.find(t => t.id === tagId)`. */
  function FindTag(tags: seq<TagView>, id: string): (r: Option<TagView>)
    ensures r.None? <==> forall i :: 0 <= i < |tags| ==> tags[i].id != id
    ensures r.Some? ==> r.value in tags && r.value.id == id
    ensures r.Some? ==> exists i :: 0 <= i < |tags| && tags[i] == r.value && forall j :: 0 <= j < i ==> tags[j].id != id
  {
    if tags == [] then None
    else if tags[0].id == id then Some(tags[0])
    else FindTag(tags[1..], id)
  }

  /** The badges the selector renders: one per selected id that names an available tag, in selection order. */
  function SelectedShown(selected: seq<string>, available: seq<TagView>): (r: seq<TagView>)
    ensures |r| <= |selected|
    ensures forall i :: 0 <= i < |r| ==> r[i] in available && r[i].id in selected
  {
    if selected == [] then []
    else
      var rest := SelectedShown(selected[1..], available);
      match FindTag(available, selected[0])
      case None => rest
      case Some(t) => [t] + rest
  }

  function Ids(tags: seq<TagView>): (r: seq<string>)
    ensures |r| == |tags| && forall i :: 0 <= i < |tags| ==> r[i] == tags[i].id
  {
    seq(|tags|, i requires 0 <= i < |tags| => tags[i].id)
  }

  /** A dangling id is skipped silently: no badge carries it. */
  lemma {:induction false} DanglingSkipped(selected: seq<string>, available: seq<TagView>, id: string)
    requires forall i :: 0 <= i < |available| ==> available[i].id != id
    ensures forall i :: 0 <= i < |SelectedShown(selected, available)| ==> SelectedShown(selected, available)[i].id != id
  {
    if selected != [] {
      DanglingSkipped(selected[1..], available, id);
    }
  }

  /** An id that some available tag carries is found. */
  lemma FoundWhenListed(available: seq<TagView>, id: string)
    requires id in Ids(available)
    ensures FindTag(available, id).Some?
  {
    var ids := Ids(available);
    var k :| 0 <= k < |ids| && ids[k] == id;
    assert available[k].id == id;
  }

  /** When every selected id is available, there is exactly one badge per selected id, in order. */
  lemma {:induction false} AllKnownAllShown(selected: seq<string>, available: seq<TagView>)
    requires forall i :: 0 <= i < |selected| ==> selected[i] in Ids(available)
    ensures Ids(SelectedShown(selected, available)) == selected
  {
    if selected != [] {
      var tail := selected[1..];
      FoundWhenListed(available, selected[0]);
      forall i | 0 <= i < |tail| ensures tail[i] in Ids(available) {
        assert tail[i] == selected[i + 1];
      }
      AllKnownAllShown(tail, available);
      var rest := SelectedShown(tail, available);
      var t := FindTag(available, selected[0]).value;
      assert SelectedShown(selected, available) == [t] + rest;
      assert Ids([t] + rest) == [t.id] + Ids(rest);
      assert selected == [selected[0]] + tail;
    }
  }

  /** The body `TagManager` posts: its form. */
  datatype TagForm = TagForm(name: string, color: string)

  const EmptyTagForm := TagForm("", "default")

  function TagFetchToasts(resp: FetchResponse<TagView>): seq<Toast> {
    if resp.FetchFailed? then [Error("Failed to fetch tags")] else []
  }

  /** The settings-page tag list with its create dialog (`TagManager`). */
  class TagManager {
    var tags: seq<TagView>
    var loading: bool
    var isCreateOpen: bool
    var form: TagForm
    var formLoading: bool
    var requests: seq<Request<TagForm>>
    var toasts: seq<Toast>

    constructor ()
      ensures tags == [] && loading && !isCreateOpen && form == EmptyTagForm && !formLoading
      ensures requests == [] && toasts == []
    {
      tags := [];
      loading := true;
      isCreateOpen := false;
      form := EmptyTagForm;
      formLoading := false;
      requests := [];
      toasts := [];
    }

    /** `fetchTags`: replace the list on success, toast on failure, stop loading either way. */
    method FetchTags(resp: FetchResponse<TagView>)
      modifies this`requests, this`tags, this`toasts, this`loading
      ensures requests == old(requests) + [Get("/tags", [])]
      ensures toasts == old(toasts) + TagFetchToasts(resp)
      ensures resp.FetchOk? ==> tags == resp.data
      ensures resp.FetchFailed? ==> tags == old(tags)
      ensures !loading
    {
      requests := requests + [Get("/tags", [])];
      if resp.FetchOk? {
        tags := resp.data;
      }
      toasts := toasts + TagFetchToasts(resp);
      loading := false;
    }

    /**
     * `handleCreate`: a blank name is refused with a toast and no request;
     * otherwise the form is posted; success closes and clears the dialog
     * and refetches, failure shows the server's detail or a fallback.
     */
    method HandleCreate(outcome: Result<(), Failure>, refetch: FetchResponse<TagView>)
      modifies this`requests, this`tags, this`toasts, this`loading, this`isCreateOpen, this`form, this`formLoading
      ensures IsBlank(old(form.name)) ==> requests == old(requests) && form == old(form) && tags == old(tags)
      ensures IsBlank(old(form.name)) ==> formLoading == old(formLoading)
      ensures IsBlank(old(form.name)) || outcome.Err? ==> isCreateOpen == old(isCreateOpen) && loading == old(loading)
      ensures IsBlank(old(form.name)) ==> toasts == old(toasts) + [Error("Tag name is required")]
      ensures !IsBlank(old(form.name)) && outcome.Ok? ==>
        requests == old(requests) + [Post("/tags", old(form)), Get("/tags", [])]
        && form == EmptyTagForm && !isCreateOpen && !formLoading
        && toasts == old(toasts) + [Success("Tag created")] + TagFetchToasts(refetch)
        && (refetch.FetchOk? ==> tags == refetch.data)
        && (refetch.FetchFailed? ==> tags == old(tags))
        && !loading
      ensures !IsBlank(old(form.name)) && outcome.Err? ==>
        requests == old(requests) + [Post("/tags", old(form))] && form == old(form) && tags == old(tags)
        && toasts == old(toasts) + [Error(ServerMessage(outcome.error, "Failed to create tag"))] && !formLoading
    {
      var blank := IsBlank(form.name);
      if blank {
        toasts := toasts + [Error("Tag name is required")];
      } else {
        formLoading := true;
        requests := requests + [Post("/tags", form)];
        if outcome.Ok? {
          toasts := toasts + [Success("Tag created")];
          isCreateOpen := false;
          form := EmptyTagForm;
          FetchTags(refetch);
        } else {
          toasts := toasts + [Error(ServerMessage(outcome.error, "Failed to create tag"))];
        }
        formLoading := false;
      }
    }

    /** `handleDelete(tagId)`: success toasts and refetches; failure toasts and changes nothing else. */
    method HandleDelete(tagId: string, outcome: Result<(), Failure>, refetch: FetchResponse<TagView>)
      modifies this`requests, this`tags, this`toasts, this`loading
      ensures outcome.Ok? ==> requests == old(requests) + [Delete(ItemPath("/tags", tagId)), Get("/tags", [])]
      ensures outcome.Ok? ==> toasts == old(toasts) + [Success("Tag deleted")] + TagFetchToasts(refetch)
      ensures outcome.Ok? && refetch.FetchOk? ==> tags == refetch.data
      ensures outcome.Ok? && refetch.FetchFailed? ==> tags == old(tags)
      ensures outcome.Ok? ==> !loading
      ensures outcome.Err? ==> loading == old(loading)
      ensures outcome.Err? ==> requests == old(requests) + [Delete(ItemPath("/tags", tagId))]
      ensures outcome.Err? ==> tags == old(tags) && toasts == old(toasts) + [Error("Failed to delete tag")]
    {
      requests := requests + [Delete(ItemPath("/tags", tagId))];
      if outcome.Ok? {
        toasts := toasts + [Success("Tag deleted")];
        FetchTags(refetch);
      } else {
        toasts := toasts + [Error("Failed to delete tag")];
      }
    }
  }

  /** `error.response?.data?.detail || fallback`. */
  function ServerMessage(f: Failure, fallback: string): (m: string)
    ensures f.detail.Some? && f.detail.value != "" ==> m == f.detail.value
    ensures f.detail.None? || f.detail.value == "" ==> m == fallback
  {
    if f.detail.Some? && f.detail.value != "" then f.detail.value else fallback
  }

  /** The `useTags()` hook the list pages use for their tag pickers. */
  class TagsHook {
    var tags: seq<TagView>
    var loading: bool
    var requests: seq<Request<TagForm>>

    constructor ()
      ensures tags == [] && loading && requests == []
    {
      tags := [];
      loading := true;
      requests := [];
    }

    /** The mount effect: a failure is only logged, so the tags stay as they were (`[]` on mount). */
    method Load(resp: FetchResponse<TagView>)
      modifies this
      ensures requests == old(requests) + [Get("/tags", [])]
      ensures resp.FetchOk? ==> tags == resp.data
      ensures resp.FetchFailed? ==> tags == old(tags)
      ensures !loading
    {
      requests := requests + [Get("/tags", [])];
      if resp.FetchOk? {
        tags := resp.data;
      }
      loading := false;
    }

    /** `refetch()`: no `catch`, so a failure leaves everything as it was and rejects the caller's promise. */
    method Refetch(resp: FetchResponse<TagView>) returns (ok: bool)
      modifies this
      ensures ok <==> resp.FetchOk?
      ensures requests == old(requests) + [Get("/tags", [])]
      ensures ok ==> tags == resp.data
      ensures !ok ==> tags == old(tags)
      ensures loading == old(loading)
    {
      requests := requests + [Get("/tags", [])];
      ok := resp.FetchOk?;
      if ok {
        tags := resp.data;
      }
    }
  }

  /** A failed first load leaves the hook with no tags and not loading. */
  method MountFailure() returns (h: TagsHook)
    ensures h.tags == [] && !h.loading
  {
    h := new TagsHook();
    h.Load(FetchFailed);
  }
}
