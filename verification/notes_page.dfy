/**
 * The notes board (frontend/src/pages/NotesPage.js): its filtered, paged
 * fetch, the pin toggle, the create / edit / delete dialogs and the card
 * colour lookup.
 */
module NotesPage {
  import opened Wrappers
  import opened Text
  import opened ListQuery
  import opened Client
  import opened TagComponents
  import Pagination

  /** A note as the API returns it. */
  datatype NoteView = NoteView(
    id: string, title: string, content: Option<string>, color: string, isPinned: bool, tags: Option<seq<TagView>>)

  /** The dialog's `formData`. */
  datatype NoteForm = NoteForm(title: string, content: string, color: string, isPinned: bool, tagIds: seq<string>)

  const EmptyForm := NoteForm("", "", "default", false, [])

  datatype NoteBody = FullNote(form: NoteForm) | PinOnly(isPinned: bool)

  /** The fetch effect's dependencies (`search` is the debounced search box). */
  datatype NoteFilters = NoteFilters(search: string, pinned: bool, color: string, tag: string)

  const NoFilters := NoteFilters("", false, "", "")

  /** The card backgrounds; the first entry is the `'default'` one. */
  const NoteColors: seq<ColorOption> := [
    ColorOption("default", "Default", "bg-card border-border"),
    ColorOption("yellow", "Yellow", "bg-amber-50 dark:bg-amber-900/20 border-amber-200 dark:border-amber-800"),
    ColorOption("green", "Green", "bg-emerald-50 dark:bg-emerald-900/20 border-emerald-200 dark:border-emerald-800"),
    ColorOption("blue", "Blue", "bg-blue-50 dark:bg-blue-900/20 border-blue-200 dark:border-blue-800"),
    ColorOption("purple", "Purple", "bg-purple-50 dark:bg-purple-900/20 border-purple-200 dark:border-purple-800"),
    ColorOption("pink", "Pink", "bg-pink-50 dark:bg-pink-900/20 border-pink-200 dark:border-pink-800")
  ]

  /** `getCardColor(color)`: the matching option's class, else the first (`'default'`) option's. */
  function CardColor(color: string): string {
    var found := FindClass(NoteColors, color);
    if found.Some? && found.value != "" then found.value else NoteColors[0].cls
  }

  /** A known colour gets its own card class; an unknown one gets the default card class. */
  lemma CardColorLookup(color: string)
    ensures forall i :: 0 <= i < |NoteColors| && NoteColors[i].value == color ==> CardColor(color) == NoteColors[i].cls
    ensures (forall i :: 0 <= i < |NoteColors| ==> NoteColors[i].value != color) ==> CardColor(color) == "bg-card border-border"
  {
    NotePaletteFacts();
    forall i | 0 <= i < |NoteColors| && NoteColors[i].value == color
      ensures CardColor(color) == NoteColors[i].cls
    {
      FindClassUnique(NoteColors, color, i);
    }
  }

  /** The card palette has no repeated value and no empty class. */
  lemma NotePaletteFacts()
    ensures DistinctValues(NoteColors)
    ensures forall i :: 0 <= i < |NoteColors| ==> NoteColors[i].cls != ""
  {
  }

  /** `openEdit`'s form: a missing content becomes `''`, the tags become their ids (`[]` without tags). */
  function EditForm(n: NoteView): (f: NoteForm)
    ensures f.title == n.title && f.color == n.color && f.isPinned == n.isPinned
    ensures f.content == (if n.content.Some? then n.content.value else "")
    ensures f.tagIds == (if n.tags.Some? then Ids(n.tags.value) else [])
  {
    NoteForm(n.title, if n.content.Some? then n.content.value else "", n.color, n.isPinned,
      if n.tags.Some? then Ids(n.tags.value) else [])
  }

  /** The query `fetchNotes` sends. */
  function Query(f: NoteFilters, page: int): seq<Param> {
    NotesParams(f.search, f.pinned, f.color, f.tag, page)
  }

  function NoteFetchToasts(resp: FetchResponse<NoteView>): seq<Toast> {
    if resp.FetchFailed? then [Error("Failed to fetch notes")] else []
  }

  /** `PUT /notes/<id>` with the whole form. */
  function UpdateRequest(n: NoteView, form: NoteForm): Request<NoteBody> {
    Put(ItemPath("/notes", n.id), FullNote(form))
  }

  /** `togglePin`'s request: exactly `{is_pinned: !note.is_pinned}`. */
  function PinRequest(n: NoteView): (r: Request<NoteBody>)
    ensures r.Put? && r.body == PinOnly(!n.isPinned)
  {
    Put(ItemPath("/notes", n.id), PinOnly(!n.isPinned))
  }

  class NotesPage {
    var notes: seq<NoteView>
    var loading: bool
    var searchInput: string
    var filters: NoteFilters
    var page: int
    var totalCount: nat
    var isCreateOpen: bool
    var isEditOpen: bool
    var isDeleteOpen: bool
    var selectedNote: Option<NoteView>
    var formLoading: bool
    var formData: NoteForm
    var requests: seq<Request<NoteBody>>
    var toasts: seq<Toast>

    /** The initial state; `?search=`, `?pinned=true` and `?color=` may preset the filters. */
    constructor (search: string, pinnedParam: Option<string>, color: string)
      ensures notes == [] && loading && searchInput == search
      ensures filters == NoteFilters(search, pinnedParam == Some("true"), color, "")
      ensures page == 1 && totalCount == 0 && selectedNote.None? && formData == EmptyForm
      ensures !isCreateOpen && !isEditOpen && !isDeleteOpen && !formLoading
      ensures requests == [] && toasts == []
    {
      notes := [];
      loading := true;
      searchInput := search;
      filters := NoteFilters(search, pinnedParam == Some("true"), color, "");
      page := 1;
      totalCount := 0;
      isCreateOpen := false;
      isEditOpen := false;
      isDeleteOpen := false;
      selectedNote := None;
      formLoading := false;
      formData := EmptyForm;
      requests := [];
      toasts := [];
    }

    /** `Math.ceil(totalCount / PAGE_SIZE)`. */
    function TotalPages(): (t: nat)
      reads this
      ensures t * PageSize >= totalCount
      ensures t > 0 ==> (t - 1) * PageSize < totalCount
    {
      Pagination.TotalPages(totalCount, PageSize)
    }

    /**
     * One `fetchNotes` with query `q` answered by `resp`: the GET is logged;
     * the rows and the header count replace the list, or the failure toast
     * is shown and the list stays.
     */
    twostate predicate Refetched(q: seq<Param>, resp: FetchResponse<NoteView>)
      reads this
    {
      && requests == old(requests) + [Get("/notes", q)]
      && toasts == old(toasts) + NoteFetchToasts(resp)
      && (resp.FetchOk? ==> notes == resp.data && totalCount == ParseTotal(resp.totalHeader))
      && (resp.FetchFailed? ==> notes == old(notes) && totalCount == old(totalCount))
      && !loading
    }

    /** No request was sent and the list, its count and the toasts are as they were. */
    twostate predicate ListKept()
      reads this
    {
      && requests == old(requests) && toasts == old(toasts)
      && notes == old(notes) && totalCount == old(totalCount) && loading == old(loading)
    }

    /** `fetchNotes`. */
    method Fetch(resp: FetchResponse<NoteView>)
      modifies this`loading, this`requests, this`notes, this`totalCount, this`toasts
      ensures Refetched(Query(old(filters), old(page)), resp)
      ensures !loading
    {
      loading := true;
      requests := requests + [Get("/notes", Query(filters, page))];
      if resp.FetchOk? {
        notes := resp.data;
        totalCount := ParseTotal(resp.totalHeader);
      }
      toasts := toasts + NoteFetchToasts(resp);
      loading := false;
    }

    /** A change to the fetch effect's dependencies: one fetch, only if some dependency changed. */
    method Apply(f: NoteFilters, p: int, resp: FetchResponse<NoteView>)
      modifies this`filters, this`page, this`loading, this`requests, this`notes, this`totalCount, this`toasts
      ensures filters == f && page == p && searchInput == old(searchInput)
      ensures f == old(filters) && p == old(page) ==> ListKept()
      ensures f != old(filters) || p != old(page) ==> Refetched(Query(f, p), resp)
      ensures formData == old(formData) && selectedNote == old(selectedNote)
    {
      var changed := f != filters || p != page;
      filters := f;
      page := p;
      if changed {
        Fetch(resp);
      }
    }

    method SetSearchInput(s: string)
      modifies this`searchInput
      ensures searchInput == s && filters == old(filters) && page == old(page)
      ensures requests == old(requests) && notes == old(notes)
    {
      searchInput := s;
    }

    /** The debounced `search` catching up with the search box. */
    method SearchSettled(resp: FetchResponse<NoteView>)
      modifies this`filters, this`page, this`loading, this`requests, this`notes, this`totalCount, this`toasts
      ensures filters == old(filters).(search := old(searchInput)) && page == old(page)
      ensures old(filters.search) == old(searchInput) ==> ListKept()
      ensures old(filters.search) != old(searchInput) ==> Refetched(Query(filters, page), resp)
    {
      Apply(filters.(search := searchInput), page, resp);
    }

    /** The pin filter button: `setPinnedFilter(!pinnedFilter)`. */
    method TogglePinnedFilter(resp: FetchResponse<NoteView>)
      modifies this`filters, this`page, this`loading, this`requests, this`notes, this`totalCount, this`toasts
      ensures filters == old(filters).(pinned := !old(filters.pinned)) && page == old(page)
      ensures Refetched(Query(filters, page), resp)
    {
      Apply(filters.(pinned := !filters.pinned), page, resp);
    }

    method SetColorFilter(v: string, resp: FetchResponse<NoteView>)
      modifies this`filters, this`page, this`loading, this`requests, this`notes, this`totalCount, this`toasts
      ensures filters == old(filters).(color := v) && page == old(page)
      ensures v == old(filters.color) ==> ListKept()
      ensures v != old(filters.color) ==> Refetched(Query(filters, page), resp)
    {
      Apply(filters.(color := v), page, resp);
    }

    method SetTagFilter(v: string, resp: FetchResponse<NoteView>)
      modifies this`filters, this`page, this`loading, this`requests, this`notes, this`totalCount, this`toasts
      ensures filters == old(filters).(tag := v) && page == old(page)
      ensures v == old(filters.tag) ==> ListKept()
      ensures v != old(filters.tag) ==> Refetched(Query(filters, page), resp)
    {
      Apply(filters.(tag := v), page, resp);
    }

    method SetPage(p: int, resp: FetchResponse<NoteView>)
      modifies this`filters, this`page, this`loading, this`requests, this`notes, this`totalCount, this`toasts
      ensures page == p && filters == old(filters)
      ensures p == old(page) ==> ListKept()
      ensures p != old(page) ==> Refetched(Query(filters, p), resp)
    {
      Apply(filters, p, resp);
    }

    /** `clearFilters`: pinned off, colour, tag and search box emptied, page 1. */
    method ClearFilters(resp: FetchResponse<NoteView>)
      modifies this`searchInput, this`filters, this`page, this`loading, this`requests, this`notes, this`totalCount, this`toasts
      ensures searchInput == "" && page == 1
      ensures filters == NoFilters.(search := old(filters.search))
      ensures filters == old(filters) && old(page) == 1 ==> ListKept()
      ensures filters != old(filters) || old(page) != 1 ==> Refetched(Query(filters, 1), resp)
    {
      searchInput := "";
      Apply(NoFilters.(search := filters.search), 1, resp);
    }

    /** The `try` part shared by `handleCreate` and `handleUpdate`. */
    method Submit(req: Request<NoteBody>, success: string, failure: string, outcome: Result<(), Failure>, refetch: FetchResponse<NoteView>)
      modifies this`formLoading, this`requests, this`toasts, this`formData, this`selectedNote
      modifies this`loading, this`notes, this`totalCount
      ensures outcome.Ok? ==> requests == old(requests) + [req, Get("/notes", Query(old(filters), old(page)))]
      ensures outcome.Ok? ==> toasts == old(toasts) + [Success(success)] + NoteFetchToasts(refetch)
      ensures outcome.Ok? ==> formData == EmptyForm && selectedNote.None?
      ensures outcome.Ok? && refetch.FetchOk? ==> notes == refetch.data && totalCount == ParseTotal(refetch.totalHeader)
      ensures outcome.Ok? && refetch.FetchFailed? ==> notes == old(notes) && totalCount == old(totalCount)
      ensures outcome.Err? ==> requests == old(requests) + [req] && toasts == old(toasts) + [Error(failure)]
      ensures outcome.Err? ==> formData == old(formData) && notes == old(notes) && selectedNote == old(selectedNote)
      ensures outcome.Err? ==> totalCount == old(totalCount) && loading == old(loading)
      ensures outcome.Ok? ==> !loading
      ensures !formLoading
    {
      formLoading := true;
      requests := requests + [req];
      if outcome.Ok? {
        toasts := toasts + [Success(success)];
        // resetForm()
        formData := EmptyForm;
        selectedNote := None;
        ghost var sentSoFar := requests;
        Fetch(refetch);
        assert requests == sentSoFar + [Get("/notes", Query(filters, page))];
        assert sentSoFar + [Get("/notes", Query(filters, page))] == old(requests) + [req, Get("/notes", Query(old(filters), old(page)))];
      } else {
        toasts := toasts + [Error(failure)];
      }
      formLoading := false;
    }

    /** `handleCreate`: a blank title is refused before any request, keeping the form. */
    method HandleCreate(outcome: Result<(), Failure>, refetch: FetchResponse<NoteView>) returns (sent: bool)
      modifies this`formLoading, this`requests, this`toasts, this`formData, this`selectedNote, this`loading, this`notes, this`totalCount, this`isCreateOpen
      ensures sent <==> !IsBlank(old(formData.title))
      ensures !sent ==> formLoading == old(formLoading)
      ensures !sent || outcome.Err? ==> isCreateOpen == old(isCreateOpen) && formData == old(formData) && selectedNote == old(selectedNote)
      ensures !sent ==> requests == old(requests) && formData == old(formData) && notes == old(notes)
      ensures !sent || outcome.Err? ==> totalCount == old(totalCount) && loading == old(loading)
      ensures !sent ==> toasts == old(toasts) + [Error("Title is required")]
      ensures sent && outcome.Ok? ==> requests == old(requests) + [Post("/notes", FullNote(old(formData))), Get("/notes", Query(old(filters), old(page)))]
      ensures sent && outcome.Ok? ==> formData == EmptyForm && selectedNote.None? && !isCreateOpen
      ensures sent && outcome.Ok? ==> toasts == old(toasts) + [Success("Note created successfully")] + NoteFetchToasts(refetch)
      ensures sent && outcome.Ok? && refetch.FetchOk? ==> notes == refetch.data && totalCount == ParseTotal(refetch.totalHeader)
      ensures sent && outcome.Ok? && refetch.FetchFailed? ==> notes == old(notes) && totalCount == old(totalCount)
      ensures sent && outcome.Ok? ==> !loading
      ensures sent && outcome.Err? ==> requests == old(requests) + [Post("/notes", FullNote(old(formData)))]
      ensures sent && outcome.Err? ==> notes == old(notes)
      ensures sent && outcome.Err? ==> formData == old(formData) && toasts == old(toasts) + [Error("Failed to create note")]
      ensures filters == old(filters) && page == old(page)
    {
      var blank := IsBlank(formData.title);
      sent := !blank;
      if blank {
        toasts := toasts + [Error("Title is required")];
      } else {
        Submit(Post("/notes", FullNote(formData)), "Note created successfully", "Failed to create note", outcome, refetch);
        if outcome.Ok? {
          isCreateOpen := false;
        }
      }
    }

    /** `handleUpdate`: like create, with `PUT /notes/<selected id>`; no selected note ends in the failure toast. */
    method HandleUpdate(outcome: Result<(), Failure>, refetch: FetchResponse<NoteView>) returns (sent: bool)
      modifies this`formLoading, this`requests, this`toasts, this`formData, this`selectedNote, this`loading, this`notes, this`totalCount, this`isEditOpen
      ensures sent <==> !IsBlank(old(formData.title)) && old(selectedNote).Some?
      ensures IsBlank(old(formData.title)) ==> formLoading == old(formLoading)
      ensures !IsBlank(old(formData.title)) ==> !formLoading
      ensures !sent || outcome.Err? ==> isEditOpen == old(isEditOpen) && formData == old(formData) && selectedNote == old(selectedNote)
      ensures !sent ==> requests == old(requests) && formData == old(formData) && notes == old(notes)
      ensures !sent || outcome.Err? ==> totalCount == old(totalCount) && loading == old(loading)
      ensures !sent ==> toasts == old(toasts) + [Error(if IsBlank(old(formData.title)) then "Title is required" else "Failed to update note")]
      ensures sent && outcome.Ok? ==> requests == old(requests) + [UpdateRequest(old(selectedNote).value, old(formData)), Get("/notes", Query(old(filters), old(page)))]
      ensures sent && outcome.Ok? ==> formData == EmptyForm && selectedNote.None? && !isEditOpen
      ensures sent && outcome.Ok? ==> toasts == old(toasts) + [Success("Note updated successfully")] + NoteFetchToasts(refetch)
      ensures sent && outcome.Ok? && refetch.FetchOk? ==> notes == refetch.data && totalCount == ParseTotal(refetch.totalHeader)
      ensures sent && outcome.Ok? && refetch.FetchFailed? ==> notes == old(notes) && totalCount == old(totalCount)
      ensures sent && outcome.Ok? ==> !loading
      ensures sent && outcome.Err? ==> requests == old(requests) + [UpdateRequest(old(selectedNote).value, old(formData))]
      ensures sent && outcome.Err? ==> notes == old(notes)
      ensures sent && outcome.Err? ==> formData == old(formData) && toasts == old(toasts) + [Error("Failed to update note")]
      ensures filters == old(filters) && page == old(page)
    {
      var blank := IsBlank(formData.title);
      sent := !blank && selectedNote.Some?;
      if blank {
        toasts := toasts + [Error("Title is required")];
      } else if selectedNote.None? {
        formLoading := true;
        toasts := toasts + [Error("Failed to update note")];
        formLoading := false;
      } else {
        Submit(UpdateRequest(selectedNote.value, formData), "Note updated successfully", "Failed to update note", outcome, refetch);
        if outcome.Ok? {
          isEditOpen := false;
        }
      }
    }

    /** `handleDelete`: success closes the dialog, clears the selection and refetches. */
    method HandleDelete(outcome: Result<(), Failure>, refetch: FetchResponse<NoteView>)
      modifies this`formLoading, this`requests, this`toasts, this`isDeleteOpen, this`selectedNote
      modifies this`loading, this`notes, this`totalCount
      ensures old(selectedNote).None? ==>
        requests == old(requests) && notes == old(notes) && toasts == old(toasts) + [Error("Failed to delete note")]
      ensures old(selectedNote).Some? && outcome.Ok? ==>
        requests == old(requests) + [Delete(ItemPath("/notes", old(selectedNote).value.id)), Get("/notes", Query(old(filters), old(page)))]
        && selectedNote.None? && !isDeleteOpen
        && toasts == old(toasts) + [Success("Note deleted successfully")] + NoteFetchToasts(refetch)
      ensures old(selectedNote).Some? && outcome.Ok? && refetch.FetchOk? ==>
        notes == refetch.data && totalCount == ParseTotal(refetch.totalHeader)
      ensures old(selectedNote).Some? && outcome.Ok? && refetch.FetchFailed? ==> notes == old(notes) && totalCount == old(totalCount)
      ensures old(selectedNote).Some? && outcome.Ok? ==> !loading
      ensures old(selectedNote).None? || outcome.Err? ==> totalCount == old(totalCount) && loading == old(loading)
      ensures old(selectedNote).None? || outcome.Err? ==> isDeleteOpen == old(isDeleteOpen) && selectedNote == old(selectedNote)
      ensures old(selectedNote).Some? && outcome.Err? ==>
        requests == old(requests) + [Delete(ItemPath("/notes", old(selectedNote).value.id))]
        && selectedNote == old(selectedNote) && notes == old(notes) && toasts == old(toasts) + [Error("Failed to delete note")]
      ensures !formLoading
    {
      formLoading := true;
      if selectedNote.None? {
        toasts := toasts + [Error("Failed to delete note")];
      } else {
        requests := requests + [Delete(ItemPath("/notes", selectedNote.value.id))];
        if outcome.Ok? {
          toasts := toasts + [Success("Note deleted successfully")];
          isDeleteOpen := false;
          selectedNote := None;
          Fetch(refetch);
        } else {
          toasts := toasts + [Error("Failed to delete note")];
        }
      }
      formLoading := false;
    }

    /**
     * `togglePin(note)`: send the flipped flag; the success toast is chosen
     * by the flag as it was before the toggle, then the list is refetched.
     */
    method TogglePin(note: NoteView, outcome: Result<(), Failure>, refetch: FetchResponse<NoteView>)
      modifies this`requests, this`toasts, this`loading, this`notes, this`totalCount
      ensures outcome.Ok? ==> requests == old(requests) + [PinRequest(note), Get("/notes", Query(filters, page))]
      ensures outcome.Ok? && note.isPinned ==> toasts == old(toasts) + [Success("Note unpinned")] + NoteFetchToasts(refetch)
      ensures outcome.Ok? && !note.isPinned ==> toasts == old(toasts) + [Success("Note pinned")] + NoteFetchToasts(refetch)
      ensures outcome.Ok? && refetch.FetchOk? ==> notes == refetch.data && totalCount == ParseTotal(refetch.totalHeader)
      ensures outcome.Ok? && refetch.FetchFailed? ==> notes == old(notes) && totalCount == old(totalCount)
      ensures outcome.Ok? ==> !loading
      ensures outcome.Err? ==> totalCount == old(totalCount) && loading == old(loading)
      ensures outcome.Err? ==> requests == old(requests) + [PinRequest(note)] && notes == old(notes)
      ensures outcome.Err? ==> toasts == old(toasts) + [Error("Failed to update note")]
    {
      requests := requests + [PinRequest(note)];
      if outcome.Ok? {
        toasts := toasts + [Success(if note.isPinned then "Note unpinned" else "Note pinned")];
        Fetch(refetch);
      } else {
        toasts := toasts + [Error("Failed to update note")];
      }
    }

    /** `openEdit(note)`. */
    method OpenEdit(note: NoteView)
      modifies this`selectedNote, this`formData, this`isEditOpen
      ensures selectedNote == Some(note) && formData == EditForm(note) && isEditOpen
      ensures notes == old(notes) && requests == old(requests) && filters == old(filters) && page == old(page)
    {
      selectedNote := Some(note);
      formData := EditForm(note);
      isEditOpen := true;
    }

    /** `openDelete(note)`. */
    method OpenDelete(note: NoteView)
      modifies this`selectedNote, this`isDeleteOpen
      ensures selectedNote == Some(note) && isDeleteOpen
      ensures notes == old(notes) && requests == old(requests) && formData == old(formData)
    {
      selectedNote := Some(note);
      isDeleteOpen := true;
    }
  }
}
