/**
 * The lab-note hooks: a note list with pagination, one note by slug, and the
 * tag list, each moving from loading to loaded or failed.
 */
module UseLabNotes {
  import opened Wrappers
  import opened JsValues
  import opened ApiTypes

  const FetchNotesFailed: string := "Failed to fetch lab notes"
  const FetchNoteFailed: string := "Failed to fetch lab note"
  const FetchTagsFailed: string := "Failed to fetch tags"

  /** `LabNotesQueryParams`: the named keys, and any other key the caller adds. */
  datatype NotesQuery = NotesQuery(tag: Option<string>, limit: Option<int>, offset: Option<int>, extra: map<string, JsValue>)

  /** The dependencies of the fetch callback: `params?.tag`, `params?.limit`, `params?.offset`. */
  function NotesDeps(params: Option<NotesQuery>): (deps: (Option<string>, Option<int>, Option<int>))
    ensures params.None? ==> deps == (None, None, None)
  {
    match params
    case None => (None, None, None)
    case Some(q) => (q.tag, q.limit, q.offset)
  }

  /** A re-render with new parameters fetches again exactly when a dependency changed. */
  predicate Refetches(previous: Option<NotesQuery>, next: Option<NotesQuery>) {
    NotesDeps(previous) != NotesDeps(next)
  }

  /** Only the tag, limit and offset matter: other keys never cause a fetch, a change of any of the three always does. */
  lemma RefetchOnlyOnTagLimitOffset(q: NotesQuery, extra: map<string, JsValue>, tag: Option<string>)
    ensures !Refetches(Some(q), Some(q.(extra := extra)))
    ensures Refetches(Some(q), Some(q.(tag := tag))) <==> tag != q.tag
  {
  }

  /** `useLabNotes(params)` */
  class LabNotesHook {
    var notes: seq<LabNoteListItem>
    var pagination: Option<Pagination>
    var isLoading: bool
    var error: Option<Thrown>

    constructor ()
      ensures notes == [] && pagination == None && isLoading && error == None
    {
      notes := [];
      pagination := None;
      isLoading := true;
      error := None;
    }

    /** A fetch starts: loading, no error, the previous notes and pagination stay. */
    method StartFetch()
      modifies this
      ensures isLoading && error == None
      ensures notes == old(notes) && pagination == old(pagination)
    {
      isLoading := true;
      error := None;
    }

    /** The fetch settles: the response replaces the list, or the error is recorded over the previous list. */
    method FinishFetch(outcome: Result<Paginated<LabNoteListItem>, Thrown>)
      modifies this
      ensures !isLoading
      ensures outcome.Ok? ==> notes == outcome.value.data && pagination == Some(outcome.value.pagination) && error == None
      ensures outcome.Err? ==> notes == old(notes) && pagination == old(pagination)
                               && error == Some(AsError(outcome.error, FetchNotesFailed))
    {
      match outcome {
        case Ok(response) =>
          notes := response.data;
          pagination := Some(response.pagination);
          error := None;
        case Err(e) =>
          error := Some(AsError(e, FetchNotesFailed));
      }
      isLoading := false;
    }
  }

  /** `useLabNote(slug)` */
  class LabNoteHook {
    const slug: string
    var note: Option<LabNote>
    var isLoading: bool
    var error: Option<Thrown>

    constructor (slug: string)
      ensures this.slug == slug && note == None && isLoading && error == None
    {
      this.slug := slug;
      note := None;
      isLoading := true;
      error := None;
    }

    /** The effect: only a non-empty slug starts a fetch; an empty one leaves the state as it is. */
    method Effect() returns (fetching: bool)
      modifies this
      ensures fetching <==> slug != ""
      ensures fetching ==> isLoading && error == None && note == old(note)
      ensures !fetching ==> isLoading == old(isLoading) && error == old(error) && note == old(note)
    {
      fetching := slug != "";
      if fetching {
        isLoading := true;
        error := None;
      }
    }

    /** The fetch settles: the note, or no note and the error. */
    method FinishFetch(outcome: Result<LabNote, Thrown>)
      modifies this
      ensures !isLoading
      ensures outcome.Ok? ==> note == Some(outcome.value) && error == None
      ensures outcome.Err? ==> note == None && error == Some(AsError(outcome.error, FetchNoteFailed))
    {
      match outcome {
        case Ok(n) =>
          note := Some(n);
          error := None;
        case Err(e) =>
          note := None;
          error := Some(AsError(e, FetchNoteFailed));
      }
      isLoading := false;
    }
  }

  /** `useLabNoteTags()`: no loading reset, only the settled fetch. */
  class LabNoteTagsHook {
    var tags: seq<LabNoteTag>
    var isLoading: bool
    var error: Option<Thrown>

    constructor ()
      ensures tags == [] && isLoading && error == None
    {
      tags := [];
      isLoading := true;
      error := None;
    }

    /** The fetch settles: the tags, or an empty list and the error. */
    method FinishFetch(outcome: Result<seq<LabNoteTag>, Thrown>)
      modifies this
      ensures !isLoading
      ensures outcome.Ok? ==> tags == outcome.value && error == None
      ensures outcome.Err? ==> tags == [] && error == Some(AsError(outcome.error, FetchTagsFailed))
    {
      match outcome {
        case Ok(ts) =>
          tags := ts;
          error := None;
        case Err(e) =>
          tags := [];
          error := Some(AsError(e, FetchTagsFailed));
      }
      isLoading := false;
    }
  }
}
