/**
 * The lab-note editor: the form state, the slug that follows the title while
 * it is in automatic mode, the read time that follows the content, seeding
 * from the loaded note, and saving.
 */
module NoteEditor {
  import opened Wrappers
  import opened Text
  import opened JsValues
  import opened ApiTypes
  import opened Slug
  import opened Tags
  import opened ReadTime
  import opened EditorForms
  import opened UseLabNotes

  /** `CreateLabNoteData`: the form fields. */
  datatype NoteForm = NoteForm(
    title: string, slug: string, excerpt: string, content: string, tags: seq<string>,
    readTime: string, date: string, published: bool)

  const SaveFailed: string := "Failed to save note"
  const ListPath: string := "/admin/notes"

  /** The empty form of a new note; `today` is the date part of `new Date().toISOString()`. */
  function InitialForm(today: string): (f: NoteForm)
    ensures f.title == "" && f.slug == "" && f.excerpt == "" && f.content == "" && f.tags == []
    ensures f.readTime == "1 min read" && f.date == today && !f.published
  {
    NoteForm("", "", "", "", [], "1 min read", today, false)
  }

  /** The form filled from a loaded note: every field copied. */
  function SeedForm(n: LabNote): (f: NoteForm)
    ensures f.title == n.title && f.slug == n.slug && f.excerpt == n.excerpt && f.content == n.content
    ensures f.tags == n.tags && f.readTime == n.readTime && f.date == n.date && f.published == n.published
  {
    NoteForm(n.title, n.slug, n.excerpt, n.content, n.tags, n.readTime, n.date, n.published)
  }

  /** The fixed initial read time is the estimate of the initial, empty content. */
  lemma InitialReadTimeIsEstimate(today: string)
    ensures InitialForm(today).readTime == EstimateReadTime(InitialForm(today).content)
  {
    BlankContentReadsOneMinute("");
  }

  /** The editor page for the route parameter `id`; `noteHook` is `useLabNote(id || '')`. */
  class NoteEditorPage {
    const id: Option<string>
    const noteHook: LabNoteHook
    var formData: NoteForm
    var tagsInput: string
    var isSaving: bool
    var error: Option<string>
    var autoSlug: bool

    constructor (id: Option<string>, today: string)
      ensures this.id == id && fresh(noteHook) && noteHook.slug == id.GetOr("")
      ensures noteHook.note == None && noteHook.isLoading
      ensures formData == InitialForm(today) && tagsInput == "" && !isSaving && error == None && autoSlug
    {
      this.id := id;
      noteHook := new LabNoteHook(id.GetOr(""));
      formData := InitialForm(today);
      tagsInput := "";
      isSaving := false;
      error := None;
      autoSlug := true;
    }

    /** The spinner replaces the form while the note of an existing id loads. */
    predicate ShowsSpinner()
      reads this, noteHook
    {
      IsEditing(id) && noteHook.isLoading
    }

    /** The seed effect: only a loaded note while editing fills the form and switches the slug to manual. */
    method Seed()
      modifies this
      ensures noteHook.note.Some? && IsEditing(id) ==>
        formData == SeedForm(noteHook.note.value) && tagsInput == JoinTags(noteHook.note.value.tags) && !autoSlug
      ensures !(noteHook.note.Some? && IsEditing(id)) ==>
        formData == old(formData) && tagsInput == old(tagsInput) && autoSlug == old(autoSlug)
      ensures isSaving == old(isSaving) && error == old(error)
    {
      if noteHook.note.Some? && IsEditing(id) {
        formData := SeedForm(noteHook.note.value);
        tagsInput := JoinTags(noteHook.note.value.tags);
        autoSlug := false;
      }
    }

    /** `handleTitleChange`: the title always, the slug only in automatic mode; nothing else. */
    method ChangeTitle(title: string)
      modifies this`formData
      ensures formData == old(formData).(title := title, slug := if autoSlug then Slugify(title) else old(formData.slug))
      ensures autoSlug ==> IsSlug(formData.slug)
    {
      var slug := formData.slug;
      if autoSlug {
        slug := Slugify(title);
        SlugifyIsSlug(title);
      }
      formData := formData.(title := title, slug := slug);
    }

    /** `handleContentChange`: the content and its read time, nothing else. */
    method ChangeContent(content: string)
      modifies this`formData
      ensures formData == old(formData).(content := content, readTime := EstimateReadTime(content))
    {
      formData := formData.(content := content, readTime := EstimateReadTime(content));
    }

    /** A manual slug edit: switches to manual mode and changes only the slug. */
    method EditSlug(value: string)
      modifies this`formData, this`autoSlug
      ensures !autoSlug && formData == old(formData).(slug := value)
    {
      autoSlug := false;
      formData := formData.(slug := value);
    }

    /** The auto/manual button. */
    method ToggleAutoSlug()
      modifies this`autoSlug
      ensures autoSlug == !old(autoSlug)
    {
      autoSlug := !autoSlug;
    }

    /** `handleTagsChange`: keeps the raw text and stores the parsed tags. */
    method ChangeTags(value: string)
      modifies this`tagsInput, this`formData
      ensures tagsInput == value && formData == old(formData).(tags := ParseTags(value))
      ensures forall i :: 0 <= i < |formData.tags| ==> IsCleanTag(formData.tags[i])
    {
      tagsInput := value;
      formData := formData.(tags := ParseTags(value));
      ParsedTagsAreClean(value);
    }

    /** Submit starts: the error is cleared, saving begins, and the call is chosen by the route id. */
    method StartSubmit() returns (call: Save<NoteForm>)
      modifies this`error, this`isSaving
      ensures error == None && isSaving
      ensures call == SaveCall(id, formData)
    {
      error := None;
      isSaving := true;
      call := SaveCall(id, formData);
    }

    /** Submit settles: success navigates to the list, failure shows the message; saving ends either way. */
    method FinishSubmit(outcome: Result<JsValue, Thrown>) returns (navigateTo: Option<string>)
      modifies this`error, this`isSaving
      ensures !isSaving
      ensures outcome.Ok? ==> navigateTo == Some(ListPath) && error == old(error)
      ensures outcome.Err? ==> navigateTo == None && error == Some(MessageOr(outcome.error, SaveFailed))
    {
      navigateTo := None;
      match outcome {
        case Ok(_) =>
          navigateTo := Some(ListPath);
        case Err(e) =>
          error := Some(MessageOr(e, SaveFailed));
      }
      isSaving := false;
    }
  }

  /** A new note never shows the spinner, although `useLabNote('')` stays loading forever. */
  lemma NewNoteHasNoSpinner(page: NoteEditorPage)
    requires !IsEditing(page.id) && page.noteHook.isLoading
    ensures !page.ShowsSpinner()
  {
  }
}
