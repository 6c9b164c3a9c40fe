/**
 * The project editor: the form state, the slug that follows the title while
 * it is in automatic mode, the tag field, loading an existing project and saving.
 */
module ProjectEditor {
  import opened Wrappers
  import opened Text
  import opened JsValues
  import opened ApiTypes
  import opened Slug
  import opened Tags
  import opened EditorForms

  /** `CreateProjectData`: the form fields. */
  datatype ProjectForm = ProjectForm(
    slug: string, title: string, description: string, tags: seq<string>, category: string,
    year: string, link: string, github: string, metrics: string, formula: string,
    featured: bool, order: int, published: bool)

  const LoadFailed: string := "Failed to load project"
  const SaveFailed: string := "Failed to save project"
  const ListPath: string := "/admin/projects"

  /** The empty form of a new project; `currentYear` is `new Date().getFullYear().toString()`. */
  function InitialForm(currentYear: string): (f: ProjectForm)
    ensures f.slug == "" && f.title == "" && f.tags == [] && f.category == "engineering" && f.year == currentYear
    ensures f.link == "" && f.github == "" && f.metrics == "" && f.formula == ""
    ensures !f.featured && f.order == 0 && !f.published
  {
    ProjectForm("", "", "", [], "engineering", currentYear, "", "", "", "", false, 0, false)
  }

  /** The form filled from a loaded project: absent link, github, metrics and formula become `''`, an absent `published` false. */
  function SeedForm(p: Project): (f: ProjectForm)
    ensures f.slug == p.slug && f.title == p.title && f.description == p.description && f.tags == p.tags
    ensures f.category == p.category && f.year == p.year && f.featured == p.featured && f.order == p.order
    ensures f.link == p.link.GetOr("") && f.github == p.github.GetOr("")
    ensures f.metrics == p.metrics.GetOr("") && f.formula == p.formula.GetOr("")
    ensures f.published <==> p.published == Some(true)
  {
    ProjectForm(p.slug, p.title, p.description, p.tags, p.category, p.year,
                p.link.GetOr(""), p.github.GetOr(""), p.metrics.GetOr(""), p.formula.GetOr(""),
                p.featured, p.order, p.published.GetOr(false))
  }

  /** The editor page for the route parameter `id`. */
  class ProjectEditorPage {
    const id: Option<string>
    var formData: ProjectForm
    var tagsInput: string
    var isSaving: bool
    var isLoadingProject: bool
    var error: Option<string>
    var autoSlug: bool

    constructor (id: Option<string>, currentYear: string)
      ensures this.id == id && formData == InitialForm(currentYear) && tagsInput == ""
      ensures !isSaving && !isLoadingProject && error == None && autoSlug
    {
      this.id := id;
      formData := InitialForm(currentYear);
      tagsInput := "";
      isSaving := false;
      isLoadingProject := false;
      error := None;
      autoSlug := true;
    }

    /** The spinner replaces the form while an existing project loads. */
    predicate ShowsSpinner()
      reads this
    {
      IsEditing(id) && isLoadingProject
    }

    /** The load effect: when editing, it starts loading the project with this id; otherwise nothing happens. */
    method StartLoad() returns (requested: Option<string>)
      modifies this
      ensures requested == (if IsEditing(id) then id else None)
      ensures IsEditing(id) ==> isLoadingProject
      ensures !IsEditing(id) ==> isLoadingProject == old(isLoadingProject)
      ensures formData == old(formData) && tagsInput == old(tagsInput) && isSaving == old(isSaving)
      ensures error == old(error) && autoSlug == old(autoSlug)
    {
      requested := None;
      if IsEditing(id) {
        isLoadingProject := true;
        requested := id;
      }
    }

    /** The load settles: a project seeds the form and switches the slug to manual; a failure only sets the error. */
    method FinishLoad(outcome: Result<Project, Thrown>)
      modifies this
      ensures !isLoadingProject && isSaving == old(isSaving)
      ensures outcome.Ok? ==> formData == SeedForm(outcome.value) && tagsInput == JoinTags(outcome.value.tags)
                              && !autoSlug && error == old(error)
      ensures outcome.Err? ==> formData == old(formData) && tagsInput == old(tagsInput)
                               && autoSlug == old(autoSlug) && error == Some(LoadFailed)
    {
      match outcome {
        case Ok(project) =>
          formData := SeedForm(project);
          tagsInput := JoinTags(project.tags);
          autoSlug := false;
        case Err(_) =>
          error := Some(LoadFailed);
      }
      isLoadingProject := false;
    }

    /** `handleTitleChange`: the title always, the slug only in automatic mode; nothing else. */
    method ChangeTitle(title: string)
      modifies this`formData
      ensures formData == old(formData).(title := title, slug := if autoSlug then Slugify(title) else old(formData.slug))
      ensures autoSlug ==> IsSlug(formData.slug)
    {
      var slug := formData.slug;
      if autoSlug {
        slug := Slugify(title);
        SlugifyIsSlug(title);
      }
      formData := formData.(title := title, slug := slug);
    }

    /** A manual slug edit: switches to manual mode and changes only the slug. */
    method EditSlug(value: string)
      modifies this`formData, this`autoSlug
      ensures !autoSlug && formData == old(formData).(slug := value)
    {
      autoSlug := false;
      formData := formData.(slug := value);
    }

    /** The auto/manual button. */
    method ToggleAutoSlug()
      modifies this`autoSlug
      ensures autoSlug == !old(autoSlug)
    {
      autoSlug := !autoSlug;
    }

    /** `handleTagsChange`: keeps the raw text and stores the parsed tags. */
    method ChangeTags(value: string)
      modifies this`tagsInput, this`formData
      ensures tagsInput == value && formData == old(formData).(tags := ParseTags(value))
      ensures forall i :: 0 <= i < |formData.tags| ==> IsCleanTag(formData.tags[i])
    {
      tagsInput := value;
      formData := formData.(tags := ParseTags(value));
      ParsedTagsAreClean(value);
    }

    /** The order field: `parseInt(value) || 0`. */
    method ChangeOrder(input: string)
      modifies this`formData
      ensures formData == old(formData).(order := ParseIntOrZero(input))
    {
      formData := formData.(order := ParseIntOrZero(input));
    }

    /** Submit starts: the error is cleared, saving begins, and the call is chosen by the route id. */
    method StartSubmit() returns (call: Save<ProjectForm>)
      modifies this`error, this`isSaving
      ensures error == None && isSaving
      ensures call == SaveCall(id, formData)
    {
      error := None;
      isSaving := true;
      call := SaveCall(id, formData);
    }

    /** Submit settles: success navigates to the list, failure shows the message; saving ends either way. */
    method FinishSubmit(outcome: Result<JsValue, Thrown>) returns (navigateTo: Option<string>)
      modifies this`error, this`isSaving
      ensures !isSaving
      ensures outcome.Ok? ==> navigateTo == Some(ListPath) && error == old(error)
      ensures outcome.Err? ==> navigateTo == None && error == Some(MessageOr(outcome.error, SaveFailed))
    {
      navigateTo := None;
      match outcome {
        case Ok(_) =>
          navigateTo := Some(ListPath);
        case Err(e) =>
          error := Some(MessageOr(e, SaveFailed));
      }
      isSaving := false;
    }
  }

  /** Re-parsing the tag text a loaded project puts in the field gives back its tags when they are clean. */
  lemma SeededTagTextParsesBack(p: Project)
    requires forall i :: 0 <= i < |p.tags| ==> IsCleanTag(p.tags[i])
    ensures ParseTags(JoinTags(SeedForm(p).tags)) == p.tags
  {
    ParseJoinedTags(p.tags);
  }
}
