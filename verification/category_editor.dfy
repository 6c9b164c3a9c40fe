/**
 * The category editor: the form state, the name that follows the label while
 * it is in automatic mode, seeding from the category the list page passed
 * along, and saving.
 */
module CategoryEditor {
  import opened Wrappers
  import opened Text
  import opened JsValues
  import opened ApiTypes
  import opened Slug
  import opened EditorForms

  /** `CategoryCreate`: the form fields. */
  datatype CategoryForm = CategoryForm(name: string, labelText: string, description: string, order: int)

  const NotFound: string := "Category data not found. Please go back to the categories list."
  const SaveFailed: string := "Failed to save category"
  const ListPath: string := "/admin/categories"

  /** The empty form of a new category. */
  const InitialForm: CategoryForm := CategoryForm("", "", "", 0)

  /** The form filled from a category: a missing description becomes `''`. */
  function SeedForm(c: Category): (f: CategoryForm)
    ensures f.name == c.name && f.labelText == c.labelText && f.order == c.order
    ensures f.description == c.description.GetOr("")
  {
    CategoryForm(c.name, c.labelText, c.description.GetOr(""), c.order)
  }

  /** The editor page for the route parameter `id` and the category in the navigation state. */
  class CategoryEditorPage {
    const id: Option<string>
    const categoryFromState: Option<Category>
    var formData: CategoryForm
    var isSaving: bool
    var error: Option<string>
    var autoName: bool

    constructor (id: Option<string>, categoryFromState: Option<Category>)
      ensures this.id == id && this.categoryFromState == categoryFromState
      ensures formData == InitialForm && !isSaving && error == None && autoName
    {
      this.id := id;
      this.categoryFromState := categoryFromState;
      formData := InitialForm;
      isSaving := false;
      error := None;
      autoName := true;
    }

    /**
     * The seed effect: when editing, a navigation-state category with the route's
     * id fills the form and switches the name to manual; any other leaves the
     * form alone and reports that the data was not found.
     */
    method Seed()
      modifies this
      ensures var matches := categoryFromState.Some? && IsEditing(id) && categoryFromState.value.id == id.value;
        (matches ==> formData == SeedForm(categoryFromState.value) && !autoName && error == old(error)) &&
        (IsEditing(id) && !matches ==> formData == old(formData) && autoName == old(autoName) && error == Some(NotFound)) &&
        (!IsEditing(id) ==> formData == old(formData) && autoName == old(autoName) && error == old(error))
      ensures isSaving == old(isSaving)
    {
      if IsEditing(id) {
        if categoryFromState.Some? && categoryFromState.value.id == id.value {
          formData := SeedForm(categoryFromState.value);
          autoName := false;
        } else {
          error := Some(NotFound);
        }
      }
    }

    /** `handleLabelChange`: the label always, the name only in automatic mode; nothing else. */
    method ChangeLabel(labelText: string)
      modifies this`formData
      ensures formData == old(formData).(labelText := labelText, name := if autoName then Slugify(labelText) else old(formData.name))
      ensures autoName ==> IsSlug(formData.name)
    {
      var name := formData.name;
      if autoName {
        name := Slugify(labelText);
        SlugifyIsSlug(labelText);
      }
      formData := formData.(labelText := labelText, name := name);
    }

    /** A manual name edit: switches to manual mode and changes only the name. */
    method EditName(value: string)
      modifies this`formData, this`autoName
      ensures !autoName && formData == old(formData).(name := value)
    {
      autoName := false;
      formData := formData.(name := value);
    }

    /** The auto/manual button. */
    method ToggleAutoName()
      modifies this`autoName
      ensures autoName == !old(autoName)
    {
      autoName := !autoName;
    }

    /** The order field: `parseInt(value) || 0`. */
    method ChangeOrder(input: string)
      modifies this`formData
      ensures formData == old(formData).(order := ParseIntOrZero(input))
    {
      formData := formData.(order := ParseIntOrZero(input));
    }

    /** Submit starts: the error is cleared, saving begins, and the call is chosen by the route id. */
    method StartSubmit() returns (call: Save<CategoryForm>)
      modifies this`error, this`isSaving
      ensures error == None && isSaving
      ensures call == SaveCall(id, formData)
    {
      error := None;
      isSaving := true;
      call := SaveCall(id, formData);
    }

    /** Submit settles: success navigates to the list, failure shows the message; saving ends either way. */
    method FinishSubmit(outcome: Result<JsValue, Thrown>) returns (navigateTo: Option<string>)
      modifies this`error, this`isSaving
      ensures !isSaving
      ensures outcome.Ok? ==> navigateTo == Some(ListPath) && error == old(error)
      ensures outcome.Err? ==> navigateTo == None && error == Some(MessageOr(outcome.error, SaveFailed))
    {
      navigateTo := None;
      match outcome {
        case Ok(_) =>
          navigateTo := Some(ListPath);
        case Err(e) =>
          error := Some(MessageOr(e, SaveFailed));
      }
      isSaving := false;
    }
  }
}
