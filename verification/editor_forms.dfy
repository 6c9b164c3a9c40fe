/** What the three admin editors share: the editing test on the route id and the save call it selects. */
module EditorForms {
  import opened Wrappers
  import opened JsValues

  /** `Boolean(id)` on the route parameter: editing needs a non-empty id. */
  predicate IsEditing(id: Option<string>) {
    id.Some? && id.value != ""
  }

  /** The service call a submit makes: `update(id, form)` when editing, `create(form)` otherwise. */
  datatype Save<F> = CreateWith(data: F) | UpdateWith(id: string, data: F)

  /** `isEditing && id ? update(id, formData) : create(formData)` */
  function SaveCall<F>(id: Option<string>, form: F): (call: Save<F>)
    ensures call.data == form
    ensures call.UpdateWith? <==> IsEditing(id)
    ensures call.UpdateWith? ==> call.id == id.value
  {
    if IsEditing(id) then UpdateWith(id.value, form) else CreateWith(form)
  }
}
