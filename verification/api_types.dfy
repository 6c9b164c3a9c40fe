/**
 * The records the API sends and receives, and the JSON form of the error
 * envelope and of its field details.
 */
module ApiTypes {
  import opened Wrappers
  import opened JsValues

  /** `Pagination` */
  datatype Pagination = Pagination(total: int, limit: int, offset: int, hasMore: bool)

  /** One entry of `ApiError.error.details`. */
  datatype FieldError = FieldError(field: string, message: string)

  /** The body of an error response: `{ error: { code, message, details?, retryAfter? } }`. */
  datatype ApiError = ApiError(code: string, message: string, details: Option<seq<FieldError>>, retryAfter: Option<int>)

  /** A list response: `{ data, pagination }`. */
  datatype Paginated<T> = Paginated(data: seq<T>, pagination: Pagination)

  datatype LabNote = LabNote(
    id: string, title: string, slug: string, excerpt: string, content: string, tags: seq<string>,
    readTime: string, date: string, published: bool, createdAt: string, updatedAt: string)

  datatype LabNoteListItem = LabNoteListItem(
    id: string, title: string, slug: string, excerpt: string, tags: seq<string>,
    readTime: string, date: string, createdAt: string, updatedAt: string)

  datatype Category = Category(
    id: string, name: string, labelText: string, description: Option<string>, order: int,
    createdAt: string, updatedAt: string)

  /**
   * A project as the API sends it. The category is modelled as the string key the
   * editors send and the archive page compares against, not as the declared
   * `Category` object; `null` and a missing value of the optional text fields are
   * both `None`.
   */
  datatype Project = Project(
    id: string, slug: string, title: string, description: string, tags: seq<string>,
    category: string, year: string, coverImage: Option<string>, link: Option<string>,
    github: Option<string>, metrics: Option<string>, formula: Option<string>,
    featured: bool, order: int, published: Option<bool>, createdAt: string, updatedAt: string)

  datatype ProjectCategory = ProjectCategory(id: string, name: string, labelText: string, count: int)

  datatype LabNoteTag = LabNoteTag(tag: string, count: int)

  datatype ContactFormData = ContactFormData(name: string, email: string, subject: string, message: string)

  /** A field detail as JSON: `{ field, message }`. */
  function FieldErrorJson(d: FieldError): JsValue {
    Obj(map["field" := Str(d.field), "message" := Str(d.message)])
  }

  /** The details array as JSON, one object per entry, in order. */
  function FieldErrorsJson(ds: seq<FieldError>): (v: JsValue)
    ensures v.Arr? && |v.items| == |ds|
    ensures forall i :: 0 <= i < |ds| ==> v.items[i] == FieldErrorJson(ds[i])
  {
    Arr(seq(|ds|, i requires 0 <= i < |ds| => FieldErrorJson(ds[i])))
  }

  /** The inner `error` object; the optional members are absent when `None`. */
  function ApiErrorObject(e: ApiError): (v: JsValue)
    ensures v.Obj? && Field(v, "code") == Str(e.code) && Field(v, "message") == Str(e.message)
    ensures Field(v, "details") == if e.details.Some? then FieldErrorsJson(e.details.value) else Undefined
  {
    var base := map["code" := Str(e.code), "message" := Str(e.message)];
    var withDetails := if e.details.Some? then base["details" := FieldErrorsJson(e.details.value)] else base;
    Obj(if e.retryAfter.Some? then withDetails["retryAfter" := Num(e.retryAfter.value)] else withDetails)
  }

  /** The whole error body `{ error: … }`. */
  function ApiErrorJson(e: ApiError): (v: JsValue)
    ensures v.Obj? && Field(v, "error") == ApiErrorObject(e)
  {
    Obj(map["error" := ApiErrorObject(e)])
  }
}
