/**
 * The project hooks: a filtered project list with pagination, the featured
 * projects, one project by slug, and the project categories.
 */
module UseProjects {
  import opened Wrappers
  import opened JsValues
  import opened ApiTypes

  const FetchProjectsFailed: string := "Failed to fetch projects"
  const FetchFeaturedFailed: string := "Failed to fetch featured projects"
  const FetchProjectFailed: string := "Failed to fetch project"
  const FetchCategoriesFailed: string := "Failed to fetch categories"

  /** `ProjectsQueryParams`: the named keys, and any other key the caller adds. */
  datatype ProjectsQuery = ProjectsQuery(
    categoryId: Option<string>, featured: Option<bool>, tag: Option<string>,
    limit: Option<int>, offset: Option<int>, extra: map<string, JsValue>)

  /** The dependencies of the fetch callback: category id, featured, tag, limit and offset. */
  function ProjectsDeps(params: Option<ProjectsQuery>): (deps: (Option<string>, Option<bool>, Option<string>, Option<int>, Option<int>))
    ensures params.None? ==> deps == (None, None, None, None, None)
  {
    match params
    case None => (None, None, None, None, None)
    case Some(q) => (q.categoryId, q.featured, q.tag, q.limit, q.offset)
  }

  /** A re-render with new parameters fetches again exactly when a dependency changed. */
  predicate Refetches(previous: Option<ProjectsQuery>, next: Option<ProjectsQuery>) {
    ProjectsDeps(previous) != ProjectsDeps(next)
  }

  /** Other keys never cause a fetch; a new category or page always does. */
  lemma RefetchOnlyOnDependencies(q: ProjectsQuery, extra: map<string, JsValue>, categoryId: Option<string>, offset: Option<int>)
    ensures !Refetches(Some(q), Some(q.(extra := extra)))
    ensures Refetches(Some(q), Some(q.(categoryId := categoryId))) <==> categoryId != q.categoryId
    ensures Refetches(Some(q), Some(q.(offset := offset))) <==> offset != q.offset
  {
  }

  /** `useProjects(params)` */
  class ProjectsHook {
    var projects: seq<Project>
    var pagination: Option<Pagination>
    var isLoading: bool
    var error: Option<Thrown>

    constructor ()
      ensures projects == [] && pagination == None && isLoading && error == None
    {
      projects := [];
      pagination := None;
      isLoading := true;
      error := None;
    }

    /** A fetch starts: loading, no error, the previous projects and pagination stay. */
    method StartFetch()
      modifies this
      ensures isLoading && error == None
      ensures projects == old(projects) && pagination == old(pagination)
    {
      isLoading := true;
      error := None;
    }

    /** The fetch settles: the response replaces the list, or the error is recorded over the previous list. */
    method FinishFetch(outcome: Result<Paginated<Project>, Thrown>)
      modifies this
      ensures !isLoading
      ensures outcome.Ok? ==> projects == outcome.value.data && pagination == Some(outcome.value.pagination) && error == None
      ensures outcome.Err? ==> projects == old(projects) && pagination == old(pagination)
                               && error == Some(AsError(outcome.error, FetchProjectsFailed))
    {
      match outcome {
        case Ok(response) =>
          projects := response.data;
          pagination := Some(response.pagination);
          error := None;
        case Err(e) =>
          error := Some(AsError(e, FetchProjectsFailed));
      }
      isLoading := false;
    }
  }

  /** `useFeaturedProjects()` */
  class FeaturedProjectsHook {
    var projects: seq<Project>
    var isLoading: bool
    var error: Option<Thrown>

    constructor ()
      ensures projects == [] && isLoading && error == None
    {
      projects := [];
      isLoading := true;
      error := None;
    }

    /** A fetch starts: loading, no error, the previous projects stay. */
    method StartFetch()
      modifies this
      ensures isLoading && error == None && projects == old(projects)
    {
      isLoading := true;
      error := None;
    }

    /** The fetch settles: the featured projects, or an empty list and the error. */
    method FinishFetch(outcome: Result<seq<Project>, Thrown>)
      modifies this
      ensures !isLoading
      ensures outcome.Ok? ==> projects == outcome.value && error == None
      ensures outcome.Err? ==> projects == [] && error == Some(AsError(outcome.error, FetchFeaturedFailed))
    {
      match outcome {
        case Ok(ps) =>
          projects := ps;
          error := None;
        case Err(e) =>
          projects := [];
          error := Some(AsError(e, FetchFeaturedFailed));
      }
      isLoading := false;
    }
  }

  /** `useProject(slug)` */
  class ProjectHook {
    const slug: string
    var project: Option<Project>
    var isLoading: bool
    var error: Option<Thrown>

    constructor (slug: string)
      ensures this.slug == slug && project == None && isLoading && error == None
    {
      this.slug := slug;
      project := None;
      isLoading := true;
      error := None;
    }

    /** The effect: only a non-empty slug starts a fetch; an empty one leaves the state as it is. */
    method Effect() returns (fetching: bool)
      modifies this
      ensures fetching <==> slug != ""
      ensures fetching ==> isLoading && error == None && project == old(project)
      ensures !fetching ==> isLoading == old(isLoading) && error == old(error) && project == old(project)
    {
      fetching := slug != "";
      if fetching {
        isLoading := true;
        error := None;
      }
    }

    /** The fetch settles: the project, or no project and the error. */
    method FinishFetch(outcome: Result<Project, Thrown>)
      modifies this
      ensures !isLoading
      ensures outcome.Ok? ==> project == Some(outcome.value) && error == None
      ensures outcome.Err? ==> project == None && error == Some(AsError(outcome.error, FetchProjectFailed))
    {
      match outcome {
        case Ok(p) =>
          project := Some(p);
          error := None;
        case Err(e) =>
          project := None;
          error := Some(AsError(e, FetchProjectFailed));
      }
      isLoading := false;
    }
  }

  /** `useProjectCategories()`: no loading reset, only the settled fetch. */
  class ProjectCategoriesHook {
    var categories: seq<ProjectCategory>
    var isLoading: bool
    var error: Option<Thrown>

    constructor ()
      ensures categories == [] && isLoading && error == None
    {
      categories := [];
      isLoading := true;
      error := None;
    }

    /** The fetch settles: the categories, or an empty list and the error. */
    method FinishFetch(outcome: Result<seq<ProjectCategory>, Thrown>)
      modifies this
      ensures !isLoading
      ensures outcome.Ok? ==> categories == outcome.value && error == None
      ensures outcome.Err? ==> categories == [] && error == Some(AsError(outcome.error, FetchCategoriesFailed))
    {
      match outcome {
        case Ok(cs) =>
          categories := cs;
          error := None;
        case Err(e) =>
          categories := [];
          error := Some(AsError(e, FetchCategoriesFailed));
      }
      isLoading := false;
    }
  }
}
