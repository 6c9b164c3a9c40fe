/**
 * The home page's archive section: the static project list, filtered by the
 * active category with the same rule and footer as the archive page.
 */
module Archive {
  import opened ArchivePage

  /** A static project: the two fields the section's filter reads. */
  datatype StaticProject = StaticProject(id: string, category: string)

  /** The static projects, in their listed order. */
  const Projects: seq<StaticProject> := [
    StaticProject("maiagent-platform", "engineering"),
    StaticProject("agentic-hybrid-rag", "ml"),
    StaticProject("advanced-rag-system", "engineering"),
    StaticProject("llamaindex-contributor", "engineering"),
    StaticProject("genai-tutoring-system", "ml"),
    StaticProject("presidential-hackathon", "ml"),
    StaticProject("fitness-motion-classifier", "ml"),
    StaticProject("enterprise-knowledge-system", "engineering"),
    StaticProject("elderly-care-map", "engineering"),
    StaticProject("chat-bar-game-server", "engineering")
  ]

  /** The buttons: the three fixed category ids. */
  const CategoryIds: seq<string> := ["all", "engineering", "ml"]

  function CategoryOf(p: StaticProject): string {
    p.category
  }

  /** The filtered list of the section for the active category. */
  function Shown(active: string): seq<StaticProject> {
    FilterByCategory(Projects, active, CategoryOf)
  }

  /** `'all'` shows every static project in order; any other id shows the projects of that category. */
  lemma ShownMembers(active: string, p: StaticProject)
    ensures active == AllId ==> Shown(active) == Projects
    ensures active != AllId ==> (p in Shown(active) <==> p in Projects && p.category == active)
  {
    if active != AllId {
      OfCategoryMembers(Projects, CategoryOf, active, p);
    }
  }

  /** Every static project is either engineering or machine learning. */
  lemma EveryProjectHasAKnownCategory()
    ensures forall i :: 0 <= i < |Projects| ==> Projects[i].category == "engineering" || Projects[i].category == "ml"
  {
  }

  /**
   * The two category buttons other than `'all'` partition the static list:
   * every project is in exactly one of their lists, and their lengths add up to the whole.
   */
  lemma CategoriesPartitionProjects(a: string, b: string, p: StaticProject)
    requires a in CategoryIds && b in CategoryIds && a != AllId && b != AllId && a != b
    ensures |Shown(a)| + |Shown(b)| == |Projects|
    ensures p in Projects <==> p in Shown(a) || p in Shown(b)
    ensures !(p in Shown(a) && p in Shown(b))
  {
    EveryProjectHasAKnownCategory();
    OfCategoryPartition(Projects, CategoryOf, a, b, p);
  }

  /** Every category button finds at least one project, so the empty-state message never shows here. */
  lemma NoEmptyCategory(active: string)
    requires active in CategoryIds
    ensures Shown(active) != []
  {
    if active != AllId {
      ShownMembers(active, if active == "ml" then Projects[1] else Projects[0]);
    }
  }

  /** Four machine-learning projects. */
  lemma MlCount()
    ensures |OfCategory(Projects, CategoryOf, "ml")| == 4
  {
  }

  /** Four machine-learning projects, so six engineering ones of the ten. */
  lemma CategoryCounts()
    ensures |Shown(AllId)| == 10
    ensures |Shown("ml")| == 4 && |Shown("engineering")| == 6
  {
    MlCount();
    CategoriesPartitionProjects("engineering", "ml", Projects[0]);
  }
}
