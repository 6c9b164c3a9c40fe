/**
 * The archive page: the category buttons (the API list or a fixed fallback),
 * the projects of the active category, and the footer count.
 */
module ArchivePage {
  import opened Wrappers
  import opened Text
  import opened ApiTypes

  /** A category button: its id, its label and its project count. */
  datatype CategoryItem = CategoryItem(id: string, labelText: string, count: int)

  /** The id that selects every project. */
  const AllId: string := "all"

  /** The buttons shown while the API has no categories. */
  const FallbackCategories: seq<CategoryItem> :=
    [CategoryItem("all", "All", 0), CategoryItem("engineering", "Engineering", 0), CategoryItem("ml", "ML/AI", 0)]

  function ItemOf(c: ProjectCategory): CategoryItem {
    CategoryItem(c.id, c.labelText, c.count)
  }

  /** The category memo: the API categories when there are any, the fallback otherwise. */
  function Categories(api: seq<ProjectCategory>): (items: seq<CategoryItem>)
    ensures api == [] ==> items == FallbackCategories
    ensures api != [] ==> |items| == |api| && forall i :: 0 <= i < |api| ==> items[i] == ItemOf(api[i])
  {
    if |api| > 0 then seq(|api|, i requires 0 <= i < |api| => ItemOf(api[i])) else FallbackCategories
  }

  /** `s.filter(p => categoryOf(p) === id)`: the elements of the category, in their order in `s`. */
  function OfCategory<P>(s: seq<P>, categoryOf: P -> string, id: string): (r: seq<P>)
    ensures |r| <= |s|
    ensures forall i :: 0 <= i < |r| ==> categoryOf(r[i]) == id
  {
    if s == [] then []
    else (if categoryOf(s[0]) == id then [s[0]] else []) + OfCategory(s[1..], categoryOf, id)
  }

  /** The filter memo: every project for `'all'`, otherwise those of the active category. */
  function FilterByCategory<P>(projects: seq<P>, active: string, categoryOf: P -> string): (r: seq<P>)
    ensures active == AllId ==> r == projects
    ensures active != AllId ==> r == OfCategory(projects, categoryOf, active)
  {
    if active == AllId then projects else OfCategory(projects, categoryOf, active)
  }

  /** Filtering the two halves of a list separately gives the two halves of the result: relative order is kept. */
  lemma {:induction false} OfCategoryAppend<P>(a: seq<P>, b: seq<P>, categoryOf: P -> string, id: string)
    ensures OfCategory(a + b, categoryOf, id) == OfCategory(a, categoryOf, id) + OfCategory(b, categoryOf, id)
  {
    if a == [] {
      assert a + b == b;
    } else {
      assert (a + b)[0] == a[0];
      assert (a + b)[1..] == a[1..] + b;
      OfCategoryAppend(a[1..], b, categoryOf, id);
    }
  }

  /** An element is in the filtered list exactly when it is in the list and of the category. */
  lemma {:induction false} OfCategoryMembers<P>(s: seq<P>, categoryOf: P -> string, id: string, x: P)
    ensures x in OfCategory(s, categoryOf, id) <==> x in s && categoryOf(x) == id
  {
    if s != [] {
      OfCategoryMembers(s[1..], categoryOf, id, x);
      assert x in s <==> x == s[0] || x in s[1..];
    }
  }

  /** Nothing is filtered out exactly when every element is of the category; nothing remains exactly when none is. */
  lemma {:induction false} OfCategoryExtremes<P>(s: seq<P>, categoryOf: P -> string, id: string)
    ensures OfCategory(s, categoryOf, id) == s <==> forall i :: 0 <= i < |s| ==> categoryOf(s[i]) == id
    ensures OfCategory(s, categoryOf, id) == [] <==> forall i :: 0 <= i < |s| ==> categoryOf(s[i]) != id
  {
    if s != [] {
      OfCategoryExtremes(s[1..], categoryOf, id);
      assert forall i :: 1 <= i < |s| ==> s[i] == s[1..][i - 1];
      if categoryOf(s[0]) != id {
        assert |OfCategory(s, categoryOf, id)| <= |s[1..]| < |s|;
      }
    }
  }

  /**
   * When every element is of one of two different categories, the two filtered
   * lists together are as long as the list, and every element is in exactly one of them.
   */
  lemma {:induction false} OfCategoryPartition<P>(s: seq<P>, categoryOf: P -> string, a: string, b: string, x: P)
    requires a != b
    requires forall i :: 0 <= i < |s| ==> categoryOf(s[i]) == a || categoryOf(s[i]) == b
    ensures |OfCategory(s, categoryOf, a)| + |OfCategory(s, categoryOf, b)| == |s|
    ensures x in s <==> x in OfCategory(s, categoryOf, a) || x in OfCategory(s, categoryOf, b)
    ensures !(x in OfCategory(s, categoryOf, a) && x in OfCategory(s, categoryOf, b))
  {
    OfCategoryMembers(s, categoryOf, a, x);
    OfCategoryMembers(s, categoryOf, b, x);
    if s != [] {
      assert forall i :: 1 <= i < |s| ==> s[1..][i - 1] == s[i];
      OfCategoryPartition(s[1..], categoryOf, a, b, x);
      if x in s {
        var i :| 0 <= i < |s| && s[i] == x;
      }
    }
  }

  /** The "no projects" message shows for a category exactly when no project is of it. */
  lemma NoProjectsMessage<P>(projects: seq<P>, active: string, categoryOf: P -> string)
    requires active != AllId
    ensures FilterByCategory(projects, active, categoryOf) == [] <==>
      forall i :: 0 <= i < |projects| ==> categoryOf(projects[i]) != active
  {
    OfCategoryExtremes(projects, categoryOf, active);
  }

  /** A project's category id. */
  function CategoryOf(p: Project): string {
    p.category
  }

  /** The page's filter: a project is in a category when its `category` equals the id. */
  function FilteredProjects(projects: seq<Project>, active: string): seq<Project> {
    FilterByCategory(projects, active, CategoryOf)
  }

  /** `'all'` keeps the list; any other id keeps exactly the projects of that category. */
  lemma FilteredProjectsMembers(projects: seq<Project>, active: string, p: Project)
    ensures active == AllId ==> FilteredProjects(projects, active) == projects
    ensures active != AllId ==> (p in FilteredProjects(projects, active) <==> p in projects && p.category == active)
  {
    if active != AllId {
      OfCategoryMembers(projects, CategoryOf, active, p);
    }
  }

  /** `'s'` exactly when the count is not 1. */
  function PluralSuffix(count: nat): (s: string)
    ensures s == "" <==> count == 1
    ensures s != "" ==> s == "s"
  {
    if count != 1 then "s" else ""
  }

  /** The text of a category in the footer: `All Categories` for `'all'`, the id otherwise. */
  function CategoryCaption(active: string): string {
    if active == AllId then "All Categories" else active
  }

  /** The footer: `<count> project[s] / <category>`. */
  function FooterLabel(count: nat, active: string): string {
    NatToDecimal(count) + " project" + PluralSuffix(count) + " / " + CategoryCaption(active)
  }

  /** The footer says "projects" exactly when the count is not 1, and ends with the category caption. */
  lemma FooterPlural(count: nat, active: string)
    ensures var text := FooterLabel(count, active); var n := |NatToDecimal(count)| + 8;
      |text| > n && (text[n] == 's' <==> count != 1) &&
      text[|text| - |CategoryCaption(active)|..] == CategoryCaption(active)
  {
    var digits := NatToDecimal(count);
    var text := FooterLabel(count, active);
    var n := |digits| + 8;
    assert text == (digits + " project") + PluralSuffix(count) + " / " + CategoryCaption(active);
    assert |digits + " project"| == n;
    if count != 1 {
      assert text[n] == 's';
    } else {
      assert text[n] == ' ';
    }
  }

  /** The page's only state. */
  class ArchivePageView {
    var activeCategory: string

    constructor ()
      ensures activeCategory == AllId
    {
      activeCategory := AllId;
    }

    /** A category button click. */
    method Select(id: string)
      modifies this
      ensures activeCategory == id
    {
      activeCategory := id;
    }
  }

  /** One project with `'all'` active reads `1 project / All Categories`. */
  lemma FooterOfOne()
    ensures FooterLabel(1, AllId) == "1 project / All Categories"
  {
    assert NatToDecimal(1) == "1";
  }
}
