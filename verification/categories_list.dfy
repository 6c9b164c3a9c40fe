/**
 * The admin category list: the categories sorted by their `order` (a stable
 * sort of a copy of the response), loading, and the delete bookkeeping.
 */
module CategoriesList {
  import opened Wrappers
  import opened JsValues
  import opened ApiTypes

  const LoadFailed: string := "Failed to load categories"
  const DeleteFailed: string := "Failed to delete category"

  /** Non-decreasing by `order`. */
  predicate SortedByOrder(s: seq<Category>) {
    forall i, j :: 0 <= i < j < |s| ==> s[i].order <= s[j].order
  }

  /** The categories with the given order, in their order in `s`. */
  function WithOrder(s: seq<Category>, order: int): (r: seq<Category>)
    ensures |r| <= |s|
  {
    if s == [] then []
    else (if s[0].order == order then [s[0]] else []) + WithOrder(s[1..], order)
  }

  /** Puts `c` in front of the first category whose order is not smaller, so it stays ahead of its equals. */
  function Insert(c: Category, s: seq<Category>): (r: seq<Category>)
    ensures |r| == |s| + 1
  {
    if s == [] || c.order <= s[0].order then [c] + s
    else [s[0]] + Insert(c, s[1..])
  }

  /** `[...data].sort((a, b) => a.order - b.order)`: a stable sort by order. */
  function SortByOrder(s: seq<Category>): (r: seq<Category>)
    ensures |r| == |s|
  {
    if s == [] then [] else Insert(s[0], SortByOrder(s[1..]))
  }

  lemma {:induction false} InsertKeepsSorted(c: Category, s: seq<Category>)
    requires SortedByOrder(s)
    ensures SortedByOrder(Insert(c, s))
    ensures Insert(c, s) != [] && (s == [] || Insert(c, s)[0] == c || Insert(c, s)[0] == s[0])
  {
    if s != [] && c.order > s[0].order {
      InsertKeepsSorted(c, s[1..]);
    }
  }

  /** The sorted list is non-decreasing by order. */
  lemma {:induction false} SortedListIsSorted(s: seq<Category>)
    ensures SortedByOrder(SortByOrder(s))
  {
    if s != [] {
      SortedListIsSorted(s[1..]);
      InsertKeepsSorted(s[0], SortByOrder(s[1..]));
    }
  }

  lemma {:induction false} InsertAddsOne(c: Category, s: seq<Category>)
    ensures multiset(Insert(c, s)) == multiset(s) + multiset{c}
  {
    if s != [] && c.order > s[0].order {
      InsertAddsOne(c, s[1..]);
      assert s == [s[0]] + s[1..];
    }
  }

  /** The sorted list is a permutation of the response: the same categories, each as often. */
  lemma {:induction false} SortedListIsPermutation(s: seq<Category>)
    ensures multiset(SortByOrder(s)) == multiset(s)
  {
    if s != [] {
      SortedListIsPermutation(s[1..]);
      InsertAddsOne(s[0], SortByOrder(s[1..]));
      assert s == [s[0]] + s[1..];
    }
  }

  lemma WithOrderOfCons(x: Category, t: seq<Category>, order: int)
    ensures WithOrder([x] + t, order) == (if x.order == order then [x] else []) + WithOrder(t, order)
  {
    assert ([x] + t)[0] == x;
    assert ([x] + t)[1..] == t;
  }

  lemma {:induction false} WithOrderOfInsert(c: Category, s: seq<Category>, order: int)
    ensures WithOrder(Insert(c, s), order) == (if c.order == order then [c] else []) + WithOrder(s, order)
  {
    if s == [] || c.order <= s[0].order {
      WithOrderOfCons(c, s, order);
    } else {
      var rest := Insert(c, s[1..]);
      WithOrderOfInsert(c, s[1..], order);
      WithOrderOfCons(s[0], rest, order);
      WithOrderOfCons(s[0], s[1..], order);
      assert [s[0]] + s[1..] == s;
      if c.order == order {
        assert s[0].order != order;
        assert WithOrder(Insert(c, s), order) == [c] + WithOrder(s[1..], order);
      } else {
        assert WithOrder(Insert(c, s), order) == WithOrder(s, order);
      }
    }
  }

  /** The sort is stable: the categories sharing an order keep their response order. */
  lemma {:induction false} SortIsStable(s: seq<Category>, order: int)
    ensures WithOrder(SortByOrder(s), order) == WithOrder(s, order)
  {
    if s != [] {
      SortIsStable(s[1..], order);
      WithOrderOfInsert(s[0], SortByOrder(s[1..]), order);
    }
  }

  /** The list page. */
  class CategoriesListPage {
    var categories: seq<Category>
    var isLoading: bool
    var error: Option<string>
    var deletingId: Option<string>

    constructor ()
      ensures categories == [] && isLoading && error == None && deletingId == None
    {
      categories := [];
      isLoading := true;
      error := None;
      deletingId := None;
    }

    /** `fetchCategories` starts: loading, no error. */
    method StartFetch()
      modifies this`isLoading, this`error
      ensures isLoading && error == None
    {
      isLoading := true;
      error := None;
    }

    /** `fetchCategories` settles: the sorted copy of the response, or the fixed error; loading ends either way. */
    method FinishFetch(outcome: Result<seq<Category>, Thrown>)
      modifies this`categories, this`isLoading, this`error
      ensures !isLoading
      ensures outcome.Ok? ==> categories == SortByOrder(outcome.value) && error == old(error)
      ensures outcome.Ok? ==> SortedByOrder(categories) && multiset(categories) == multiset(outcome.value)
      ensures outcome.Err? ==> categories == old(categories) && error == Some(LoadFailed)
    {
      match outcome {
        case Ok(data) =>
          categories := SortByOrder(data);
          SortedListIsSorted(data);
          SortedListIsPermutation(data);
        case Err(_) =>
          error := Some(LoadFailed);
      }
      isLoading := false;
    }

    /** `handleDelete` up to the service call: a declined confirm changes nothing and calls nothing. */
    method StartDelete(id: string, confirmed: bool) returns (calls: bool)
      modifies this`deletingId
      ensures calls == confirmed
      ensures confirmed ==> deletingId == Some(id)
      ensures !confirmed ==> deletingId == old(deletingId)
    {
      calls := confirmed;
      if confirmed {
        deletingId := Some(id);
      }
    }

    /**
     * The delete settles: success starts a new fetch, failure alerts the message;
     * either way nothing is being deleted any more.
     */
    method FinishDelete(outcome: Result<JsValue, Thrown>) returns (alert: Option<string>, refetch: bool)
      modifies this`deletingId, this`isLoading, this`error
      ensures deletingId == None && categories == old(categories)
      ensures outcome.Ok? ==> refetch && alert == None && isLoading && error == None
      ensures outcome.Err? ==> !refetch && alert == Some(MessageOr(outcome.error, DeleteFailed))
                               && isLoading == old(isLoading) && error == old(error)
    {
      alert := None;
      refetch := false;
      match outcome {
        case Ok(_) =>
          StartFetch();
          refetch := true;
        case Err(e) =>
          alert := Some(MessageOr(e, DeleteFailed));
      }
      deletingId := None;
    }
  }
}
