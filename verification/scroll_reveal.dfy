/**
 * The scroll-reveal hooks: one element's visibility flag driven by its
 * intersection observer, and a group's set of visible child indices.
 */
module ScrollReveal {
  import opened Wrappers

  /** `useScrollReveal({ once })`: `once` defaults to true. */
  class ScrollRevealView {
    const once: bool
    var isVisible: bool
    /** Whether the observer still delivers entries; `disconnect()` stops it. */
    var observing: bool

    /** Only `once` ever stops the observer. */
    predicate Valid()
      reads this
    {
      !once ==> observing
    }

    constructor (once: Option<bool>)
      ensures this.once == once.GetOr(true) && !isVisible && observing && Valid()
    {
      this.once := once.GetOr(true);
      isVisible := false;
      observing := true;
    }

    /**
     * The observer callback for one entry: an intersection shows the element (and with
     * `once` stops observing); leaving the viewport hides it again only without `once`.
     */
    method Observe(isIntersecting: bool)
      requires Valid()
      modifies this
      ensures Valid()
      ensures !old(observing) ==> isVisible == old(isVisible) && !observing
      ensures old(observing) && isIntersecting ==> isVisible && observing == !once
      ensures old(observing) && !isIntersecting ==> isVisible == (old(isVisible) && once) && observing
      ensures once && old(isVisible) ==> isVisible
      ensures !once ==> observing && isVisible == isIntersecting
    {
      if observing {
        if isIntersecting {
          isVisible := true;
          if once {
            observing := false;
          }
        } else if !once {
          isVisible := false;
        }
      }
    }
  }

  /** An intersection entry: the observed element and whether it intersects. */
  datatype Entry = Entry(target: int, isIntersecting: bool)

  /** `children.indexOf(target)`: the first position of the element, or -1. */
  function IndexOf(children: seq<int>, target: int): (i: int)
    ensures -1 <= i < |children|
    ensures i == -1 <==> target !in children
    ensures i >= 0 ==> children[i] == target && target !in children[..i]
  {
    if children == [] then -1
    else if children[0] == target then 0
    else
      var rest := IndexOf(children[1..], target);
      assert children[1..][..if rest < 0 then 0 else rest] == children[1..if rest < 0 then 1 else rest + 1];
      if rest == -1 then -1 else rest + 1
  }

  /** The state update for one entry: intersecting adds its index; otherwise a falsy `once` removes it. */
  function NextIndices(children: seq<int>, once: Option<bool>, prev: set<int>, entry: Entry): (next: set<int>)
    ensures IndexOf(children, entry.target) == -1 ==> next == prev
    ensures IndexOf(children, entry.target) >= 0 && entry.isIntersecting ==> next == prev + {IndexOf(children, entry.target)}
    ensures IndexOf(children, entry.target) >= 0 && !entry.isIntersecting && !once.GetOr(false) ==>
      next == prev - {IndexOf(children, entry.target)}
    ensures IndexOf(children, entry.target) >= 0 && !entry.isIntersecting && once.GetOr(false) ==> next == prev
  {
    var index := IndexOf(children, entry.target);
    if index == -1 then prev
    else if entry.isIntersecting then prev + {index}
    else if !once.GetOr(false) then prev - {index}
    else prev
  }

  /** The entries of one callback applied in order, each to the set the previous one left. */
  function AfterEntries(children: seq<int>, once: Option<bool>, prev: set<int>, entries: seq<Entry>): set<int>
  {
    if entries == [] then prev
    else NextIndices(children, once, AfterEntries(children, once, prev, entries[..|entries| - 1]), entries[|entries| - 1])
  }

  /** Every index in the set is a child's index. */
  lemma {:induction false} IndicesAreChildren(children: seq<int>, once: Option<bool>, prev: set<int>, entries: seq<Entry>)
    requires forall i :: i in prev ==> 0 <= i < |children|
    ensures forall i :: i in AfterEntries(children, once, prev, entries) ==> 0 <= i < |children|
  {
    if entries != [] {
      IndicesAreChildren(children, once, prev, entries[..|entries| - 1]);
    }
  }

  /**
   * With a truthy `once` nothing is ever hidden again: after the entries a child is
   * visible exactly when it was before or one of the entries saw it intersect.
   */
  lemma {:induction false} OnceOnlyGrows(children: seq<int>, once: Option<bool>, prev: set<int>, entries: seq<Entry>, i: int)
    requires once.GetOr(false) && i >= 0
    ensures i in AfterEntries(children, once, prev, entries) <==>
      i in prev || exists k :: 0 <= k < |entries| && entries[k].isIntersecting && IndexOf(children, entries[k].target) == i
  {
    if entries != [] {
      var init := entries[..|entries| - 1];
      OnceOnlyGrows(children, once, prev, init, i);
      assert forall k :: 0 <= k < |init| ==> init[k] == entries[k];
      var last := entries[|entries| - 1];
      assert AfterEntries(children, once, prev, entries) == NextIndices(children, once, AfterEntries(children, once, prev, init), last);
      if last.isIntersecting && IndexOf(children, last.target) == i {
        assert i in AfterEntries(children, once, prev, entries);
      } else if i in AfterEntries(children, once, prev, entries) && !(i in prev) {
        var k :| 0 <= k < |init| && init[k].isIntersecting && IndexOf(children, init[k].target) == i;
        assert entries[k] == init[k];
      }
    }
  }

  /** `useScrollRevealGroup(count, options)` over the container's children. */
  class ScrollRevealGroupView {
    const children: seq<int>
    const once: Option<bool>
    var visibleIndices: set<int>

    constructor (children: seq<int>, once: Option<bool>)
      ensures this.children == children && this.once == once && visibleIndices == {}
    {
      this.children := children;
      this.once := once;
      visibleIndices := {};
    }

    /** The observer callback: `entries.forEach`, one functional set update per entry. */
    method HandleEntries(entries: seq<Entry>)
      modifies this`visibleIndices
      ensures visibleIndices == AfterEntries(children, once, old(visibleIndices), entries)
    {
      var k := 0;
      while k < |entries|
        invariant 0 <= k <= |entries|
        invariant visibleIndices == AfterEntries(children, once, old(visibleIndices), entries[..k])
      {
        assert entries[..k + 1][..k] == entries[..k];
        visibleIndices := NextIndices(children, once, visibleIndices, entries[k]);
        k := k + 1;
      }
      assert entries[..k] == entries;
    }

    /** `isVisible(index)` */
    predicate IsVisible(index: int)
      reads this
    {
      index in visibleIndices
    }
  }
}
