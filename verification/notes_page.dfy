/**
 * The lab-notes page: the tag row (an `All` button in front of the API tags),
 * the active tag and its highlight, and the footer count.
 */
module NotesPage {
  import opened Wrappers
  import opened Text
  import opened ApiTypes
  import opened UseLabNotes
  import opened ArchivePage

  /** The name of the button that clears the tag. */
  const AllTag: string := "All"

  /** `[{ tag: 'All', count: 0 }, ...tags]` */
  function AllTags(tags: seq<LabNoteTag>): (r: seq<LabNoteTag>)
    ensures |r| == |tags| + 1
    ensures r[0] == LabNoteTag(AllTag, 0) && r[1..] == tags
  {
    [LabNoteTag(AllTag, 0)] + tags
  }

  /** The tag row is rendered only when the API returned a tag. */
  predicate ShowsTagRow(tags: seq<LabNoteTag>) {
    |tags| > 0
  }

  /** `!activeTag`: no tag, or the empty tag. */
  predicate NoActiveTag(activeTag: Option<string>) {
    activeTag.None? || activeTag.value == ""
  }

  /** The highlight rule: `All` while no tag is active, otherwise the button whose name is the active tag. */
  predicate Highlighted(name: string, activeTag: Option<string>) {
    (name == AllTag && NoActiveTag(activeTag)) || activeTag == Some(name)
  }

  /** The count in parentheses after a button's name is shown only for a positive count. */
  predicate ShowsCount(item: LabNoteTag) {
    item.count > 0
  }

  /** The `All` button never shows a count. */
  lemma AllShowsNoCount(tags: seq<LabNoteTag>)
    ensures !ShowsCount(AllTags(tags)[0])
  {
  }

  /** The API tag names are pairwise different, none is empty and none is `All`. */
  predicate DistinctNames(tags: seq<LabNoteTag>) {
    (forall i, j :: 0 <= i < j < |tags| ==> tags[i].tag != tags[j].tag) &&
    (forall i :: 0 <= i < |tags| ==> tags[i].tag != AllTag && tags[i].tag != "")
  }

  /** The active tag is either none or one of the API tags. */
  predicate ActiveIsListed(tags: seq<LabNoteTag>, activeTag: Option<string>) {
    activeTag.None? || exists i :: 0 <= i < |tags| && tags[i].tag == activeTag.value
  }

  /** With distinct names and a listed active tag, exactly one button of the row is highlighted. */
  lemma ExactlyOneHighlighted(tags: seq<LabNoteTag>, activeTag: Option<string>)
    requires DistinctNames(tags) && ActiveIsListed(tags, activeTag)
    ensures exists k :: 0 <= k < |AllTags(tags)| && Highlighted(AllTags(tags)[k].tag, activeTag)
    ensures forall k, l ::
      (0 <= k < |AllTags(tags)| && 0 <= l < |AllTags(tags)| &&
       Highlighted(AllTags(tags)[k].tag, activeTag) && Highlighted(AllTags(tags)[l].tag, activeTag)) ==> k == l
  {
    var all := AllTags(tags);
    assert forall k :: 1 <= k < |all| ==> all[k] == tags[k - 1];
    if activeTag.None? {
      assert Highlighted(all[0].tag, activeTag);
    } else {
      var i :| 0 <= i < |tags| && tags[i].tag == activeTag.value;
      assert Highlighted(all[i + 1].tag, activeTag);
    }
  }

  /** The page's only state. */
  class NotesPageView {
    var activeTag: Option<string>

    constructor ()
      ensures activeTag == None
    {
      activeTag := None;
    }

    /** A click on the button named `name`: `All` clears the tag, any other sets it. */
    method Click(name: string)
      modifies this
      ensures name == AllTag ==> activeTag == None
      ensures name != AllTag ==> activeTag == Some(name)
    {
      activeTag := if name == AllTag then None else Some(name);
    }

    /** The query the notes hook receives. */
    function Query(): NotesQuery
      reads this
    {
      NotesQuery(activeTag, None, None, map[])
    }
  }

  /** The button just clicked is the highlighted one, and the `All` button is highlighted exactly when no tag is active. */
  lemma ClickedButtonIsHighlighted(name: string, other: string)
    requires name != ""
    ensures Highlighted(name, if name == AllTag then None else Some(name))
    ensures other != name && other != "" ==> !Highlighted(other, if name == AllTag then None else Some(name))
  {
  }

  /** A new active tag makes the notes hook fetch again; clicking the active tag again does not. */
  lemma TagChangeRefetches(before: Option<string>, after: Option<string>)
    ensures Refetches(Some(NotesQuery(before, None, None, map[])), Some(NotesQuery(after, None, None, map[]))) <==> before != after
  {
  }

  /** The footer: `<count> note[s]`, then ` / <tag>` while a tag is active. */
  function Footer(count: nat, activeTag: Option<string>): string {
    NatToDecimal(count) + " note" + PluralSuffix(count) + (if NoActiveTag(activeTag) then "" else " / " + activeTag.value)
  }

  /** The footer says "notes" exactly when the count is not 1, and ends with the active tag when there is one. */
  lemma FooterShape(count: nat, activeTag: Option<string>)
    ensures var text := Footer(count, activeTag); var n := |NatToDecimal(count)| + 5;
      (count != 1 <==> |text| > n && text[n] == 's') &&
      (NoActiveTag(activeTag) ==> |text| == n + |PluralSuffix(count)|) &&
      (!NoActiveTag(activeTag) ==> text[|text| - |activeTag.value| - 3..] == " / " + activeTag.value)
  {
    var digits := NatToDecimal(count);
    var text := Footer(count, activeTag);
    var n := |digits| + 5;
    var tail := if NoActiveTag(activeTag) then "" else " / " + activeTag.value;
    assert text == (digits + " note") + PluralSuffix(count) + tail;
    assert |digits + " note"| == n;
    if count != 1 {
      assert text[n] == 's';
    } else if |text| > n {
      assert text[n] == tail[0];
      assert tail[0] == ' ';
    }
  }
}
