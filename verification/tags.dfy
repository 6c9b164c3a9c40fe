/**
 * The tags field of the project and note editors: the text box holds the tags as
 * typed, and the form data holds `value.split(',').map(t => t.trim()).filter(Boolean)`.
 * A loaded record seeds the text box with `tags.join(', ')`.
 */
module Tags {
  import opened Text

  /** `pieces.map(t => t.trim())` */
  function TrimAll(pieces: seq<string>): (r: seq<string>)
    ensures |r| == |pieces|
    ensures forall i :: 0 <= i < |r| ==> r[i] == Trim(pieces[i])
  {
    if pieces == [] then [] else [Trim(pieces[0])] + TrimAll(pieces[1..])
  }

  /** `pieces.filter(Boolean)`: the empty strings go. */
  function DropEmpty(pieces: seq<string>): (r: seq<string>)
    ensures forall i :: 0 <= i < |r| ==> r[i] != [] && r[i] in pieces
  {
    if pieces == [] then []
    else if pieces[0] == [] then DropEmpty(pieces[1..])
    else [pieces[0]] + DropEmpty(pieces[1..])
  }

  /** `handleTagsChange(value)`: the tags stored in the form data. */
  function ParseTags(value: string): seq<string> {
    DropEmpty(TrimAll(Split(value, ',')))
  }

  /** What the text box is seeded with when a record is loaded: `tags.join(', ')`. */
  function JoinTags(tags: seq<string>): string {
    Join(tags, ", ")
  }

  /** A tag as parsing produces it: not empty, no surrounding white space, no comma. */
  predicate IsCleanTag(t: string) {
    t != [] && IsTrimmed(t) && ',' !in t
  }

  lemma {:induction false} DropEmptyOfTrimmedPieces(pieces: seq<string>)
    requires forall i :: 0 <= i < |pieces| ==> IsTrimmed(pieces[i]) && ',' !in pieces[i]
    ensures forall i :: 0 <= i < |DropEmpty(pieces)| ==> IsCleanTag(DropEmpty(pieces)[i])
  {
    if pieces != [] {
      DropEmptyOfTrimmedPieces(pieces[1..]);
    }
  }

  /** Every parsed tag is clean. */
  lemma ParsedTagsAreClean(value: string)
    ensures forall i :: 0 <= i < |ParseTags(value)| ==> IsCleanTag(ParseTags(value)[i])
  {
    var pieces := Split(value, ',');
    var trimmed := TrimAll(pieces);
    forall k | 0 <= k < |trimmed| ensures IsTrimmed(trimmed[k]) && ',' !in trimmed[k] {
      assert pieces[k] in pieces;
      TrimChars(pieces[k]);
    }
    DropEmptyOfTrimmedPieces(trimmed);
  }

  lemma {:induction false} TrimAllAppend(a: seq<string>, b: seq<string>)
    ensures TrimAll(a + b) == TrimAll(a) + TrimAll(b)
  {
    if a == [] {
      assert a + b == b;
    } else {
      assert (a + b)[0] == a[0] && (a + b)[1..] == a[1..] + b;
      TrimAllAppend(a[1..], b);
    }
  }

  lemma {:induction false} DropEmptyAppend(a: seq<string>, b: seq<string>)
    ensures DropEmpty(a + b) == DropEmpty(a) + DropEmpty(b)
  {
    if a == [] {
      assert a + b == b;
    } else {
      assert (a + b)[0] == a[0] && (a + b)[1..] == a[1..] + b;
      DropEmptyAppend(a[1..], b);
    }
  }

  /** The text before and after a comma is parsed independently, keeping the order of the tags. */
  lemma ParseTagsAtComma(a: string, b: string)
    ensures ParseTags(a + "," + b) == ParseTags(a) + ParseTags(b)
  {
    SplitAtSeparator(a, b, ',');
    TrimAllAppend(Split(a, ','), Split(b, ','));
    DropEmptyAppend(TrimAll(Split(a, ',')), TrimAll(Split(b, ',')));
  }

  /** Text made of white space and nothing else gives no tags. */
  lemma ParseTagsOfBlank(s: string)
    requires forall i :: 0 <= i < |s| ==> IsJsWhitespace(s[i])
    ensures ParseTags(s) == []
  {
    SplitWithoutSeparator(s, ',');
    TrimStartOfWhitespace(s);
    assert TrimAll([s]) == [Trim(s)] + TrimAll([]);
    assert DropEmpty([[]]) == DropEmpty([]);
  }

  /** A clean tag on its own parses to itself. */
  lemma ParseTagsOfClean(t: string)
    requires IsCleanTag(t)
    ensures ParseTags(t) == [t]
  {
    SplitWithoutSeparator(t, ',');
    TrimOfTrimmed(t);
    assert TrimAll([t]) == [t];
    assert DropEmpty([t]) == [t] + DropEmpty([]);
  }

  lemma SplitOfLeading(w: char, x: string)
    requires w != ','
    ensures Split([w] + x, ',') == [[w] + Split(x, ',')[0]] + Split(x, ',')[1..]
  {
    assert ([w] + x)[0] == w && ([w] + x)[1..] == x;
  }

  lemma TrimAllOfLeading(w: char, rest: seq<string>)
    requires IsJsWhitespace(w) && rest != []
    ensures TrimAll([[w] + rest[0]] + rest[1..]) == TrimAll(rest)
  {
    var pieces := [[w] + rest[0]] + rest[1..];
    TrimLeadingWhitespace(w, rest[0]);
    forall i | 0 <= i < |rest| ensures TrimAll(pieces)[i] == TrimAll(rest)[i] {
      if i > 0 {
        assert pieces[i] == rest[i];
      }
    }
  }

  /** A leading white-space character makes no difference to the parsed tags. */
  lemma ParseTagsLeadingSpace(w: char, x: string)
    requires IsJsWhitespace(w)
    ensures ParseTags([w] + x) == ParseTags(x)
  {
    var rest := Split(x, ',');
    SplitOfLeading(w, x);
    TrimAllOfLeading(w, rest);
  }

  lemma JoinTagsCons(tags: seq<string>)
    requires |tags| >= 2
    ensures JoinTags(tags) == tags[0] + "," + ([' '] + JoinTags(tags[1..]))
  {
    assert JoinTags(tags) == tags[0] + ", " + JoinTags(tags[1..]);
  }

  /** Loading a record and leaving the text box alone gives back exactly its tags. */
  lemma {:induction false} ParseJoinedTags(tags: seq<string>)
    requires forall i :: 0 <= i < |tags| ==> IsCleanTag(tags[i])
    ensures ParseTags(JoinTags(tags)) == tags
  {
    if tags == [] {
      assert ParseTags([]) == [];
    } else if |tags| == 1 {
      ParseTagsOfClean(tags[0]);
    } else {
      var rest := JoinTags(tags[1..]);
      calc {
        ParseTags(JoinTags(tags));
        { JoinTagsCons(tags); }
        ParseTags(tags[0] + "," + ([' '] + rest));
        { ParseTagsAtComma(tags[0], [' '] + rest); }
        ParseTags(tags[0]) + ParseTags([' '] + rest);
        { ParseTagsOfClean(tags[0]); ParseTagsLeadingSpace(' ', rest); }
        [tags[0]] + ParseTags(rest);
        { ParseJoinedTags(tags[1..]); }
        [tags[0]] + tags[1..];
        tags;
      }
    }
  }
}
