/**
 * The typewriter components: a plain text revealed one character per tick,
 * and a list of highlighted segments revealed the same way with a reset on
 * `trigger = false` and a completion callback guarded to fire once.
 */
module StreamingText {

  function Min(a: int, b: int): (m: int)
    ensures m <= a && m <= b && (m == a || m == b)
  {
    if a <= b then a else b
  }

  /** `StreamingText` for the text `text`: the revealed length and whether the start delay has passed. */
  class StreamingTextView {
    const text: string
    var displayedLength: nat
    var hasStarted: bool

    /** The revealed length never passes the end of the text. */
    predicate Valid()
      reads this
    {
      displayedLength <= |text|
    }

    constructor (text: string)
      ensures this.text == text && displayedLength == 0 && !hasStarted && Valid()
    {
      this.text := text;
      displayedLength := 0;
      hasStarted := false;
    }

    /** The start timeout fires; it is only scheduled while `trigger` holds. */
    method StartFires(trigger: bool)
      modifies this
      ensures hasStarted == (old(hasStarted) || trigger) && displayedLength == old(displayedLength)
    {
      if trigger {
        hasStarted := true;
      }
    }

    /**
     * One run of the counter effect: before the start nothing happens; then one more
     * character per tick while there is text left; at the end `onComplete` (when given) is called.
     */
    method Tick(hasOnComplete: bool) returns (callsOnComplete: bool)
      requires Valid()
      modifies this
      ensures Valid() && hasStarted == old(hasStarted)
      ensures !hasStarted ==> displayedLength == old(displayedLength) && !callsOnComplete
      ensures hasStarted && old(displayedLength) < |text| ==> displayedLength == old(displayedLength) + 1 && !callsOnComplete
      ensures hasStarted && old(displayedLength) == |text| ==> displayedLength == |text| && callsOnComplete == hasOnComplete
    {
      callsOnComplete := false;
      if hasStarted {
        if displayedLength < |text| {
          displayedLength := displayedLength + 1;
        } else {
          callsOnComplete := hasOnComplete;
        }
      }
    }

    /** `text.slice(0, displayedLength)`: a prefix of the text as long as the counter. */
    function Shown(): (s: string)
      requires Valid()
      reads this
      ensures |s| == displayedLength && s <= text
    {
      text[..displayedLength]
    }
  }

  /** A segment of rich text, and equally a rendered `<span>`: its text and whether it is highlighted. */
  datatype Segment = Segment(text: string, highlight: bool)

  /** The segments' texts one after another. */
  function Flatten(segments: seq<Segment>): string {
    if segments == [] then "" else segments[0].text + Flatten(segments[1..])
  }

  /** `segments.reduce((acc, seg) => acc + seg.text.length, 0)` */
  function TotalLength(segments: seq<Segment>): (n: nat)
    ensures n == |Flatten(segments)|
  {
    if segments == [] then 0 else |segments[0].text| + TotalLength(segments[1..])
  }

  /**
   * The spans `renderSegments` produces with `remaining` characters to give out:
   * each segment in turn gets as many as it has or as remain, until none remain.
   */
  function Render(segments: seq<Segment>, remaining: int): (pieces: seq<Segment>)
    ensures |pieces| <= |segments|
    ensures remaining <= 0 ==> pieces == []
  {
    if segments == [] || remaining <= 0 then []
    else
      var shown := Min(remaining, |segments[0].text|);
      [Segment(segments[0].text[..shown], segments[0].highlight)] + Render(segments[1..], remaining - shown)
  }

  /**
   * Each span keeps its segment's highlight and shows a prefix of its segment's
   * text, and every span but the last shows the whole segment.
   */
  lemma {:induction false} RenderShape(segments: seq<Segment>, remaining: int)
    ensures var pieces := Render(segments, remaining);
      (forall k :: 0 <= k < |pieces| ==>
        pieces[k].highlight == segments[k].highlight && pieces[k].text <= segments[k].text) &&
      (forall k :: 0 <= k < |pieces| - 1 ==> pieces[k].text == segments[k].text)
  {
    if segments != [] && remaining > 0 {
      var shown := Min(remaining, |segments[0].text|);
      RenderShape(segments[1..], remaining - shown);
      var pieces := Render(segments, remaining);
      var tail := Render(segments[1..], remaining - shown);
      assert forall k :: 1 <= k < |pieces| ==> pieces[k] == tail[k - 1] && segments[k] == segments[1..][k - 1];
      if tail != [] {
        assert remaining - shown > 0;
        assert shown == |segments[0].text|;
      }
    }
  }

  /** One step of the rendering: the first segment's span, then the rest rendered with what remains. */
  lemma RenderStep(segments: seq<Segment>, remaining: int)
    requires segments != [] && remaining > 0
    ensures var shown := Min(remaining, |segments[0].text|);
      Render(segments, remaining) == [Segment(segments[0].text[..shown], segments[0].highlight)] + Render(segments[1..], remaining - shown)
  {
  }

  /** The rendered spans spell the first `min(remaining, totalLength)` characters of the text. */
  lemma {:induction false} RenderIsPrefix(segments: seq<Segment>, remaining: int)
    requires remaining >= 0
    ensures Flatten(Render(segments, remaining)) == Flatten(segments)[..Min(remaining, TotalLength(segments))]
  {
    if segments != [] && remaining > 0 {
      var first, rest := segments[0], segments[1..];
      var shown := Min(remaining, |first.text|);
      var tail := Render(rest, remaining - shown);
      RenderIsPrefix(rest, remaining - shown);
      assert Render(segments, remaining) == [Segment(first.text[..shown], first.highlight)] + tail;
      assert Flatten(Render(segments, remaining)) == first.text[..shown] + Flatten(tail) by {
        assert ([Segment(first.text[..shown], first.highlight)] + tail)[1..] == tail;
      }
      if shown < |first.text| {
        assert remaining - shown == 0;
        assert Flatten(segments)[..remaining] == first.text[..remaining];
      } else {
        assert first.text[..shown] == first.text;
        var m := Min(remaining - shown, TotalLength(rest));
        assert Flatten(segments)[..shown + m] == first.text + Flatten(rest)[..m];
      }
    }
  }

  /** `StreamingRichText` for the segments `segments`. */
  class StreamingRichTextView {
    const segments: seq<Segment>
    var currentIndex: nat
    var hasStarted: bool
    var isComplete: bool

    /** The index never passes the total length. */
    predicate Valid()
      reads this
    {
      currentIndex <= TotalLength(segments)
    }

    constructor (segments: seq<Segment>)
      ensures this.segments == segments && currentIndex == 0 && !hasStarted && !isComplete && Valid()
    {
      this.segments := segments;
      currentIndex := 0;
      hasStarted := false;
      isComplete := false;
    }

    /** The trigger effect: `trigger = false` resets the index and both flags; otherwise it only schedules the start. */
    method TriggerChanged(trigger: bool)
      modifies this
      ensures !trigger ==> currentIndex == 0 && !hasStarted && !isComplete
      ensures trigger ==> currentIndex == old(currentIndex) && hasStarted == old(hasStarted) && isComplete == old(isComplete)
    {
      if !trigger {
        currentIndex := 0;
        hasStarted := false;
        isComplete := false;
      }
    }

    /** The scheduled start fires. */
    method StartFires()
      modifies this`hasStarted
      ensures hasStarted
    {
      hasStarted := true;
    }

    /**
     * One run of the counter effect: one more character while some remain; at the end
     * the completion flag is set and `onComplete` called, but only if the flag was not yet set.
     */
    method Tick() returns (callsOnComplete: bool)
      requires Valid()
      modifies this`currentIndex, this`isComplete
      ensures Valid()
      ensures !hasStarted ==> currentIndex == old(currentIndex) && isComplete == old(isComplete) && !callsOnComplete
      ensures hasStarted && old(currentIndex) < TotalLength(segments) ==>
        currentIndex == old(currentIndex) + 1 && isComplete == old(isComplete) && !callsOnComplete
      ensures hasStarted && old(currentIndex) == TotalLength(segments) ==> currentIndex == old(currentIndex) && isComplete
      ensures callsOnComplete <==> hasStarted && old(currentIndex) == TotalLength(segments) && !old(isComplete)
    {
      callsOnComplete := false;
      if hasStarted {
        if currentIndex < TotalLength(segments) {
          currentIndex := currentIndex + 1;
        } else if !isComplete {
          isComplete := true;
          callsOnComplete := true;
        }
      }
    }

    /** `renderSegments`: the loop that hands out `currentIndex` characters to the segments in order. */
    method RenderSegments() returns (elements: seq<Segment>)
      ensures elements == Render(segments, currentIndex)
    {
      var remaining: int := currentIndex;
      elements := [];
      var i := 0;
      while i < |segments|
        invariant 0 <= i <= |segments| && remaining >= 0
        invariant Render(segments, currentIndex) == elements + Render(segments[i..], remaining)
      {
        var seg := segments[i];
        if remaining <= 0 {
          break;
        }
        var charsToShow := Min(remaining, |seg.text|);
        var displayText := seg.text[..charsToShow];
        var piece := Segment(displayText, seg.highlight);
        RenderStep(segments[i..], remaining);
        assert segments[i..][1..] == segments[i + 1..];
        remaining := remaining - charsToShow;
        ghost var rest := Render(segments[i + 1..], remaining);
        assert elements + ([piece] + rest) == (elements + [piece]) + rest;
        elements := elements + [piece];
        i := i + 1;
      }
      assert Render(segments[i..], remaining) == [];
    }
  }
}
