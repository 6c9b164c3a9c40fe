/**
 * `estimateReadTime` of the note editor: the number of white-space separated
 * pieces of the trimmed content, divided by 200 words a minute and rounded up,
 * printed as "<n> min read".
 */
module ReadTime {
  import opened Text

  const WordsPerMinute: nat := 200

  /** `content.trim().split(/\s+/).length`: never 0, since splitting '' gives one piece. */
  function WordCount(content: string): (n: nat)
    ensures n >= 1
  {
    |SplitOnWhitespace(Trim(content))|
  }

  /** `Math.ceil(words / 200)`: the least number of minutes whose 200-word budget covers the words. */
  function ReadMinutes(words: nat): (m: nat)
    ensures m * WordsPerMinute >= words
    ensures m == 0 || (m - 1) * WordsPerMinute < words
  {
    (words + WordsPerMinute - 1) / WordsPerMinute
  }

  /** `estimateReadTime(content)` */
  function EstimateReadTime(content: string): string {
    NatToDecimal(ReadMinutes(WordCount(content))) + " min read"
  }

  /** The estimate is never below one minute. */
  lemma AtLeastOneMinute(content: string)
    ensures ReadMinutes(WordCount(content)) >= 1
  {
  }

  /** Every further 200 words add exactly one minute. */
  lemma MinutesPerHundredsOfWords(words: nat)
    ensures ReadMinutes(words + WordsPerMinute) == ReadMinutes(words) + 1
  {
  }

  lemma MinutesAreMonotone(a: nat, b: nat)
    requires a <= b
    ensures ReadMinutes(a) <= ReadMinutes(b)
  {
  }

  /**
   * Empty or white-space-only content reads in "1 min read", the same text the
   * form starts with.
   */
  lemma BlankContentReadsOneMinute(content: string)
    requires forall i :: 0 <= i < |content| ==> IsJsWhitespace(content[i])
    ensures EstimateReadTime(content) == "1 min read"
  {
    TrimStartOfWhitespace(content);
    var trimmed := Trim(content);
    assert trimmed == TrimEnd([]) == [];
    assert WordCount(content) == |SplitOnWhitespace(trimmed)| == 1;
    var minutes := ReadMinutes(1);
    assert minutes == 1;
    assert NatToDecimal(minutes) == [DigitChar(1)] == "1";
  }

  /** A word with no white space splits into itself. */
  lemma {:induction false} SplitSingleWord(w: string)
    requires NoWhitespace(w)
    ensures SplitOnWhitespace(w) == [w]
  {
    if w != [] {
      SplitSingleWord(w[1..]);
      assert [w[0]] + w[1..] == w;
    }
  }

  /** A word followed by one space is split off as it is. */
  lemma {:induction false} SplitWordThenSpace(w: string, x: string)
    requires NoWhitespace(w)
    requires x == [] || !IsJsWhitespace(x[0])
    ensures SplitOnWhitespace(w + [' '] + x) == [w] + SplitOnWhitespace(x)
  {
    var s := w + [' '] + x;
    if w == [] {
      assert s == [' '] + x && s[1..] == x;
      assert TrimStart(x) == x;
    } else {
      assert s[0] == w[0] && s[1..] == w[1..] + [' '] + x;
      SplitWordThenSpace(w[1..], x);
      assert [w[0]] + w[1..] == w;
    }
  }

  lemma {:induction false} JoinedWordsEnds(words: seq<string>)
    requires |words| >= 1 && forall i :: 0 <= i < |words| ==> words[i] != [] && NoWhitespace(words[i])
    ensures Join(words, " ") != []
    ensures Join(words, " ")[0] == words[0][0]
    ensures Join(words, " ")[|Join(words, " ")| - 1] == Last(words[|words| - 1])
  {
    if |words| > 1 {
      JoinedWordsEnds(words[1..]);
    }
  }

  function Last(w: string): char
    requires w != []
  {
    w[|w| - 1]
  }

  /** Words joined by single spaces split back into the same words. */
  lemma {:induction false} SplitJoinedWords(words: seq<string>)
    requires |words| >= 1 && forall i :: 0 <= i < |words| ==> words[i] != [] && NoWhitespace(words[i])
    ensures SplitOnWhitespace(Join(words, " ")) == words
  {
    if |words| == 1 {
      SplitSingleWord(words[0]);
    } else {
      var rest := Join(words[1..], " ");
      JoinedWordsEnds(words[1..]);
      assert Join(words, " ") == words[0] + [' '] + rest;
      SplitWordThenSpace(words[0], rest);
      SplitJoinedWords(words[1..]);
      assert [words[0]] + words[1..] == words;
    }
  }

  /** The word count counts words: n words separated by single spaces count as n. */
  lemma WordCountOfWords(words: seq<string>)
    requires |words| >= 1 && forall i :: 0 <= i < |words| ==> words[i] != [] && NoWhitespace(words[i])
    ensures WordCount(Join(words, " ")) == |words|
  {
    var s := Join(words, " ");
    JoinedWordsEnds(words);
    assert IsTrimmed(s);
    TrimOfTrimmed(s);
    SplitJoinedWords(words);
  }
}
