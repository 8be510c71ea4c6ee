/** Splitting text at the first occurrence of a separator character. */
module Text {
  import opened Wrappers

  /** The text before the first sep, and the text after it if sep occurs. */
  function SplitAt(text: string, sep: char): (parts: (string, Option<string>))
    ensures sep !in parts.0
    ensures parts.1.None? ==> parts.0 == text
    ensures parts.1.Some? ==> text == parts.0 + [sep] + parts.1.value
  {
    if text == [] then ([], None)
    else if text[0] == sep then ([], Some(text[1..]))
    else
      var (before, after) := SplitAt(text[1..], sep);
      assert after.Some? ==> text == [text[0]] + before + [sep] + after.value;
      ([text[0]] + before, after)
  }

  /** Splitting text built around a separator gives back its two sides. */
  lemma {:induction false} SplitAtJoin(before: string, sep: char, after: string)
    requires sep !in before
    ensures SplitAt(before + [sep] + after, sep) == (before, Some(after))
  {
    if before != [] {
      assert before[0] in before;
      assert (before + [sep] + after)[1..] == before[1..] + [sep] + after;
      SplitAtJoin(before[1..], sep, after);
      assert [before[0]] + before[1..] == before;
    }
  }

  /** Text without the separator is left whole. */
  lemma SplitAtAbsent(text: string, sep: char)
    requires sep !in text
    ensures SplitAt(text, sep) == (text, None)
  {
  }
}
