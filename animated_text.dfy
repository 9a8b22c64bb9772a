/**
 * Letter-by-letter text (src/components/ui/AnimatedText.tsx). `Array.from`
 * splits a well-formed string into its code points, which is what a Dafny
 * `string` is already: one `char` per Unicode scalar value (a lone surrogate,
 * which `Array.from` keeps as an element of its own, has no `char`). Each
 * letter gets its own span,
 * with an ordinary space swapped for a no-break space so it keeps its width.
 */
module AnimatedText {
  const Space: char := ' '
  const NoBreakSpace: char := '\U{00A0}'

  /** The content of one letter's span. */
  function Glyph(letter: char): (g: char)
    ensures letter == Space ==> g == NoBreakSpace
    ensures letter != Space ==> g == letter
  {
    if letter == Space then NoBreakSpace else letter
  }

  /** The span contents, one per letter, in order. */
  function Spans(letters: seq<char>): (spans: seq<char>)
    ensures |spans| == |letters|
    ensures forall i :: 0 <= i < |letters| ==> spans[i] == Glyph(letters[i])
  {
    if letters == [] then [] else [Glyph(letters[0])] + Spans(letters[1..])
  }

  /** No span holds an ordinary space. */
  lemma NoSpaceSurvives(letters: seq<char>)
    ensures Space !in Spans(letters)
  {
  }

  /** Mapping the spans again changes nothing. */
  lemma SpansIdempotent(letters: seq<char>)
    ensures Spans(Spans(letters)) == Spans(letters)
  {
  }

  /** Tabs, newlines and no-break spaces pass through; only U+0020 is replaced. */
  lemma OnlyTheSpaceChanges(letters: seq<char>, i: nat)
    requires i < |letters|
    ensures Spans(letters)[i] != letters[i] <==> letters[i] == Space
    ensures letters[i] in {'\t', '\n', '\r', NoBreakSpace} ==> Spans(letters)[i] == letters[i]
  {
  }
}
