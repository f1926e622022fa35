/**
 * The manifest page: the ten numbered verses, the paragraph splitter of the
 * prose version, and the two view buttons. The prose itself is an arbitrary
 * input text here.
 */
module ManifestPage {
  import opened Lists
  import opened Text

  /** The paragraph separator: a blank line. */
  const Separator := "\n\n"

  /** `.filter(p => p)`: a string is kept when it is non-empty. */
  function NonEmpty(p: string): bool {
    p != ""
  }

  /** `raw.split('\n\n').map(paragraph => paragraph.trim()).filter(p => p)`. */
  function Paragraphs(raw: string): seq<string> {
    Filter(Map(Split(raw, Separator), Trim), NonEmpty)
  }

  /** There are never more paragraphs than chunks. */
  lemma AtMostChunks(raw: string)
    ensures |Paragraphs(raw)| <= |Split(raw, Separator)|
  {
  }

  /**
   * Every paragraph is a trimmed chunk of the text: non-empty, without
   * whitespace at either end, and without a blank line inside.
   */
  lemma ParagraphClean(raw: string, i: nat)
    requires i < |Paragraphs(raw)|
    ensures Paragraphs(raw)[i] != ""
    ensures !IsSpace(Paragraphs(raw)[i][0]) && !IsSpace(Paragraphs(raw)[i][|Paragraphs(raw)[i]| - 1])
    ensures !Contains(Paragraphs(raw)[i], Separator)
    ensures exists k :: 0 <= k < |Split(raw, Separator)| && Paragraphs(raw)[i] == Trim(Split(raw, Separator)[k])
  {
    var chunks := Split(raw, Separator);
    var trimmed := Map(chunks, Trim);
    var p := Paragraphs(raw)[i];
    FilterMembers(trimmed, NonEmpty);
    assert p in Paragraphs(raw);
    var k :| 0 <= k < |trimmed| && trimmed[k] == p;
    SplitChunksFree(raw, Separator);
    TrimKeepsAbsence(chunks[k], Separator);
  }

  /** A chunk that is not blank is kept as a paragraph. */
  lemma NonBlankChunkKept(raw: string, k: nat)
    requires k < |Split(raw, Separator)| && !AllSpace(Split(raw, Separator)[k])
    ensures Trim(Split(raw, Separator)[k]) in Paragraphs(raw)
  {
    var trimmed := Map(Split(raw, Separator), Trim);
    FilterMembers(trimmed, NonEmpty);
    assert trimmed[k] in trimmed;
  }

  /** An empty text has no paragraphs. */
  lemma EmptyTextNoParagraphs()
    ensures Paragraphs("") == []
  {
    assert Split("", Separator) == [""];
    assert Map([""], Trim) == [""];
  }

  /** The verse numbers: one to ten, consecutively. The verse texts are display text and left out. */
  const VerseNumbers: seq<nat> := [1, 2, 3, 4, 5, 6, 7, 8, 9, 10]

  lemma VersesNumberedFromOne()
    ensures |VerseNumbers| == 10
    ensures forall i :: 0 <= i < |VerseNumbers| ==> VerseNumbers[i] == i + 1
  {
  }

  datatype ViewMode = Verse | Prose

  const InitialMode := Verse

  /** Each of the two buttons sets its own fixed mode. */
  datatype ViewButton = VerseButton | ProseButton

  function Press(mode: ViewMode, button: ViewButton): (r: ViewMode)
    ensures r == Verse <==> button == VerseButton
  {
    match button
    case VerseButton => Verse
    case ProseButton => Prose
  }

  /** Pressing a button again changes nothing, and the result ignores the mode before. */
  lemma PressIdempotent(mode: ViewMode, other: ViewMode, button: ViewButton)
    ensures Press(Press(mode, button), button) == Press(mode, button)
    ensures Press(mode, button) == Press(other, button)
  {
  }
}
