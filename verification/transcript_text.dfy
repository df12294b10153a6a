/**
 A fact about text that both wizards' transcripts rely on: appending is
 associative, so a line appended before the rest of the ladder's lines is
 the same text as the line joined to those lines first.
 */
module TranscriptText {

  lemma AppendAssoc(a: string, b: string, c: string)
    ensures a + b + c == a + (b + c)
  {
  }
}
