/** The ZPL II tags every render is built from (Options/ZebraLexicon.cs). */
module Lexicon {

  /** Configure the current field as a Code 128 barcode. */
  const BC: string := "^BC"
  /** Configure the global barcode defaults. */
  const BY: string := "^BY"
  /** Change the font. */
  const CF: string := "^CF"
  /** Set the field data string. */
  const FD: string := "^FD"
  /** Set the field origin. */
  const FO: string := "^FO"
  /** Invert the field's colour where it overlaps another field. */
  const FR: string := "^FR"
  /** End of field. */
  const FS: string := "^FS"
  /** Comment. */
  const FX: string := "^FX"
  /** Draw a graphical box. */
  const GB: string := "^GB"
  /** Start of a label format. */
  const XA: string := "^XA"
  /** End of a label format. */
  const XZ: string := "^XZ"

  /**
   * The generic barcode prefix `ZebraLexicon.B` that the barcode renders use; the lexicon file
   * does not declare it, and the renders only make sense with the ZPL caret-B prefix.
   */
  const B: string := "^B"

  /** A ZPL command: a caret followed by two upper-case letters. */
  predicate IsCommand(s: string) {
    |s| == 3 && s[0] == '^' && 'A' <= s[1] <= 'Z' && 'A' <= s[2] <= 'Z'
  }

  /** All eleven tags of the lexicon, in declaration order. */
  function Tags(): (tags: seq<string>)
    ensures |tags| == 11
    ensures forall i :: 0 <= i < |tags| ==> IsCommand(tags[i])
    ensures forall i, j :: 0 <= i < j < |tags| ==> tags[i] != tags[j]
  {
    [BC, BY, CF, FD, FO, FR, FS, FX, GB, XA, XZ]
  }
}
