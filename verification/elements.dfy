/**
 * The field kinds a label holds (the element classes under Library/Elements, Absolute and
 * Library/QuickZebra/QuickZebra/Elements), their constructors with the object initializers the
 * labels apply, and `Zebrify`, the ZPL text each kind renders to.
 *
 * The kinds render identically in every iteration except the barcode, which has three
 * generations: `Flagged` (Library/Elements: a type letter, flags given as booleans),
 * `Nullable` (Absolute: always "^BC", every parameter optional) and `Typed` (QuickZebra: the
 * parameters come from a ZBarcodeType).
 */
module Elements {
  import opened Wrappers
  import opened Strings
  import opened ZebraFields
  import Lexicon
  import BarcodeTypes

  /** The parameters of a barcode, in the three generations of ZebraBarcode. */
  datatype BarcodeSpec =
    | Flagged(kind: char, orientation: char, height: Option<int>, line: bool, lineAbove: bool,
              checkDigit: bool, mode: char)
    | Nullable(bcOrientation: Option<char>, bcHeight: Option<int>, bcLine: Option<char>,
               bcLineAbove: Option<char>, bcCheckDigit: Option<char>, bcMode: Option<char>)
    | Typed(barcodeType: BarcodeTypes.BarcodeType)

  /** One element of a label; every kind carries the clamped ZebraField placement it inherits. */
  datatype Field =
    | TextField(frame: Placement, data: string)
    | FontField(frame: Placement, font: char)
    | CommentField(frame: Placement, comment: string)
    | PlaceHolderField(frame: Placement, id: string)
    | BoxField(frame: Placement, thickness: int, color: char, rounding: int)
    | BarcodeConfigField(frame: Placement, ratio: string)
    | BarcodeField(frame: Placement, spec: BarcodeSpec, content: string)

  // ---------------------------------------------------------------------------------------
  // Constructors and object initializers
  // ---------------------------------------------------------------------------------------

  /** `new ZebraText(dataString)`. */
  function NewText(dataString: string := ""): (f: Field)
    ensures f.TextField? && f.frame == Origin && f.data == dataString
  {
    TextField(Origin, dataString)
  }

  /** `new ZebraFont(font)`: a fresh field has Height 0, so the constructor sets it to 30. */
  function NewFont(font: char := 'A'): (f: Field)
    ensures f.FontField? && f.font == font
    ensures f.frame == Origin.(height := 30)
  {
    FontField(AssignHeight(Origin, 30), font)
  }

  /** `new ZebraComment(comment)`; the parameterless constructor of QuickZebra gives "". */
  function NewComment(comment: string := ""): (f: Field)
    ensures f.CommentField? && f.frame == Origin && f.comment == comment
  {
    CommentField(Origin, comment)
  }

  /** `new ZebraPlaceHolder(id)`. */
  function NewPlaceHolder(id: string): (f: Field)
    ensures f.PlaceHolderField? && f.frame == Origin
    ensures Id(f) == Some(id)
  {
    PlaceHolderField(Origin, id)
  }

  /** The QuickZebra box constructor `ZebraGraphicalBox(thickness, color, rounding)`. */
  function NewBox(thickness: int := 1, color: char := 'B', rounding: int := 0): (f: Field)
    ensures f.BoxField? && f.frame == Origin
    ensures f.thickness == thickness && f.color == color && f.rounding == rounding
  {
    BoxField(Origin, thickness, color, rounding)
  }

  /**
   * The Absolute box constructor `ZebraGraphicalBox(width, height, thickness, color, rounding)`:
   * width and height go through the clamping setters, the rest is stored as given.
   */
  function NewAbsoluteBox(width: int := 0, height: int := 0, thickness: int := 1, color: char := 'B',
                          rounding: int := 0): (f: Field)
    ensures f.BoxField? && f.thickness == thickness && f.color == color && f.rounding == rounding
    ensures f.frame.width == ConfineInt(width) && f.frame.height == ConfineInt(height)
    ensures f.frame.x == 0 && f.frame.y == 0 && !f.frame.invertOnOverlap
  {
    BoxField(AssignHeight(AssignWidth(Origin, width), height), thickness, color, rounding)
  }

  /**
   * `new ZebraBarcodeConfig(width, widthRatio, height)`: the width is confined to [1, 100] and
   * the height to at least 1, then both pass the setters' own [0, 32000] clamp. The ratio is a
   * C# double; it is kept as the text it prints as ("3" for the default 3.0).
   */
  function NewBarcodeConfig(width: int := 2, widthRatio: string := "3", height: int := 10): (f: Field)
    ensures f.BarcodeConfigField? && f.ratio == widthRatio
    ensures 1 <= f.frame.width <= 100 && 1 <= f.frame.height <= MaxCoordinate
    ensures f.frame.width == ConfineInt(width, 1, 100)
    ensures f.frame.height == ConfineInt(height, 1)
    ensures f.frame.x == 0 && f.frame.y == 0 && f.frame.alignment == 0
  {
    BarcodeConfigField(AssignHeight(AssignWidth(Origin, ConfineInt(width, 1, 100)), ConfineInt(height, lower := 1)),
                       widthRatio)
  }

  /**
   * The Library/Elements barcode constructor: a missing type is Code 128 ('C'), a missing
   * orientation 'N', a missing mode 'N'; the height stays optional.
   */
  function NewFlaggedBarcode(content: string, kind: Option<char> := None, orientation: Option<char> := None,
                             height: Option<int> := None, line: bool := true, lineAbove: bool := false,
                             checkDigit: bool := false, mode: Option<char> := None): (f: Field)
    ensures f.BarcodeField? && f.frame == Origin && f.content == content && f.spec.Flagged?
    ensures (kind.None? ==> f.spec.kind == 'C') && (kind.Some? ==> f.spec.kind == kind.value)
    ensures (orientation.None? ==> f.spec.orientation == 'N') && (orientation.Some? ==> f.spec.orientation == orientation.value)
    ensures (mode.None? ==> f.spec.mode == 'N') && (mode.Some? ==> f.spec.mode == mode.value)
    ensures f.spec.height == height && f.spec.line == line && f.spec.lineAbove == lineAbove
    ensures f.spec.checkDigit == checkDigit
  {
    BarcodeField(Origin, Flagged(kind.GetOr('C'), orientation.GetOr('N'), height, line, lineAbove, checkDigit,
                                 mode.GetOr('N')), content)
  }

  /** The Absolute barcode constructor: every parameter is stored as given, missing ones stay missing. */
  function NewNullableBarcode(content: string, orientation: Option<char> := None, height: Option<int> := None,
                              line: Option<char> := None, lineAbove: Option<char> := None,
                              checkDigit: Option<char> := None, mode: Option<char> := None): (f: Field)
    ensures f.BarcodeField? && f.frame == Origin && f.content == content
    ensures f.spec == Nullable(orientation, height, line, lineAbove, checkDigit, mode)
  {
    BarcodeField(Origin, Nullable(orientation, height, line, lineAbove, checkDigit, mode), content)
  }

  /** The type `new ZBarcodeType.CODE128().Type` gives: every CODE128 setting at its default. */
  function DefaultBarcodeType(): BarcodeTypes.BarcodeType {
    BarcodeTypes.FromOptions(BarcodeTypes.Code128Options("C", "N", None, true, false, false, "N"))
  }

  /** The QuickZebra barcode constructor: a missing type is the default CODE128 type. */
  function NewTypedBarcode(content: string, barcodeType: Option<BarcodeTypes.BarcodeType> := None): (f: Field)
    ensures f.BarcodeField? && f.spec.Typed? && f.content == content
    ensures barcodeType.None? ==> f.spec.barcodeType.options == "CN,,Y,N,N,N"
  {
    BarcodeTypes.DefaultCode128Text();
    BarcodeField(Origin, Typed(barcodeType.GetOr(DefaultBarcodeType())), content)
  }

  /** The object initializer `{ X = x, Y = y, invertOnOverlap = invert }`. */
  function Placed(f: Field, x: int, y: int, invert: bool): (r: Field)
    ensures r.frame.x == ConfineInt(x) && r.frame.y == ConfineInt(y) && r.frame.invertOnOverlap == invert
    ensures r.frame.width == f.frame.width && r.frame.height == f.frame.height
    ensures r.frame.alignment == f.frame.alignment
    ensures r.(frame := f.frame) == f
  {
    f.(frame := AssignY(AssignX(f.frame, x), y).(invertOnOverlap := invert))
  }

  /** The object initializer `{ Width = width, Height = height }`. */
  function Sized(f: Field, width: int, height: int): (r: Field)
    ensures r.frame.width == ConfineInt(width) && r.frame.height == ConfineInt(height)
    ensures r.frame.x == f.frame.x && r.frame.y == f.frame.y
    ensures r.frame.alignment == f.frame.alignment && r.frame.invertOnOverlap == f.frame.invertOnOverlap
    ensures r.(frame := f.frame) == f
  {
    f.(frame := AssignHeight(AssignWidth(f.frame, width), height))
  }

  // ---------------------------------------------------------------------------------------
  // Zebrify
  // ---------------------------------------------------------------------------------------

  /** The barcode command: everything between the position and "^FD". */
  function BarcodeCommand(spec: BarcodeSpec): string {
    Lexicon.B + BarcodeParams(spec)
  }

  /**
   * What follows "^B": the type and orientation letters and the comma-led parameters. The
   * Absolute generation writes the tag "^BC", that is "^B" followed by the letter C.
   */
  function BarcodeParams(spec: BarcodeSpec): string {
    match spec
    case Flagged(kind, orientation, height, line, lineAbove, checkDigit, mode) =>
      [kind] + [orientation] + WithComma(OptionText(height))
        + WithComma(Some([ToAnswer(line)])) + WithComma(Some([ToAnswer(lineAbove)]))
        + WithComma(Some([ToAnswer(checkDigit)])) + WithComma(Some([mode]))
    case Nullable(orientation, height, line, lineAbove, checkDigit, mode) =>
      "C" + CharText(orientation) + WithComma(OptionText(height))
        + WithComma(CharOption(line)) + WithComma(CharOption(lineAbove))
        + WithComma(CharOption(checkDigit)) + WithComma(CharOption(mode))
    case Typed(t) =>
      t.options
  }

  /** `val?.ToString()` for an `int?`, as the argument WithComma receives. */
  function OptionText(v: Option<int>): Option<string> {
    match v
    case None => None
    case Some(n) => Some(IntText(n))
  }

  /** `val?.ToString()` for a `char?`. */
  function CharOption(c: Option<char>): Option<string> {
    match c
    case None => None
    case Some(ch) => Some([ch])
  }

  /** `c?.ToString()` concatenated to a string: a null char contributes nothing. */
  function CharText(c: Option<char>): string {
    CharOption(c).GetOr("")
  }

  /** `DrawGraphicalBox()`: width, height, thickness, colour and rounding after "^GB". */
  function BoxCommand(f: Field): string
    requires f.BoxField?
  {
    Lexicon.GB + BoxParams(f)
  }

  function BoxParams(f: Field): string
    requires f.BoxField?
  {
    IntText(f.frame.width) + WithComma(Some(IntText(f.frame.height)))
      + WithComma(Some(IntText(f.thickness))) + WithComma(Some([f.color])) + WithComma(Some(IntText(f.rounding)))
  }

  /** What a positioned kind puts between its position line and "^FS". */
  function Content(f: Field): string {
    match f
    case TextField(_, data) => Lexicon.FD + data
    case PlaceHolderField(_, id) => Lexicon.FD + "Placeholder: " + id
    case BoxField(_, _, _, _) => BoxCommand(f)
    case BarcodeField(_, spec, content) => BarcodeCommand(spec) + Lexicon.FD + content
    case _ => ""
  }

  /** The kinds whose Zebrify wraps the content into the field's position line. */
  predicate Positioned(f: Field) {
    f.TextField? || f.PlaceHolderField? || f.BoxField? || f.BarcodeField?
  }

  /** `Zebrify()`. Fonts, comments and barcode defaults ignore the field's position. */
  function Render(f: Field): (r: string)
    ensures Positioned(f) ==> GetPosition(f.frame) <= r && r[|r| - 3..] == Lexicon.FS
    ensures f.FontField? ==> Lexicon.CF <= r
    ensures f.CommentField? ==> Lexicon.FX <= r
    ensures f.BarcodeConfigField? ==> Lexicon.BY <= r
  {
    match f
    case FontField(frame, font) =>
      Lexicon.CF + [font] + WithComma(Some(IntText(frame.height))) + WithComma(None)
    case CommentField(_, comment) =>
      Lexicon.FX + " " + comment
    case BarcodeConfigField(frame, ratio) =>
      Lexicon.BY + IntText(frame.width) + WithComma(Some(ratio)) + WithComma(Some(IntText(frame.height)))
    case _ =>
      EncapsuleLine(f.frame, Content(f))
  }

  /** `GetId()`: only a placeholder sets the Id of its field. */
  function Id(f: Field): (r: Option<string>)
    ensures r.Some? <==> f.PlaceHolderField?
    ensures r.Some? ==> r.value == f.id
  {
    if f.PlaceHolderField? then Some(f.id) else None
  }

  /** `GetMaxDimensions()`: origin and size of the field. */
  function Dimensions(f: Field): (int, int, int, int) {
    (f.frame.x, f.frame.y, f.frame.width, f.frame.height)
  }

  // ---------------------------------------------------------------------------------------
  // What a render contains
  // ---------------------------------------------------------------------------------------

  /** Content that begins with one of the tags "^FD", "^GB" or "^B" cannot be confused with the wrapper. */
  lemma CaretContent(tag: string, rest: string)
    requires tag == Lexicon.FD || tag == Lexicon.GB || tag == Lexicon.B
    ensures !StartsWith(tag + rest, Lexicon.FR)
    ensures !IsDigit((tag + rest)[0])
  {
    var c := tag + rest;
    assert c[0] == '^';
    if |c| >= 3 {
      assert c[1] != 'F' || c[2] != 'R';
    }
  }

  lemma ContentSafe(f: Field)
    requires Positioned(f)
    ensures !StartsWith(Content(f), Lexicon.FR)
    ensures Content(f) == [] || !IsDigit(Content(f)[0])
  {
    match f
    case TextField(_, data) =>
      CaretContent(Lexicon.FD, data);
    case PlaceHolderField(_, id) =>
      assert Content(f) == Lexicon.FD + ("Placeholder: " + id);
      CaretContent(Lexicon.FD, "Placeholder: " + id);
    case BoxField(_, _, _, _) =>
      CaretContent(Lexicon.GB, BoxParams(f));
    case BarcodeField(_, spec, content) =>
      assert Content(f) == Lexicon.B + (BarcodeParams(spec) + Lexicon.FD + content);
      CaretContent(Lexicon.B, BarcodeParams(spec) + Lexicon.FD + content);
  }

  /**
   * A positioned field's render reads back as its position, its alignment, its inversion flag
   * and its content; the other kinds do not read as a position line at all.
   */
  lemma RenderReadsBack(f: Field)
    ensures Positioned(f) ==>
      ParseLine(Render(f)) == Some(LineParts(f.frame.x, f.frame.y, f.frame.alignment, f.frame.invertOnOverlap, Content(f)))
    ensures !Positioned(f) ==> ParseLine(Render(f)).None?
  {
    if Positioned(f) {
      PositionedReadsBack(f);
    } else {
      match f
      case FontField(frame, font) =>
        OtherTagNone(Lexicon.CF, [font] + WithComma(Some(IntText(frame.height))) + WithComma(None));
      case CommentField(_, comment) =>
        OtherTagNone(Lexicon.FX, " " + comment);
      case BarcodeConfigField(frame, ratio) =>
        OtherTagNone(Lexicon.BY, IntText(frame.width) + WithComma(Some(ratio)) + WithComma(Some(IntText(frame.height))));
    }
  }

  lemma PositionedReadsBack(f: Field)
    requires Positioned(f)
    ensures ParseLine(Render(f)) == Some(LineParts(f.frame.x, f.frame.y, f.frame.alignment, f.frame.invertOnOverlap, Content(f)))
  {
    ContentSafe(f);
    EncapsuleLineRoundTrip(f.frame, Content(f));
    assert Render(f) == EncapsuleLine(f.frame, Content(f));
  }

  /** A line that starts with another three-character tag than "^FO" is not a position line. */
  lemma OtherTagNone(tag: string, rest: string)
    requires |tag| == 3 && tag != Lexicon.FO
    ensures ParseLine(tag + rest).None?
  {
    assert (tag + rest)[..3] == tag;
  }

  /** A text field's data is what follows "^FD" in its content. */
  lemma TextDataReadsBack(frame: Placement, data: string)
    ensures var c := Content(TextField(frame, data)); c[..3] == Lexicon.FD && c[3..] == data
  {
  }

  /** A comment renders as "^FX", a blank and the comment text unchanged. */
  lemma CommentReadsBack(frame: Placement, comment: string)
    ensures var r := Render(CommentField(frame, comment));
      |r| == 4 + |comment| && r[..4] == "^FX " && r[4..] == comment
  {
    var r := Render(CommentField(frame, comment));
    assert r == "^FX " + comment;
  }

  /** Joining three parts with commas, written out. */
  lemma Join3(a: string, b: string, c: string)
    ensures Join([a, b, c], ",") == a + ("," + b) + ("," + c)
  {
    var p := [a, b, c];
    assert Join(p[2..], ",") == c;
    assert Join(p[1..], ",") == b + "," + c by { assert p[1..][1..] == p[2..]; }
    assert a + "," + (b + "," + c) == a + ("," + b) + ("," + c);
  }

  /** Joining five parts with commas, written out. */
  lemma Join5(p: seq<string>)
    requires |p| == 5
    ensures Join(p, ",") == p[0] + ("," + p[1]) + ("," + p[2]) + ("," + p[3]) + ("," + p[4])
  {
    assert Join(p[4..], ",") == p[4];
    assert Join(p[3..], ",") == p[3] + "," + p[4] by { assert p[3..][1..] == p[4..]; }
    assert Join(p[2..], ",") == p[2] + "," + Join(p[3..], ",") by { assert p[2..][1..] == p[3..]; }
    assert Join(p[1..], ",") == p[1] + "," + Join(p[2..], ",") by { assert p[1..][1..] == p[2..]; }
    assert p[0] + "," + (p[1] + "," + (p[2] + "," + (p[3] + "," + p[4])))
        == p[0] + ("," + p[1]) + ("," + p[2]) + ("," + p[3]) + ("," + p[4]);
  }

  /** Joining six parts with commas, written out. */
  lemma Join6(p: seq<string>)
    requires |p| == 6
    ensures Join(p, ",") == p[0] + ("," + p[1]) + ("," + p[2]) + ("," + p[3]) + ("," + p[4]) + ("," + p[5])
  {
    assert Join(p[5..], ",") == p[5];
    assert Join(p[4..], ",") == p[4] + "," + p[5] by { assert p[4..][1..] == p[5..]; }
    assert Join(p[3..], ",") == p[3] + "," + Join(p[4..], ",") by { assert p[3..][1..] == p[4..]; }
    assert Join(p[2..], ",") == p[2] + "," + Join(p[3..], ",") by { assert p[2..][1..] == p[3..]; }
    assert Join(p[1..], ",") == p[1] + "," + Join(p[2..], ",") by { assert p[1..][1..] == p[2..]; }
    assert p[0] + "," + (p[1] + "," + (p[2] + "," + (p[3] + "," + (p[4] + "," + p[5]))))
        == p[0] + ("," + p[1]) + ("," + p[2]) + ("," + p[3]) + ("," + p[4]) + ("," + p[5]);
  }

  /** A font renders as "^CF", the font letter, its height, and an empty width segment. */
  lemma FontSegments(frame: Placement, font: char)
    requires font != ','
    ensures Split(Render(FontField(frame, font)), ',') == [Lexicon.CF + [font], NatText(frame.height), ""]
  {
    var h := NatText(frame.height);
    DigitsExclude(h, ',');
    assert Render(FontField(frame, font)) == Lexicon.CF + [font] + ("," + h) + ("," + "");
    Join3(Lexicon.CF + [font], h, "");
    SplitJoin([Lexicon.CF + [font], h, ""], ',');
  }

  /** Barcode defaults render as "^BY", the width, the ratio and the height. */
  lemma BarcodeConfigSegments(frame: Placement, ratio: string)
    requires ',' !in ratio
    ensures Split(Render(BarcodeConfigField(frame, ratio)), ',')
         == [Lexicon.BY + NatText(frame.width), ratio, NatText(frame.height)]
  {
    var w, h := NatText(frame.width), NatText(frame.height);
    DigitsExclude(w, ',');
    DigitsExclude(h, ',');
    assert ',' !in Lexicon.BY + w;
    assert Render(BarcodeConfigField(frame, ratio)) == Lexicon.BY + w + ("," + ratio) + ("," + h);
    Join3(Lexicon.BY + w, ratio, h);
    SplitJoin([Lexicon.BY + w, ratio, h], ',');
  }

  /** The box command has five segments: width, height, thickness, colour and rounding. */
  lemma BoxSegments(f: Field)
    requires f.BoxField? && f.color != ','
    ensures Split(BoxCommand(f), ',')
         == [Lexicon.GB + NatText(f.frame.width), NatText(f.frame.height), IntText(f.thickness), [f.color],
             IntText(f.rounding)]
  {
    var parts := [Lexicon.GB + NatText(f.frame.width), NatText(f.frame.height), IntText(f.thickness), [f.color],
                  IntText(f.rounding)];
    BoxJoin(f);
    forall i | 0 <= i < |parts|
      ensures ',' !in parts[i]
    {
      if i == 0 {
        DigitsExclude(NatText(f.frame.width), ',');
        assert ',' !in Lexicon.GB;
      } else if i == 1 {
        DigitsExclude(NatText(f.frame.height), ',');
      } else if i == 2 {
        BarcodeTypes.IntTextFacts(f.thickness);
      } else if i == 4 {
        BarcodeTypes.IntTextFacts(f.rounding);
      }
    }
    SplitJoin(parts, ',');
  }

  lemma BoxJoin(f: Field)
    requires f.BoxField?
    ensures BoxCommand(f) == Join([Lexicon.GB + NatText(f.frame.width), NatText(f.frame.height), IntText(f.thickness),
                                   [f.color], IntText(f.rounding)], ",")
  {
    var w, h, t, r := NatText(f.frame.width), NatText(f.frame.height), IntText(f.thickness), IntText(f.rounding);
    var parts := [Lexicon.GB + w, h, t, [f.color], r];
    var c1, c2, c3, c4 := "," + h, "," + t, "," + [f.color], "," + r;
    assert BoxParams(f) == w + c1 + c2 + c3 + c4 by {
      assert IntText(f.frame.width) == w && IntText(f.frame.height) == h;
    }
    assert Lexicon.GB + (w + c1 + c2 + c3 + c4) == (Lexicon.GB + w) + c1 + c2 + c3 + c4;
    Join5(parts);
  }

  /**
   * The Library barcode command has six segments: "^B" with type and orientation letters, the
   * height (empty when not given), the three flags as Y/N, and the mode letter.
   */
  lemma FlaggedSegments(kind: char, orientation: char, height: Option<int>, line: bool, lineAbove: bool,
                        checkDigit: bool, mode: char)
    requires kind != ',' && orientation != ',' && mode != ','
    ensures var parts := Split(BarcodeCommand(Flagged(kind, orientation, height, line, lineAbove, checkDigit, mode)), ',');
      && |parts| == 6
      && parts[0] == Lexicon.B + [kind, orientation]
      && parts[1] == OptionText(height).GetOr("")
      && (parts[1] == "" <==> height.None?)
      && (height.Some? ==> parts[1] == IntText(height.value))
      && (parts[2] == "Y" <==> line)
      && (parts[3] == "Y" <==> lineAbove)
      && (parts[4] == "Y" <==> checkDigit)
      && parts[5] == [mode]
  {
    var ht := OptionText(height).GetOr("");
    var parts := [Lexicon.B + [kind, orientation], ht, [ToAnswer(line)], [ToAnswer(lineAbove)],
                  [ToAnswer(checkDigit)], [mode]];
    FlaggedJoin(kind, orientation, height, line, lineAbove, checkDigit, mode);
    forall i | 0 <= i < |parts|
      ensures ',' !in parts[i]
    {
      if i == 0 {
        assert parts[0] == ['^', 'B', kind, orientation];
      } else if i == 1 {
        BarcodeTypes.IntTextFacts(height.GetOr(0));
      }
    }
    SplitJoin(parts, ',');
    assert ht == "" <==> height.None?;
  }

  lemma FlaggedJoin(kind: char, orientation: char, height: Option<int>, line: bool, lineAbove: bool,
                    checkDigit: bool, mode: char)
    ensures BarcodeCommand(Flagged(kind, orientation, height, line, lineAbove, checkDigit, mode))
         == Join([Lexicon.B + [kind, orientation], OptionText(height).GetOr(""), [ToAnswer(line)],
                  [ToAnswer(lineAbove)], [ToAnswer(checkDigit)], [mode]], ",")
  {
    var parts := [Lexicon.B + [kind, orientation], OptionText(height).GetOr(""), [ToAnswer(line)],
                  [ToAnswer(lineAbove)], [ToAnswer(checkDigit)], [mode]];
    var c1, c2, c3, c4, c5 := "," + parts[1], "," + parts[2], "," + parts[3], "," + parts[4], "," + parts[5];
    assert BarcodeParams(Flagged(kind, orientation, height, line, lineAbove, checkDigit, mode))
        == [kind] + [orientation] + c1 + c2 + c3 + c4 + c5;
    Regroup(Lexicon.B, [kind] + [orientation], c1, c2, c3, c4, c5);
    assert Lexicon.B + ([kind] + [orientation]) == parts[0];
    Join6(parts);
  }

  /** Moving the tag into the first segment. */
  lemma Regroup(tag: string, head: string, c1: string, c2: string, c3: string, c4: string, c5: string)
    ensures tag + (head + c1 + c2 + c3 + c4 + c5) == (tag + head) + c1 + c2 + c3 + c4 + c5
  {
  }

  /**
   * The Absolute barcode command has six segments after "^BC": orientation, height, the three
   * flags and the mode, each empty when not given.
   */
  lemma NullableSegments(orientation: Option<char>, height: Option<int>, line: Option<char>,
                         lineAbove: Option<char>, checkDigit: Option<char>, mode: Option<char>)
    requires orientation != Some(',') && line != Some(',') && lineAbove != Some(',')
    requires checkDigit != Some(',') && mode != Some(',')
    ensures var parts := Split(BarcodeCommand(Nullable(orientation, height, line, lineAbove, checkDigit, mode)), ',');
      && |parts| == 6
      && parts[0] == Lexicon.BC + CharText(orientation)
      && parts[1] == OptionText(height).GetOr("")
      && (parts[1] == "" <==> height.None?)
      && (height.Some? ==> parts[1] == IntText(height.value))
      && parts[2] == CharText(line) && parts[3] == CharText(lineAbove)
      && parts[4] == CharText(checkDigit) && parts[5] == CharText(mode)
  {
    var ht := OptionText(height).GetOr("");
    var parts := [Lexicon.BC + CharText(orientation), ht, CharText(line),
                  CharText(lineAbove), CharText(checkDigit), CharText(mode)];
    NullableJoin(orientation, height, line, lineAbove, checkDigit, mode);
    forall i | 0 <= i < |parts|
      ensures ',' !in parts[i]
    {
      if i == 0 {
        CharTextNoComma(orientation);
        assert ',' !in Lexicon.BC;
      } else if i == 1 {
        BarcodeTypes.IntTextFacts(height.GetOr(0));
      } else {
        CharTextNoComma([line, lineAbove, checkDigit, mode][i - 2]);
      }
    }
    SplitJoin(parts, ',');
    assert ht == "" <==> height.None?;
  }

  lemma CharTextNoComma(c: Option<char>)
    requires c != Some(',')
    ensures ',' !in CharText(c)
  {
  }

  lemma NullableJoin(orientation: Option<char>, height: Option<int>, line: Option<char>,
                     lineAbove: Option<char>, checkDigit: Option<char>, mode: Option<char>)
    ensures BarcodeCommand(Nullable(orientation, height, line, lineAbove, checkDigit, mode))
         == Join([Lexicon.BC + CharText(orientation), OptionText(height).GetOr(""), CharText(line),
                  CharText(lineAbove), CharText(checkDigit), CharText(mode)], ",")
  {
    var parts := [Lexicon.BC + CharText(orientation), OptionText(height).GetOr(""), CharText(line),
                  CharText(lineAbove), CharText(checkDigit), CharText(mode)];
    var c1, c2, c3, c4, c5 := "," + parts[1], "," + parts[2], "," + parts[3], "," + parts[4], "," + parts[5];
    assert BarcodeParams(Nullable(orientation, height, line, lineAbove, checkDigit, mode))
        == "C" + CharText(orientation) + c1 + c2 + c3 + c4 + c5;
    Regroup(Lexicon.B, "C" + CharText(orientation), c1, c2, c3, c4, c5);
    assert Lexicon.B + ("C" + CharText(orientation)) == parts[0];
    Join6(parts);
  }

  /** A placeholder renders at the origin as "^FO0,0,0^FDPlaceholder: " and its id. */
  lemma PlaceHolderLine(id: string)
    ensures Render(NewPlaceHolder(id)) == "^FO0,0,0" + (Lexicon.FD + "Placeholder: " + id) + Lexicon.FS
  {
    var f := NewPlaceHolder(id);
    OriginLine(Content(f));
    assert Render(f) == EncapsuleLine(Origin, Content(f));
  }
}
