/**
 * The ZebraLabel of Absolute/ZebraLabel.cs. Its field list is private; some builders return a
 * new list with one more field and leave the label as it is, the others change the label.
 */
module AbsoluteLabel {
  import opened Wrappers
  import opened Strings
  import opened ZebraFields
  import opened Elements
  import opened TextLists
  import opened LabelSpec
  import QuickLabel
  import Lexicon

  /**
   * The box `DrawBox(loc, (width, height, thickness), color, rounding, invert)` appends as
   * written: the Absolute box constructor takes `(width, height, thickness, color, rounding)`,
   * so the positional call `(dims.thickness, color, rounding)` makes the thickness the width,
   * the colour's character code the height and the rounding the thickness, and leaves colour
   * and rounding at 'B' and 0. The initializer then overwrites width and height.
   */
  function BoxAsWritten(loc: (int, int), dims: (int, int, int), color: char, rounding: int, invert: bool): Field {
    Placed(Sized(NewAbsoluteBox(dims.2, color as int, rounding), dims.0, dims.1), loc.0, loc.1, invert)
  }

  /** The box the call evidently means: thickness, colour and rounding passed by name. */
  function BoxIntended(loc: (int, int), dims: (int, int, int), color: char, rounding: int, invert: bool): (f: Field)
    ensures f.BoxField? && f.thickness == dims.2 && f.color == color && f.rounding == rounding
    ensures f.frame.width == ConfineInt(dims.0) && f.frame.height == ConfineInt(dims.1)
    ensures f.frame.x == ConfineInt(loc.0) && f.frame.y == ConfineInt(loc.1)
    ensures f.frame.invertOnOverlap == invert
  {
    Placed(Sized(NewAbsoluteBox(thickness := dims.2, color := color, rounding := rounding), dims.0, dims.1),
           loc.0, loc.1, invert)
  }

  /** As written, the box always has colour 'B' and rounding 0, and the rounding as its thickness. */
  lemma BoxAsWrittenLosesStyle(loc: (int, int), dims: (int, int, int), color: char, rounding: int, invert: bool)
    ensures var f := BoxAsWritten(loc, dims, color, rounding, invert);
      f.BoxField? && f.thickness == rounding && f.color == 'B' && f.rounding == 0
    ensures var f := BoxAsWritten(loc, dims, color, rounding, invert);
      f.frame == BoxIntended(loc, dims, color, rounding, invert).frame
  {
  }

  /**
   * A white box with border 3 (`DrawBox((0, 0), (10, 10, 3), 'W')`) comes out black with
   * border 0: "^GB10,10,0,B,0" instead of "^GB10,10,3,W,0".
   */
  lemma BoxAsWrittenCounterexample()
    ensures Split(Content(BoxAsWritten((0, 0), (10, 10, 3), 'W', 0, false)), ',') == ["^GB10", "10", "0", "B", "0"]
    ensures Split(Content(BoxIntended((0, 0), (10, 10, 3), 'W', 0, false)), ',') == ["^GB10", "10", "3", "W", "0"]
  {
    var written := BoxAsWritten((0, 0), (10, 10, 3), 'W', 0, false);
    var intended := BoxIntended((0, 0), (10, 10, 3), 'W', 0, false);
    assert NatText(10) == "10" by { assert NatText(1) == "1"; }
    assert IntText(10) == "10" && IntText(0) == "0" && IntText(3) == "3";
    BoxSegments(written);
    BoxSegments(intended);
    assert Lexicon.GB + "10" == "^GB10";
  }

  /** The intended box keeps its style: its `^GB` parameters read back as given. */
  lemma BoxIntendedKeepsStyle(loc: (int, int), dims: (int, int, int), color: char, rounding: int, invert: bool)
    requires color != ','
    ensures Split(Content(BoxIntended(loc, dims, color, rounding, invert)), ',')
         == [Lexicon.GB + IntText(ConfineInt(dims.0)), IntText(ConfineInt(dims.1)), IntText(dims.2), [color],
             IntText(rounding)]
  {
    BoxSegments(BoxIntended(loc, dims, color, rounding, invert));
  }

  /** The barcode field `DrawBarCode(content, x, y, orientation, ...)` appends. */
  function NullableBarcodeAt(content: string, x: int, y: int, orientation: Option<char>, height: Option<int>,
                             line: Option<char>, lineAbove: Option<char>, checkDigit: Option<char>,
                             mode: Option<char>, invert: bool): (f: Field)
    ensures f.BarcodeField? && f.content == content
    ensures f.spec == Nullable(orientation, height, line, lineAbove, checkDigit, mode)
    ensures f.frame == Frame(ConfineInt(x), ConfineInt(y), 0, 0, 0, invert)
  {
    Placed(NewNullableBarcode(content, orientation, height, line, lineAbove, checkDigit, mode), x, y, invert)
  }

  class ZebraLabel {
    var fields: seq<Field>
    var density: int
    var quality: char
    var width: int
    var height: int
    var padding: int

    constructor (labelDensity: int := 8, labelQuality: char := 'G', labelWidth: int := 4, labelHeight: int := 6,
                 labelPadding: int := 0)
      ensures fields == []
      ensures density == labelDensity && quality == labelQuality
      ensures width == labelWidth && height == labelHeight && padding == labelPadding
    {
      fields := [];
      density, quality := labelDensity, labelQuality;
      width, height, padding := labelWidth, labelHeight, labelPadding;
    }

    method AddField(field: Field)
      modifies this`fields
      ensures fields == old(fields) + [field]
    {
      fields := fields + [field];
    }

    /** `AddFields(fieldList)`: one `Add` per field, in order. */
    method AddFields(fieldList: seq<Field>)
      modifies this`fields
      ensures fields == old(fields) + fieldList
    {
      var i := 0;
      while i < |fieldList|
        invariant 0 <= i <= |fieldList|
        invariant fields == old(fields) + fieldList[..i]
      {
        AddField(fieldList[i]);
        assert fieldList[..i + 1] == fieldList[..i] + [fieldList[i]];
        i := i + 1;
      }
      assert fieldList[..|fieldList|] == fieldList;
    }

    /** `AddText(text, loc, invertIfOverlap)`: a new list with the text at the end; the label keeps its fields. */
    method AddText(text: string, loc: (int, int), invertIfOverlap: bool := false) returns (r: seq<Field>)
      ensures r == fields + [QuickLabel.TextAt(text, loc, invertIfOverlap)]
    {
      r := fields + [Placed(NewText(text), loc.0, loc.1, invertIfOverlap)];
    }

    /** `AddMultipleText(dataStrings, loc, incr, invertIfOverlap)`: changes the label and returns its list. */
    method AddMultipleText(dataStrings: seq<string>, loc: (Option<int>, Option<int>), incr: (Option<int>, Option<int>),
                           invertIfOverlap: bool := false) returns (r: seq<Field>)
      requires IsInt32(loc.0.GetOr(0)) && IsInt32(loc.1.GetOr(0))
      requires IsInt32(incr.0.GetOr(0)) && IsInt32(incr.1.GetOr(40))
      modifies this`fields
      ensures fields == old(fields) + Column(dataStrings, loc.0.GetOr(0), loc.1.GetOr(0), incr.0.GetOr(0),
                                             incr.1.GetOr(40), 0, invertIfOverlap)
      ensures r == fields
    {
      var column := FromList(dataStrings, loc.0.GetOr(0), loc.1.GetOr(0), incr.0.GetOr(0), incr.1.GetOr(40),
                             invertIfOverlap);
      fields := fields + column;
      r := fields;
    }

    /** `SetFont((height, width), font)`: a new list ending in the font; height 30 and width 0 when missing. */
    method SetFontDims(dims: (Option<int>, Option<int>), font: char := 'A') returns (r: seq<Field>)
      ensures r == fields + [QuickLabel.FontOf(font, dims.1.GetOr(0), dims.0.GetOr(30))]
    {
      r := fields + [Sized(NewFont(font), dims.1.GetOr(0), dims.0.GetOr(30))];
    }

    /** `SetFont(font)`: a new list ending in the font, 30 dots high. */
    method SetFont(font: char := 'A') returns (r: seq<Field>)
      ensures r == fields + [QuickLabel.FontOf(font, 0, 30)]
    {
      r := fields + [Sized(NewFont(font), 0, 30)];
    }

    /** `AddComment(comment)`: a new list ending in the comment. */
    method AddComment(comment: string) returns (r: seq<Field>)
      ensures r == fields + [NewComment(comment)]
    {
      r := fields + [NewComment(comment)];
    }

    /**
     * `DrawBox(loc, dims, color, rounding, invertIfOverlap)` as written: the constructor
     * arguments bind positionally, so colour and rounding are lost (see `BoxAsWrittenLosesStyle`).
     */
    method DrawBox(loc: (int, int), dims: (int, int, int), color: char := 'B', rounding: int := 0,
                   invertIfOverlap: bool := false)
      modifies this`fields
      ensures fields == old(fields) + [BoxAsWritten(loc, dims, color, rounding, invertIfOverlap)]
    {
      var box := NewAbsoluteBox(dims.2, color as int, rounding);
      AddField(Placed(Sized(box, dims.0, dims.1), loc.0, loc.1, invertIfOverlap));
    }

    /** `DrawBox` with the constructor arguments passed by name, as evidently intended. */
    method DrawBoxIntended(loc: (int, int), dims: (int, int, int), color: char := 'B', rounding: int := 0,
                           invertIfOverlap: bool := false)
      modifies this`fields
      ensures fields == old(fields) + [BoxIntended(loc, dims, color, rounding, invertIfOverlap)]
    {
      var box := NewAbsoluteBox(thickness := dims.2, color := color, rounding := rounding);
      AddField(Placed(Sized(box, dims.0, dims.1), loc.0, loc.1, invertIfOverlap));
    }

    method SetPlaceHolder(id: string)
      modifies this`fields
      ensures fields == old(fields) + [NewPlaceHolder(id)]
    {
      AddField(NewPlaceHolder(id));
    }

    /** `ConfigureBarcode(width, widthRatio, height)`. */
    method ConfigureBarcode(barWidth: int := 2, widthRatio: string := "3", barHeight: int := 10)
      modifies this`fields
      ensures fields == old(fields) + [NewBarcodeConfig(barWidth, widthRatio, barHeight)]
    {
      AddField(NewBarcodeConfig(barWidth, widthRatio, barHeight));
    }

    method DrawBarCode(content: string, x: int := 0, y: int := 0, orientation: Option<char> := None,
                       barcodeHeight: Option<int> := None, line: Option<char> := None,
                       lineAbove: Option<char> := None, checkDigit: Option<char> := None,
                       mode: Option<char> := None, invertIfOverlap: bool := false)
      modifies this`fields
      ensures fields == old(fields) + [NullableBarcodeAt(content, x, y, orientation, barcodeHeight, line, lineAbove,
                                                          checkDigit, mode, invertIfOverlap)]
    {
      var barcode := NewNullableBarcode(content, orientation, barcodeHeight, line, lineAbove, checkDigit, mode);
      AddField(Placed(barcode, x, y, invertIfOverlap));
    }

    /** `ReplaceHolder(id, insertFields)`, as in the Library label. */
    method ReplaceHolder(id: string, insertFields: seq<Field>) returns (r: seq<Field>)
      modifies this`fields
      ensures fields == Replaced(old(fields), id, insertFields) && r == fields
    {
      fields := ReplaceHolderIn(fields, id, insertFields);
      r := fields;
    }

    function GetLabelString(wrap: bool := true, newlined: bool := false): (r: string)
      reads this
      ensures r == LabelString(fields, wrap, newlined)
      ensures wrap && !newlined ==> r == Lexicon.XA + LabelString(fields, false, false) + Lexicon.XZ
      ensures fields == [] && wrap && !newlined ==> r == "^XA^XZ"
    {
      WrappedLabelString(fields);
      EmptyLabelString();
      LabelString(fields, wrap, newlined)
    }

    /** The checks of `CallLabelary(zplCode, labelFormat)` before any request: only the format. */
    method CallLabelary(zplCode: string, labelFormat: string := "pdf") returns (outcome: Outcome)
      ensures outcome == FormatCheck(labelFormat)
    {
      if !ValidFormat(labelFormat) {
        return InvalidFormat;
      }
      outcome := Send;
    }
  }
}
