/**
 * The QuickZebra label (Library/QuickZebra/QuickZebra/ZebraLabel.cs): a list of fields that the
 * builder methods append to, the label string made from it, the maximum used location and the
 * checks `CallLabelary` makes before it sends the string away. The root ZebraLabel.cs is the
 * same class up to its last members, so this class models both; its format-only `CallLabelary`
 * is `CallLabelaryFormatOnly`.
 */
module QuickLabel {
  import opened Wrappers
  import opened Strings
  import opened ZebraFields
  import opened Elements
  import opened TextLists
  import opened LabelSpec
  import BarcodeTypes
  import Lexicon

  /** `ZResolution.M8`, the default print density in dots per millimetre. */
  const DefaultDpu: int := 8

  /** `(4, 6, false)`: a 4 by 6 inch label. */
  const DefaultDims: (int, int, bool) := (4, 6, false)

  /** The label size in whole inches: metric sizes go through `MmToNextInch`. */
  function Inches(dims: (int, int, bool)): (r: (int, int))
    ensures !dims.2 ==> r == (dims.0, dims.1)
    ensures dims.2 && dims.0 >= 0 ==> (r.0 - 1) * 127 <= dims.0 * 5 < r.0 * 127
    ensures dims.2 && dims.1 >= 0 ==> (r.1 - 1) * 127 <= dims.1 * 5 < r.1 * 127
    ensures dims.2 && dims.0 < 0 ==> (1 - r.0) * 127 <= -dims.0 * 5 < (2 - r.0) * 127 && r.0 <= 1
    ensures dims.2 && dims.1 < 0 ==> (1 - r.1) * 127 <= -dims.1 * 5 < (2 - r.1) * 127 && r.1 <= 1
  {
    if dims.2 then (MmToNextInch(dims.0), MmToNextInch(dims.1)) else (dims.0, dims.1)
  }

  /** The text field `AddText(text, loc, invertIfOverlap)` appends. */
  function TextAt(text: string, loc: (int, int), invert: bool): Field {
    Placed(NewText(text), loc.0, loc.1, invert)
  }

  /** The font field `SetFont(font, width, height)` appends; its `^CF` carries only the height. */
  function FontOf(font: char, width: int, height: int): Field {
    Sized(NewFont(font), width, height)
  }

  /** The box `DrawBox(loc, (width, height, thickness), color, rounding, invert)` appends. */
  function BoxAt(loc: (int, int), width: int, height: int, thickness: int, color: char, rounding: int,
                 invert: bool): Field {
    Placed(Sized(NewBox(thickness, color, rounding), width, height), loc.0, loc.1, invert)
  }

  /** The integer of a `(int? x, int? y)?` increment, with the default for a missing part. */
  function Increment(incr: Option<(Option<int>, Option<int>)>, pick: bool, default: int): int {
    match incr
    case None => default
    case Some(pair) => if pick then pair.0.GetOr(default) else pair.1.GetOr(default)
  }

  /**
   * The fields `DrawBarCode(content, loc, dims, type, invert)` appends: a configuration when
   * `dims` is given (width 2, ratio 3 and height 10 for missing parts), then the barcode.
   */
  function BarcodeFields(content: string, loc: (Option<int>, Option<int>),
                         dims: Option<(Option<int>, Option<int>, Option<string>)>,
                         barcodeType: Option<BarcodeTypes.BarcodeType>, invert: bool): (r: seq<Field>)
    ensures |r| == if dims.Some? then 2 else 1
    ensures r[|r| - 1] == Placed(NewTypedBarcode(content, barcodeType), loc.0.GetOr(0), loc.1.GetOr(0), invert)
    ensures dims.Some? ==> r[0] == NewBarcodeConfig(dims.value.0.GetOr(2), dims.value.2.GetOr("3"), dims.value.1.GetOr(10))
  {
    var barcode := Placed(NewTypedBarcode(content, barcodeType), loc.0.GetOr(0), loc.1.GetOr(0), invert);
    match dims
    case None => [barcode]
    case Some(d) => [NewBarcodeConfig(d.0.GetOr(2), d.2.GetOr("3"), d.1.GetOr(10)), barcode]
  }

  class ZebraLabel {
    var fields: seq<Field>
    var dpu: int
    var quality: string
    var width: int
    var height: int
    var metric: bool
    var padding: int

    /**
     * `new ZebraLabel(dpu, quality, dims, padding)`: 4 by 6 inches, 8 dots per millimetre and
     * grayscale unless given; a metric size is turned into whole inches, the flag is kept.
     */
    constructor (dpuOption: Option<int> := None, qualityOption: Option<string> := None,
                 dims: Option<(int, int, bool)> := None, labelPadding: int := 0)
      ensures fields == []
      ensures (width, height) == Inches(dims.GetOr(DefaultDims)) && metric == dims.GetOr(DefaultDims).2
      ensures dpu == dpuOption.GetOr(DefaultDpu) && quality == qualityOption.GetOr("G")
      ensures padding == labelPadding
    {
      var d := dims.GetOr(DefaultDims);
      fields := [];
      metric := d.2;
      if d.2 {
        width, height := MmToNextInch(d.0), MmToNextInch(d.1);
      } else {
        width, height := d.0, d.1;
      }
      dpu := dpuOption.GetOr(DefaultDpu);
      quality := qualityOption.GetOr("G");
      padding := labelPadding;
    }

    /** `AddField(field)`. */
    method AddField(field: Field)
      modifies this`fields
      ensures fields == old(fields) + [field]
    {
      fields := fields + [field];
    }

    /** `AddFields(fieldList)`: `List.AddRange`, which also copies a list into itself. */
    method AddFields(fieldList: seq<Field>)
      modifies this`fields
      ensures fields == old(fields) + fieldList
    {
      fields := fields + fieldList;
    }

    method AddText(text: string, loc: (int, int), invertIfOverlap: bool := false)
      modifies this`fields
      ensures fields == old(fields) + [TextAt(text, loc, invertIfOverlap)]
    {
      AddField(Placed(NewText(text), loc.0, loc.1, invertIfOverlap));
    }

    /** `AddMultipleText(dataStrings, loc, incr, invertIfOverlap)`; a missing increment is (0, 40). */
    method AddMultipleText(dataStrings: seq<string>, loc: (int, int),
                           incr: Option<(Option<int>, Option<int>)> := None, invertIfOverlap: bool := false)
      requires IsInt32(loc.0) && IsInt32(loc.1)
      requires IsInt32(Increment(incr, true, 0)) && IsInt32(Increment(incr, false, 40))
      modifies this`fields
      ensures fields == old(fields) + Column(dataStrings, loc.0, loc.1, Increment(incr, true, 0),
                                             Increment(incr, false, 40), 0, invertIfOverlap)
    {
      var column := FromList(dataStrings, loc.0, loc.1, Increment(incr, true, 0), Increment(incr, false, 40),
                             invertIfOverlap);
      fields := fields + column;
    }

    /** The overload `AddMultipleText(dataStrings, loc, down, invertIfOverlap)`: straight down. */
    method AddMultipleTextDown(dataStrings: seq<string>, loc: (int, int), down: int, invertIfOverlap: bool := false)
      requires IsInt32(loc.0) && IsInt32(loc.1) && IsInt32(down)
      modifies this`fields
      ensures fields == old(fields) + Column(dataStrings, loc.0, loc.1, 0, down, 0, invertIfOverlap)
    {
      var column := FromList(dataStrings, loc.0, loc.1, 0, down, invertIfOverlap);
      fields := fields + column;
    }

    method SetFont(font: char := 'A', fontWidth: int := 0, fontHeight: int := 30)
      modifies this`fields
      ensures fields == old(fields) + [FontOf(font, fontWidth, fontHeight)]
    {
      AddField(Sized(NewFont(font), fontWidth, fontHeight));
    }

    method AddComment(comment: string)
      modifies this`fields
      ensures fields == old(fields) + [NewComment(comment)]
    {
      AddField(NewComment(comment));
    }

    /** `DrawBox(loc, (width, height, thickness), color, rounding, invertIfOverlap)`. */
    method DrawBox(loc: (int, int), dims: (int, int, int), color: char := 'B', rounding: int := 0,
                   invertIfOverlap: bool := false)
      modifies this`fields
      ensures fields == old(fields) + [BoxAt(loc, dims.0, dims.1, dims.2, color, rounding, invertIfOverlap)]
    {
      var box := NewBox(dims.2, color, rounding);
      AddField(Placed(Sized(box, dims.0, dims.1), loc.0, loc.1, invertIfOverlap));
    }

    /** The overload `DrawBox(loc, dims, ...)` with one integer: a square whose thickness is its side. */
    method DrawSquare(loc: (int, int), dims: int, color: char := 'B', rounding: int := 0,
                      invertIfOverlap: bool := false)
      modifies this`fields
      ensures fields == old(fields) + [BoxAt(loc, dims, dims, dims, color, rounding, invertIfOverlap)]
    {
      var box := NewBox(dims, color, rounding);
      AddField(Placed(Sized(box, dims, dims), loc.0, loc.1, invertIfOverlap));
    }

    /** `ConfigureBarcode((width, height), widthRatio)`: width 2 and height 10 when missing. */
    method ConfigureBarcode(dims: (Option<int>, Option<int>), widthRatio: string := "3")
      modifies this`fields
      ensures fields == old(fields) + [NewBarcodeConfig(dims.0.GetOr(2), widthRatio, dims.1.GetOr(10))]
    {
      AddField(NewBarcodeConfig(dims.0.GetOr(2), widthRatio, dims.1.GetOr(10)));
    }

    method DrawBarCode(content: string, loc: (Option<int>, Option<int>),
                       dims: Option<(Option<int>, Option<int>, Option<string>)> := None,
                       barcodeType: Option<BarcodeTypes.BarcodeType> := None, invertIfOverlap: bool := false)
      modifies this`fields
      ensures fields == old(fields) + BarcodeFields(content, loc, dims, barcodeType, invertIfOverlap)
    {
      if dims.Some? {
        var d := dims.value;
        AddField(NewBarcodeConfig(d.0.GetOr(2), d.2.GetOr("3"), d.1.GetOr(10)));
      }
      AddField(Placed(NewTypedBarcode(content, barcodeType), loc.0.GetOr(0), loc.1.GetOr(0), invertIfOverlap));
    }

    /** `MergeLabels(label)`: the other label's fields as they are now; merging a label into itself doubles it. */
    method MergeLabel(other: ZebraLabel)
      modifies this`fields
      ensures fields == old(fields) + old(other.fields)
    {
      AddFields(other.fields);
    }

    /**
     * `MergeLabels(labels)`: each label's fields in list order. A label that is this label
     * contributes the fields collected so far.
     */
    method MergeLabels(labels: seq<ZebraLabel>)
      modifies this`fields
      ensures fields == Merged(this, old(fields), labels)
    {
      var i := 0;
      while i < |labels|
        invariant 0 <= i <= |labels|
        invariant fields == Merged(this, old(fields), labels[..i])
      {
        assert labels[..i + 1][..i] == labels[..i];
        AddFields(labels[i].fields);
        i := i + 1;
      }
      assert labels[..|labels|] == labels;
    }

    /** `GetLabelString(wrap, newlined)`. */
    function GetLabelString(wrap: bool := true, newlined: bool := false): (r: string)
      reads this
      ensures r == LabelString(fields, wrap, newlined)
      ensures wrap && !newlined ==> r == Lexicon.XA + LabelString(fields, false, false) + Lexicon.XZ
      ensures fields == [] && wrap && !newlined ==> r == "^XA^XZ"
    {
      WrappedLabelString(fields);
      EmptyLabelString();
      LabelString(fields, wrap, newlined)
    }

    /**
     * The checks of `CallLabelary(zplCode, labelFormat, borderCheck)` before any request:
     * `maxDots` is what `GetMaxDots` gives for the label's size and density.
     */
    method CallLabelary(zplCode: string, maxDots: (int, int), labelFormat: string := "pdf",
                        borderCheck: bool := false) returns (outcome: Outcome)
      ensures outcome == Preflight((ScanAll(fields).xMax, ScanAll(fields).yMax), maxDots, labelFormat, borderCheck)
    {
      var xMax, yMax := GetMaxLocation(fields);
      var within := CheckWithinBounds(maxDots, (xMax, yMax));
      if within || !borderCheck {
        if !ValidFormat(labelFormat) {
          return InvalidFormat;
        }
        outcome := Send;
      } else if !within && borderCheck {
        outcome := BoundsExceeded(xMax, yMax, maxDots.0, maxDots.1);
      } else {
        assert false;
      }
    }

    /** The `CallLabelary(zplCode, labelFormat)` of the root ZebraLabel.cs: only the format is checked. */
    method CallLabelaryFormatOnly(zplCode: string, labelFormat: string := "pdf") returns (outcome: Outcome)
      ensures outcome == FormatCheck(labelFormat)
    {
      if !ValidFormat(labelFormat) {
        return InvalidFormat;
      }
      outcome := Send;
    }
  }

  /** The fields after `labels.ForEach(label => AddFields(label.Fields))` on `self`, starting from `acc`. */
  function Merged(self: ZebraLabel, acc: seq<Field>, labels: seq<ZebraLabel>): seq<Field>
    reads set l | l in labels && l != self
  {
    if |labels| == 0 then acc
    else
      var before := Merged(self, acc, labels[..|labels| - 1]);
      var last := labels[|labels| - 1];
      before + (if last == self then before else last.fields)
  }

  /** The fields of all labels one after the other. */
  function Concatenated(labels: seq<ZebraLabel>): seq<Field>
    reads set l | l in labels
  {
    if |labels| == 0 then [] else Concatenated(labels[..|labels| - 1]) + labels[|labels| - 1].fields
  }

  /** Merging labels other than the receiver appends their fields in list order. */
  lemma {:induction false} MergedOthers(self: ZebraLabel, acc: seq<Field>, labels: seq<ZebraLabel>)
    requires self !in labels
    ensures Merged(self, acc, labels) == acc + Concatenated(labels)
  {
    if |labels| > 0 {
      var prefix := labels[..|labels| - 1];
      assert self !in prefix;
      MergedOthers(self, acc, prefix);
    }
  }

  /** Merging a label into itself once doubles its fields; twice in a row quadruples them. */
  lemma MergedSelf(self: ZebraLabel, acc: seq<Field>)
    ensures Merged(self, acc, [self]) == acc + acc
    ensures Merged(self, acc, [self, self]) == acc + acc + acc + acc
  {
    assert [self, self][..1] == [self];
    assert [self][..0] == [];
  }

  /**
   * `GetMaxLocation(fields)`: one pass over the fields that remembers the last font size and
   * keeps the largest right and bottom edge seen.
   */
  method GetMaxLocation(fs: seq<Field>) returns (xMax: int, yMax: int)
    ensures xMax == ScanAll(fs).xMax && yMax == ScanAll(fs).yMax
  {
    xMax, yMax := 0, 0;
    var font := (0, 0);
    var i := 0;
    while i < |fs|
      invariant 0 <= i <= |fs|
      invariant Scan(xMax, yMax, font.0, font.1) == ScanAll(fs[..i])
    {
      assert fs[..i + 1][..i] == fs[..i];
      var field := fs[i];
      var (x, y, w, h) := Dimensions(field);
      if field.FontField? {
        font := (w, h);
      } else if field.TextField? {
        if x + font.0 >= xMax {
          xMax := x + font.0;
        }
        if y + font.1 >= yMax {
          yMax := y + font.1;
        }
      } else {
        if x + w >= xMax {
          xMax := x + w;
        }
        if y + h >= yMax {
          yMax := y + h;
        }
      }
      i := i + 1;
    }
    assert fs[..|fs|] == fs;
  }

  /** A text appended by `AddText` at an in-range location renders as its position line and data. */
  lemma TextAtLine(text: string, loc: (int, int), invert: bool)
    requires 0 <= loc.0 <= MaxCoordinate && 0 <= loc.1 <= MaxCoordinate
    ensures ParseLine(Render(TextAt(text, loc, invert))) == Some(LineParts(loc.0, loc.1, 0, invert, Lexicon.FD + text))
  {
    RenderReadsBack(TextAt(text, loc, invert));
  }

  /**
   * A box from `DrawBox` keeps the thickness, colour and rounding it was given: its `^GB`
   * command lists width, height, thickness, colour and rounding in that order.
   */
  lemma BoxAtCommand(loc: (int, int), width: int, height: int, thickness: int, color: char, rounding: int,
                     invert: bool)
    requires color != ','
    ensures Split(Content(BoxAt(loc, width, height, thickness, color, rounding, invert)), ',')
         == [Lexicon.GB + IntText(ConfineInt(width)), IntText(ConfineInt(height)), IntText(thickness), [color],
             IntText(rounding)]
  {
    BoxSegments(BoxAt(loc, width, height, thickness, color, rounding, invert));
  }

  /** A font from `SetFont` becomes the active font size for the texts after it. */
  lemma FontOfIsActive(before: seq<Field>, font: char, fontWidth: int, fontHeight: int)
    ensures var fs := before + [FontOf(font, fontWidth, fontHeight)];
      ActiveFont(fs, |fs|) == (ConfineInt(fontWidth), ConfineInt(fontHeight))
  {
  }

  /**
   * A barcode from `DrawBarCode` without a type is the default CODE128 command "^BCN,,Y,N,N,N"
   * and its data, wrapped into the line of its clamped location.
   */
  lemma DefaultBarcodeLine(content: string, x: int, y: int, invert: bool)
    ensures Render(BarcodeFields(content, (Some(x), Some(y)), None, None, invert)[0])
         == EncapsuleLine(Frame(ConfineInt(x), ConfineInt(y), 0, 0, 0, invert),
                          Lexicon.B + "CN,,Y,N,N,N" + Lexicon.FD + content)
  {
    var frame := Frame(ConfineInt(x), ConfineInt(y), 0, 0, 0, invert);
    PlacedDefaultBarcode(content, x, y, invert);
    TypedBarcodeRender(frame, DefaultBarcodeType(), content);
    BarcodeTypes.DefaultCode128Text();
  }

  lemma PlacedDefaultBarcode(content: string, x: int, y: int, invert: bool)
    ensures BarcodeFields(content, (Some(x), Some(y)), None, None, invert)[0]
         == BarcodeField(Frame(ConfineInt(x), ConfineInt(y), 0, 0, 0, invert), Typed(DefaultBarcodeType()), content)
  {
  }

  lemma TypedBarcodeRender(frame: Placement, t: BarcodeTypes.BarcodeType, content: string)
    ensures Render(BarcodeField(frame, Typed(t), content)) == EncapsuleLine(frame, Lexicon.B + t.options + Lexicon.FD + content)
  {
  }
}
