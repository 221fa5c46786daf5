/**
 * The ZebraLabel of Library/ZebraLabel.cs: the builder of the Library/Elements generation. It
 * adds placeholders that `ReplaceHolder` later swaps for a list of fields, and draws barcodes
 * from single letters rather than a barcode type.
 */
module LibraryLabel {
  import opened Wrappers
  import opened ZebraFields
  import opened Elements
  import opened TextLists
  import opened LabelSpec
  import QuickLabel
  import Lexicon

  /** The barcode field `DrawBarCode(content, loc, type, orientation, ...)` appends. */
  function FlaggedBarcodeAt(content: string, loc: (Option<int>, Option<int>), kind: Option<char>,
                            orientation: Option<char>, height: Option<int>, line: bool, lineAbove: bool,
                            checkDigit: bool, mode: Option<char>, invert: bool): (f: Field)
    ensures f.BarcodeField? && f.content == content && f.spec.Flagged?
    ensures f.spec.kind == kind.GetOr('C') && f.spec.orientation == orientation.GetOr('N')
    ensures f.spec.mode == mode.GetOr('N') && f.spec.height == height
    ensures f.spec.line == line && f.spec.lineAbove == lineAbove && f.spec.checkDigit == checkDigit
    ensures f.frame == AssignY(AssignX(Origin, loc.0.GetOr(0)), loc.1.GetOr(0)).(invertOnOverlap := invert)
  {
    Placed(NewFlaggedBarcode(content, kind, orientation, height, line, lineAbove, checkDigit, mode),
           loc.0.GetOr(0), loc.1.GetOr(0), invert)
  }

  class ZebraLabel {
    var fields: seq<Field>
    var density: int
    var quality: char
    var width: int
    var height: int
    var padding: int

    /** `new ZebraLabel(dpi, density, quality, width, height, padding, useInches)`; `dpi` and `useInches` are not kept. */
    constructor (dpi: int := 203, labelDensity: int := 8, labelQuality: char := 'G', labelWidth: int := 4,
                 labelHeight: int := 6, labelPadding: int := 0, useInches: bool := true)
      ensures fields == []
      ensures density == labelDensity && quality == labelQuality
      ensures width == labelWidth && height == labelHeight && padding == labelPadding
    {
      fields := [];
      density, quality := labelDensity, labelQuality;
      width, height, padding := labelWidth, labelHeight, labelPadding;
    }

    method AddField(field: Field)
      modifies this`fields
      ensures fields == old(fields) + [field]
    {
      fields := fields + [field];
    }

    /** `AddFields(fieldList)`: one `Add` per field, in order. */
    method AddFields(fieldList: seq<Field>)
      modifies this`fields
      ensures fields == old(fields) + fieldList
    {
      var i := 0;
      while i < |fieldList|
        invariant 0 <= i <= |fieldList|
        invariant fields == old(fields) + fieldList[..i]
      {
        AddField(fieldList[i]);
        assert fieldList[..i + 1] == fieldList[..i] + [fieldList[i]];
        i := i + 1;
      }
      assert fieldList[..|fieldList|] == fieldList;
    }

    method AddText(text: string, loc: (int, int), invertIfOverlap: bool := false)
      modifies this`fields
      ensures fields == old(fields) + [QuickLabel.TextAt(text, loc, invertIfOverlap)]
    {
      AddField(Placed(NewText(text), loc.0, loc.1, invertIfOverlap));
    }

    /** `AddMultipleText(dataStrings, loc, incr, invertIfOverlap)`: missing parts are 0, 0, 0 and 40. */
    method AddMultipleText(dataStrings: seq<string>, loc: (Option<int>, Option<int>), incr: (Option<int>, Option<int>),
                           invertIfOverlap: bool := false)
      requires IsInt32(loc.0.GetOr(0)) && IsInt32(loc.1.GetOr(0))
      requires IsInt32(incr.0.GetOr(0)) && IsInt32(incr.1.GetOr(40))
      modifies this`fields
      ensures fields == old(fields) + Column(dataStrings, loc.0.GetOr(0), loc.1.GetOr(0), incr.0.GetOr(0),
                                             incr.1.GetOr(40), 0, invertIfOverlap)
    {
      var column := FromList(dataStrings, loc.0.GetOr(0), loc.1.GetOr(0), incr.0.GetOr(0), incr.1.GetOr(40),
                             invertIfOverlap);
      fields := fields + column;
    }

    /** `SetFont((height, width), font)`: height 30 and width 0 when missing. */
    method SetFontDims(dims: (Option<int>, Option<int>), font: char := 'A')
      modifies this`fields
      ensures fields == old(fields) + [QuickLabel.FontOf(font, dims.1.GetOr(0), dims.0.GetOr(30))]
    {
      AddField(Sized(NewFont(font), dims.1.GetOr(0), dims.0.GetOr(30)));
    }

    /** `SetFont(width, height, font)`. */
    method SetFont(fontWidth: int := 0, fontHeight: int := 30, font: char := 'A')
      modifies this`fields
      ensures fields == old(fields) + [QuickLabel.FontOf(font, fontWidth, fontHeight)]
    {
      AddField(Sized(NewFont(font), fontWidth, fontHeight));
    }

    method AddComment(comment: string)
      modifies this`fields
      ensures fields == old(fields) + [NewComment(comment)]
    {
      AddField(NewComment(comment));
    }

    method DrawBox(loc: (int, int), dims: (int, int, int), color: char := 'B', rounding: int := 0,
                   invertIfOverlap: bool := false)
      modifies this`fields
      ensures fields == old(fields) + [QuickLabel.BoxAt(loc, dims.0, dims.1, dims.2, color, rounding, invertIfOverlap)]
    {
      AddField(Placed(Sized(NewBox(dims.2, color, rounding), dims.0, dims.1), loc.0, loc.1, invertIfOverlap));
    }

    /** The square overload of `DrawBox`. */
    method DrawSquare(loc: (int, int), dims: int, color: char := 'B', rounding: int := 0,
                      invertIfOverlap: bool := false)
      modifies this`fields
      ensures fields == old(fields) + [QuickLabel.BoxAt(loc, dims, dims, dims, color, rounding, invertIfOverlap)]
    {
      AddField(Placed(Sized(NewBox(dims, color, rounding), dims, dims), loc.0, loc.1, invertIfOverlap));
    }

    /** `SetPlaceHolder(id)`: a placeholder at the origin that `ReplaceHolder(id, ...)` can find. */
    method SetPlaceHolder(id: string)
      modifies this`fields
      ensures fields == old(fields) + [NewPlaceHolder(id)]
      ensures FindIndex(old(fields), id) == -1 ==> FindIndex(fields, id) == |old(fields)|
    {
      AddField(NewPlaceHolder(id));
      PlaceHolderFound(old(fields), id);
    }

    method ConfigureBarcode(dims: (Option<int>, Option<int>), widthRatio: string := "3")
      modifies this`fields
      ensures fields == old(fields) + [NewBarcodeConfig(dims.0.GetOr(2), widthRatio, dims.1.GetOr(10))]
    {
      AddField(NewBarcodeConfig(dims.0.GetOr(2), widthRatio, dims.1.GetOr(10)));
    }

    method DrawBarCode(content: string, loc: (Option<int>, Option<int>), kind: Option<char> := None,
                       orientation: Option<char> := None, barcodeHeight: Option<int> := None, line: bool := true,
                       lineAbove: bool := false, checkDigit: bool := false, mode: Option<char> := None,
                       invertIfOverlap: bool := false)
      modifies this`fields
      ensures fields == old(fields) + [FlaggedBarcodeAt(content, loc, kind, orientation, barcodeHeight, line,
                                                         lineAbove, checkDigit, mode, invertIfOverlap)]
    {
      var barcode := NewFlaggedBarcode(content, kind, orientation, barcodeHeight, line, lineAbove, checkDigit, mode);
      AddField(Placed(barcode, loc.0.GetOr(0), loc.1.GetOr(0), invertIfOverlap));
    }

    /** `MergeLabels(label)`: `AddRange` of the other label's fields. */
    method MergeLabel(other: ZebraLabel)
      modifies this`fields
      ensures fields == old(fields) + old(other.fields)
    {
      fields := fields + other.fields;
    }

    /** `MergeLabels(labels)`: `AddRange` of each label's fields in list order. */
    method MergeLabels(labels: seq<ZebraLabel>)
      modifies this`fields
      ensures fields == Merged(this, old(fields), labels)
    {
      var i := 0;
      while i < |labels|
        invariant 0 <= i <= |labels|
        invariant fields == Merged(this, old(fields), labels[..i])
      {
        assert labels[..i + 1][..i] == labels[..i];
        fields := fields + labels[i].fields;
        i := i + 1;
      }
      assert labels[..|labels|] == labels;
    }

    /**
     * `ReplaceHolder(id, insertFields)`: the first placeholder with the id gives way to the
     * inserted fields; the new list is also returned.
     */
    method ReplaceHolder(id: string, insertFields: seq<Field>) returns (r: seq<Field>)
      modifies this`fields
      ensures fields == Replaced(old(fields), id, insertFields) && r == fields
    {
      fields := ReplaceHolderIn(fields, id, insertFields);
      r := fields;
    }

    function GetLabelString(wrap: bool := true, newlined: bool := false): (r: string)
      reads this
      ensures r == LabelString(fields, wrap, newlined)
      ensures wrap && !newlined ==> r == Lexicon.XA + LabelString(fields, false, false) + Lexicon.XZ
      ensures fields == [] && wrap && !newlined ==> r == "^XA^XZ"
    {
      WrappedLabelString(fields);
      EmptyLabelString();
      LabelString(fields, wrap, newlined)
    }

    /** The checks of `CallLabelary(zplCode, labelFormat)` before any request: only the format. */
    method CallLabelary(zplCode: string, labelFormat: string := "pdf") returns (outcome: Outcome)
      ensures outcome == FormatCheck(labelFormat)
    {
      if !ValidFormat(labelFormat) {
        return InvalidFormat;
      }
      outcome := Send;
    }
  }

  /** The labels' fields merged into `self`, each label's fields as they are at its turn. */
  function Merged(self: ZebraLabel, acc: seq<Field>, labels: seq<ZebraLabel>): seq<Field>
    reads set l | l in labels && l != self
  {
    if |labels| == 0 then acc
    else
      var before := Merged(self, acc, labels[..|labels| - 1]);
      var last := labels[|labels| - 1];
      before + (if last == self then before else last.fields)
  }

  /** A placeholder appended to a list without one of its id is the one `ReplaceHolder` finds. */
  lemma PlaceHolderFound(fs: seq<Field>, id: string)
    ensures FindIndex(fs, id) == -1 ==> FindIndex(fs + [NewPlaceHolder(id)], id) == |fs|
  {
    var all := fs + [NewPlaceHolder(id)];
    assert HasId(all[|fs|], id);
    assert forall k :: 0 <= k < |fs| ==> all[k] == fs[k];
  }

  /**
   * Setting a placeholder and replacing it straight away appends the inserted fields, when no
   * earlier placeholder has the same id.
   */
  lemma SetThenReplace(fs: seq<Field>, id: string, insertFields: seq<Field>)
    requires FindIndex(fs, id) == -1
    ensures Replaced(fs + [NewPlaceHolder(id)], id, insertFields) == fs + insertFields
  {
    ReplaceFirstPlaceHolder(fs, Origin, id, [], insertFields);
    assert fs + [NewPlaceHolder(id)] + [] == fs + [NewPlaceHolder(id)];
  }
}
