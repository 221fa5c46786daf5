/**
 * The Absolute iteration's ZebraField (Absolute/ZebraField.cs): the same five clamping
 * properties and position line as the common base, plus three plain public integers
 * (`orientation`, `margin`, `padding`) that no setter clamps and no render reads.
 */
module AbsoluteFields {
  import opened Wrappers
  import opened Strings
  import opened ZebraFields
  import Lexicon

  class ZebraField {
    var x: int
    var y: int
    var height: int
    var width: int
    var alignment: int
    var orientation: int
    var margin: int
    var padding: int
    var invertOnOverlap: bool

    ghost predicate Valid()
      reads this
    {
      Frame(x, y, width, height, alignment, invertOnOverlap).Clamped()
    }

    /** The part of the state that the position line reads. */
    function State(): Placement
      reads this
      requires Valid()
    {
      Frame(x, y, width, height, alignment, invertOnOverlap)
    }

    /** `EncapsuleLine(fieldContent)` of this field. */
    function EncapsuleLine(fieldContent: string): (r: string)
      reads this
      requires Valid()
      ensures !StartsWith(fieldContent, Lexicon.FR) && (fieldContent == [] || !IsDigit(fieldContent[0])) ==>
        ParseLine(r) == Some(LineParts(x, y, alignment, invertOnOverlap, fieldContent))
    {
      var line := ZebraFields.EncapsuleLine(State(), fieldContent);
      if !StartsWith(fieldContent, Lexicon.FR) && (fieldContent == [] || !IsDigit(fieldContent[0])) then
        EncapsuleLineRoundTrip(State(), fieldContent);
        line
      else
        line
    }

    constructor ()
      ensures Valid() && State() == Origin
      ensures orientation == 0 && margin == 0 && padding == 0
    {
      x, y, height, width, alignment := 0, 0, 0, 0, 0;
      orientation, margin, padding := 0, 0, 0;
      invertOnOverlap := false;
    }

    method SetX(value: int)
      requires Valid()
      modifies this`x
      ensures Valid() && State() == AssignX(old(State()), value)
    {
      x := ConfineInt(value);
    }

    method SetY(value: int)
      requires Valid()
      modifies this`y
      ensures Valid() && State() == AssignY(old(State()), value)
    {
      y := ConfineInt(value);
    }

    method SetHeight(value: int)
      requires Valid()
      modifies this`height
      ensures Valid() && State() == AssignHeight(old(State()), value)
    {
      height := ConfineInt(value);
    }

    method SetWidth(value: int)
      requires Valid()
      modifies this`width
      ensures Valid() && State() == AssignWidth(old(State()), value)
    {
      width := ConfineInt(value);
    }

    method SetAlignment(value: int)
      requires Valid()
      modifies this`alignment
      ensures Valid() && State() == AssignAlignment(old(State()), value)
    {
      alignment := ConfineInt(value, upper := 2);
    }
  }

  /**
   * Orientation, margin and padding never reach the output: between two states that differ at
   * most in those three public fields, the field wraps every content into the same line.
   */
  twostate lemma ExtrasInvisible(c: ZebraField, fieldContent: string)
    requires old(c.Valid())
    requires c.x == old(c.x) && c.y == old(c.y) && c.width == old(c.width) && c.height == old(c.height)
    requires c.alignment == old(c.alignment) && c.invertOnOverlap == old(c.invertOnOverlap)
    ensures c.Valid()
    ensures c.EncapsuleLine(fieldContent) == old(c.EncapsuleLine(fieldContent))
  {
  }
}
