/**
 * Columns of text fields: `ZebraText.FromList` (Library/Elements/ZebraText.cs, with an identical
 * copy in Elements/ZebraText.cs) and `ZebraText.ConvertMultilineText` (Absolute/ZebraText.cs).
 * Both walk the strings with two `int` accumulators that grow by a fixed step per string; C#
 * adds `int`s with 32-bit wrap-around, and the setters clamp whatever position results.
 */
module TextLists {
  import opened Wrappers
  import opened ZebraFields
  import opened Elements
  import Lexicon

  const TwoTo31: int := 0x8000_0000
  const TwoTo32: int := 0x1_0000_0000

  predicate IsInt32(v: int) {
    -TwoTo31 <= v < TwoTo31
  }

  /** The C# `int` result of an addition: the mathematical value wrapped into 32 bits. */
  function Wrap32(v: int): (r: int)
    ensures IsInt32(r)
    ensures IsInt32(v) ==> r == v
    ensures (r - v) % TwoTo32 == 0
  {
    (v + TwoTo31) % TwoTo32 - TwoTo31
  }

  /** Wrapping an intermediate sum does not change the wrapped total. */
  lemma Wrap32Add(a: int, b: int)
    ensures Wrap32(Wrap32(a) + b) == Wrap32(a + b)
  {
    var k := (Wrap32(a) - a) / TwoTo32;
    assert Wrap32(a) == a + k * TwoTo32;
    ModShift(a + b + TwoTo31, k);
  }

  lemma ModShift(v: int, k: int)
    ensures (v + k * TwoTo32) % TwoTo32 == v % TwoTo32
  {
  }

  /** The accumulator after `i` steps: `start + i * step` in C# `int` arithmetic. */
  function Pos(start: int, step: int, i: nat): (r: int)
    ensures IsInt32(r)
  {
    Wrap32(start + i * step)
  }

  /** One more addition of the step moves the accumulator to the next row. */
  lemma PosNext(start: int, step: int, i: nat)
    ensures Wrap32(Pos(start, step, i) + step) == Pos(start, step, i + 1)
  {
    Wrap32Add(start + i * step, step);
    assert start + i * step + step == start + (i + 1) * step;
  }

  /** Restarting the accumulator from row `n` reaches the same rows. */
  lemma PosShift(start: int, step: int, n: nat, j: nat)
    ensures Pos(Pos(start, step, n), step, j) == Pos(start, step, n + j)
  {
    Wrap32Add(start + n * step, j * step);
    assert start + n * step + j * step == start + (n + j) * step;
  }

  /** The text field a column holds at row `i`. */
  function Row(data: string, x: int, y: int, dx: int, dy: int, i: nat, alignment: int, invert: bool): Field {
    TextField(Frame(ConfineInt(Pos(x, dx, i)), ConfineInt(Pos(y, dy, i)), 0, 0,
                    ConfineInt(alignment, upper := 2), invert), data)
  }

  /**
   * The column of text fields for `strings`: row `i` holds `strings[i]` at the clamped, wrapped
   * position `(x + i * dx, y + i * dy)`.
   */
  function Column(strings: seq<string>, x: int, y: int, dx: int, dy: int, alignment: int, invert: bool): seq<Field> {
    seq(|strings|, i requires 0 <= i < |strings| => Row(strings[i], x, y, dx, dy, i, alignment, invert))
  }

  /**
   * `FromList(dataStrings, x, y, xIncrement, yIncrement, invertIfOverlap)`: one text field per
   * string, each placed by the object initializer at the current accumulator values.
   */
  method FromList(dataStrings: seq<string>, x: int := 0, y: int := 0, xIncrement: int := 0,
                  yIncrement: int := 40, invertIfOverlap: bool := false) returns (textFields: seq<Field>)
    requires IsInt32(x) && IsInt32(y) && IsInt32(xIncrement) && IsInt32(yIncrement)
    ensures textFields == Column(dataStrings, x, y, xIncrement, yIncrement, 0, invertIfOverlap)
  {
    var xPos, yPos := x, y;
    textFields := [];
    var i := 0;
    while i < |dataStrings|
      invariant 0 <= i <= |dataStrings|
      invariant xPos == Pos(x, xIncrement, i) && yPos == Pos(y, yIncrement, i)
      invariant |textFields| == i
      invariant forall k :: 0 <= k < i ==>
        textFields[k] == Row(dataStrings[k], x, y, xIncrement, yIncrement, k, 0, invertIfOverlap)
    {
      textFields := textFields + [Placed(NewText(dataStrings[i]), xPos, yPos, invertIfOverlap)];
      PosNext(x, xIncrement, i);
      PosNext(y, yIncrement, i);
      xPos := Wrap32(xPos + xIncrement);
      yPos := Wrap32(yPos + yIncrement);
      i := i + 1;
    }
  }

  /**
   * `ConvertMultilineText(dataStrings, xIncrement, yIncrement)` on a text field whose placement
   * is `receiver`: the column starts at the receiver's position and copies its alignment; the
   * inversion flag is not copied, so every new field has it off.
   */
  method ConvertMultilineText(receiver: Placement, dataStrings: seq<string>, xIncrement: int := 0,
                              yIncrement: int := 40) returns (textFields: seq<Field>)
    requires IsInt32(xIncrement) && IsInt32(yIncrement)
    ensures textFields == Column(dataStrings, receiver.x, receiver.y, xIncrement, yIncrement, receiver.alignment, false)
  {
    var xPos, yPos := receiver.x, receiver.y;
    textFields := [];
    var i := 0;
    while i < |dataStrings|
      invariant 0 <= i <= |dataStrings|
      invariant xPos == Pos(receiver.x, xIncrement, i) && yPos == Pos(receiver.y, yIncrement, i)
      invariant |textFields| == i
      invariant forall k :: 0 <= k < i ==>
        textFields[k] == Row(dataStrings[k], receiver.x, receiver.y, xIncrement, yIncrement, k, receiver.alignment, false)
    {
      var text := TextField(AssignAlignment(AssignY(AssignX(Origin, xPos), yPos), receiver.alignment), dataStrings[i]);
      textFields := textFields + [text];
      PosNext(receiver.x, xIncrement, i);
      PosNext(receiver.y, yIncrement, i);
      xPos := Wrap32(xPos + xIncrement);
      yPos := Wrap32(yPos + yIncrement);
      i := i + 1;
    }
  }

  /**
   * A column of the concatenation of two lists is the column of the first followed by the
   * column of the second, started where the first one's accumulators stopped.
   */
  lemma ColumnAppend(a: seq<string>, b: seq<string>, x: int, y: int, dx: int, dy: int, alignment: int, invert: bool)
    ensures Column(a + b, x, y, dx, dy, alignment, invert)
         == Column(a, x, y, dx, dy, alignment, invert)
          + Column(b, Pos(x, dx, |a|), Pos(y, dy, |a|), dx, dy, alignment, invert)
  {
    var left := Column(a + b, x, y, dx, dy, alignment, invert);
    var right := Column(a, x, y, dx, dy, alignment, invert)
               + Column(b, Pos(x, dx, |a|), Pos(y, dy, |a|), dx, dy, alignment, invert);
    assert |left| == |right|;
    forall i | 0 <= i < |left|
      ensures left[i] == right[i]
    {
      if i >= |a| {
        var j := i - |a|;
        PosShift(x, dx, |a|, j);
        PosShift(y, dy, |a|, j);
      }
    }
  }

  /**
   * While the column stays on the label's coordinate range, nothing wraps and nothing is
   * clamped: row `i` sits exactly at `(x + i * dx, y + i * dy)`.
   */
  lemma ColumnExactPositions(strings: seq<string>, x: int, y: int, dx: int, dy: int, alignment: int,
                             invert: bool, i: nat)
    requires i < |strings|
    requires 0 <= x <= MaxCoordinate && 0 <= x + (|strings| - 1) * dx <= MaxCoordinate
    requires 0 <= y <= MaxCoordinate && 0 <= y + (|strings| - 1) * dy <= MaxCoordinate
    ensures var f := Column(strings, x, y, dx, dy, alignment, invert)[i];
      f.frame.x == x + i * dx && f.frame.y == y + i * dy && f.data == strings[i]
  {
    Between(x, dx, i, |strings| - 1);
    Between(y, dy, i, |strings| - 1);
    assert IsInt32(x + i * dx) && IsInt32(y + i * dy);
  }

  /** A point of a segment lies between its end points. */
  lemma Between(start: int, step: int, i: nat, n: nat)
    requires i <= n
    ensures start + i * step <= start + n * step || start + i * step <= start
    ensures start + i * step >= start + n * step || start + i * step >= start
  {
    if step >= 0 {
      assert i * step <= n * step;
    } else {
      assert i * step >= n * step;
    }
  }

  /** Every row of a column renders as a position line around "^FD" and its string. */
  lemma ColumnRendersData(strings: seq<string>, x: int, y: int, dx: int, dy: int, alignment: int, invert: bool,
                          i: nat)
    requires i < |strings|
    ensures var f := Column(strings, x, y, dx, dy, alignment, invert)[i];
      ParseLine(Render(f)) == Some(LineParts(f.frame.x, f.frame.y, f.frame.alignment, invert, Lexicon.FD + strings[i]))
  {
    RenderReadsBack(Column(strings, x, y, dx, dy, alignment, invert)[i]);
  }
}
