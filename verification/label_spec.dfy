/**
 * What the label classes compute, as functions of their field lists: the label string, the
 * placeholder search and replacement, the maximum used location, the checks made before the
 * label is sent to the rendering service, and the millimetre-to-inch conversion of the
 * QuickZebra constructor.
 */
module LabelSpec {
  import opened Wrappers
  import opened Strings
  import opened ZebraFields
  import opened Elements
  import Lexicon

  // ---------------------------------------------------------------------------------------
  // GetLabelString
  // ---------------------------------------------------------------------------------------

  /** `Fields.Select(field => field.Zebrify())`. */
  function Renders(fs: seq<Field>): (rs: seq<string>)
    ensures |rs| == |fs|
    ensures forall i :: 0 <= i < |fs| ==> rs[i] == Render(fs[i])
  {
    seq(|fs|, i requires 0 <= i < |fs| => Render(fs[i]))
  }

  /** The list that is joined: the renders, between "^XA" and "^XZ" when wrapping. */
  function Lines(fs: seq<Field>, wrap: bool): seq<string> {
    if wrap then [Lexicon.XA] + Renders(fs) + [Lexicon.XZ] else Renders(fs)
  }

  function Separator(newlined: bool): string {
    if newlined then "\n" else ""
  }

  /** `GetLabelString(wrap, newlined)`. */
  function LabelString(fs: seq<Field>, wrap: bool := true, newlined: bool := false): string {
    Join(Lines(fs, wrap), Separator(newlined))
  }

  /** A label without fields is the empty format "^XA^XZ". */
  lemma EmptyLabelString()
    ensures LabelString([]) == "^XA^XZ"
  {
    var lines := Lines([], true);
    assert lines == [Lexicon.XA, Lexicon.XZ];
    assert lines[1..] == [Lexicon.XZ];
  }

  /** Wrapping puts "^XA" in front of the bare label string and "^XZ" after it. */
  lemma WrappedLabelString(fs: seq<Field>)
    ensures LabelString(fs, true, false) == Lexicon.XA + LabelString(fs, false, false) + Lexicon.XZ
  {
    var rs := Renders(fs);
    JoinConcat([Lexicon.XA], rs + [Lexicon.XZ]);
    JoinConcat(rs, [Lexicon.XZ]);
    assert [Lexicon.XA] + rs + [Lexicon.XZ] == [Lexicon.XA] + (rs + [Lexicon.XZ]);
  }

  /** The renders of a concatenation are the renders of its parts. */
  lemma {:induction false} RendersAppend(a: seq<Field>, b: seq<Field>)
    ensures Renders(a + b) == Renders(a) + Renders(b)
  {
    var whole, parts := Renders(a + b), Renders(a) + Renders(b);
    forall i | 0 <= i < |a + b|
      ensures whole[i] == parts[i]
    {
      if i < |a| {
        assert (a + b)[i] == a[i];
      } else {
        assert (a + b)[i] == b[i - |a|];
      }
    }
  }

  /** The bare label string of two field lists in a row is the two label strings in a row. */
  lemma LabelStringAppend(a: seq<Field>, b: seq<Field>)
    ensures LabelString(a + b, false, false) == LabelString(a, false, false) + LabelString(b, false, false)
  {
    RendersAppend(a, b);
    JoinConcat(Renders(a), Renders(b));
  }

  /**
   * When no render holds a line break, the newlined label string splits at the line breaks into
   * exactly the wrapped list of renders: one line per field.
   */
  lemma NewlinedLabelLines(fs: seq<Field>, wrap: bool)
    requires forall i :: 0 <= i < |fs| ==> '\n' !in Render(fs[i])
    requires wrap || |fs| > 0
    ensures Split(LabelString(fs, wrap, true), '\n') == Lines(fs, wrap)
  {
    LinesWithoutNewline(fs, wrap);
    SplitJoin(Lines(fs, wrap), '\n');
  }

  lemma LinesWithoutNewline(fs: seq<Field>, wrap: bool)
    requires forall i :: 0 <= i < |fs| ==> '\n' !in Render(fs[i])
    ensures forall i :: 0 <= i < |Lines(fs, wrap)| ==> '\n' !in Lines(fs, wrap)[i]
  {
    var rs := Renders(fs);
    assert forall i :: 0 <= i < |rs| ==> '\n' !in rs[i];
    if wrap {
      var lines := [Lexicon.XA] + rs + [Lexicon.XZ];
      forall i | 0 <= i < |lines|
        ensures '\n' !in lines[i]
      {
        if 0 < i < |lines| - 1 {
          assert lines[i] == rs[i - 1];
        }
      }
    }
  }

  // ---------------------------------------------------------------------------------------
  // ReplaceHolder
  // ---------------------------------------------------------------------------------------

  /** The field matches the id the way `f.GetId() == id` does. */
  predicate HasId(f: Field, id: string) {
    Id(f) == Some(id)
  }

  /** `Fields.FindIndex(f => f.GetId() == id)`: the first match, or -1. */
  function FindIndex(fs: seq<Field>, id: string): (r: int)
    ensures -1 <= r < |fs|
    ensures r == -1 <==> forall k :: 0 <= k < |fs| ==> !HasId(fs[k], id)
    ensures r >= 0 ==> HasId(fs[r], id) && forall k :: 0 <= k < r ==> !HasId(fs[k], id)
  {
    if |fs| == 0 then -1
    else if HasId(fs[0], id) then 0
    else
      var r := FindIndex(fs[1..], id);
      assert forall k :: 1 <= k < |fs| ==> fs[k] == fs[1..][k - 1];
      if r == -1 then -1 else r + 1
  }

  /** The fields after `ReplaceHolder(id, insertFields)`. */
  function Replaced(fs: seq<Field>, id: string, insertFields: seq<Field>): seq<Field> {
    var index := FindIndex(fs, id);
    if index == -1 then fs else fs[..index] + insertFields + fs[index + 1..]
  }

  /**
   * The body of `ReplaceHolder(id, insertFields)` on the field list: find the first match, and
   * if there is one, `RemoveAt` it and `InsertRange` the new fields at its index.
   */
  method ReplaceHolderIn(fs: seq<Field>, id: string, insertFields: seq<Field>) returns (r: seq<Field>)
    ensures r == Replaced(fs, id, insertFields)
  {
    r := fs;
    var index := FindIndex(r, id);
    if index != -1 {
      r := r[..index] + r[index + 1..];
      r := r[..index] + insertFields + r[index..];
      assert r[..index] == fs[..index];
    }
  }

  /**
   * Replacing splices the inserted fields in place of the first placeholder with the id: the
   * fields before and after it stay where they were.
   */
  lemma ReplaceFirstPlaceHolder(before: seq<Field>, frame: Placement, id: string, after: seq<Field>,
                                insertFields: seq<Field>)
    requires forall k :: 0 <= k < |before| ==> !HasId(before[k], id)
    ensures Replaced(before + [PlaceHolderField(frame, id)] + after, id, insertFields) == before + insertFields + after
  {
    var fs := before + [PlaceHolderField(frame, id)] + after;
    assert HasId(fs[|before|], id);
    var index := FindIndex(fs, id);
    assert index == |before|;
    assert fs[..index] == before;
    assert fs[index + 1..] == after;
  }

  /** Without a placeholder of that id the fields are left as they are. */
  lemma ReplaceWithoutMatch(fs: seq<Field>, id: string, insertFields: seq<Field>)
    requires forall k :: 0 <= k < |fs| ==> !fs[k].PlaceHolderField? || fs[k].id != id
    ensures Replaced(fs, id, insertFields) == fs
  {
  }

  /** A replacement removes one field and adds the inserted ones. */
  lemma ReplacedLength(fs: seq<Field>, id: string, insertFields: seq<Field>)
    ensures var r := Replaced(fs, id, insertFields);
      |r| == if FindIndex(fs, id) == -1 then |fs| else |fs| - 1 + |insertFields|
  {
  }

  // ---------------------------------------------------------------------------------------
  // GetMaxLocation (QuickZebra)
  // ---------------------------------------------------------------------------------------

  /** The state of the GetMaxLocation loop: the maxima so far and the size of the last font. */
  datatype Scan = Scan(xMax: int, yMax: int, fontW: int, fontH: int)

  /**
   * One pass of the loop body for field `f`: a font becomes the active font and leaves the
   * maxima alone; any other field leaves the font alone and raises each maximum to its reach.
   */
  function Step(s: Scan, f: Field): (r: Scan)
    ensures f.FontField? ==> r == s.(fontW := f.frame.width, fontH := f.frame.height)
    ensures !f.FontField? ==> var reach := ReachWith(f, (s.fontW, s.fontH));
      && r.fontW == s.fontW && r.fontH == s.fontH
      && r.xMax == (if reach.0 >= s.xMax then reach.0 else s.xMax)
      && r.yMax == (if reach.1 >= s.yMax then reach.1 else s.yMax)
    ensures r.xMax >= s.xMax && r.yMax >= s.yMax
  {
    var (x, y, w, h) := Dimensions(f);
    if f.FontField? then s.(fontW := w, fontH := h)
    else if f.TextField? then
      s.(xMax := if x + s.fontW >= s.xMax then x + s.fontW else s.xMax,
         yMax := if y + s.fontH >= s.yMax then y + s.fontH else s.yMax)
    else
      s.(xMax := if x + w >= s.xMax then x + w else s.xMax,
         yMax := if y + h >= s.yMax then y + h else s.yMax)
  }

  /** The loop state after the fields `fs`, from the start state (0, 0) with font (0, 0). */
  function ScanAll(fs: seq<Field>): Scan {
    if |fs| == 0 then Scan(0, 0, 0, 0) else Step(ScanAll(fs[..|fs| - 1]), fs[|fs| - 1])
  }

  /** The size of the last font before position `i`, or (0, 0) when there is none. */
  function ActiveFont(fs: seq<Field>, i: nat): (int, int)
    requires i <= |fs|
  {
    if i == 0 then (0, 0)
    else if fs[i - 1].FontField? then (fs[i - 1].frame.width, fs[i - 1].frame.height)
    else ActiveFont(fs, i - 1)
  }

  /** How far a non-font field reaches when `font` is the active font size. */
  function ReachWith(f: Field, font: (int, int)): (int, int) {
    if f.TextField? then (f.frame.x + font.0, f.frame.y + font.1)
    else (f.frame.x + f.frame.width, f.frame.y + f.frame.height)
  }

  /**
   * How far field `i` reaches: a text reaches its origin plus the size of the font active
   * there, any other field its origin plus its own size.
   */
  function Reach(fs: seq<Field>, i: nat): (int, int)
    requires i < |fs|
  {
    ReachWith(fs[i], ActiveFont(fs, i))
  }

  /** The active font at `i` depends only on the fields before `i`. */
  lemma {:induction false} ActiveFontPrefix(fs: seq<Field>, n: nat, i: nat)
    requires i <= n <= |fs|
    ensures ActiveFont(fs[..n], i) == ActiveFont(fs, i)
  {
    if i > 0 {
      ActiveFontPrefix(fs, n, i - 1);
    }
  }

  /** The loop's font is the active font at the end of the list. */
  lemma {:induction false} ScanFont(fs: seq<Field>)
    ensures (ScanAll(fs).fontW, ScanAll(fs).fontH) == ActiveFont(fs, |fs|)
  {
    if |fs| > 0 {
      var prefix := fs[..|fs| - 1];
      ScanFont(prefix);
      ActiveFontPrefix(fs, |fs| - 1, |fs| - 1);
    }
  }

  /** The reach of an earlier field does not depend on the fields after it. */
  lemma ReachPrefix(fs: seq<Field>, n: nat, i: nat)
    requires i < n <= |fs|
    ensures Reach(fs[..n], i) == Reach(fs, i)
  {
    ActiveFontPrefix(fs, n, i);
  }

  /** The last loop step sees the reach of the last field. */
  lemma LastReach(fs: seq<Field>)
    requires |fs| > 0
    ensures var s := ScanAll(fs[..|fs| - 1]);
      ReachWith(fs[|fs| - 1], (s.fontW, s.fontH)) == Reach(fs, |fs| - 1)
  {
    ScanFont(fs[..|fs| - 1]);
    ActiveFontPrefix(fs, |fs| - 1, |fs| - 1);
  }

  /** Every non-font field's reach is at most the result of `GetMaxLocation`. */
  lemma {:induction false} MaxLocationBounds(fs: seq<Field>)
    ensures forall i :: 0 <= i < |fs| && !fs[i].FontField? ==>
      Reach(fs, i).0 <= ScanAll(fs).xMax && Reach(fs, i).1 <= ScanAll(fs).yMax
  {
    if |fs| > 0 {
      var n := |fs| - 1;
      var prefix := fs[..n];
      MaxLocationBounds(prefix);
      LastReach(fs);
      forall i | 0 <= i < n && !fs[i].FontField?
        ensures Reach(fs, i).0 <= ScanAll(fs).xMax && Reach(fs, i).1 <= ScanAll(fs).yMax
      {
        ReachPrefix(fs, n, i);
        assert prefix[i] == fs[i];
      }
    }
  }

  /** Each coordinate of the result is 0 or the reach of some non-font field. */
  lemma {:induction false} MaxLocationAttained(fs: seq<Field>)
    ensures ScanAll(fs).xMax == 0 || exists i :: 0 <= i < |fs| && !fs[i].FontField? && Reach(fs, i).0 == ScanAll(fs).xMax
    ensures ScanAll(fs).yMax == 0 || exists i :: 0 <= i < |fs| && !fs[i].FontField? && Reach(fs, i).1 == ScanAll(fs).yMax
  {
    if |fs| > 0 {
      var n := |fs| - 1;
      var prefix := fs[..n];
      var s := ScanAll(prefix);
      MaxLocationAttained(prefix);
      LastReach(fs);
      if ScanAll(fs).xMax != 0 && ScanAll(fs).xMax == s.xMax {
        var i :| 0 <= i < n && !prefix[i].FontField? && Reach(prefix, i).0 == s.xMax;
        ReachPrefix(fs, n, i);
        assert !fs[i].FontField?;
      }
      if ScanAll(fs).yMax != 0 && ScanAll(fs).yMax == s.yMax {
        var i :| 0 <= i < n && !prefix[i].FontField? && Reach(prefix, i).1 == s.yMax;
        ReachPrefix(fs, n, i);
        assert !fs[i].FontField?;
      }
    }
  }

  /** The maxima never fall below the start value 0. */
  lemma {:induction false} MaxLocationNonNegative(fs: seq<Field>)
    ensures ScanAll(fs).xMax >= 0 && ScanAll(fs).yMax >= 0
  {
    if |fs| > 0 {
      MaxLocationNonNegative(fs[..|fs| - 1]);
    }
  }

  // ---------------------------------------------------------------------------------------
  // CallLabelary checks
  // ---------------------------------------------------------------------------------------

  /** `CheckWithinBounds(outer, inner)`: the inner point does not exceed the outer one. */
  predicate CheckWithinBounds(outer: (int, int), inner: (int, int)) {
    outer.0 >= inner.0 && outer.1 >= inner.1
  }

  /** The output formats the rendering service is asked for. */
  predicate ValidFormat(labelFormat: string) {
    labelFormat == "pdf" || labelFormat == "png"
  }

  /** How `CallLabelary` ends before any request is made. */
  datatype Outcome =
    | Send                                                  // the request is built and sent
    | InvalidFormat                                         // exception: unknown format
    | BoundsExceeded(xMax: int, yMax: int, xDots: int, yDots: int)  // exception: fields outside the label

  /**
   * The decision of the QuickZebra `CallLabelary`: the bounds only stop the call when
   * `borderCheck` is set; otherwise the format decides.
   */
  function Preflight(maxLocation: (int, int), maxDots: (int, int), labelFormat: string, borderCheck: bool): (r: Outcome)
    ensures r.BoundsExceeded? <==> borderCheck && !CheckWithinBounds(maxDots, maxLocation)
    ensures r.BoundsExceeded? ==> r == BoundsExceeded(maxLocation.0, maxLocation.1, maxDots.0, maxDots.1)
    ensures r == Send <==> (CheckWithinBounds(maxDots, maxLocation) || !borderCheck) && ValidFormat(labelFormat)
    ensures r == InvalidFormat <==> (CheckWithinBounds(maxDots, maxLocation) || !borderCheck) && !ValidFormat(labelFormat)
  {
    var within := CheckWithinBounds(maxDots, maxLocation);
    if within || !borderCheck then
      if ValidFormat(labelFormat) then Send else InvalidFormat
    else if !within && borderCheck then
      BoundsExceeded(maxLocation.0, maxLocation.1, maxDots.0, maxDots.1)
    else
      assert false; InvalidFormat
  }

  /** The decision of the `CallLabelary` versions that check nothing but the format. */
  function FormatCheck(labelFormat: string): (r: Outcome)
    ensures r == Send <==> ValidFormat(labelFormat)
    ensures !r.BoundsExceeded?
  {
    if ValidFormat(labelFormat) then Send else InvalidFormat
  }

  /** Without the border check the QuickZebra decision is the plain format check. */
  lemma PreflightWithoutBorderCheck(maxLocation: (int, int), maxDots: (int, int), labelFormat: string)
    ensures Preflight(maxLocation, maxDots, labelFormat, false) == FormatCheck(labelFormat)
  {
  }

  // ---------------------------------------------------------------------------------------
  // MmToNextInch
  // ---------------------------------------------------------------------------------------

  /**
   * `MmToNextInch(mm)`: `(int)((mm / 25.4) - (mm / 25.4) % 1 + 1)`, the whole inches in `mm`
   * (truncated toward zero, as C# `%` on doubles keeps the sign) plus one. In integers,
   * mm / 25.4 = 5 * mm / 127. The double nearest 25.4 lies just below it, so at an exact
   * multiple of an inch the double quotient is not below the whole number, and elsewhere the
   * exact quotient is at least 1/127 away from one; the truncation is therefore the same for
   * every `int` mm, and the integer form is exact.
   */
  function MmToNextInch(mm: int): (r: int)
    ensures mm >= 0 ==> (r - 1) * 127 <= mm * 5 < r * 127
    ensures mm >= 0 ==> r >= 1
    ensures mm < 0 ==> (1 - r) * 127 <= -mm * 5 < (2 - r) * 127
    ensures mm < 0 ==> r <= 1
  {
    if mm >= 0 then mm * 5 / 127 + 1 else 1 - (-mm) * 5 / 127
  }

  /** Exactly one inch, 25.4 mm, is not a whole millimetre count; 25 mm gives 1 and 26 mm gives 2. */
  lemma MmToNextInchExamples()
    ensures MmToNextInch(25) == 1 && MmToNextInch(26) == 2 && MmToNextInch(0) == 1 && MmToNextInch(127) == 6
  {
  }
}
