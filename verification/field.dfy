/**
 * The common base of every field (Library/Elements/ZebraField.cs): the clamping rule, the
 * clamped placement every field carries, and the position line that wraps positioned renders.
 */
module ZebraFields {
  import opened Wrappers
  import opened Strings
  import Lexicon

  /** The default upper bound of `ConfineInt`, the largest coordinate ZPL accepts. */
  const MaxCoordinate: int := 32000

  /**
   * `ConfineInt(val, lower, upper)`: the value pushed into [lower, upper]. The upper test comes
   * first, so when the bounds cross every value at or above `upper` gives `upper`.
   */
  function ConfineInt(val: int, lower: int := 0, upper: int := MaxCoordinate): (r: int)
    ensures lower <= upper ==> lower <= r <= upper
    ensures lower <= val <= upper ==> r == val
    ensures val >= upper ==> r == upper
    ensures val < upper && val <= lower ==> r == lower
    ensures upper < lower ==> (r == upper <==> val >= upper) && (r != upper ==> r == lower)
  {
    if val >= upper then upper else if val <= lower then lower else val
  }

  /** The state a ZebraField holds behind its clamping setters. */
  datatype Frame = Frame(x: int, y: int, width: int, height: int, alignment: int, invertOnOverlap: bool) {
    /** Every setter leaves X, Y, Width and Height in [0, 32000] and Alignment in [0, 2]. */
    predicate Clamped() {
      && 0 <= x <= MaxCoordinate && 0 <= y <= MaxCoordinate
      && 0 <= width <= MaxCoordinate && 0 <= height <= MaxCoordinate
      && 0 <= alignment <= 2
    }
  }

  /** A frame reachable through the setters; every field of a label carries one. */
  type Placement = f: Frame | f.Clamped() witness Frame(0, 0, 0, 0, 0, false)

  /** A freshly constructed field: every coordinate 0, no inversion. */
  const Origin: Placement := Frame(0, 0, 0, 0, 0, false)

  // The five property setters of ZebraField, as updates of a placement.
  function AssignX(f: Placement, v: int): Placement { f.(x := ConfineInt(v)) }
  function AssignY(f: Placement, v: int): Placement { f.(y := ConfineInt(v)) }
  function AssignWidth(f: Placement, v: int): Placement { f.(width := ConfineInt(v)) }
  function AssignHeight(f: Placement, v: int): Placement { f.(height := ConfineInt(v)) }
  function AssignAlignment(f: Placement, v: int): Placement { f.(alignment := ConfineInt(v, upper := 2)) }

  /** `WithComma(val)`: a comma, then the value's text; a null value gives the comma alone. */
  function WithComma(val: Option<string>): string {
    "," + val.GetOr("")
  }

  /**
   * A parameter appended with `WithComma` is a piece of its own: splitting at commas gives the
   * empty text before the comma and the value's text, when that text holds no comma.
   */
  lemma WithCommaSegments(val: Option<string>)
    ensures ',' !in val.GetOr("") ==> Split(WithComma(val), ',') == ["", val.GetOr("")]
  {
    var v := val.GetOr("");
    if ',' !in v {
      SplitAtSeparator("", ',', v);
      SplitNoSeparator(v, ',');
      assert "" + [','] + v == WithComma(val);
    }
  }

  /** `ToAnswer(choice)`: the ZPL yes/no flag. */
  function ToAnswer(choice: bool): (c: char)
    ensures c == 'Y' || c == 'N'
    ensures choice <==> c == 'Y'
  {
    if choice then 'Y' else 'N'
  }

  /** `GetPosition()`: the field origin command "^FO" x "," y "," alignment. */
  function GetPosition(f: Placement): (r: string)
    ensures |r| > 3 && r[..3] == Lexicon.FO
    ensures forall i :: 3 <= i < |r| ==> r[i] == ',' || IsDigit(r[i])
  {
    var x, y, a := IntText(f.x), IntText(f.y), IntText(f.alignment);
    var numbers := x + WithComma(Some(y)) + WithComma(Some(a));
    assert forall i :: 0 <= i < |numbers| ==> numbers[i] == ',' || IsDigit(numbers[i]) by {
      assert numbers == x + [','] + y + [','] + a;
    }
    Lexicon.FO + numbers
  }

  /** `EncapsuleLine(c)`: position, "^FR" when the field inverts, the content verbatim, "^FS". */
  function EncapsuleLine(f: Placement, fieldContent: string): (r: string)
    ensures GetPosition(f) <= r
    ensures |r| == |GetPosition(f)| + |fieldContent| + (if f.invertOnOverlap then 6 else 3)
    ensures r[|r| - 3..] == Lexicon.FS
  {
    GetPosition(f) + (if f.invertOnOverlap then Lexicon.FR else "") + fieldContent + Lexicon.FS
  }

  /** The position line always has exactly three comma-separated parts: origin x, y, alignment. */
  lemma PositionParts(f: Placement)
    ensures Split(GetPosition(f), ',') == [Lexicon.FO + NatText(f.x), NatText(f.y), NatText(f.alignment)]
  {
    var parts := [Lexicon.FO + NatText(f.x), NatText(f.y), NatText(f.alignment)];
    DigitsExclude(NatText(f.x), ',');
    DigitsExclude(NatText(f.y), ',');
    DigitsExclude(NatText(f.alignment), ',');
    assert ',' !in Lexicon.FO + NatText(f.x);
    assert Join(parts[2..], ",") == NatText(f.alignment);
    assert Join(parts[1..], ",") == NatText(f.y) + "," + NatText(f.alignment) by {
      assert parts[1..][1..] == parts[2..];
    }
    assert GetPosition(f) == Join(parts, ",");
    SplitJoin(parts, ',');
  }

  /** What a reader of a position-wrapped line recovers. */
  datatype LineParts = LineParts(x: nat, y: nat, alignment: nat, invert: bool, content: string)

  /**
   * Reads a line of the shape EncapsuleLine produces: "^FO", two numbers each followed by a
   * comma, the alignment digits, an optional "^FR", the content, and "^FS". Any other shape,
   * such as the unpositioned font, comment and barcode-default lines, gives None.
   */
  function ParseLine(s: string): Option<LineParts> {
    if |s| < 6 || s[..3] != Lexicon.FO || s[|s| - 3..] != Lexicon.FS then None
    else ParseBody(s[3..|s| - 3])
  }

  /** The part of a line between "^FO" and "^FS": "x,y," then what ParseRest reads. */
  function ParseBody(body: string): Option<LineParts> {
    match Cut(body, ',')
    case None => None
    case Some(first) =>
      match Cut(first.1, ',')
      case None => None
      case Some(second) =>
        match (ParseNat(first.0), ParseNat(second.0), ParseRest(second.1))
        case (Some(x), Some(y), Some(r)) => Some(LineParts(x, y, r.0, r.1, r.2))
        case _ => None
  }

  /** The alignment digits, whether "^FR" follows, and the content after it. */
  function ParseRest(rest: string): Option<(nat, bool, string)> {
    var k := DigitSpan(rest);
    var tail := rest[k..];
    var invert := StartsWith(tail, Lexicon.FR);
    match ParseNat(rest[..k])
    case None => None
    case Some(a) => Some((a, invert, if invert then tail[3..] else tail))
  }

  lemma ParseLineWrapped(body: string)
    ensures ParseLine(Lexicon.FO + body + Lexicon.FS) == ParseBody(body)
  {
    var s := Lexicon.FO + body + Lexicon.FS;
    assert s[..3] == Lexicon.FO;
    assert s[|s| - 3..] == Lexicon.FS;
    assert s[3..|s| - 3] == body;
  }

  lemma ParseBodyOfNumbers(x: nat, y: nat, rest: string)
    ensures ParseBody(NatText(x) + [','] + (NatText(y) + [','] + rest))
         == match ParseRest(rest)
            case Some(r) => Some(LineParts(x, y, r.0, r.1, r.2))
            case None => None
  {
    DigitsExclude(NatText(x), ',');
    DigitsExclude(NatText(y), ',');
    CutAtSeparator(NatText(x), ',', NatText(y) + [','] + rest);
    CutAtSeparator(NatText(y), ',', rest);
    ParseNatText(x);
    ParseNatText(y);
  }

  lemma ParseRestOfAlignment(a: nat, invert: bool, content: string)
    requires !StartsWith(content, Lexicon.FR)
    requires content == [] || !IsDigit(content[0])
    ensures ParseRest(NatText(a) + (if invert then Lexicon.FR else "") + content) == Some((a, invert, content))
  {
    var zs := NatText(a);
    var tail := (if invert then Lexicon.FR else "") + content;
    var rest := zs + tail;
    assert rest == NatText(a) + (if invert then Lexicon.FR else "") + content;
    DigitSpanOfDigits(zs, tail);
    assert rest[..|zs|] == zs;
    assert rest[|zs|..] == tail;
    if invert {
      assert tail[..3] == Lexicon.FR;
      assert tail[3..] == content;
    }
    ParseNatText(a);
  }

  /** A wrapped line, with its three numbers written out. */
  lemma LineShape(f: Placement, content: string)
    ensures EncapsuleLine(f, content)
         == Lexicon.FO + (NatText(f.x) + [','] + (NatText(f.y) + [','] +
              (NatText(f.alignment) + (if f.invertOnOverlap then Lexicon.FR else "") + content))) + Lexicon.FS
  {
    var xs, ys, zs := NatText(f.x), NatText(f.y), NatText(f.alignment);
    var inv := if f.invertOnOverlap then Lexicon.FR else "";
    assert GetPosition(f) == Lexicon.FO + xs + ("," + ys) + ("," + zs) by {
      assert IntText(f.x) == xs && IntText(f.y) == ys && IntText(f.alignment) == zs;
    }
    Regroup(Lexicon.FO, xs, ys, zs, inv, content, Lexicon.FS);
  }

  lemma Regroup(p: string, a: string, b: string, c: string, inv: string, content: string, s: string)
    ensures p + a + ("," + b) + ("," + c) + inv + content + s == p + (a + [','] + (b + [','] + (c + inv + content))) + s
  {
  }

  /**
   * Reading a wrapped line gives back the field's origin, alignment, inversion flag and content,
   * as long as the content cannot be confused with the wrapper: it does not start with "^FR"
   * and does not start with a digit (every render's content starts with a caret).
   */
  lemma EncapsuleLineRoundTrip(f: Placement, content: string)
    requires !StartsWith(content, Lexicon.FR)
    requires content == [] || !IsDigit(content[0])
    ensures ParseLine(EncapsuleLine(f, content))
         == Some(LineParts(f.x, f.y, f.alignment, f.invertOnOverlap, content))
  {
    var rest := NatText(f.alignment) + (if f.invertOnOverlap then Lexicon.FR else "") + content;
    var body := NatText(f.x) + [','] + (NatText(f.y) + [','] + rest);
    LineShape(f, content);
    ParseLineWrapped(body);
    ParseBodyOfNumbers(f.x, f.y, rest);
    ParseRestOfAlignment(f.alignment, f.invertOnOverlap, content);
  }

  /** A fresh field's line starts "^FO0,0,0" and carries no "^FR". */
  lemma OriginLine(content: string)
    ensures EncapsuleLine(Origin, content) == "^FO0,0,0" + content + "^FS"
  {
    assert NatText(0) == "0";
  }

  /**
   * A ZebraField object. Its five properties are written only through setters that clamp;
   * `invertOnOverlap` is a plain public field.
   */
  class ZebraField {
    var x: int
    var y: int
    var height: int
    var width: int
    var alignment: int
    var invertOnOverlap: bool

    ghost predicate Valid()
      reads this
    {
      Frame(x, y, width, height, alignment, invertOnOverlap).Clamped()
    }

    /** The object's state as a placement. */
    function State(): Placement
      reads this
      requires Valid()
    {
      Frame(x, y, width, height, alignment, invertOnOverlap)
    }

    constructor ()
      ensures Valid() && State() == Origin
    {
      x, y, height, width, alignment := 0, 0, 0, 0, 0;
      invertOnOverlap := false;
    }

    method SetX(value: int)
      requires Valid()
      modifies this`x
      ensures Valid() && State() == AssignX(old(State()), value)
    {
      x := ConfineInt(value);
    }

    method SetY(value: int)
      requires Valid()
      modifies this`y
      ensures Valid() && State() == AssignY(old(State()), value)
    {
      y := ConfineInt(value);
    }

    method SetHeight(value: int)
      requires Valid()
      modifies this`height
      ensures Valid() && State() == AssignHeight(old(State()), value)
    {
      height := ConfineInt(value);
    }

    method SetWidth(value: int)
      requires Valid()
      modifies this`width
      ensures Valid() && State() == AssignWidth(old(State()), value)
    {
      width := ConfineInt(value);
    }

    method SetAlignment(value: int)
      requires Valid()
      modifies this`alignment
      ensures Valid() && State() == AssignAlignment(old(State()), value)
    {
      alignment := ConfineInt(value, upper := 2);
    }
  }
}
