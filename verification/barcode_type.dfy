/**
 * The barcode type text of the QuickZebra iteration (Library/Options/ZebraBarcodeType.cs):
 * a ZBarcodeType is the comma-joined list of the parameters that follow "^B", and the CODE128
 * struct keeps six settings from which its `Type` getter rebuilds that list on every read.
 */
module BarcodeTypes {
  import opened Wrappers
  import opened Strings

  /** A ZBarcodeType: its `Options` text, which is also what `ToString()` gives. */
  datatype BarcodeType = BarcodeType(options: string)

  /** `new ZBarcodeType(options)`: the options joined with commas. */
  function FromOptions(options: seq<string>): BarcodeType {
    BarcodeType(Join(options, ","))
  }

  /** The options of a type can be read back by splitting at the commas. */
  lemma OptionsRecoverable(options: seq<string>)
    requires |options| > 0
    requires forall i :: 0 <= i < |options| ==> ',' !in options[i]
    ensures Split(FromOptions(options).options, ',') == options
  {
    SplitJoin(options, ',');
  }

  /** `ZBarcodeType.ToAnswer(option)`: the yes/no flag as a one-letter string. */
  function ToAnswer(option: bool): (s: string)
    ensures s == "Y" || s == "N"
    ensures option <==> s == "Y"
  {
    if option then "Y" else "N"
  }

  /** `TryToString(elem)`: the element's text, or the empty string for null. */
  function TryToString(elem: Option<int>): (s: string)
    ensures elem.None? <==> s == ""
    ensures ',' !in s
    ensures elem.Some? ==> s == IntText(elem.value)
    ensures elem.Some? && elem.value >= 0 ==> ParseNat(s) == Some(elem.value)
    ensures elem.Some? && elem.value < 0 ==> s[0] == '-' && ParseNat(s[1..]) == Some(-elem.value)
  {
    match elem
    case None => ""
    case Some(v) => IntTextFacts(v); IntText(v)
  }

  lemma IntTextFacts(n: int)
    ensures ',' !in IntText(n)
    ensures n >= 0 ==> ParseNat(IntText(n)) == Some(n)
    ensures n < 0 ==> IntText(n)[0] == '-' && ParseNat(IntText(n)[1..]) == Some(-n)
  {
    if n >= 0 {
      ParseNatText(n);
    } else {
      ParseNatText(-n);
      assert IntText(n)[1..] == NatText(-n);
    }
    var s := IntText(n);
    forall i | 0 <= i < |s|
      ensures s[i] != ','
    {
    }
  }

  /** The six segments a CODE128 type is built from. */
  function Code128Options(initial: string, orientation: string, height: Option<int>, interpretLine: bool,
                          lineAbove: bool, checkDigit: bool, mode: string): seq<string>
  {
    [initial + orientation, TryToString(height), ToAnswer(interpretLine), ToAnswer(lineAbove),
     ToAnswer(checkDigit), mode]
  }

  /**
   * A CODE128 type text always has six comma-separated segments: code and orientation, the
   * height (empty when unset), the three yes/no flags in order, and the mode.
   */
  lemma Code128Segments(initial: string, orientation: string, height: Option<int>, interpretLine: bool,
                        lineAbove: bool, checkDigit: bool, mode: string)
    requires ',' !in initial + orientation && ',' !in mode
    ensures var parts := Split(FromOptions(Code128Options(initial, orientation, height, interpretLine,
                                                           lineAbove, checkDigit, mode)).options, ',');
      && |parts| == 6
      && parts[0] == initial + orientation
      && parts[1] == TryToString(height)
      && (parts[1] == "" <==> height.None?)
      && (height.Some? ==> parts[1] == IntText(height.value))
      && (parts[2] == "Y" <==> interpretLine)
      && (parts[3] == "Y" <==> lineAbove)
      && (parts[4] == "Y" <==> checkDigit)
      && parts[5] == mode
  {
    var options := Code128Options(initial, orientation, height, interpretLine, lineAbove, checkDigit, mode);
    OptionsRecoverable(options);
  }

  /** With every setting at its default, the type text is "CN,,Y,N,N,N". */
  lemma DefaultCode128Text()
    ensures FromOptions(Code128Options("C", "N", None, true, false, false, "N")).options == "CN,,Y,N,N,N"
  {
    var options := Code128Options("C", "N", None, true, false, false, "N");
    assert "C" + "N" == "CN";
    assert options == ["CN", "", "Y", "N", "N", "N"];
    assert Join(options[5..], ",") == "N";
    assert Join(options[4..], ",") == "N,N" by { assert options[4..][1..] == options[5..]; }
    assert Join(options[3..], ",") == "N,N,N" by { assert options[3..][1..] == options[4..]; }
    assert Join(options[2..], ",") == "Y,N,N,N" by { assert options[2..][1..] == options[3..]; }
    assert Join(options[1..], ",") == ",Y,N,N,N" by { assert options[1..][1..] == options[2..]; }
  }

  /**
   * The CODE128 struct. Its settings are public fields; `Type` rebuilds the type from them on
   * every read and stores the result, so a value given to the setter is never read back.
   */
  class Code128 {
    var initial: string
    var orientation: string
    var height: Option<int>
    var interpretLine: bool
    var lineAbove: bool
    var checkDigit: bool
    var mode: string
    var storedType: BarcodeType

    /** The segments the current settings give. */
    function Options(): seq<string>
      reads this
    {
      Code128Options(initial, orientation, height, interpretLine, lineAbove, checkDigit, mode)
    }

    constructor ()
      ensures initial == "C" && orientation == "N" && height.None?
      ensures interpretLine && !lineAbove && !checkDigit && mode == "N"
      ensures storedType.options == "CN,,Y,N,N,N"
    {
      initial, orientation, height := "C", "N", None;
      interpretLine, lineAbove, checkDigit := true, false, false;
      mode := "N";
      DefaultCode128Text();
      storedType := FromOptions(Code128Options("C", "N", None, true, false, false, "N"));
    }

    /** The `Type` getter: the type of the current settings, whatever was stored before. */
    method GetType() returns (t: BarcodeType)
      modifies this`storedType
      ensures t == FromOptions(Options())
      ensures storedType == t
    {
      storedType := FromOptions(Options());
      t := storedType;
    }

    /** The `Type` setter. */
    method SetType(value: BarcodeType)
      modifies this`storedType
      ensures storedType == value
    {
      storedType := value;
    }
  }
}
