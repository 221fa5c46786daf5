# QuickZebra label builder, modelled in Dafny

QuickZebra builds labels in ZPL II, the page language of Zebra label printers. A label
(`ZebraLabel`) holds an ordered list of fields (text, fonts, comments, boxes, barcode
configurations, barcodes and placeholders). Every field carries a placement clamped to the
printer's coordinate range (`ZebraField`) and renders itself as one line of ZPL (`Zebrify`).
`GetLabelString` joins those lines between `^XA` and `^XZ`. `CallLabelary` checks the
requested output format and, in the QuickZebra generation, whether the fields fit on the label,
before it sends the code to a rendering service.

The repository has four generations of the label class:

- the QuickZebra library (`Library/QuickZebra/QuickZebra`);
- a root copy of it whose label-building part is the same text;
- the `Library` label with placeholders;
- the `Absolute` label, some of whose builders return a new list instead of changing the
  label.

The model covers all four generations and the element classes they use.

Modules:

- `Wrappers`: the `Option` type.
- `Strings`: digit text, `Join`, `Split` and their laws.
- `Lexicon`: the ZPL command tags.
- `ZebraFields`: the `ZebraField` base of the Library and QuickZebra generations, its clamping
  setters, and the position line `^FOx,y,a[^FR]…^FS` with a parser that reads it back.
- `AbsoluteFields`: the `ZebraField` of the Absolute generation.
- `BarcodeTypes`: `ZBarcodeType` and its `CODE128` options.
- `Elements`: every field kind as one datatype, with its constructor, initializers and
  rendering.
- `TextLists`: `FromList` and `ConvertMultilineText`, with C# 32-bit `int` arithmetic.
- `LabelSpec`: what the label classes compute, as functions of the field list: label string,
  placeholder replacement, maximum location and the preflight before a request.
- `QuickLabel`, `LibraryLabel`, `AbsoluteLabel`: the three label classes (the root label is
  `QuickLabel` with its own `CallLabelary`).

## Model

| member | source | states |
|---|---|---|
| ZebraFields.ConfineInt | Library/Elements/ZebraField.cs:62-63 | the result lies in [lower, upper] when lower <= upper; it equals the value when already inside, is upper whenever the value reaches upper, and is lower when the value is at or below lower but under upper (upper wins when the bounds cross) |
| ZebraFields.ZebraField.constructor | Library/Elements/ZebraField.cs:14-49 | a new field sits at the origin with zero size, alignment 0 and no inversion |
| ZebraFields.ZebraField.SetX | Library/Elements/ZebraField.cs:15-19 | the x coordinate becomes the value clamped to [0, 32000]; nothing else changes |
| ZebraFields.ZebraField.SetY | Library/Elements/ZebraField.cs:22-26 | the y coordinate becomes the clamped value; nothing else changes |
| ZebraFields.ZebraField.SetHeight | Library/Elements/ZebraField.cs:29-33 | the height becomes the clamped value; nothing else changes |
| ZebraFields.ZebraField.SetWidth | Library/Elements/ZebraField.cs:36-40 | the width becomes the clamped value; nothing else changes |
| ZebraFields.ZebraField.SetAlignment | Library/Elements/ZebraField.cs:43-47 | the alignment becomes the value clamped to [0, 2]; nothing else changes |
| ZebraFields.WithComma | Library/Elements/ZebraField.cs:70-74 | the definition: a comma, then the value's text; its contract is stated by ZebraFields.WithCommaSegments |
| ZebraFields.WithCommaSegments | Library/Elements/ZebraField.cs:70-74 | a comma-free value appended with a comma splits at commas into the empty text and the value's text (a null value gives the empty text), so every parameter is its own piece |
| ZebraFields.ToAnswer | Library/Elements/ZebraField.cs:91-92 | the answer is 'Y' or 'N', and 'Y' exactly when the flag is set |
| ZebraFields.GetPosition | Library/Elements/ZebraField.cs:80-81 | the position command starts with "^FO" and holds only digits and commas after it; ZebraFields.PositionParts gives its three parts |
| ZebraFields.PositionParts | Library/Elements/ZebraField.cs:80-81 | the position command splits at commas into "^FO" with x, then y, then the alignment |
| ZebraFields.EncapsuleLine | Library/Elements/ZebraField.cs:88-89 | the line starts with the position command and ends with "^FS", three characters longer again when the field inverts; ZebraFields.EncapsuleLineRoundTrip reads it back |
| ZebraFields.EncapsuleLineRoundTrip | Library/Elements/ZebraField.cs:88-89 | parsing an encapsulated line gives back x, y, alignment, the inversion flag and the content, for any content that does not itself start with "^FR" or a digit |
| ZebraFields.OriginLine | Library/Elements/ZebraField.cs:88-89 | a field at the origin renders as "^FO0,0,0", the content, then "^FS" |
| AbsoluteFields.ZebraField.constructor | Absolute/ZebraField.cs:12-56 | a new Absolute field sits at the origin, and its orientation, margin and padding are 0 |
| AbsoluteFields.ZebraField.SetX | Absolute/ZebraField.cs:13-17 | the x coordinate becomes the clamped value; nothing else changes |
| AbsoluteFields.ZebraField.SetY | Absolute/ZebraField.cs:20-24 | the y coordinate becomes the clamped value; nothing else changes |
| AbsoluteFields.ZebraField.SetHeight | Absolute/ZebraField.cs:28-32 | the height becomes the clamped value; nothing else changes |
| AbsoluteFields.ZebraField.SetWidth | Absolute/ZebraField.cs:35-39 | the width becomes the clamped value; nothing else changes |
| AbsoluteFields.ZebraField.SetAlignment | Absolute/ZebraField.cs:45-49 | the alignment becomes the value clamped to [0, 2]; nothing else changes |
| AbsoluteFields.ZebraField.EncapsuleLine | Absolute/ZebraField.cs:77-78 | the Absolute field's line parses back to its x, y, alignment, inversion flag and content, for any content that does not start with "^FR" or a digit |
| AbsoluteFields.ExtrasInvisible | Absolute/ZebraField.cs:42-78 | writing the public fields orientation, margin or padding (and nothing else) leaves the field valid and its encapsulated line unchanged |
| Lexicon.Tags | Options/ZebraLexicon.cs:17-67 | the lexicon has eleven tags, each a caret and two capital letters, all different |
| BarcodeTypes.OptionsRecoverable | Library/Options/ZebraBarcodeType.cs:68-69 | the options joined by the type's constructor split back into the same list when none holds a comma |
| BarcodeTypes.ToAnswer | Library/Options/ZebraBarcodeType.cs:70-71 | the answer is "Y" or "N", and "Y" exactly when the option is set |
| BarcodeTypes.TryToString | Library/Options/ZebraBarcodeType.cs:73-74 | a missing value gives "" and only then; a present value gives its decimal text, which holds no comma; a non-negative value's text parses back to the value, and a negative value's text is a minus sign followed by the text of its magnitude |
| BarcodeTypes.Code128Segments | Library/Options/ZebraBarcodeType.cs:116-128 | the CODE128 type text splits into six parts: initial and orientation; the height's text (the decimal text of a present height, empty exactly when it is missing); line, line above and check digit, each Y/N answer matching its flag; and the mode |
| BarcodeTypes.DefaultCode128Text | Library/Options/ZebraBarcodeType.cs:83-113 | the default CODE128 settings give the type text "CN,,Y,N,N,N" |
| BarcodeTypes.Code128.constructor | Library/Options/ZebraBarcodeType.cs:132-142 | a new CODE128 has the defaults (C, N, no height, line on, the rest off, mode N) and stores the type "CN,,Y,N,N,N" |
| BarcodeTypes.Code128.GetType | Library/Options/ZebraBarcodeType.cs:116-128 | the getter rebuilds the type from the current settings and stores it |
| BarcodeTypes.Code128.SetType | Library/Options/ZebraBarcodeType.cs:129 | the setter stores the given type and leaves the settings alone |
| Elements.NewText | Library/Elements/ZebraText.cs:16-17 | a new text field sits at the origin and holds its string; Elements.TextDataReadsBack gives its render |
| Elements.NewFont | Library/Elements/ZebraFont.cs:15-20 | a new font field is 30 dots high at the origin and keeps its font letter |
| Elements.NewComment | Library/Elements/ZebraComment.cs:12-13 | a new comment field sits at the origin and holds its comment; Elements.CommentReadsBack gives its render |
| Elements.NewPlaceHolder | Library/Elements/ZebraPlaceHolder.cs:11-12 | a new placeholder sits at the origin and its id is the one given; Elements.PlaceHolderLine gives its render |
| Elements.NewBox | Library/QuickZebra/QuickZebra/Elements/ZebraGraphicalBox.cs:16-21 | a new QuickZebra box sits at the origin with zero size and keeps thickness, colour and rounding; Elements.BoxSegments gives its command |
| Elements.NewAbsoluteBox | Absolute/ZebraGraphicalBox.cs:15-23 | a new Absolute box has the clamped width and height and keeps thickness, colour and rounding as given |
| Elements.NewBarcodeConfig | Library/Elements/ZebraBarcodeConfig.cs:13-18 | the bar width is confined to [1, 100], the height to [1, 32000], and the ratio is kept |
| Elements.NewFlaggedBarcode | Library/Elements/ZebraBarcode.cs:21-32 | a Library barcode at the origin keeps its content; a missing type is 'C', a missing orientation 'N' and a missing mode 'N', given ones are kept; height and the three flags are kept; Elements.FlaggedSegments gives its command |
| Elements.NewNullableBarcode | Absolute/ZebraBarcode.cs:19-29 | an Absolute barcode at the origin keeps its content and stores every optional parameter as given; Elements.NullableSegments gives its command |
| Elements.Placed | Library/QuickZebra/QuickZebra/ZebraLabel.cs:63-68 | the initializer sets x and y to their clamped values and the inversion flag as given; size, alignment, kind and payload are unchanged |
| Elements.Sized | Library/QuickZebra/QuickZebra/ZebraLabel.cs:142-149 | the initializer sets width and height to their clamped values; position, alignment, inversion, kind and payload are unchanged |
| Elements.NewTypedBarcode | Library/QuickZebra/QuickZebra/Elements/ZebraBarcode.cs:19-23 | a QuickZebra barcode keeps its content, and without a type it uses the default CODE128 type "CN,,Y,N,N,N" |
| Elements.Render | Library/Elements/ZebraText.cs:42-43 | every Zebrify: a positioned field's line starts with its position command and ends with "^FS"; a font starts with "^CF", a comment with "^FX" and a barcode configuration with "^BY"; Elements.RenderReadsBack and the segment lemmas give the rest |
| Elements.Id | Library/Elements/ZebraPlaceHolder.cs:11-15 | a field has an id exactly when it is a placeholder, and that id is the placeholder's |
| Elements.ContentSafe | Library/Elements/ZebraBarcode.cs:38-41 | the content of every positioned field starts with a caret command, so it can never be misread as "^FR" or as part of the alignment |
| Elements.RenderReadsBack | Library/Elements/ZebraText.cs:42-43 | a positioned field's line parses back to its placement and content; a font, comment or configuration line does not parse as a position line |
| Elements.TextDataReadsBack | Library/Elements/ZebraText.cs:42-43 | a text field's content is "^FD" followed by its string unchanged |
| Elements.CommentReadsBack | Library/Elements/ZebraComment.cs:18-19 | a comment renders as "^FX ", then the comment unchanged |
| Elements.FontSegments | Library/Elements/ZebraFont.cs:25-27 | a font line splits into "^CF" with the letter, then the height, then an empty width |
| Elements.BarcodeConfigSegments | Library/Elements/ZebraBarcodeConfig.cs:23-24 | a configuration line splits into "^BY" with the width, then the ratio, then the height |
| Elements.BoxSegments | Library/QuickZebra/QuickZebra/Elements/ZebraGraphicalBox.cs:25-27 | a box command splits into "^GB" with the width, then height, thickness, colour and rounding |
| Elements.FlaggedSegments | Library/Elements/ZebraBarcode.cs:38-41 | a Library barcode command splits into six parts: "^B" with the type and orientation; the height's text (the decimal text of a present height, empty exactly when it is missing); then the three Y/N answers and the mode |
| Elements.NullableSegments | Absolute/ZebraBarcode.cs:34-37 | an Absolute barcode command splits into six parts: "^BC" with the orientation; the height's text (the decimal text of a present height, empty exactly when it is missing); then line, line above, check digit and mode, each the character given or empty when missing |
| Elements.PlaceHolderLine | Library/Elements/ZebraPlaceHolder.cs:17-18 | a new placeholder renders at the origin as "^FD" and "Placeholder: " with its id |
| TextLists.Wrap32 | Library/Elements/ZebraText.cs:33-34 | the C# sum is a 32-bit value congruent to the true sum, and equals it when it fits |
| TextLists.FromList | Library/Elements/ZebraText.cs:19-37 | the list holds one text field per string, in order: row i has string i at the clamped 32-bit position start + i * increment |
| TextLists.ConvertMultilineText | Absolute/ZebraText.cs:18-31 | the column starts at the receiver's position, copies its alignment and has no inversion |
| TextLists.ColumnAppend | Library/Elements/ZebraText.cs:25-35 | the column of two lists is the first list's column, then the second's started where the accumulators stopped |
| TextLists.ColumnExactPositions | Library/Elements/ZebraText.cs:25-35 | while the column stays within [0, 32000], row i sits exactly at (x + i * dx, y + i * dy) |
| TextLists.ColumnRendersData | Library/Elements/ZebraText.cs:42-43 | every row renders as a position line that reads back to "^FD" and its string |
| LabelSpec.Renders | Library/QuickZebra/QuickZebra/ZebraLabel.cs:233 | one rendered line per field, in field order |
| LabelSpec.LabelString | Library/QuickZebra/QuickZebra/ZebraLabel.cs:231-236 | the definition: the renders, between "^XA" and "^XZ" when wrapping, joined by line breaks or nothing; its contract is stated by LabelSpec.EmptyLabelString, LabelSpec.WrappedLabelString, LabelSpec.LabelStringAppend and LabelSpec.NewlinedLabelLines |
| LabelSpec.EmptyLabelString | Library/QuickZebra/QuickZebra/ZebraLabel.cs:231-236 | a label without fields gives "^XA^XZ" |
| LabelSpec.WrappedLabelString | Library/QuickZebra/QuickZebra/ZebraLabel.cs:231-236 | the wrapped string is the bare string between "^XA" and "^XZ" |
| LabelSpec.RendersAppend | Library/QuickZebra/QuickZebra/ZebraLabel.cs:233 | rendering two field lists one after the other gives the concatenated lines |
| LabelSpec.LabelStringAppend | Library/QuickZebra/QuickZebra/ZebraLabel.cs:231-236 | the bare string of two field lists is the concatenation of their bare strings |
| LabelSpec.NewlinedLabelLines | Library/QuickZebra/QuickZebra/ZebraLabel.cs:231-236 | the newlined string splits at line breaks back into the rendered lines, with "^XA" and "^XZ" around them when wrapped |
| LabelSpec.FindIndex | Library/ZebraLabel.cs:248 | the index is -1 exactly when no field has the id; otherwise it is the first field with the id |
| LabelSpec.ReplaceHolderIn | Library/ZebraLabel.cs:246-255 | removing at the found index and inserting there gives the replaced list |
| LabelSpec.ReplaceFirstPlaceHolder | Library/ZebraLabel.cs:246-255 | the first placeholder with the id gives way to the inserted fields; everything before and after stays in order |
| LabelSpec.ReplaceWithoutMatch | Library/ZebraLabel.cs:249 | when no field has the id, the list is unchanged |
| LabelSpec.ReplacedLength | Library/ZebraLabel.cs:246-255 | the replaced list is one field shorter plus the inserted fields on a match, and the same length otherwise |
| LabelSpec.Step | Library/QuickZebra/QuickZebra/ZebraLabel.cs:269-286 | one loop pass: a font becomes the active font and leaves the maxima alone; any other field leaves the font alone and raises each maximum to its reach (a text's with the active font's size); the maxima never decrease |
| LabelSpec.ScanAll | Library/QuickZebra/QuickZebra/ZebraLabel.cs:264-288 | the definition: the loop state after all fields from (0, 0); its contract is stated by LabelSpec.ScanFont, LabelSpec.MaxLocationBounds, LabelSpec.MaxLocationAttained and LabelSpec.MaxLocationNonNegative |
| LabelSpec.ScanFont | Library/QuickZebra/QuickZebra/ZebraLabel.cs:272-275 | the font the scan carries is the one set by the last font field so far, or (0, 0) |
| LabelSpec.MaxLocationBounds | Library/QuickZebra/QuickZebra/ZebraLabel.cs:264-288 | every non-font field's reach (its position plus its size, or plus the active font's size for text) is at most the maximum location |
| LabelSpec.MaxLocationAttained | Library/QuickZebra/QuickZebra/ZebraLabel.cs:264-288 | each coordinate of the maximum location is 0 or the reach of some non-font field |
| LabelSpec.MaxLocationNonNegative | Library/QuickZebra/QuickZebra/ZebraLabel.cs:266 | the maximum location is never negative |
| LabelSpec.Preflight | Library/QuickZebra/QuickZebra/ZebraLabel.cs:306-361 | the bounds error happens exactly when the border check is on and the fields exceed the dots; otherwise the request goes out exactly when the format is pdf or png, and the format error happens otherwise |
| LabelSpec.FormatCheck | Library/ZebraLabel.cs:297-300 | the request goes out exactly when the format is pdf or png, and there is never a bounds error |
| LabelSpec.PreflightWithoutBorderCheck | Library/QuickZebra/QuickZebra/ZebraLabel.cs:313-318 | with the border check off, only the format decides |
| LabelSpec.MmToNextInch | Library/QuickZebra/QuickZebra/ZebraLabel.cs:243-244 | for non-negative millimetres the result is the whole number of inches plus one, at least 1; for negative ones the truncated inches plus one, at most 1 |
| LabelSpec.MmToNextInchExamples | Library/QuickZebra/QuickZebra/ZebraLabel.cs:243-244 | 25 mm gives 1, 26 mm gives 2, 0 mm gives 1 and 127 mm (exactly 5 inches) gives 6 |
| QuickLabel.Inches | Library/QuickZebra/QuickZebra/ZebraLabel.cs:32-34 | an inch size is kept; a metric side of 0 mm or more becomes its whole inches plus one, and a negative one its truncated inches plus one (at most 1) |
| QuickLabel.BarcodeFields | Library/QuickZebra/QuickZebra/ZebraLabel.cs:195-209 | a configuration field comes first only when dimensions are given (width 2, ratio 3, height 10 by default), then the placed barcode |
| QuickLabel.ZebraLabel.constructor | Library/QuickZebra/QuickZebra/ZebraLabel.cs:29-38 | a new label is empty, 4 by 6 inches at 8 dots per millimetre and grayscale unless given, with a metric size turned into inches |
| QuickLabel.ZebraLabel.AddField | Library/QuickZebra/QuickZebra/ZebraLabel.cs:44-45 | the field is appended |
| QuickLabel.ZebraLabel.AddFields | Library/QuickZebra/QuickZebra/ZebraLabel.cs:51-52 | the list is appended in order |
| QuickLabel.ZebraLabel.AddText | Library/QuickZebra/QuickZebra/ZebraLabel.cs:61-70 | a text field at the clamped location is appended |
| QuickLabel.ZebraLabel.AddMultipleText | Library/QuickZebra/QuickZebra/ZebraLabel.cs:80-86 | the column of the strings is appended, stepping (0, 40) unless given |
| QuickLabel.ZebraLabel.AddMultipleTextDown | Library/QuickZebra/QuickZebra/ZebraLabel.cs:96-102 | the column of the strings is appended, stepping down by the given amount |
| QuickLabel.ZebraLabel.SetFont | Library/QuickZebra/QuickZebra/ZebraLabel.cs:109-117 | a font field with the given size is appended |
| QuickLabel.ZebraLabel.AddComment | Library/QuickZebra/QuickZebra/ZebraLabel.cs:124-128 | a comment field is appended |
| QuickLabel.ZebraLabel.DrawBox | Library/QuickZebra/QuickZebra/ZebraLabel.cs:139-151 | a box with the given size, thickness, colour and rounding is appended at the location |
| QuickLabel.ZebraLabel.DrawSquare | Library/QuickZebra/QuickZebra/ZebraLabel.cs:162-174 | a square box whose side is also its thickness is appended |
| QuickLabel.ZebraLabel.ConfigureBarcode | Library/QuickZebra/QuickZebra/ZebraLabel.cs:182-186 | a barcode configuration (width 2 and height 10 when missing) is appended |
| QuickLabel.ZebraLabel.DrawBarCode | Library/QuickZebra/QuickZebra/ZebraLabel.cs:195-209 | the barcode fields are appended |
| QuickLabel.ZebraLabel.MergeLabel | Library/QuickZebra/QuickZebra/ZebraLabel.cs:212-216 | the other label's fields, as they were, are appended (a label merged with itself doubles) |
| QuickLabel.ZebraLabel.MergeLabels | Library/QuickZebra/QuickZebra/ZebraLabel.cs:219-223 | each label's fields are appended in list order, each as it is at its turn |
| QuickLabel.ZebraLabel.GetLabelString | Library/QuickZebra/QuickZebra/ZebraLabel.cs:231-236 | the label string of the label's fields; wrapped and not newlined it is "^XA", the bare string, "^XZ", and "^XA^XZ" for an empty label |
| QuickLabel.ZebraLabel.CallLabelary | Library/QuickZebra/QuickZebra/ZebraLabel.cs:306-361 | the outcome is the preflight of the fields' maximum location against the label's dots, format and border check |
| QuickLabel.ZebraLabel.CallLabelaryFormatOnly | ZebraLabel.cs:260-269 | the root label's outcome depends on the format alone |
| QuickLabel.MergedOthers | Library/QuickZebra/QuickZebra/ZebraLabel.cs:219-223 | merging labels other than this one appends their fields concatenated in order |
| QuickLabel.MergedSelf | Library/QuickZebra/QuickZebra/ZebraLabel.cs:219-223 | merging a label with itself doubles its fields at each turn: once gives two copies, twice gives four |
| QuickLabel.GetMaxLocation | Library/QuickZebra/QuickZebra/ZebraLabel.cs:264-288 | the loop returns the maximum location of the scan over all fields |
| QuickLabel.TextAtLine | Library/QuickZebra/QuickZebra/ZebraLabel.cs:61-70 | text added on the label's range reads back at its location with "^FD" and the text |
| QuickLabel.BoxAtCommand | Library/QuickZebra/QuickZebra/ZebraLabel.cs:139-151 | a drawn box's command reads back its clamped size, thickness, colour and rounding |
| QuickLabel.FontOfIsActive | Library/QuickZebra/QuickZebra/ZebraLabel.cs:109-117 | after SetFont, the scan's active font is the new font's clamped width and height |
| QuickLabel.DefaultBarcodeLine | Library/QuickZebra/QuickZebra/ZebraLabel.cs:202-208 | a barcode without a type renders as "^BC" with "N,,Y,N,N,N", then "^FD" and the content, at the clamped location |
| LibraryLabel.FlaggedBarcodeAt | Library/ZebraLabel.cs:213-224 | the barcode keeps its content, defaults type C, orientation N and mode N, and keeps height and flags |
| LibraryLabel.ZebraLabel.constructor | Library/ZebraLabel.cs:31-39 | a new label is empty and keeps density, quality, size and padding |
| LibraryLabel.ZebraLabel.AddField | Library/ZebraLabel.cs:45-46 | the field is appended |
| LibraryLabel.ZebraLabel.AddFields | Library/ZebraLabel.cs:52-53 | one add per field appends the list in order |
| LibraryLabel.ZebraLabel.AddText | Library/ZebraLabel.cs:62-71 | a text field at the clamped location is appended |
| LibraryLabel.ZebraLabel.AddMultipleText | Library/ZebraLabel.cs:81-87 | the column of the strings is appended; missing start and step are 0, 0, 0 and 40 |
| LibraryLabel.ZebraLabel.SetFontDims | Library/ZebraLabel.cs:95-103 | a font field is appended, 30 high and 0 wide when not given |
| LibraryLabel.ZebraLabel.SetFont | Library/ZebraLabel.cs:110-118 | a font field with the given width and height is appended |
| LibraryLabel.ZebraLabel.AddComment | Library/ZebraLabel.cs:125-129 | a comment field is appended |
| LibraryLabel.ZebraLabel.DrawBox | Library/ZebraLabel.cs:140-152 | a box with the given style is appended at the location |
| LibraryLabel.ZebraLabel.DrawSquare | Library/ZebraLabel.cs:163-175 | a square box whose side is also its thickness is appended |
| LibraryLabel.ZebraLabel.SetPlaceHolder | Library/ZebraLabel.cs:182-186 | a placeholder is appended, and without an earlier one of its id it is the one a lookup finds |
| LibraryLabel.ZebraLabel.ConfigureBarcode | Library/ZebraLabel.cs:194-198 | a barcode configuration (width 2 and height 10 when missing) is appended |
| LibraryLabel.ZebraLabel.DrawBarCode | Library/ZebraLabel.cs:213-224 | the barcode is appended at the location, missing coordinates 0 |
| LibraryLabel.ZebraLabel.MergeLabel | Library/ZebraLabel.cs:227-231 | the other label's fields, as they were, are appended |
| LibraryLabel.ZebraLabel.MergeLabels | Library/ZebraLabel.cs:234-238 | each label's fields are appended in list order |
| LibraryLabel.ZebraLabel.ReplaceHolder | Library/ZebraLabel.cs:246-255 | the first placeholder with the id is replaced by the inserted fields, and the new list is returned |
| LibraryLabel.ZebraLabel.GetLabelString | Library/ZebraLabel.cs:263-268 | the label string of the label's fields; wrapped and not newlined it is "^XA", the bare string, "^XZ", and "^XA^XZ" for an empty label |
| LibraryLabel.ZebraLabel.CallLabelary | Library/ZebraLabel.cs:297-303 | the outcome depends on the format alone |
| LibraryLabel.PlaceHolderFound | Library/ZebraLabel.cs:182-186 | a placeholder appended to a list without its id is found at the end |
| LibraryLabel.SetThenReplace | Library/ZebraLabel.cs:246-255 | setting a fresh placeholder and replacing it appends the inserted fields |
| AbsoluteLabel.BoxAsWritten | Absolute/ZebraLabel.cs:125-134 | the box the code appends: the arguments bind positionally to (width, height, thickness) |
| AbsoluteLabel.BoxIntended | Absolute/ZebraLabel.cs:125-134 | the intended box keeps thickness, colour and rounding and has the clamped size and location |
| AbsoluteLabel.BoxAsWrittenLosesStyle | Absolute/ZebraLabel.cs:125-134 | as written, the box is always black with rounding 0, its thickness is the rounding, and its placement is the intended one |
| AbsoluteLabel.BoxAsWrittenCounterexample | Absolute/ZebraLabel.cs:125-134 | a white box with border 3 comes out as "^GB10,10,0,B,0" instead of "^GB10,10,3,W,0" |
| AbsoluteLabel.BoxIntendedKeepsStyle | Absolute/ZebraLabel.cs:125-134 | the intended box's command reads back the clamped size, thickness, colour and rounding |
| AbsoluteLabel.NullableBarcodeAt | Absolute/ZebraLabel.cs:144-152 | the barcode keeps its content and optional parameters at the clamped location |
| AbsoluteLabel.ZebraLabel.constructor | Absolute/ZebraLabel.cs:29-37 | a new label is empty and keeps density, quality, size and padding |
| AbsoluteLabel.ZebraLabel.AddField | Absolute/ZebraLabel.cs:43-44 | the field is appended |
| AbsoluteLabel.ZebraLabel.AddFields | Absolute/ZebraLabel.cs:50-51 | one add per field appends the list in order |
| AbsoluteLabel.ZebraLabel.AddText | Absolute/ZebraLabel.cs:60-66 | returns the fields with a text field appended; the label is unchanged |
| AbsoluteLabel.ZebraLabel.AddMultipleText | Absolute/ZebraLabel.cs:75-81 | the column of the strings is appended and the new list is returned |
| AbsoluteLabel.ZebraLabel.SetFontDims | Absolute/ZebraLabel.cs:92-97 | returns the fields with a font appended (30 high, 0 wide when not given); the label is unchanged |
| AbsoluteLabel.ZebraLabel.SetFont | Absolute/ZebraLabel.cs:100-105 | returns the fields with a 30-dot font appended; the label is unchanged |
| AbsoluteLabel.ZebraLabel.AddComment | Absolute/ZebraLabel.cs:108-109 | returns the fields with a comment appended; the label is unchanged |
| AbsoluteLabel.ZebraLabel.DrawBox | Absolute/ZebraLabel.cs:125-134 | the box the code builds is appended: clamped size and location, with thickness equal to the rounding, colour 'B' and rounding 0 (see Findings) |
| AbsoluteLabel.ZebraLabel.DrawBoxIntended | Absolute/ZebraLabel.cs:125-134 | the corrected box, keeping thickness, colour and rounding, is appended |
| AbsoluteLabel.ZebraLabel.SetPlaceHolder | Absolute/ZebraLabel.cs:138-139 | a placeholder is appended |
| AbsoluteLabel.ZebraLabel.ConfigureBarcode | Absolute/ZebraLabel.cs:141-142 | a barcode configuration with the given width, ratio and height is appended |
| AbsoluteLabel.ZebraLabel.DrawBarCode | Absolute/ZebraLabel.cs:144-152 | the barcode is appended at the location |
| AbsoluteLabel.ZebraLabel.ReplaceHolder | Absolute/ZebraLabel.cs:160-169 | the first placeholder with the id is replaced by the inserted fields, and the new list is returned |
| AbsoluteLabel.ZebraLabel.GetLabelString | Absolute/ZebraLabel.cs:177-182 | the label string of the label's fields; wrapped and not newlined it is "^XA", the bare string, "^XZ", and "^XA^XZ" for an empty label |
| AbsoluteLabel.ZebraLabel.CallLabelary | Absolute/ZebraLabel.cs:187-194 | the outcome depends on the format alone |

## Left out

- The request part of every `CallLabelary` is not modelled: the HTTP request, the response, the
  file written and the console output. The model stops at the outcome of the checks before the
  request: send, invalid format, or bounds exceeded with the four numbers the exception reports.
- `GetMaxDots` multiplies by the C# double 25.4 and truncates. It is not modelled: the maximum
  dots are a parameter of `QuickLabel.ZebraLabel.CallLabelary`.
- `mmToInches` (Library/ZebraLabel.cs:278-287) is not modelled. It works on doubles and nothing
  calls it.
- `GetLabelDimensionsInDots` of the Library label is not modelled: it is a stub that returns
  (0, 0).
- The `GetMaxLocation` stubs of the root and Library labels are not modelled: they return
  (0, 0) and nothing calls them.
- The ratio of a barcode configuration is a C# double. It is kept as the text it prints as
  ("3" for 3.0); double formatting is not modelled.
- The `catch` branch of `WithComma` is not modelled: `ToString` of an int, char or string does
  not throw.
- The builders return `this` for chaining. This is not modelled: the methods change the label
  and return nothing.
- The `offset` parameter of `MergeLabels` is ignored by the source and is left out.
- AbsoluteLabel.ZebraLabel.AddMultipleText, LibraryLabel.ZebraLabel.ReplaceHolder and
  AbsoluteLabel.ZebraLabel.ReplaceHolder return the label's own `List` object, so in C# a change
  to the returned list changes the label. The model returns a copy of the field sequence; this
  sharing is not modelled.
- Field objects are values in the model. Aliasing is not modelled: a field changed through
  another reference after it was added, or one object added twice and changed once.
- `Code128` is a C# struct, which is copied on assignment. The model has one object and does
  not model those copies.
- The Library and Absolute `AddFields` iterate with `List.ForEach`. Passing the label's own list
  makes C# throw, because the list changes during the iteration. The model appends a copy of the
  argument instead.
- The dots per unit, quality and padding of the labels are stored but only used in the request.
- Neither `ZebraField` base class shown declares `Id`, although `GetId` returns it. Only the
  placeholder sets it, so the model gives an id to the placeholder alone.
- The QuickZebra `ZebraText` has no `FromList`, yet its label calls it. The model uses the
  `FromList` of Library/Elements/ZebraText.cs, which is identical to the one in
  Elements/ZebraText.cs.
- The option classes (`ZMode`, `ZOrientation`, `ZBarcode`, `ZResolution`, `ZQuality`) are not
  modelled as classes. They are the characters and strings they stand for, and resolution M8
  is 8.
- The QuickZebra font keeps its width in `_fontW`, which stays null, so its `^CF` line carries
  only the height. The model renders that, and the width only takes part in `GetMaxLocation`.
- `GetMaxDimensions` (Library/Elements/ZebraText.cs:39-40) is modelled as the field's
  placement, which is what it returns.

## Findings

| source | as written | input that shows it | evidently intended | confidence | as-written member | corrected member |
|---|---|---|---|---|---|---|
| Absolute/ZebraLabel.cs:125-134 | `new ZebraGraphicalBox(dims.thickness, color, rounding)` binds positionally to the Absolute constructor's `(width, height, thickness, color, rounding)`. The thickness becomes the width, the colour's character code the height and the rounding the thickness; colour and rounding stay 'B' and 0 | `DrawBox((0, 0), (10, 10, 3), 'W')` renders "^GB10,10,0,B,0" | the box keeps its thickness, colour and rounding: "^GB10,10,3,W,0" | high (not executed) | AbsoluteLabel.BoxAsWrittenCounterexample | AbsoluteLabel.BoxIntendedKeepsStyle |
