# JLC2KiCad_lib in Dafny

JLC2KiCad_lib turns EasyEDA/JLCPCB component records into KiCad libraries: a symbol library
(`.kicad_sym`), a footprint (`.kicad_mod`) and a 3D model (STEP or VRML). The repository keeps an
older generation of the schematic and 3D-model code beside it, for the legacy `.lib` format. This
project models the deterministic core of both generations and proves what it promises:

- **Record dispatch and field decoding.** A shape record is split on `~`, its tag is looked up in a
  handler table, and the handler decodes positional fields into a drawn item. This covers the
  symbol, schematic, legacy schematic and footprint handlers: coordinate frames, pin type and
  rotation tables, field re-alignment, polygon pairing and closing, the pad decision table and the
  oblong-drill rule, the layer table with its fallback, the arc centre formula, and the discrete
  parts of the SVG 1.1 endpoint-to-centre arc conversion (appendix F.6.5 and F.6.6).
- **Library upserts.** The three `update_library` functions work on the old file content, a
  component name and its block. The skip, replace-first-match and insert-before-footer cases are
  modelled. The regex spans become explicit lazy index searches (`Text.LazySpan`, `Text.SubFirst`).
- **Footprint assembly.** `create_footprint` runs on two objects, the footprint (`KicadMod`) and
  `FootprintInfo`. The record loop widens the bounds, then the attribute is chosen, the nodes are
  translated, the bounds are shifted, and the three texts are placed.
- **3D models.** Three writers are modelled:
  - the material dictionary, the per-`usemtl` renumbering of vertex indices into a VRML97
    `IndexedFaceSet` (section 6.23 of ISO/IEC 14772-1:1997) with its duplicated last point, the
    model path, the offset and the duplicate-model guard;
  - the legacy writer's line classifier, its 0-based faces and its run-length colour list;
  - `Vector2` arithmetic.

Python floats are Dafny `real`s. String-to-number parsing (`float()`, `int()`), square roots and
trigonometry are fields of a `Py` value passed in. Number-to-text formatting is passed in as
renderer functions. Network responses become inputs: the fetched record, or the text of a mesh.
Library files become a map from path to content. Python's `IndexError`, `KeyError` and the other
exceptions are the error branch of `Wrappers.Result`. Where the source mutates objects in loops,
the model is a `class` with `modifies` clauses, or a `method` with a loop. Each is proved equal to a
function over values, and the properties are proved about that function.

Source paths below are relative to the repository root. Paths under `JLC2KiCadLib/` are the
package; `schematic/` and `footprint/` at the top are the legacy generation.

## Model

| member | source | states |
|---|---|---|
| Records.Tokens | JLC2KiCadLib/symbol/symbol.py:99-101 | the tokens of a record are the non-empty pieces of its `~` split, none of them empty |
| Records.ReplaySkips | JLC2KiCadLib/symbol/symbol.py:104-105 | a record that leaves every state as it was can be removed wherever it stands, and the records after it are still processed |
| Records.Replay | JLC2KiCadLib/footprint/footprint.py:68-75 | the record loop: each record on the state the previous left, stopping at the first exception; `Records.ReplayNext`, `Records.ReplayErrPersists` and `Records.ReplayConcat` state it |
| Records.ReplayErrPersists | JLC2KiCadLib/footprint/footprint.py:67-75 | an exception in one record ends the record loop: later records do not change the outcome |
| Records.IterateHalts | JLC2KiCadLib/symbol/symbol.py:43-51 | a uuid loop that has raised or returned early is not resumed by later rounds |
| Records.Iterate | JLC2KiCadLib/symbol/symbol.py:43-51 | the uuid loop over rounds, stopping at an exception or an early return; `Records.IterateHalts` and `Records.IterateRunningBefore` state it |
| Drawing.OpensConcat | JLC2KiCadLib/symbol/symbol.py:96-115 | the unit headers of two drawings add up |
| Drawing.OpensDrawn | JLC2KiCadLib/symbol/symbol.py:107-114 | shapes drawn by handlers add no unit header |
| Drawing.PinType | JLC2KiCadLib/symbol/symbol_handlers.py:126-137 | codes 1-4 give input, output, bidirectional, power_in; every other code (0 included) gives unspecified |
| Drawing.FloatField | JLC2KiCadLib/symbol/symbol_handlers.py:46-49 | `float(data[i])` succeeds exactly when the field exists and parses, with the parsed value |
| Drawing.IntField | JLC2KiCadLib/symbol/symbol_handlers.py:308-309 | `int(data[i])` succeeds exactly when the field exists and parses, with the parsed value |
| Drawing.PairsUpTo | JLC2KiCadLib/symbol/symbol_handlers.py:256-261 | n rounds of the pairing loop succeed exactly when 2n tokens exist and every pair parses, giving point k from tokens 2k and 2k + 1 |
| Drawing.PairsErrPersists | JLC2KiCadLib/symbol/symbol_handlers.py:256-261 | once a round of the pairing loop raises, later rounds are not reached |
| Drawing.PairsOddFails | JLC2KiCadLib/symbol/symbol_handlers.py:231-237 | with an odd number of tokens the last round of the `[::2]` loop raises |
| Drawing.PolyPoints | JLC2KiCadLib/symbol/symbol_handlers.py:232-237 | the pairing loop appends the points `PairsUpTo` describes |
| Drawing.Closed | JLC2KiCadLib/symbol/symbol_handlers.py:262 | closing keeps the points and repeats the first at the end; an empty list raises |
| Drawing.LibraryHeaderUnquoted | JLC2KiCadLib/symbol/symbol.py:11-13 | the library header holds no double quote, so no presence key can match inside it |
| Drawing.KeyInBlock | JLC2KiCadLib/symbol/symbol.py:118 | every block of a name carries that name's presence key `symbol "<name>"` |
| Records.ReplayNext | JLC2KiCadLib/footprint/footprint.py:68-75 | a record loop handles record `i` on the state the earlier records left |
| Records.ReplayInert | JLC2KiCadLib/footprint/footprint.py:72-73 | records that change nothing leave the state as it was |
| Records.ReplayConcat | JLC2KiCadLib/symbol/symbol.py:98-114 | running two lists of records is running the first, then the second from where the first stopped, unless the first raised |
| Records.IterateRunningBefore | JLC2KiCadLib/symbol/symbol.py:43-51 | a uuid loop still running after `k` rounds was running after `k - 1`, and round `k` continued from there |
| Drawing.HalfUp | JLC2KiCadLib/symbol/symbol_handlers.py:256 | ceil(n / 2): at least half of n and at most half of n + 1, the number of rounds of the pairing loop |
| Drawing.EveryOther | JLC2KiCadLib/symbol/symbol_handlers.py:256 | `ts[::2]` keeps the tokens at even positions in order, `HalfUp(n)` of them, so the loop runs once per token it pairs as x |
| Drawing.PrefixKept | JLC2KiCadLib/symbol/symbol.py:224-227 | text found in a prefix of the written file is still found in the file |
| Text.LazySpan | schematic/schematic.py:94 | the span of `open .*? close` with DOTALL starts at the leftmost match of the opener and ends at the first closer after it, with no closer in between; no span means no opener has a closer after it |
| Text.SubFirst | schematic/schematic.py:102 | `re.sub(..., count=1)` replaces the first span and keeps everything before and after it; without a span the text is unchanged |
| Text.FindPat | schematic/schematic.py:94 | the first position from which the pattern matches, with no match before it; or none at all |
| Text.Overwrite | JLC2KiCadLib/symbol/symbol.py:226-227 | writing from offset 0 without truncating: the new text comes first, and a longer old text keeps its tail |
| Text.RFindChar | JLC2KiCadLib/symbol/symbol.py:224 | `rfind` gives the last position of the character, or -1 when it does not occur |
| Text.PyPrefix | JLC2KiCadLib/symbol/symbol.py:224 | Python's `s[:k]`, negative `k` counting from the end |
| Text.Split | JLC2KiCadLib/footprint/footprint.py:69 | `str.split(sep)` gives at least one piece |
| Text.JoinSplit | JLC2KiCadLib/footprint/footprint.py:69 | joining the pieces of a split with the separator gives the text back |
| Text.NonEmptyMembers | JLC2KiCadLib/symbol/symbol.py:100 | dropping empty tokens keeps exactly the non-empty ones |
| Wrappers.Need | JLC2KiCadLib/symbol/symbol.py:47-50 | a missing value raises, a present one is passed on |
| Numeric.Mil2mm | JLC2KiCadLib/footprint/footprint_handlers.py:38-39 | the conversion divides by 3.937, so the result times 3.937 is the input |
| Numeric.Round3 | JLC2KiCadLib/symbol/symbol_handlers.py:142-148 | `round(x, 3)` lies within 0.0005 of `x`, is a whole number of thousandths, and keeps a non-negative value non-negative |
| Numeric.Round3Idempotent | JLC2KiCadLib/symbol/symbol_handlers.py:142-148 | rounding keeps a value that already has three decimals, so rounding twice is rounding once |
| Numeric.NatToStringRoundTrip | JLC2KiCadLib/footprint/model3d.py:155 | `str(n)` of a natural number reads back as `n` |
| SymbolHandlers.ToMm | JLC2KiCadLib/symbol/symbol_handlers.py:54-57 | a symbol point is (x - head.x)/3.937, -(y - head.y)/3.937 in millimetres, and `FromMm` gives the EasyEDA point back |
| SymbolHandlers.ToMmInjective | JLC2KiCadLib/symbol/symbol_handlers.py:23-24 | the millimetre conversion maps distinct points to distinct points |
| SymbolHandlers.StrokeStyle | JLC2KiCadLib/symbol/symbol_handlers.py:59-64 | the stroke style is `dash` exactly for the integer 1, `dot` exactly for the integer 2, `default` otherwise |
| SymbolHandlers.StrokeStyleOfField | JLC2KiCadLib/symbol/symbol_handlers.py:59-64 | a record field is a string, so a rectangle is always drawn with the `default` style |
| SymbolHandlers.DecodeRect | JLC2KiCadLib/symbol/symbol_handlers.py:46-72 | `h_R` succeeds exactly when field 8 exists and fields 0, 1, 4, 5 parse; the start is the converted corner and the end lies width and length away in EasyEDA units |
| SymbolHandlers.DecodeCircle | JLC2KiCadLib/symbol/symbol_handlers.py:80-90 | `h_E` succeeds exactly when fields 0-2 parse; the centre converts back to fields 0/1 and the radius is field 2 divided by 3.937 |
| SymbolHandlers.PinRotation | JLC2KiCadLib/symbol/symbol_handlers.py:145 | the pin angle is 180 for an empty field, otherwise the parsed angle plus 180 reduced into [0, 360) |
| SymbolHandlers.PinLength | JLC2KiCadLib/symbol/symbol_handlers.py:147-156 | horizontal pins take the absolute value after the last `h`, converted and rounded to three decimals; vertical ones the value after the last `v`, converted and not rounded; any other angle 2.54; each raises exactly when its number does not parse, and the length is never negative |
| SymbolHandlers.RoundPoint3 | JLC2KiCadLib/symbol/symbol_handlers.py:142-143 | the rounded pin position is within 0.0005 of the converted one in each coordinate, with three decimals |
| SymbolHandlers.ShowsLabel | JLC2KiCadLib/symbol/symbol_handlers.py:158-161 | a visibility field needs a `^^` (otherwise IndexError) and shows its label exactly when the piece after it is not `0` |
| SymbolHandlers.SizeField | JLC2KiCadLib/symbol/symbol_handlers.py:163-164 | an empty size field gives the default; otherwise the value with `pt` removed, divided by 3.937 |
| SymbolHandlers.DecodePin | JLC2KiCadLib/symbol/symbol_handlers.py:126-172 | `h_P` succeeds exactly when fields 3/4 parse and the angle (field 5), length (field 8), both shown flags (9, 17) and both sizes (16, 24) decode; the pin then has the type, number and name of fields 1, 2 and 13, the position of fields 3/4 converted and rounded to three decimals, and exactly those angle, length and sizes, with the angle in [0, 360) and the length non-negative |
| SymbolHandlers.TextRotation | JLC2KiCadLib/symbol/symbol_handlers.py:202 | the text angle is a multiple of 10 in [0, 3590], in tenths of a degree, equal to the EasyEDA angle plus 180 modulo 360 |
| SymbolHandlers.Justify | JLC2KiCadLib/symbol/symbol_handlers.py:208-213 | the text is right-justified exactly when the anchor is `end`, left-justified otherwise |
| SymbolHandlers.DecodeText | JLC2KiCadLib/symbol/symbol_handlers.py:196-223 | `h_T` succeeds exactly when there are at least 14 fields, fields 1/2 are floats, field 3 an int and the size field 6 decodes; the text is field 11 at fields 1/2 converted, with the angle of field 3, the font size of field 6 (15 when empty) and the justification of field 13 |
| SymbolHandlers.DecodePolyline | JLC2KiCadLib/symbol/symbol_handlers.py:231-247 | `h_PL` keeps empty tokens and succeeds exactly when field 0 exists, its token count is even and every pair parses; it draws one converted point per pair, unfilled |
| SymbolHandlers.DecodePolygon | JLC2KiCadLib/symbol/symbol_handlers.py:255-272 | `h_PG` drops empty tokens and succeeds exactly when field 0 exists and has a non-empty, even token list whose pairs all parse; it draws n pairs as n + 1 filled points with the first repeated at the end |
| SymbolHandlers.TriangleField | JLC2KiCadLib/symbol/symbol_handlers.py:280-282 | the rewritten path holds no `M`, `L`, `Z` or `C` |
| SymbolHandlers.DecodeTriangle | JLC2KiCadLib/symbol/symbol_handlers.py:280-283 | `h_PT` is `h_PG` on field 0 stripped of its path letters, and raises without a field |
| SymbolHandlers.ArrowTokens | JLC2KiCadLib/symbol/symbol_handlers.py:424-428 | the coordinate tokens of an arrowhead path are never empty |
| SymbolHandlers.DecodeArrow | JLC2KiCadLib/symbol/symbol_handlers.py:421-452 | `h_AR` draws nothing exactly when there are fewer than two tokens; otherwise a filled polygon over the pairs (an odd last token ignored), closed by its first point |
| SymbolHandlers.ClosedLine | JLC2KiCadLib/symbol/symbol_handlers.py:441-442 | closing a point list keeps its points in order and adds the first point once more |
| SymbolHandlers.ArrowShape | JLC2KiCadLib/symbol/symbol_handlers.py:430-442 | the arrowhead polygon has one converted point per full pair and ends on its first point |
| SymbolHandlers.StripAll | JLC2KiCadLib/symbol/symbol_handlers.py:296 | the kept path pieces are non-empty and do not start with white space |
| SymbolHandlers.ArcSign | JLC2KiCadLib/symbol/symbol_handlers.py:336 | the centre sign is -1 exactly when the large-arc and sweep flags are equal |
| SymbolHandlers.CorrectedRadii | JLC2KiCadLib/symbol/symbol_handlers.py:329-334 | radii that reach the end point are kept; corrected radii keep their ratio |
| SymbolHandlers.ArcRadicand | JLC2KiCadLib/symbol/symbol_handlers.py:341-345 | the radicand is never negative, at least the quotient, and equal to it when the quotient is not negative |
| SymbolHandlers.Clamp | JLC2KiCadLib/symbol/symbol_handlers.py:359 | the cosine is clamped into [-1, 1], unchanged inside it |
| SymbolHandlers.AngleBetween | JLC2KiCadLib/symbol/symbol_handlers.py:356-363 | the angle raises exactly when the product of the two lengths is zero, and always when either vector is zero (given `sqrt` gives a root that is zero only at zero); given `acos` lies in [0, pi], the angle lies in [-pi, pi] and is non-positive for a negative cross product and non-negative for a positive one |
| SymbolHandlers.AngleAntisymmetric | JLC2KiCadLib/symbol/symbol_handlers.py:356-363 | swapping the two vectors negates the angle unless they are parallel |
| SymbolHandlers.SweepAdjust | JLC2KiCadLib/symbol/symbol_handlers.py:373-376 | a clockwise arc ends with a non-positive extent, a counter-clockwise one with a non-negative extent; the extent moves by at most one full turn |
| SymbolHandlers.ArcShape | JLC2KiCadLib/symbol/symbol_handlers.py:313-400 | a zero radius raises, a zero denominator draws nothing, and a drawn arc starts and ends at the converted path end points |
| SymbolHandlers.DecodeArc | JLC2KiCadLib/symbol/symbol_handlers.py:286-311 | `h_A` raises when field 0 is missing, when a number of its path does not parse, or when a radius token is 0; a drawn arc starts at the two `M` numbers and ends at the last two `A` numbers, converted |
| SymbolHandlers.ParseArcPath | JLC2KiCadLib/symbol/symbol_handlers.py:292-311 | the path parses exactly when the `M` part has two numbers and the `A` part seven, all parsing; x1, y1 are the `M` numbers and rx, ry, rotation, large-arc, sweep, x2, y2 the seven `A` numbers, in that order |
| Symbol.Handle | JLC2KiCadLib/symbol/symbol.py:104-114 | an unknown tag changes nothing; a handler keeps earlier items and appends at most one drawn item (exactly one for R, E, P, T, PL, PG, PT); only a pin touches the hide flags, and only to clear them |
| Symbol.Step | JLC2KiCadLib/symbol/symbol.py:99-102 | the tag is the first non-empty `~` token and the fields the rest; a line without tokens raises IndexError |
| Symbol.RunLinesNext | JLC2KiCadLib/symbol/symbol.py:98 | the records are handled in order, each on the state the earlier ones left |
| Symbol.RunLines | JLC2KiCadLib/symbol/symbol.py:98-114 | the records in order, stopping at the first exception; `Symbol.RunLinesNext`, `Symbol.RunLinesErrPersists` and `Symbol.RunLinesMonotone` state it |
| Symbol.RunLinesErrPersists | JLC2KiCadLib/symbol/symbol.py:98-114 | an exception in a record ends the loop, whatever follows |
| Symbol.ExtendsTrans | JLC2KiCadLib/symbol/symbol.py:98-114 | growing the drawing and clearing flags, done twice, is still growing and clearing |
| Symbol.ReplayGrows | JLC2KiCadLib/symbol/symbol.py:98-114 | a loop whose every step only grows the drawing only grows it |
| Symbol.StepperGrows | JLC2KiCadLib/symbol/symbol.py:98-114 | every record step keeps earlier items and only clears flags |
| Symbol.RunLinesMonotone | JLC2KiCadLib/symbol/symbol_handlers.py:158-161 | over a whole record list the drawing keeps its earlier items and only gains drawn items, and the hide flags are kept or cleared to "" but never set again |
| Symbol.UnknownTagsSkipped | JLC2KiCadLib/symbol/symbol.py:104-105 | records whose tags have no handler leave the symbol unchanged |
| Symbol.KicadSymbol.constructor | JLC2KiCadLib/symbol/symbol.py:35-40 | a new symbol object has an empty drawing and both hide flags set |
| Symbol.KicadSymbol.Append | JLC2KiCadLib/symbol/symbol.py:96 | `drawing +=` appends one item and keeps the flags |
| Symbol.KicadSymbol.Apply | JLC2KiCadLib/symbol/symbol.py:107-114 | dispatching one record updates the object to what `Handle` gives, or leaves it as it was on an exception |
| Symbol.KicadSymbol.ApplyPolygon | JLC2KiCadLib/symbol/symbol_handlers.py:226-283 | the PL, PG, PT and AR pairing loops update the object to what `Handle` gives |
| Symbol.KicadSymbol.DrawLines | JLC2KiCadLib/symbol/symbol.py:98-114 | the record loop on the object ends in the state `RunLines` gives, and fails exactly when it does |
| Symbol.Lift | JLC2KiCadLib/symbol/symbol.py:107 | a handler that always draws is one that draws exactly one item |
| Symbol.ReplaceEachAvoids | JLC2KiCadLib/symbol/symbol.py:57-67 | a character in neither the title nor any replacement never appears |
| Symbol.ReplaceEachRemoves | JLC2KiCadLib/symbol/symbol.py:57-67 | a one-character pattern is gone after the chain when no later replacement inserts it |
| Symbol.ReplaceEachIdentity | JLC2KiCadLib/symbol/symbol.py:57-67 | a title with no pattern character comes back unchanged |
| Symbol.SanitiseTitle | JLC2KiCadLib/symbol/symbol.py:57-67 | none of space, `.`, `/`, `\`, `<`, `>`, `:`, `"` remains, and a title without them is kept as it is |
| Symbol.PatternsNonEmpty | JLC2KiCadLib/symbol/symbol.py:59-66 | every replaced pattern is non-empty |
| Symbol.TitleReplacementsAct | JLC2KiCadLib/symbol/symbol.py:57-67 | the replacement chain removes every forbidden character and keeps a clean title |
| Symbol.PatternsAreForbidden | JLC2KiCadLib/symbol/symbol.py:59-66 | the forbidden characters are exactly the patterns, in order |
| Symbol.TitleForbiddenGone | JLC2KiCadLib/symbol/symbol.py:57-67 | no forbidden character survives the chain |
| Symbol.ForbiddenAtIndexRemoved | JLC2KiCadLib/symbol/symbol.py:57-67 | no forbidden character, counted by position, survives the chain |
| Symbol.TitleKept | JLC2KiCadLib/symbol/symbol.py:57-67 | a title without forbidden characters is not changed |
| Symbol.TitlePatternsRemoved | JLC2KiCadLib/symbol/symbol.py:57-67 | each of the eight patterns is absent from the result |
| Symbol.TypeValues | JLC2KiCadLib/symbol/symbol.py:69-77 | the collected pairs come from the attributes with their values, in the fixed type order, and a type is collected exactly when present |
| Symbol.CollectTypeValues | JLC2KiCadLib/symbol/symbol.py:69-77 | the collecting loop gives the pairs `TypeValues` describes |
| Symbol.PropertyLines | JLC2KiCadLib/symbol/symbol.py:168-176 | one property per pair, in order, numbered start, start + 1, ... |
| Symbol.TypeValuesProperties | JLC2KiCadLib/symbol/symbol.py:168-176 | no pair gives "", one pair gives its property numbered `start` |
| Symbol.Block | JLC2KiCadLib/symbol/symbol.py:117-139 | a component block opens with `  (symbol "<name>" ` and ends with `\n  )\n` |
| Symbol.Framed | JLC2KiCadLib/symbol/symbol.py:117-139 | text framed by an opening and a closing starts and ends with them |
| Symbol.UpdateLibrary | JLC2KiCadLib/symbol/symbol.py:194-227 | a present name with skip leaves the file as it was; without skip the first `  (symbol "<name>" ... \n  )` span is replaced; otherwise the block and footer go after the text before the last `)` |
| Symbol.ReplaceKeepsOutside | JLC2KiCadLib/symbol/symbol.py:206-220 | replacing keeps every character before and after the first matching span and puts the block in between |
| Symbol.LastParenIsFooter | JLC2KiCadLib/symbol/symbol.py:224 | in a file ending with the footer the last `)` is the footer's |
| Symbol.FreshLibrary | JLC2KiCadLib/symbol/symbol.py:154-165 | a new library, header then footer, becomes header, block, footer |
| Symbol.InsertedIsFound | JLC2KiCadLib/symbol/symbol.py:200 | after an insertion the presence test of a rerun succeeds |
| Symbol.UnitsHalt | JLC2KiCadLib/symbol/symbol.py:43-51 | once the uuid loop has raised or returned, later uuids change nothing |
| Symbol.DrawUnitOpensOne | JLC2KiCadLib/symbol/symbol.py:96-115 | drawing a unit adds exactly one `(symbol "<title>_1"` header |
| Symbol.RoundOpens | JLC2KiCadLib/symbol/symbol.py:79-115 | a round adds a unit header exactly when its uuid is drawn |
| Symbol.IterateCounted | JLC2KiCadLib/symbol/symbol.py:43-115 | a loop whose rounds each count their header has as many headers as drawn uuids |
| Symbol.RoundsCountOpens | JLC2KiCadLib/symbol/symbol.py:43-115 | every round of `create_symbol` counts its header |
| Symbol.UnitsCounted | JLC2KiCadLib/symbol/symbol.py:82-96 | with two or more uuids the first is not drawn; every drawn uuid adds exactly one unit header |
| Symbol.Outcome | JLC2KiCadLib/symbol/symbol.py:141-165 | an early return writes nothing |
| Symbol.NoUuids | JLC2KiCadLib/symbol/symbol.py:117-119 | with no uuid the prefix is unbound and the template raises NameError |
| Symbol.NewFileIsHeaderBlockFooter | JLC2KiCadLib/symbol/symbol.py:153-165 | a missing library file is written as header, block, footer |
| Symbol.UnitsNext | JLC2KiCadLib/symbol/symbol.py:43 | the loop state after k + 1 uuids is one round on the state after k |
| Symbol.DrawUnitInto | JLC2KiCadLib/symbol/symbol.py:96-115 | drawing one unit into the object gives the state `DrawUnit` describes |
| Symbol.DrawUnit | JLC2KiCadLib/symbol/symbol.py:96-115 | a unit header, the records and a closing parenthesis; `Symbol.DrawUnitOpensOne` states it adds one header |
| Symbol.Round | JLC2KiCadLib/symbol/symbol.py:43-115 | one round on the object gives the loop state after one more uuid |
| Symbol.UnitStep | JLC2KiCadLib/symbol/symbol.py:43-115 | one round of the uuid loop: a failed fetch returns early, the first of several uuids only names the component, any other is drawn; `Symbol.RoundOpens` and `Symbol.UnitsCounted` state it |
| Symbol.RunUnits | JLC2KiCadLib/symbol/symbol.py:43-115 | the uuid loop on one object ends in the state `UnitsUpTo` gives after all uuids |
| Symbol.CreateSymbol | JLC2KiCadLib/symbol/symbol.py:25-165 | `create_symbol` gives the library files `CreateSymbolSpec` describes |
| Symbol.CreateSymbolSpec | JLC2KiCadLib/symbol/symbol.py:25-165 | the library files after `create_symbol`; `Symbol.Outcome`, `Symbol.NoUuids` and `Symbol.NewFileIsHeaderBlockFooter` state them |
| SchematicHandlers.UnplacePlace | JLC2KiCadLib/schematic/schematic_handlers.py:55-56 | the schematic placement x * scale - offsetX, -y * scale - offsetY is invertible for a non-zero scale |
| SchematicHandlers.PackagePlace | JLC2KiCadLib/schematic/schematic_handlers.py:4-6 | in the current frame X = 0.254 x - 101.6 and Y = -0.254 y + 63.5 |
| SchematicHandlers.RectSizeField | JLC2KiCadLib/schematic/schematic_handlers.py:17-26 | the width and height come from fields 4/5 in a 12-field record and from fields 2/3 otherwise |
| SchematicHandlers.DecodeRect | JLC2KiCadLib/schematic/schematic_handlers.py:16-44 | `h_R` succeeds exactly when the corner and size fields parse, and draws from the placed corner to the placed corner plus width and height |
| SchematicHandlers.RectSpan | JLC2KiCadLib/schematic/schematic_handlers.py:28-36 | the drawn rectangle spans the scaled width and the scaled height, y pointing down |
| SchematicHandlers.DecodeCircle | JLC2KiCadLib/schematic/schematic_handlers.py:54-64 | `h_E` succeeds exactly when fields 0-2 parse; centre placed, radius scaled |
| SchematicHandlers.Realign | JLC2KiCadLib/schematic/schematic_handlers.py:74-77 | a 24-field pin gets "0" inserted at index 5, a 28-field pin at index 1, every other field keeps its place; other lengths are unchanged |
| SchematicHandlers.PinRotation | JLC2KiCadLib/schematic/schematic_handlers.py:98-104 | the pin angle is always one of 0, 90, 180, 270: the field plus 180 for the four known fields, 0 otherwise |
| SchematicHandlers.PinLength | JLC2KiCadLib/schematic/schematic_handlers.py:106-109 | horizontal pins take the scaled absolute value after the last `h`, vertical ones after the last `v` |
| SchematicHandlers.DecodePinBase | JLC2KiCadLib/schematic/schematic_handlers.py:79-109 | type, number, name, placed position, rotation in {0, 90, 180, 270} and length come from fields 1, 2, 13, 3/4, 5 and 8 |
| SchematicHandlers.HideIf | JLC2KiCadLib/schematic/schematic_handlers.py:112-115 | a set hide flag is kept; an empty one is only ever set to the hiding value |
| SchematicHandlers.SizeField | JLC2KiCadLib/schematic/schematic_handlers.py:117-118 | a font size is the field without `pt`, scaled, and raises when it does not parse |
| SchematicHandlers.PinLabels | JLC2KiCadLib/schematic/schematic_handlers.py:111-121 | each hide flag is kept or set from empty, never cleared; the sizes are read when the block completes; an exception in the names flag keeps both flags, one in the numbers flag keeps the numbers flag after setting the names flag, and either leaves both sizes at the default, as does a size that does not parse |
| SchematicHandlers.DecodePin | JLC2KiCadLib/schematic/schematic_handlers.py:69-129 | `h_P` succeeds exactly when its realigned base fields do; the pin has the type, number, name, position, rotation and length `DecodePinBase` reads from the realigned fields, and the sizes and hide flags the label block gives |
| SchematicHandlers.Mod3600 | JLC2KiCadLib/schematic/schematic_handlers.py:140 | Python's float `% 3600` lies in [0, 3600) and differs from its input by whole multiples of 3600 |
| SchematicHandlers.TextAngle | JLC2KiCadLib/schematic/schematic_handlers.py:140 | the text angle lies in [0, 3600) and equals 10 a + 1800 up to whole turns of 3600 |
| SchematicHandlers.DecodeText | JLC2KiCadLib/schematic/schematic_handlers.py:137-152 | `h_T` succeeds exactly when fields 1, 2, 3 and the size parse and field 10 exists; text from field 10, placed position, angle in [0, 3600) |
| SchematicHandlers.DecodePolyline | JLC2KiCadLib/schematic/schematic_handlers.py:160-176 | `h_PL` keeps empty tokens and succeeds exactly when field 0 exists, its token count is even and every pair parses; it draws one placed point per pair, unfilled |
| SchematicHandlers.ClosedPath | JLC2KiCadLib/schematic/schematic_handlers.py:187-193 | a closed polygon succeeds exactly when the token list is non-empty and even and every pair parses; it has one placed point per pair and repeats its first point at the end |
| SchematicHandlers.DecodePolygon | JLC2KiCadLib/schematic/schematic_handlers.py:186-205 | `h_PG` is the closed polygon over the non-empty tokens of field 0 |
| SchematicHandlers.DecodeTriangle | JLC2KiCadLib/schematic/schematic_handlers.py:213-217 | `h_PT` is `h_PG` on field 0 without `M `, `L ` and ` Z`; the clean-up is the helper `SchematicHandlers.TriangleField`, part of this row |
| SchematicHandlers.PolygonShape | JLC2KiCadLib/schematic/schematic_handlers.py:160-215 | the point loops of PL, PG and PT give the shapes their functions describe |
| SchematicHandlers.RunEnd | JLC2KiCadLib/schematic/schematic_handlers.py:293 | the run of number characters ends at the first other character or the end |
| SchematicHandlers.ArcGroups | JLC2KiCadLib/schematic/schematic_handlers.py:293 | every kept regex group is a non-empty run of the class `[eE ,\-\+.\d]` |
| SchematicHandlers.ParseCentre | JLC2KiCadLib/schematic/schematic_handlers.py:229-236 | `getCenterParam` reads its numbers exactly when items 0 and 1 of the first match and items 0, 1, 3, 4, 5 and 6 of the second exist and parse; e and t are the first two, and s, l, r, o, n, a those six, in that order |
| SchematicHandlers.VectorAngle | JLC2KiCadLib/schematic/schematic_handlers.py:238-242 | the angle between two vectors raises exactly when the product of their norms is zero |
| SchematicHandlers.CentreSetup | JLC2KiCadLib/schematic/schematic_handlers.py:244-259 | a radius below 1e-5 returns the chord midpoint with extent pi; any other early return is the midpoint with zero angles |
| SchematicHandlers.CentreFrom | JLC2KiCadLib/schematic/schematic_handlers.py:251-271 | with non-negative radii the two early returns give the chord midpoint with extent pi or with zero angles |
| SchematicHandlers.CentreSweep | JLC2KiCadLib/schematic/schematic_handlers.py:260-271 | a degenerate ellipse (L = 0) returns the centre with zero angles |
| SchematicHandlers.EqualRadiiIgnoreRotation | JLC2KiCadLib/schematic/schematic_handlers.py:249-250 | with equal radii the rotation field plays no part |
| SchematicHandlers.Down | JLC2KiCadLib/schematic/schematic_handlers.py:284-285 | after `while m > f: m -= f` the extent is at most 2 pi |
| SchematicHandlers.Up | JLC2KiCadLib/schematic/schematic_handlers.py:286-287 | after `while m < 0: m += f` the extent is non-negative, unchanged if it was, and still at most 2 pi |
| SchematicHandlers.Normalised | JLC2KiCadLib/schematic/schematic_handlers.py:284-289 | the final extent lies in [0, 2 pi] when r is zero and in [-2 pi, 0] otherwise |
| SchematicHandlers.DownTurns | JLC2KiCadLib/schematic/schematic_handlers.py:284-285 | the first loop removes only whole turns |
| SchematicHandlers.UpTurns | JLC2KiCadLib/schematic/schematic_handlers.py:286-287 | the second loop adds only whole turns |
| SchematicHandlers.NormaliseSweep | JLC2KiCadLib/schematic/schematic_handlers.py:284-290 | the two `while` loops and the correction compute `Normalised` |
| SchematicHandlers.CentreSpec | JLC2KiCadLib/schematic/schematic_handlers.py:227-290 | outside the small-radius return the extent lies in [0, 2 pi] for r = 0 and in [-2 pi, 0] otherwise |
| SchematicHandlers.CentreParam | JLC2KiCadLib/schematic/schematic_handlers.py:227-290 | `getCenterParam` with its loops computes `CentreSpec` |
| SchematicHandlers.DecodeArc | JLC2KiCadLib/schematic/schematic_handlers.py:292-325 | `h_A` raises when field 0 is missing or its numbers do not parse, and otherwise exactly when `getCenterParam` raises; it then draws an arc through the circle points at half the start angle, plus half the extent and plus the whole extent, each placed in the current frame |
| SchematicHandlers.ArcCollapses | JLC2KiCadLib/schematic/schematic_handlers.py:270-271 | an arc with zero extent (the `not L` return) has its start, middle and end at one point |
| Schematic.Handle | JLC2KiCadLib/schematic/schematic.py:75-80 | an unknown tag changes nothing; only a pin record can raise (every other handler catches its exceptions); a handler keeps earlier items and appends at most one drawn item; only a pin touches the hide flags, and only to set an empty one |
| Schematic.Step | JLC2KiCadLib/schematic/schematic.py:72-75 | the tag is the first non-empty `~` token and the fields the rest; a line without tokens raises IndexError |
| Schematic.RunLinesNext | JLC2KiCadLib/schematic/schematic.py:71 | the records are handled in order, each on the state the earlier ones left |
| Schematic.RunLines | JLC2KiCadLib/schematic/schematic.py:71-80 | the records in order, stopping at the first exception; `Schematic.RunLinesNext`, `Schematic.RunLinesErrPersists` and `Schematic.RunLinesMonotone` state it |
| Schematic.RunLinesErrPersists | JLC2KiCadLib/schematic/schematic.py:71-80 | an exception in a record ends the loop, whatever follows |
| Schematic.ExtendsTrans | JLC2KiCadLib/schematic/schematic.py:71-80 | growing the drawing and setting empty flags, done twice, is still that |
| Schematic.ReplayGrows | JLC2KiCadLib/schematic/schematic.py:71-80 | a loop whose every step only grows the drawing only grows it |
| Schematic.StepperGrows | JLC2KiCadLib/schematic/schematic.py:71-80 | every record step keeps earlier items and only sets empty flags |
| Schematic.RunLinesMonotone | JLC2KiCadLib/schematic/schematic_handlers.py:112-115 | over a record list the drawing keeps its earlier items and gains only drawn items; a hide flag is set only while empty and a set flag is never cleared |
| Schematic.UnknownTagsSkipped | JLC2KiCadLib/schematic/schematic.py:77-78 | records whose tags have no handler leave the schematic unchanged |
| Schematic.KicadSchematic.constructor | JLC2KiCadLib/schematic/schematic.py:27-32 | a new schematic object has an empty drawing and both hide flags empty |
| Schematic.KicadSchematic.Append | JLC2KiCadLib/schematic/schematic.py:70 | `drawing +=` appends one item and keeps the flags |
| Schematic.KicadSchematic.Apply | JLC2KiCadLib/schematic/schematic.py:80 | dispatching one record updates the object to what `Handle` gives, or leaves it on an exception |
| Schematic.KicadSchematic.DrawLines | JLC2KiCadLib/schematic/schematic.py:71-80 | the record loop on the object ends in the state `RunLines` gives, and fails exactly when it does |
| Schematic.SanitiseTitle | JLC2KiCadLib/schematic/schematic.py:50-55 | no `/`, space or `.` remains, a title without them is kept, and nothing but `_` is introduced |
| Schematic.Block | JLC2KiCadLib/schematic/schematic.py:83-103 | a component block opens with `  (symbol "<name>" ` |
| Schematic.UpdateLibrary | JLC2KiCadLib/schematic/schematic.py:126-151 | (corrected presence test) a present name has its first block replaced; an absent one fails exactly when the file is shorter than the footer |
| Schematic.UpdateLibraryAsWritten | JLC2KiCadLib/schematic/schematic.py:126-151 | as written, a content holding `symbol "<name>" (pin_names` has its first `(symbol "<name>" (pin_names ... )` span replaced; otherwise the update fails exactly when the content is shorter than the footer, and puts the block before the footer place |
| Schematic.ReplaceKeepsOutside | JLC2KiCadLib/schematic/schematic.py:135-145 | replacing keeps every character before and after the first matching span and puts the block in between |
| Schematic.InsertBeforeFooter | JLC2KiCadLib/schematic/schematic.py:148-151 | a file ending with the footer gets the block just before it |
| Schematic.FreshLibrary | JLC2KiCadLib/schematic/schematic.py:110-115 | a new library, header then footer, becomes header, block, footer |
| Schematic.InsertedIsFound | JLC2KiCadLib/schematic/schematic.py:130 | with the corrected presence test a rerun finds the block it inserted, so it replaces instead of appending |
| Schematic.PropertyUnpaired | JLC2KiCadLib/schematic/schematic.py:85-102 | a property whose texts hold no `_` never contains `_n` |
| Schematic.LineUnpaired | JLC2KiCadLib/schematic/schematic.py:85-102 | one indented property line of such texts never contains `_n` |
| Schematic.DrawingUnpaired | JLC2KiCadLib/schematic/schematic.py:70-81 | a drawing whose unit names and rendered shapes hold no `_n` does not hold it |
| Schematic.HeaderUnpaired | JLC2KiCadLib/schematic/schematic.py:11-16 | the fresh library text holds no `_n` |
| Schematic.FlagsUnpaired | JLC2KiCadLib/schematic/schematic.py:84 | the opening line with both flags empty holds no `_n` |
| Schematic.BodyUnpaired | JLC2KiCadLib/schematic/schematic.py:84-103 | a block body with empty flags and no `_` in its texts holds no `_n` |
| Schematic.BlockUnpaired | JLC2KiCadLib/schematic/schematic.py:83-103 | such a block holds no `_n`, so it never contains `(pin_names` |
| Schematic.RerunAppendsAgain | JLC2KiCadLib/schematic/schematic.py:127-151 | as written, a block whose hide flags stayed empty is not found by the presence test: a second run appends a second copy |
| Schematic.UnitsHalt | JLC2KiCadLib/schematic/schematic.py:35-44 | once the uuid loop has raised or returned, later uuids change nothing |
| Schematic.UnitsNext | JLC2KiCadLib/schematic/schematic.py:35 | the loop state after k + 1 uuids is one round on the state after k |
| Schematic.DrawUnitFrames | JLC2KiCadLib/schematic/schematic.py:66-81 | a drawn unit keeps the earlier drawing, opens `(symbol "<title>_0"`, ends with `)`, binds the file name and keeps the component name |
| Schematic.FirstUnit | JLC2KiCadLib/schematic/schematic.py:57-64 | the first uuid names the component; alone it is drawn as `<title>_0_0`; with two or more uuids it is not drawn |
| Schematic.DrawUnitOpensOne | JLC2KiCadLib/schematic/schematic.py:70-81 | drawing a unit adds exactly one unit header |
| Schematic.RoundOpens | JLC2KiCadLib/schematic/schematic.py:57-81 | a round adds a unit header exactly when its uuid is drawn |
| Schematic.IterateCounted | JLC2KiCadLib/schematic/schematic.py:35-81 | a loop whose rounds each count their header has as many headers as drawn uuids |
| Schematic.RoundsCountOpens | JLC2KiCadLib/schematic/schematic.py:35-81 | every round of `create_schematic` counts its header |
| Schematic.UnitsCounted | JLC2KiCadLib/schematic/schematic.py:60-70 | every drawn uuid adds exactly one unit header |
| Schematic.Outcome | JLC2KiCadLib/schematic/schematic.py:105-115 | (corrected) an early return writes nothing |
| Schematic.NoUuids | JLC2KiCadLib/schematic/schematic.py:83-85 | with no uuid the prefix is unbound and the template raises NameError |
| Schematic.NewFileIsHeaderBlockFooter | JLC2KiCadLib/schematic/schematic.py:110-115 | a missing library file is written as header, block, footer |
| Schematic.DrawUnitInto | JLC2KiCadLib/schematic/schematic.py:70-81 | drawing one unit into the object gives the state `DrawUnit` describes |
| Schematic.DrawUnit | JLC2KiCadLib/schematic/schematic.py:70-81 | a unit header `<title>_0`, the records and a closing parenthesis; `Schematic.DrawUnitFrames` states it |
| Schematic.Round | JLC2KiCadLib/schematic/schematic.py:35-81 | one round on the object gives the loop state after one more uuid |
| Schematic.UnitStep | JLC2KiCadLib/schematic/schematic.py:35-81 | one round of the uuid loop: a failed fetch returns early, the first of several uuids only names the component, any other is drawn; `Schematic.FirstUnit` and `Schematic.RoundOpens` state it |
| Schematic.RunUnits | JLC2KiCadLib/schematic/schematic.py:35-81 | the uuid loop on one object ends in the state `UnitsUpTo` gives after all uuids |
| Schematic.CreateSchematic | JLC2KiCadLib/schematic/schematic.py:19-115 | (corrected) `create_schematic` gives the library files `CreateSchematicSpec` describes |
| Schematic.CreateSchematicSpec | JLC2KiCadLib/schematic/schematic.py:19-115 | (corrected) the library files after `create_schematic`; `Schematic.Outcome`, `Schematic.NoUuids` and `Schematic.NewFileIsHeaderBlockFooter` state them |
| LegacySchematicHandlers.LegacyPlace | schematic/schematic_handlers.py:3-5 | the legacy frame scales by 0.1, mirrors y and offsets by (-40, 25), and placing can be undone |
| LegacySchematicHandlers.PinLabelsAsWritten | schematic/schematic_handlers.py:95-105 | as written the label block always falls back: the hide flags stay as they were and both font sizes are 0.6 |
| LegacySchematicHandlers.DecodePinAsWritten | schematic/schematic_handlers.py:60-113 | as written a pin decodes exactly when its base fields do, and is drawn with sizes 0.6 and 0.6 |
| LegacySchematicHandlers.PinSizesIgnored | schematic/schematic_handlers.py:101-105 | as written a pin whose size fields read 8pt and 9pt is still drawn at 0.6, not 0.8 and 0.9 |
| LegacySchematicHandlers.DecodePin | schematic/schematic_handlers.py:60-113 | (corrected: the object carries both hide flags) a pin decodes exactly when its base fields do, with a rotation of 0, 90, 180 or 270; its type, number, name, position, rotation and length are those of `DecodePinBase` in the legacy frame, and its sizes those of `PinLabels` with default 0.6; a hide flag is kept or set only when empty; a size field that does not parse gives 0.6 for both sizes |
| LegacySchematicHandlers.PinSizesRead | schematic/schematic_handlers.py:101-102 | with the flags present, size fields that parse give sizes equal to their value without `pt`, times 0.1 |
| LegacySchematicHandlers.DecodePolygon | schematic/schematic_handlers.py:161-183 | an empty record fails; otherwise the closed path over the space-separated tokens of field 0 |
| LegacySchematicHandlers.TriangleFieldKeepsNumbers | schematic/schematic_handlers.py:190 | a field without path letters is not changed by the clean-up |
| LegacySchematicHandlers.DecodeTriangle | schematic/schematic_handlers.py:185-191 | an empty record raises; otherwise the polygon of field 0 without `M `, `L ` and ` Z ` (the clean-up is the helper `LegacySchematicHandlers.TriangleField`, part of this row) |
| LegacySchematicHandlers.DecodeArc | schematic/schematic_handlers.py:193-215 | the legacy `h_A`, which has no `try`, succeeds exactly when field 0 exists and its tokens 1, 2, 4, 9 and 10 are present and parse; the ends are scaled and offset; the midpoint is the chord midpoint moved by the scaled radius |
| LegacySchematicHandlers.ArcStartNotMirrored | schematic/schematic_handlers.py:199-200 | the start of an arc agrees with the mirrored placement of its point exactly when that y is 0 |
| LegacySchematic.Handle | schematic/schematic_handlers.py:217-231 | (corrected) an unknown tag changes nothing; only rectangle, pin, triangle and arc can raise, each exactly when its fields do not decode; a handler keeps earlier shapes and draws at most one (rectangle, pin and arc exactly one); the unit count is kept; a hide flag is set only while empty |
| LegacySchematic.Step | schematic/schematic.py:48-54 | a line without tokens raises IndexError; otherwise the first token is the tag and the rest are the fields |
| LegacySchematic.RunLinesNext | schematic/schematic.py:47-54 | the records are handled in order, each on the state the earlier ones left |
| LegacySchematic.RunLines | schematic/schematic.py:47-54 | the records in order, stopping at the first exception; `LegacySchematic.RunLinesNext`, `LegacySchematic.RunLinesErrPersists` and `LegacySchematic.RunLinesMonotone` state it |
| LegacySchematic.RunLinesErrPersists | schematic/schematic.py:47-54 | an exception in a record ends the run, whatever follows |
| LegacySchematic.RunLinesExtends | schematic/schematic.py:47-54 | a record list only appends shapes and keeps the unit count |
| LegacySchematic.RunLinesMonotone | schematic/schematic.py:47-54 | after a record list the earlier shapes are a prefix of the drawing and the unit count is unchanged |
| LegacySchematic.UnknownTagsSkipped | schematic/schematic.py:51-52 | records whose tags have no handler leave the state unchanged |
| LegacySchematic.KicadSchematic.constructor | schematic/schematic.py:25-28 | a new object has an empty drawing and unit count 0 |
| LegacySchematic.KicadSchematic.NextPart | schematic/schematic.py:33 | the unit count goes up by one and nothing else changes |
| LegacySchematic.KicadSchematic.Apply | schematic/schematic.py:51-54 | (corrected) dispatching a record updates the object to what `Handle` gives, or leaves it as it was on an exception |
| LegacySchematic.KicadSchematic.DrawLines | schematic/schematic.py:47-54 | the record loop on the object ends in the state `RunLines` gives, and fails exactly when it does |
| LegacySchematic.Block | schematic/schematic.py:56-69 | a component block opens with its comment header and `DEF <title> `, and ends with `ENDDEF` |
| LegacySchematic.UpdateLibraryAsWritten | schematic/schematic.py:85-112 | as written, a library holding `DEF <title>` has the first match of the pattern replaced by the block; otherwise the update fails exactly when the file is shorter than the footer, and puts the block before the footer place |
| LegacySchematic.UpdateLibrary | schematic/schematic.py:85-112 | (presence test and pattern closed after the name) the update fails exactly when the name is absent and the file is shorter than the footer; a present name has its first block replaced |
| LegacySchematic.ReplaceKeepsOutside | schematic/schematic.py:99-106 | replacing keeps every character before and after the first matching span and puts the block in between |
| LegacySchematic.InsertBeforeFooter | schematic/schematic.py:107-112 | a file ending with the footer, without the name, gets the block just before the footer |
| LegacySchematic.HeaderFooterUnpaired | schematic/schematic.py:11-20 | the header and footer never hold `D` followed by `E`, so no `DEF` key |
| LegacySchematic.FreshLibrary | schematic/schematic.py:76-81 | a new library, header then footer, becomes header, block, footer |
| LegacySchematic.InsertedIsFound | schematic/schematic.py:99 | after inserting, the presence test of a rerun finds the block, so a rerun replaces it |
| LegacySchematic.HashGapConcat | schematic/schematic.py:94 | the property that blocks the pattern's `#.#` carries over to a concatenation |
| LegacySchematic.HeaderHashGap | schematic/schematic.py:11-14 | the header never holds two `#` two characters apart |
| LegacySchematic.NoMatchInHeader | schematic/schematic.py:94 | the pattern never matches starting inside the header |
| LegacySchematic.MatchLooser | schematic/schematic.py:94 | a literal occurrence is also matched by the regex where some characters become `.` |
| LegacySchematic.OpeningOfLonger | schematic/schematic.py:57-61 | the block of a longer title holds the comment header and the `DEF` key of a shorter title that is its prefix |
| LegacySchematic.FirstMatchAtBlock | schematic/schematic.py:94 | in header, block, footer the pattern of a prefix title first matches at the start of the block |
| LegacySchematic.NoEndInOpening | schematic/schematic.py:57-61 | no `ENDDEF` starts inside a block opening whose title has no `N` |
| LegacySchematic.SpanBetween | schematic/schematic.py:94 | the lazy match from the first pattern match ends at the first `ENDDEF` after it |
| LegacySchematic.OverwriteSpan | schematic/schematic.py:94-102 | for a prefix title the replaced span starts at the other block and ends within it |
| LegacySchematic.OverwritesBlock | schematic/schematic.py:99-106 | as written, the update for a prefix title replaces the start of the other block |
| LegacySchematic.ShorterTitleOverwrites | schematic/schematic.py:94-106 | as written, adding `R1` to a library holding `R10` finds `DEF R1` inside that block and overwrites at least its comment header and its `DEF` line |
| LegacySchematic.KeyNamesOneBlock | schematic/schematic.py:99 | the closed key matches the `DEF` line of a block exactly when the titles are equal |
| LegacySchematic.OpenerNamesOneBlock | schematic/schematic.py:94 | the closed pattern matches the comment header of a block exactly when the titles are equal |
| LegacySchematic.UnitStep | schematic/schematic.py:31-54 | a failed fetch raises KeyError; otherwise the title has `/` as `_`, the prefix has no `?`, and the unit count goes up by one |
| LegacySchematic.UnitsCounted | schematic/schematic.py:31-54 | after the loop the unit count is the number of uuids, and the title and prefix are those of the last uuid (no title when there were none) |
| LegacySchematic.Outcome | schematic/schematic.py:56-81 | (corrected) without a title the template raises NameError; otherwise the library file exists afterwards and no other file is added |
| LegacySchematic.NoUuids | schematic/schematic.py:56-61 | with no uuid the title is never bound and the template raises NameError |
| LegacySchematic.NewFileIsHeaderBlockFooter | schematic/schematic.py:74-81 | a missing library file is written as header, block and footer, with the unit count equal to the number of uuids |
| LegacySchematic.UnitOn | schematic/schematic.py:31-54 | (corrected) one round of the unit loop on the shared schematic object: the unit is counted, fetched and drawn, leaving the title, prefix and drawing that `UnitStep` describes, or raising the error `UnitStep` gives |
| LegacySchematic.CreateSchematic | schematic/schematic.py:23-81 | (corrected) `create_schematic` on one object gives the library files `CreateSchematicSpec` describes |
| LegacySchematic.CreateSchematicSpec | schematic/schematic.py:23-81 | (corrected) the library files after `create_schematic`; `LegacySchematic.Outcome`, `LegacySchematic.NoUuids` and `LegacySchematic.NewFileIsHeaderBlockFooter` state them |
| FootprintTypes.Widen | JLC2KiCadLib/footprint/footprint_handlers.py:67-70 | the widened bounds hold the point and every earlier side; bounds that already hold the point are unchanged |
| FootprintTypes.GrowsKeeps | JLC2KiCadLib/footprint/footprint_handlers.py:67-70 | bounds that only grow keep every point they held |
| FootprintTypes.SentinelFirstPoint | JLC2KiCadLib/footprint/footprint.py:14-17 | from the inverted defaults, the first point within 10 m of the origin decides all four sides |
| FootprintTypes.ShiftBoxInside | JLC2KiCadLib/footprint/footprint.py:88-91 | shifting the bounds by `d` moves what they hold by `-d`, in both directions |
| FootprintTypes.Add | JLC2KiCadLib/footprint/footprint_handlers.py:305 | appending a node keeps earlier nodes and the bounds |
| FootprintTypes.KicadMod.constructor | JLC2KiCadLib/footprint/footprint.py:53-55 | a new footprint has its name, description and tags, no nodes and no attribute |
| FootprintTypes.KicadMod.Append | JLC2KiCadLib/footprint/footprint_handlers.py:73 | `append` adds one node at the end and changes nothing else |
| FootprintTypes.KicadMod.Insert | JLC2KiCadLib/footprint/footprint.py:85 | `insert(Translation)` makes the translation the parent of every earlier node |
| FootprintTypes.KicadMod.SetAttribute | JLC2KiCadLib/footprint/footprint.py:77-83 | setting the attribute keeps the nodes |
| FootprintTypes.FootprintInfo.constructor | JLC2KiCadLib/footprint/footprint.py:57-65 | a new record has the inverted default bounds and the settings it was given |
| FootprintTypes.FootprintInfo.Include | JLC2KiCadLib/footprint/footprint_handlers.py:148-151 | the four `max`/`min` updates widen the bounds by the point |
| FootprintTypes.FootprintInfo.Shift | JLC2KiCadLib/footprint/footprint.py:88-91 | the four `-=` updates shift every side by the offset |
| FootprintHandlers.LayerTable | JLC2KiCadLib/footprint/footprint_handlers.py:22-35 | the layer table has exactly twelve codes, sends 3, 100 and 101 to the front silkscreen, and a missing or unknown code falls back to it |
| FootprintHandlers.LayerOr | JLC2KiCadLib/footprint/footprint_handlers.py:60-64 | the layer of the code, or the front silkscreen when the field is missing or the code unknown; `FootprintHandlers.LayerTable` states the table |
| FootprintHandlers.MilField | JLC2KiCadLib/footprint/footprint_handlers.py:38-39 | a field converts exactly when it exists and parses, and the result times 3.937 is the parsed value |
| FootprintHandlers.MilOf | JLC2KiCadLib/footprint/footprint_handlers.py:38-39 | a token converts exactly when it parses, and the result times 3.937 is its value |
| FootprintHandlers.Mils | JLC2KiCadLib/footprint/footprint_handlers.py:46 | a token list converts exactly when every token parses, entry by entry, in order |
| FootprintHandlers.Segs | JLC2KiCadLib/footprint/footprint_handlers.py:56-73 | the first `n` rounds of the segment loop add exactly `n` nodes |
| FootprintHandlers.SegsNext | JLC2KiCadLib/footprint/footprint_handlers.py:56-73 | one more round appends the line from point `n` to point `n + 1` and widens the bounds by both ends |
| FootprintHandlers.SegsLines | JLC2KiCadLib/footprint/footprint_handlers.py:56-73 | the loop keeps earlier nodes, and its round `k` appends the line from point `k` to point `k + 1` |
| FootprintHandlers.SegsGrows | JLC2KiCadLib/footprint/footprint_handlers.py:67-70 | the segment loop never shrinks the bounds |
| FootprintHandlers.SegsInside | JLC2KiCadLib/footprint/footprint_handlers.py:56-73 | every line the loop appends has the track's width and layer, and both its ends lie within the final bounds |
| FootprintHandlers.Track | JLC2KiCadLib/footprint/footprint_handlers.py:42-73 | a track succeeds only with a parsable width; it keeps earlier nodes, only grows the bounds, and every added node is a line of its width and layer inside the bounds |
| FootprintHandlers.TrackJoinsPoints | JLC2KiCadLib/footprint/footprint_handlers.py:56-59 | a track of `2k` coordinates appends `k - 1` lines, line `j` joining point `j` to point `j + 1` |
| FootprintHandlers.SegCount | JLC2KiCadLib/footprint/footprint_handlers.py:56 | `int(len(points) / 2) - 1` rounds, none when that is negative; `FootprintHandlers.TrackJoinsPoints` states the lines it gives |
| FootprintHandlers.TrackFallback | JLC2KiCadLib/footprint/footprint_handlers.py:45-54 | when field 2 does not convert, field 3 stands in for records with more than five fields, and an error there escapes; shorter records add nothing |
| FootprintHandlers.TrackPoints | JLC2KiCadLib/footprint/footprint_handlers.py:45-54 | the track points of field 2, or of field 3 when field 2 raises and there are more than five fields; `FootprintHandlers.TrackFallback` states the cases |
| FootprintHandlers.ShapeOf | JLC2KiCadLib/footprint/footprint_handlers.py:77-102 | RECT, ELLIPSE and POLYGON map to rectangle, circle and custom, in both directions; every other code becomes oval |
| FootprintHandlers.OvalDrill | JLC2KiCadLib/footprint/footprint_handlers.py:124-132 | no slot gives a round drill; otherwise an oblong one of the two sizes, its longer side along the pad's longer side |
| FootprintHandlers.Outline | JLC2KiCadLib/footprint/footprint_handlers.py:116-118 | the outline converts exactly when every token parses; entry `k` plus the centre coordinate `k mod 2`, times 3.937, is the value of token `k` |
| FootprintHandlers.Pairs | JLC2KiCadLib/footprint/footprint_handlers.py:119 | consecutive values are paired and an odd last value is dropped |
| FootprintHandlers.CustomOutline | JLC2KiCadLib/footprint/footprint_handlers.py:115-119 | a custom outline has half as many corners as field 8 has tokens; corner `k` plus the centre is tokens `2k` and `2k + 1` converted |
| FootprintHandlers.PadNode | JLC2KiCadLib/footprint/footprint_handlers.py:76-165 | a pad needs fields 1-4 and 7 to parse; it is kept exactly for SMT or for THT that is not custom; position and size are fields 1-4 converted and the rotation field 9 unless round; SMT has drill 1 and a custom SMT pad the outline of field 8; a THT oval pad has `OvalDrill` of twice the hole and the slot of field 11, any other THT pad a round drill of twice the hole |
| FootprintHandlers.PadBounds | JLC2KiCadLib/footprint/footprint_handlers.py:141-165 | a pad is skipped and changes nothing, or it appends one pad and widens the bounds by the pad's centre |
| FootprintHandlers.ArcPath | JLC2KiCadLib/footprint/footprint_handlers.py:172-192 | the arc path is field 2 when it starts with `M`, or else field 3 when it does |
| FootprintHandlers.SolveCentre | JLC2KiCadLib/footprint/footprint_handlers.py:218-227 | the centre formula divides by zero exactly when `b` or the determinant is zero; otherwise it solves both linear equations |
| FootprintHandlers.DenominatorIsCross | JLC2KiCadLib/footprint/footprint_handlers.py:218-224 | the second denominator is zero exactly when the cross product is |
| FootprintHandlers.CentreOf | JLC2KiCadLib/footprint/footprint_handlers.py:218-227 | where neither denominator is zero, the point the formula gives solves both linear equations |
| FootprintHandlers.ArcCentre | JLC2KiCadLib/footprint/footprint_handlers.py:208-228 | there is no centre exactly when start and midpoint share a y coordinate or the three points are collinear; otherwise the centre solves the bisector equations |
| FootprintHandlers.CentreEquations | JLC2KiCadLib/footprint/footprint_handlers.py:218-227 | the computed `centerX`, `centerY` satisfy both linear equations |
| FootprintHandlers.ArcCentreEquidistant | JLC2KiCadLib/footprint/footprint_handlers.py:208-228 | the centre is as far from the start as from the midpoint and the end, so the circle passes through all three |
| FootprintHandlers.EquidistantByEquation | JLC2KiCadLib/footprint/footprint_handlers.py:210-216 | the bisector equation says the centre is equidistant from the two points |
| FootprintHandlers.ArcNode | JLC2KiCadLib/footprint/footprint_handlers.py:168-240 | an arc is added exactly when its path has nine tokens, the width and tokens 0-3, 7 and 8 convert, and the centre formula does not divide by zero; it is on the layer of field 1 or the silkscreen; its width is field 0, its start tokens 0/1 and its end tokens 7/8, converted; its centre is `ArcCentre` of start, end moved by tokens 2/3, and end |
| FootprintHandlers.CircleNodeOf | JLC2KiCadLib/footprint/footprint_handlers.py:243-268 | code 100 gives no circle; otherwise the circle succeeds exactly when fields 0-3 parse, with centre, radius and width fields 0-1, 2 and 3 converted, on the layer of field 4 or the silkscreen |
| FootprintHandlers.RectNode | JLC2KiCadLib/footprint/footprint_handlers.py:293-305 | a rectangle succeeds exactly when fields 0-3 parse and the layer code of field 4 is known (no fallback, so an unknown code raises); it is an axis-aligned four-corner polygon whose first corner is fields 0/1 and whose extents are fields 2/3, converted |
| FootprintHandlers.HoleNode | JLC2KiCadLib/footprint/footprint_handlers.py:308-320 | a hole succeeds exactly when fields 0-2 parse; it is an unnumbered round NPTH pad whose drill equals its size, twice field 2 converted |
| FootprintHandlers.TextNode | JLC2KiCadLib/footprint/footprint_handlers.py:323-334 | a text is added exactly when fields 1 and 2 parse and the layer code of field 7 is known; it is a user text of field 8 at fields 1/2 converted, on that layer |
| FootprintHandlers.TrackOn | JLC2KiCadLib/footprint/footprint_handlers.py:42-73 | the handler on the objects leaves them as `Track` describes, or unchanged on an exception |
| FootprintHandlers.AppendSegments | JLC2KiCadLib/footprint/footprint_handlers.py:56-73 | the segment loop on the objects ends in the state `Segs` gives after all rounds |
| FootprintHandlers.RelativeOutline | JLC2KiCadLib/footprint/footprint_handlers.py:116-118 | the `enumerate` loop builds exactly `Outline` |
| FootprintHandlers.OutlineErr | JLC2KiCadLib/footprint/footprint_handlers.py:118 | one malformed token makes the whole outline raise |
| FootprintHandlers.MilsErr | JLC2KiCadLib/footprint/footprint_handlers.py:46 | one malformed token makes the whole list raise |
| FootprintHandlers.OutlineOk | JLC2KiCadLib/footprint/footprint_handlers.py:116-118 | the outline is the unique list whose entries convert back to the tokens |
| FootprintHandlers.PadOn | JLC2KiCadLib/footprint/footprint_handlers.py:76-165 | the handler on the objects leaves them as `PadStep` describes, or unchanged on an exception |
| FootprintHandlers.PadStep | JLC2KiCadLib/footprint/footprint_handlers.py:141-165 | a retained pad is appended and widens the bounds by its centre; `FootprintHandlers.PadBounds` states it |
| Footprint.Sanitise | JLC2KiCadLib/footprint/footprint.py:164-170 | the name has the title's length, with every space, `/`, `(` and `)` made `_` and every other character kept |
| Footprint.FootprintName | JLC2KiCadLib/footprint/footprint.py:164-177 | the name is never empty and holds none of the four characters; an empty title gives `NoName`, any other differs from the title only where one of them was |
| Footprint.FootprintInfoOf | JLC2KiCadLib/footprint/footprint.py:140-179 | a failed request gives an empty name, no link, no records and the origin (0, 0); otherwise the sanitised name, the records and the head position, and the link or `""` when the record has none |
| Footprint.Args | JLC2KiCadLib/footprint/footprint.py:69-70 | the split keeps empty tokens, so there is one token more than there are `~` and none holds a `~`; the first is the tag |
| Footprint.Tag | JLC2KiCadLib/footprint/footprint.py:69-70 | the first `~` token of a record; `Footprint.Args` states it is the first of the fields |
| Footprint.Inert | JLC2KiCadLib/footprint/footprint.py:71-75 | a record with no handler, a solid region or a via; `Footprint.Step` leaves the state alone for it and `Footprint.InertSkipped` removes it from any list |
| Footprint.Step | JLC2KiCadLib/footprint/footprint.py:68-75 | an unknown, solid-region or via record changes nothing; an SVGNODE record raises exactly when the 3D model loader does, and otherwise appends the model node it gives, if any |
| Footprint.StepExtends | JLC2KiCadLib/footprint/footprint_handlers.py:337-348 | no handler removes or reorders a node or shrinks the bounds |
| Footprint.RunExtends | JLC2KiCadLib/footprint/footprint.py:68-75 | the record loop only appends nodes and widens the bounds |
| Footprint.InertSkipped | JLC2KiCadLib/footprint/footprint.py:72-73 | an unknown, solid-region or via record can be removed from anywhere in the list without changing the outcome |
| Footprint.Attribute | JLC2KiCadLib/footprint/footprint.py:77-83 | the attribute is `through_hole` exactly when some node is a THT pad, and `smd` otherwise |
| Footprint.Offset | JLC2KiCadLib/footprint/footprint.py:85-91 | the offset is the origin converted from mil to millimetres |
| Footprint.Placeholders | JLC2KiCadLib/footprint/footprint.py:93-126 | the reference, user and value texts share the vertical through the centre of the bounds; the user text is at the centre, and the other two are 2 mm outside the bounds, above and below |
| Footprint.Finish | JLC2KiCadLib/footprint/footprint.py:77-126 | after the loop the footprint is one translation by minus the origin over the earlier nodes, then the three texts around the moved bounds |
| Footprint.FinishMovesTogether | JLC2KiCadLib/footprint/footprint.py:85-91 | the translation and the bounds move together: a point held before is held after moving, and no other point is |
| Footprint.Written | JLC2KiCadLib/footprint/footprint.py:53-133 | the written file has the quoted name, the description and tags built from the name, the attribute from the pads, and the finished nodes |
| Footprint.Create | JLC2KiCadLib/footprint/footprint.py:27-137 | it returns `<lib>:<name>` and the link; nothing is written exactly when skipping an existing file; it raises exactly when not skipping and a record raises; otherwise it writes the finished footprint |
| Footprint.FilePath | JLC2KiCadLib/footprint/footprint.py:46-48 | the path the footprint is checked at and written to, `<output_dir>/<lib>/<name>.kicad_mod`; used by `Footprint.Create` for both |
| Footprint.SkipIgnoresRecords | JLC2KiCadLib/footprint/footprint.py:46-50 | skipping an existing file succeeds whatever the records are, even ones that would raise |
| Footprint.ImportFrom | JLC2KiCadLib/footprint/footprint_handlers.py:6 | `from .model3d import name` raises ImportError exactly when the model module does not bind the name |
| Footprint.CreateImporting | JLC2KiCadLib/footprint/footprint_handlers.py:6 | behind the import of `get_3Dmodel`, creating a footprint raises ImportError when the model module lacks the loader and is `Create` when it has it |
| Footprint.AsWrittenNeverCreates | JLC2KiCadLib/footprint/footprint_handlers.py:6 | with the names `model3d.py` binds, every call raises ImportError |
| Footprint.SentinelTexts | JLC2KiCadLib/footprint/footprint.py:93-126 | with nothing to widen the bounds and the origin at (0, 0), the reference text goes to y = 9998 and the value to y = -9998 |
| Footprint.Dispatch | JLC2KiCadLib/footprint/footprint.py:69-75 | handling one record on the objects leaves them as `Step` describes |
| Footprint.RunOn | JLC2KiCadLib/footprint/footprint.py:68-75 | the record loop on the objects ends as `Run` describes and fails exactly when it does |
| Footprint.Run | JLC2KiCadLib/footprint/footprint.py:68-75 | the record loop, stopping at the first exception; `Footprint.RunExtends` states that it only appends nodes and widens the bounds |
| Footprint.FinishOn | JLC2KiCadLib/footprint/footprint.py:77-126 | the steps after the loop leave the objects as `Finish` describes, with the attribute from the pads |
| Footprint.CreateFootprint | JLC2KiCadLib/footprint/footprint.py:27-137 | `create_footprint` on the objects gives what `Create` describes |
| Model3d.MaterialLine | JLC2KiCadLib/footprint/model3d.py:113-123 | a line raises IndexError exactly when it is empty, or is a `newmtl` or `d` line without a space; `newmtl` sets the id; each entry changes only on a line with its own prefix; `Kd` sets the diffuse colour to the words after the first |
| Model3d.BlockRead | JLC2KiCadLib/footprint/model3d.py:110-125 | when the dict is built, every block was read without an exception and its id is a key |
| Model3d.LastBlockWins | JLC2KiCadLib/footprint/model3d.py:125 | a block whose id no later block repeats decides that key's entry |
| Model3d.MaterialKeys | JLC2KiCadLib/footprint/model3d.py:110-125 | every key of the dict is the id of some block |
| Model3d.ReadMaterials | JLC2KiCadLib/footprint/model3d.py:109-125 | the nested material loop builds exactly `MaterialsOf` of the blocks |
| Model3d.MaterialsOf | JLC2KiCadLib/footprint/model3d.py:109-125 | the `materials` dict built block by block; `Model3d.BlockRead`, `Model3d.LastBlockWins` and `Model3d.MaterialKeys` state its keys and entries |
| Model3d.KeepsAt | JLC2KiCadLib/footprint/model3d.py:153-159 | a kept renumbering gives a known index the same local number |
| Model3d.Visit | JLC2KiCadLib/footprint/model3d.py:152-159 | a known index keeps its number; a new one gets the next number and appends its vertex, and raises IndexError exactly when that vertex is out of range; no earlier number or point changes; the renumbering stays consistent |
| Model3d.FaceIndex | JLC2KiCadLib/footprint/model3d.py:151-159 | a renumbered face has one entry per index, each the local number the index ends with; earlier numbers and points are kept, and only the face's indices are added |
| Model3d.FaceIndexNext | JLC2KiCadLib/footprint/model3d.py:152-159 | one more index of a face is one more visit |
| Model3d.FaceIndexRaises | JLC2KiCadLib/footprint/model3d.py:156 | a face raises exactly when one of its indices is new and names no vertex |
| Model3d.FaceIndexIndexed | JLC2KiCadLib/footprint/model3d.py:152-159 | renumbering a face keeps the renumbering consistent: distinct indices get distinct numbers, each naming its own vertex |
| Model3d.Ints | JLC2KiCadLib/footprint/model3d.py:150 | every token parses as an integer, in order, or IntError is raised |
| Model3d.NamesKept | JLC2KiCadLib/footprint/model3d.py:153-159 | numbers that later faces keep give earlier records the same names |
| Model3d.SectionRecords | JLC2KiCadLib/footprint/model3d.py:148-161 | after a section every non-empty line has one record, in order: its local numbers, then `-1`, then a trailing comma; the renumbering is consistent |
| Model3d.VisitIndex | JLC2KiCadLib/footprint/model3d.py:153-159 | one index of a face: its existing number, or the next counter value with its vertex appended and the counter advanced, or the IndexError `Visit` describes |
| Model3d.FaceIndexStops | JLC2KiCadLib/footprint/model3d.py:152-159 | once an index of a face raises, the whole face raises IndexError |
| Model3d.NumberFace | JLC2KiCadLib/footprint/model3d.py:151-159 | the index loop of one face computes exactly `FaceIndex` |
| Model3d.Reindex | JLC2KiCadLib/footprint/model3d.py:144-161 | the line loop of one section computes exactly `SectionOf` |
| Model3d.SectionOf | JLC2KiCadLib/footprint/model3d.py:144-161 | the renumbered records of one section from a fresh state; `Model3d.SectionRecords` and `Model3d.FaceIndexIndexed` state its records and numbering |
| Model3d.DuplicateLast | JLC2KiCadLib/footprint/model3d.py:162 | a non-empty list gains its last point once more at the end; an empty one raises IndexError |
| Model3d.ShapeText | JLC2KiCadLib/footprint/model3d.py:164-187 | the shape text exists exactly when the diffuse, specular and transparency entries do; the first missing one, in template order, is the KeyError |
| Model3d.ShapeOf | JLC2KiCadLib/footprint/model3d.py:141-187 | an unknown material name raises KeyError; a shape needs all three entries of its material and at least one point |
| Model3d.ShapeOn | JLC2KiCadLib/footprint/model3d.py:142-189 | the body of the section loop computes exactly `ShapeOf` |
| Model3d.Collect | JLC2KiCadLib/footprint/model3d.py:141-189 | on success there is one result per section, each the shape of that section |
| Model3d.AppendsAll | JLC2KiCadLib/footprint/model3d.py:189 | appending piece by piece is appending the concatenation, and the first exception stops it |
| Model3d.OneShapePerSection | JLC2KiCadLib/footprint/model3d.py:103-189 | the WRL text is the header followed by exactly one shape per `usemtl` section, in file order |
| Model3d.WrlText | JLC2KiCadLib/footprint/model3d.py:103-189 | the WRL text: the header, then one shape per `usemtl` section in order, or the first exception; stated by `Model3d.OneShapePerSection` and computed by `Model3d.WrlTextOn` |
| Model3d.PathName | JLC2KiCadLib/footprint/model3d.py:202-216 | without a base variable the path is bare and relative; with one it is quoted, starts with `$`, ends with `/<dir>/<name><ext>`, and the variable is kept when it starts with `$` or wrapped as `$(VAR)` otherwise |
| Model3d.Translation | JLC2KiCadLib/footprint/model3d.py:218-220 | the offset is the position relative to the origin divided by 100, with y flipped, and the height divided by 100 |
| Model3d.Negated | JLC2KiCadLib/footprint/model3d.py:234 | every piece parses and the result is its negation, in order |
| Model3d.Rotation | JLC2KiCadLib/footprint/model3d.py:234 | one negated angle per comma-separated piece |
| Model3d.ModelNode | JLC2KiCadLib/footprint/model3d.py:230-236 | the model node carries the path it was given |
| Model3d.ModelCount | JLC2KiCadLib/footprint/model3d.py:223 | the count is zero exactly when there is no model node |
| Model3d.StepAddsModel | JLC2KiCadLib/footprint/model3d.py:41-79 | after an ok response the STEP bytes are written; the writer raises exactly when the height or a rotation piece does not parse; otherwise one more model is appended after the earlier nodes, even next to another model |
| Model3d.WrlGrows | JLC2KiCadLib/footprint/model3d.py:222-237 | the WRL writer either leaves the nodes alone or appends one model node to a footprint that has none |
| Model3d.WrlNoDuplicate | JLC2KiCadLib/footprint/model3d.py:222-237 | the WRL writer leaves a footprint that has a model unchanged, and gives one without a model at most one |
| Model3d.StepThenWrl | JLC2KiCadLib/footprint/model3d.py:222-228 | a WRL model requested after an appended STEP model leaves the nodes alone |
| Model3d.GetStepModel | JLC2KiCadLib/footprint/model3d.py:18-80 | `get_StepModel` on the footprint object has the effect `StepEffect` describes |
| Model3d.StepEffect | JLC2KiCadLib/footprint/model3d.py:18-80 | the effect of `get_StepModel` on the file and the nodes; `Model3d.StepAddsModel` states when it writes, raises and appends |
| Model3d.WrlTextOn | JLC2KiCadLib/footprint/model3d.py:103-189 | the material loop and the section loop together compute exactly `WrlText` |
| Model3d.GetWrlModel | JLC2KiCadLib/footprint/model3d.py:83-237 | `get_WrlModel` on the footprint object has the effect `WrlEffect` describes |
| Model3d.WrlEffect | JLC2KiCadLib/footprint/model3d.py:83-237 | the effect of `get_WrlModel` on the file and the nodes; `Model3d.WrlGrows`, `Model3d.WrlNoDuplicate` and `Model3d.StepThenWrl` state what it appends |
| LegacyModel3d.ClassifyCases | footprint/model3d.py:21-45 | a line is a vertex exactly when it starts with `v` (so `vn` counts too), a face exactly when it starts with `f`, and a colour change exactly when it starts with `Kd`; the `Ka`, `Ks`, `d` and material lines and empty lines are passed over |
| LegacyModel3d.Classify | footprint/model3d.py:21-45 | the prefix tests of the line loop in order; `LegacyModel3d.ClassifyCases` states each case |
| LegacyModel3d.Unpack | footprint/model3d.py:23 | the unpacking succeeds exactly when the line has three spaces; it gives four pieces without spaces that join back to the line |
| LegacyModel3d.Coords | footprint/model3d.py:22-31 | the three numbers parse exactly when the line unpacks and pieces 1-3 are floats, and they are those floats |
| LegacyModel3d.ZeroBased | footprint/model3d.py:28 | an index converts exactly when it parses as an integer once its last two characters are dropped, and the result is one less |
| LegacyModel3d.FaceIndices | footprint/model3d.py:26-28 | a face gives three indices, piece `k + 1` made 0-based |
| LegacyModel3d.ScanLine | footprint/model3d.py:21-45 | ignored and unsupported lines change nothing; a vertex appends one vertex and counts it; a face appends one face; a colour change records the vertices since the last one and moves the mark |
| LegacyModel3d.ScanCounts | footprint/model3d.py:21-32 | after the loop there is one vertex per `v` line, one face per `f` line and one change per `Kd` line; the changes account for exactly the vertices before the mark |
| LegacyModel3d.ReadLine | footprint/model3d.py:22-45 | the body of the line loop on its five variables computes exactly `ScanLine` |
| LegacyModel3d.ScanLines | footprint/model3d.py:21-45 | the line loop computes exactly `ScanOf` |
| LegacyModel3d.ScanOf | footprint/model3d.py:21-45 | the line loop over the model, stopping at the first exception; `LegacyModel3d.ScanCounts` states the counts it ends with |
| LegacyModel3d.RepeatCopies | footprint/model3d.py:93 | Python's `s * n` is `n` copies of `s` concatenated, and nothing when `n <= 0` |
| LegacyModel3d.ExpandedLength | footprint/model3d.py:91-93 | with no negative count, the colour list has one entry per vertex the changes account for |
| LegacyModel3d.ExpandedAt | footprint/model3d.py:91-93 | each change is written exactly `count` times, in the order of the changes |
| LegacyModel3d.SumMonotone | footprint/model3d.py:91-93 | with no negative count, a prefix of the changes accounts for no more vertices than all of them |
| LegacyModel3d.ColourList | footprint/model3d.py:91-93 | the colour loop writes each change's line `count` times, in order |
| LegacyModel3d.LegacyTranslation | footprint/model3d.py:19 | the offset is zero in x and y, and the height divided by 3.048 |
| LegacyModel3d.LegacyWrites | footprint/model3d.py:19-110 | when the writer finishes, the file holds one point per `v` line and as many colour entries as vertices read before the last `Kd` line; one more model is appended after the earlier nodes, even next to another one |
| LegacyModel3d.Get3dModel | footprint/model3d.py:8-111 | `get_3Dmodel` on the footprint object has the effect `LegacyEffect` describes |
| LegacyModel3d.LegacyEffect | footprint/model3d.py:8-111 | the effect of the legacy `get_3Dmodel` on the file and the nodes; `LegacyModel3d.LegacyWrites` states what the file holds |
| Vectors.Get | JLC2KiCadLib/footprint/vector2.py:21-27 | key 0 reads x, key 1 reads y, and any other key raises |
| Vectors.Items | JLC2KiCadLib/footprint/vector2.py:21-27 | a vector indexes as the pair `[x, y]` |
| Vectors.Scale | JLC2KiCadLib/footprint/vector2.py:12-13 | both components are multiplied by the factor |
| Vectors.Add | JLC2KiCadLib/footprint/vector2.py:15-16 | adding succeeds exactly when the other operand has two items, and moves each component by its item |
| Vectors.Sub | JLC2KiCadLib/footprint/vector2.py:18-19 | subtracting succeeds exactly when the other operand has two items, and moves each component back by its item |
| Vectors.SubUndoesAdd | JLC2KiCadLib/footprint/vector2.py:15-19 | subtracting what was added gives the vector back |
| Vectors.AddVectors | JLC2KiCadLib/footprint/vector2.py:15-16 | adding vectors is componentwise and commutative |
| Vectors.PerpendicularClockwise | JLC2KiCadLib/footprint/vector2.py:32-33 | the result is orthogonal to the vector and has the same length |
| Vectors.PerpendicularCounterClockwise | JLC2KiCadLib/footprint/vector2.py:35-36 | the result is orthogonal, and turning it clockwise gives the vector back |
| Vectors.PerpendicularTurns | JLC2KiCadLib/footprint/vector2.py:32-36 | the two turns undo each other; two clockwise turns negate; four are the identity |
| Vectors.DotSymmetric | JLC2KiCadLib/footprint/vector2.py:47-48 | the dot product is symmetric |
| Vectors.Dot | JLC2KiCadLib/footprint/vector2.py:47-48 | the dot product; `Vectors.DotSymmetric` and `Vectors.DotScale` state it |
| Vectors.DotScale | JLC2KiCadLib/footprint/vector2.py:47-48 | the dot product is linear in its first argument |

## Left out

- Network access: every `requests.get` and the JSON decoding of its answer. The fetched record (or a failed fetch), the head position and the mesh text are inputs.
- File system: `open`, `seek`, `truncate`, `write`, `os.makedirs` and `os.path.exists`. A library file is its content string; existence is a map lookup or an `isFile` predicate. Directory creation is not modelled.
- Number formatting: how f-strings print floats, and `round(x, 4)`. Symbol, schematic and footprint items are kept as values and rendered by a `render` parameter. The legacy 3D writer takes its two float printers as the `Fmt` parameter.
- Number parsing: `float()` and `int()` on strings are the `toFloat` and `toInt` fields of `Py`, taken as given. IEEE-754 rounding is not modelled.
- Square roots and trigonometry in the two newer `h_A` handlers, and `length`, `normalized` and `angle` in `JLC2KiCadLib/footprint/vector2.py:29-45`: only the discrete parts around them are modelled, with the functions themselves left abstract in `Py`. `__str__` and `__repr__` are printing only.
- KicadModTree: `Footprint`, `Pad`, `Line`, `Arc`, `Circle`, `Polygon`, `Text`, `Model`, `Translation` and `KicadFileHandler` are stood in for by `FootprintTypes.Node` and `FootprintTypes.KicadMod`. These carry only the fields the handlers pass. Pad layer sets are not modelled, and the text of a `.kicad_mod` file is not produced.
- `getAllChilds` walks the node tree. The model looks at direct children only: the attribute test and the model guard run while every node is still a direct child, because the translation is inserted later.
- `h_SVGNODE` calls `get_3Dmodel`, which `JLC2KiCadLib/footprint/model3d.py` does not bind, so the import at `JLC2KiCadLib/footprint/footprint_handlers.py:6` fails before any footprint is made (`Footprint.AsWrittenNeverCreates`). The rest of the footprint model is of the program as it would run if the import resolved: the loader is the `load3d` parameter, and its JSON fields are not decoded.
- `h_VIA` only logs and `h_SOLIDREGION` does nothing: both are inert records (`Footprint.Inert`).
- Logging: messages and log levels are dropped. A warning changes nothing else.
- Exception messages are approximations of Python's text (for example `KeyError: layer code`). Only which exception is raised, and where, is modelled.
- The vertex extraction of `get_WrlModel` (the `v (.*?)\n` regex with `/ 2.54` and rounding) is not modelled. `Model3d.WrlText` takes the vertex strings as an input.
- Regex patterns: names are assumed to hold no regex metacharacters, and `re.sub` replacement escapes are not modelled. Character counts stand in for the UTF-8 byte counts of `seek(-len(footer), 2)`.
- `os.path.dirname(__file__)` in the legacy 3D writer is the `moduleDir` parameter.
- `JLC2KiCadLib/JLC2KiCadLib.py` (command line and orchestration), `JLC2KiCadLib/helper.py` (logging set-up) and `setup.py` are not part of this model.
- Model3d.ModelNode: states only the file name. The offset and the rotation are stated by `Model3d.Translation` and `Model3d.Rotation`.
- LegacySchematic.Handle: the legacy rectangle, circle, text and polyline handlers are described only by which of them can raise and how many shapes each draws. Their coordinates come from the same frame lemma as the pin (`LegacySchematicHandlers.LegacyPlace`).
- Footprint.FilePath: `JLC2KiCadLib/footprint/footprint.py:47` joins the directory with `os.path.join` while line 133 builds the file name with `"/"`; the model joins both with `"/"`, so a platform separator other than `/` is not captured.
- SymbolHandlers.AngleBetween: the converse of the zero-vector case (two non-zero vectors never raise) is not stated; only the raise for a zero vector and the range and sign of the angle are.
- Schematic.CreateSchematic: composes the corrected `Schematic.UpdateLibrary` (see `Schematic.InsertedIsFound`); as written, a rerun into the library it wrote appends a second copy of a block without `(pin_names` (`Schematic.RerunAppendsAgain`).
- Schematic.Outcome: uses the corrected `Schematic.UpdateLibrary`, not `Schematic.UpdateLibraryAsWritten`, so it does not capture the duplicated block of a rerun.
- LegacySchematic.CreateSchematic: composes the corrected handlers and update; as written, pin sizes stay at the default and the hide flags are never set (`LegacySchematicHandlers.PinSizesIgnored`), and adding `R1` next to `R10` overwrites the `R10` block (`LegacySchematic.ShorterTitleOverwrites`).
- LegacySchematic.Outcome: uses the corrected `LegacySchematic.UpdateLibrary`, so the `R1`/`R10` overwrite of `LegacySchematic.UpdateLibraryAsWritten` is not captured.
- Schematic.CreateSchematicSpec: describes the files through the corrected `Schematic.Outcome`, so a rerun's duplicated block (`Schematic.RerunAppendsAgain`) is not part of what it states.
- LegacySchematic.CreateSchematicSpec: describes the files through the corrected handlers and `LegacySchematic.Outcome`, so the default pin sizes (`LegacySchematicHandlers.PinSizesIgnored`) and the `R1`/`R10` overwrite (`LegacySchematic.ShorterTitleOverwrites`) are not part of what it states.
- SchematicHandlers.ArcGroups: `\d` in the class `[eE ,\-\+.\d]` is modelled as the ASCII digits 0-9 only (`SchematicHandlers.ArcChar`); Python 3 also matches other Unicode decimal digits there, so a path holding such digits would be split differently.
- LegacySchematic.Handle: dispatches the pin to the corrected `LegacySchematicHandlers.DecodePin`, which reads the sizes and sets the hide flags the legacy object as written does not have.
- LegacySchematic.KicadSchematic.Apply: applies the corrected `LegacySchematic.Handle`, so a pin record updates the hide flags and sizes that the program as written leaves alone.
- LegacySchematic.UnitOn: draws through the corrected `LegacySchematic.Handle`, with the same difference for pins.
- Text.IsSpace: only the ASCII characters Python counts as white space (tab to carriage return, 28-31 and space) are white space; the Unicode ones that `str.strip()`, `str.isspace()` and the regex class `\s` also accept (such as U+00A0 and U+2003) are not, so `Text.Strip`, `Text.Spaces` and the path clean-up in `SymbolHandlers.StripAll` treat them as ordinary characters.

## Findings

| source | as written | input that shows it | evidently intended | confidence | as-written member | corrected member |
|---|---|---|---|---|---|---|
| schematic/schematic_handlers.py:95-105 | the legacy pin handler reads `kicad_schematic.pinNamesHide`, which the legacy object (schematic/schematic.py:25-27) does not have, so the `try` always falls back | a pin whose size fields are `8pt` and `9pt` is drawn with sizes 0.6 and 0.6 | the object carries both hide flags, and sizes come from the record (0.8 and 0.9) | high; not executed | LegacySchematicHandlers.PinSizesIgnored | LegacySchematicHandlers.PinSizesRead |
| schematic/schematic.py:94-106 | the presence test `DEF <title>` and the pattern `.#.# <title>.*?ENDDEF` are not closed after the name | adding `R1` to a library holding `R10` matches inside the `R10` block and overwrites its comment header and `DEF` line | a name matches only its own block (`DEF <title> ` and `# <title>` followed by a newline) | high; not executed | LegacySchematic.ShorterTitleOverwrites | LegacySchematic.KeyNamesOneBlock |
| JLC2KiCadLib/schematic/schematic.py:130 | the presence test wants `symbol "<name>" (pin_names`, but a block whose hide flags are empty (line 84) has no `(pin_names` after its name | writing a component whose pins show their names twice into a new library leaves two copies of its block | a rerun finds the block it wrote and replaces it | high; not executed | Schematic.RerunAppendsAgain | Schematic.InsertedIsFound |
| JLC2KiCadLib/footprint/footprint_handlers.py:6 | imports `get_3Dmodel` from `model3d.py`, which defines `mil2mm`, `get_StepModel`, `get_WrlModel` and `ensure_footprint_lib_directories_exist` but no `get_3Dmodel` | any footprint: importing the handlers raises ImportError before the first record | the import resolves to the 3D model loader and footprints are created | high; not executed | Footprint.AsWrittenNeverCreates | Footprint.Create |
