# MapFile object model

This project models the core of a MapFile editor: the PHP classes `MapFile\Map` and
`MapFile\Legend`. They read and write the block-structured text configuration of a map
server (`MAP … END`) and keep the parsed tree in memory.

- `Map` (module `MapFile`, class `MapFile.Map`) is the root aggregate. It holds a name, a
  status, units, an extent, a width and a height, a projection code, a font-set and a
  symbol-set file name, an ordered metadata dictionary, one Legend, one Scalebar and an
  ordered list of Layers.
- The setters, `addLayer` and the readers are methods and functions of the class. The
  methods state the whole new state as a function of the old one.
- `save` is the method `Map.Save`. It returns the lines the PHP code writes, one string
  per line without the line break. Its result equals the pure function `SaveLines`. The
  module `Writing` proves the fixed output order and the optional lines about that function.
- `read` is the method `Map.Read`. It loops over the lines of a file and keeps the
  nine block flags and the LEGEND, SCALEBAR and LAYER buffers in a `Cursor`. It is proved
  equal to `Run`, a left fold of the one-line function `Step`. `Step` follows the source's
  `if / else if` cascade branch by branch, first match wins. The module `Reading` proves
  what the scanner ignores, skips, buffers and reads back.
- `Legend` (module `Legend`, class `Legend.Legend`) has a status and one Label. Its
  `read` is a method over the block's lines with two flags and a LABEL buffer. Its
  `write` is a method proved equal to the function `WriteLegend`.
- `convertStatus` and `convertUnits` are one closed table per family (module `Enums`).
  The model keeps the library's three outcomes:
  - a token string searched case-sensitively gives its code;
  - a canonical integer string looked up as a key gives the token;
  - a miss gives FALSE (`NotFound`).
- The metadata dictionary (module `Metadata`) keeps PHP's insertion order. A key that is
  overwritten keeps its place. A key that is unset leaves the order.
- Label, Scalebar and Layer are opaque (module `Children`). Each is either built with
  defaults or built from the trimmed lines of its block. What their `write()` prints is
  passed in as a `Writers` record of functions.

The model follows the PHP code in these quirks:
- The EXTENT pattern `[0-9.]+` does not match a minus sign, so a negative extent that
  is written is not read back (`Reading.NegativeExtentNotReread`).
- A SIZE line is read into the separate `size` property, not into width and height
  (`Reading.SizeLineRead`).
- Tokens are decoded case-sensitively (`Enums.StatusConvertCases`).
- A numeric argument to `convert*` yields the token, not the code. The writer then
  prints an empty token for it (`Enums.NumericStatusIsStoredAsToken`).
- A bare `END` always closes the MAP, whatever block is open, because its branch comes
  first in the cascade (`Reading.BareEndClosesMap`).
- A PROJECTION block inside a LAYER sets the map's projection and is not buffered for
  the layer (`Reading.ProjectionInsideLayerTakenByMap`).
- `save` writes the projection code through `strtolower` and `read` keeps the code as it
  finds it, so a code with upper-case letters reads back lower-cased
  (`Reading.ProjectionReadBack`).

The format's general description says more than the code does. In each case below the
model follows the code:
- Decoding is case-sensitive, and an unknown token gives FALSE, not an error.
- Blocks are tracked with one flag per keyword, not with a nesting depth.
- An unmatched `END`, or input that ends inside a block, is not an error.
- `setSize` applies `intval` and does not force the values to be positive.

## Model

| member | source | states |
|---|---|---|
| `Enums.TokenOf` | library/map.php:188 | the token of a code is found exactly when some table entry has that code, and the pair is in the table |
| `Enums.CodeOf` | library/map.php:189 | `array_search` finds a code exactly when some entry has that exact token, and the pair is in the table |
| `Enums.TableInverse` | library/map.php:181-189 | in a table without repeated codes or tokens, looking up a code and searching its token lead back to each other |
| `Enums.DecodeEncoded` | library/map.php:181-206 | for any such table of upper-case word tokens, decoding the token written for a declared code gives the code back |
| `Enums.StatusRoundTrip` | library/map.php:181-190 | ON↔1 and OFF↔0: the status token written on save decodes to the same code |
| `Enums.UnitsRoundTrip` | library/map.php:191-206 | the declared units codes are exactly 0–6 and 8, and each one's token decodes back to the code |
| `Enums.UnitsSevenUndeclared` | library/map.php:203-205 | units code 7 is not in the table, and converting "7" yields FALSE |
| `Enums.StatusConvertCases` | library/legend.php:46-55 | status conversion maps "ON"→1, "OFF"→0, "1"→"ON", "0"→"OFF"; every other argument, including lower-case tokens, yields FALSE |
| `Enums.NumericStatusIsStoredAsToken` | library/map.php:187-188 | a numeric STATUS argument stores the token "ON", which the writer then prints as the empty string |
| `Enums.NotFoundWrittenAsCodeZero` | library/map.php:187 | a field holding FALSE is written as the token of code 0 |
| `Text.Trim` | library/map.php:134 | `trim` leaves no strippable character at either end and never lengthens the line |
| `Text.TrimKeepsMiddle` | library/map.php:134 | `trim` gives a contiguous middle part of the line, and everything it cuts off at either end is a strippable character |
| `Text.TrimIdempotent` | library/legend.php:33 | trimming lines that are already trimmed changes nothing |
| `Text.Lower` | library/map.php:101 | `strtolower` lowers each ASCII letter, keeps every other character, and leaves no upper-case letter |
| `Text.IntegerKey` | library/map.php:188 | a string becomes an integer array key only when it starts with a digit or a minus sign, and then the key, negative or not, prints back as exactly that string |
| `Text.IntegerKeyOfInt` | library/map.php:188 | the text PHP prints for any integer is turned back into that same integer key |
| `Text.SplitJoin` | library/map.php:171 | joining space-free numerals with spaces and splitting at the spaces gives the numerals back |
| `Metadata.Get` | library/map.php:72-74 | `getMetadata` yields a value exactly when the key is set, and then the stored value |
| `Metadata.Set` | library/map.php:55-57 | after setting, the key has the new value; every other key keeps its value; a new key goes to the end of the order, an old one keeps its place |
| `Metadata.Remove` | library/map.php:76-78 | after removing, the key has no value; every other key keeps its value; removing an absent key changes nothing; the key order is the old order without the key |
| `Metadata.WithoutAt` | library/map.php:77 | unsetting a listed key takes exactly that key out of the order and keeps the others in order |
| `Metadata.RemoveUndoesNewSet` | library/map.php:55-78 | setting a key that was absent and removing it again gives back the same dictionary, order included |
| `Metadata.SetTwice` | library/map.php:56 | setting a key twice leaves only the second value, with the key in its first position |
| `MapFile.InitCode` | library/map.php:149 | a line `^"init=(.+)"$` matches starts with `"init=` in any letter case and ends with a quote, and the line is that prefix, the capture, and the quote; the capture is non-empty and holds no line break |
| `MapFile.InitCodeOfBuilt` | library/map.php:149 | every line made of `"init=` in any letter case, a non-empty code without a line break, and a closing quote matches, and the code is what is captured |
| `MapFile.MetadataPair` | library/map.php:167 | `^"(.+)"\s"(.+)"$` matches exactly when some split exists, and the greedy key ends at the last possible split |
| `MapFile.ExtentText` | library/map.php:171 | a matched EXTENT line holds four `[0-9.]+` numerals separated by single spaces |
| `MapFile.SizeText` | library/map.php:174 | a matched SIZE line holds two digit strings separated by one space |
| `MapFile.Map.constructor` | library/map.php:42-47 | a new Map has the declared defaults, or the fields reading the file's lines gives |
| `MapFile.Map.SetExtent` | library/map.php:49-51 | the extent becomes `[minx, miny, maxx, maxy]` in that order and no other field changes |
| `MapFile.Map.SetFontSet` | library/map.php:52-54 | an existing file is stored as the font set; otherwise the exception's message is returned and nothing changes |
| `MapFile.Map.SetSymbolSet` | library/map.php:62-64 | an existing file is stored as the symbol set; otherwise the exception's message is returned and nothing changes |
| `MapFile.Map.SetMetadata` | library/map.php:55-57 | the dictionary becomes `Metadata.Set` of the old one, and nothing else changes |
| `MapFile.Map.SetSize` | library/map.php:58-61 | width and height take the given values and nothing else changes |
| `MapFile.Map.GetLayers` | library/map.php:66-68 | the layer list, element by element |
| `MapFile.Map.GetLayer` | library/map.php:69-71 | element i when `0 <= i < length`, FALSE otherwise |
| `MapFile.Map.GetMetadata` | library/map.php:72-74 | the value stored under the key, or FALSE when the key is not set |
| `MapFile.Map.RemoveMetadata` | library/map.php:76-78 | the dictionary becomes `Metadata.Remove` of the old one, and nothing else changes |
| `MapFile.Map.AddLayer` | library/map.php:80-84 | the given layer, or a new default one, is appended; earlier layers stay in order; the appended layer is returned |
| `MapFile.Map.WriteHead` | library/map.php:88-96 | MAP, STATUS, NAME, the optional EXTENT, FONTSET, SYMBOLSET and SIZE lines, then UNITS |
| `MapFile.Map.WriteWeb` | library/map.php:105-112 | the WEB block, with one METADATA entry line per key in insertion order |
| `MapFile.Map.WriteLayers` | library/map.php:120-123 | each layer's text after a blank line, in list order |
| `MapFile.Map.Save` | library/map.php:86-127 | the lines written are exactly `SaveLines` of the map's fields |
| `MapFile.Map.Read` | library/map.php:129-179 | the loop over the lines leaves the fields equal to the fold of `Step` over those lines |
| `MapFile.Map.ReadLine` | library/map.php:133-177 | one turn of the loop updates the cursor and the fields as `LineStep` says |
| `MapFile.Map.ReadProjectionLine` | library/map.php:147-149 | the PROJECTION branches fire exactly when `ProjectionStep` matches, with its effect |
| `MapFile.Map.ReadBlockLine` | library/map.php:151-161 | the LEGEND, SCALEBAR and LAYER branches fire exactly when `BlockStep` matches, with its effect |
| `MapFile.Map.ReadWebLine` | library/map.php:163-167 | the WEB and METADATA branches fire exactly when `WebStep` matches, with its effect |
| `MapFile.Map.ReadScalarLine` | library/map.php:169-176 | the NAME … UNITS cascade changes the fields as `ScalarStep` says |
| `MapFile.Map.ReadFileOrSizeLine` | library/map.php:172-176 | the FONTSET, SYMBOLSET, SIZE and UNITS arms of the cascade, as `ScalarStep` says |
| `Writing.SaveFrame` | library/map.php:86-126 | the file starts with MAP, STATUS and NAME, and ends with `END # MAP` |
| `Writing.ExtentWrittenIff` | library/map.php:92 | the head has an EXTENT line exactly when the extent is non-empty and its values add up to at least 0 |
| `Writing.DefaultHead` | library/map.php:19-25 | a Map built without a file writes MAP, STATUS ON, NAME "MYMAP", SIZE 500 500 and UNITS METERS, with no EXTENT line |
| `Writing.WorldExtentWritten` | library/map.php:92 | the extent [-180, -90, 180, 90] is written as `EXTENT -180 -90 180 90` |
| `Reading.ProjectionReadBack` | library/map.php:98-103 | the PROJECTION block save writes for a non-empty code is read back, by the branches at lines 147-149, as the lower-cased code, and the reader leaves the block with only MAP open |
| `Writing.WebBlockShape` | library/map.php:105-112 | the WEB block is always written; METADATA appears only for a non-empty dictionary and lists each key once, in order |
| `Writing.MetadataWrittenIff` | library/map.php:107-111 | the METADATA line is written exactly when the dictionary has entries |
| `Writing.SaveAfterAddLayer` | library/map.php:120-125 | after adding a layer, the file is the old file with a blank line and the new layer's text inserted just before `END # MAP` |
| `Writing.LayerLinesOrder` | library/map.php:120-123 | the layers' texts are written in list order: the text for `a + b` is the text for `a` followed by the text for `b` |
| `Reading.OutsideMapIgnored` | library/map.php:136-137 | before MAP and after its END, lines other than MAP change nothing |
| `Reading.BareEndClosesMap` | library/map.php:137 | a bare END inside MAP closes the map whatever other block is open, and hands nothing to a child |
| `Reading.SkippedBlockHasNoEffect` | library/map.php:139-145 | an OUTPUTFORMAT or QUERYMAP block read inside MAP leaves the reader's whole state as it was |
| `Reading.SkippedBlockDropped` | library/map.php:139-145 | removing such a block from a file does not change any field that reading the file gives |
| `Reading.BlockHandedOver` | library/map.php:151-161 | every line of a LEGEND, SCALEBAR or LAYER block, both delimiters included, is buffered trimmed and handed to the child at the END; the cursor ends as it started |
| `Reading.RunKeepsConsistent` | library/map.php:151-161 | while reading, a block whose flag is cleared has an empty buffer |
| `Reading.BlockRead` | library/map.php:151-161 | a LEGEND, SCALEBAR or LAYER block replaces the legend or the scalebar, or appends one layer; nothing else changes, and the lines after it are read as if it were not there |
| `Reading.ProjectionInsideLayerTakenByMap` | library/map.php:147-161 | a PROJECTION block inside a LAYER sets the map's projection instead of being buffered |
| `Reading.InitLineRead` | library/map.php:149 | inside PROJECTION, the line `"init=CODE"` sets the projection to CODE |
| `Reading.NameLineRead` | library/map.php:169 | the NAME line save writes gives the name back |
| `Reading.StatusLineRead` | library/map.php:170 | the STATUS line of ON or OFF gives the same status back |
| `Reading.ExtentLineRead` | library/map.php:171 | the EXTENT line of four non-negative values gives the same extent back |
| `Reading.NegativeExtentNotReread` | library/map.php:171 | an EXTENT line with a negative value does not match the pattern, so reading it changes nothing |
| `Reading.FontsetLineRead` | library/map.php:172 | the FONTSET line gives the file name back |
| `Reading.SymbolsetLineRead` | library/map.php:173 | the SYMBOLSET line gives the file name back |
| `Reading.SizeLineRead` | library/map.php:174 | the SIZE line is stored as two numerals in `size`, and width and height are left as they were |
| `Reading.UnitsLineRead` | library/map.php:176 | the UNITS line of a declared code gives the same code back |
| `Reading.HeadReadBack` | library/map.php:169-176 | reading the head save writes, followed by `END # MAP`, restores the status, name, units, a non-negative extent and the non-empty file names; SIZE goes to `size` |
| `Reading.EntryPair` | library/map.php:167 | an entry line gives its key and value back when the value holds no quote |
| `Reading.MetadataBlockRead` | library/map.php:165-167 | the METADATA block save writes rebuilds the dictionary, keys in the same order |
| `Reading.WebReadBack` | library/map.php:163-167 | the WEB block save writes, read inside MAP, rebuilds the metadata dictionary with its order |
| `Legend.WriteLegend` | library/legend.php:20-27 | `  LEGEND`, then `    STATUS <token>`, then the label's text at indent 2, then `  END # LEGEND` |
| `Legend.Legend.Write` | library/legend.php:20-27 | the string built by successive appends is `WriteLegend` of the fields |
| `Legend.Legend.constructor` | library/legend.php:14-18 | a fresh Legend has status OFF and the default Label; one built from lines has the fields `read` gives |
| `Legend.Legend.Read` | library/legend.php:29-44 | the loop over the lines leaves the fields equal to the fold of `Step` over those lines |
| `Legend.RunAppend` | library/legend.php:32-43 | reading two pieces one after the other is the same as reading their concatenation |
| `Legend.StatusLineSetsStatus` | library/legend.php:42 | inside LEGEND and outside LABEL, `STATUS X` sets the status to `convertStatus(X)` and changes nothing else |
| `Legend.LabelBlockReplacesLabel` | library/legend.php:38-40 | every line from LABEL through its END, both included, is buffered and handed to a new Label that replaces the current one |
| `Legend.OutsideLinesIgnored` | library/legend.php:35 | outside LEGEND, only a LEGEND line has any effect |
| `Legend.SurroundingLinesIgnored` | library/legend.php:35-36 | lines before LEGEND and after its closing END do not change what is read |
| `Legend.WriteThenRead` | library/legend.php:20-44 | what `write` prints reads back as the same status, with a Label built from the lines the label printed |

## Left out

- The web editor (`index.php`) is not part of this model. It holds the session, the temporary files, the HTML forms and tables, and the branch for the native map-server extension.
- `moveLayerUp`, `moveLayerDown` and `removeLayer` are called by the editor but not defined in `library/map.php`, so they are not modelled.
- Label, Scalebar, Layer, Class, Style and Exception are not part of this model (`library/label.php`, `library/scalebar.php`, `library/layer.php` and the others are not shown). They are opaque values: built empty, or built from their block's lines. Their `write()` text is a parameter.
- Files are not modelled. `save` returns the lines it would write, without `PHP_EOL`. `read` takes the file's lines. `fopen`, `fgets`, `fwrite` and `fclose` are left out.
- `fgets($h, 1024)` splits lines longer than 1023 bytes into several lines; the model reads whole lines.
- `file_exists` is a boolean parameter of `SetFontSet` and `SetSymbolSet`.
- MapFile.Map.constructor: `mapfile` is `None` both when no file is given and when the file does not exist, because that check is a filesystem call.
- MapFile.Map.SetSize: takes integers, so `intval` is the identity. `intval` of strings or floats is not modelled; the library's callers pass integers.
- MapFile.Map.SetExtent: extent values are integers. PHP stores whatever it is given (form strings, floats), and `implode` and `array_sum` then coerce them; that coercion is not modelled.
- MapFile.Map.ReadScalarLine: an EXTENT line whose `[0-9.]+` numerals hold a `.` is matched but ignored, because extent values are integers here. PHP stores the strings.
- Reading.HeadReadBack: a whole `parse(serialize(m))` round trip is not proved. The children are opaque, and a Map read from a file keeps its SIZE in `size`, not in width and height. The read-back is proved block by block instead: head, WEB, LEGEND/SCALEBAR/LAYER buffering, and Legend write-then-read.
- Reading.ProjectionReadBack: a code that holds a line break is left out, because `save` would write it over several lines.
- PHP converts integer-like string keys of the metadata array to integer keys. This changes nothing that is printed, so the dictionary keys are plain strings.
