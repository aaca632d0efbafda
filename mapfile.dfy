/**
 * The root of the object model: a Map with its scalar settings, an ordered metadata
 * dictionary, a Legend, a Scalebar and an ordered list of Layers.
 *
 * `save` prints the map in a fixed order; `read` scans the lines of a file once, with
 * nine flags saying which block it is in, buffering the lines of LEGEND, SCALEBAR and
 * LAYER blocks for the children's constructors and matching scalar lines with the
 * first of a cascade of patterns that fits.
 */
module MapFile {
  import opened Wrappers
  import opened Text
  import opened Enums
  import opened Children
  import Metadata
  import Legend

  // ---------------------------------------------------------------------------
  // The fields of a Map
  // ---------------------------------------------------------------------------

  /**
   * The observable fields of a Map. `projection`, `fontset` and `symbolset` start out
   * NULL, which behaves like the empty string everywhere the model looks at them.
   * `size` is the undeclared property that the reader's SIZE branch creates.
   */
  datatype MapData = MapData(
    name: string,
    status: EnumValue,
    units: EnumValue,
    extent: seq<int>,
    width: int,
    height: int,
    projection: string,
    fontset: string,
    symbolset: string,
    size: Option<(string, string)>,
    metadata: Metadata.Dict,
    legend: Legend.LegendValue,
    scalebar: Scalebar,
    layers: seq<Layer>)

  /** A Map built without a file. */
  const DefaultData: MapData := MapData(
    "MYMAP", Code(STATUS_ON), Code(UNITS_METERS), [-1, -1, -1, -1], 500, 500,
    "", "", "", None, Metadata.Empty, Legend.DefaultLegend, DefaultScalebar, [])

  /** PHP empty() on a string: NULL, "" and "0" are empty. */
  predicate PhpEmpty(s: string)
  {
    s == "" || s == "0"
  }

  function Sum(xs: seq<int>): int
  {
    if xs == [] then 0 else Sum(xs[..|xs| - 1]) + xs[|xs| - 1]
  }

  // ---------------------------------------------------------------------------
  // The scalar line patterns of the reader
  // ---------------------------------------------------------------------------

  /** PCRE `\s`: space, tab, line feed, vertical tab, form feed, carriage return. */
  predicate IsSpace(c: char)
  {
    c == ' ' || c == '\t' || c == '\n' || c == '\U{000B}' || c == '\U{000C}' || c == '\r'
  }

  /** `^"init=(.+)"$` with the `/i` flag: the projection code. */
  function InitCode(t: string): (r: Option<string>)
    ensures r.Some? ==> |t| > 7 && SameIgnoringCase(t[..6], "\"init=") && AnyChars(r.value)
    ensures r.Some? ==> t == t[..6] + r.value + "\""
  {
    if |t| > 7 && HasPrefixIgnoringCase(t, "\"init=") && t[|t| - 1] == '"' && AnyChars(t[6..|t| - 1]) then
      assert t == t[..6] + t[6..|t| - 1] + [t[|t| - 1]];
      Some(t[6..|t| - 1])
    else None
  }

  /**
   * Every line of the form `"init=CODE"`, with the prefix in any case and CODE a `(.+)`
   * capture, is matched, and CODE is what is captured.
   */
  lemma InitCodeOfBuilt(prefix: string, code: string)
    requires |prefix| == 6 && SameIgnoringCase(prefix, "\"init=") && AnyChars(code)
    ensures InitCode(prefix + code + "\"") == Some(code)
  {
    var t := prefix + code + "\"";
    assert t[..6] == prefix && t[|t| - 1] == '"' && t[6..|t| - 1] == code;
  }

  /**
   * `^"(.+)"\s"(.+)"$` can match with the first group ending just before position `i`:
   * `t[i]` is the quote closing the key, `t[i + 2]` the quote opening the value.
   */
  predicate SplitsAt(t: string, i: int)
  {
    2 <= i && i + 5 <= |t| && t[0] == '"' && t[|t| - 1] == '"'
    && t[i] == '"' && IsSpace(t[i + 1]) && t[i + 2] == '"'
    && '\n' !in t[1..i] && '\n' !in t[i + 3..|t| - 1]
  }

  /** The last position not beyond `i` where the pattern can split `t`. */
  function LastSplit(t: string, i: int): (r: Option<int>)
    ensures r.Some? ==> 2 <= r.value <= i && SplitsAt(t, r.value)
    ensures r.Some? ==> forall j :: r.value < j <= i ==> !SplitsAt(t, j)
    ensures r.None? ==> forall j :: j <= i ==> !SplitsAt(t, j)
    decreases i
  {
    if i < 2 then None else if SplitsAt(t, i) then Some(i) else LastSplit(t, i - 1)
  }

  /**
   * A metadata entry line `"key" "value"`. The first group is greedy, so the key ends at
   * the LAST place where a quote, a white-space character and a quote follow each other.
   */
  function MetadataPair(t: string): (r: Option<(string, string)>)
    ensures r.Some? <==> exists i :: SplitsAt(t, i)
    ensures r.Some? ==> exists i :: SplitsAt(t, i) && r.value == (t[1..i], t[i + 3..|t| - 1])
                                     && forall j :: i < j ==> !SplitsAt(t, j)
  {
    match LastSplit(t, |t| - 5)
    case Some(i) => Some((t[1..i], t[i + 3..|t| - 1]))
    case None => None
  }

  /** `[0-9.]+` */
  predicate IsNumeral(s: string)
  {
    |s| > 0 && forall i :: 0 <= i < |s| ==> IsDigit(s[i]) || s[i] == '.'
  }

  /** `^EXTENT ([0-9.]+) ([0-9.]+) ([0-9.]+) ([0-9.]+)$` with the `/i` flag: the four coordinates. */
  function ExtentText(t: string): (r: Option<seq<string>>)
    ensures r.Some? ==> |r.value| == 4 && forall k :: 0 <= k < 4 ==> IsNumeral(r.value[k])
    ensures r.Some? ==> HasPrefixIgnoringCase(t, "EXTENT ") && t[7..] == Join(" ", r.value)
  {
    if HasPrefixIgnoringCase(t, "EXTENT ") then
      var parts := Split(t[7..], ' ');
      if |parts| == 4 && forall k :: 0 <= k < 4 ==> IsNumeral(parts[k]) then Some(parts) else None
    else None
  }

  /** `^SIZE ([0-9]+) ([0-9]+)$` with the `/i` flag. */
  function SizeText(t: string): (r: Option<(string, string)>)
    ensures r.Some? ==> IsDigits(r.value.0) && IsDigits(r.value.1)
    ensures r.Some? ==> HasPrefixIgnoringCase(t, "SIZE ") && t[5..] == r.value.0 + " " + r.value.1
  {
    if HasPrefixIgnoringCase(t, "SIZE ") then
      var parts := Split(t[5..], ' ');
      if |parts| == 2 && IsDigits(parts[0]) && IsDigits(parts[1]) then
        assert parts[..1] == [parts[0]];
        assert Join(" ", parts) == Join(" ", parts[..1]) + " " + parts[1];
        Some((parts[0], parts[1]))
      else None
    else None
  }

  /** The values of four digit strings. */
  function Coordinates(parts: seq<string>): (r: seq<int>)
    requires forall k :: 0 <= k < |parts| ==> IsDigits(parts[k])
    ensures |r| == |parts|
    ensures forall k :: 0 <= k < |parts| ==> r[k] == NumeralValue(parts[k]) >= 0
  {
    seq(|parts|, k requires 0 <= k < |parts| => NumeralValue(parts[k]) as int)
  }

  function NumeralValue(p: string): nat
    requires IsDigits(p)
  {
    DigitsValue(p)
  }

  // ---------------------------------------------------------------------------
  // The reader
  // ---------------------------------------------------------------------------

  /** The nine flags of `read`, each saying that the scan is inside that block. */
  datatype Flags = Flags(
    inMap: bool, inProjection: bool, inOutputFormat: bool, inQueryMap: bool,
    inLegend: bool, inScalebar: bool, inLayer: bool, inWeb: bool, inMetadata: bool)

  const NoFlags: Flags := Flags(false, false, false, false, false, false, false, false, false)

  /** The scanner's own state: the flags and the LEGEND, SCALEBAR and LAYER line buffers. */
  datatype Cursor = Cursor(flags: Flags, legendBuf: seq<string>, scalebarBuf: seq<string>, layerBuf: seq<string>)

  const Fresh: Cursor := Cursor(NoFlags, [], [], [])

  /** The reader's state: its cursor and the fields read so far. */
  datatype Scan = Scan(cursor: Cursor, data: MapData)

  function Begin(d: MapData): Scan
  {
    Scan(Fresh, d)
  }

  /** One turn of the reader's loop, on one raw line. */
  function Step(s: Scan, raw: string): Scan
  {
    LineStep(s, Trim(raw))
  }

  /**
   * One turn of the reader's loop, on a trimmed line: the first branch of the cascade
   * that matches wins. The branches come in groups, tried in this order; a group answers
   * None when none of its branches matches. Every branch after the first two needs the
   * MAP flag, so outside MAP … END only a MAP line has any effect.
   */
  function LineStep(s: Scan, t: string): Scan
  {
    var f := s.cursor.flags;
    if IsKeyword(t, "MAP") then s.(cursor := s.cursor.(flags := f.(inMap := true)))
    else if !f.inMap then s
    else if IsEnd(t, "MAP") then s.(cursor := s.cursor.(flags := f.(inMap := false)))
    else match SkipStep(f, t)
    case Some(g) => s.(cursor := s.cursor.(flags := g))
    case None =>
      match ProjectionStep(s, t)
      case Some(r) => r
      case None =>
        match BlockStep(s, t)
        case Some(r) => r
        case None =>
          match WebStep(s, t)
          case Some(r) => r
          case None => s.(data := ScalarStep(s.data, t))
  }

  /** The OUTPUTFORMAT and QUERYMAP branches: their blocks are skipped line by line. */
  function SkipStep(f: Flags, t: string): Option<Flags>
  {
    if IsKeyword(t, "OUTPUTFORMAT") then Some(f.(inOutputFormat := true))
    else if f.inOutputFormat && IsEnd(t, "OUTPUTFORMAT") then Some(f.(inOutputFormat := false))
    else if f.inOutputFormat then Some(f)
    else if IsKeyword(t, "QUERYMAP") then Some(f.(inQueryMap := true))
    else if f.inQueryMap && IsEnd(t, "QUERYMAP") then Some(f.(inQueryMap := false))
    else if f.inQueryMap then Some(f)
    else None
  }

  /** The PROJECTION branches: the block's `"init=CODE"` line sets the projection. */
  function ProjectionStep(s: Scan, t: string): Option<Scan>
  {
    var f := s.cursor.flags;
    if IsKeyword(t, "PROJECTION") then Some(s.(cursor := s.cursor.(flags := f.(inProjection := true))))
    else if f.inProjection && IsEnd(t, "PROJECTION") then Some(s.(cursor := s.cursor.(flags := f.(inProjection := false))))
    else if f.inProjection && InitCode(t).Some? then Some(s.(data := s.data.(projection := InitCode(t).value)))
    else None
  }

  /**
   * The LEGEND, SCALEBAR and LAYER branches: each block's lines, both delimiters
   * included, are buffered and handed to a new child at the block's END.
   */
  function BlockStep(s: Scan, t: string): Option<Scan>
  {
    var c := s.cursor;
    var f := c.flags;
    var d := s.data;
    if IsKeyword(t, "LEGEND") then Some(Scan(c.(flags := f.(inLegend := true), legendBuf := c.legendBuf + [t]), d))
    else if f.inLegend && IsEnd(t, "LEGEND") then
      Some(Scan(c.(flags := f.(inLegend := false), legendBuf := []),
                d.(legend := Legend.ReadLegend(c.legendBuf + [t]))))
    else if f.inLegend then Some(Scan(c.(legendBuf := c.legendBuf + [t]), d))

    else if IsKeyword(t, "SCALEBAR") then Some(Scan(c.(flags := f.(inScalebar := true), scalebarBuf := c.scalebarBuf + [t]), d))
    else if f.inScalebar && IsEnd(t, "SCALEBAR") then
      Some(Scan(c.(flags := f.(inScalebar := false), scalebarBuf := []),
                d.(scalebar := ScalebarFrom(c.scalebarBuf + [t]))))
    else if f.inScalebar then Some(Scan(c.(scalebarBuf := c.scalebarBuf + [t]), d))

    else if IsKeyword(t, "LAYER") then Some(Scan(c.(flags := f.(inLayer := true), layerBuf := c.layerBuf + [t]), d))
    else if f.inLayer && IsEnd(t, "LAYER") then
      Some(Scan(c.(flags := f.(inLayer := false), layerBuf := []),
                d.(layers := d.layers + [LayerFrom(c.layerBuf + [t])])))
    else if f.inLayer then Some(Scan(c.(layerBuf := c.layerBuf + [t]), d))
    else None
  }

  /** The WEB and METADATA branches: an entry line inside both blocks sets a metadata key. */
  function WebStep(s: Scan, t: string): Option<Scan>
  {
    var f := s.cursor.flags;
    if IsKeyword(t, "WEB") then Some(s.(cursor := s.cursor.(flags := f.(inWeb := true))))
    else if f.inWeb && IsEnd(t, "WEB") then Some(s.(cursor := s.cursor.(flags := f.(inWeb := false))))
    else if f.inWeb && IsKeyword(t, "METADATA") then Some(s.(cursor := s.cursor.(flags := f.(inMetadata := true))))
    else if f.inWeb && f.inMetadata && IsEnd(t, "METADATA") then Some(s.(cursor := s.cursor.(flags := f.(inMetadata := false))))
    else if f.inWeb && f.inMetadata && MetadataPair(t).Some? then
      var (k, v) := MetadataPair(t).value;
      Some(s.(data := s.data.(metadata := Metadata.Set(s.data.metadata, k, v))))
    else None
  }

  /**
   * The scalar branches, NAME to UNITS; a line none of them matches is ignored. An
   * EXTENT line is matched with `[0-9.]+` coordinates, but only digit-only ones are
   * stored, extent values being integers here.
   */
  function ScalarStep(d: MapData, t: string): MapData
  {
    if Quoted(t, "NAME ").Some? then d.(name := Quoted(t, "NAME ").value)
    else if Rest(t, "STATUS ").Some? then d.(status := Convert(StatusTable, Rest(t, "STATUS ").value))
    else if ExtentText(t).Some? then
      var parts := ExtentText(t).value;
      if forall k :: 0 <= k < 4 ==> IsDigits(parts[k]) then d.(extent := Coordinates(parts)) else d
    else if Quoted(t, "FONTSET ").Some? then d.(fontset := Quoted(t, "FONTSET ").value)
    else if Quoted(t, "SYMBOLSET ").Some? then d.(symbolset := Quoted(t, "SYMBOLSET ").value)
    else if SizeText(t).Some? then d.(size := SizeText(t))
    else if Rest(t, "UNITS ").Some? then d.(units := Convert(UnitsTable, Rest(t, "UNITS ").value))
    else d
  }

  /** The reader's loop over `lines`, from state `s`. */
  function Run(s: Scan, lines: seq<string>): Scan
  {
    if lines == [] then s else Step(Run(s, lines[..|lines| - 1]), lines[|lines| - 1])
  }

  /** The fields of `new Map($mapfile)` for a file holding `lines`. */
  function ReadLines(lines: seq<string>): MapData
  {
    Run(Begin(DefaultData), lines).data
  }

  /**
   * Reading two pieces one after the other is reading their concatenation. This is the
   * fold law `Legend.RunAppend` states for the LEGEND reader, here for the map reader's
   * `Step`; the two readers have separate state, so each fold carries its own copy.
   */
  lemma {:induction false} RunAppend(s: Scan, a: seq<string>, b: seq<string>)
    ensures Run(s, a + b) == Run(Run(s, a), b)
  {
    if b != [] {
      var n := |b| - 1;
      assert (a + b)[..|a + b| - 1] == a + b[..n];
      RunAppend(s, a, b[..n]);
    } else {
      assert a + b == a;
    }
  }

  lemma RunOne(s: Scan, line: string)
    ensures Run(s, [line]) == Step(s, line)
  {
    assert [line][..0] == [];
  }

  lemma RunSplitFirst(s: Scan, lines: seq<string>)
    requires |lines| >= 1
    ensures Run(s, lines) == Run(Step(s, lines[0]), lines[1..])
  {
    RunAppend(s, [lines[0]], lines[1..]);
    assert [lines[0]] + lines[1..] == lines;
    RunOne(s, lines[0]);
  }

  // ---------------------------------------------------------------------------
  // The writer
  // ---------------------------------------------------------------------------

  /** `implode(' ', $extent)` */
  function ExtentString(xs: seq<int>): string
  {
    Join(" ", seq(|xs|, k requires 0 <= k < |xs| => IntToString(xs[k])))
  }

  /** The optional EXTENT line: only for a non-empty extent whose values add up to at least 0. */
  function ExtentLines(xs: seq<int>): seq<string>
  {
    if |xs| > 0 && Sum(xs) >= 0 then [ExtentLine(xs)] else []
  }

  function ExtentLine(xs: seq<int>): string
  {
    "  EXTENT " + ExtentString(xs)
  }

  /** A FONTSET or SYMBOLSET line, only for a file name that is not empty. */
  function FileLines(keyword: string, file: string): seq<string>
  {
    if !PhpEmpty(file) then [FileLine(keyword, file)] else []
  }

  function FileLine(keyword: string, file: string): string
  {
    "  " + keyword + " \"" + file + "\""
  }

  /** The SIZE line, only when neither dimension is 0. */
  function SizeLines(width: int, height: int): seq<string>
  {
    if width != 0 && height != 0 then [SizeLine(width, height)] else []
  }

  function SizeLine(width: int, height: int): string
  {
    "  SIZE " + IntToString(width) + " " + IntToString(height)
  }

  function StatusLine(status: EnumValue): string
  {
    "  STATUS " + Encode(StatusTable, status)
  }

  function NameLine(name: string): string
  {
    "  NAME \"" + name + "\""
  }

  function UnitsLine(units: EnumValue): string
  {
    "  UNITS " + Encode(UnitsTable, units)
  }

  /** MAP, STATUS, NAME and the optional EXTENT, FONTSET, SYMBOLSET and SIZE lines, then UNITS. */
  function HeadLines(d: MapData): seq<string>
  {
    ["MAP", StatusLine(d.status), NameLine(d.name)]
    + ExtentLines(d.extent)
    + FileLines("FONTSET", d.fontset)
    + FileLines("SYMBOLSET", d.symbolset)
    + SizeLines(d.width, d.height)
    + [UnitsLine(d.units)]
  }

  /** The optional PROJECTION block, with the code lower-cased. */
  function ProjectionLines(p: string): seq<string>
  {
    if !PhpEmpty(p) then ["", "  PROJECTION", "    \"init=" + Lower(p) + "\"", "  END # PROJECTION"] else []
  }

  function EntryLine(k: string, v: string): string
  {
    "      \"" + k + "\" \"" + v + "\""
  }

  /** One entry line per key, in the dictionary's order. */
  function EntryLines(m: Metadata.Dict): (r: seq<string>)
    requires Metadata.Valid(m)
    ensures |r| == |m.keys|
    ensures forall i :: 0 <= i < |r| ==> r[i] == EntryLine(m.keys[i], m.values[m.keys[i]])
  {
    seq(|m.keys|, i requires 0 <= i < |m.keys| => EntryLine(m.keys[i], m.values[m.keys[i]]))
  }

  /** The WEB block, with a METADATA block inside it only when there are entries. */
  function WebLines(m: Metadata.Dict): seq<string>
    requires Metadata.Valid(m)
  {
    ["", "  WEB"]
    + (if m.keys != [] then ["    METADATA"] + EntryLines(m) + ["    END # METADATA"] else [])
    + ["  END # WEB"]
  }

  /** Each layer's text after a blank line, in list order. */
  function LayerLines(layers: seq<Layer>, writeLayer: Layer -> seq<string>): seq<string>
  {
    if layers == [] then []
    else LayerLines(layers[..|layers| - 1], writeLayer) + [""] + writeLayer(layers[|layers| - 1])
  }

  /** `save($filename)`: the lines written to the file. */
  function SaveLines(d: MapData, w: Writers): seq<string>
    requires Metadata.Valid(d.metadata)
  {
    HeadLines(d) + ProjectionLines(d.projection) + WebLines(d.metadata)
    + [""] + Legend.WriteLegend(d.legend, w.writeLabel)
    + [""] + w.writeScalebar(d.scalebar)
    + LayerLines(d.layers, w.writeLayer)
    + ["END # MAP"]
  }

  // ---------------------------------------------------------------------------
  // The Map object
  // ---------------------------------------------------------------------------

  /** What setFontSet and setSymbolSet end with: the file was taken, or an Exception. */
  datatype Outcome = Done | Failure(message: string)

  class Map {
    var fontset: string
    var symbolset: string
    var metadata: Metadata.Dict
    var layers: seq<Layer>
    var extent: seq<int>
    var height: int
    var name: string
    var projection: string
    var status: EnumValue
    var units: EnumValue
    var width: int
    var legend: Legend.Legend
    var scalebar: Scalebar
    var size: Option<(string, string)>

    /** The metadata array lists each key once. */
    ghost predicate Valid()
      reads this
    {
      Metadata.Valid(metadata)
    }

    function Data(): MapData
      reads this, legend
    {
      MapData(name, status, units, extent, width, height, projection, fontset, symbolset,
              size, metadata, legend.Value(), scalebar, layers)
    }

    /**
     * `new Map()` or `new Map($mapfile)`, where `mapfile` holds the lines of an existing
     * file. The default Legend is put in place before reading rather than after it when
     * no LEGEND block was read: the result is the same.
     */
    constructor (mapfile: Option<seq<string>>)
      ensures Valid()
      ensures mapfile.None? ==> Data() == DefaultData
      ensures mapfile.Some? ==> Data() == ReadLines(mapfile.value)
    {
      fontset, symbolset := "", "";
      metadata := Metadata.Empty;
      layers := [];
      extent := [-1, -1, -1, -1];
      height, width := 500, 500;
      name := "MYMAP";
      projection := "";
      status := Code(STATUS_ON);
      units := Code(UNITS_METERS);
      size := None;
      scalebar := DefaultScalebar;
      legend := new Legend.Legend(None);
      new;
      if mapfile.Some? {
        Read(mapfile.value);
      }
    }

    /** `setExtent($minx, $miny, $maxx, $maxy)` */
    method SetExtent(minx: int, miny: int, maxx: int, maxy: int)
      modifies this
      ensures Data() == old(Data()).(extent := [minx, miny, maxx, maxy])
      ensures metadata == old(metadata)
    {
      extent := [minx, miny, maxx, maxy];
    }

    /** `setFontSet($filename)`, where `fileExists` is what file_exists($filename) answers. */
    method SetFontSet(filename: string, fileExists: bool) returns (r: Outcome)
      modifies this
      ensures fileExists ==> r == Done && Data() == old(Data()).(fontset := filename)
      ensures !fileExists ==> r == Failure("FontSet file does not exists.") && Data() == old(Data())
      ensures metadata == old(metadata)
    {
      if fileExists {
        fontset := filename;
        r := Done;
      } else {
        r := Failure("FontSet file does not exists.");
      }
    }

    /** `setMetadata($key, $value)` */
    method SetMetadata(key: string, value: string)
      requires Valid()
      modifies this
      ensures Valid()
      ensures Data() == old(Data()).(metadata := Metadata.Set(old(metadata), key, value))
    {
      metadata := Metadata.Set(metadata, key, value);
    }

    /** `setSize($width, $height)`; intval() of an integer is the integer itself. */
    method SetSize(newWidth: int, newHeight: int)
      modifies this
      ensures Data() == old(Data()).(width := newWidth, height := newHeight)
      ensures metadata == old(metadata)
    {
      width := newWidth;
      height := newHeight;
    }

    /** `setSymbolSet($filename)`, where `fileExists` is what file_exists($filename) answers. */
    method SetSymbolSet(filename: string, fileExists: bool) returns (r: Outcome)
      modifies this
      ensures fileExists ==> r == Done && Data() == old(Data()).(symbolset := filename)
      ensures !fileExists ==> r == Failure("SymbolSet file does not exists.") && Data() == old(Data())
      ensures metadata == old(metadata)
    {
      if fileExists {
        symbolset := filename;
        r := Done;
      } else {
        r := Failure("SymbolSet file does not exists.");
      }
    }

    /** `getLayers()` */
    function GetLayers(): (r: seq<Layer>)
      reads this
      ensures |r| == |layers| && forall i :: 0 <= i < |r| ==> r[i] == layers[i]
    {
      layers
    }

    /** `getLayer($i)`: the layer at index `i`, or FALSE when there is none. */
    function GetLayer(i: int): (r: Option<Layer>)
      reads this
      ensures r.Some? <==> 0 <= i < |layers|
      ensures r.Some? ==> r.value == layers[i]
    {
      if 0 <= i < |layers| then Some(layers[i]) else None
    }

    /** `getMetadata($key)`: the value stored under `key`, or FALSE when there is none. */
    function GetMetadata(key: string): (r: Option<string>)
      reads this
      ensures r.Some? <==> key in metadata.values
      ensures r.Some? ==> r.value == metadata.values[key]
    {
      Metadata.Get(metadata, key)
    }

    /** `removeMetadata($key)` */
    method RemoveMetadata(key: string)
      requires Valid()
      modifies this
      ensures Valid()
      ensures Data() == old(Data()).(metadata := Metadata.Remove(old(metadata), key))
    {
      if key in metadata.values {
        metadata := Metadata.Remove(metadata, key);
      }
    }

    /** `addLayer($layer)`: appends the given layer, or a new default one, and returns it. */
    method AddLayer(layer: Option<Layer>) returns (r: Layer)
      modifies this
      ensures r == (if layer.Some? then layer.value else DefaultLayer)
      ensures Data() == old(Data()).(layers := old(layers) + [r])
      ensures metadata == old(metadata)
    {
      r := if layer.Some? then layer.value else DefaultLayer;
      layers := layers + [r];
      r := layers[|layers| - 1];
    }

    /** MAP, STATUS, NAME, the optional EXTENT, FONTSET, SYMBOLSET and SIZE lines, and UNITS. */
    method WriteHead() returns (lines: seq<string>)
      ensures lines == HeadLines(Data())
    {
      lines := ["MAP"];
      lines := lines + [StatusLine(status)];
      lines := lines + [NameLine(name)];
      if |extent| > 0 && Sum(extent) >= 0 {
        lines := lines + [ExtentLine(extent)];
      }
      assert lines == ["MAP", StatusLine(status), NameLine(name)] + ExtentLines(extent);
      if !PhpEmpty(fontset) {
        lines := lines + [FileLine("FONTSET", fontset)];
      }
      assert lines == ["MAP", StatusLine(status), NameLine(name)] + ExtentLines(extent) + FileLines("FONTSET", fontset);
      if !PhpEmpty(symbolset) {
        lines := lines + [FileLine("SYMBOLSET", symbolset)];
      }
      assert lines == ["MAP", StatusLine(status), NameLine(name)] + ExtentLines(extent) + FileLines("FONTSET", fontset)
                      + FileLines("SYMBOLSET", symbolset);
      if width != 0 && height != 0 {
        lines := lines + [SizeLine(width, height)];
      }
      assert lines == ["MAP", StatusLine(status), NameLine(name)] + ExtentLines(extent) + FileLines("FONTSET", fontset)
                      + FileLines("SYMBOLSET", symbolset) + SizeLines(width, height);
      lines := lines + [UnitsLine(units)];
    }

    /** The WEB block, with the METADATA entries in insertion order. */
    method WriteWeb() returns (lines: seq<string>)
      requires Valid()
      ensures lines == WebLines(metadata)
    {
      lines := [""];
      lines := lines + ["  WEB"];
      if metadata.keys != [] {
        lines := lines + ["    METADATA"];
        for j := 0 to |metadata.keys|
          invariant lines == ["", "  WEB", "    METADATA"] + EntryLines(metadata)[..j]
        {
          var k := metadata.keys[j];
          lines := lines + [EntryLine(k, metadata.values[k])];
          assert EntryLines(metadata)[..j + 1] == EntryLines(metadata)[..j] + [EntryLine(k, metadata.values[k])];
        }
        assert EntryLines(metadata)[..|metadata.keys|] == EntryLines(metadata);
        lines := lines + ["    END # METADATA"];
      }
      lines := lines + ["  END # WEB"];
    }

    /** Each layer's text after a blank line, in list order. */
    method WriteLayers(writeLayer: Layer -> seq<string>) returns (lines: seq<string>)
      ensures lines == LayerLines(layers, writeLayer)
    {
      lines := [];
      for j := 0 to |layers|
        invariant lines == LayerLines(layers[..j], writeLayer)
      {
        lines := lines + [""];
        lines := lines + writeLayer(layers[j]);
        assert layers[..j + 1][..j] == layers[..j];
      }
      assert layers[..|layers|] == layers;
    }

    /** `save($filename)`: the lines written to the file, with the children's text from `w`. */
    method Save(w: Writers) returns (lines: seq<string>)
      requires Valid()
      ensures lines == SaveLines(Data(), w)
    {
      lines := WriteHead();
      if !PhpEmpty(projection) {
        lines := lines + [""];
        lines := lines + ["  PROJECTION"];
        lines := lines + ["    \"init=" + Lower(projection) + "\""];
        lines := lines + ["  END # PROJECTION"];
      }
      assert lines == HeadLines(Data()) + ProjectionLines(projection);
      var web := WriteWeb();
      lines := lines + web;
      lines := lines + [""];
      var legendText := legend.Write(w.writeLabel);
      lines := lines + legendText;
      assert lines == HeadLines(Data()) + ProjectionLines(projection) + WebLines(metadata)
                      + [""] + Legend.WriteLegend(legend.Value(), w.writeLabel);
      lines := lines + [""];
      lines := lines + w.writeScalebar(scalebar);
      var layerText := WriteLayers(w.writeLayer);
      lines := lines + layerText;
      assert lines == HeadLines(Data()) + ProjectionLines(projection) + WebLines(metadata)
                      + [""] + Legend.WriteLegend(legend.Value(), w.writeLabel)
                      + [""] + w.writeScalebar(scalebar) + LayerLines(layers, w.writeLayer);
      lines := lines + ["END # MAP"];
    }

    /**
     * `read($mapfile)`: one pass over the file's lines. The nine block flags and the
     * three line buffers are kept together in a Cursor.
     */
    method Read(lines: seq<string>)
      requires Valid()
      modifies this
      ensures Valid()
      ensures Data() == Run(Begin(old(Data())), lines).data
    {
      var c := Fresh;
      var i := 0;
      while i < |lines|
        invariant 0 <= i <= |lines|
        invariant Valid()
        invariant Scan(c, Data()) == Run(Begin(old(Data())), lines[..i])
      {
        assert lines[..i + 1][..i] == lines[..i];
        var sz := Trim(lines[i]);
        c := ReadLine(c, sz);
        i := i + 1;
      }
      assert lines[..|lines|] == lines;
    }

    /** One turn of the reading loop, on a trimmed line. */
    method ReadLine(c: Cursor, sz: string) returns (next: Cursor)
      requires Valid()
      modifies this
      ensures Valid()
      ensures Scan(next, Data()) == LineStep(Scan(c, old(Data())), sz)
    {
      var f := c.flags;
      next := c;
      if IsKeyword(sz, "MAP") {
        next := c.(flags := f.(inMap := true));
      } else if f.inMap && IsEnd(sz, "MAP") {
        next := c.(flags := f.(inMap := false));
      } else if f.inMap {
        var skipped := SkipStep(f, sz);
        if skipped.Some? {
          next := c.(flags := skipped.value);
        } else {
          var done;
          done, next := ReadProjectionLine(c, sz);
          if !done {
            done, next := ReadBlockLine(c, sz);
          }
          if !done {
            done, next := ReadWebLine(c, sz);
          }
          if !done {
            ReadScalarLine(sz);
          }
        }
      }
    }

    method ReadProjectionLine(c: Cursor, sz: string) returns (done: bool, next: Cursor)
      modifies this
      ensures done == ProjectionStep(Scan(c, old(Data())), sz).Some?
      ensures done ==> Scan(next, Data()) == ProjectionStep(Scan(c, old(Data())), sz).value
      ensures !done ==> next == c && Data() == old(Data())
      ensures metadata == old(metadata)
    {
      var f := c.flags;
      done, next := true, c;
      if IsKeyword(sz, "PROJECTION") {
        next := c.(flags := f.(inProjection := true));
      } else if f.inProjection && IsEnd(sz, "PROJECTION") {
        next := c.(flags := f.(inProjection := false));
      } else if f.inProjection && InitCode(sz).Some? {
        projection := InitCode(sz).value;
      } else {
        done := false;
      }
    }

    method ReadBlockLine(c: Cursor, sz: string) returns (done: bool, next: Cursor)
      modifies this
      ensures done == BlockStep(Scan(c, old(Data())), sz).Some?
      ensures done ==> Scan(next, Data()) == BlockStep(Scan(c, old(Data())), sz).value
      ensures !done ==> next == c && Data() == old(Data())
      ensures metadata == old(metadata)
    {
      var f := c.flags;
      done, next := true, c;
      if IsKeyword(sz, "LEGEND") {
        next := c.(flags := f.(inLegend := true), legendBuf := c.legendBuf + [sz]);
      } else if f.inLegend && IsEnd(sz, "LEGEND") {
        legend := new Legend.Legend(Some(c.legendBuf + [sz]));
        next := c.(flags := f.(inLegend := false), legendBuf := []);
      } else if f.inLegend {
        next := c.(legendBuf := c.legendBuf + [sz]);

      } else if IsKeyword(sz, "SCALEBAR") {
        next := c.(flags := f.(inScalebar := true), scalebarBuf := c.scalebarBuf + [sz]);
      } else if f.inScalebar && IsEnd(sz, "SCALEBAR") {
        scalebar := ScalebarFrom(c.scalebarBuf + [sz]);
        next := c.(flags := f.(inScalebar := false), scalebarBuf := []);
      } else if f.inScalebar {
        next := c.(scalebarBuf := c.scalebarBuf + [sz]);

      } else if IsKeyword(sz, "LAYER") {
        next := c.(flags := f.(inLayer := true), layerBuf := c.layerBuf + [sz]);
      } else if f.inLayer && IsEnd(sz, "LAYER") {
        var _ := AddLayer(Some(LayerFrom(c.layerBuf + [sz])));
        next := c.(flags := f.(inLayer := false), layerBuf := []);
      } else if f.inLayer {
        next := c.(layerBuf := c.layerBuf + [sz]);
      } else {
        done := false;
      }
    }

    method ReadWebLine(c: Cursor, sz: string) returns (done: bool, next: Cursor)
      requires Valid()
      modifies this
      ensures Valid()
      ensures done == WebStep(Scan(c, old(Data())), sz).Some?
      ensures done ==> Scan(next, Data()) == WebStep(Scan(c, old(Data())), sz).value
      ensures !done ==> next == c && Data() == old(Data())
    {
      var f := c.flags;
      done, next := true, c;
      if IsKeyword(sz, "WEB") {
        next := c.(flags := f.(inWeb := true));
      } else if f.inWeb && IsEnd(sz, "WEB") {
        next := c.(flags := f.(inWeb := false));
      } else if f.inWeb && IsKeyword(sz, "METADATA") {
        next := c.(flags := f.(inMetadata := true));
      } else if f.inWeb && f.inMetadata && IsEnd(sz, "METADATA") {
        next := c.(flags := f.(inMetadata := false));
      } else if f.inWeb && f.inMetadata && MetadataPair(sz).Some? {
        var (k, v) := MetadataPair(sz).value;
        metadata := Metadata.Set(metadata, k, v);
      } else {
        done := false;
      }
    }

    method ReadScalarLine(sz: string)
      modifies this
      ensures Data() == ScalarStep(old(Data()), sz)
    {
      ghost var d := Data();
      if Quoted(sz, "NAME ").Some? {
        name := Quoted(sz, "NAME ").value;
        assert Data() == d.(name := name);
      } else if Rest(sz, "STATUS ").Some? {
        status := Convert(StatusTable, Rest(sz, "STATUS ").value);
        assert Data() == d.(status := status);
      } else if ExtentText(sz).Some? {
        var parts := ExtentText(sz).value;
        if forall k :: 0 <= k < 4 ==> IsDigits(parts[k]) {
          extent := Coordinates(parts);
          assert Data() == d.(extent := extent);
        }
      } else {
        ReadFileOrSizeLine(sz);
      }
    }

    /** The FONTSET, SYMBOLSET, SIZE and UNITS arms of the scalar cascade. */
    method ReadFileOrSizeLine(sz: string)
      requires Quoted(sz, "NAME ").None? && Rest(sz, "STATUS ").None? && ExtentText(sz).None?
      modifies this
      ensures Data() == ScalarStep(old(Data()), sz)
    {
      ghost var d := Data();
      if Quoted(sz, "FONTSET ").Some? {
        fontset := Quoted(sz, "FONTSET ").value;
        assert Data() == d.(fontset := fontset);
      } else if Quoted(sz, "SYMBOLSET ").Some? {
        symbolset := Quoted(sz, "SYMBOLSET ").value;
        assert Data() == d.(symbolset := symbolset);
      } else if SizeText(sz).Some? {
        size := SizeText(sz);
        assert Data() == d.(size := size);
      } else if Rest(sz, "UNITS ").Some? {
        units := Convert(UnitsTable, Rest(sz, "UNITS ").value);
        assert Data() == d.(units := units);
      }
    }
  }
}
