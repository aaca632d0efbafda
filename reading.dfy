/**
 * What `read` does with the lines of a file: which lines it ignores, which blocks it
 * skips, how it hands buffered blocks to the children, where the cascade's order shows,
 * and which of the lines `save` writes it reads back.
 */
module Reading {
  import opened Wrappers
  import opened Text
  import opened Enums
  import opened Children
  import Metadata
  import Legend
  import opened MapFile

  // ---------------------------------------------------------------------------
  // Outside MAP … END
  // ---------------------------------------------------------------------------

  lemma StepOutsideMap(s: Scan, line: string)
    requires !s.cursor.flags.inMap && !IsKeyword(Trim(line), "MAP")
    ensures Step(s, line) == s
  {
  }

  /** Before the MAP line, and after the map's END, only a MAP line has any effect. */
  lemma {:induction false} OutsideMapIgnored(s: Scan, lines: seq<string>)
    requires !s.cursor.flags.inMap
    requires forall i :: 0 <= i < |lines| ==> !IsKeyword(Trim(lines[i]), "MAP")
    ensures Run(s, lines) == s
  {
    if lines != [] {
      var n := |lines| - 1;
      OutsideMapIgnored(s, lines[..n]);
      StepOutsideMap(s, lines[n]);
    }
  }

  /**
   * A bare END always closes the MAP, whatever block the scan is in: `^END( # MAP)?$`
   * is tried before every other block's END. The open block's flag and buffer stay as
   * they are, and nothing is handed to a child.
   */
  lemma BareEndClosesMap(s: Scan, line: string)
    requires s.cursor.flags.inMap && SameIgnoringCase(Trim(line), "END")
    ensures Step(s, line) == s.(cursor := s.cursor.(flags := s.cursor.flags.(inMap := false)))
  {
    BareEnd(Trim(line));
    EndMapStep(s, Trim(line));
  }

  lemma BareEnd(t: string)
    requires SameIgnoringCase(t, "END")
    ensures IsEnd(t, "MAP") && !IsKeyword(t, "MAP")
  {
    assert Upper("END") == "END" && Upper("MAP") == "MAP";
    assert Upper(t)[0] == 'E';
  }

  /** The branch of `^END( # MAP)?$`, the first one tried inside MAP. */
  lemma EndMapStep(s: Scan, t: string)
    requires s.cursor.flags.inMap && !IsKeyword(t, "MAP") && IsEnd(t, "MAP")
    ensures LineStep(s, t) == s.(cursor := s.cursor.(flags := s.cursor.flags.(inMap := false)))
  {
  }

  // ---------------------------------------------------------------------------
  // OUTPUTFORMAT and QUERYMAP blocks are skipped
  // ---------------------------------------------------------------------------

  /** A line inside an OUTPUTFORMAT block that neither ends the map nor the block. */
  predicate InOutputFormat(t: string)
  {
    !IsKeyword(t, "MAP") && !IsEnd(t, "MAP") && !IsEnd(t, "OUTPUTFORMAT")
  }

  /** A line inside a QUERYMAP block; an OUTPUTFORMAT line there would open that block. */
  predicate InQueryMap(t: string)
  {
    !IsKeyword(t, "MAP") && !IsEnd(t, "MAP") && !IsKeyword(t, "OUTPUTFORMAT") && !IsEnd(t, "QUERYMAP")
  }

  predicate AllInOutputFormat(lines: seq<string>)
  {
    lines == [] || (AllInOutputFormat(lines[..|lines| - 1]) && InOutputFormat(Trim(lines[|lines| - 1])))
  }

  predicate AllInQueryMap(lines: seq<string>)
  {
    lines == [] || (AllInQueryMap(lines[..|lines| - 1]) && InQueryMap(Trim(lines[|lines| - 1])))
  }

  /**
   * An OUTPUTFORMAT or QUERYMAP block as the reader delimits it: the keyword, lines
   * inside, and an END that names the block (a bare END closes the MAP instead).
   */
  predicate SkippedBlock(block: seq<string>, keyword: string)
    requires keyword == "OUTPUTFORMAT" || keyword == "QUERYMAP"
  {
    |block| >= 2
    && IsKeyword(Trim(block[0]), keyword)
    && (if keyword == "OUTPUTFORMAT" then AllInOutputFormat(block[1..|block| - 1])
        else AllInQueryMap(block[1..|block| - 1]))
    && IsEnd(Trim(block[|block| - 1]), keyword) && !IsEnd(Trim(block[|block| - 1]), "MAP")
  }

  lemma StepInOutputFormat(s: Scan, line: string)
    requires s.cursor.flags.inMap && s.cursor.flags.inOutputFormat && InOutputFormat(Trim(line))
    ensures Step(s, line) == s
  {
  }

  lemma StepInQueryMap(s: Scan, line: string)
    requires s.cursor.flags.inMap && !s.cursor.flags.inOutputFormat && s.cursor.flags.inQueryMap
    requires InQueryMap(Trim(line))
    ensures Step(s, line) == s
  {
  }

  lemma {:induction false} OutputFormatInteriorSkipped(s: Scan, lines: seq<string>)
    requires s.cursor.flags.inMap && s.cursor.flags.inOutputFormat && AllInOutputFormat(lines)
    ensures Run(s, lines) == s
  {
    if lines != [] {
      var n := |lines| - 1;
      OutputFormatInteriorSkipped(s, lines[..n]);
      StepInOutputFormat(s, lines[n]);
    }
  }

  lemma {:induction false} QueryMapInteriorSkipped(s: Scan, lines: seq<string>)
    requires s.cursor.flags.inMap && !s.cursor.flags.inOutputFormat && s.cursor.flags.inQueryMap
    requires AllInQueryMap(lines)
    ensures Run(s, lines) == s
  {
    if lines != [] {
      var n := |lines| - 1;
      QueryMapInteriorSkipped(s, lines[..n]);
      StepInQueryMap(s, lines[n]);
    }
  }

  lemma OpenOutputFormat(s: Scan, line: string)
    requires s.cursor.flags.inMap && IsKeyword(Trim(line), "OUTPUTFORMAT")
    ensures Step(s, line) == s.(cursor := s.cursor.(flags := s.cursor.flags.(inOutputFormat := true)))
  {
  }

  lemma CloseOutputFormat(s: Scan, line: string)
    requires s.cursor.flags.inMap && s.cursor.flags.inOutputFormat
    requires IsEnd(Trim(line), "OUTPUTFORMAT") && !IsEnd(Trim(line), "MAP")
    ensures Step(s, line) == s.(cursor := s.cursor.(flags := s.cursor.flags.(inOutputFormat := false)))
  {
  }

  lemma OpenQueryMap(s: Scan, line: string)
    requires s.cursor.flags.inMap && !s.cursor.flags.inOutputFormat && IsKeyword(Trim(line), "QUERYMAP")
    ensures Step(s, line) == s.(cursor := s.cursor.(flags := s.cursor.flags.(inQueryMap := true)))
  {
  }

  lemma CloseQueryMap(s: Scan, line: string)
    requires s.cursor.flags.inMap && !s.cursor.flags.inOutputFormat && s.cursor.flags.inQueryMap
    requires IsEnd(Trim(line), "QUERYMAP") && !IsEnd(Trim(line), "MAP")
    ensures Step(s, line) == s.(cursor := s.cursor.(flags := s.cursor.flags.(inQueryMap := false)))
  {
  }

  /** Reading a whole OUTPUTFORMAT or QUERYMAP block inside MAP leaves the scan as it was. */
  lemma SkippedBlockHasNoEffect(s: Scan, block: seq<string>, keyword: string)
    requires keyword == "OUTPUTFORMAT" || keyword == "QUERYMAP"
    requires s.cursor.flags.inMap && !s.cursor.flags.inOutputFormat
    requires keyword == "QUERYMAP" ==> !s.cursor.flags.inQueryMap
    requires SkippedBlock(block, keyword)
    ensures Run(s, block) == s
  {
    var n := |block| - 1;
    var f := s.cursor.flags;
    var inner := block[1..n];
    assert block == [block[0]] + inner + [block[n]];
    RunAppend(s, [block[0]] + inner, [block[n]]);
    RunAppend(s, [block[0]], inner);
    RunOne(s, block[0]);
    if keyword == "OUTPUTFORMAT" {
      OpenOutputFormat(s, block[0]);
      var afterOpen := s.(cursor := s.cursor.(flags := f.(inOutputFormat := true)));
      OutputFormatInteriorSkipped(afterOpen, inner);
      RunOne(afterOpen, block[n]);
      CloseOutputFormat(afterOpen, block[n]);
      assert afterOpen.(cursor := afterOpen.cursor.(flags := afterOpen.cursor.flags.(inOutputFormat := false))) == s;
    } else {
      OpenQueryMap(s, block[0]);
      var afterOpen := s.(cursor := s.cursor.(flags := f.(inQueryMap := true)));
      QueryMapInteriorSkipped(afterOpen, inner);
      RunOne(afterOpen, block[n]);
      CloseQueryMap(afterOpen, block[n]);
      assert afterOpen.(cursor := afterOpen.cursor.(flags := afterOpen.cursor.flags.(inQueryMap := false))) == s;
    }
  }

  /**
   * A whole OUTPUTFORMAT or QUERYMAP block that starts inside MAP can be taken out of
   * the file without changing any field that is read.
   */
  lemma SkippedBlockDropped(before: seq<string>, block: seq<string>, after: seq<string>, keyword: string)
    requires keyword == "OUTPUTFORMAT" || keyword == "QUERYMAP"
    requires Run(Begin(DefaultData), before).cursor.flags.inMap
    requires !Run(Begin(DefaultData), before).cursor.flags.inOutputFormat
    requires keyword == "QUERYMAP" ==> !Run(Begin(DefaultData), before).cursor.flags.inQueryMap
    requires SkippedBlock(block, keyword)
    ensures ReadLines(before + block + after) == ReadLines(before + after)
  {
    var s := Run(Begin(DefaultData), before);
    RunAppend(Begin(DefaultData), before, block);
    SkippedBlockHasNoEffect(s, block, keyword);
    RunAppend(Begin(DefaultData), before + block, after);
    RunAppend(Begin(DefaultData), before, after);
  }

  // ---------------------------------------------------------------------------
  // LEGEND, SCALEBAR and LAYER blocks are buffered and handed over
  // ---------------------------------------------------------------------------

  /** The three blocks whose lines the reader buffers for a child's constructor. */
  datatype BlockKind = LegendBlock | ScalebarBlock | LayerBlock

  function Keyword(k: BlockKind): string
  {
    match k
    case LegendBlock => "LEGEND"
    case ScalebarBlock => "SCALEBAR"
    case LayerBlock => "LAYER"
  }

  function Buffer(c: Cursor, k: BlockKind): seq<string>
  {
    match k
    case LegendBlock => c.legendBuf
    case ScalebarBlock => c.scalebarBuf
    case LayerBlock => c.layerBuf
  }

  /** The cursor with `lines` added to the buffer of block `k` and its flag set. */
  function Buffered(c: Cursor, k: BlockKind, lines: seq<string>): Cursor
  {
    match k
    case LegendBlock => c.(flags := c.flags.(inLegend := true), legendBuf := c.legendBuf + lines)
    case ScalebarBlock => c.(flags := c.flags.(inScalebar := true), scalebarBuf := c.scalebarBuf + lines)
    case LayerBlock => c.(flags := c.flags.(inLayer := true), layerBuf := c.layerBuf + lines)
  }

  /** What the END of block `k` does with the buffered `block`: it builds the child. */
  function Hand(d: MapData, k: BlockKind, block: seq<string>): MapData
  {
    match k
    case LegendBlock => d.(legend := Legend.ReadLegend(block))
    case ScalebarBlock => d.(scalebar := ScalebarFrom(block))
    case LayerBlock => d.(layers := d.layers + [LayerFrom(block)])
  }

  /**
   * Inside MAP and outside every block whose branch comes before the buffered ones, or
   * that buffers lines itself.
   */
  predicate Ready(f: Flags)
  {
    f.inMap && !f.inProjection && !f.inOutputFormat && !f.inQueryMap
    && !f.inLegend && !f.inScalebar && !f.inLayer
  }

  /**
   * A line that is buffered inside block `k`: no branch tried before the buffering one
   * matches it, and it does not end the block.
   */
  predicate BlockInterior(t: string, k: BlockKind)
  {
    !IsKeyword(t, "MAP") && !IsEnd(t, "MAP")
    && !IsKeyword(t, "OUTPUTFORMAT") && !IsKeyword(t, "QUERYMAP") && !IsKeyword(t, "PROJECTION")
    && (k != LegendBlock ==> !IsKeyword(t, "LEGEND"))
    && (k == LayerBlock ==> !IsKeyword(t, "SCALEBAR"))
    && !IsEnd(t, Keyword(k))
  }

  predicate AllBlockInterior(lines: seq<string>, k: BlockKind)
  {
    lines == [] || (AllBlockInterior(lines[..|lines| - 1], k) && BlockInterior(Trim(lines[|lines| - 1]), k))
  }

  /** A LEGEND, SCALEBAR or LAYER block: the keyword, buffered lines, an END naming it. */
  predicate BufferedBlock(block: seq<string>, k: BlockKind)
  {
    |block| >= 2
    && IsKeyword(Trim(block[0]), Keyword(k))
    && AllBlockInterior(block[1..|block| - 1], k)
    && IsEnd(Trim(block[|block| - 1]), Keyword(k)) && !IsEnd(Trim(block[|block| - 1]), "MAP")
  }

  /** The upper-case forms of the keywords the cascade compares with. */
  lemma KeywordsUpper()
    ensures Upper("MAP") == "MAP" && Upper("END") == "END"
    ensures Upper("OUTPUTFORMAT") == "OUTPUTFORMAT" && Upper("QUERYMAP") == "QUERYMAP"
    ensures Upper("PROJECTION") == "PROJECTION"
    ensures Upper("LEGEND") == "LEGEND" && Upper("SCALEBAR") == "SCALEBAR" && Upper("LAYER") == "LAYER"
    ensures Upper("END # MAP") == "END # MAP" && Upper("END # LEGEND") == "END # LEGEND"
    ensures Upper("END # SCALEBAR") == "END # SCALEBAR" && Upper("END # LAYER") == "END # LAYER"
  {
  }

  /** Block `k` is open and every line reaches its buffering branch unless it matches an earlier one. */
  predicate Feeds(f: Flags, k: BlockKind)
  {
    f.inMap && !f.inProjection && !f.inOutputFormat && !f.inQueryMap
    && (match k
        case LegendBlock => f.inLegend
        case ScalebarBlock => !f.inLegend && f.inScalebar
        case LayerBlock => !f.inLegend && !f.inScalebar && f.inLayer)
  }

  lemma BufferedTwice(c: Cursor, k: BlockKind, a: seq<string>, b: seq<string>)
    requires Feeds(c.flags, k) || Ready(c.flags)
    ensures Feeds(Buffered(c, k, a).flags, k)
    ensures Buffered(Buffered(c, k, a), k, b) == Buffered(c, k, a + b)
  {
    match k
    case LegendBlock => assert c.legendBuf + a + b == c.legendBuf + (a + b);
    case ScalebarBlock => assert c.scalebarBuf + a + b == c.scalebarBuf + (a + b);
    case LayerBlock => assert c.layerBuf + a + b == c.layerBuf + (a + b);
  }

  lemma StepBuffersBlock(s: Scan, line: string, k: BlockKind)
    requires Feeds(s.cursor.flags, k) && BlockInterior(Trim(line), k)
    ensures Step(s, line) == s.(cursor := Buffered(s.cursor, k, [Trim(line)]))
  {
  }

  lemma {:induction false} BlockInteriorBuffered(s: Scan, lines: seq<string>, k: BlockKind)
    requires Feeds(s.cursor.flags, k) && AllBlockInterior(lines, k)
    ensures Run(s, lines) == s.(cursor := Buffered(s.cursor, k, TrimAll(lines)))
  {
    if lines == [] {
      assert TrimAll(lines) == [];
      BufferedTwice(s.cursor, k, [], []);
      assert Buffered(s.cursor, k, []) == s.cursor by {
        match k
        case LegendBlock => assert s.cursor.legendBuf + [] == s.cursor.legendBuf;
        case ScalebarBlock => assert s.cursor.scalebarBuf + [] == s.cursor.scalebarBuf;
        case LayerBlock => assert s.cursor.layerBuf + [] == s.cursor.layerBuf;
      }
    } else {
      var n := |lines| - 1;
      BlockInteriorBuffered(s, lines[..n], k);
      var mid := s.(cursor := Buffered(s.cursor, k, TrimAll(lines[..n])));
      BufferedTwice(s.cursor, k, TrimAll(lines[..n]), [Trim(lines[n])]);
      StepBuffersBlock(mid, lines[n], k);
      TrimAllSnoc(lines);
    }
  }

  lemma StepOpensBlock(s: Scan, line: string, k: BlockKind)
    requires Ready(s.cursor.flags) && IsKeyword(Trim(line), Keyword(k))
    ensures Step(s, line) == s.(cursor := Buffered(s.cursor, k, [Trim(line)]))
  {
    KeywordsUpper();
  }

  /** The upper-case form of a line that ends block `k` and not the map. */
  lemma ClosingLine(t: string, k: BlockKind)
    requires IsEnd(t, Keyword(k)) && !IsEnd(t, "MAP")
    ensures Upper(t) == "END # " + Keyword(k)
  {
    KeywordsUpper();
    match k
    case LegendBlock => assert Upper("END # " + Keyword(k)) == "END # LEGEND";
    case ScalebarBlock => assert Upper("END # " + Keyword(k)) == "END # SCALEBAR";
    case LayerBlock => assert Upper("END # " + Keyword(k)) == "END # LAYER";
  }

  /** The cursor once block `k` has ended: its flag cleared and its buffer emptied. */
  function Closed(c: Cursor, k: BlockKind): Cursor
  {
    match k
    case LegendBlock => c.(flags := c.flags.(inLegend := false), legendBuf := [])
    case ScalebarBlock => c.(flags := c.flags.(inScalebar := false), scalebarBuf := [])
    case LayerBlock => c.(flags := c.flags.(inLayer := false), layerBuf := [])
  }

  lemma StepClosesBlock(s: Scan, line: string, k: BlockKind)
    requires Feeds(s.cursor.flags, k)
    requires IsEnd(Trim(line), Keyword(k)) && !IsEnd(Trim(line), "MAP")
    ensures Step(s, line) == Scan(Closed(s.cursor, k), Hand(s.data, k, Buffer(s.cursor, k) + [Trim(line)]))
  {
    var t := Trim(line);
    ClosingLine(t, k);
    KeywordsUpper();
    assert !IsKeyword(t, "MAP") && !IsKeyword(t, "PROJECTION") && !IsKeyword(t, "QUERYMAP");
    assert !IsKeyword(t, "OUTPUTFORMAT") by {
      assert Upper(t)[0] == 'E' != Upper("OUTPUTFORMAT")[0];
    }
    assert !IsKeyword(t, "LEGEND") && !IsKeyword(t, "SCALEBAR") && !IsKeyword(t, "LAYER");
  }

  lemma ClosedAfterBuffered(c: Cursor, k: BlockKind, lines: seq<string>)
    requires Ready(c.flags) && Buffer(c, k) == []
    ensures Closed(Buffered(c, k, lines), k) == c
    ensures Buffer(Buffered(c, k, lines), k) == lines
  {
  }

  lemma RunSplitLast(s: Scan, lines: seq<string>)
    requires |lines| >= 1
    ensures Run(s, lines) == Step(Run(s, lines[..|lines| - 1]), lines[|lines| - 1])
  {
  }

  /** The opening line and the lines after it, up to the END, are buffered. */
  lemma OpenBlockBuffered(s: Scan, head: seq<string>, k: BlockKind)
    requires Ready(s.cursor.flags)
    requires |head| >= 1 && IsKeyword(Trim(head[0]), Keyword(k)) && AllBlockInterior(head[1..], k)
    ensures Run(s, head) == s.(cursor := Buffered(s.cursor, k, TrimAll(head)))
  {
    var c1 := Buffered(s.cursor, k, [Trim(head[0])]);
    StepOpensBlock(s, head[0], k);
    RunSplitFirst(s, head);
    BufferedTwice(s.cursor, k, [Trim(head[0])], TrimAll(head[1..]));
    BlockInteriorBuffered(s.(cursor := c1), head[1..], k);
    TrimAllCons(head);
  }

  /** The END of a block whose lines are buffered builds the child from them. */
  lemma CloseBufferedBlock(s: Scan, lines: seq<string>, line: string, k: BlockKind)
    requires Ready(s.cursor.flags) && Buffer(s.cursor, k) == []
    requires IsEnd(Trim(line), Keyword(k)) && !IsEnd(Trim(line), "MAP")
    ensures Step(s.(cursor := Buffered(s.cursor, k, lines)), line)
         == Scan(s.cursor, Hand(s.data, k, lines + [Trim(line)]))
  {
    BufferedTwice(s.cursor, k, lines, []);
    StepClosesBlock(s.(cursor := Buffered(s.cursor, k, lines)), line, k);
    ClosedAfterBuffered(s.cursor, k, lines);
  }

  /**
   * Every line of a LEGEND, SCALEBAR or LAYER block, both delimiters included, is
   * buffered trimmed and handed at its END to the child: a new Legend, a new Scalebar,
   * or a new Layer appended to the list. The reader's cursor is back where it was.
   */
  lemma BlockHandedOver(s: Scan, block: seq<string>, k: BlockKind)
    requires Ready(s.cursor.flags) && Buffer(s.cursor, k) == []
    requires BufferedBlock(block, k)
    ensures Run(s, block) == Scan(s.cursor, Hand(s.data, k, TrimAll(block)))
  {
    var n := |block| - 1;
    var head := block[..n];
    assert head[1..] == block[1..n];
    assert head + [block[n]] == block;
    OpenBlockBuffered(s, head, k);
    RunAppend(s, head, [block[n]]);
    RunOne(Run(s, head), block[n]);
    CloseBufferedBlock(s, TrimAll(head), block[n], k);
    TrimAllSnoc(block);
  }

  /** A closed block has nothing buffered: every buffer is emptied when its flag is cleared. */
  predicate Consistent(c: Cursor)
  {
    (!c.flags.inLegend ==> c.legendBuf == [])
    && (!c.flags.inScalebar ==> c.scalebarBuf == [])
    && (!c.flags.inLayer ==> c.layerBuf == [])
  }

  /** The LEGEND, SCALEBAR and LAYER flags and buffers agree. */
  predicate SameBlocks(a: Cursor, b: Cursor)
  {
    a.flags.inLegend == b.flags.inLegend && a.flags.inScalebar == b.flags.inScalebar
    && a.flags.inLayer == b.flags.inLayer
    && a.legendBuf == b.legendBuf && a.scalebarBuf == b.scalebarBuf && a.layerBuf == b.layerBuf
  }

  lemma SkipStepKeepsBlocks(c: Cursor, t: string)
    requires SkipStep(c.flags, t).Some?
    ensures SameBlocks(c.(flags := SkipStep(c.flags, t).value), c)
  {
  }

  lemma ProjectionStepKeepsBlocks(s: Scan, t: string)
    requires ProjectionStep(s, t).Some?
    ensures SameBlocks(ProjectionStep(s, t).value.cursor, s.cursor)
  {
  }

  lemma WebStepKeepsBlocks(s: Scan, t: string)
    requires WebStep(s, t).Some?
    ensures SameBlocks(WebStep(s, t).value.cursor, s.cursor)
  {
    var f := s.cursor.flags;
    if IsKeyword(t, "WEB") || (f.inWeb && IsEnd(t, "WEB")) || (f.inWeb && IsKeyword(t, "METADATA"))
       || (f.inWeb && f.inMetadata && IsEnd(t, "METADATA")) {
    } else {
      var (k, v) := MetadataPair(t).value;
      assert WebStep(s, t).value == s.(data := s.data.(metadata := Metadata.Set(s.data.metadata, k, v)));
    }
  }

  lemma BlockStepKeepsConsistent(s: Scan, t: string)
    requires Consistent(s.cursor) && BlockStep(s, t).Some?
    ensures Consistent(BlockStep(s, t).value.cursor)
  {
  }

  /** No step leaves a closed block with lines in its buffer. */
  lemma StepKeepsConsistent(s: Scan, line: string)
    requires Consistent(s.cursor)
    ensures Consistent(Step(s, line).cursor)
  {
    var t := Trim(line);
    var f := s.cursor.flags;
    if IsKeyword(t, "MAP") || !f.inMap || IsEnd(t, "MAP") {
    } else if SkipStep(f, t).Some? {
      SkipStepKeepsBlocks(s.cursor, t);
    } else if ProjectionStep(s, t).Some? {
      ProjectionStepKeepsBlocks(s, t);
    } else if BlockStep(s, t).Some? {
      BlockStepKeepsConsistent(s, t);
    } else if WebStep(s, t).Some? {
      WebStepKeepsBlocks(s, t);
    } else {
      assert LineStep(s, t).cursor == s.cursor;
    }
  }

  lemma {:induction false} RunKeepsConsistent(s: Scan, lines: seq<string>)
    requires Consistent(s.cursor)
    ensures Consistent(Run(s, lines).cursor)
  {
    if lines != [] {
      var n := |lines| - 1;
      RunKeepsConsistent(s, lines[..n]);
      StepKeepsConsistent(Run(s, lines[..n]), lines[n]);
    }
  }

  /**
   * A LEGEND, SCALEBAR or LAYER block read inside MAP, outside every other block,
   * replaces the legend or the scalebar, or appends one layer, and changes nothing
   * else; what follows is read as if the block were not there.
   */
  lemma BlockRead(before: seq<string>, block: seq<string>, after: seq<string>, k: BlockKind)
    requires Ready(Run(Begin(DefaultData), before).cursor.flags)
    requires BufferedBlock(block, k)
    ensures ReadLines(before + block) == Hand(ReadLines(before), k, TrimAll(block))
    ensures Run(Begin(DefaultData), before + block + after)
         == Run(Run(Begin(DefaultData), before).(data := ReadLines(before + block)), after)
  {
    var s := Run(Begin(DefaultData), before);
    RunKeepsConsistent(Begin(DefaultData), before);
    RunAppend(Begin(DefaultData), before, block);
    BlockHandedOver(s, block, k);
    RunAppend(Begin(DefaultData), before + block, after);
  }

  lemma ProjectionOpens(s: Scan, line: string)
    requires s.cursor.flags.inMap && !s.cursor.flags.inOutputFormat && !s.cursor.flags.inQueryMap
    requires IsKeyword(Trim(line), "PROJECTION")
    ensures Step(s, line) == s.(cursor := s.cursor.(flags := s.cursor.flags.(inProjection := true)))
  {
    KeywordsUpper();
  }

  lemma ProjectionCloses(s: Scan, line: string)
    requires s.cursor.flags.inMap && !s.cursor.flags.inOutputFormat && !s.cursor.flags.inQueryMap
    requires s.cursor.flags.inProjection
    requires IsEnd(Trim(line), "PROJECTION") && !IsEnd(Trim(line), "MAP")
    ensures Step(s, line) == s.(cursor := s.cursor.(flags := s.cursor.flags.(inProjection := false)))
  {
    var t := Trim(line);
    KeywordsUpper();
    assert Upper(t) == Upper("END # PROJECTION") == "END # PROJECTION";
    assert !IsKeyword(t, "OUTPUTFORMAT") && !IsKeyword(t, "QUERYMAP") && !IsKeyword(t, "MAP");
    assert !IsKeyword(t, "PROJECTION") by {
      assert Upper(t)[0] == 'E' != Upper("PROJECTION")[0];
    }
  }

  /** A `"init=CODE"` line inside a PROJECTION block sets the map's projection to CODE. */
  lemma InitLineStep(s: Scan, t: string)
    requires s.cursor.flags.inMap && s.cursor.flags.inProjection
    requires !s.cursor.flags.inOutputFormat && !s.cursor.flags.inQueryMap
    requires InitCode(t).Some?
    ensures LineStep(s, t) == s.(data := s.data.(projection := InitCode(t).value))
  {
    assert UpperChar(t[0]) == '"' by {
      assert Upper(t[..6])[0] == UpperChar(t[0]);
      assert Upper("\"init=")[0] == '"';
    }
    FirstCharDiffers(t, "MAP");
    FirstCharDiffers(t, "END");
    FirstCharDiffers(t, "END # MAP");
    FirstCharDiffers(t, "OUTPUTFORMAT");
    FirstCharDiffers(t, "QUERYMAP");
    FirstCharDiffers(t, "PROJECTION");
    FirstCharDiffers(t, "END # PROJECTION");
  }

  lemma InitLineRead(s: Scan, code: string)
    requires s.cursor.flags.inMap && s.cursor.flags.inProjection
    requires !s.cursor.flags.inOutputFormat && !s.cursor.flags.inQueryMap
    requires AnyChars(code)
    ensures Step(s, "\"init=" + code + "\"") == s.(data := s.data.(projection := code))
  {
    var t := "\"init=" + code + "\"";
    assert Trim(t) == t by {
      assert t[0] == '"' && t[|t| - 1] == '"';
    }
    InitCodeOfBuilt("\"init=", code);
    InitLineStep(s, t);
  }

  /**
   * A PROJECTION block sets the map's projection even inside a LAYER: its branches come
   * before the LAYER ones, so its three lines are not buffered for the layer.
   */
  lemma ProjectionInsideLayerTakenByMap(s: Scan, open: string, init: string, close: string)
    requires s.cursor.flags.inMap && s.cursor.flags.inLayer
    requires !s.cursor.flags.inOutputFormat && !s.cursor.flags.inQueryMap && !s.cursor.flags.inProjection
    requires IsKeyword(Trim(open), "PROJECTION") && InitCode(Trim(init)).Some?
    requires IsEnd(Trim(close), "PROJECTION") && !IsEnd(Trim(close), "MAP")
    ensures Run(s, [open, init, close]) == s.(data := s.data.(projection := InitCode(Trim(init)).value))
  {
    var lines := [open, init, close];
    var code := InitCode(Trim(init)).value;
    var s1 := s.(cursor := s.cursor.(flags := s.cursor.flags.(inProjection := true)));
    var s2 := s1.(data := s.data.(projection := code));
    ProjectionOpens(s, open);
    InitLineStep(s1, Trim(init));
    ProjectionCloses(s2, close);
    assert s2.(cursor := s2.cursor.(flags := s2.cursor.flags.(inProjection := false))) == s.(data := s.data.(projection := code));
    RunSplitFirst(s, lines);
    assert lines[1..] == [init, close];
    RunSplitFirst(s1, [init, close]);
    assert [init, close][1..] == [close];
    RunOne(s2, close);
  }

  /**
   * The PROJECTION block save writes for a non-empty projection sets the projection read
   * back to the lower-cased code, when the code holds no line break: `save` lowers it
   * and the reader keeps what it finds.
   */
  lemma ProjectionReadBack(s: Scan, p: string)
    requires s.cursor.flags == MapOnly && !PhpEmpty(p) && '\n' !in p
    ensures Run(s, ProjectionLines(p)) == s.(data := s.data.(projection := Lower(p)))
  {
    var code := Lower(p);
    var open, init, close := "  PROJECTION", "    \"init=" + code + "\"", "  END # PROJECTION";
    assert ProjectionLines(p) == [""] + [open] + [init] + [close];
    var s1 := s.(cursor := s.cursor.(flags := s.cursor.flags.(inProjection := true)));
    var s2 := s1.(data := s1.data.(projection := code));
    BlankLineRead(s, "");
    ProjectionLineRead(s, open);
    RunAppend(s, [""], [open]);
    assert Run(s, [""] + [open]) == s1;
    ProjectionInitRead(s1, p);
    RunAppend(s, [""] + [open], [init]);
    assert Run(s, [""] + [open] + [init]) == s2;
    EndProjectionLineRead(s2, close);
    RunAppend(s, [""] + [open] + [init], [close]);
  }

  lemma ProjectionLineRead(s: Scan, open: string)
    requires s.cursor.flags == MapOnly && open == "  PROJECTION"
    ensures Run(s, [open]) == s.(cursor := s.cursor.(flags := s.cursor.flags.(inProjection := true)))
  {
    assert "  " + "PROJECTION" == open;
    TrimOfIndented("  ", "PROJECTION");
    KeywordsUpper();
    ProjectionOpens(s, open);
    RunOne(s, open);
  }

  /** The indented `"init=CODE"` line of the block, with CODE lower-cased. */
  lemma ProjectionInitRead(s: Scan, p: string)
    requires s.cursor.flags == MapOnly.(inProjection := true) && p != [] && '\n' !in p
    ensures Run(s, ["    \"init=" + Lower(p) + "\""]) == s.(data := s.data.(projection := Lower(p)))
  {
    var code := Lower(p);
    assert '\n' !in code by {
      forall i | 0 <= i < |code|
        ensures code[i] != '\n'
      {
        assert p[i] != '\n';
      }
    }
    var t := "\"init=" + code + "\"";
    var line := "    \"init=" + code + "\"";
    assert "    " + t == line;
    TrimOfIndented("    ", t);
    InitCodeOfBuilt("\"init=", code);
    InitLineStep(s, t);
    RunOne(s, line);
  }

  lemma EndProjectionLineRead(s: Scan, close: string)
    requires s.cursor.flags == MapOnly.(inProjection := true) && close == "  END # PROJECTION"
    ensures Run(s, [close]) == s.(cursor := s.cursor.(flags := MapOnly))
  {
    EndProjectionTrim(close);
    EndProjectionIsEnd("END # PROJECTION");
    ProjectionCloses(s, close);
    RunOne(s, close);
  }

  lemma EndProjectionTrim(close: string)
    requires close == "  END # PROJECTION"
    ensures Trim(close) == "END # PROJECTION"
  {
    assert "  " + "END # PROJECTION" == close;
    TrimOfIndented("  ", "END # PROJECTION");
  }

  lemma EndProjectionIsEnd(t: string)
    requires t == "END # PROJECTION"
    ensures IsEnd(t, "PROJECTION") && !IsEnd(t, "MAP")
  {
    assert "END # " + "PROJECTION" == t;
    assert |Upper(t)| != |Upper("END")| && |Upper(t)| != |Upper("END # MAP")|;
  }

  // ---------------------------------------------------------------------------
  // The scalar lines save writes, read back one at a time
  // ---------------------------------------------------------------------------

  /** The NAME line gives back the name. */
  lemma NameLineRead(d: MapData, name: string)
    requires AnyChars(name)
    ensures Trim(NameLine(name)) == "NAME \"" + name + "\""
    ensures ScalarStep(d, Trim(NameLine(name))) == d.(name := name)
  {
    var text := "NAME " + "\"" + name + "\"";
    assert NameLine(name) == "  " + text;
    TrimIndented(text);
    QuotedOfBuilt("NAME ", name);
  }

  /** The STATUS line of ON or OFF gives back the same status. */
  lemma StatusLineRead(d: MapData, code: int)
    requires code == STATUS_ON || code == STATUS_OFF
    ensures Trim(StatusLine(Code(code))) == "STATUS " + Encode(StatusTable, Code(code))
    ensures ScalarStep(d, Trim(StatusLine(Code(code)))) == d.(status := Code(code))
  {
    var token := Encode(StatusTable, Code(code));
    StatusTableShape();
    assert StatusTable[0].0 == STATUS_ON && StatusTable[1].0 == STATUS_OFF;
    EncodedIsWord(StatusTable, code);
    var text := "STATUS " + token;
    assert StatusLine(Code(code)) == "  " + text;
    TrimIndented(text);
    PrefixDiffersAt(text, "NAME ", 0);
    RestOfBuilt("STATUS ", token);
    StatusRoundTrip(code);
  }

  /** The decimal texts of four non-negative coordinates are digit strings without spaces. */
  lemma CoordinateTexts(xs: seq<int>)
    requires forall k :: 0 <= k < |xs| ==> xs[k] >= 0
    ensures forall k :: 0 <= k < |xs| ==> IntToString(xs[k]) == NatToString(xs[k])
    ensures forall k :: 0 <= k < |xs| ==> IsDigits(IntToString(xs[k])) && ' ' !in IntToString(xs[k])
  {
  }

  /** The decimal texts of the coordinates, in order. */
  function CoordinateStrings(xs: seq<int>): seq<string>
  {
    seq(|xs|, k requires 0 <= k < |xs| => IntToString(xs[k]))
  }

  /** A declared code is written as its token, an upper-case word. */
  lemma EncodedIsWord(t: Table, code: int)
    requires WordTokens(t) && TokenOf(t, code).Some?
    ensures Encode(t, Code(code)) == TokenOf(t, code).value && IsWord(Encode(t, Code(code)))
  {
    var tok := TokenOf(t, code).value;
    assert (code, tok) in t;
    var i :| 0 <= i < |t| && t[i] == (code, tok);
  }

  /** Four digit strings joined by spaces match `[0-9.]+` four times and split back. */
  lemma ExtentTextOfDigits(parts: seq<string>)
    requires |parts| == 4 && forall k :: 0 <= k < 4 ==> IsDigits(parts[k])
    ensures ExtentText("EXTENT " + Join(" ", parts)) == Some(parts)
  {
    var t := "EXTENT " + Join(" ", parts);
    assert t[..7] == "EXTENT " && t[7..] == Join(" ", parts);
    forall k | 0 <= k < 4
      ensures ' ' !in parts[k] && IsNumeral(parts[k])
    {
    }
    SplitJoin(parts, ' ');
  }

  /** The coordinates of four non-negative values match `[0-9.]+` and read back as the values. */
  lemma NonNegativeExtentText(xs: seq<int>)
    requires |xs| == 4 && forall k :: 0 <= k < 4 ==> xs[k] >= 0
    ensures ExtentText("EXTENT " + Join(" ", CoordinateStrings(xs))) == Some(CoordinateStrings(xs))
    ensures forall k :: 0 <= k < 4 ==> IsDigits(CoordinateStrings(xs)[k])
    ensures Coordinates(CoordinateStrings(xs)) == xs
  {
    var parts := CoordinateStrings(xs);
    CoordinateTexts(xs);
    ExtentTextOfDigits(parts);
    forall k | 0 <= k < 4
      ensures Coordinates(parts)[k] == xs[k]
    {
      NatToStringRoundTrip(xs[k]);
    }
  }

  /**
   * The EXTENT line of four non-negative coordinates gives back the same extent: the
   * line splits at its spaces into the four numerals save joined.
   */
  lemma ExtentLineRead(d: MapData, xs: seq<int>)
    requires |xs| == 4 && forall k :: 0 <= k < 4 ==> xs[k] >= 0
    ensures ScalarStep(d, Trim(ExtentLine(xs))) == d.(extent := xs)
  {
    ExtentLineText(xs);
    var t := Trim(ExtentLine(xs));
    assert t[0] == 'E';
    PrefixDiffersAt(t, "NAME ", 0);
    PrefixDiffersAt(t, "STATUS ", 0);
    NonNegativeExtentText(xs);
  }

  /** The text of an EXTENT line, and the line trims to it. */
  lemma ExtentLineText(xs: seq<int>)
    requires |xs| == 4
    ensures Trim(ExtentLine(xs)) == "EXTENT " + Join(" ", CoordinateStrings(xs))
  {
    var parts := CoordinateStrings(xs);
    var text := "EXTENT " + Join(" ", parts);
    assert ExtentString(xs) == Join(" ", parts);
    assert ExtentLine(xs) == "  " + text;
    assert |Join(" ", parts)| > 0 && text[|text| - 1] == parts[3][|parts[3]| - 1] by {
      assert parts[..3] + [parts[3]] == parts;
      assert Join(" ", parts) == Join(" ", parts[..3]) + " " + parts[3];
    }
    assert IsDigit(text[|text| - 1]) by {
      if xs[3] < 0 {
        assert parts[3] == "-" + NatToString(-xs[3]);
      }
    }
    TrimIndented(text);
  }

  /** With a minus sign in one of the numerals, the EXTENT pattern does not match. */
  lemma NegativeExtentText(xs: seq<int>, k: int)
    requires |xs| == 4 && 0 <= k < 4 && xs[k] < 0
    ensures ExtentText("EXTENT " + Join(" ", CoordinateStrings(xs))) == None
  {
    var parts := CoordinateStrings(xs);
    var t := "EXTENT " + Join(" ", parts);
    assert t[7..] == Join(" ", parts);
    forall i | 0 <= i < 4
      ensures ' ' !in parts[i]
    {
      if xs[i] < 0 {
        assert parts[i] == "-" + NatToString(-xs[i]);
      }
    }
    SplitJoin(parts, ' ');
    assert !IsNumeral(parts[k]);
  }

  /**
   * An extent with a negative coordinate is written when its values still add up to at
   * least 0, but `[0-9.]+` does not match the minus sign: reading the line changes nothing.
   */
  lemma NegativeExtentNotReread(d: MapData, xs: seq<int>)
    requires |xs| == 4 && exists k :: 0 <= k < 4 && xs[k] < 0
    ensures ScalarStep(d, Trim(ExtentLine(xs))) == d
  {
    var k :| 0 <= k < 4 && xs[k] < 0;
    ExtentLineText(xs);
    var t := Trim(ExtentLine(xs));
    assert t[0] == 'E';
    PrefixDiffersAt(t, "NAME ", 0);
    PrefixDiffersAt(t, "STATUS ", 0);
    PrefixDiffersAt(t, "FONTSET ", 0);
    PrefixDiffersAt(t, "SYMBOLSET ", 0);
    PrefixDiffersAt(t, "SIZE ", 0);
    PrefixDiffersAt(t, "UNITS ", 0);
    NegativeExtentText(xs, k);
  }

  /** The FONTSET branch: the three patterns before it fail and its own matches. */
  lemma FontsetBranch(d: MapData, t: string, file: string)
    requires !HasPrefixIgnoringCase(t, "NAME ") && !HasPrefixIgnoringCase(t, "STATUS ")
    requires !HasPrefixIgnoringCase(t, "EXTENT ") && Quoted(t, "FONTSET ") == Some(file)
    ensures ScalarStep(d, t) == d.(fontset := file)
  {
    assert Quoted(t, "NAME ").None? && Rest(t, "STATUS ").None? && ExtentText(t).None?;
  }

  /** The SYMBOLSET branch: the four patterns before it fail and its own matches. */
  lemma SymbolsetBranch(d: MapData, t: string, file: string)
    requires !HasPrefixIgnoringCase(t, "NAME ") && !HasPrefixIgnoringCase(t, "STATUS ")
    requires !HasPrefixIgnoringCase(t, "EXTENT ") && !HasPrefixIgnoringCase(t, "FONTSET ")
    requires Quoted(t, "SYMBOLSET ") == Some(file)
    ensures ScalarStep(d, t) == d.(symbolset := file)
  {
    assert Quoted(t, "NAME ").None? && Rest(t, "STATUS ").None? && ExtentText(t).None?;
    assert Quoted(t, "FONTSET ").None?;
  }

  /** A FONTSET or SYMBOLSET line trims to its text, and its quoted pattern gives back the file. */
  lemma FileLineText(keyword: string, file: string)
    requires AnyChars(file) && |keyword| > 0 && !IsTrimChar(keyword[0])
    ensures Trim(FileLine(keyword, file)) == keyword + " \"" + file + "\""
    ensures Quoted(keyword + " \"" + file + "\"", keyword + " ") == Some(file)
  {
    FileLineTrimmed(keyword, file);
    FileLineQuoted(keyword, file);
  }

  lemma FileLineTrimmed(keyword: string, file: string)
    requires |keyword| > 0 && !IsTrimChar(keyword[0])
    ensures Trim(FileLine(keyword, file)) == keyword + " \"" + file + "\""
  {
    var text := keyword + " \"" + file + "\"";
    assert FileLine(keyword, file) == "  " + text;
    assert text[0] == keyword[0] && text[|text| - 1] == '"';
    TrimIndented(text);
  }

  lemma FileLineQuoted(keyword: string, file: string)
    requires AnyChars(file)
    ensures Quoted(keyword + " \"" + file + "\"", keyword + " ") == Some(file)
  {
    assert keyword + " \"" + file + "\"" == keyword + " " + "\"" + file + "\"";
    QuotedOfBuilt(keyword + " ", file);
  }

  /** The text of the FONTSET line and the patterns it matches. */
  lemma FontsetLineText(file: string)
    requires AnyChars(file)
    ensures Trim(FileLine("FONTSET", file)) == "FONTSET" + " \"" + file + "\""
    ensures var t := Trim(FileLine("FONTSET", file));
            && !HasPrefixIgnoringCase(t, "NAME ") && !HasPrefixIgnoringCase(t, "STATUS ")
            && !HasPrefixIgnoringCase(t, "EXTENT ") && Quoted(t, "FONTSET ") == Some(file)
  {
    FileLineText("FONTSET", file);
    var t := "FONTSET" + " \"" + file + "\"";
    assert t[0] == 'F';
    assert "FONTSET" + " " == "FONTSET ";
    PrefixDiffersAt(t, "NAME ", 0);
    PrefixDiffersAt(t, "STATUS ", 0);
    PrefixDiffersAt(t, "EXTENT ", 0);
  }

  /** The text of the SYMBOLSET line and the patterns it matches. */
  lemma SymbolsetLineText(file: string)
    requires AnyChars(file)
    ensures Trim(FileLine("SYMBOLSET", file)) == "SYMBOLSET" + " \"" + file + "\""
    ensures var t := Trim(FileLine("SYMBOLSET", file));
            && !HasPrefixIgnoringCase(t, "NAME ") && !HasPrefixIgnoringCase(t, "STATUS ")
            && !HasPrefixIgnoringCase(t, "EXTENT ") && !HasPrefixIgnoringCase(t, "FONTSET ")
            && Quoted(t, "SYMBOLSET ") == Some(file)
  {
    FileLineText("SYMBOLSET", file);
    var t := "SYMBOLSET" + " \"" + file + "\"";
    assert t[0] == 'S' && t[1] == 'Y';
    assert "SYMBOLSET" + " " == "SYMBOLSET ";
    PrefixDiffersAt(t, "NAME ", 0);
    PrefixDiffersAt(t, "STATUS ", 1);
    PrefixDiffersAt(t, "EXTENT ", 0);
    PrefixDiffersAt(t, "FONTSET ", 0);
  }

  /** The FONTSET line gives back the file name. */
  lemma FontsetLineRead(d: MapData, file: string)
    requires AnyChars(file)
    ensures Trim(FileLine("FONTSET", file)) == "FONTSET" + " \"" + file + "\""
    ensures ScalarStep(d, Trim(FileLine("FONTSET", file))) == d.(fontset := file)
  {
    FontsetLineText(file);
    FontsetBranch(d, Trim(FileLine("FONTSET", file)), file);
  }

  /** The SYMBOLSET line gives back the file name. */
  lemma SymbolsetLineRead(d: MapData, file: string)
    requires AnyChars(file)
    ensures Trim(FileLine("SYMBOLSET", file)) == "SYMBOLSET" + " \"" + file + "\""
    ensures ScalarStep(d, Trim(FileLine("SYMBOLSET", file))) == d.(symbolset := file)
  {
    SymbolsetLineText(file);
    SymbolsetBranch(d, Trim(FileLine("SYMBOLSET", file)), file);
  }

  /** Two digit strings joined by a space match `([0-9]+) ([0-9]+)` and split back. */
  lemma SizeTextOfDigits(w: string, h: string)
    requires IsDigits(w) && IsDigits(h)
    ensures SizeText("SIZE " + w + " " + h) == Some((w, h))
  {
    var t := "SIZE " + w + " " + h;
    assert t[..5] == "SIZE " && t[5..] == Join(" ", [w, h]) by {
      assert [w, h][..1] == [w];
    }
    assert ' ' !in w && ' ' !in h;
    SplitJoin([w, h], ' ');
  }

  lemma SizeLineText(width: int, height: int)
    requires width > 0 && height > 0
    ensures Trim(SizeLine(width, height)) == "SIZE " + IntToString(width) + " " + IntToString(height)
  {
    var h := IntToString(height);
    var text := "SIZE " + IntToString(width) + " " + h;
    assert SizeLine(width, height) == "  " + text;
    assert text[|text| - 1] == h[|h| - 1];
    assert IsDigit(h[|h| - 1]);
    TrimIndented(text);
  }

  /**
   * The SIZE line of positive dimensions is read into the separate `size` pair, as the
   * two numerals; the width and height the writer printed stay as they were.
   */
  lemma SizeLineRead(d: MapData, width: int, height: int)
    requires width > 0 && height > 0
    ensures ScalarStep(d, Trim(SizeLine(width, height))) == d.(size := Some((IntToString(width), IntToString(height))))
  {
    var w := IntToString(width);
    var h := IntToString(height);
    var text := "SIZE " + w + " " + h;
    SizeLineText(width, height);
    PrefixDiffersAt(text, "NAME ", 0);
    PrefixDiffersAt(text, "STATUS ", 1);
    PrefixDiffersAt(text, "EXTENT ", 0);
    PrefixDiffersAt(text, "FONTSET ", 0);
    PrefixDiffersAt(text, "SYMBOLSET ", 1);
    SizeTextOfDigits(w, h);
  }

  /** The UNITS line of a declared code gives back the same code. */
  lemma UnitsLineRead(d: MapData, code: int)
    requires TokenOf(UnitsTable, code).Some?
    ensures Trim(UnitsLine(Code(code))) == "UNITS " + Encode(UnitsTable, Code(code))
    ensures ScalarStep(d, Trim(UnitsLine(Code(code)))) == d.(units := Code(code))
  {
    var token := Encode(UnitsTable, Code(code));
    UnitsTableShape();
    EncodedIsWord(UnitsTable, code);
    var text := "UNITS " + token;
    assert UnitsLine(Code(code)) == "  " + text;
    TrimIndented(text);
    PrefixDiffersAt(text, "NAME ", 0);
    PrefixDiffersAt(text, "STATUS ", 0);
    PrefixDiffersAt(text, "EXTENT ", 0);
    PrefixDiffersAt(text, "FONTSET ", 0);
    PrefixDiffersAt(text, "SYMBOLSET ", 0);
    PrefixDiffersAt(text, "SIZE ", 0);
    RestOfBuilt("UNITS ", token);
    UnitsRoundTrip(code);
  }

  // ---------------------------------------------------------------------------
  // Reading back the head that save writes
  // ---------------------------------------------------------------------------

  /** The flags inside MAP and no other block. */
  const MapOnly: Flags := NoFlags.(inMap := true)

  /**
   * A scalar line: it holds a space, so it opens no block, and it is not `END # MAP`.
   * Inside MAP and no other block, only the scalar branches look at it.
   */
  predicate ScalarShaped(t: string)
  {
    (exists i :: 0 <= i < |t| && t[i] == ' ') && !SameIgnoringCase(t, "END # MAP")
  }

  lemma ScalarLineStep(s: Scan, t: string)
    requires s.cursor.flags == MapOnly && ScalarShaped(t)
    ensures LineStep(s, t) == s.(data := ScalarStep(s.data, t))
  {
    var i :| 0 <= i < |t| && t[i] == ' ';
    SpacedLineIsNoKeyword(t, i, "MAP");
    SpacedLineIsNoKeyword(t, i, "END");
    SpacedLineIsNoKeyword(t, i, "OUTPUTFORMAT");
    SpacedLineIsNoKeyword(t, i, "QUERYMAP");
    SpacedLineIsNoKeyword(t, i, "PROJECTION");
    SpacedLineIsNoKeyword(t, i, "LEGEND");
    SpacedLineIsNoKeyword(t, i, "SCALEBAR");
    SpacedLineIsNoKeyword(t, i, "LAYER");
    SpacedLineIsNoKeyword(t, i, "WEB");
    assert SkipStep(s.cursor.flags, t) == None;
    assert ProjectionStep(s, t) == None;
    assert BlockStep(s, t) == None;
    assert WebStep(s, t) == None;
  }

  /** A written scalar line that is there or not: reading it applies its scalar branch. */
  lemma OptionalScalarRun(s: Scan, segment: seq<string>)
    requires s.cursor.flags == MapOnly && |segment| <= 1
    requires |segment| == 1 ==> ScalarShaped(Trim(segment[0]))
    ensures Run(s, segment) == s.(data := if segment == [] then s.data else ScalarStep(s.data, Trim(segment[0])))
  {
    if |segment| == 1 {
      RunOne(s, segment[0]);
      ScalarLineStep(s, Trim(segment[0]));
    }
  }

  /** A line with a space at `i` that differs from `END # MAP` at `j` is scalar-shaped. */
  lemma Shaped(t: string, i: int, j: int)
    requires 0 <= i < |t| && t[i] == ' '
    requires 0 <= j < |t| && j < 9 && UpperChar(t[j]) != UpperChar("END # MAP"[j])
    ensures ScalarShaped(t)
  {
    CharDiffersAt(t, "END # MAP", j);
  }

  /** Fields a head with these values gives back; see HeadReadBack. */
  predicate Rereadable(d: MapData)
  {
    (d.status == Code(STATUS_ON) || d.status == Code(STATUS_OFF))
    && d.units.Code? && TokenOf(UnitsTable, d.units.code).Some?
    && AnyChars(d.name) && '\n' !in d.fontset && '\n' !in d.symbolset
    && |d.extent| == 4 && (forall k :: 0 <= k < 4 ==> d.extent[k] >= 0)
    && d.width > 0 && d.height > 0
  }

  /** What reading the scalar lines of the head makes of the fields `e`. */
  function HeadRead(e: MapData, d: MapData): MapData
  {
    e.(status := d.status, name := d.name, extent := d.extent,
       fontset := if PhpEmpty(d.fontset) then e.fontset else d.fontset,
       symbolset := if PhpEmpty(d.symbolset) then e.symbolset else d.symbolset,
       size := Some((IntToString(d.width), IntToString(d.height))),
       units := d.units)
  }

  lemma SumOfNonNegative(xs: seq<int>)
    requires forall k :: 0 <= k < |xs| ==> xs[k] >= 0
    ensures Sum(xs) >= 0
  {
    if xs != [] {
      SumOfNonNegative(xs[..|xs| - 1]);
    }
  }

  lemma StatusAndNameRun(s: Scan, d: MapData)
    requires s.cursor.flags == MapOnly && Rereadable(d)
    ensures Run(s, [StatusLine(d.status), NameLine(d.name)])
         == s.(data := s.data.(status := d.status, name := d.name))
  {
    StatusLineRead(s.data, d.status.code);
    Shaped(Trim(StatusLine(d.status)), 6, 0);
    var s1 := s.(data := s.data.(status := d.status));
    NameLineRead(s1.data, d.name);
    Shaped(Trim(NameLine(d.name)), 4, 0);
    RunSplitFirst(s, [StatusLine(d.status), NameLine(d.name)]);
    assert [StatusLine(d.status), NameLine(d.name)][1..] == [NameLine(d.name)];
    OptionalScalarRun(s, [StatusLine(d.status)]);
    RunOne(s, StatusLine(d.status));
    OptionalScalarRun(s1, [NameLine(d.name)]);
  }

  /** The trimmed EXTENT line holds a space and is not `END # MAP`. */
  lemma ExtentLineShaped(xs: seq<int>)
    requires |xs| == 4
    ensures ScalarShaped(Trim(ExtentLine(xs)))
  {
    ExtentLineText(xs);
    var t := Trim(ExtentLine(xs));
    assert t[6] == ' ' && t[1] == 'X';
    Shaped(t, 6, 1);
  }

  lemma ExtentRun(s: Scan, d: MapData)
    requires s.cursor.flags == MapOnly && Rereadable(d)
    ensures Run(s, ExtentLines(d.extent)) == s.(data := s.data.(extent := d.extent))
  {
    SumOfNonNegative(d.extent);
    var line := ExtentLine(d.extent);
    assert ExtentLines(d.extent) == [line];
    ExtentLineShaped(d.extent);
    RunOne(s, line);
    ScalarLineStep(s, Trim(line));
    ExtentLineRead(s.data, d.extent);
  }

  lemma FontsetRun(s: Scan, file: string)
    requires s.cursor.flags == MapOnly && '\n' !in file
    ensures Run(s, FileLines("FONTSET", file))
         == s.(data := s.data.(fontset := if PhpEmpty(file) then s.data.fontset else file))
  {
    if !PhpEmpty(file) {
      var line := FileLine("FONTSET", file);
      FontsetLineRead(s.data, file);
      Shaped(Trim(line), 7, 0);
      RunOne(s, line);
      ScalarLineStep(s, Trim(line));
    }
  }

  lemma SymbolsetRun(s: Scan, file: string)
    requires s.cursor.flags == MapOnly && '\n' !in file
    ensures Run(s, FileLines("SYMBOLSET", file))
         == s.(data := s.data.(symbolset := if PhpEmpty(file) then s.data.symbolset else file))
  {
    if !PhpEmpty(file) {
      var line := FileLine("SYMBOLSET", file);
      SymbolsetLineRead(s.data, file);
      Shaped(Trim(line), 9, 0);
      RunOne(s, line);
      ScalarLineStep(s, Trim(line));
    }
  }

  lemma FileRuns(s: Scan, d: MapData)
    requires s.cursor.flags == MapOnly && Rereadable(d)
    ensures Run(s, FileLines("FONTSET", d.fontset) + FileLines("SYMBOLSET", d.symbolset))
         == s.(data := s.data.(fontset := if PhpEmpty(d.fontset) then s.data.fontset else d.fontset,
                               symbolset := if PhpEmpty(d.symbolset) then s.data.symbolset else d.symbolset))
  {
    var f := FileLines("FONTSET", d.fontset);
    var s1 := s.(data := s.data.(fontset := if PhpEmpty(d.fontset) then s.data.fontset else d.fontset));
    FontsetRun(s, d.fontset);
    SymbolsetRun(s1, d.symbolset);
    RunAppend(s, f, FileLines("SYMBOLSET", d.symbolset));
  }

  lemma SizeAndUnitsRun(s: Scan, d: MapData)
    requires s.cursor.flags == MapOnly && Rereadable(d)
    ensures Run(s, SizeLines(d.width, d.height) + [UnitsLine(d.units)])
         == s.(data := s.data.(size := Some((IntToString(d.width), IntToString(d.height))), units := d.units))
  {
    SizeLineRead(s.data, d.width, d.height);
    SizeLineText(d.width, d.height);
    Shaped(Trim(SizeLine(d.width, d.height)), 4, 0);
    var s1 := s.(data := s.data.(size := Some((IntToString(d.width), IntToString(d.height)))));
    OptionalScalarRun(s, SizeLines(d.width, d.height));
    UnitsLineRead(s1.data, d.units.code);
    Shaped(Trim(UnitsLine(d.units)), 5, 0);
    OptionalScalarRun(s1, [UnitsLine(d.units)]);
    RunAppend(s, SizeLines(d.width, d.height), [UnitsLine(d.units)]);
  }

  lemma MapLineOpens(s: Scan)
    requires s.cursor == Fresh
    ensures Step(s, "MAP") == s.(cursor := Fresh.(flags := MapOnly))
  {
    assert "" + "MAP" == "MAP";
    TrimOfIndented("", "MAP");
  }

  lemma EndMapCloses(s: Scan)
    requires s.cursor.flags == MapOnly
    ensures Step(s, "END # MAP").data == s.data
  {
    EndMapText();
    EndMapStep(s, "END # MAP");
  }

  lemma EndMapText()
    ensures Trim("END # MAP") == "END # MAP"
    ensures IsEnd("END # MAP", "MAP") && !IsKeyword("END # MAP", "MAP")
  {
    EndMapTrimmed();
    var t := "END # MAP";
    assert "END # " + "MAP" == t;
    assert |Upper(t)| != |Upper("MAP")|;
  }

  lemma EndMapTrimmed()
    ensures Trim("END # MAP") == "END # MAP"
  {
    var t := "END # MAP";
    assert "" + t == t;
    TrimOfIndented("", t);
  }

  /**
   * Reading back the head save writes, closed by `END # MAP`, restores the status, name,
   * units, a non-negative extent and the non-empty FONTSET and SYMBOLSET file names. The
   * SIZE line lands in `size`, as text, and the width and height keep their defaults.
   */
  lemma HeadReadBack(d: MapData)
    requires Rereadable(d)
    ensures ReadLines(HeadLines(d) + ["END # MAP"]) == HeadRead(DefaultData, d)
  {
    var s0 := Begin(DefaultData);
    var s4 := Scan(Fresh.(flags := MapOnly), HeadRead(DefaultData, d));
    HeadRun(d);
    EndMapCloses(s4);
    RunOne(s4, "END # MAP");
    RunAppend(s0, HeadLines(d), ["END # MAP"]);
  }

  /** The head alone leaves the reader inside MAP with the fields of HeadRead. */
  lemma HeadRun(d: MapData)
    requires Rereadable(d)
    ensures Run(Begin(DefaultData), HeadLines(d)) == Scan(Fresh.(flags := MapOnly), HeadRead(DefaultData, d))
  {
    var p2 := ["MAP", StatusLine(d.status), NameLine(d.name)] + ExtentLines(d.extent);
    var files := FileLines("FONTSET", d.fontset) + FileLines("SYMBOLSET", d.symbolset);
    var tail := SizeLines(d.width, d.height) + [UnitsLine(d.units)];
    var p3 := p2 + files;
    assert HeadLines(d) == p3 + tail;

    var s0 := Begin(DefaultData);
    var c := Fresh.(flags := MapOnly);
    var d2 := DefaultData.(status := d.status, name := d.name, extent := d.extent);
    var d3 := d2.(fontset := if PhpEmpty(d.fontset) then d2.fontset else d.fontset,
                  symbolset := if PhpEmpty(d.symbolset) then d2.symbolset else d.symbolset);
    var d4 := d3.(size := Some((IntToString(d.width), IntToString(d.height))), units := d.units);
    assert d4 == HeadRead(DefaultData, d);

    HeadStartRun(d);
    FileRuns(Scan(c, d2), d);
    RunAppend(s0, p2, files);
    assert Run(s0, p3) == Scan(c, d3);
    SizeAndUnitsRun(Scan(c, d3), d);
    RunAppend(s0, p3, tail);
  }

  /** The MAP, STATUS, NAME and EXTENT lines open the map and set those three fields. */
  lemma HeadStartRun(d: MapData)
    requires Rereadable(d)
    ensures Run(Begin(DefaultData), ["MAP", StatusLine(d.status), NameLine(d.name)] + ExtentLines(d.extent))
         == Scan(Fresh.(flags := MapOnly), DefaultData.(status := d.status, name := d.name, extent := d.extent))
  {
    var names := [StatusLine(d.status), NameLine(d.name)];
    var e := ExtentLines(d.extent);
    var p1 := ["MAP"] + names;
    assert ["MAP", StatusLine(d.status), NameLine(d.name)] + e == p1 + e;
    var s0 := Begin(DefaultData);
    var c := Fresh.(flags := MapOnly);
    var d1 := DefaultData.(status := d.status, name := d.name);
    MapLineOpens(s0);
    RunOne(s0, "MAP");
    StatusAndNameRun(Scan(c, DefaultData), d);
    RunAppend(s0, ["MAP"], names);
    assert Run(s0, p1) == Scan(c, d1);
    ExtentRun(Scan(c, d1), d);
    RunAppend(s0, p1, e);
  }

  // ---------------------------------------------------------------------------
  // Reading back the WEB block save writes
  // ---------------------------------------------------------------------------

  /** A metadata key or value that reads back as written. */
  predicate RereadableEntry(k: string, v: string)
  {
    AnyChars(k) && AnyChars(v) && '"' !in v
  }

  lemma EntryLineText(k: string, v: string)
    ensures Trim(EntryLine(k, v)) == "\"" + k + "\" \"" + v + "\""
  {
    var text := "\"" + k + "\" \"" + v + "\"";
    assert EntryLine(k, v) == "      " + text;
    TrimOfIndented("      ", text);
  }

  /**
   * An entry line gives back its key and value: the pattern splits it after the key,
   * and no later split exists when the value holds no quote.
   */
  lemma EntryPair(k: string, v: string)
    requires RereadableEntry(k, v)
    ensures MetadataPair("\"" + k + "\" \"" + v + "\"") == Some((k, v))
  {
    var t := "\"" + k + "\" \"" + v + "\"";
    var i := |k| + 1;
    assert t[1..i] == k && t[i + 3..|t| - 1] == v;
    assert SplitsAt(t, i);
    forall j | i < j
      ensures !SplitsAt(t, j)
    {
      if i + 2 < j && j + 5 <= |t| {
        assert t[j] == v[j - i - 3];
      } else if j == i + 2 && j + 5 <= |t| {
        assert t[j + 2] == v[1];
      }
    }
  }

  /** The flags inside MAP, WEB and METADATA. */
  const InMetadata: Flags := MapOnly.(inWeb := true, inMetadata := true)

  /** Inside METADATA, a line that starts with a quote and matches the pattern sets an entry. */
  lemma QuotedLineStep(s: Scan, t: string)
    requires s.cursor.flags == InMetadata && |t| > 0 && t[0] == '"' && MetadataPair(t).Some?
    ensures LineStep(s, t) == s.(data := s.data.(metadata :=
      Metadata.Set(s.data.metadata, MetadataPair(t).value.0, MetadataPair(t).value.1)))
  {
    FirstCharDiffers(t, "MAP");
    FirstCharDiffers(t, "END");
    FirstCharDiffers(t, "END # MAP");
    FirstCharDiffers(t, "OUTPUTFORMAT");
    FirstCharDiffers(t, "QUERYMAP");
    FirstCharDiffers(t, "PROJECTION");
    FirstCharDiffers(t, "LEGEND");
    FirstCharDiffers(t, "SCALEBAR");
    FirstCharDiffers(t, "LAYER");
    FirstCharDiffers(t, "WEB");
    FirstCharDiffers(t, "END # WEB");
    FirstCharDiffers(t, "METADATA");
    FirstCharDiffers(t, "END # METADATA");
    assert SkipStep(s.cursor.flags, t) == None;
    assert ProjectionStep(s, t) == None;
    assert BlockStep(s, t) == None;
  }

  lemma EntryLineStep(s: Scan, k: string, v: string)
    requires s.cursor.flags == InMetadata && RereadableEntry(k, v)
    ensures Step(s, EntryLine(k, v)) == s.(data := s.data.(metadata := Metadata.Set(s.data.metadata, k, v)))
  {
    EntryLineText(k, v);
    EntryPair(k, v);
    QuotedLineStep(s, Trim(EntryLine(k, v)));
  }

  /** The first `n` entries of `m`, in order. */
  function Prefix(m: Metadata.Dict, n: nat): Metadata.Dict
    requires n <= |m.keys|
  {
    Metadata.Dict(m.keys[..n], map k | k in m.keys[..n] && k in m.values :: m.values[k])
  }

  lemma PrefixGrows(m: Metadata.Dict, n: nat)
    requires Metadata.Valid(m) && n < |m.keys|
    ensures Metadata.Set(Prefix(m, n), m.keys[n], m.values[m.keys[n]]) == Prefix(m, n + 1)
  {
    assert m.keys[n] !in m.keys[..n];
    assert m.keys[..n + 1] == m.keys[..n] + [m.keys[n]];
  }

  lemma PrefixWhole(m: Metadata.Dict)
    requires Metadata.Valid(m)
    ensures Prefix(m, |m.keys|) == m
  {
    assert m.keys[..|m.keys|] == m.keys;
  }

  /** Every entry of `m` reads back. */
  predicate RereadableEntries(m: Metadata.Dict)
    requires Metadata.Valid(m)
  {
    forall i :: 0 <= i < |m.keys| ==> RereadableEntry(m.keys[i], m.values[m.keys[i]])
  }

  /** The entry lines, read in order into an empty dictionary, rebuild the first `n` entries. */
  lemma {:induction false} EntriesRead(s: Scan, m: Metadata.Dict, n: nat)
    requires s.cursor.flags == InMetadata && s.data.metadata == Metadata.Empty
    requires Metadata.Valid(m) && RereadableEntries(m) && n <= |m.keys|
    ensures Run(s, EntryLines(m)[..n]) == s.(data := s.data.(metadata := Prefix(m, n)))
  {
    if n == 0 {
      assert Prefix(m, 0) == Metadata.Empty;
      assert s.data.(metadata := Metadata.Empty) == s.data;
    } else {
      var lines := EntryLines(m)[..n];
      assert lines[..n - 1] == EntryLines(m)[..n - 1];
      EntriesRead(s, m, n - 1);
      var k := m.keys[n - 1];
      EntryLineStep(s.(data := s.data.(metadata := Prefix(m, n - 1))), k, m.values[k]);
      PrefixGrows(m, n - 1);
    }
  }

  /** The flags inside MAP and WEB. */
  const InWeb: Flags := MapOnly.(inWeb := true)

  /** A line shorter than every keyword and pattern has no effect inside MAP alone. */
  lemma ShortLineStep(s: Scan, t: string)
    requires s.cursor.flags == MapOnly && |t| < 3
    ensures LineStep(s, t) == s
  {
    assert ScalarStep(s.data, t) == s.data;
  }

  lemma BlankLineStep(s: Scan)
    requires s.cursor.flags == MapOnly
    ensures Step(s, "") == s
  {
    var t := Trim("");
    assert |t| == 0;
    ShortLineStep(s, t);
  }

  lemma WebOpens(s: Scan, t: string)
    requires s.cursor.flags == MapOnly && t == "WEB"
    ensures LineStep(s, t) == s.(cursor := s.cursor.(flags := InWeb))
  {
    CharDiffersAt(t, "END", 0);
  }

  lemma MetadataOpens(s: Scan, t: string)
    requires s.cursor.flags == InWeb && t == "METADATA"
    ensures LineStep(s, t) == s.(cursor := s.cursor.(flags := InMetadata))
  {
    CharDiffersAt(t, "QUERYMAP", 0);
    CharDiffersAt(t, "SCALEBAR", 0);
  }

  lemma MetadataCloses(s: Scan, t: string)
    requires s.cursor.flags == InMetadata && t == "END # METADATA"
    ensures LineStep(s, t) == s.(cursor := s.cursor.(flags := InWeb))
  {
    assert "END # " + "METADATA" == t;
  }

  lemma WebCloses(s: Scan, t: string)
    requires s.cursor.flags == InWeb && t == "END # WEB"
    ensures LineStep(s, t) == s.(cursor := s.cursor.(flags := MapOnly))
  {
    CharDiffersAt(t, "END # MAP", 6);
    assert "END # " + "WEB" == t;
  }

  /** The WEB block split into its blank line, its opening line, its body and its closing line. */
  lemma WebParts(m: Metadata.Dict) returns (blank: string, open: string, body: seq<string>, close: string)
    requires Metadata.Valid(m)
    ensures WebLines(m) == [blank, open] + body + [close]
    ensures Trim(blank) == "" && Trim(open) == "WEB" && Trim(close) == "END # WEB"
    ensures m.keys == [] ==> body == []
    ensures m.keys != [] ==>
              && |body| >= 2 && body == [body[0]] + EntryLines(m) + [body[|body| - 1]]
              && Trim(body[0]) == "METADATA" && Trim(body[|body| - 1]) == "END # METADATA"
  {
    blank, open, close := "", "  WEB", "  END # WEB";
    body := if m.keys != [] then ["    METADATA"] + EntryLines(m) + ["    END # METADATA"] else [];
    WebTrims();
  }

  /** The lines of the WEB block trim to their keywords. */
  lemma WebTrims()
    ensures Trim("") == "" && Trim("  WEB") == "WEB" && Trim("  END # WEB") == "END # WEB"
    ensures Trim("    METADATA") == "METADATA" && Trim("    END # METADATA") == "END # METADATA"
  {
    WebTrim();
    EndWebTrim();
    MetadataTrim();
    EndMetadataTrim();
  }

  lemma WebTrim()
    ensures Trim("  WEB") == "WEB"
  {
    assert "  " + "WEB" == "  WEB";
    TrimOfIndented("  ", "WEB");
  }

  lemma EndWebTrim()
    ensures Trim("  END # WEB") == "END # WEB"
  {
    assert "  " + "END # WEB" == "  END # WEB";
    TrimOfIndented("  ", "END # WEB");
  }

  lemma MetadataTrim()
    ensures Trim("    METADATA") == "METADATA"
  {
    assert "    " + "METADATA" == "    METADATA";
    TrimOfIndented("    ", "METADATA");
  }

  lemma EndMetadataTrim()
    ensures Trim("    END # METADATA") == "END # METADATA"
  {
    assert "    " + "END # METADATA" == "    END # METADATA";
    TrimOfIndented("    ", "END # METADATA");
  }

  lemma WebLineRead(s: Scan, line: string)
    requires s.cursor.flags == MapOnly && Trim(line) == "WEB"
    ensures Run(s, [line]) == s.(cursor := s.cursor.(flags := InWeb))
  {
    WebOpens(s, Trim(line));
    RunOne(s, line);
  }

  lemma MetadataLineRead(s: Scan, line: string)
    requires s.cursor.flags == InWeb && Trim(line) == "METADATA"
    ensures Run(s, [line]) == s.(cursor := s.cursor.(flags := InMetadata))
  {
    MetadataOpens(s, Trim(line));
    RunOne(s, line);
  }

  lemma EndMetadataLineRead(s: Scan, line: string)
    requires s.cursor.flags == InMetadata && Trim(line) == "END # METADATA"
    ensures Run(s, [line]) == s.(cursor := s.cursor.(flags := InWeb))
  {
    MetadataCloses(s, Trim(line));
    RunOne(s, line);
  }

  lemma EndWebLineRead(s: Scan, line: string)
    requires s.cursor.flags == InWeb && Trim(line) == "END # WEB"
    ensures Run(s, [line]) == s.(cursor := s.cursor.(flags := MapOnly))
  {
    WebCloses(s, Trim(line));
    RunOne(s, line);
  }

  lemma BlankLineRead(s: Scan, line: string)
    requires s.cursor.flags == MapOnly && Trim(line) == ""
    ensures Run(s, [line]) == s
  {
    ShortLineStep(s, Trim(line));
    RunOne(s, line);
  }

  /** The METADATA block save writes rebuilds the dictionary, keys in the same order. */
  lemma MetadataBlockRead(s: Scan, m: Metadata.Dict, open: string, close: string)
    requires s.cursor.flags == InWeb && s.data.metadata == Metadata.Empty
    requires Metadata.Valid(m) && RereadableEntries(m)
    requires Trim(open) == "METADATA" && Trim(close) == "END # METADATA"
    ensures Run(s, [open] + EntryLines(m) + [close]) == s.(data := s.data.(metadata := m))
  {
    var entries := EntryLines(m);
    var sm := s.(cursor := s.cursor.(flags := InMetadata));
    MetadataLineRead(s, open);
    assert entries[..|m.keys|] == entries;
    EntriesRead(sm, m, |m.keys|);
    PrefixWhole(m);
    var se := sm.(data := sm.data.(metadata := m));
    EndMetadataLineRead(se, close);
    RunAppend(s, [open], entries);
    RunAppend(s, [open] + entries, [close]);
    assert se.(cursor := se.cursor.(flags := InWeb)) == s.(data := s.data.(metadata := m));
  }

  /**
   * The WEB block save writes, read inside MAP into a map without metadata, rebuilds the
   * metadata dictionary with its keys in the same order, when no key or value is empty
   * or holds a line break and no value holds a quote.
   */
  lemma WebReadBack(s: Scan, m: Metadata.Dict)
    requires s.cursor.flags == MapOnly && s.data.metadata == Metadata.Empty
    requires Metadata.Valid(m) && RereadableEntries(m)
    ensures Run(s, WebLines(m)) == s.(data := s.data.(metadata := m))
  {
    var blank, open, body, close := WebParts(m);
    var sw := s.(cursor := s.cursor.(flags := InWeb));
    var sd := sw.(data := sw.data.(metadata := m));
    var l1 := [blank] + [open];
    var l2 := l1 + body;
    assert WebLines(m) == l2 + [close];
    WebHeadRead(s, blank, open);
    WebBodyRead(sw, m, body);
    RunAppend(s, l1, body);
    EndWebLineRead(sd, close);
    RunAppend(s, l2, [close]);
  }

  /** The blank line and the WEB line open the block. */
  lemma WebHeadRead(s: Scan, blank: string, open: string)
    requires s.cursor.flags == MapOnly && Trim(blank) == "" && Trim(open) == "WEB"
    ensures Run(s, [blank] + [open]) == s.(cursor := s.cursor.(flags := InWeb))
  {
    BlankLineRead(s, blank);
    WebLineRead(s, open);
    RunAppend(s, [blank], [open]);
  }

  /** The METADATA block, or nothing for an empty dictionary, rebuilds the dictionary. */
  lemma WebBodyRead(s: Scan, m: Metadata.Dict, body: seq<string>)
    requires s.cursor.flags == InWeb && s.data.metadata == Metadata.Empty
    requires Metadata.Valid(m) && RereadableEntries(m)
    requires m.keys == [] ==> body == []
    requires m.keys != [] ==>
               && |body| >= 2 && body == [body[0]] + EntryLines(m) + [body[|body| - 1]]
               && Trim(body[0]) == "METADATA" && Trim(body[|body| - 1]) == "END # METADATA"
    ensures Run(s, body) == s.(data := s.data.(metadata := m))
  {
    if m.keys != [] {
      MetadataBlockRead(s, m, body[0], body[|body| - 1]);
    } else {
      assert m.values == map[];
      assert m == Metadata.Empty;
    }
  }
}
