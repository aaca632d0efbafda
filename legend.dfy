/**
 * The LEGEND block of a map: a status and one Label.
 *
 * Reading walks the block's lines with two flags, `legend` (inside LEGEND … END) and
 * `label` (inside LABEL … END), buffering the LABEL block's lines, both delimiters
 * included, and handing them to a new Label. Writing prints the block at indent 1
 * with the label's own text at indent 2.
 */
module Legend {
  import opened Wrappers
  import opened Text
  import opened Enums
  import opened Children

  /** The fields of a Legend object. */
  datatype LegendValue = LegendValue(status: EnumValue, legendLabel: Label)

  /** A Legend built without lines: status OFF and a default Label. */
  const DefaultLegend: LegendValue := LegendValue(Code(STATUS_OFF), DefaultLabel)

  /** The reader's state: its two flags, the LABEL buffer, and the fields read so far. */
  datatype Scan = Scan(inLegend: bool, inLabel: bool, labelBuf: seq<string>, value: LegendValue)

  /** One turn of the reader's loop, on one line: the first matching branch wins. */
  function Step(s: Scan, raw: string): Scan
  {
    var sz := Trim(raw);
    if IsKeyword(sz, "LEGEND") then s.(inLegend := true)
    else if s.inLegend && IsEnd(sz, "LEGEND") then s.(inLegend := false)
    else if s.inLegend && IsKeyword(sz, "LABEL") then s.(inLabel := true, labelBuf := s.labelBuf + [sz])
    else if s.inLegend && s.inLabel && IsEnd(sz, "LABEL") then
      s.(inLabel := false, labelBuf := [], value := s.value.(legendLabel := LabelFrom(s.labelBuf + [sz])))
    else if s.inLegend && s.inLabel then s.(labelBuf := s.labelBuf + [sz])
    else if s.inLegend && Rest(sz, "STATUS ").Some? then
      s.(value := s.value.(status := Convert(StatusTable, Rest(sz, "STATUS ").value)))
    else s
  }

  /** The reader's loop over `lines`, from state `s`. */
  function Run(s: Scan, lines: seq<string>): Scan
  {
    if lines == [] then s else Step(Run(s, lines[..|lines| - 1]), lines[|lines| - 1])
  }

  const Start: Scan := Scan(false, false, [], DefaultLegend)

  /** `new Legend($lines)`: the fields of a Legend built from the lines of its block. */
  function ReadLegend(lines: seq<string>): LegendValue
  {
    Run(Start, lines).value
  }

  /** `$legend->write()`, one string per line, with the label's text supplied by `writeLabel`. */
  function WriteLegend(v: LegendValue, writeLabel: (Label, nat) -> seq<string>): (r: seq<string>)
    ensures |r| == |writeLabel(v.legendLabel, 2)| + 3
    ensures r[0] == "  LEGEND"
    ensures r[1] == "    STATUS " + Encode(StatusTable, v.status)
    ensures r[2..|r| - 1] == writeLabel(v.legendLabel, 2)
    ensures r[|r| - 1] == "  END # LEGEND"
  {
    ["  LEGEND", "    STATUS " + Encode(StatusTable, v.status)] + writeLabel(v.legendLabel, 2) + ["  END # LEGEND"]
  }

  class Legend {
    var status: EnumValue
    var legendLabel: Label

    function Value(): LegendValue
      reads this
    {
      LegendValue(status, legendLabel)
    }

    /**
     * `new Legend()` or `new Legend($lines)`. The default Label is put in place before
     * reading rather than after it when no LABEL block was read: the result is the same.
     */
    constructor (lines: Option<seq<string>>)
      ensures lines.None? ==> Value() == DefaultLegend
      ensures lines.Some? ==> Value() == ReadLegend(lines.value)
    {
      status := Code(STATUS_OFF);
      legendLabel := DefaultLabel;
      new;
      if lines.Some? {
        Read(lines.value);
      }
    }

    /** `read($array)`: the flag-driven scan of the block's lines, updating the fields. */
    method Read(lines: seq<string>)
      modifies this
      ensures Value() == Run(Scan(false, false, [], old(Value())), lines).value
    {
      var inLegend, inLabel, buf := false, false, [];
      for i := 0 to |lines|
        invariant Scan(inLegend, inLabel, buf, Value()) == Run(Scan(false, false, [], old(Value())), lines[..i])
      {
        assert lines[..i + 1][..i] == lines[..i];
        var sz := Trim(lines[i]);
        if IsKeyword(sz, "LEGEND") {
          inLegend := true;
        } else if inLegend && IsEnd(sz, "LEGEND") {
          inLegend := false;
        } else if inLegend && IsKeyword(sz, "LABEL") {
          inLabel := true;
          buf := buf + [sz];
        } else if inLegend && inLabel && IsEnd(sz, "LABEL") {
          buf := buf + [sz];
          legendLabel := LabelFrom(buf);
          inLabel := false;
          buf := [];
        } else if inLegend && inLabel {
          buf := buf + [sz];
        } else if inLegend {
          var arg := Rest(sz, "STATUS ");
          if arg.Some? {
            status := Convert(StatusTable, arg.value);
          }
        }
      }
      assert lines[..|lines|] == lines;
    }

    /** `write()`: the block's text, built line by line. */
    method Write(writeLabel: (Label, nat) -> seq<string>) returns (r: seq<string>)
      ensures r == WriteLegend(Value(), writeLabel)
    {
      r := ["  LEGEND"];
      r := r + ["    STATUS " + Encode(StatusTable, status)];
      r := r + writeLabel(legendLabel, 2);
      r := r + ["  END # LEGEND"];
    }
  }

  // ---------------------------------------------------------------------------
  // Properties of the reader and the writer
  // ---------------------------------------------------------------------------

  /** Reading two pieces one after the other is reading their concatenation. */
  lemma {:induction false} RunAppend(s: Scan, a: seq<string>, b: seq<string>)
    ensures Run(s, a + b) == Run(Run(s, a), b)
  {
    if b != [] {
      var n := |b| - 1;
      assert (a + b)[..|a + b| - 1] == a + b[..n];
      RunAppend(s, a, b[..n]);
    } else {
      assert a + b == a;
    }
  }

  /** Inside LEGEND and outside LABEL, a `STATUS X` line sets the status to convertStatus(X). */
  lemma StatusLineSetsStatus(s: Scan, line: string)
    requires s.inLegend && !s.inLabel
    requires Rest(Trim(line), "STATUS ").Some?
    ensures Step(s, line) == s.(value := s.value.(status := Convert(StatusTable, Rest(Trim(line), "STATUS ").value)))
  {
    var sz := Trim(line);
    assert Upper(sz)[0] == 'S' by {
      assert Upper(sz[..7])[0] == Upper("STATUS ")[0];
    }
    assert Upper("END # LEGEND")[0] == 'E' && Upper("END # LABEL")[0] == 'E';
  }

  /** Outside the LEGEND block only a LEGEND line has any effect. */
  lemma {:induction false} OutsideLinesIgnored(s: Scan, lines: seq<string>)
    requires !s.inLegend
    requires forall i :: 0 <= i < |lines| ==> !IsKeyword(Trim(lines[i]), "LEGEND")
    ensures Run(s, lines) == s
  {
    if lines != [] {
      OutsideLinesIgnored(s, lines[..|lines| - 1]);
    }
  }

  /**
   * Lines before the LEGEND line and lines after the block's closing END do not change
   * what is read.
   */
  lemma SurroundingLinesIgnored(before: seq<string>, block: seq<string>, after: seq<string>)
    requires forall i :: 0 <= i < |before| ==> !IsKeyword(Trim(before[i]), "LEGEND")
    requires forall i :: 0 <= i < |after| ==> !IsKeyword(Trim(after[i]), "LEGEND")
    requires !Run(Start, block).inLegend
    ensures ReadLegend(before + block + after) == ReadLegend(block)
  {
    OutsideLinesIgnored(Start, before);
    RunAppend(Start, before, block);
    RunAppend(Start, before + block, after);
    OutsideLinesIgnored(Run(Start, block), after);
  }

  /** A line that is buffered inside a LABEL block: it neither reopens nor closes a block. */
  predicate LabelInterior(t: string)
  {
    !IsKeyword(t, "LEGEND") && !IsEnd(t, "LEGEND") && !IsEnd(t, "LABEL")
  }

  /** Every one of `lines`, trimmed, is a line buffered inside a LABEL block. */
  predicate AllLabelInterior(lines: seq<string>)
  {
    lines == [] || (AllLabelInterior(lines[..|lines| - 1]) && LabelInterior(Trim(lines[|lines| - 1])))
  }

  /**
   * Lines that form one LABEL block as the reader sees it once trimmed: `LABEL`, lines
   * that are buffered, and an `END # LABEL` (a bare END would close the LEGEND instead).
   */
  predicate LabelBlock(block: seq<string>)
  {
    |block| >= 2
    && IsKeyword(Trim(block[0]), "LABEL")
    && AllLabelInterior(block[1..|block| - 1])
    && IsEnd(Trim(block[|block| - 1]), "LABEL") && !IsEnd(Trim(block[|block| - 1]), "LEGEND")
  }

  lemma StepBuffers(s: Scan, line: string)
    requires s.inLegend && s.inLabel && LabelInterior(Trim(line))
    ensures Step(s, line) == s.(labelBuf := s.labelBuf + [Trim(line)])
  {
  }

  lemma {:induction false} LabelInteriorBuffered(s: Scan, lines: seq<string>)
    requires s.inLegend && s.inLabel
    requires AllLabelInterior(lines)
    ensures Run(s, lines) == s.(labelBuf := s.labelBuf + TrimAll(lines))
  {
    if lines != [] {
      var n := |lines| - 1;
      LabelInteriorBuffered(s, lines[..n]);
      StepBuffers(Run(s, lines[..n]), lines[n]);
      TrimAllSnoc(lines);
    }
  }

  lemma RunSplitFirst(s: Scan, lines: seq<string>)
    requires |lines| >= 1
    ensures Run(s, lines) == Run(Step(s, lines[0]), lines[1..])
  {
    RunAppend(s, [lines[0]], lines[1..]);
    assert [lines[0]] + lines[1..] == lines;
    RunOne(s, lines[0]);
  }

  lemma RunSplitLast(s: Scan, lines: seq<string>)
    requires |lines| >= 1
    ensures Run(s, lines) == Step(Run(s, lines[..|lines| - 1]), lines[|lines| - 1])
  {
  }

  /** The LABEL line and the lines after it, up to the END, are buffered. */
  lemma OpenLabelBuffered(s: Scan, head: seq<string>)
    requires s.inLegend && !s.inLabel && s.labelBuf == []
    requires |head| >= 1 && IsKeyword(Trim(head[0]), "LABEL") && AllLabelInterior(head[1..])
    ensures Run(s, head) == s.(inLabel := true, labelBuf := TrimAll(head))
  {
    var afterLabel := s.(inLabel := true, labelBuf := [Trim(head[0])]);
    assert Step(s, head[0]) == afterLabel by {
      StepOpensLabel(s, head[0]);
      assert s.labelBuf + [Trim(head[0])] == [Trim(head[0])];
    }
    RunSplitFirst(s, head);
    LabelInteriorBuffered(afterLabel, head[1..]);
    TrimAllCons(head);
  }

  /**
   * Every line from LABEL through its END, both included, is buffered and handed to a
   * new Label that replaces the current one; nothing else changes.
   */
  lemma LabelBlockReplacesLabel(s: Scan, block: seq<string>)
    requires s.inLegend && !s.inLabel && s.labelBuf == []
    requires LabelBlock(block)
    ensures Run(s, block) == s.(value := s.value.(legendLabel := LabelFrom(TrimAll(block))))
  {
    var n := |block| - 1;
    var head := block[..n];
    assert head[1..] == block[1..n];
    OpenLabelBuffered(s, head);
    RunSplitLast(s, block);
    StepClosesLabel(s.(inLabel := true, labelBuf := TrimAll(head)), block[n]);
    TrimAllSnoc(block);
  }

  lemma RunOne(s: Scan, line: string)
    ensures Run(s, [line]) == Step(s, line)
  {
    assert [line][..0] == [];
  }

  lemma StepOpensLegend(s: Scan, line: string)
    requires IsKeyword(Trim(line), "LEGEND")
    ensures Step(s, line) == s.(inLegend := true)
  {
  }

  lemma StepClosesLegend(s: Scan, line: string)
    requires s.inLegend && Trim(line) == "END # LEGEND"
    ensures Step(s, line) == s.(inLegend := false)
  {
  }

  lemma StepOpensLabel(s: Scan, line: string)
    requires s.inLegend && IsKeyword(Trim(line), "LABEL")
    ensures Step(s, line) == s.(inLabel := true, labelBuf := s.labelBuf + [Trim(line)])
  {
  }

  lemma StepClosesLabel(s: Scan, line: string)
    requires s.inLegend && s.inLabel
    requires IsEnd(Trim(line), "LABEL") && !IsEnd(Trim(line), "LEGEND")
    ensures Step(s, line) == s.(inLabel := false, labelBuf := [],
                                value := s.value.(legendLabel := LabelFrom(s.labelBuf + [Trim(line)])))
  {
  }

  lemma LegendLineRead(s: Scan)
    ensures Step(s, "  LEGEND") == s.(inLegend := true)
  {
    TrimOfIndented("  ", "LEGEND");
    assert "  LEGEND" == "  " + "LEGEND";
    StepOpensLegend(s, "  LEGEND");
  }

  lemma StatusTextTrimmed(token: string)
    requires token == "ON" || token == "OFF"
    ensures Trim("    STATUS " + token) == "STATUS " + token
    ensures Rest("STATUS " + token, "STATUS ") == Some(token)
  {
    TrimOfIndented("    ", "STATUS " + token);
    assert "    STATUS " + token == "    " + ("STATUS " + token);
    assert ("STATUS " + token)[..7] == "STATUS ";
    assert ("STATUS " + token)[7..] == token;
  }

  lemma StatusLineRead(s: Scan, status: EnumValue)
    requires s.inLegend && !s.inLabel
    requires status == Code(STATUS_ON) || status == Code(STATUS_OFF)
    ensures Step(s, "    STATUS " + Encode(StatusTable, status)) == s.(value := s.value.(status := status))
  {
    var token := Encode(StatusTable, status);
    StatusRoundTrip(status.code);
    assert token == "ON" || token == "OFF";
    StatusTextTrimmed(token);
    StatusLineSetsStatus(s, "    STATUS " + token);
  }

  /** The two header lines `write` prints open the block and set the status. */
  lemma HeaderRead(status: EnumValue)
    requires status == Code(STATUS_ON) || status == Code(STATUS_OFF)
    ensures Run(Start, ["  LEGEND", "    STATUS " + Encode(StatusTable, status)])
         == Start.(inLegend := true, value := Start.value.(status := status))
  {
    var line := "    STATUS " + Encode(StatusTable, status);
    var head := ["  LEGEND", line];
    var s1 := Start.(inLegend := true);
    LegendLineRead(Start);
    RunOne(Start, "  LEGEND");
    assert Run(Start, ["  LEGEND"]) == s1;
    StatusLineRead(s1, status);
    assert Step(s1, line) == s1.(value := s1.value.(status := status));
    RunSplitLast(Start, head);
    assert head[..1] == ["  LEGEND"] && head[1] == line;
  }

  /** The closing line `write` prints ends the block. */
  lemma FooterRead(s: Scan)
    requires s.inLegend
    ensures Step(s, "  END # LEGEND") == s.(inLegend := false)
  {
    TrimOfIndented("  ", "END # LEGEND");
    assert "  END # LEGEND" == "  " + "END # LEGEND";
    StepClosesLegend(s, "  END # LEGEND");
  }

  /**
   * What `write` prints reads back as the same status, with a Label built from exactly
   * the lines the label printed, provided those lines form a LABEL block.
   */
  lemma WriteThenRead(v: LegendValue, writeLabel: (Label, nat) -> seq<string>)
    requires v.status == Code(STATUS_ON) || v.status == Code(STATUS_OFF)
    requires LabelBlock(writeLabel(v.legendLabel, 2))
    ensures ReadLegend(WriteLegend(v, writeLabel)) == LegendValue(v.status, LabelFrom(TrimAll(writeLabel(v.legendLabel, 2))))
  {
    var labelLines := writeLabel(v.legendLabel, 2);
    var head := ["  LEGEND", "    STATUS " + Encode(StatusTable, v.status)];
    var lines := WriteLegend(v, writeLabel);
    assert lines == head + labelLines + ["  END # LEGEND"];
    HeaderRead(v.status);
    var s2 := Start.(inLegend := true, value := Start.value.(status := v.status));
    LabelBlockReplacesLabel(s2, labelLines);
    RunAppend(Start, head, labelLines);
    var s3 := s2.(value := s2.value.(legendLabel := LabelFrom(TrimAll(labelLines))));
    assert Run(Start, head + labelLines) == s3;
    RunAppend(Start, head + labelLines, ["  END # LEGEND"]);
    RunOne(s3, "  END # LEGEND");
    FooterRead(s3);
  }
}
