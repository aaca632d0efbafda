/**
 * What `save` promises about the file it writes: the fixed order of its sections, which
 * optional lines appear when, and where the layers go.
 */
module Writing {
  import opened Wrappers
  import opened Text
  import opened Enums
  import opened Children
  import Metadata
  import Legend
  import opened MapFile

  predicate StartsWith(line: string, prefix: string)
  {
    |prefix| <= |line| && line[..|prefix|] == prefix
  }

  /** The file opens with MAP, STATUS and NAME and closes with `END # MAP`. */
  lemma SaveFrame(d: MapData, w: Writers)
    requires Metadata.Valid(d.metadata)
    ensures |SaveLines(d, w)| >= 10
    ensures SaveLines(d, w)[0] == "MAP"
    ensures SaveLines(d, w)[1] == "  STATUS " + Encode(StatusTable, d.status)
    ensures SaveLines(d, w)[2] == "  NAME \"" + d.name + "\""
    ensures SaveLines(d, w)[|SaveLines(d, w)| - 1] == "END # MAP"
  {
    var h := HeadLines(d);
    assert h[..3] == ["MAP", StatusLine(d.status), NameLine(d.name)];
    assert SaveLines(d, w)[..3] == h[..3];
  }

  /** A line whose third character is not `E` does not start like an EXTENT line. */
  lemma NotExtentLine(line: string)
    requires |line| > 2 && line[2] != 'E'
    ensures !StartsWith(line, "  EXTENT ")
  {
    if 9 <= |line| {
      assert line[..9][2] != "  EXTENT "[2];
    }
  }

  /** The FONTSET, SYMBOLSET, SIZE and UNITS lines of the head. */
  function TailLines(d: MapData): seq<string>
  {
    FileLines("FONTSET", d.fontset) + FileLines("SYMBOLSET", d.symbolset)
    + SizeLines(d.width, d.height) + [UnitsLine(d.units)]
  }

  /** None of the lines after the extent starts like an EXTENT line. */
  lemma TailLineKinds(d: MapData, j: int)
    requires 0 <= j < |TailLines(d)|
    ensures !StartsWith(TailLines(d)[j], "  EXTENT ")
  {
    var f := FileLines("FONTSET", d.fontset);
    var y := FileLines("SYMBOLSET", d.symbolset);
    var z := SizeLines(d.width, d.height);
    var r := TailLines(d);
    assert r == f + y + z + [UnitsLine(d.units)];
    var line := r[j];
    if j < |f| {
      assert line == FileLine("FONTSET", d.fontset);
      FileLineThird("FONTSET", d.fontset);
    } else if j < |f| + |y| {
      assert line == y[j - |f|] == FileLine("SYMBOLSET", d.symbolset);
      FileLineThird("SYMBOLSET", d.symbolset);
    } else if j < |f| + |y| + |z| {
      assert line == z[j - |f| - |y|] == SizeLine(d.width, d.height);
      SizeLineThird(d.width, d.height);
    } else {
      assert line == UnitsLine(d.units);
      UnitsLineThird(d.units);
    }
    NotExtentLine(line);
  }

  lemma FileLineThird(keyword: string, file: string)
    requires |keyword| > 0
    ensures |FileLine(keyword, file)| > 2 && FileLine(keyword, file)[2] == keyword[0]
  {
  }

  lemma SizeLineThird(width: int, height: int)
    ensures |SizeLine(width, height)| > 2 && SizeLine(width, height)[2] == 'S'
  {
  }

  lemma UnitsLineThird(units: EnumValue)
    ensures |UnitsLine(units)| > 2 && UnitsLine(units)[2] == 'U'
  {
  }

  /** Only the EXTENT line of the head starts like one. */
  lemma HeadLineKinds(d: MapData, i: int)
    requires 0 <= i < |HeadLines(d)|
    ensures StartsWith(HeadLines(d)[i], "  EXTENT ") <==> ExtentLines(d.extent) != [] && HeadLines(d)[i] == ExtentLine(d.extent)
  {
    var h := HeadLines(d);
    var pre := ["MAP", StatusLine(d.status), NameLine(d.name)];
    var e := ExtentLines(d.extent);
    var r := TailLines(d);
    assert h == pre + e + r;
    if i < 3 {
      assert h[i] == pre[i];
      assert h[i][2] == (if i == 0 then 'P' else if i == 1 then 'S' else 'N');
      NotExtentLine(h[i]);
    } else if i < 3 + |e| {
      assert h[i] == e[i - 3] == ExtentLine(d.extent);
      assert h[i][..9] == "  EXTENT ";
    } else {
      assert h[i] == r[i - 3 - |e|];
      TailLineKinds(d, i - 3 - |e|);
    }
  }

  /**
   * The head of the file holds an EXTENT line exactly when the extent is non-empty and
   * its values add up to at least 0.
   */
  lemma ExtentWrittenIff(d: MapData)
    ensures (exists i :: 0 <= i < |HeadLines(d)| && StartsWith(HeadLines(d)[i], "  EXTENT "))
            <==> |d.extent| > 0 && Sum(d.extent) >= 0
  {
    var h := HeadLines(d);
    if |d.extent| > 0 && Sum(d.extent) >= 0 {
      HeadLineKinds(d, 3);
      assert h[3] == ExtentLine(d.extent);
    } else {
      forall i | 0 <= i < |h| ensures !StartsWith(h[i], "  EXTENT ") {
        HeadLineKinds(d, i);
      }
    }
  }

  lemma SumOfFour(a: int, b: int, c: int, e: int)
    ensures Sum([a, b, c, e]) == a + b + c + e
  {
    assert Sum([a]) == a by {
      assert [a][..0] == [];
    }
    assert Sum([a, b]) == a + b by {
      assert [a, b][..1] == [a];
    }
    assert Sum([a, b, c]) == a + b + c by {
      assert [a, b, c][..2] == [a, b];
    }
    assert [a, b, c, e][..3] == [a, b, c];
  }

  lemma FiveHundred()
    ensures IntToString(500) == "500"
  {
    assert NatToString(5) == "5";
    assert NatToString(50) == NatToString(5) + "0";
    assert NatToString(500) == NatToString(50) + "0";
  }

  lemma DefaultSizeLine()
    ensures SizeLines(500, 500) == ["  SIZE 500 500"]
  {
    FiveHundred();
    assert SizeLine(500, 500) == "  SIZE " + "500" + " " + "500" == "  SIZE 500 500";
  }

  lemma DefaultStatusLine()
    ensures StatusLine(Code(STATUS_ON)) == "  STATUS ON"
  {
    assert Encode(StatusTable, Code(STATUS_ON)) == "ON";
    assert StatusLine(Code(STATUS_ON)) == "  STATUS " + "ON" == "  STATUS ON";
  }

  lemma DefaultUnitsLine()
    ensures UnitsLine(Code(UNITS_METERS)) == "  UNITS METERS"
  {
    assert Encode(UnitsTable, Code(UNITS_METERS)) == "METERS" by {
      var t := UnitsTable;
      assert t[0].0 != 3 && t[1..][0].0 != 3 && t[1..][1..][0].0 != 3;
      assert t[1..][1..][1..][0] == (3, "METERS");
    }
    assert UnitsLine(Code(UNITS_METERS)) == "  UNITS " + "METERS" == "  UNITS METERS";
  }

  /**
   * A Map built without a file writes this head: no EXTENT line, since the sentinel
   * extent [-1, -1, -1, -1] adds up to -4, and no FONTSET or SYMBOLSET line.
   */
  lemma DefaultHead()
    ensures HeadLines(DefaultData) == ["MAP", "  STATUS ON", "  NAME \"MYMAP\"", "  SIZE 500 500", "  UNITS METERS"]
  {
    var d := DefaultData;
    SumOfFour(-1, -1, -1, -1);
    assert ExtentLines(d.extent) == [];
    assert FileLines("FONTSET", d.fontset) == [] && FileLines("SYMBOLSET", d.symbolset) == [];
    DefaultSizeLine();
    DefaultStatusLine();
    DefaultUnitsLine();
    assert NameLine("MYMAP") == "  NAME \"MYMAP\"";
    assert HeadLines(d) == ["MAP", StatusLine(d.status), NameLine(d.name)] + SizeLines(500, 500) + [UnitsLine(d.units)];
  }

  lemma SmallNumerals()
    ensures IntToString(90) == "90" && IntToString(180) == "180"
    ensures IntToString(-90) == "-90" && IntToString(-180) == "-180"
  {
    assert NatToString(9) == "9" && NatToString(1) == "1";
    assert NatToString(90) == NatToString(9) + "0";
    assert NatToString(18) == NatToString(1) + "8";
    assert NatToString(180) == NatToString(18) + "0";
  }

  /** The four numerals of the whole-world extent, joined by spaces. */
  lemma WorldExtentString()
    ensures ExtentString([-180, -90, 180, 90]) == "-180 -90 180 90"
  {
    var xs := [-180, -90, 180, 90];
    SmallNumerals();
    var parts := seq(4, k requires 0 <= k < 4 => IntToString(xs[k]));
    assert parts == ["-180", "-90", "180", "90"];
    assert Join(" ", ["-180", "-90"]) == "-180 -90" by {
      assert ["-180", "-90"][..1] == ["-180"];
    }
    assert Join(" ", ["-180", "-90", "180"]) == "-180 -90 180" by {
      assert ["-180", "-90", "180"][..2] == ["-180", "-90"];
    }
    assert Join(" ", parts) == "-180 -90 180 90" by {
      assert parts[..3] == ["-180", "-90", "180"];
    }
  }

  /** The whole-world extent adds up to 0, so it is written, with its negative values. */
  lemma WorldExtentWritten(d: MapData)
    requires d.extent == [-180, -90, 180, 90]
    ensures ExtentLines(d.extent) == ["  EXTENT -180 -90 180 90"]
    ensures HeadLines(d)[3] == "  EXTENT -180 -90 180 90"
  {
    SumOfFour(-180, -90, 180, 90);
    WorldExtentString();
    assert ExtentString(d.extent) == "-180 -90 180 90";
    assert ExtentLine(d.extent) == "  EXTENT " + "-180 -90 180 90" == "  EXTENT -180 -90 180 90";
    var e := ExtentLines(d.extent);
    assert e == [ExtentLine(d.extent)];
    var rest := FileLines("FONTSET", d.fontset) + FileLines("SYMBOLSET", d.symbolset)
      + SizeLines(d.width, d.height) + [UnitsLine(d.units)];
    assert HeadLines(d) == ["MAP", StatusLine(d.status), NameLine(d.name)] + e + rest;
  }

  /**
   * The WEB block is always written; its METADATA block appears exactly when there are
   * entries, and then lists one line per key in insertion order.
   */
  lemma WebBlockShape(m: Metadata.Dict)
    requires Metadata.Valid(m)
    ensures WebLines(m)[..2] == ["", "  WEB"] && WebLines(m)[|WebLines(m)| - 1] == "  END # WEB"
    ensures m.keys == [] ==> WebLines(m) == ["", "  WEB", "  END # WEB"]
    ensures m.keys != [] ==>
      |WebLines(m)| == |m.keys| + 5
      && WebLines(m)[2] == "    METADATA"
      && WebLines(m)[|m.keys| + 3] == "    END # METADATA"
      && forall i :: 0 <= i < |m.keys| ==> WebLines(m)[i + 3] == EntryLine(m.keys[i], m.values[m.keys[i]])
  {
    if m.keys != [] {
      var r := WebLines(m);
      assert r == ["", "  WEB", "    METADATA"] + EntryLines(m) + ["    END # METADATA", "  END # WEB"];
    }
  }

  /** No entry line reads as the METADATA keyword, so that keyword is written only for a non-empty dictionary. */
  lemma MetadataWrittenIff(m: Metadata.Dict)
    requires Metadata.Valid(m)
    ensures "    METADATA" in WebLines(m) <==> m.keys != []
  {
    WebBlockShape(m);
    var r := WebLines(m);
    if m.keys != [] {
      assert r[2] == "    METADATA";
    } else {
      assert r == ["", "  WEB", "  END # WEB"];
    }
  }

  /**
   * Adding a layer adds its text, after a blank line, just before `END # MAP`; the
   * rest of the file, earlier layers included, is unchanged.
   */
  lemma SaveAfterAddLayer(d: MapData, layer: Layer, w: Writers)
    requires Metadata.Valid(d.metadata)
    ensures SaveLines(d.(layers := d.layers + [layer]), w)
         == SaveLines(d, w)[..|SaveLines(d, w)| - 1] + [""] + w.writeLayer(layer) + ["END # MAP"]
  {
    var ls := d.layers + [layer];
    assert ls[..|ls| - 1] == d.layers;
    var before := HeadLines(d) + ProjectionLines(d.projection) + WebLines(d.metadata)
      + [""] + Legend.WriteLegend(d.legend, w.writeLabel) + [""] + w.writeScalebar(d.scalebar);
    assert SaveLines(d, w) == before + LayerLines(d.layers, w.writeLayer) + ["END # MAP"];
    assert HeadLines(d.(layers := ls)) == HeadLines(d);
    assert SaveLines(d.(layers := ls), w) == before + LayerLines(ls, w.writeLayer) + ["END # MAP"];
  }

  /** The layers' texts appear in list order, each after a blank line. */
  lemma {:induction false} LayerLinesOrder(a: seq<Layer>, b: seq<Layer>, writeLayer: Layer -> seq<string>)
    ensures LayerLines(a + b, writeLayer) == LayerLines(a, writeLayer) + LayerLines(b, writeLayer)
  {
    if b == [] {
      assert a + b == a;
    } else {
      var n := |b| - 1;
      assert (a + b)[..|a + b| - 1] == a + b[..n];
      LayerLinesOrder(a, b[..n], writeLayer);
    }
  }
}
