/**
  Concrete files passed to the loader's contract: a triangle, an empty
  file, a file without markers, a file that does not open, a short vertex
  line, and the same file loaded twice.
 */
module GeometryScenarios {
  import opened Wrappers
  import opened GeometryFormat
  import opened GeometryProperties
  import opened GeometryLoader

  /** A whitespace-free token that does not start a comment, so a line
      beginning with it is a data line. */
  predicate DataToken(t: string) {
    IsToken(t) && t[0] != '#'
  }

  /** The first, last and (after the first token) separating characters of
      tokens joined by spaces. */
  lemma {:induction false} JoinShape(toks: seq<string>)
    requires |toks| > 0
    requires forall i :: 0 <= i < |toks| ==> IsToken(toks[i])
    ensures |Join(toks)| >= |toks[0]| > 0
    ensures Join(toks)[0] == toks[0][0]
    ensures !IsSpace(Join(toks)[|Join(toks)| - 1])
    ensures |toks| > 1 ==> |Join(toks)| > |toks[0]| && Join(toks)[|toks[0]|] == ' '
    decreases |toks|
  {
    if |toks| > 1 {
      JoinShape(toks[1..]);
      var rest := Join(toks[1..]);
      assert Join(toks) == toks[0] + " " + rest;
      assert Join(toks)[|Join(toks)| - 1] == rest[|rest| - 1];
    }
  }

  /** A line of two or more data tokens separated by spaces is a data line,
      kept as it is by the carriage-return fix, and splits back into those
      tokens. */
  lemma RecordLine(toks: seq<string>)
    requires |toks| > 1
    requires forall i :: 0 <= i < |toks| ==> DataToken(toks[i])
    ensures StripCR(Join(toks)) == Join(toks)
    ensures Classify(Join(toks)) == Data
    ensures Tokens(Join(toks)) == toks
  {
    var line := Join(toks);
    JoinShape(toks);
    SpacedIsData(line, |toks[0]|);
    TokensOfJoin(toks);
  }

  /** A line holding a space, and not starting a comment, is a data line:
      neither marker contains a space. */
  lemma SpacedIsData(line: string, k: nat)
    requires k < |line| && line[k] == ' ' && line[0] != '#'
    ensures Classify(line) == Data
  {
    assert forall i :: 0 <= i < |PointsMarker| ==> PointsMarker[i] != ' ';
    assert forall i :: 0 <= i < |IndicesMarker| ==> IndicesMarker[i] != ' ';
  }

  /** `line` is a data line, untouched by the carriage-return fix, whose
      tokens are `toks`. */
  predicate Record(line: string, toks: seq<string>) {
    Classify(line) == Data && StripCR(line) == line && Tokens(line) == toks
  }

  /** Three vertex lines and one triangle line in their sections, with the
      trailing empty line the read loop delivers at the end of the file,
      split as expected. */
  lemma TriangleSections(a: string, b: string, c: string, t: string)
    requires Classify(a) == Data && StripCR(a) == a
    requires Classify(b) == Data && StripCR(b) == b
    requires Classify(c) == Data && StripCR(c) == c
    requires Classify(t) == Data && StripCR(t) == t
    ensures PointLines([PointsMarker, a, b, c, IndicesMarker, t, ""]) == [a, b, c]
    ensures IndexLines([PointsMarker, a, b, c, IndicesMarker, t, ""]) == [t]
  {
    var body := [PointsMarker] + [a, b, c] + [IndicesMarker] + [t];
    assert [PointsMarker, a, b, c, IndicesMarker, t, ""] == body + [""];
    TrailingEmptyLineIgnored(body);
    TriangleBody(a, b, c, t);
  }

  /** The same file without its final empty read. */
  lemma TriangleBody(a: string, b: string, c: string, t: string)
    requires Classify(a) == Data && StripCR(a) == a
    requires Classify(b) == Data && StripCR(b) == b
    requires Classify(c) == Data && StripCR(c) == c
    requires Classify(t) == Data && StripCR(t) == t
    ensures PointLines([PointsMarker] + [a, b, c] + [IndicesMarker] + [t]) == [a, b, c]
    ensures IndexLines([PointsMarker] + [a, b, c] + [IndicesMarker] + [t]) == [t]
  {
    SectionedFile([a, b, c], [t], Points);
    SectionedFile([a, b, c], [t], Indices);
    StrippedUnchanged([a, b, c]);
    StrippedUnchanged([t]);
  }

  /** Lines the carriage-return fix leaves alone are their own stripped form. */
  lemma StrippedUnchanged(lines: seq<string>)
    requires forall i :: 0 <= i < |lines| ==> StripCR(lines[i]) == lines[i]
    ensures Stripped(lines) == lines
  {
  }

  /** A vertex line of five tokens that all convert is well formed and
      gives their values in order. */
  lemma VertexValues(line: string, p: string, q: string, r: string, u: string, w: string,
                     readFloat: string -> Option<Float32>)
    requires Tokens(line) == [p, q, r, u, w]
    requires readFloat(p).Some? && readFloat(q).Some? && readFloat(r).Some?
    requires readFloat(u).Some? && readFloat(w).Some?
    ensures WellFormed(line, PointArity, readFloat)
    ensures Converted(line, PointArity, readFloat)
         == [readFloat(p).value, readFloat(q).value, readFloat(r).value, readFloat(u).value, readFloat(w).value]
  {
  }

  /** A triangle line of three tokens that all convert is well formed and
      gives their values in order. */
  lemma CornerValues(line: string, p: string, q: string, r: string, readIndex: string -> Option<U16>)
    requires Tokens(line) == [p, q, r]
    requires readIndex(p).Some? && readIndex(q).Some? && readIndex(r).Some?
    ensures WellFormed(line, IndexArity, readIndex)
    ensures Converted(line, IndexArity, readIndex) == [readIndex(p).value, readIndex(q).value, readIndex(r).value]
  {
  }

  /** Three well-formed vertex lines give their fifteen values in order. */
  lemma ThreeVertices(a: string, b: string, c: string, readFloat: string -> Option<Float32>, out: seq<Float32>)
    requires WellFormed(a, PointArity, readFloat) && WellFormed(b, PointArity, readFloat)
    requires WellFormed(c, PointArity, readFloat)
    requires Conforms([a, b, c], PointArity, readFloat, out)
    ensures out == Converted(a, PointArity, readFloat) + Converted(b, PointArity, readFloat)
                   + Converted(c, PointArity, readFloat)
  {
    var lines := [a, b, c];
    WellFormedDetermined(lines, PointArity, readFloat, out);
    assert lines[..2][..1] == [a];
    assert lines[..2] == [a, b];
    assert Expected([a], PointArity, readFloat) == Converted(a, PointArity, readFloat);
  }

  /** Any output the loader may give for the triangle file (vertex lines
      `a`, `b`, `c`, triangle line `t`) is the fifteen converted tokens in
      order and the index triple 0 1 2. `m`, `h`, `z` and `o` stand for the
      numerals -0.5, 0.5, 0.0 and 1.0, and `i0`, `i1`, `i2` for 0, 1 and 2. */
  lemma TriangleValues(a: string, b: string, c: string, t: string,
                       m: string, h: string, z: string, o: string, i0: string, i1: string, i2: string,
                       readFloat: string -> Option<Float32>, readIndex: string -> Option<U16>,
                       points: seq<Float32>, indices: seq<U16>)
    requires Record(a, [m, m, o, z, z]) && Record(b, [h, m, z, o, z]) && Record(c, [h, h, z, z, o])
    requires Record(t, [i0, i1, i2])
    requires readFloat(m).Some? && readFloat(h).Some? && readFloat(z).Some? && readFloat(o).Some?
    requires readIndex(i0) == Some(0) && readIndex(i1) == Some(1) && readIndex(i2) == Some(2)
    requires Conforms(PointLines([PointsMarker, a, b, c, IndicesMarker, t, ""]), PointArity, readFloat, points)
    requires Conforms(IndexLines([PointsMarker, a, b, c, IndicesMarker, t, ""]), IndexArity, readIndex, indices)
    ensures indices == [0, 1, 2]
    ensures var vm, vh, vz, vo := readFloat(m).value, readFloat(h).value, readFloat(z).value, readFloat(o).value;
            points == [vm, vm, vo, vz, vz, vh, vm, vz, vo, vz, vh, vh, vz, vz, vo]
  {
    TriangleSections(a, b, c, t);
    VertexBlocks(a, b, c, m, h, z, o, readFloat, points);
    CornerBlock(t, i0, i1, i2, readIndex, indices);
  }

  /** The output for the three vertex lines of the triangle file. */
  lemma VertexBlocks(a: string, b: string, c: string, m: string, h: string, z: string, o: string,
                     readFloat: string -> Option<Float32>, points: seq<Float32>)
    requires Tokens(a) == [m, m, o, z, z] && Tokens(b) == [h, m, z, o, z] && Tokens(c) == [h, h, z, z, o]
    requires readFloat(m).Some? && readFloat(h).Some? && readFloat(z).Some? && readFloat(o).Some?
    requires Conforms([a, b, c], PointArity, readFloat, points)
    ensures var vm, vh, vz, vo := readFloat(m).value, readFloat(h).value, readFloat(z).value, readFloat(o).value;
            points == [vm, vm, vo, vz, vz, vh, vm, vz, vo, vz, vh, vh, vz, vz, vo]
  {
    VertexValues(a, m, m, o, z, z, readFloat);
    VertexValues(b, h, m, z, o, z, readFloat);
    VertexValues(c, h, h, z, z, o, readFloat);
    ThreeVertices(a, b, c, readFloat, points);
  }

  /** The output for the triangle line of the triangle file. */
  lemma CornerBlock(t: string, i0: string, i1: string, i2: string, readIndex: string -> Option<U16>, indices: seq<U16>)
    requires Tokens(t) == [i0, i1, i2]
    requires readIndex(i0) == Some(0) && readIndex(i1) == Some(1) && readIndex(i2) == Some(2)
    requires Conforms([t], IndexArity, readIndex, indices)
    ensures indices == [0, 1, 2]
  {
    CornerValues(t, i0, i1, i2, readIndex);
    OneLineConforms(t, IndexArity, readIndex, indices);
  }

  /** The triangle file, its lines written as tokens joined by spaces,
      gives fifteen floats, the converted tokens in order, and the index
      triple 0 1 2. */
  method LoadTriangle(m: string, h: string, z: string, o: string, i0: string, i1: string, i2: string,
                      readFloat: string -> Option<Float32>, readIndex: string -> Option<U16>)
    returns (ok: bool, points: seq<Float32>, indices: seq<U16>)
    requires DataToken(m) && DataToken(h) && DataToken(z) && DataToken(o)
    requires DataToken(i0) && DataToken(i1) && DataToken(i2)
    requires readFloat(m).Some? && readFloat(h).Some? && readFloat(z).Some? && readFloat(o).Some?
    requires readIndex(i0) == Some(0) && readIndex(i1) == Some(1) && readIndex(i2) == Some(2)
    ensures ok
    ensures indices == [0, 1, 2]
    ensures var vm, vh, vz, vo := readFloat(m).value, readFloat(h).value, readFloat(z).value, readFloat(o).value;
            points == [vm, vm, vo, vz, vz, vh, vm, vz, vo, vz, vh, vh, vz, vz, vo]
  {
    var a, b, c := Join([m, m, o, z, z]), Join([h, m, z, o, z]), Join([h, h, z, z, o]);
    var t := Join([i0, i1, i2]);
    assert Record(a, [m, m, o, z, z]) by {
      RecordLine([m, m, o, z, z]);
    }
    assert Record(b, [h, m, z, o, z]) by {
      RecordLine([h, m, z, o, z]);
    }
    assert Record(c, [h, h, z, z, o]) by {
      RecordLine([h, h, z, z, o]);
    }
    assert Record(t, [i0, i1, i2]) by {
      RecordLine([i0, i1, i2]);
    }
    ok, points, indices := LoadTriangleLines(a, b, c, t, m, h, z, o, i0, i1, i2, readFloat, readIndex);
  }

  /** The triangle file, for any three vertex lines and one triangle line
      with the tokens shown. */
  method LoadTriangleLines(a: string, b: string, c: string, t: string,
                           m: string, h: string, z: string, o: string, i0: string, i1: string, i2: string,
                           readFloat: string -> Option<Float32>, readIndex: string -> Option<U16>)
    returns (ok: bool, points: seq<Float32>, indices: seq<U16>)
    requires Record(a, [m, m, o, z, z]) && Record(b, [h, m, z, o, z]) && Record(c, [h, h, z, z, o])
    requires Record(t, [i0, i1, i2])
    requires readFloat(m).Some? && readFloat(h).Some? && readFloat(z).Some? && readFloat(o).Some?
    requires readIndex(i0) == Some(0) && readIndex(i1) == Some(1) && readIndex(i2) == Some(2)
    ensures ok
    ensures indices == [0, 1, 2]
    ensures var vm, vh, vz, vo := readFloat(m).value, readFloat(h).value, readFloat(z).value, readFloat(o).value;
            points == [vm, vm, vo, vz, vz, vh, vm, vz, vo, vz, vh, vh, vz, vz, vo]
  {
    var pointData := new Vector<Float32>();
    var indexData := new Vector<U16>();
    ok := LoadGeometry(TextFile(true, [PointsMarker, a, b, c, IndicesMarker, t, ""]),
                       readFloat, readIndex, pointData, indexData);
    points, indices := pointData.elems, indexData.elems;
    TriangleValues(a, b, c, t, m, h, z, o, i0, i1, i2, readFloat, readIndex, points, indices);
  }

  /** The same, with the numerals written out. */
  method LoadExampleTriangle(readFloat: string -> Option<Float32>, readIndex: string -> Option<U16>)
    returns (ok: bool, points: seq<Float32>, indices: seq<U16>)
    requires readFloat("-0.5").Some? && readFloat("0.5").Some?
    requires readFloat("0.0").Some? && readFloat("1.0").Some?
    requires readIndex("0") == Some(0) && readIndex("1") == Some(1) && readIndex("2") == Some(2)
    ensures ok
    ensures indices == [0, 1, 2]
    ensures var m, h, z, o := readFloat("-0.5").value, readFloat("0.5").value,
                              readFloat("0.0").value, readFloat("1.0").value;
            points == [m, m, o, z, z, h, m, z, o, z, h, h, z, z, o]
  {
    assert DataToken("-0.5") && DataToken("0.5") && DataToken("0.0") && DataToken("1.0");
    assert DataToken("0") && DataToken("1") && DataToken("2");
    ok, points, indices := LoadTriangle("-0.5", "0.5", "0.0", "1.0", "0", "1", "2", readFloat, readIndex);
  }

  /** Loading a file into vectors that already hold something, then loading
      it again into the same vectors, gives identical buffers whenever every
      data line is well formed: what the vectors held before is discarded. */
  method LoadTwice(file: TextFile, readFloat: string -> Option<Float32>, readIndex: string -> Option<U16>,
                   stale: Float32)
    returns (points1: seq<Float32>, indices1: seq<U16>, points2: seq<Float32>, indices2: seq<U16>)
    requires file.isOpen
    requires forall i :: 0 <= i < |PointLines(file.lines)| ==> WellFormed(PointLines(file.lines)[i], PointArity, readFloat)
    requires forall i :: 0 <= i < |IndexLines(file.lines)| ==> WellFormed(IndexLines(file.lines)[i], IndexArity, readIndex)
    ensures points1 == points2 && indices1 == indices2
    ensures points1 == Expected(PointLines(file.lines), PointArity, readFloat)
    ensures indices1 == Expected(IndexLines(file.lines), IndexArity, readIndex)
  {
    var pointData := new Vector<Float32>();
    var indexData := new Vector<U16>();
    pointData.PushBack(stale);
    indexData.PushBack(9);
    var ok := LoadGeometry(file, readFloat, readIndex, pointData, indexData);
    points1, indices1 := pointData.elems, indexData.elems;
    ok := LoadGeometry(file, readFloat, readIndex, pointData, indexData);
    points2, indices2 := pointData.elems, indexData.elems;
    WellFormedDetermined(PointLines(file.lines), PointArity, readFloat, points1);
    WellFormedDetermined(PointLines(file.lines), PointArity, readFloat, points2);
    WellFormedDetermined(IndexLines(file.lines), IndexArity, readIndex, indices1);
    WellFormedDetermined(IndexLines(file.lines), IndexArity, readIndex, indices2);
  }

  /** An empty file is read successfully and empties both vectors, which
      held a value each. */
  method LoadEmpty(readFloat: string -> Option<Float32>, readIndex: string -> Option<U16>)
    returns (ok: bool, points: seq<Float32>, indices: seq<U16>)
    ensures ok && points == [] && indices == []
  {
    var pointData := new Vector<Float32>();
    var indexData := new Vector<U16>();
    pointData.PushBack(Float32(0));
    indexData.PushBack(3);
    ok := LoadGeometry(TextFile(true, [""]), readFloat, readIndex, pointData, indexData);
    DataLinesStep(NoSection, [""], 0, Points);
    DataLinesStep(NoSection, [""], 0, Indices);
    assert [""][..1] == [""];
    points, indices := pointData.elems, indexData.elems;
  }

  /** A file that opens but holds no marker line is read successfully and
      gives two empty buffers. */
  method LoadUnmarked(lines: seq<string>, readFloat: string -> Option<Float32>, readIndex: string -> Option<U16>)
    returns (ok: bool, points: seq<Float32>, indices: seq<U16>)
    requires NoMarkers(lines)
    ensures ok && points == [] && indices == []
  {
    var pointData := new Vector<Float32>();
    var indexData := new Vector<U16>();
    ok := LoadGeometry(TextFile(true, lines), readFloat, readIndex, pointData, indexData);
    NoMarkersNoData(lines, Points);
    NoMarkersNoData(lines, Indices);
    points, indices := pointData.elems, indexData.elems;
  }

  /** A file that does not open: false, and what the caller had in the
      buffers is still there. */
  method LoadMissing(lines: seq<string>, readFloat: string -> Option<Float32>, readIndex: string -> Option<U16>,
                     earlier: Float32)
    returns (ok: bool, points: seq<Float32>, indices: seq<U16>)
    ensures !ok && points == [earlier] && indices == [7]
  {
    var pointData := new Vector<Float32>();
    var indexData := new Vector<U16>();
    pointData.PushBack(earlier);
    indexData.PushBack(7);
    ok := LoadGeometry(TextFile(false, lines), readFloat, readIndex, pointData, indexData);
    points, indices := pointData.elems, indexData.elems;
  }

  /** A vertex line with four tokens still gives a full record of five
      values; the first four are the converted tokens, the fifth is not
      pinned down. */
  method LoadShortVertex(a: string, b: string, c: string, d: string,
                         readFloat: string -> Option<Float32>, readIndex: string -> Option<U16>)
    returns (ok: bool, points: seq<Float32>)
    requires DataToken(a) && DataToken(b) && DataToken(c) && DataToken(d)
    requires readFloat(a).Some? && readFloat(b).Some? && readFloat(c).Some? && readFloat(d).Some?
    ensures ok && |points| == 5
    ensures points[..4] == [readFloat(a).value, readFloat(b).value, readFloat(c).value, readFloat(d).value]
  {
    var line := Join([a, b, c, d]);
    assert Record(line, [a, b, c, d]) by {
      RecordLine([a, b, c, d]);
    }
    var pointData := new Vector<Float32>();
    var indexData := new Vector<U16>();
    ok := LoadGeometry(TextFile(true, [PointsMarker, line]), readFloat, readIndex, pointData, indexData);
    points := pointData.elems;
    ShortVertexValues(line, a, b, c, d, readFloat, points);
  }

  /** Any output the loader may give for a points section holding one data
      line of four tokens that convert. */
  lemma ShortVertexValues(line: string, a: string, b: string, c: string, d: string,
                          readFloat: string -> Option<Float32>, points: seq<Float32>)
    requires Record(line, [a, b, c, d])
    requires readFloat(a).Some? && readFloat(b).Some? && readFloat(c).Some? && readFloat(d).Some?
    requires Conforms(PointLines([PointsMarker, line]), PointArity, readFloat, points)
    ensures |points| == 5
    ensures points[..4] == [readFloat(a).value, readFloat(b).value, readFloat(c).value, readFloat(d).value]
  {
    OneVertexSection(line);
    ShortBlock(line, a, b, c, d, readFloat, points);
  }

  /** The block for a vertex line of four tokens that convert. */
  lemma ShortBlock(line: string, a: string, b: string, c: string, d: string,
                   readFloat: string -> Option<Float32>, points: seq<Float32>)
    requires Tokens(line) == [a, b, c, d]
    requires readFloat(a).Some? && readFloat(b).Some? && readFloat(c).Some? && readFloat(d).Some?
    requires Conforms([line], PointArity, readFloat, points)
    ensures |points| == 5
    ensures points[..4] == [readFloat(a).value, readFloat(b).value, readFloat(c).value, readFloat(d).value]
  {
    OneLineConforms(line, PointArity, readFloat, points);
    assert Extracts(line, 0, readFloat) && Extracts(line, 1, readFloat);
    assert Extracts(line, 2, readFloat) && Extracts(line, 3, readFloat);
    assert points[0] == readFloat(a).value && points[1] == readFloat(b).value;
    assert points[2] == readFloat(c).value && points[3] == readFloat(d).value;
  }

  /** A points section holding one data line. */
  lemma OneVertexSection(line: string)
    requires Classify(line) == Data && StripCR(line) == line
    ensures PointLines([PointsMarker, line]) == [line]
  {
    assert PointLines([PointsMarker, line]) == DataLines(Points, [line], Points) by {
      MarkerLines();
      assert NoMarkers([line]);
      MarkerInForce(NoSection, [], PointsMarker, [line], Points);
      assert [] + [PointsMarker] + [line] == [PointsMarker, line];
    }
    assert DataLines(Points, [line], Points) == [line] by {
      DataRun(Points, [line], Points);
      StrippedUnchanged([line]);
    }
  }

  /** The same, with the numerals 1 2 3 4 written out. */
  method LoadExampleShortVertex(readFloat: string -> Option<Float32>, readIndex: string -> Option<U16>)
    returns (ok: bool, points: seq<Float32>)
    requires readFloat("1").Some? && readFloat("2").Some? && readFloat("3").Some? && readFloat("4").Some?
    ensures ok && |points| == 5
    ensures points[..4] == [readFloat("1").value, readFloat("2").value, readFloat("3").value, readFloat("4").value]
  {
    assert DataToken("1") && DataToken("2") && DataToken("3") && DataToken("4");
    ok, points := LoadShortVertex("1", "2", "3", "4", readFloat, readIndex);
  }
}
