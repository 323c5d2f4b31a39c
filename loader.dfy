/**
  The loader itself: `loadGeometry` fills two caller-owned vectors from a
  text file, one line at a time, driven by the section machine of
  GeometryFormat.
 */
module GeometryLoader {
  import opened Wrappers
  import opened GeometryFormat

  /** A 32-bit float, kept as its bit pattern; the model does no arithmetic on it. */
  datatype Float32 = Float32(bits: bv32)

  /** `uint16_t`. */
  newtype U16 = x: int | 0 <= x < 0x1_0000

  /** What opening the path gives: whether the open succeeded, and the lines
      that reading it line by line delivers. */
  datatype TextFile = TextFile(isOpen: bool, lines: seq<string>)

  /** The part of `std::vector` the loader uses. */
  class Vector<T> {
    var elems: seq<T>

    constructor ()
      ensures elems == []
    {
      elems := [];
    }

    method Clear()
      modifies this
      ensures elems == []
    {
      elems := [];
    }

    method PushBack(x: T)
      modifies this
      ensures elems == old(elems) + [x]
    {
      elems := elems + [x];
    }
  }

  /** Reads `arity` values from a fresh string stream over `line` and pushes
      each onto `out`, successful or not. `carried` is the variable's value
      before the first extraction; once an extraction fails the stream stays
      failed and every later value pushed is unspecified. Returns the value
      the variable holds afterwards. Each pushed value is either a successful
      conversion or unspecified (`*`), and a variable a failed extraction
      leaves unchanged is covered by `*`; so when `arity > 0` the carried
      value never reaches `out` as such. */
  method ExtractInto<T(0)>(line: string, arity: nat, read: string -> Option<T>, out: Vector<T>, carried: T)
    returns (last: T)
    modifies out
    ensures |out.elems| == |old(out.elems)| + arity
    ensures out.elems[..|old(out.elems)|] == old(out.elems)
    ensures ChunkConforms(line, arity, read, out.elems[|old(out.elems)|..])
  {
    var toks := Tokens(line);
    var good := true;
    last := carried;
    ghost var before := out.elems;
    for i := 0 to arity
      invariant good <==> i == 0 || Extracts(line, i - 1, read)
      invariant |out.elems| == |before| + i
      invariant out.elems[..|before|] == before
      invariant forall k :: 0 <= k < i && Extracts(line, k, read) ==> out.elems[|before| + k] == read(toks[k]).value
    {
      if good && i < |toks| && read(toks[i]).Some? {
        last := read(toks[i]).value;
      } else {
        // either an earlier extraction failed, or this one does
        if good {
          assert !(i < |toks| && read(toks[i]).Some?);
        }
        good := false;
        last := *;
      }
      out.PushBack(last);
    }
  }

  /** One pass of the read loop's body: the carriage-return fix, then the
      marker, comment/blank and data cases in the loader's order. Returns the
      section now in force and the values the two extraction variables hold. */
  method HandleLine(raw: string, section: Section, readFloat: string -> Option<Float32>,
                    readIndex: string -> Option<U16>, pointData: Vector<Float32>, indexData: Vector<U16>,
                    value: Float32, index: U16)
    returns (next: Section, value': Float32, index': U16)
    modifies pointData, indexData
    ensures next == Step(section, raw)
    ensures LineEffect(section, raw, Points, PointArity, readFloat, old(pointData.elems), pointData.elems)
    ensures LineEffect(section, raw, Indices, IndexArity, readIndex, old(indexData.elems), indexData.elems)
  {
    var line := raw;
    if line != "" && line[|line| - 1] == '\r' {
      line := line[..|line| - 1];
    }
    assert line == StripCR(raw);

    next, value', index' := section, value, index;
    if line == PointsMarker {
      next := Points;
    } else if line == IndicesMarker {
      next := Indices;
    } else if line == "" || line[0] == '#' {
    } else if section == Points {
      value' := ExtractInto(line, PointArity, readFloat, pointData, value);
    } else if section == Indices {
      index' := ExtractInto(line, IndexArity, readIndex, indexData, index);
    }
  }

  /** `loadGeometry`: false, with both vectors untouched, when the file did
      not open; otherwise true, with each vector holding exactly one block
      per data line of its section. */
  method LoadGeometry(file: TextFile, readFloat: string -> Option<Float32>, readIndex: string -> Option<U16>,
                      pointData: Vector<Float32>, indexData: Vector<U16>)
    returns (ok: bool)
    modifies pointData, indexData
    ensures ok == file.isOpen
    ensures !ok ==> pointData.elems == old(pointData.elems) && indexData.elems == old(indexData.elems)
    ensures ok ==> Conforms(PointLines(file.lines), PointArity, readFloat, pointData.elems)
    ensures ok ==> Conforms(IndexLines(file.lines), IndexArity, readIndex, indexData.elems)
    ensures ok ==> |pointData.elems| == PointArity * |PointLines(file.lines)|
    ensures ok ==> |indexData.elems| == IndexArity * |IndexLines(file.lines)|
  {
    if !file.isOpen {
      return false;
    }

    pointData.Clear();
    indexData.Clear();

    var currentSection := NoSection;
    var value: Float32 := *;
    var index: U16 := *;
    var n := 0;
    while n < |file.lines|
      invariant 0 <= n <= |file.lines|
      invariant currentSection == SectionAfter(NoSection, file.lines[..n])
      invariant Conforms(DataLines(NoSection, file.lines[..n], Points), PointArity, readFloat, pointData.elems)
      invariant Conforms(DataLines(NoSection, file.lines[..n], Indices), IndexArity, readIndex, indexData.elems)
    {
      ghost var points, indices := pointData.elems, indexData.elems;
      DataLinesStep(NoSection, file.lines, n, Points);
      currentSection, value, index :=
        HandleLine(file.lines[n], currentSection, readFloat, readIndex, pointData, indexData, value, index);
      Advance(file.lines, n, Points, PointArity, readFloat, points, pointData.elems);
      Advance(file.lines, n, Indices, IndexArity, readIndex, indices, indexData.elems);
      n := n + 1;
    }
    assert file.lines[..n] == file.lines;
    ConformsLength(PointLines(file.lines), PointArity, readFloat, pointData.elems);
    ConformsLength(IndexLines(file.lines), IndexArity, readIndex, indexData.elems);
    return true;
  }
}
