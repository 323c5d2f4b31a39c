/**
  What the loader promises, stated over the format definitions: where each
  value lands, what a well-formed file yields, CRLF tolerance, the behaviour
  of markers, comments, blank lines and data lines outside any section, and
  the tokeniser's round trip.
 */
module GeometryProperties {
  import opened Wrappers
  import opened GeometryFormat

  // ---------------------------------------------------------------------
  // Output buffers

  /** Value k of data line j sits at position arity * j + k, and is the
      converted k-th token whenever that extraction succeeds. */
  lemma {:induction false} ConformsAt<T>(lines: seq<string>, arity: nat, read: string -> Option<T>,
                                         out: seq<T>, j: nat, k: nat)
    requires Conforms(lines, arity, read, out)
    requires j < |lines| && k < arity
    ensures arity * j + k < |out|
    ensures Extracts(lines[j], k, read) ==> out[arity * j + k] == read(Tokens(lines[j])[k]).value
    decreases |lines|
  {
    ConformsLength(lines, arity, read, out);
    var n := |lines| - 1;
    var prefix := out[..|out| - arity];
    assert arity * (n + 1) == arity * n + arity;
    if j < n {
      ConformsAt(lines[..n], arity, read, prefix, j, k);
      assert lines[..n][j] == lines[j];
    } else {
      assert arity * j + k == |out| - arity + k;
      assert out[|out| - arity..][k] == out[arity * j + k];
    }
  }

  /** A file whose data lines are all well-formed has exactly one possible
      output: the converted tokens of its data lines, one block per line in
      file order ... */
  lemma {:induction false} WellFormedDetermined<T>(lines: seq<string>, arity: nat, read: string -> Option<T>, out: seq<T>)
    requires forall i :: 0 <= i < |lines| ==> WellFormed(lines[i], arity, read)
    requires Conforms(lines, arity, read, out)
    ensures out == Expected(lines, arity, read)
    decreases |lines|
  {
    if lines != [] {
      var n := |lines| - 1;
      var init := lines[..n];
      assert forall i :: 0 <= i < |init| ==> init[i] == lines[i];
      var prefix, chunk := out[..|out| - arity], out[|out| - arity..];
      WellFormedDetermined(init, arity, read, prefix);
      ChunkDetermined(lines[n], arity, read, chunk);
      PrefixAndRest(out, |out| - arity);
    }
  }

  /** The block for a well-formed line is its converted tokens. */
  lemma ChunkDetermined<T>(line: string, arity: nat, read: string -> Option<T>, chunk: seq<T>)
    requires WellFormed(line, arity, read)
    requires ChunkConforms(line, arity, read, chunk)
    ensures chunk == Converted(line, arity, read)
  {
    var vs := Converted(line, arity, read);
    forall k | 0 <= k < arity
      ensures chunk[k] == vs[k]
    {
    }
  }

  /** ... and that output is one the loader may produce. */
  lemma {:induction false} ExpectedConforms<T>(lines: seq<string>, arity: nat, read: string -> Option<T>)
    requires forall i :: 0 <= i < |lines| ==> WellFormed(lines[i], arity, read)
    ensures Conforms(lines, arity, read, Expected(lines, arity, read))
    decreases |lines|
  {
    if lines != [] {
      var n := |lines| - 1;
      var init := lines[..n];
      assert forall i :: 0 <= i < |init| ==> init[i] == lines[i];
      var e, vs := Expected(init, arity, read), Converted(lines[n], arity, read);
      ExpectedConforms(init, arity, read);
      ConvertedConforms(lines[n], arity, read);
      ConformsAppend(init, lines[n], arity, read, e, vs);
      InitLast(lines);
    }
  }

  /** The values of a well-formed line are a block the loader may append. */
  lemma ConvertedConforms<T>(line: string, arity: nat, read: string -> Option<T>)
    requires WellFormed(line, arity, read)
    ensures ChunkConforms(line, arity, read, Converted(line, arity, read))
  {
  }

  /** The output for a single data line is one block for that line. */
  lemma OneLineConforms<T>(line: string, arity: nat, read: string -> Option<T>, out: seq<T>)
    requires Conforms([line], arity, read, out)
    ensures ChunkConforms(line, arity, read, out)
  {
    assert [line][..0] == [];
    assert out[..|out| - arity] == [];
    assert out[|out| - arity..] == out;
  }

  // ---------------------------------------------------------------------
  // Reading a file in pieces

  /** Reading `a` and then `b` is reading `b` from the section `a` leaves in
      force; the data lines of `a` come first. */
  lemma {:induction false} ReadInPieces(s: Section, a: seq<string>, b: seq<string>, t: Section)
    ensures SectionAfter(s, a + b) == SectionAfter(SectionAfter(s, a), b)
    ensures DataLines(s, a + b, t) == DataLines(s, a, t) + DataLines(SectionAfter(s, a), b, t)
    decreases |b|
  {
    if b == [] {
      assert a + b == a;
    } else {
      var b', last := b[..|b| - 1], b[|b| - 1];
      ReadInPieces(s, a, b', t);
      ConcatInit(a, b);
      var mid := SectionAfter(s, a + b');
      var added := if mid == t && Classify(StripCR(last)) == Data then [StripCR(last)] else [];
      assert SectionAfter(s, a + b) == Step(mid, last);
      assert DataLines(s, a + b, t) == DataLines(s, a + b', t) + added;
      assert DataLines(SectionAfter(s, a), b, t) == DataLines(SectionAfter(s, a), b', t) + added;
    }
  }

  /** Dropping the last line of `a + b` drops the last line of `b`. */
  lemma ConcatInit<X>(a: seq<X>, b: seq<X>)
    requires b != []
    ensures (a + b)[..|a + b| - 1] == a + b[..|b| - 1]
    ensures (a + b)[|a + b| - 1] == b[|b| - 1]
  {
  }

  /** Reading a single line from section `sec`. */
  lemma SingleLine(sec: Section, line: string, t: Section)
    ensures SectionAfter(sec, [line]) == Step(sec, line)
    ensures DataLines(sec, [line], t)
         == if sec == t && Classify(StripCR(line)) == Data then [StripCR(line)] else []
  {
    assert [line][..0] == [];
  }

  /** A line the section machine does not act on when reading section `t`:
      a comment or blank line, a marker for the section already in force,
      or a data line read while another section (or none) is in force. */
  predicate Ignored(sec: Section, raw: string, t: Section) {
    var kind := Classify(StripCR(raw));
    kind == Skip || kind == Marker(sec) || (kind == Data && sec != t)
  }

  /** Such a line can be removed from anywhere without changing the section
      that follows it or the data lines of `t`. */
  lemma InsertIgnored(s: Section, pre: seq<string>, line: string, post: seq<string>, t: Section)
    requires Ignored(SectionAfter(s, pre), line, t)
    ensures SectionAfter(s, pre + [line] + post) == SectionAfter(s, pre + post)
    ensures DataLines(s, pre + [line] + post, t) == DataLines(s, pre + post, t)
  {
    var sec := SectionAfter(s, pre);
    ReadInPieces(s, pre, [line], t);
    SingleLine(sec, line, t);
    assert SectionAfter(s, pre + [line]) == sec;
    assert DataLines(s, pre + [line], t) == DataLines(s, pre, t);
    ReadInPieces(s, pre + [line], post, t);
    ReadInPieces(s, pre, post, t);
  }

  /** Comment lines and empty lines add nothing to either buffer and leave
      the section as it was, wherever they stand. */
  lemma CommentsAndBlanksIgnored(pre: seq<string>, line: string, post: seq<string>)
    requires Classify(StripCR(line)) == Skip
    ensures PointLines(pre + [line] + post) == PointLines(pre + post)
    ensures IndexLines(pre + [line] + post) == IndexLines(pre + post)
    ensures SectionAfter(NoSection, pre + [line] + post) == SectionAfter(NoSection, pre + post)
  {
    InsertIgnored(NoSection, pre, line, post, Points);
    InsertIgnored(NoSection, pre, line, post, Indices);
  }

  /** The empty line the read loop delivers once the file has ended changes
      nothing. */
  lemma TrailingEmptyLineIgnored(lines: seq<string>)
    ensures PointLines(lines + [""]) == PointLines(lines)
    ensures IndexLines(lines + [""]) == IndexLines(lines)
  {
    assert lines + [""] + [] == lines + [""];
    assert lines + [] == lines;
    CommentsAndBlanksIgnored(lines, "", []);
  }

  /** A data line read before any marker is dropped: it adds to neither
      buffer. */
  lemma OrphanDataIgnored(pre: seq<string>, line: string, post: seq<string>)
    requires SectionAfter(NoSection, pre) == NoSection
    requires Classify(StripCR(line)) == Data
    ensures PointLines(pre + [line] + post) == PointLines(pre + post)
    ensures IndexLines(pre + [line] + post) == IndexLines(pre + post)
  {
    InsertIgnored(NoSection, pre, line, post, Points);
    InsertIgnored(NoSection, pre, line, post, Indices);
  }

  // ---------------------------------------------------------------------
  // Markers

  predicate NoMarkers(lines: seq<string>) {
    forall i :: 0 <= i < |lines| ==> !Classify(StripCR(lines[i])).Marker?
  }

  /** Without a marker line the section never changes. */
  lemma {:induction false} SectionPersists(s: Section, lines: seq<string>)
    requires NoMarkers(lines)
    ensures SectionAfter(s, lines) == s
    decreases |lines|
  {
    if lines != [] {
      var init := lines[..|lines| - 1];
      assert forall i :: 0 <= i < |init| ==> init[i] == lines[i];
      SectionPersists(s, init);
    }
  }

  /** A marker line selects its section, adds nothing itself, and the section
      stays in force over the following lines until the next marker. */
  lemma MarkerInForce(s: Section, pre: seq<string>, marker: string, mid: seq<string>, t: Section)
    requires Classify(StripCR(marker)).Marker?
    requires NoMarkers(mid)
    ensures SectionAfter(s, pre + [marker] + mid) == Classify(StripCR(marker)).target
    ensures DataLines(s, pre + [marker] + mid, t)
         == DataLines(s, pre, t) + DataLines(Classify(StripCR(marker)).target, mid, t)
  {
    var target := Classify(StripCR(marker)).target;
    ReadInPieces(s, pre, [marker], t);
    SingleLine(SectionAfter(s, pre), marker, t);
    assert SectionAfter(s, pre + [marker]) == target;
    assert DataLines(s, pre + [marker], t) == DataLines(s, pre, t);
    ReadInPieces(s, pre + [marker], mid, t);
    SectionPersists(target, mid);
  }

  /** Every line a section gathers is a data line. */
  lemma {:induction false} DataLinesAreData(s: Section, lines: seq<string>, t: Section)
    ensures forall i :: 0 <= i < |DataLines(s, lines, t)| ==> Classify(DataLines(s, lines, t)[i]) == Data
    decreases |lines|
  {
    if lines != [] {
      DataLinesAreData(s, lines[..|lines| - 1], t);
    }
  }

  /** The carriage-return fix keeps a prefix of the line, one character
      shorter exactly when the line ends in '\r'. */
  lemma StripCRPrefix(line: string)
    ensures |line| - 1 <= |StripCR(line)| <= |line| && StripCR(line) == line[..|StripCR(line)|]
    ensures |StripCR(line)| < |line| <==> EndsInCR(line)
  {
  }

  /** The carriage-return fix undoes appending one '\r' and leaves a line
      that does not end in one alone, so of "x\r\r" only one is removed. */
  lemma StripCRInverse(line: string)
    ensures StripCR(line + "\r") == line
    ensures !EndsInCR(line) ==> StripCR(line) == line
  {
    assert (line + "\r")[..|line|] == line;
  }

  /** The lines with their carriage return removed. */
  function Stripped(lines: seq<string>): seq<string> {
    seq(|lines|, i requires 0 <= i < |lines| => StripCR(lines[i]))
  }

  /** A run of data lines read while `t` is in force all go to `t`, in
      order; read while another section is in force, none do. */
  lemma {:induction false} DataRun(s: Section, lines: seq<string>, t: Section)
    requires forall i :: 0 <= i < |lines| ==> Classify(StripCR(lines[i])) == Data
    ensures SectionAfter(s, lines) == s
    ensures DataLines(s, lines, t) == if s == t then Stripped(lines) else []
    decreases |lines|
  {
    if lines != [] {
      var init := lines[..|lines| - 1];
      assert forall i :: 0 <= i < |init| ==> init[i] == lines[i];
      DataRun(s, init, t);
      StrippedInit(lines);
    }
  }

  lemma StrippedInit(lines: seq<string>)
    requires lines != []
    ensures Stripped(lines) == Stripped(lines[..|lines| - 1]) + [StripCR(lines[|lines| - 1])]
  {
  }

  /** The two marker lines switch to their sections. */
  lemma MarkerLines()
    ensures Classify(StripCR(PointsMarker)) == Marker(Points)
    ensures Classify(StripCR(IndicesMarker)) == Marker(Indices)
  {
  }

  /** A file in the documented layout: the points marker, vertex lines, the
      indices marker, index lines. Each section receives its own lines. */
  lemma SectionedFile(vertices: seq<string>, triangles: seq<string>, t: Section)
    requires forall i :: 0 <= i < |vertices| ==> Classify(StripCR(vertices[i])) == Data
    requires forall i :: 0 <= i < |triangles| ==> Classify(StripCR(triangles[i])) == Data
    ensures DataLines(NoSection, [PointsMarker] + vertices + [IndicesMarker] + triangles, t)
         == (if t == Points then Stripped(vertices) else [])
            + (if t == Indices then Stripped(triangles) else [])
  {
    var head := [PointsMarker] + vertices;
    var fromVertices, fromTriangles := DataLines(Points, vertices, t), DataLines(Indices, triangles, t);
    assert DataLines(NoSection, head, t) == fromVertices by {
      DataHasNoMarkers(vertices);
      MarkerLines();
      MarkerInForce(NoSection, [], PointsMarker, vertices, t);
      assert [] + [PointsMarker] + vertices == head;
    }
    assert DataLines(NoSection, head + [IndicesMarker] + triangles, t) == fromVertices + fromTriangles by {
      DataHasNoMarkers(triangles);
      MarkerLines();
      MarkerInForce(NoSection, head, IndicesMarker, triangles, t);
    }
    assert fromVertices == if t == Points then Stripped(vertices) else [] by {
      DataRun(Points, vertices, t);
    }
    assert fromTriangles == if t == Indices then Stripped(triangles) else [] by {
      DataRun(Indices, triangles, t);
    }
  }

  /** Data lines are not markers. */
  lemma DataHasNoMarkers(lines: seq<string>)
    requires forall i :: 0 <= i < |lines| ==> Classify(StripCR(lines[i])) == Data
    ensures NoMarkers(lines)
  {
  }

  /** A file without marker lines fills neither buffer (and is still read
      successfully). */
  lemma {:induction false} NoMarkersNoData(lines: seq<string>, t: Section)
    requires NoMarkers(lines)
    requires t != NoSection
    ensures DataLines(NoSection, lines, t) == []
    decreases |lines|
  {
    if lines != [] {
      var init := lines[..|lines| - 1];
      assert forall i :: 0 <= i < |init| ==> init[i] == lines[i];
      NoMarkersNoData(init, t);
      SectionPersists(NoSection, init);
    }
  }

  // ---------------------------------------------------------------------
  // Line endings

  predicate SameStripped(a: seq<string>, b: seq<string>) {
    |a| == |b| && forall i :: 0 <= i < |a| ==> StripCR(a[i]) == StripCR(b[i])
  }

  /** Only the lines with their carriage return removed matter. */
  lemma {:induction false} SameStrippedSameResult(s: Section, a: seq<string>, b: seq<string>, t: Section)
    requires SameStripped(a, b)
    ensures SectionAfter(s, a) == SectionAfter(s, b)
    ensures DataLines(s, a, t) == DataLines(s, b, t)
    decreases |a|
  {
    if a != [] {
      var n := |a| - 1;
      SameStrippedInit(a, b);
      SameStrippedSameResult(s, a[..n], b[..n], t);
      assert StripCR(a[n]) == StripCR(b[n]);
    }
  }

  /** Agreeing lines still agree once the last one is dropped. */
  lemma SameStrippedInit(a: seq<string>, b: seq<string>)
    requires SameStripped(a, b) && a != []
    ensures SameStripped(a[..|a| - 1], b[..|b| - 1])
  {
  }

  /** A file with CRLF line endings (on any of its lines) gives the same data
      lines, and so the same possible outputs, as the file with LF endings. */
  lemma CrlfTolerant(lf: seq<string>, crlf: seq<string>)
    requires |crlf| == |lf|
    requires forall i :: 0 <= i < |lf| ==> !EndsInCR(lf[i]) && (crlf[i] == lf[i] || crlf[i] == lf[i] + "\r")
    ensures PointLines(crlf) == PointLines(lf)
    ensures IndexLines(crlf) == IndexLines(lf)
  {
    forall i | 0 <= i < |lf|
      ensures StripCR(crlf[i]) == StripCR(lf[i])
    {
      StripCRInverse(lf[i]);
    }
    SameStrippedSameResult(NoSection, crlf, lf, Points);
    SameStrippedSameResult(NoSection, crlf, lf, Indices);
  }

  // ---------------------------------------------------------------------
  // Tokens

  predicate IsToken(t: string) {
    t != [] && forall j :: 0 <= j < |t| ==> !IsSpace(t[j])
  }

  /** The leading run is a word: no space inside, and a space or the end of
      the line right after it. */
  lemma {:induction false} WordLengthIsWord(s: string)
    ensures forall i :: 0 <= i < WordLength(s) ==> !IsSpace(s[i])
    ensures WordLength(s) == |s| || IsSpace(s[WordLength(s)])
    decreases |s|
  {
    if s != [] && !IsSpace(s[0]) {
      WordLengthIsWord(s[1..]);
      assert forall i :: 0 < i < |s| ==> s[i] == s[1..][i - 1];
    }
  }

  /** Every token is a non-empty run of non-space characters. */
  lemma {:induction false} TokensAreWords(s: string)
    ensures forall i :: 0 <= i < |Tokens(s)| ==> IsToken(Tokens(s)[i])
    decreases |s|
  {
    if s != [] {
      if IsSpace(s[0]) {
        TokensAreWords(s[1..]);
      } else {
        var n := WordLength(s);
        WordLengthIsWord(s);
        TokensAreWords(s[n..]);
        assert IsToken(s[..n]);
      }
    }
  }

  /** A line has no tokens exactly when it is all whitespace. */
  lemma {:induction false} NoTokensIffBlank(s: string)
    ensures Tokens(s) == [] <==> forall i :: 0 <= i < |s| ==> IsSpace(s[i])
    decreases |s|
  {
    if s != [] && IsSpace(s[0]) {
      NoTokensIffBlank(s[1..]);
      assert forall i :: 0 < i < |s| ==> s[i] == s[1..][i - 1];
    }
  }

  /** Tokens written out separated by single spaces. */
  function Join(toks: seq<string>): string
    decreases |toks|
  {
    if toks == [] then ""
    else if |toks| == 1 then toks[0]
    else toks[0] + " " + Join(toks[1..])
  }

  lemma {:induction false} WordLengthOfToken(t: string, rest: string)
    requires IsToken(t)
    requires rest == [] || IsSpace(rest[0])
    ensures WordLength(t + rest) == |t|
    decreases |t|
  {
    if |t| > 1 {
      assert (t + rest)[1..] == t[1..] + rest;
      WordLengthOfToken(t[1..], rest);
    } else {
      assert (t + rest)[1..] == rest;
    }
  }

  /** A token on its own tokenises to itself. */
  lemma TokensOfToken(t: string)
    requires IsToken(t)
    ensures Tokens(t) == [t]
  {
    WordLengthOfToken(t, []);
    assert t + [] == t;
    assert t[..|t|] == t;
    assert t[|t|..] == [];
  }

  /** A token followed by a space is the first token. */
  lemma TokensCons(t: string, rest: string)
    requires IsToken(t)
    ensures Tokens(t + " " + rest) == [t] + Tokens(rest)
  {
    var s := t + " " + rest;
    WordLengthOfToken(t, " " + rest);
    assert s == t + (" " + rest);
    assert s[..|t|] == t;
    assert s[|t|..] == " " + rest;
    assert (" " + rest)[1..] == rest;
  }

  /** Tokenising tokens joined by spaces gives back the tokens. */
  lemma {:induction false} TokensOfJoin(toks: seq<string>)
    requires forall i :: 0 <= i < |toks| ==> IsToken(toks[i])
    ensures Tokens(Join(toks)) == toks
    decreases |toks|
  {
    if |toks| == 1 {
      TokensOfToken(toks[0]);
    } else if |toks| > 1 {
      TokensCons(toks[0], Join(toks[1..]));
      TokensOfJoin(toks[1..]);
      assert toks == [toks[0]] + toks[1..];
    }
  }

  /** A line of whitespace only (after the carriage-return fix) is a data
      line, yet no extraction from it succeeds: in a section it adds a block
      of unspecified values. */
  lemma WhitespaceOnlyLine<T>(line: string, k: nat, read: string -> Option<T>)
    requires line != []
    requires forall i :: 0 <= i < |line| ==> IsSpace(line[i])
    ensures Classify(line) == Data
    ensures !Extracts(line, k, read)
  {
    assert IsSpace(line[0]);
    assert line != PointsMarker && line != IndicesMarker;
    NoTokensIffBlank(line);
  }
}
