/**
  The geometry text format read by `loadGeometry`: line classification, the
  three-state section machine, whitespace tokenising, and the relation that
  every output buffer of the loader satisfies.

  Everything here is a function of the file's lines; the imperative loader in
  loader.dfy is proved against these definitions.
 */
module Wrappers {
  datatype Option<+T> = None | Some(value: T)
}

module GeometryFormat {
  import opened Wrappers

  /** The loader's sections; `NoSection` is the C++ `Section::None`. */
  datatype Section = NoSection | Points | Indices

  /** What a line (after the carriage-return fix) means to the section machine. */
  datatype LineKind = Marker(target: Section) | Skip | Data

  const PointsMarker: string := "[points]"
  const IndicesMarker: string := "[indices]"

  /** Number of values one data line contributes: x, y, r, g, b ... */
  const PointArity: nat := 5
  /** ... and the three corners of a triangle. */
  const IndexArity: nat := 3

  predicate EndsInCR(line: string) {
    |line| > 0 && line[|line| - 1] == '\r'
  }

  /** A single trailing '\r' is removed, nothing else. */
  function StripCR(line: string): string {
    if EndsInCR(line) then line[..|line| - 1] else line
  }

  /** `line[i]` on a `std::string`: index `size()` reads the terminating
      '\0'. */
  function CharAt(line: string, i: nat): char
    requires i <= |line|
  {
    if i == |line| then '\0' else line[i]
  }

  /** The tests in the loader's order: the two markers, then a first
      character '#' or an empty line, and everything else is data. A line is
      skipped exactly when it is empty or starts with '#' (no marker does),
      and a marker always names a real section. */
  function Classify(line: string): (k: LineKind)
    ensures k.Marker? ==> k.target != NoSection
    ensures k == Skip <==> line == "" || line[0] == '#'
  {
    if line == PointsMarker then Marker(Points)
    else if line == IndicesMarker then Marker(Indices)
    else if CharAt(line, 0) == '#' || line == "" then Skip
    else Data
  }

  /** One transition of the section machine on a raw line: the section
      changes only on a marker line, and never back to `NoSection`. */
  function Step(s: Section, raw: string): (r: Section)
    ensures r != s ==> StripCR(raw) == PointsMarker || StripCR(raw) == IndicesMarker
    ensures r == NoSection ==> s == NoSection
  {
    match Classify(StripCR(raw))
    case Marker(t) => t
    case _ => s
  }

  /** The section in force after reading `lines`, starting in `s`; once a
      marker has been read, `NoSection` is never in force again. */
  function SectionAfter(s: Section, lines: seq<string>): (r: Section)
    ensures r == NoSection ==> s == NoSection
    decreases |lines|
  {
    if lines == [] then s
    else Step(SectionAfter(s, lines[..|lines| - 1]), lines[|lines| - 1])
  }

  /** The data lines (carriage return removed) that are read while section
      `t` is in force, in file order: no more of them than lines. That each
      one classifies as data is the lemma `DataLinesAreData`. */
  function DataLines(s: Section, lines: seq<string>, t: Section): (r: seq<string>)
    ensures |r| <= |lines|
    decreases |lines|
  {
    if lines == [] then []
    else
      var init := lines[..|lines| - 1];
      var line := StripCR(lines[|lines| - 1]);
      DataLines(s, init, t)
        + (if SectionAfter(s, init) == t && Classify(line) == Data then [line] else [])
  }

  /** The lines that become vertex records, and those that become triangles. */
  function PointLines(lines: seq<string>): (r: seq<string>)
    ensures |r| <= |lines|
  {
    DataLines(NoSection, lines, Points)
  }

  function IndexLines(lines: seq<string>): (r: seq<string>)
    ensures |r| <= |lines|
  {
    DataLines(NoSection, lines, Indices)
  }

  // ---------------------------------------------------------------------
  // Whitespace tokenising, as done by formatted extraction from a stream

  /** The characters `isspace` accepts in the C locale: ' ', '\t', '\n',
      vertical tab, form feed and '\r', and no other. */
  predicate IsSpace(c: char)
    ensures IsSpace(c) <==> c == ' ' || c == '\t' || c == '\n' || c == '\U{B}' || c == '\U{C}' || c == '\r'
  {
    c == ' ' || ('\t' <= c <= '\r')
  }

  /** Length of the leading run of non-space characters. */
  function WordLength(s: string): (n: nat)
    ensures n <= |s|
    ensures s != [] && !IsSpace(s[0]) ==> n > 0
  {
    if s == [] || IsSpace(s[0]) then 0 else 1 + WordLength(s[1..])
  }

  /** The whitespace-separated tokens of a line, left to right: each one
      non-empty, so there are at most as many as characters. */
  function Tokens(s: string): (r: seq<string>)
    ensures |r| <= |s|
    ensures forall i :: 0 <= i < |r| ==> r[i] != []
    decreases |s|
  {
    if s == [] then []
    else if IsSpace(s[0]) then Tokens(s[1..])
    else
      var n := WordLength(s);
      [s[..n]] + Tokens(s[n..])
  }

  // ---------------------------------------------------------------------
  // What the loader promises about the values it appends

  /** The k-th extraction from `line` (k counted from 0) yields a value: the
      line has a k-th token, and it and every token before it convert (an
      earlier failure leaves the stream failed). */
  predicate Extracts<T>(line: string, k: nat, read: string -> Option<T>) {
    var toks := Tokens(line);
    k < |toks| && forall m :: 0 <= m <= k ==> read(toks[m]).Some?
  }

  /** A well-formed data line: all `arity` extractions yield a value. */
  predicate WellFormed<T>(line: string, arity: nat, read: string -> Option<T>) {
    arity == 0 || Extracts(line, arity - 1, read)
  }

  /** The block of `arity` values appended for one data line: exactly `arity`
      entries, and each one whose extraction succeeds is the converted token. */
  ghost predicate ChunkConforms<T>(line: string, arity: nat, read: string -> Option<T>, chunk: seq<T>) {
    |chunk| == arity
    && forall k :: 0 <= k < arity && Extracts(line, k, read) ==> chunk[k] == read(Tokens(line)[k]).value
  }

  /** `out` is what the loader may produce for the data lines `lines`: one
      conforming block per line, in order. */
  ghost predicate Conforms<T>(lines: seq<string>, arity: nat, read: string -> Option<T>, out: seq<T>)
    decreases |lines|
  {
    if lines == [] then out == []
    else
      |out| >= arity
      && Conforms(lines[..|lines| - 1], arity, read, out[..|out| - arity])
      && ChunkConforms(lines[|lines| - 1], arity, read, out[|out| - arity..])
  }

  /** The values of a well-formed data line, in token order. */
  function Converted<T>(line: string, arity: nat, read: string -> Option<T>): seq<T>
    requires WellFormed(line, arity, read)
  {
    seq(arity, k requires 0 <= k < arity => read(Tokens(line)[k]).value)
  }

  /** The one output a file whose data lines are all well-formed gives. */
  function Expected<T>(lines: seq<string>, arity: nat, read: string -> Option<T>): seq<T>
    requires forall i :: 0 <= i < |lines| ==> WellFormed(lines[i], arity, read)
    decreases |lines|
  {
    if lines == [] then []
    else Expected(lines[..|lines| - 1], arity, read) + Converted(lines[|lines| - 1], arity, read)
  }

  /** A non-empty sequence is its prefix and its last element. */
  lemma InitLast<X>(xs: seq<X>)
    requires xs != []
    ensures xs[..|xs| - 1] + [xs[|xs| - 1]] == xs
  {
  }

  /** A sequence is its first `n` elements followed by the rest. */
  lemma PrefixAndRest<X>(xs: seq<X>, n: nat)
    requires n <= |xs|
    ensures xs == xs[..n] + xs[n..]
  {
  }

  /** Appending one chunk keeps the relation; the step of the loader's loop. */
  lemma ConformsAppend<T>(lines: seq<string>, line: string, arity: nat, read: string -> Option<T>,
                          out: seq<T>, chunk: seq<T>)
    requires Conforms(lines, arity, read, out)
    requires ChunkConforms(line, arity, read, chunk)
    ensures Conforms(lines + [line], arity, read, out + chunk)
  {
    assert (lines + [line])[..|lines|] == lines;
    assert (out + chunk)[..|out|] == out;
    assert (out + chunk)[|out|..] == chunk;
  }

  /** Reading one more line: the section machine takes one step, and the
      line joins the data lines of section `t` exactly when it is a data line
      read while `t` is in force. */
  lemma DataLinesStep(s: Section, lines: seq<string>, n: nat, t: Section)
    requires n < |lines|
    ensures SectionAfter(s, lines[..n + 1]) == Step(SectionAfter(s, lines[..n]), lines[n])
    ensures DataLines(s, lines[..n + 1], t)
         == DataLines(s, lines[..n], t)
            + (if SectionAfter(s, lines[..n]) == t && Classify(StripCR(lines[n])) == Data
               then [StripCR(lines[n])] else [])
  {
    assert lines[..n + 1][..n] == lines[..n];
  }

  /** What handling the raw line `raw` in section `sec` does to the output
      for section `t`: a data line read while `t` is in force appends one
      conforming block of `arity` values to `before`; any other line leaves
      it as it is. */
  ghost predicate LineEffect<T>(sec: Section, raw: string, t: Section, arity: nat, read: string -> Option<T>,
                                before: seq<T>, after: seq<T>) {
    if sec == t && Classify(StripCR(raw)) == Data then
      |before| <= |after| && after[..|before|] == before
      && ChunkConforms(StripCR(raw), arity, read, after[|before|..])
    else
      after == before
  }

  /** Handling line `n` keeps the output for `t` conforming to the data lines
      read so far. */
  lemma Advance<T>(lines: seq<string>, n: nat, t: Section, arity: nat, read: string -> Option<T>,
                   before: seq<T>, after: seq<T>)
    requires n < |lines|
    requires Conforms(DataLines(NoSection, lines[..n], t), arity, read, before)
    requires LineEffect(SectionAfter(NoSection, lines[..n]), lines[n], t, arity, read, before, after)
    ensures Conforms(DataLines(NoSection, lines[..n + 1], t), arity, read, after)
  {
    if SectionAfter(NoSection, lines[..n]) == t && Classify(StripCR(lines[n])) == Data {
      TakeIn(lines, n, t, arity, read, before, after);
    } else {
      PassOver(lines, n, t, arity, read, before);
    }
  }

  /** A line that is not a data line of section `t` leaves the output for
      `t` as it is. */
  lemma PassOver<T>(lines: seq<string>, n: nat, t: Section, arity: nat, read: string -> Option<T>, out: seq<T>)
    requires n < |lines|
    requires SectionAfter(NoSection, lines[..n]) != t || Classify(StripCR(lines[n])) != Data
    requires Conforms(DataLines(NoSection, lines[..n], t), arity, read, out)
    ensures Conforms(DataLines(NoSection, lines[..n + 1], t), arity, read, out)
  {
    DataLinesStep(NoSection, lines, n, t);
    var seen := DataLines(NoSection, lines[..n], t);
    assert seen + [] == seen;
    assert DataLines(NoSection, lines[..n + 1], t) == seen;
  }

  /** A data line of section `t` extends the output for `t` by its block. */
  lemma TakeIn<T>(lines: seq<string>, n: nat, t: Section, arity: nat, read: string -> Option<T>,
                  before: seq<T>, after: seq<T>)
    requires n < |lines|
    requires SectionAfter(NoSection, lines[..n]) == t && Classify(StripCR(lines[n])) == Data
    requires Conforms(DataLines(NoSection, lines[..n], t), arity, read, before)
    requires |before| <= |after| && after[..|before|] == before
    requires ChunkConforms(StripCR(lines[n]), arity, read, after[|before|..])
    ensures Conforms(DataLines(NoSection, lines[..n + 1], t), arity, read, after)
  {
    DataLinesStep(NoSection, lines, n, t);
    PrefixAndRest(after, |before|);
    ConformsAppend(DataLines(NoSection, lines[..n], t), StripCR(lines[n]), arity, read, before, after[|before|..]);
  }

  /** Every block has `arity` entries, so the output length is `arity` times
      the number of data lines. */
  lemma {:induction false} ConformsLength<T>(lines: seq<string>, arity: nat, read: string -> Option<T>, out: seq<T>)
    requires Conforms(lines, arity, read, out)
    ensures |out| == arity * |lines|
    decreases |lines|
  {
    if lines != [] {
      ConformsLength(lines[..|lines| - 1], arity, read, out[..|out| - arity]);
    }
  }
}
