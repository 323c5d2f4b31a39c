# Geometry loader

A Dafny model of `loadGeometry`, the geometry-file reader of a small WebGPU
demo, with proofs about what it promises.

`loadGeometry(path, pointData, indexData)` opens a text file. If the open
fails, it returns `false` at once. Otherwise it clears both caller-owned
vectors and reads the file line by line:

- It removes one trailing carriage return from each line.
- `[points]` and `[indices]` switch the current section. The machine starts
  in section `None`.
- Empty lines and lines starting with `#` are skipped.
- Every other line is a data line. In the points section a data line gives
  five `float`s (x, y, r, g, b) to `pointData`. In the indices section it
  gives three `uint16_t` corners to `indexData`. Outside any section it is
  dropped.
- Each value comes from one formatted extraction from a string stream over
  the line. Exactly five (or three) values are pushed per data line, even
  when extractions fail.

The function then returns `true`.

The model has four modules:

- `GeometryFormat` (format.dfy) is the specification side. It defines:
  - the line classes and the section machine (`Classify`, `Step`,
    `SectionAfter`);
  - the data lines each section sees (`DataLines`, `PointLines`,
    `IndexLines`);
  - whitespace tokenising in the C locale (`Tokens`);
  - the relation `Conforms`, which the output buffers satisfy: one block of
    `arity` values per data line, in file order, where each value whose
    extraction succeeds is the converted token.
- `GeometryLoader` (loader.dfy) is the imperative loader. It has:
  - `Vector<T>`, the part of `std::vector` used here;
  - `LoadGeometry`, the loop over the lines with the section variable and
    the two carried extraction variables;
  - `HandleLine`, the loop body;
  - `ExtractInto`, the inner counted loop over one string stream.

  Each method is proved against the `GeometryFormat` definitions.
- `GeometryProperties` (properties.dfy) holds lemmas about the format:
  - the values sit at fixed positions, and well-formed files determine the
    output;
  - comments, blank lines and orphan data lines are ignored;
  - markers stay in force until the next marker;
  - CRLF and LF files give the same result;
  - facts about tokens.
- `GeometryScenarios` (scenarios.dfy) holds concrete files passed to
  `LoadGeometry`:
  - a three-vertex triangle file;
  - an empty file and a file without markers;
  - a file that does not open;
  - a vertex line with only four numbers;
  - the same file loaded twice into the same vectors.

Modelling choices:

- The file is a `TextFile(isOpen, lines)`. `lines` is the sequence of
  strings that `std::getline` delivers under the `while (!file.eof())` loop.
  When the file ends in a newline, that loop reads one last empty string.
  The model includes that string, and `TrailingEmptyLineIgnored` shows it
  changes nothing.
- The model never parses numbers. Converting a token is a function
  parameter `read: string -> Option<T>`, where `None` means the extraction
  fails.
- A value pushed after a failed extraction is whatever that extraction
  leaves in the variable, and the model leaves it open (`last := *`). In C++
  it can be 0 (a malformed field), a range limit (an out-of-range field), or
  the variable unchanged. The variable is unchanged when the stream had
  already failed, or when only whitespace was left. On the first extraction
  from a line, an unchanged variable still holds the previous line's value,
  or the uninitialised value of `value`/`index` if no earlier extraction
  ever stored one.
- A character of a line stands for one byte of the file: `std::string`
  holds bytes, and every test the loader makes compares against ASCII
  characters, so nothing depends on the difference.
- `float` is `Float32`, an opaque 32-bit pattern. `uint16_t` is the
  newtype `U16`.
- The loader tests `line[0] == '#'` before `line.empty()`. For an empty
  `std::string`, `line[0]` is the terminating `'\0'` (`CharAt`), so the
  test is defined, and the model keeps the loader's order.
- A line of only spaces or tabs is neither empty nor a comment, so the
  loader treats it as a data line. In a section it pushes a full block of
  unspecified values. `WhitespaceOnlyLine` states this.
- Inside a section, only lines that are neither markers, comments nor
  empty are parsed as numbers: the marker and skip tests come first.

## Model

| member | source | states |
|---|---|---|
| GeometryLoader.LoadGeometry | src/main.cpp:22-74 | returns true exactly when the file opened; if it did not, both vectors are unchanged; otherwise each vector conforms to the data lines of its section (one block per line, in file order, with every successful extraction's value in place), so it holds exactly 5 × (vertex lines) floats and 3 × (triangle lines) indices, whatever it held before |
| GeometryLoader.HandleLine | src/main.cpp:45-70 | one line: the new section is `Step(section, line)`; a data line read in the points (indices) section appends one conforming block of 5 (3) values to that vector; every other line leaves both vectors unchanged |
| GeometryLoader.ExtractInto | src/main.cpp:57-69 | pushes exactly `arity` values after the vector's old contents, and value k is the k-th token's conversion whenever extractions 0..k all succeed |
| GeometryLoader.Vector.Clear | src/main.cpp:29-30 | the vector is empty afterwards |
| GeometryLoader.Vector.PushBack | src/main.cpp:61 | the vector is its old contents followed by the new value |
| GeometryFormat.Classify | src/main.cpp:50-55 | the loader's order of tests: the two markers first, then a first character `#` (read as `'\0'` on an empty line) or an empty line, and everything else is data; a line is skipped exactly when it is empty or starts with `#`, since no marker does, and a marker always names the points or indices section |
| GeometryFormat.Step | src/main.cpp:50-53 | one update of `currentSection` for a line after the CR fix: the section changes only on a `[points]` or `[indices]` line, and never back to `None` |
| GeometryFormat.SectionAfter | src/main.cpp:37-53 | the section in force after a sequence of lines, starting from `None` at line 37; once a marker has been read, `None` is never in force again |
| GeometryFormat.DataLines | src/main.cpp:42-70 | the lines, with their CR removed, that reach the branch of section t, in file order; there are at most as many as lines read |
| GeometryFormat.PointLines | src/main.cpp:56-62 | the data lines read in the points section, from a start in `None`; at most as many as lines |
| GeometryFormat.IndexLines | src/main.cpp:63-69 | the data lines read in the indices section, from a start in `None`; at most as many as lines |
| GeometryFormat.IsSpace | src/main.cpp:60 | the whitespace that formatted extraction skips: exactly the six characters `isspace` accepts in the C locale (space, tab, newline, vertical tab, form feed, carriage return) |
| GeometryFormat.WordLength | src/main.cpp:60 | the length of the field one extraction consumes: within the string, and positive when the string starts with a non-space |
| GeometryFormat.Tokens | src/main.cpp:57-60 | the fields successive extractions from a string stream over the line meet, left to right; each is non-empty, so there are at most as many as characters |
| GeometryProperties.DataLinesAreData | src/main.cpp:54-70 | every line a section gathers classifies as data: markers, comments and empty lines never reach an extraction loop |
| GeometryProperties.StripCRPrefix | src/main.cpp:46-48 | the CR fix keeps a prefix of the line, one character shorter exactly when the line ends in `'\r'` |
| GeometryProperties.StripCRInverse | src/main.cpp:45-48 | the CR fix undoes appending one `'\r'` and leaves a line without a trailing `'\r'` alone, so only one `'\r'` is ever removed |
| GeometryFormat.ConformsAppend | src/main.cpp:56-69 | appending one conforming block for one more data line keeps the output conforming |
| GeometryFormat.DataLinesStep | src/main.cpp:42-70 | reading one more line takes one step of the section machine, and adds the line, CR removed, to a section's data exactly when it is a data line read while that section is in force |
| GeometryFormat.Advance | src/main.cpp:50-70 | the effect of handling line n keeps each vector conforming to the data lines read so far |
| GeometryFormat.PassOver | src/main.cpp:50-55 | a line that is not a data line of section t leaves t's data lines, and so t's output, as they were |
| GeometryFormat.TakeIn | src/main.cpp:56-69 | a data line of section t extends t's output by exactly that line's block |
| GeometryFormat.ConformsLength | src/main.cpp:56-69 | a conforming output has exactly `arity` times as many entries as there are data lines, so its length is a multiple of 5 (points) or 3 (indices) |
| GeometryProperties.ConformsAt | src/main.cpp:57-68 | in a conforming output, the k-th value of data line j sits at position arity·j + k, and it is the converted k-th token whenever extractions 0..k of that line succeed: file order, tokens consecutive and left to right |
| GeometryProperties.WellFormedDetermined | src/main.cpp:57-68 | when every data line converts fully, the only conforming output is `Expected`, the concatenation of the lines' converted values |
| GeometryProperties.ChunkDetermined | src/main.cpp:57-62 | a well-formed line has exactly one conforming block, its converted tokens |
| GeometryProperties.ExpectedConforms | src/main.cpp:57-68 | `Expected` itself conforms, so the characterisation of well-formed files is not vacuous |
| GeometryProperties.ConvertedConforms | src/main.cpp:57-62 | the converted tokens of a well-formed line are a conforming block |
| GeometryProperties.OneLineConforms | src/main.cpp:57-62 | the output for a single data line is one conforming block |
| GeometryProperties.ReadInPieces | src/main.cpp:42-71 | reading a + b equals reading a and then b from the section a leaves in force: the data lines are a's followed by b's |
| GeometryProperties.SingleLine | src/main.cpp:42-70 | one line from section s moves the machine by `Step` and is a data line of t exactly when s is t and the line is data |
| GeometryProperties.InsertIgnored | src/main.cpp:50-70 | inserting a comment or blank line, a marker for the section already in force, or a data line read while another section (or none) is in force changes neither the final section nor t's data lines |
| GeometryProperties.CommentsAndBlanksIgnored | src/main.cpp:54-55 | inserting an empty or `#` line anywhere changes neither the point lines, the index lines nor the final section |
| GeometryProperties.TrailingEmptyLineIgnored | src/main.cpp:42-55 | the empty string read at the end of a file ending in a newline changes nothing |
| GeometryProperties.OrphanDataIgnored | src/main.cpp:37-70 | a data line read while no section is in force contributes to neither vector |
| GeometryProperties.SectionPersists | src/main.cpp:50-53 | lines without a marker between them never change the section |
| GeometryProperties.MarkerInForce | src/main.cpp:50-53 | after a marker and marker-free lines, the marker's section is in force; the data lines gathered before the marker are kept and the following lines contribute as read in that section |
| GeometryProperties.DataRun | src/main.cpp:56-70 | a run of data lines keeps the section and is gathered whole (CR removed, in order) by that section and by no other |
| GeometryProperties.MarkerLines | src/main.cpp:50-53 | `[points]` and `[indices]` are markers of the points and indices sections |
| GeometryProperties.SectionedFile | src/main.cpp:50-70 | in `[points]`, vertex lines, `[indices]`, triangle lines, the points section gets exactly the vertex lines and the indices section exactly the triangle lines |
| GeometryProperties.NoMarkersNoData | src/main.cpp:37-70 | a file without marker lines gives no data lines to either section |
| GeometryProperties.SameStrippedSameResult | src/main.cpp:45-48 | two files whose lines agree once one trailing CR is removed have the same sections and data lines |
| GeometryProperties.CrlfTolerant | src/main.cpp:45-48 | a file with CRLF endings on any of its lines gives the same point and index lines as the LF file |
| GeometryProperties.WordLengthIsWord | src/main.cpp:57-60 | the leading word holds no space and ends at a space or at the end of the string |
| GeometryProperties.TokensAreWords | src/main.cpp:57-60 | every token is non-empty and holds no whitespace |
| GeometryProperties.NoTokensIffBlank | src/main.cpp:57-60 | a line has no token exactly when all its characters are whitespace |
| GeometryProperties.WordLengthOfToken | src/main.cpp:57-60 | a token followed by whitespace, or by nothing, is read whole as one word |
| GeometryProperties.TokensOfToken | src/main.cpp:57-60 | a lone token reads as itself |
| GeometryProperties.TokensCons | src/main.cpp:57-60 | a token, a space and more text read as that token, then the tokens of the rest |
| GeometryProperties.TokensOfJoin | src/main.cpp:57-60 | tokens joined by single spaces read back as the same tokens |
| GeometryProperties.WhitespaceOnlyLine | src/main.cpp:54-62 | a non-empty line that is all whitespace after the CR fix is a data line, and no extraction from it succeeds (a raw `"\r"` is skipped, since the CR fix empties it) |
| GeometryScenarios.RecordLine | src/main.cpp:45-60 | a line of two or more data tokens (whitespace-free, not starting with `#`) joined by spaces has no CR, is a data line, and has exactly those tokens as its tokens |
| GeometryScenarios.TriangleSections | src/main.cpp:37-70 | a three-vertex triangle file (points marker, three vertex lines, indices marker, one triangle line, final empty read) gives the three vertex lines to the points section and the triangle line to the indices section |
| GeometryScenarios.TriangleBody | src/main.cpp:50-70 | the same file without its final empty read splits the same way |
| GeometryScenarios.VertexValues | src/main.cpp:57-62 | a vertex line of five convertible tokens is well formed and gives those five values in order |
| GeometryScenarios.CornerValues | src/main.cpp:64-69 | a triangle line of three convertible tokens is well formed and gives those three corners in order |
| GeometryScenarios.ThreeVertices | src/main.cpp:56-62 | three well-formed vertex lines give their values one after another |
| GeometryScenarios.TriangleValues | src/main.cpp:37-70 | for the three-vertex triangle file, the index buffer is exactly [0, 1, 2] and the point buffer is the fifteen vertex values in file order |
| GeometryScenarios.VertexBlocks | src/main.cpp:56-62 | three vertex lines with known tokens give exactly those fifteen values |
| GeometryScenarios.CornerBlock | src/main.cpp:63-69 | the triangle line `0 1 2` gives exactly [0, 1, 2] |
| GeometryScenarios.LoadTriangleLines | src/main.cpp:22-74 | loading the three-vertex triangle file, for any lines with the tokens shown, returns true with the fifteen vertex values in file order and the indices [0, 1, 2] |
| GeometryScenarios.LoadTriangle | src/main.cpp:22-74 | the same for the lines written out as data tokens joined by single spaces |
| GeometryScenarios.LoadExampleTriangle | src/main.cpp:22-74 | the same with the literal numerals `-0.5`, `0.5`, `0.0`, `1.0` and `0 1 2` |
| GeometryScenarios.LoadTwice | src/main.cpp:29-30 | loading a well-formed file into vectors that each hold a stale value gives `Expected`, and loading it again into the same vectors gives the same buffers |
| GeometryScenarios.LoadEmpty | src/main.cpp:29-30 | reading an empty file succeeds and empties both vectors, which held one value each |
| GeometryScenarios.LoadUnmarked | src/main.cpp:37-70 | a file without section markers succeeds and gives two empty buffers |
| GeometryScenarios.LoadMissing | src/main.cpp:24-27 | a file that does not open gives false, and the vectors keep what they held |
| GeometryScenarios.LoadShortVertex | src/main.cpp:57-62 | a vertex line with four data tokens still gives five values, and the first four are its converted tokens |
| GeometryScenarios.ShortVertexValues | src/main.cpp:57-62 | the point buffer of `[points]` and a four-token data line has five entries, the first four converted |
| GeometryScenarios.ShortBlock | src/main.cpp:57-62 | a conforming block for a four-token line has five entries, the first four being the tokens' values |
| GeometryScenarios.OneVertexSection | src/main.cpp:50-62 | after `[points]`, a single data line is the only point line |
| GeometryScenarios.LoadExampleShortVertex | src/main.cpp:57-62 | the same with the literal numerals 1 to 4 |

## Left out

- `main`, `loadShaderModule` and the commented-out adapter and device callbacks are not modelled. They are WebGPU and GLFW calls, I/O and asynchronous callbacks, outside the loader.
- Opening the path is not modelled. The model takes whether the open succeeded as the `isOpen` input.
- `getline` and the `eof` test are not modelled. The model takes the lines they deliver, including the final empty read.
- An I/O error in the middle of the read is not modelled. With such an error, the C++ loop may never see end of file (with libstdc++ the error sets badbit and eof is never reached).
- How `std::istringstream >>` turns a token into a `float` or a `uint16_t` is not modelled. That covers rounding, the range check and accepted spellings. Conversion is the abstract `read` function.
- GeometryLoader.ExtractInto: does not pin down the value pushed after a failed extraction. It is whatever the failed extraction leaves: 0, a range limit, or the variable unchanged, possibly uninitialised. The model leaves it open. So the loader's contract fixes the values only where the extractions succeed, and `LoadTwice` asks for well-formed data lines.
- GeometryLoader.ExtractInto: reads one whole token per extraction. A real stream could stop partway through a token such as `1.5x`, convert `1.5`, and then fail on `x`. Here that token is simply one that `read` rejects.
- The vectors are always distinct objects here, since they hold different element types, so aliasing between them cannot arise.
