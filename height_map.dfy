/**
 * The height-map loader in `main` of surface_viewer.cpp: the grid width (`cols`) and height
 * (`rows`) are read from the first two lines of a comma-separated file, two more lines are
 * skipped, and then every tenth row and every tenth column of the grid is turned into a point.
 *
 * The file is the sequence of its lines, and a line past the last is taken to be empty. The
 * C++ `std::getline` fails there: when the file ends with a newline its first failed read
 * erases `line` to "", as here; when the last line has no newline, `line` keeps that last
 * line. Since every sampled row must have a token for each sampled column, the second case
 * differs from the model only when no column is sampled. Points
 * carry grid indices (row, column) and the parsed height; the conversion of indices to world
 * units (`dx`, `dy`) is floating-point scaling left out here.
 */
module HeightMap {
  import opened Tokenizer
  import opened Decimal

  /** Lines before the first grid row: the two size lines and two more that are skipped. */
  const HEADER_LINES: nat := 4

  datatype GridPoint = GridPoint(row: int, col: int, height: real)

  /** Line `k` of the file, or the empty line past its end. */
  function Line(file: seq<string>, k: nat): string {
    if k < |file| then file[k] else ""
  }

  /** The line read for the `k`-th sampled grid row (grid row `10 * k`). */
  function DataLine(file: seq<string>, k: nat): string {
    Line(file, HEADER_LINES + k)
  }

  /** `split(line, ",")[1]` exists: the header line has at least two comma-separated fields. */
  predicate HasHeaderField(line: string) {
    |Split(line, ",")| >= 2
  }

  /** `parse_num<int>(split(line, ",")[1].substr(1))`; the field is non-empty, so `substr(1)` is safe. */
  function HeaderField(line: string): int
    requires HasHeaderField(line)
  {
    SplitTokensClean(line, ",");
    var field := Split(line, ",")[1];
    ParseInt(field[1..])
  }

  /** A field without commas is a single token. */
  lemma LastField(field: string)
    requires |field| > 0 && ',' !in field
    ensures Split(field, ",") == [field]
  {
    SplitNoChar(field, ',');
  }

  /** A field without commas, followed by a comma, is the first token. */
  lemma FirstField(field: string, rest: string)
    requires |field| > 0 && ',' !in field
    ensures Split(field + "," + rest, ",") == [field] + Split(rest, ",")
  {
    SplitAtChar(field, ',', rest);
  }

  /** A size line `<key>,<field>` (maybe followed by `,` and more fields) has `field` second. */
  lemma SecondField(key: string, field: string, tail: string)
    requires |key| > 0 && |field| > 0 && ',' !in key && ',' !in field
    requires tail == [] || tail[0] == ','
    ensures |Split(key + "," + field + tail, ",")| >= 2
    ensures Split(key + "," + field + tail, ",")[1] == field
  {
    var b := field + tail;
    assert key + "," + field + tail == key + "," + b;
    FirstField(key, b);
    FieldThenTail(field, tail);
  }

  /** The tokens of `field + tail` start with `field`. */
  lemma FieldThenTail(field: string, tail: string)
    requires |field| > 0 && ',' !in field
    requires tail == [] || tail[0] == ','
    ensures |Split(field + tail, ",")| >= 1 && Split(field + tail, ",")[0] == field
  {
    if tail == [] {
      assert field + tail == field;
      LastField(field);
    } else {
      assert tail == "," + tail[1..];
      assert field + tail == field + "," + tail[1..];
      FirstField(field, tail[1..]);
    }
  }

  /** What `<<` writes for an `int`, after any character but a comma, holds no comma. */
  lemma FieldWithoutComma(c: char, n: int)
    requires c != ','
    ensures ',' !in [c] + IntToString(n)
  {
    var field := [c] + IntToString(n);
    IntToStringAlphabet(n);
    assert forall k :: 1 <= k < |field| ==> field[k] == IntToString(n)[k - 1];
  }

  /**
   * A size line `<key>,<c><n>` (optionally followed by more comma-separated fields) yields `n`:
   * the first character of the second field, typically a blank, is dropped before parsing.
   */
  lemma HeaderFieldOf(key: string, c: char, n: int, tail: string)
    requires |key| > 0 && ',' !in key && c != ','
    requires INT_MIN <= n <= INT_MAX
    requires tail == [] || tail[0] == ','
    ensures HasHeaderField(key + "," + [c] + IntToString(n) + tail)
    ensures HeaderField(key + "," + [c] + IntToString(n) + tail) == n
  {
    var field := [c] + IntToString(n);
    var line := key + "," + field + tail;
    assert key + "," + [c] + IntToString(n) + tail == line;
    FieldWithoutComma(c, n);
    SecondField(key, field, tail);
    FieldValue(c, n);
    assert HeaderField(line) == ParseInt(field[1..]);
  }

  /** Dropping the first character of `<c><n>` and parsing gives `n`. */
  lemma FieldValue(c: char, n: int)
    requires INT_MIN <= n <= INT_MAX
    ensures ParseInt(([c] + IntToString(n))[1..]) == n
  {
    assert ([c] + IntToString(n))[1..] == IntToString(n) + [];
    ParseIntRoundTrip(n, []);
  }

  /** How many of the indices 0, 10, 20, ... lie below `n`: `ceil(n / 10)`, or 0 when `n <= 0`. */
  function SampleCount(n: int): nat {
    if n <= 0 then 0 else (n + 9) / 10
  }

  /** A multiple of 10 below `n` is at most the last one, and its tenth is below `SampleCount(n)`. */
  lemma SampleInRange(j: int, n: int)
    requires 0 <= j < n && j % 10 == 0
    ensures j <= (n - 1) / 10 * 10
    ensures j / 10 < SampleCount(n)
  {
  }

  /** The next sampled index after `j`. */
  lemma NextSample(j: int)
    requires j % 10 == 0
    ensures (j + 10) % 10 == 0 && (j + 10) / 10 == j / 10 + 1
  {
  }

  /** Every sampled column `j` (a multiple of 10 below `cols`) indexes one of the `tokens`. */
  predicate RowCovers(tokens: seq<string>, cols: int) {
    cols <= 0 || (cols - 1) / 10 * 10 < |tokens|
  }

  /** The tokens of a data line: `split(line, ", ")`. */
  function RowTokens(line: string): seq<string> {
    Split(line, ", ")
  }

  /** Every sampled row reads a data line that has a token for every sampled column. */
  predicate DataCovers(file: seq<string>, rows: int, cols: int) {
    forall k: nat :: k < SampleCount(rows) ==> RowCovers(RowTokens(DataLine(file, k)), cols)
  }

  /** The points of grid row `i`, for the sampled columns `j`, `j + 10`, ... below `cols`. */
  function RowPoints(i: int, tokens: seq<string>, cols: int, parse: DoubleParser, j: nat): seq<GridPoint>
    requires j % 10 == 0 && RowCovers(tokens, cols)
    decreases cols - j
  {
    if j >= cols then []
    else [GridPoint(i, j, ParseDouble(parse, tokens[j]))] + RowPoints(i, tokens, cols, parse, j + 10)
  }

  /** The points of the sampled rows `i`, `i + 10`, ... below `rows`; row `i` reads data line `i / 10`. */
  function GridPoints(file: seq<string>, rows: int, cols: int, parse: DoubleParser, i: nat): seq<GridPoint>
    requires i % 10 == 0 && DataCovers(file, rows, cols)
    decreases rows - i
  {
    if i >= rows then []
    else
      assert i / 10 < SampleCount(rows);
      RowPoints(i, RowTokens(DataLine(file, i / 10)), cols, parse, 0)
        + GridPoints(file, rows, cols, parse, i + 10)
  }

  /** `parse_num<int>(split(line, ",")[1].substr(1))`, the expression that reads each size line. */
  method ReadSize(line: string) returns (n: int)
    requires HasHeaderField(line)
    ensures n == HeaderField(line)
  {
    var fields := SplitTokens(line, ",");
    SplitTokensClean(line, ",");
    n := ParseInt(fields[1][1..]);
  }

  /** The inner loop: one point per sampled column `j` of grid row `i`, height from token `c[j]`. */
  method SampleRow(i: int, c: seq<string>, cols: int, parse: DoubleParser) returns (row: seq<GridPoint>)
    requires RowCovers(c, cols)
    ensures row == RowPoints(i, c, cols, parse, 0)
  {
    row := [];
    var j := 0;
    while j < cols
      invariant 0 <= j && j % 10 == 0
      invariant row + RowPoints(i, c, cols, parse, j) == RowPoints(i, c, cols, parse, 0)
      decreases cols - j
    {
      SampleInRange(j, cols);
      row := row + [GridPoint(i, j, ParseDouble(parse, c[j]))];
      NextSample(j);
      j := j + 10;
    }
  }

  /**
   * The down-sampling loops: for each sampled row `i` the next line (from line 4 on) is read
   * and split on ", ", and one point per sampled column is appended.
   */
  method SampleGrid(file: seq<string>, rows: int, cols: int, parse: DoubleParser) returns (points: seq<GridPoint>)
    requires DataCovers(file, rows, cols)
    ensures points == GridPoints(file, rows, cols, parse, 0)
  {
    var next := HEADER_LINES;
    points := [];
    var i := 0;
    while i < rows
      invariant 0 <= i && i % 10 == 0
      invariant next == HEADER_LINES + i / 10
      invariant points + GridPoints(file, rows, cols, parse, i) == GridPoints(file, rows, cols, parse, 0)
      decreases rows - i
    {
      var line := Line(file, next);
      next := next + 1;
      var row := SampleDataLine(file, rows, cols, parse, i, line);
      ghost var later := GridPoints(file, rows, cols, parse, i + 10);
      assert points + row + later == points + (row + later);
      points := points + row;
      NextSample(i);
      i := i + 10;
    }
  }

  /** The body of the row loop: split the line read for grid row `i` and sample its columns. */
  method SampleDataLine(file: seq<string>, rows: int, cols: int, parse: DoubleParser, i: nat, line: string)
    returns (row: seq<GridPoint>)
    requires i % 10 == 0 && DataCovers(file, rows, cols) && i < rows
    requires line == DataLine(file, i / 10)
    ensures GridPoints(file, rows, cols, parse, i) == row + GridPoints(file, rows, cols, parse, i + 10)
  {
    GridPointsUnfold(file, rows, cols, parse, i);
    var c := SplitTokens(line, ", ");
    row := SampleRow(i, c, cols, parse);
  }

  /** A sampled row below `rows` contributes its row's points ahead of the later rows. */
  lemma GridPointsUnfold(file: seq<string>, rows: int, cols: int, parse: DoubleParser, i: nat)
    requires i % 10 == 0 && DataCovers(file, rows, cols) && i < rows
    ensures i / 10 < SampleCount(rows)
    ensures RowCovers(RowTokens(DataLine(file, i / 10)), cols)
    ensures GridPoints(file, rows, cols, parse, i)
      == RowPoints(i, RowTokens(DataLine(file, i / 10)), cols, parse, 0) + GridPoints(file, rows, cols, parse, i + 10)
  {
    SampleInRange(i, rows);
  }

  /**
   * The loader in `main`: `cols` from line 0 and `rows` from line 1, lines 2 and 3 skipped,
   * then the sampled grid. It yields `ceil(rows / 10) * ceil(cols / 10)` points.
   */
  method LoadHeightMap(file: seq<string>, parse: DoubleParser) returns (cols: int, rows: int, points: seq<GridPoint>)
    requires HasHeaderField(Line(file, 0)) && HasHeaderField(Line(file, 1))
    requires DataCovers(file, HeaderField(Line(file, 1)), HeaderField(Line(file, 0)))
    ensures cols == HeaderField(Line(file, 0)) && rows == HeaderField(Line(file, 1))
    ensures points == GridPoints(file, rows, cols, parse, 0)
    ensures |points| == SampleCount(rows) * SampleCount(cols)
  {
    cols := ReadSize(Line(file, 0));
    rows := ReadSize(Line(file, 1));
    points := SampleGrid(file, rows, cols, parse);
    GridPointsCount(file, rows, cols, parse, 0);
  }

  lemma {:induction false} RowPointsCount(i: int, tokens: seq<string>, cols: int, parse: DoubleParser, j: nat)
    requires j % 10 == 0 && RowCovers(tokens, cols)
    decreases cols - j
    ensures |RowPoints(i, tokens, cols, parse, j)| == SampleCount(cols - j)
  {
    if j < cols {
      RowPointsCount(i, tokens, cols, parse, j + 10);
    }
  }

  /** The loader produces `ceil(rows / 10) * ceil(cols / 10)` points. */
  lemma {:induction false} GridPointsCount(file: seq<string>, rows: int, cols: int, parse: DoubleParser, i: nat)
    requires i % 10 == 0 && DataCovers(file, rows, cols)
    decreases rows - i
    ensures |GridPoints(file, rows, cols, parse, i)| == SampleCount(rows - i) * SampleCount(cols)
  {
    if i < rows {
      assert i / 10 < SampleCount(rows);
      RowPointsCount(i, RowTokens(DataLine(file, i / 10)), cols, parse, 0);
      GridPointsCount(file, rows, cols, parse, i + 10);
      var a := SampleCount(rows - (i + 10));
      var b := SampleCount(cols);
      assert SampleCount(rows - i) == a + 1;
      assert (a + 1) * b == b + a * b;
    }
  }

  /** Point `p` is the sample at grid index (`p.row`, `p.col`) of the file, both multiples of 10. */
  predicate SampledFrom(file: seq<string>, rows: int, cols: int, parse: DoubleParser, p: GridPoint)
    requires DataCovers(file, rows, cols)
  {
    && 0 <= p.row < rows && p.row % 10 == 0
    && 0 <= p.col < cols && p.col % 10 == 0
    && (assert p.row / 10 < SampleCount(rows);
        var tokens := RowTokens(DataLine(file, p.row / 10));
        p.height == ParseDouble(parse, tokens[p.col]))
  }

  lemma {:induction false} RowPointsSampled(file: seq<string>, rows: int, cols: int, parse: DoubleParser, i: nat, j: nat)
    requires DataCovers(file, rows, cols)
    requires 0 <= i < rows && i % 10 == 0 && j % 10 == 0
    requires RowCovers(RowTokens(DataLine(file, i / 10)), cols)
    decreases cols - j
    ensures forall p :: p in RowPoints(i, RowTokens(DataLine(file, i / 10)), cols, parse, j) ==>
      p.row == i && j <= p.col && SampledFrom(file, rows, cols, parse, p)
  {
    if j < cols {
      RowPointsSampled(file, rows, cols, parse, i, j + 10);
    }
  }

  /** Every point is the sample of a grid index whose row and column are multiples of 10. */
  lemma {:induction false} GridPointsSampled(file: seq<string>, rows: int, cols: int, parse: DoubleParser, i: nat)
    requires i % 10 == 0 && DataCovers(file, rows, cols)
    decreases rows - i
    ensures forall p :: p in GridPoints(file, rows, cols, parse, i) ==>
      i <= p.row && SampledFrom(file, rows, cols, parse, p)
  {
    if i < rows {
      assert i / 10 < SampleCount(rows);
      RowPointsSampled(file, rows, cols, parse, i, 0);
      GridPointsSampled(file, rows, cols, parse, i + 10);
    }
  }

  /** `p` comes before `q` in row-major order. */
  predicate Before(p: GridPoint, q: GridPoint) {
    p.row < q.row || (p.row == q.row && p.col < q.col)
  }

  predicate RowMajor(ps: seq<GridPoint>) {
    forall a, b :: 0 <= a < b < |ps| ==> Before(ps[a], ps[b])
  }

  lemma RowMajorConcat(xs: seq<GridPoint>, ys: seq<GridPoint>)
    requires RowMajor(xs) && RowMajor(ys)
    requires forall p, q :: p in xs && q in ys ==> Before(p, q)
    ensures RowMajor(xs + ys)
  {
    var zs := xs + ys;
    forall a, b | 0 <= a < b < |zs|
      ensures Before(zs[a], zs[b])
    {
      if b < |xs| {
        assert zs[a] == xs[a] && zs[b] == xs[b];
      } else if a >= |xs| {
        assert zs[a] == ys[a - |xs|] && zs[b] == ys[b - |xs|];
      } else {
        assert zs[a] in xs && zs[b] in ys;
      }
    }
  }

  lemma {:induction false} RowPointsRowMajor(i: int, tokens: seq<string>, cols: int, parse: DoubleParser, j: nat)
    requires j % 10 == 0 && RowCovers(tokens, cols)
    decreases cols - j
    ensures RowMajor(RowPoints(i, tokens, cols, parse, j))
    ensures forall p :: p in RowPoints(i, tokens, cols, parse, j) ==> p.row == i && j <= p.col
  {
    if j < cols {
      RowPointsRowMajor(i, tokens, cols, parse, j + 10);
      var head := GridPoint(i, j, ParseDouble(parse, tokens[j]));
      RowMajorConcat([head], RowPoints(i, tokens, cols, parse, j + 10));
    }
  }

  /** The points are inserted in row-major order, each grid index once. */
  lemma {:induction false} GridPointsRowMajor(file: seq<string>, rows: int, cols: int, parse: DoubleParser, i: nat)
    requires i % 10 == 0 && DataCovers(file, rows, cols)
    decreases rows - i
    ensures RowMajor(GridPoints(file, rows, cols, parse, i))
    ensures forall p :: p in GridPoints(file, rows, cols, parse, i) ==> i <= p.row
  {
    if i < rows {
      assert i / 10 < SampleCount(rows);
      var tokens := RowTokens(DataLine(file, i / 10));
      RowPointsRowMajor(i, tokens, cols, parse, 0);
      GridPointsRowMajor(file, rows, cols, parse, i + 10);
      RowMajorConcat(RowPoints(i, tokens, cols, parse, 0), GridPoints(file, rows, cols, parse, i + 10));
    }
  }
}
