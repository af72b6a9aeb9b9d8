/**
 * The structured-data chunker (internal/chunkers/structured.go). CSV is split
 * by rows, each chunk repeating the header line; other non-JSON formats are
 * split by lines. Both loops are one builder: rows are appended to the current
 * chunk, which is flushed before a row that would push it past `maxSize`.
 */
module Structured {
  import opened Text
  import opened Chunks

  const Name: String := "structured"

  /** `StructuredMetadata.RecordIndex`. */
  datatype Meta = Meta(recordIndex: int)

  /** The branch `Chunk` takes for a MIME type. */
  datatype Format = Json | Csv | Lines

  /** `CanHandle`: an exact match on the MIME type; the language is not consulted. */
  predicate CanHandle(mimeType: String, language: String)
  {
    mimeType in ["application/json", "text/json", "application/x-yaml", "text/yaml", "text/x-yaml", "text/csv"]
  }

  /** The switch in `Chunk`: a substring test, JSON before CSV. */
  function Dispatch(mimeType: String): Format
  {
    if Contains(mimeType, "json") then Json
    else if Contains(mimeType, "csv") then Csv
    else Lines
  }

  lemma Occurs(s: String, sub: String, i: int)
    requires OccursAt(s, sub, i)
    ensures Contains(s, sub)
  {
  }

  /** The JSON, CSV and YAML types that `CanHandle` accepts reach the JSON, CSV and line branches. */
  lemma HandledDispatch(mimeType: String, language: String)
    requires CanHandle(mimeType, language)
    ensures Dispatch(mimeType) == Json <==> mimeType in ["application/json", "text/json"]
    ensures Dispatch(mimeType) == Csv <==> mimeType == "text/csv"
    ensures Dispatch(mimeType) == Lines <==> mimeType in ["application/x-yaml", "text/yaml", "text/x-yaml"]
  {
    if mimeType == "application/json" {
      Occurs(mimeType, "json", 12);
    } else if mimeType == "text/json" {
      Occurs(mimeType, "json", 5);
    } else if mimeType == "text/csv" {
      Occurs(mimeType, "csv", 5);
      NoJson(mimeType);
    } else {
      NoJson(mimeType);
      NoCsv(mimeType);
    }
  }

  /** A string without `'j'` does not contain `"json"`. */
  lemma NoJson(s: String)
    requires forall i :: 0 <= i < |s| ==> s[i] != 'j'
    ensures !Contains(s, "json")
  {
    forall i | 0 <= i <= |s| - 4 ensures !OccursAt(s, "json", i) {
      assert s[i..i + 4][0] == s[i];
    }
  }

  /** A string without `'v'` does not contain `"csv"`. */
  lemma NoCsv(s: String)
    requires forall i :: 0 <= i < |s| ==> s[i] != 'v'
    ensures !Contains(s, "csv")
  {
    forall i | 0 <= i <= |s| - 3 ensures !OccursAt(s, "csv", i) {
      assert s[i..i + 3][2] == s[i + 2];
    }
  }

  // ---------------------------------------------------------------------
  // The builder loop shared by `chunkCSV` (with the header) and `chunkLines`
  // (with an empty header).

  /** A line queued for a chunk: its index among the input lines and its text with the newline restored. */
  datatype Row = Row(line: int, text: String)

  /** The loop's variables: the chunks so far, the builder, the running offset and `recordIndex`. */
  datatype Build = Build(done: seq<Chunk<Meta>>, cur: String, offset: int, record: int)

  function Flush(b: Build): Chunk<Meta>
  {
    Chunk(|b.done|, b.cur, b.offset - |b.cur|, b.offset, Meta(b.record))
  }

  /** One row: flush the builder if the row would overflow it and it holds more than the header. */
  function Add(b: Build, r: Row, header: String, maxSize: int): Build
  {
    var b' :=
      if |b.cur| + |r.text| > maxSize && |b.cur| > |header|
      then Build(b.done + [Flush(b)], header, b.offset, r.line)
      else b;
    Build(b'.done, b'.cur + r.text, b'.offset + |r.text|, b'.record)
  }

  function Fill(rows: seq<Row>, header: String, maxSize: int): Build
  {
    if |rows| == 0 then Build([], header, |header|, 0)
    else Add(Fill(rows[..|rows| - 1], header, maxSize), rows[|rows| - 1], header, maxSize)
  }

  /** The chunks of `rows` under `header`, the last one flushed if it holds a row. */
  function Group(rows: seq<Row>, header: String, maxSize: int): seq<Chunk<Meta>>
  {
    var b := Fill(rows, header, maxSize);
    if |b.cur| > |header| then b.done + [Flush(b)] else b.done
  }

  /** The rows' texts, concatenated. */
  function Body(rows: seq<Row>): String
  {
    if |rows| == 0 then [] else Body(rows[..|rows| - 1]) + rows[|rows| - 1].text
  }

  /** The chunks' texts without their first `h` characters, concatenated. */
  function Bodies(chunks: seq<Chunk<Meta>>, h: nat): String
  {
    if |chunks| == 0 then []
    else
      var c := chunks[|chunks| - 1].content;
      Bodies(chunks[..|chunks| - 1], h) + (if h <= |c| then c[h..] else [])
  }

  predicate RowsNonEmpty(rows: seq<Row>)
  {
    forall k :: 0 <= k < |rows| ==> rows[k].text != []
  }

  /**
   * `c` opens with the header and a whole row `r`, is within `maxSize` unless
   * it is that row alone, and (`later`) records `r`'s line.
   */
  predicate OpensWith(c: String, record: int, r: Row, header: String, maxSize: int, later: bool)
  {
    HasPrefix(c, header + r.text) && (|c| <= maxSize || c == header + r.text) && (later ==> record == r.line)
  }

  predicate Opens(c: String, record: int, rows: seq<Row>, header: String, maxSize: int, later: bool)
  {
    exists r :: r in rows && OpensWith(c, record, r, header, maxSize, later)
  }

  predicate ChunkOpens(chunks: seq<Chunk<Meta>>, k: int, rows: seq<Row>, header: String, maxSize: int)
    requires 0 <= k < |chunks|
  {
    chunks[k].index == k && Opens(chunks[k].content, chunks[k].meta.recordIndex, rows, header, maxSize, k > 0)
  }

  /** What the builder holds: the text, the chunk shapes, and the offsets. */
  predicate Covered(b: Build, rows: seq<Row>, header: String)
  {
    && HasPrefix(b.cur, header)
    && (|b.cur| > |header| <==> |rows| > 0)
    && (|rows| == 0 ==> b.done == [])
    && b.offset == |header| + |Body(rows)|
    && Bodies(b.done, |header|) + b.cur[|header|..] == Body(rows)
  }

  predicate Shaped(b: Build, rows: seq<Row>, header: String, maxSize: int)
  {
    && (forall k :: 0 <= k < |b.done| ==> ChunkOpens(b.done, k, rows, header, maxSize))
    && (|b.cur| > |header| ==> Opens(b.cur, b.record, rows, header, maxSize, |b.done| > 0))
  }

  /** Chunk `k` starts where chunk `k - 1` ended, less the repeated header. */
  predicate Overlaps(chunks: seq<Chunk<Meta>>, k: int, h: int)
    requires 0 < k < |chunks|
  {
    chunks[k].start == chunks[k - 1].end - h
  }

  predicate Placed(b: Build, header: String)
  {
    && (forall k :: 0 <= k < |b.done| ==> b.done[k].end - b.done[k].start == |b.done[k].content|)
    && (forall k :: 0 < k < |b.done| ==> Overlaps(b.done, k, |header|))
    && (|b.done| > 0 ==> b.done[0].start == 0)
    && b.offset - |b.cur| == (if |b.done| == 0 then 0 else b.done[|b.done| - 1].end - |header|)
  }

  lemma BodySnoc(rows: seq<Row>, r: Row)
    ensures Body(rows + [r]) == Body(rows) + r.text
  {
    assert (rows + [r])[..|rows|] == rows;
  }

  lemma FillSnoc(rows: seq<Row>, r: Row, header: String, maxSize: int)
    ensures Fill(rows + [r], header, maxSize) == Add(Fill(rows, header, maxSize), r, header, maxSize)
  {
    assert (rows + [r])[..|rows|] == rows;
  }

  lemma BodiesSnoc(chunks: seq<Chunk<Meta>>, c: Chunk<Meta>, h: nat)
    requires h <= |c.content|
    ensures Bodies(chunks + [c], h) == Bodies(chunks, h) + c.content[h..]
  {
    assert (chunks + [c])[..|chunks|] == chunks;
  }

  lemma {:induction false} FillCovered(rows: seq<Row>, header: String, maxSize: int)
    requires RowsNonEmpty(rows)
    ensures Covered(Fill(rows, header, maxSize), rows, header)
  {
    if |rows| == 0 {
      assert header[|header|..] == [];
    } else {
      var init := rows[..|rows| - 1];
      FillCovered(init, header, maxSize);
      assert rows == init + [rows[|rows| - 1]];
      AddCovered(Fill(init, header, maxSize), init, rows[|rows| - 1], header, maxSize);
    }
  }

  lemma AddCovered(b: Build, rows: seq<Row>, r: Row, header: String, maxSize: int)
    requires Covered(b, rows, header) && r.text != []
    ensures Covered(Add(b, r, header, maxSize), rows + [r], header)
  {
    BodySnoc(rows, r);
    var h := |header|;
    if |b.cur| + |r.text| > maxSize && |b.cur| > h {
      BodiesSnoc(b.done, Flush(b), h);
      assert (header + r.text)[..h] == header;
      assert (header + r.text)[h..] == r.text;
    } else {
      assert (b.cur + r.text)[..h] == header;
      assert (b.cur + r.text)[h..] == b.cur[h..] + r.text;
    }
  }

  lemma {:induction false} FillPlaced(rows: seq<Row>, header: String, maxSize: int)
    ensures Placed(Fill(rows, header, maxSize), header)
  {
    if |rows| > 0 {
      var init := rows[..|rows| - 1];
      FillPlaced(init, header, maxSize);
      AddPlaced(Fill(init, header, maxSize), rows[|rows| - 1], header, maxSize);
    }
  }

  lemma AddPlaced(b: Build, r: Row, header: String, maxSize: int)
    requires Placed(b, header)
    ensures Placed(Add(b, r, header, maxSize), header)
  {
    if |b.cur| + |r.text| > maxSize && |b.cur| > |header| {
      var done := b.done + [Flush(b)];
      forall k | 0 < k < |done| ensures Overlaps(done, k, |header|) {
        if k < |b.done| {
          assert Overlaps(b.done, k, |header|);
        }
      }
    }
  }

  lemma OpensGrows(c: String, record: int, rows: seq<Row>, r: Row, header: String, maxSize: int, later: bool)
    requires Opens(c, record, rows, header, maxSize, later)
    ensures Opens(c, record, rows + [r], header, maxSize, later)
  {
    var w :| w in rows && OpensWith(c, record, w, header, maxSize, later);
    assert w in rows + [r];
  }

  lemma {:induction false} FillShaped(rows: seq<Row>, header: String, maxSize: int)
    requires RowsNonEmpty(rows)
    ensures Shaped(Fill(rows, header, maxSize), rows, header, maxSize)
  {
    if |rows| > 0 {
      var init := rows[..|rows| - 1];
      var r := rows[|rows| - 1];
      FillShaped(init, header, maxSize);
      FillCovered(init, header, maxSize);
      assert rows == init + [r];
      AddShaped(Fill(init, header, maxSize), init, r, header, maxSize);
    }
  }

  lemma AddShaped(b: Build, rows: seq<Row>, r: Row, header: String, maxSize: int)
    requires Shaped(b, rows, header, maxSize) && Covered(b, rows, header) && r.text != []
    ensures Shaped(Add(b, r, header, maxSize), rows + [r], header, maxSize)
  {
    var rows' := rows + [r];
    var flush := |b.cur| + |r.text| > maxSize && |b.cur| > |header|;
    var done := if flush then b.done + [Flush(b)] else b.done;
    forall k | 0 <= k < |done| ensures ChunkOpens(done, k, rows', header, maxSize) {
      if k < |b.done| {
        assert ChunkOpens(b.done, k, rows, header, maxSize);
        OpensGrows(b.done[k].content, b.done[k].meta.recordIndex, rows, r, header, maxSize, k > 0);
      } else {
        OpensGrows(b.cur, b.record, rows, r, header, maxSize, |b.done| > 0);
      }
    }
    var b' := Add(b, r, header, maxSize);
    assert r in rows';
    if flush {
      assert b'.cur == header + r.text;
      assert OpensWith(b'.cur, b'.record, r, header, maxSize, true);
    } else if |b.cur| > |header| {
      AddKeepsOpen(b, rows, r, header, maxSize);
    } else {
      assert b.cur == header;
      assert OpensWith(b'.cur, b'.record, r, header, maxSize, |b'.done| > 0) by {
        assert b'.cur == header + r.text;
        assert |b'.cur| <= maxSize || b'.cur == header + r.text;
      }
    }
  }

  /** Extending a builder that already holds a row keeps its first row. */
  lemma AddKeepsOpen(b: Build, rows: seq<Row>, r: Row, header: String, maxSize: int)
    requires |b.cur| > |header| && Opens(b.cur, b.record, rows, header, maxSize, |b.done| > 0)
    requires |b.cur| + |r.text| <= maxSize
    ensures Opens(b.cur + r.text, b.record, rows + [r], header, maxSize, |b.done| > 0)
  {
    var w :| w in rows && OpensWith(b.cur, b.record, w, header, maxSize, |b.done| > 0);
    var n := |header + w.text|;
    assert (b.cur + r.text)[..n] == b.cur[..n];
    assert w in rows + [r];
    assert OpensWith(b.cur + r.text, b.record, w, header, maxSize, |b.done| > 0);
  }

  /**
   * The builder loop: every chunk opens with the header and a whole row and
   * exceeds `maxSize` only as that single row; a chunk after the first records
   * the line its rows begin at; each chunk's offsets span its text, the first
   * starts at 0 and each later one starts where the previous ended less the
   * header it repeats; and the chunks without their headers reproduce the rows.
   */
  lemma GroupSound(rows: seq<Row>, header: String, maxSize: int)
    requires RowsNonEmpty(rows)
    ensures var chunks := Group(rows, header, maxSize);
      && (|chunks| == 0 <==> |rows| == 0)
      && AllOpen(chunks, rows, header, maxSize)
      && Laid(chunks, |header|)
      && Bodies(chunks, |header|) == Body(rows)
  {
    var b := Fill(rows, header, maxSize);
    FillCovered(rows, header, maxSize);
    FillPlaced(rows, header, maxSize);
    FillShaped(rows, header, maxSize);
    if |b.cur| > |header| {
      var chunks := b.done + [Flush(b)];
      BodiesSnoc(b.done, Flush(b), |header|);
      forall k | 0 < k < |chunks| ensures Overlaps(chunks, k, |header|) {
        if k < |b.done| {
          assert Overlaps(b.done, k, |header|);
        }
      }
      forall k | 0 <= k < |chunks| ensures ChunkOpens(chunks, k, rows, header, maxSize) {
        if k < |b.done| {
          assert ChunkOpens(b.done, k, rows, header, maxSize);
        }
      }
    } else {
      assert b.cur[|header|..] == [];
    }
  }

  /** Every chunk opens with the header and a row (`ChunkOpens`). */
  predicate AllOpen(chunks: seq<Chunk<Meta>>, rows: seq<Row>, header: String, maxSize: int)
  {
    forall k :: 0 <= k < |chunks| ==> ChunkOpens(chunks, k, rows, header, maxSize)
  }

  /**
   * Each chunk's offsets span its text, the first starts at 0, and each later
   * one starts `h` before the previous one ends.
   */
  predicate Laid(chunks: seq<Chunk<Meta>>, h: int)
  {
    && (forall k :: 0 <= k < |chunks| ==> chunks[k].end - chunks[k].start == |chunks[k].content|)
    && (|chunks| > 0 ==> chunks[0].start == 0)
    && (forall k :: 0 < k < |chunks| ==> Overlaps(chunks, k, h))
  }

  /** One iteration of either loop. */
  method AddRow(chunks: seq<Chunk<Meta>>, cur: String, offset: int, record: int, r: Row, header: String, maxSize: int)
    returns (chunks': seq<Chunk<Meta>>, cur': String, offset': int, record': int)
    ensures Build(chunks', cur', offset', record') == Add(Build(chunks, cur, offset, record), r, header, maxSize)
  {
    chunks', cur', offset', record' := chunks, cur, offset, record;
    if |cur'| + |r.text| > maxSize && |cur'| > |header| {
      chunks' := chunks' + [Chunk(|chunks'|, cur', offset' - |cur'|, offset', Meta(record'))];
      cur' := header;
      record' := r.line;
    }
    cur' := cur' + r.text;
    offset' := offset' + |r.text|;
  }

  // ---------------------------------------------------------------------
  // chunkLines

  /** Every line with its newline restored; `chunkLines` leaves `RecordIndex` at 0. */
  function LineRows(lines: seq<String>): (r: seq<Row>)
    ensures |r| == |lines| && RowsNonEmpty(r)
  {
    seq(|lines|, j requires 0 <= j < |lines| => Row(0, lines[j] + "\n"))
  }

  function ChunkLines(content: String, maxSize: int): seq<Chunk<Meta>>
  {
    Group(LineRows(Split(content, "\n")), [], maxSize)
  }

  /** The loop of `chunkLines`. */
  method ChunkLinesLoop(content: String, maxSize: int) returns (chunks: seq<Chunk<Meta>>)
    ensures chunks == ChunkLines(content, maxSize)
  {
    var lines := Split(content, "\n");
    ghost var rows := LineRows(lines);
    chunks := [];
    var cur: String := [];
    var offset := 0;
    var record := 0;
    var i := 0;
    while i < |lines|
      invariant 0 <= i <= |lines|
      invariant Fill(rows[..i], [], maxSize) == Build(chunks, cur, offset, record)
    {
      var r := Row(0, lines[i] + "\n");
      assert rows[..i + 1] == rows[..i] + [r];
      FillSnoc(rows[..i], r, [], maxSize);
      chunks, cur, offset, record := AddRow(chunks, cur, offset, record, r, [], maxSize);
      i := i + 1;
    }
    assert rows[..i] == rows;
    if |cur| > 0 {
      chunks := chunks + [Chunk(|chunks|, cur, offset - |cur|, offset, Meta(record))];
    }
  }

  lemma {:induction false} LineBody(lines: seq<String>)
    requires |lines| > 0
    ensures Body(LineRows(lines)) == Join(lines, "\n") + "\n"
  {
    var rows := LineRows(lines);
    var n := |lines|;
    assert rows[..n - 1] == LineRows(lines[..n - 1]);
    if n > 1 {
      LineBody(lines[..n - 1]);
    } else {
      assert rows[..0] == [];
    }
  }

  lemma {:induction false} BodiesWhole(chunks: seq<Chunk<Meta>>)
    ensures Bodies(chunks, 0) == Texts(chunks)
  {
    if |chunks| > 0 {
      BodiesWhole(chunks[..|chunks| - 1]);
      assert chunks[|chunks| - 1].content[0..] == chunks[|chunks| - 1].content;
    }
  }

  /**
   * `chunkLines`: the chunks concatenate to the content with a newline after
   * every line, their offsets are contiguous from 0 and span their texts, and a
   * chunk exceeds `maxSize` only when it is one line.
   */
  lemma ChunkLinesSound(content: String, maxSize: int)
    ensures var chunks := ChunkLines(content, maxSize);
      && Sequential(chunks) && Widths(chunks) && Contiguous(chunks)
      && |chunks| > 0 && chunks[0].start == 0
      && Texts(chunks) == content + "\n"
      && forall k :: 0 <= k < |chunks| ==>
           |chunks[k].content| <= maxSize || exists line :: line in Split(content, "\n") && chunks[k].content == line + "\n"
  {
    var lines := Split(content, "\n");
    var rows := LineRows(lines);
    var chunks := ChunkLines(content, maxSize);
    GroupSound(rows, [], maxSize);
    LineBody(lines);
    JoinSplit(content, "\n");
    BodiesWhole(chunks);
    forall k | 0 < k < |chunks| ensures Follows(chunks, k) {
      assert Overlaps(chunks, k, 0);
    }
    forall k | 0 <= k < |chunks|
      ensures chunks[k].index == k
      ensures |chunks[k].content| <= maxSize || exists line :: line in lines && chunks[k].content == line + "\n"
    {
      assert ChunkOpens(chunks, k, rows, [], maxSize);
      var r :| r in rows && OpensWith(chunks[k].content, chunks[k].meta.recordIndex, r, [], maxSize, k > 0);
      var j :| 0 <= j < |rows| && rows[j] == r;
      assert lines[j] in lines && [] + r.text == lines[j] + "\n";
    }
  }

  // ---------------------------------------------------------------------
  // chunkCSV

  /** The header: the first line and its newline, unless that line is empty. */
  function Header(lines: seq<String>): String
    requires |lines| > 0
  {
    if |lines[0]| > 0 then lines[0] + "\n" else []
  }

  /** `strings.TrimSpace(line) == ""`: the line is all whitespace (see `Text.TrimSpace`). */
  predicate BlankLine(line: String)
  {
    IsBlank(line)
  }

  /** Lines `from..to` that are not blank, each with its index and newline. */
  function DataRows(lines: seq<String>, from: nat, to: nat): (r: seq<Row>)
    requires from <= to <= |lines|
    ensures RowsNonEmpty(r)
  {
    if to == from then []
    else
      DataRows(lines, from, to - 1)
      + (if BlankLine(lines[to - 1]) then [] else [Row(to - 1, lines[to - 1] + "\n")])
  }

  function FirstData(lines: seq<String>): nat
    requires |lines| > 0
  {
    if |lines[0]| > 0 then 1 else 0
  }

  function CsvRows(lines: seq<String>): seq<Row>
    requires |lines| > 0
  {
    DataRows(lines, FirstData(lines), |lines|)
  }

  function CsvChunks(lines: seq<String>, maxSize: int): seq<Chunk<Meta>>
    requires |lines| > 0
  {
    Group(CsvRows(lines), Header(lines), maxSize)
  }

  function ChunkCsv(content: String, maxSize: int): seq<Chunk<Meta>>
  {
    CsvChunks(Split(content, "\n"), maxSize)
  }

  /** `chunkCSV`. */
  method ChunkCsvLoop(content: String, maxSize: int) returns (chunks: seq<Chunk<Meta>>)
    ensures chunks == ChunkCsv(content, maxSize)
  {
    var lines := Split(content, "\n");
    chunks := CsvLines(lines, maxSize);
  }

  /** The row loop of `chunkCSV` over the content's lines. */
  method CsvLines(lines: seq<String>, maxSize: int) returns (chunks: seq<Chunk<Meta>>)
    requires |lines| > 0
    ensures chunks == CsvChunks(lines, maxSize)
  {
    var header: String := [];
    var startIdx: nat := 0;
    if |lines[0]| > 0 {
      header := lines[0] + "\n";
      startIdx := 1;
    }
    chunks := [];
    var cur := header;
    var offset := |header|;
    var record := 0;
    var i := startIdx;
    while i < |lines|
      invariant startIdx <= i <= |lines|
      invariant CsvAt(lines, startIdx, i, header, maxSize, Build(chunks, cur, offset, record))
    {
      chunks, cur, offset, record := CsvRow(lines, startIdx, i, chunks, cur, offset, record, header, maxSize);
      i := i + 1;
    }
    if |cur| > |header| {
      chunks := chunks + [Chunk(|chunks|, cur, offset - |cur|, offset, Meta(record))];
    }
  }

  /** The loop's variables after the lines before `i`. */
  predicate CsvAt(lines: seq<String>, startIdx: nat, i: nat, header: String, maxSize: int, b: Build)
    requires startIdx <= i <= |lines|
  {
    Fill(DataRows(lines, startIdx, i), header, maxSize) == b
  }

  /** One line of `chunkCSV`: blank lines are skipped, the others added as rows. */
  method CsvRow(lines: seq<String>, startIdx: nat, i: nat, chunks: seq<Chunk<Meta>>, cur: String, offset: int, record: int,
                header: String, maxSize: int)
    returns (chunks': seq<Chunk<Meta>>, cur': String, offset': int, record': int)
    requires startIdx <= i < |lines|
    requires CsvAt(lines, startIdx, i, header, maxSize, Build(chunks, cur, offset, record))
    ensures CsvAt(lines, startIdx, i + 1, header, maxSize, Build(chunks', cur', offset', record'))
  {
    chunks', cur', offset', record' := chunks, cur, offset, record;
    var line := lines[i];
    DataRowsNext(lines, startIdx, i);
    if TrimSpace(line) != [] {
      var r := Row(i, line + "\n");
      FillSnoc(DataRows(lines, startIdx, i), r, header, maxSize);
      chunks', cur', offset', record' := AddRow(chunks, cur, offset, record, r, header, maxSize);
    }
  }

  lemma DataRowsNext(lines: seq<String>, from: nat, i: nat)
    requires from <= i < |lines|
    ensures TrimSpace(lines[i]) == [] ==> DataRows(lines, from, i + 1) == DataRows(lines, from, i)
    ensures TrimSpace(lines[i]) != [] ==> DataRows(lines, from, i + 1) == DataRows(lines, from, i) + [Row(i, lines[i] + "\n")]
  {
    assert DataRows(lines, from, i) + [] == DataRows(lines, from, i);
  }

  lemma {:induction false} DataRowsIn(lines: seq<String>, from: nat, to: nat, r: Row)
    requires from <= to <= |lines| && r in DataRows(lines, from, to)
    ensures from <= r.line < to && r.text == lines[r.line] + "\n" && !BlankLine(lines[r.line])
  {
    if to > from {
      if r !in DataRows(lines, from, to - 1) {
        assert !BlankLine(lines[to - 1]) && r == Row(to - 1, lines[to - 1] + "\n");
      } else {
        DataRowsIn(lines, from, to - 1, r);
      }
    }
  }

  lemma {:induction false} DataRowsEmpty(lines: seq<String>, from: nat, to: nat)
    requires from <= to <= |lines|
    ensures DataRows(lines, from, to) == [] <==> (forall i :: from <= i < to ==> BlankLine(lines[i]))
  {
    if to > from {
      DataRowsEmpty(lines, from, to - 1);
    }
  }

  /**
   * `chunkCSV`: every chunk opens with the header followed by a non-blank data
   * line, and a chunk after the first records that line's index; there are no
   * chunks exactly when no data line is non-blank (a header-only file gives
   * none); and the chunks without their headers reproduce the non-blank data
   * lines in order.
   */
  lemma CsvChunksSound(lines: seq<String>, maxSize: int)
    requires |lines| > 0
    ensures var chunks := CsvChunks(lines, maxSize);
      && Sequential(chunks)
      && (|chunks| == 0 <==> forall i :: FirstData(lines) <= i < |lines| ==> BlankLine(lines[i]))
      && (forall k :: 0 <= k < |chunks| ==> CsvOpens(lines, chunks, k))
      && Laid(chunks, |Header(lines)|)
      && Bodies(chunks, |Header(lines)|) == Body(CsvRows(lines))
  {
    var header := Header(lines);
    var rows := CsvRows(lines);
    var chunks := CsvChunks(lines, maxSize);
    GroupSound(rows, header, maxSize);
    DataRowsEmpty(lines, FirstData(lines), |lines|);
    forall k | 0 <= k < |chunks|
      ensures chunks[k].index == k && CsvOpens(lines, chunks, k)
    {
      assert ChunkOpens(chunks, k, rows, header, maxSize);
      CsvChunkOpens(lines, chunks, k, maxSize);
    }
  }

  /**
   * CSV chunk `k` opens with the header and a non-blank data line, and a chunk
   * after the first records that line's index.
   */
  predicate CsvOpens(lines: seq<String>, chunks: seq<Chunk<Meta>>, k: int)
    requires |lines| > 0 && 0 <= k < |chunks|
  {
    exists i :: FirstData(lines) <= i < |lines| && !BlankLine(lines[i])
      && HasPrefix(chunks[k].content, Header(lines) + lines[i] + "\n")
      && (k > 0 ==> chunks[k].meta.recordIndex == i)
  }

  lemma CsvChunkOpens(lines: seq<String>, chunks: seq<Chunk<Meta>>, k: nat, maxSize: int)
    requires |lines| > 0 && k < |chunks|
    requires ChunkOpens(chunks, k, CsvRows(lines), Header(lines), maxSize)
    ensures CsvOpens(lines, chunks, k)
  {
    var header := Header(lines);
    var r :| r in CsvRows(lines) && OpensWith(chunks[k].content, chunks[k].meta.recordIndex, r, header, maxSize, k > 0);
    DataRowsIn(lines, FirstData(lines), |lines|, r);
    assert header + r.text == header + lines[r.line] + "\n";
  }

  /** A CSV file that is one line, its header, gives no chunks. */
  lemma HeaderOnly(content: String, maxSize: int)
    requires !Contains(content, "\n")
    ensures ChunkCsv(content, maxSize) == []
  {
    var i := IndexFrom(content, "\n", 0);
    assert i == -1;
    var lines := Split(content, "\n");
    assert lines == [content];
    CsvChunksSound(lines, maxSize);
    if content == [] {
      assert BlankLine(lines[0]);
    }
  }

  // ---------------------------------------------------------------------
  // Chunk

  /**
   * `Chunk`. The JSON branch depends on `encoding/json`; its chunks are taken
   * as the input `json`.
   */
  function ChunkStructured(content: String, mimeType: String, maxSize: int, json: seq<Chunk<Meta>>): (r: ChunkResult<Meta>)
    ensures |content| == 0 ==> r == EmptyResult(Name)
    ensures r.chunkerUsed == Name && r.totalChunks == |r.chunks| && r.originalSize == |content|
    ensures |content| > 0 && Dispatch(mimeType) == Lines ==> Texts(r.chunks) == content + "\n"
  {
    if |content| == 0 then EmptyResult(Name)
    else
      var size := if maxSize <= 0 then DefaultMaxChunkSize else maxSize;
      var chunks :=
        match Dispatch(mimeType)
        case Json => json
        case Csv => ChunkCsv(content, size)
        case Lines => (ChunkLinesSound(content, size); ChunkLines(content, size));
      ChunkResult(chunks, |chunks|, Name, |content|)
  }
}
