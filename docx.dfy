/**
 * The DOCX chunker (internal/chunkers/docx.go). The parsed `document.xml`
 * and the style-to-level map of `styles.xml` are inputs: paragraphs become
 * headings or body paragraphs, tables become CSV text after all paragraphs,
 * and the shared heading-section builder and chunking loop do the rest.
 */
module Docx {
  import opened Text
  import opened Chunks
  import opened Wrappers
  import opened Outline

  const Name: String := "docx"

  const MimeType: String := "application/vnd.openxmlformats-officedocument.wordprocessingml.document"

  /** `CanHandle`. */
  predicate CanHandle(mimeType: String, language: String)
  {
    mimeType == MimeType || HasSuffix(ToLower(language), ".docx")
  }

  /** A `.docx` name is accepted whatever its case. */
  lemma CanHandleAnyCase()
    ensures CanHandle([], "Report.DOCX")
  {
    var l := ToLower("Report.DOCX");
    assert l[6] == '.' && l[7] == 'd' && l[8] == 'o' && l[9] == 'c' && l[10] == 'x';
    assert l[6..] == ".docx";
  }

  /** A `.doc` name with another MIME type is not. */
  lemma CannotHandleDoc()
    ensures !CanHandle("text/plain", "report.doc")
  {
    var l := ToLower("report.doc");
    assert l[5..][0] == l[5] == 't';
  }

  /** `docxParagraph`: its style ID and the texts of its runs. */
  datatype Paragraph = Paragraph(style: String, runs: seq<seq<String>>)

  datatype Cell = Cell(paragraphs: seq<Paragraph>)

  datatype Row = Row(cells: seq<Cell>)

  datatype Table = Table(rows: seq<Row>)

  /** `docxDocument`: the body's paragraphs and tables. */
  datatype Document = Document(paragraphs: seq<Paragraph>, tables: seq<Table>)

  /** The run texts, end to end. */
  function Concat(parts: seq<String>): String
  {
    if |parts| == 0 then [] else Concat(parts[..|parts| - 1]) + parts[|parts| - 1]
  }

  function RunsText(runs: seq<seq<String>>): String
  {
    if |runs| == 0 then [] else RunsText(runs[..|runs| - 1]) + Concat(runs[|runs| - 1])
  }

  /** `extractParagraphText`: the runs' texts, trimmed. */
  function ParagraphText(p: Paragraph): String
  {
    TrimSpace(RunsText(p.runs))
  }

  /** The two loops of `extractParagraphText`. */
  method ExtractParagraphText(p: Paragraph) returns (text: String)
    ensures text == ParagraphText(p)
  {
    var b: String := [];
    for i := 0 to |p.runs|
      invariant b == RunsText(p.runs[..i])
    {
      assert p.runs[..i + 1][..i] == p.runs[..i];
      var run := p.runs[i];
      ghost var before := b;
      for j := 0 to |run|
        invariant b == before + Concat(run[..j])
      {
        assert run[..j + 1][..j] == run[..j];
        b := b + run[j];
      }
      assert run[..|run|] == run;
    }
    assert p.runs[..|p.runs|] == p.runs;
    text := TrimSpace(b);
  }

  // ---------------------------------------------------------------------
  // escapeCSV

  /** `strings.ContainsAny(value, ",\"\n")` */
  predicate NeedsQuotes(v: String)
  {
    exists i :: 0 <= i < |v| && (v[i] == ',' || v[i] == '"' || v[i] == '\n')
  }

  /** `strings.ReplaceAll(value, "\"", "\"\"")` */
  function Doubled(v: String): (r: String)
    ensures |r| >= |v|
  {
    if |v| == 0 then []
    else (if v[0] == '"' then "\"\"" else [v[0]]) + Doubled(v[1..])
  }

  /** `escapeCSV`. */
  function Escape(v: String): String
  {
    if NeedsQuotes(v) then "\"" + Doubled(v) + "\"" else v
  }

  /** A value is left as it is exactly when it holds no comma, quote or newline. */
  lemma EscapeUnchanged(v: String)
    ensures Escape(v) == v <==> !NeedsQuotes(v)
    ensures NeedsQuotes(v) ==> Escape(v) == "\"" + Doubled(v) + "\""
  {
    if NeedsQuotes(v) {
      assert |Escape(v)| == |Doubled(v)| + 2;
    }
  }

  /** CSV's reading of a field: a quoted field loses its quotes and has each doubled quote halved. */
  function Undoubled(s: String): String
  {
    if |s| == 0 then []
    else if |s| >= 2 && s[0] == '"' && s[1] == '"' then "\"" + Undoubled(s[2..])
    else [s[0]] + Undoubled(s[1..])
  }

  function Unescape(s: String): String
  {
    if |s| >= 2 && s[0] == '"' && s[|s| - 1] == '"' then Undoubled(s[1..|s| - 1]) else s
  }

  lemma {:induction false} UndoubleDoubled(v: String)
    ensures Undoubled(Doubled(v)) == v
    decreases |v|
  {
    if |v| > 0 {
      UndoubleDoubled(v[1..]);
      var d := Doubled(v);
      if v[0] == '"' {
        assert d == "\"\"" + Doubled(v[1..]);
        assert d[2..] == Doubled(v[1..]);
      } else {
        assert d == [v[0]] + Doubled(v[1..]);
        assert d[1..] == Doubled(v[1..]);
      }
    }
  }

  /** Reading an escaped field back gives the cell text. */
  lemma UnescapeEscape(v: String)
    ensures Unescape(Escape(v)) == v
  {
    if NeedsQuotes(v) {
      var e := "\"" + Doubled(v) + "\"";
      assert e[1..|e| - 1] == Doubled(v);
      UndoubleDoubled(v);
    } else if |v| > 0 {
      assert v[0] != '"';
    }
  }

  lemma {:induction false} DoubledNoNewline(v: String)
    requires forall i :: 0 <= i < |v| ==> v[i] != '\n'
    ensures forall i :: 0 <= i < |Doubled(v)| ==> Doubled(v)[i] != '\n'
    decreases |v|
  {
    if |v| > 0 {
      DoubledNoNewline(v[1..]);
    }
  }

  // ---------------------------------------------------------------------
  // tableToCSV

  /** The non-empty paragraph texts of a cell. */
  function Texts(paragraphs: seq<Paragraph>): (r: seq<String>)
    ensures forall k :: 0 <= k < |r| ==> r[k] != []
  {
    if |paragraphs| == 0 then []
    else
      var t := ParagraphText(paragraphs[|paragraphs| - 1]);
      Texts(paragraphs[..|paragraphs| - 1]) + (if t == [] then [] else [t])
  }

  /** A cell's text: its non-empty paragraph texts joined by single spaces. */
  function CellText(c: Cell): String
  {
    Join(Texts(c.paragraphs), " ")
  }

  function Fields(r: Row): (f: seq<String>)
    ensures |f| == |r.cells| && forall k :: 0 <= k < |f| ==> f[k] == Escape(CellText(r.cells[k]))
  {
    seq(|r.cells|, k requires 0 <= k < |r.cells| => Escape(CellText(r.cells[k])))
  }

  /** A row's line, without its newline. */
  function Line(r: Row): String
  {
    Join(Fields(r), ",")
  }

  /** `tableToCSV`. */
  function Csv(rows: seq<Row>): String
  {
    if |rows| == 0 then [] else Csv(rows[..|rows| - 1]) + Line(rows[|rows| - 1]) + "\n"
  }

  function Lines(rows: seq<Row>): (ls: seq<String>)
    ensures |ls| == |rows| && forall k :: 0 <= k < |ls| ==> ls[k] == Line(rows[k])
  {
    seq(|rows|, k requires 0 <= k < |rows| => Line(rows[k]))
  }

  predicate NoNewline(s: String)
  {
    forall i :: 0 <= i < |s| ==> s[i] != '\n'
  }

  lemma {:induction false} JoinNoNewline(parts: seq<String>, sep: String)
    requires NoNewline(sep) && forall k :: 0 <= k < |parts| ==> NoNewline(parts[k])
    ensures NoNewline(Join(parts, sep))
    decreases |parts|
  {
    if |parts| > 1 {
      JoinNoNewline(parts[..|parts| - 1], sep);
    }
  }

  lemma LineNoNewline(r: Row)
    requires forall k :: 0 <= k < |r.cells| ==> NoNewline(CellText(r.cells[k]))
    ensures NoNewline(Line(r))
  {
    var f := Fields(r);
    forall k | 0 <= k < |f| ensures NoNewline(f[k]) {
      var v := CellText(r.cells[k]);
      if NeedsQuotes(v) {
        DoubledNoNewline(v);
      }
    }
    JoinNoNewline(f, ",");
  }

  lemma {:induction false} CsvJoin(rows: seq<Row>)
    requires |rows| > 0
    ensures Csv(rows) == Join(Lines(rows), "\n") + "\n"
    decreases |rows|
  {
    hide Line, Fields;
    var init := rows[..|rows| - 1];
    var last := Line(rows[|init|]);
    assert Csv(rows) == Csv(init) + last + "\n";
    var ls := Lines(rows);
    if |init| > 0 {
      CsvJoin(init);
      assert ls[..|ls| - 1] == Lines(init);
      assert Join(ls, "\n") == Join(ls[..|ls| - 1], "\n") + "\n" + ls[|ls| - 1];
    } else {
      assert Join(ls, "\n") == ls[0];
    }
  }

  /**
   * The CSV text has one line per row, each ending in a newline and holding
   * the row's escaped cell texts separated by commas; no line holds a newline
   * of its own unless a cell text does.
   */
  lemma CsvLines(rows: seq<Row>)
    ensures |rows| == 0 ==> Csv(rows) == []
    ensures |rows| > 0 ==> Csv(rows) == Join(Lines(rows), "\n") + "\n"
    ensures forall k :: 0 <= k < |rows| ==>
      (forall j :: 0 <= j < |rows[k].cells| ==> NoNewline(CellText(rows[k].cells[j]))) ==> NoNewline(Lines(rows)[k])
  {
    if |rows| > 0 {
      CsvJoin(rows);
    }
    forall k | 0 <= k < |rows| && (forall j :: 0 <= j < |rows[k].cells| ==> NoNewline(CellText(rows[k].cells[j])))
      ensures NoNewline(Lines(rows)[k])
    {
      LineNoNewline(rows[k]);
    }
  }

  lemma TextsStep(ps: seq<Paragraph>, i: int)
    requires 0 <= i < |ps|
    ensures var t := ParagraphText(ps[i]);
      Texts(ps[..i + 1]) == Texts(ps[..i]) + (if t == [] then [] else [t])
  {
    assert ps[..i + 1][..i] == ps[..i];
  }

  lemma JoinStep(ts: seq<String>, t: String, text: String)
    requires text == Join(ts, " ") && (|ts| == 0 <==> |text| == 0)
    ensures Join(ts + [t], " ") == (if |text| > 0 then text + " " else text) + t
  {
    if |ts| > 0 {
      assert (ts + [t])[..|ts|] == ts;
    } else {
      assert ts + [t] == [t];
    }
  }

  /** The loop over a cell's paragraphs. */
  method CellTextOf(c: Cell) returns (text: String)
    ensures text == CellText(c)
  {
    assert Texts(c.paragraphs[..0]) == [] && Join([], " ") == [];
    hide Texts, Join, ParagraphText;
    ghost var ts: seq<String> := [];
    text := [];
    for i := 0 to |c.paragraphs|
      invariant ts == Texts(c.paragraphs[..i]) && text == Join(ts, " ")
      invariant |ts| == 0 <==> |text| == 0
    {
      TextsStep(c.paragraphs, i);
      var t := ExtractParagraphText(c.paragraphs[i]);
      if t != [] {
        JoinStep(ts, t, text);
        if |text| > 0 {
          text := text + " ";
        }
        text := text + t;
        ts := ts + [t];
      }
    }
    assert c.paragraphs[..|c.paragraphs|] == c.paragraphs;
  }

  lemma CsvStep(rows: seq<Row>, i: int)
    requires 0 <= i < |rows|
    ensures Csv(rows[..i + 1]) == Csv(rows[..i]) + Join(Fields(rows[i]), ",") + "\n"
  {
    assert rows[..i + 1][..i] == rows[..i];
  }

  /** The escaped cell texts of one row. */
  method RowFields(row: Row) returns (cells: seq<String>)
    ensures cells == Fields(row)
  {
    hide CellText, Escape;
    cells := [];
    for j := 0 to |row.cells|
      invariant |cells| == j && forall k :: 0 <= k < j ==> cells[k] == Escape(CellText(row.cells[k]))
    {
      var text := CellTextOf(row.cells[j]);
      cells := cells + [Escape(text)];
    }
  }

  /** `tableToCSV`. */
  method TableToCsv(t: Table) returns (csv: String)
    ensures csv == Csv(t.rows)
  {
    assert Csv(t.rows[..0]) == [];
    hide Csv, Join, Fields;
    csv := [];
    for i := 0 to |t.rows|
      invariant csv == Csv(t.rows[..i])
    {
      CsvStep(t.rows, i);
      var cells := RowFields(t.rows[i]);
      csv := csv + Join(cells, ",") + "\n";
    }
    assert t.rows[..|t.rows|] == t.rows;
  }

  // ---------------------------------------------------------------------
  // extractSections and Chunk

  /** `styles[styleID]`, with Go's zero value for a missing key. */
  function LevelOf(styles: map<String, int>, style: String): int
  {
    if style in styles then styles[style] else 0
  }

  /** A paragraph as the builder sees it: a heading when its style has a level, a paragraph when not blank. */
  function ItemFrom(level: int, text: String): (r: seq<Item>)
    ensures Leveled(r)
  {
    if level > 0 then [Heading(level, text)] else if TrimSpace(text) != [] then [Para(text)] else []
  }

  function ParagraphItems(paras: seq<Paragraph>, styles: map<String, int>): (r: seq<Item>)
    ensures Leveled(r)
  {
    if |paras| == 0 then []
    else
      var p := paras[|paras| - 1];
      ParagraphItems(paras[..|paras| - 1], styles) + ItemFrom(LevelOf(styles, p.style), ParagraphText(p))
  }

  /** The tables, after all paragraphs, as CSV paragraphs when not blank. */
  function TableItems(tables: seq<Table>): (r: seq<Item>)
    ensures Leveled(r)
  {
    if |tables| == 0 then []
    else
      var csv := Csv(tables[|tables| - 1].rows);
      TableItems(tables[..|tables| - 1]) + (if TrimSpace(csv) != [] then [Para(csv)] else [])
  }

  function Items(doc: Document, styles: map<String, int>): (r: seq<Item>)
    ensures Leveled(r)
  {
    ParagraphItems(doc.paragraphs, styles) + TableItems(doc.tables)
  }

  /**
   * `Chunk`. `size` is the length of the file; `doc` is the parsed
   * `document.xml`, `None` when the file is not a ZIP archive or the part is
   * missing or malformed; `styles` is the map read from `styles.xml`, empty
   * when that part cannot be read.
   */
  function ChunkDocx(size: nat, maxSize: int, doc: Option<Document>, styles: map<String, int>): Result<ChunkResult<Doc>>
  {
    if size == 0 then Ok(EmptyResult(Name))
    else if doc.None? then Err("failed to open DOCX")
    else
      var chunks := ChunkItems(Items(doc.value, styles), Limit(maxSize));
      Ok(ChunkResult(chunks, |chunks|, Name, size))
  }

  /**
   * Empty input gives no chunks; otherwise the chunks are numbered 0, 1, ...
   * in order without overlap within the document's text, and only a single
   * paragraph of a section may exceed the limit.
   */
  lemma ChunkDocxSound(size: nat, maxSize: int, doc: Option<Document>, styles: map<String, int>)
    ensures size == 0 ==> ChunkDocx(size, maxSize, doc, styles) == Ok(EmptyResult(Name))
    ensures size > 0 && doc.None? ==> ChunkDocx(size, maxSize, doc, styles).Err?
    ensures size > 0 && doc.Some? ==>
      var items := Items(doc.value, styles);
      var r := ChunkDocx(size, maxSize, doc, styles);
      && r.Ok? && r.value.totalChunks == |r.value.chunks| && r.value.originalSize == size
      && Placed(r.value.chunks, 0, |Flat(items)|, 0)
      && AllWithin(r.value.chunks, Parts(SectionsOf(items)), Limit(maxSize))
  {
    if size > 0 && doc.Some? {
      ChunkItemsSound(Items(doc.value, styles), Limit(maxSize));
    }
  }

  /** The loop over the paragraphs. */
  method ParagraphItemsOf(paras: seq<Paragraph>, styles: map<String, int>) returns (items: seq<Item>)
    ensures items == ParagraphItems(paras, styles)
  {
    items := [];
    for i := 0 to |paras|
      invariant items == ParagraphItems(paras[..i], styles)
    {
      assert paras[..i + 1][..i] == paras[..i];
      var text := ExtractParagraphText(paras[i]);
      var level := if paras[i].style in styles then styles[paras[i].style] else 0;
      items := items + ItemFrom(level, text);
    }
    assert paras[..|paras|] == paras;
  }

  lemma TableItemsStep(tables: seq<Table>, i: int)
    requires 0 <= i < |tables|
    ensures var csv := Csv(tables[i].rows);
      TableItems(tables[..i + 1]) == TableItems(tables[..i]) + (if TrimSpace(csv) != [] then [Para(csv)] else [])
  {
    assert tables[..i + 1][..i] == tables[..i];
  }

  /** The loop over the tables. */
  method TableItemsOf(tables: seq<Table>) returns (items: seq<Item>)
    ensures items == TableItems(tables)
  {
    assert TableItems(tables[..0]) == [];
    hide TableItems, Csv, TrimSpace;
    items := [];
    for i := 0 to |tables|
      invariant items == TableItems(tables[..i])
    {
      TableItemsStep(tables, i);
      var csv := TableToCsv(tables[i]);
      if TrimSpace(csv) != [] {
        items := items + [Para(csv)];
      }
    }
    assert tables[..|tables|] == tables;
  }

  /** `Chunk`. */
  method Chunk(size: nat, maxSize: int, doc: Option<Document>, styles: map<String, int>) returns (r: Result<ChunkResult<Doc>>)
    ensures r == ChunkDocx(size, maxSize, doc, styles)
  {
    if size == 0 {
      return Ok(EmptyResult(Name));
    }
    if doc.None? {
      return Err("failed to open DOCX");
    }
    var m := if maxSize <= 0 then DefaultMaxChunkSize else maxSize;
    var paraItems := ParagraphItemsOf(doc.value.paragraphs, styles);
    var tableItems := TableItemsOf(doc.value.tables);
    var sections := ExtractSections(paraItems + tableItems);
    var chunks := ChunkAll(Parts(sections), m);
    return Ok(ChunkResult(chunks, |chunks|, Name, size));
  }
}
