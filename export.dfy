/** The export page (export.js) without its download plumbing: the empty guard
    of both exports, the CSV text and the reported count. The local date text
    of a timestamp and the JSON serialisation are parameters. */
module Export {
  import opened Strings
  import opened Bookmarks

  /** What an export produces: nothing when there are no bookmarks, otherwise
      the file's text and the count the confirmation reports. */
  datatype Outcome = NothingToExport | Exported(text: string, count: nat)

  /** export.js `exportAsJSON`: the guard, then the serialised list and its length. */
  method ExportAsJson(bookmarks: seq<Bookmark>, serialize: seq<Bookmark> -> string) returns (outcome: Outcome)
    ensures outcome.NothingToExport? <==> bookmarks == []
    ensures outcome.Exported? ==> outcome.text == serialize(bookmarks) && outcome.count == |bookmarks|
  {
    if |bookmarks| == 0 {
      return NothingToExport;
    }
    var dataStr := serialize(bookmarks);
    return Exported(dataStr, |bookmarks|);
  }

  // ----- the CSV text -----

  const HeaderLine: string := "Title,URL,Category,Platform,Folder,Tags,Date"
  const Header: string := HeaderLine + "\n"

  function Quote(field: string): string {
    "\"" + field + "\""
  }

  /** The Tags column: the tags joined with "; " (no tags, an empty field). */
  function TagsField(tags: seq<string>): string {
    Join(tags, "; ")
  }

  /** Quoted cells joined with ",": `"a","b",…`. */
  function Cells(fields: seq<string>): string {
    if fields == [] then "" else Quote(fields[0]) + MoreCells(fields[1..])
  }

  /** Each field quoted and preceded by ",". */
  function MoreCells(fields: seq<string>): string {
    if fields == [] then "" else "," + Quote(fields[0]) + MoreCells(fields[1..])
  }

  /** The seven columns of a bookmark's row, in header order. */
  function Fields(b: Bookmark, date: string): (fields: seq<string>)
    ensures |fields| == 7
  {
    [b.title, b.url, b.category, b.platform, b.folder, TagsField(b.tags), date]
  }

  /** One row without its line break: the seven columns quoted, inserted
      verbatim, and separated by commas. It stays on one line when no column
      holds a line break. */
  function Row(b: Bookmark, date: string): (line: string)
    ensures FieldsFree(b, date, '\n') ==> '\n' !in line
  {
    SingleLine(b, date);
    Cells(Fields(b, date))
  }

  /** Lines each ended by a line break. */
  function Lines(lines: seq<string>): string {
    if lines == [] then "" else lines[0] + "\n" + Lines(lines[1..])
  }

  /** The rows of `bookmarks`, without their line breaks, in stored order. */
  function RowLines(bookmarks: seq<Bookmark>, dateOf: int -> string): (lines: seq<string>)
    ensures |lines| == |bookmarks|
  {
    seq(|bookmarks|, k requires 0 <= k < |bookmarks| => Row(bookmarks[k], dateOf(bookmarks[k].timestamp)))
  }

  /** The CSV file: the header and one line per bookmark in stored order. */
  function CsvText(bookmarks: seq<Bookmark>, dateOf: int -> string): (text: string)
    ensures |Header| <= |text| && text[..|Header|] == Header
  {
    Header + Lines(RowLines(bookmarks, dateOf))
  }

  lemma {:induction false} LinesSnoc(lines: seq<string>, line: string)
    ensures Lines(lines + [line]) == Lines(lines) + line + "\n"
  {
    if lines != [] {
      assert (lines + [line])[1..] == lines[1..] + [line];
      LinesSnoc(lines[1..], line);
    } else {
      assert [] + [line] == [line];
    }
  }

  /** One more bookmark adds its row as one more line. */
  lemma RowLinesSnoc(bookmarks: seq<Bookmark>, i: nat, dateOf: int -> string)
    requires i < |bookmarks|
    ensures Lines(RowLines(bookmarks[..i + 1], dateOf))
         == Lines(RowLines(bookmarks[..i], dateOf)) + Row(bookmarks[i], dateOf(bookmarks[i].timestamp)) + "\n"
  {
    var b := bookmarks[i];
    assert RowLines(bookmarks[..i + 1], dateOf) == RowLines(bookmarks[..i], dateOf) + [Row(b, dateOf(b.timestamp))];
    LinesSnoc(RowLines(bookmarks[..i], dateOf), Row(b, dateOf(b.timestamp)));
  }

  /** export.js `exportAsCSV`: the guard, then the header and one row per
      bookmark appended in a loop; the count is the number of bookmarks. */
  method ExportAsCsv(bookmarks: seq<Bookmark>, dateOf: int -> string) returns (outcome: Outcome)
    ensures outcome.NothingToExport? <==> bookmarks == []
    ensures outcome.Exported? ==> outcome.text == CsvText(bookmarks, dateOf) && outcome.count == |bookmarks|
  {
    if |bookmarks| == 0 {
      return NothingToExport;
    }
    var csv := Header;
    for i := 0 to |bookmarks|
      invariant csv == Header + Lines(RowLines(bookmarks[..i], dateOf))
    {
      var bm := bookmarks[i];
      var date := dateOf(bm.timestamp);
      RowLinesSnoc(bookmarks, i, dateOf);
      ghost var done := Lines(RowLines(bookmarks[..i], dateOf));
      assert csv + Row(bm, date) + "\n" == Header + (done + Row(bm, date) + "\n");
      csv := csv + Row(bm, date) + "\n";
    }
    assert bookmarks[..|bookmarks|] == bookmarks;
    return Exported(csv, |bookmarks|);
  }

  // ----- lines -----

  predicate Free(fields: seq<string>, c: char) {
    forall k :: 0 <= k < |fields| ==> c !in fields[k]
  }

  /** No column of the bookmark's row, and none of its tags, holds `c`. */
  predicate FieldsFree(b: Bookmark, date: string, c: char) {
    && c !in b.title && c !in b.url && c !in b.category && c !in b.platform && c !in b.folder
    && Free(b.tags, c) && c !in date
  }

  lemma {:induction false} JoinFree(ps: seq<string>, sep: string, c: char)
    requires Free(ps, c) && c !in sep
    ensures c !in Join(ps, sep)
  {
    if |ps| > 1 {
      JoinFree(ps[1..], sep, c);
    }
  }

  lemma FieldsAreFree(b: Bookmark, date: string, c: char)
    requires FieldsFree(b, date, c) && c !in "; "
    ensures Free(Fields(b, date), c)
  {
    JoinFree(b.tags, "; ", c);
  }

  lemma {:induction false} MoreCellsFree(fields: seq<string>, c: char)
    requires Free(fields, c) && c !in ",\""
    ensures c !in MoreCells(fields)
  {
    if fields != [] {
      MoreCellsFree(fields[1..], c);
    }
  }

  lemma CellsFree(fields: seq<string>, c: char)
    requires Free(fields, c) && c !in ",\""
    ensures c !in Cells(fields)
  {
    if fields != [] {
      MoreCellsFree(fields[1..], c);
    }
  }

  /** Lines without line breaks of their own split back into those lines and
      the empty text after the last line break. */
  lemma {:induction false} LinesSplit(lines: seq<string>)
    requires Free(lines, '\n')
    ensures Split(Lines(lines), '\n') == lines + [""]
  {
    if lines != [] {
      LinesSplit(lines[1..]);
      SplitPiece(lines[0], Lines(lines[1..]), '\n');
    }
  }

  lemma SingleLine(b: Bookmark, date: string)
    ensures FieldsFree(b, date, '\n') ==> '\n' !in Cells(Fields(b, date))
  {
    if FieldsFree(b, date, '\n') {
      FieldsAreFree(b, date, '\n');
      CellsFree(Fields(b, date), '\n');
    }
  }

  lemma RowLinesFree(bookmarks: seq<Bookmark>, dateOf: int -> string)
    requires forall k :: 0 <= k < |bookmarks| ==> FieldsFree(bookmarks[k], dateOf(bookmarks[k].timestamp), '\n')
    ensures Free(RowLines(bookmarks, dateOf), '\n')
  {
    var lines := RowLines(bookmarks, dateOf);
    forall k | 0 <= k < |lines|
      ensures '\n' !in lines[k]
    {
      var b := bookmarks[k];
      assert lines[k] == Row(b, dateOf(b.timestamp));
    }
  }

  /** When no column holds a line break, the text splits into the header, one
      line per bookmark in stored order, and nothing after the last line break:
      one more line break than there are bookmarks. */
  lemma CsvLines(bookmarks: seq<Bookmark>, dateOf: int -> string)
    requires forall k :: 0 <= k < |bookmarks| ==> FieldsFree(bookmarks[k], dateOf(bookmarks[k].timestamp), '\n')
    ensures Split(CsvText(bookmarks, dateOf), '\n') == [HeaderLine] + RowLines(bookmarks, dateOf) + [""]
    ensures CountChar(CsvText(bookmarks, dateOf), '\n') == |bookmarks| + 1
  {
    RowLinesFree(bookmarks, dateOf);
    TextSplit(RowLines(bookmarks, dateOf));
  }

  lemma TextSplit(lines: seq<string>)
    requires Free(lines, '\n')
    ensures Split(Header + Lines(lines), '\n') == [HeaderLine] + lines + [""]
  {
    assert Header + Lines(lines) == HeaderLine + ['\n'] + Lines(lines);
    LinesSplit(lines);
    SplitPiece(HeaderLine, Lines(lines), '\n');
  }

  // ----- reading a row back -----

  /** The columns of a line read back: the pieces between quote characters at
      odd positions. */
  function DecodeRow(line: string): seq<string> {
    var pieces := Split(line, '"');
    seq((|pieces| - 1) / 2, k requires 0 <= k < (|pieces| - 1) / 2 => pieces[2 * k + 1])
  }

  /** Each field preceded by ",". */
  function Commas(fields: seq<string>): (r: seq<string>)
    ensures |r| == 2 * |fields|
  {
    if fields == [] then [] else [",", fields[0]] + Commas(fields[1..])
  }

  /** In `Commas`, field `k` sits at position 2k+1. */
  lemma {:induction false} CommasAt(fields: seq<string>, k: nat)
    requires k < |fields|
    ensures Commas(fields)[2 * k] == "," && Commas(fields)[2 * k + 1] == fields[k]
  {
    if k > 0 {
      CommasAt(fields[1..], k - 1);
      var j := k - 1;
      assert 2 * k == 2 * j + 2;
    }
  }

  lemma QuotedPiece(sep: string, f: string, rest: string)
    requires '"' !in sep && '"' !in f
    ensures Split(sep + Quote(f) + rest, '"') == [sep, f] + Split(rest, '"')
  {
    assert sep + Quote(f) + rest == sep + ['"'] + (f + ['"'] + rest);
    SplitPiece(sep, f + ['"'] + rest, '"');
    SplitPiece(f, rest, '"');
  }

  lemma {:induction false} MoreCellsSplit(fields: seq<string>)
    requires Free(fields, '"')
    ensures Split(MoreCells(fields), '"') == Commas(fields) + [""]
  {
    if fields != [] {
      MoreCellsSplit(fields[1..]);
      QuotedPiece(",", fields[0], MoreCells(fields[1..]));
    }
  }

  /** Quoted cells without quote characters of their own split into an empty
      piece, the fields with "," between them, and an empty piece. */
  lemma CellsSplit(fields: seq<string>)
    requires |fields| >= 1 && Free(fields, '"')
    ensures Split(Cells(fields), '"') == ["", fields[0]] + Commas(fields[1..]) + [""]
  {
    var more := MoreCells(fields[1..]);
    MoreCellsSplit(fields[1..]);
    assert Cells(fields) == "" + Quote(fields[0]) + more;
    QuotedPiece("", fields[0], more);
    assert ["", fields[0]] + (Commas(fields[1..]) + [""]) == ["", fields[0]] + Commas(fields[1..]) + [""];
  }

  /** Reading quoted cells back gives the fields, when none holds a quote character. */
  lemma DecodeCells(fields: seq<string>)
    requires |fields| >= 1 && Free(fields, '"')
    ensures DecodeRow(Cells(fields)) == fields
  {
    CellsSplit(fields);
    var n := |fields|;
    var pieces := Split(Cells(fields), '"');
    var commas := Commas(fields[1..]);
    var decoded := DecodeRow(Cells(fields));
    assert |pieces| == 2 * n + 1;
    assert (|pieces| - 1) / 2 == n;
    forall k | 0 <= k < n
      ensures decoded[k] == fields[k]
    {
      assert decoded[k] == pieces[2 * k + 1];
      if k > 0 {
        var j := k - 1;
        CommasAt(fields[1..], j);
        assert 2 * k + 1 == 2 * j + 1 + 2;
        assert pieces[2 * k + 1] == commas[2 * j + 1];
      }
    }
  }

  /** When no column holds a quote character, every row reads back as its seven columns. */
  lemma RowRoundTrip(b: Bookmark, date: string)
    requires FieldsFree(b, date, '"')
    ensures DecodeRow(Row(b, date)) == Fields(b, date)
  {
    FieldsAreFree(b, date, '"');
    DecodeCells(Fields(b, date));
  }

  /** Columns are inserted verbatim: a title holding a quote character does not
      read back as the title. */
  lemma QuoteInTitleBreaksRow(b: Bookmark, date: string)
    requires '"' in b.title
    ensures DecodeRow(Row(b, date)) != Fields(b, date)
  {
    var fields := Fields(b, date);
    var line := Row(b, date);
    var x := b.title + "\"" + MoreCells(fields[1..]);
    assert line == ['"'] + x;
    assert line[1..] == x;
    CountCharIn(x, '"');
    assert CountChar(line, '"') >= 2;
    var pieces := Split(line, '"');
    assert |DecodeRow(line)| >= 1 && DecodeRow(line)[0] == pieces[1];
    assert '"' !in pieces[1];
  }
}
