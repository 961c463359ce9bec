/** `CSVExport.makeCSV`: a "date,value" header, then one line per reading in
    ascending date order, joined with newlines and ended by one.

    The date formatter ("yyyy-MM-dd" in UTC) and the value formatter
    (`String(format: "%.3f")`) are parameters. */
module CsvExport {
  import opened Basics
  import opened Sorting
  import opened CsvText
  import opened Readings
  import opened CsvImport

  datatype Formatters = Formatters(date: real -> string, value: real -> string)

  const Header: string := "date,value"

  function ReadingDate(r: Reading): real { r.date }

  function DataLine(r: Reading, f: Formatters): string
  {
    f.date(r.date) + "," + f.value(r.value)
  }

  /** One line per reading, in the given order. */
  function DataLines(rs: seq<Reading>, f: Formatters): (lines: seq<string>)
    ensures |lines| == |rs|
    ensures forall i :: 0 <= i < |rs| ==> lines[i] == DataLine(rs[i], f)
  {
    if rs == [] then [] else [DataLine(rs[0], f)] + DataLines(rs[1..], f)
  }

  function ExportLines(rs: seq<Reading>, f: Formatters): seq<string>
  {
    [Header] + DataLines(SortBy(rs, ReadingDate), f)
  }

  /** The text `makeCSV` returns. */
  function ExportText(rs: seq<Reading>, f: Formatters): string
  {
    Join(ExportLines(rs, f), '\n') + "\n"
  }

  method MakeCsv(readings: seq<Reading>, f: Formatters) returns (csv: string)
    ensures csv == ExportText(readings, f)
  {
    var lines := [Header];
    var sorted := SortBy(readings, ReadingDate);
    for i := 0 to |sorted|
      invariant lines == [Header] + DataLines(sorted[..i], f)
    {
      var dateStr := f.date(sorted[i].date);
      var valueStr := f.value(sorted[i].value);
      assert sorted[..i + 1] == sorted[..i] + [sorted[i]];
      DataLinesOfSnoc(sorted[..i], sorted[i], f);
      lines := lines + [dateStr + "," + valueStr];
    }
    assert sorted[..|sorted|] == sorted;
    csv := Join(lines, '\n') + "\n";
  }

  /** One more reading adds its line at the end. */
  lemma {:induction false} DataLinesOfSnoc(rs: seq<Reading>, r: Reading, f: Formatters)
    ensures DataLines(rs + [r], f) == DataLines(rs, f) + [DataLine(r, f)]
  {
    if rs != [] {
      assert (rs + [r])[1..] == rs[1..] + [r];
      DataLinesOfSnoc(rs[1..], r, f);
    } else {
      assert [] + [r] == [r];
    }
  }

  /** With no readings the file is the header line alone. */
  lemma ExportOfNothing(f: Formatters)
    ensures ExportText([], f) == "date,value\n"
  {
  }

  /** A trailing separator adds one empty part. */
  lemma {:induction false} JoinWithTrailingSeparator(parts: seq<string>, sep: char)
    requires parts != []
    ensures Join(parts + [""], sep) == Join(parts, sep) + [sep]
  {
    if |parts| == 1 {
      assert parts + [""] == [parts[0], ""];
    } else {
      assert (parts + [""])[1..] == parts[1..] + [""];
      JoinWithTrailingSeparator(parts[1..], sep);
    }
  }

  /** What a formatter must produce for its field to come back unchanged:
      non-empty, no whitespace at either end, no separator and no newline. */
  predicate CleanField(s: string)
  {
    s != [] && IsTrimmed(s) && NoSeparator(s, IsCsvSeparator) && NoSeparator(s, IsNewline)
  }

  /** The formatters write `r` as clean fields and the parsers read those
      fields back as `r`'s date and value. */
  predicate RoundTrips(r: Reading, f: Formatters, p: Parsers)
  {
    CleanField(f.date(r.date)) && CleanField(f.value(r.value))
    && p.date(f.date(r.date)) == Some(r.date) && p.number(f.value(r.value)) == Some(r.value)
  }

  lemma DataLineHasNoNewline(r: Reading, f: Formatters)
    requires CleanField(f.date(r.date)) && CleanField(f.value(r.value))
    ensures NoSeparator(DataLine(r, f), IsNewline)
  {
    var d, v := f.date(r.date), f.value(r.value);
    assert forall k :: 0 <= k < |DataLine(r, f)| ==>
      DataLine(r, f)[k] == (if k < |d| then d[k] else if k == |d| then ',' else v[k - |d| - 1]);
  }

  /** Joining newline-free lines and ending with a newline gives text whose
      lines are those lines and one empty piece. */
  lemma LinesOfJoinedText(lines: seq<string>)
    requires lines != []
    requires forall i :: 0 <= i < |lines| ==> NoSeparator(lines[i], IsNewline)
    ensures Lines(Join(lines, '\n') + "\n") == lines + [""]
  {
    var parts := lines + [""];
    JoinWithTrailingSeparator(lines, '\n');
    assert Join(lines, '\n') + "\n" == Join(parts, '\n');
    forall i | 0 <= i < |parts| ensures NoSeparator(parts[i], IsNewline) {
      if i < |lines| {
        assert parts[i] == lines[i];
      } else {
        assert parts[i] == "";
      }
    }
    ComponentsOfJoin(parts, '\n', IsNewline);
  }

  lemma HeaderHasNoNewline()
    ensures NoSeparator(Header, IsNewline)
  {
  }

  /** Every exported line is free of newlines when the fields are. */
  lemma ExportLinesHaveNoNewline(rs: seq<Reading>, f: Formatters)
    requires forall r :: r in rs ==> CleanField(f.date(r.date)) && CleanField(f.value(r.value))
    ensures forall i :: 0 <= i < |ExportLines(rs, f)| ==> NoSeparator(ExportLines(rs, f)[i], IsNewline)
  {
    var sorted := SortBy(rs, ReadingDate);
    SortByKeepsElements(rs, ReadingDate);
    var lines := ExportLines(rs, f);
    HeaderHasNoNewline();
    forall i | 0 <= i < |lines| ensures NoSeparator(lines[i], IsNewline) {
      if i > 0 {
        assert lines[i] == DataLine(sorted[i - 1], f);
        assert sorted[i - 1] in sorted;
        DataLineHasNoNewline(sorted[i - 1], f);
      }
    }
  }

  /** The lines of an exported file: the header, one line per reading in
      date order, and the empty piece after the final newline. */
  lemma ExportedLines(rs: seq<Reading>, f: Formatters)
    requires forall r :: r in rs ==> CleanField(f.date(r.date)) && CleanField(f.value(r.value))
    ensures Lines(ExportText(rs, f)) == [Header] + DataLines(SortBy(rs, ReadingDate), f) + [""]
  {
    ExportLinesHaveNoNewline(rs, f);
    LinesOfJoinedText(ExportLines(rs, f));
  }

  /** A clean exported line reads back as the reading it was written from. */
  lemma DataLineReadsBack(r: Reading, f: Formatters, p: Parsers)
    requires RoundTrips(r, f, p)
    ensures ReadLine(DataLine(r, f), true, p) == Data(Some(Pair(r.date, r.value)))
  {
    var d, v := f.date(r.date), f.value(r.value);
    var line := DataLine(r, f);
    assert line[0] == d[0] && line[|line| - 1] == v[|v| - 1];
    TrimOfTrimmed(line);
    ComponentsOfConcat(d, ',', v, IsCsvSeparator);
    ComponentsOfPiece(d, IsCsvSeparator);
    ComponentsOfPiece(v, IsCsvSeparator);
    NonEmptyKeepsPieces([d, v]);
    TrimOfTrimmed(d);
    TrimOfTrimmed(v);
    assert SplitCsv(line) == [d, v];
    assert ReplaceCommas(v) == v;
  }

  /** After the header, the data lines and the final empty piece read back
      as the readings, in order. */
  lemma {:induction false} DataLinesReadBack(rs: seq<Reading>, f: Formatters, p: Parsers)
    requires forall r :: r in rs ==> RoundTrips(r, f, p)
    ensures Collect(DataLines(rs, f) + [""], true, p) == Pairs(rs)
  {
    if rs == [] {
      assert DataLines(rs, f) + [""] == [""];
      FinalEmptyPieceIsBlank(p);
    } else {
      var rest := DataLines(rs[1..], f) + [""];
      assert DataLines(rs, f) + [""] == [DataLine(rs[0], f)] + rest;
      DataLineReadsBack(rs[0], f, p);
      CollectDataLine(DataLine(rs[0], f), rest, Pair(rs[0].date, rs[0].value), p);
      DataLinesReadBack(rs[1..], f, p);
    }
  }

  /** Each reading as the `(date, value)` pair the import produces. */
  function Pairs(rs: seq<Reading>): (ps: seq<Pair>)
    ensures |ps| == |rs|
    ensures forall i :: 0 <= i < |rs| ==> ps[i] == Pair(rs[i].date, rs[i].value)
  {
    if rs == [] then [] else [Pair(rs[0].date, rs[0].value)] + Pairs(rs[1..])
  }

  /** The exported header has a letter in it, so importing the file skips it. */
  lemma ExportedHeaderIsSkipped(rest: seq<string>, p: Parsers)
    requires p.isLetter('d')
    ensures Collect([Header] + rest, false, p) == Collect(rest, true, p)
  {
    TrimOfTrimmed(Header);
    assert HasLetter(Header, p.isLetter);
    FirstLineWithLetterIsSkipped(Header, rest, p);
  }

  /** Sorting keeps the readings, so every sorted one still round-trips. */
  lemma SortedReadingsRoundTrip(rs: seq<Reading>, f: Formatters, p: Parsers)
    requires forall r :: r in rs ==> RoundTrips(r, f, p)
    ensures forall r :: r in SortBy(rs, ReadingDate) ==> RoundTrips(r, f, p)
  {
    SortByKeepsElements(rs, ReadingDate);
  }

  /** The header followed by the data lines of round-tripping readings and
      the final empty piece collects to those readings. */
  lemma ExportedDataCollects(sorted: seq<Reading>, f: Formatters, p: Parsers)
    requires p.isLetter('d')
    requires forall r :: r in sorted ==> RoundTrips(r, f, p)
    ensures Collect([Header] + DataLines(sorted, f) + [""], false, p) == Pairs(sorted)
  {
    var data := DataLines(sorted, f) + [""];
    assert [Header] + DataLines(sorted, f) + [""] == [Header] + data;
    ExportedHeaderIsSkipped(data, p);
    DataLinesReadBack(sorted, f, p);
  }

  /** The lines of an exported file collect to the sorted readings. */
  lemma ExportCollects(rs: seq<Reading>, f: Formatters, p: Parsers)
    requires p.isLetter('d')
    requires forall r :: r in rs ==> RoundTrips(r, f, p)
    ensures Collect(Lines(ExportText(rs, f)), false, p) == Pairs(SortBy(rs, ReadingDate))
  {
    SortedReadingsRoundTrip(rs, f, p);
    ExportedLines(rs, f);
    ExportedDataCollects(SortBy(rs, ReadingDate), f, p);
  }

  /** Readings in date order give pairs in date order. */
  lemma PairsKeepDateOrder(rs: seq<Reading>)
    requires SortedBy(rs, ReadingDate)
    ensures SortedBy(Pairs(rs), PairDate)
  {
    forall i, j | 0 <= i < j < |rs| ensures PairDate(Pairs(rs)[i]) <= PairDate(Pairs(rs)[j]) {
      assert ReadingDate(rs[i]) <= ReadingDate(rs[j]);
    }
  }

  /** Importing an exported file gives back every reading, sorted by date,
      as long as the formatters and the parsers undo each other on them. */
  lemma ExportThenImport(rs: seq<Reading>, f: Formatters, p: Parsers)
    requires p.isLetter('d')
    requires forall r :: r in rs ==> RoundTrips(r, f, p)
    ensures ParseText(ExportText(rs, f), p) == Pairs(SortBy(rs, ReadingDate))
  {
    var pairs := Pairs(SortBy(rs, ReadingDate));
    ExportCollects(rs, f, p);
    PairsKeepDateOrder(SortBy(rs, ReadingDate));
    SortSortedIsIdentity(pairs, PairDate);
  }
}
