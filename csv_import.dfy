/** `CSVImport.parse`: reads (date, value) pairs from CSV text, one per line,
    with a comma, semicolon or tab between the fields and the two columns in
    either order; skips a header line and any line it cannot read; returns
    the pairs in ascending date order.

    Date and number parsing (`ISO8601DateFormatter`, the five
    `DateFormatter` patterns, `Double(String)`) and the `CharacterSet.letters`
    test are parameters. */
module CsvImport {
  import opened Basics
  import opened Sorting
  import opened CsvText

  /** One imported `(date, value)` tuple. */
  datatype Pair = Pair(date: real, value: real)

  function PairDate(x: Pair): real { x.date }

  /** The library calls the parser relies on. */
  datatype Parsers = Parsers(
    isLetter: char -> bool,              // `CharacterSet.letters.contains`
    date: string -> Option<real>,        // `parseDate`: ISO 8601 first, then the five patterns
    number: string -> Option<real>)      // `Double(String)`

  /** `rangeOfCharacter(from: .letters) != nil` */
  predicate HasLetter(line: string, isLetter: char -> bool)
  {
    line != [] && (isLetter(line[0]) || HasLetter(line[1..], isLetter))
  }

  /** Every field trimmed of whitespace. */
  function TrimAll(parts: seq<string>): seq<string>
  {
    seq(|parts|, i requires 0 <= i < |parts| => Trim(parts[i]))
  }

  lemma TrimmedPieces(pieces: seq<string>, isSep: char -> bool)
    requires forall i :: 0 <= i < |pieces| ==> NoSeparator(pieces[i], isSep)
    ensures forall i :: 0 <= i < |pieces| ==> NoSeparator(TrimAll(pieces)[i], isSep)
    ensures forall i :: 0 <= i < |pieces| ==> IsTrimmed(TrimAll(pieces)[i])
  {
    forall i | 0 <= i < |pieces|
      ensures NoSeparator(Trim(pieces[i]), isSep) && IsTrimmed(Trim(pieces[i]))
    {
      TrimKeepsNoSeparator(pieces[i], isSep);
      TrimLeavesNoOuterWhitespace(pieces[i]);
    }
  }

  /** `splitCSV`: the non-empty pieces between separators, each trimmed. */
  function SplitCsv(line: string): (fields: seq<string>)
    ensures line == [] ==> fields == []
    ensures line != [] && IsTrimmed(line) && NoSeparator(line, IsCsvSeparator) ==> fields == [line]
  {
    if line != [] && IsTrimmed(line) && NoSeparator(line, IsCsvSeparator) then
      ComponentsOfPiece(line, IsCsvSeparator);
      TrimOfTrimmed(line);
      NonEmptyKeepsPieces([line]);
      assert SplitOmittingEmpty(line, IsCsvSeparator) == [line];
      assert TrimAll([line]) == [line];
      TrimAll(SplitOmittingEmpty(line, IsCsvSeparator))
    else
      assert [""][1..] == [];
      assert line == [] ==> SplitOmittingEmpty(line, IsCsvSeparator) == [];
      TrimAll(SplitOmittingEmpty(line, IsCsvSeparator))
  }

  /** Every field is trimmed and free of separators. A field can still come
      out empty when its piece was only whitespace. */
  lemma SplitCsvFields(line: string)
    ensures forall i :: 0 <= i < |SplitCsv(line)| ==> NoSeparator(SplitCsv(line)[i], IsCsvSeparator)
    ensures forall i :: 0 <= i < |SplitCsv(line)| ==> IsTrimmed(SplitCsv(line)[i])
  {
    SplitPieces(line, IsCsvSeparator);
    TrimmedPieces(SplitOmittingEmpty(line, IsCsvSeparator), IsCsvSeparator);
  }

  /** Two clean fields joined by a comma, a semicolon or a tab split back
      into those two fields. */
  lemma SplitCsvOfTwoFields(a: string, c: char, b: string)
    requires a != [] && IsTrimmed(a) && NoSeparator(a, IsCsvSeparator)
    requires b != [] && IsTrimmed(b) && NoSeparator(b, IsCsvSeparator)
    requires IsCsvSeparator(c)
    ensures SplitCsv(a + [c] + b) == [a, b]
  {
    ComponentsOfConcat(a, c, b, IsCsvSeparator);
    ComponentsOfPiece(a, IsCsvSeparator);
    ComponentsOfPiece(b, IsCsvSeparator);
    NonEmptyKeepsPieces([a, b]);
    TrimOfTrimmed(a);
    TrimOfTrimmed(b);
  }

  /** `replacingOccurrences(of: ",", with: ".")` */
  function ReplaceCommas(s: string): (r: string)
    ensures |r| == |s|
    ensures forall k :: 0 <= k < |s| ==> r[k] == (if s[k] == ',' then '.' else s[k])
  {
    if s == [] then [] else [if s[0] == ',' then '.' else s[0]] + ReplaceCommas(s[1..])
  }

  /** `parseDouble`: a decimal comma is read as a decimal point. */
  function ParseDouble(s: string, p: Parsers): (r: Option<real>)
    ensures ',' !in s ==> r == p.number(s)
  {
    if ',' in s then p.number(ReplaceCommas(s))
    else
      assert ReplaceCommas(s) == s;
      p.number(s)
  }

  /** Two texts that differ only in using a comma where the other has a
      point read as the same number: "1,5" and "1.5" parse alike. */
  lemma CommaReadsAsPoint(s: string, t: string, p: Parsers)
    requires |s| == |t|
    requires forall k :: 0 <= k < |s| ==> s[k] == t[k] || (s[k] == ',' && t[k] == '.') || (s[k] == '.' && t[k] == ',')
    ensures ParseDouble(s, p) == ParseDouble(t, p)
  {
    assert ReplaceCommas(s) == ReplaceCommas(t);
    if ',' !in s {
      assert ReplaceCommas(s) == s;
    }
    if ',' !in t {
      assert ReplaceCommas(t) == t;
    }
  }

  /** The comma rewrite in `parseDouble` never has anything to do: a comma
      separates fields before any field reaches it, so "1,5" is read as the
      two fields "1" and "5". */
  lemma {:induction false} DecimalCommaNeverReachesParser(line: string, p: Parsers)
    ensures forall i :: 0 <= i < |SplitCsv(line)| ==>
      ParseDouble(SplitCsv(line)[i], p) == p.number(SplitCsv(line)[i])
  {
    var fields := SplitCsv(line);
    SplitCsvFields(line);
    forall i | 0 <= i < |fields|
      ensures ReplaceCommas(fields[i]) == fields[i]
    {
      assert IsCsvSeparator(',');
    }
  }

  /** The two columns as (date, value), or failing that as (value, date). */
  function ParseColumns(a: string, b: string, p: Parsers): (r: Option<Pair>)
    ensures p.date(a).Some? && ParseDouble(b, p).Some? ==> r == Some(Pair(p.date(a).value, ParseDouble(b, p).value))
    ensures !(p.date(a).Some? && ParseDouble(b, p).Some?) && ParseDouble(a, p).Some? && p.date(b).Some? ==>
      r == Some(Pair(p.date(b).value, ParseDouble(a, p).value))
    ensures r.None? <==> !(p.date(a).Some? && ParseDouble(b, p).Some?) && !(ParseDouble(a, p).Some? && p.date(b).Some?)
  {
    if p.date(a).Some? && ParseDouble(b, p).Some? then
      Some(Pair(p.date(a).value, ParseDouble(b, p).value))
    else if ParseDouble(a, p).Some? && p.date(b).Some? then
      Some(Pair(p.date(b).value, ParseDouble(a, p).value))
    else None
  }

  /** A line that does not read as (date, value) reads the same as the line
      with its columns swapped; fields after the second play no part. */
  lemma SwappedColumnsAgree(a: string, b: string, p: Parsers)
    requires p.date(a).None? || ParseDouble(b, p).None?
    ensures ParseColumns(a, b, p) == ParseColumns(b, a, p)
  {
  }

  /** A trimmed, non-empty, non-header line: its first two fields, when it
      has two. */
  function ParseLine(line: string, p: Parsers): Option<Pair>
  {
    var cols := SplitCsv(line);
    if |cols| < 2 then None else ParseColumns(cols[0], cols[1], p)
  }

  /** How the loop treats one raw line. */
  datatype LineKind =
    | Blank                     // empty once trimmed: skipped, and not the first line
    | Header                    // the first non-blank line, when it has a letter
    | Data(pair: Option<Pair>)  // any other non-blank line, and what it reads as

  function ReadLine(raw: string, firstDataSeen: bool, p: Parsers): LineKind
  {
    var line := Trim(raw);
    if line == [] then Blank
    else if !firstDataSeen && HasLetter(line, p.isLetter) then Header
    else Data(ParseLine(line, p))
  }

  /** The pair a line contributes, if any. */
  function Emitted(k: LineKind): seq<Pair>
  {
    if k.Data? && k.pair.Some? then [k.pair.value] else []
  }

  /** A blank line leaves the flag as it was; any other line sets it. */
  function SeenAfter(k: LineKind, firstDataSeen: bool): bool
  {
    if k == Blank then firstDataSeen else true
  }

  /** The pairs read from `lines`, in file order, once `firstDataSeen`
      tells whether a non-blank line has already gone by. */
  function Collect(lines: seq<string>, firstDataSeen: bool, p: Parsers): seq<Pair>
  {
    if lines == [] then []
    else
      var k := ReadLine(lines[0], firstDataSeen, p);
      Emitted(k) + Collect(lines[1..], SeenAfter(k, firstDataSeen), p)
  }

  /** The lines of `text`, split at every newline character. */
  function Lines(text: string): seq<string>
  {
    Components(text, IsNewline)
  }

  /** What `CSVImport.parse` returns: the collected pairs sorted by date. */
  function ParseText(text: string, p: Parsers): (r: seq<Pair>)
    ensures SortedBy(r, PairDate)
    ensures multiset(r) == multiset(Collect(Lines(text), false, p))
  {
    SortBy(Collect(Lines(text), false, p), PairDate)
  }

  /** `CSVImport.parse`. */
  method Parse(text: string, p: Parsers) returns (result: seq<Pair>)
    ensures result == ParseText(text, p)
  {
    var collected := CollectLines(Lines(text), p);
    result := SortBy(collected, PairDate);
  }

  /** `Collect` one line at a time, from line `i` on. */
  lemma CollectAt(lines: seq<string>, i: nat, firstDataSeen: bool, p: Parsers)
    requires i < |lines|
    ensures Collect(lines[i..], firstDataSeen, p)
      == Emitted(ReadLine(lines[i], firstDataSeen, p))
         + Collect(lines[i + 1..], SeenAfter(ReadLine(lines[i], firstDataSeen, p), firstDataSeen), p)
  {
    assert lines[i..][0] == lines[i] && lines[i..][1..] == lines[i + 1..];
  }

  /** An empty line read after the first non-blank one contributes nothing. */
  lemma FinalEmptyPieceIsBlank(p: Parsers)
    ensures Collect([""], true, p) == []
  {
    assert ReadLine("", true, p) == Blank;
    assert [""][1..] == [];
  }

  /** `Collect` on a first line and the lines after it. */
  lemma CollectFirst(line: string, rest: seq<string>, firstDataSeen: bool, p: Parsers)
    ensures Collect([line] + rest, firstDataSeen, p)
      == Emitted(ReadLine(line, firstDataSeen, p))
         + Collect(rest, SeenAfter(ReadLine(line, firstDataSeen, p), firstDataSeen), p)
  {
    assert ([line] + rest)[1..] == rest;
  }

  /** A line that reads as a pair contributes that pair, ahead of the rest. */
  lemma CollectDataLine(line: string, rest: seq<string>, x: Pair, p: Parsers)
    requires ReadLine(line, true, p) == Data(Some(x))
    ensures Collect([line] + rest, true, p) == [x] + Collect(rest, true, p)
  {
    CollectFirst(line, rest, true, p);
  }

  /** The loop of `CSVImport.parse` over the lines of the text. */
  method CollectLines(lines: seq<string>, p: Parsers) returns (collected: seq<Pair>)
    ensures collected == Collect(lines, false, p)
  {
    collected := [];
    var firstDataSeen := false;
    for i := 0 to |lines|
      invariant collected + Collect(lines[i..], firstDataSeen, p) == Collect(lines, false, p)
    {
      CollectAt(lines, i, firstDataSeen, p);
      var pair, seen := ReadRawLine(lines[i], firstDataSeen, p);
      ghost var rest := Collect(lines[i + 1..], seen, p);
      if pair.Some? {
        assert collected + ([pair.value] + rest) == Collect(lines, false, p);
        assert collected + [pair.value] + rest == collected + ([pair.value] + rest);
        collected := collected + [pair.value];
      } else {
        assert collected + ([] + rest) == Collect(lines, false, p);
        assert [] + rest == rest;
      }
      firstDataSeen := seen;
    }
    assert lines[|lines|..] == [];
  }

  /** The body of that loop for one raw line: the pair it appends, if any,
      and the new value of `firstDataSeen`. */
  method ReadRawLine(raw: string, firstDataSeen: bool, p: Parsers) returns (pair: Option<Pair>, seen: bool)
    ensures Emitted(ReadLine(raw, firstDataSeen, p)) == (if pair.Some? then [pair.value] else [])
    ensures seen == SeenAfter(ReadLine(raw, firstDataSeen, p), firstDataSeen)
  {
    pair, seen := None, firstDataSeen;
    var line := Trim(raw);
    if line == [] {
      return;
    }
    if !firstDataSeen && HasLetter(line, p.isLetter) {
      seen := true;
      return;
    }
    seen := true;
    var cols := SplitCsv(line);
    if |cols| < 2 {
      return;
    }
    var a, b := cols[0], cols[1];
    assert ParseLine(line, p) == ParseColumns(a, b, p);
    var d, v := p.date(a), ParseDouble(b, p);
    if d.Some? && v.Some? {
      pair := Some(Pair(d.value, v.value));
    } else {
      v, d := ParseDouble(a, p), p.date(b);
      if v.Some? && d.Some? {
        pair := Some(Pair(d.value, v.value));
      }
    }
  }

  predicate IsBlank(line: string)
  {
    Trim(line) == []
  }

  function NonBlankCount(lines: seq<string>): nat
  {
    if lines == [] then 0
    else (if IsBlank(lines[0]) then 0 else 1) + NonBlankCount(lines[1..])
  }

  /** Every pair comes from its own non-blank line. */
  lemma {:induction false} CollectCount(lines: seq<string>, firstDataSeen: bool, p: Parsers)
    ensures |Collect(lines, firstDataSeen, p)| <= NonBlankCount(lines)
  {
    if lines != [] {
      CollectCount(lines[1..], false, p);
      CollectCount(lines[1..], true, p);
    }
  }

  lemma ParsedPairsAtMostNonBlankLines(text: string, p: Parsers)
    ensures |ParseText(text, p)| <= NonBlankCount(Lines(text))
  {
    CollectCount(Lines(text), false, p);
    assert |ParseText(text, p)| == |multiset(ParseText(text, p))|;
  }

  /** Blank lines before the first non-blank one do not use up the header
      skip. */
  lemma {:induction false} LeadingBlankLinesAreIgnored(blanks: seq<string>, rest: seq<string>, p: Parsers)
    requires forall i :: 0 <= i < |blanks| ==> IsBlank(blanks[i])
    ensures Collect(blanks + rest, false, p) == Collect(rest, false, p)
  {
    if blanks != [] {
      var lines := blanks + rest;
      assert lines[0] == blanks[0] && lines[1..] == blanks[1..] + rest;
      assert ReadLine(lines[0], false, p) == Blank;
      assert Collect(lines, false, p) == [] + Collect(blanks[1..] + rest, false, p);
      assert [] + Collect(blanks[1..] + rest, false, p) == Collect(blanks[1..] + rest, false, p);
      LeadingBlankLinesAreIgnored(blanks[1..], rest, p);
    } else {
      assert blanks + rest == rest;
    }
  }

  /** The first non-blank line is dropped whenever it has a letter in it,
      whether it is a header or a data line such as an ISO 8601 timestamp
      with its 'T'. */
  lemma FirstLineWithLetterIsSkipped(line: string, rest: seq<string>, p: Parsers)
    requires !IsBlank(line) && HasLetter(Trim(line), p.isLetter)
    ensures Collect([line] + rest, false, p) == Collect(rest, true, p)
  {
    var lines := [line] + rest;
    assert lines[0] == line && lines[1..] == rest;
    assert ReadLine(line, false, p) == Header;
    assert Collect(lines, false, p) == [] + Collect(rest, true, p);
    assert [] + Collect(rest, true, p) == Collect(rest, true, p);
  }

  /** After the first non-blank line no line is treated as a header: what is
      collected no longer depends on which characters count as letters. */
  lemma {:induction false} LaterLinesIgnoreLetters(lines: seq<string>, p: Parsers, q: Parsers)
    requires p.date == q.date && p.number == q.number
    ensures Collect(lines, true, p) == Collect(lines, true, q)
  {
    if lines != [] {
      LaterLinesIgnoreLetters(lines[1..], p, q);
      var line := Trim(lines[0]);
      if line != [] {
        var cols := SplitCsv(line);
        if |cols| >= 2 {
          assert ParseDouble(cols[0], p) == ParseDouble(cols[0], q);
          assert ParseDouble(cols[1], p) == ParseDouble(cols[1], q);
          assert ParseColumns(cols[0], cols[1], p) == ParseColumns(cols[0], cols[1], q);
        }
      }
      assert ReadLine(lines[0], true, p) == ReadLine(lines[0], true, q);
    }
  }
}
