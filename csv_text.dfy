/** The Foundation string operations the CSV import and export are built
    from, on strings as sequences of Unicode scalars: the `newlines` and
    `whitespacesAndNewlines` character sets, trimming, splitting at
    separator characters (keeping or omitting empty pieces) and joining. */
module CsvText {

  /** `CharacterSet.newlines`: U+000A to U+000D, U+0085, U+2028 and U+2029. */
  predicate IsNewline(c: char)
  {
    '\n' <= c <= '\r' || c == '\U{0085}' || c == '\U{2028}' || c == '\U{2029}'
  }

  /** `CharacterSet.whitespacesAndNewlines`: the tab, the newlines and the
      space separators of Unicode category Zs. */
  predicate IsWhitespaceOrNewline(c: char)
  {
    c == '\t' || IsNewline(c) || c == ' ' || c == '\U{00A0}' || c == '\U{1680}'
    || '\U{2000}' <= c <= '\U{200A}' || c == '\U{202F}' || c == '\U{205F}' || c == '\U{3000}'
  }

  /** The separators of `CSVImport.splitCSV`: comma, semicolon and tab. */
  predicate IsCsvSeparator(c: char)
  {
    c == ',' || c == ';' || c == '\t'
  }

  /** Drops the leading whitespace and newlines. */
  function TrimStart(s: string): string
  {
    if s != [] && IsWhitespaceOrNewline(s[0]) then TrimStart(s[1..]) else s
  }

  /** What `TrimStart` keeps is a suffix that does not start with whitespace,
      and what it drops is all whitespace. */
  lemma {:induction false} TrimStartKeepsSuffix(s: string)
    ensures |TrimStart(s)| <= |s| && TrimStart(s) == s[|s| - |TrimStart(s)|..]
    ensures forall k :: 0 <= k < |s| - |TrimStart(s)| ==> IsWhitespaceOrNewline(s[k])
    ensures TrimStart(s) != [] ==> !IsWhitespaceOrNewline(TrimStart(s)[0])
  {
    if s != [] && IsWhitespaceOrNewline(s[0]) {
      var t := TrimStart(s[1..]);
      TrimStartKeepsSuffix(s[1..]);
      assert s[1..][|s| - 1 - |t|..] == s[|s| - |t|..];
      assert forall k :: 1 <= k < |s| - |t| ==> s[k] == s[1..][k - 1];
    }
  }

  /** Drops the trailing whitespace and newlines. */
  function TrimEnd(s: string): string
  {
    if s != [] && IsWhitespaceOrNewline(s[|s| - 1]) then TrimEnd(s[..|s| - 1]) else s
  }

  /** What `TrimEnd` keeps is a prefix that does not end with whitespace,
      and what it drops is all whitespace. */
  lemma {:induction false} TrimEndKeepsPrefix(s: string)
    ensures |TrimEnd(s)| <= |s| && TrimEnd(s) == s[..|TrimEnd(s)|]
    ensures forall k :: |TrimEnd(s)| <= k < |s| ==> IsWhitespaceOrNewline(s[k])
    ensures TrimEnd(s) != [] ==> !IsWhitespaceOrNewline(TrimEnd(s)[|TrimEnd(s)| - 1])
  {
    if s != [] && IsWhitespaceOrNewline(s[|s| - 1]) {
      var t := TrimEnd(s[..|s| - 1]);
      TrimEndKeepsPrefix(s[..|s| - 1]);
      assert s[..|s| - 1][..|t|] == s[..|t|];
      assert forall k :: |t| <= k < |s| - 1 ==> s[k] == s[..|s| - 1][k];
    }
  }

  /** `trimmingCharacters(in: .whitespacesAndNewlines)` */
  function Trim(s: string): string
  {
    TrimEnd(TrimStart(s))
  }

  /** No whitespace at either end. */
  predicate IsTrimmed(s: string)
  {
    s != [] ==> !IsWhitespaceOrNewline(s[0]) && !IsWhitespaceOrNewline(s[|s| - 1])
  }

  /** What is left after trimming starts and ends with a character that is
      not whitespace. */
  lemma TrimLeavesNoOuterWhitespace(s: string)
    ensures IsTrimmed(Trim(s))
  {
    var u := TrimStart(s);
    var t := TrimEnd(u);
    TrimStartKeepsSuffix(s);
    TrimEndKeepsPrefix(u);
    if t != [] {
      assert t[0] == u[0];
    }
  }

  /** A string with no whitespace at either end is its own trim. */
  lemma TrimOfTrimmed(s: string)
    requires IsTrimmed(s)
    ensures Trim(s) == s
  {
    assert TrimStart(s) == s;
    assert TrimEnd(s) == s;
  }

  /** Every character is whitespace or a newline. */
  predicate AllWhitespace(s: string)
  {
    forall k :: 0 <= k < |s| ==> IsWhitespaceOrNewline(s[k])
  }

  /** Trimming gives the empty string exactly for blank input. */
  lemma TrimIsEmptyIffBlank(s: string)
    ensures Trim(s) == [] <==> AllWhitespace(s)
  {
    var u := TrimStart(s);
    var t := TrimEnd(u);
    TrimStartKeepsSuffix(s);
    TrimEndKeepsPrefix(u);
    assert forall k :: 0 <= k < |u| ==> u[k] == s[|s| - |u| + k];
    if t != [] {
      assert !IsWhitespaceOrNewline(u[|t| - 1]);
      assert !IsWhitespaceOrNewline(s[|s| - |u| + |t| - 1]);
    } else {
      assert AllWhitespace(u);
    }
  }

  /** Trimming keeps only characters of the string, so a string without
      separators trims to one without separators. */
  lemma TrimKeepsNoSeparator(s: string, isSep: char -> bool)
    requires NoSeparator(s, isSep)
    ensures NoSeparator(Trim(s), isSep)
  {
    var u := TrimStart(s);
    TrimStartKeepsSuffix(s);
    TrimEndKeepsPrefix(u);
    assert forall k :: 0 <= k < |u| ==> u[k] == s[|s| - |u| + k];
  }

  /** `components(separatedBy:)` with a character set: the pieces between
      separators, empty pieces included, so there is always one more piece
      than separators. */
  function Components(s: string, isSep: char -> bool): (parts: seq<string>)
    ensures |parts| >= 1
  {
    if s == [] then [""]
    else
      var rest := Components(s[1..], isSep);
      if isSep(s[0]) then [""] + rest
      else [[s[0]] + rest[0]] + rest[1..]
  }

  predicate NoSeparator(s: string, isSep: char -> bool)
  {
    forall k :: 0 <= k < |s| ==> !isSep(s[k])
  }

  /** No piece contains a separator. */
  lemma {:induction false} ComponentsHaveNoSeparator(s: string, isSep: char -> bool)
    ensures forall i :: 0 <= i < |Components(s, isSep)| ==> NoSeparator(Components(s, isSep)[i], isSep)
  {
    if s != [] {
      ComponentsHaveNoSeparator(s[1..], isSep);
      var rest := Components(s[1..], isSep);
      if !isSep(s[0]) {
        var first := [s[0]] + rest[0];
        assert forall k :: 0 < k < |first| ==> first[k] == rest[0][k - 1];
        assert NoSeparator(first, isSep);
      }
    }
  }

  /** A string without separators is a single piece. */
  lemma {:induction false} ComponentsOfPiece(s: string, isSep: char -> bool)
    requires NoSeparator(s, isSep)
    ensures Components(s, isSep) == [s]
  {
    if s != [] {
      ComponentsOfPiece(s[1..], isSep);
      assert [s[0]] + s[1..] == s;
    }
  }

  /** Splitting at a separator splits the pieces there. */
  lemma {:induction false} ComponentsOfConcat(a: string, c: char, b: string, isSep: char -> bool)
    requires isSep(c)
    ensures Components(a + [c] + b, isSep) == Components(a, isSep) + Components(b, isSep)
  {
    if a == [] {
      assert a + [c] + b == [c] + b;
      assert ([c] + b)[1..] == b;
    } else {
      var s := a + [c] + b;
      assert s[0] == a[0] && s[1..] == a[1..] + [c] + b;
      ComponentsOfConcat(a[1..], c, b, isSep);
    }
  }

  /** `joined(separator:)` with a one-character separator. */
  function Join(parts: seq<string>, sep: char): (s: string)
    ensures parts == [] ==> s == []
    ensures |parts| == 1 ==> s == parts[0]
  {
    if parts == [] then []
    else if |parts| == 1 then parts[0]
    else parts[0] + [sep] + Join(parts[1..], sep)
  }

  /** Splitting a join at its separator gives the parts back, as long as no
      part contains a separator. */
  lemma {:induction false} ComponentsOfJoin(parts: seq<string>, sep: char, isSep: char -> bool)
    requires parts != []
    requires isSep(sep)
    requires forall i :: 0 <= i < |parts| ==> NoSeparator(parts[i], isSep)
    ensures Components(Join(parts, sep), isSep) == parts
  {
    if |parts| == 1 {
      ComponentsOfPiece(parts[0], isSep);
    } else {
      ComponentsOfPiece(parts[0], isSep);
      ComponentsOfJoin(parts[1..], sep, isSep);
      ComponentsOfConcat(parts[0], sep, Join(parts[1..], sep), isSep);
      assert parts == [parts[0]] + parts[1..];
    }
  }

  /** The non-empty pieces, in order. */
  function NonEmpty(parts: seq<string>): seq<string>
  {
    if parts == [] then []
    else if parts[0] == [] then NonEmpty(parts[1..])
    else [parts[0]] + NonEmpty(parts[1..])
  }

  /** Exactly the empty pieces are dropped: what is kept is non-empty and
      was there, and there are no more pieces than before. */
  lemma {:induction false} NonEmptyKeepsPieces(parts: seq<string>)
    ensures |NonEmpty(parts)| <= |parts|
    ensures forall i :: 0 <= i < |NonEmpty(parts)| ==> NonEmpty(parts)[i] != [] && NonEmpty(parts)[i] in parts
    ensures (forall i :: 0 <= i < |parts| ==> parts[i] != []) ==> NonEmpty(parts) == parts
  {
    if parts != [] {
      NonEmptyKeepsPieces(parts[1..]);
      assert forall x :: x in parts[1..] ==> x in parts;
      assert parts == [parts[0]] + parts[1..];
    }
  }

  lemma {:induction false} NonEmptyOfConcat(a: seq<string>, b: seq<string>)
    ensures NonEmpty(a + b) == NonEmpty(a) + NonEmpty(b)
  {
    if a != [] {
      assert (a + b)[1..] == a[1..] + b;
      NonEmptyOfConcat(a[1..], b);
    } else {
      assert a + b == b;
    }
  }

  /** `split(whereSeparator:)`: the pieces between separators, with empty
      pieces omitted. */
  function SplitOmittingEmpty(s: string, isSep: char -> bool): seq<string>
  {
    NonEmpty(Components(s, isSep))
  }

  /** Every piece is non-empty and free of separators. */
  lemma SplitPieces(s: string, isSep: char -> bool)
    ensures forall i :: 0 <= i < |SplitOmittingEmpty(s, isSep)| ==>
      SplitOmittingEmpty(s, isSep)[i] != [] && NoSeparator(SplitOmittingEmpty(s, isSep)[i], isSep)
  {
    ComponentsHaveNoSeparator(s, isSep);
    NonEmptyKeepsPieces(Components(s, isSep));
    var parts := Components(s, isSep);
    forall i | 0 <= i < |NonEmpty(parts)|
      ensures NoSeparator(NonEmpty(parts)[i], isSep)
    {
      var j :| 0 <= j < |parts| && parts[j] == NonEmpty(parts)[i];
    }
  }

  /** A run of separators splits like a single one. */
  lemma SeparatorRunsCollapse(a: string, c1: char, c2: char, b: string, isSep: char -> bool)
    requires isSep(c1) && isSep(c2)
    ensures SplitOmittingEmpty(a + [c1, c2] + b, isSep) == SplitOmittingEmpty(a + [c1] + b, isSep)
  {
    assert a + [c1, c2] + b == a + [c1] + ([c2] + b);
    ComponentsOfConcat(a, c1, [c2] + b, isSep);
    ComponentsOfConcat([], c2, b, isSep);
    assert [] + [c2] + b == [c2] + b;
    ComponentsOfConcat(a, c1, b, isSep);
    NonEmptyOfConcat(Components(a, isSep), Components([c2] + b, isSep));
    NonEmptyOfConcat([""], Components(b, isSep));
    NonEmptyOfConcat(Components(a, isSep), Components(b, isSep));
  }
}
