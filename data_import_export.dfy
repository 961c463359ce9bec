/** The import half of the data section of the settings screen
    (`DataImportExport.importCSV`): parse the chosen file, skip every pair
    whose key is already taken by an existing reading, insert the rest into
    the store and report how many were imported.

    Reading the file is a parameter (its text, or the error it failed
    with), and so is `keyFor`, the "%.3f|%.5f" rendering of a date and a
    value. The store is the sequence of readings inserted into it. */
module DataImport {
  import opened Basics
  import opened Readings
  import opened CsvImport

  /** The outcome of reading the chosen file. */
  datatype FileContent = Readable(text: string) | Unreadable(reason: string)

  /** What the import alert reports. */
  datatype ImportMessage =
    | NoReadingsFound             // "No readings found in file"
    | Imported(count: nat)        // "Imported <count> readings"
    | ImportFailed(reason: string) // "Import failed: <reason>"

  /** The text of the alert, with the decimal rendering of the count as a
      parameter. */
  function MessageText(m: ImportMessage, decimal: nat -> string): (text: string)
    ensures m.NoReadingsFound? <==> text == "No readings found in file"
    ensures m.Imported? ==>
      |text| >= 18 && text[..9] == "Imported " && text[9..|text| - 9] == decimal(m.count) && text[|text| - 9..] == " readings"
    ensures m.ImportFailed? ==> |text| >= 15 && text[..15] == "Import failed: " && text[15..] == m.reason
  {
    match m
    case NoReadingsFound => "No readings found in file"
    case Imported(count) =>
      var t := "Imported " + decimal(count) + " readings";
      assert t[0] == 'I';
      t
    case ImportFailed(reason) =>
      var t := "Import failed: " + reason;
      assert t[0] == 'I';
      t
  }

  /** The three kinds of message can be told apart by their text, whatever
      the count's rendering or the failure reason. */
  lemma MessageKindsAreDistinct(m1: ImportMessage, m2: ImportMessage, decimal: nat -> string)
    requires m1.NoReadingsFound? != m2.NoReadingsFound? || m1.Imported? != m2.Imported?
    ensures MessageText(m1, decimal) != MessageText(m2, decimal)
  {
    var t1, t2 := MessageText(m1, decimal), MessageText(m2, decimal);
    if m1.Imported? && m2.ImportFailed? {
      assert t1[6] == 'e' && t2[6] == ' ';
    } else if m1.ImportFailed? && m2.Imported? {
      assert t2[6] == 'e' && t1[6] == ' ';
    }
  }

  type KeyFor = (real, real) -> string

  /** The keys of the readings already in the store. */
  function KeySet(rs: seq<Reading>, keyFor: KeyFor): (keys: set<string>)
    ensures forall i :: 0 <= i < |rs| ==> keyFor(rs[i].date, rs[i].value) in keys
    ensures forall k :: k in keys ==> exists i :: 0 <= i < |rs| && keyFor(rs[i].date, rs[i].value) == k
  {
    set i | 0 <= i < |rs| :: keyFor(rs[i].date, rs[i].value)
  }

  /** The readings inserted for `pairs`, in file order: one per pair whose
      key is not in `existing`. */
  function NewReadings(pairs: seq<Pair>, existing: set<string>, keyFor: KeyFor): (inserted: seq<Reading>)
    ensures |inserted| <= |pairs|
  {
    if pairs == [] then []
    else
      var last := pairs[|pairs| - 1];
      NewReadings(pairs[..|pairs| - 1], existing, keyFor)
      + (if keyFor(last.date, last.value) in existing then [] else [Reading(last.date, last.value)])
  }

  /** Importing two stretches of a file inserts for each in turn. */
  lemma {:induction false} NewReadingsOfConcat(a: seq<Pair>, b: seq<Pair>, existing: set<string>, keyFor: KeyFor)
    ensures NewReadings(a + b, existing, keyFor) == NewReadings(a, existing, keyFor) + NewReadings(b, existing, keyFor)
  {
    if b == [] {
      assert a + b == a;
    } else {
      var b' := b[..|b| - 1];
      assert (a + b)[..|a + b| - 1] == a + b';
      assert (a + b)[|a + b| - 1] == b[|b| - 1];
      NewReadingsOfConcat(a, b', existing, keyFor);
    }
  }

  /** A pair with a taken key is never inserted; a pair with a free key is
      inserted once for every time it occurs in the file, so repeats within
      one file all go in. */
  lemma {:induction false} InsertedCount(pairs: seq<Pair>, existing: set<string>, keyFor: KeyFor, d: real, v: real)
    ensures multiset(NewReadings(pairs, existing, keyFor))[Reading(d, v)]
      == if keyFor(d, v) in existing then 0 else multiset(pairs)[Pair(d, v)]
  {
    if pairs != [] {
      var init := pairs[..|pairs| - 1];
      var last := pairs[|pairs| - 1];
      InsertedCount(init, existing, keyFor, d, v);
      assert pairs == init + [last];
      assert multiset(pairs) == multiset(init) + multiset{last};
    }
  }

  /** Every inserted reading comes from a pair of the file with a free key. */
  lemma {:induction false} InsertedComeFromFreePairs(pairs: seq<Pair>, existing: set<string>, keyFor: KeyFor)
    ensures forall r :: r in NewReadings(pairs, existing, keyFor) ==>
      Pair(r.date, r.value) in pairs && keyFor(r.date, r.value) !in existing
  {
    if pairs != [] {
      var init := pairs[..|pairs| - 1];
      InsertedComeFromFreePairs(init, existing, keyFor);
      assert forall x :: x in init ==> x in pairs;
    }
  }

  /** With no key taken, every pair is inserted, in file order. */
  lemma {:induction false} NothingTakenInsertsAll(pairs: seq<Pair>, existing: set<string>, keyFor: KeyFor)
    requires forall i :: 0 <= i < |pairs| ==> keyFor(pairs[i].date, pairs[i].value) !in existing
    ensures |NewReadings(pairs, existing, keyFor)| == |pairs|
    ensures forall i :: 0 <= i < |pairs| ==>
      NewReadings(pairs, existing, keyFor)[i] == Reading(pairs[i].date, pairs[i].value)
  {
    if pairs != [] {
      NothingTakenInsertsAll(pairs[..|pairs| - 1], existing, keyFor);
    }
  }

  /** Once the inserted readings are in the store, importing the same pairs
      again inserts nothing. */
  lemma ReimportInsertsNothing(readings: seq<Reading>, pairs: seq<Pair>, keyFor: KeyFor)
    ensures var inserted := NewReadings(pairs, KeySet(readings, keyFor), keyFor);
      NewReadings(pairs, KeySet(readings + inserted, keyFor), keyFor) == []
  {
    var existing := KeySet(readings, keyFor);
    var inserted := NewReadings(pairs, existing, keyFor);
    var after := KeySet(readings + inserted, keyFor);
    forall x | x in pairs ensures keyFor(x.date, x.value) in after {
      if keyFor(x.date, x.value) in existing {
        var i :| 0 <= i < |readings| && keyFor(readings[i].date, readings[i].value) == keyFor(x.date, x.value);
        assert (readings + inserted)[i] == readings[i];
      } else {
        InsertedCount(pairs, existing, keyFor, x.date, x.value);
        assert Pair(x.date, x.value) == x;
        assert Reading(x.date, x.value) in inserted;
        var j :| 0 <= j < |inserted| && inserted[j] == Reading(x.date, x.value);
        assert (readings + inserted)[|readings| + j] == inserted[j];
      }
    }
    AllTakenInsertsNothing(pairs, after, keyFor);
  }

  lemma {:induction false} AllTakenInsertsNothing(pairs: seq<Pair>, existing: set<string>, keyFor: KeyFor)
    requires forall x :: x in pairs ==> keyFor(x.date, x.value) in existing
    ensures NewReadings(pairs, existing, keyFor) == []
  {
    if pairs != [] {
      var init := pairs[..|pairs| - 1];
      assert forall x :: x in init ==> x in pairs;
      AllTakenInsertsNothing(init, existing, keyFor);
      assert pairs[|pairs| - 1] in pairs;
    }
  }

  /** What `importCSV` leaves behind for a file: the readings it inserts and
      the message it shows. */
  function ImportResult(file: FileContent, readings: seq<Reading>, p: Parsers, keyFor: KeyFor): (result: (seq<Reading>, ImportMessage))
    ensures file.Unreadable? ==> result == ([], ImportFailed(file.reason))
    ensures file.Readable? && ParseText(file.text, p) == [] ==> result == ([], NoReadingsFound)
    ensures file.Readable? && ParseText(file.text, p) != [] ==> result.1 == Imported(|result.0|)
    ensures |result.0| <= if file.Readable? then |ParseText(file.text, p)| else 0
  {
    match file
    case Unreadable(reason) => ([], ImportFailed(reason))
    case Readable(text) =>
      var pairs := ParseText(text, p);
      if pairs == [] then ([], NoReadingsFound)
      else
        var inserted := NewReadings(pairs, KeySet(readings, keyFor), keyFor);
        (inserted, Imported(|inserted|))
  }

  /** The state of the data section that an import changes. */
  class DataImportExport {
    /** The readings the section was shown with. */
    const readings: seq<Reading>
    /** The readings inserted into the store, in insertion order. */
    var inserted: seq<Reading>
    var importResultMessage: Option<ImportMessage>

    constructor (readings: seq<Reading>)
      ensures this.readings == readings && inserted == [] && importResultMessage == None
    {
      this.readings := readings;
      inserted := [];
      importResultMessage := None;
    }

    /** `importCSV`: reads and parses the file, then inserts every pair whose
        key no existing reading has, counting them. */
    method ImportCsv(file: FileContent, p: Parsers, keyFor: KeyFor)
      modifies this
      ensures inserted == old(inserted) + ImportResult(file, readings, p, keyFor).0
      ensures importResultMessage == Some(ImportResult(file, readings, p, keyFor).1)
    {
      if file.Unreadable? {
        importResultMessage := Some(ImportFailed(file.reason));
        return;
      }
      var pairs := Parse(file.text, p);
      if |pairs| == 0 {
        importResultMessage := Some(NoReadingsFound);
        return;
      }
      var imported := InsertNew(pairs, KeySet(readings, keyFor), keyFor);
      importResultMessage := Some(Imported(imported));
    }
  
    /** The loop of `importCSV`: inserts, in order, each pair whose key is
        not in `existing`, and counts the insertions. */
    method InsertNew(pairs: seq<Pair>, existing: set<string>, keyFor: KeyFor) returns (imported: nat)
      modifies this
      ensures inserted == old(inserted) + NewReadings(pairs, existing, keyFor)
      ensures imported == |NewReadings(pairs, existing, keyFor)|
      ensures importResultMessage == old(importResultMessage)
    {
      imported := 0;
      for i := 0 to |pairs|
        invariant inserted == old(inserted) + NewReadings(pairs[..i], existing, keyFor)
        invariant imported == |NewReadings(pairs[..i], existing, keyFor)|
        invariant importResultMessage == old(importResultMessage)
      {
        var d, v := pairs[i].date, pairs[i].value;
        assert pairs[..i + 1][..i] == pairs[..i];
        var key := keyFor(d, v);
        if key in existing {
          continue;
        }
        inserted := inserted + [Reading(d, v)];
        imported := imported + 1;
      }
      assert pairs[..|pairs|] == pairs;
    }
  }
}
