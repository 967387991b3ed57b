/** StateAbbreviationsLoader: the state-name -> abbreviation table, read
 *  from the zip-code file and, failing that, from a default file.  A file
 *  is given by its parsed lines, or `None` when reading or parsing it
 *  fails (a `null` file name included). */
module StateAbbreviations {
  import opened Wrappers
  import opened CsvRows
  import opened LinkedMaps

  /** State name -> abbreviation, in first-insertion order; a missing
   *  column gives a `null` key or value. */
  type AbbreviationTable = Linked<Option<string>, Option<string>>

  /** The (state, abbreviation) cell pair of each line, in file order. */
  function Entries(lines: seq<Row>, stateHeader: string, abbrHeader: string): (es: seq<(Option<string>, Option<string>)>)
    ensures |es| == |lines|
    ensures forall i :: 0 <= i < |lines| ==> es[i] == (Cell(lines[i], stateHeader), Cell(lines[i], abbrHeader))
  {
    seq(|lines|, i requires 0 <= i < |lines| => (Cell(lines[i], stateHeader), Cell(lines[i], abbrHeader)))
  }

  /** The table the lines describe: every line put in turn. */
  function TableOf(lines: seq<Row>, stateHeader: string, abbrHeader: string): AbbreviationTable {
    PutAll([], Entries(lines, stateHeader, abbrHeader))
  }

  /** `loadAbbrsFromCSV` once the file is parsed: one `put` per line. */
  method LoadAbbrsFromCsv(lines: seq<Row>, stateHeader: string, abbrHeader: string) returns (m: AbbreviationTable)
    ensures m == TableOf(lines, stateHeader, abbrHeader)
  {
    var es := Entries(lines, stateHeader, abbrHeader);
    m := [];
    var i := 0;
    while i < |lines|
      invariant 0 <= i <= |lines|
      invariant m == PutAll([], es[..i])
    {
      assert es[..i + 1][..i] == es[..i];
      m := Put(m, es[i].0, es[i].1);
      i := i + 1;
    }
    assert es[..|lines|] == es;
  }

  /** `loadAbbreviations`: the zip-code file read with the USPS -> ST
   *  columns; if it fails, the default file with the State ->
   *  Abbreviation columns; if that fails too, `null`. */
  method LoadAbbreviations(zipCsv: Option<seq<Row>>, defaultCsv: Option<seq<Row>>) returns (r: Option<AbbreviationTable>)
    ensures zipCsv.Some? ==> r == Some(TableOf(zipCsv.value, "USPS", "ST"))
    ensures zipCsv.None? && defaultCsv.Some? ==> r == Some(TableOf(defaultCsv.value, "State", "Abbreviation"))
    ensures zipCsv.None? && defaultCsv.None? ==> r == None
  {
    if zipCsv.Some? {
      var m := LoadAbbrsFromCsv(zipCsv.value, "USPS", "ST");
      return Some(m);
    }
    if defaultCsv.Some? {
      var m := LoadAbbrsFromCsv(defaultCsv.value, "State", "Abbreviation");
      return Some(m);
    }
    return None;
  }

  /** A state named on several lines takes the abbreviation of the last
   *  such line ... */
  lemma LastLineWins(lines: seq<Row>, stateHeader: string, abbrHeader: string, state: Option<string>)
    ensures Get(TableOf(lines, stateHeader, abbrHeader), state)
            == LastValue(Entries(lines, stateHeader, abbrHeader), state)
  {
    PutAllGet(Entries(lines, stateHeader, abbrHeader), state);
  }

  /** ... but keeps the position of the first such line: the states come
   *  out in the order they first appear. */
  lemma FirstLineKeepsPosition(lines: seq<Row>, stateHeader: string, abbrHeader: string)
    ensures Keys(TableOf(lines, stateHeader, abbrHeader))
            == FirstOccurrences(seq(|lines|, i requires 0 <= i < |lines| => Cell(lines[i], stateHeader)))
  {
    var es := Entries(lines, stateHeader, abbrHeader);
    var states := seq(|lines|, i requires 0 <= i < |lines| => Cell(lines[i], stateHeader));
    PutAllKeys(es);
    forall i | 0 <= i < |lines|
      ensures Keys(es)[i] == states[i]
    {
    }
    assert Keys(es) == states;
  }
}
