/** One line of a CSV file as `SimpleCSV.parse` hands it out: a map from
 *  column header to cell text.  Reading the file is not modelled; the
 *  loaders receive the parsed lines, or `None` when reading or parsing
 *  failed. */
module CsvRows {
  import opened Wrappers
  import opened JavaText

  type Row = map<string, string>

  /** `line.get(header)`: `null` when the line has no such column. */
  function Cell(row: Row, header: string): (r: Option<string>)
    ensures r.Some? <==> header in row
    ensures r.Some? ==> r.value == row[header]
  {
    if header in row then Some(row[header]) else None
  }

  /** `Double.parseDouble(text)` on a cell that may be `null`: a missing
   *  cell throws NullPointerException, unparsable text
   *  NumberFormatException.  The parser itself is a parameter. */
  function ParseCell(text: Option<string>, parseDouble: string -> Option<Double>): (r: Result<Double>)
    ensures text.None? ==> r == Err(NULL_POINTER)
    ensures text.Some? && parseDouble(text.value).None? ==> r == Err(NUMBER_FORMAT)
    ensures text.Some? && parseDouble(text.value).Some? ==> r == Ok(parseDouble(text.value).value)
  {
    match text
    case None => Err(NULL_POINTER)
    case Some(t) =>
      match parseDouble(t)
      case None => Err(NUMBER_FORMAT)
      case Some(d) => Ok(d)
  }
}
