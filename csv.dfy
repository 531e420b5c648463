/** The CSV exports of the reports, sales and expenses pages: rows of fields joined
    by commas, lines joined by a line separator. No field is quoted or escaped. */
module Csv {
  import opened Text

  /** Locale formatting the pages delegate to the browser, left abstract: `date` is
      `toLocaleDateString`, `currency` the `Intl.NumberFormat` rupiah format, `decimal`
      the text of a decimal column as the database returns it, `amount` a decimal
      column turned into a JavaScript number by `parseFloat` and printed by
      `Number#toString`, and `number` an integer count printed by `Number#toString`.
      `currency`, `decimal` and `amount` take cents. */
  datatype Formats = Formats(
    date: int -> string,
    currency: int -> string,
    decimal: int -> string,
    amount: int -> string,
    number: int -> string)

  function JoinFields(row: seq<string>): string
  {
    Join(row, ",")
  }

  function Lines(rows: seq<seq<string>>): (r: seq<string>)
    ensures |r| == |rows|
    ensures forall i :: 0 <= i < |rows| ==> r[i] == JoinFields(rows[i])
  {
    seq(|rows|, i requires 0 <= i < |rows| => JoinFields(rows[i]))
  }

  /** The file text with real line breaks between the rows. */
  function Render(rows: seq<seq<string>>): string
  {
    Join(Lines(rows), "\n")
  }

  /** The file text as the pages build it: the rows are joined by the two characters
      backslash and `n`, not by a line break. */
  function RenderAsWritten(rows: seq<seq<string>>): string
  {
    Join(Lines(rows), "\\n")
  }

  ghost predicate NoLineBreaks(rows: seq<seq<string>>)
  {
    forall i, j :: 0 <= i < |rows| && 0 <= j < |rows[i]| ==> '\n' !in rows[i][j]
  }

  ghost predicate NoCommas(row: seq<string>)
  {
    forall j :: 0 <= j < |row| ==> ',' !in row[j]
  }

  lemma LinesAvoidLineBreaks(rows: seq<seq<string>>)
    requires NoLineBreaks(rows)
    ensures forall i :: 0 <= i < |rows| ==> '\n' !in Lines(rows)[i]
  {
    forall i | 0 <= i < |rows|
      ensures '\n' !in Lines(rows)[i]
    {
      JoinAvoids(rows[i], ",", '\n');
    }
  }

  /** As written, however many rows there are, the file is a single line. */
  lemma AsWrittenIsOneLine(rows: seq<seq<string>>)
    requires NoLineBreaks(rows)
    ensures Split(RenderAsWritten(rows), '\n') == [RenderAsWritten(rows)]
  {
    LinesAvoidLineBreaks(rows);
    JoinAvoids(Lines(rows), "\\n", '\n');
    SplitNoSeparator(RenderAsWritten(rows), '\n');
  }

  /** Two one-field rows come out as the single line `a\nb` (with a literal backslash). */
  lemma AsWrittenTwoRows()
    ensures RenderAsWritten([["a"], ["b"]]) == "a\\nb"
    ensures |Split(RenderAsWritten([["a"], ["b"]]), '\n')| == 1
  {
    assert Lines([["a"], ["b"]]) == ["a", "b"];
    AsWrittenIsOneLine([["a"], ["b"]]);
  }

  /** With real line breaks, splitting the file at them gives back one line per row. */
  lemma RenderSplitsIntoRows(rows: seq<seq<string>>)
    requires |rows| >= 1
    requires NoLineBreaks(rows)
    ensures Split(Render(rows), '\n') == Lines(rows)
  {
    LinesAvoidLineBreaks(rows);
    SplitJoin(Lines(rows), '\n');
  }

  /** A line splits back into its fields when no field holds a comma. */
  lemma LineSplitsIntoFields(row: seq<string>)
    requires |row| >= 1
    requires NoCommas(row)
    ensures Split(JoinFields(row), ',') == row
  {
    SplitJoin(row, ',');
  }

  /** No quoting: a field holding a comma reads back as two fields. */
  lemma CommaInFieldSplitsIt()
    ensures Split(JoinFields(["a,b", "c"]), ',') == ["a", "b", "c"]
  {
    assert JoinFields(["a,b", "c"]) == "a" + [','] + "b,c";
    SplitAtSeparator("a", ',', "b,c");
    assert "b,c" == "b" + [','] + "c";
    SplitAtSeparator("b", ',', "c");
    SplitNoSeparator("c", ',');
  }
}
