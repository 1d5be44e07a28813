/** The translation of one raw row of strings into the values handed to the
    bulk copy. */
module RowConversion {

  /** A copied value: `nil` (SQL NULL) or a string. */
  datatype Field = Null | Text(value: string)

  /** The NULL rule for one column. */
  function ConvertField(column: string): (f: Field)
    ensures f.Null? <==> column == ""
    ensures f.Text? ==> f.value == column
  {
    if column == "" then Null else Text(column)
  }

  /** The row a raw row becomes, position by position. */
  function ConvertedRow(rawRow: seq<string>): (row: seq<Field>)
    ensures |row| == |rawRow|
    ensures forall i :: 0 <= i < |rawRow| ==> row[i] == ConvertField(rawRow[i])
  {
    if rawRow == [] then [] else [ConvertField(rawRow[0])] + ConvertedRow(rawRow[1..])
  }

  /** Fills a fresh slice of the raw row's length, one column at a time. */
  method ConvertRow(rawRow: seq<string>) returns (row: seq<Field>)
    ensures row == ConvertedRow(rawRow)
  {
    var buf := new Field[|rawRow|];
    for i := 0 to |rawRow|
      invariant forall k :: 0 <= k < i ==> buf[k] == ConvertField(rawRow[k])
    {
      if rawRow[i] == "" {
        buf[i] := Null;
      } else {
        buf[i] := Text(rawRow[i]);
      }
    }
    row := buf[..];
  }

  /** Reads a copied value back as the raw column it came from. */
  function RawColumn(f: Field): string {
    match f
    case Null => ""
    case Text(s) => s
  }

  function RawRow(row: seq<Field>): (rawRow: seq<string>)
    ensures |rawRow| == |row|
  {
    if row == [] then [] else [RawColumn(row[0])] + RawRow(row[1..])
  }

  /** The conversion loses nothing: the raw row can be read back from it. */
  lemma {:induction false} ConversionRoundTrip(rawRow: seq<string>)
    ensures RawRow(ConvertedRow(rawRow)) == rawRow
  {
    if rawRow != [] {
      ConversionRoundTrip(rawRow[1..]);
      assert ConvertedRow(rawRow)[1..] == ConvertedRow(rawRow[1..]);
    }
  }

  /** The converse: a row of values that holds no empty `Text` (and no
      converted row does) is the conversion of the raw row read back from it. */
  lemma {:induction false} RawRowRoundTrip(row: seq<Field>)
    requires forall i :: 0 <= i < |row| ==> row[i] != Text("")
    ensures ConvertedRow(RawRow(row)) == row
  {
    if row != [] {
      RawRowRoundTrip(row[1..]);
      assert RawRow(row)[1..] == RawRow(row[1..]);
    }
  }
}
