/**
 * `export_multiple_vector_to_csv`: a list of column vectors written row by
 * row, with a header line of column names and a trailing placeholder column.
 *
 * Doubles are `real`s and the text `std::ofstream` prints for one is the
 * parameter `fmt`; the trailing value 0.0 goes through the same formatter.
 * A written file is its sequence of lines; each is followed by "\n" in the file.
 */
module CsvExport {
  import opened Optional
  import opened Text

  const DumbColumnName: string := "DumbColumn"
  const DumbValue: real := 0.0

  /** What one call did: returned early, reported a size mismatch, or wrote the file. */
  datatype ExportOutcome =
    | NothingToExport
    | SizeMismatch(expected: nat, found: nat)
    | Written(lines: seq<string>)

  /** Every column vector has `n` values. */
  predicate AllOfLength(columns: seq<seq<real>>, n: nat) {
    forall j :: 0 <= j < |columns| ==> |columns[j]| == n
  }

  /** First index at or after `from` whose vector does not have `n` values. */
  function FirstMismatch(columns: seq<seq<real>>, n: nat, from: nat): (r: Option<nat>)
    requires from <= |columns|
    ensures r.None? <==> forall j :: from <= j < |columns| ==> |columns[j]| == n
    ensures r.Some? ==> from <= r.value < |columns| && |columns[r.value]| != n
    ensures r.Some? ==> forall j :: from <= j < r.value ==> |columns[j]| == n
    decreases |columns| - from
  {
    if from == |columns| then None
    else if |columns[from]| != n then Some(from)
    else FirstMismatch(columns, n, from + 1)
  }

  /** The header line: each name and a comma, then the placeholder column. */
  function HeaderLine(headers: seq<string>): string {
    Terminated(headers) + DumbColumnName
  }

  /** Row `i` read across the columns: cell `j` is value `i` of vector `j`. */
  function RowCells(columns: seq<seq<real>>, i: nat, fmt: real -> string): (cells: seq<string>)
    requires forall j :: 0 <= j < |columns| ==> i < |columns[j]|
    ensures |cells| == |columns|
    ensures forall j :: 0 <= j < |columns| ==> cells[j] == fmt(columns[j][i])
  {
    seq(|columns|, j requires 0 <= j < |columns| => fmt(columns[j][i]))
  }

  /** Data line `i`: its cells each followed by a comma, then the formatted 0.0. */
  function RowLine(columns: seq<seq<real>>, i: nat, fmt: real -> string): string
    requires forall j :: 0 <= j < |columns| ==> i < |columns[j]|
  {
    Terminated(RowCells(columns, i, fmt)) + fmt(DumbValue)
  }

  /** The first `count` data lines of a rectangular table of `n`-value vectors. */
  function Rows(columns: seq<seq<real>>, n: nat, count: nat, fmt: real -> string): (rows: seq<string>)
    requires AllOfLength(columns, n) && count <= n
    ensures |rows| == count
    ensures forall i :: 0 <= i < count ==> rows[i] == RowLine(columns, i, fmt)
  {
    seq(count, i requires 0 <= i < count => RowLine(columns, i, fmt))
  }

  /**
   * What `export_multiple_vector_to_csv(filename, headers, columns)` does.
   * An empty column list returns at once; otherwise every vector is compared
   * with the first one's size and the first that differs is reported; only
   * then is the file opened and written.
   */
  function Export(headers: seq<string>, columns: seq<seq<real>>, fmt: real -> string): (r: ExportOutcome)
    ensures r.NothingToExport? <==> |columns| == 0
    ensures r.SizeMismatch? <==> |columns| > 0 && !AllOfLength(columns, |columns[0]|)
    ensures r.SizeMismatch? ==>
              r.expected == |columns[0]| &&
              exists j :: 0 <= j < |columns| && |columns[j]| == r.found && r.found != r.expected
    ensures r.SizeMismatch? ==>
              exists k :: 0 <= k < |columns| && r.found == |columns[k]| && FirstMismatch(columns, r.expected, 0) == Some(k)
    ensures r.Written? <==> |columns| > 0 && AllOfLength(columns, |columns[0]|)
    ensures r.Written? ==> |r.lines| == |columns[0]| + 1 && r.lines[0] == HeaderLine(headers)
    ensures r.Written? ==> forall i :: 0 <= i < |columns[0]| ==> r.lines[i + 1] == RowLine(columns, i, fmt)
  {
    if |columns| == 0 then NothingToExport
    else
      var n := |columns[0]|;
      match FirstMismatch(columns, n, 0)
      case Some(k) => SizeMismatch(n, |columns[k]|)
      case None => Written([HeaderLine(headers)] + Rows(columns, n, n, fmt))
  }

  /**
   * Reading the written header back as CSV gives the column names and the
   * placeholder, when no name holds a comma.
   */
  lemma HeaderFields(headers: seq<string>, columns: seq<seq<real>>, fmt: real -> string)
    requires Export(headers, columns, fmt).Written?
    requires forall k :: 0 <= k < |headers| ==> NoComma(headers[k])
    ensures Fields(Export(headers, columns, fmt).lines[0]) == headers + [DumbColumnName]
  {
    FieldsOfTerminated(headers, DumbColumnName);
  }

  /**
   * The written table is the transpose of the input: data line `i` splits
   * into |columns| + 1 fields, field `j` is value `i` of vector `j`, and the
   * last is the formatted 0.0 (numbers are assumed to print without commas).
   */
  lemma RowFields(headers: seq<string>, columns: seq<seq<real>>, fmt: real -> string, i: nat)
    requires Export(headers, columns, fmt).Written?
    requires i < |columns[0]|
    requires forall x :: NoComma(fmt(x))
    ensures var f := Fields(Export(headers, columns, fmt).lines[i + 1]);
      |f| == |columns| + 1
      && (forall j :: 0 <= j < |columns| ==> f[j] == fmt(columns[j][i]))
      && f[|columns|] == fmt(DumbValue)
  {
    assert Export(headers, columns, fmt).lines[i + 1] == RowLine(columns, i, fmt);
    RowLineFields(columns, i, fmt);
  }

  /** A data line splits back into its cells and the formatted 0.0. */
  lemma RowLineFields(columns: seq<seq<real>>, i: nat, fmt: real -> string)
    requires forall j :: 0 <= j < |columns| ==> i < |columns[j]|
    requires forall x :: NoComma(fmt(x))
    ensures Fields(RowLine(columns, i, fmt)) == RowCells(columns, i, fmt) + [fmt(DumbValue)]
  {
    RowCellsCommaFree(columns, i, fmt);
    FieldsOfTerminated(RowCells(columns, i, fmt), fmt(DumbValue));
  }

  lemma RowCellsCommaFree(columns: seq<seq<real>>, i: nat, fmt: real -> string)
    requires forall j :: 0 <= j < |columns| ==> i < |columns[j]|
    requires forall x :: NoComma(fmt(x))
    ensures forall k :: 0 <= k < |columns| ==> NoComma(RowCells(columns, i, fmt)[k])
  {
    forall k | 0 <= k < |columns| ensures NoComma(RowCells(columns, i, fmt)[k]) {
      var v := columns[k][i];
      assert NoComma(fmt(v));
    }
  }

  /**
   * The exporter as the source runs it: a validation loop, then the header
   * written name by name, then a loop over value indices with an inner loop
   * over the vectors.
   */
  method ExportCsv(headers: seq<string>, columns: seq<seq<real>>, fmt: real -> string)
    returns (r: ExportOutcome)
    ensures r == Export(headers, columns, fmt)
  {
    if |columns| == 0 {
      return NothingToExport;
    }
    var reference := |columns[0]|;
    var k := 0;
    while k < |columns|
      invariant 0 <= k <= |columns|
      invariant FirstMismatch(columns, reference, 0) == FirstMismatch(columns, reference, k)
    {
      if |columns[k]| != reference {
        return SizeMismatch(reference, |columns[k]|);
      }
      k := k + 1;
    }
    var header := "";
    for h := 0 to |headers|
      invariant header == Terminated(headers[..h])
    {
      TerminatedSnoc(headers[..h], headers[h]);
      assert headers[..h + 1] == headers[..h] + [headers[h]];
      header := header + headers[h] + ",";
    }
    assert headers[..|headers|] == headers;
    var lines := [header + DumbColumnName];
    for i := 0 to reference
      invariant lines == [HeaderLine(headers)] + Rows(columns, reference, i, fmt)
    {
      var row := "";
      for j := 0 to |columns|
        invariant row == Terminated(RowCells(columns, i, fmt)[..j])
      {
        var cells := RowCells(columns, i, fmt);
        TerminatedSnoc(cells[..j], cells[j]);
        assert cells[..j + 1] == cells[..j] + [cells[j]];
        row := row + fmt(columns[j][i]) + ",";
      }
      assert RowCells(columns, i, fmt)[..|columns|] == RowCells(columns, i, fmt);
      row := row + fmt(DumbValue);
      lines := lines + [row];
    }
    return Written(lines);
  }
}
