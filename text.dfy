/**
 * Text helpers shared by the two programs: the decimal rendering of
 * `std::to_string` on a non-negative index, the "cell followed by a comma"
 * layout the CSV exporter writes, and the comma split that reads such a line
 * back into its fields.
 */
module Text {

  predicate IsDigit(c: char) {
    '0' <= c <= '9'
  }

  function DigitChar(d: nat): (c: char)
    requires d < 10
    ensures IsDigit(c)
  {
    ('0' as int + d) as char
  }

  function DigitValue(c: char): (d: nat)
    requires IsDigit(c)
    ensures d < 10 && DigitChar(d) == c
  {
    c as int - '0' as int
  }

  /** Decimal digits of `n` without leading zeros, as `std::to_string` prints a non-negative int. */
  function NatToString(n: nat): (s: string)
    ensures |s| > 0
    ensures forall i :: 0 <= i < |s| ==> IsDigit(s[i])
    ensures s[0] == '0' ==> n == 0
    decreases n
  {
    if n < 10 then [DigitChar(n)] else NatToString(n / 10) + [DigitChar(n % 10)]
  }

  /** The number a string of decimal digits denotes (most significant digit first). */
  function DecimalValue(s: string): nat
    requires forall i :: 0 <= i < |s| ==> IsDigit(s[i])
  {
    if s == [] then 0 else 10 * DecimalValue(s[..|s| - 1]) + DigitValue(s[|s| - 1])
  }

  /** Reading back the decimal rendering gives the number again. */
  lemma {:induction false} DecimalRoundTrip(n: nat)
    ensures DecimalValue(NatToString(n)) == n
    decreases n
  {
    var s := NatToString(n);
    if n >= 10 {
      DecimalRoundTrip(n / 10);
      assert s[..|s| - 1] == NatToString(n / 10);
      assert DigitValue(s[|s| - 1]) == n % 10 by {
        assert s[|s| - 1] == DigitChar(n % 10);
      }
    } else {
      assert s[..|s| - 1] == [];
    }
  }

  /** Distinct indices have distinct renderings, so the names built from them differ. */
  lemma NatToStringInjective(a: nat, b: nat)
    requires NatToString(a) == NatToString(b)
    ensures a == b
  {
    DecimalRoundTrip(a);
    DecimalRoundTrip(b);
  }

  /** Every cell followed by one comma: how the exporter writes a header or a row, cell by cell. */
  function Terminated(cells: seq<string>): (s: string)
  {
    if cells == [] then "" else cells[0] + "," + Terminated(cells[1..])
  }

  /** Writing one more cell extends the text by that cell and its comma. */
  lemma {:induction false} TerminatedSnoc(cells: seq<string>, c: string)
    ensures Terminated(cells + [c]) == Terminated(cells) + c + ","
  {
    if cells != [] {
      assert (cells + [c])[1..] == cells[1..] + [c];
      TerminatedSnoc(cells[1..], c);
    } else {
      assert cells + [c] == [c];
    }
  }

  predicate NoComma(s: string) {
    ',' !in s
  }

  /** The comma-separated fields of one CSV line (an empty line has one empty field). */
  function Fields(line: string): (r: seq<string>)
    ensures 0 < |r| <= |line| + 1
  {
    if line == [] then [[]]
    else if line[0] == ',' then [[]] + Fields(line[1..])
    else
      var rest := Fields(line[1..]);
      [[line[0]] + rest[0]] + rest[1..]
  }

  lemma {:induction false} FieldsOfCommaFree(s: string)
    requires NoComma(s)
    ensures Fields(s) == [s]
  {
    if s != [] {
      FieldsOfCommaFree(s[1..]);
      assert [s[0]] + s[1..] == s;
    }
  }

  lemma {:induction false} FieldsCons(c: string, t: string)
    requires NoComma(c)
    ensures Fields(c + "," + t) == [c] + Fields(t)
  {
    if c == [] {
      assert c + "," + t == [','] + t;
      assert (c + "," + t)[1..] == t;
    } else {
      assert (c + "," + t)[1..] == c[1..] + "," + t;
      FieldsCons(c[1..], t);
      assert [c[0]] + c[1..] == c;
    }
  }

  /**
   * Splitting a line written as comma-terminated cells plus a last cell gives
   * back exactly those cells, provided no cell contains a comma itself.
   */
  lemma {:induction false} FieldsOfTerminated(cells: seq<string>, last: string)
    requires forall k :: 0 <= k < |cells| ==> NoComma(cells[k])
    requires NoComma(last)
    ensures Fields(Terminated(cells) + last) == cells + [last]
  {
    if cells == [] {
      FieldsOfCommaFree(last);
      assert Terminated(cells) + last == last;
    } else {
      calc {
        Fields(Terminated(cells) + last);
        { assert Terminated(cells) + last == cells[0] + "," + (Terminated(cells[1..]) + last); }
        Fields(cells[0] + "," + (Terminated(cells[1..]) + last));
        { FieldsCons(cells[0], Terminated(cells[1..]) + last); }
        [cells[0]] + Fields(Terminated(cells[1..]) + last);
        { FieldsOfTerminated(cells[1..], last); }
        [cells[0]] + (cells[1..] + [last]);
        { assert [cells[0]] + cells[1..] == cells; }
        cells + [last];
      }
    }
  }

  /** The strings of a list written one after another. */
  function Concat(parts: seq<string>): (s: string)
  {
    if parts == [] then "" else parts[0] + Concat(parts[1..])
  }
}
