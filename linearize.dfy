/**
 * Row linearisation (tools/datasets/convert_datasets.py, inside
 * `convert_table`): keep the columns whose name occurs in the prompt and
 * write each row as `"name: value"` pairs joined with `"; "`.
 */
module Linearize {

  /** A table as read from its CSV file: a header and rows of cell texts. */
  datatype Table = Table(header: seq<string>, rows: seq<seq<string>>)

  /** Every row has one cell per header column, as in a data frame. */
  predicate Rectangular(t: Table)
  {
    forall r :: r in t.rows ==> |r| == |t.header|
  }

  /** Declarative substring test: `needle` starts at some position of `hay`. */
  ghost predicate Occurs(needle: string, hay: string)
  {
    exists k :: 0 <= k <= |hay| && needle <= hay[k..]
  }

  /** Python's `needle in hay` on strings, computed left to right. */
  function Contains(hay: string, needle: string): bool
    decreases |hay|
  {
    needle <= hay || (|hay| > 0 && Contains(hay[1..], needle))
  }

  lemma {:induction false} ContainsOccurs(hay: string, needle: string)
    ensures Contains(hay, needle) <==> Occurs(needle, hay)
    decreases |hay|
  {
    if needle <= hay {
      assert hay[0..] == hay;
    } else if |hay| > 0 {
      ContainsOccurs(hay[1..], needle);
      if Contains(hay[1..], needle) {
        var k :| 0 <= k <= |hay[1..]| && needle <= hay[1..][k..];
        assert hay[1..][k..] == hay[k + 1..];
      }
      if Occurs(needle, hay) {
        var k :| 0 <= k <= |hay| && needle <= hay[k..];
        assert k != 0;
        assert hay[1..][k - 1..] == hay[k..];
      }
    }
  }

  /** The indices, from `k` on, of the header columns whose name occurs in `prompt`. */
  function KeptColumnsFrom(header: seq<string>, prompt: string, k: nat): (cols: seq<nat>)
    requires k <= |header|
    ensures forall j :: 0 <= j < |cols| ==> k <= cols[j] < |header|
    ensures forall i, j :: 0 <= i < j < |cols| ==> cols[i] < cols[j]
    ensures forall c: int :: c in cols <==> k <= c < |header| && Contains(prompt, header[c])
    decreases |header| - k
  {
    if k == |header| then []
    else
      var rest := KeptColumnsFrom(header, prompt, k + 1);
      if Contains(prompt, header[k]) then [k] + rest else rest
  }

  /**
   * The column filter `[c for c in data if c in prompt]`: the kept
   * columns, in table order, are exactly those whose name is a substring
   * of the prompt.
   */
  function KeptColumns(header: seq<string>, prompt: string): (cols: seq<nat>)
    ensures forall j :: 0 <= j < |cols| ==> cols[j] < |header|
    ensures forall i, j :: 0 <= i < j < |cols| ==> cols[i] < cols[j]
    ensures forall c: int :: c in cols <==> 0 <= c < |header| && Occurs(header[c], prompt)
  {
    var cols := KeptColumnsFrom(header, prompt, 0);
    forall c: int | 0 <= c < |header|
      ensures Contains(prompt, header[c]) <==> Occurs(header[c], prompt)
    {
      ContainsOccurs(prompt, header[c]);
    }
    cols
  }

  /** Python's `sep.join(parts)`. */
  function Join(parts: seq<string>, sep: string): (s: string)
    ensures |parts| > 0 ==> parts[0] <= s
  {
    if |parts| == 0 then ""
    else if |parts| == 1 then parts[0]
    else parts[0] + sep + Join(parts[1..], sep)
  }

  /** One kept field, as the f-string `f"{name}: {value}"` writes it. */
  function FieldText(name: string, value: string): (text: string)
    ensures |text| >= 2
  {
    name + ": " + value
  }

  /**
   * The linearisation of one row over the kept columns, in column order.
   * It is empty exactly when no column name occurs in the prompt, since
   * every field contributes at least its `": "`.
   */
  function LinearizeRow(header: seq<string>, row: seq<string>, prompt: string): (line: string)
    requires |row| == |header|
    ensures line == "" <==> KeptColumns(header, prompt) == []
  {
    var cols := KeptColumns(header, prompt);
    Join(seq(|cols|, i requires 0 <= i < |cols| => FieldText(header[cols[i]], row[cols[i]])), "; ")
  }

  /** The linearisations of all rows: exactly one string per row, in row order. */
  function LinearizeRows(header: seq<string>, rows: seq<seq<string>>, prompt: string): (lins: seq<string>)
    requires forall r :: r in rows ==> |r| == |header|
    ensures |lins| == |rows|
    ensures forall i :: 0 <= i < |rows| ==> lins[i] == LinearizeRow(header, rows[i], prompt)
  {
    if rows == [] then []
    else [LinearizeRow(header, rows[0], prompt)] + LinearizeRows(header, rows[1..], prompt)
  }

  function LinearizeTable(t: Table, prompt: string): (lins: seq<string>)
    requires Rectangular(t)
  {
    LinearizeRows(t.header, t.rows, prompt)
  }

  lemma KeptExample()
    ensures KeptColumns(["phase", "drug"], "phase, drug") == [0, 1]
  {
    var header := ["phase", "drug"];
    var prompt := "phase, drug";
    assert "phase" <= prompt;
    assert "drug" <= prompt[7..];
    ContainsOccurs(prompt, "drug");
    assert KeptColumnsFrom(header, prompt, 2) == [];
    assert KeptColumnsFrom(header, prompt, 1) == [1];
  }

  lemma RowExample(phase: string, drug: string)
    ensures LinearizeRow(["phase", "drug"], [phase, drug], "phase, drug")
         == FieldText("phase", phase) + "; " + FieldText("drug", drug)
  {
    var header, row, prompt := ["phase", "drug"], [phase, drug], "phase, drug";
    var cols := KeptColumns(header, prompt);
    KeptExample();
    var fields := seq(|cols|, i requires 0 <= i < |cols| => FieldText(header[cols[i]], row[cols[i]]));
    assert LinearizeRow(header, row, prompt) == Join(fields, "; ");
    assert fields[0] == FieldText("phase", phase);
    assert fields[1] == FieldText("drug", drug);
    JoinPair(fields, "; ");
  }

  /** Two parts are joined by one separator. */
  lemma JoinPair(parts: seq<string>, sep: string)
    requires |parts| == 2
    ensures Join(parts, sep) == parts[0] + sep + parts[1]
  {
    assert Join(parts[1..], sep) == parts[1];
  }

  /**
   * A two-row example (columns "phase" and "drug"),
   * for any cell values: both columns are named in the prompt, so each row
   * becomes its two fields joined by "; ", one string per row in order.
   */
  lemma LinearizeExample(phase0: string, drug0: string, phase1: string, drug1: string)
    ensures LinearizeTable(Table(["phase", "drug"], [[phase0, drug0], [phase1, drug1]]), "phase, drug")
         == [FieldText("phase", phase0) + "; " + FieldText("drug", drug0),
             FieldText("phase", phase1) + "; " + FieldText("drug", drug1)]
  {
    RowExample(phase0, drug0);
    RowExample(phase1, drug1);
  }
}
