/**
 * The fixed table orders of the dataset converters
 * (tools/datasets/convert_datasets.py): `convert_ctod` and `convert_hint`
 * run `convert_table` once per (phase, split) pair, phases in the outer
 * loop, each table named `phase_<phase>_<split>`.
 */
module Datasets {

  function TableName(phase: string, split: string): string
  {
    "phase_" + phase + "_" + split
  }

  /** The names the inner loop visits for one phase. */
  function PhaseTables(phase: string, splits: seq<string>): seq<string>
  {
    seq(|splits|, j requires 0 <= j < |splits| => TableName(phase, splits[j]))
  }

  /** The names the two nested loops visit, in order: phase-major, split-minor. */
  function TableNames(phases: seq<string>, splits: seq<string>): (names: seq<string>)
    ensures |names| == |phases| * |splits|
  {
    if phases == [] then []
    else PhaseTables(phases[0], splits) + TableNames(phases[1..], splits)
  }

  /** The `(i * |splits| + j)`-th table is phase `i` with split `j`. */
  lemma {:induction false} TableNameAt(phases: seq<string>, splits: seq<string>, i: nat, j: nat)
    requires i < |phases| && j < |splits|
    ensures i * |splits| + j < |TableNames(phases, splits)|
    ensures TableNames(phases, splits)[i * |splits| + j] == TableName(phases[i], splits[j])
    decreases i
  {
    var head := PhaseTables(phases[0], splits);
    assert TableNames(phases, splits) == head + TableNames(phases[1..], splits);
    if i > 0 {
      TableNameAt(phases[1..], splits, i - 1, j);
      assert i * |splits| + j == |head| + ((i - 1) * |splits| + j);
    }
  }

  lemma PhaseTablesOf(phase: string, splits: seq<string>)
    ensures |PhaseTables(phase, splits)| == |splits|
    ensures forall j :: 0 <= j < |splits| ==> PhaseTables(phase, splits)[j] == TableName(phase, splits[j])
  {
  }

  /** `convert_ctod`: phases I, III, II; splits valid, train. */
  function CtodTables(): (names: seq<string>)
    ensures |names| == 6
  {
    TableNames(["I", "III", "II"], ["valid", "train"])
  }

  /** `convert_hint`: phases I, II, III; splits train, valid, test. */
  function HintTables(): (names: seq<string>)
    ensures |names| == 9
  {
    TableNames(["I", "II", "III"], ["train", "valid", "test"])
  }

  /** The six tables `convert_ctod` converts, in the order it converts them. */
  lemma CtodOrder()
    ensures CtodTables() == ["phase_I_valid", "phase_I_train", "phase_III_valid", "phase_III_train",
                             "phase_II_valid", "phase_II_train"]
  {
    var splits := ["valid", "train"];
    assert PhaseTables("I", splits) == ["phase_I_valid", "phase_I_train"] by {
      PhaseTablesOf("I", splits);
      assert TableName("I", "valid") == "phase_I_valid";
      assert TableName("I", "train") == "phase_I_train";
    }
    assert PhaseTables("III", splits) == ["phase_III_valid", "phase_III_train"] by {
      PhaseTablesOf("III", splits);
      assert TableName("III", "valid") == "phase_III_valid";
      assert TableName("III", "train") == "phase_III_train";
    }
    assert PhaseTables("II", splits) == ["phase_II_valid", "phase_II_train"] by {
      PhaseTablesOf("II", splits);
      assert TableName("II", "valid") == "phase_II_valid";
      assert TableName("II", "train") == "phase_II_train";
    }
    assert TableNames(["II"], splits) == PhaseTables("II", splits) + TableNames([], splits) by {
      assert ["II"][1..] == [];
    }
    assert TableNames(["III", "II"], splits) == PhaseTables("III", splits) + TableNames(["II"], splits) by {
      assert ["III", "II"][1..] == ["II"];
    }
    assert TableNames(["I", "III", "II"], splits) == PhaseTables("I", splits) + TableNames(["III", "II"], splits) by {
      assert ["I", "III", "II"][1..] == ["III", "II"];
    }
  }

  /** The nine tables `convert_hint` converts, in the order it converts them. */
  lemma HintOrder()
    ensures HintTables() == ["phase_I_train", "phase_I_valid", "phase_I_test",
                             "phase_II_train", "phase_II_valid", "phase_II_test",
                             "phase_III_train", "phase_III_valid", "phase_III_test"]
  {
    var splits := ["train", "valid", "test"];
    assert PhaseTables("I", splits) == ["phase_I_train", "phase_I_valid", "phase_I_test"] by {
      PhaseTablesOf("I", splits);
      assert TableName("I", "train") == "phase_I_train";
      assert TableName("I", "valid") == "phase_I_valid";
      assert TableName("I", "test") == "phase_I_test";
    }
    assert PhaseTables("II", splits) == ["phase_II_train", "phase_II_valid", "phase_II_test"] by {
      PhaseTablesOf("II", splits);
      assert TableName("II", "train") == "phase_II_train";
      assert TableName("II", "valid") == "phase_II_valid";
      assert TableName("II", "test") == "phase_II_test";
    }
    assert PhaseTables("III", splits) == ["phase_III_train", "phase_III_valid", "phase_III_test"] by {
      PhaseTablesOf("III", splits);
      assert TableName("III", "train") == "phase_III_train";
      assert TableName("III", "valid") == "phase_III_valid";
      assert TableName("III", "test") == "phase_III_test";
    }
    assert TableNames(["III"], splits) == PhaseTables("III", splits) + TableNames([], splits) by {
      assert ["III"][1..] == [];
    }
    assert TableNames(["II", "III"], splits) == PhaseTables("II", splits) + TableNames(["III"], splits) by {
      assert ["II", "III"][1..] == ["III"];
    }
    assert TableNames(["I", "II", "III"], splits) == PhaseTables("I", splits) + TableNames(["II", "III"], splits) by {
      assert ["I", "II", "III"][1..] == ["II", "III"];
    }
  }
}
