/**
 * The four categorical fields of the price form: the labels each selection
 * box offers, and the hard-coded lookup table that turns a label into the
 * one-hot segment the regression model was trained on.
 */
module Tables {
  import opened Wrappers
  import opened OneHot

  /** The categorical inputs, in the order their segments appear in the feature row. */
  datatype Field = ProcessorName | ProcessorCore | OsType | SimType

  /** The labels the form's selection box offers for a field, in display order. */
  function Options(f: Field): seq<string> {
    match f
    case ProcessorName => ProcessorNames
    case ProcessorCore => ProcessorCores
    case OsType => OsTypes
    case SimType => SimTypes
  }

  /** The processor names offered, in the order of the table's columns. */
  const ProcessorNames: seq<string> :=
    ["None", "A13", "Apple", "Bionic", "Dimensity", "Exynos", "Helio", "Kirin",
     "Qualcomm", "SC9863A", "Snapdragon", "Spreadtrum", "Tensor", "Tiger", "Unisoc"]
  /** The core counts offered, then the operating systems and the SIM types. */
  const ProcessorCores: seq<string> := ["None", "Dual Core", "Hexa Core", "Octa Core", "Quad Core"]
  const OsTypes: seq<string> := ["Android", "iOS"]
  const SimTypes: seq<string> := ["Dual Sim", "Single Sim"]

  /** Number of columns a field's segment takes in the feature row: one per offered label (OptionsShape). */
  function Width(f: Field): nat {
    match f
    case ProcessorName => 15
    case ProcessorCore => 5
    case OsType => 2
    case SimType => 2
  }

  /** The literal label-to-list table of a field, entry for entry as hard-coded. */
  function Table(f: Field): map<string, seq<int>> {
    match f
    case ProcessorName => ProcessorNameTable
    case ProcessorCore => ProcessorCoreTable
    case OsType => OsTypeTable
    case SimType => SimTypeTable
  }

  /** The hard-coded tables, one entry per label, each list with a single 1. */
  const ProcessorNameTable: map<string, seq<int>> :=
      map[
        "None" := [1,0,0,0,0,0,0,0,0,0,0,0,0,0,0],
        "A13" := [0,1,0,0,0,0,0,0,0,0,0,0,0,0,0],
        "Apple" := [0,0,1,0,0,0,0,0,0,0,0,0,0,0,0],
        "Bionic" := [0,0,0,1,0,0,0,0,0,0,0,0,0,0,0],
        "Dimensity" := [0,0,0,0,1,0,0,0,0,0,0,0,0,0,0],
        "Exynos" := [0,0,0,0,0,1,0,0,0,0,0,0,0,0,0],
        "Helio" := [0,0,0,0,0,0,1,0,0,0,0,0,0,0,0],
        "Kirin" := [0,0,0,0,0,0,0,1,0,0,0,0,0,0,0],
        "Qualcomm" := [0,0,0,0,0,0,0,0,1,0,0,0,0,0,0],
        "SC9863A" := [0,0,0,0,0,0,0,0,0,1,0,0,0,0,0],
        "Snapdragon" := [0,0,0,0,0,0,0,0,0,0,1,0,0,0,0],
        "Spreadtrum" := [0,0,0,0,0,0,0,0,0,0,0,1,0,0,0],
        "Tensor" := [0,0,0,0,0,0,0,0,0,0,0,0,1,0,0],
        "Tiger" := [0,0,0,0,0,0,0,0,0,0,0,0,0,1,0],
        "Unisoc" := [0,0,0,0,0,0,0,0,0,0,0,0,0,0,1]
      ]

  const ProcessorCoreTable: map<string, seq<int>> :=
      map[
        "None" := [1,0,0,0,0],
        "Dual Core" := [0,1,0,0,0],
        "Hexa Core" := [0,0,1,0,0],
        "Octa Core" := [0,0,0,1,0],
        "Quad Core" := [0,0,0,0,1]
      ]
  const OsTypeTable: map<string, seq<int>> := map["Android" := [1,0], "iOS" := [0,1]]
  const SimTypeTable: map<string, seq<int>> := map["Dual Sim" := [1,0], "Single Sim" := [0,1]]

  /** Each selection box offers one label per column of its segment, none of them twice. */
  lemma OptionsShape(f: Field)
    ensures |Options(f)| == Width(f)
    ensures Distinct(Options(f))
  {
  }

  /** Where the documented labels sit: 'None' first, 'Snapdragon' eleventh, 'Octa Core' fourth. */
  lemma DocumentedPositions()
    ensures IndexOf(Options(ProcessorName), "None") == 0
    ensures IndexOf(Options(ProcessorName), "Snapdragon") == 10
    ensures IndexOf(Options(ProcessorCore), "None") == 0
    ensures IndexOf(Options(ProcessorCore), "Octa Core") == 3
    ensures IndexOf(Options(OsType), "Android") == 0 && IndexOf(Options(OsType), "iOS") == 1
    ensures IndexOf(Options(SimType), "Dual Sim") == 0 && IndexOf(Options(SimType), "Single Sim") == 1
  {
    OptionsShape(ProcessorName);
    IndexOfDistinct(Options(ProcessorName), 0);
    IndexOfDistinct(Options(ProcessorName), 10);
    OptionsShape(ProcessorCore);
    IndexOfDistinct(Options(ProcessorCore), 0);
    IndexOfDistinct(Options(ProcessorCore), 3);
    OptionsShape(OsType);
    IndexOfDistinct(Options(OsType), 0);
    IndexOfDistinct(Options(OsType), 1);
    OptionsShape(SimType);
    IndexOfDistinct(Options(SimType), 0);
    IndexOfDistinct(Options(SimType), 1);
  }

  /** The table's keys are exactly the labels the selection box offers. */
  lemma KeysAreOptions(f: Field)
    ensures Table(f).Keys == set l | l in Options(f)
  {
  }

  /**
   * Every row of the literal table is the one-hot encoding of its label at the
   * label's position in the form's option list.
   */
  lemma TableIsEncoding(f: Field, l: string)
    ensures Get(Table(f), l) == Encode(Options(f), l)
  {
    KeysAreOptions(f);
    if l in Options(f) {
      OptionsShape(f);
      var i := IndexOf(Options(f), l);
      RowIsUnitVector(f, i);
    }
  }

  /** Row `i` of the literal table has its single 1 at column `i`. */
  lemma RowIsUnitVector(f: Field, i: nat)
    requires i < Width(f)
    ensures Options(f)[i] in Table(f)
    ensures Table(f)[Options(f)[i]] == UnitVector(Width(f), i)
  {
    KeysAreOptions(f);
    match f
    case ProcessorName =>
      if i <= 1 { ProcessorNameRows0And1(); }
      else if i <= 3 { ProcessorNameRows2And3(); }
      else if i <= 5 { ProcessorNameRows4And5(); }
      else if i <= 7 { ProcessorNameRows6And7(); }
      else if i <= 9 { ProcessorNameRows8And9(); }
      else if i <= 11 { ProcessorNameRows10And11(); }
      else if i <= 13 { ProcessorNameRows12And13(); }
      else { ProcessorNameRows14(); }
    case ProcessorCore =>
      if i <= 1 { ProcessorCoreRows0And1(); }
      else if i <= 3 { ProcessorCoreRows2And3(); }
      else { ProcessorCoreRows4(); }
    case OsType =>
      OsTypeRows0And1();
    case SimType =>
      SimTypeRows0And1();
  }

  // The literal rows, two per lemma so that each proof obligation stays small.

  lemma ProcessorNameRows0And1()
    ensures Table(ProcessorName)["None"] == UnitVector(15, 0)
    ensures Table(ProcessorName)["A13"] == UnitVector(15, 1)
  {
  }

  lemma ProcessorNameRows2And3()
    ensures Table(ProcessorName)["Apple"] == UnitVector(15, 2)
    ensures Table(ProcessorName)["Bionic"] == UnitVector(15, 3)
  {
  }

  lemma ProcessorNameRows4And5()
    ensures Table(ProcessorName)["Dimensity"] == UnitVector(15, 4)
    ensures Table(ProcessorName)["Exynos"] == UnitVector(15, 5)
  {
  }

  lemma ProcessorNameRows6And7()
    ensures Table(ProcessorName)["Helio"] == UnitVector(15, 6)
    ensures Table(ProcessorName)["Kirin"] == UnitVector(15, 7)
  {
  }

  lemma ProcessorNameRows8And9()
    ensures Table(ProcessorName)["Qualcomm"] == UnitVector(15, 8)
    ensures Table(ProcessorName)["SC9863A"] == UnitVector(15, 9)
  {
  }

  lemma ProcessorNameRows10And11()
    ensures Table(ProcessorName)["Snapdragon"] == UnitVector(15, 10)
    ensures Table(ProcessorName)["Spreadtrum"] == UnitVector(15, 11)
  {
  }

  lemma ProcessorNameRows12And13()
    ensures Table(ProcessorName)["Tensor"] == UnitVector(15, 12)
    ensures Table(ProcessorName)["Tiger"] == UnitVector(15, 13)
  {
  }

  lemma ProcessorNameRows14()
    ensures Table(ProcessorName)["Unisoc"] == UnitVector(15, 14)
  {
  }

  lemma ProcessorCoreRows0And1()
    ensures Table(ProcessorCore)["None"] == UnitVector(5, 0)
    ensures Table(ProcessorCore)["Dual Core"] == UnitVector(5, 1)
  {
  }

  lemma ProcessorCoreRows2And3()
    ensures Table(ProcessorCore)["Hexa Core"] == UnitVector(5, 2)
    ensures Table(ProcessorCore)["Octa Core"] == UnitVector(5, 3)
  {
  }

  lemma ProcessorCoreRows4()
    ensures Table(ProcessorCore)["Quad Core"] == UnitVector(5, 4)
  {
  }

  lemma OsTypeRows0And1()
    ensures Table(OsType)["Android"] == UnitVector(2, 0)
    ensures Table(OsType)["iOS"] == UnitVector(2, 1)
  {
  }

  lemma SimTypeRows0And1()
    ensures Table(SimType)["Dual Sim"] == UnitVector(2, 0)
    ensures Table(SimType)["Single Sim"] == UnitVector(2, 1)
  {
  }
}
