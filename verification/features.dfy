/**
 * Assembly of the feature row handed to the price model: the ten numeric
 * specifications in their training-column order, followed by the one-hot
 * segments of the processor name, processor core, OS type and SIM type.
 */
module Features {
  import opened Wrappers
  import opened OneHot
  import opened Tables

  /**
   * The ten numeric specifications. Integers and floats of the form alike are
   * carried as reals; only their position in the row matters here.
   */
  datatype Specs = Specs(
    ram: real, rom: real, battery: real, processorSpeed: real, screenSize: real,
    screenResX: real, screenResY: real, osVersion: real, frontCamera: real, rearCamera: real)

  /** The four categorical selections, as labels. */
  datatype Selection = Selection(processorName: string, processorCore: string, osType: string, simType: string)

  /** Why no row could be built: the first field, in row order, whose label has no table entry. */
  datatype RowError = UnknownLabel(field: Field, text: string)

  /** The label chosen for field `f`. */
  function Label(c: Selection, f: Field): string {
    match f
    case ProcessorName => c.processorName
    case ProcessorCore => c.processorCore
    case OsType => c.osType
    case SimType => c.simType
  }

  /** Every label of the selection is one its selection box offers. */
  predicate Offered(c: Selection) {
    forall f: Field :: Label(c, f) in Options(f)
  }

  /** Number of numeric columns at the head of the row. */
  const NumericCount: nat := 10

  /** Position of field `f`'s segment among the four segments of the row. */
  function Rank(f: Field): nat {
    match f
    case ProcessorName => 0
    case ProcessorCore => 1
    case OsType => 2
    case SimType => 3
  }

  /** Column at which field `f`'s segment starts (RowLayout: right after the segments before it). */
  function Offset(f: Field): nat {
    match f
    case ProcessorName => 10
    case ProcessorCore => 25
    case OsType => 30
    case SimType => 32
  }

  /** Total width of the row. */
  const RowWidth: nat := 34

  /**
   * The segments follow the numeric prefix and each other without gap or
   * overlap, each one column per offered label: 10 + 15 + 5 + 2 + 2 = 34.
   */
  lemma RowLayout()
    ensures Offset(ProcessorName) == NumericCount
    ensures Offset(ProcessorCore) == Offset(ProcessorName) + |Options(ProcessorName)|
    ensures Offset(OsType) == Offset(ProcessorCore) + |Options(ProcessorCore)|
    ensures Offset(SimType) == Offset(OsType) + |Options(OsType)|
    ensures RowWidth == Offset(SimType) + |Options(SimType)|
  {
    OptionsShape(ProcessorName);
    OptionsShape(ProcessorCore);
    OptionsShape(OsType);
    OptionsShape(SimType);
  }

  /** The numeric prefix, in training-column order. */
  function Numeric(s: Specs): seq<real> {
    [s.ram, s.rom, s.battery, s.processorSpeed, s.screenSize,
     s.screenResX, s.screenResY, s.osVersion, s.frontCamera, s.rearCamera]
  }

  /** The specifications read back from a numeric prefix. */
  function SpecsOf(p: seq<real>): (s: Specs)
    requires |p| >= NumericCount
    ensures Numeric(s) == p[..NumericCount]
  {
    Specs(p[0], p[1], p[2], p[3], p[4], p[5], p[6], p[7], p[8], p[9])
  }

  /** Reading back a prefix that lists `s`'s numbers gives `s`. */
  lemma SpecsOfNumeric(p: seq<real>, s: Specs)
    requires |p| >= NumericCount && p[..NumericCount] == Numeric(s)
    ensures SpecsOf(p) == s
  {
    assert forall i :: 0 <= i < NumericCount ==> p[i] == Numeric(s)[i];
  }

  /**
   * The table lookup for one field, `None` when the label is not a key: it
   * succeeds exactly on the labels the selection box offers.
   */
  function Lookup(f: Field, l: string): (r: Option<seq<int>>)
    ensures r.Some? <==> l in Options(f)
    ensures r.Some? ==> |r.value| == Width(f)
  {
    TableIsEncoding(f, l);
    OptionsShape(f);
    Get(Table(f), l)
  }

  /**
   * A successful lookup is the one-hot list with its single 1 at the label's
   * position in the selection box, and `width - 1` zeros.
   */
  lemma LookupIsOneHot(f: Field, l: string)
    requires l in Options(f)
    ensures Lookup(f, l) == Encode(Options(f), l)
    ensures IsOneHotAt(Lookup(f, l).value, IndexOf(Options(f), l))
    ensures Count(Lookup(f, l).value, 1) == 1
    ensures Count(Lookup(f, l).value, 0) == Width(f) - 1
  {
    TableIsEncoding(f, l);
    EncodingShape(Options(f), l);
  }

  /** Integer list entries as the reals they become in the numeric row. */
  function AsReals(v: seq<int>): (r: seq<real>)
    ensures |r| == |v|
    ensures forall i :: 0 <= i < |v| ==> r[i] == v[i] as real
  {
    seq(|v|, i requires 0 <= i < |v| => v[i] as real)
  }

  /** Reals that are all whole numbers, back as integers; `None` if one is not. */
  function AsInts(r: seq<real>): (v: Option<seq<int>>)
    ensures v.Some? <==> forall i :: 0 <= i < |r| ==> r[i].Floor as real == r[i]
    ensures v.Some? ==> AsReals(v.value) == r
  {
    if forall i :: 0 <= i < |r| ==> r[i].Floor as real == r[i] then
      Some(seq(|r|, i requires 0 <= i < |r| => r[i].Floor))
    else None
  }

  /** Converting integers to reals and back is the identity. */
  lemma AsIntsAsReals(v: seq<int>)
    ensures AsInts(AsReals(v)) == Some(v)
  {
    var r := AsReals(v);
    assert forall i :: 0 <= i < |r| ==> r[i].Floor == v[i];
    assert seq(|r|, i requires 0 <= i < |r| => r[i].Floor) == v;
  }

  /** The columns of field `f`'s segment. */
  function Segment(row: seq<real>, f: Field): (seg: seq<real>)
    requires |row| == RowWidth
    ensures |seg| == Width(f)
  {
    row[Offset(f)..Offset(f) + Width(f)]
  }

  /** The four encoded lists, one per categorical field. */
  datatype Segments = Segments(name: seq<int>, core: seq<int>, os: seq<int>, sim: seq<int>) {
    /** The list of field `f`. */
    function Of(f: Field): seq<int> {
      match f
      case ProcessorName => name
      case ProcessorCore => core
      case OsType => os
      case SimType => sim
    }

    /** Every list has its field's width. */
    predicate Fits() {
      && |name| == Width(ProcessorName) && |core| == Width(ProcessorCore)
      && |os| == Width(OsType) && |sim| == Width(SimType)
    }
  }

  /**
   * The four lookups. All are made first; a missing entry then stops the
   * concatenation at the first missing segment in row order, which is the
   * error reported.
   */
  function EncodeSelection(c: Selection): (r: Result<Segments, RowError>)
    ensures r.Success? <==> Offered(c)
    ensures r.Success? ==> Lookup(ProcessorName, c.processorName) == Some(r.value.name)
    ensures r.Success? ==> Lookup(ProcessorCore, c.processorCore) == Some(r.value.core)
    ensures r.Success? ==> Lookup(OsType, c.osType) == Some(r.value.os)
    ensures r.Success? ==> Lookup(SimType, c.simType) == Some(r.value.sim)
    ensures r.Success? ==> r.value.Fits()
  {
    var name := Lookup(ProcessorName, c.processorName);
    var core := Lookup(ProcessorCore, c.processorCore);
    var os := Lookup(OsType, c.osType);
    var sim := Lookup(SimType, c.simType);
    if name.None? then Failure(UnknownLabel(ProcessorName, c.processorName))
    else if core.None? then Failure(UnknownLabel(ProcessorCore, c.processorCore))
    else if os.None? then Failure(UnknownLabel(OsType, c.osType))
    else if sim.None? then Failure(UnknownLabel(SimType, c.simType))
    else Success(Segments(name.value, core.value, os.value, sim.value))
  }

  /**
   * Builds the feature row: the numeric prefix followed by the four encoded
   * segments, or the error of the first label that has no table entry.
   */
  function AssembleRow(s: Specs, c: Selection): (r: Result<seq<real>, RowError>)
    ensures r.Success? <==> Offered(c)
    ensures r.Failure? ==> EncodeSelection(c) == Failure(r.error)
    ensures r.Success? ==>
      && |r.value| == RowWidth
      && r.value[..NumericCount] == Numeric(s)
      && forall f: Field :: Segment(r.value, f) == AsReals(EncodeSelection(c).value.Of(f))
  {
    match EncodeSelection(c)
    case Failure(e) => Failure(e)
    case Success(seg) =>
      Success(Row(s, seg))
  }

  /**
   * A failed assembly names the first field, in row order, whose label is not
   * offered, together with that label; every earlier field's label is offered.
   */
  lemma UnknownLabelIsFirst(s: Specs, c: Selection)
    requires AssembleRow(s, c).Failure?
    ensures var e := AssembleRow(s, c).error;
      && e.text == Label(c, e.field)
      && e.text !in Options(e.field)
      && forall g: Field :: Rank(g) < Rank(e.field) ==> Label(c, g) in Options(g)
  {
  }

  /** The numeric prefix followed by the four segments, each found back at its offset. */
  function Row(s: Specs, seg: Segments): (row: seq<real>)
    requires seg.Fits()
    ensures |row| == RowWidth && row[..NumericCount] == Numeric(s)
    ensures forall f: Field :: Segment(row, f) == AsReals(seg.Of(f))
  {
    var row := Numeric(s) + AsReals(seg.name) + AsReals(seg.core) + AsReals(seg.os) + AsReals(seg.sim);
    assert Segment(row, ProcessorName) == AsReals(seg.name);
    assert Segment(row, ProcessorCore) == AsReals(seg.core);
    assert Segment(row, OsType) == AsReals(seg.os);
    assert Segment(row, SimType) == AsReals(seg.sim);
    row
  }

  /**
   * Every segment of an assembled row is the one-hot list of the chosen label:
   * its single 1 sits at the label's position in the selection box.
   */
  lemma RowSegmentIsOneHot(s: Specs, c: Selection, f: Field)
    requires Offered(c)
    ensures Segment(AssembleRow(s, c).value, f) == AsReals(Encode(Options(f), Label(c, f)).value)
    ensures Segment(AssembleRow(s, c).value, f) == AsReals(UnitVector(Width(f), IndexOf(Options(f), Label(c, f))))
  {
    var seg := EncodeSelection(c).value;
    assert Lookup(f, Label(c, f)) == Some(seg.Of(f));
    LookupIsOneHot(f, Label(c, f));
    OptionsShape(f);
  }

  /**
   * The row's columns in order: RAM, ROM, battery, processor speed, screen
   * size, horizontal and vertical resolution, OS version, front and rear
   * camera; then the processor-name, processor-core, OS and SIM segments at
   * columns 10, 25, 30 and 32.
   */
  lemma RowOrder(s: Specs, c: Selection)
    requires Offered(c)
    ensures var row := AssembleRow(s, c).value;
      && |row| == 34
      && row[0] == s.ram && row[1] == s.rom && row[2] == s.battery
      && row[3] == s.processorSpeed && row[4] == s.screenSize
      && row[5] == s.screenResX && row[6] == s.screenResY && row[7] == s.osVersion
      && row[8] == s.frontCamera && row[9] == s.rearCamera
      && row[10..25] == AsReals(Lookup(ProcessorName, c.processorName).value)
      && row[25..30] == AsReals(Lookup(ProcessorCore, c.processorCore).value)
      && row[30..32] == AsReals(Lookup(OsType, c.osType).value)
      && row[32..34] == AsReals(Lookup(SimType, c.simType).value)
  {
    RowLayout();
    var row := AssembleRow(s, c).value;
    assert row[..NumericCount] == Numeric(s);
    assert forall i :: 0 <= i < NumericCount ==> row[i] == row[..NumericCount][i];
    assert Segment(row, ProcessorName) == row[10..25];
    assert Segment(row, ProcessorCore) == row[25..30];
    assert Segment(row, OsType) == row[30..32];
    assert Segment(row, SimType) == row[32..34];
  }

  /** The label whose one-hot list occupies field `f`'s segment, if the segment is one. */
  function DecodeField(row: seq<real>, f: Field): (l: Option<string>)
    requires |row| == RowWidth
    ensures l.Some? ==> l.value in Options(f)
  {
    match AsInts(Segment(row, f))
    case None => None
    case Some(v) => Decode(Options(f), v)
  }

  /**
   * Reads a feature row back into the inputs it was assembled from; `None`
   * when the row has the wrong width or a segment is not a one-hot list.
   */
  function Decompose(row: seq<real>): (r: Option<(Specs, Selection)>)
    ensures r.Some? ==> |row| == RowWidth
  {
    if |row| != RowWidth then None
    else
      match (DecodeField(row, ProcessorName), DecodeField(row, ProcessorCore),
             DecodeField(row, OsType), DecodeField(row, SimType))
      case (Some(name), Some(core), Some(os), Some(sim)) =>
        Some((SpecsOf(row), Selection(name, core, os, sim)))
      case _ => None
  }

  /** Field `f`'s segment of an assembled row decodes to the chosen label. */
  lemma DecodeAssembledField(s: Specs, c: Selection, f: Field)
    requires Offered(c)
    ensures DecodeField(AssembleRow(s, c).value, f) == Some(Label(c, f))
  {
    var v := Encode(Options(f), Label(c, f)).value;
    RowSegmentIsOneHot(s, c, f);
    AsIntsAsReals(v);
    DecodeEncode(Options(f), Label(c, f));
  }

  /** Decomposing an assembled row gives back the specifications and the selection. */
  lemma DecomposeAssemble(s: Specs, c: Selection)
    requires AssembleRow(s, c).Success?
    ensures Decompose(AssembleRow(s, c).value) == Some((s, c))
  {
    var row := AssembleRow(s, c).value;
    assert Offered(c);
    assert |row| == RowWidth && row[..NumericCount] == Numeric(s);
    DecodeAssembledField(s, c, ProcessorName);
    DecodeAssembledField(s, c, ProcessorCore);
    DecodeAssembledField(s, c, OsType);
    DecodeAssembledField(s, c, SimType);
    DecomposeFrom(row, s, c);
  }

  /** A full-width row whose prefix and segments read as `s` and `c` decomposes to them. */
  lemma DecomposeFrom(row: seq<real>, s: Specs, c: Selection)
    requires |row| == RowWidth && row[..NumericCount] == Numeric(s)
    requires DecodeField(row, ProcessorName) == Some(c.processorName)
    requires DecodeField(row, ProcessorCore) == Some(c.processorCore)
    requires DecodeField(row, OsType) == Some(c.osType)
    requires DecodeField(row, SimType) == Some(c.simType)
    ensures Decompose(row) == Some((s, c))
  {
    SpecsOfNumeric(row, s);
  }

  /** A segment that decodes to `l` is the table's list for `l`. */
  lemma DecodedFieldIsLookup(row: seq<real>, f: Field, l: string)
    requires |row| == RowWidth
    requires DecodeField(row, f) == Some(l)
    ensures Lookup(f, l).Some? && Segment(row, f) == AsReals(Lookup(f, l).value)
  {
    var v := AsInts(Segment(row, f)).value;
    OptionsShape(f);
    EncodeDecode(Options(f), v, l);
    LookupIsOneHot(f, l);
  }

  /** Two rows of full width with the same prefix and the same four segments are equal. */
  lemma SameColumns(a: seq<real>, b: seq<real>)
    requires |a| == RowWidth && |b| == RowWidth
    requires a[..NumericCount] == b[..NumericCount]
    requires forall f: Field :: Segment(a, f) == Segment(b, f)
    ensures a == b
  {
    RowLayout();
    forall i | 0 <= i < |a|
      ensures a[i] == b[i]
    {
      if i < NumericCount {
        assert a[i] == a[..NumericCount][i];
      } else {
        var f := if i < 25 then ProcessorName else if i < 30 then ProcessorCore
                 else if i < 32 then OsType else SimType;
        assert a[i] == Segment(a, f)[i - Offset(f)];
        assert b[i] == Segment(b, f)[i - Offset(f)];
      }
    }
  }

  /** The labels of a decomposed row are what its four segments decode to. */
  lemma DecomposedLabels(row: seq<real>, s: Specs, c: Selection)
    requires Decompose(row) == Some((s, c))
    ensures |row| == RowWidth
    ensures forall g: Field :: DecodeField(row, g) == Some(Label(c, g))
  {
    forall g: Field ensures DecodeField(row, g) == Some(Label(c, g)) {
      match g
      case ProcessorName =>
      case ProcessorCore =>
      case OsType =>
      case SimType =>
    }
  }

  /** A decomposed row names only offered labels, and each segment is its label's list. */
  lemma DecomposedField(row: seq<real>, s: Specs, c: Selection, f: Field)
    requires Decompose(row) == Some((s, c))
    ensures Offered(c)
    ensures Segment(row, f) == AsReals(Lookup(f, Label(c, f)).value)
  {
    DecomposedLabels(row, s, c);
    DecodedFieldIsLookup(row, f, Label(c, f));
  }

  /** A row that decomposes into some inputs is exactly the row those inputs assemble to. */
  lemma AssembleDecompose(row: seq<real>, s: Specs, c: Selection)
    requires Decompose(row) == Some((s, c))
    ensures AssembleRow(s, c) == Success(row)
  {
    DecomposedField(row, s, c, ProcessorName);
    var built := AssembleRow(s, c).value;
    forall f: Field
      ensures Segment(built, f) == Segment(row, f)
    {
      DecomposedField(row, s, c, f);
      RowSegments(s, c, f);
    }
    SameColumns(built, row);
  }

  /** Segment `f` of an assembled row is the table's list for the chosen label. */
  lemma RowSegments(s: Specs, c: Selection, f: Field)
    requires Offered(c)
    ensures Segment(AssembleRow(s, c).value, f) == AsReals(Lookup(f, Label(c, f)).value)
  {
    var seg := EncodeSelection(c).value;
    assert Lookup(f, Label(c, f)) == Some(seg.Of(f));
  }

  /** Different inputs never assemble to the same row, so the model sees every choice. */
  lemma AssembleInjective(s1: Specs, c1: Selection, s2: Specs, c2: Selection)
    requires AssembleRow(s1, c1).Success?
    requires AssembleRow(s1, c1) == AssembleRow(s2, c2)
    ensures s1 == s2 && c1 == c2
  {
    DecomposeAssemble(s1, c1);
    DecomposeAssemble(s2, c2);
  }
}
