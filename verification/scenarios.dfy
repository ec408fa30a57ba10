/**
 * Concrete inputs at the edges of the form: the smallest values every field
 * accepts, the largest ones with the last labels, and a label no selection
 * box offers.
 */
module Scenarios {
  import opened Wrappers
  import opened OneHot
  import opened Tables
  import opened Features

  /** The numeric bounds the form's inputs enforce before a prediction is asked for. */
  predicate InFormRange(s: Specs) {
    && 1.0 <= s.ram <= 64.0 && 1.0 <= s.rom <= 1024.0 && 1000.0 <= s.battery <= 10000.0
    && 0.1 <= s.processorSpeed <= 10.0 && 1.0 <= s.screenSize <= 10.0
    && 100.0 <= s.screenResX <= 3000.0 && 100.0 <= s.screenResY <= 3000.0
    && 1.0 <= s.osVersion <= 25.0
    && 0.1 <= s.frontCamera <= 100.0 && 0.1 <= s.rearCamera <= 400.0
  }

  /** Every field at its lower bound and every selection box at its first label. */
  const Smallest := Specs(1.0, 1.0, 1000.0, 0.1, 1.0, 100.0, 100.0, 1.0, 0.1, 0.1)
  const FirstLabels := Selection("None", "None", "Android", "Dual Sim")

  /** Every field at its upper bound, with 'Snapdragon', 'Octa Core', 'iOS' and 'Single Sim'. */
  const Largest := Specs(64.0, 1024.0, 10000.0, 10.0, 10.0, 3000.0, 3000.0, 25.0, 100.0, 400.0)
  const LaterLabels := Selection("Snapdragon", "Octa Core", "iOS", "Single Sim")

  /**
   * A row whose labels sit at the given positions of their selection boxes:
   * the ten numbers, then a 1 at each position within its segment.
   */
  lemma RowAtPositions(s: Specs, c: Selection, kn: nat, kc: nat, ko: nat, ks: nat)
    requires kn < 15 && Options(ProcessorName)[kn] == c.processorName
    requires kc < 5 && Options(ProcessorCore)[kc] == c.processorCore
    requires ko < 2 && Options(OsType)[ko] == c.osType
    requires ks < 2 && Options(SimType)[ks] == c.simType
    ensures AssembleRow(s, c).Success?
    ensures var row := AssembleRow(s, c).value;
      && row == Numeric(s) + AsReals(UnitVector(15, kn)) + AsReals(UnitVector(5, kc))
                + AsReals(UnitVector(2, ko)) + AsReals(UnitVector(2, ks))
  {
    ListAtPosition(ProcessorName, c.processorName, kn);
    ListAtPosition(ProcessorCore, c.processorCore, kc);
    ListAtPosition(OsType, c.osType, ko);
    ListAtPosition(SimType, c.simType, ks);
    var seg := Segments(UnitVector(15, kn), UnitVector(5, kc), UnitVector(2, ko), UnitVector(2, ks));
    assert EncodeSelection(c) == Success(seg);
  }

  /** The table list of the label at position `k` of a selection box is the unit list at `k`. */
  lemma ListAtPosition(f: Field, l: string, k: nat)
    requires k < Width(f) && Options(f)[k] == l
    ensures Lookup(f, l) == Some(UnitVector(Width(f), k))
  {
    OptionsShape(f);
    IndexOfDistinct(Options(f), k);
    LookupIsOneHot(f, l);
  }

  /** The smallest inputs give the numeric prefix, then a 1 at the head of every segment. */
  lemma SmallestRow()
    ensures InFormRange(Smallest)
    ensures AssembleRow(Smallest, FirstLabels) == Success(
      [1.0, 1.0, 1000.0, 0.1, 1.0, 100.0, 100.0, 1.0, 0.1, 0.1]
      + [1.0, 0.0, 0.0, 0.0, 0.0, 0.0, 0.0, 0.0, 0.0, 0.0, 0.0, 0.0, 0.0, 0.0, 0.0]
      + [1.0, 0.0, 0.0, 0.0, 0.0]
      + [1.0, 0.0]
      + [1.0, 0.0])
  {
    RowAtPositions(Smallest, FirstLabels, 0, 0, 0, 0);
    assert AsReals(UnitVector(15, 0)) == [1.0, 0.0, 0.0, 0.0, 0.0, 0.0, 0.0, 0.0, 0.0, 0.0, 0.0, 0.0, 0.0, 0.0, 0.0];
    assert AsReals(UnitVector(5, 0)) == [1.0, 0.0, 0.0, 0.0, 0.0];
    assert AsReals(UnitVector(2, 0)) == [1.0, 0.0];
  }

  /**
   * The largest inputs give their numeric prefix, and the 1s sit at position
   * 10 of 15 ('Snapdragon'), 3 of 5 ('Octa Core'), 1 of 2 ('iOS') and 1 of 2
   * ('Single Sim').
   */
  lemma LargestRow()
    ensures InFormRange(Largest)
    ensures AssembleRow(Largest, LaterLabels) == Success(
      [64.0, 1024.0, 10000.0, 10.0, 10.0, 3000.0, 3000.0, 25.0, 100.0, 400.0]
      + [0.0, 0.0, 0.0, 0.0, 0.0, 0.0, 0.0, 0.0, 0.0, 0.0, 1.0, 0.0, 0.0, 0.0, 0.0]
      + [0.0, 0.0, 0.0, 1.0, 0.0]
      + [0.0, 1.0]
      + [0.0, 1.0])
  {
    RowAtPositions(Largest, LaterLabels, 10, 3, 1, 1);
    assert AsReals(UnitVector(15, 10)) == [0.0, 0.0, 0.0, 0.0, 0.0, 0.0, 0.0, 0.0, 0.0, 0.0, 1.0, 0.0, 0.0, 0.0, 0.0];
    assert AsReals(UnitVector(5, 3)) == [0.0, 0.0, 0.0, 1.0, 0.0];
    assert AsReals(UnitVector(2, 1)) == [0.0, 1.0];
  }

  /** A processor name no selection box offers produces no row: the lookup misses first. */
  lemma UnknownProcessorName()
    ensures AssembleRow(Smallest, FirstLabels.(processorName := "Foo"))
      == Failure(UnknownLabel(ProcessorName, "Foo"))
  {
    assert "Foo" !in Options(ProcessorName);
  }
}
