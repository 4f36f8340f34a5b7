/** `DFTD3Structure`: a molecular structure whose atom count and atomic
    numbers are fixed at creation, and whose positions and lattice are
    updated in place. Every buffer length is checked on the Rust side before
    the engine sees the buffers. */
module Structure {
  import opened Base
  import opened Engine
  import opened Errors

  /** The three buffers whose lengths are checked. */
  datatype Dimension = Positions | Lattice | Periodic

  function DimensionName(d: Dimension): string {
    match d
    case Positions => "positions"
    case Lattice => "lattice"
    case Periodic => "periodic"
  }

  /** The message of a failed length check. */
  function DimensionMessage(d: Dimension, expected: nat, got: nat): string {
    "Invalid dimension for " + (DimensionName(d) + (", expected " + (NatToString(expected)
      + (", got " + NatToString(got)))))
  }

  function LengthOf<T>(buffer: Option<seq<T>>): Option<nat> {
    match buffer
    case None => None
    case Some(b) => Some(|b|)
  }

  /** The lengths the engine expects for `natoms` atoms. */
  predicate DimensionsAgree(natoms: nat, positions: nat, lattice: Option<nat>, periodic: Option<nat>) {
    && positions == 3 * natoms
    && (lattice.Some? ==> lattice.value == 9)
    && (periodic.Some? ==> periodic.value == 3)
  }

  /** A geometry the engine can be handed. */
  predicate WellShaped(g: Geometry) {
    DimensionsAgree(|g.numbers|, |g.positions|, LengthOf(g.lattice), LengthOf(g.periodic))
  }

  /** The length checks of `new_f` (and, with no periodicity, of `update_f`),
      in the order they are made: positions, then lattice, then periodicity. */
  function DimensionCheck(natoms: nat, positions: nat, lattice: Option<nat>, periodic: Option<nat>)
    : (r: Option<DFTD3Error>)
    ensures r.None? <==> DimensionsAgree(natoms, positions, lattice, periodic)
    ensures r.Some? ==> r.value.Rust? && Check(r.value)
  {
    if positions != 3 * natoms then
      Some(Rust(DimensionMessage(Positions, 3 * natoms, positions)))
    else if lattice.Some? && lattice.value != 9 then
      Some(Rust(DimensionMessage(Lattice, 9, lattice.value)))
    else if periodic.Some? && periodic.value != 3 then
      Some(Rust(DimensionMessage(Periodic, 3, periodic.value)))
    else
      None
  }

  /** A wrong positions length is reported whatever the other buffers are. */
  lemma PositionsCheckedFirst(natoms: nat, positions: nat,
                              lattice: Option<nat>, periodic: Option<nat>,
                              lattice': Option<nat>, periodic': Option<nat>)
    requires positions != 3 * natoms
    ensures DimensionCheck(natoms, positions, lattice, periodic)
         == DimensionCheck(natoms, positions, lattice', periodic')
         == Some(Rust(DimensionMessage(Positions, 3 * natoms, positions)))
  {
  }

  /** With the positions right, a wrong lattice is reported whatever the
      periodicity is. */
  lemma LatticeCheckedSecond(natoms: nat, lattice: nat, periodic: Option<nat>, periodic': Option<nat>)
    requires lattice != 9
    ensures DimensionCheck(natoms, 3 * natoms, Some(lattice), periodic)
         == DimensionCheck(natoms, 3 * natoms, Some(lattice), periodic')
         == Some(Rust(DimensionMessage(Lattice, 9, lattice)))
  {
  }

  /** With positions and lattice right, only the periodicity is left. */
  lemma PeriodicCheckedLast(natoms: nat, lattice: Option<nat>, periodic: nat)
    requires lattice.Some? ==> lattice.value == 9
    requires periodic != 3
    ensures DimensionCheck(natoms, 3 * natoms, lattice, Some(periodic))
         == Some(Rust(DimensionMessage(Periodic, 3, periodic)))
  {
  }

  lemma PrefixCancels(p: string, s: string, t: string)
    requires p + s == p + t
    ensures s == t
  {
    assert s == (p + s)[|p|..];
    assert t == (p + t)[|p|..];
  }

  /** A length-check message tells which buffer was wrong, the length expected
      and the length given: no two different failures read the same. */
  lemma DimensionMessageReportsLengths(d: Dimension, expected: nat, got: nat,
                                       d': Dimension, expected': nat, got': nat)
    requires DimensionMessage(d, expected, got) == DimensionMessage(d', expected', got')
    ensures d == d' && expected == expected' && got == got'
  {
    var gotPart := ", got " + NatToString(got);
    var gotPart' := ", got " + NatToString(got');
    var tail := ", expected " + (NatToString(expected) + gotPart);
    var tail' := ", expected " + (NatToString(expected') + gotPart');
    PrefixCancels("Invalid dimension for ", DimensionName(d) + tail, DimensionName(d') + tail');
    var named := DimensionName(d) + tail;
    assert named[0] == DimensionName(d)[0] && named[1] == DimensionName(d)[1];
    assert named[0] == DimensionName(d')[0] && named[1] == DimensionName(d')[1];
    assert d == d';
    PrefixCancels(DimensionName(d), tail, tail');
    PrefixCancels(", expected ", NatToString(expected) + gotPart, NatToString(expected') + gotPart');
    DigitRunUnique(NatToString(expected), gotPart, NatToString(expected'), gotPart');
    NatToStringInjective(expected, expected');
    PrefixCancels(", got ", NatToString(got), NatToString(got'));
    NatToStringInjective(got, got');
  }

  /** What `DFTD3Structure::new_f` produces: the geometry the engine holds, or
      the error. Length checks come first; the engine is called only when they
      all pass, and its error handle decides the rest. */
  function StructureOutcome(e: Engine, numbers: seq<nat>, positions: seq<F64>,
                            lattice: Option<seq<F64>>, periodic: Option<seq<bool>>)
    : (r: Result<Geometry>)
    ensures r.Ok? <==> WellShaped(Geometry(numbers, positions, lattice, periodic))
                       && !e.newStructure(Geometry(numbers, positions, lattice, periodic)).isSet
    ensures r.Ok? ==> r.value == Geometry(numbers, positions, lattice, periodic)
    ensures WellShaped(Geometry(numbers, positions, lattice, periodic))
            && e.newStructure(Geometry(numbers, positions, lattice, periodic)).isSet ==>
      r == Err(C(e.newStructure(Geometry(numbers, positions, lattice, periodic))))
    ensures r.Err? ==> Check(r.error)
  {
    var g := Geometry(numbers, positions, lattice, periodic);
    match DimensionCheck(|numbers|, |positions|, LengthOf(lattice), LengthOf(periodic))
    case Some(err) => Err(err)
    case None => Finish(e.newStructure(g), g)
  }

  /** A length error is decided before the engine is called: it is the same
      for every engine. */
  lemma StructureDimensionErrorPrecedesEngine(e: Engine, e': Engine, numbers: seq<nat>,
                                              positions: seq<F64>, lattice: Option<seq<F64>>,
                                              periodic: Option<seq<bool>>)
    requires DimensionCheck(|numbers|, |positions|, LengthOf(lattice), LengthOf(periodic)).Some?
    ensures StructureOutcome(e, numbers, positions, lattice, periodic)
         == StructureOutcome(e', numbers, positions, lattice, periodic)
         == Err(DimensionCheck(|numbers|, |positions|, LengthOf(lattice), LengthOf(periodic)).value)
  {
  }

  /** The geometry after the engine took new positions and, if given, a new
      lattice; a missing lattice keeps the old one. */
  function Moved(g: Geometry, positions: seq<F64>, lattice: Option<seq<F64>>): Geometry {
    g.(positions := positions, lattice := if lattice.Some? then lattice else g.lattice)
  }

  /** What `DFTD3Structure::update_f` returns and the geometry it leaves.
      The engine is assumed to store what it is handed and then check it. */
  function UpdateOutcome(e: Engine, g: Geometry, positions: seq<F64>, lattice: Option<seq<F64>>)
    : (Result<()>, Geometry)
  {
    match DimensionCheck(|g.numbers|, |positions|, LengthOf(lattice), None)
    case Some(err) => (Err(err), g)
    case None => (Finish(e.updateStructure(g, positions, lattice), ()), Moved(g, positions, lattice))
  }

  /** Update never changes the atoms nor the periodicity, keeps a well-shaped
      geometry well shaped, and on a length error changes nothing at all. */
  lemma UpdateKeepsShape(e: Engine, g: Geometry, positions: seq<F64>, lattice: Option<seq<F64>>)
    requires WellShaped(g)
    ensures var (r, g') := UpdateOutcome(e, g, positions, lattice);
      && g'.numbers == g.numbers && g'.periodic == g.periodic
      && WellShaped(g')
      && (r.Err? ==> Check(r.error))
      && (r.Ok? <==> |positions| == 3 * |g.numbers| && (lattice.Some? ==> |lattice.value| == 9)
                     && !e.updateStructure(g, positions, lattice).isSet)
      && (r.Ok? ==> g'.positions == positions)
      && (!DimensionsAgree(|g.numbers|, |positions|, LengthOf(lattice), None) ==> g' == g && r.error.Rust?)
  {
  }

  /** The structure object. The Rust struct keeps only the engine pointer and
      the atom count; the engine-side data the pointer stands for is kept here
      as fields: the atomic numbers and periodicity never change, positions and
      lattice are replaced by `UpdateF`. */
  class DFTD3Structure {
    const natoms: nat
    const numbers: seq<nat>
    const periodic: Option<seq<bool>>
    var positions: seq<F64>
    var lattice: Option<seq<F64>>

    ghost predicate Valid()
      reads this
    {
      natoms == |numbers| && WellShaped(Current())
    }

    /** The geometry the engine currently holds for this structure. */
    function Current(): (g: Geometry)
      reads this
      ensures g.numbers == numbers && g.periodic == periodic
    {
      Geometry(numbers, positions, lattice, periodic)
    }

    constructor Wrap(g: Geometry)
      requires WellShaped(g)
      ensures Valid() && Current() == g && natoms == |g.numbers|
    {
      natoms := |g.numbers|;
      numbers := g.numbers;
      periodic := g.periodic;
      positions := g.positions;
      lattice := g.lattice;
    }

    /** `get_natoms`: the number of atoms the structure was created with. */
    function GetNatoms(): (n: nat)
      reads this
      requires Valid()
      ensures n == |numbers| && 3 * n == |positions|
    {
      natoms
    }

    /** `new_f`: check the lengths, then let the engine create the structure. */
    static method NewF(e: Engine, numbers: seq<nat>, positions: seq<F64>,
                       lattice: Option<seq<F64>>, periodic: Option<seq<bool>>)
      returns (r: Result<DFTD3Structure>)
      ensures var outcome := StructureOutcome(e, numbers, positions, lattice, periodic);
        && (r.Ok? <==> outcome.Ok?)
        && (r.Err? ==> r.error == outcome.error)
        && (r.Ok? ==> fresh(r.value) && r.value.Valid() && r.value.Current() == outcome.value)
      ensures r.Ok? ==> r.value.GetNatoms() == |numbers|
    {
      var natoms := |numbers|;
      var check := DimensionCheck(natoms, |positions|, LengthOf(lattice), LengthOf(periodic));
      if check.Some? {
        return Err(check.value);
      }
      var g := Geometry(numbers, positions, lattice, periodic);
      var error := C(e.newStructure(g));
      if Check(error) {
        return Err(error);
      }
      var s := new DFTD3Structure.Wrap(g);
      r := Ok(s);
    }

    /** `update_f`: check the lengths against the fixed atom count, then hand
      the new positions (and lattice, if any) to the engine. */
    method UpdateF(e: Engine, newPositions: seq<F64>, newLattice: Option<seq<F64>>)
      returns (r: Result<()>)
      requires Valid()
      modifies this
      ensures Valid()
      ensures (r, Current()) == UpdateOutcome(e, old(Current()), newPositions, newLattice)
    {
      var check := DimensionCheck(natoms, |newPositions|, LengthOf(newLattice), None);
      if check.Some? {
        return Err(check.value);
      }
      var error := C(e.updateStructure(Current(), newPositions, newLattice));
      positions := newPositions;
      if newLattice.Some? {
        lattice := newLattice;
      }
      if Check(error) {
        return Err(error);
      }
      r := Ok(());
    }
  }
}
