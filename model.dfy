/** `DFTD3Model`: a dispersion model that owns its structure. Evaluations
    allocate zeroed output buffers, shaped by the atom count and by whether
    derivatives are asked for, and let the engine fill them. */
module Model {
  import opened Base
  import opened Engine
  import opened Errors
  import opened Structure

  /** `DFTD3Output`: the energy, and the gradient (3 per atom) and strain
      derivatives (3 x 3) when they were asked for. */
  datatype DFTD3Output = DFTD3Output(energy: F64, grad: Option<seq<F64>>, sigma: Option<seq<F64>>)

  /** `DFTD3PairwiseOutput`: two-body and three-body pair energies, each an
      atoms x atoms matrix stored row by row. */
  datatype DFTD3PairwiseOutput = DFTD3PairwiseOutput(pairEnergy2: seq<F64>, pairEnergy3: seq<F64>)

  /** The shape of an output the engine filled for `natoms` atoms. */
  ghost predicate OutputFilled(out: DFTD3Output, natoms: nat, evalGrad: bool, ev: Evaluation) {
    && out.energy == ev.energy
    && (out.grad.Some? <==> evalGrad)
    && (out.sigma.Some? <==> evalGrad)
    && (evalGrad ==> Filled(out.grad.value, 3 * natoms, ev.grad) && Filled(out.sigma.value, 9, ev.sigma))
  }

  /** Zeroed buffers, when asked for, for the gradient and the strain. */
  method Allocate(natoms: nat, evalGrad: bool) returns (grad: array<F64>, sigma: array<F64>)
    ensures fresh(grad) && fresh(sigma) && grad != sigma
    ensures grad.Length == (if evalGrad then 3 * natoms else 0)
    ensures sigma.Length == (if evalGrad then 9 else 0)
  {
    if evalGrad {
      grad := new F64[3 * natoms];
      sigma := new F64[9];
    } else {
      grad := new F64[0];
      sigma := new F64[0];
    }
  }

  /** Let the engine fill the buffers of one evaluation and package the
      result as `DFTD3Output` (None for buffers never asked for). */
  method Collect(ev: Evaluation, natoms: nat, evalGrad: bool) returns (r: Result<DFTD3Output>)
    ensures r.Err? <==> ev.status.isSet
    ensures r.Err? ==> r.error == C(ev.status)
    ensures r.Ok? ==> OutputFilled(r.value, natoms, evalGrad, ev)
  {
    var energy: F64 := ZERO;
    var grad, sigma := Allocate(natoms, evalGrad);
    energy := ev.energy;
    EngineWrite(grad, ev.grad);
    EngineWrite(sigma, ev.sigma);
    var error := C(ev.status);
    if Check(error) {
      return Err(error);
    }
    r := Ok(DFTD3Output(energy, if evalGrad then Some(grad[..]) else None,
                                if evalGrad then Some(sigma[..]) else None));
  }

  /** What `DFTD3Model::new_f` produces: the structure's own failure, or the
      engine's verdict on a model for the structure it created. */
  function ModelOutcome(e: Engine, numbers: seq<nat>, positions: seq<F64>,
                        lattice: Option<seq<F64>>, periodic: Option<seq<bool>>)
    : (r: Result<Geometry>)
    ensures StructureOutcome(e, numbers, positions, lattice, periodic).Err? ==>
      r == Err(StructureOutcome(e, numbers, positions, lattice, periodic).error)
    ensures r.Ok? <==> StructureOutcome(e, numbers, positions, lattice, periodic).Ok?
                       && !e.newD3Model(Geometry(numbers, positions, lattice, periodic)).isSet
    ensures StructureOutcome(e, numbers, positions, lattice, periodic).Ok?
            && e.newD3Model(Geometry(numbers, positions, lattice, periodic)).isSet ==>
      r == Err(C(e.newD3Model(Geometry(numbers, positions, lattice, periodic))))
    ensures r.Ok? ==> r.value == Geometry(numbers, positions, lattice, periodic) && WellShaped(r.value)
    ensures r.Err? ==> Check(r.error)
  {
    match StructureOutcome(e, numbers, positions, lattice, periodic)
    case Err(error) => Err(error)
    case Ok(g) => Finish(e.newD3Model(g), g)
  }

  /** The model is not asked for when the structure fails: the outcome is the
      same for every engine that treats the structure alike, and for every
      engine at all when a length check fails. */
  lemma ModelStructureErrorPrecedesEngine(e: Engine, e': Engine, numbers: seq<nat>, positions: seq<F64>,
                                          lattice: Option<seq<F64>>, periodic: Option<seq<bool>>)
    requires e'.newStructure == e.newStructure
    requires StructureOutcome(e, numbers, positions, lattice, periodic).Err?
    ensures ModelOutcome(e, numbers, positions, lattice, periodic)
         == ModelOutcome(e', numbers, positions, lattice, periodic)
  {
  }

  class DFTD3Model {
    const structure: DFTD3Structure
    var handle: ModelHandle

    ghost predicate Valid()
      reads this, structure
    {
      structure.Valid() && handle.origin.numbers == structure.numbers
    }

    constructor Wrap(s: DFTD3Structure, h: ModelHandle)
      requires s.Valid() && h.origin.numbers == s.numbers
      ensures structure == s && handle == h && Valid()
    {
      structure := s;
      handle := h;
    }

    /** `get_natoms`: the owned structure's atom count. */
    function GetNatoms(): (n: nat)
      reads this, structure
      requires Valid()
      ensures n == |structure.numbers| && 3 * n == |structure.positions|
    {
      structure.GetNatoms()
    }

    /** `from_structure_f`: the engine builds a model for the structure, which
      the new object then owns. */
    static method FromStructureF(e: Engine, s: DFTD3Structure) returns (r: Result<DFTD3Model>)
      requires s.Valid()
      ensures r.Err? <==> e.newD3Model(s.Current()).isSet
      ensures r.Err? ==> r.error == C(e.newD3Model(s.Current()))
      ensures r.Ok? ==> fresh(r.value) && r.value.structure == s && r.value.Valid()
                        && r.value.handle == ModelHandle(s.Current(), None)
    {
      var error := C(e.newD3Model(s.Current()));
      if Check(error) {
        return Err(error);
      }
      var m := new DFTD3Model.Wrap(s, ModelHandle(s.Current(), None));
      r := Ok(m);
    }

    /** `new_f`: `DFTD3Structure::new_f(..)?` then `from_structure_f`. */
    static method NewF(e: Engine, numbers: seq<nat>, positions: seq<F64>,
                       lattice: Option<seq<F64>>, periodic: Option<seq<bool>>)
      returns (r: Result<DFTD3Model>)
      ensures var outcome := ModelOutcome(e, numbers, positions, lattice, periodic);
        && (r.Ok? <==> outcome.Ok?)
        && (r.Err? ==> r.error == outcome.error)
        && (r.Ok? ==> fresh(r.value) && fresh(r.value.structure) && r.value.Valid()
                      && r.value.structure.Current() == outcome.value
                      && r.value.handle == ModelHandle(outcome.value, None))
      ensures r.Ok? ==> r.value.GetNatoms() == |numbers|
    {
      var s := DFTD3Structure.NewF(e, numbers, positions, lattice, periodic);
      if s.Err? {
        return Err(s.error);
      }
      r := FromStructureF(e, s.value);
    }

    /** `get_dispersion_f`: energy always; gradient (3 per atom) and strain
      (9) exactly when `evalGrad`; nothing but the error when the engine
      reports one. */
    method GetDispersionF(e: Engine, param: DFTD3Param, evalGrad: bool) returns (r: Result<DFTD3Output>)
      requires Valid()
      ensures var ev := e.dispersion(structure.Current(), handle, param, evalGrad);
        && (r.Err? <==> ev.status.isSet)
        && (r.Err? ==> r.error == C(ev.status))
        && (r.Ok? ==> OutputFilled(r.value, GetNatoms(), evalGrad, ev))
    {
      var natoms := structure.GetNatoms();
      var ev := e.dispersion(structure.Current(), handle, param, evalGrad);
      r := Collect(ev, natoms, evalGrad);
    }

    /** `get_pairwise_dispersion_f`: two atoms x atoms matrices. */
    method GetPairwiseDispersionF(e: Engine, param: DFTD3Param) returns (r: Result<DFTD3PairwiseOutput>)
      requires Valid()
      ensures var ev := e.pairwiseDispersion(structure.Current(), handle, param);
        && (r.Err? <==> ev.status.isSet)
        && (r.Err? ==> r.error == C(ev.status))
        && (r.Ok? ==> Filled(r.value.pairEnergy2, GetNatoms() * GetNatoms(), ev.pair2)
                      && Filled(r.value.pairEnergy3, GetNatoms() * GetNatoms(), ev.pair3))
    {
      var natoms := structure.GetNatoms();
      var pairEnergy2 := new F64[natoms * natoms];
      var pairEnergy3 := new F64[natoms * natoms];
      var ev := e.pairwiseDispersion(structure.Current(), handle, param);
      EngineWrite(pairEnergy2, ev.pair2);
      EngineWrite(pairEnergy3, ev.pair3);
      var error := C(ev.status);
      if Check(error) {
        return Err(error);
      }
      r := Ok(DFTD3PairwiseOutput(pairEnergy2[..], pairEnergy3[..]));
    }

    /** `set_realspace_cutoff_f`: the engine takes the three cutoffs; the
      model keeps them when the engine accepts them. */
    method SetRealspaceCutoffF(e: Engine, disp2: F64, disp3: F64, cn: F64) returns (r: Result<()>)
      requires Valid()
      modifies this
      ensures Valid()
      ensures r == Finish(e.setModelCutoff(old(handle), ModelCutoff(disp2, disp3, cn)), ())
      ensures handle == if r.Ok? then old(handle).(cutoff := Some(ModelCutoff(disp2, disp3, cn)))
                        else old(handle)
    {
      var cutoff := ModelCutoff(disp2, disp3, cn);
      var error := C(e.setModelCutoff(handle, cutoff));
      if Check(error) {
        return Err(error);
      }
      handle := handle.(cutoff := Some(cutoff));
      r := Ok(());
    }

    /** `update_f`: the owned structure's `update_f`, with its checks. */
    method UpdateF(e: Engine, positions: seq<F64>, lattice: Option<seq<F64>>) returns (r: Result<()>)
      requires Valid()
      modifies structure
      ensures Valid()
      ensures (r, structure.Current()) == UpdateOutcome(e, old(structure.Current()), positions, lattice)
    {
      r := structure.UpdateF(e, positions, lattice);
    }
  }

  /* ---- The structure checks of the examples ---- */

  lemma Digits7()
    ensures NatToString(7) == "7"
  {
  }

  lemma Digits9()
    ensures NatToString(9) == "9"
  {
  }

  lemma Digits48()
    ensures NatToString(48) == "48"
  {
    assert NatToString(48) == NatToString(4) + [DigitChar(8)];
  }

  lemma Digits72()
    ensures NatToString(72) == "72"
  {
    assert NatToString(72) == NatToString(7) + [DigitChar(2)];
  }

  lemma PositionsMessage48Got72()
    ensures DimensionMessage(Positions, 48, 72) == "Invalid dimension for positions, expected 48, got 72"
  {
    Digits48();
    Digits72();
  }

  lemma PositionsMessage9Got48()
    ensures DimensionMessage(Positions, 9, 48) == "Invalid dimension for positions, expected 9, got 48"
  {
    Digits9();
    Digits48();
  }

  lemma PositionsMessage48Got7()
    ensures DimensionMessage(Positions, 48, 7) == "Invalid dimension for positions, expected 48, got 7"
  {
    Digits48();
    Digits7();
  }

  lemma LatticeMessage9Got7()
    ensures DimensionMessage(Lattice, 9, 7) == "Invalid dimension for lattice, expected 9, got 7"
  {
    Digits9();
    Digits7();
  }

  /** The "nuclear fusion" input of the structure test gives 72 coordinates
      (zeros) for the sixteen-atom molecule, so the length check turns it
      down before the engine could look at the coordinates. */
  lemma ZeroPositionsFailLengthCheck(e: Engine, numbers: seq<nat>, positions: seq<F64>)
    requires |numbers| == 16 && |positions| == 72
    ensures ModelOutcome(e, numbers, positions, None, None)
         == Err(Rust("Invalid dimension for positions, expected 48, got 72"))
  {
    PositionsMessage48Got72();
  }

  /** Three atomic numbers with the sixteen atoms' 48 coordinates. */
  lemma TooFewNumbersFailLengthCheck(e: Engine, numbers: seq<nat>, positions: seq<F64>)
    requires |numbers| == 3 && |positions| == 48
    ensures ModelOutcome(e, numbers, positions, None, None)
         == Err(Rust("Invalid dimension for positions, expected 9, got 48"))
  {
    PositionsMessage9Got48();
  }

  /** Seven coordinates for sixteen atoms. */
  lemma TooFewPositionsFailLengthCheck(e: Engine, numbers: seq<nat>, positions: seq<F64>)
    requires |numbers| == 16 && |positions| == 7
    ensures ModelOutcome(e, numbers, positions, None, None)
         == Err(Rust("Invalid dimension for positions, expected 48, got 7"))
  {
    PositionsMessage48Got7();
  }

  /** Updating the sixteen-atom structure with seven coordinates fails and
      leaves the structure as it was. */
  lemma ShortPositionsUpdateFails(e: Engine, g: Geometry, positions: seq<F64>)
    requires |g.numbers| == 16 && |positions| == 7
    ensures UpdateOutcome(e, g, positions, None)
         == (Err(Rust("Invalid dimension for positions, expected 48, got 7")), g)
  {
    PositionsMessage48Got7();
  }

  /** Updating with the right coordinates but a seven-entry lattice fails
      and leaves the structure as it was. */
  lemma ShortLatticeUpdateFails(e: Engine, g: Geometry, positions: seq<F64>, lattice: seq<F64>)
    requires |g.numbers| == 16 && |positions| == 48 && |lattice| == 7
    ensures UpdateOutcome(e, g, positions, Some(lattice))
         == (Err(Rust("Invalid dimension for lattice, expected 9, got 7")), g)
  {
    LatticeMessage9Got7();
  }
}
