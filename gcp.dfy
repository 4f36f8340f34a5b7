/** `DFTD3GCP`: the geometric counterpoise correction. Like `DFTD3Model`, it
    owns its structure and asks the engine to fill zeroed output buffers. */
module Gcp {
  import opened Base
  import opened Engine
  import opened Errors
  import opened Structure
  import opened Model

  /** What `DFTD3GCP::new_f` produces: the structure's own failure, or the
      engine's verdict on loading the counterpoise parameters of `name` and
      `basis` for the structure it created. */
  function GcpOutcome(e: Engine, numbers: seq<nat>, positions: seq<F64>,
                      lattice: Option<seq<F64>>, periodic: Option<seq<bool>>,
                      name: string, basis: string)
    : (r: Result<GcpHandle>)
    ensures StructureOutcome(e, numbers, positions, lattice, periodic).Err? ==>
      r == Err(StructureOutcome(e, numbers, positions, lattice, periodic).error)
    ensures r.Ok? <==> StructureOutcome(e, numbers, positions, lattice, periodic).Ok?
                       && !e.loadGcp(Geometry(numbers, positions, lattice, periodic), name, basis).isSet
    ensures StructureOutcome(e, numbers, positions, lattice, periodic).Ok?
            && e.loadGcp(Geometry(numbers, positions, lattice, periodic), name, basis).isSet ==>
      r == Err(C(e.loadGcp(Geometry(numbers, positions, lattice, periodic), name, basis)))
    ensures r.Ok? ==> r.value == GcpHandle(Geometry(numbers, positions, lattice, periodic), name, basis, None)
                      && WellShaped(r.value.origin)
    ensures r.Err? ==> Check(r.error)
  {
    match StructureOutcome(e, numbers, positions, lattice, periodic)
    case Err(error) => Err(error)
    case Ok(g) => Finish(e.loadGcp(g, name, basis), GcpHandle(g, name, basis, None))
  }

  /** The counterpoise parameters are not looked up when the structure fails:
      the outcome is the same for every engine that treats the structure
      alike, whatever method and basis are named. */
  lemma GcpStructureErrorPrecedesEngine(e: Engine, e': Engine, numbers: seq<nat>, positions: seq<F64>,
                                        lattice: Option<seq<F64>>, periodic: Option<seq<bool>>,
                                        name: string, basis: string, name': string, basis': string)
    requires e'.newStructure == e.newStructure
    requires StructureOutcome(e, numbers, positions, lattice, periodic).Err?
    ensures GcpOutcome(e, numbers, positions, lattice, periodic, name, basis)
         == GcpOutcome(e', numbers, positions, lattice, periodic, name', basis')
  {
  }

  class DFTD3GCP {
    const structure: DFTD3Structure
    var handle: GcpHandle

    ghost predicate Valid()
      reads this, structure
    {
      structure.Valid() && handle.origin.numbers == structure.numbers
    }

    constructor Wrap(s: DFTD3Structure, h: GcpHandle)
      requires s.Valid() && h.origin.numbers == s.numbers
      ensures structure == s && handle == h && Valid()
    {
      structure := s;
      handle := h;
    }

    /** `get_natoms`: the owned structure's atom count. */
    function GetNatoms(): (n: nat)
      reads this, structure
      requires Valid()
      ensures n == |structure.numbers| && 3 * n == |structure.positions|
    {
      structure.GetNatoms()
    }

    /** `update`: the owned structure's panicking `update`; the caller must
      hand it buffers the checks and the engine accept. */
    method Update(e: Engine, positions: seq<F64>, lattice: Option<seq<F64>>)
      requires Valid()
      requires UpdateOutcome(e, structure.Current(), positions, lattice).0.Ok?
      modifies structure
      ensures Valid()
      ensures structure.Current() == Moved(old(structure.Current()), positions, lattice)
    {
      var r := structure.UpdateF(e, positions, lattice);
    }

    /** `load_gcp_param_f`: the engine looks up the parameters for `name` and
      `basis`; on success the new object owns the structure. */
    static method LoadGcpParamF(e: Engine, s: DFTD3Structure, name: string, basis: string)
      returns (r: Result<DFTD3GCP>)
      requires s.Valid()
      requires NoNul(name) && NoNul(basis)
      ensures r.Err? <==> e.loadGcp(s.Current(), name, basis).isSet
      ensures r.Err? ==> r.error == C(e.loadGcp(s.Current(), name, basis))
      ensures r.Ok? ==> fresh(r.value) && r.value.structure == s && r.value.Valid()
                        && r.value.handle == GcpHandle(s.Current(), name, basis, None)
    {
      var error := C(e.loadGcp(s.Current(), name, basis));
      if Check(error) {
        return Err(error);
      }
      var gcp := new DFTD3GCP.Wrap(s, GcpHandle(s.Current(), name, basis, None));
      r := Ok(gcp);
    }

    /** `new_f`: `DFTD3Structure::new_f(..)?` then `load_gcp_param_f`. The
      method and basis names reach the C side only once the structure
      exists. */
    static method NewF(e: Engine, numbers: seq<nat>, positions: seq<F64>,
                       lattice: Option<seq<F64>>, periodic: Option<seq<bool>>,
                       name: string, basis: string)
      returns (r: Result<DFTD3GCP>)
      requires StructureOutcome(e, numbers, positions, lattice, periodic).Ok? ==> NoNul(name) && NoNul(basis)
      ensures var outcome := GcpOutcome(e, numbers, positions, lattice, periodic, name, basis);
        && (r.Ok? <==> outcome.Ok?)
        && (r.Err? ==> r.error == outcome.error)
        && (r.Ok? ==> fresh(r.value) && fresh(r.value.structure) && r.value.Valid()
                      && r.value.structure.Current() == outcome.value.origin
                      && r.value.handle == outcome.value)
      ensures r.Ok? ==> r.value.GetNatoms() == |numbers|
    {
      var s := DFTD3Structure.NewF(e, numbers, positions, lattice, periodic);
      if s.Err? {
        return Err(s.error);
      }
      r := LoadGcpParamF(e, s.value, name, basis);
    }

    /** `get_counterpoise_f`: energy always; gradient (3 per atom) and strain
      (9) exactly when `evalGrad`. */
    method GetCounterpoiseF(e: Engine, evalGrad: bool) returns (r: Result<DFTD3Output>)
      requires Valid()
      ensures var ev := e.counterpoise(structure.Current(), handle, evalGrad);
        && (r.Err? <==> ev.status.isSet)
        && (r.Err? ==> r.error == C(ev.status))
        && (r.Ok? ==> OutputFilled(r.value, GetNatoms(), evalGrad, ev))
    {
      var natoms := structure.GetNatoms();
      var ev := e.counterpoise(structure.Current(), handle, evalGrad);
      r := Collect(ev, natoms, evalGrad);
    }

    /** `set_realspace_cutoff_f`: the engine takes the basis and short-range
      cutoffs; the object keeps them when the engine accepts them. */
    method SetRealspaceCutoffF(e: Engine, bas: F64, srb: F64) returns (r: Result<()>)
      requires Valid()
      modifies this
      ensures Valid()
      ensures r == Finish(e.setGcpCutoff(old(handle), GcpCutoff(bas, srb)), ())
      ensures handle == if r.Ok? then old(handle).(cutoff := Some(GcpCutoff(bas, srb)))
                        else old(handle)
    {
      var cutoff := GcpCutoff(bas, srb);
      var error := C(e.setGcpCutoff(handle, cutoff));
      if Check(error) {
        return Err(error);
      }
      handle := handle.(cutoff := Some(cutoff));
      r := Ok(());
    }
  }

  /** The free `get_counterpoise_f`: always with derivatives, sized by the
      structure passed in (which need not be the one the counterpoise object
      owns), evaluated on that structure with the object's parameters. */
  method GetCounterpoiseF(e: Engine, structure: DFTD3Structure, gcp: DFTD3GCP)
    returns (r: Result<(F64, seq<F64>, seq<F64>)>)
    requires structure.Valid()
    ensures var ev := e.counterpoise(structure.Current(), gcp.handle, true);
      && (r.Err? <==> ev.status.isSet)
      && (r.Err? ==> r.error == C(ev.status))
      && (r.Ok? ==> r.value.0 == ev.energy
                    && Filled(r.value.1, 3 * structure.GetNatoms(), ev.grad)
                    && Filled(r.value.2, 9, ev.sigma))
  {
    var natoms := structure.GetNatoms();
    var ev := e.counterpoise(structure.Current(), gcp.handle, true);
    var out := Collect(ev, natoms, true);
    if out.Err? {
      return Err(out.error);
    }
    r := Ok((out.value.energy, out.value.grad.value, out.value.sigma.value));
  }
}
