/** The s-dftd3 numerical engine as the wrapper sees it across the C boundary.

    The engine is not modelled: every call the wrapper makes is a field of
    `Engine`, a total function from the call's inputs to what the engine
    reports (the state of the error handle, and the numbers it writes into the
    buffers it is handed). Every operation that calls the engine takes an
    `Engine` argument, so every property proved holds for every engine. The
    engine's handles are modelled by the data they were created from. */
module Engine {
  import opened Base

  /** An engine error handle after a call: is it set, and what message does
      `dftd3_get_error` give for it. */
  datatype ErrorHandle = ErrorHandle(isSet: bool, message: string)

  /** What `dftd3_new_error` hands out: a handle with no error set. */
  const UNSET: ErrorHandle := ErrorHandle(false, "")

  /** The engine's structure object: atomic numbers, Cartesian positions,
      optional lattice and optional periodicity flags. */
  datatype Geometry = Geometry(
    numbers: seq<nat>,
    positions: seq<F64>,
    lattice: Option<seq<F64>>,
    periodic: Option<seq<bool>>)

  /** The five damping schemes. */
  datatype Scheme = Rational | Zero | ModifiedRational | ModifiedZero | OptimizedPower

  /** The coefficients a damping scheme can carry. */
  datatype Field = S6 | S8 | S9 | Rs6 | Rs8 | A1 | A2 | Alp | Bet

  /** The engine's parameter object (`DFTD3Param`): one constructor per
      `dftd3_new_*_damping` call, with its arguments in the order the call
      takes them, and one for the `dftd3_load_*_damping` table lookups. */
  datatype DFTD3Param =
    | NewRational(s6: F64, s8: F64, s9: F64, a1: F64, a2: F64, alp: F64)
    | NewZero(s6: F64, s8: F64, s9: F64, rs6: F64, rs8: F64, alp: F64)
    | NewModifiedRational(s6: F64, s8: F64, s9: F64, a1: F64, a2: F64, alp: F64)
    | NewModifiedZero(s6: F64, s8: F64, s9: F64, rs6: F64, rs8: F64, alp: F64, bet: F64)
    | NewOptimizedPower(s6: F64, s8: F64, s9: F64, a1: F64, a2: F64, alp: F64, bet: F64)
    | Loaded(scheme: Scheme, methodName: string, atm: bool)

  /** The damping scheme a parameter object stands for. */
  function SchemeOfParam(p: DFTD3Param): Scheme {
    match p
    case NewRational(_, _, _, _, _, _) => Rational
    case NewZero(_, _, _, _, _, _) => Zero
    case NewModifiedRational(_, _, _, _, _, _) => ModifiedRational
    case NewModifiedZero(_, _, _, _, _, _, _) => ModifiedZero
    case NewOptimizedPower(_, _, _, _, _, _, _) => OptimizedPower
    case Loaded(s, _, _) => s
  }

  /** The value a parameter object built from explicit coefficients holds for
      a coefficient, or None if it holds none (or was loaded from the table). */
  function ParamField(p: DFTD3Param, f: Field): Option<F64> {
    if p.Loaded? then None
    else match f
      case S6 => Some(p.s6)
      case S8 => Some(p.s8)
      case S9 => Some(p.s9)
      case Alp => Some(p.alp)
      case A1 => if p.NewRational? || p.NewModifiedRational? || p.NewOptimizedPower?
                 then Some(p.a1) else None
      case A2 => if p.NewRational? || p.NewModifiedRational? || p.NewOptimizedPower?
                 then Some(p.a2) else None
      case Rs6 => if p.NewZero? || p.NewModifiedZero? then Some(p.rs6) else None
      case Rs8 => if p.NewZero? || p.NewModifiedZero? then Some(p.rs8) else None
      case Bet => if p.NewModifiedZero? || p.NewOptimizedPower? then Some(p.bet) else None
  }

  /** Real-space cutoffs of a dispersion model (pairs, triples, coordination number). */
  datatype ModelCutoff = ModelCutoff(disp2: F64, disp3: F64, cn: F64)

  /** Real-space cutoffs of a counterpoise object (basis, short-range). */
  datatype GcpCutoff = GcpCutoff(bas: F64, srb: F64)

  /** The engine's dispersion model object: the structure it was derived from,
      and the cutoffs last set on it (None: the engine's defaults). */
  datatype ModelHandle = ModelHandle(origin: Geometry, cutoff: Option<ModelCutoff>)

  /** The engine's counterpoise object: the structure, method and basis it was
      loaded for, and the cutoffs last set on it. */
  datatype GcpHandle = GcpHandle(origin: Geometry, methodName: string, basis: string, cutoff: Option<GcpCutoff>)

  /** What an energy evaluation reports: the error handle, the energy, and the
      value it writes at each index of the gradient and strain buffers. */
  datatype Evaluation = Evaluation(status: ErrorHandle, energy: F64, grad: nat -> F64, sigma: nat -> F64)

  /** What a pairwise evaluation reports: the error handle and the value it
      writes at each index of the two-body and three-body matrices. */
  datatype PairEvaluation = PairEvaluation(status: ErrorHandle, pair2: nat -> F64, pair3: nat -> F64)

  /** One s-dftd3 library: its version number and the outcome of every call. */
  datatype Engine = Engine(
    version: CInt,
    newStructure: Geometry -> ErrorHandle,
    updateStructure: (Geometry, seq<F64>, Option<seq<F64>>) -> ErrorHandle,
    newParam: DFTD3Param -> ErrorHandle,
    newD3Model: Geometry -> ErrorHandle,
    setModelCutoff: (ModelHandle, ModelCutoff) -> ErrorHandle,
    dispersion: (Geometry, ModelHandle, DFTD3Param, bool) -> Evaluation,
    pairwiseDispersion: (Geometry, ModelHandle, DFTD3Param) -> PairEvaluation,
    loadGcp: (Geometry, string, string) -> ErrorHandle,
    setGcpCutoff: (GcpHandle, GcpCutoff) -> ErrorHandle,
    counterpoise: (Geometry, GcpHandle, bool) -> Evaluation)

  /** A sequence of length `n` whose entries are `values(0)`, `values(1)`, ... */
  ghost predicate Filled(s: seq<F64>, n: nat, values: nat -> F64) {
    |s| == n && forall i :: 0 <= i < n ==> s[i] == values(i)
  }

  /** The engine writing its results into a zero-initialised output buffer
      the wrapper allocated. */
  method EngineWrite(buffer: array<F64>, values: nat -> F64)
    modifies buffer
    ensures Filled(buffer[..], buffer.Length, values)
  {
    forall i | 0 <= i < buffer.Length {
      buffer[i] := values(i);
    }
  }
}
