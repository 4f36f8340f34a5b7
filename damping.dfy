/** The five damping-parameter records, their `derive_builder` builders
    (owned pattern: each setter consumes the builder and returns it), and the
    finalisation `build` then `new_param_f` (`init_f`). The five builders are
    generated from one template, so they are modelled by one builder indexed
    by the scheme. */
module Damping {
  import opened Base
  import opened Engine
  import opened Errors
  import opened Param

  /** The records, with their fields in declaration order. */
  datatype DampingParam =
    | RationalDampingParam(s6: F64, s8: F64, s9: F64, a1: F64, a2: F64, alp: F64)
    | ZeroDampingParam(s6: F64, s8: F64, s9: F64, rs6: F64, rs8: F64, alp: F64)
    | ModifiedRationalDampingParam(s6: F64, s8: F64, s9: F64, a1: F64, a2: F64, alp: F64)
    | ModifiedZeroDampingParam(s6: F64, s8: F64, s9: F64, rs6: F64, rs8: F64, alp: F64, bet: F64)
    | OptimizedPowerDampingParam(s6: F64, s8: F64, s9: F64, a1: F64, a2: F64, alp: F64, bet: F64)

  function SchemeOf(p: DampingParam): Scheme {
    match p
    case RationalDampingParam(_, _, _, _, _, _) => Rational
    case ZeroDampingParam(_, _, _, _, _, _) => Zero
    case ModifiedRationalDampingParam(_, _, _, _, _, _) => ModifiedRational
    case ModifiedZeroDampingParam(_, _, _, _, _, _, _) => ModifiedZero
    case OptimizedPowerDampingParam(_, _, _, _, _, _, _) => OptimizedPower
  }

  /** The fields of each record, in declaration order. */
  function Fields(s: Scheme): seq<Field> {
    match s
    case Rational => [S6, S8, S9, A1, A2, Alp]
    case Zero => [S6, S8, S9, Rs6, Rs8, Alp]
    case ModifiedRational => [S6, S8, S9, A1, A2, Alp]
    case ModifiedZero => [S6, S8, S9, Rs6, Rs8, Alp, Bet]
    case OptimizedPower => [S6, S8, S9, A1, A2, Alp, Bet]
  }

  /** The value a record holds for a field, or None if it has no such field. */
  function RecordField(p: DampingParam, f: Field): Option<F64> {
    match f
    case S6 => Some(p.s6)
    case S8 => Some(p.s8)
    case S9 => Some(p.s9)
    case Alp => Some(p.alp)
    case A1 => if p.RationalDampingParam? || p.ModifiedRationalDampingParam? || p.OptimizedPowerDampingParam?
               then Some(p.a1) else None
    case A2 => if p.RationalDampingParam? || p.ModifiedRationalDampingParam? || p.OptimizedPowerDampingParam?
               then Some(p.a2) else None
    case Rs6 => if p.ZeroDampingParam? || p.ModifiedZeroDampingParam? then Some(p.rs6) else None
    case Rs8 => if p.ZeroDampingParam? || p.ModifiedZeroDampingParam? then Some(p.rs8) else None
    case Bet => if p.ModifiedZeroDampingParam? || p.OptimizedPowerDampingParam? then Some(p.bet) else None
  }

  /** A record has a value exactly for the fields its struct declares. */
  lemma RecordFieldPresent(p: DampingParam, f: Field)
    ensures RecordField(p, f).Some? <==> f in Fields(SchemeOf(p))
  {
  }

  lemma RecordFieldsPresent(p: DampingParam)
    ensures forall f :: RecordField(p, f).Some? <==> f in Fields(SchemeOf(p))
  {
    forall f ensures RecordField(p, f).Some? <==> f in Fields(SchemeOf(p)) {
      RecordFieldPresent(p, f);
    }
  }

  /** A record is determined by its scheme and the values of its fields. */
  lemma FieldsDetermineRecord(p: DampingParam, q: DampingParam)
    requires SchemeOf(p) == SchemeOf(q)
    requires forall f: Field :: RecordField(p, f) == RecordField(q, f)
    ensures p == q
  {
    assert RecordField(p, S6) == RecordField(q, S6) && RecordField(p, S8) == RecordField(q, S8);
    assert RecordField(p, S9) == RecordField(q, S9) && RecordField(p, Alp) == RecordField(q, Alp);
    match p
    case RationalDampingParam(_, _, _, _, _, _) =>
      assert RecordField(p, A1) == RecordField(q, A1) && RecordField(p, A2) == RecordField(q, A2);
    case ZeroDampingParam(_, _, _, _, _, _) =>
      assert RecordField(p, Rs6) == RecordField(q, Rs6) && RecordField(p, Rs8) == RecordField(q, Rs8);
    case ModifiedRationalDampingParam(_, _, _, _, _, _) =>
      assert RecordField(p, A1) == RecordField(q, A1) && RecordField(p, A2) == RecordField(q, A2);
    case ModifiedZeroDampingParam(_, _, _, _, _, _, _) =>
      assert RecordField(p, Rs6) == RecordField(q, Rs6) && RecordField(p, Rs8) == RecordField(q, Rs8);
      assert RecordField(p, Bet) == RecordField(q, Bet);
    case OptimizedPowerDampingParam(_, _, _, _, _, _, _) =>
      assert RecordField(p, A1) == RecordField(q, A1) && RecordField(p, A2) == RecordField(q, A2);
      assert RecordField(p, Bet) == RecordField(q, Bet);
  }

  /** The `#[builder(default = ...)]` of a field: s6, s9 and rs8 default to
      1.0, alp to 14.0; every other field is required. */
  function Default(f: Field): Option<F64> {
    match f
    case S6 => Some(ONE)
    case S9 => Some(ONE)
    case Rs8 => Some(ONE)
    case Alp => Some(FOURTEEN)
    case _ => None
  }

  /** The name derive_builder reports for a field. */
  function FieldName(f: Field): string {
    match f
    case S6 => "s6"
    case S8 => "s8"
    case S9 => "s9"
    case Rs6 => "rs6"
    case Rs8 => "rs8"
    case A1 => "a1"
    case A2 => "a2"
    case Alp => "alp"
    case Bet => "bet"
  }

  /** The required fields of each record: those without a default. */
  lemma RequiredFields(s: Scheme, f: Field)
    requires f in Fields(s)
    ensures Default(f).None? <==>
      match s
      case Rational => f in {S8, A1, A2}
      case ModifiedRational => f in {S8, A1, A2}
      case Zero => f in {S8, Rs6}
      case ModifiedZero => f in {S8, Rs6, Bet}
      case OptimizedPower => f in {S8, A1, A2, Bet}
  {
  }

  /** A `*DampingParamBuilder`: the record it builds and the fields set so far. */
  datatype Builder = Builder(scheme: Scheme, slots: map<Field, F64>)

  /** `*DampingParamBuilder::default()`: nothing set. */
  function DefaultBuilder(s: Scheme): (b: Builder)
    ensures b.scheme == s && b.slots == map[]
  {
    Builder(s, map[])
  }

  /** The value `build` takes for a field: the one set, else the default. */
  function Lookup(b: Builder, f: Field): Option<F64> {
    if f in b.slots then Some(b.slots[f]) else Default(f)
  }

  /** A setter: the builder has a setter for each field of its record only.
      A later call overrides an earlier one; nothing else changes. */
  function Set(b: Builder, f: Field, v: F64): (r: Builder)
    requires f in Fields(b.scheme)
    ensures r.scheme == b.scheme
    ensures Lookup(r, f) == Some(v)
    ensures forall g :: g != f ==> Lookup(r, g) == Lookup(b, g)
  {
    Builder(b.scheme, b.slots[f := v])
  }

  /** Field `fields[i]` is the first one in `fields` that has no value. */
  predicate FirstMissingAt(b: Builder, fields: seq<Field>, i: nat) {
    && i < |fields|
    && Lookup(b, fields[i]).None?
    && forall j :: 0 <= j < i ==> Lookup(b, fields[j]).Some?
  }

  /** The first position from `k` on whose field has no value. */
  function FirstUnsetFrom(b: Builder, fields: seq<Field>, k: nat): (r: Option<nat>)
    requires k <= |fields|
    requires forall j :: 0 <= j < k ==> Lookup(b, fields[j]).Some?
    ensures r.Some? ==> FirstMissingAt(b, fields, r.value)
    ensures r.None? ==> forall j :: 0 <= j < |fields| ==> Lookup(b, fields[j]).Some?
    decreases |fields| - k
  {
    if k == |fields| then None
    else if Lookup(b, fields[k]).None? then Some(k)
    else FirstUnsetFrom(b, fields, k + 1)
  }

  /** The value of a field that has one. */
  function ValueOf(b: Builder, f: Field): F64 {
    match Lookup(b, f)
    case Some(v) => v
    case None => ZERO
  }

  /** The record, once every field has a value. */
  function Assemble(b: Builder): (p: DampingParam)
    ensures SchemeOf(p) == b.scheme
  {
    Record(b.scheme, ValueOf(b, S6), ValueOf(b, S8), ValueOf(b, S9), ValueOf(b, A1), ValueOf(b, A2),
           ValueOf(b, Rs6), ValueOf(b, Rs8), ValueOf(b, Alp), ValueOf(b, Bet))
  }

  /** The record of a scheme from the values of all nine coefficients
      (those of other schemes are ignored). */
  function Record(s: Scheme, s6: F64, s8: F64, s9: F64, a1: F64, a2: F64,
                  rs6: F64, rs8: F64, alp: F64, bet: F64): (p: DampingParam)
    ensures SchemeOf(p) == s
  {
    match s
    case Rational => RationalDampingParam(s6, s8, s9, a1, a2, alp)
    case Zero => ZeroDampingParam(s6, s8, s9, rs6, rs8, alp)
    case ModifiedRational => ModifiedRationalDampingParam(s6, s8, s9, a1, a2, alp)
    case ModifiedZero => ModifiedZeroDampingParam(s6, s8, s9, rs6, rs8, alp, bet)
    case OptimizedPower => OptimizedPowerDampingParam(s6, s8, s9, a1, a2, alp, bet)
  }

  /** The coefficient named by a field, among all nine. */
  function Pick(f: Field, s6: F64, s8: F64, s9: F64, a1: F64, a2: F64,
                rs6: F64, rs8: F64, alp: F64, bet: F64): F64 {
    match f
    case S6 => s6
    case S8 => s8
    case S9 => s9
    case A1 => a1
    case A2 => a2
    case Rs6 => rs6
    case Rs8 => rs8
    case Alp => alp
    case Bet => bet
  }

  /** Each field of a scheme's record holds the coefficient of that name. */
  lemma RecordPicks(s: Scheme, s6: F64, s8: F64, s9: F64, a1: F64, a2: F64,
                    rs6: F64, rs8: F64, alp: F64, bet: F64, f: Field)
    requires f in Fields(s)
    ensures RecordField(Record(s, s6, s8, s9, a1, a2, rs6, rs8, alp, bet), f)
         == Some(Pick(f, s6, s8, s9, a1, a2, rs6, rs8, alp, bet))
  {
  }

  /** Each field of the assembled record holds the builder's value. */
  lemma AssembleField(b: Builder, f: Field)
    requires forall f :: f in Fields(b.scheme) ==> Lookup(b, f).Some?
    requires f in Fields(b.scheme)
    ensures RecordField(Assemble(b), f) == Lookup(b, f)
  {
    RecordPicks(b.scheme, ValueOf(b, S6), ValueOf(b, S8), ValueOf(b, S9), ValueOf(b, A1), ValueOf(b, A2),
                ValueOf(b, Rs6), ValueOf(b, Rs8), ValueOf(b, Alp), ValueOf(b, Bet), f);
    assert Pick(f, ValueOf(b, S6), ValueOf(b, S8), ValueOf(b, S9), ValueOf(b, A1), ValueOf(b, A2),
                ValueOf(b, Rs6), ValueOf(b, Rs8), ValueOf(b, Alp), ValueOf(b, Bet)) == ValueOf(b, f);
  }

  lemma AssembleFields(b: Builder)
    requires forall f :: f in Fields(b.scheme) ==> Lookup(b, f).Some?
    ensures forall f :: f in Fields(b.scheme) ==> RecordField(Assemble(b), f) == Lookup(b, f)
  {
    forall f | f in Fields(b.scheme) ensures RecordField(Assemble(b), f) == Lookup(b, f) {
      AssembleField(b, f);
    }
  }

  /** `build`: fails exactly when a required field was never set, naming the
      first such field in declaration order; otherwise every field of the
      record holds the value set, or its default. */
  function Build(b: Builder): (r: Result<DampingParam>)
    ensures r.Err? <==> exists f :: f in Fields(b.scheme) && Lookup(b, f).None?
    ensures r.Err? ==> exists i: nat :: FirstMissingAt(b, Fields(b.scheme), i)
                                   && r.error == BuilderError(FieldName(Fields(b.scheme)[i]))
    ensures r.Ok? ==> SchemeOf(r.value) == b.scheme
    ensures r.Ok? ==> forall f :: f in Fields(b.scheme) ==> RecordField(r.value, f) == Lookup(b, f)
  {
    var fields := Fields(b.scheme);
    match FirstUnsetFrom(b, fields, 0)
    case Some(i) => Err(FromUninitializedField(FieldName(fields[i])))
    case None => AssembleFields(b); Ok(Assemble(b))
  }

  /** The builder with every field of a record set to the record's value. */
  function FromRecord(p: DampingParam): (b: Builder)
    ensures b.scheme == SchemeOf(p)
    ensures forall f :: f in Fields(b.scheme) ==> Lookup(b, f) == RecordField(p, f)
  {
    RecordFieldsPresent(p);
    Builder(SchemeOf(p), map f | f in Fields(SchemeOf(p)) :: RecordField(p, f).value)
  }

  /** Building from a record's own values gives the record back. */
  lemma BuildFromRecord(p: DampingParam)
    ensures Build(FromRecord(p)) == Ok(p)
  {
    var r := Build(FromRecord(p));
    assert r.Ok?;
    forall f: Field ensures RecordField(r.value, f) == RecordField(p, f) {
      if f !in Fields(SchemeOf(p)) {
        RecordFieldPresent(r.value, f);
        RecordFieldPresent(p, f);
      }
    }
    FieldsDetermineRecord(r.value, p);
  }

  /** The engine object `new_param_f` asks for: each field goes to the
      argument of the same name of the scheme's constructor. */
  function Positional(p: DampingParam): (h: DFTD3Param)
    ensures !h.Loaded? && SchemeOfParam(h) == SchemeOf(p)
  {
    match p
    case RationalDampingParam(s6, s8, s9, a1, a2, alp) => NewRational(s6, s8, s9, a1, a2, alp)
    case ZeroDampingParam(s6, s8, s9, rs6, rs8, alp) => NewZero(s6, s8, s9, rs6, rs8, alp)
    case ModifiedRationalDampingParam(s6, s8, s9, a1, a2, alp) =>
      NewModifiedRational(s6, s8, s9, a1, a2, alp)
    case ModifiedZeroDampingParam(s6, s8, s9, rs6, rs8, alp, bet) =>
      NewModifiedZero(s6, s8, s9, rs6, rs8, alp, bet)
    case OptimizedPowerDampingParam(s6, s8, s9, a1, a2, alp, bet) =>
      NewOptimizedPower(s6, s8, s9, a1, a2, alp, bet)
  }

  /** Every coefficient reaches the engine under its own name. */
  lemma PositionalField(p: DampingParam, f: Field)
    ensures ParamField(Positional(p), f) == RecordField(p, f)
  {
  }

  lemma PositionalFields(p: DampingParam)
    ensures forall f :: ParamField(Positional(p), f) == RecordField(p, f)
  {
    forall f ensures ParamField(Positional(p), f) == RecordField(p, f) {
      PositionalField(p, f);
    }
  }

  /** Different records never reach the engine as the same object. */
  lemma PositionalInjective(p: DampingParam, q: DampingParam)
    requires Positional(p) == Positional(q)
    ensures p == q
  {
    PositionalFields(p);
    PositionalFields(q);
    FieldsDetermineRecord(p, q);
  }

  /** `new_param_f`: destructure the record and call the scheme's `new_*_damping_f`. */
  function NewParamF(e: Engine, p: DampingParam): (r: Result<DFTD3Param>)
    ensures r.Err? <==> e.newParam(Positional(p)).isSet
    ensures r.Err? ==> r.error == C(e.newParam(Positional(p)))
    ensures r.Ok? ==> r.value == Positional(p)
  {
    match p
    case RationalDampingParam(s6, s8, s9, a1, a2, alp) =>
      NewRationalDampingF(e, s6, s8, s9, a1, a2, alp)
    case ZeroDampingParam(s6, s8, s9, rs6, rs8, alp) =>
      NewZeroDampingF(e, s6, s8, s9, rs6, rs8, alp)
    case ModifiedRationalDampingParam(s6, s8, s9, a1, a2, alp) =>
      NewMrationalDampingF(e, s6, s8, s9, a1, a2, alp)
    case ModifiedZeroDampingParam(s6, s8, s9, rs6, rs8, alp, bet) =>
      NewMzeroDampingF(e, s6, s8, s9, rs6, rs8, alp, bet)
    case OptimizedPowerDampingParam(s6, s8, s9, a1, a2, alp, bet) =>
      NewOptimizedpowerDampingF(e, s6, s8, s9, a1, a2, alp, bet)
  }

  /** `load_param_f` of each record: that scheme's table loader, with the
      method and the three-body flag passed through. */
  function LoadRecordParamF(e: Engine, s: Scheme, name: string, atm: bool): (r: Result<DFTD3Param>)
    requires NoNul(name)
    ensures r.Ok? ==> r.value == Loaded(s, name, atm)
    ensures r.Err? <==> e.newParam(Loaded(s, name, atm)).isSet
    ensures r.Err? ==> r.error == C(e.newParam(Loaded(s, name, atm)))
  {
    Loader(e, s, name, atm)
  }

  /** The record's loader is the one the version dispatcher picks for any
      alias of the same scheme. */
  lemma RecordLoaderAgreesWithDispatcher(e: Engine, s: Scheme, version: string, name: string, atm: bool)
    requires NoNul(name)
    requires VersionScheme(NormalizeVersion(version)) == Some(s)
    ensures LoadParamF(e, version, name, atm) == LoadRecordParamF(e, s, name, atm)
  {
  }

  /** `init_f`: `build()?` then `new_param_f`. A missing field is reported as
      the builder error, before the engine is asked. */
  function InitF(e: Engine, b: Builder): (r: Result<DFTD3Param>)
    ensures Build(b).Err? ==> r == Err(Build(b).error) && r.error.BuilderError?
    ensures r.Err? && r.error.BuilderError? <==> exists f :: f in Fields(b.scheme) && Lookup(b, f).None?
    ensures r.Err? ==> Check(r.error)
    ensures r.Ok? ==> SchemeOfParam(r.value) == b.scheme
    ensures r.Ok? ==> forall f :: f in Fields(b.scheme) ==> ParamField(r.value, f) == Lookup(b, f)
  {
    match Build(b)
    case Err(error) => Err(error)
    case Ok(p) => PositionalFields(p); NewParamF(e, p)
  }

  /** A builder failure of `init_f` does not depend on the engine. */
  lemma InitBuilderErrorPrecedesEngine(e: Engine, e': Engine, b: Builder)
    requires Build(b).Err?
    ensures InitF(e, b) == InitF(e', b) == Err(Build(b).error)
  {
  }

  /** A builder with every required field set builds, and the engine sees
      the same object as from the record literal. */
  lemma InitAgreesWithRecord(e: Engine, b: Builder, p: DampingParam)
    requires Build(b) == Ok(p)
    ensures InitF(e, b) == NewParamF(e, p)
  {
  }

  lemma FirstMissingUnique(b: Builder, fields: seq<Field>, i: nat, j: nat)
    requires FirstMissingAt(b, fields, i) && FirstMissingAt(b, fields, j)
    ensures i == j
  {
  }

  /** `build` reports exactly the first field without a value. */
  lemma BuildReportsFirstMissing(b: Builder, i: nat)
    requires FirstMissingAt(b, Fields(b.scheme), i)
    ensures Build(b) == Err(BuilderError(FieldName(Fields(b.scheme)[i])))
  {
    var fields := Fields(b.scheme);
    assert fields[i] in fields && Lookup(b, fields[i]).None?;
    var r := Build(b);
    var k: nat :| FirstMissingAt(b, fields, k) && r.error == BuilderError(FieldName(fields[k]));
    FirstMissingUnique(b, fields, i, k);
  }

  /** Every record starts with s6, which has a default, and then s8, which
      has none: a builder without s8 always fails on s8. */
  lemma MissingS8Reported(b: Builder)
    requires S8 !in b.slots
    ensures Build(b) == Err(BuilderError("s8"))
  {
    assert Lookup(b, Fields(b.scheme)[0]).Some?;
    assert FirstMissingAt(b, Fields(b.scheme), 1);
    BuildReportsFirstMissing(b, 1);
  }

  /** With s8 set, a rational-type builder without a1 fails on a1, and one
      with a1 but without a2 fails on a2. */
  lemma MissingA1Reported(b: Builder)
    requires b.scheme == Rational || b.scheme == ModifiedRational || b.scheme == OptimizedPower
    requires S8 in b.slots && A1 !in b.slots
    ensures Build(b) == Err(BuilderError("a1"))
  {
    assert FirstMissingAt(b, Fields(b.scheme), 3);
    BuildReportsFirstMissing(b, 3);
  }

  lemma MissingA2Reported(b: Builder)
    requires b.scheme == Rational || b.scheme == ModifiedRational || b.scheme == OptimizedPower
    requires S8 in b.slots && A1 in b.slots && A2 !in b.slots
    ensures Build(b) == Err(BuilderError("a2"))
  {
    assert FirstMissingAt(b, Fields(b.scheme), 4);
    BuildReportsFirstMissing(b, 4);
  }

  /** With s8 set, a zero-type builder without rs6 fails on rs6. */
  lemma MissingRs6Reported(b: Builder)
    requires b.scheme == Zero || b.scheme == ModifiedZero
    requires S8 in b.slots && Rs6 !in b.slots
    ensures Build(b) == Err(BuilderError("rs6"))
  {
    assert FirstMissingAt(b, Fields(b.scheme), 3);
    BuildReportsFirstMissing(b, 3);
  }

  /** bet, the last field, is reported once every other required field is set. */
  lemma MissingBetReported(b: Builder)
    requires b.scheme == ModifiedZero || b.scheme == OptimizedPower
    requires S8 in b.slots && Bet !in b.slots
    requires b.scheme == ModifiedZero ==> Rs6 in b.slots
    requires b.scheme == OptimizedPower ==> A1 in b.slots && A2 in b.slots
    ensures Build(b) == Err(BuilderError("bet"))
  {
    assert FirstMissingAt(b, Fields(b.scheme), 6);
    BuildReportsFirstMissing(b, 6);
  }

  /** With every field that has no default set, `build` succeeds. */
  lemma BuildComplete(b: Builder)
    requires forall f :: f in Fields(b.scheme) && Default(f).None? ==> f in b.slots
    ensures Build(b) == Ok(Assemble(b))
  {
    assert forall f :: f in Fields(b.scheme) ==> Lookup(b, f).Some?;
  }

  /* ---- The examples' builders ---- */

  lemma AssembleRational(b: Builder)
    requires b.scheme == Rational
    ensures Assemble(b) == RationalDampingParam(ValueOf(b, S6), ValueOf(b, S8), ValueOf(b, S9),
                                                ValueOf(b, A1), ValueOf(b, A2), ValueOf(b, Alp))
  {
  }

  lemma AssembleZero(b: Builder)
    requires b.scheme == Zero
    ensures Assemble(b) == ZeroDampingParam(ValueOf(b, S6), ValueOf(b, S8), ValueOf(b, S9),
                                            ValueOf(b, Rs6), ValueOf(b, Rs8), ValueOf(b, Alp))
  {
  }

  lemma RationalSlotsComplete(b: Builder, a1: F64, s8: F64, a2: F64)
    requires b == Builder(Rational, map[A1 := a1, S8 := s8, A2 := a2])
    ensures Build(b) == Ok(Assemble(b))
  {
    BuildComplete(b);
  }

  lemma RationalSlotsBuild(b: Builder, a1: F64, s8: F64, a2: F64)
    requires b == Builder(Rational, map[A1 := a1, S8 := s8, A2 := a2])
    ensures Build(b) == Ok(RationalDampingParam(ONE, s8, ONE, a1, a2, FOURTEEN))
  {
    RationalSlotsComplete(b, a1, s8, a2);
    AssembleRational(b);
    assert ValueOf(b, S6) == ONE && ValueOf(b, S9) == ONE && ValueOf(b, Alp) == FOURTEEN;
    assert ValueOf(b, S8) == s8 && ValueOf(b, A1) == a1 && ValueOf(b, A2) == a2;
  }

  lemma ZeroSlotsComplete(b: Builder, s8: F64, rs6: F64, s9: F64)
    requires b == Builder(Zero, map[S8 := s8, Rs6 := rs6, S9 := s9])
    ensures Build(b) == Ok(Assemble(b))
  {
    BuildComplete(b);
  }

  lemma ZeroSlotsBuild(b: Builder, s8: F64, rs6: F64, s9: F64)
    requires b == Builder(Zero, map[S8 := s8, Rs6 := rs6, S9 := s9])
    ensures Build(b) == Ok(ZeroDampingParam(ONE, s8, s9, rs6, ONE, FOURTEEN))
  {
    ZeroSlotsComplete(b, s8, rs6, s9);
    AssembleZero(b);
    assert ValueOf(b, S6) == ONE && ValueOf(b, Rs8) == ONE && ValueOf(b, Alp) == FOURTEEN;
    assert ValueOf(b, S8) == s8 && ValueOf(b, Rs6) == rs6 && ValueOf(b, S9) == s9;
  }

  /** Rational damping with only the required a1, s8, a2 set: the defaults
      fill s6 = 1.0, s9 = 1.0, alp = 14.0. */
  lemma RationalDefaults(a1: F64, s8: F64, a2: F64)
    ensures Build(Set(Set(Set(DefaultBuilder(Rational), A1, a1), S8, s8), A2, a2))
         == Ok(RationalDampingParam(ONE, s8, ONE, a1, a2, FOURTEEN))
  {
    RationalSlotsBuild(Set(Set(Set(DefaultBuilder(Rational), A1, a1), S8, s8), A2, a2), a1, s8, a2);
  }

  /** Zero damping with s8, rs6 and s9 set: the defaults fill s6 = 1.0,
      rs8 = 1.0, alp = 14.0. */
  lemma ZeroDefaults(s8: F64, rs6: F64, s9: F64)
    ensures Build(Set(Set(Set(DefaultBuilder(Zero), S8, s8), Rs6, rs6), S9, s9))
         == Ok(ZeroDampingParam(ONE, s8, s9, rs6, ONE, FOURTEEN))
  {
    ZeroSlotsBuild(Set(Set(Set(DefaultBuilder(Zero), S8, s8), Rs6, rs6), S9, s9), s8, rs6, s9);
  }

  /** Zero damping set through the builder (s8, rs6, s9), through the record
      literal, and through the constructor directly, reach the engine as one
      and the same object. */
  lemma ZeroPathsAgree(e: Engine, s8: F64, rs6: F64, s9: F64)
    ensures InitF(e, Set(Set(Set(DefaultBuilder(Zero), S8, s8), Rs6, rs6), S9, s9))
         == NewParamF(e, ZeroDampingParam(ONE, s8, s9, rs6, ONE, FOURTEEN))
         == NewZeroDampingF(e, ONE, s8, s9, rs6, ONE, FOURTEEN)
  {
    ZeroDefaults(s8, rs6, s9);
    assert Positional(ZeroDampingParam(ONE, s8, s9, rs6, ONE, FOURTEEN))
        == NewZero(ONE, s8, s9, rs6, ONE, FOURTEEN);
  }

  /** The builders of the examples that leave a required field out fail,
      naming the first one missing. */
  lemma RationalNoArgs(s: Scheme, a1: F64, a2: F64, s8: F64)
    requires s == Rational || s == ModifiedRational
    ensures Build(DefaultBuilder(s)) == Err(BuilderError("s8"))
    ensures Build(Set(Set(DefaultBuilder(s), A1, a1), A2, a2)) == Err(BuilderError("s8"))
    ensures Build(Set(Set(DefaultBuilder(s), S8, s8), A2, a2)) == Err(BuilderError("a1"))
    ensures Build(Set(Set(DefaultBuilder(s), S8, s8), A1, a1)) == Err(BuilderError("a2"))
  {
    MissingS8Reported(DefaultBuilder(s));
    MissingS8Reported(Set(Set(DefaultBuilder(s), A1, a1), A2, a2));
    MissingA1Reported(Set(Set(DefaultBuilder(s), S8, s8), A2, a2));
    MissingA2Reported(Set(Set(DefaultBuilder(s), S8, s8), A1, a1));
  }

  lemma ZeroNoArgs(rs6: F64, s8: F64)
    ensures Build(DefaultBuilder(Zero)) == Err(BuilderError("s8"))
    ensures Build(Set(DefaultBuilder(Zero), Rs6, rs6)) == Err(BuilderError("s8"))
    ensures Build(Set(DefaultBuilder(Zero), S8, s8)) == Err(BuilderError("rs6"))
  {
    MissingS8Reported(DefaultBuilder(Zero));
    MissingS8Reported(Set(DefaultBuilder(Zero), Rs6, rs6));
    MissingRs6Reported(Set(DefaultBuilder(Zero), S8, s8));
  }

  lemma ModifiedZeroNoArgs(rs6: F64, bet: F64, s8: F64)
    ensures Build(DefaultBuilder(ModifiedZero)) == Err(BuilderError("s8"))
    ensures Build(Set(Set(DefaultBuilder(ModifiedZero), Rs6, rs6), Bet, bet)) == Err(BuilderError("s8"))
    ensures Build(Set(Set(DefaultBuilder(ModifiedZero), S8, s8), Bet, bet)) == Err(BuilderError("rs6"))
    ensures Build(Set(Set(DefaultBuilder(ModifiedZero), S8, s8), Rs6, rs6)) == Err(BuilderError("bet"))
  {
    MissingS8Reported(DefaultBuilder(ModifiedZero));
    MissingS8Reported(Set(Set(DefaultBuilder(ModifiedZero), Rs6, rs6), Bet, bet));
    MissingRs6Reported(Set(Set(DefaultBuilder(ModifiedZero), S8, s8), Bet, bet));
    MissingBetReported(Set(Set(DefaultBuilder(ModifiedZero), S8, s8), Rs6, rs6));
  }

  lemma OptimizedPowerNoArgs(a1: F64, a2: F64, bet: F64)
    ensures Build(DefaultBuilder(OptimizedPower)) == Err(BuilderError("s8"))
    ensures Build(Set(Set(Set(DefaultBuilder(OptimizedPower), A1, a1), A2, a2), Bet, bet))
         == Err(BuilderError("s8"))
  {
    MissingS8Reported(DefaultBuilder(OptimizedPower));
    OptimizedPowerSlotsWithoutS8(Set(Set(Set(DefaultBuilder(OptimizedPower), A1, a1), A2, a2), Bet, bet),
                                 a1, a2, bet);
  }

  lemma OptimizedPowerSlotsWithoutS8(b: Builder, a1: F64, a2: F64, bet: F64)
    requires b == Builder(OptimizedPower, map[A1 := a1, A2 := a2, Bet := bet])
    ensures Build(b) == Err(BuilderError("s8"))
  {
    MissingS8Reported(b);
  }

  lemma OptimizedPowerMissingCoefficient(a1: F64, a2: F64, bet: F64, s8: F64)
    ensures Build(Set(Set(Set(DefaultBuilder(OptimizedPower), S8, s8), A2, a2), Bet, bet))
         == Err(BuilderError("a1"))
    ensures Build(Set(Set(Set(DefaultBuilder(OptimizedPower), S8, s8), A1, a1), Bet, bet))
         == Err(BuilderError("a2"))
    ensures Build(Set(Set(Set(DefaultBuilder(OptimizedPower), S8, s8), A1, a1), A2, a2))
         == Err(BuilderError("bet"))
  {
    MissingA1Reported(Set(Set(Set(DefaultBuilder(OptimizedPower), S8, s8), A2, a2), Bet, bet));
    MissingA2Reported(Set(Set(Set(DefaultBuilder(OptimizedPower), S8, s8), A1, a1), Bet, bet));
    MissingBetReported(Set(Set(Set(DefaultBuilder(OptimizedPower), S8, s8), A1, a1), A2, a2));
  }
}
