# dftd3-rs wrapper model

This project models the safe Rust layer of `dftd3-rs`, the bindings to the
s-dftd3 library that computes DFT-D3 dispersion corrections. It covers the
two files `dftd3/src/interface.rs` and `dftd3/src/interface_gcp.rs`:

- the library version query;
- the `DFTD3Error` type and the `match error.check()` shape that ends every
  engine call;
- `DFTD3Structure`, with the length checks it makes before the engine sees
  any buffer;
- the damping parameters `DFTD3Param`, built five ways from coefficients,
  loaded from the engine's tables by method name, or loaded through the
  version-string dispatcher `dftd3_load_param_f`;
- the five damping records with their `derive_builder` builders and
  `init_f`;
- `DFTD3Model` and `DFTD3GCP`, whose evaluations allocate zeroed output
  buffers sized by the atom count and let the engine fill them.

The numerical library is not modelled. It is a parameter `e: Engine` of
every operation that calls it (`engine.dfy`). `Engine` is a record of total
functions: for each entry point, the error handle the engine leaves and the
values it writes. Nothing is assumed about what those functions return,
so every contract and lemma holds for every possible engine. Three
behaviours of the engine that the wrapper cannot observe are fixed by the
model instead, each with its line under "Left out":

- a fresh error handle is unset (`UNSET`; the `Errors.NewError` line);
- a failed position update still stores the positions and lattice it was
  handed (`Structure.UpdateOutcome`, and through it
  `Structure.DFTD3Structure.UpdateF`, `Model.DFTD3Model.UpdateF` and
  `Gcp.DFTD3GCP.Update`; the `Structure.DFTD3Structure.UpdateF` line);
- a rejected real-space cutoff leaves the old cutoffs in place (the
  `Model.DFTD3Model.SetRealspaceCutoffF` and
  `Gcp.DFTD3GCP.SetRealspaceCutoffF` lines).

When a property says an outcome is decided "before the engine is called",
it is stated as: the outcome is the same for any two engines.

Other modelling choices:

- An engine object (structure, model, counterpoise object) is the data it
  was created from, plus the cutoffs last set on it.
- An `f64` is its 64-bit IEEE-754 pattern, read as an unsigned number
  below 2^64 (`F64`). The wrapper never does arithmetic on one; it only
  passes values along and uses the defaults 1.0 (`0x3FF0_0000_0000_0000`)
  and 14.0 (`0x402C_0000_0000_0000`).
- Rust `String`s are `seq<char>`.

The modules follow the source:

| file | module | models |
|---|---|---|
| `base.dfy` | `Base` | `Option`, C `int` range, decimal formatting of integers |
| `engine.dfy` | `Engine` | the library's entry points and its objects |
| `errors.dfy` | `Errors` | `DFTD3Error`, `check`, `get_message`, `Display`, `Debug` |
| `version.dfy` | `Version` | `get_api_version`, `get_api_version_compact` |
| `structure.dfy` | `Structure` | `DFTD3Structure` |
| `param.dfy` | `Param` | `DFTD3Param` constructors and loaders, `dftd3_load_param_f` |
| `damping.dfy` | `Damping` | the damping records, their builders, `new_param_f`, `load_param_f`, `init_f` |
| `model.dfy` | `Model` | `DFTD3Output`, `DFTD3PairwiseOutput`, `DFTD3Model` |
| `gcp.dfy` | `Gcp` | `DFTD3GCP` and the free `get_counterpoise_f` |

`DFTD3Structure`, `DFTD3Model` and `DFTD3GCP` are classes, because their
methods change them in place. The structure's positions and lattice are
fields, and `UpdateF` assigns them. A model's cutoffs are a field that
`SetRealspaceCutoffF` assigns. The model and the counterpoise object own
their structure as a `const` field. Their `UpdateF` and `Update` modify
only that structure.

An evaluation allocates zeroed `array`s, the engine writes into them
(`Engine.EngineWrite`), and their contents are returned. Everything else is
expressions over values, so it is made of functions and lemmas.

The structure test at `dftd3/examples/test_interface.rs:128-130`:

- Its comment calls its input "nuclear fusion" (all atoms at one point).
- It gives 72 coordinates for the 16-atom example molecule.
- So it is turned down by the Rust length check ("expected 48, got 72"),
  not by the engine (`Model.ZeroPositionsFailLengthCheck`).
- The update test at lines 151-153 has the right length. So whether it
  fails depends on the engine alone, and the model does not claim that it
  fails.

## Model

| member | source | states |
|---|---|---|
| `Version.GetApiVersionCompact` | dftd3/src/interface.rs:20-23 | three components, minor and patch below 100; for a non-negative version number they rebuild it as `major * 10000 + minor * 100 + patch`, which with the bounds fixes all three |
| `Version.GetApiVersion` | dftd3/src/interface.rs:13-16 | for a non-negative version number, the string is the three compact components joined by dots |
| `Version.Decode` | dftd3/src/interface.rs:13-23 | a version built from a major number, a minor below 100 and a patch below 100 decodes to those three, as numbers and as the dotted string |
| `Version.CompactInverse` | dftd3/src/interface.rs:20-23 | the compact components of every non-negative version number recombine into it |
| `Version.FormatAgreesWithCompact` | dftd3/src/interface.rs:13-23 | the string form (computed on the signed `c_int` with truncating division) and the compact form (after `as usize`) agree on every non-negative version |
| `Errors.NewError` | dftd3/src/interface.rs:62-65 | a new error is an engine handle that is not set |
| `Errors.FromUninitializedField` | dftd3/src/interface.rs:39-43 | a missing builder field becomes a builder error that carries the field's name and counts as set |
| `Errors.Check` | dftd3/src/interface.rs:70-75 | an engine handle is set exactly when the engine says so; an error made by the wrapper is always set |
| `Errors.GetMessage` | dftd3/src/interface.rs:84-101 | engine message for a handle, a wrapper message verbatim, "Builder error: " followed by the missing-field error for a builder error |
| `Errors.BuilderMessageNamesField` | dftd3/src/interface.rs:97-99 | two builder errors with the same message are about the same field |
| `Errors.Display` | dftd3/src/interface.rs:114-122 | empty exactly when the error is not set; otherwise "DFTD3Error: " followed by the message |
| `Errors.Debug` | dftd3/src/interface.rs:104-112 | as `Display` for a set error, "DFTD3Error: No error" otherwise; always starts with "DFTD3Error: " |
| `Errors.Finish` | dftd3/src/interface.rs:250-253 | `Err` holding the engine's handle exactly when the handle is set, otherwise `Ok` with the value |
| `Structure.DimensionCheck` | dftd3/src/interface.rs:211-230 | no error exactly when positions are 3 per atom, a lattice if given has 9 entries and a periodicity if given has 3; an error is a wrapper error and set |
| `Structure.PositionsCheckedFirst` | dftd3/src/interface.rs:213-218 | a wrong positions length is reported, with expected and given length, whatever lattice and periodicity are |
| `Structure.LatticeCheckedSecond` | dftd3/src/interface.rs:219-224 | with positions right, a wrong lattice length is reported whatever the periodicity is |
| `Structure.PeriodicCheckedLast` | dftd3/src/interface.rs:225-230 | with positions and lattice right, a wrong periodicity length is reported |
| `Structure.DimensionMessageReportsLengths` | dftd3/src/interface.rs:213-230 | two length-check messages are equal only if they name the same buffer, expected length and given length |
| `Structure.StructureOutcome` | dftd3/src/interface.rs:205-254 | `Ok` exactly when the lengths agree and the engine accepts the structure; `Ok` holds the geometry handed over; when the lengths agree but the engine rejects, the error is the engine's own handle; every error is set |
| `Structure.StructureDimensionErrorPrecedesEngine` | dftd3/src/interface.rs:211-253 | a length error is the same for every engine: no engine call is made before it |
| `Structure.UpdateKeepsShape` | dftd3/src/interface.rs:261-296 | about `UpdateOutcome`, the value model of `update_f` (length checks against the fixed atom count, then the engine): update keeps the atoms and periodicity, keeps the geometry well shaped, succeeds exactly when positions and lattice lengths agree and the engine accepts, and on a length error changes nothing |
| `Structure.DFTD3Structure.GetNatoms` | dftd3/src/interface.rs:196-198 | the atom count the structure was created with, a third of the positions |
| `Structure.DFTD3Structure.NewF` | dftd3/src/interface.rs:205-254 | the result of `StructureOutcome`; on success a new structure holding exactly that geometry with `GetNatoms` equal to the number of atomic numbers |
| `Structure.DFTD3Structure.UpdateF` | dftd3/src/interface.rs:261-296 | result and new geometry are those of `UpdateOutcome`: length checks against the fixed atom count first, never the periodicity, then the engine |
| `Param.NewZeroDampingF` | dftd3/src/interface.rs:333-348 | `Err`, carrying the engine's own error handle, exactly when the engine rejects the zero-damping object; on success s6, s8, s9, rs6, rs8, alp hold the arguments in that order and it has no a1, a2, bet |
| `Param.NewRationalDampingF` | dftd3/src/interface.rs:372-387 | as above for rational damping: s6, s8, s9, a1, a2, alp; no rs6, rs8, bet |
| `Param.NewMzeroDampingF` | dftd3/src/interface.rs:412-429 | as above for modified zero damping: s6, s8, s9, rs6, rs8, alp, bet; no a1, a2 |
| `Param.NewMrationalDampingF` | dftd3/src/interface.rs:462-477 | as above for modified rational damping: s6, s8, s9, a1, a2, alp; no rs6, rs8, bet |
| `Param.NewOptimizedpowerDampingF` | dftd3/src/interface.rs:503-520 | as above for optimized power damping: s6, s8, s9, a1, a2, alp, bet; no rs6, rs8 |
| `Param.CoefficientsDetermineParam` | dftd3/src/interface.rs:331-546 | a parameter object made from coefficients is determined by its scheme and coefficient values |
| `Param.LoadDamping` | dftd3/src/interface.rs:356-364 | a table lookup of one scheme for a method without NUL: `Err` with the engine's own error handle exactly when the engine rejects it, otherwise the loaded object for that scheme, method and three-body flag |
| `Param.LoadZeroDampingF` | dftd3/src/interface.rs:356-364 | the zero-damping table entry for the method and flag, or `Err` with the engine's own handle exactly when the engine rejects it |
| `Param.LoadRationalDampingF` | dftd3/src/interface.rs:395-404 | the rational-damping table entry, or `Err` with the engine's own handle exactly when the engine rejects it |
| `Param.LoadMzeroDampingF` | dftd3/src/interface.rs:445-454 | the modified-zero table entry, or `Err` with the engine's own handle exactly when the engine rejects it |
| `Param.LoadMrationalDampingF` | dftd3/src/interface.rs:486-495 | the modified-rational table entry, or `Err` with the engine's own handle exactly when the engine rejects it |
| `Param.LoadOptimizedpowerDampingF` | dftd3/src/interface.rs:536-546 | the optimized-power table entry, or `Err` with the engine's own handle exactly when the engine rejects it |
| `Param.LowerAscii` | dftd3/src/interface.rs:580 | capitals map to their lower-case letter, every other character is kept |
| `Param.LowercaseAscii` | dftd3/src/interface.rs:580 | same length, no capitals left, each character lowered or kept in place |
| `Param.StripSeparators` | dftd3/src/interface.rs:580 | no '-', '_' or ' ' left and never longer |
| `Param.StripSeparatorsMembers` | dftd3/src/interface.rs:580 | a character survives the stripping exactly when it was there and is not a separator |
| `Param.NormalizeVersion` | dftd3/src/interface.rs:580 | the compared form has no capitals and no separators |
| `Param.NormalizeIdempotent` | dftd3/src/interface.rs:580 | normalising a normalised version string changes nothing |
| `Param.VersionSchemeMatchesAliases` | dftd3/src/interface.rs:581-586 | a normalised string selects a scheme exactly when it is one of that scheme's listed aliases |
| `Param.AliasesAreNormal` | dftd3/src/interface.rs:581-586 | every alias is its own normal form, so every arm of the match is reachable |
| `Param.LoadParamF` | dftd3/src/interface.rs:575-589 | an unknown normalised version gives the wrapper error "Unknown DFTD3 version: " plus the normalised string, with no engine call; a known one gives that scheme's table loader with method and flag passed through; a wrapper error happens exactly for unknown versions |
| `Param.LoadParamNormalizes` | dftd3/src/interface.rs:575-589 | a version string and its normal form load the same parameters |
| `Param.LoadParamSpellingRational` | dftd3/src/interface.rs:582 | "D3-BJ" normalises to "d3bj" and loads rational damping |
| `Param.LoadParamSpellingZero` | dftd3/src/interface.rs:583 | "d3_zero" normalises to "d3zero" and loads zero damping |
| `Param.LoadParamSpellingModifiedRational` | dftd3/src/interface.rs:584 | "D3 mBJ" normalises to "d3mbj" and loads modified rational damping |
| `Param.LoadParamSpellingModifiedZero` | dftd3/src/interface.rs:585 | "Zero-M" normalises to "zerom" and loads modified zero damping |
| `Param.LoadParamSpellingOptimizedPower` | dftd3/src/interface.rs:586 | "OP" normalises to "op" and loads optimized power damping |
| `Param.LoadParamUnknown` | dftd3/src/interface.rs:587 | "D4-BJ" is reported as "Unknown DFTD3 version: d4bj" for every engine |
| `Damping.RecordFieldPresent` | dftd3/src/interface.rs:610-747 | a record has a value exactly for the fields its struct declares |
| `Damping.Assemble` | dftd3/src/interface.rs:610-611 | the record `build` assembles is of the builder's scheme |
| `Damping.AssembleField` | dftd3/src/interface.rs:610-611 | each declared field of the assembled record holds the builder's value for it, set or default |
| `Damping.RequiredFields` | dftd3/src/interface.rs:610-747 | the required fields (no `#[builder(default)]`) are s8, a1, a2 for the two rational records; s8, rs6 for zero; s8, rs6, bet for modified zero; s8, a1, a2, bet for optimized power |
| `Damping.Set` | dftd3/src/interface.rs:610-611 | a setter makes the field hold the given value and leaves every other field's value alone |
| `Damping.Build` | dftd3/src/interface.rs:610-611 | fails exactly when a required field is unset, naming the first one in declaration order; otherwise each field holds the value set or its default |
| `Damping.BuildReportsFirstMissing` | dftd3/src/interface.rs:610-611 | whenever a field is the first unset one, `build` reports exactly that field's name |
| `Damping.BuildComplete` | dftd3/src/interface.rs:610-611 | with every required field set, `build` succeeds |
| `Damping.BuildFromRecord` | dftd3/src/interface.rs:610-747 | setting every field of a record and building gives the record back |
| `Damping.Positional` | dftd3/src/interface.rs:624-747 | the engine object `new_param_f` asks for is one made from coefficients, of the record's scheme |
| `Damping.PositionalField` | dftd3/src/interface.rs:624-747 | every coefficient reaches the engine under its own name (no argument swapped) |
| `Damping.PositionalInjective` | dftd3/src/interface.rs:624-747 | different records never reach the engine as the same object |
| `Damping.NewParamF` | dftd3/src/interface.rs:624-747 | `Err` with the handle exactly when the engine rejects the record's object, otherwise that object |
| `Damping.LoadRecordParamF` | dftd3/src/interface.rs:749-760 | a record's `load_param_f` is the table lookup of its own scheme |
| `Damping.RecordLoaderAgreesWithDispatcher` | dftd3/src/interface.rs:749-760 | the record's loader gives what the version dispatcher gives for any alias of its scheme |
| `Damping.InitF` | dftd3/src/interface.rs:775-777 | a build failure is returned as the builder error; a builder error happens exactly when a required field is unset; on success every coefficient the engine holds is the builder's value or default |
| `Damping.InitBuilderErrorPrecedesEngine` | dftd3/src/interface.rs:775-777 | a build failure is the same for every engine |
| `Damping.InitAgreesWithRecord` | dftd3/src/interface.rs:775-777 | a builder that builds a record initialises to what the record literal's `new_param_f` gives |
| `Damping.MissingS8Reported` | dftd3/src/interface.rs:610-747 | a builder without s8 fails naming s8, whatever else is set, since s6 before it has a default |
| `Damping.MissingA1Reported` | dftd3/src/interface.rs:610-629 | a rational-type builder with s8 but no a1 fails naming a1 |
| `Damping.MissingA2Reported` | dftd3/src/interface.rs:610-629 | a rational-type builder with s8 and a1 but no a2 fails naming a2 |
| `Damping.MissingRs6Reported` | dftd3/src/interface.rs:637-657 | a zero-type builder with s8 but no rs6 fails naming rs6 |
| `Damping.MissingBetReported` | dftd3/src/interface.rs:696-747 | bet, declared last, is named once everything else required is set |
| `Damping.RationalDefaults` | dftd3/examples/test_interface.rs:267-273 | a1, s8, a2 alone build a rational record with s6 = 1.0, s9 = 1.0, alp = 14.0 |
| `Damping.ZeroDefaults` | dftd3/examples/energy_r2scan_d3zero.rs:36-40 | s8, rs6, s9 alone build a zero record with s6 = 1.0, rs8 = 1.0, alp = 14.0 |
| `Damping.ZeroPathsAgree` | dftd3/examples/energy_r2scan_d3zero.rs:36-71 | the builder, the record literal and the direct constructor give the same outcome |
| `Damping.RationalNoArgs` | dftd3/examples/test_interface.rs:48-88 | each incomplete rational (and modified rational) builder of the tests fails, naming s8, s8, a1, a2 |
| `Damping.ZeroNoArgs` | dftd3/examples/test_interface.rs:63-73 | the incomplete zero builders fail naming s8, s8, rs6 |
| `Damping.ModifiedZeroNoArgs` | dftd3/examples/test_interface.rs:90-103 | the incomplete modified zero builders fail naming s8, s8, rs6, bet |
| `Damping.OptimizedPowerNoArgs` | dftd3/examples/test_interface.rs:105-111 | the default builder and the one lacking s8 fail naming s8 |
| `Damping.OptimizedPowerMissingCoefficient` | dftd3/examples/test_interface.rs:113-120 | the builders lacking a1, a2 or bet fail naming that field |
| `Model.Collect` | dftd3/src/interface.rs:950-976 | the output is the engine's energy and, exactly when derivatives were asked for, its gradient (3 per atom) and strain (9); `Err` with the handle exactly when it is set |
| `Model.ModelOutcome` | dftd3/src/interface.rs:930-938 | the structure's own error unchanged; once the structure exists, `Ok` with the geometry when the engine accepts a model for it, else `Err` with the engine's own handle |
| `Model.ModelStructureErrorPrecedesEngine` | dftd3/src/interface.rs:930-938 | a structure failure does not depend on the model entry point of the engine |
| `Model.DFTD3Model.GetNatoms` | dftd3/src/interface.rs:901-903 | the owned structure's atom count |
| `Model.DFTD3Model.FromStructureF` | dftd3/src/interface.rs:1032-1039 | `Err` with the handle exactly when the engine rejects a model for the structure; otherwise a new model owning that structure |
| `Model.DFTD3Model.NewF` | dftd3/src/interface.rs:930-938 | the result of `ModelOutcome`; on success a new model and new structure holding that geometry |
| `Model.DFTD3Model.GetDispersionF` | dftd3/src/interface.rs:945-977 | energy from the engine; gradient of 3 per atom and strain of 9 present exactly when asked for and holding what the engine wrote; `Err` exactly when the engine's handle is set |
| `Model.DFTD3Model.GetPairwiseDispersionF` | dftd3/src/interface.rs:980-1004 | two atoms x atoms matrices holding what the engine wrote, or the engine's error |
| `Model.DFTD3Model.SetRealspaceCutoffF` | dftd3/src/interface.rs:1011-1025 | `Err` exactly when the engine rejects the three cutoffs; the model holds them afterwards only on success |
| `Model.DFTD3Model.UpdateF` | dftd3/src/interface.rs:1046-1052 | the owned structure's `update_f`, with the same result and new geometry |
| `Model.ZeroPositionsFailLengthCheck` | dftd3/examples/test_interface.rs:128-130 | 72 coordinates for 16 atoms fail with "Invalid dimension for positions, expected 48, got 72", for every engine |
| `Model.TooFewNumbersFailLengthCheck` | dftd3/examples/test_interface.rs:132-134 | 3 atomic numbers with 48 coordinates fail with "expected 9, got 48" |
| `Model.TooFewPositionsFailLengthCheck` | dftd3/examples/test_interface.rs:136-138 | 7 coordinates for 16 atoms fail with "expected 48, got 7" |
| `Model.ShortPositionsUpdateFails` | dftd3/examples/test_interface.rs:143-145 | an update with 7 coordinates fails with "expected 48, got 7" and leaves the structure unchanged |
| `Model.ShortLatticeUpdateFails` | dftd3/examples/test_interface.rs:147-149 | an update with a 7-entry lattice fails with "Invalid dimension for lattice, expected 9, got 7" and leaves the structure unchanged |
| `Gcp.GcpOutcome` | dftd3/src/interface_gcp.rs:59-69 | the structure's own error unchanged; once the structure exists, `Ok` with a handle for the geometry, method and basis when the engine accepts them, else `Err` with the engine's own handle |
| `Gcp.GcpStructureErrorPrecedesEngine` | dftd3/src/interface_gcp.rs:59-69 | a structure failure does not depend on the counterpoise entry point nor on method and basis |
| `Gcp.DFTD3GCP.GetNatoms` | dftd3/src/interface_gcp.rs:39-41 | the owned structure's atom count |
| `Gcp.DFTD3GCP.Update` | dftd3/src/interface_gcp.rs:44-46 | the panicking update: callers hand it an update that succeeds, and the structure then holds the new positions and, if given, the new lattice |
| `Gcp.DFTD3GCP.LoadGcpParamF` | dftd3/src/interface_gcp.rs:102-122 | `Err` with the handle exactly when the engine rejects method and basis for the structure; otherwise a new object owning the structure |
| `Gcp.DFTD3GCP.NewF` | dftd3/src/interface_gcp.rs:59-69 | the result of `GcpOutcome`; method and basis must be free of NUL only once the structure exists |
| `Gcp.DFTD3GCP.GetCounterpoiseF` | dftd3/src/interface_gcp.rs:72-99 | energy from the engine; gradient and strain exactly when asked for, holding what the engine wrote; `Err` exactly when the handle is set |
| `Gcp.DFTD3GCP.SetRealspaceCutoffF` | dftd3/src/interface_gcp.rs:125-132 | `Err` exactly when the engine rejects the two cutoffs; the object holds them afterwards only on success |
| `Gcp.GetCounterpoiseF` | dftd3/src/interface_gcp.rs:136-160 | always with derivatives; the gradient is sized by the structure passed in, not by the one the counterpoise object owns, and holds what the engine wrote for that structure |

## Left out

- The numerical library itself (dispersion energies, counterpoise terms, their checks of physical sense such as atoms at one point). It is the `Engine` parameter, about which nothing is assumed.
- The panicking wrappers (`new`, `update`, `get_dispersion`, `init`, `new_param`, `load_param`, `dftd3_load_param`, ...). Each is `unwrap()` of a modelled `_f` operation. They are left out, except `DFTD3GCP::update`, which has no fallible twin.
- `Drop` implementations, raw pointers, `get_c_ptr`, and the C strings leaked by `into_raw`: memory management is not modelled.
- The `usize` to `c_int` casts of the atom count and the atomic numbers in `new_f`. Atom counts and atomic numbers are unbounded naturals.
- The 512-byte buffer through which `get_message` copies an engine message, and its lossy UTF-8 decoding. An engine message is returned whole.
- The `unwrap()` of `CString::new` on a method or basis name with a NUL byte, which panics. It is a precondition (`NoNul`), transcribing the panic as a caller obligation.
- Move semantics and aliasing: an owned structure is a `const` field of its model or counterpoise object. The model does not prevent two owners of one structure object, which Rust's ownership rules out.
- Param.LowercaseAscii: lowers ASCII capitals only, whereas Rust's `to_lowercase` is full Unicode. A version string with other capitals is compared, and reported, unlowered.
- Version.GetApiVersion: its contract speaks only of non-negative version numbers. For a negative one the string is still defined (truncating division and remainder of the signed `c_int`) but nothing is proved about it.
- Version.GetApiVersionCompact: likewise, the recombination is proved for non-negative versions only. For a negative one the `as usize` wrap-around is modelled; only the number of components and the bounds on minor and patch are proved.
- Errors.NewError: the handle `dftd3_new_error` returns is taken to be unset with an empty message (`UNSET`), without asking the engine. The wrapper only ever checks a fresh handle after the engine has written to it.
- Structure.DFTD3Structure.UpdateF: the engine is assumed to store the positions (and lattice) it is handed even when it then reports an error (in `Structure.UpdateOutcome`; `Model.DFTD3Model.UpdateF` and `Gcp.DFTD3GCP.Update` inherit it). What s-dftd3 stores on failure is not visible from the wrapper.
- Model.DFTD3Model.SetRealspaceCutoffF: the engine is assumed to keep the old cutoffs when it rejects new ones. What s-dftd3 keeps on failure is not visible from the wrapper.
- Gcp.DFTD3GCP.SetRealspaceCutoffF: the same assumption about rejected cutoffs.
- `From<DFTD3Output>` and `From<DFTD3PairwiseOutput>` into tuples: plain repackaging of the fields, left out.
