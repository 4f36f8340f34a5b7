/** `DFTD3Error` and the `Result` every fallible operation returns. */
module Errors {
  import opened Base
  import opened Engine

  /** An error: an engine error handle (`C`), a message produced by the
      wrapper itself (`Rust`), or a builder field that was never set
      (`BuilderError`, holding the field name that derive_builder's
      `UninitializedFieldError` carries). */
  datatype DFTD3Error =
    | C(handle: ErrorHandle)
    | Rust(msg: string)
    | BuilderError(field: string)

  datatype Result<+T> = Ok(value: T) | Err(error: DFTD3Error)

  /** `DFTD3Error::new`: a fresh, unset engine error handle. */
  function NewError(): (e: DFTD3Error)
    ensures e.C? && !Check(e)
  {
    C(UNSET)
  }

  /** `From<UninitializedFieldError>`: a missing builder field becomes a `BuilderError`. */
  function FromUninitializedField(field: string): (e: DFTD3Error)
    ensures e.BuilderError? && e.field == field && Check(e)
  {
    BuilderError(field)
  }

  /** `check`: whether the error is set. Only an engine handle is consulted;
      an error the wrapper made itself is always set. */
  predicate Check(e: DFTD3Error)
    ensures !e.C? ==> Check(e)
    ensures e.C? ==> (Check(e) <==> e.handle.isSet)
  {
    match e
    case C(h) => h.isSet
    case _ => true
  }

  /** How derive_builder's `UninitializedFieldError` prints under `{:?}`. */
  function UninitializedFieldDebug(field: string): string {
    "UninitializedFieldError(\"" + field + "\")"
  }

  const BUILDER_PREFIX: string := "Builder error: "

  /** `get_message`: the engine's message for a handle, a wrapper message
      verbatim, or the builder failure behind a fixed prefix. */
  function GetMessage(e: DFTD3Error): (m: string)
    ensures e.Rust? ==> m == e.msg
    ensures e.C? ==> m == e.handle.message
    ensures e.BuilderError? ==> |m| > |BUILDER_PREFIX| && m[..|BUILDER_PREFIX|] == BUILDER_PREFIX
  {
    match e
    case C(h) => h.message
    case Rust(msg) => msg
    case BuilderError(field) => BUILDER_PREFIX + UninitializedFieldDebug(field)
  }

  /** The message of a builder error names the missing field, so two builder
      errors with the same message are about the same field. */
  lemma BuilderMessageNamesField(f: string, g: string)
    requires GetMessage(BuilderError(f)) == GetMessage(BuilderError(g))
    ensures f == g
  {
    var open := BUILDER_PREFIX + "UninitializedFieldError(\"";
    var close := "\")";
    var m := GetMessage(BuilderError(f));
    assert m == open + f + close;
    assert m == open + g + close;
    assert |f| == |g|;
    assert f == m[|open|..|open| + |f|];
    assert g == m[|open|..|open| + |g|];
  }

  const DISPLAY_PREFIX: string := "DFTD3Error: "

  /** `Display`: the message behind a fixed prefix when the error is set, and
      the empty string when it is not. */
  function Display(e: DFTD3Error): (s: string)
    ensures s == "" <==> !Check(e)
    ensures Check(e) ==> s == DISPLAY_PREFIX + GetMessage(e)
  {
    if Check(e) then DISPLAY_PREFIX + GetMessage(e) else ""
  }

  /** `Debug`: as `Display`, except that an unset error still prints a note. */
  function Debug(e: DFTD3Error): (s: string)
    ensures Check(e) ==> s == Display(e)
    ensures !Check(e) ==> s == DISPLAY_PREFIX + "No error"
    ensures s[..|DISPLAY_PREFIX|] == DISPLAY_PREFIX
  {
    if Check(e) then DISPLAY_PREFIX + GetMessage(e) else DISPLAY_PREFIX + "No error"
  }

  /** The shape every engine call in the wrapper ends with: with the handle the
      engine left behind, `match error.check() { true => Err(error), false => Ok(v) }`. */
  function Finish<T>(status: ErrorHandle, v: T): (r: Result<T>)
    ensures r.Err? <==> status.isSet
    ensures r.Err? ==> r.error == C(status) && Check(r.error)
    ensures r.Ok? ==> r.value == v
  {
    var error := C(status);
    if Check(error) then Err(error) else Ok(v)
  }
}
