/** `get_api_version` and `get_api_version_compact`: the engine reports its
    version as one C `int`, `major * 10000 + minor * 100 + patch`. */
module Version {
  import opened Base
  import opened Engine

  /** The `as usize` cast on the engine's `c_int` (a 64-bit target). */
  function AsUsize(i: CInt): (u: nat)
    ensures i >= 0 ==> u == i
    ensures i < 0 ==> u == i + USIZE_MODULUS
  {
    if i >= 0 then i else i + USIZE_MODULUS
  }

  /** The three components of `get_api_version_compact` for a version number. */
  function CompactOf(version: CInt): (r: seq<nat>)
    ensures |r| == 3 && r[1] < 100 && r[2] < 100
  {
    var v := AsUsize(version);
    [v / 10000, v / 100 % 100, v % 100]
  }

  /** The string `get_api_version` formats for a version number; the
      arithmetic is on the `c_int` itself, with Rust's truncating `/` and `%`. */
  function FormatOf(version: CInt): string {
    IntToString(TruncDiv(version, 10000)) + "."
      + IntToString(TruncRem(TruncDiv(version, 100), 100)) + "."
      + IntToString(TruncRem(version, 100))
  }

  /** `get_api_version_compact`. */
  function GetApiVersionCompact(e: Engine): (r: seq<nat>)
    ensures |r| == 3 && r[1] < 100 && r[2] < 100
    ensures e.version >= 0 ==> r[0] * 10000 + r[1] * 100 + r[2] == e.version
  {
    if e.version >= 0 then CompactInverse(e.version); CompactOf(e.version)
    else CompactOf(e.version)
  }

  /** `get_api_version`. */
  function GetApiVersion(e: Engine): (s: string)
    ensures e.version >= 0 ==>
      var c := CompactOf(e.version);
      s == NatToString(c[0]) + "." + NatToString(c[1]) + "." + NatToString(c[2])
  {
    if e.version >= 0 then FormatAgreesWithCompact(e.version); FormatOf(e.version)
    else FormatOf(e.version)
  }

  lemma DivModUnique(a: int, b: int, q: int, r: int)
    requires b > 0 && 0 <= r < b && a == q * b + r
    ensures a / b == q && a % b == r
  {
    var d := q - a / b;
    assert d * b == a % b - r;
    SmallMultipleIsZero(d, b);
  }

  /** A multiple of `b` strictly between `-b` and `b` is zero. */
  lemma SmallMultipleIsZero(d: int, b: int)
    requires b > 0 && -b < d * b < b
    ensures d == 0
  {
    assert d >= 1 ==> d * b == (d - 1) * b + b >= b;
    assert d <= -1 ==> d * b == (d + 1) * b - b <= -b;
  }

  /** Decoding a version number built from its three components gives the
      components back, as numbers and as the dotted string. */
  lemma {:induction false} Decode(major: nat, minor: nat, patch: nat)
    requires minor < 100 && patch < 100
    requires major * 10000 + minor * 100 + patch <= C_INT_MAX
    ensures CompactOf(major * 10000 + minor * 100 + patch) == [major, minor, patch]
    ensures FormatOf(major * 10000 + minor * 100 + patch)
         == NatToString(major) + "." + NatToString(minor) + "." + NatToString(patch)
  {
    var v := major * 10000 + minor * 100 + patch;
    DivModUnique(v, 10000, major, minor * 100 + patch);
    DivModUnique(v, 100, major * 100 + minor, patch);
    DivModUnique(major * 100 + minor, 100, major, minor);
  }

  /** Conversely, for every non-negative version number the components are
      digits of base 100 (below 100 except the major) that rebuild it. */
  lemma CompactInverse(version: CInt)
    requires version >= 0
    ensures var c := CompactOf(version);
      c[0] * 10000 + c[1] * 100 + c[2] == version
  {
    var v: nat := version;
    DivModUnique(v / 100, 100, v / 100 / 100, v / 100 % 100);
    assert v / 100 / 100 == v / 10000;
  }

  /** The string and the compact form agree on every non-negative version. */
  lemma FormatAgreesWithCompact(version: CInt)
    requires version >= 0
    ensures var c := CompactOf(version);
      FormatOf(version) == NatToString(c[0]) + "." + NatToString(c[1]) + "." + NatToString(c[2])
  {
    var c := CompactOf(version);
    CompactInverse(version);
    Decode(c[0], c[1], c[2]);
  }
}
