/** `DFTD3Param`: the engine's damping-parameter object, created from
    explicit coefficients (`new_*_damping_f`) or looked up in the engine's
    tables by method name (`load_*_damping_f`), and the dispatcher
    `dftd3_load_param_f` that picks a table by a DFT-D3 version string. */
module Param {
  import opened Base
  import opened Engine
  import opened Errors

  /** The shape shared by every constructor and loader: the engine is asked for
      the parameter object and its error handle decides. */
  function Ask(e: Engine, p: DFTD3Param): (r: Result<DFTD3Param>)
    ensures r.Err? <==> e.newParam(p).isSet
    ensures r.Err? ==> r.error == C(e.newParam(p))
    ensures r.Ok? ==> r.value == p
  {
    Finish(e.newParam(p), p)
  }

  /** `new_zero_damping_f`: the coefficients reach the engine in the order
      s6, s8, s9, rs6, rs8, alp. */
  function NewZeroDampingF(e: Engine, s6: F64, s8: F64, s9: F64, rs6: F64, rs8: F64, alp: F64)
    : (r: Result<DFTD3Param>)
    ensures r.Err? <==> e.newParam(NewZero(s6, s8, s9, rs6, rs8, alp)).isSet
    ensures r.Err? ==> r.error == C(e.newParam(NewZero(s6, s8, s9, rs6, rs8, alp)))
    ensures r.Ok? ==>
      && SchemeOfParam(r.value) == Zero
      && ParamField(r.value, S6) == Some(s6) && ParamField(r.value, S8) == Some(s8)
      && ParamField(r.value, S9) == Some(s9) && ParamField(r.value, Rs6) == Some(rs6)
      && ParamField(r.value, Rs8) == Some(rs8) && ParamField(r.value, Alp) == Some(alp)
      && ParamField(r.value, A1) == None && ParamField(r.value, A2) == None
      && ParamField(r.value, Bet) == None
  {
    Ask(e, NewZero(s6, s8, s9, rs6, rs8, alp))
  }

  /** `new_rational_damping_f`: s6, s8, s9, a1, a2, alp. */
  function NewRationalDampingF(e: Engine, s6: F64, s8: F64, s9: F64, a1: F64, a2: F64, alp: F64)
    : (r: Result<DFTD3Param>)
    ensures r.Err? <==> e.newParam(NewRational(s6, s8, s9, a1, a2, alp)).isSet
    ensures r.Err? ==> r.error == C(e.newParam(NewRational(s6, s8, s9, a1, a2, alp)))
    ensures r.Ok? ==>
      && SchemeOfParam(r.value) == Rational
      && ParamField(r.value, S6) == Some(s6) && ParamField(r.value, S8) == Some(s8)
      && ParamField(r.value, S9) == Some(s9) && ParamField(r.value, A1) == Some(a1)
      && ParamField(r.value, A2) == Some(a2) && ParamField(r.value, Alp) == Some(alp)
      && ParamField(r.value, Rs6) == None && ParamField(r.value, Rs8) == None
      && ParamField(r.value, Bet) == None
  {
    Ask(e, NewRational(s6, s8, s9, a1, a2, alp))
  }

  /** `new_mzero_damping_f`: s6, s8, s9, rs6, rs8, alp, bet. */
  function NewMzeroDampingF(e: Engine, s6: F64, s8: F64, s9: F64, rs6: F64, rs8: F64, alp: F64, bet: F64)
    : (r: Result<DFTD3Param>)
    ensures r.Err? <==> e.newParam(NewModifiedZero(s6, s8, s9, rs6, rs8, alp, bet)).isSet
    ensures r.Err? ==> r.error == C(e.newParam(NewModifiedZero(s6, s8, s9, rs6, rs8, alp, bet)))
    ensures r.Ok? ==>
      && SchemeOfParam(r.value) == ModifiedZero
      && ParamField(r.value, S6) == Some(s6) && ParamField(r.value, S8) == Some(s8)
      && ParamField(r.value, S9) == Some(s9) && ParamField(r.value, Rs6) == Some(rs6)
      && ParamField(r.value, Rs8) == Some(rs8) && ParamField(r.value, Alp) == Some(alp)
      && ParamField(r.value, Bet) == Some(bet)
      && ParamField(r.value, A1) == None && ParamField(r.value, A2) == None
  {
    Ask(e, NewModifiedZero(s6, s8, s9, rs6, rs8, alp, bet))
  }

  /** `new_mrational_damping_f`: s6, s8, s9, a1, a2, alp. */
  function NewMrationalDampingF(e: Engine, s6: F64, s8: F64, s9: F64, a1: F64, a2: F64, alp: F64)
    : (r: Result<DFTD3Param>)
    ensures r.Err? <==> e.newParam(NewModifiedRational(s6, s8, s9, a1, a2, alp)).isSet
    ensures r.Err? ==> r.error == C(e.newParam(NewModifiedRational(s6, s8, s9, a1, a2, alp)))
    ensures r.Ok? ==>
      && SchemeOfParam(r.value) == ModifiedRational
      && ParamField(r.value, S6) == Some(s6) && ParamField(r.value, S8) == Some(s8)
      && ParamField(r.value, S9) == Some(s9) && ParamField(r.value, A1) == Some(a1)
      && ParamField(r.value, A2) == Some(a2) && ParamField(r.value, Alp) == Some(alp)
      && ParamField(r.value, Rs6) == None && ParamField(r.value, Rs8) == None
      && ParamField(r.value, Bet) == None
  {
    Ask(e, NewModifiedRational(s6, s8, s9, a1, a2, alp))
  }

  /** `new_optimizedpower_damping_f`: s6, s8, s9, a1, a2, alp, bet. */
  function NewOptimizedpowerDampingF(e: Engine, s6: F64, s8: F64, s9: F64, a1: F64, a2: F64, alp: F64, bet: F64)
    : (r: Result<DFTD3Param>)
    ensures r.Err? <==> e.newParam(NewOptimizedPower(s6, s8, s9, a1, a2, alp, bet)).isSet
    ensures r.Err? ==> r.error == C(e.newParam(NewOptimizedPower(s6, s8, s9, a1, a2, alp, bet)))
    ensures r.Ok? ==>
      && SchemeOfParam(r.value) == OptimizedPower
      && ParamField(r.value, S6) == Some(s6) && ParamField(r.value, S8) == Some(s8)
      && ParamField(r.value, S9) == Some(s9) && ParamField(r.value, A1) == Some(a1)
      && ParamField(r.value, A2) == Some(a2) && ParamField(r.value, Alp) == Some(alp)
      && ParamField(r.value, Bet) == Some(bet)
      && ParamField(r.value, Rs6) == None && ParamField(r.value, Rs8) == None
  {
    Ask(e, NewOptimizedPower(s6, s8, s9, a1, a2, alp, bet))
  }

  /** A parameter object made from coefficients is determined by its scheme
      and its coefficients: no two different argument lists give the same one. */
  lemma CoefficientsDetermineParam(p: DFTD3Param, q: DFTD3Param)
    requires !p.Loaded? && !q.Loaded?
    requires SchemeOfParam(p) == SchemeOfParam(q)
    requires forall f: Field :: ParamField(p, f) == ParamField(q, f)
    ensures p == q
  {
    assert ParamField(p, S6) == ParamField(q, S6) && ParamField(p, S8) == ParamField(q, S8);
    assert ParamField(p, S9) == ParamField(q, S9) && ParamField(p, Alp) == ParamField(q, Alp);
    assert ParamField(p, A1) == ParamField(q, A1) && ParamField(p, A2) == ParamField(q, A2);
    assert ParamField(p, Rs6) == ParamField(q, Rs6) && ParamField(p, Rs8) == ParamField(q, Rs8);
    assert ParamField(p, Bet) == ParamField(q, Bet);
  }

  /** What every `load_*_damping_f` does: look the method up in the table of
      one scheme, with or without the three-body term. The method name is
      handed over as a C string, so it must not contain NUL. */
  function LoadDamping(e: Engine, scheme: Scheme, name: string, atm: bool): (r: Result<DFTD3Param>)
    requires NoNul(name)
    ensures r.Err? <==> e.newParam(Loaded(scheme, name, atm)).isSet
    ensures r.Err? ==> r.error == C(e.newParam(Loaded(scheme, name, atm)))
    ensures r.Ok? ==> r.value == Loaded(scheme, name, atm)
  {
    Ask(e, Loaded(scheme, name, atm))
  }

  /** `load_zero_damping_f`. */
  function LoadZeroDampingF(e: Engine, name: string, atm: bool): (r: Result<DFTD3Param>)
    requires NoNul(name)
    ensures r.Ok? ==> r.value == Loaded(Zero, name, atm)
    ensures r.Err? <==> e.newParam(Loaded(Zero, name, atm)).isSet
    ensures r.Err? ==> r.error == C(e.newParam(Loaded(Zero, name, atm)))
  {
    LoadDamping(e, Zero, name, atm)
  }

  /** `load_rational_damping_f`. */
  function LoadRationalDampingF(e: Engine, name: string, atm: bool): (r: Result<DFTD3Param>)
    requires NoNul(name)
    ensures r.Ok? ==> r.value == Loaded(Rational, name, atm)
    ensures r.Err? <==> e.newParam(Loaded(Rational, name, atm)).isSet
    ensures r.Err? ==> r.error == C(e.newParam(Loaded(Rational, name, atm)))
  {
    LoadDamping(e, Rational, name, atm)
  }

  /** `load_mzero_damping_f`. */
  function LoadMzeroDampingF(e: Engine, name: string, atm: bool): (r: Result<DFTD3Param>)
    requires NoNul(name)
    ensures r.Ok? ==> r.value == Loaded(ModifiedZero, name, atm)
    ensures r.Err? <==> e.newParam(Loaded(ModifiedZero, name, atm)).isSet
    ensures r.Err? ==> r.error == C(e.newParam(Loaded(ModifiedZero, name, atm)))
  {
    LoadDamping(e, ModifiedZero, name, atm)
  }

  /** `load_mrational_damping_f`. */
  function LoadMrationalDampingF(e: Engine, name: string, atm: bool): (r: Result<DFTD3Param>)
    requires NoNul(name)
    ensures r.Ok? ==> r.value == Loaded(ModifiedRational, name, atm)
    ensures r.Err? <==> e.newParam(Loaded(ModifiedRational, name, atm)).isSet
    ensures r.Err? ==> r.error == C(e.newParam(Loaded(ModifiedRational, name, atm)))
  {
    LoadDamping(e, ModifiedRational, name, atm)
  }

  /** `load_optimizedpower_damping_f`. */
  function LoadOptimizedpowerDampingF(e: Engine, name: string, atm: bool): (r: Result<DFTD3Param>)
    requires NoNul(name)
    ensures r.Ok? ==> r.value == Loaded(OptimizedPower, name, atm)
    ensures r.Err? <==> e.newParam(Loaded(OptimizedPower, name, atm)).isSet
    ensures r.Err? ==> r.error == C(e.newParam(Loaded(OptimizedPower, name, atm)))
  {
    LoadDamping(e, OptimizedPower, name, atm)
  }

  /** The loader of a scheme, as the dispatcher and the damping records pick it. */
  function Loader(e: Engine, scheme: Scheme, name: string, atm: bool): (r: Result<DFTD3Param>)
    requires NoNul(name)
    ensures r == LoadDamping(e, scheme, name, atm)
  {
    match scheme
    case Rational => LoadRationalDampingF(e, name, atm)
    case Zero => LoadZeroDampingF(e, name, atm)
    case ModifiedRational => LoadMrationalDampingF(e, name, atm)
    case ModifiedZero => LoadMzeroDampingF(e, name, atm)
    case OptimizedPower => LoadOptimizedpowerDampingF(e, name, atm)
  }

  /* ---- Version strings ---- */

  predicate IsUpperAscii(c: char) {
    'A' <= c <= 'Z'
  }

  function LowerAscii(c: char): (l: char)
    ensures !IsUpperAscii(l)
    ensures IsUpperAscii(c) ==> l as int == c as int + 32
    ensures !IsUpperAscii(c) ==> l == c
  {
    if IsUpperAscii(c) then (c as int + 32) as char else c
  }

  predicate NoUpperAscii(s: string) {
    forall i :: 0 <= i < |s| ==> !IsUpperAscii(s[i])
  }

  /** `to_lowercase`, restricted to ASCII letters. */
  function LowercaseAscii(s: string): (r: string)
    ensures |r| == |s| && NoUpperAscii(r)
    ensures forall i :: 0 <= i < |s| && !IsUpperAscii(s[i]) ==> r[i] == s[i]
    ensures forall i :: 0 <= i < |s| && IsUpperAscii(s[i]) ==> r[i] as int == s[i] as int + 32
  {
    seq(|s|, i requires 0 <= i < |s| => LowerAscii(s[i]))
  }

  /** The characters `replace(['-', '_', ' '], "")` removes. */
  predicate IsSeparator(c: char) {
    c == '-' || c == '_' || c == ' '
  }

  predicate NoSeparator(s: string) {
    forall i :: 0 <= i < |s| ==> !IsSeparator(s[i])
  }

  /** `replace(['-', '_', ' '], "")`: the string with every separator dropped
      and every other character kept, in order. */
  function StripSeparators(s: string): (r: string)
    ensures NoSeparator(r) && |r| <= |s|
  {
    if s == [] then []
    else if IsSeparator(s[0]) then StripSeparators(s[1..])
    else [s[0]] + StripSeparators(s[1..])
  }

  /** The version string as `dftd3_load_param_f` compares it. */
  function NormalizeVersion(s: string): (r: string)
    ensures NoUpperAscii(r) && NoSeparator(r)
  {
    var lower := LowercaseAscii(s);
    StripKeepsLowercase(lower);
    StripSeparators(lower)
  }

  /** Dropping separators keeps the absence of capitals. */
  lemma {:induction false} StripKeepsLowercase(s: string)
    requires NoUpperAscii(s)
    ensures NoUpperAscii(StripSeparators(s))
  {
    if s != [] {
      assert NoUpperAscii(s[1..]) by {
        forall i | 0 <= i < |s[1..]| ensures !IsUpperAscii(s[1..][i]) {
          assert s[1..][i] == s[i + 1];
        }
      }
      StripKeepsLowercase(s[1..]);
    }
  }

  /** Exactly the characters that are not separators survive. */
  lemma {:induction false} StripSeparatorsMembers(s: string, c: char)
    ensures c in StripSeparators(s) <==> c in s && !IsSeparator(c)
  {
    if s != [] {
      StripSeparatorsMembers(s[1..], c);
      assert s == [s[0]] + s[1..];
    }
  }

  lemma {:induction false} StripSeparatorsFixed(s: string)
    requires NoSeparator(s)
    ensures StripSeparators(s) == s
  {
    if s != [] {
      assert NoSeparator(s[1..]) by {
        forall i | 0 <= i < |s[1..]| ensures !IsSeparator(s[1..][i]) {
          assert s[1..][i] == s[i + 1];
        }
      }
      StripSeparatorsFixed(s[1..]);
      assert s == [s[0]] + s[1..];
    }
  }

  lemma LowercaseAsciiFixed(s: string)
    requires NoUpperAscii(s)
    ensures LowercaseAscii(s) == s
  {
  }

  /** Normalising twice is normalising once. */
  lemma NormalizeIdempotent(s: string)
    ensures NormalizeVersion(NormalizeVersion(s)) == NormalizeVersion(s)
  {
    var n := NormalizeVersion(s);
    LowercaseAsciiFixed(n);
    StripSeparatorsFixed(n);
  }

  /** The alias table of `dftd3_load_param_f`. */
  function VersionScheme(v: string): Option<Scheme> {
    if v == "d3bj" || v == "bj" then Some(Rational)
    else if v == "d3zero" || v == "zero" then Some(Zero)
    else if v == "d3bjm" || v == "d3mbj" || v == "bjm" || v == "mbj" then Some(ModifiedRational)
    else if v == "d3zerom" || v == "d3mzero" || v == "zerom" || v == "mzero" then Some(ModifiedZero)
    else if v == "d3op" || v == "op" then Some(OptimizedPower)
    else None
  }

  /** The aliases of each scheme, listed independently of the lookup. */
  function Aliases(s: Scheme): set<string> {
    match s
    case Rational => {"d3bj", "bj"}
    case Zero => {"d3zero", "zero"}
    case ModifiedRational => {"d3bjm", "d3mbj", "bjm", "mbj"}
    case ModifiedZero => {"d3zerom", "d3mzero", "zerom", "mzero"}
    case OptimizedPower => {"d3op", "op"}
  }

  /** The table resolves a string to a scheme exactly when it is one of that
      scheme's aliases. */
  lemma VersionSchemeMatchesAliases(v: string, s: Scheme)
    ensures VersionScheme(v) == Some(s) <==> v in Aliases(s)
  {
  }

  /** Every alias is already in normal form, so each can be reached. */
  lemma AliasesAreNormal(v: string)
    requires VersionScheme(v).Some?
    ensures NormalizeVersion(v) == v
  {
    assert NoUpperAscii(v) && NoSeparator(v);
    LowercaseAsciiFixed(v);
    StripSeparatorsFixed(v);
  }

  const UNKNOWN_VERSION_PREFIX: string := "Unknown DFTD3 version: "

  /** `dftd3_load_param_f`: normalise the version string, pick the loader
      from the alias table and pass `method` and `atm` through; an unknown
      version is reported, in normal form, without calling the engine. */
  function LoadParamF(e: Engine, version: string, name: string, atm: bool): (r: Result<DFTD3Param>)
    requires VersionScheme(NormalizeVersion(version)).Some? ==> NoNul(name)
    ensures VersionScheme(NormalizeVersion(version)).None? ==>
      r == Err(Rust(UNKNOWN_VERSION_PREFIX + NormalizeVersion(version)))
    ensures VersionScheme(NormalizeVersion(version)).Some? ==>
      var s := VersionScheme(NormalizeVersion(version)).value;
      && (r.Ok? ==> r.value == Loaded(s, name, atm))
      && (r.Err? <==> e.newParam(Loaded(s, name, atm)).isSet)
      && (r.Err? ==> r.error == C(e.newParam(Loaded(s, name, atm))))
    ensures r.Err? ==> Check(r.error)
    ensures r.Err? && r.error.Rust? <==> VersionScheme(NormalizeVersion(version)).None?
  {
    var v := NormalizeVersion(version);
    match VersionScheme(v)
    case Some(s) => Loader(e, s, name, atm)
    case None => Err(Rust(UNKNOWN_VERSION_PREFIX + v))
  }

  /** Spelling does not matter: two version strings with the same normal form
      load the same parameters, and a normalised string loads as the original. */
  lemma LoadParamNormalizes(e: Engine, version: string, name: string, atm: bool)
    requires VersionScheme(NormalizeVersion(version)).Some? ==> NoNul(name)
    ensures VersionScheme(NormalizeVersion(NormalizeVersion(version))).Some? ==> NoNul(name)
    ensures LoadParamF(e, NormalizeVersion(version), name, atm) == LoadParamF(e, version, name, atm)
  {
    NormalizeIdempotent(version);
  }

  lemma {:induction false} StripSeparatorsAppend(a: string, b: string)
    ensures StripSeparators(a + b) == StripSeparators(a) + StripSeparators(b)
  {
    if a == [] {
      assert a + b == b;
    } else {
      assert (a + b)[0] == a[0] && (a + b)[1..] == a[1..] + b;
      StripSeparatorsAppend(a[1..], b);
    }
  }

  /** Lowercasing never makes a separator. */
  lemma LowercaseKeepsNoSeparator(s: string)
    requires NoSeparator(s)
    ensures NoSeparator(LowercaseAscii(s))
  {
  }

  /** The normal form of a word without separators is the word in lower case. */
  lemma NormalizeWord(a: string)
    requires NoSeparator(a)
    ensures NormalizeVersion(a) == LowercaseAscii(a)
  {
    LowercaseKeepsNoSeparator(a);
    StripSeparatorsFixed(LowercaseAscii(a));
  }

  lemma LowercaseAppend(x: string, y: string)
    ensures LowercaseAscii(x + y) == LowercaseAscii(x) + LowercaseAscii(y)
  {
    var l := LowercaseAscii(x + y);
    var r := LowercaseAscii(x) + LowercaseAscii(y);
    assert |l| == |r|;
    forall i | 0 <= i < |l| ensures l[i] == r[i] {
      if i < |x| {
        assert (x + y)[i] == x[i];
      } else {
        assert (x + y)[i] == y[i - |x|];
      }
    }
  }

  lemma LowercaseAroundSeparator(a: string, sep: char, b: string)
    requires IsSeparator(sep)
    ensures LowercaseAscii(a + [sep] + b) == LowercaseAscii(a) + [sep] + LowercaseAscii(b)
  {
    LowercaseAppend(a + [sep], b);
    LowercaseAppend(a, [sep]);
    assert LowercaseAscii([sep]) == [sep];
  }

  lemma StripAroundSeparator(a: string, sep: char, b: string)
    requires NoSeparator(a) && NoSeparator(b) && IsSeparator(sep)
    ensures StripSeparators(a + [sep] + b) == a + b
  {
    StripSeparatorsAppend(a + [sep], b);
    StripSeparatorsAppend(a, [sep]);
    assert StripSeparators([sep]) == [];
    StripSeparatorsFixed(a);
    StripSeparatorsFixed(b);
    assert a + [] == a;
  }

  /** The normal form of two words around one separator is the two words,
      lowercased and joined. */
  lemma NormalizeAroundSeparator(a: string, sep: char, b: string)
    requires NoSeparator(a) && NoSeparator(b) && IsSeparator(sep)
    ensures NormalizeVersion(a + [sep] + b) == LowercaseAscii(a) + LowercaseAscii(b)
  {
    LowercaseAroundSeparator(a, sep, b);
    LowercaseKeepsNoSeparator(a);
    LowercaseKeepsNoSeparator(b);
    StripAroundSeparator(LowercaseAscii(a), sep, LowercaseAscii(b));
  }

  /* Capitals, dashes, underscores and blanks are ignored: a few spellings
     and the loaders they reach. */

  lemma NormalizeRational()
    ensures NormalizeVersion("D3-BJ") == "d3bj"
  {
    assert "D3-BJ" == "D3" + ['-'] + "BJ";
    NormalizeAroundSeparator("D3", '-', "BJ");
    assert LowercaseAscii("D3") == "d3";
    assert LowercaseAscii("BJ") == "bj";
  }

  lemma LoadParamSpellingRational(e: Engine, name: string, atm: bool)
    requires NoNul(name)
    ensures NormalizeVersion("D3-BJ") == "d3bj"
         && LoadParamF(e, "D3-BJ", name, atm) == LoadRationalDampingF(e, name, atm)
  {
    NormalizeRational();
  }

  lemma NormalizeZero()
    ensures NormalizeVersion("d3_zero") == "d3zero"
  {
    assert "d3_zero" == "d3" + ['_'] + "zero";
    NormalizeAroundSeparator("d3", '_', "zero");
    assert LowercaseAscii("d3") == "d3";
    assert LowercaseAscii("zero") == "zero";
  }

  lemma LoadParamSpellingZero(e: Engine, name: string, atm: bool)
    requires NoNul(name)
    ensures NormalizeVersion("d3_zero") == "d3zero"
         && LoadParamF(e, "d3_zero", name, atm) == LoadZeroDampingF(e, name, atm)
  {
    NormalizeZero();
  }

  lemma NormalizeModifiedRational()
    ensures NormalizeVersion("D3 mBJ") == "d3mbj"
  {
    assert "D3 mBJ" == "D3" + [' '] + "mBJ";
    NormalizeAroundSeparator("D3", ' ', "mBJ");
    assert LowercaseAscii("D3") == "d3";
    assert LowercaseAscii("mBJ") == "mbj";
  }

  lemma LoadParamSpellingModifiedRational(e: Engine, name: string, atm: bool)
    requires NoNul(name)
    ensures NormalizeVersion("D3 mBJ") == "d3mbj"
         && LoadParamF(e, "D3 mBJ", name, atm) == LoadMrationalDampingF(e, name, atm)
  {
    NormalizeModifiedRational();
  }

  lemma NormalizeModifiedZero()
    ensures NormalizeVersion("Zero-M") == "zerom"
  {
    assert "Zero-M" == "Zero" + ['-'] + "M";
    NormalizeAroundSeparator("Zero", '-', "M");
    assert LowercaseAscii("Zero") == "zero";
    assert LowercaseAscii("M") == "m";
  }

  lemma LoadParamSpellingModifiedZero(e: Engine, name: string, atm: bool)
    requires NoNul(name)
    ensures NormalizeVersion("Zero-M") == "zerom"
         && LoadParamF(e, "Zero-M", name, atm) == LoadMzeroDampingF(e, name, atm)
  {
    NormalizeModifiedZero();
  }

  lemma NormalizeOptimizedPower()
    ensures NormalizeVersion("OP") == "op"
  {
    NormalizeWord("OP");
    assert LowercaseAscii("OP") == "op";
  }

  lemma LoadParamSpellingOptimizedPower(e: Engine, name: string, atm: bool)
    requires NoNul(name)
    ensures NormalizeVersion("OP") == "op"
         && LoadParamF(e, "OP", name, atm) == LoadOptimizedpowerDampingF(e, name, atm)
  {
    NormalizeOptimizedPower();
  }

  lemma NormalizeUnknown()
    ensures NormalizeVersion("D4-BJ") == "d4bj"
  {
    assert "D4-BJ" == "D4" + ['-'] + "BJ";
    NormalizeAroundSeparator("D4", '-', "BJ");
    assert LowercaseAscii("D4") == "d4";
    assert LowercaseAscii("BJ") == "bj";
  }

  /** An unknown version names itself, normalised, and reaches no loader. */
  lemma LoadParamUnknown(e: Engine, name: string, atm: bool)
    ensures NormalizeVersion("D4-BJ") == "d4bj"
         && LoadParamF(e, "D4-BJ", name, atm) == Err(Rust("Unknown DFTD3 version: d4bj"))
  {
    NormalizeUnknown();
    assert VersionScheme("d4bj") == None;
  }
}
