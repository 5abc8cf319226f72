/** Method settings (`Wien2kParser.parse_method`): the exchange-correlation
    codes of the `.in0` file are resolved through a fixed table, the FFT
    line is split into the grid and its factor, and the parsed `.in1` and
    `.in2` quantities are stored under `x_wien2k_` names; the smearing name
    is mapped onto the metainfo's vocabulary. */
module Settings {
  import opened Values

  /** The code-to-functionals table of the parser (`_xc_functional_map`),
      entry for entry. The entries for 29 and XC_REVTPSS hold one string
      with a comma in it, as the table is written. */
  const XcFunctionals: map<string, seq<string>> := map[
    "5" := ["LDA_X", "LDA_C_PW"],
    "6" := ["HF_X"],
    "11" := ["GGA_X_WC", "GGA_C_PBE"],
    "13" := ["GGA_X_PBE", "GGA_C_PBE"],
    "17" := ["GGA_X_PW91"],
    "18" := ["HYB_GGA_XC_B3PW91"],
    "19" := ["GGA_X_PBE_SOL", "GGA_C_PBE_SOL"],
    "24" := ["GGA_X_B88", "GGA_C_LYP"],
    "28" := ["MGGA_X_TB09", "LDA_C_PW"],
    "27" := ["MGGA_X_TPSS", "MGGA_C_TPSS"],
    "29" := ["MGGA_C_REVTPSS, GGA_C_REGTPSS"],
    "46" := ["GGA_X_HTBS"],
    "47" := ["HYB_GGA_XC_B3LYP"],
    "XC_LDA" := ["LDA_X", "LDA_C_PW"],
    "XC_PBE" := ["GGA_X_PBE", "GGA_C_PBE"],
    "XC_WC" := ["GGA_X_WC", "GGA_C_PBE"],
    "XC_PBESOL" := ["GGA_X_PBE_SOL", "GGA_C_PBE_SOL"],
    "XC_B3PW91" := ["HYB_GGA_XC_B3PW91"],
    "XC_B3LYP" := ["HYB_GGA_XC_B3LYP"],
    "XC_MBJ" := ["MGGA_X_TB09", "LDA_C_PW"],
    "XC_TPSS" := ["MGGA_X_TPSS", "MGGA_C_TPSS"],
    "XC_REVTPSS" := ["MGGA_C_REVTPSS, GGA_C_REGTPSS"],
    "XC_MGGA_MS" := ["MGGA_X_MS", "MGGA_C_MS"],
    "XC_MVS" := ["MGGA_X_MVS", "MGGA_C_MVS"],
    "XC_MBEEF" := ["MGGA_X_MBEEF", "GGA_C_PBE_SOL"],
    "XC_SCAN" := ["MGGA_X_SCAN", "MGGA_C_SCAN"],
    "XC_SCANL" := ["MGGA_X_SCANL", "MGGA_C_SCANL"],
    "XC_RSCAN" := ["MGGA_X_RSCAN", "MGGA_C_RSCAN"],
    "XC_R2SCAN" := ["MGGA_X_R2SCAN", "MGGA_C_R2SCAN"],
    "XC_TM" := ["MGGA_X_TM", "MGGA_C_TM"],
    "EC_PW91" := ["GGA_X_PW91"],
    "VC_PW91" := ["GGA_X_PW91"],
    "EX_B88" := ["GGA_X_B88"],
    "VX_B88" := ["GGA_X_B88"],
    "EC_LYP" := ["GGA_C_LYP"],
    "VC_LYP" := ["GGA_C_LYP"],
    "XC_HTBS" := ["GGA_X_HTBS"],
    "EX_LDA" := ["HF_X"],
    "VX_LDA" := ["HF_X"]]

  // ----- exchange-correlation codes -----

  /** `xc if isinstance(xc, list) else [xc]`: the codes to resolve. */
  function XcCodes(xc: Value): (codes: seq<Value>)
    ensures xc.List? ==> codes == xc.items
    ensures !xc.List? ==> codes == [xc]
  {
    if xc.List? then xc.items else [xc]
  }

  /** A table from codes to functional names; the parser's is XcFunctionals. */
  type XcTable = map<string, seq<string>>

  /** `table.get(code)`: only a string that is a key of the table resolves;
      None and any other value do not. */
  function Lookup(table: XcTable, code: Value): (r: Option<seq<string>>)
    ensures r.Some? <==> code.Text? && code.s in table
    ensures r.Some? ==> r.value == table[code.s]
  {
    if code.Text? && code.s in table then Some(table[code.s]) else None
  }

  /** A dictionary key: a list code would raise TypeError (unhashable). */
  predicate Hashable(code: Value) {
    !code.List?
  }

  /** The functional names one code creates: its table entry, or none. */
  function Own(table: XcTable, code: Value): seq<string> {
    match Lookup(table, code)
    case None => []
    case Some(fs) => fs
  }

  /** The functional names created for the codes, in order. */
  function XcNames(table: XcTable, codes: seq<Value>): seq<string> {
    if codes == [] then [] else XcNames(table, codes[..|codes| - 1]) + Own(table, codes[|codes| - 1])
  }

  /** The number of codes that do not resolve (one warning each). */
  function Unresolved(table: XcTable, codes: seq<Value>): (n: nat)
    ensures n <= |codes|
  {
    if codes == [] then 0
    else Unresolved(table, codes[..|codes| - 1]) + (if Lookup(table, codes[|codes| - 1]).None? then 1 else 0)
  }

  /** Resolution distributes over the list of codes: each code contributes
      its own names, independently of the others, in order. */
  lemma {:induction false} XcNamesAppend(table: XcTable, a: seq<Value>, b: seq<Value>)
    ensures XcNames(table, a + b) == XcNames(table, a) + XcNames(table, b)
  {
    if b == [] {
      assert a + b == a;
    } else {
      var front := b[..|b| - 1];
      XcNamesAppend(table, a, front);
      assert (a + b)[..|a + b| - 1] == a + front;
      assert (a + b)[|a + b| - 1] == b[|b| - 1];
    }
  }

  /** Each code that does not resolve adds its own warning, whatever the
      codes around it. */
  lemma {:induction false} UnresolvedAppend(table: XcTable, a: seq<Value>, b: seq<Value>)
    ensures Unresolved(table, a + b) == Unresolved(table, a) + Unresolved(table, b)
  {
    if b == [] {
      assert a + b == a;
    } else {
      var front := b[..|b| - 1];
      UnresolvedAppend(table, a, front);
      assert (a + b)[..|a + b| - 1] == a + front;
      assert (a + b)[|a + b| - 1] == b[|b| - 1];
    }
  }

  /** A code that does not resolve is skipped with one warning and changes
      nothing else. */
  lemma UnknownCodeSkipped(table: XcTable, a: seq<Value>, c: Value, b: seq<Value>)
    requires Lookup(table, c).None?
    ensures XcNames(table, a + [c] + b) == XcNames(table, a + b)
    ensures Unresolved(table, a + [c] + b) == Unresolved(table, a + b) + 1
  {
    XcNamesAppend(table, a + [c], b);
    XcNamesAppend(table, a, [c]);
    UnresolvedAppend(table, a + [c], b);
    UnresolvedAppend(table, a, [c]);
    XcNamesAppend(table, a, b);
    UnresolvedAppend(table, a, b);
    assert [c][..0] == [] && [c][0] == c;
    assert a + [c] + b == (a + [c]) + b;
  }

  /** A known code contributes exactly its table entry. */
  lemma KnownCode(table: XcTable, c: string)
    requires c in table
    ensures XcNames(table, [Text(c)]) == table[c]
    ensures Unresolved(table, [Text(c)]) == 0
  {
    assert [Text(c)][..0] == [];
  }

  /** The loop over the codes: one XC section per functional of each code
      that resolves, a warning for each one that does not. */
  method ResolveXc(table: XcTable, xc: Value) returns (names: seq<string>, warnings: nat)
    requires forall i :: 0 <= i < |XcCodes(xc)| ==> Hashable(XcCodes(xc)[i])
    ensures names == XcNames(table, XcCodes(xc))
    ensures warnings == Unresolved(table, XcCodes(xc))
  {
    var codes := XcCodes(xc);
    names := [];
    warnings := 0;
    var n := 0;
    while n < |codes|
      invariant 0 <= n <= |codes|
      invariant names == XcNames(table, codes[..n])
      invariant warnings == Unresolved(table, codes[..n])
    {
      assert codes[..n + 1][..n] == codes[..n];
      var functionals := Lookup(table, codes[n]);
      n := n + 1;
      if functionals.None? {
        warnings := warnings + 1;
        continue;
      }
      var fs := functionals.value;
      var j := 0;
      ghost var before := names;
      while j < |fs|
        invariant 0 <= j <= |fs|
        invariant names == before + fs[..j]
      {
        names := names + [fs[j]];
        j := j + 1;
        assert fs[..j] == fs[..j - 1] + [fs[j - 1]];
      }
      assert fs[..j] == fs;
    }
    assert codes[..n] == codes;
  }

  // ----- FFT grid -----

  /** `fft[:3]` and `fft[3]` as `x_wien2k_ifft` and `x_wien2k_ifft_factor`;
      nothing when the FFT line was not found. */
  function FftFields(fft: Option<seq<real>>): (f: map<string, Value>)
    requires fft.Some? ==> |fft.value| >= 4
    ensures fft.None? ==> f == map[]
    ensures fft.Some? ==> f.Keys == {"x_wien2k_ifft", "x_wien2k_ifft_factor"}
    ensures fft.Some? ==> f["x_wien2k_ifft"] == Nums(fft.value[..3]) && f["x_wien2k_ifft_factor"] == Num(fft.value[3])
  {
    match fft
    case None => map[]
    case Some(v) => map["x_wien2k_ifft" := Nums(v[..3]), "x_wien2k_ifft_factor" := Num(v[3])]
  }

  // ----- the in1 and in2 quantities -----

  const Prefix := "x_wien2k_"

  lemma PrefixInjective()
    ensures forall a, b :: Prefix + a == Prefix + b ==> a == b
  {
    forall a, b | Prefix + a == Prefix + b
      ensures a == b
    {
      assert a == (Prefix + a)[|Prefix|..];
      assert b == (Prefix + b)[|Prefix|..];
    }
  }

  /** `for key, val in in1.items(): if val is not None: setattr(..., 'x_wien2k_%s' % key, val)` */
  function In1Fields(in1: map<string, Value>): (f: map<string, Value>)
    ensures forall k :: k in in1 && in1[k] != Null ==> Prefix + k in f && f[Prefix + k] == in1[k]
    ensures forall name :: name in f ==>
              StartsWith(name, Prefix) && name[|Prefix|..] in in1 && in1[name[|Prefix|..]] != Null
  {
    PrefixInjective();
    var f := map k | k in in1 && in1[k] != Null :: Prefix + k := in1[k];
    assert forall name :: name in f ==>
             StartsWith(name, Prefix) && name[|Prefix|..] in in1 && in1[name[|Prefix|..]] != Null by {
      forall name | name in f
        ensures StartsWith(name, Prefix) && name[|Prefix|..] in in1 && in1[name[|Prefix|..]] != Null
      {
        var k :| k in in1 && in1[k] != Null && name == Prefix + k;
        assert name[|Prefix|..] == k;
        assert name[..|Prefix|] == Prefix;
      }
    }
    f
  }

  /** `gmax` and `switch` as `x_wien2k_in2_gmax` and `x_wien2k_in2_switch`,
      each only when it was found. */
  function In2Fields(gmax: Value, switch: Value): (f: map<string, Value>)
    ensures "x_wien2k_in2_gmax" in f <==> gmax != Null
    ensures "x_wien2k_in2_switch" in f <==> switch != Null
    ensures gmax != Null ==> f["x_wien2k_in2_gmax"] == gmax
    ensures switch != Null ==> f["x_wien2k_in2_switch"] == switch
    ensures forall name :: name in f ==> name == "x_wien2k_in2_gmax" || name == "x_wien2k_in2_switch"
  {
    var g := if gmax != Null then map["x_wien2k_in2_gmax" := gmax] else map[];
    g + (if switch != Null then map["x_wien2k_in2_switch" := switch] else map[])
  }

  /** The names of the first four numbers of the EMIN line. */
  const EminKeys: seq<string> := ["emin", "ne", "espermin", "esper0"]

  function EminName(n: nat): string
    requires n < 4
  {
    "x_wien2k_in2_" + EminKeys[n]
  }

  function Min(a: nat, b: nat): nat {
    if a < b then a else b
  }

  lemma EminNamesDistinct()
    ensures forall m, n :: 0 <= m < 4 && 0 <= n < 4 && m != n ==> EminName(m) != EminName(n)
  {
    assert EminName(0)[13] == 'e' && EminName(1)[13] == 'n';
    assert EminName(2)[18] == 'm' && EminName(3)[18] == '0';
  }

  /** The quantities the first n EMIN numbers set (n at most 4): number m
      under the m-th name, and nothing else. */
  function EminUpTo(emin: seq<real>, n: nat): (f: map<string, Value>)
    requires n <= |emin| && n <= 4
    ensures forall m :: 0 <= m < n ==> EminName(m) in f && f[EminName(m)] == Num(emin[m])
    ensures forall name :: name in f ==> exists m :: 0 <= m < n && name == EminName(m)
  {
    if n == 0 then map[]
    else
      EminNamesDistinct();
      EminUpTo(emin, n - 1)[EminName(n - 1) := Num(emin[n - 1])]
  }

  /** The EMIN quantities: the first four numbers under their names. */
  function EminMap(emin: seq<real>): map<string, Value> {
    EminUpTo(emin, Min(|emin|, 4))
  }

  /** The loop over the EMIN numbers: the first four are stored under their
      names, the rest are ignored. */
  method EminFields(emin: seq<real>) returns (f: map<string, Value>)
    ensures f == EminMap(emin)
  {
    f := map[];
    var n := 0;
    while n < |emin|
      invariant 0 <= n <= |emin|
      invariant f == EminUpTo(emin, Min(n, 4))
    {
      if n < 4 {
        assert EminUpTo(emin, n + 1) == EminUpTo(emin, n)[EminName(n) := Num(emin[n])];
        f := f[EminName(n) := Num(emin[n])];
      }
      n := n + 1;
    }
  }

  // ----- smearing -----

  /** The smearing name as stored: GAUSS..., TEMP... and TETRA... become
      gaussian, fermi and tetrahedra; any other name is kept as parsed. */
  function SmearingKind(name: string): (kind: string)
    ensures kind != name ==> StartsWith(name, "GAUSS") || StartsWith(name, "TEMP") || StartsWith(name, "TETRA")
    ensures kind != name ==> kind == "gaussian" || kind == "fermi" || kind == "tetrahedra"
  {
    if StartsWith(name, "GAUSS") then "gaussian"
    else if StartsWith(name, "TEMP") then "fermi"
    else if StartsWith(name, "TETRA") then "tetrahedra"
    else name
  }

  /** A string that differs from a prefix at some position does not start with it. */
  lemma NotPrefix(s: string, p: string, i: nat)
    requires i < |s| && i < |p| && s[i] != p[i]
    ensures !StartsWith(s, p)
  {
    if |p| <= |s| {
      assert s[..|p|][i] != p[i];
    }
  }

  /** The five names the `.in2` pattern can capture, mapped. */
  lemma SmearingOfParsedNames()
    ensures SmearingKind("GAUSS") == "gaussian"
    ensures SmearingKind("TEMP") == "fermi"
    ensures SmearingKind("TETRA") == "tetrahedra"
    ensures SmearingKind("ROOT") == "ROOT"
    ensures SmearingKind("ALL") == "ALL"
  {
    NotPrefix("ROOT", "GAUSS", 0);
    NotPrefix("ROOT", "TEMP", 0);
    NotPrefix("ROOT", "TETRA", 0);
    NotPrefix("ALL", "GAUSS", 0);
    NotPrefix("ALL", "TEMP", 0);
    NotPrefix("ALL", "TETRA", 0);
    NotPrefix("TETRA", "GAUSS", 0);
    NotPrefix("TETRA", "TEMP", 2);
  }

  /** Mapping a mapped name again changes nothing: the metainfo names are
      not smearing prefixes. */
  lemma SmearingKindIdempotent(name: string)
    ensures SmearingKind(SmearingKind(name)) == SmearingKind(name)
  {
    NotPrefix("gaussian", "GAUSS", 0);
    NotPrefix("gaussian", "TEMP", 0);
    NotPrefix("gaussian", "TETRA", 0);
    NotPrefix("fermi", "GAUSS", 0);
    NotPrefix("fermi", "TEMP", 0);
    NotPrefix("fermi", "TETRA", 0);
    NotPrefix("tetrahedra", "GAUSS", 0);
    NotPrefix("tetrahedra", "TEMP", 0);
    NotPrefix("tetrahedra", "TETRA", 0);
  }
}
