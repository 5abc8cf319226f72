/** The WIEN2k parser's orchestration (`Wien2kParser`): the number of spin
    channels, and the k-points, eigenvalues, density of states, SCF
    iterations, method settings and structure, each read from the companion
    file resolved in the main file's directory. The directory is given as its
    listing together with what the text parsers (or line readers) make of each
    file in it. */
module Wien2k {
  import opened Values
  import opened CompanionFiles
  import KList
  import Eigenvalues
  import Dos
  import Scf
  import Settings
  import Structure

  /** The main output file as the output parser returns it: its top-level
      quantities other than the iterations, and the iterations (None when
      the parser found none). */
  datatype Output = Output(top: map<string, Scf.Node>, iterations: Option<seq<Scf.Iteration>>)

  /** The output parser defines `version`, `start_date` and `iteration` at
      its top level; every other block, `VOL` among them, is a quantity of
      an iteration. */
  predicate ParserTopLevel(out: Output) {
    out.top.Keys <= {"version", "start_date"}
  }

  /** What the `.in0` parser finds: the XC code(s) and the FFT line. */
  datatype In0 = In0(xc: Value, fft: Option<seq<real>>)

  /** The smearing line of `.in2`: its name and width (in Ry). */
  datatype Smearing = Smearing(name: string, width: real)

  /** What the `.in2` parser finds. */
  datatype In2 = In2(gmax: Value, switch: Value, emin: seq<real>, smearing: Option<Smearing>)

  /** A `.struct` file: what ASE makes of it (None when it raises) and what
      the struct parser finds in it. */
  datatype StructFile = StructFile(aseRead: Option<Structure.Atoms>, parsed: Structure.StructResult)

  /** The main file's directory: the names in it, the main file's name, and
      the contents of each file as the corresponding reader sees it. */
  datatype Directory = Directory(
    listing: seq<string>,
    mainName: string,
    klist: string -> seq<KList.Line>,
    energy: string -> seq<Eigenvalues.Line>,
    dos: string -> Dos.Table,
    in0: string -> In0,
    in1: string -> map<string, Value>,
    in2: string -> In2,
    struct: string -> StructFile)

  /** A parser whose file was not found finds nothing. */
  const NoIn0 := In0(Null, None)
  const NoIn2 := In2(Null, Null, [], None)

  function Find(d: Directory, ext: string): Option<string> {
    Resolve(d.listing, d.mainName, ext)
  }

  // ----- spin channels -----

  /** The `spinpolarization` of a `VOL` block, None when there is none. */
  function SpinPolarization(vol: Option<Scf.Node>): Value {
    match vol
    case Some(Block(b)) => Scf.Get(b, "spinpolarization")
    case _ => Null
  }

  /** `get_nspin` as written: it looks `VOL` up at the output parser's top level. */
  function NSpinAsWritten(out: Output): (n: nat)
    ensures n == 1 || n == 2
  {
    var vol := if "VOL" in out.top then Some(out.top["VOL"]) else None;
    if SpinPolarization(vol) == Text("SPINPOLARIZED") then 2 else 1
  }

  /** As written, the lookup never finds the `VOL` block, so every
      calculation is taken to have one spin channel. */
  lemma NSpinAsWrittenIsOne(out: Output)
    requires ParserTopLevel(out)
    ensures NSpinAsWritten(out) == 1
  {
    assert "VOL" !in {"version", "start_date"};
  }

  /** The value an iteration holds under a key (its keys are distinct). */
  function EntryOf(it: Scf.Iteration, key: string): (r: Option<Scf.Node>)
    ensures r.Some? ==> exists i :: 0 <= i < |it| && it[i].key == key && it[i].node == r.value
    ensures r.None? ==> forall i :: 0 <= i < |it| ==> it[i].key != key
  {
    if it == [] then None
    else if it[0].key == key then Some(it[0].node)
    else
      var r := EntryOf(it[1..], key);
      assert forall i :: 1 <= i < |it| ==> it[i] == it[1..][i - 1];
      r
  }

  /** The `VOL` block of the first iteration, where the output parser puts it. */
  function FirstVol(out: Output): Option<Scf.Node> {
    match out.iterations
    case Some(its) => if |its| > 0 then EntryOf(its[0], "VOL") else None
    case None => None
  }

  /** The number of spin channels, read from where the `VOL` block is:
      two exactly when its `spinpolarization` is SPINPOLARIZED. */
  function NSpin(out: Output): (n: nat)
    ensures n == 2 <==> SpinPolarization(FirstVol(out)) == Text("SPINPOLARIZED")
    ensures n == 1 <==> SpinPolarization(FirstVol(out)) != Text("SPINPOLARIZED")
  {
    if SpinPolarization(FirstVol(out)) == Text("SPINPOLARIZED") then 2 else 1
  }

  /** An output of a spin-polarised calculation on which the two readings
      differ: the corrected one finds two channels, the code as written one. */
  lemma NSpinCounterexample()
    ensures var out := Output(map[], Some([[Scf.Entry("VOL", Scf.Block(map["spinpolarization" := Text("SPINPOLARIZED")]))]]));
            ParserTopLevel(out) && NSpinAsWritten(out) == 1 && NSpin(out) == 2
  {
    var it := [Scf.Entry("VOL", Scf.Block(map["spinpolarization" := Text("SPINPOLARIZED")]))];
    assert EntryOf(it, "VOL") == Some(it[0].node);
  }

  // ----- k-points -----

  /** The k-list, if found, can be read: its rows have six tokens and
      non-zero denominators, and the weights do not sum to zero. */
  predicate KListReadable(d: Directory) {
    var f := Find(d, "klist");
    f.Some? ==> KList.Readable(d.klist(f.value)) && Sum(KList.Weights(KList.Kept(d.klist(f.value)))) != 0.0
  }

  /** `get_kpoints`: None without a k-list file; otherwise the coordinates
      of its rows and their normalised weights. */
  method GetKPoints(d: Directory) returns (r: Option<(seq<seq<real>>, seq<real>)>)
    requires KListReadable(d)
    ensures r.None? <==> Find(d, "klist").None?
    ensures r.Some? ==>
              var rows := KList.Kept(d.klist(Find(d, "klist").value));
              && |r.value.0| == |rows|
              && (forall i :: 0 <= i < |rows| ==> r.value.0[i] == rows[i].coord)
              && r.value.1 == KList.Normalised(KList.Weights(rows))
  {
    var f := Find(d, "klist");
    if f.None? {
      return None;
    }
    var kpoints, weights := KList.ReadKList(d.klist(f.value));
    r := Some((kpoints, weights));
  }

  // ----- eigenvalues and density of states -----

  /** The energy files the spin channels call for, if every one is found. */
  function EnergyFileNames(d: Directory, out: Output): Option<seq<string>> {
    ResolveAll(d.listing, d.mainName, EnergySuffixes(NSpin(out)))
  }

  /** The DOS files the spin channels call for, if every one is found. */
  function DosFileNames(d: Directory, out: Output): Option<seq<string>> {
    ResolveAll(d.listing, d.mainName, DosSuffixes(NSpin(out)))
  }

  function EnergyFiles(d: Directory, files: seq<string>): (r: seq<seq<Eigenvalues.Line>>)
    ensures |r| == |files| && forall i :: 0 <= i < |files| ==> r[i] == d.energy(files[i])
  {
    seq(|files|, i requires 0 <= i < |files| => d.energy(files[i]))
  }

  /** What `get_eigenvalues` gives: None when an energy file is missing,
      otherwise the dataset assembled from the files read in order. */
  function EigenvaluesOf(d: Directory, out: Output): Option<Eigenvalues.Eigen> {
    match EnergyFileNames(d, out)
    case None => None
    case Some(files) => Eigenvalues.Assemble(NSpin(out), Eigenvalues.ReadFiles(EnergyFiles(d, files)))
  }

  /** `get_eigenvalues`: the energy files the spin channels call for (None
      when one is missing), read and reshaped. */
  method GetEigenvalues(d: Directory, out: Output) returns (r: Option<Eigenvalues.Eigen>)
    ensures EnergyFileNames(d, out).None? ==> r.None?
    ensures EnergyFileNames(d, out).Some? ==>
              r == Eigenvalues.Assemble(NSpin(out), Eigenvalues.ReadFiles(EnergyFiles(d, EnergyFileNames(d, out).value)))
    ensures r == EigenvaluesOf(d, out)
  {
    var nspin := NSpin(out);
    var files := EnergyFileNames(d, out);
    if files.None? {
      return None;
    }
    r := Eigenvalues.ReadEigenvalues(nspin, EnergyFiles(d, files.value));
  }

  function DosFiles(d: Directory, files: seq<string>): (r: seq<Dos.Table>)
    ensures |r| == |files| && forall i :: 0 <= i < |files| ==> r[i] == d.dos(files[i])
  {
    seq(|files|, i requires 0 <= i < |files| => d.dos(files[i]))
  }

  /** The DOS files, if all found, can be indexed as the loop reaches them. */
  predicate DosReadable(d: Directory, out: Output) {
    var files := DosFileNames(d, out);
    files.Some? ==> Dos.Indexable(DosFiles(d, files.value))
  }

  /** `dos` is what `get_dos` gives: None when a DOS file is missing;
      otherwise what the tables of the files give. */
  predicate DosOfFiles(d: Directory, out: Output, dos: Option<Dos.DosData>)
    requires DosReadable(d, out)
  {
    match DosFileNames(d, out)
    case None => dos.None?
    case Some(files) => DosOfTables(DosFiles(d, files), dos)
  }

  /** The DOS of the tables: present exactly when every table reads, and
      then one column-1 series per table, with column 0 of the last table
      as the energy axis. */
  predicate DosOfTables(tables: seq<Dos.Table>, dos: Option<Dos.DosData>)
    requires Dos.Indexable(tables)
  {
    if forall i :: 0 <= i < |tables| ==> tables[i].Some? then
      Dos.IndexableAll(tables);
      && dos.Some?
      && |tables| >= 1 && |dos.value.dos| == |tables|
      && (forall i :: 0 <= i < |tables| ==> dos.value.dos[i] == Column(tables[i].value, 1))
      && dos.value.energy == Column(tables[|tables| - 1].value, 0)
    else
      dos.None?
  }

  /** `get_dos`: the DOS files the spin channels call for (None when one is
      missing or unreadable), one DOS column per file. */
  method GetDos(d: Directory, out: Output) returns (r: Option<Dos.DosData>)
    requires DosReadable(d, out)
    ensures DosOfFiles(d, out, r)
  {
    var files := DosFileNames(d, out);
    if files.None? {
      return None;
    }
    var tables := DosFiles(d, files.value);
    r := Dos.ReadDos(tables);
    assert r.Some? ==> forall i :: 0 <= i < |tables| ==> tables[i].Some?;
    assert (forall i :: 0 <= i < |tables| ==> tables[i].Some?) ==> r.Some?;
  }

  // ----- the calculation -----

  /** What `parse_scc` writes: the SCF sections and final values, the
      eigenvalues and the DOS. */
  datatype Calculation = Calculation(scc: Scf.Scc, eigen: Option<Eigenvalues.Eigen>, dos: Option<Dos.DosData>)

  /** `parse_scc`: nothing when the output has no iterations (the eigenvalues
      and DOS are then not read either); otherwise the iterations, then the
      eigenvalues and the DOS. */
  method ParseScc(d: Directory, out: Output) returns (r: Option<Calculation>)
    requires out.iterations.Some? ==> Scf.Processable(out.iterations.value) && DosReadable(d, out)
    ensures r.None? <==> out.iterations.None?
    ensures r.Some? ==> Scf.Summarises(out.iterations.value, r.value.scc)
    ensures r.Some? ==> r.value.eigen == EigenvaluesOf(d, out)
    ensures r.Some? ==> DosOfFiles(d, out, r.value.dos)
  {
    var scc := Scf.ParseScc(out.iterations);
    if scc.None? {
      return None;
    }
    var eigen := GetEigenvalues(d, out);
    var dos := GetDos(d, out);
    r := Some(Calculation(scc.value, eigen, dos));
  }

  // ----- method settings -----

  function In0Of(d: Directory): In0 {
    match Find(d, "in0")
    case None => NoIn0
    case Some(f) => d.in0(f)
  }

  /** The `.in1` file: `in1`, else `in1c`. */
  function In1File(d: Directory): (r: Option<string>)
    ensures r.Some? ==> r.value in d.listing && (EndsWith(r.value, "in1") || EndsWith(r.value, "in1c"))
  {
    ResolveEither(d.listing, d.mainName, "in1", "in1c")
  }

  /** The `.in2` file as written: suffix `1n2`, else `in2c`. */
  function In2FileAsWritten(d: Directory): (r: Option<string>)
    ensures r.Some? ==> r.value in d.listing && (EndsWith(r.value, "1n2") || EndsWith(r.value, "in2c"))
  {
    ResolveEither(d.listing, d.mainName, "1n2", "in2c")
  }

  /** The `.in2` file: suffix `in2`, else `in2c`. A lone `.in2` file is
      found; whatever is found is in the listing and has one of the two
      suffixes. */
  function In2File(d: Directory): (r: Option<string>)
    ensures |Candidates(d.listing, "in2")| == 1 ==> r == Some(Candidates(d.listing, "in2")[0])
    ensures r.Some? ==> r.value in d.listing && (EndsWith(r.value, "in2") || EndsWith(r.value, "in2c"))
  {
    ResolveCases(d.listing, d.mainName, "in2");
    ResolveCases(d.listing, d.mainName, "in2c");
    ResolveEither(d.listing, d.mainName, "in2", "in2c")
  }

  /** A directory with the main output and a plain `.in2` file: as written
      the `.in2` file is not found and its settings are lost; the corrected
      suffix finds it. */
  lemma In2SuffixCounterexample(d: Directory)
    requires d.listing == ["case.scf", "case.in2"] && d.mainName == "case.scf"
    ensures In2FileAsWritten(d) == None
    ensures In2File(d) == Some("case.in2")
  {
    var listing := d.listing;
    assert !EndsWith("case.scf", "1n2") && !EndsWith("case.in2", "1n2");
    assert !EndsWith("case.scf", "in2c") && !EndsWith("case.in2", "in2c");
    assert !EndsWith("case.scf", "in2") && EndsWith("case.in2", "in2");
    assert listing[1..][1..] == [];
    assert Candidates(listing, "1n2") == [];
    assert Candidates(listing, "in2c") == [];
    assert Candidates(listing, "in2") == ["case.in2"];
  }

  function In1Of(d: Directory): map<string, Value> {
    match In1File(d)
    case None => map[]
    case Some(f) => d.in1(f)
  }

  function In2Of(d: Directory): In2 {
    match In2File(d)
    case None => NoIn2
    case Some(f) => d.in2(f)
  }

  /** The method section: spin channels, XC functionals (and the warnings
      for codes that do not resolve), the `x_wien2k_` settings, the
      smearing and the k-mesh. */
  datatype MethodSection = MethodSection(
    spinChannels: nat,
    xc: seq<string>,
    xcWarnings: nat,
    settings: map<string, Value>,
    smearingKind: Option<string>,
    smearingWidth: Option<real>,
    kmesh: Option<(seq<seq<real>>, seq<real>)>)

  /** `parse_method` raises nothing: no XC code is a list, the FFT line has
      its four numbers, and the k-list can be read. */
  predicate MethodReadable(d: Directory) {
    var codes := Settings.XcCodes(In0Of(d).xc);
    && (forall i :: 0 <= i < |codes| ==> Settings.Hashable(codes[i]))
    && (In0Of(d).fft.Some? ==> |In0Of(d).fft.value| >= 4)
    && KListReadable(d)
  }

  /** `parse_method`. The settings are set in this order, later ones
      winning: the FFT grid, the `.in1` quantities, `gmax` and `switch` of
      `.in2`, and the EMIN numbers. The smearing width is kept in Ry. */
  method ParseMethod(d: Directory, out: Output) returns (m: MethodSection)
    requires MethodReadable(d)
    ensures m.spinChannels == NSpin(out)
    ensures m.xc == Settings.XcNames(Settings.XcFunctionals, Settings.XcCodes(In0Of(d).xc))
    ensures m.xcWarnings == Settings.Unresolved(Settings.XcFunctionals, Settings.XcCodes(In0Of(d).xc))
    ensures m.settings == Settings.FftFields(In0Of(d).fft) + Settings.In1Fields(In1Of(d))
                          + Settings.In2Fields(In2Of(d).gmax, In2Of(d).switch) + Settings.EminMap(In2Of(d).emin)
    ensures In2Of(d).smearing.None? ==> m.smearingKind.None? && m.smearingWidth.None?
    ensures In2Of(d).smearing.Some? ==>
              && m.smearingKind == Some(Settings.SmearingKind(In2Of(d).smearing.value.name))
              && m.smearingWidth == Some(In2Of(d).smearing.value.width)
    ensures m.kmesh.None? <==> Find(d, "klist").None?
    ensures m.kmesh.Some? ==>
              var rows := KList.Kept(d.klist(Find(d, "klist").value));
              && |m.kmesh.value.0| == |rows|
              && (forall i :: 0 <= i < |rows| ==> m.kmesh.value.0[i] == rows[i].coord)
              && m.kmesh.value.1 == KList.Normalised(KList.Weights(rows))
  {
    var nspin := NSpin(out);
    var in0 := In0Of(d);
    var xc, warnings := Settings.ResolveXc(Settings.XcFunctionals, in0.xc);
    var settings := Settings.FftFields(in0.fft);
    settings := settings + Settings.In1Fields(In1Of(d));
    var in2 := In2Of(d);
    settings := settings + Settings.In2Fields(in2.gmax, in2.switch);
    var emin := Settings.EminFields(in2.emin);
    settings := settings + emin;
    var kind: Option<string> := None;
    var width: Option<real> := None;
    if in2.smearing.Some? {
      kind := Some(Settings.SmearingKind(in2.smearing.value.name));
      width := Some(in2.smearing.value.width);
    }
    var kmesh := GetKPoints(d);
    m := MethodSection(nspin, xc, warnings, settings, kind, width, kmesh);
  }

  // ----- structure -----

  /** The structure of `parse_system`: the `.struct` file's atoms, if any. */
  method ParseStructure(d: Directory) returns (r: Option<Structure.Atoms>)
    requires var f := Find(d, "struct");
             f.Some? && d.struct(f.value).aseRead.None? && d.struct(f.value).parsed.lattice.Some? ==>
               d.struct(f.value).parsed.lattice.value.constants.Some?
    ensures Find(d, "struct").None? ==> r.None?
    ensures Find(d, "struct").Some? ==>
              var s := d.struct(Find(d, "struct").value);
              && (s.aseRead.Some? ==> r == s.aseRead)
              && (s.aseRead.None? && s.parsed.lattice.None? ==> r.None?)
              && (s.aseRead.None? && s.parsed.lattice.Some? ==>
                    r == Some(Structure.Atoms(s.parsed.lattice.value.constants.value,
                                              Structure.Positions(s.parsed.atoms),
                                              Structure.Numbers(s.parsed.atoms), true)))
  {
    var f := Find(d, "struct");
    if f.None? {
      return None;
    }
    var s := d.struct(f.value);
    r := Structure.GetAtoms(true, s.aseRead, s.parsed);
  }
}
