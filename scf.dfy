/** SCF iterations (`Wien2kParser.parse_scc`): every iteration block of the
    main output becomes one SCF section. Tabular quantities are split into
    columns, repeated sub-blocks are projected onto one sub-quantity, and any
    other block has its sub-keys renamed into the `x_wien2k_` namespace
    unless they already are `energy_` quantities. The final energy, Fermi
    level and forces are taken from the last iteration; the forces of each
    inequivalent atom are repeated once per equivalent site. */
module Scf {
  import opened Values

  /** The value the output parser holds under one key: None, a table of
      numbers (one row per match), a list of sub-blocks (one per match), or
      a single sub-block. */
  datatype Node =
    | Absent
    | Rows(rows: seq<seq<real>>)
    | Blocks(blocks: seq<map<string, Value>>)
    | Block(block: map<string, Value>)

  datatype Entry = Entry(key: string, node: Node)

  /** One iteration block, its keys in the order the parser stored them. */
  type Iteration = seq<Entry>

  /** The quantities set on one SCF section, by metainfo name. */
  type Section = map<string, Value>

  /** `getattr(section, name)`: None when the quantity was never set. */
  function Get(sec: Section, name: string): (v: Value)
    ensures name in sec ==> v == sec[name]
    ensures name !in sec ==> v == Null
  {
    if name in sec then sec[name] else Null
  }

  // ----- the dispatch table -----

  /** A table the transposes can take apart: at least one row, all rows of
      the same width, and that width at least w. */
  predicate Table(rows: seq<seq<real>>, w: nat) {
    |rows| >= 1 && w <= |rows[0]| && forall i :: 0 <= i < |rows| ==> |rows[i]| == |rows[0]|
  }

  /** The repeated sub-blocks that are projected onto one sub-quantity: the
      metainfo name written and the sub-quantity read. */
  function Projection(key: string): Option<(string, string)> {
    if key == "MMIi" then Some(("x_wien2k_mmi", "mmi"))
    else if key == "CTOi" then Some(("x_wien2k_tot_charge_in_sphere", "tot_charge_in_sphere"))
    else if key == "DTOi" then Some(("x_wien2k_tot_diff_charge", "tot_diff_charge"))
    else if key == "NTOi" then Some(("x_wien2k_tot_charge_in_sphere_nm", "tot_charge_in_sphere_nm"))
    else if key == "CHAi" then Some(("x_wien2k_tot_val_charge_sphere", "tot_val_charge_cell"))
    else if key == "POSi" then Some(("x_wien2k_atom_mult", "atom_mult"))
    else None
  }

  /** The shape the output parser gives each key: the force, charge and
      density tables have one row per atom with 4, 2 and 4 numbers; the
      projected keys hold sub-blocks; every other key a single sub-block. */
  predicate Typed(e: Entry) {
    e.node.Absent? ||
    if e.key == "FORi" then e.node.Rows? && Table(e.node.rows, 4)
    else if e.key == "FGLi" then e.node.Rows?
    else if e.key == "NECi" then e.node.Rows? && Table(e.node.rows, 2)
    else if e.key == "RTOi" then e.node.Rows? && Table(e.node.rows, 4)
    else if Projection(e.key).Some? then e.node.Blocks?
    else e.node.Block?
  }

  /** `x_wien2k_for`: columns 1 to 3 of the force table, row by row. */
  function ForceVectors(rows: seq<seq<real>>): (xyz: seq<seq<real>>)
    requires Table(rows, 4)
    ensures |xyz| == |rows|
    ensures forall i :: 0 <= i < |rows| ==> xyz[i] == rows[i][1..4]
  {
    seq(|rows|, i requires 0 <= i < |rows| && Table(rows, 4) => rows[i][1..4])
  }

  /** `[mm.mmi for mm in blocks]`: one sub-quantity of every sub-block, None
      where a block lacks it. */
  function Project(blocks: seq<map<string, Value>>, sub: string): (v: Value)
    ensures v.List? && |v.items| == |blocks|
    ensures forall i :: 0 <= i < |blocks| ==> v.items[i] == Get(blocks[i], sub)
  {
    List(seq(|blocks|, i requires 0 <= i < |blocks| => Get(blocks[i], sub)))
  }

  /** `sub_key if sub_key.startswith('energy_') else 'x_wien2k_%s' % sub_key` */
  function Rename(k: string): (f: string)
    ensures StartsWith(f, "energy_") || StartsWith(f, "x_wien2k_")
  {
    if StartsWith(k, "energy_") then k else "x_wien2k_" + k
  }

  /** The inverse of the renaming, by the prefix it adds. */
  function Unrename(f: string): string {
    if StartsWith(f, "x_wien2k_") then f[|"x_wien2k_"|..] else f
  }

  lemma RenameRoundTrip(k: string)
    ensures Unrename(Rename(k)) == k
  {
    if StartsWith(k, "energy_") {
      assert k[0] == 'e';
    } else {
      assert ("x_wien2k_" + k)[..|"x_wien2k_"|] == "x_wien2k_";
      assert ("x_wien2k_" + k)[|"x_wien2k_"|..] == k;
    }
  }

  /** Different sub-keys never land on the same metainfo name, so the order in
      which a block's sub-keys are set does not matter. */
  lemma RenameInjective()
    ensures forall a, b :: Rename(a) == Rename(b) ==> a == b
  {
    forall a, b | Rename(a) == Rename(b)
      ensures a == b
    {
      RenameRoundTrip(a);
      RenameRoundTrip(b);
    }
  }

  /** The quantities a generic block sets: every sub-key, renamed. */
  function Renamed(block: map<string, Value>): (f: Section)
    ensures forall k :: k in block ==> Rename(k) in f && f[Rename(k)] == block[k]
    ensures forall name :: name in f ==> Unrename(name) in block && Rename(Unrename(name)) == name
  {
    RenameInjective();
    var f := map k | k in block :: Rename(k) := block[k];
    assert forall name :: name in f ==> exists k :: k in block && Rename(k) == name && Unrename(name) == k by {
      forall name | name in f
        ensures exists k :: k in block && Rename(k) == name && Unrename(name) == k
      {
        var k :| k in block && Rename(k) == name;
        RenameRoundTrip(k);
      }
    }
    f
  }

  /** The metainfo names the table and projected keys are stored under. */
  const TableNames: set<string> := {
    "x_wien2k_for", "x_wien2k_for_abs", "x_wien2k_for_gl",
    "x_wien2k_nuclear_charge", "x_wien2k_electronic_charge",
    "x_wien2k_density_at_nucleus_valence", "x_wien2k_density_at_nucleus_semicore",
    "x_wien2k_density_at_nucleus_core", "x_wien2k_density_at_nucleus_tot",
    "x_wien2k_mmi", "x_wien2k_tot_charge_in_sphere", "x_wien2k_tot_diff_charge",
    "x_wien2k_tot_charge_in_sphere_nm", "x_wien2k_tot_val_charge_sphere", "x_wien2k_atom_mult"}

  lemma TableNamesNamespaced()
    ensures forall name :: name in TableNames ==> StartsWith(name, "x_wien2k_")
  {
  }

  /** The quantities one key of an iteration sets on the section: a key
      whose value is None sets nothing, and a projected key sets one list
      with an entry per sub-block. */
  function Fields(e: Entry): (f: Section)
    requires Typed(e)
    ensures e.node.Absent? ==> f == map[]
    ensures e.node.Blocks? ==>
              var p := Projection(e.key).value;
              f.Keys == {p.0} && f[p.0] == Project(e.node.blocks, p.1)
  {
    match e.node
    case Absent => map[]
    case Rows(rows) =>
      if e.key == "FORi" then
        map["x_wien2k_for" := Matrix(ForceVectors(rows)), "x_wien2k_for_abs" := Nums(Column(rows, 0))]
      else if e.key == "FGLi" then
        map["x_wien2k_for_gl" := Matrix(rows)]
      else if e.key == "NECi" then
        map["x_wien2k_nuclear_charge" := Nums(Column(rows, 0)),
            "x_wien2k_electronic_charge" := Nums(Column(rows, 1))]
      else
        map["x_wien2k_density_at_nucleus_valence" := Nums(Column(rows, 0)),
            "x_wien2k_density_at_nucleus_semicore" := Nums(Column(rows, 1)),
            "x_wien2k_density_at_nucleus_core" := Nums(Column(rows, 2)),
            "x_wien2k_density_at_nucleus_tot" := Nums(Column(rows, 3))]
    case Blocks(blocks) =>
      var p := Projection(e.key).value;
      map[p.0 := Project(blocks, p.1)]
    case Block(block) => Renamed(block)
  }

  /** Every quantity a key sets lies in the `x_wien2k_` or the `energy_`
      namespace. */
  lemma FieldsNamespaced(e: Entry, name: string)
    requires Typed(e) && name in Fields(e)
    ensures StartsWith(name, "x_wien2k_") || StartsWith(name, "energy_")
  {
    TableNamesNamespaced();
    if e.node.Rows? || e.node.Blocks? {
      assert name in TableNames;
    }
  }

  /** A generic block keeps its `energy_` sub-quantities under their own
      names, so the iteration's total energy and Fermi level reach the
      section unchanged. */
  lemma EnergyKeysKept(e: Entry, k: string)
    requires Typed(e) && e.node.Block? && k in e.node.block && StartsWith(k, "energy_")
    ensures k in Fields(e) && Fields(e)[k] == e.node.block[k]
  {
    assert Rename(k) == k;
  }

  /** The force table gives each atom's absolute force and force vector. */
  lemma ForceFields(e: Entry)
    requires Typed(e) && e.key == "FORi" && e.node.Rows?
    ensures Fields(e).Keys == {"x_wien2k_for", "x_wien2k_for_abs"}
    ensures Fields(e)["x_wien2k_for_abs"] == Nums(Column(e.node.rows, 0))
    ensures Fields(e)["x_wien2k_for"] == Matrix(ForceVectors(e.node.rows))
  {
  }

  /** The global force table is stored whole, as `x_wien2k_for_gl`. */
  lemma GlobalForceFields(e: Entry)
    requires Typed(e) && e.key == "FGLi" && e.node.Rows?
    ensures Fields(e) == map["x_wien2k_for_gl" := Matrix(e.node.rows)]
  {
  }

  /** The charge table gives each atom's nuclear charge (column 0) and
      electronic charge (column 1). */
  lemma ChargeFields(e: Entry)
    requires Typed(e) && e.key == "NECi" && e.node.Rows?
    ensures Fields(e).Keys == {"x_wien2k_nuclear_charge", "x_wien2k_electronic_charge"}
    ensures Fields(e)["x_wien2k_nuclear_charge"] == Nums(Column(e.node.rows, 0))
    ensures Fields(e)["x_wien2k_electronic_charge"] == Nums(Column(e.node.rows, 1))
  {
  }

  /** The density table gives each atom's density at the nucleus: valence,
      semicore, core and total, columns 0 to 3. */
  lemma DensityFields(e: Entry)
    requires Typed(e) && e.key == "RTOi" && e.node.Rows?
    ensures Fields(e).Keys == {"x_wien2k_density_at_nucleus_valence", "x_wien2k_density_at_nucleus_semicore",
                               "x_wien2k_density_at_nucleus_core", "x_wien2k_density_at_nucleus_tot"}
    ensures Fields(e)["x_wien2k_density_at_nucleus_valence"] == Nums(Column(e.node.rows, 0))
    ensures Fields(e)["x_wien2k_density_at_nucleus_semicore"] == Nums(Column(e.node.rows, 1))
    ensures Fields(e)["x_wien2k_density_at_nucleus_core"] == Nums(Column(e.node.rows, 2))
    ensures Fields(e)["x_wien2k_density_at_nucleus_tot"] == Nums(Column(e.node.rows, 3))
  {
  }

  // ----- one iteration -----

  /** The quantities each key of the iteration sets, key by key. */
  function Writes(it: Iteration): (w: seq<Section>)
    requires forall i :: 0 <= i < |it| ==> Typed(it[i])
    ensures |w| == |it| && forall i :: 0 <= i < |it| ==> w[i] == Fields(it[i])
  {
    seq(|it|, i requires 0 <= i < |it| && Typed(it[i]) => Fields(it[i]))
  }

  /** Setting groups of quantities one after the other, later ones winning. */
  function Overlay(ws: seq<Section>): Section {
    if ws == [] then map[] else Overlay(ws[..|ws| - 1]) + ws[|ws| - 1]
  }

  /** The section after setting the quantities of the iteration's keys in order. */
  function SectionOf(it: Iteration): Section
    requires forall i :: 0 <= i < |it| ==> Typed(it[i])
  {
    Overlay(Writes(it))
  }

  lemma {:induction false} OverlayHas(ws: seq<Section>, name: string)
    ensures name in Overlay(ws) <==> exists i :: 0 <= i < |ws| && name in ws[i]
  {
    if ws != [] {
      var front := ws[..|ws| - 1];
      OverlayHas(front, name);
      if exists i :: 0 <= i < |ws| && name in ws[i] {
        var i :| 0 <= i < |ws| && name in ws[i];
        if i < |front| {
          assert ws[i] == front[i];
        }
      }
    }
  }

  lemma {:induction false} OverlayLast(ws: seq<Section>, name: string, i: nat)
    requires i < |ws| && name in ws[i]
    requires forall j :: i < j < |ws| ==> name !in ws[j]
    ensures name in Overlay(ws) && Overlay(ws)[name] == ws[i][name]
  {
    var front := ws[..|ws| - 1];
    if i < |front| {
      assert front[i] == ws[i];
      assert forall j :: i < j < |front| ==> front[j] == ws[j];
      OverlayLast(front, name, i);
    }
  }

  /** A quantity is on the section exactly when some key of the iteration sets it. */
  lemma SectionHas(it: Iteration, name: string)
    requires forall i :: 0 <= i < |it| ==> Typed(it[i])
    ensures name in SectionOf(it) <==> exists i :: 0 <= i < |it| && name in Fields(it[i])
  {
    OverlayHas(Writes(it), name);
  }

  /** A quantity holds what the last key that sets it wrote. */
  lemma LastWriteWins(it: Iteration, name: string, i: nat)
    requires forall k :: 0 <= k < |it| ==> Typed(it[k])
    requires i < |it| && name in Fields(it[i])
    requires forall j :: i < j < |it| ==> name !in Fields(it[j])
    ensures name in SectionOf(it) && SectionOf(it)[name] == Fields(it[i])[name]
  {
    OverlayLast(Writes(it), name, i);
  }

  /** The loop over the keys of one iteration; keys holding None are skipped. */
  method ParseIteration(it: Iteration) returns (sec: Section)
    requires forall i :: 0 <= i < |it| ==> Typed(it[i])
    ensures sec == SectionOf(it)
  {
    sec := map[];
    var i := 0;
    while i < |it|
      invariant 0 <= i <= |it|
      invariant sec == Overlay(Writes(it)[..i])
    {
      assert Writes(it)[..i + 1][..i] == Writes(it)[..i];
      var e := it[i];
      i := i + 1;
      if e.node.Absent? {
        assert Fields(e) == map[];
        assert sec + Fields(e) == sec;
        continue;
      }
      sec := sec + Fields(e);
    }
    assert Writes(it)[..i] == Writes(it);
  }

  // ----- force expansion -----

  /** `forces.extend([force] * atom_mult[n])` over the forces of the
      inequivalent atoms. */
  method ExpandForces(forces: seq<Value>, mult: seq<int>) returns (out: seq<Value>)
    requires |mult| >= |forces|
    ensures out == Expand(forces, mult)
  {
    out := [];
    var n := 0;
    while n < |forces|
      invariant 0 <= n <= |forces|
      invariant out == Expand(forces[..n], mult)
    {
      ExpandSnoc(forces[..n], forces[n], mult);
      assert forces[..n + 1] == forces[..n] + [forces[n]];
      out := out + Repeat(forces[n], mult[n]);
      n := n + 1;
    }
    assert forces[..n] == forces;
  }

  /** The expanded forces: one per equivalent site, so their number is the
      sum of the multiplicities, and site j of inequivalent atom n carries
      that atom's force. */
  lemma ExpandedForces(forces: seq<Value>, mult: seq<int>, n: nat, j: nat)
    requires |mult| >= |forces| && n < |forces| && j < Pos(mult[n])
    ensures |Expand(forces, mult)| == Total(mult, |forces|)
    ensures Total(mult, n) + j < |Expand(forces, mult)|
    ensures Expand(forces, mult)[Total(mult, n) + j] == forces[n]
  {
    ExpandAt(forces, mult, n, j);
  }

  /** The multiplicities as the force loop reads them. */
  function Mults(items: seq<Value>): (m: seq<int>)
    requires forall n :: 0 <= n < |items| ==> items[n].Int?
    ensures |m| == |items| && forall n :: 0 <= n < |items| ==> m[n] == items[n].n
  {
    seq(|items|, n requires 0 <= n < |items| && items[n].Int? => items[n].n)
  }

  /** The force loop raises nothing: when global forces are set, they are a
      list, and the multiplicities are a list of integers, one at least per
      force. */
  predicate ForcesReady(sec: Section) {
    var gl := Get(sec, "x_wien2k_for_gl");
    var mult := Get(sec, "x_wien2k_atom_mult");
    gl != Null ==>
      && gl.List?
      && mult.List?
      && |mult.items| >= |gl.items|
      && forall n :: 0 <= n < |gl.items| ==> mult.items[n].Int?
  }

  // ----- the whole output -----

  /** The SCF sections and the final values written to the calculation. */
  datatype Scc = Scc(scf: seq<Section>, energyTotal: Value, forces: Option<seq<Value>>, fermi: Value)

  predicate AllTyped(its: seq<Iteration>) {
    forall n, i :: 0 <= n < |its| && 0 <= i < |its[n]| ==> Typed(its[n][i])
  }

  /** The iterations can be processed without an exception: each key has the
      parser's shape, there is a last iteration to take the final values from
      (the code reads the section of the last pass of its loop), and that
      section's forces can be expanded. */
  predicate Processable(its: seq<Iteration>) {
    && |its| >= 1
    && AllTyped(its)
    && ForcesReady(SectionOf(its[|its| - 1]))
  }

  /** The forces of the calculation, from the last SCF section. */
  function FinalForces(last: Section): Option<seq<Value>>
    requires ForcesReady(last)
  {
    var gl := Get(last, "x_wien2k_for_gl");
    if gl == Null then None
    else Some(Expand(gl.items, Mults(Get(last, "x_wien2k_atom_mult").items[..|gl.items|])))
  }

  /** The force block at the end of `parse_scc`, on the last SCF section. */
  method CollectForces(last: Section) returns (forces: Option<seq<Value>>)
    requires ForcesReady(last)
    ensures forces == FinalForces(last)
  {
    var gl := Get(last, "x_wien2k_for_gl");
    if gl == Null {
      return None;
    }
    var mult := Get(last, "x_wien2k_atom_mult").items;
    var expanded := ExpandForces(gl.items, Mults(mult[..|gl.items|]));
    forces := Some(expanded);
  }

  /** What `parse_scc` writes for the iterations: one section per
      iteration, and the total energy, Fermi level and forces of the last. */
  predicate Summarises(its: seq<Iteration>, scc: Scc)
    requires Processable(its)
  {
    var last := SectionOf(its[|its| - 1]);
    && |scc.scf| == |its|
    && (forall n :: 0 <= n < |its| ==> scc.scf[n] == SectionOf(its[n]))
    && scc.energyTotal == Get(last, "energy_total_scf_iteration")
    && scc.fermi == Get(last, "energy_reference_fermi_iteration")
    && scc.forces == FinalForces(last)
  }

  /** The loop over the iterations: one section per iteration, in order. */
  method ParseIterations(its: seq<Iteration>) returns (sections: seq<Section>)
    requires AllTyped(its)
    ensures |sections| == |its|
    ensures forall n :: 0 <= n < |its| ==> sections[n] == SectionOf(its[n])
  {
    sections := [];
    var n := 0;
    while n < |its|
      invariant 0 <= n <= |its|
      invariant |sections| == n
      invariant forall m :: 0 <= m < n ==> sections[m] == SectionOf(its[m])
    {
      var sec := ParseIteration(its[n]);
      sections := sections + [sec];
      n := n + 1;
    }
  }

  /** `parse_scc` up to the eigenvalues and the DOS: None when the output has
      no iterations; otherwise one section per iteration, and the total
      energy, Fermi level and forces of the last one. */
  method ParseScc(iterations: Option<seq<Iteration>>) returns (r: Option<Scc>)
    requires iterations.Some? ==> Processable(iterations.value)
    ensures r.None? <==> iterations.None?
    ensures r.Some? ==> Summarises(iterations.value, r.value)
  {
    if iterations.None? {
      return None;
    }
    var its := iterations.value;
    var sections := ParseIterations(its);
    var last := sections[|sections| - 1];
    var forces := CollectForces(last);
    r := Some(Scc(sections, Get(last, "energy_total_scf_iteration"), forces, Get(last, "energy_reference_fermi_iteration")));
  }
}
