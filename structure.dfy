/** The structure fallback (`StructParser.get_atoms`): when ASE cannot read
    the `.struct` file, the structure is rebuilt from the parsed lattice
    constants and atom blocks; every block contributes its positions, each
    paired with the block's atomic number. */
module Structure {
  import opened Values

  /** One atom block of the `.struct` file: its positions and its Z, if parsed. */
  datatype AtomBlock = AtomBlock(positions: seq<seq<real>>, z: Option<real>)

  /** The parsed `lattice` block, reduced to the lattice constants. */
  datatype Lattice = Lattice(constants: Option<seq<real>>)

  /** What the struct parser found: the lattice block, if any, and the atom
      blocks (none when the quantity is absent). */
  datatype StructResult = StructResult(lattice: Option<Lattice>, atoms: seq<AtomBlock>)

  /** The arguments of `Atoms(cell=..., scaled_positions=..., numbers=..., pbc=True)`. */
  datatype Atoms = Atoms(cell: seq<real>, scaledPositions: seq<seq<real>>, numbers: seq<int>, pbc: bool)

  /** Python's `int()` of a float: truncation toward zero. */
  function Trunc(x: real): (n: int)
    ensures x >= 0.0 ==> n as real <= x < n as real + 1.0
    ensures x < 0.0 ==> n as real - 1.0 < x <= n as real
  {
    if x >= 0.0 then x.Floor else -((-x).Floor)
  }

  /** `int(atom.get('Z', 0))` */
  function AtomicNumber(a: AtomBlock): int {
    match a.z
    case None => 0
    case Some(z) => Trunc(z)
  }

  function AtomicNumbers(atoms: seq<AtomBlock>): (r: seq<int>)
    ensures |r| == |atoms| && forall i :: 0 <= i < |atoms| ==> r[i] == AtomicNumber(atoms[i])
  {
    seq(|atoms|, i requires 0 <= i < |atoms| => AtomicNumber(atoms[i]))
  }

  function Lengths(atoms: seq<AtomBlock>): (r: seq<int>)
    ensures |r| == |atoms| && forall i :: 0 <= i < |atoms| ==> r[i] == |atoms[i].positions|
  {
    seq(|atoms|, i requires 0 <= i < |atoms| => |atoms[i].positions|)
  }

  /** The positions of all blocks, block after block. */
  function Positions(atoms: seq<AtomBlock>): (r: seq<seq<real>>)
    ensures |r| == Total(Lengths(atoms), |atoms|)
  {
    if atoms == [] then []
    else
      var front := atoms[..|atoms| - 1];
      TotalAgree(Lengths(front), Lengths(atoms), |front|);
      Positions(front) + atoms[|atoms| - 1].positions
  }

  /** Each block's atomic number, once per position of the block. */
  function Numbers(atoms: seq<AtomBlock>): (r: seq<int>)
    ensures |r| == Total(Lengths(atoms), |atoms|)
  {
    Expand(AtomicNumbers(atoms), Lengths(atoms))
  }

  /** Position j of block n sits at offset Total(Lengths(atoms), n) + j. */
  lemma {:induction false} PositionsAt(atoms: seq<AtomBlock>, n: nat, j: nat)
    requires n < |atoms| && j < |atoms[n].positions|
    ensures Total(Lengths(atoms), n) + j < |Positions(atoms)|
    ensures Positions(atoms)[Total(Lengths(atoms), n) + j] == atoms[n].positions[j]
  {
    var front := atoms[..|atoms| - 1];
    TotalAgree(Lengths(front), Lengths(atoms), |front|);
    if n < |front| {
      PositionsAt(front, n, j);
      TotalAgree(Lengths(front), Lengths(atoms), n);
    } else {
      TotalAgree(Lengths(front), Lengths(atoms), n);
    }
  }

  /** There are as many atomic numbers as positions, and each position is
      paired with the atomic number of the block it comes from. */
  lemma PositionsPairedWithNumbers(atoms: seq<AtomBlock>, n: nat, j: nat)
    requires n < |atoms| && j < |atoms[n].positions|
    ensures |Numbers(atoms)| == |Positions(atoms)|
    ensures Total(Lengths(atoms), n) + j < |Positions(atoms)|
    ensures Positions(atoms)[Total(Lengths(atoms), n) + j] == atoms[n].positions[j]
    ensures Numbers(atoms)[Total(Lengths(atoms), n) + j] == AtomicNumber(atoms[n])
  {
    PositionsAt(atoms, n, j);
    ExpandAt(AtomicNumbers(atoms), Lengths(atoms), n, j);
  }

  /** The loop over the atom blocks: `scaled_positions.extend(positions)` and
      `numbers.extend([int(Z)] * len(positions))`. */
  method CollectAtoms(atoms: seq<AtomBlock>) returns (positions: seq<seq<real>>, numbers: seq<int>)
    ensures positions == Positions(atoms)
    ensures numbers == Numbers(atoms)
  {
    positions := [];
    numbers := [];
    ghost var zs := AtomicNumbers(atoms);
    ghost var ls := Lengths(atoms);
    var n := 0;
    while n < |atoms|
      invariant 0 <= n <= |atoms|
      invariant positions == Positions(atoms[..n])
      invariant numbers == Expand(zs[..n], ls)
    {
      var block := atoms[n];
      PositionsSnoc(atoms, n);
      assert zs[..n + 1] == zs[..n] + [AtomicNumber(block)];
      ExpandSnoc(zs[..n], AtomicNumber(block), ls);
      positions := positions + block.positions;
      numbers := numbers + Repeat(AtomicNumber(block), |block.positions|);
      n := n + 1;
    }
    assert atoms[..n] == atoms;
    assert zs[..n] == zs;
  }

  lemma PositionsSnoc(atoms: seq<AtomBlock>, n: nat)
    requires n < |atoms|
    ensures Positions(atoms[..n + 1]) == Positions(atoms[..n]) + atoms[n].positions
  {
    assert atoms[..n + 1][..n] == atoms[..n];
  }

  /** `get_atoms`: None without a struct file; ASE's reading when it succeeds
      (`aseRead`, a foreign result); otherwise None without a lattice block,
      and the structure rebuilt from the parsed blocks with periodic
      boundaries in all directions. The parsed lattice constants are passed
      on as the cell; their conversion from bohr to angstrom is not modelled. */
  method GetAtoms(hasFile: bool, aseRead: Option<Atoms>, parsed: StructResult) returns (r: Option<Atoms>)
    requires hasFile && aseRead.None? && parsed.lattice.Some? ==> parsed.lattice.value.constants.Some?
    ensures !hasFile ==> r.None?
    ensures hasFile && aseRead.Some? ==> r == aseRead
    ensures hasFile && aseRead.None? && parsed.lattice.None? ==> r.None?
    ensures hasFile && aseRead.None? && parsed.lattice.Some? ==>
              r == Some(Atoms(parsed.lattice.value.constants.value, Positions(parsed.atoms), Numbers(parsed.atoms), true))
  {
    if !hasFile {
      return None;
    }
    if aseRead.Some? {
      return aseRead;
    }
    if parsed.lattice.None? {
      return None;
    }
    var cell := parsed.lattice.value.constants.value;
    var positions, numbers := CollectAtoms(parsed.atoms);
    r := Some(Atoms(cell, positions, numbers, true));
  }
}
