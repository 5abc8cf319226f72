/** Density-of-states assembly (`Wien2kParser.get_dos`): each DOS file is
    read as a numeric table; its column 1 is one spin channel's DOS, and the
    energy axis is column 0 of the file read last. A file that cannot be read
    drops the whole dataset. */
module Dos {
  import opened Values

  /** What `np.loadtxt` gives for one file: its rows, or None when it raises. */
  type Table = Option<seq<seq<real>>>

  datatype DosData = DosData(energy: seq<real>, dos: seq<seq<real>>)

  /** A table the code can index: two rows or more (a one-row file is read by
      numpy as a flat vector, which is not modelled) and at least the energy
      and DOS columns in every row. */
  predicate Shaped(rows: seq<seq<real>>) {
    |rows| >= 2 && forall i :: 0 <= i < |rows| ==> 2 <= |rows[i]|
  }

  /** Every table before index n was read. */
  predicate ReadBefore(tables: seq<Table>, n: nat)
    requires n <= |tables|
  {
    forall j :: 0 <= j < n ==> tables[j].Some?
  }

  /** Each table the loop reaches, if read at all, can be indexed. */
  predicate Indexable(tables: seq<Table>) {
    forall i :: 0 <= i < |tables| && ReadBefore(tables, i) && tables[i].Some? ==> Shaped(tables[i].value)
  }

  /** When every table was read, every one can be indexed. */
  lemma IndexableAll(tables: seq<Table>)
    requires Indexable(tables)
    requires forall i :: 0 <= i < |tables| ==> tables[i].Some?
    ensures forall i :: 0 <= i < |tables| ==> Shaped(tables[i].value)
  {
    forall i | 0 <= i < |tables|
      ensures Shaped(tables[i].value)
    {
      assert ReadBefore(tables, i);
    }
  }

  /** `get_dos` once the files are chosen: the loop over the files; a
      failed read returns None at once. Each file gives its DOS column, and
      the energy axis is the last file's column 0: the energy columns of the
      other files are not compared with it. */
  method ReadDos(tables: seq<Table>) returns (r: Option<DosData>)
    requires |tables| >= 1
    requires Indexable(tables)
    ensures r.Some? <==> forall i :: 0 <= i < |tables| ==> tables[i].Some?
    ensures r.Some? ==> |r.value.dos| == |tables|
    ensures r.Some? ==> forall i :: 0 <= i < |tables| ==> r.value.dos[i] == Column(tables[i].value, 1)
    ensures r.Some? ==> r.value.energy == Column(tables[|tables| - 1].value, 0)
  {
    var dos: seq<seq<real>> := [];
    var energy: seq<real> := [];
    var n := 0;
    while n < |tables|
      invariant 0 <= n <= |tables|
      invariant ReadBefore(tables, n)
      invariant |dos| == n
      invariant forall i :: 0 <= i < n ==> dos[i] == Column(tables[i].value, 1)
      invariant n > 0 ==> energy == Column(tables[n - 1].value, 0)
    {
      var table := tables[n];
      if table.None? {
        return None;
      }
      var rows := table.value;
      energy := Column(rows, 0);
      dos := dos + [Column(rows, 1)];
      n := n + 1;
    }
    r := Some(DosData(energy, dos));
  }
}
