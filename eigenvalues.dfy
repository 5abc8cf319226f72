/** Eigenvalue assembly (`Wien2kParser.get_eigenvalues`): the energy files of
    the spin channels are read line by line; k-point headers are recognised in
    the first file only, eigenvalue lines in every file, in file order; the
    flat list of eigenvalues is then reshaped row-major to
    [spin][k-point][band], or the whole dataset is dropped. The two regular
    expressions are abstracted: each line records what each of them matched. */
module Eigenvalues {
  import opened Values

  /** What numpy's float64 conversion makes of one captured group. */
  datatype Token = Float(x: real) | Malformed

  /** A match of the k-point header pattern: the three coordinate groups and
      the fourth group, stored as the k-point's multiplicity. */
  datatype Header = Header(kx: Token, ky: Token, kz: Token, weight: Token)

  /** One line of an energy file, as the two patterns see it: the header
      pattern's match, if any, and the group the eigenvalue pattern captures,
      if it matches. */
  datatype Line = Line(header: Option<Header>, eigen: Option<Token>)

  /** The three lists the reading loop appends to. */
  datatype Collected = Collected(kpoints: seq<seq<Token>>, eigenvalues: seq<Token>, multiplicity: seq<Token>)

  /** The result: eigenvalues[spin][k][band], the k-points and their multiplicities. */
  datatype Eigen = Eigen(values: seq<seq<seq<real>>>, kpoints: seq<seq<real>>, multiplicity: seq<real>)

  const Nothing := Collected([], [], [])

  /** What one line adds; `first` says whether it belongs to the first file.
      A line taken as a header is not looked at as an eigenvalue. */
  function Step(c: Collected, first: bool, l: Line): Collected {
    if first && l.header.Some? then
      var h := l.header.value;
      Collected(c.kpoints + [[h.kx, h.ky, h.kz]], c.eigenvalues, c.multiplicity + [h.weight])
    else if l.eigen.Some? then
      c.(eigenvalues := c.eigenvalues + [l.eigen.value])
    else c
  }

  /** The lists after reading the lines of one file. */
  function ReadLines(c: Collected, first: bool, lines: seq<Line>): Collected {
    if lines == [] then c
    else Step(ReadLines(c, first, lines[..|lines| - 1]), first, lines[|lines| - 1])
  }

  /** The lists after reading the files in order; the file with index 0 is the first. */
  function ReadFiles(files: seq<seq<Line>>): Collected {
    if files == [] then Nothing
    else ReadLines(ReadFiles(files[..|files| - 1]), |files| == 1, files[|files| - 1])
  }

  /** The eigenvalue groups a file contributes on its own. */
  function FileEigenvalues(first: bool, lines: seq<Line>): seq<Token> {
    ReadLines(Nothing, first, lines).eigenvalues
  }

  lemma {:induction false} ReadLinesAppends(c: Collected, first: bool, lines: seq<Line>)
    ensures ReadLines(c, first, lines).eigenvalues == c.eigenvalues + FileEigenvalues(first, lines)
    ensures ReadLines(c, first, lines).kpoints == c.kpoints + ReadLines(Nothing, first, lines).kpoints
    ensures ReadLines(c, first, lines).multiplicity == c.multiplicity + ReadLines(Nothing, first, lines).multiplicity
  {
    if lines != [] {
      ReadLinesAppends(c, first, lines[..|lines| - 1]);
    }
  }

  /** A file other than the first contributes no k-point and no multiplicity. */
  lemma {:induction false} LaterFileAddsNoHeader(c: Collected, lines: seq<Line>)
    ensures ReadLines(c, false, lines).kpoints == c.kpoints
    ensures ReadLines(c, false, lines).multiplicity == c.multiplicity
  {
    if lines != [] {
      LaterFileAddsNoHeader(c, lines[..|lines| - 1]);
    }
  }

  /** k-point headers come from the first file only: later files do not
      change the k-points or the multiplicities. */
  lemma {:induction false} HeadersFromFirstFileOnly(files: seq<seq<Line>>)
    requires |files| >= 1
    ensures ReadFiles(files).kpoints == ReadFiles(files[..1]).kpoints
    ensures ReadFiles(files).multiplicity == ReadFiles(files[..1]).multiplicity
  {
    if |files| > 1 {
      var front := files[..|files| - 1];
      HeadersFromFirstFileOnly(front);
      assert front[..1] == files[..1];
      LaterFileAddsNoHeader(ReadFiles(front), files[|files| - 1]);
    }
  }

  /** Eigenvalues are collected from every file, in file order. */
  lemma EigenvaluesFromEveryFile(files: seq<seq<Line>>, f: seq<Line>)
    ensures ReadFiles(files + [f]).eigenvalues == ReadFiles(files).eigenvalues + FileEigenvalues(files == [], f)
  {
    assert (files + [f])[..|files|] == files;
    ReadLinesAppends(ReadFiles(files), files == [], f);
  }

  /** The lines that do not match the header pattern. */
  function NonHeaderLines(lines: seq<Line>): (r: seq<Line>)
    ensures |r| <= |lines|
  {
    if lines == [] then []
    else
      var last := lines[|lines| - 1];
      NonHeaderLines(lines[..|lines| - 1]) + (if last.header.Some? then [] else [last])
  }

  /** A line accepted as a header is never also counted as an eigenvalue: in
      the first file, the eigenvalues are those a later file would give for
      the same lines with the header lines taken out. */
  lemma {:induction false} HeaderLinesAreNotEigenvalues(lines: seq<Line>)
    ensures FileEigenvalues(true, lines) == FileEigenvalues(false, NonHeaderLines(lines))
  {
    if lines != [] {
      var front := lines[..|lines| - 1];
      var last := lines[|lines| - 1];
      HeaderLinesAreNotEigenvalues(front);
      var nh := NonHeaderLines(front);
      assert ReadLines(Nothing, true, lines) == Step(ReadLines(Nothing, true, front), true, last);
      if last.header.None? {
        assert NonHeaderLines(lines) == nh + [last];
        assert (nh + [last])[..|nh|] == nh;
        assert ReadLines(Nothing, false, nh + [last]) == Step(ReadLines(Nothing, false, nh), false, last);
      } else {
        assert NonHeaderLines(lines) == nh;
      }
    }
  }

  // ----- reshaping -----

  /** `count` consecutive pieces of `size` elements each. */
  function Chunks<T>(xs: seq<T>, count: nat, size: nat): (r: seq<seq<T>>)
    requires |xs| == count * size
    ensures |r| == count
    ensures forall i :: 0 <= i < count ==> |r[i]| == size
    decreases count
  {
    if count == 0 then []
    else
      assert |xs[size..]| == (count - 1) * size;
      [xs[..size]] + Chunks(xs[size..], count - 1, size)
  }

  function Flatten<T>(xss: seq<seq<T>>): seq<T> {
    if xss == [] then [] else xss[0] + Flatten(xss[1..])
  }

  lemma MulBound(i: nat, j: nat, count: nat, size: nat)
    requires i < count && j < size
    ensures i * size + j < count * size
  {
    assert i * size + j < (i + 1) * size;
    assert (i + 1) * size <= count * size;
  }

  /** Element j of piece i is element i * size + j of the input. */
  lemma {:induction false} ChunksAt<T>(xs: seq<T>, count: nat, size: nat, i: nat, j: nat)
    requires |xs| == count * size && i < count && j < size
    ensures i * size + j < |xs|
    ensures Chunks(xs, count, size)[i][j] == xs[i * size + j]
    decreases i
  {
    MulBound(i, j, count, size);
    if i > 0 {
      assert |xs[size..]| == (count - 1) * size;
      ChunksAt(xs[size..], count - 1, size, i - 1, j);
      assert (i - 1) * size + j + size == i * size + j;
    }
  }

  /** Cutting into pieces and flattening again gives the input back. */
  lemma {:induction false} FlattenChunks<T>(xs: seq<T>, count: nat, size: nat)
    requires |xs| == count * size
    ensures Flatten(Chunks(xs, count, size)) == xs
    decreases count
  {
    if count > 0 {
      assert count * size == (count - 1) * size + size;
      var rest := xs[size..];
      var pieces := Chunks(xs, count, size);
      assert pieces == [xs[..size]] + Chunks(rest, count - 1, size);
      assert pieces[0] == xs[..size] && pieces[1..] == Chunks(rest, count - 1, size);
      FlattenChunks(rest, count - 1, size);
      assert xs == xs[..size] + rest;
    }
  }

  /** The number of bands: `len(eigenvalues) // (nspin * len(kpoints))`. */
  function Bands(total: nat, nspin: nat, nk: nat): (nb: nat)
    requires nspin * nk > 0 && total % (nspin * nk) == 0
    ensures nspin * nk * nb == total
  {
    total / (nspin * nk)
  }

  /** `np.reshape(flat, (nspin, nk, nb))`, row-major. */
  function Reshape(flat: seq<real>, nspin: nat, nk: nat): seq<seq<seq<real>>>
    requires nspin * nk > 0 && |flat| % (nspin * nk) == 0
  {
    var nb := Bands(|flat|, nspin, nk);
    Chunks(Chunks(flat, nspin * nk, nb), nspin, nk)
  }

  /** The row-major position of entry [s][k][b] of an (_, nk, nb) tensor. */
  function Offset(nk: nat, nb: nat, s: nat, k: nat, b: nat): nat {
    (s * nk + k) * nb + b
  }

  /** Element [s][k][b] of the reshaped tensor is element (s*nk + k)*nb + b of
      the flat list, and the tensor has shape (nspin, nk, nb). */
  lemma ReshapeAt(flat: seq<real>, nspin: nat, nk: nat, s: nat, k: nat, b: nat)
    requires nspin * nk > 0 && |flat| % (nspin * nk) == 0
    requires s < nspin && k < nk && b < Bands(|flat|, nspin, nk)
    ensures var t := Reshape(flat, nspin, nk);
            |t| == nspin && |t[s]| == nk && |t[s][k]| == Bands(|flat|, nspin, nk)
    ensures Offset(nk, Bands(|flat|, nspin, nk), s, k, b) < |flat|
    ensures Reshape(flat, nspin, nk)[s][k][b] == flat[Offset(nk, Bands(|flat|, nspin, nk), s, k, b)]
  {
    var nb := Bands(|flat|, nspin, nk);
    var rows := Chunks(flat, nspin * nk, nb);
    ChunksAt(rows, nspin, nk, s, k);
    ChunksAt(flat, nspin * nk, nb, s * nk + k, b);
  }

  /** Flattening the reshaped tensor gives the flat list back. */
  lemma ReshapeFlattens(flat: seq<real>, nspin: nat, nk: nat)
    requires nspin * nk > 0 && |flat| % (nspin * nk) == 0
    ensures Flatten(Flatten(Reshape(flat, nspin, nk))) == flat
  {
    var nb := Bands(|flat|, nspin, nk);
    var rows := Chunks(flat, nspin * nk, nb);
    FlattenChunks(rows, nspin, nk);
    FlattenChunks(flat, nspin * nk, nb);
  }

  // ----- conversion and the final reshape -----

  predicate AllFloat(ts: seq<Token>) {
    forall i :: 0 <= i < |ts| ==> ts[i].Float?
  }

  function Floats(ts: seq<Token>): (r: seq<real>)
    requires AllFloat(ts)
    ensures |r| == |ts| && forall i :: 0 <= i < |ts| ==> Float(r[i]) == ts[i]
  {
    seq(|ts|, i requires 0 <= i < |ts| && AllFloat(ts) => ts[i].x)
  }

  /** Every group converts to a float. */
  predicate Converts(c: Collected) {
    && AllFloat(c.eigenvalues)
    && AllFloat(c.multiplicity)
    && forall k :: 0 <= k < |c.kpoints| ==> AllFloat(c.kpoints[k])
  }

  /** The `try` block raises nothing: every group converts, and
      `np.reshape` accepts the shape (a k-point exists, and the eigenvalue
      count is a multiple of nspin * nk). */
  predicate Reshapable(nspin: nat, c: Collected) {
    Converts(c) && nspin * |c.kpoints| > 0 && |c.eigenvalues| % (nspin * |c.kpoints|) == 0
  }

  /** Every k-point's coordinates as floats. */
  function KPointFloats(kpoints: seq<seq<Token>>): (r: seq<seq<real>>)
    requires forall k :: 0 <= k < |kpoints| ==> AllFloat(kpoints[k])
    ensures |r| == |kpoints|
    ensures forall k :: 0 <= k < |kpoints| ==> r[k] == Floats(kpoints[k])
  {
    seq(|kpoints|, k requires 0 <= k < |kpoints| && AllFloat(kpoints[k]) => Floats(kpoints[k]))
  }

  /** The `try` block after the reading loop: conversion to float arrays and
      the reshape; any exception there drops the dataset (None). */
  function Assemble(nspin: nat, c: Collected): (r: Option<Eigen>)
    ensures r.Some? ==> nspin > 0 && |c.kpoints| > 0
    ensures r.Some? ==> |r.value.kpoints| == |c.kpoints| && |r.value.multiplicity| == |c.multiplicity|
  {
    if Reshapable(nspin, c) then
      Some(Eigen(Reshape(Floats(c.eigenvalues), nspin, |c.kpoints|), KPointFloats(c.kpoints), Floats(c.multiplicity)))
    else None
  }

  /** The reshaped tensor has shape (nspin, nk, nb). */
  lemma ReshapeShape(flat: seq<real>, nspin: nat, nk: nat)
    requires nspin * nk > 0 && |flat| % (nspin * nk) == 0
    ensures var t := Reshape(flat, nspin, nk);
            |t| == nspin &&
            forall s, k :: 0 <= s < nspin && 0 <= k < nk ==>
              |t[s]| == nk && |t[s][k]| == Bands(|flat|, nspin, nk)
  {
    var nb := Bands(|flat|, nspin, nk);
    var rows := Chunks(flat, nspin * nk, nb);
    forall s, k | 0 <= s < nspin && 0 <= k < nk
      ensures |Chunks(rows, nspin, nk)[s][k]| == nb
    {
      ChunksAt(rows, nspin, nk, s, k);
    }
  }

  /** The dataset exists exactly when every group converts, there is a
      k-point, and the number of eigenvalues is a multiple of nspin * nk. */
  lemma AssembleExists(nspin: nat, c: Collected)
    ensures Assemble(nspin, c).Some? <==>
              && AllFloat(c.eigenvalues) && AllFloat(c.multiplicity)
              && (forall k :: 0 <= k < |c.kpoints| ==> AllFloat(c.kpoints[k]))
              && |c.kpoints| > 0 && nspin > 0
              && |c.eigenvalues| % (nspin * |c.kpoints|) == 0
  {
  }

  /** When it exists, the dataset has shape (nspin, nk, nb), where
      nspin * nk * nb is the number of eigenvalues. */
  lemma AssembleShape(nspin: nat, c: Collected)
    requires Reshapable(nspin, c)
    ensures Assemble(nspin, c).Some?
    ensures var e := Assemble(nspin, c).value;
            var nk := |c.kpoints|;
            var nb := Bands(|c.eigenvalues|, nspin, nk);
            && |e.values| == nspin
            && (forall s, k :: 0 <= s < nspin && 0 <= k < nk ==> |e.values[s]| == nk && |e.values[s][k]| == nb)
  {
    var flat := Floats(c.eigenvalues);
    assert Assemble(nspin, c).value.values == Reshape(flat, nspin, |c.kpoints|);
    ReshapeShape(flat, nspin, |c.kpoints|);
  }

  /** Entry [s][k][b] of the dataset is eigenvalue (s*nk + k)*nb + b of the
      reading order: band runs fastest, then k-point, then spin. */
  lemma AssembleAt(nspin: nat, c: Collected, s: nat, k: nat, b: nat)
    requires Reshapable(nspin, c)
    requires s < nspin && k < |c.kpoints| && b < Bands(|c.eigenvalues|, nspin, |c.kpoints|)
    ensures Assemble(nspin, c).Some?
    ensures var e := Assemble(nspin, c).value;
            |e.values| == nspin && |e.values[s]| == |c.kpoints| &&
            |e.values[s][k]| == Bands(|c.eigenvalues|, nspin, |c.kpoints|)
    ensures Offset(|c.kpoints|, Bands(|c.eigenvalues|, nspin, |c.kpoints|), s, k, b) < |c.eigenvalues|
    ensures c.eigenvalues[Offset(|c.kpoints|, Bands(|c.eigenvalues|, nspin, |c.kpoints|), s, k, b)]
            == Float(Assemble(nspin, c).value.values[s][k][b])
  {
    var flat := Floats(c.eigenvalues);
    assert |flat| == |c.eigenvalues|;
    assert Assemble(nspin, c).value.values == Reshape(flat, nspin, |c.kpoints|);
    ReshapeAt(flat, nspin, |c.kpoints|, s, k, b);
  }

  /** When it exists, the dataset keeps the k-points and their
      multiplicities, converted, in order. */
  lemma AssembleKPoints(nspin: nat, c: Collected)
    requires Assemble(nspin, c).Some?
    ensures var e := Assemble(nspin, c).value;
            && |e.kpoints| == |c.kpoints|
            && (forall k :: 0 <= k < |c.kpoints| ==> |e.kpoints[k]| == |c.kpoints[k]|)
            && (forall k, j :: 0 <= k < |c.kpoints| && 0 <= j < |c.kpoints[k]| ==> c.kpoints[k][j] == Float(e.kpoints[k][j]))
            && |e.multiplicity| == |c.multiplicity|
            && (forall k :: 0 <= k < |c.multiplicity| ==> c.multiplicity[k] == Float(e.multiplicity[k]))
  {
  }

  /** `get_eigenvalues` once the files are chosen: the reading loops over the
      files and their lines, then the conversion and reshape. */
  method ReadEigenvalues(nspin: nat, files: seq<seq<Line>>) returns (r: Option<Eigen>)
    ensures r == Assemble(nspin, ReadFiles(files))
  {
    var c := Nothing;
    var n := 0;
    while n < |files|
      invariant 0 <= n <= |files|
      invariant c == ReadFiles(files[..n])
    {
      var lines := files[n];
      var i := 0;
      while i < |lines|
        invariant 0 <= i <= |lines|
        invariant c == ReadLines(ReadFiles(files[..n]), n == 0, lines[..i])
      {
        assert lines[..i + 1][..i] == lines[..i];
        c := Step(c, n == 0, lines[i]);
        i := i + 1;
      }
      assert lines[..i] == lines;
      assert files[..n + 1][..n] == files[..n];
      n := n + 1;
    }
    assert files[..n] == files;
    r := Assemble(nspin, c);
  }
}
