/** The k-point list (`Wien2kParser.get_kpoints`): the `.klist` file is read
    line by line up to its end or to the first line that contains `END`;
    every line whose first six tokens are numbers gives a k-point (three
    numerators over a denominator) and a weight, and the weights are then
    divided by their sum. Exact reals stand for numpy's float64. */
module KList {
  import opened Values

  /** One line of the k-list file: its text, which the END test looks at,
      and what `float()` makes of each whitespace-separated token of it
      (None when the token is not a number). */
  datatype Line = Line(text: string, tokens: seq<Option<real>>)

  /** One k-point: fractional coordinates and raw (unnormalised) weight. */
  datatype Row = Row(coord: seq<real>, weight: real)

  /** `'END' in line`: the scan stops here. */
  predicate IsEnd(l: Line) {
    Contains(l.text, "END")
  }

  /** `np.array(line.split()[:6], dtype=float)` raises nothing. */
  predicate Numeric(l: Line) {
    forall i :: 0 <= i < |l.tokens| && i < 6 ==> l.tokens[i].Some?
  }

  /** A numeric line can be turned into a row without an exception: it has
      the six tokens the code indexes and a non-zero denominator (numpy would
      give inf or nan, which exact reals do not have). */
  predicate RowReadable(l: Line) {
    Numeric(l) ==> |l.tokens| >= 6 && l.tokens[4].value != 0.0
  }

  /** `line[1:4] / line[4]` and `line[5]`. */
  function RowOf(l: Line): (r: Row)
    requires Numeric(l) && RowReadable(l)
    ensures |r.coord| == 3
    ensures forall c :: 0 <= c < 3 ==> r.coord[c] * l.tokens[4].value == l.tokens[c + 1].value
    ensures r.weight == l.tokens[5].value
  {
    var d := l.tokens[4].value;
    Row([l.tokens[1].value / d, l.tokens[2].value / d, l.tokens[3].value / d], l.tokens[5].value)
  }

  /** Index of the first END line, or the number of lines when there is none. */
  function EndIndex(lines: seq<Line>): (e: nat)
    ensures e <= |lines|
    ensures e < |lines| ==> IsEnd(lines[e])
    ensures forall i :: 0 <= i < e ==> !IsEnd(lines[i])
  {
    if lines == [] then 0
    else if IsEnd(lines[0]) then 0
    else 1 + EndIndex(lines[1..])
  }

  /** The lines the scan reads before it stops. */
  function Scanned(lines: seq<Line>): seq<Line> {
    lines[..EndIndex(lines)]
  }

  /** The scan raises no exception. */
  predicate Readable(lines: seq<Line>) {
    forall i :: 0 <= i < EndIndex(lines) ==> RowReadable(lines[i])
  }

  /** The rows kept from lines that are all read: the numeric ones, in order. */
  function KeptRows(ls: seq<Line>): seq<Row>
    requires forall i :: 0 <= i < |ls| ==> RowReadable(ls[i])
  {
    if ls == [] then []
    else
      var last := ls[|ls| - 1];
      KeptRows(ls[..|ls| - 1]) + (if Numeric(last) then [RowOf(last)] else [])
  }

  /** The rows of a k-list file. */
  function Kept(lines: seq<Line>): seq<Row>
    requires Readable(lines)
  {
    KeptRows(Scanned(lines))
  }

  function Weights(rows: seq<Row>): (w: seq<real>)
    ensures |w| == |rows| && forall i :: 0 <= i < |rows| ==> w[i] == rows[i].weight
  {
    seq(|rows|, i requires 0 <= i < |rows| => rows[i].weight)
  }

  /** `weights /= sum(weights)`. */
  function Normalised(raw: seq<real>): (w: seq<real>)
    requires Sum(raw) != 0.0
  {
    Scaled(raw, Sum(raw))
  }

  function Scaled(xs: seq<real>, d: real): (r: seq<real>)
    requires d != 0.0
    ensures |r| == |xs| && forall i :: 0 <= i < |xs| ==> r[i] * d == xs[i]
  {
    if xs == [] then [] else [xs[0] / d] + Scaled(xs[1..], d)
  }

  lemma {:induction false} SumScaled(xs: seq<real>, d: real)
    requires d != 0.0
    ensures Sum(Scaled(xs, d)) == Sum(xs) / d
  {
    if xs != [] {
      SumScaled(xs[1..], d);
      assert Scaled(xs, d)[1..] == Scaled(xs[1..], d);
    }
  }

  /** After normalisation each weight is its raw weight over the raw sum, so
      the weights sum to exactly one. */
  lemma NormalisedWeights(raw: seq<real>)
    requires Sum(raw) != 0.0
    ensures |Normalised(raw)| == |raw|
    ensures forall i :: 0 <= i < |raw| ==> Normalised(raw)[i] * Sum(raw) == raw[i]
    ensures Sum(Normalised(raw)) == 1.0
  {
    var total := Sum(raw);
    SumScaled(raw, total);
    assert Normalised(raw) == Scaled(raw, total);
    assert total / total == 1.0;
  }

  /** The scan stops at the first END line: nothing after it matters, and the
      rows are those of the lines before it, numeric ones only, in order. */
  lemma StopsAtEnd(before: seq<Line>, end: Line, after: seq<Line>)
    requires forall i :: 0 <= i < |before| ==> !IsEnd(before[i]) && RowReadable(before[i])
    requires IsEnd(end)
    ensures Readable(before + [end] + after)
    ensures Kept(before + [end] + after) == KeptRows(before)
  {
    var lines := before + [end] + after;
    assert forall i :: 0 <= i < |before| ==> lines[i] == before[i];
    assert lines[|before|] == end;
    EndIndexAt(lines, |before|);
    assert lines[..|before|] == before;
  }

  lemma {:induction false} EndIndexAt(lines: seq<Line>, k: nat)
    requires k < |lines| && IsEnd(lines[k])
    requires forall i :: 0 <= i < k ==> !IsEnd(lines[i])
    ensures EndIndex(lines) == k
  {
    if k > 0 {
      EndIndexAt(lines[1..], k - 1);
    }
  }

  /** A line that is not numeric is skipped, and a numeric line adds exactly
      its own row at the end. */
  lemma KeptRowsStep(ls: seq<Line>, l: Line)
    requires forall i :: 0 <= i < |ls| ==> RowReadable(ls[i])
    requires RowReadable(l)
    ensures forall i :: 0 <= i < |ls + [l]| ==> RowReadable((ls + [l])[i])
    ensures !Numeric(l) ==> KeptRows(ls + [l]) == KeptRows(ls)
    ensures Numeric(l) ==> KeptRows(ls + [l]) == KeptRows(ls) + [RowOf(l)]
  {
    assert (ls + [l])[..|ls|] == ls;
  }

  /** `get_kpoints` once the k-list file is found: the scan loop, then the
      normalisation. */
  method ReadKList(lines: seq<Line>) returns (kpoints: seq<seq<real>>, weights: seq<real>)
    requires Readable(lines)
    requires Sum(Weights(Kept(lines))) != 0.0
    ensures |kpoints| == |Kept(lines)| && forall i :: 0 <= i < |kpoints| ==> kpoints[i] == Kept(lines)[i].coord
    ensures weights == Normalised(Weights(Kept(lines)))
  {
    var points: seq<seq<real>> := [];
    var raw: seq<real> := [];
    var i := 0;
    while true
      invariant 0 <= i <= EndIndex(lines)
      invariant |points| == |raw| == |KeptRows(lines[..i])|
      invariant forall j :: 0 <= j < |points| ==> points[j] == KeptRows(lines[..i])[j].coord
      invariant raw == Weights(KeptRows(lines[..i]))
      decreases |lines| - i
    {
      if i == |lines| || IsEnd(lines[i]) {
        break;
      }
      var line := lines[i];
      assert lines[..i + 1] == lines[..i] + [line];
      KeptRowsStep(lines[..i], line);
      i := i + 1;
      if !Numeric(line) {
        continue;
      }
      var row := RowOf(line);
      points := points + [row.coord];
      raw := raw + [row.weight];
    }
    assert i == EndIndex(lines);
    kpoints := points;
    weights := Normalised(raw);
  }
}
