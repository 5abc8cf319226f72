/** Shared vocabulary of the WIEN2k parser model: optional values, the loosely
    typed values the text parsers hand over, and the string and sum helpers
    that Python's str and list methods provide. */
module Values {

  datatype Option<+T> = None | Some(value: T)

  /** A value as a text parser returns it: Python's None, a float, an int,
      a string, or a list of values (a numpy vector or matrix is a list). */
  datatype Value = Null | Num(x: real) | Int(n: int) | Text(s: string) | List(items: seq<Value>)

  /** str.startswith */
  predicate StartsWith(s: string, prefix: string) {
    |prefix| <= |s| && s[..|prefix|] == prefix
  }

  /** str.endswith */
  predicate EndsWith(s: string, suffix: string) {
    |suffix| <= |s| && s[|s| - |suffix|..] == suffix
  }

  /** `t in s` for strings: t occurs somewhere in s. */
  predicate Contains(s: string, t: string) {
    StartsWith(s, t) || (s != [] && Contains(s[1..], t))
  }

  /** Python's sum over a list of numbers. */
  function Sum(xs: seq<real>): real {
    if xs == [] then 0.0 else xs[0] + Sum(xs[1..])
  }

  /** Column j of a table given by its rows (numpy's `np.transpose(t)[j]`). */
  function Column(rows: seq<seq<real>>, j: nat): (c: seq<real>)
    requires forall i :: 0 <= i < |rows| ==> j < |rows[i]|
    ensures |c| == |rows|
    ensures forall i :: 0 <= i < |c| ==> c[i] == rows[i][j]
  {
    seq(|rows|, i requires 0 <= i < |rows| => rows[i][j])
  }

  /** A list of floats as a parser value. */
  function Nums(xs: seq<real>): (v: Value)
    ensures v.List? && |v.items| == |xs|
    ensures forall i :: 0 <= i < |xs| ==> v.items[i] == Num(xs[i])
  {
    List(seq(|xs|, i requires 0 <= i < |xs| => Num(xs[i])))
  }

  /** A numeric matrix, given by its rows, as a parser value. */
  function Matrix(rows: seq<seq<real>>): (v: Value)
    ensures v.List? && |v.items| == |rows|
    ensures forall i :: 0 <= i < |rows| ==> v.items[i] == Nums(rows[i])
  {
    List(seq(|rows|, i requires 0 <= i < |rows| => Nums(rows[i])))
  }

  /** A count as list repetition treats it: `[x] * k` is empty for k <= 0. */
  function Pos(k: int): nat {
    if k > 0 then k else 0
  }

  /** `[x] * k` */
  function Repeat<T>(x: T, k: int): (r: seq<T>)
    ensures |r| == Pos(k)
    ensures forall i :: 0 <= i < |r| ==> r[i] == x
    decreases Pos(k)
  {
    if k <= 0 then [] else Repeat(x, k - 1) + [x]
  }

  /** The total of the first n counts, each taken as list repetition does. */
  function Total(counts: seq<int>, n: nat): nat
    requires n <= |counts|
  {
    if n == 0 then 0 else Total(counts, n - 1) + Pos(counts[n - 1])
  }

  /** `for n, x in enumerate(xs): out.extend([x] * counts[n])`: every element
      repeated its own number of times, consecutively, in order. */
  function Expand<T>(xs: seq<T>, counts: seq<int>): (r: seq<T>)
    requires |counts| >= |xs|
    ensures |r| == Total(counts, |xs|)
  {
    if xs == [] then []
    else Expand(xs[..|xs| - 1], counts) + Repeat(xs[|xs| - 1], counts[|xs| - 1])
  }

  /** Copy j of element n sits at offset Total(counts, n) + j, and nothing
      else is there. */
  lemma {:induction false} ExpandAt<T>(xs: seq<T>, counts: seq<int>, n: nat, j: nat)
    requires |counts| >= |xs| && n < |xs| && j < Pos(counts[n])
    ensures Total(counts, n) + j < |Expand(xs, counts)|
    ensures Expand(xs, counts)[Total(counts, n) + j] == xs[n]
  {
    var front := xs[..|xs| - 1];
    if n < |xs| - 1 {
      ExpandAt(front, counts, n, j);
      TotalMono(counts, n + 1, |front|);
    }
  }

  lemma {:induction false} TotalMono(counts: seq<int>, m: nat, n: nat)
    requires m <= n <= |counts|
    ensures Total(counts, m) <= Total(counts, n)
    decreases n
  {
    if m < n {
      TotalMono(counts, m, n - 1);
    }
  }

  /** Expanding a list extended by one element extends the expansion by that
      element's copies. */
  lemma ExpandSnoc<T>(xs: seq<T>, x: T, counts: seq<int>)
    requires |counts| > |xs|
    ensures Expand(xs + [x], counts) == Expand(xs, counts) + Repeat(x, counts[|xs|])
  {
    assert (xs + [x])[..|xs|] == xs;
  }

  /** A total only looks at the counts it adds up. */
  lemma {:induction false} TotalAgree(a: seq<int>, b: seq<int>, n: nat)
    requires n <= |a| && n <= |b|
    requires forall i :: 0 <= i < n ==> a[i] == b[i]
    ensures Total(a, n) == Total(b, n)
  {
    if n > 0 {
      TotalAgree(a, b, n - 1);
    }
  }
}
