/** Copied tables, rows and bytes, and their sums over lists. */
module Tallies {

  datatype Tally = Tally(tables: nat, rows: nat, bytes: nat)

  function Plus(a: Tally, b: Tally): Tally {
    Tally(a.tables + b.tables, a.rows + b.rows, a.bytes + b.bytes)
  }

  lemma PlusZero(a: Tally)
    ensures Plus(a, ZERO) == a && Plus(ZERO, a) == a
  {
  }

  lemma PlusAssociative(a: Tally, b: Tally, c: Tally)
    ensures Plus(Plus(a, b), c) == Plus(a, Plus(b, c))
  {
  }

  const ZERO := Tally(0, 0, 0)

  function Sum(xs: seq<Tally>): Tally {
    if xs == [] then ZERO else Plus(Sum(xs[..|xs| - 1]), xs[|xs| - 1])
  }

  lemma SumAppend(xs: seq<Tally>, x: Tally)
    ensures Sum(xs + [x]) == Plus(Sum(xs), x)
  {
    assert (xs + [x])[..|xs|] == xs;
  }

  lemma {:induction false} SumConcat(xs: seq<Tally>, ys: seq<Tally>)
    ensures Sum(xs + ys) == Plus(Sum(xs), Sum(ys))
  {
    hide Plus;
    if ys == [] {
      assert xs + ys == xs;
      PlusZero(Sum(xs));
    } else {
      var init := ys[..|ys| - 1];
      SumConcat(xs, init);
      PlusAssociative(Sum(xs), Sum(init), ys[|ys| - 1]);
      assert (xs + ys)[..|xs + ys| - 1] == xs + init;
    }
  }

  /** Replacing one entry shifts the sum by the difference. */
  lemma {:induction false} SumUpdate(xs: seq<Tally>, i: nat, x: Tally)
    requires i < |xs|
    ensures Plus(Sum(xs[i := x]), xs[i]) == Plus(Sum(xs), x)
  {
    var last := |xs| - 1;
    if i == last {
      assert xs[i := x][..last] == xs[..last];
    } else {
      SumUpdate(xs[..last], i, x);
      assert xs[i := x][..last] == xs[..last][i := x];
    }
  }

  lemma {:induction false} SumZeros(n: nat)
    ensures Sum(seq(n, _ => ZERO)) == ZERO
  {
    if n > 0 {
      SumZeros(n - 1);
      assert seq(n, _ => ZERO)[..n - 1] == seq(n - 1, _ => ZERO);
    }
  }

  function SumOf(xs: seq<nat>): nat {
    if xs == [] then 0 else SumOf(xs[..|xs| - 1]) + xs[|xs| - 1]
  }

  lemma {:induction false} SumOfUpdate(xs: seq<nat>, i: nat, x: nat)
    requires i < |xs|
    ensures SumOf(xs[i := x]) + xs[i] == SumOf(xs) + x
  {
    var last := |xs| - 1;
    if i == last {
      assert xs[i := x][..last] == xs[..last];
    } else {
      SumOfUpdate(xs[..last], i, x);
      assert xs[i := x][..last] == xs[..last][i := x];
    }
  }

  /** The sum of a list in two parts is the sum of the parts, and one number adds up to itself. */
  lemma {:induction false} SumOfParts(xs: seq<nat>, ys: seq<nat>)
    ensures SumOf([]) == 0 && (|xs| == 1 ==> SumOf(xs) == xs[0])
    ensures SumOf(xs + ys) == SumOf(xs) + SumOf(ys)
  {
    if ys == [] {
      assert xs + ys == xs;
    } else {
      SumOfParts(xs, ys[..|ys| - 1]);
      assert (xs + ys)[..|xs + ys| - 1] == xs + ys[..|ys| - 1];
    }
  }

  /** Tables, rows and bytes are added up each on its own. */
  lemma {:induction false} SumByField(xs: seq<Tally>, tables: seq<nat>, rows: seq<nat>, bytes: seq<nat>)
    requires |tables| == |rows| == |bytes| == |xs|
    requires forall i :: 0 <= i < |xs| ==> tables[i] == xs[i].tables && rows[i] == xs[i].rows && bytes[i] == xs[i].bytes
    ensures Sum(xs).tables == SumOf(tables) && Sum(xs).rows == SumOf(rows) && Sum(xs).bytes == SumOf(bytes)
  {
    if xs != [] {
      var n := |xs| - 1;
      SumByField(xs[..n], tables[..n], rows[..n], bytes[..n]);
    }
  }
}
