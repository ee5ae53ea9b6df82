/** The forward transforms: each divides a list or tuple by a statistic of its
    elements and returns the scaled container of the same kind together with the
    statistic (the mean and the standard deviation for the z-score). */
module Standardization {
  import opened PyModel
  import opened Numeric

  /** What a forward transform returns: the scaled container and its factor, or,
      for the z-score, the scaled container, the mean and the standard deviation. */
  datatype Standardized =
    | Scaled(output: PyValue, factor: real)
    | ZScored(output: PyValue, avg: real, std: real)

  /** `w` is a container of the same kind as the list or tuple `v`. */
  predicate SameContainer(w: PyValue, v: PyValue) {
    (w.PyList? && v.PyList?) || (w.PyTuple? && v.PyTuple?)
  }

  /** Rebuilds a list as a list and a tuple as a tuple. */
  function Rebuild(v: PyValue, xs: seq<real>): (w: PyValue)
    requires IsListOrTuple(v)
    ensures SameContainer(w, v) && w.items == xs
  {
    if v.PyTuple? then PyTuple(xs) else PyList(xs)
  }

  /** `r` is a successful Scaled result for `v` with factor `f`. */
  predicate IsScaledBy(r: Result<Standardized>, v: PyValue, f: real) {
    && r.Ok? && r.value.Scaled?
    && r.value.factor == f
    && SameContainer(r.value.output, v)
    && IsQuotient(r.value.output.items, v.items, f)
  }

  /** Divide by the mean. */
  function AvgStandardize(v: PyValue): (r: Result<Standardized>)
    ensures !IsListOrTuple(v) ==> r == Err(UnsupportedType)
    ensures IsListOrTuple(v) && v.items == [] ==> r == Err(EmptyInput)
    ensures IsListOrTuple(v) && v.items != [] && Mean(v.items) == 0.0 ==> r == Err(ZeroDivisor)
    ensures IsListOrTuple(v) && v.items != [] && Mean(v.items) != 0.0 ==> IsScaledBy(r, v, Mean(v.items))
  {
    if !IsListOrTuple(v) then Err(UnsupportedType)
    else if v.items == [] then Err(EmptyInput)
    else
      var avg := Mean(v.items);
      if avg == 0.0 then Err(ZeroDivisor)
      else Ok(Scaled(Rebuild(v, DivideAll(v.items, avg)), avg))
  }

  /** Divide by the maximum. */
  function MaxStandardize(v: PyValue): (r: Result<Standardized>)
    ensures !IsListOrTuple(v) ==> r == Err(UnsupportedType)
    ensures IsListOrTuple(v) && v.items == [] ==> r == Err(EmptyInput)
    ensures IsListOrTuple(v) && v.items != [] && MaxOf(v.items) == 0.0 ==> r == Err(ZeroDivisor)
    ensures IsListOrTuple(v) && v.items != [] && MaxOf(v.items) != 0.0 ==> IsScaledBy(r, v, MaxOf(v.items))
  {
    if !IsListOrTuple(v) then Err(UnsupportedType)
    else if v.items == [] then Err(EmptyInput)
    else
      var mx := MaxOf(v.items);
      if mx == 0.0 then Err(ZeroDivisor)
      else Ok(Scaled(Rebuild(v, DivideAll(v.items, mx)), mx))
  }

  /** Divide by the sum. An empty container divides nothing and comes back
      empty with sum 0. */
  function SumStandardize(v: PyValue): (r: Result<Standardized>)
    ensures !IsListOrTuple(v) ==> r == Err(UnsupportedType)
    ensures IsListOrTuple(v) && v.items == [] ==> r == Ok(Scaled(v, 0.0))
    ensures IsListOrTuple(v) && v.items != [] && Sum(v.items) == 0.0 ==> r == Err(ZeroDivisor)
    ensures IsListOrTuple(v) && Sum(v.items) != 0.0 ==> IsScaledBy(r, v, Sum(v.items))
  {
    if !IsListOrTuple(v) then Err(UnsupportedType)
    else
      var sm := Sum(v.items);
      if v.items == [] then Ok(Scaled(Rebuild(v, []), sm))
      else if sm == 0.0 then Err(ZeroDivisor)
      else Ok(Scaled(Rebuild(v, DivideAll(v.items, sm)), sm))
  }

  /** Subtract the mean and divide by the population standard deviation `std`,
      which the caller supplies (numpy's `std` takes a square root). */
  function ZscStandardize(v: PyValue, std: real): (r: Result<Standardized>)
    requires IsListOrTuple(v) ==> IsPopulationStd(v.items, std)
    ensures !IsListOrTuple(v) ==> r == Err(UnsupportedType)
    ensures IsListOrTuple(v) && v.items == [] ==> r == Err(EmptyInput)
    ensures IsListOrTuple(v) && v.items != [] && std == 0.0 ==> r == Err(ZeroDivisor)
    ensures IsListOrTuple(v) && v.items != [] && std != 0.0 ==>
      && r.Ok? && r.value.ZScored?
      && r.value.avg == Mean(v.items) && r.value.std == std
      && SameContainer(r.value.output, v)
      && IsZScoreOf(r.value.output.items, v.items, Mean(v.items), std)
  {
    if !IsListOrTuple(v) then Err(UnsupportedType)
    else if v.items == [] then Err(EmptyInput)
    else
      var avg := Mean(v.items);
      if std == 0.0 then Err(ZeroDivisor)
      else Ok(ZScored(Rebuild(v, ZScores(v.items, avg, std)), avg, std))
  }

  /** Selects a transform by its one-character tag. */
  function AllStandardize(v: PyValue, t: string, std: real): (r: Result<Standardized>)
    requires t == "z" && IsListOrTuple(v) ==> IsPopulationStd(v.items, std)
    ensures t !in ValidTags ==> r == Err(InvalidMode)
    ensures t == "a" ==> r == AvgStandardize(v)
    ensures t == "m" ==> r == MaxStandardize(v)
    ensures t == "s" ==> r == SumStandardize(v)
    ensures t == "z" ==> r == ZscStandardize(v, std)
  {
    if t !in ValidTags then Err(InvalidMode)
    else if t == "a" then AvgStandardize(v)
    else if t == "m" then MaxStandardize(v)
    else if t == "s" then SumStandardize(v)
    else if t == "z" then ZscStandardize(v, std)
    else assert false; Err(InvalidMode)
  }

  // ---------------------------------------------------------------------------
  // What the scaled sequences satisfy.

  /** Dividing by the mean gives a sequence whose mean is 1. */
  lemma {:induction false} AvgStandardizedMeanIsOne(v: PyValue)
    requires AvgStandardize(v).Ok?
    ensures Mean(AvgStandardize(v).value.output.items) == 1.0
  {
    var r := AvgStandardize(v).value;
    QuotientByMean(r.output.items, v.items);
  }

  /** With a positive maximum, every scaled element is at most 1 and the
      elements equal to the maximum become exactly 1. */
  lemma {:induction false} MaxStandardizedBounds(v: PyValue)
    requires MaxStandardize(v).Ok? && MaxStandardize(v).value.factor > 0.0
    ensures var w := MaxStandardize(v).value.output.items;
      && (forall i :: 0 <= i < |w| ==> w[i] <= 1.0)
      && (forall i :: 0 <= i < |w| ==> (w[i] == 1.0 <==> v.items[i] == MaxOf(v.items)))
      && (exists i :: 0 <= i < |w| && w[i] == 1.0)
  {
    var w := MaxStandardize(v).value.output.items;
    var mx := MaxOf(v.items);
    forall i | 0 <= i < |w|
      ensures w[i] <= 1.0
      ensures w[i] == 1.0 <==> v.items[i] == mx
    {
      QuotientByBound(v.items[i], mx);
    }
    var k :| 0 <= k < |v.items| && v.items[k] == mx;
    assert w[k] == 1.0;
  }

  /** A number no greater than a positive bound, divided by that bound, is at
      most 1, and is 1 exactly when it equals the bound. */
  lemma QuotientByBound(x: real, m: real)
    requires x <= m && m > 0.0
    ensures x / m <= 1.0
    ensures x / m == 1.0 <==> x == m
  {
    assert x / m * m == x;
  }

  /** Dividing by a non-zero sum gives a sequence that sums to 1. */
  lemma {:induction false} SumStandardizedSumsToOne(v: PyValue)
    requires SumStandardize(v).Ok? && v.items != []
    ensures Sum(SumStandardize(v).value.output.items) == 1.0
  {
    var r := SumStandardize(v).value;
    SumOfQuotient(r.output.items, v.items, r.factor);
  }

  /** Z-scores have mean 0 and population variance 1. */
  lemma {:induction false} ZScoresAreStandard(v: PyValue, std: real)
    requires IsListOrTuple(v) ==> IsPopulationStd(v.items, std)
    requires ZscStandardize(v, std).Ok?
    ensures var w := ZscStandardize(v, std).value.output.items;
      |w| > 0 && Mean(w) == 0.0 && PopulationVariance(w) == 1.0
  {
    var r := ZscStandardize(v, std).value;
    ZScoresByMeanAndStd(r.output.items, v.items, std);
  }

  // ---------------------------------------------------------------------------
  // The documented examples, exactly: [5, 10] in every mode.

  lemma AvgExample()
    ensures AvgStandardize(PyList([5.0, 10.0])) == Ok(Scaled(PyList([2.0 / 3.0, 4.0 / 3.0]), 7.5))
    ensures AvgStandardize(PyTuple([5.0, 10.0])) == Ok(Scaled(PyTuple([2.0 / 3.0, 4.0 / 3.0]), 7.5))
  {
    var xs := [5.0, 10.0];
    assert Sum(xs) == 15.0 by { assert xs[1..] == [10.0]; assert [10.0][1..] == []; }
    assert DivideAll(xs, 7.5) == [2.0 / 3.0, 4.0 / 3.0];
  }

  lemma MaxExample()
    ensures MaxStandardize(PyList([5.0, 10.0])) == Ok(Scaled(PyList([0.5, 1.0]), 10.0))
  {
    var xs := [5.0, 10.0];
    assert xs[1..] == [10.0];
    assert MaxOf(xs) == 10.0;
    assert DivideAll(xs, 10.0) == [0.5, 1.0];
  }

  lemma SumExample()
    ensures SumStandardize(PyList([5.0, 10.0])) == Ok(Scaled(PyList([1.0 / 3.0, 2.0 / 3.0]), 15.0))
  {
    var xs := [5.0, 10.0];
    assert Sum(xs) == 15.0 by { assert xs[1..] == [10.0]; assert [10.0][1..] == []; }
    assert DivideAll(xs, 15.0) == [1.0 / 3.0, 2.0 / 3.0];
  }

  /** 2.5 is the population standard deviation of [5, 10]. */
  lemma StdExample()
    ensures IsPopulationStd([5.0, 10.0], 2.5)
  {
    var xs := [5.0, 10.0];
    assert Sum(xs) == 15.0 by { assert xs[1..] == [10.0]; assert [10.0][1..] == []; }
    assert Mean(xs) == 7.5;
    assert Squares(xs, 7.5) == [6.25, 6.25];
    assert Sum([6.25, 6.25]) == 12.5 by { assert [6.25, 6.25][1..] == [6.25]; assert [6.25][1..] == []; }
  }

  lemma ZscExample()
    ensures IsPopulationStd([5.0, 10.0], 2.5)
    ensures ZscStandardize(PyList([5.0, 10.0]), 2.5) == Ok(ZScored(PyList([-1.0, 1.0]), 7.5, 2.5))
  {
    StdExample();
    var xs := [5.0, 10.0];
    assert Sum(xs) == 15.0 by { assert xs[1..] == [10.0]; assert [10.0][1..] == []; }
    assert ZScores(xs, 7.5, 2.5) == [-1.0, 1.0];
  }

  /** Only lists and tuples are accepted: a pandas Series, in particular, is
      refused in every valid mode. */
  lemma AllStandardizeRejectsOtherKinds(v: PyValue, t: string, std: real)
    requires !IsListOrTuple(v)
    ensures AllStandardize(v, t, std).Err?
    ensures t in ValidTags ==> AllStandardize(v, t, std) == Err(UnsupportedType)
  {
  }
}
