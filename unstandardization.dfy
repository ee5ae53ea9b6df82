/** The inverse transforms: multiply back by the factor (average, maximum and sum
    modes) or scale and shift back by the standard deviation and mean (z-score),
    and a dispatcher that reads the parameters it needs from a dictionary. The
    results are numpy arrays. */
module Unstandardization {
  import opened PyModel
  import opened Numeric

  /** The containers the inverse transforms accept: list, tuple, pandas Series and
      numpy array, as documented. */
  predicate IsAcceptedVector(v: PyValue) {
    v.PyList? || v.PyTuple? || v.PySeries? || v.PyArray?
  }

  /** Multiply every element by the standardisation value. */
  function UnStandardize(v: PyValue, standardValue: real): (r: Result<PyValue>)
    ensures r.Ok? <==> IsAcceptedVector(v)
    ensures r.Err? ==> r.error == UnsupportedType
    ensures r.Ok? ==> r.value.PyArray? && IsProduct(r.value.items, v.items, standardValue)
  {
    if IsAcceptedVector(v) then Ok(PyArray(MultiplyAll(v.items, standardValue)))
    else Err(UnsupportedType)
  }

  /** Scale every z-score by the standard deviation and add the mean. */
  function UnZscStandardize(v: PyValue, avg: real, stdev: real): (r: Result<PyValue>)
    ensures r.Ok? <==> IsAcceptedVector(v)
    ensures r.Err? ==> r.error == UnsupportedType
    ensures r.Ok? ==> r.value.PyArray? && IsAffineOf(r.value.items, v.items, stdev, avg)
  {
    if IsAcceptedVector(v) then Ok(PyArray(AffineAll(v.items, stdev, avg)))
    else Err(UnsupportedType)
  }

  /** The dictionary key holding the factor of a dividing mode. */
  function FactorKey(m: Mode): (k: string)
    requires m != ByZScore
    ensures k in {"avg", "max", "sum"}
  {
    match m
    case ByAverage => "avg"
    case ByMaximum => "max"
    case BySum => "sum"
  }

  /** The keys a mode reads from the parameter dictionary. */
  function RequiredKeys(m: Mode): (ks: set<string>)
    ensures m == ByZScore ==> ks == {"avg", "std"}
    ensures m != ByZScore ==> ks == {FactorKey(m)}
  {
    if m == ByZScore then {"avg", "std"} else {FactorKey(m)}
  }

  /** Selects the inverse transform by its tag and reads its parameters from
      `dic`: an unknown tag and a missing key are errors, checked in that order
      and before the container is looked at. */
  function UnAllStandardize(v: PyValue, t: string, dic: map<string, real>): (r: Result<PyValue>)
    ensures ParseMode(t).Err? ==> r == Err(InvalidMode)
    ensures ParseMode(t).Ok? && !(RequiredKeys(ParseMode(t).value) <= dic.Keys) ==>
      r.Err? && r.error.MissingKey?
      && r.error.key in RequiredKeys(ParseMode(t).value) && r.error.key !in dic
    ensures ParseMode(t).Ok? && ParseMode(t).value != ByZScore && RequiredKeys(ParseMode(t).value) <= dic.Keys ==>
      r == UnStandardize(v, dic[FactorKey(ParseMode(t).value)])
    ensures ParseMode(t).Ok? && ParseMode(t).value == ByZScore && RequiredKeys(ByZScore) <= dic.Keys ==>
      r == UnZscStandardize(v, dic["avg"], dic["std"])
  {
    if t !in ValidTags then Err(InvalidMode)
    else if t == "a" then
      if "avg" !in dic then Err(MissingKey("avg")) else UnStandardize(v, dic["avg"])
    else if t == "m" then
      if "max" !in dic then Err(MissingKey("max")) else UnStandardize(v, dic["max"])
    else if t == "s" then
      if "sum" !in dic then Err(MissingKey("sum")) else UnStandardize(v, dic["sum"])
    else if t == "z" then
      if "avg" !in dic then Err(MissingKey("avg"))
      else if "std" !in dic then Err(MissingKey("std"))
      else UnZscStandardize(v, dic["avg"], dic["std"])
    else assert false; Err(InvalidMode)
  }

  /** Only the keys the mode needs are read: two dictionaries that agree on
      them give the same result, whatever else they hold. */
  lemma UnAllStandardizeIgnoresOtherKeys(v: PyValue, t: string, d1: map<string, real>, d2: map<string, real>)
    requires t in ValidTags
    requires forall k :: k in RequiredKeys(ParseMode(t).value) ==>
      (k in d1 <==> k in d2) && (k in d1 ==> d1[k] == d2[k])
    ensures UnAllStandardize(v, t, d1) == UnAllStandardize(v, t, d2)
  {
    var m := ParseMode(t).value;
    if m == ByZScore {
      assert "avg" in RequiredKeys(m) && "std" in RequiredKeys(m);
    } else {
      assert FactorKey(m) in RequiredKeys(m);
    }
  }

  /** The average and z-score modes read the same `avg` entry. */
  lemma AvgKeyShared(v: PyValue, dic: map<string, real>)
    requires "avg" in dic && "std" in dic
    ensures UnAllStandardize(v, "a", dic) == UnStandardize(v, dic["avg"])
    ensures UnAllStandardize(v, "z", dic) == UnZscStandardize(v, dic["avg"], dic["std"])
  {
  }

  // ---------------------------------------------------------------------------
  // The documented examples.

  lemma UnStandardizeExamples()
    ensures UnStandardize(PyList([2.0 / 3.0, 4.0 / 3.0]), 7.5) == Ok(PyArray([5.0, 10.0]))
    ensures UnStandardize(PyList([0.5, 1.0]), 10.0) == Ok(PyArray([5.0, 10.0]))
    ensures UnStandardize(PyList([1.0 / 3.0, 2.0 / 3.0]), 15.0) == Ok(PyArray([5.0, 10.0]))
  {
    assert MultiplyAll([2.0 / 3.0, 4.0 / 3.0], 7.5) == [5.0, 10.0];
    assert MultiplyAll([0.5, 1.0], 10.0) == [5.0, 10.0];
    assert MultiplyAll([1.0 / 3.0, 2.0 / 3.0], 15.0) == [5.0, 10.0];
  }

  lemma UnZscStandardizeExample()
    ensures UnZscStandardize(PyList([-1.0, 1.0]), 7.5, 2.5) == Ok(PyArray([5.0, 10.0]))
  {
    assert AffineAll([-1.0, 1.0], 2.5, 7.5) == [5.0, 10.0];
  }

  /** An empty parameter dictionary in average mode is a missing `avg`. */
  lemma MissingAvgExample(v: PyValue)
    ensures UnAllStandardize(v, "a", map[]) == Err(MissingKey("avg"))
  {
  }

  // ---------------------------------------------------------------------------
  // The container check as written: `isinstance(v, (list, tuple, Series, np.array))`.
  // `np.array` is a function, not a type, so for any value that is not a list,
  // tuple or Series the check reaches it and raises TypeError.

  datatype CheckOutcome = Holds | Fails | Raises

  function IsInstanceAsWritten(v: PyValue): (c: CheckOutcome)
    ensures c != Fails
    ensures c == Holds <==> v.PyList? || v.PyTuple? || v.PySeries?
  {
    if v.PyList? || v.PyTuple? || v.PySeries? then Holds else Raises
  }

  /** As written, a numpy array, although documented as accepted, makes the
      check raise; and the check never fails quietly, so the `else` branch that
      returns None cannot be reached. */
  lemma ArrayInputRaisesAsWritten(xs: seq<real>)
    ensures IsInstanceAsWritten(PyArray(xs)) == Raises
    ensures !IsAcceptedVector(PyScalar(0.0)) && IsInstanceAsWritten(PyScalar(0.0)) == Raises
    ensures IsAcceptedVector(PyArray(xs))
  {
  }

  /** The corrected check accepts exactly what the written one lets through,
      and numpy arrays besides; every value it refuses makes the written check
      raise. */
  lemma AcceptedVectorCorrectsCheck(v: PyValue)
    ensures IsAcceptedVector(v) <==> IsInstanceAsWritten(v) == Holds || v.PyArray?
    ensures !IsAcceptedVector(v) ==> IsInstanceAsWritten(v) == Raises
  {
  }
}
