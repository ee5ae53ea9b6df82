/** Un-standardising a standardised sequence gives the original values back, per
    transform and through the two dispatchers with the parameter dictionaries
    built from the forward results. */
module RoundTrip {
  import opened PyModel
  import opened Numeric
  import opened Standardization
  import opened Unstandardization

  /** The parameter dictionary built from a forward result: the factor under the
      mode's key, or the mean and standard deviation for the z-score. */
  function ParamsOf(m: Mode, s: Standardized): (dic: map<string, real>)
    requires (m == ByZScore) == s.ZScored?
    ensures dic.Keys == RequiredKeys(m)
    ensures m == ByZScore ==> dic["avg"] == s.avg && dic["std"] == s.std
    ensures m != ByZScore ==> dic[FactorKey(m)] == s.factor
  {
    if m == ByZScore then map["avg" := s.avg, "std" := s.std]
    else map[FactorKey(m) := s.factor]
  }

  /** Multiplying a Scaled result by its factor restores the input's values. */
  lemma {:induction false} UnScaleRestores(v: PyValue, r: Result<Standardized>, f: real)
    requires IsScaledBy(r, v, f)
    ensures UnStandardize(r.value.output, f) == Ok(PyArray(v.items))
  {
    var w := r.value.output.items;
    ProductOfQuotient(w, v.items, f);
    ProductUnique(MultiplyAll(w, f), v.items, w, f);
  }

  lemma AvgRoundTrip(v: PyValue)
    requires AvgStandardize(v).Ok?
    ensures var s := AvgStandardize(v).value;
      UnStandardize(s.output, s.factor) == Ok(PyArray(v.items))
  {
    UnScaleRestores(v, AvgStandardize(v), AvgStandardize(v).value.factor);
  }

  lemma MaxRoundTrip(v: PyValue)
    requires MaxStandardize(v).Ok?
    ensures var s := MaxStandardize(v).value;
      UnStandardize(s.output, s.factor) == Ok(PyArray(v.items))
  {
    UnScaleRestores(v, MaxStandardize(v), MaxStandardize(v).value.factor);
  }

  lemma SumRoundTrip(v: PyValue)
    requires SumStandardize(v).Ok?
    ensures var s := SumStandardize(v).value;
      UnStandardize(s.output, s.factor) == Ok(PyArray(v.items))
  {
    if v.items != [] {
      UnScaleRestores(v, SumStandardize(v), SumStandardize(v).value.factor);
    }
  }

  lemma {:induction false} ZscRoundTrip(v: PyValue, std: real)
    requires IsListOrTuple(v) ==> IsPopulationStd(v.items, std)
    requires ZscStandardize(v, std).Ok?
    ensures var s := ZscStandardize(v, std).value;
      UnZscStandardize(s.output, s.avg, s.std) == Ok(PyArray(v.items))
  {
    var s := ZscStandardize(v, std).value;
    var w := s.output.items;
    AffineOfZScore(w, v.items, s.avg, s.std);
    AffineUnique(AffineAll(w, s.std, s.avg), v.items, w, s.std, s.avg);
  }

  /** End to end, in every mode: standardise, build the dictionary from the
      result, and un-standardise with the same tag; the values come back. */
  lemma {:induction false} AllRoundTrip(v: PyValue, m: Mode, std: real)
    requires ModeTag(m) == "z" && IsListOrTuple(v) ==> IsPopulationStd(v.items, std)
    requires AllStandardize(v, ModeTag(m), std).Ok?
    ensures var s := AllStandardize(v, ModeTag(m), std).value;
      && (m == ByZScore) == s.ZScored?
      && UnAllStandardize(s.output, ModeTag(m), ParamsOf(m, s)) == Ok(PyArray(v.items))
  {
    ParseModeTag(m);
    match m
    case ByAverage => AvgRoundTrip(v);
    case ByMaximum => MaxRoundTrip(v);
    case BySum => SumRoundTrip(v);
    case ByZScore => ZscRoundTrip(v, std);
  }

  /** The same round trip with the standardised column handed back as a pandas
      Series, as a DataFrame column is. */
  lemma SeriesRoundTrip(v: PyValue, m: Mode, std: real)
    requires ModeTag(m) == "z" && IsListOrTuple(v) ==> IsPopulationStd(v.items, std)
    requires AllStandardize(v, ModeTag(m), std).Ok?
    ensures var s := AllStandardize(v, ModeTag(m), std).value;
      UnAllStandardize(PySeries(s.output.items), ModeTag(m), ParamsOf(m, s)) == Ok(PyArray(v.items))
  {
    AllRoundTrip(v, m, std);
    var s := AllStandardize(v, ModeTag(m), std).value;
    SameItemsSameResult(s.output, PySeries(s.output.items), ModeTag(m), ParamsOf(m, s));
  }

  /** The inverse dispatcher looks only at the elements of an accepted container. */
  lemma SameItemsSameResult(v: PyValue, w: PyValue, t: string, dic: map<string, real>)
    requires IsAcceptedVector(v) && IsAcceptedVector(w) && v.items == w.items
    ensures UnAllStandardize(v, t, dic) == UnAllStandardize(w, t, dic)
  {
  }

  /** The end-to-end round trip on the documented example [5, 10]. */
  lemma ExampleRoundTrip(m: Mode)
    ensures var v := PyList([5.0, 10.0]);
      var s := AllStandardize(v, ModeTag(m), 2.5);
      s.Ok? && UnAllStandardize(s.value.output, ModeTag(m), ParamsOf(m, s.value)) == Ok(PyArray([5.0, 10.0]))
  {
    var v := PyList([5.0, 10.0]);
    AvgExample();
    MaxExample();
    SumExample();
    ZscExample();
    AllRoundTrip(v, m, 2.5);
  }
}
