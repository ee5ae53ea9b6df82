# Reversible standardisation of numeric sequences, in Dafny

This project models a small Python library that makes one-dimensional numeric
sequences comparable. It can scale a sequence in four ways, and it can undo each one.

- **Forward transforms** (`data_standardization_methods.py`) take a list or a tuple. Each returns the
  scaled container, of the same kind as the input, together with the statistic
  it divided by:
  - divide by the mean (`avg_standardize`);
  - divide by the maximum (`max_standardize`);
  - divide by the sum (`sum_standardize`);
  - z-score, `(x - mean) / population std` (`zsc_standardize`).

  `all_standardize` picks one of these by the tag `a`, `m`, `s` or `z`.
- **Inverse transforms** (`data_unstandardization_methods.py`) return numpy arrays:
  - `un_standardize` multiplies by the factor;
  - `un_zsc_standardize` computes `x * std + avg`;
  - `un_all_standardize` takes a tag and a parameter dictionary. It checks the
    tag, then that the keys the mode needs are there, and then dispatches.

Every function is pure, so the model is made of datatypes, functions and lemmas:

- `pymodel.dfy`: the Python argument kinds (`PyValue`: list, tuple, pandas
  Series, numpy array, number, string), the error outcomes, `Result`, the
  `Mode` datatype and the tag parser.
- `numeric.dfy`: sum, mean, maximum and population variance. It also has the
  element-wise maps, and the algebra that links the maps to each other and to
  the statistics.
- `standardization.dfy`: the forward transforms and their dispatcher. It also
  proves what the scaled sequences satisfy and checks the documented `[5, 10]`
  examples.
- `unstandardization.dfy`: the inverse transforms, the dictionary-driven
  dispatcher and its key rules, the documented examples, and the container check
  as the code writes it.
- `roundtrip.dfy`: `un(standardise(x)) = x`, for each transform and end to end
  through both dispatchers. This is the check the test block at the end of
  `data_unstandardization_methods.py` performs.

Numbers are exact `real`s. That makes the round trips exact algebraic facts:
`(x / f) * f = x` for `f ≠ 0`, and `((x - a) / s) * s + a = x` for `s ≠ 0`.
Dafny has no real square root, so the z-score forward transforms take the
population standard deviation `std` as an argument. Their precondition says
`std ≥ 0` and `std * std` equals the population variance (divisor N) of the
elements. This precondition applies only when the input is a list or tuple,
the only case where numpy's `std` is reached.

Where Python gives no usable result, the model returns an `Err`:

| error | when | what Python does |
|---|---|---|
| `UnsupportedType` | the argument is not an accepted container | the forward transforms return `None`; as written, the inverse transforms raise `TypeError` for anything but a list, tuple or Series (see "## Findings"), and the corrected check would return `None` |
| `InvalidMode` | the tag is not `a`, `m`, `s` or `z` | returns `None` |
| `MissingKey(k)` | the dictionary lacks the key `k` that the mode needs | returns `None` |
| `EmptyInput` | an empty list or tuple in the mean, maximum or z-score mode | `max` raises `ValueError`; numpy's mean is NaN |
| `ZeroDivisor` | the mean, maximum, sum or standard deviation is zero | dividing by a Python number (maximum, sum) raises `ZeroDivisionError`; numpy (mean, std) yields inf/NaN |

Two behaviours follow the code:

- Sum mode on an empty container divides nothing. It returns the empty
  container and the sum 0, as `sum_standardize` does.
- The forward transforms accept only lists and tuples
  (`data_standardization_methods.py:36`). The test block at
  `data_unstandardization_methods.py:197-200` passes pandas Series to
  `all_standardize`, so as written it gets `None` back. Indexing that result,
  `stand_out[0][0]` (`data_unstandardization_methods.py:204`), then raises
  `TypeError`, and the test block never reaches its round trip. The model
  follows the code, and `Standardization.AllStandardizeRejectsOtherKinds`
  states this.
- The same test block compares only the first three columns
  (`data_unstandardization_methods.py:229-231`). `RoundTrip.AllRoundTrip` covers
  all four modes. `RoundTrip.SeriesRoundTrip` covers the columns being handed
  back as pandas Series, as the test block does with `data_stand.var1` and the
  others.

## Model

| member | source | states |
|---|---|---|
| `PyModel.ParseMode` | data_standardization_methods.py:213-223 | exactly the tags a, m, s, z are accepted, and each names the mode it selects; every other tag is an InvalidMode error |
| `PyModel.ParseModeTag` | data_standardization_methods.py:187-191 | tags and modes correspond one to one: parsing a mode's tag gives that mode back |
| `Numeric.SumIsLeftFold` | data_standardization_methods.py:118 | the recursive sum equals Python's `sum`, which adds the elements from the left starting at 0 |
| `Numeric.MeanAtMost` | data_standardization_methods.py:40 | numpy's average of a non-empty sequence is at most any bound of its elements |
| `Numeric.MeanAtLeast` | data_standardization_methods.py:159 | numpy's average of a non-empty sequence is at least any lower bound of its elements |
| `Numeric.MeanOfConstant` | data_standardization_methods.py:40 | the average of copies of one value is that value |
| `Numeric.MeanAtMostMax` | data_standardization_methods.py:40 | the average is at most Python's max of the same sequence |
| `Numeric.PopulationVariance` | data_standardization_methods.py:160 | the population variance (squared deviations from the mean, divided by N) that numpy's `std` takes the root of is never negative |
| `Numeric.PopulationStdUnique` | data_standardization_methods.py:160 | at most one non-negative number squares to a sequence's population variance, so `IsPopulationStd` names numpy's `std` of the sequence and nothing else |
| `Numeric.MaxOf` | data_standardization_methods.py:79 | Python's max of a non-empty sequence is one of its elements, and no element exceeds it |
| `Numeric.DivideAll` | data_standardization_methods.py:83 | the comprehension `[i / mx for i in v]`: same length, element i is v[i] divided by the divisor |
| `Numeric.ZScores` | data_standardization_methods.py:162-164 | `(v - avg) / std`: same length, element i is (v[i] - avg) / std |
| `Numeric.MultiplyAll` | data_unstandardization_methods.py:48 | `vector_of_values * standard_value`: same length, element i is v[i] times the factor |
| `Numeric.AffineAll` | data_unstandardization_methods.py:92 | `vector_of_values * stdev + avg`: same length, element i is v[i] * stdev + avg |
| `Numeric.ProductOfQuotient` | data_unstandardization_methods.py:35-43 | multiplying a sequence divided by f (f ≠ 0) by f gives the original elements back |
| `Numeric.AffineOfZScore` | data_unstandardization_methods.py:80-86 | scaling z-scores by the spread and adding the centre gives the original elements back |
| `Numeric.SumOfQuotient` | data_standardization_methods.py:118-123 | the sum of a sequence divided by f is its sum divided by f |
| `Numeric.SumOfZScores` | data_standardization_methods.py:159-164 | the z-scores around a, times d, sum to the sum minus N·a |
| `Numeric.SquaresOfZScores` | data_standardization_methods.py:159-164 | with a positive spread d, each squared z-score is the squared deviation from a divided by d² |
| `Numeric.ZScoresHaveMeanZero` | data_standardization_methods.py:159-164 | z-scoring around the mean with any non-zero spread gives a sequence of mean 0 |
| `Numeric.ZScoresHaveVarianceOne` | data_standardization_methods.py:159-164 | z-scoring around the mean with the non-zero population standard deviation gives population variance 1 |
| `Numeric.QuotientByMean` | data_standardization_methods.py:40-44 | a sequence divided by its (non-zero) mean has mean 1 |
| `Numeric.ZScoresByMeanAndStd` | data_standardization_methods.py:159-164 | z-scoring with the mean and the non-zero population standard deviation gives mean 0 and population variance 1 |
| `Standardization.Rebuild` | data_standardization_methods.py:41-44 | a tuple input gives a tuple, a list input a list, holding the given elements |
| `Standardization.AvgStandardize` | data_standardization_methods.py:36-45 | non-list/tuple is UnsupportedType, empty is EmptyInput, zero mean is ZeroDivisor; otherwise the same container kind with element i = v[i] / mean, and the mean as factor |
| `Standardization.MaxStandardize` | data_standardization_methods.py:75-84 | the same error cases with the maximum; otherwise the same container kind with element i = v[i] / max, and the max as factor |
| `Standardization.SumStandardize` | data_standardization_methods.py:114-123 | non-list/tuple is UnsupportedType; empty gives the empty container and sum 0; zero sum of a non-empty input is ZeroDivisor; otherwise element i = v[i] / sum, and the sum as factor |
| `Standardization.ZscStandardize` | data_standardization_methods.py:155-165 | non-list/tuple is UnsupportedType, empty is EmptyInput, zero std is ZeroDivisor; otherwise the same container kind with element i = (v[i] - mean) / std, the mean and the std |
| `Standardization.AllStandardize` | data_standardization_methods.py:213-226 | a tag outside a, m, s, z is InvalidMode; each valid tag gives exactly its transform's result; the final else is unreachable (proved in the body) |
| `Standardization.AvgStandardizedMeanIsOne` | data_standardization_methods.py:39-45 | the mean-scaled sequence has mean 1 |
| `Standardization.MaxStandardizedBounds` | data_standardization_methods.py:78-84 | with a positive maximum every scaled element is at most 1, an element becomes 1 exactly when it equals the maximum, and one does |
| `Standardization.SumStandardizedSumsToOne` | data_standardization_methods.py:117-123 | a non-empty sum-scaled sequence sums to 1 |
| `Standardization.ZScoresAreStandard` | data_standardization_methods.py:158-165 | z-scores have mean 0 and population variance 1 |
| `Standardization.AvgExample` | data_standardization_methods.py:30-34 | [5, 10] as list and as tuple gives [2/3, 4/3] of the same kind and 7.5 |
| `Standardization.MaxExample` | data_standardization_methods.py:69-73 | [5, 10] gives [0.5, 1.0] and 10 |
| `Standardization.SumExample` | data_standardization_methods.py:108-112 | [5, 10] gives [1/3, 2/3] and 15 |
| `Standardization.StdExample` | data_standardization_methods.py:152-153 | 2.5 is the population standard deviation of [5, 10] |
| `Standardization.ZscExample` | data_standardization_methods.py:149-153 | [5, 10] gives [-1, 1], 7.5 and 2.5 |
| `Standardization.AllStandardizeRejectsOtherKinds` | data_standardization_methods.py:36-38 | anything but a list or tuple (a pandas Series included) is an error in every mode, UnsupportedType for a valid tag |
| `Unstandardization.UnStandardize` | data_unstandardization_methods.py:45-55 | an accepted container (list, tuple, Series, array) gives a numpy array with element i = v[i] * factor; anything else is UnsupportedType |
| `Unstandardization.UnZscStandardize` | data_unstandardization_methods.py:89-99 | an accepted container gives a numpy array with element i = v[i] * stdev + avg; anything else is UnsupportedType |
| `Unstandardization.FactorKey` | data_unstandardization_methods.py:151-165 | the dividing modes read their factor from "avg", "max" and "sum" |
| `Unstandardization.RequiredKeys` | data_unstandardization_methods.py:149-177 | a needs {avg}, m needs {max}, s needs {sum}, z needs {avg, std} |
| `Unstandardization.UnAllStandardize` | data_unstandardization_methods.py:146-179 | an invalid tag is InvalidMode; a missing required key is MissingKey naming a required key absent from the dictionary; otherwise the matching inverse applied to the dictionary's values |
| `Unstandardization.UnAllStandardizeIgnoresOtherKeys` | data_unstandardization_methods.py:151-173 | two dictionaries that agree on the mode's required keys give the same result, whatever else they contain |
| `Unstandardization.AvgKeyShared` | data_unstandardization_methods.py:151-172 | modes a and z read the same "avg" entry |
| `Unstandardization.UnStandardizeExamples` | data_unstandardization_methods.py:35-43 | [2/3, 4/3] with 7.5, [0.5, 1] with 10 and [1/3, 2/3] with 15 all give [5, 10] |
| `Unstandardization.UnZscStandardizeExample` | data_unstandardization_methods.py:82-86 | [-1, 1] with avg 7.5 and std 2.5 gives [5, 10] |
| `Unstandardization.MissingAvgExample` | data_unstandardization_methods.py:149-154 | mode a with an empty dictionary is MissingKey("avg") |
| `Unstandardization.IsInstanceAsWritten` | data_unstandardization_methods.py:45 | the isinstance check as written: it holds for list, tuple and Series and raises for everything else; it never quietly fails |
| `Unstandardization.AcceptedVectorCorrectsCheck` | data_unstandardization_methods.py:45 | the corrected container check (`IsAcceptedVector`) accepts exactly what the written check lets through plus numpy arrays, and every value it refuses makes the written check raise |
| `Unstandardization.ArrayInputRaisesAsWritten` | data_unstandardization_methods.py:45-55 | a numpy array, documented as accepted, makes the written check raise, while the corrected check accepts it |
| `RoundTrip.ParamsOf` | data_unstandardization_methods.py:209-212 | the dictionary built from a forward result has exactly the mode's required keys, holding the factor, or the mean and the std |
| `RoundTrip.UnScaleRestores` | data_unstandardization_methods.py:45-49 | multiplying any successful divide-by-factor result by its factor restores the input's elements |
| `RoundTrip.AvgRoundTrip` | data_unstandardization_methods.py:35-43 | un_standardize(avg_standardize(v)) restores v |
| `RoundTrip.MaxRoundTrip` | data_unstandardization_methods.py:35-43 | un_standardize(max_standardize(v)) restores v |
| `RoundTrip.SumRoundTrip` | data_unstandardization_methods.py:35-43 | un_standardize(sum_standardize(v)) restores v, the empty case included |
| `RoundTrip.ZscRoundTrip` | data_unstandardization_methods.py:82-92 | un_zsc_standardize(zsc_standardize(v)) restores v |
| `RoundTrip.AllRoundTrip` | data_unstandardization_methods.py:209-231 | in every mode, un_all_standardize of all_standardize's output, with the dictionary built from its result, restores the input's elements |
| `RoundTrip.SameItemsSameResult` | data_unstandardization_methods.py:45-49 | the inverse dispatcher's result depends only on the elements of an accepted container, not on its kind |
| `RoundTrip.SeriesRoundTrip` | data_unstandardization_methods.py:217-227 | un_all_standardize of the standardised elements handed back as a pandas Series, with the dictionary built from the forward result, restores the input's elements in every mode |
| `RoundTrip.ExampleRoundTrip` | data_unstandardization_methods.py:217-221 | the end-to-end round trip succeeds on [5, 10] in every mode |

## Left out

- Floating point: the model uses exact reals, so the documented approximations
  (0.66666 and so on) are exact fractions. The `round(..., 6)` tolerance of the
  test block is not needed.
- `Standardization.ZscStandardize`: the standard deviation is not computed. It
  is an argument, required to be the non-negative square root of the
  population variance, because Dafny has no real square root.
- `Standardization.AllStandardize`: takes the same standard-deviation argument,
  for the z-score mode only.
- Division by zero: the model returns `ZeroDivisor` instead of the exception or
  the inf/NaN elements Python produces.
- Empty input in mean, maximum and z-score mode: the model returns `EmptyInput`.
  Python raises for the maximum and returns NaN statistics for the others.
- Non-numeric elements and the `TypeError` handlers around the arithmetic:
  elements are typed reals, so those handlers are unreachable.
- numpy/pandas conversions (`np.array(...)`, `list(...)`, `tuple(...)` of a
  numpy result): containers are modelled by their kind and their elements.
  The numpy element type is not modelled.
- `np.float` in `sum_standardize` is taken to be Python's `float`, so the
  model keeps the sum as it is. Newer numpy versions removed this name.
- The `print` diagnostics.
- The test scripts kept in string literals: random data generation and
  DataFrame building. Their round-trip check is `RoundTrip.AllRoundTrip`.

## Findings

| source | as written | input that shows it | evidently intended | confidence | as-written member | corrected member |
|---|---|---|---|---|---|---|
| data_unstandardization_methods.py:45 (and the same check at line 89) | `isinstance(v, (list, tuple, pd.core.series.Series, np.array))`: `np.array` is a function, not a type, so any value that is not a list, tuple or Series makes the check raise `TypeError`, and the `else` branch returning `None` is dead | a numpy array such as `np.array([1.0])`, which the docstring lists as accepted | numpy arrays are accepted (`np.ndarray`), and any other value yields `None` | not executed | `Unstandardization.IsInstanceAsWritten`, `Unstandardization.ArrayInputRaisesAsWritten` | `Unstandardization.UnStandardize`, `Unstandardization.UnZscStandardize` (through `IsAcceptedVector`) |
