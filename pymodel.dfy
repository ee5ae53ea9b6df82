/** The Python values the scaling functions receive, the ways they fail, and the
    one-character mode tags that select a transform. */
module PyModel {

  /** The kinds of argument the two scaling files tell apart. Numbers are exact
      reals; a container's elements are already numeric. */
  datatype PyValue =
    | PyList(items: seq<real>)      // a Python list
    | PyTuple(items: seq<real>)     // a Python tuple
    | PySeries(items: seq<real>)    // a pandas Series (a labelled column)
    | PyArray(items: seq<real>)     // a numpy ndarray
    | PyScalar(x: real)             // a single number
    | PyString(text: string)        // a string

  /** The forward transforms accept exactly these two container kinds. */
  predicate IsListOrTuple(v: PyValue) {
    v.PyList? || v.PyTuple?
  }

  /** Why a call produced no scaled sequence. */
  datatype Error =
    | UnsupportedType          // the argument is not an accepted container
    | InvalidMode              // the mode tag is not one of a, m, s, z
    | MissingKey(key: string)  // the parameter dictionary lacks a key the mode needs
    | EmptyInput               // the statistic of an empty sequence is undefined
    | ZeroDivisor              // the statistic to divide by is zero

  datatype Result<T> = Ok(value: T) | Err(error: Error)

  /** The four transforms. */
  datatype Mode = ByAverage | ByMaximum | BySum | ByZScore

  /** The tags both dispatchers accept. */
  const ValidTags: set<string> := {"a", "m", "s", "z"}

  function ModeTag(m: Mode): (t: string)
    ensures t in ValidTags
  {
    match m
    case ByAverage => "a"
    case ByMaximum => "m"
    case BySum => "s"
    case ByZScore => "z"
  }

  /** Reads a mode tag: exactly the four valid tags name a mode, and the mode
      read is the one that tag names. */
  function ParseMode(t: string): (r: Result<Mode>)
    ensures r.Ok? <==> t in ValidTags
    ensures r.Ok? ==> ModeTag(r.value) == t
    ensures r.Err? ==> r.error == InvalidMode
  {
    if t == "a" then Ok(ByAverage)
    else if t == "m" then Ok(ByMaximum)
    else if t == "s" then Ok(BySum)
    else if t == "z" then Ok(ByZScore)
    else Err(InvalidMode)
  }

  /** Tags and modes are in one-to-one correspondence. */
  lemma ParseModeTag(m: Mode)
    ensures ParseMode(ModeTag(m)) == Ok(m)
  {
  }
}
